/**
 * The application's own arithmetic and session state (app.py).
 *
 * The page picks the dollar value of a pip for the instrument (from a table in
 * automatic mode, from the symbol's first three letters times the manual lot
 * in manual mode), sizes the lot or takes the manual one, and simulates the
 * trade.  The session keeps two things across interactions: the ledger of
 * saved trades, appended to on "save" and emptied on "clear", and the
 * sandbox, a virtual balance with its own history that "reset" restarts and
 * "execute" moves by the gain or loss of one simulated trade.
 */
module App {
  import opened Decimal
  import opened Text
  import opened Calculadora
  import opened Simulador
  import opened RiscoAvancado

  // ---------------------------------------------------------------- pip value

  /** Dollar value of one pip per lot in automatic mode, by upper-cased symbol. */
  const TabelaValorPip: map<string, real> := map["EURUSD" := 10.0, "XAUUSD" := 1.0, "BTCUSD" := 5.0]

  /** The value used for a symbol the table does not list. */
  const ValorPipPadrao: real := 10.0

  function ValorPipAutomatico(ativo: string): (v: real)
    ensures Upper(ativo) == "EURUSD" ==> v == 10.0
    ensures Upper(ativo) == "XAUUSD" ==> v == 1.0
    ensures Upper(ativo) == "BTCUSD" ==> v == 5.0
    ensures Upper(ativo) !in {"EURUSD", "XAUUSD", "BTCUSD"} ==> v == 10.0
  {
    var chave := Upper(ativo);
    if chave in TabelaValorPip then TabelaValorPip[chave] else ValorPipPadrao
  }

  /** Python's `s[:3]`: the first three characters, or all of a shorter string. */
  function Prefixo3(s: string): (p: string)
    ensures |p| == if |s| < 3 then |s| else 3
    ensures p <= s
  {
    if |s| >= 3 then s[..3] else s
  }

  /** In manual mode the pip value is a per-prefix factor times the manual lot; the prefix is compared case-sensitively. */
  function ValorPipManual(ativo: string, loteManual: real): (v: real)
    ensures |ativo| >= 3 && ativo[..3] == "XAU" ==> v == 1.0 * loteManual
    ensures |ativo| >= 3 && ativo[..3] == "BTC" ==> v == 5.0 * loteManual
    ensures !(|ativo| >= 3 && ativo[..3] in {"XAU", "BTC"}) ==> v == 10.0 * loteManual
  {
    if Prefixo3(ativo) == "XAU" then 1.0 * loteManual
    else if Prefixo3(ativo) == "BTC" then 5.0 * loteManual
    else 10.0 * loteManual
  }

  /** The automatic pip value does not depend on how the symbol is capitalised. */
  lemma ValorPipIgnoraCaixa(ativo: string)
    ensures ValorPipAutomatico(Upper(ativo)) == ValorPipAutomatico(ativo)
  {
  }

  /**
   * The two modes disagree on symbols that are not upper-case or not in the
   * table: a lower-case gold symbol is 1.0 per lot automatically but ten
   * times the lot manually, and a gold symbol outside the table is the
   * other way round.
   */
  lemma ModosDivergem(loteManual: real)
    ensures ValorPipAutomatico("xauusd") == 1.0 && ValorPipManual("xauusd", loteManual) == 10.0 * loteManual
    ensures ValorPipAutomatico("XAUEUR") == 10.0 && ValorPipManual("XAUEUR", loteManual) == 1.0 * loteManual
  {
    assert Upper("xauusd") == "XAUUSD";
    assert Upper("XAUEUR") == "XAUEUR";
    assert "xauusd"[..3] == "xau";
    assert "XAUEUR"[..3] == "XAU";
  }

  // ------------------------------------------------------- lot and risk choice

  /** What the page computes from the sidebar's inputs. */
  datatype Calculo = Calculo(valorPip: real, lote: real, riscoValor: real, simulacao: Simulacao)

  function Calcular(capital: real, riscoPct: real, stopLoss: real, takeProfit: real,
                    ativo: string, modoManual: bool, loteManual: real): (c: Calculo)
    ensures c.valorPip == if modoManual then ValorPipManual(ativo, loteManual) else ValorPipAutomatico(ativo)
    // manual mode: the lot is the one typed in, and the risk shown is the unrounded target risk
    ensures modoManual ==> c.lote == loteManual && c.riscoValor == RiscoAlvo(capital, riscoPct)
    // automatic mode: the sized lot and the risk it actually carries
    ensures !modoManual ==> c.lote == CalcularPosicao(capital, riscoPct, stopLoss, c.valorPip).lote
    ensures !modoManual ==> c.riscoValor == CalcularPosicao(capital, riscoPct, stopLoss, c.valorPip).riscoFinanceiro
    ensures c.simulacao == SimularRiscoRetorno(capital, c.lote, stopLoss, takeProfit, c.valorPip)
    // in automatic mode the risk shown is exactly the simulated risk of the lot shown
    ensures !modoManual ==> c.riscoValor == c.simulacao.riscoTotal
  {
    var valorPip := if modoManual then ValorPipManual(ativo, loteManual) else ValorPipAutomatico(ativo);
    if modoManual then
      Calculo(valorPip, loteManual, RiscoAlvo(capital, riscoPct),
              SimularRiscoRetorno(capital, loteManual, stopLoss, takeProfit, valorPip))
    else
      var posicao := CalcularPosicao(capital, riscoPct, stopLoss, valorPip);
      SimulacaoConfirmaPosicao(capital, riscoPct, stopLoss, takeProfit, valorPip);
      Calculo(valorPip, posicao.lote, posicao.riscoFinanceiro,
              SimularRiscoRetorno(capital, posicao.lote, stopLoss, takeProfit, valorPip))
  }

  /**
   * In manual mode the pip value already carries the lot and the simulation
   * multiplies by the lot again, so the simulated risk grows with the square
   * of the manual lot.
   */
  lemma RiscoManualQuadraticoNoLote(capital: real, riscoPct: real, stopLoss: real, takeProfit: real,
                                    ativo: string, loteManual: real)
    ensures Calcular(capital, riscoPct, stopLoss, takeProfit, ativo, true, loteManual).simulacao.riscoTotal
         == Round2(Exposicao(loteManual * loteManual, stopLoss, ValorPipManual(ativo, 1.0)))
  {
    var f := ValorPipManual(ativo, 1.0);
    var v := ValorPipManual(ativo, loteManual);
    assert v == f * loteManual;
    assert Exposicao(loteManual, stopLoss, v) == loteManual * stopLoss * (f * loteManual);
    assert Exposicao(loteManual, stopLoss, v) == Exposicao(loteManual * loteManual, stopLoss, f);
  }

  // ------------------------------------------------------------------ sandbox

  datatype Direcao = Compra | Venda

  /** The outcome picked for a simulated trade: take-profit hit or stop-loss hit. */
  datatype Desfecho = HitTP | HitSL

  /** One row of the sandbox history: direction, outcome, rounded gain and rounded balance after it. */
  datatype LinhaSandbox = LinhaSandbox(direcao: Direcao, resultado: Desfecho, lucroPrejuizo: real, saldoAtual: real)

  /** The balance a fresh session starts the sandbox with. */
  const SaldoSandboxInicial: real := 1000.0

  /**
   * The sandbox history matches the gains since the reset row by row: the
   * history without its last row matches the gains without the last one, and
   * the last row records the last gain and the balance right after it, both
   * rounded to cents.
   */
  ghost predicate HistoricoCoerente(saldoInicial: real, ganhos: seq<real>, historico: seq<LinhaSandbox>) {
    |ganhos| == |historico| &&
    (ganhos != [] ==>
      && HistoricoCoerente(saldoInicial, ganhos[..|ganhos| - 1], historico[..|historico| - 1])
      && historico[|historico| - 1].lucroPrejuizo == Round2(ganhos[|ganhos| - 1])
      && historico[|historico| - 1].saldoAtual == Round2(saldoInicial + Sum(ganhos)))
  }

  /** One more execution keeps the history coherent, and the balance after it is the old one plus the gain. */
  lemma HistoricoAposExecutar(saldoInicial: real, ganhos: seq<real>, historico: seq<LinhaSandbox>,
                              direcao: Direcao, resultado: Desfecho, ganho: real)
    requires HistoricoCoerente(saldoInicial, ganhos, historico)
    ensures Sum(ganhos + [ganho]) == Sum(ganhos) + ganho
    ensures HistoricoCoerente(saldoInicial, ganhos + [ganho],
      historico + [LinhaSandbox(direcao, resultado, Round2(ganho), Round2(saldoInicial + Sum(ganhos) + ganho))])
  {
    var gs := ganhos + [ganho];
    var hs := historico + [LinhaSandbox(direcao, resultado, Round2(ganho), Round2(saldoInicial + Sum(ganhos) + ganho))];
    assert gs[..|gs| - 1] == ganhos;
    assert hs[..|hs| - 1] == historico;
    assert Sum(gs) == Sum(ganhos) + ganho;
  }

  // ------------------------------------------------------------------ session

  /** The state the page keeps across interactions. */
  class Sessao {
    var operacoes: seq<Operacao>
    var sandboxSaldo: real
    var sandboxHistorico: seq<LinhaSandbox>

    /** The balance at the last reset and the unrounded gain of every execution since. */
    ghost var saldoInicial: real
    ghost var ganhos: seq<real>

    /** The sandbox balance is the reset balance plus the sum of the gains, and each history row records its gain and the balance after it. */
    ghost predicate Valid()
      reads this
    {
      && sandboxSaldo == saldoInicial + Sum(ganhos)
      && HistoricoCoerente(saldoInicial, ganhos, sandboxHistorico)
    }

    constructor ()
      ensures Valid()
      ensures operacoes == []
      ensures sandboxSaldo == SaldoSandboxInicial && sandboxHistorico == []
      ensures saldoInicial == SaldoSandboxInicial && ganhos == []
    {
      operacoes := [];
      sandboxSaldo := SaldoSandboxInicial;
      sandboxHistorico := [];
      saldoInicial := SaldoSandboxInicial;
      ganhos := [];
    }

    /** "Save": append the trade as shown, rounded, then compute the alerts on the new ledger. */
    method SalvarOperacao(ativo: string, lote: real, riscoValor: real, simulacao: Simulacao, capital: real)
      returns (alertas: seq<Alerta>)
      requires Valid()
      modifies this`operacoes
      ensures Valid()
      ensures operacoes == old(operacoes) + [Operacao(ativo, Round2(lote), Round2(riscoValor), Round2(simulacao.retornoTotal), simulacao.rr)]
      ensures ContarOperacoesPorAtivo(operacoes, ativo) == ContarOperacoesPorAtivo(old(operacoes), ativo) + 1
      ensures alertas == GerarAlertas(operacoes, ativo, capital, LimitePctPadrao, LimiteOperacoesPadrao)
    {
      var nova := Operacao(ativo, Round2(lote), Round2(riscoValor), Round2(simulacao.retornoTotal), simulacao.rr);
      ContagemAposAnexar(operacoes, nova, ativo);
      operacoes := operacoes + [nova];
      alertas := GerarAlertas(operacoes, ativo, capital, LimitePctPadrao, LimiteOperacoesPadrao);
    }

    /** "Clear history": the ledger becomes empty, so its total risk and every count are 0. */
    method LimparHistorico()
      requires Valid()
      modifies this`operacoes
      ensures Valid()
      ensures operacoes == []
      ensures CalcularRiscoTotal(operacoes) == 0.0
      ensures forall ativo :: ContarOperacoesPorAtivo(operacoes, ativo) == 0
    {
      operacoes := [];
    }

    /** "Reset balance": the sandbox restarts from `capitalVirtual` with an empty history. */
    method RedefinirSaldo(capitalVirtual: real)
      modifies this`sandboxSaldo, this`sandboxHistorico, this`saldoInicial, this`ganhos
      ensures Valid()
      ensures sandboxSaldo == capitalVirtual && sandboxHistorico == []
      ensures saldoInicial == capitalVirtual && ganhos == []
    {
      sandboxSaldo := capitalVirtual;
      sandboxHistorico := [];
      saldoInicial := capitalVirtual;
      ganhos := [];
    }

    /**
     * "Execute simulation": the gain is the simulated reward on a take-profit
     * and minus the simulated risk on a stop-loss; it is added to the balance,
     * which is not clamped, and one history row is appended.
     */
    method ExecutarSimulacao(direcao: Direcao, resultado: Desfecho, capitalVirtual: real,
                             lote: real, stopLoss: real, takeProfit: real, valorPip: real)
      requires Valid()
      modifies this`sandboxSaldo, this`sandboxHistorico, this`ganhos
      ensures Valid()
      ensures var sim := SimularRiscoRetorno(capitalVirtual, lote, stopLoss, takeProfit, valorPip);
        var ganho := if resultado == HitTP then sim.retornoTotal else -sim.riscoTotal;
        && ganhos == old(ganhos) + [ganho]
        && sandboxSaldo == old(sandboxSaldo) + ganho
        && sandboxHistorico == old(sandboxHistorico) + [LinhaSandbox(direcao, resultado, Round2(ganho), Round2(sandboxSaldo))]
    {
      var sim := SimularRiscoRetorno(capitalVirtual, lote, stopLoss, takeProfit, valorPip);
      var ganho := if resultado == HitTP then sim.retornoTotal else -sim.riscoTotal;
      HistoricoAposExecutar(saldoInicial, ganhos, sandboxHistorico, direcao, resultado, ganho);
      ganhos := ganhos + [ganho];
      sandboxSaldo := sandboxSaldo + ganho;
      sandboxHistorico := sandboxHistorico + [LinhaSandbox(direcao, resultado, Round2(ganho), Round2(sandboxSaldo))];
    }
  }

  /**
   * The worked sandbox instance: reset to 500, a buy that hits its stop with
   * risk 20, then a sell that hits its target with reward 40.
   */
  method CenarioSandbox() returns (saldo: real, historico: seq<LinhaSandbox>)
    ensures saldo == 520.0
    ensures historico == [LinhaSandbox(Compra, HitSL, -20.0, 480.0), LinhaSandbox(Venda, HitTP, 40.0, 520.0)]
  {
    var sessao := new Sessao();
    sessao.RedefinirSaldo(500.0);
    ExemploSimulacaoSandbox();
    sessao.ExecutarSimulacao(Compra, HitSL, 500.0, 0.4, 50.0, 100.0, 1.0);
    assert sessao.sandboxSaldo == 480.0;
    sessao.ExecutarSimulacao(Venda, HitTP, 500.0, 0.4, 50.0, 100.0, 1.0);
    Round2OfCents(-2000);
    Round2OfCents(4000);
    Round2OfCents(48000);
    Round2OfCents(52000);
    saldo, historico := sessao.sandboxSaldo, sessao.sandboxHistorico;
  }

  /** A losing sandbox trade larger than the balance leaves it negative. */
  method CenarioSaldoNegativo() returns (saldo: real)
    ensures saldo == -50.0
  {
    var sessao := new Sessao();
    sessao.RedefinirSaldo(100.0);
    assert Exposicao(1.5, 100.0, 1.0) == 150.0;
    Round2OfCents(15000);
    sessao.ExecutarSimulacao(Venda, HitSL, 100.0, 1.5, 100.0, 100.0, 1.0);
    saldo := sessao.sandboxSaldo;
  }

  /** 0.4 lots, 50-point stop, 100-point target at 1.0 per point: risk 20, reward 40. */
  lemma ExemploSimulacaoSandbox()
    ensures SimularRiscoRetorno(500.0, 0.4, 50.0, 100.0, 1.0).riscoTotal == 20.0
    ensures SimularRiscoRetorno(500.0, 0.4, 50.0, 100.0, 1.0).retornoTotal == 40.0
  {
  }
}
