/**
 * Risk alerts over the ledger of saved trades (calculadora/risco_avancado.py).
 *
 * `CalcularRiscoTotal` adds up the dollar risk of every saved trade and
 * rounds the total to cents; `ContarOperacoesPorAtivo` counts the trades in
 * one instrument, comparing symbols upper-cased; `GerarAlertas` raises an
 * aggregate-risk alert when that total exceeds a percentage of the capital
 * (strictly) and a repetition alert when the instrument already has at least
 * a given number of trades (inclusively), in that order.  None of them
 * changes the ledger: it is a value here.
 */
module RiscoAvancado {
  import opened Decimal
  import opened Text

  /** One saved trade: a row of the ledger, with the columns the application writes. */
  datatype Operacao = Operacao(ativo: string, lote: real, risco: real, retorno: real, rr: real)

  /** An alert and what its message reports. */
  datatype Alerta =
    | AlertaRisco(pct: real)                  // aggregate risk is `pct` % of the capital
    | AlertaRepeticao(qtd: nat, ativo: string) // `qtd` trades are already open in `ativo`

  /** The default thresholds of `gerar_alertas`: 5 % of the capital and 3 trades. */
  const LimitePctPadrao: real := 5.0
  const LimiteOperacoesPadrao: int := 3

  /** The "Risco ($)" column of the ledger. */
  function Riscos(ops: seq<Operacao>): (rs: seq<real>)
    ensures |rs| == |ops|
    ensures forall i :: 0 <= i < |ops| ==> rs[i] == ops[i].risco
  {
    seq(|ops|, i requires 0 <= i < |ops| => ops[i].risco)
  }

  /** The total dollar risk of the ledger, rounded to cents. */
  function CalcularRiscoTotal(ops: seq<Operacao>): (t: real)
    ensures ops == [] ==> t == 0.0
    ensures IsCents(t)
    ensures -0.005 <= t - Sum(Riscos(ops)) <= 0.005
  {
    Round2Zero();
    assert ops == [] ==> Riscos(ops) == [];
    Round2(Sum(Riscos(ops)))
  }

  /** A trade is in instrument `ativo` when the two symbols agree once upper-cased. */
  predicate MesmoAtivo(op: Operacao, ativo: string) {
    Upper(op.ativo) == Upper(ativo)
  }

  /** The number of trades in the ledger that are in instrument `ativo`, counted in ledger order. */
  function ContarOperacoesPorAtivo(ops: seq<Operacao>, ativo: string): (n: nat)
    ensures n <= |ops|
    ensures ops == [] ==> n == 0
  {
    if ops == [] then 0
    else ContarOperacoesPorAtivo(ops[..|ops| - 1], ativo) + (if MesmoAtivo(ops[|ops| - 1], ativo) then 1 else 0)
  }

  /** The aggregate risk as a percentage of the capital; 0 (no division) when the capital is not positive. */
  function RiscoPct(ops: seq<Operacao>, capital: real): (pct: real)
    ensures capital <= 0.0 ==> pct == 0.0
    ensures capital > 0.0 ==> pct * capital == 100.0 * CalcularRiscoTotal(ops)
  {
    if capital > 0.0 then CalcularRiscoTotal(ops) / capital * 100.0 else 0.0
  }

  function GerarAlertas(ops: seq<Operacao>, ativo: string, capital: real, limitePct: real, limiteOperacoes: int): (r: seq<Alerta>)
    ensures |r| <= 2
    // the aggregate-risk alert: strictly above the threshold
    ensures (exists a :: a in r && a.AlertaRisco?) <==> RiscoPct(ops, capital) > limitePct
    ensures forall a :: a in r && a.AlertaRisco? ==> a.pct == RiscoPct(ops, capital) && a.pct > limitePct
    // with a non-positive capital and a non-negative threshold it is never raised
    ensures capital <= 0.0 && limitePct >= 0.0 ==> forall a :: a in r ==> a.AlertaRepeticao?
    // the repetition alert: at or above the threshold
    ensures (exists a :: a in r && a.AlertaRepeticao?) <==> ContarOperacoesPorAtivo(ops, ativo) >= limiteOperacoes
    ensures forall a :: a in r && a.AlertaRepeticao? ==>
      a.qtd == ContarOperacoesPorAtivo(ops, ativo) && a.qtd >= limiteOperacoes && a.ativo == ativo
    // at most one of each, the aggregate-risk alert first
    ensures forall i, j :: 0 <= i < j < |r| ==> r[i].AlertaRisco? && r[j].AlertaRepeticao?
  {
    var pct := RiscoPct(ops, capital);
    var qtd := ContarOperacoesPorAtivo(ops, ativo);
    var risco := if pct > limitePct then [AlertaRisco(pct)] else [];
    var repeticao := if qtd >= limiteOperacoes then [AlertaRepeticao(qtd, ativo)] else [];
    var r := risco + repeticao;
    assert pct > limitePct ==> r[0] == AlertaRisco(pct) && r[0] in r;
    assert qtd >= limiteOperacoes ==> r[|r| - 1] == AlertaRepeticao(qtd, ativo) && r[|r| - 1] in r;
    r
  }

  /** Saving one trade adds its risk to the unrounded total. */
  lemma SomaAposAnexar(ops: seq<Operacao>, op: Operacao)
    ensures Sum(Riscos(ops + [op])) == Sum(Riscos(ops)) + op.risco
  {
    assert Riscos(ops + [op]) == Riscos(ops) + [op.risco];
    SumConcat(Riscos(ops), [op.risco]);
    assert Sum([op.risco]) == Sum([]) + op.risco;
  }

  /** The total risk of two ledgers one after the other is the sum of their unrounded totals, rounded. */
  lemma RiscoTotalConcat(a: seq<Operacao>, b: seq<Operacao>)
    ensures CalcularRiscoTotal(a + b) == Round2(Sum(Riscos(a)) + Sum(Riscos(b)))
  {
    assert Riscos(a + b) == Riscos(a) + Riscos(b);
    SumConcat(Riscos(a), Riscos(b));
  }

  /** A ledger whose risks are all non-negative has a non-negative total risk. */
  lemma RiscoTotalNaoNegativo(ops: seq<Operacao>)
    requires forall i :: 0 <= i < |ops| ==> ops[i].risco >= 0.0
    ensures CalcularRiscoTotal(ops) >= 0.0
  {
    SumNonNegative(Riscos(ops));
    Round2NonNegative(Sum(Riscos(ops)));
  }

  /** Saving a trade with a non-negative risk never lowers the total risk. */
  lemma RiscoTotalCresce(ops: seq<Operacao>, op: Operacao)
    requires op.risco >= 0.0
    ensures CalcularRiscoTotal(ops) <= CalcularRiscoTotal(ops + [op])
  {
    SomaAposAnexar(ops, op);
    Round2Monotone(Sum(Riscos(ops)), Sum(Riscos(ops + [op])));
  }

  /** Saving one trade raises the count of its instrument by one and leaves every other count alone. */
  lemma ContagemAposAnexar(ops: seq<Operacao>, op: Operacao, ativo: string)
    ensures ContarOperacoesPorAtivo(ops + [op], ativo)
         == ContarOperacoesPorAtivo(ops, ativo) + (if MesmoAtivo(op, ativo) then 1 else 0)
  {
  }

  /** Counting over two ledgers one after the other adds the counts. */
  lemma {:induction false} ContagemConcat(a: seq<Operacao>, b: seq<Operacao>, ativo: string)
    ensures ContarOperacoesPorAtivo(a + b, ativo) == ContarOperacoesPorAtivo(a, ativo) + ContarOperacoesPorAtivo(b, ativo)
  {
    if b == [] {
      assert a + b == a;
    } else {
      var c := a + b;
      assert c[..|c| - 1] == a + b[..|b| - 1];
      assert c[|c| - 1] == b[|b| - 1];
      ContagemConcat(a, b[..|b| - 1], ativo);
    }
  }

  /** The count does not depend on how the queried symbol is capitalised. */
  lemma {:induction false} ContagemIgnoraCaixa(ops: seq<Operacao>, ativo: string)
    ensures ContarOperacoesPorAtivo(ops, Upper(ativo)) == ContarOperacoesPorAtivo(ops, ativo)
  {
    UpperIdempotent(ativo);
    if ops != [] {
      ContagemIgnoraCaixa(ops[..|ops| - 1], ativo);
    }
  }

  /** The count is 0 exactly when no trade is in the instrument, and the ledger's length exactly when all are. */
  lemma {:induction false} ContagemExtremos(ops: seq<Operacao>, ativo: string)
    ensures ContarOperacoesPorAtivo(ops, ativo) == 0 <==> forall i :: 0 <= i < |ops| ==> !MesmoAtivo(ops[i], ativo)
    ensures ContarOperacoesPorAtivo(ops, ativo) == |ops| <==> forall i :: 0 <= i < |ops| ==> MesmoAtivo(ops[i], ativo)
  {
    if ops != [] {
      var init := ops[..|ops| - 1];
      ContagemExtremos(init, ativo);
      assert forall i :: 0 <= i < |init| ==> init[i] == ops[i];
    }
  }

  /** With a positive capital a larger total risk is a larger percentage. */
  lemma RiscoPctCresce(a: seq<Operacao>, b: seq<Operacao>, capital: real)
    requires CalcularRiscoTotal(a) <= CalcularRiscoTotal(b)
    ensures RiscoPct(a, capital) <= RiscoPct(b, capital)
  {
    if capital > 0.0 {
      var ta, tb := CalcularRiscoTotal(a), CalcularRiscoTotal(b);
      assert (tb - ta) / capital >= 0.0;
      assert tb / capital - ta / capital == (tb - ta) / capital;
    }
  }

  /**
   * Alerts are never withdrawn by saving a trade: whichever alert the ledger
   * raised, it still raises after one more trade with a non-negative risk.
   */
  lemma AlertasPersistem(ops: seq<Operacao>, op: Operacao, ativo: string, capital: real, limitePct: real, limiteOperacoes: int)
    requires op.risco >= 0.0
    ensures forall a :: a in GerarAlertas(ops, ativo, capital, limitePct, limiteOperacoes) ==>
      exists b :: b in GerarAlertas(ops + [op], ativo, capital, limitePct, limiteOperacoes) && b.AlertaRisco? == a.AlertaRisco?
  {
    var antes := GerarAlertas(ops, ativo, capital, limitePct, limiteOperacoes);
    var depois := GerarAlertas(ops + [op], ativo, capital, limitePct, limiteOperacoes);
    RiscoTotalCresce(ops, op);
    RiscoPctCresce(ops, ops + [op], capital);
    ContagemAposAnexar(ops, op, ativo);
    forall a | a in antes
      ensures exists b :: b in depois && b.AlertaRisco? == a.AlertaRisco?
    {
      if a.AlertaRisco? {
        assert RiscoPct(ops + [op], capital) > limitePct;
        var b :| b in depois && b.AlertaRisco?;
      } else {
        assert ContarOperacoesPorAtivo(ops + [op], ativo) >= limiteOperacoes;
        var b :| b in depois && b.AlertaRepeticao?;
      }
    }
  }

  /**
   * The worked instance: three EURUSD trades risking 40 each against a capital
   * of 1000 are 12 % of it, above the default 5 %, and reach the default of
   * three trades, also when the instrument is asked for in lower case.
   */
  lemma ExemploAlertas()
    ensures var op := Operacao("EURUSD", 0.08, 40.0, 80.0, 2.0);
      GerarAlertas([op, op, op], "eurusd", 1000.0, LimitePctPadrao, LimiteOperacoesPadrao)
        == [AlertaRisco(12.0), AlertaRepeticao(3, "eurusd")]
  {
    var op := Operacao("EURUSD", 0.08, 40.0, 80.0, 2.0);
    var ops := [op, op, op];
    assert Upper("eurusd") == Upper("EURUSD");
    assert ops[..2] == [op, op] && [op, op][..1] == [op] && [op][..0] == [];
    assert Riscos(ops) == [40.0, 40.0, 40.0];
    assert [40.0, 40.0, 40.0][..2] == [40.0, 40.0] && [40.0, 40.0][..1] == [40.0] && [40.0][..0] == [];
    assert Sum(Riscos(ops)) == 120.0;
    Round2OfCents(12000);
    assert CalcularRiscoTotal(ops) == 120.0;
    assert RiscoPct(ops, 1000.0) == 12.0;
    assert MesmoAtivo(op, "eurusd");
    assert ContarOperacoesPorAtivo([op], "eurusd") == 1;
    assert ContarOperacoesPorAtivo([op, op], "eurusd") == 2;
  }

  /** Below both thresholds there is no alert. */
  lemma ExemploSemAlertas()
    ensures GerarAlertas([Operacao("XAUUSD", 0.2, 10.0, 20.0, 2.0)], "BTCUSD", 1000.0, LimitePctPadrao, LimiteOperacoesPadrao) == []
  {
  }
}
