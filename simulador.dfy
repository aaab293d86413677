/**
 * Risk/return simulation (calculadora/simulador.py).
 *
 * For a lot, a stop distance, a take-profit distance and a point value,
 * `SimularRiscoRetorno` gives the dollar risk, the dollar reward and the
 * reward-to-risk ratio, each rounded to cents.  The ratio is taken from the
 * unrounded figures and is 0, not a division by zero, when the risk is 0.
 * The capital is accepted and not used.
 */
module Simulador {
  import opened Decimal
  import opened Calculadora

  datatype Simulacao = Simulacao(riscoTotal: real, retornoTotal: real, rr: real)

  /** `retorno / risco if risco != 0 else 0`, before rounding. */
  function Razao(retorno: real, risco: real): (q: real)
    ensures risco == 0.0 ==> q == 0.0
    ensures risco != 0.0 ==> q * risco == retorno
  {
    if risco != 0.0 then retorno / risco else 0.0
  }

  function SimularRiscoRetorno(capital: real, lote: real, stopPontos: real, tpPontos: real, valorPonto: real): (s: Simulacao)
    ensures s.riscoTotal == Round2(Exposicao(lote, stopPontos, valorPonto))
    ensures s.retornoTotal == Round2(Exposicao(lote, tpPontos, valorPonto))
    // the ratio is rounded once, from the unrounded risk and reward; a zero risk gives 0
    ensures s.rr == Round2(Razao(Exposicao(lote, tpPontos, valorPonto), Exposicao(lote, stopPontos, valorPonto)))
    ensures Exposicao(lote, stopPontos, valorPonto) == 0.0 ==> s.rr == 0.0
    ensures IsCents(s.riscoTotal) && IsCents(s.retornoTotal) && IsCents(s.rr)
  {
    var risco := Exposicao(lote, stopPontos, valorPonto);
    var retorno := Exposicao(lote, tpPontos, valorPonto);
    Round2Zero();
    Simulacao(Round2(risco), Round2(retorno), Round2(Razao(retorno, risco)))
  }

  /** A zero lot risks nothing, gains nothing and has ratio 0. */
  lemma LoteZeroSimulaZero(capital: real, stopPontos: real, tpPontos: real, valorPonto: real)
    ensures SimularRiscoRetorno(capital, 0.0, stopPontos, tpPontos, valorPonto) == Simulacao(0.0, 0.0, 0.0)
  {
  }

  /** The capital has no effect on any output. */
  lemma CapitalIrrelevante(c1: real, c2: real, lote: real, stopPontos: real, tpPontos: real, valorPonto: real)
    ensures SimularRiscoRetorno(c1, lote, stopPontos, tpPontos, valorPonto)
         == SimularRiscoRetorno(c2, lote, stopPontos, tpPontos, valorPonto)
  {
  }

  /** With non-negative inputs no output is negative. */
  lemma SimulacaoNaoNegativa(capital: real, lote: real, stopPontos: real, tpPontos: real, valorPonto: real)
    requires lote >= 0.0 && stopPontos >= 0.0 && tpPontos >= 0.0 && valorPonto >= 0.0
    ensures var s := SimularRiscoRetorno(capital, lote, stopPontos, tpPontos, valorPonto);
      s.riscoTotal >= 0.0 && s.retornoTotal >= 0.0 && s.rr >= 0.0
  {
    var risco := Exposicao(lote, stopPontos, valorPonto);
    var retorno := Exposicao(lote, tpPontos, valorPonto);
    assert lote * stopPontos >= 0.0 && lote * tpPontos >= 0.0;
    assert risco >= 0.0 && retorno >= 0.0;
    Round2NonNegative(risco);
    Round2NonNegative(retorno);
    if risco != 0.0 {
      assert retorno / risco >= 0.0;
    }
    Round2NonNegative(Razao(retorno, risco));
  }

  /**
   * The ratio depends only on the two distances: with a non-zero lot, stop and
   * point value, it is the take-profit distance over the stop distance, rounded.
   */
  lemma RazaoSoDasDistancias(capital: real, lote: real, stopPontos: real, tpPontos: real, valorPonto: real)
    requires lote != 0.0 && stopPontos != 0.0 && valorPonto != 0.0
    ensures SimularRiscoRetorno(capital, lote, stopPontos, tpPontos, valorPonto).rr == Round2(tpPontos / stopPontos)
  {
    var risco := Exposicao(lote, stopPontos, valorPonto);
    var retorno := Exposicao(lote, tpPontos, valorPonto);
    var m := lote * valorPonto;
    assert m != 0.0;
    assert risco == stopPontos * m;
    assert retorno == tpPontos * m;
    assert risco != 0.0;
    assert (tpPontos / stopPontos) * risco == retorno;
    assert Razao(retorno, risco) == tpPontos / stopPontos;
  }

  /** In automatic mode the simulated risk of the sized lot is exactly the sizer's achieved risk. */
  lemma SimulacaoConfirmaPosicao(capital: real, riscoPercentual: real, stopPontos: real, tpPontos: real, valorPonto: real)
    ensures var p := CalcularPosicao(capital, riscoPercentual, stopPontos, valorPonto);
      SimularRiscoRetorno(capital, p.lote, stopPontos, tpPontos, valorPonto).riscoTotal == p.riscoFinanceiro
  {
  }

  /** The worked instance: 0.2 lots, 50-point stop, 100-point target, 1.0 per point. */
  lemma ExemploSimulacao()
    ensures SimularRiscoRetorno(1000.0, 0.2, 50.0, 100.0, 1.0) == Simulacao(10.0, 20.0, 2.0)
  {
  }
}
