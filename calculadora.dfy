/**
 * Position sizing (calculadora/calculadora.py).
 *
 * From the account capital, the percentage of it to risk, the stop distance
 * in points and the dollar value of one point for one lot, `CalcularPosicao`
 * gives the lot, rounded to cents of a lot, and the dollar risk that lot
 * actually carries, computed again from the ROUNDED lot.  A zero stop or a
 * zero point value gives the all-zero result instead of a division by zero.
 */
module Calculadora {
  import opened Decimal

  datatype Posicao = Posicao(lote: real, riscoFinanceiro: real)

  /** The dollar risk the trader asked for: `capital * (risco_percentual / 100)`. */
  function RiscoAlvo(capital: real, riscoPercentual: real): real {
    capital * (riscoPercentual / 100.0)
  }

  /** The dollar value of a move of `pontos` points for `lote` lots at `valorPonto` per point and lot. */
  function Exposicao(lote: real, pontos: real, valorPonto: real): real {
    lote * pontos * valorPonto
  }

  /** The unrounded lot whose stop loses exactly the target risk. */
  function LoteAlvo(capital: real, riscoPercentual: real, stopPontos: real, valorPonto: real): real
    requires stopPontos * valorPonto != 0.0
  {
    RiscoAlvo(capital, riscoPercentual) / (stopPontos * valorPonto)
  }

  function CalcularPosicao(capital: real, riscoPercentual: real, stopPontos: real, valorPonto: real): (p: Posicao)
    // the zero guard: no division, an all-zero result whatever the capital and risk
    ensures stopPontos == 0.0 || valorPonto == 0.0 ==> p == Posicao(0.0, 0.0)
    // otherwise the lot is the target lot rounded once, so within half a cent of a lot of it ...
    ensures stopPontos != 0.0 && valorPonto != 0.0 ==>
      p.lote == Round2(LoteAlvo(capital, riscoPercentual, stopPontos, valorPonto))
    ensures stopPontos != 0.0 && valorPonto != 0.0 ==>
      -0.005 <= p.lote - LoteAlvo(capital, riscoPercentual, stopPontos, valorPonto) <= 0.005
    ensures IsCents(p.lote) && IsCents(p.riscoFinanceiro)
    // ... and the reported risk is the risk of that rounded lot, not the target risk
    ensures p.riscoFinanceiro == Round2(Exposicao(p.lote, stopPontos, valorPonto))
  {
    if stopPontos == 0.0 || valorPonto == 0.0 then
      Round2Zero();
      Posicao(0.0, 0.0)
    else
      var lote := Round2(LoteAlvo(capital, riscoPercentual, stopPontos, valorPonto));
      Posicao(lote, Round2(Exposicao(lote, stopPontos, valorPonto)))
  }

  /** With non-negative capital and risk and a positive stop and point value, neither output is negative. */
  lemma PosicaoNaoNegativa(capital: real, riscoPercentual: real, stopPontos: real, valorPonto: real)
    requires capital >= 0.0 && riscoPercentual >= 0.0 && stopPontos > 0.0 && valorPonto > 0.0
    ensures CalcularPosicao(capital, riscoPercentual, stopPontos, valorPonto).lote >= 0.0
    ensures CalcularPosicao(capital, riscoPercentual, stopPontos, valorPonto).riscoFinanceiro >= 0.0
  {
    var k := stopPontos * valorPonto;
    assert k > 0.0;
    var alvo := RiscoAlvo(capital, riscoPercentual);
    assert alvo >= 0.0;
    assert alvo / k >= 0.0;
    Round2NonNegative(alvo / k);
    var lote := Round2(alvo / k);
    assert lote * stopPontos * valorPonto == lote * k;
    assert lote * k >= 0.0;
    Round2NonNegative(lote * k);
  }

  /**
   * The achieved risk differs from the target risk only by the rounding of the
   * lot (at most half a cent of a lot, times the value of the stop) and the
   * rounding of the risk itself (at most half a cent).
   */
  lemma RiscoAtingidoProximoDoAlvo(capital: real, riscoPercentual: real, stopPontos: real, valorPonto: real)
    requires stopPontos > 0.0 && valorPonto > 0.0
    ensures var p := CalcularPosicao(capital, riscoPercentual, stopPontos, valorPonto);
      var erro := p.riscoFinanceiro - RiscoAlvo(capital, riscoPercentual);
      -0.005 * stopPontos * valorPonto - 0.005 <= erro <= 0.005 * stopPontos * valorPonto + 0.005
  {
    var p := CalcularPosicao(capital, riscoPercentual, stopPontos, valorPonto);
    var e := Exposicao(p.lote, stopPontos, valorPonto);
    var alvo := LoteAlvo(capital, riscoPercentual, stopPontos, valorPonto);
    ErroDoLote(RiscoAlvo(capital, riscoPercentual), stopPontos, valorPonto, p.lote);
    assert -0.005 * stopPontos * valorPonto <= e - RiscoAlvo(capital, riscoPercentual) <= 0.005 * stopPontos * valorPonto;
    assert -0.005 <= p.riscoFinanceiro - e <= 0.005;
  }

  /** A lot within half a cent of the target lot risks within half a cent of a lot's stop value of the target risk. */
  lemma ErroDoLote(risco: real, stopPontos: real, valorPonto: real, lote: real)
    requires stopPontos > 0.0 && valorPonto > 0.0
    requires -0.005 <= lote - risco / (stopPontos * valorPonto) <= 0.005
    ensures -0.005 * stopPontos * valorPonto <= Exposicao(lote, stopPontos, valorPonto) - risco <= 0.005 * stopPontos * valorPonto
  {
    var k := stopPontos * valorPonto;
    var d := lote - risco / k;
    assert (risco / k) * k == risco;
    assert lote * stopPontos * valorPonto == lote * k;
    assert lote * k - risco == d * k;
    assert (0.005 - d) * k >= 0.0 && (d + 0.005) * k >= 0.0;
    assert -0.005 * k <= d * k <= 0.005 * k;
    assert 0.005 * stopPontos * valorPonto == 0.005 * k;
  }

  /** The worked instances: 1 % of 1000 with a 50-point stop, at 1.0 and at 10.0 per point. */
  lemma ExemplosPosicao()
    ensures CalcularPosicao(1000.0, 1.0, 50.0, 1.0) == Posicao(0.2, 10.0)
    ensures CalcularPosicao(1000.0, 1.0, 50.0, 10.0) == Posicao(0.02, 10.0)
  {
  }
}
