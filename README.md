# Day-trade position calculator: a verified model of its arithmetic

This project models the quantitative engine of a position-size and risk
calculator for day-trading Forex, crypto and gold. It covers five parts:

- **Position sizing** (`Calculadora`). The lot is computed from the capital, the risk
  percentage, the stop distance and the dollar value of a point. The dollar risk is then
  recomputed from the rounded lot. A zero stop or a zero point value gives the all-zero result.
- **Risk/return simulation** (`Simulador`). It gives risk, reward and the reward/risk
  ratio, each rounded to cents. The ratio is 0 when the risk is 0.
- **Risk alerts** (`RiscoAvancado`). The total risk of the saved trades is compared
  strictly against a percentage of the capital. The number of trades in the same
  instrument is compared inclusively against a count, with symbols matched after
  upper-casing.
- **The page's own arithmetic and session state** (`App`):
  - the pip-value table and the manual-mode prefix rule;
  - the choice between the sized lot and the manual lot;
  - a `Sessao` class holding the ledger of saved trades (append on save, empty on clear)
    and the sandbox (a virtual balance and its history: reset, then execute).

Shared pieces:

- `Decimal` has exact rounding to cents (`Round2`, ties to even, like Python's `round`)
  and Python's left-to-right `sum`.
- `Text` has ASCII upper-casing.

Amounts are exact `real`s rather than floats. Every calculation is a function, so giving
it the same inputs always yields the same outputs.

The sandbox invariant `Sessao.Valid` says three things:

- the balance equals the reset balance plus the sum of the unrounded gains since the reset;
- history row `i` holds the `i`-th gain, rounded;
- the same row holds the balance right after that gain, rounded.

No lower bound is placed on the balance.

Three observations about the code as written are stated as lemmas:

- In manual mode the pip value is already the lot times a factor, and the simulation
  multiplies by the lot again. So the simulated risk grows with the square of the manual
  lot (`App.RiscoManualQuadraticoNoLote`).
- The manual prefix rule is case-sensitive and the automatic table is not. So the two
  modes price `xauusd` and `XAUEUR` differently (`App.ModosDivergem`).
- The aggregate-risk percentage is 0 when the capital is not positive. The alert is then
  absent only because the threshold is non-negative, as the default 5.0 is. With a
  negative threshold the code would raise it at 0 %, and the model does the same
  (`RiscoAvancado.GerarAlertas`).

## Model

| member | source | states |
|---|---|---|
| `Decimal.Round2` | calculadora/calculadora.py:14 | `round(x, 2)` gives a whole number of cents within half a cent of `x` |
| `Decimal.CentsOf` | calculadora/calculadora.py:14 | a whole number divided by 100 is a whole number of cents, as every rounded figure is |
| `Decimal.Round2Idempotent` | app.py:119-121 | rounding an already-rounded figure again, as the ledger row does, changes nothing |
| `Decimal.Round2Monotone` | calculadora/risco_avancado.py:8 | rounding to cents never reverses an order |
| `Decimal.SumConcat` | calculadora/risco_avancado.py:7 | the left-to-right sum over two lists in sequence is the sum of their sums |
| `Decimal.SumNonNegative` | calculadora/risco_avancado.py:7 | a sum of non-negative amounts is non-negative |
| `Text.Upper` | calculadora/risco_avancado.py:12 | upper-casing keeps the length and maps each lower-case ASCII letter to its capital |
| `Text.UpperIdempotent` | calculadora/risco_avancado.py:12 | upper-casing twice is upper-casing once |
| `Calculadora.CalcularPosicao` | calculadora/calculadora.py:3-26 | a zero stop or a zero point value gives lot 0 and risk 0; otherwise the lot is the target lot rounded once, within half a cent of a lot of it, and the risk is the rounded risk of the rounded lot |
| `Calculadora.PosicaoNaoNegativa` | calculadora/calculadora.py:12-18 | non-negative capital and risk with a positive stop and point value give a non-negative lot and risk |
| `Calculadora.RiscoAtingidoProximoDoAlvo` | calculadora/calculadora.py:12-18 | the achieved risk is within half a cent of a lot's stop value, plus half a cent, of the target risk `capital * risco% / 100` |
| `Calculadora.ErroDoLote` | calculadora/calculadora.py:13-14 | a lot within half a cent of the target lot risks within half a cent of a lot's stop value of the target risk |
| `Calculadora.ExemplosPosicao` | calculadora/calculadora.py:12-18 | 1 % of 1000 with a 50-point stop gives lot 0.2 and risk 10.0 at 1.0 per point, and lot 0.02 and risk 10.0 at 10.0 per point |
| `Simulador.Razao` | calculadora/simulador.py:10 | the ratio times the risk is the reward when the risk is not 0, and the ratio is 0 when it is |
| `Simulador.SimularRiscoRetorno` | calculadora/simulador.py:3-16 | risk and reward are the rounded dollar values of the stop and target moves; the ratio is rounded once from the unrounded figures and is 0 for a zero risk; all three are whole cents |
| `Simulador.LoteZeroSimulaZero` | calculadora/simulador.py:8-10 | a zero lot gives risk, reward and ratio all 0 |
| `Simulador.CapitalIrrelevante` | calculadora/simulador.py:3-16 | the capital argument does not affect any output |
| `Simulador.SimulacaoNaoNegativa` | calculadora/simulador.py:8-15 | non-negative inputs give non-negative risk, reward and ratio |
| `Simulador.RazaoSoDasDistancias` | calculadora/simulador.py:8-15 | with a non-zero lot, stop and point value the ratio is the target distance over the stop distance, rounded |
| `Simulador.SimulacaoConfirmaPosicao` | app.py:97-104 | the simulated risk of the sized lot equals the sizer's achieved risk |
| `Simulador.ExemploSimulacao` | calculadora/simulador.py:8-15 | lot 0.2, stop 50, target 100 at 1.0 per point gives risk 10.0, reward 20.0 and ratio 2.0 |
| `RiscoAvancado.CalcularRiscoTotal` | calculadora/risco_avancado.py:5-8 | the total is whole cents within half a cent of the sum of the trades' risks, and 0 for an empty ledger |
| `RiscoAvancado.ContarOperacoesPorAtivo` | calculadora/risco_avancado.py:10-12 | the count lies between 0 and the ledger's length, and is 0 for an empty ledger |
| `RiscoAvancado.RiscoPct` | calculadora/risco_avancado.py:18 | the percentage is 0 when the capital is not positive; otherwise it times the capital is 100 times the rounded total |
| `RiscoAvancado.GerarAlertas` | calculadora/risco_avancado.py:14-27 | the aggregate-risk alert is present iff the percentage is strictly above the threshold, and it carries that percentage; the repetition alert is present iff the count is at least the limit, and it carries the count and the instrument; there are at most two alerts, the risk alert first; a non-positive capital with a non-negative threshold raises no risk alert |
| `RiscoAvancado.SomaAposAnexar` | calculadora/risco_avancado.py:7 | saving a trade adds its risk to the unrounded total |
| `RiscoAvancado.RiscoTotalConcat` | calculadora/risco_avancado.py:7-8 | the total of two ledgers in sequence is their unrounded totals added, then rounded |
| `RiscoAvancado.RiscoTotalNaoNegativo` | calculadora/risco_avancado.py:5-8 | non-negative risks give a non-negative total |
| `RiscoAvancado.RiscoTotalCresce` | calculadora/risco_avancado.py:5-8 | saving a trade with non-negative risk never lowers the total |
| `RiscoAvancado.ContagemAposAnexar` | calculadora/risco_avancado.py:12 | saving a trade adds one to its instrument's count and leaves the other counts unchanged |
| `RiscoAvancado.ContagemConcat` | calculadora/risco_avancado.py:12 | the count over two ledgers in sequence is the sum of their counts |
| `RiscoAvancado.ContagemIgnoraCaixa` | calculadora/risco_avancado.py:12 | the count does not depend on the capitalisation of the queried symbol |
| `RiscoAvancado.ContagemExtremos` | calculadora/risco_avancado.py:10-12 | the count is 0 iff no trade matches, and equals the ledger's length iff every trade matches |
| `RiscoAvancado.RiscoPctCresce` | calculadora/risco_avancado.py:18 | a larger total risk never gives a smaller percentage |
| `RiscoAvancado.AlertasPersistem` | calculadora/risco_avancado.py:14-27 | saving one more trade with non-negative risk never withdraws an alert of either kind |
| `RiscoAvancado.ExemploAlertas` | calculadora/risco_avancado.py:14-27 | three EURUSD trades of risk 40 against capital 1000, queried as `eurusd`, give a 12 % risk alert and then a repetition alert for 3 trades |
| `RiscoAvancado.ExemploSemAlertas` | calculadora/risco_avancado.py:14-27 | one trade of risk 10 against capital 1000, in another instrument, gives no alert |
| `App.ValorPipAutomatico` | app.py:84-88 | the upper-cased symbol selects EURUSD 10.0, XAUUSD 1.0 and BTCUSD 5.0, and anything else 10.0 |
| `App.Prefixo3` | app.py:75 | `s[:3]` is the first three characters, or the whole of a shorter string |
| `App.ValorPipManual` | app.py:75-80 | a case-sensitive prefix "XAU" gives 1.0 times the lot and "BTC" gives 5.0 times it; any other symbol, including one shorter than three characters, gives 10.0 times the lot |
| `App.ValorPipIgnoraCaixa` | app.py:88 | the automatic pip value does not depend on capitalisation |
| `App.ModosDivergem` | app.py:75-88 | the two modes price `xauusd` and `XAUEUR` differently |
| `App.Calcular` | app.py:95-104 | manual mode keeps the typed lot and shows the unrounded target risk; automatic mode shows the sized lot and its achieved risk, which equals the simulated risk; the simulation always uses the chosen lot and pip value |
| `App.RiscoManualQuadraticoNoLote` | app.py:76-104 | in manual mode the simulated risk is that of a position of lot-squared lots at the per-lot factor |
| `App.HistoricoAposExecutar` | app.py:215-224 | one execution adds its gain to the fold and keeps every history row consistent with the gains |
| `App.Sessao.constructor` | app.py:13-14 | a new session has an empty ledger (the sandbox half, a balance of 1000.0 and no history, is app.py:195-197) |
| `App.Sessao.SalvarOperacao` | app.py:116-132 | saving appends exactly one row (lot, risk and reward rounded, ratio as given) after the unchanged earlier rows; it raises the instrument's count by one; it returns the alerts for the new ledger with the default thresholds |
| `App.Sessao.LimparHistorico` | app.py:146-147 | clearing leaves the ledger empty, with total risk 0 and every instrument count 0 |
| `App.Sessao.RedefinirSaldo` | app.py:202-204 | reset sets the balance to the virtual capital and empties the history |
| `App.Sessao.ExecutarSimulacao` | app.py:212-224 | the gain is the simulated reward on a take-profit and minus the simulated risk on a stop-loss; it is added to the balance without clamping; one row with the rounded gain and rounded new balance is appended; the balance stays the reset value plus the sum of the gains |
| `App.CenarioSandbox` | app.py:202-224 | reset to 500, a stop-loss of risk 20 and then a take-profit of reward 40 leave 520, with rows (-20, 480) and (40, 520) |
| `App.CenarioSaldoNegativo` | app.py:212-215 | a stop-loss of 150 on a balance of 100 leaves -50: the balance is not clamped |
| `App.ExemploSimulacaoSandbox` | app.py:213 | lot 0.4, stop 50, target 100 at 1.0 per point simulate risk 20 and reward 40 |

## Left out

- Floating point: amounts are exact reals. `Round2` rounds ties to even on the exact
  value. Python rounds the nearest binary float, which can fall either side of a decimal
  tie (`round(2.675, 2)` is 2.67). The arithmetic itself is also exact, with no float
  error.
- `Text.Upper`: only ASCII letters are upper-cased. Python's `str.upper` also maps
  non-ASCII letters and may change a string's length (`ß` becomes `SS`).
- The catch-all `except` branches of `calcular_posicao` and `simular_risco_retorno`:
  - On typed numeric inputs the only fault is the explicit zero guard, and that is modelled.
  - A float product that underflows to 0 would divide by zero in Python. Exact reals
    cannot underflow.
  - The debug print is output and is not modelled.
- The Streamlit widgets, the page layout and the messages (app.py:3-67, 89-94, 105-113 and 189-200). The
  widgets' minimum values are not imposed: the model's functions accept any real inputs.
- The exact text and emoji of the alert messages. An alert is modelled by its kind and
  its payload (the percentage, or the count and the instrument).
- CSV persistence (`salvar_csv`, app.py:16-21) and deleting the CSV file on clear
  (app.py:148-149). These are file I/O.
- The report section (app.py:152-187), the history table and CSV export button (app.py:134-145), and the sandbox history export
  (app.py:227-241): filtering, averages, charts and Excel export. This is a presentation
  layer over a dataframe library.
- The sandbox direction and outcome select boxes are modelled as the `Direcao` and
  `Desfecho` enumerations, not as their display strings.
