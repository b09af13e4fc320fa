# Quinzena ledger — a verified Dafny model

The backend of this personal-finance application splits every month
(`mes`) into two half-months (`quinzena`: `primeira` and `segunda`).
Revenue rows (`receita`) and expense installments (`parcela`) belong to a
quinzena. An expense (`despesa`) is split on creation into equal
installments, due every 15 days. An installment is settled with
`PATCH /api/parcelas/:id/pagar`. `GET /api/quinzenas/:id` reports three
figures: `totalReceitas`, `totalDespesasPagas` and `saldoDisponivel`.

This project models the routes of `backend/src/server.js` that carry that logic:

- `records.dfy` holds the table rows and the error outcomes.
- `sums.dfy` holds the `reduce` folds.
- `ledger.dfy` holds the figures of one quinzena. These are pure functions with lemmas.
- `installments.dfy` holds the installment loop, as a method with loop invariants.
- `settlement.dfy` holds the record update that settles one installment.
- `store.dfy` holds the database as a class, `Financas`, whose methods are the routes that write it.

Modelling choices:

- Money is exact (`real`).
- Dates are day numbers.
- The clock is a parameter: `hoje` or `agora`.
- Ids are natural numbers handed out by one counter.

The code has none of the following safeguards, and neither does the model:

- Creating a month twice is not rejected.
- Settling an installment twice is allowed. The later day wins, and so does the later amount when it is truthy (`Settlement.PagarDeNovo`).
- Installments are all `valorTotal / parcelas`. No installment absorbs a remainder.
- Amounts and installment counts are not validated.
- `saldoAnterior` is not carried forward from the previous quinzena.
- The expense and its installments are inserted by two separate calls, not one atomic one.

## Model

| member | source | states |
|---|---|---|
| Sums.SumBy | backend/src/server.js:94-97 | `reduce((sum, x) => sum + f(x), 0)` as a left fold from zero; its meaning is fixed by `SumByAppend`, `SumByPermutation` and `SumByConstant` |
| Sums.SumByAppend | backend/src/server.js:94-97 | a `reduce` sum over a concatenation is the sum of the two sums |
| Sums.SumByPermutation | backend/src/server.js:94-97 | reordering the rows leaves a `reduce` sum unchanged (exact money) |
| Sums.SumByConstant | backend/src/server.js:154-167 | rows all worth `c` sum to their count times `c` |
| Records.Truthy | backend/src/server.js:97 | an optional amount is truthy when present and nonzero; `Ledger.PagaConta` and `Settlement.DebitoAposPagar` state both of its cases |
| Ledger.ValorEfetivo | backend/src/server.js:97 | `valorPago || valorParcela`: the paid amount when truthy, else the scheduled one; `Ledger.PagaConta` states both cases |
| Ledger.Debito | backend/src/server.js:95-97 | one row's share of the paid total: its effective amount if paid, 0 if not; `Ledger.TotalDespesasPagasIsSumOfDebitos` proves the paid total is the sum of these |
| Ledger.TotalReceitas | backend/src/server.js:94 | the sum of the revenue amounts; `Ledger.TotalReceitasSoValores` and `Ledger.CalcularIndependeDaOrdem` state what it depends on |
| Ledger.TotalDespesasPagas | backend/src/server.js:95-97 | the sum of the effective amounts of the paid rows; `Ledger.TotalDespesasPagasIsSumOfDebitos` relates it to the unfiltered sum of debits |
| Ledger.Calcular | backend/src/server.js:93-107 | the three figures; `Ledger.SaldoPorMovimentos` proves the balance relation and `Ledger.CalcularIndependeDaOrdem` its independence of row order |
| Ledger.Pagas | backend/src/server.js:95-96 | `filter(p => p.pago)` keeps each paid row as often as it occurs and drops every unpaid one |
| Ledger.PagasAppend | backend/src/server.js:95-96 | the filter distributes over concatenation |
| Ledger.TotalDespesasPagasIsSumOfDebitos | backend/src/server.js:95-97 | the filtered paid total equals the unfiltered sum of each row's debit (its effective amount if paid, 0 if not) |
| Ledger.PagasDeUma | backend/src/server.js:95-97 | a single row on its own contributes exactly its debit to the paid total |
| Ledger.TotalDespesasPagasAppend | backend/src/server.js:95-97 | the paid total of a concatenation is the sum of the paid totals |
| Ledger.TotalDespesasPagasSplit | backend/src/server.js:95-97 | one row in a list contributes exactly its debit to the paid total |
| Ledger.NaoPagaNaoConta | backend/src/server.js:95-99 | adding or removing an unpaid installment leaves `totalDespesasPagas` and the three figures unchanged |
| Ledger.PagaConta | backend/src/server.js:97-99 | a paid installment adds `valorPago` when truthy, otherwise `valorParcela` (so 0 falls back), and lowers `saldoDisponivel` by that amount |
| Ledger.TrocarParcela | backend/src/server.js:95-97 | replacing one row moves the paid total by the difference of the two debits |
| Ledger.TotalReceitasSoValores | backend/src/server.js:94 | `totalReceitas` depends on the amounts alone, with no filtering by `tipo` |
| Ledger.SaldoPorMovimentos | backend/src/server.js:93-107 | `saldoDisponivel == saldoAnterior + totalReceitas - totalDespesasPagas`, with every revenue amount added and every installment debit subtracted |
| Ledger.CalcularIndependeDaOrdem | backend/src/server.js:93-107 | the three figures do not depend on the order in which rows are listed |
| Installments.GerarParcelas | backend/src/server.js:153-168 | the loop builds `max(0, parcelas)` records numbered 1..n in order, each worth `valorTotal / parcelas`, due `hoje + 15*i`, all with the same `despesaId` and quinzena |
| Installments.PlanoSomaValorTotal | backend/src/server.js:154-167 | with exact arithmetic the generated amounts sum to `valorTotal` |
| Installments.PlanoVencimentos | backend/src/server.js:157-159 | installment i is due 15·i days after creation; numbers and due dates strictly increase |
| Settlement.Pagar | backend/src/server.js:193-199 | settling sets `pago` and `dataPagamento := agora`, replaces `valorPago` only when the new one is truthy, changes no other field, and keeps a row coherent |
| Settlement.DebitoAposPagar | backend/src/server.js:193-199 | after settling, the row's debit is the supplied amount when truthy, otherwise its previous effective amount |
| Settlement.PagarDeNovo | backend/src/server.js:193-199 | settling twice is allowed: the result is one settlement on the later day with the later truthy amount |
| Settlement.PagarNoTotal | backend/src/server.js:193-199 | settling row i changes the paid total by the new debit minus the old one |
| Settlement.PagamentoSubstituiValorAgendado | backend/src/server.js:197 | an unpaid installment of 100 settled with 90 adds 90, not 100, to the paid total |
| Store.ReceitasDa | backend/src/server.js:79 | the revenue rows of a quinzena are rows of the table that name it |
| Store.ReceitasDaCompleta | backend/src/server.js:79 | every revenue row naming the quinzena is listed, as often as it occurs in the table, and no other row is |
| Store.ParcelasDa | backend/src/server.js:80-84 | the installment rows of a quinzena are rows of the table that name it |
| Store.ReceitasDaAppend | backend/src/server.js:79 | the revenue listing distributes over appended rows |
| Store.ParcelasDaAppend | backend/src/server.js:80-84 | the installment listing distributes over appended rows |
| Store.ParcelasDaSplit | backend/src/server.js:80-84 | one row appears in its own quinzena's listing, in place, and in no other |
| Store.ReceitasDaVazia | backend/src/server.js:79 | a quinzena that no revenue row names lists no revenue |
| Store.ParcelasDaVazia | backend/src/server.js:80-84 | a quinzena that no installment row names lists no installment |
| Store.Consultar | backend/src/server.js:72-108 | a missing id gives not found (89-91); otherwise the quinzena, its own rows, and exactly the three figures with their sums and balance relation |
| Store.SemLinhas | backend/src/server.js:93-99 | a quinzena with no rows reports 0, 0 and its carried balance |
| Store.SaldoAoAdicionarReceita | backend/src/server.js:115-127 | a new revenue row raises its own quinzena's balance by its amount and no other's |
| Store.NenhumaPaga | backend/src/server.js:95-97 | rows that are all unpaid add nothing to any quinzena's paid total |
| Store.TotalPagasAoAdicionarNaoPagas | backend/src/server.js:170-172 | appending unpaid installments leaves one quinzena's paid total unchanged |
| Store.CalculosAoAdicionarNaoPagas | backend/src/server.js:170-172 | inserting unpaid installments leaves every quinzena's three figures unchanged |
| Store.TotalPagasAoTrocar | backend/src/server.js:193-199 | replacing a row moves only its own quinzena's paid total, by the difference of the debits |
| Store.SaldoAoTrocar | backend/src/server.js:193-199 | replacing a row moves only its own quinzena's balance, by the old debit minus the new one |
| Store.IndiceDe | backend/src/server.js:193-194 | `where: { id }` finds a row with that id exactly when one exists |
| Store.ProjetarMaterializar | backend/src/server.js:170-172 | `createMany` stores the loop's records unchanged, with fresh consecutive ids, unpaid and with no payment |
| Store.Materializar | backend/src/server.js:170-172 | the rows `createMany` stores for the loop's records; `Store.ProjetarMaterializar` proves nothing is lost |
| Store.ConsistentesAoInserir | backend/src/server.js:170-172 | inserting rows with fresh ids and existing parents keeps the installment table consistent |
| Store.ConsistentesAoPagar | backend/src/server.js:193-199 | settling one row keeps the installment table consistent |
| Store.IntegroAoInserirMes | backend/src/server.js:48-52 | a new month under the next id keeps every table's ids and references intact, and no quinzena belongs to it yet |
| Store.IntegroAoInserirQuinzena | backend/src/server.js:53-57 | a new quinzena of an existing month keeps the tables intact, and no revenue or installment row names it yet |
| Store.Financas.constructor | backend/src/server.js:6 | the database starts empty and valid |
| Store.Financas.CriarMes | backend/src/server.js:44-63 | a new month with exactly two new quinzenas, `Primeira` and `Segunda`, each empty and at the initial balance; nothing else changes |
| Store.Financas.InserirMes | backend/src/server.js:48-52 | the month row is stored as given under a fresh id and owns no quinzena yet; no other table changes |
| Store.Financas.InserirQuinzena | backend/src/server.js:53-57 | one quinzena of the month is stored under a fresh id with the default balance; it joins its month's quinzenas, reports 0, 0 and that balance, and no other quinzena's figures move |
| Store.Financas.AdicionarReceita | backend/src/server.js:115-127 | the row is appended as given under a fresh id; a missing quinzena is a storage error and changes nothing; only that quinzena's balance moves, by the amount |
| Store.Financas.InserirDespesa | backend/src/server.js:142-151 | the expense row is stored as given under a fresh id |
| Store.Financas.CriarParcelas | backend/src/server.js:170-172 | the rows are appended with fresh ids, unpaid; no quinzena's figures move |
| Store.Financas.CriarDespesa | backend/src/server.js:136-179 | the expense row under a fresh id plus exactly the generated installments, all in that quinzena and unpaid, and it returns that plan with the expense; a missing quinzena is a storage error and changes nothing; no figures move |
| Store.Financas.PagarParcela | backend/src/server.js:188-204 | a missing id gives not found and changes nothing; otherwise exactly that row is settled, re-settling included, and only its quinzena's balance moves, by the change in its debit |

## Left out

- HTTP handling is not modelled: Express routing, CORS, JSON bodies, status codes, `app.listen` (backend/src/server.js:1-14, 212-215).
- The month listing `GET /api/meses` and its ordering are not modelled (backend/src/server.js:16-41). They only read.
- The `include`s that attach the month, the expense and the relations to a response are left out.
- Floating point is not modelled. Money is exact `real`, so rounding drift is absent.
- `parseFloat`/`parseInt` are taken as already-numeric inputs. NaN is left out.
- The string `"0"` sent as `valorPago` is left out. It is truthy in JavaScript but is read here as the number 0.
- When `parcelas == 0`, JavaScript computes `valorTotal / 0`. The model uses a placeholder instead, and nothing reads it because the loop builds no record.
- The clock (`new Date()`, `setDate`) is a day-number parameter. Calendar arithmetic is left out.
- Ids are natural numbers from one counter rather than the database's generated ids.
- `Store.Financas.CriarMes`: the new quinzenas' `saldoAnterior` is the database default, taken as 0 (`SaldoInicial`). The schema is not part of this model.
- `Store.Financas.CriarDespesa`: the two inserts are not atomic in the source. The model has no database failure other than a missing quinzena, which stops before either insert, so a partial write cannot occur here.
- `Store.Financas.PagarParcela`: a missing id makes Prisma throw, and the route answers 500. The model returns `NotFound` for it.
- `Store.Financas.Valid`: the tables are taken to be intact (ids below the counter, every reference resolving, installment rows coherent) from an empty start. `PrismaClient` (backend/src/server.js:6) connects to an existing database, and the model holds only for one written through these routes alone.
- Concurrency between requests is not modelled. Each method runs alone.
- The comment at backend/src/server.js:166 says only the first installment goes in the current quinzena. The code puts all of them there, and so does the model.
