/** Installment generation of `POST /api/quinzenas/:id/despesas`
    (backend/src/server.js:153-168): a loop that builds one record per
    installment, all for the same expense and the same quinzena. */
module Installments {
  import opened Records
  import opened Sums

  /** One element of `parcelasData`, before the database gives it an id
      and its defaults (`pago` false, no payment recorded). */
  datatype NovaParcela = NovaParcela(
    numeroParcela: int,
    valorParcela: Money,
    dataVencimento: Day,
    despesaId: Id,
    quinzenaId: Id)

  /** Days between consecutive due dates. */
  const DiasEntreParcelas: int := 15

  function ValorNovaParcela(n: NovaParcela): Money
  {
    n.valorParcela
  }

  /** What the loop promises: no record when `parcelas < 1`, otherwise
      `parcelas` records numbered 1, 2, ... in order, each for
      `valorTotal / parcelas`, due 15 days later than the one before,
      and all for the same expense and the same quinzena. */
  predicate IsPlano(plano: seq<NovaParcela>, valorTotal: Money, parcelas: int, hoje: Day, despesaId: Id, quinzenaId: Id)
  {
    && |plano| == (if parcelas < 1 then 0 else parcelas)
    && forall k :: 0 <= k < |plano| ==>
         plano[k] == NovaParcela(k + 1, valorTotal / parcelas as real,
                                 hoje + DiasEntreParcelas * (k + 1), despesaId, quinzenaId)
  }

  /** The `for (let i = 1; i <= parcelas; i++)` loop. `hoje` is the day
      the request is served; `valorTotal / parcelas` is only used when
      the loop runs, so the division by zero JavaScript performs for
      `parcelas == 0` is replaced by an unused 0. */
  method GerarParcelas(valorTotal: Money, parcelas: int, hoje: Day, despesaId: Id, quinzenaId: Id)
    returns (parcelasData: seq<NovaParcela>)
    ensures IsPlano(parcelasData, valorTotal, parcelas, hoje, despesaId, quinzenaId)
  {
    var valorParcela := if parcelas != 0 then valorTotal / parcelas as real else 0.0;
    parcelasData := [];
    var i := 1;
    while i <= parcelas
      invariant 1 <= i <= (if parcelas < 1 then 1 else parcelas + 1)
      invariant |parcelasData| == i - 1
      invariant forall k :: 0 <= k < |parcelasData| ==>
        parcelasData[k] == NovaParcela(k + 1, valorParcela, hoje + DiasEntreParcelas * (k + 1), despesaId, quinzenaId)
    {
      var dataVencimento := hoje + i * DiasEntreParcelas;
      parcelasData := parcelasData + [NovaParcela(i, valorParcela, dataVencimento, despesaId, quinzenaId)];
      i := i + 1;
    }
  }

  /** With exact arithmetic the installments add up to the total. */
  lemma PlanoSomaValorTotal(plano: seq<NovaParcela>, valorTotal: Money, parcelas: int, hoje: Day, despesaId: Id, quinzenaId: Id)
    requires IsPlano(plano, valorTotal, parcelas, hoje, despesaId, quinzenaId)
    requires parcelas >= 1
    ensures SumBy(plano, ValorNovaParcela) == valorTotal
  {
    var n := parcelas as real;
    SumByConstant(plano, ValorNovaParcela, valorTotal / n);
    assert |plano| as real == n;
  }

  /** Due dates grow with the installment number: installment `i` is due
      `15 * i` days after the day of creation. */
  lemma PlanoVencimentos(plano: seq<NovaParcela>, valorTotal: Money, parcelas: int, hoje: Day, despesaId: Id, quinzenaId: Id)
    requires IsPlano(plano, valorTotal, parcelas, hoje, despesaId, quinzenaId)
    ensures forall k :: 0 <= k < |plano| ==>
      plano[k].dataVencimento == hoje + DiasEntreParcelas * plano[k].numeroParcela
    ensures forall i, j :: 0 <= i < j < |plano| ==>
      plano[i].numeroParcela < plano[j].numeroParcela && plano[i].dataVencimento < plano[j].dataVencimento
  {
  }
}
