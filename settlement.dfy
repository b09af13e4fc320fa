/** Settling one installment, the record update of
    `PATCH /api/parcelas/:id/pagar` (backend/src/server.js:193-199), and
    what it does to the paid total of a quinzena. */
module Settlement {
  import opened Records
  import opened Ledger

  /** The state an installment row is in whenever this server wrote it:
      a payment day exactly when it is paid, and a recorded amount only
      on a paid row and never a falsy one. */
  predicate Coerente(p: Parcela)
  {
    && (p.pago <==> p.dataPagamento.Some?)
    && (p.valorPago.Some? ==> p.pago && p.valorPago.value != 0.0)
  }

  /** `pago: true`, `valorPago: valorPago ? valorPago : undefined` (an
      `undefined` field is left as it is), `dataPagamento: new Date()`.
      There is no guard against a row that is already paid. */
  function Pagar(p: Parcela, valorPago: Option<Money>, agora: Day): (r: Parcela)
    ensures r.pago && r.dataPagamento == Some(agora)
    ensures r.valorPago == if Truthy(valorPago) then valorPago else p.valorPago
    ensures r.(pago := p.pago, valorPago := p.valorPago, dataPagamento := p.dataPagamento) == p
    ensures Coerente(p) ==> Coerente(r)
  {
    p.(pago := true,
       valorPago := if Truthy(valorPago) then valorPago else p.valorPago,
       dataPagamento := Some(agora))
  }

  /** What a settled installment takes off the balance: the supplied
      amount when truthy, otherwise what it took off before, or its
      scheduled amount. */
  lemma DebitoAposPagar(p: Parcela, valorPago: Option<Money>, agora: Day)
    ensures Debito(Pagar(p, valorPago, agora))
         == if Truthy(valorPago) then valorPago.value else ValorEfetivo(p)
    ensures valorPago.Some? && valorPago.value != 0.0 ==> Debito(Pagar(p, valorPago, agora)) == valorPago.value
    ensures p.valorPago == None && (valorPago == None || valorPago == Some(0.0)) ==>
      Debito(Pagar(p, valorPago, agora)) == p.valorParcela
  {
  }

  /** Settling a second time is allowed: the later day wins, and so does
      the later amount when it is truthy. */
  lemma PagarDeNovo(p: Parcela, v1: Option<Money>, t1: Day, v2: Option<Money>, t2: Day)
    ensures Pagar(Pagar(p, v1, t1), v2, t2) == Pagar(p, if Truthy(v2) then v2 else v1, t2)
    ensures Pagar(Pagar(p, v1, t1), None, t2).dataPagamento == Some(t2)
  {
  }

  /** Settling installment `i` of a quinzena's list moves the paid total
      by the difference between its new and its old debit. */
  lemma PagarNoTotal(ps: seq<Parcela>, i: nat, valorPago: Option<Money>, agora: Day)
    requires i < |ps|
    ensures TotalDespesasPagas(ps[i := Pagar(ps[i], valorPago, agora)])
         == TotalDespesasPagas(ps) - Debito(ps[i])
            + (if Truthy(valorPago) then valorPago.value else ValorEfetivo(ps[i]))
    ensures !ps[i].pago && Truthy(valorPago) ==>
      TotalDespesasPagas(ps[i := Pagar(ps[i], valorPago, agora)]) == TotalDespesasPagas(ps) + valorPago.value
    ensures ps[i].pago && !Truthy(valorPago) ==>
      TotalDespesasPagas(ps[i := Pagar(ps[i], valorPago, agora)]) == TotalDespesasPagas(ps)
  {
    TrocarParcela(ps, i, Pagar(ps[i], valorPago, agora));
    DebitoAposPagar(ps[i], valorPago, agora);
  }

  /** An unpaid installment scheduled at 100 and settled with 90 takes 90,
      not 100, off the balance. */
  lemma PagamentoSubstituiValorAgendado(a: seq<Parcela>, p: Parcela, b: seq<Parcela>, agora: Day)
    requires !p.pago && p.valorParcela == 100.0
    ensures TotalDespesasPagas(a + [Pagar(p, Some(90.0), agora)] + b) == TotalDespesasPagas(a + b) + 90.0
    ensures TotalDespesasPagas(a + [p] + b) == TotalDespesasPagas(a + b)
  {
    TotalDespesasPagasSplit(a, Pagar(p, Some(90.0), agora), b);
    TotalDespesasPagasSplit(a, p, b);
  }
}
