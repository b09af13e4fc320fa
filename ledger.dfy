/** The balance of one quinzena (half-month), as `GET /api/quinzenas/:id`
    computes it from the quinzena's revenue rows and installment rows
    (backend/src/server.js:93-107). */
module Ledger {
  import opened Records
  import opened Sums

  /** The three figures the server reports under `calculos`. */
  datatype Calculos = Calculos(totalReceitas: Money, totalDespesasPagas: Money, saldoDisponivel: Money)

  function ValorReceita(r: Receita): Money
  {
    r.valor
  }

  /** `parc.valorPago || parc.valorParcela`: the amount actually paid when
      one was recorded and is not zero, otherwise the scheduled amount. */
  function ValorEfetivo(p: Parcela): Money
  {
    if Truthy(p.valorPago) then p.valorPago.value else p.valorParcela
  }

  /** What one installment takes off the balance: its effective amount
      when it is paid, nothing when it is not. */
  function Debito(p: Parcela): Money
  {
    if p.pago then ValorEfetivo(p) else 0.0
  }

  /** `parcelas.filter(p => p.pago)`: the paid installments, each as often
      as it occurs in `ps`, and no other. */
  function Pagas(ps: seq<Parcela>): (r: seq<Parcela>)
    ensures forall p :: multiset(r)[p] == if p.pago then multiset(ps)[p] else 0
  {
    if ps == [] then []
    else
      assert ps == [ps[0]] + ps[1..];
      (if ps[0].pago then [ps[0]] else []) + Pagas(ps[1..])
  }

  /** `receitas.reduce((sum, rec) => sum + rec.valor, 0)` */
  function TotalReceitas(rs: seq<Receita>): Money
  {
    SumBy(rs, ValorReceita)
  }

  /** The reduce over the filtered paid installments. */
  function TotalDespesasPagas(ps: seq<Parcela>): Money
  {
    SumBy(Pagas(ps), ValorEfetivo)
  }

  function Calcular(saldoAnterior: Money, rs: seq<Receita>, ps: seq<Parcela>): Calculos
  {
    var totalReceitas := TotalReceitas(rs);
    var totalDespesasPagas := TotalDespesasPagas(ps);
    Calculos(totalReceitas, totalDespesasPagas, saldoAnterior + totalReceitas - totalDespesasPagas)
  }

  lemma {:induction false} PagasAppend(a: seq<Parcela>, b: seq<Parcela>)
    ensures Pagas(a + b) == Pagas(a) + Pagas(b)
    decreases |a|
  {
    if a == [] {
      assert a + b == b;
    } else {
      assert (a + b)[1..] == a[1..] + b;
      PagasAppend(a[1..], b);
    }
  }

  /** Reference definition of the paid total: the sum of `Debito` over
      every installment, with no filter. Unpaid installments contribute
      nothing to it. */
  lemma {:induction false} TotalDespesasPagasIsSumOfDebitos(ps: seq<Parcela>)
    ensures TotalDespesasPagas(ps) == SumBy(ps, Debito)
    decreases |ps|
  {
    if ps != [] {
      var init, last := ps[..|ps| - 1], ps[|ps| - 1];
      assert ps == init + [last];
      PagasAppend(init, [last]);
      SumByAppend(Pagas(init), Pagas([last]), ValorEfetivo);
      TotalDespesasPagasIsSumOfDebitos(init);
      PagasDeUma(last);
      assert SumBy(ps, Debito) == SumBy(init, Debito) + Debito(last);
    }
  }

  /** One installment on its own owes its debit. */
  lemma PagasDeUma(p: Parcela)
    ensures SumBy(Pagas([p]), ValorEfetivo) == Debito(p)
  {
    assert [p][1..] == [];
    assert Pagas([p]) == if p.pago then [p] else [];
    if p.pago {
      assert [p][..0] == [];
    }
  }

  lemma TotalDespesasPagasAppend(a: seq<Parcela>, b: seq<Parcela>)
    ensures TotalDespesasPagas(a + b) == TotalDespesasPagas(a) + TotalDespesasPagas(b)
  {
    PagasAppend(a, b);
    SumByAppend(Pagas(a), Pagas(b), ValorEfetivo);
  }

  /** An installment in the middle of the list takes `Debito` of it off. */
  lemma TotalDespesasPagasSplit(a: seq<Parcela>, p: Parcela, b: seq<Parcela>)
    ensures TotalDespesasPagas(a + [p] + b) == TotalDespesasPagas(a + b) + Debito(p)
  {
    TotalDespesasPagasAppend(a + [p], b);
    TotalDespesasPagasAppend(a, [p]);
    TotalDespesasPagasAppend(a, b);
    TotalDespesasPagasIsSumOfDebitos([p]);
    assert [p][..0] == [];
  }

  /** Adding or removing an unpaid installment changes neither the paid
      total nor the available balance. */
  lemma NaoPagaNaoConta(saldoAnterior: Money, rs: seq<Receita>, a: seq<Parcela>, p: Parcela, b: seq<Parcela>)
    requires !p.pago
    ensures TotalDespesasPagas(a + [p] + b) == TotalDespesasPagas(a + b)
    ensures Calcular(saldoAnterior, rs, a + [p] + b) == Calcular(saldoAnterior, rs, a + b)
  {
    TotalDespesasPagasSplit(a, p, b);
  }

  /** A paid installment adds `valorPago` to the paid total when that is
      truthy, and `valorParcela` otherwise (so a `valorPago` of 0 falls
      back to the scheduled amount). */
  lemma PagaConta(saldoAnterior: Money, rs: seq<Receita>, a: seq<Parcela>, p: Parcela, b: seq<Parcela>)
    requires p.pago
    ensures p.valorPago.Some? && p.valorPago.value != 0.0 ==>
      TotalDespesasPagas(a + [p] + b) == TotalDespesasPagas(a + b) + p.valorPago.value
    ensures p.valorPago == None || p.valorPago == Some(0.0) ==>
      TotalDespesasPagas(a + [p] + b) == TotalDespesasPagas(a + b) + p.valorParcela
    ensures Calcular(saldoAnterior, rs, a + [p] + b).saldoDisponivel
         == Calcular(saldoAnterior, rs, a + b).saldoDisponivel - ValorEfetivo(p)
  {
    TotalDespesasPagasSplit(a, p, b);
  }

  /** Replacing one installment changes the paid total by the difference
      of the two installments' debits. */
  lemma TrocarParcela(ps: seq<Parcela>, i: nat, q: Parcela)
    requires i < |ps|
    ensures TotalDespesasPagas(ps[i := q]) == TotalDespesasPagas(ps) - Debito(ps[i]) + Debito(q)
  {
    var a, b := ps[..i], ps[i + 1..];
    assert ps == a + [ps[i]] + b;
    assert ps[i := q] == a + [q] + b;
    TotalDespesasPagasSplit(a, ps[i], b);
    TotalDespesasPagasSplit(a, q, b);
  }

  /** `totalReceitas` depends on the amounts alone: two lists with the
      same `valor`s, whatever their `tipo` or description, have the same
      total. */
  lemma {:induction false} TotalReceitasSoValores(rs: seq<Receita>, rs': seq<Receita>)
    requires |rs| == |rs'|
    requires forall k :: 0 <= k < |rs| ==> rs[k].valor == rs'[k].valor
    ensures TotalReceitas(rs) == TotalReceitas(rs')
    decreases |rs|
  {
    if rs != [] {
      TotalReceitasSoValores(rs[..|rs| - 1], rs'[..|rs'| - 1]);
    }
  }

  /** The three figures in terms of every row: revenue amounts add,
      installment debits subtract, with no filter on either list. */
  lemma SaldoPorMovimentos(saldoAnterior: Money, rs: seq<Receita>, ps: seq<Parcela>)
    ensures Calcular(saldoAnterior, rs, ps).totalDespesasPagas == SumBy(ps, Debito)
    ensures Calcular(saldoAnterior, rs, ps).saldoDisponivel
         == saldoAnterior + SumBy(rs, ValorReceita) - SumBy(ps, Debito)
  {
    TotalDespesasPagasIsSumOfDebitos(ps);
  }

  /** The order in which the rows are listed does not matter. */
  lemma CalcularIndependeDaOrdem(saldoAnterior: Money, rs: seq<Receita>, rs': seq<Receita>, ps: seq<Parcela>, ps': seq<Parcela>)
    requires multiset(rs) == multiset(rs')
    requires multiset(ps) == multiset(ps')
    ensures Calcular(saldoAnterior, rs, ps) == Calcular(saldoAnterior, rs', ps')
  {
    SumByPermutation(rs, rs', ValorReceita);
    TotalDespesasPagasIsSumOfDebitos(ps);
    TotalDespesasPagasIsSumOfDebitos(ps');
    SumByPermutation(ps, ps', Debito);
  }
}
