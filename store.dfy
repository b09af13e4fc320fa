/** The server's routes over an in-memory copy of its database
    (backend/src/server.js:44-210). Each table the routes look up by id
    is a map; the revenue and installment tables, which a quinzena lists,
    are sequences in insertion order. */
module Store {
  import opened Records
  import opened Sums
  import opened Ledger
  import opened Installments
  import opened Settlement

  /** Balance a quinzena starts with: the database default, since the
      route that creates it gives none. */
  const SaldoInicial: Money := 0.0

  /** `include: { receitas: true }`: the revenue rows of quinzena `q`. */
  function ReceitasDa(rs: seq<Receita>, q: Id): (r: seq<Receita>)
    ensures forall k :: 0 <= k < |r| ==> r[k].quinzenaId == q && r[k] in rs
  {
    if rs == [] then []
    else (if rs[0].quinzenaId == q then [rs[0]] else []) + ReceitasDa(rs[1..], q)
  }

  /** Every revenue row that names `q` is listed, as often as it occurs,
      and no other row is. */
  lemma {:induction false} ReceitasDaCompleta(rs: seq<Receita>, q: Id)
    ensures forall x :: multiset(ReceitasDa(rs, q))[x] == if x.quinzenaId == q then multiset(rs)[x] else 0
    decreases |rs|
  {
    if rs != [] {
      ReceitasDaCompleta(rs[1..], q);
      assert rs == [rs[0]] + rs[1..];
    }
  }

  /** `include: { parcelas: ... }`: the installment rows placed in quinzena `q`. */
  function ParcelasDa(ps: seq<Parcela>, q: Id): (r: seq<Parcela>)
    ensures forall k :: 0 <= k < |r| ==> r[k].quinzenaId == q && r[k] in ps
  {
    if ps == [] then []
    else (if ps[0].quinzenaId == q then [ps[0]] else []) + ParcelasDa(ps[1..], q)
  }

  lemma {:induction false} ReceitasDaAppend(a: seq<Receita>, b: seq<Receita>, q: Id)
    ensures ReceitasDa(a + b, q) == ReceitasDa(a, q) + ReceitasDa(b, q)
    decreases |a|
  {
    if a == [] {
      assert a + b == b;
    } else {
      assert (a + b)[1..] == a[1..] + b;
      ReceitasDaAppend(a[1..], b, q);
    }
  }

  lemma {:induction false} ParcelasDaAppend(a: seq<Parcela>, b: seq<Parcela>, q: Id)
    ensures ParcelasDa(a + b, q) == ParcelasDa(a, q) + ParcelasDa(b, q)
    decreases |a|
  {
    if a == [] {
      assert a + b == b;
    } else {
      assert (a + b)[1..] == a[1..] + b;
      ParcelasDaAppend(a[1..], b, q);
    }
  }

  /** Three-way split of the rows of one quinzena around row `x`. */
  lemma ParcelasDaSplit(a: seq<Parcela>, x: Parcela, b: seq<Parcela>, q: Id)
    ensures ParcelasDa(a + [x] + b, q)
         == ParcelasDa(a, q) + (if x.quinzenaId == q then [x] else []) + ParcelasDa(b, q)
  {
    ParcelasDaAppend(a + [x], b, q);
    ParcelasDaAppend(a, [x], q);
    assert [x][1..] == [];
  }

  /** The three figures of quinzena `q` over the given tables. */
  function CalculosDa(quinzenas: map<Id, Quinzena>, receitas: seq<Receita>, parcelas: seq<Parcela>, q: Id): Calculos
    requires q in quinzenas
  {
    Calcular(quinzenas[q].saldoAnterior, ReceitasDa(receitas, q), ParcelasDa(parcelas, q))
  }

  /** What `GET /api/quinzenas/:id` answers: the quinzena, its rows and
      the computed figures. */
  datatype Detalhe = Detalhe(quinzena: Quinzena, receitas: seq<Receita>, parcelas: seq<Parcela>, calculos: Calculos)

  /** `GET /api/quinzenas/:id`: not found when there is no such quinzena;
      otherwise the quinzena's own rows and its three figures, the balance
      being the carried balance plus every revenue amount minus the debit
      of every installment row. */
  function Consultar(quinzenas: map<Id, Quinzena>, receitas: seq<Receita>, parcelas: seq<Parcela>, id: Id): (r: Result<Detalhe>)
    ensures r.Err? <==> id !in quinzenas
    ensures r.Err? ==> r.error == NotFound
    ensures r.Ok? ==> r.value.quinzena == quinzenas[id]
    ensures r.Ok? ==> r.value.receitas == ReceitasDa(receitas, id) && r.value.parcelas == ParcelasDa(parcelas, id)
    ensures r.Ok? ==> r.value.calculos.totalReceitas == SumBy(r.value.receitas, ValorReceita)
    ensures r.Ok? ==> r.value.calculos.totalDespesasPagas == SumBy(r.value.parcelas, Debito)
    ensures r.Ok? ==>
      r.value.calculos.saldoDisponivel
      == quinzenas[id].saldoAnterior + r.value.calculos.totalReceitas - r.value.calculos.totalDespesasPagas
  {
    if id !in quinzenas then Err(NotFound)
    else
      var q := quinzenas[id];
      var rs, ps := ReceitasDa(receitas, id), ParcelasDa(parcelas, id);
      SaldoPorMovimentos(q.saldoAnterior, rs, ps);
      Ok(Detalhe(q, rs, ps, CalculosDa(quinzenas, receitas, parcelas, id)))
  }

  /** A quinzena no row names reports no revenue, nothing paid, and its
      carried balance as what is available. */
  lemma SemLinhas(quinzenas: map<Id, Quinzena>, rs: seq<Receita>, ps: seq<Parcela>, q: Id)
    requires q in quinzenas
    requires forall k :: 0 <= k < |rs| ==> rs[k].quinzenaId != q
    requires forall k :: 0 <= k < |ps| ==> ps[k].quinzenaId != q
    ensures CalculosDa(quinzenas, rs, ps, q) == Calculos(0.0, 0.0, quinzenas[q].saldoAnterior)
  {
    ReceitasDaVazia(rs, q);
    ParcelasDaVazia(ps, q);
  }

  lemma {:induction false} ReceitasDaVazia(rs: seq<Receita>, q: Id)
    requires forall k :: 0 <= k < |rs| ==> rs[k].quinzenaId != q
    ensures ReceitasDa(rs, q) == []
    decreases |rs|
  {
    if rs != [] {
      ReceitasDaVazia(rs[1..], q);
    }
  }

  lemma {:induction false} ParcelasDaVazia(ps: seq<Parcela>, q: Id)
    requires forall k :: 0 <= k < |ps| ==> ps[k].quinzenaId != q
    ensures ParcelasDa(ps, q) == []
    decreases |ps|
  {
    if ps != [] {
      ParcelasDaVazia(ps[1..], q);
    }
  }

  /** A new revenue row raises its own quinzena's balance by its amount
      and leaves every other quinzena's alone. */
  lemma SaldoAoAdicionarReceita(quinzenas: map<Id, Quinzena>, rs: seq<Receita>, ps: seq<Parcela>, x: Receita)
    ensures forall q {:trigger CalculosDa(quinzenas, rs + [x], ps, q)} :: q in quinzenas ==>
      CalculosDa(quinzenas, rs + [x], ps, q).saldoDisponivel
      == CalculosDa(quinzenas, rs, ps, q).saldoDisponivel + (if q == x.quinzenaId then x.valor else 0.0)
  {
    forall q | q in quinzenas
      ensures CalculosDa(quinzenas, rs + [x], ps, q).saldoDisponivel
           == CalculosDa(quinzenas, rs, ps, q).saldoDisponivel + (if q == x.quinzenaId then x.valor else 0.0)
    {
      ReceitasDaAppend(rs, [x], q);
      assert [x][1..] == [];
      SumByAppend(ReceitasDa(rs, q), ReceitasDa([x], q), ValorReceita);
      if x.quinzenaId == q {
        assert [x][..0] == [];
      }
    }
  }

  /** The rows of one quinzena drawn from unpaid rows add nothing to its
      paid total. */
  lemma NenhumaPaga(novas: seq<Parcela>, q: Id)
    requires forall k :: 0 <= k < |novas| ==> !novas[k].pago
    ensures TotalDespesasPagas(ParcelasDa(novas, q)) == 0.0
  {
    var daQuinzena := ParcelasDa(novas, q);
    forall k | 0 <= k < |daQuinzena| ensures Debito(daQuinzena[k]) == 0.0 {
      var j :| 0 <= j < |novas| && novas[j] == daQuinzena[k];
    }
    TotalDespesasPagasIsSumOfDebitos(daQuinzena);
    SumByConstant(daQuinzena, Debito, 0.0);
  }

  /** Inserting rows that are all unpaid leaves every quinzena's three
      figures as they were. */
  lemma CalculosAoAdicionarNaoPagas(quinzenas: map<Id, Quinzena>, rs: seq<Receita>, ps: seq<Parcela>, novas: seq<Parcela>)
    requires forall k :: 0 <= k < |novas| ==> !novas[k].pago
    ensures forall q {:trigger CalculosDa(quinzenas, rs, ps + novas, q)} :: q in quinzenas ==>
      CalculosDa(quinzenas, rs, ps + novas, q) == CalculosDa(quinzenas, rs, ps, q)
  {
    forall q | q in quinzenas
      ensures CalculosDa(quinzenas, rs, ps + novas, q) == CalculosDa(quinzenas, rs, ps, q)
    {
      TotalPagasAoAdicionarNaoPagas(ps, novas, q);
    }
  }

  /** The same for the paid total of one quinzena. */
  lemma TotalPagasAoAdicionarNaoPagas(ps: seq<Parcela>, novas: seq<Parcela>, q: Id)
    requires forall k :: 0 <= k < |novas| ==> !novas[k].pago
    ensures TotalDespesasPagas(ParcelasDa(ps + novas, q)) == TotalDespesasPagas(ParcelasDa(ps, q))
  {
    ParcelasDaAppend(ps, novas, q);
    TotalDespesasPagasAppend(ParcelasDa(ps, q), ParcelasDa(novas, q));
    NenhumaPaga(novas, q);
  }

  /** Replacing row `i` by a row of the same quinzena moves that
      quinzena's paid total by the difference of their debits and no
      other quinzena's. */
  lemma TotalPagasAoTrocar(ps: seq<Parcela>, i: nat, p: Parcela, q: Id)
    requires i < |ps| && p.quinzenaId == ps[i].quinzenaId
    ensures TotalDespesasPagas(ParcelasDa(ps[i := p], q))
         == TotalDespesasPagas(ParcelasDa(ps, q))
            - (if q == p.quinzenaId then Debito(ps[i]) - Debito(p) else 0.0)
  {
    var a, b := ps[..i], ps[i + 1..];
    assert ps == a + [ps[i]] + b;
    assert ps[i := p] == a + [p] + b;
    var da, db := ParcelasDa(a, q), ParcelasDa(b, q);
    ParcelasDaSplit(a, ps[i], b, q);
    ParcelasDaSplit(a, p, b, q);
    if q == p.quinzenaId {
      assert ParcelasDa(ps, q) == da + [ps[i]] + db;
      assert ParcelasDa(ps[i := p], q) == da + [p] + db;
      TotalDespesasPagasSplit(da, ps[i], db);
      TotalDespesasPagasSplit(da, p, db);
    } else {
      assert ParcelasDa(ps, q) == da + [] + db;
      assert ParcelasDa(ps[i := p], q) == da + [] + db;
    }
  }

  /** The same, for every quinzena's balance at once. */
  lemma SaldoAoTrocar(quinzenas: map<Id, Quinzena>, rs: seq<Receita>, ps: seq<Parcela>, i: nat, p: Parcela)
    requires i < |ps| && p.quinzenaId == ps[i].quinzenaId
    ensures forall q {:trigger CalculosDa(quinzenas, rs, ps[i := p], q)} :: q in quinzenas ==>
      CalculosDa(quinzenas, rs, ps[i := p], q).saldoDisponivel
      == CalculosDa(quinzenas, rs, ps, q).saldoDisponivel
         + (if q == p.quinzenaId then Debito(ps[i]) - Debito(p) else 0.0)
  {
    forall q | q in quinzenas
      ensures CalculosDa(quinzenas, rs, ps[i := p], q).saldoDisponivel
           == CalculosDa(quinzenas, rs, ps, q).saldoDisponivel
              + (if q == p.quinzenaId then Debito(ps[i]) - Debito(p) else 0.0)
    {
      TotalPagasAoTrocar(ps, i, p, q);
    }
  }

  /** First index of the row with id `id`: Prisma's `where: { id }`. */
  function IndiceDe(ps: seq<Parcela>, id: Id): (r: Option<nat>)
    ensures r.None? <==> forall k :: 0 <= k < |ps| ==> ps[k].id != id
    ensures r.Some? ==> r.value < |ps| && ps[r.value].id == id
  {
    if ps == [] then None
    else if ps[0].id == id then Some(0)
    else match IndiceDe(ps[1..], id)
      case None => None
      case Some(k) => Some(k + 1)
  }

  /** The fields of the rows `createMany` wrote, as the loop built them. */
  function Projetar(ps: seq<Parcela>): seq<NovaParcela>
  {
    seq(|ps|, k requires 0 <= k < |ps| =>
      NovaParcela(ps[k].numeroParcela, ps[k].valorParcela, ps[k].dataVencimento, ps[k].despesaId, ps[k].quinzenaId))
  }

  /** The rows `createMany` inserts for `plano`, with consecutive fresh
      ids and the defaults: not paid, no payment recorded. */
  function Materializar(plano: seq<NovaParcela>, primeiroId: Id): seq<Parcela>
  {
    seq(|plano|, k requires 0 <= k < |plano| =>
      Parcela(primeiroId + k, plano[k].numeroParcela, plano[k].valorParcela, plano[k].dataVencimento,
              plano[k].despesaId, plano[k].quinzenaId, false, None, None))
  }

  /** Reading back what `createMany` wrote gives the loop's records: the
      insert adds ids and defaults and loses nothing. */
  lemma ProjetarMaterializar(plano: seq<NovaParcela>, primeiroId: Id)
    ensures Projetar(Materializar(plano, primeiroId)) == plano
    ensures forall k :: 0 <= k < |plano| ==>
      var p := Materializar(plano, primeiroId)[k];
      p.id == primeiroId + k && !p.pago && p.valorPago == None && p.dataPagamento == None
  {
    var m := Materializar(plano, primeiroId);
    assert forall k :: 0 <= k < |plano| ==> Projetar(m)[k] == plano[k];
  }

  /** Installment rows with ids below `proximoId`, unique, whose expense
      and quinzena exist, each of them `Coerente`. */
  predicate ParcelasConsistentes(ps: seq<Parcela>, despesas: map<Id, Despesa>, quinzenas: map<Id, Quinzena>, proximoId: Id)
  {
    && (forall k :: 0 <= k < |ps| ==>
          && ps[k].id < proximoId
          && ps[k].despesaId in despesas
          && ps[k].quinzenaId in quinzenas
          && Coerente(ps[k]))
    && (forall i, j :: 0 <= i < j < |ps| ==> ps[i].id != ps[j].id)
  }

  lemma ConsistentesAoInserir(
    ps: seq<Parcela>, plano: seq<NovaParcela>,
    despesas: map<Id, Despesa>, quinzenas: map<Id, Quinzena>, proximoId: Id)
    requires ParcelasConsistentes(ps, despesas, quinzenas, proximoId)
    requires forall k :: 0 <= k < |plano| ==> plano[k].despesaId in despesas && plano[k].quinzenaId in quinzenas
    ensures ParcelasConsistentes(ps + Materializar(plano, proximoId), despesas, quinzenas, proximoId + |plano|)
  {
    var novas := Materializar(plano, proximoId);
    var todas := ps + novas;
    forall i, j | 0 <= i < j < |todas| ensures todas[i].id != todas[j].id {
      if j >= |ps| {
        assert todas[j] == novas[j - |ps|];
        if i >= |ps| {
          assert todas[i] == novas[i - |ps|];
        }
      }
    }
  }

  lemma ConsistentesAoPagar(
    ps: seq<Parcela>, i: nat, valorPago: Option<Money>, agora: Day,
    despesas: map<Id, Despesa>, quinzenas: map<Id, Quinzena>, proximoId: Id)
    requires ParcelasConsistentes(ps, despesas, quinzenas, proximoId)
    requires i < |ps|
    ensures ParcelasConsistentes(ps[i := Pagar(ps[i], valorPago, agora)], despesas, quinzenas, proximoId)
  {
  }

  /** Keys match ids, ids are fresh below `proximoId`, foreign keys
      point at existing rows, and the installment rows are consistent. */
  predicate Integro(
    meses: map<Id, Mes>, quinzenas: map<Id, Quinzena>, receitas: seq<Receita>,
    despesas: map<Id, Despesa>, parcelas: seq<Parcela>, proximoId: Id)
  {
    && (forall k :: k in meses ==> meses[k].id == k && k < proximoId)
    && (forall k :: k in quinzenas ==> quinzenas[k].id == k && k < proximoId && quinzenas[k].mesId in meses)
    && (forall k :: 0 <= k < |receitas| ==> receitas[k].id < proximoId && receitas[k].quinzenaId in quinzenas)
    && (forall k :: k in despesas ==> despesas[k].id == k && k < proximoId && despesas[k].quinzenaId in quinzenas)
    && ParcelasConsistentes(parcelas, despesas, quinzenas, proximoId)
  }

  /** A new month under the next id keeps the tables intact. */
  lemma IntegroAoInserirMes(
    meses: map<Id, Mes>, quinzenas: map<Id, Quinzena>, receitas: seq<Receita>,
    despesas: map<Id, Despesa>, parcelas: seq<Parcela>, proximoId: Id, novoMes: Mes)
    requires Integro(meses, quinzenas, receitas, despesas, parcelas, proximoId)
    requires novoMes.id == proximoId
    ensures Integro(meses[novoMes.id := novoMes], quinzenas, receitas, despesas, parcelas, proximoId + 1)
    ensures forall k :: k in quinzenas ==> quinzenas[k].mesId != novoMes.id
  {
  }

  /** A new quinzena of an existing month, under the next id, keeps the
      tables intact, and no row names it yet. */
  lemma IntegroAoInserirQuinzena(
    meses: map<Id, Mes>, quinzenas: map<Id, Quinzena>, receitas: seq<Receita>,
    despesas: map<Id, Despesa>, parcelas: seq<Parcela>, proximoId: Id, quinzena: Quinzena)
    requires Integro(meses, quinzenas, receitas, despesas, parcelas, proximoId)
    requires quinzena.id == proximoId && quinzena.mesId in meses
    ensures Integro(meses, quinzenas[quinzena.id := quinzena], receitas, despesas, parcelas, proximoId + 1)
    ensures forall k :: 0 <= k < |receitas| ==> receitas[k].quinzenaId != quinzena.id
    ensures forall k :: 0 <= k < |parcelas| ==> parcelas[k].quinzenaId != quinzena.id
  {
  }

  /** The database. */
  class Financas {
    var meses: map<Id, Mes>
    var quinzenas: map<Id, Quinzena>
    var receitas: seq<Receita>
    var despesas: map<Id, Despesa>
    var parcelas: seq<Parcela>
    /** Every id handed out so far is below this one. */
    var proximoId: Id

    /** The tables are intact. */
    ghost predicate Valid()
      reads this
    {
      Integro(meses, quinzenas, receitas, despesas, parcelas, proximoId)
    }

    constructor ()
      ensures Valid()
      ensures meses == map[] && quinzenas == map[] && despesas == map[]
      ensures receitas == [] && parcelas == []
    {
      meses, quinzenas, despesas := map[], map[], map[];
      receitas, parcelas := [], [];
      proximoId := 0;
    }

    /** The quinzenas that belong to month `m`. */
    function QuinzenasDoMes(m: Id): set<Id>
      reads this
    {
      set k | k in quinzenas && quinzenas[k].mesId == m
    }

    /** The three figures of quinzena `q` as `GET` reports them now. */
    function CalculosAtuais(q: Id): Calculos
      reads this
      requires q in quinzenas
    {
      CalculosDa(quinzenas, receitas, parcelas, q)
    }

    /** `POST /api/meses`: a new month, created together with exactly two
        quinzenas, `primeira` and `segunda`. Nothing checks whether the
        same month already exists. */
    method CriarMes(ano: int, mes: int, userId: string) returns (novoMes: Mes, primeira: Quinzena, segunda: Quinzena)
      requires Valid()
      modifies this
      ensures Valid()
      ensures novoMes.id !in old(meses) && novoMes == Mes(novoMes.id, ano, mes, userId)
      ensures meses == old(meses)[novoMes.id := novoMes]
      ensures primeira == Quinzena(primeira.id, Primeira, SaldoInicial, novoMes.id)
      ensures segunda == Quinzena(segunda.id, Segunda, SaldoInicial, novoMes.id)
      ensures primeira.id !in old(quinzenas) && segunda.id !in old(quinzenas) && primeira.id != segunda.id
      ensures quinzenas == old(quinzenas)[primeira.id := primeira][segunda.id := segunda]
      ensures QuinzenasDoMes(novoMes.id) == {primeira.id, segunda.id}
      ensures receitas == old(receitas) && despesas == old(despesas) && parcelas == old(parcelas)
      ensures CalculosAtuais(primeira.id) == Calculos(0.0, 0.0, SaldoInicial)
      ensures CalculosAtuais(segunda.id) == Calculos(0.0, 0.0, SaldoInicial)
    {
      novoMes := InserirMes(ano, mes, userId);
      primeira := InserirQuinzena(Primeira, novoMes.id);
      segunda := InserirQuinzena(Segunda, novoMes.id);
    }

    /** `prisma.mes.create`: the month row under a fresh id; no quinzena
        belongs to it yet. */
    method InserirMes(ano: int, mes: int, userId: string) returns (novoMes: Mes)
      requires Valid()
      modifies this
      ensures Valid()
      ensures novoMes == Mes(old(proximoId), ano, mes, userId) && novoMes.id !in old(meses)
      ensures meses == old(meses)[novoMes.id := novoMes] && proximoId == old(proximoId) + 1
      ensures quinzenas == old(quinzenas) && receitas == old(receitas)
      ensures despesas == old(despesas) && parcelas == old(parcelas)
      ensures QuinzenasDoMes(novoMes.id) == {}
    {
      novoMes := Mes(proximoId, ano, mes, userId);
      IntegroAoInserirMes(meses, quinzenas, receitas, despesas, parcelas, proximoId, novoMes);
      meses, proximoId := meses[novoMes.id := novoMes], proximoId + 1;
    }

    /** The nested `quinzenas: { create: ... }` for one quinzena of month
        `mesId`: a fresh id, the given `tipo` and the default balance. It
        belongs to that month, reports nothing yet, and no other
        quinzena's figures move. */
    method InserirQuinzena(tipo: TipoQuinzena, mesId: Id) returns (quinzena: Quinzena)
      requires Valid() && mesId in meses
      modifies this
      ensures Valid()
      ensures quinzena == Quinzena(old(proximoId), tipo, SaldoInicial, mesId) && quinzena.id !in old(quinzenas)
      ensures quinzenas == old(quinzenas)[quinzena.id := quinzena] && proximoId == old(proximoId) + 1
      ensures meses == old(meses) && receitas == old(receitas)
      ensures despesas == old(despesas) && parcelas == old(parcelas)
      ensures QuinzenasDoMes(mesId) == old(QuinzenasDoMes(mesId)) + {quinzena.id}
      ensures CalculosAtuais(quinzena.id) == Calculos(0.0, 0.0, SaldoInicial)
      ensures forall q {:trigger CalculosAtuais(q)} :: q in old(quinzenas) ==> CalculosAtuais(q) == old(CalculosAtuais(q))
    {
      quinzena := Quinzena(proximoId, tipo, SaldoInicial, mesId);
      IntegroAoInserirQuinzena(meses, quinzenas, receitas, despesas, parcelas, proximoId, quinzena);
      quinzenas, proximoId := quinzenas[quinzena.id := quinzena], proximoId + 1;
      assert Valid();
      SemLinhas(quinzenas, receitas, parcelas, quinzena.id);
    }

    /** `POST /api/quinzenas/:id/receitas`: the row is inserted as given,
        with no check on its amount or its kind; an insert naming a
        missing quinzena is refused by the database. The quinzena's
        balance grows by the amount, and no other balance moves. */
    method AdicionarReceita(quinzenaId: Id, descricao: string, valor: Money, tipo: string) returns (r: Result<Receita>)
      requires Valid()
      modifies this
      ensures Valid()
      ensures quinzenaId !in quinzenas ==> r == Err(StorageError) && unchanged(this)
      ensures quinzenaId in quinzenas ==>
        && r.Ok?
        && r.value == Receita(old(proximoId), descricao, valor, tipo, quinzenaId)
        && receitas == old(receitas) + [r.value]
      ensures meses == old(meses) && quinzenas == old(quinzenas)
      ensures despesas == old(despesas) && parcelas == old(parcelas)
      ensures forall q {:trigger CalculosAtuais(q)} :: q in quinzenas ==>
        CalculosAtuais(q).saldoDisponivel
        == old(CalculosAtuais(q)).saldoDisponivel + (if q == quinzenaId then valor else 0.0)
    {
      if quinzenaId !in quinzenas {
        return Err(StorageError);
      }
      var receita := Receita(proximoId, descricao, valor, tipo, quinzenaId);
      SaldoAoAdicionarReceita(quinzenas, receitas, parcelas, receita);
      receitas := receitas + [receita];
      proximoId := proximoId + 1;
      r := Ok(receita);
    }

    /** `prisma.parcela.createMany`: the rows of `parcelasData` with fresh
        consecutive ids, not paid and with no payment recorded. None of
        them is paid, so no quinzena's figures move. */
    method CriarParcelas(parcelasData: seq<NovaParcela>)
      requires Valid()
      requires forall k :: 0 <= k < |parcelasData| ==>
        parcelasData[k].despesaId in despesas && parcelasData[k].quinzenaId in quinzenas
      modifies this
      ensures Valid()
      ensures parcelas == old(parcelas) + Materializar(parcelasData, old(proximoId))
      ensures meses == old(meses) && quinzenas == old(quinzenas)
      ensures receitas == old(receitas) && despesas == old(despesas)
      ensures forall q {:trigger CalculosAtuais(q)} :: q in quinzenas ==> CalculosAtuais(q) == old(CalculosAtuais(q))
    {
      var novas := Materializar(parcelasData, proximoId);
      CalculosAoAdicionarNaoPagas(quinzenas, receitas, parcelas, novas);
      ConsistentesAoInserir(parcelas, parcelasData, despesas, quinzenas, proximoId);
      parcelas := parcelas + novas;
      proximoId := proximoId + |novas|;
    }

    /** `POST /api/quinzenas/:id/despesas`: the expense row, then the rows
        the installment loop builds, all placed in this same quinzena.
        The answer carries the expense and the records of its
        installments (`parcelasRelacao`). The two inserts are separate;
        with the quinzena present the second cannot fail here. No
        installment is paid yet, so no quinzena's figures move. */
    method CriarDespesa(
      quinzenaId: Id, descricao: string, valorTotal: Money, numParcelas: int,
      categoria: string, observacao: Option<string>, hoje: Day)
      returns (r: Result<Despesa>, parcelasData: seq<NovaParcela>)
      requires Valid()
      modifies this
      ensures Valid()
      ensures quinzenaId !in quinzenas ==> r == Err(StorageError) && parcelasData == [] && unchanged(this)
      ensures quinzenaId in quinzenas ==>
        && r.Ok?
        && r.value == Despesa(old(proximoId), descricao, valorTotal, numParcelas, categoria, observacao, quinzenaId)
        && r.value.id !in old(despesas)
        && despesas == old(despesas)[r.value.id := r.value]
        && IsPlano(parcelasData, valorTotal, numParcelas, hoje, r.value.id, quinzenaId)
        && parcelas == old(parcelas) + Materializar(parcelasData, r.value.id + 1)
      ensures meses == old(meses) && quinzenas == old(quinzenas) && receitas == old(receitas)
      ensures forall q {:trigger CalculosAtuais(q)} :: q in quinzenas ==> CalculosAtuais(q) == old(CalculosAtuais(q))
    {
      if quinzenaId !in quinzenas {
        return Err(StorageError), [];
      }
      var despesa := InserirDespesa(quinzenaId, descricao, valorTotal, numParcelas, categoria, observacao);
      parcelasData := GerarParcelas(valorTotal, numParcelas, hoje, despesa.id, quinzenaId);
      CriarParcelas(parcelasData);
      r := Ok(despesa);
    }

    /** `prisma.despesa.create`: the expense row as given, with a fresh id;
        nothing checks the amount or the number of installments. */
    method InserirDespesa(
      quinzenaId: Id, descricao: string, valorTotal: Money, numParcelas: int,
      categoria: string, observacao: Option<string>)
      returns (despesa: Despesa)
      requires Valid() && quinzenaId in quinzenas
      modifies this
      ensures Valid()
      ensures despesa == Despesa(old(proximoId), descricao, valorTotal, numParcelas, categoria, observacao, quinzenaId)
      ensures despesa.id !in old(despesas) && despesas == old(despesas)[despesa.id := despesa]
      ensures proximoId == old(proximoId) + 1
      ensures meses == old(meses) && quinzenas == old(quinzenas)
      ensures receitas == old(receitas) && parcelas == old(parcelas)
    {
      despesa := Despesa(proximoId, descricao, valorTotal, numParcelas, categoria, observacao, quinzenaId);
      despesas := despesas[despesa.id := despesa];
      proximoId := proximoId + 1;
    }

    /** `PATCH /api/parcelas/:id/pagar`: not found when no row has the id;
        otherwise exactly that row is settled with `Pagar`, whether or not
        it was already paid, and the balance of its quinzena moves by the
        change in its debit while no other balance moves. */
    method PagarParcela(id: Id, valorPago: Option<Money>, agora: Day) returns (r: Result<Parcela>)
      requires Valid()
      modifies this
      ensures Valid()
      ensures meses == old(meses) && quinzenas == old(quinzenas)
      ensures receitas == old(receitas) && despesas == old(despesas)
      ensures IndiceDe(old(parcelas), id).None? ==> r == Err(NotFound) && parcelas == old(parcelas)
      ensures IndiceDe(old(parcelas), id).Some? ==>
        var i := IndiceDe(old(parcelas), id).value;
        && parcelas == old(parcelas)[i := Pagar(old(parcelas)[i], valorPago, agora)]
        && r == Ok(parcelas[i])
        && forall q {:trigger CalculosAtuais(q)} :: q in quinzenas ==>
             CalculosAtuais(q).saldoDisponivel
             == old(CalculosAtuais(q)).saldoDisponivel
                + (if q == parcelas[i].quinzenaId then Debito(old(parcelas)[i]) - Debito(parcelas[i]) else 0.0)
    {
      var indice := IndiceDe(parcelas, id);
      if indice.None? {
        return Err(NotFound);
      }
      var i := indice.value;
      var pago := Pagar(parcelas[i], valorPago, agora);
      SaldoAoTrocar(quinzenas, receitas, parcelas, i, pago);
      ConsistentesAoPagar(parcelas, i, valorPago, agora, despesas, quinzenas, proximoId);
      parcelas := parcelas[i := pago];
      r := Ok(pago);
    }
  }
}
