/** The rows of the finance ledger's five tables (mes, quinzena, receita,
    despesa, parcela) and the error outcomes of its operations.
    Money is exact (`real`), dates are day numbers, ids are handed out by
    the store. */
module Records {

  type Id = nat

  /** A day number; calendar arithmetic is not modelled. */
  type Day = int

  type Money = real

  datatype Option<+T> = None | Some(value: T)

  /** JavaScript truthiness of an optional amount: `null`, `undefined`
      and `0` are falsy, every other number is truthy. */
  predicate Truthy(v: Option<Money>)
  {
    v.Some? && v.value != 0.0
  }

  datatype TipoQuinzena = Primeira | Segunda

  datatype Mes = Mes(id: Id, ano: int, mes: int, userId: string)

  datatype Quinzena = Quinzena(id: Id, tipo: TipoQuinzena, saldoAnterior: Money, mesId: Id)

  /** `tipo` is free text ("fixa", "variavel" in the user interface). */
  datatype Receita = Receita(id: Id, descricao: string, valor: Money, tipo: string, quinzenaId: Id)

  datatype Despesa = Despesa(
    id: Id,
    descricao: string,
    valorTotal: Money,
    parcelas: int,
    categoria: string,
    observacao: Option<string>,
    quinzenaId: Id)

  datatype Parcela = Parcela(
    id: Id,
    numeroParcela: int,
    valorParcela: Money,
    dataVencimento: Day,
    despesaId: Id,
    quinzenaId: Id,
    pago: bool,
    valorPago: Option<Money>,
    dataPagamento: Option<Day>)

  /** `NotFound` is the 404 of a missing quinzena and the failed lookup of
      a missing parcela; `StorageError` is an insert the database refuses
      (a foreign key naming a missing quinzena), answered with a 500. */
  datatype Error = NotFound | StorageError

  datatype Result<+T> = Ok(value: T) | Err(error: Error)
}
