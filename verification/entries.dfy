/** The transaction ledger entry and its own computations (Transaccion). */
module Entries {
  import opened Results
  import opened CashCounts
  import opened Clock

  const RETIRO: string := "RETIRO"
  const DEPOSITO: string := "DEPOSITO"

  /** The two transaction kinds and the names stored for them. */
  datatype Kind = Withdrawal | Deposit {
    function Name(): string {
      match this
      case Withdrawal => RETIRO
      case Deposit => DEPOSITO
    }
  }

  /** The kind a stored type name stands for, if any. */
  function KindOf(tipo: string): (r: Option<Kind>)
    ensures forall k: Kind :: r == Some(k) <==> k.Name() == tipo
  {
    if tipo == RETIRO then Some(Withdrawal)
    else if tipo == DEPOSITO then Some(Deposit)
    else None
  }

  /** Whether a type name is one of the two kinds. */
  function EsValidoTipo(tipo: string): (b: bool)
    ensures b <==> exists k: Kind :: k.Name() == tipo
    ensures b <==> KindOf(tipo).Some?
  {
    assert tipo == RETIRO ==> Withdrawal.Name() == tipo;
    assert tipo == DEPOSITO ==> Deposit.Name() == tipo;
    tipo == RETIRO || tipo == DEPOSITO
  }

  /** One posted transaction. */
  datatype Entry = Entry(
    id: nat,
    codigoTransaccion: string,
    turnoId: nat,
    cajeroId: string,
    codigoCajero: string,
    codigoCaja: string,
    tipo: string,
    monto: int,
    denominaciones: Option<CashCount>,
    clienteId: Option<string>,
    numeroCuenta: Option<string>,
    fechaTransaccion: DateTime,
    observaciones: Option<string>)

  /** The total of the entry's cash count; a null count is worth zero. */
  function CalcularMontoTotal(e: Entry): (r: Result<int>)
    ensures e.denominaciones.None? || e.denominaciones == Some([]) ==> r == Success(0)
    ensures e.denominaciones.Some? ==> (r.Success? <==> AllValid(e.denominaciones.value))
    ensures e.denominaciones.Some? && r.Success? ==> r.value == Worth(e.denominaciones.value)
    ensures r.Failure? ==> r.error == IllegalArgument(e.denominaciones.value[FirstInvalid(e.denominaciones.value)].denominacion)
  {
    OptionalTotal(e.denominaciones)
  }

  /** Reordering the entry's lines changes neither whether its total succeeds nor its value. */
  lemma EntryTotalOrderFree(e: Entry, lines: CashCount)
    requires e.denominaciones.Some? && multiset(lines) == multiset(e.denominaciones.value)
    ensures CalcularMontoTotal(e.(denominaciones := Some(lines))).Success? <==> CalcularMontoTotal(e).Success?
    ensures CalcularMontoTotal(e).Success? ==>
      CalcularMontoTotal(e.(denominaciones := Some(lines))).value == CalcularMontoTotal(e).value
  {
    TotalPermutation(lines, e.denominaciones.value);
  }

  /** An entry whose cash count recounts to exactly its declared amount. */
  predicate Recounts(e: Entry) {
    CalcularMontoTotal(e) == Success(e.monto)
  }
}
