/** Posting a cash transaction against an open shift (TransaccionService). */
module TransactionService {
  import opened Results
  import opened Numerals
  import opened CashCounts
  import opened Clock
  import opened Shifts
  import opened Entries
  import opened Stores

  const CodePrefix: string := "TXN-"

  /** The transaction code: `TXN-`, the teller code, the `yyyyMMdd` date and the `HHmmss` time. */
  function GenerarCodigoTransaccion(codigoCajero: string, now: DateTime): (r: string)
    requires ValidDateTime(now)
    ensures |r| == |codigoCajero| + 20
    ensures r[..|codigoCajero| + 5] == CodePrefix + codigoCajero + "-"
    ensures r[|r| - 7] == '-'
    ensures var date := r[|r| - 15..|r| - 7];
      IsDigits(date) && DecimalValue(date[..4]) == now.year && DecimalValue(date[4..6]) == now.month
      && DecimalValue(date[6..]) == now.day
    ensures var time := r[|r| - 6..];
      IsDigits(time) && DecimalValue(time[..2]) == now.hour && DecimalValue(time[2..4]) == now.minute
      && DecimalValue(time[4..]) == now.second
  {
    var date, time := DateStamp(now), TimeStamp(now);
    var r := CodePrefix + codigoCajero + "-" + date + "-" + time;
    assert r[|r| - 15..|r| - 7] == date;
    assert r[|r| - 6..] == time;
    r
  }

  /** For one teller, two transaction codes coincide exactly when they were made in the same second. */
  lemma TransactionCodeIsPerSecond(codigoCajero: string, a: DateTime, b: DateTime)
    requires ValidDateTime(a) && ValidDateTime(b)
    ensures GenerarCodigoTransaccion(codigoCajero, a) == GenerarCodigoTransaccion(codigoCajero, b)
      <==> SameSecond(a, b)
  {
    if SameSecond(a, b) {
      assert a == b;
    }
  }

  /** The ledger entry a successful posting creates, tied to its shift and teller. */
  function PostedEntry(id: nat, turnoId: nat, t: Shift, tipo: string, monto: int, denominaciones: CashCount,
                       clienteId: Option<string>, numeroCuenta: Option<string>,
                       observaciones: Option<string>, now: DateTime): Entry
    requires ValidDateTime(now)
  {
    Entry(id, GenerarCodigoTransaccion(t.codigoCajero, now), turnoId, t.cajeroId, t.codigoCajero,
      t.codigoCaja, tipo, monto, Some(denominaciones), clienteId, numeroCuenta, now, observaciones)
  }

  /**
   * Posts a deposit or withdrawal to an open shift. The guards run in this order: the shift
   * lookup, its state, the type, the amount's sign, the cash count's presence, its denominations,
   * and the agreement of the amount with the count.
   */
  function ProcesarTransaccion(st: Store, turnoId: nat, tipo: string, monto: int,
                               denominaciones: Option<CashCount>, clienteId: Option<string>,
                               numeroCuenta: Option<string>, observaciones: Option<string>,
                               now: DateTime): (r: Result<(Store, Entry)>)
    requires ValidDateTime(now)
    ensures turnoId >= |st.shifts| ==> r == Failure(NotFound(Id(turnoId), ShiftEntity))
    ensures turnoId < |st.shifts| && !IsOpen(st.shifts[turnoId]) ==>
      r == Failure(TransaccionException(PostTransaction, ShiftNotOpen))
    ensures (turnoId < |st.shifts| && IsOpen(st.shifts[turnoId]) && !EsValidoTipo(tipo)) ==>
      r == Failure(TransaccionException(PostTransaction, InvalidType))
    ensures (turnoId < |st.shifts| && IsOpen(st.shifts[turnoId]) && EsValidoTipo(tipo) && monto <= 0) ==>
      r == Failure(TransaccionException(PostTransaction, NonPositiveAmount))
    ensures (turnoId < |st.shifts| && IsOpen(st.shifts[turnoId]) && EsValidoTipo(tipo) && monto > 0
      && !HasLines(denominaciones)) ==>
      r == Failure(TransaccionException(PostTransaction, MissingDenominations))
    ensures (turnoId < |st.shifts| && IsOpen(st.shifts[turnoId]) && EsValidoTipo(tipo) && monto > 0
      && HasLines(denominaciones) && !AllValid(denominaciones.value)) ==>
      r == Failure(IllegalArgument(denominaciones.value[FirstInvalid(denominaciones.value)].denominacion))
    ensures (turnoId < |st.shifts| && IsOpen(st.shifts[turnoId]) && EsValidoTipo(tipo) && monto > 0
      && HasLines(denominaciones) && AllValid(denominaciones.value) && Worth(denominaciones.value) != monto) ==>
      r == Failure(TransaccionException(PostTransaction, AmountMismatch))
    ensures r.Success? <==> (turnoId < |st.shifts| && IsOpen(st.shifts[turnoId]) && EsValidoTipo(tipo)
      && monto > 0 && HasLines(denominaciones) && AllValid(denominaciones.value)
      && Worth(denominaciones.value) == monto)
    ensures r.Success? ==>
      var (st', e) := r.value;
      var t := st.shifts[turnoId];
      && st' == Store(st.shifts, st.ledger + [e])
      && e.id == |st.ledger| && e.turnoId == turnoId
      && e.codigoTransaccion == GenerarCodigoTransaccion(t.codigoCajero, now)
      && e.cajeroId == t.cajeroId && e.codigoCajero == t.codigoCajero && e.codigoCaja == t.codigoCaja
      && e.tipo == tipo && e.monto == monto && e.denominaciones == denominaciones
      && e.clienteId == clienteId && e.numeroCuenta == numeroCuenta
      && e.fechaTransaccion == now && e.observaciones == observaciones
      && Recounts(e)
  {
    var found := FindById(st.shifts, turnoId);
    if found.Failure? then Failure(found.error)
    else
      var t := found.value;
      if t.estado != ABIERTO then Failure(TransaccionException(PostTransaction, ShiftNotOpen))
      else if !EsValidoTipo(tipo) then Failure(TransaccionException(PostTransaction, InvalidType))
      else if monto <= 0 then Failure(TransaccionException(PostTransaction, NonPositiveAmount))
      else if denominaciones.None? || |denominaciones.value| == 0 then
        Failure(TransaccionException(PostTransaction, MissingDenominations))
      else
        var calculado := OptionalTotal(denominaciones);
        if calculado.Failure? then Failure(calculado.error)
        else if monto != calculado.value then Failure(TransaccionException(PostTransaction, AmountMismatch))
        else
          var e := PostedEntry(|st.ledger|, turnoId, t, tipo, monto, denominaciones.value, clienteId, numeroCuenta,
            observaciones, now);
          Success((Store(st.shifts, st.ledger + [e]), e))
  }
}
