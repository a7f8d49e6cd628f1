/** Opening and closing shifts, and the shift queries (TurnoService). */
module ShiftService {
  import opened Results
  import opened Numerals
  import opened CashCounts
  import opened Clock
  import opened Shifts
  import opened Entries
  import opened Stores
  import opened Flows

  /** The shift code: till code, teller code and the `yyyyMMdd` date, separated by dashes. */
  function GenerarCodigoTurno(codigoCaja: string, codigoCajero: string, now: DateTime): (r: string)
    requires ValidDateTime(now)
    ensures |r| == |codigoCaja| + |codigoCajero| + 10
    ensures r[..|codigoCaja| + |codigoCajero| + 2] == codigoCaja + "-" + codigoCajero + "-"
    ensures IsDigits(r[|r| - 8..])
    ensures DecimalValue(r[|r| - 8..|r| - 4]) == now.year
    ensures DecimalValue(r[|r| - 4..|r| - 2]) == now.month
    ensures DecimalValue(r[|r| - 2..]) == now.day
  {
    var stamp := DateStamp(now);
    var r := codigoCaja + "-" + codigoCajero + "-" + stamp;
    assert r[|r| - 8..] == stamp;
    assert r[|r| - 8..|r| - 4] == stamp[..4];
    assert r[|r| - 4..|r| - 2] == stamp[4..6];
    assert r[|r| - 2..] == stamp[6..];
    r
  }

  /** For one teller at one till, two shift codes coincide exactly when they were made on the same day. */
  lemma ShiftCodeIsDaily(codigoCaja: string, codigoCajero: string, a: DateTime, b: DateTime)
    requires ValidDateTime(a) && ValidDateTime(b)
    ensures GenerarCodigoTurno(codigoCaja, codigoCajero, a) == GenerarCodigoTurno(codigoCaja, codigoCajero, b)
      <==> SameDate(a, b)
  {
    var ca := GenerarCodigoTurno(codigoCaja, codigoCajero, a);
    var cb := GenerarCodigoTurno(codigoCaja, codigoCajero, b);
    if SameDate(a, b) {
      assert a.(hour := 0, minute := 0, second := 0) == b.(hour := 0, minute := 0, second := 0);
      assert DateStamp(a) == DateStamp(a.(hour := 0, minute := 0, second := 0));
      assert DateStamp(b) == DateStamp(b.(hour := 0, minute := 0, second := 0));
    }
  }

  /** Whether a note is empty once leading and trailing control characters and spaces are trimmed. */
  predicate IsBlank(s: string) {
    forall i :: 0 <= i < |s| ==> s[i] <= ' '
  }

  const ClosingSeparator: string := " | Cierre: "

  /**
   * The remarks after closing: a non-blank closing note is appended to the existing remarks (a
   * missing remark reads as empty) after a separator; a missing or blank note leaves them alone.
   */
  function AppendClosingNote(existing: Option<string>, note: Option<string>): (r: Option<string>)
    ensures note.None? || IsBlank(note.value) ==> r == existing
    ensures note.Some? && !IsBlank(note.value) ==>
      && r.Some?
      && |r.value| == |existing.GetOr("")| + |ClosingSeparator| + |note.value|
      && r.value[..|existing.GetOr("")|] == existing.GetOr("")
      && r.value[|existing.GetOr("")|..|r.value| - |note.value|] == ClosingSeparator
      && r.value[|r.value| - |note.value|..] == note.value
  {
    if note.Some? && !IsBlank(note.value) then
      var before := existing.GetOr("");
      var s := before + ClosingSeparator + note.value;
      assert s[..|before|] == before;
      assert s[|before|..|s| - |note.value|] == ClosingSeparator;
      assert s[|s| - |note.value|..] == note.value;
      Some(s)
    else existing
  }

  /**
   * The cash the drawer should hold: the opening total plus the net impact of the shift's
   * transactions, with the opening count evaluated first.
   */
  function CalcularMontoEsperado(t: Shift, ledger: seq<Entry>): (r: Result<int>)
    ensures r.Success? <==> CalcularMontoInicial(t).Success? && AllCount(EntriesOf(ledger, t.id))
    ensures CalcularMontoInicial(t).Failure? ==> r == CalcularMontoInicial(t)
    ensures r.Success? ==> r.value == CalcularMontoInicial(t).value + Impact(EntriesOf(ledger, t.id)).value
  {
    var opening := CalcularMontoInicial(t);
    if opening.Failure? then Failure(opening.error)
    else
      var impact := Impact(EntriesOf(ledger, t.id));
      if impact.Failure? then impact else Success(opening.value + impact.value)
  }

  /** The cash a drawer should hold by the books: opening worth, plus deposits, minus withdrawals. */
  function BookBalance(t: Shift, ledger: seq<Entry>): int
    requires t.dineroInicial.Some?
  {
    var es := EntriesOf(ledger, t.id);
    Worth(t.dineroInicial.value) + KindSum(es, Deposit) - KindSum(es, Withdrawal)
  }

  /**
   * With a valid opening count and every transaction of the shift recounting to its amount, the
   * expected cash is the opening worth plus deposits minus withdrawals.
   */
  lemma ExpectedIsOpeningPlusNetFlow(t: Shift, ledger: seq<Entry>)
    requires t.dineroInicial.Some? && AllValid(t.dineroInicial.value)
    requires forall e :: e in ledger && e.turnoId == t.id ==> Recounts(e)
    ensures CalcularMontoEsperado(t, ledger) == Success(BookBalance(t, ledger))
  {
    var es := EntriesOf(ledger, t.id);
    forall i | 0 <= i < |es| ensures Recounts(es[i]) {
      assert es[i] in es;
    }
    ImpactIsNetFlow(es);
    assert CalcularMontoInicial(t) == Success(Worth(t.dineroInicial.value));
  }

  /** Before anything is posted to a shift, its expected cash is exactly what its opening count is worth. */
  lemma ExpectedBeforePosting(t: Shift, ledger: seq<Entry>)
    requires t.dineroInicial.Some? && AllValid(t.dineroInicial.value)
    requires forall e :: e in ledger ==> e.turnoId != t.id
    ensures CalcularMontoEsperado(t, ledger).Success?
    ensures CalcularMontoEsperado(t, ledger).value == Worth(t.dineroInicial.value)
  {
    ExpectedIsOpeningPlusNetFlow(t, ledger);
    var es := EntriesOf(ledger, t.id);
    assert es == [];
  }

  /** Posting one more recounting entry of the shift moves its expected cash by the entry's signed amount. */
  lemma ExpectedAfterPosting(t: Shift, ledger: seq<Entry>, e: Entry)
    requires CalcularMontoEsperado(t, ledger).Success?
    requires e.turnoId == t.id && Recounts(e)
    ensures CalcularMontoEsperado(t, ledger + [e]).Success?
    ensures CalcularMontoEsperado(t, ledger + [e]).value
      == CalcularMontoEsperado(t, ledger).value + SignedAmount(e.tipo, e.monto)
  {
    var es := EntriesOf(ledger, t.id);
    var opening := CalcularMontoInicial(t);
    assert opening.Success? && AllCount(es);
    assert EntriesOf(ledger + [e], t.id) == es + [e] by {
      EntriesOfAppend(ledger, e, t.id);
    }
    ImpactAppendOne(es, e);
    assert Impact(EntriesOf(ledger + [e], t.id)).Success?;
    assert CalcularMontoEsperado(t, ledger + [e]).Success?;
    assert CalcularMontoEsperado(t, ledger + [e]).value == opening.value + Impact(es + [e]).value;
    assert CalcularMontoEsperado(t, ledger).value == opening.value + Impact(es).value;
  }

  /** No shift of the teller is open. */
  predicate NoOpenShift(shifts: seq<Shift>, cajeroId: string) {
    forall t :: t in shifts ==> !Matches(OpenOf(cajeroId), t)
  }

  /** The shift a successful opening creates. */
  function OpenedShift(id: nat, teller: Teller, codigoCajero: string, dineroInicial: CashCount,
                       monto: int, observaciones: Option<string>, now: DateTime): Shift
    requires ValidDateTime(now)
  {
    Shift(id, GenerarCodigoTurno(teller.codigoCaja, codigoCajero, now), teller.id, codigoCajero,
      teller.codigoCaja, teller.agencia, ABIERTO, Some(now), None, Some(dineroInicial), None,
      Some(monto), None, None, Some(false), observaciones)
  }

  /**
   * Opens a shift for an active teller who has none open, with a non-empty opening count. The
   * guards run in this order: the teller, the open shift, the opening count, its denominations.
   */
  function AbrirTurno(st: Store, dir: Directory, codigoCajero: string, dineroInicial: Option<CashCount>,
                      observaciones: Option<string>, now: DateTime): (r: Result<(Store, Shift)>)
    requires ValidDateTime(now)
    ensures !IsActiveTeller(dir, codigoCajero) ==> r == Failure(NotFound(Code(codigoCajero), ActiveTellerEntity))
    ensures IsActiveTeller(dir, codigoCajero) && Ambiguous(st.shifts, OpenOf(dir[codigoCajero].id)) ==>
      r == Failure(NonUniqueResult)
    ensures (IsActiveTeller(dir, codigoCajero) && !Ambiguous(st.shifts, OpenOf(dir[codigoCajero].id))
      && !NoOpenShift(st.shifts, dir[codigoCajero].id)) ==>
      r == Failure(TurnoException(OpenShift, ShiftAlreadyOpen))
    ensures (IsActiveTeller(dir, codigoCajero) && NoOpenShift(st.shifts, dir[codigoCajero].id)
      && !HasLines(dineroInicial)) ==>
      r == Failure(TurnoException(OpenShift, MissingOpeningCash))
    ensures (IsActiveTeller(dir, codigoCajero) && NoOpenShift(st.shifts, dir[codigoCajero].id)
      && HasLines(dineroInicial) && !AllValid(dineroInicial.value)) ==>
      r == Failure(IllegalArgument(dineroInicial.value[FirstInvalid(dineroInicial.value)].denominacion))
    ensures r.Success? <==> (IsActiveTeller(dir, codigoCajero) && NoOpenShift(st.shifts, dir[codigoCajero].id)
      && HasLines(dineroInicial) && AllValid(dineroInicial.value))
    ensures r.Success? ==>
      var (st', t) := r.value;
      var teller := dir[codigoCajero];
      && st' == Store(st.shifts + [t], st.ledger)
      && t.id == |st.shifts|
      && t.codigoTurno == GenerarCodigoTurno(teller.codigoCaja, codigoCajero, now)
      && t.cajeroId == teller.id && t.codigoCajero == codigoCajero
      && t.codigoCaja == teller.codigoCaja && t.agencia == teller.agencia
      && IsOpen(t) && t.fechaApertura == Some(now) && t.fechaCierre.None?
      && t.dineroInicial == dineroInicial && t.dineroFinal.None?
      && t.montoCalculado == Some(Worth(dineroInicial.value))
      && t.montoDeclarado.None? && t.diferencia.None?
      && t.tieneAlerta == Some(false)
      && t.observaciones == observaciones
  {
    var teller := FindByCodigoActivo(dir, codigoCajero);
    if teller.Failure? then Failure(teller.error)
    else
      var open := FindOne(st.shifts, OpenOf(teller.value.id));
      if open.Failure? then Failure(open.error)
      else if open.value.Some? then Failure(TurnoException(OpenShift, ShiftAlreadyOpen))
      else if dineroInicial.None? || |dineroInicial.value| == 0 then
        Failure(TurnoException(OpenShift, MissingOpeningCash))
      else
        var monto := OptionalTotal(dineroInicial);
        if monto.Failure? then Failure(monto.error)
        else
          var t := OpenedShift(|st.shifts|, teller.value, codigoCajero, dineroInicial.value, monto.value,
            observaciones, now);
          Success((Store(Save(st.shifts, t), st.ledger), t))
  }

  /** Looks a shift up by its code; a missing code is not found and a duplicated one is an error. */
  function FindByCodigoTurno(shifts: seq<Shift>, codigoTurno: string): (r: Result<Shift>)
    ensures r.Success? <==>
      !Ambiguous(shifts, ByCode(codigoTurno)) && exists t :: t in shifts && t.codigoTurno == codigoTurno
    ensures r.Success? ==> r.value in shifts && r.value.codigoTurno == codigoTurno
    ensures Ambiguous(shifts, ByCode(codigoTurno)) ==> r == Failure(NonUniqueResult)
    ensures (forall t :: t in shifts ==> t.codigoTurno != codigoTurno) ==>
      r == Failure(NotFound(Code(codigoTurno), ShiftEntity))
  {
    var found := FindOne(shifts, ByCode(codigoTurno));
    if found.Failure? then Failure(found.error)
    else if found.value.None? then Failure(NotFound(Code(codigoTurno), ShiftEntity))
    else Success(found.value.value)
  }

  /** The open shifts of a branch, in collection order. */
  function FindByAgencia(shifts: seq<Shift>, agencia: string): (r: seq<Shift>)
    ensures forall t :: t in r <==> t in shifts && t.agencia == agencia && IsOpen(t)
  {
    Select(shifts, OpenIn(agencia))
  }

  /** The shifts flagged with a cash discrepancy, in collection order. */
  function FindTurnosConAlerta(shifts: seq<Shift>): (r: seq<Shift>)
    ensures forall t :: t in r <==> t in shifts && t.tieneAlerta == Some(true)
  {
    Select(shifts, Alerting)
  }

  /** The open shift of a teller, if any; two open shifts make the lookup fail. */
  function FindTurnoAbiertoPorCajero(shifts: seq<Shift>, cajeroId: string): (r: Result<Option<Shift>>)
    ensures r.Failure? <==> Ambiguous(shifts, OpenOf(cajeroId))
    ensures r == Success(None) <==> NoOpenShift(shifts, cajeroId)
    ensures r.Success? && r.value.Some? ==>
      r.value.value in shifts && r.value.value.cajeroId == cajeroId && IsOpen(r.value.value)
  {
    FindOne(shifts, OpenOf(cajeroId))
  }

  /** The shift a successful closing leaves behind. */
  function ClosedShift(t: Shift, dineroFinal: CashCount, esperado: int, declarado: int,
                       observaciones: Option<string>, now: DateTime): Shift
  {
    var diferencia := declarado - esperado;
    t.(estado := CERRADO, fechaCierre := Some(now), dineroFinal := Some(dineroFinal),
       montoCalculado := Some(esperado), montoDeclarado := Some(declarado),
       diferencia := Some(diferencia), tieneAlerta := Some(diferencia != 0),
       observaciones := AppendClosingNote(t.observaciones, observaciones))
  }

  /**
   * Closes an open shift against a non-empty closing count: records the expected and declared
   * cash, their difference and whether it raises an alert. The guards run in this order: the
   * lookup, the state, the closing count, the expected cash, the declared cash.
   */
  function CerrarTurno(st: Store, codigoTurno: string, dineroFinal: Option<CashCount>,
                       observaciones: Option<string>, now: DateTime): (r: Result<(Store, Shift)>)
    ensures FindByCodigoTurno(st.shifts, codigoTurno).Failure? ==>
      r == Failure(FindByCodigoTurno(st.shifts, codigoTurno).error)
    ensures var f := FindByCodigoTurno(st.shifts, codigoTurno);
      f.Success? && !IsOpen(f.value) ==> r == Failure(TurnoException(CloseShift, ShiftNotOpen))
    ensures var f := FindByCodigoTurno(st.shifts, codigoTurno);
      f.Success? && IsOpen(f.value) && !HasLines(dineroFinal) ==>
      r == Failure(TurnoException(CloseShift, MissingClosingCash))
    ensures var f := FindByCodigoTurno(st.shifts, codigoTurno);
      f.Success? && IsOpen(f.value) && HasLines(dineroFinal) && CalcularMontoEsperado(f.value, st.ledger).Failure? ==>
      r == Failure(CalcularMontoEsperado(f.value, st.ledger).error)
    ensures var f := FindByCodigoTurno(st.shifts, codigoTurno);
      f.Success? && IsOpen(f.value) && HasLines(dineroFinal) && CalcularMontoEsperado(f.value, st.ledger).Success?
      && !AllValid(dineroFinal.value) ==>
      r == Failure(IllegalArgument(dineroFinal.value[FirstInvalid(dineroFinal.value)].denominacion))
    ensures var f := FindByCodigoTurno(st.shifts, codigoTurno);
      r.Success? <==> (f.Success? && IsOpen(f.value) && HasLines(dineroFinal)
        && CalcularMontoEsperado(f.value, st.ledger).Success? && AllValid(dineroFinal.value))
    ensures r.Success? ==>
      var t := FindByCodigoTurno(st.shifts, codigoTurno).value;
      var (st', t') := r.value;
      var esperado := CalcularMontoEsperado(t, st.ledger).value;
      var declarado := Worth(dineroFinal.value);
      && st' == Store(Save(st.shifts, t'), st.ledger)
      && t'.estado == CERRADO && t'.fechaCierre == Some(now) && t'.dineroFinal == dineroFinal
      && t'.montoCalculado == Some(esperado)
      && t'.montoDeclarado == Some(declarado)
      && t'.diferencia == Some(declarado - esperado)
      && (t'.tieneAlerta == Some(true) <==> declarado != esperado)
      && t'.tieneAlerta.Some?
      && t'.observaciones == AppendClosingNote(t.observaciones, observaciones)
      && t'.id == t.id && t'.codigoTurno == t.codigoTurno && t'.cajeroId == t.cajeroId
      && t'.codigoCajero == t.codigoCajero && t'.codigoCaja == t.codigoCaja && t'.agencia == t.agencia
      && t'.fechaApertura == t.fechaApertura && t'.dineroInicial == t.dineroInicial
  {
    var found := FindByCodigoTurno(st.shifts, codigoTurno);
    if found.Failure? then Failure(found.error)
    else
      var t := found.value;
      if t.estado != ABIERTO then Failure(TurnoException(CloseShift, ShiftNotOpen))
      else if dineroFinal.None? || |dineroFinal.value| == 0 then
        Failure(TurnoException(CloseShift, MissingClosingCash))
      else
        var esperado := CalcularMontoEsperado(t, st.ledger);
        if esperado.Failure? then Failure(esperado.error)
        else
          var declarado := OptionalTotal(dineroFinal);
          if declarado.Failure? then Failure(declarado.error)
          else
            var t' := ClosedShift(t, dineroFinal.value, esperado.value, declarado.value, observaciones, now);
            Success((Store(Save(st.shifts, t'), st.ledger), t'))
  }
}
