/**
 * Properties of whole shift lifecycles: what a successful opening, posting or closing means for
 * the operations that follow it.
 */
module Lifecycle {
  import opened Results
  import opened CashCounts
  import opened Clock
  import opened Shifts
  import opened Entries
  import opened Stores
  import opened Flows
  import opened ShiftService
  import opened TransactionService
  import opened Invariants

  /** A query matched at exactly one position finds the shift at that position. */
  lemma FindOneAt(shifts: seq<Shift>, q: Query, i: nat)
    requires i < |shifts| && Matches(q, shifts[i]) && !Ambiguous(shifts, q)
    ensures FindOne(shifts, q) == Success(Some(shifts[i]))
  {
    assert shifts[i] in shifts;
    var x := FindOne(shifts, q).value.value;
    var k :| 0 <= k < |shifts| && shifts[k] == x;
    if k < i {
      assert Matches(q, shifts[k]) && Matches(q, shifts[i]);
    } else if i < k {
      assert Matches(q, shifts[i]) && Matches(q, shifts[k]);
    }
  }

  /** A teller who has just opened a shift cannot open another one. */
  lemma SecondOpenFails(st: Store, dir: Directory, codigoCajero: string, dineroInicial: Option<CashCount>,
                        observaciones: Option<string>, now: DateTime,
                        otroDinero: Option<CashCount>, otrasObservaciones: Option<string>, later: DateTime)
    requires ValidDateTime(now) && ValidDateTime(later)
    requires Valid(st)
    requires AbrirTurno(st, dir, codigoCajero, dineroInicial, observaciones, now).Success?
    ensures var st' := AbrirTurno(st, dir, codigoCajero, dineroInicial, observaciones, now).value.0;
      AbrirTurno(st', dir, codigoCajero, otroDinero, otrasObservaciones, later)
        == Failure(TurnoException(OpenShift, ShiftAlreadyOpen))
  {
    var (st', t) := AbrirTurno(st, dir, codigoCajero, dineroInicial, observaciones, now).value;
    AbrirTurnoPreservesValid(st, dir, codigoCajero, dineroInicial, observaciones, now);
    OpenLookupIsUnique(st', dir[codigoCajero].id);
    assert t == st'.shifts[|st.shifts|];
    assert t in st'.shifts && Matches(OpenOf(dir[codigoCajero].id), t);
  }

  /** Closing a shift changes only that shift, which was open: a closed shift is never reopened. */
  lemma ClosingTouchesOnlyTheOpenShift(st: Store, codigoTurno: string, dineroFinal: Option<CashCount>,
                                       observaciones: Option<string>, now: DateTime)
    requires Valid(st)
    requires CerrarTurno(st, codigoTurno, dineroFinal, observaciones, now).Success?
    ensures var (st', t') := CerrarTurno(st, codigoTurno, dineroFinal, observaciones, now).value;
      && |st'.shifts| == |st.shifts|
      && t'.id < |st.shifts| && IsOpen(st.shifts[t'.id]) && st'.shifts[t'.id] == t'
      && (forall i :: 0 <= i < |st.shifts| && i != t'.id ==> st'.shifts[i] == st.shifts[i])
      && st'.ledger == st.ledger
  {
    var t := FindByCodigoTurno(st.shifts, codigoTurno).value;
    ShiftAtItsId(st.shifts, t);
  }

  /** Once closed, a shift takes no more transactions. */
  lemma PostAfterCloseFails(st: Store, codigoTurno: string, dineroFinal: Option<CashCount>,
                            observaciones: Option<string>, now: DateTime,
                            tipo: string, monto: int, denominaciones: Option<CashCount>, clienteId: Option<string>,
                            numeroCuenta: Option<string>, nota: Option<string>, later: DateTime)
    requires ValidDateTime(later)
    requires Valid(st)
    requires CerrarTurno(st, codigoTurno, dineroFinal, observaciones, now).Success?
    ensures var (st', t') := CerrarTurno(st, codigoTurno, dineroFinal, observaciones, now).value;
      ProcesarTransaccion(st', t'.id, tipo, monto, denominaciones, clienteId, numeroCuenta, nota, later)
        == Failure(TransaccionException(PostTransaction, ShiftNotOpen))
  {
    ClosingTouchesOnlyTheOpenShift(st, codigoTurno, dineroFinal, observaciones, now);
  }

  /** After a closing, the code still finds exactly one shift: the closed record. */
  lemma ClosedRecordFoundByCode(st: Store, codigoTurno: string, dineroFinal: Option<CashCount>,
                                observaciones: Option<string>, now: DateTime)
    requires Valid(st)
    requires CerrarTurno(st, codigoTurno, dineroFinal, observaciones, now).Success?
    ensures var (st', t') := CerrarTurno(st, codigoTurno, dineroFinal, observaciones, now).value;
      FindByCodigoTurno(st'.shifts, codigoTurno) == Success(t') && !IsOpen(t')
  {
    var t := FindByCodigoTurno(st.shifts, codigoTurno).value;
    var (st', t') := CerrarTurno(st, codigoTurno, dineroFinal, observaciones, now).value;
    ShiftAtItsId(st.shifts, t);
    ClosingTouchesOnlyTheOpenShift(st, codigoTurno, dineroFinal, observaciones, now);
    var q := ByCode(codigoTurno);
    assert forall k :: 0 <= k < |st.shifts| ==> (Matches(q, st'.shifts[k]) <==> Matches(q, st.shifts[k]));
    assert !Ambiguous(st'.shifts, q);
    FindOneAt(st'.shifts, q, t.id);
  }

  /** Once closed, a shift cannot be closed again under its code. */
  lemma SecondCloseFails(st: Store, codigoTurno: string, dineroFinal: Option<CashCount>,
                         observaciones: Option<string>, now: DateTime,
                         otroDinero: Option<CashCount>, otrasObservaciones: Option<string>, later: DateTime)
    requires Valid(st)
    requires CerrarTurno(st, codigoTurno, dineroFinal, observaciones, now).Success?
    ensures var st' := CerrarTurno(st, codigoTurno, dineroFinal, observaciones, now).value.0;
      CerrarTurno(st', codigoTurno, otroDinero, otrasObservaciones, later)
        == Failure(TurnoException(CloseShift, ShiftNotOpen))
  {
    ClosedRecordFoundByCode(st, codigoTurno, dineroFinal, observaciones, now);
  }

  /**
   * Posting to an open shift moves its expected cash by the amount: up for a deposit, down for a
   * withdrawal.
   */
  lemma PostingMovesExpected(st: Store, turnoId: nat, tipo: string, monto: int,
                             denominaciones: Option<CashCount>, clienteId: Option<string>,
                             numeroCuenta: Option<string>, observaciones: Option<string>, now: DateTime)
    requires ValidDateTime(now)
    requires Valid(st)
    requires ProcesarTransaccion(st, turnoId, tipo, monto, denominaciones, clienteId, numeroCuenta, observaciones, now).Success?
    ensures var st' := ProcesarTransaccion(st, turnoId, tipo, monto, denominaciones, clienteId, numeroCuenta, observaciones, now).value.0;
      var before := CalcularMontoEsperado(st.shifts[turnoId], st.ledger);
      var after := CalcularMontoEsperado(st'.shifts[turnoId], st'.ledger);
      && before.Success? && after.Success?
      && (tipo == DEPOSITO ==> after.value == before.value + monto)
      && (tipo == RETIRO ==> after.value == before.value - monto)
  {
    var (st', e) := ProcesarTransaccion(st, turnoId, tipo, monto, denominaciones, clienteId, numeroCuenta, observaciones, now).value;
    var t := st.shifts[turnoId];
    ExpectedDefined(st, turnoId);
    assert t.id == turnoId && Recounts(e) && e.turnoId == turnoId;
    ExpectedAfterPosting(t, st.ledger, e);
  }

  /** Closing a uniquely found open shift whose expected cash is known records that cash and the difference. */
  lemma CloseWithExpected(st: Store, t: Shift, esperado: int, dineroFinal: CashCount,
                          observaciones: Option<string>, now: DateTime)
    requires FindByCodigoTurno(st.shifts, t.codigoTurno) == Success(t) && IsOpen(t)
    requires CalcularMontoEsperado(t, st.ledger).Success? && CalcularMontoEsperado(t, st.ledger).value == esperado
    requires |dineroFinal| > 0 && AllValid(dineroFinal)
    ensures var r := CerrarTurno(st, t.codigoTurno, Some(dineroFinal), observaciones, now);
      && r.Success?
      && r.value.1.montoCalculado == Some(esperado)
      && r.value.1.diferencia == Some(Worth(dineroFinal) - esperado)
      && r.value.1.tieneAlerta == Some(Worth(dineroFinal) != esperado)
  {
    var f := FindByCodigoTurno(st.shifts, t.codigoTurno);
    assert f.Success? && f.value == t && IsOpen(f.value);
    assert CalcularMontoEsperado(f.value, st.ledger).Success?;
    assert HasLines(Some(dineroFinal)) && AllValid(Some(dineroFinal).value);
    var r := CerrarTurno(st, t.codigoTurno, Some(dineroFinal), observaciones, now);
    assert r.Success?;
    var t' := r.value.1;
    assert t'.diferencia == Some(Worth(dineroFinal) - esperado);
  }

  /**
   * Closing an open shift over a well-formed ledger with a valid closing count succeeds, and the
   * recorded difference is the declared cash minus opening cash plus deposits minus withdrawals;
   * the alert is raised exactly when that difference is not zero.
   */
  lemma ClosingReconciles(st: Store, i: nat, dineroFinal: CashCount, observaciones: Option<string>, now: DateTime)
    requires LedgerWellFormed(st) && i < |st.shifts| && OpenWellFormed(st.shifts[i])
    requires !Ambiguous(st.shifts, ByCode(st.shifts[i].codigoTurno))
    requires |dineroFinal| > 0 && AllValid(dineroFinal)
    ensures CerrarTurno(st, st.shifts[i].codigoTurno, Some(dineroFinal), observaciones, now).Success?
    ensures st.shifts[i].dineroInicial.Some?
    ensures CerrarTurno(st, st.shifts[i].codigoTurno, Some(dineroFinal), observaciones, now).value.1.montoCalculado
      == Some(BookBalance(st.shifts[i], st.ledger))
    ensures CerrarTurno(st, st.shifts[i].codigoTurno, Some(dineroFinal), observaciones, now).value.1.diferencia
      == Some(Worth(dineroFinal) - BookBalance(st.shifts[i], st.ledger))
    ensures CerrarTurno(st, st.shifts[i].codigoTurno, Some(dineroFinal), observaciones, now).value.1.tieneAlerta
      == Some(Worth(dineroFinal) != BookBalance(st.shifts[i], st.ledger))
  {
    var t := st.shifts[i];
    FindOneAt(st.shifts, ByCode(t.codigoTurno), i);
    ExpectedOfOpenShift(st, t);
    CloseWithExpected(st, t, BookBalance(t, st.ledger), dineroFinal, observaciones, now);
  }

  /** After a closing, the shift is listed among the alerting shifts exactly when the cash did not reconcile. */
  lemma AlertListedIffDiscrepancy(st: Store, codigoTurno: string, dineroFinal: Option<CashCount>,
                                  observaciones: Option<string>, now: DateTime)
    requires Valid(st)
    requires CerrarTurno(st, codigoTurno, dineroFinal, observaciones, now).Success?
    ensures var (st', t') := CerrarTurno(st, codigoTurno, dineroFinal, observaciones, now).value;
      t' in FindTurnosConAlerta(st'.shifts) <==> t'.montoDeclarado.value != t'.montoCalculado.value
  {
    ClosingTouchesOnlyTheOpenShift(st, codigoTurno, dineroFinal, observaciones, now);
  }

  /** Once two shifts share a code, closing by that code fails, whatever count it brings. */
  lemma DuplicateCodeBlocksClosing(st: Store, i: nat, j: nat, dineroFinal: Option<CashCount>,
                                   nota: Option<string>, later: DateTime)
    requires i < j < |st.shifts| && st.shifts[i].codigoTurno == st.shifts[j].codigoTurno
    ensures CerrarTurno(st, st.shifts[j].codigoTurno, dineroFinal, nota, later) == Failure(NonUniqueResult)
  {
    assert Ambiguous(st.shifts, ByCode(st.shifts[j].codigoTurno));
  }

  /**
   * Shift codes carry only the date, so a shift opened at the same till by the same teller on the
   * same day as an earlier one (whose code was made at `earlier`) repeats its code, and from then on a closing by that code finds two
   * shifts and fails.
   */
  lemma SameDayReopenIsAmbiguous(st: Store, dir: Directory, codigoCajero: string, dineroInicial: Option<CashCount>,
                                 observaciones: Option<string>, now: DateTime, k: nat, earlier: DateTime,
                                 dineroFinal: Option<CashCount>, nota: Option<string>, later: DateTime)
    requires ValidDateTime(now)
    requires AbrirTurno(st, dir, codigoCajero, dineroInicial, observaciones, now).Success?
    requires k < |st.shifts| && st.shifts[k].codigoCaja == dir[codigoCajero].codigoCaja
    requires st.shifts[k].codigoCajero == codigoCajero
    requires ValidDateTime(earlier) && SameDate(earlier, now)
    requires st.shifts[k].codigoTurno == GenerarCodigoTurno(st.shifts[k].codigoCaja, st.shifts[k].codigoCajero, earlier)
    ensures var (st', t) := AbrirTurno(st, dir, codigoCajero, dineroInicial, observaciones, now).value;
      CerrarTurno(st', t.codigoTurno, dineroFinal, nota, later) == Failure(NonUniqueResult)
  {
    var (st', t) := AbrirTurno(st, dir, codigoCajero, dineroInicial, observaciones, now).value;
    ShiftCodeIsDaily(dir[codigoCajero].codigoCaja, codigoCajero, earlier, now);
    assert st'.shifts[k] == st.shifts[k] && st'.shifts[|st.shifts|] == t;
    DuplicateCodeBlocksClosing(st', k, |st.shifts|, dineroFinal, nota, later);
  }
}
