/**
 * The consistency the services keep between the shift collection and the ledger, and the proof
 * that every successful operation keeps it.
 */
module Invariants {
  import opened Results
  import opened CashCounts
  import opened Shifts
  import opened Entries
  import opened Stores
  import opened Flows
  import opened ShiftService
  import opened TransactionService

  /** Every shift's id is its position in the collection. */
  predicate ShiftIds(shifts: seq<Shift>) {
    forall i :: 0 <= i < |shifts| ==> shifts[i].id == i
  }

  /** An open shift: a valid opening count whose worth is the running balance, no closing data, no alert. */
  predicate OpenWellFormed(t: Shift) {
    && IsOpen(t)
    && HasLines(t.dineroInicial) && AllValid(t.dineroInicial.value)
    && t.fechaApertura.Some? && t.fechaCierre.None?
    && t.dineroFinal.None?
    && t.montoCalculado == Some(Worth(t.dineroInicial.value))
    && t.montoDeclarado.None? && t.diferencia.None?
    && t.tieneAlerta == Some(false)
  }

  /**
   * A closed shift: valid opening and closing counts, the expected cash over the current ledger
   * recorded, the declared cash being the closing count's worth, and the alert raised exactly for
   * a non-zero difference.
   */
  predicate ClosedWellFormed(t: Shift, ledger: seq<Entry>) {
    && t.estado == CERRADO
    && HasLines(t.dineroInicial) && AllValid(t.dineroInicial.value)
    && t.fechaApertura.Some? && t.fechaCierre.Some?
    && HasLines(t.dineroFinal) && AllValid(t.dineroFinal.value)
    && CalcularMontoEsperado(t, ledger).Success?
    && t.montoCalculado == Some(CalcularMontoEsperado(t, ledger).value)
    && t.montoDeclarado == Some(Worth(t.dineroFinal.value))
    && t.diferencia == Some(t.montoDeclarado.value - t.montoCalculado.value)
    && t.tieneAlerta == Some(t.diferencia.value != 0)
  }

  predicate ShiftsWellFormed(st: Store) {
    forall i :: 0 <= i < |st.shifts| ==> OpenWellFormed(st.shifts[i]) || ClosedWellFormed(st.shifts[i], st.ledger)
  }

  /** No teller has two open shifts. */
  predicate OneOpenPerTeller(shifts: seq<Shift>) {
    forall i, j :: 0 <= i < j < |shifts| && IsOpen(shifts[i]) && IsOpen(shifts[j]) ==>
      shifts[i].cajeroId != shifts[j].cajeroId
  }

  /** What every posted entry satisfies: a known type, a positive amount, a count that recounts to it. */
  predicate Posted(e: Entry) {
    EsValidoTipo(e.tipo) && e.monto > 0 && HasLines(e.denominaciones) && Recounts(e)
  }

  /** Every entry's id is its position, it is well posted, and its shift exists. */
  predicate LedgerWellFormed(st: Store) {
    forall k :: 0 <= k < |st.ledger| ==>
      st.ledger[k].id == k && Posted(st.ledger[k]) && st.ledger[k].turnoId < |st.shifts|
  }

  predicate Valid(st: Store) {
    ShiftIds(st.shifts) && ShiftsWellFormed(st) && OneOpenPerTeller(st.shifts) && LedgerWellFormed(st)
  }

  /** The empty store is consistent. */
  lemma EmptyIsValid()
    ensures Valid(Store([], []))
  {
  }

  /** A shift held by a store with positional ids sits at the position of its id. */
  lemma ShiftAtItsId(shifts: seq<Shift>, t: Shift)
    requires ShiftIds(shifts) && t in shifts
    ensures t.id < |shifts| && shifts[t.id] == t
  {
    var k :| 0 <= k < |shifts| && shifts[k] == t;
  }

  /** Every entry of a well-formed ledger can be recounted. */
  lemma EntriesCount(st: Store, id: nat)
    requires LedgerWellFormed(st)
    ensures AllCount(EntriesOf(st.ledger, id))
    ensures forall e :: e in EntriesOf(st.ledger, id) ==> Recounts(e)
  {
    var es := EntriesOf(st.ledger, id);
    forall e | e in es ensures Recounts(e) {
      var k :| 0 <= k < |st.ledger| && st.ledger[k] == e;
      assert Posted(st.ledger[k]);
    }
    forall i | 0 <= i < |es| ensures CalcularMontoTotal(es[i]).Success? {
      assert es[i] in es;
    }
  }

  /** Over a well-formed ledger, the expected cash of an open shift is its opening worth plus deposits minus withdrawals. */
  lemma ExpectedOfOpenShift(st: Store, t: Shift)
    requires LedgerWellFormed(st) && OpenWellFormed(t)
    ensures CalcularMontoEsperado(t, st.ledger) == Success(BookBalance(t, st.ledger))
  {
    forall e | e in st.ledger && e.turnoId == t.id ensures Recounts(e) {
      var k :| 0 <= k < |st.ledger| && st.ledger[k] == e;
      assert Posted(st.ledger[k]);
    }
    ExpectedIsOpeningPlusNetFlow(t, st.ledger);
  }

  /** In a consistent store, the expected cash of any shift can be computed. */
  lemma ExpectedDefined(st: Store, i: nat)
    requires Valid(st) && i < |st.shifts|
    ensures CalcularMontoEsperado(st.shifts[i], st.ledger).Success?
  {
    var t := st.shifts[i];
    assert OpenWellFormed(t) || ClosedWellFormed(t, st.ledger);
    EntriesCount(st, t.id);
  }

  /** The expected cash depends on the shift only through its id and its opening count. */
  lemma ExpectedDependsOnOpening(a: Shift, b: Shift, ledger: seq<Entry>)
    requires a.id == b.id && a.dineroInicial == b.dineroInicial
    ensures CalcularMontoEsperado(a, ledger) == CalcularMontoEsperado(b, ledger)
  {
    assert CalcularMontoInicial(a) == CalcularMontoInicial(b);
  }

  /** In a consistent store no teller lookup for an open shift is ambiguous. */
  lemma OpenLookupIsUnique(st: Store, cajeroId: string)
    requires Valid(st)
    ensures !Ambiguous(st.shifts, OpenOf(cajeroId))
    ensures FindTurnoAbiertoPorCajero(st.shifts, cajeroId).Success?
  {
  }

  /** Opening a shift keeps the store consistent. */
  lemma AbrirTurnoPreservesValid(st: Store, dir: Directory, codigoCajero: string,
                                 dineroInicial: Option<CashCount>, observaciones: Option<string>, now: Clock.DateTime)
    requires Clock.ValidDateTime(now)
    requires Valid(st)
    requires AbrirTurno(st, dir, codigoCajero, dineroInicial, observaciones, now).Success?
    ensures Valid(AbrirTurno(st, dir, codigoCajero, dineroInicial, observaciones, now).value.0)
  {
    var (st', t) := AbrirTurno(st, dir, codigoCajero, dineroInicial, observaciones, now).value;
    var id := dir[codigoCajero].id;
    assert NoOpenShift(st.shifts, id);
    assert st'.shifts == st.shifts + [t] && st'.ledger == st.ledger;
    assert OpenWellFormed(t);
    forall i | 0 <= i < |st'.shifts| ensures OpenWellFormed(st'.shifts[i]) || ClosedWellFormed(st'.shifts[i], st'.ledger) {
      if i < |st.shifts| {
        assert st'.shifts[i] == st.shifts[i];
      }
    }
    forall i, j | 0 <= i < j < |st'.shifts| && IsOpen(st'.shifts[i]) && IsOpen(st'.shifts[j])
      ensures st'.shifts[i].cajeroId != st'.shifts[j].cajeroId
    {
      if j == |st.shifts| {
        assert st.shifts[i] in st.shifts;
        assert !Matches(OpenOf(id), st.shifts[i]);
      }
    }
  }

  /** A closed shift's record stays consistent when an entry of another shift is posted. */
  lemma ClosedIgnoresOtherEntries(t: Shift, ledger: seq<Entry>, e: Entry)
    requires ClosedWellFormed(t, ledger) && e.turnoId != t.id
    ensures ClosedWellFormed(t, ledger + [e])
  {
    EntriesOfAppend(ledger, e, t.id);
    assert EntriesOf(ledger + [e], t.id) == EntriesOf(ledger, t.id);
  }

  /** Appending a well-posted entry of an open shift keeps the store consistent. */
  lemma AppendEntryKeepsValid(st: Store, e: Entry)
    requires Valid(st)
    requires e.turnoId < |st.shifts| && IsOpen(st.shifts[e.turnoId])
    requires e.id == |st.ledger| && Posted(e)
    ensures Valid(Store(st.shifts, st.ledger + [e]))
  {
    var st' := Store(st.shifts, st.ledger + [e]);
    forall i | 0 <= i < |st'.shifts| ensures OpenWellFormed(st'.shifts[i]) || ClosedWellFormed(st'.shifts[i], st'.ledger) {
      var t := st.shifts[i];
      if !OpenWellFormed(t) {
        assert i != e.turnoId;
        ClosedIgnoresOtherEntries(t, st.ledger, e);
      }
    }
    forall k | 0 <= k < |st'.ledger|
      ensures st'.ledger[k].id == k && Posted(st'.ledger[k]) && st'.ledger[k].turnoId < |st'.shifts|
    {
      if k < |st.ledger| {
        assert st'.ledger[k] == st.ledger[k];
      }
    }
  }

  /** Posting a transaction keeps the store consistent. */
  lemma ProcesarTransaccionPreservesValid(st: Store, turnoId: nat, tipo: string, monto: int,
                                          denominaciones: Option<CashCount>, clienteId: Option<string>,
                                          numeroCuenta: Option<string>, observaciones: Option<string>,
                                          now: Clock.DateTime)
    requires Clock.ValidDateTime(now)
    requires Valid(st)
    requires ProcesarTransaccion(st, turnoId, tipo, monto, denominaciones, clienteId, numeroCuenta, observaciones, now).Success?
    ensures Valid(ProcesarTransaccion(st, turnoId, tipo, monto, denominaciones, clienteId, numeroCuenta, observaciones, now).value.0)
  {
    var (st', e) := ProcesarTransaccion(st, turnoId, tipo, monto, denominaciones, clienteId, numeroCuenta, observaciones, now).value;
    AppendEntryKeepsValid(st, e);
  }

  /** Replacing an open shift by a consistent closed record of it keeps the store consistent. */
  lemma ReplaceWithClosedKeepsValid(st: Store, t': Shift)
    requires Valid(st)
    requires t'.id < |st.shifts| && IsOpen(st.shifts[t'.id])
    requires ClosedWellFormed(t', st.ledger)
    ensures Valid(Store(st.shifts[t'.id := t'], st.ledger))
  {
    var st' := Store(st.shifts[t'.id := t'], st.ledger);
    forall i | 0 <= i < |st'.shifts| ensures OpenWellFormed(st'.shifts[i]) || ClosedWellFormed(st'.shifts[i], st'.ledger) {
      if i != t'.id {
        assert st'.shifts[i] == st.shifts[i];
      }
    }
  }

  /** The record a successful closing produces is a consistent closed shift. */
  lemma ClosingIsWellFormed(st: Store, codigoTurno: string, dineroFinal: Option<CashCount>,
                            observaciones: Option<string>, now: Clock.DateTime)
    requires CerrarTurno(st, codigoTurno, dineroFinal, observaciones, now).Success?
    requires OpenWellFormed(FindByCodigoTurno(st.shifts, codigoTurno).value)
    ensures ClosedWellFormed(CerrarTurno(st, codigoTurno, dineroFinal, observaciones, now).value.1, st.ledger)
  {
    var t := FindByCodigoTurno(st.shifts, codigoTurno).value;
    var t' := CerrarTurno(st, codigoTurno, dineroFinal, observaciones, now).value.1;
    ExpectedDependsOnOpening(t, t', st.ledger);
  }

  /** Closing a shift keeps the store consistent. */
  lemma CerrarTurnoPreservesValid(st: Store, codigoTurno: string, dineroFinal: Option<CashCount>,
                                  observaciones: Option<string>, now: Clock.DateTime)
    requires Valid(st)
    requires CerrarTurno(st, codigoTurno, dineroFinal, observaciones, now).Success?
    ensures Valid(CerrarTurno(st, codigoTurno, dineroFinal, observaciones, now).value.0)
  {
    var t := FindByCodigoTurno(st.shifts, codigoTurno).value;
    var (st', t') := CerrarTurno(st, codigoTurno, dineroFinal, observaciones, now).value;
    ShiftAtItsId(st.shifts, t);
    assert OpenWellFormed(t);
    ClosingIsWellFormed(st, codigoTurno, dineroFinal, observaciones, now);
    assert st' == Store(st.shifts[t'.id := t'], st.ledger);
    ReplaceWithClosedKeepsValid(st, t');
  }
}
