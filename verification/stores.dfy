/**
 * The persistence collaborators, in memory: the teller directory, the shift collection and the
 * append-only ledger, with the derived queries the services issue against them.
 */
module Stores {
  import opened Results
  import opened Shifts
  import opened Entries

  /** A teller as the directory knows it. */
  datatype Teller = Teller(id: string, codigoCaja: string, agencia: string, activo: bool)

  /** The teller directory, keyed by teller code. */
  type Directory = map<string, Teller>

  predicate IsActiveTeller(dir: Directory, codigo: string) {
    codigo in dir && dir[codigo].activo
  }

  /** Resolves an active teller by code; an absent or inactive teller is not found. */
  function FindByCodigoActivo(dir: Directory, codigo: string): (r: Result<Teller>)
    ensures r.Success? <==> IsActiveTeller(dir, codigo)
    ensures r.Success? ==> r.value == dir[codigo] && r.value.activo
    ensures r.Failure? ==> r.error == NotFound(Code(codigo), ActiveTellerEntity)
  {
    if codigo in dir && dir[codigo].activo then Success(dir[codigo])
    else Failure(NotFound(Code(codigo), ActiveTellerEntity))
  }

  /**
   * The shift collection in insertion order and the ledger in posting order. A record's store id
   * is the position at which it was inserted.
   */
  datatype Store = Store(shifts: seq<Shift>, ledger: seq<Entry>)

  /** The derived queries issued against the shift collection. */
  datatype Query =
    | ByCode(code: string)          // by shift code
    | OpenOf(cajeroId: string)      // the open shift of a teller
    | OpenIn(agencia: string)       // the open shifts of a branch
    | Alerting                      // the shifts whose alert flag is true

  predicate Matches(q: Query, t: Shift) {
    match q
    case ByCode(c) => t.codigoTurno == c
    case OpenOf(c) => t.cajeroId == c && t.estado == ABIERTO
    case OpenIn(a) => t.agencia == a && t.estado == ABIERTO
    case Alerting => t.tieneAlerta == Some(true)
  }

  /** The shifts a query matches, in collection order. */
  function Select(shifts: seq<Shift>, q: Query): (r: seq<Shift>)
    ensures forall t :: t in r <==> t in shifts && Matches(q, t)
    ensures |r| <= |shifts|
  {
    if |shifts| == 0 then []
    else if Matches(q, shifts[0]) then [shifts[0]] + Select(shifts[1..], q)
    else Select(shifts[1..], q)
  }

  /** Two matching positions make at least two results. */
  lemma {:induction false} SelectBoth(shifts: seq<Shift>, q: Query, i: nat, j: nat)
    requires i < j < |shifts| && Matches(q, shifts[i]) && Matches(q, shifts[j])
    ensures |Select(shifts, q)| >= 2
  {
    if i == 0 {
      assert shifts[j] == shifts[1..][j - 1];
      assert shifts[j] in Select(shifts[1..], q);
    } else {
      SelectBoth(shifts[1..], q, i - 1, j - 1);
    }
  }

  /** Two or more results come from two distinct matching positions. */
  lemma {:induction false} SelectPair(shifts: seq<Shift>, q: Query) returns (i: nat, j: nat)
    requires |Select(shifts, q)| >= 2
    ensures i < j < |shifts| && Matches(q, shifts[i]) && Matches(q, shifts[j])
  {
    if Matches(q, shifts[0]) {
      var rest := Select(shifts[1..], q);
      assert rest[0] in shifts[1..];
      var k :| 0 <= k < |shifts[1..]| && shifts[1..][k] == rest[0];
      i, j := 0, k + 1;
    } else {
      var i', j' := SelectPair(shifts[1..], q);
      i, j := i' + 1, j' + 1;
    }
  }

  /** A query no shift matches returns nothing. */
  lemma SelectNone(shifts: seq<Shift>, q: Query)
    requires forall t :: t in shifts ==> !Matches(q, t)
    ensures Select(shifts, q) == []
  {
  }

  /** When exactly one position matches, the query returns exactly that shift. */
  lemma {:induction false} SelectOnly(shifts: seq<Shift>, q: Query, i: nat)
    requires i < |shifts| && Matches(q, shifts[i])
    requires forall j :: 0 <= j < |shifts| && j != i ==> !Matches(q, shifts[j])
    ensures Select(shifts, q) == [shifts[i]]
  {
    if i == 0 {
      assert Select(shifts[1..], q) == [] by {
        forall t | t in shifts[1..] ensures !Matches(q, t) {
          var k :| 0 <= k < |shifts[1..]| && shifts[1..][k] == t;
          assert shifts[k + 1] == t;
        }
        SelectNone(shifts[1..], q);
      }
    } else {
      SelectOnly(shifts[1..], q, i - 1);
    }
  }

  /** Two distinct positions both match the query. */
  predicate Ambiguous(shifts: seq<Shift>, q: Query) {
    exists i, j :: 0 <= i < j < |shifts| && Matches(q, shifts[i]) && Matches(q, shifts[j])
  }

  /** A query returns two or more shifts exactly when two positions match it. */
  lemma SelectAmbiguous(shifts: seq<Shift>, q: Query)
    ensures |Select(shifts, q)| >= 2 <==> Ambiguous(shifts, q)
  {
    if |Select(shifts, q)| >= 2 {
      var i, j := SelectPair(shifts, q);
    }
    if Ambiguous(shifts, q) {
      var i, j :| 0 <= i < j < |shifts| && Matches(q, shifts[i]) && Matches(q, shifts[j]);
      SelectBoth(shifts, q, i, j);
    }
  }

  /**
   * A query for at most one document: nothing when no shift matches, the match when exactly one
   * does, and a failure when several do.
   */
  function FindOne(shifts: seq<Shift>, q: Query): (r: Result<Option<Shift>>)
    ensures r.Failure? <==> Ambiguous(shifts, q)
    ensures r.Failure? ==> r.error == NonUniqueResult
    ensures r == Success(None) <==> forall t :: t in shifts ==> !Matches(q, t)
    ensures r.Success? && r.value.Some? ==> r.value.value in shifts && Matches(q, r.value.value)
  {
    var found := Select(shifts, q);
    SelectAmbiguous(shifts, q);
    if |found| >= 2 then Failure(NonUniqueResult)
    else if |found| == 0 then Success(None)
    else assert found[0] in found; Success(Some(found[0]))
  }

  /** Looks a shift up by store id. */
  function FindById(shifts: seq<Shift>, id: nat): (r: Result<Shift>)
    ensures r.Success? <==> id < |shifts|
    ensures r.Success? ==> r.value == shifts[id]
    ensures r.Failure? ==> r.error == NotFound(Id(id), ShiftEntity)
  {
    if id < |shifts| then Success(shifts[id]) else Failure(NotFound(Id(id), ShiftEntity))
  }

  /** Saves a shift: replaces the record with its id, or adds it when the id is new. */
  function Save(shifts: seq<Shift>, t: Shift): (r: seq<Shift>)
    ensures t.id < |shifts| ==> |r| == |shifts| && r[t.id] == t
    ensures t.id >= |shifts| ==> |r| == |shifts| + 1 && r[|shifts|] == t
    ensures forall i :: 0 <= i < |shifts| && i != t.id ==> r[i] == shifts[i]
  {
    if t.id < |shifts| then shifts[t.id := t] else shifts + [t]
  }

  /** The ledger entries of one shift, in posting order. */
  function EntriesOf(ledger: seq<Entry>, turnoId: nat): (r: seq<Entry>)
    ensures forall e :: e in r <==> e in ledger && e.turnoId == turnoId
    ensures |r| <= |ledger|
  {
    if |ledger| == 0 then []
    else if ledger[0].turnoId == turnoId then [ledger[0]] + EntriesOf(ledger[1..], turnoId)
    else EntriesOf(ledger[1..], turnoId)
  }

  /** Appending an entry to the ledger extends exactly its own shift's entries. */
  lemma {:induction false} EntriesOfAppend(ledger: seq<Entry>, e: Entry, turnoId: nat)
    ensures EntriesOf(ledger + [e], turnoId) == EntriesOf(ledger, turnoId) + (if e.turnoId == turnoId then [e] else [])
  {
    if |ledger| == 0 {
      assert ledger + [e] == [e];
      assert [e][1..] == [];
    } else {
      assert (ledger + [e])[0] == ledger[0];
      assert (ledger + [e])[1..] == ledger[1..] + [e];
      EntriesOfAppend(ledger[1..], e, turnoId);
    }
  }
}
