/**
 * The effect of a shift's transactions on its cash drawer: deposits add their recounted total,
 * withdrawals take it away, and entries of any other type add nothing.
 */
module Flows {
  import opened Results
  import opened Sums
  import opened Entries

  /** The signed contribution of a recounted amount, by the entry's type. */
  function SignedAmount(tipo: string, monto: int): int {
    match KindOf(tipo)
    case Some(Deposit) => monto
    case Some(Withdrawal) => -monto
    case None => 0
  }

  /** An entry's effect on the drawer: its cash count recounted, then signed by its type. */
  function Flow(e: Entry): Result<int> {
    var m := CalcularMontoTotal(e);
    if m.Failure? then Failure(m.error) else Success(SignedAmount(e.tipo, m.value))
  }

  /** Every entry's cash count can be totalled. */
  predicate AllCount(es: seq<Entry>) {
    forall i :: 0 <= i < |es| ==> CalcularMontoTotal(es[i]).Success?
  }

  /**
   * The net impact of a list of entries, evaluated in list order: each entry's cash count is
   * recounted and signed by its type; the first entry whose count fails decides the failure.
   */
  function Impact(es: seq<Entry>): (r: Result<int>)
    ensures r.Success? <==> AllCount(es)
  {
    assert AllCount(es) <==> AllSucceed(es, Flow);
    Sum(es, Flow)
  }

  /** The declared amounts of the entries of one kind, added up. */
  function KindSum(es: seq<Entry>, k: Kind): int {
    if |es| == 0 then 0
    else (if KindOf(es[0].tipo) == Some(k) then es[0].monto else 0) + KindSum(es[1..], k)
  }

  /** When every entry recounts to its declared amount, the impact is deposits minus withdrawals. */
  lemma {:induction false} ImpactIsNetFlow(es: seq<Entry>)
    requires forall i :: 0 <= i < |es| ==> Recounts(es[i])
    ensures Impact(es) == Success(KindSum(es, Deposit) - KindSum(es, Withdrawal))
  {
    if |es| > 0 {
      ImpactIsNetFlow(es[1..]);
      assert Recounts(es[0]);
    }
  }

  /** A single entry that recounts to its amount moves the drawer by that amount, signed by its type. */
  lemma ImpactSingle(e: Entry)
    requires Recounts(e)
    ensures Impact([e]) == Success(SignedAmount(e.tipo, e.monto))
  {
    assert Flow(e) == Success(SignedAmount(e.tipo, e.monto));
    assert Sum([e][1..], Flow) == Success(0) by { assert [e][1..] == []; }
  }

  /** Concatenating two lists of countable entries adds their impacts. */
  lemma ImpactAppend(a: seq<Entry>, b: seq<Entry>)
    requires AllCount(a) && AllCount(b)
    ensures Impact(a + b) == Success(Impact(a).value + Impact(b).value)
  {
    SumAppendAll(a, b, Flow);
  }

  /** Appending one entry that recounts to its amount moves the impact by that amount, signed by its type. */
  lemma ImpactAppendOne(es: seq<Entry>, e: Entry)
    requires AllCount(es) && Recounts(e)
    ensures Impact(es + [e]) == Success(Impact(es).value + SignedAmount(e.tipo, e.monto))
  {
    ImpactSingle(e);
    ImpactAppend(es, [e]);
  }

  /**
   * The order in which the entries are read changes neither whether the impact can be computed
   * nor its value.
   */
  lemma ImpactPermutation(a: seq<Entry>, b: seq<Entry>)
    requires multiset(a) == multiset(b)
    ensures Impact(a).Success? <==> Impact(b).Success?
    ensures Impact(a).Success? ==> Impact(a).value == Impact(b).value
  {
    SumPermutation(a, b, Flow);
  }
}
