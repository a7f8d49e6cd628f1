/** Cash counts: lists of denomination lines and the total they are worth. */
module CashCounts {
  import opened Results
  import opened Denominations
  import opened Sums

  type CashCount = seq<Line>

  /** Every line names a known denomination. */
  predicate AllValid(lines: CashCount) {
    forall i :: 0 <= i < |lines| ==> lines[i].denominacion in Ids
  }

  /** No line has a negative count (what the request layer guarantees). */
  predicate NonNegative(lines: CashCount) {
    forall i :: 0 <= i < |lines| ==> lines[i].cantidad >= 0
  }

  /** A count given (not null) and holding at least one line. */
  predicate HasLines(c: Option<CashCount>) {
    c.Some? && |c.value| > 0
  }

  /** Pieces of denomination `d` over all lines (a denomination may appear on several lines). */
  function CountOf(lines: CashCount, d: string): int {
    if |lines| == 0 then 0
    else (if lines[0].denominacion == d then lines[0].cantidad else 0) + CountOf(lines[1..], d)
  }

  function WorthOver(ids: seq<string>, lines: CashCount): int
    requires forall i :: 0 <= i < |ids| ==> ids[i] in Values
  {
    if |ids| == 0 then 0 else Values[ids[0]] * CountOf(lines, ids[0]) + WorthOver(ids[1..], lines)
  }

  /** What a count is worth, grouped per denomination: the sum over the table of unit value times pieces. */
  function Worth(lines: CashCount): int {
    WorthOver(Ids, lines)
  }

  lemma {:induction false} WorthOverCons(ids: seq<string>, lines: CashCount)
    requires |lines| > 0
    requires forall i :: 0 <= i < |ids| ==> ids[i] in Values
    requires forall i, j :: 0 <= i < j < |ids| ==> ids[i] != ids[j]
    ensures WorthOver(ids, lines) == WorthOver(ids, lines[1..])
      + (if lines[0].denominacion in ids then Values[lines[0].denominacion] * lines[0].cantidad else 0)
  {
    if |ids| > 0 {
      var d := ids[0];
      WorthOverCons(ids[1..], lines);
      var here := if lines[0].denominacion == d then lines[0].cantidad else 0;
      assert CountOf(lines, d) == here + CountOf(lines[1..], d);
      assert Values[d] * CountOf(lines, d) == Values[d] * here + Values[d] * CountOf(lines[1..], d);
      if lines[0].denominacion == d {
        assert lines[0].denominacion !in ids[1..] by {
          forall k | 0 <= k < |ids[1..]| ensures ids[1..][k] != d {
            assert ids[1..][k] == ids[k + 1];
          }
        }
      } else {
        assert lines[0].denominacion in ids <==> lines[0].denominacion in ids[1..];
      }
    }
  }

  lemma {:induction false} WorthOverEmpty(ids: seq<string>)
    requires forall i :: 0 <= i < |ids| ==> ids[i] in Values
    ensures WorthOver(ids, []) == 0
  {
    if |ids| > 0 {
      WorthOverEmpty(ids[1..]);
    }
  }

  /** Splitting off the first (known) line splits off its value from the worth. */
  lemma WorthCons(lines: CashCount)
    requires |lines| > 0 && lines[0].denominacion in Ids
    ensures Worth(lines) == Worth(lines[1..]) + Values[lines[0].denominacion] * lines[0].cantidad
  {
    IdsDistinct();
    WorthOverCons(Ids, lines);
  }

  /** A line can be valued exactly when its denomination is known. */
  lemma ValidIsAllSucceed(lines: CashCount)
    ensures AllValid(lines) <==> AllSucceed(lines, GetValorTotal)
  {
    assert forall i :: 0 <= i < |lines| ==> (GetValorTotal(lines[i]).Success? <==> lines[i].denominacion in Ids);
  }

  /** Position of the first line with an unknown denomination. */
  function FirstInvalid(lines: CashCount): (i: nat)
    requires !AllValid(lines)
    ensures i < |lines| && lines[i].denominacion !in Ids && AllValid(lines[..i])
  {
    ValidIsAllSucceed(lines);
    var i := FirstFailure(lines, GetValorTotal);
    ValidIsAllSucceed(lines[..i]);
    i
  }

  /**
   * The total of a count: the line values added up in list order, failing at the first line
   * whose denomination is unknown.
   */
  function Total(lines: CashCount): (r: Result<int>)
    ensures r.Success? <==> AllValid(lines)
  {
    ValidIsAllSucceed(lines);
    Sum(lines, GetValorTotal)
  }

  /** A valid count totals what its pieces are worth, denomination by denomination. */
  lemma {:induction false} TotalIsWorth(lines: CashCount)
    requires AllValid(lines)
    ensures Total(lines) == Success(Worth(lines))
  {
    if |lines| == 0 {
      WorthOverEmpty(Ids);
    } else {
      TotalIsWorth(lines[1..]);
      LineValue(lines[0]);
      WorthCons(lines);
    }
  }

  /** A valid count with no negative line totals at least zero. */
  lemma {:induction false} TotalNonNegative(lines: CashCount)
    requires AllValid(lines) && NonNegative(lines)
    ensures Total(lines).Success? && Total(lines).value >= 0
  {
    if |lines| > 0 {
      TotalNonNegative(lines[1..]);
      assert GetValorTotal(lines[0]).value >= 0;
    }
  }

  /** An invalid count fails with the id of its first unknown denomination. */
  lemma TotalFailsAtFirstInvalid(lines: CashCount)
    requires !AllValid(lines)
    ensures Total(lines) == Failure(IllegalArgument(lines[FirstInvalid(lines)].denominacion))
  {
    ValidIsAllSucceed(lines);
    SumFailsAtFirstFailure(lines, GetValorTotal);
  }

  /** The total of a possibly-null count: null counts as zero. */
  function OptionalTotal(c: Option<CashCount>): (r: Result<int>)
    ensures c.None? || c == Some([]) ==> r == Success(0)
    ensures c.Some? ==> (r.Success? <==> AllValid(c.value))
    ensures c.Some? && r.Success? ==> r.value == Worth(c.value)
    ensures c.Some? && r.Failure? ==> r.error == IllegalArgument(c.value[FirstInvalid(c.value)].denominacion)
  {
    if c.None? then Success(0)
    else
      if AllValid(c.value) then TotalIsWorth(c.value); Total(c.value)
      else TotalFailsAtFirstInvalid(c.value); Total(c.value)
  }

  /** Concatenating two valid counts adds their totals. */
  lemma TotalAppendValid(a: CashCount, b: CashCount)
    requires AllValid(a) && AllValid(b)
    ensures Total(a + b) == Success(Total(a).value + Total(b).value)
  {
    ValidIsAllSucceed(a);
    ValidIsAllSucceed(b);
    SumAppendAll(a, b, GetValorTotal);
  }

  /** Reordering the lines changes neither whether the total succeeds nor its value. */
  lemma TotalPermutation(a: CashCount, b: CashCount)
    requires multiset(a) == multiset(b)
    ensures Total(a).Success? <==> Total(b).Success?
    ensures Total(a).Success? ==> Total(a).value == Total(b).value
  {
    SumPermutation(a, b, GetValorTotal);
  }
}
