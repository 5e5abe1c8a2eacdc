/**
 * The forecast-shaping step of `onRequestUpdatedData`: the provider's daily
 * entries are sorted in place by `time`, the first four are kept and each is
 * mapped to an `UpcomingWeatherItem`.
 */
module Forecast {

  /** One element of the provider's `daily.data` list, as decoded from JSON. */
  datatype DailyEntry = DailyEntry(time: int, temperatureLow: real, temperatureHigh: real, icon: string)

  /** What the screen shows for one upcoming day. */
  datatype UpcomingWeatherItem = UpcomingWeatherItem(highTemperature: real, lowTemperature: real, date: int, icon: string)

  /** The `slice(0, 4)` bound. */
  const MaxUpcomingDays: nat := 4

  function Min(a: int, b: int): int
  {
    if a <= b then a else b
  }

  predicate SortedByTime(s: seq<DailyEntry>)
  {
    forall i, j :: 0 <= i < j < |s| ==> s[i].time <= s[j].time
  }

  /**
   * `s` is `original` rearranged by a stable sort: `origin[k]` is the index in
   * `original` of the entry now at `k`, no index is used twice, and entries with
   * equal `time` keep their original relative order.
   */
  ghost predicate IsStableArrangement(s: seq<DailyEntry>, original: seq<DailyEntry>, origin: seq<nat>)
  {
    |origin| == |s| == |original| &&
    (forall k :: 0 <= k < |s| ==> origin[k] < |original| && s[k] == original[origin[k]]) &&
    (forall p, q :: 0 <= p < q < |s| ==> origin[p] != origin[q]) &&
    (forall p, q :: 0 <= p < q < |s| && s[p].time == s[q].time ==> origin[p] < origin[q])
  }

  /** The `map` callback, kept exactly as written: the low temperature becomes `highTemperature` and vice versa. */
  function ToUpcomingItem(day: DailyEntry): UpcomingWeatherItem
  {
    UpcomingWeatherItem(day.temperatureLow, day.temperatureHigh, day.time, day.icon)
  }

  /** The entries that survive `slice(0, 4)`. */
  function Kept(sorted: seq<DailyEntry>): seq<DailyEntry>
  {
    sorted[..Min(MaxUpcomingDays, |sorted|)]
  }

  /** `slice(0, 4).map(...)` applied to the already sorted list. */
  function Shape(sorted: seq<DailyEntry>): seq<UpcomingWeatherItem>
  {
    var kept := Kept(sorted);
    seq(|kept|, i requires 0 <= i < |kept| => ToUpcomingItem(kept[i]))
  }

  /** Exchanging two neighbours that are out of `time` order keeps a stable arrangement. */
  lemma SwapKeepsArrangement(s: seq<DailyEntry>, original: seq<DailyEntry>, origin: seq<nat>, j: nat)
    requires IsStableArrangement(s, original, origin)
    requires 0 < j < |s| && s[j - 1].time > s[j].time
    ensures IsStableArrangement(s[j - 1 := s[j]][j := s[j - 1]], original, origin[j - 1 := origin[j]][j := origin[j - 1]])
    ensures multiset(s[j - 1 := s[j]][j := s[j - 1]]) == multiset(s)
  {
    var t := s[j - 1 := s[j]][j := s[j - 1]];
    var o := origin[j - 1 := origin[j]][j := origin[j - 1]];
    // position p of t holds what position Moved(p) of s held
    forall p, q | 0 <= p < q < |t|
      ensures o[p] != o[q]
      ensures t[p].time == t[q].time ==> o[p] < o[q]
    {
      var p' := if p == j - 1 then j else if p == j then j - 1 else p;
      var q' := if q == j - 1 then j else if q == j then j - 1 else q;
      assert t[p] == s[p'] && o[p] == origin[p'];
      assert t[q] == s[q'] && o[q] == origin[q'];
      assert p' != q';
      if p' > q' {
        assert p == j - 1 && q == j;
      }
    }
  }

  /** Before sorting, every entry is where it started. */
  lemma IdentityArrangement(s: seq<DailyEntry>, origin: seq<nat>)
    requires origin == seq(|s|, k => k)
    ensures IsStableArrangement(s, s, origin)
  {
  }

  /**
   * `daily.sort((a, b) => a.time - b.time)`, which reorders the array in place.
   * Modelled as a stable insertion sort (ECMAScript requires `sort` to be stable).
   */
  method SortByTime(daily: array<DailyEntry>) returns (ghost origin: seq<nat>)
    modifies daily
    ensures SortedByTime(daily[..])
    ensures multiset(daily[..]) == multiset(old(daily[..]))
    ensures IsStableArrangement(daily[..], old(daily[..]), origin)
  {
    ghost var original := daily[..];
    origin := seq(daily.Length, k => k);
    IdentityArrangement(original, origin);
    var i := 0;
    while i < daily.Length
      invariant 0 <= i <= daily.Length
      invariant SortedByTime(daily[..i])
      invariant multiset(daily[..]) == multiset(original)
      invariant IsStableArrangement(daily[..], original, origin)
    {
      origin := InsertAt(daily, i, original, origin);
      i := i + 1;
    }
    assert daily[..] == daily[..daily.Length];
  }

  /** True when `s[..hi + 1]` is in `time` order once position `j` is ignored. */
  predicate SortedExcept(s: seq<DailyEntry>, hi: nat, j: nat)
    requires hi < |s|
  {
    forall p, q :: 0 <= p < q <= hi && p != j && q != j ==> s[p].time <= s[q].time
  }

  /** True when the entry at `j` is earlier than every entry after it up to `hi`. */
  predicate EarlierThanRest(s: seq<DailyEntry>, hi: nat, j: nat)
    requires j <= hi < |s|
  {
    forall q :: j < q <= hi ==> s[j].time < s[q].time
  }

  /** Moving the inserted entry one place left keeps the insertion invariant. */
  lemma InsertStep(s: seq<DailyEntry>, hi: nat, j: nat)
    requires 0 < j <= hi < |s|
    requires SortedExcept(s, hi, j) && EarlierThanRest(s, hi, j)
    requires s[j - 1].time > s[j].time
    ensures SortedExcept(s[j - 1 := s[j]][j := s[j - 1]], hi, j - 1)
    ensures EarlierThanRest(s[j - 1 := s[j]][j := s[j - 1]], hi, j - 1)
  {
  }

  /** Once the inserted entry meets an earlier-or-equal neighbour, the prefix is sorted. */
  lemma InsertDone(s: seq<DailyEntry>, hi: nat, j: nat)
    requires j <= hi < |s|
    requires SortedExcept(s, hi, j) && EarlierThanRest(s, hi, j)
    requires j == 0 || s[j - 1].time <= s[j].time
    ensures SortedByTime(s[..hi + 1])
  {
    forall p, q | 0 <= p < q <= hi
      ensures s[p].time <= s[q].time
    {
      if q == j && p < j - 1 {
        assert s[p].time <= s[j - 1].time;
      }
    }
  }

  /** Exchanges the entries at `j - 1` and `j`. */
  method SwapNeighbours(daily: array<DailyEntry>, j: nat)
    requires 0 < j < daily.Length
    modifies daily
    ensures daily[..] == old(daily[..])[j - 1 := old(daily[j])][j := old(daily[j - 1])]
  {
    daily[j - 1], daily[j] := daily[j], daily[j - 1];
  }

  /** One pass of insertion: moves `daily[i]` left past every later entry. */
  method InsertAt(daily: array<DailyEntry>, i: nat, ghost original: seq<DailyEntry>, ghost origin0: seq<nat>) returns (ghost origin: seq<nat>)
    requires i < daily.Length
    requires SortedByTime(daily[..i])
    requires IsStableArrangement(daily[..], original, origin0)
    modifies daily
    ensures SortedByTime(daily[..i + 1])
    ensures multiset(daily[..]) == multiset(old(daily[..]))
    ensures IsStableArrangement(daily[..], original, origin)
  {
    origin := origin0;
    ghost var cur := daily[..];
    var j := i;
    while j > 0 && daily[j - 1].time > daily[j].time
      invariant 0 <= j <= i
      invariant cur == daily[..]
      invariant SortedExcept(cur, i, j) && EarlierThanRest(cur, i, j)
      invariant multiset(cur) == multiset(old(daily[..]))
      invariant IsStableArrangement(cur, original, origin)
    {
      SwapKeepsArrangement(cur, original, origin, j);
      InsertStep(cur, i, j);
      SwapNeighbours(daily, j);
      cur := cur[j - 1 := cur[j]][j := cur[j - 1]];
      origin := origin[j - 1 := origin[j]][j := origin[j - 1]];
      j := j - 1;
    }
    InsertDone(cur, i, j);
    assert cur[..i + 1] == daily[..i + 1];
  }

  /** The sort, slice and map of `onRequestUpdatedData`. */
  method ShapeForecast(daily: array<DailyEntry>) returns (upcoming: seq<UpcomingWeatherItem>, ghost origin: seq<nat>)
    modifies daily
    ensures SortedByTime(daily[..])
    ensures multiset(daily[..]) == multiset(old(daily[..]))
    ensures IsStableArrangement(daily[..], old(daily[..]), origin)
    ensures upcoming == Shape(daily[..])
  {
    origin := SortByTime(daily);
    var kept := daily[..Min(MaxUpcomingDays, daily.Length)];
    upcoming := seq(|kept|, i requires 0 <= i < |kept| => ToUpcomingItem(kept[i]));
  }

  /** Every entry of `rest` is at least as late as every entry of a sorted prefix before it. */
  lemma {:induction false} LeftOutAreLater(sorted: seq<DailyEntry>, k: nat, e: DailyEntry)
    requires SortedByTime(sorted) && k <= |sorted|
    requires e in multiset(sorted[k..])
    ensures forall i :: 0 <= i < k ==> sorted[i].time <= e.time
  {
    assert e in sorted[k..];
    var j :| k <= j < |sorted| && sorted[j] == e;
  }

  /**
   * Slicing a sorted permutation of the provider's list keeps a sub-multiset of
   * it, and every entry left out is at least as late as every entry kept.
   */
  lemma {:induction false} KeptAreEarliest(input: seq<DailyEntry>, sorted: seq<DailyEntry>)
    requires SortedByTime(sorted) && multiset(sorted) == multiset(input)
    ensures |Kept(sorted)| == Min(MaxUpcomingDays, |input|)
    ensures multiset(Kept(sorted)) <= multiset(input)
    ensures forall i, e :: 0 <= i < |Kept(sorted)| && e in multiset(input) - multiset(Kept(sorted)) ==> Kept(sorted)[i].time <= e.time
  {
    assert |sorted| == |multiset(sorted)| == |multiset(input)| == |input|;
    var k := Min(MaxUpcomingDays, |sorted|);
    assert sorted == sorted[..k] + sorted[k..];
    assert multiset(sorted) == multiset(sorted[..k]) + multiset(sorted[k..]);
    assert multiset(input) - multiset(Kept(sorted)) == multiset(sorted[k..]);
    forall i, e | 0 <= i < k && e in multiset(input) - multiset(Kept(sorted))
      ensures Kept(sorted)[i].time <= e.time
    {
      LeftOutAreLater(sorted, k, e);
    }
  }

  /**
   * The shaped list of a sorted permutation has `min(4, n)` items in date order,
   * and item `i` is entry `i` of the kept prefix with its temperatures swapped.
   */
  lemma ShapeOfSorted(input: seq<DailyEntry>, sorted: seq<DailyEntry>)
    requires SortedByTime(sorted) && multiset(sorted) == multiset(input)
    ensures |Shape(sorted)| == Min(MaxUpcomingDays, |input|)
    ensures forall i, j :: 0 <= i < j < |Shape(sorted)| ==> Shape(sorted)[i].date <= Shape(sorted)[j].date
    ensures forall i :: 0 <= i < |Shape(sorted)| ==>
              Shape(sorted)[i].highTemperature == Kept(sorted)[i].temperatureLow &&
              Shape(sorted)[i].lowTemperature == Kept(sorted)[i].temperatureHigh &&
              Shape(sorted)[i].date == Kept(sorted)[i].time &&
              Shape(sorted)[i].icon == Kept(sorted)[i].icon
  {
    assert |sorted| == |multiset(sorted)| == |multiset(input)| == |input|;
  }
}
