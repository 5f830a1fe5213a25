/** Merging of half-open intervals, and the contiguous-coverage check of an archive index. */
module Intervals {
  import opened Sorting

  /** The milliseconds first <= t < last. */
  type Interval = (int, int)

  predicate Le(a: Interval, b: Interval) {
    a.0 < b.0 || (a.0 == b.0 && a.1 <= b.1)
  }

  predicate Inside(iv: Interval, t: int) {
    iv.0 <= t < iv.1
  }

  ghost predicate Covers(ivs: seq<Interval>, t: int) {
    exists k :: 0 <= k < |ivs| && Inside(ivs[k], t)
  }

  /** Sorted, none empty, and a gap of at least one point between neighbours. */
  ghost predicate Canonical(ivs: seq<Interval>) {
    && (forall k :: 0 <= k < |ivs| ==> ivs[k].0 < ivs[k].1)
    && (forall j, k :: 0 <= j < k < |ivs| ==> ivs[j].1 < ivs[k].0)
  }

  lemma LeIsTotal()
    ensures TotalPreorder(Le)
  {
  }

  ghost predicate SamePoints(a: seq<Interval>, b: seq<Interval>) {
    forall t :: Covers(a, t) <==> Covers(b, t)
  }

  /** The merged list is canonical and covers exactly the points of the input. */
  method MergeIntervals(intervals: seq<Interval>) returns (merged: seq<Interval>)
    ensures Canonical(merged)
    ensures SamePoints(merged, intervals)
  {
    hide Canonical, SamePoints;
    var sorted := Sort(intervals, Le);
    LeIsTotal();
    SortOk(intervals, Le);
    merged := [];
    NothingMerged();
    for i := 0 to |sorted|
      invariant Canonical(merged)
      invariant SamePoints(merged, sorted[..i])
      invariant merged != [] && i < |sorted| ==> merged[|merged| - 1].0 <= sorted[i].0
    {
      var (start, end) := sorted[i];
      ghost var before := merged;
      assert sorted[..i + 1] == sorted[..i] + [sorted[i]];
      if start >= end {
        SkipEmpty(before, sorted[..i], sorted[i]);
      } else if merged != [] && start <= merged[|merged| - 1].1 {
        var last := merged[|merged| - 1];
        merged := merged[|merged| - 1 := (last.0, if last.1 >= end then last.1 else end)];
        ExtendLast(before, sorted[..i], sorted[i], merged);
      } else {
        merged := merged + [(start, end)];
        PushNew(before, sorted[..i], sorted[i]);
      }
      if i + 1 < |sorted| {
        assert Le(sorted[i], sorted[i + 1]);
      }
    }
    assert sorted[..|sorted|] == sorted;
    SortedSamePoints(intervals, sorted);
    SamePointsTransitive(merged, sorted, intervals);
  }

  lemma NothingMerged()
    ensures Canonical([]) && SamePoints([], [])
  {
  }

  lemma SamePointsTransitive(a: seq<Interval>, b: seq<Interval>, c: seq<Interval>)
    requires SamePoints(a, b) && SamePoints(b, c)
    ensures SamePoints(a, c)
  {
  }

  lemma SkipEmpty(merged: seq<Interval>, seen: seq<Interval>, iv: Interval)
    requires SamePoints(merged, seen) && iv.0 >= iv.1
    ensures SamePoints(merged, seen + [iv])
  {
    CoversAppend(seen, iv);
  }

  lemma PushNew(merged: seq<Interval>, seen: seq<Interval>, iv: Interval)
    requires Canonical(merged) && SamePoints(merged, seen) && iv.0 < iv.1
    requires merged != [] ==> merged[|merged| - 1].1 < iv.0
    ensures Canonical(merged + [iv]) && SamePoints(merged + [iv], seen + [iv])
  {
    CoversAppend(merged, iv);
    CoversAppend(seen, iv);
    if merged != [] {
      var n := |merged| - 1;
      assert forall j :: 0 <= j < n ==> merged[j].1 < merged[n].0 && merged[n].0 < merged[n].1;
    }
  }

  lemma CoversAppend(ivs: seq<Interval>, iv: Interval)
    ensures forall t :: Covers(ivs + [iv], t) <==> Covers(ivs, t) || Inside(iv, t)
  {
    forall t
      ensures Covers(ivs + [iv], t) <==> Covers(ivs, t) || Inside(iv, t)
    {
      if Covers(ivs, t) {
        var k :| 0 <= k < |ivs| && Inside(ivs[k], t);
        assert Inside((ivs + [iv])[k], t);
      }
      if Inside(iv, t) {
        assert Inside((ivs + [iv])[|ivs|], t);
      }
    }
  }

  /** Growing the last interval to the end of an overlapping or touching one adds exactly its points. */
  lemma ExtendLast(merged: seq<Interval>, seen: seq<Interval>, iv: Interval, merged': seq<Interval>)
    requires Canonical(merged) && SamePoints(merged, seen) && merged != []
    requires var last := merged[|merged| - 1];
             && last.0 <= iv.0 <= last.1 && iv.0 < iv.1
             && merged' == merged[|merged| - 1 := (last.0, if last.1 >= iv.1 then last.1 else iv.1)]
    ensures Canonical(merged') && SamePoints(merged', seen + [iv])
  {
    CoversAppend(seen, iv);
    var n := |merged| - 1;
    forall t
      ensures Covers(merged', t) <==> Covers(merged, t) || Inside(iv, t)
    {
      if Covers(merged, t) {
        var k :| 0 <= k < |merged| && Inside(merged[k], t);
        assert Inside(merged'[k], t);
      }
      if Inside(iv, t) {
        assert Inside(merged'[n], t);
      }
      if Covers(merged', t) {
        var k :| 0 <= k < |merged'| && Inside(merged'[k], t);
        assert k != n ==> Inside(merged[k], t);
        assert k == n ==> Inside(merged[n], t) || Inside(iv, t);
      }
    }
  }

  lemma SortedSamePoints(ivs: seq<Interval>, sorted: seq<Interval>)
    requires multiset(sorted) == multiset(ivs)
    ensures SamePoints(sorted, ivs)
  {
    forall t
      ensures Covers(sorted, t) <==> Covers(ivs, t)
    {
      if Covers(sorted, t) {
        var k :| 0 <= k < |sorted| && Inside(sorted[k], t);
        SameElements(sorted, ivs, sorted[k]);
        var j :| 0 <= j < |ivs| && ivs[j] == sorted[k];
      }
      if Covers(ivs, t) {
        var k :| 0 <= k < |ivs| && Inside(ivs[k], t);
        SameElements(sorted, ivs, ivs[k]);
        var j :| 0 <= j < |sorted| && sorted[j] == ivs[k];
      }
    }
  }

  // ---------------------------------------------------------------------------
  // The canonical form is unique
  // ---------------------------------------------------------------------------

  lemma FirstPoint(a: seq<Interval>, t: int)
    requires Canonical(a) && a != []
    ensures Covers(a, a[0].0) && !Covers(a, a[0].1)
    ensures Covers(a, t) ==> a[0].0 <= t
    ensures a[0].0 <= t < a[0].1 ==> Covers(a, t)
  {
    assert Inside(a[0], a[0].0);
    if Inside(a[0], t) {
      assert Covers(a, t);
    }
  }

  lemma TailPoints(a: seq<Interval>)
    requires Canonical(a) && a != []
    ensures Canonical(a[1..])
    ensures forall t :: Covers(a[1..], t) <==> Covers(a, t) && t >= a[0].1
  {
    forall t
      ensures Covers(a[1..], t) <==> Covers(a, t) && t >= a[0].1
    {
      if Covers(a[1..], t) {
        var k :| 0 <= k < |a[1..]| && Inside(a[1..][k], t);
        assert Inside(a[k + 1], t);
      }
      if Covers(a, t) && t >= a[0].1 {
        var k :| 0 <= k < |a| && Inside(a[k], t);
        assert Inside(a[1..][k - 1], t);
      }
    }
  }

  /** Two canonical lists that cover the same points are the same list. */
  lemma {:induction false} CanonicalUnique(a: seq<Interval>, b: seq<Interval>)
    requires Canonical(a) && Canonical(b) && SamePoints(a, b)
    ensures a == b
    decreases |a|
  {
    if a == [] {
      if b != [] {
        FirstPoint(b, b[0].0);
        assert false;
      }
    } else {
      FirstPoint(a, a[0].0);
      assert Covers(b, a[0].0);
      FirstPoint(b, a[0].0);
      FirstPoint(a, b[0].0);
      FirstPoint(a, b[0].1);
      FirstPoint(b, a[0].1);
      assert a[0] == b[0];
      TailPoints(a);
      TailPoints(b);
      CanonicalUnique(a[1..], b[1..]);
      assert a == [a[0]] + a[1..] && b == [b[0]] + b[1..];
    }
  }

  /**
   Any list that is canonical and covers the points of `intervals` is what merging returns: so
   merging is idempotent and does not depend on the order or the grouping of its input.
   */
  method MergeIsCanonicalForm(
    intervals: seq<Interval>, other: seq<Interval>)
    returns (a: seq<Interval>, b: seq<Interval>)
    requires SamePoints(intervals, other)
    ensures a == b
    ensures Canonical(other) ==> a == other
  {
    a := MergeIntervals(intervals);
    b := MergeIntervals(other);
    CanonicalUnique(a, b);
    if Canonical(other) {
      CanonicalUnique(a, other);
    }
  }
}

module Coverage {
  import opened Sorting

  /** One row of the archive index: a closed interval of milliseconds. */
  datatype Partition = Partition(symbol: string, timeframe: string, firstOpen: int, lastClose: int)

  predicate Holds(p: Partition, t: int) {
    p.firstOpen <= t <= p.lastClose
  }

  predicate ByFirstOpen(a: Partition, b: Partition) {
    a.firstOpen <= b.firstOpen
  }

  ghost predicate CoveredAt(parts: seq<Partition>, t: int) {
    exists k :: 0 <= k < |parts| && Holds(parts[k], t)
  }

  /** Every millisecond of [start, end) lies in some partition. */
  ghost predicate Covered(parts: seq<Partition>, start: int, end: int) {
    forall t :: start <= t < end ==> CoveredAt(parts, t)
  }

  lemma ByFirstOpenIsTotal()
    ensures TotalPreorder(ByFirstOpen)
  {
  }

  lemma SortedCoveredAt(parts: seq<Partition>, sorted: seq<Partition>, t: int)
    requires multiset(sorted) == multiset(parts)
    ensures CoveredAt(sorted, t) <==> CoveredAt(parts, t)
  {
    if CoveredAt(sorted, t) {
      var k :| 0 <= k < |sorted| && Holds(sorted[k], t);
      SameElements(sorted, parts, sorted[k]);
      var j :| 0 <= j < |parts| && parts[j] == sorted[k];
    }
    if CoveredAt(parts, t) {
      var k :| 0 <= k < |parts| && Holds(parts[k], t);
      SameElements(sorted, parts, parts[k]);
      var j :| 0 <= j < |sorted| && sorted[j] == parts[k];
    }
  }

  /** The greedy scan answers exactly whether the union of the partitions covers the window. */
  method HasContiguousCoverage(parts: seq<Partition>, start: int, end: int) returns (complete: bool)
    requires start < end
    ensures complete <==> Covered(parts, start, end)
  {
    if parts == [] {
      assert !CoveredAt(parts, start);
      return false;
    }
    var sorted := Sort(parts, ByFirstOpen);
    ByFirstOpenIsTotal();
    SortOk(parts, ByFirstOpen);
    forall t
      ensures CoveredAt(sorted, t) <==> CoveredAt(parts, t)
    {
      SortedCoveredAt(parts, sorted, t);
    }
    var cursor := start;
    var started := false;
    for i := 0 to |sorted|
      invariant start <= cursor < end
      invariant forall t :: start <= t < cursor ==> CoveredAt(sorted, t)
      invariant forall j :: 0 <= j < i ==> sorted[j].lastClose < cursor
    {
      var row := sorted[i];
      if row.lastClose < cursor {
        continue;
      }
      if row.firstOpen > cursor {
        Uncovered(sorted, i, cursor);
        return false;
      }
      started := true;
      assert forall t :: cursor <= t <= row.lastClose ==> Holds(sorted[i], t);
      cursor := if cursor >= row.lastClose + 1 then cursor else row.lastClose + 1;
      if cursor >= end {
        return true;
      }
    }
    Uncovered(sorted, |sorted|, cursor);
    return started && cursor >= end;
  }

  /** The cursor lies after every partition already seen and before all others. */
  lemma Uncovered(sorted: seq<Partition>, i: nat, cursor: int)
    requires Ordered(sorted, ByFirstOpen) && i <= |sorted|
    requires forall j :: 0 <= j < i ==> sorted[j].lastClose < cursor
    requires i < |sorted| ==> cursor < sorted[i].firstOpen
    ensures !CoveredAt(sorted, cursor)
  {
    forall j | 0 <= j < |sorted|
      ensures !Holds(sorted[j], cursor)
    {
      if i < j {
        assert ByFirstOpen(sorted[i], sorted[j]);
      }
    }
  }

  // ---------------------------------------------------------------------------
  // Choosing a symbol
  // ---------------------------------------------------------------------------

  /** The partitions of one symbol and timeframe that touch the window. */
  function Parts(frame: seq<Partition>, symbol: string, timeframe: string, start: int, end: int): seq<Partition> {
    Filter(frame, (p: Partition) =>
      p.symbol == symbol && p.timeframe == timeframe && p.firstOpen < end && p.lastClose >= start)
  }

  ghost predicate HasAt(frame: seq<Partition>, symbol: string, timeframe: string, t: int) {
    exists k :: 0 <= k < |frame| && frame[k].symbol == symbol && frame[k].timeframe == timeframe && Holds(frame[k], t)
  }

  /** The archive holds the symbol in every required timeframe for the whole window. */
  ghost predicate SymbolCovered(frame: seq<Partition>, symbol: string, timeframes: seq<string>, start: int, end: int) {
    forall tf, t :: tf in timeframes && start <= t < end ==> HasAt(frame, symbol, tf, t)
  }

  lemma CoveredAtAppend(parts: seq<Partition>, p: Partition, t: int)
    ensures CoveredAt(parts + [p], t) <==> CoveredAt(parts, t) || Holds(p, t)
  {
    if CoveredAt(parts, t) {
      var k :| 0 <= k < |parts| && Holds(parts[k], t);
      assert Holds((parts + [p])[k], t);
    }
    if Holds(p, t) {
      assert Holds((parts + [p])[|parts|], t);
    }
  }

  lemma HasAtAppend(frame: seq<Partition>, p: Partition, symbol: string, timeframe: string, t: int)
    ensures HasAt(frame + [p], symbol, timeframe, t)
       <==> HasAt(frame, symbol, timeframe, t) || (p.symbol == symbol && p.timeframe == timeframe && Holds(p, t))
  {
    var all := frame + [p];
    if HasAt(frame, symbol, timeframe, t) {
      var k :| 0 <= k < |frame| && frame[k].symbol == symbol && frame[k].timeframe == timeframe && Holds(frame[k], t);
      assert Holds(all[k], t);
    }
    if p.symbol == symbol && p.timeframe == timeframe && Holds(p, t) {
      assert Holds(all[|frame|], t);
    }
  }

  lemma {:induction false} PartsHold(
    frame: seq<Partition>, symbol: string, timeframe: string, start: int, end: int, t: int)
    requires start <= t < end
    ensures CoveredAt(Parts(frame, symbol, timeframe, start, end), t) <==> HasAt(frame, symbol, timeframe, t)
  {
    if frame != [] {
      var n := |frame| - 1;
      PartsHold(frame[..n], symbol, timeframe, start, end, t);
      assert frame == frame[..n] + [frame[n]];
      HasAtAppend(frame[..n], frame[n], symbol, timeframe, t);
      CoveredAtAppend(Parts(frame[..n], symbol, timeframe, start, end), frame[n], t);
    }
  }

  lemma PartsCovered(frame: seq<Partition>, symbol: string, timeframe: string, start: int, end: int)
    ensures Covered(Parts(frame, symbol, timeframe, start, end), start, end)
       <==> forall t :: start <= t < end ==> HasAt(frame, symbol, timeframe, t)
  {
    forall t | start <= t < end
      ensures CoveredAt(Parts(frame, symbol, timeframe, start, end), t) <==> HasAt(frame, symbol, timeframe, t)
    {
      PartsHold(frame, symbol, timeframe, start, end, t);
    }
  }

  method IsComplete(
    frame: seq<Partition>, symbol: string, timeframes: seq<string>, start: int, end: int)
    returns (complete: bool)
    requires start < end
    ensures complete <==> SymbolCovered(frame, symbol, timeframes, start, end)
  {
    complete := true;
    for k := 0 to |timeframes|
      invariant complete <==> SymbolCovered(frame, symbol, timeframes[..k], start, end)
    {
      var tf := timeframes[k];
      var covered := HasContiguousCoverage(Parts(frame, symbol, tf, start, end), start, end);
      PartsCovered(frame, symbol, tf, start, end);
      assert timeframes[..k + 1] == timeframes[..k] + [tf];
      complete := complete && covered;
    }
    assert timeframes[..|timeframes|] == timeframes;
  }

  datatype Choice = Chosen(symbol: string) | Refused

  /** The preferred symbol when it is covered, else the smallest covered one; refused when there is none. */
  method ChooseSymbol(frame: seq<Partition>, preferred: string, start: int, end: int, timeframes: seq<string>)
    returns (r: Choice)
    ensures r.Chosen? ==> SymbolCovered(frame, r.symbol, timeframes, start, end)
    ensures r.Chosen? && preferred != "" && SymbolCovered(frame, preferred, timeframes, start, end) ==>
              r.symbol == preferred
    ensures r.Chosen? && r.symbol != preferred ==>
              forall s :: SymbolCovered(frame, s, timeframes, start, end) ==> StringLe(r.symbol, s)
    ensures r.Refused?
       <==> start >= end || timeframes == [] || forall s :: !SymbolCovered(frame, s, timeframes, start, end)
  {
    if start >= end || timeframes == [] {
      return Refused;
    }
    var covered: seq<string> := [];
    for k := 0 to |frame|
      invariant forall s :: s in covered ==> SymbolCovered(frame, s, timeframes, start, end)
      invariant forall j :: 0 <= j < k && SymbolCovered(frame, frame[j].symbol, timeframes, start, end) ==>
                  frame[j].symbol in covered
    {
      var symbol := frame[k].symbol;
      var complete := IsComplete(frame, symbol, timeframes, start, end);
      if complete && symbol !in covered {
        covered := covered + [symbol];
      }
    }
    forall s | SymbolCovered(frame, s, timeframes, start, end)
      ensures s in covered
    {
      assert HasAt(frame, s, timeframes[0], start);
    }
    var symbols := Sort(covered, StringLe);
    StringLeIsTotal();
    SortOk(covered, StringLe);
    forall s
      ensures s in symbols <==> s in covered
    {
      SameElements(symbols, covered, s);
    }
    if preferred != "" && preferred in symbols {
      return Chosen(preferred);
    }
    if symbols == [] {
      assert forall s :: s !in symbols;
      return Refused;
    }
    assert symbols[0] in symbols;
    forall s | s in symbols
      ensures StringLe(symbols[0], s)
    {
      StringLeTotal(s, s);
      var j :| 0 <= j < |symbols| && symbols[j] == s;
    }
    return Chosen(symbols[0]);
  }
}
