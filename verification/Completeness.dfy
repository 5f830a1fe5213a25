/**
 Accepting candle data from aggregates alone.

 The loader never looks at single rows to decide whether a grid is complete: it compares five SQL
 aggregates with what a complete grid would give.  A counting argument shows that the aggregates
 match exactly when the rows are one well-formed bar per slot.
 */
module Completeness {
  import opened Wrappers
  import opened Loader
  import opened Sorting

  datatype Aggregates = Aggregates(count: nat, distinct: nat, min: Option<int>, max: Option<int>, bad: nat)

  function OpenTimes(rows: seq<Row>): set<int> {
    if rows == [] then {} else OpenTimes(rows[..|rows| - 1]) + {rows[|rows| - 1].openTime}
  }

  /** MIN is null for no rows. */
  function MinOpen(rows: seq<Row>): Option<int> {
    if rows == [] then None
    else
      var t := rows[|rows| - 1].openTime;
      match MinOpen(rows[..|rows| - 1])
      case None => Some(t)
      case Some(m) => Some(if t < m then t else m)
  }

  function MaxOpen(rows: seq<Row>): Option<int> {
    if rows == [] then None
    else
      var t := rows[|rows| - 1].openTime;
      match MaxOpen(rows[..|rows| - 1])
      case None => Some(t)
      case Some(m) => Some(if t > m then t else m)
  }

  function Aggregate(rows: seq<Row>, bad: Row -> bool): Aggregates {
    Aggregates(|rows|, |OpenTimes(rows)|, MinOpen(rows), MaxOpen(rows), |Filter(rows, bad)|)
  }

  /** The n slots first, first + step, ... */
  function Slots(first: int, step: int, n: nat): set<int> {
    if n == 0 then {} else Slots(first, step, n - 1) + {first + (n - 1) * step}
  }

  ghost predicate OneRowPerSlot(rows: seq<Row>, bad: Row -> bool, first: int, step: int, n: nat) {
    && (forall i :: 0 <= i < |rows| ==> !bad(rows[i]) && rows[i].openTime in Slots(first, step, n))
    && (forall i, j :: 0 <= i < j < |rows| ==> rows[i].openTime != rows[j].openTime)
    && (forall t :: t in Slots(first, step, n) ==> exists i :: 0 <= i < |rows| && rows[i].openTime == t)
  }

  // ---------------------------------------------------------------------------
  // Counting
  // ---------------------------------------------------------------------------

  lemma {:induction false} OpenTimesAre(rows: seq<Row>, t: int)
    ensures t in OpenTimes(rows) <==> exists i :: 0 <= i < |rows| && rows[i].openTime == t
  {
    if rows != [] {
      var n := |rows| - 1;
      OpenTimesAre(rows[..n], t);
      if exists i :: 0 <= i < |rows[..n]| && rows[..n][i].openTime == t {
        var i :| 0 <= i < |rows[..n]| && rows[..n][i].openTime == t;
        assert rows[i].openTime == t;
      }
      if exists i :: 0 <= i < |rows| && rows[i].openTime == t {
        var i :| 0 <= i < |rows| && rows[i].openTime == t;
        assert i < n ==> rows[..n][i].openTime == t;
      }
    }
  }

  /** As many distinct times as rows means that no time repeats. */
  lemma {:induction false} DistinctMeansInjective(rows: seq<Row>)
    ensures |OpenTimes(rows)| <= |rows|
    ensures |OpenTimes(rows)| == |rows| <==> forall i, j :: 0 <= i < j < |rows| ==> rows[i].openTime != rows[j].openTime
  {
    if rows != [] {
      var n := |rows| - 1;
      var t := rows[n].openTime;
      DistinctMeansInjective(rows[..n]);
      OpenTimesAre(rows[..n], t);
      if t in OpenTimes(rows[..n]) {
        var i :| 0 <= i < |rows[..n]| && rows[..n][i].openTime == t;
        assert rows[i].openTime == rows[n].openTime;
        assert OpenTimes(rows) == OpenTimes(rows[..n]);
      } else {
        assert forall i :: 0 <= i < n ==> rows[i].openTime == rows[..n][i].openTime;
      }
    }
  }

  lemma {:induction false} SlotsAre(first: int, step: int, n: nat, t: int)
    requires step > 0
    ensures t in Slots(first, step, n) <==> exists k :: 0 <= k < n && t == first + k * step
  {
    if n > 0 {
      SlotsAre(first, step, n - 1, t);
    }
  }

  lemma {:induction false} SlotsCount(first: int, step: int, n: nat)
    requires step > 0
    ensures |Slots(first, step, n)| == n
    ensures forall t :: t in Slots(first, step, n) ==> first <= t < first + n * step
  {
    if n > 0 {
      SlotsCount(first, step, n - 1);
      assert (n - 1) * step + step == n * step;
      assert (n - 1) * step >= 0;
    }
  }

  lemma FullSubset(a: set<int>, b: set<int>)
    requires a <= b && |a| == |b|
    ensures a == b
  {
    assert b == a + (b - a);
    assert |b| == |a| + |b - a|;
  }

  lemma {:induction false} MinMaxBound(rows: seq<Row>)
    ensures rows != [] ==> MinOpen(rows).Some? && MaxOpen(rows).Some?
    ensures rows != [] ==> MinOpen(rows).value in OpenTimes(rows) && MaxOpen(rows).value in OpenTimes(rows)
    ensures forall t :: t in OpenTimes(rows) ==> rows != [] && MinOpen(rows).value <= t <= MaxOpen(rows).value
  {
    if rows != [] {
      MinMaxBound(rows[..|rows| - 1]);
    }
  }

  lemma {:induction false} NoneBad(rows: seq<Row>, bad: Row -> bool)
    ensures |Filter(rows, bad)| == 0 <==> forall i :: 0 <= i < |rows| ==> !bad(rows[i])
  {
    if rows != [] {
      var n := |rows| - 1;
      NoneBad(rows[..n], bad);
      assert forall i :: 0 <= i < n ==> rows[..n][i] == rows[i];
    }
  }

  lemma {:induction false} AlignedIsSlot(t: int, first: int, step: int, n: nat)
    requires step > 0 && t % step == 0 && first % step == 0 && first <= t <= first + (n - 1) * step
    ensures t in Slots(first, step, n)
  {
    var k := t / step - first / step;
    assert t == step * (t / step) && first == step * (first / step);
    assert t - first == k * step;
    SlotIndex(k, n, step);
    SlotsAre(first, step, n, t);
    assert t == first + k * step;
  }

  lemma SlotIndex(k: int, n: nat, step: int)
    requires step > 0 && 0 <= k * step <= (n - 1) * step
    ensures 0 <= k < n
  {
    FactorSign(k, step);
    assert (n - 1 - k) * step == (n - 1) * step - k * step;
    FactorSign(n - 1 - k, step);
  }

  lemma FactorSign(k: int, step: int)
    requires step > 0
    ensures k * step >= 0 ==> k >= 0
    ensures k * step > 0 ==> k > 0
  {
  }

  /** The aggregates are those of a complete grid. */
  predicate Matches(a: Aggregates, first: int, step: int, n: nat) {
    a == Aggregates(n, n, Some(first), Some(first + (n - 1) * step), 0)
  }

  lemma MatchImpliesGrid(rows: seq<Row>, bad: Row -> bool, first: int, step: int, n: nat)
    requires step > 0 && n > 0 && first % step == 0
    requires forall r :: !bad(r) ==> r.openTime % step == 0
    requires Matches(Aggregate(rows, bad), first, step, n)
    ensures OneRowPerSlot(rows, bad, first, step, n)
  {
    NoneBad(rows, bad);
    DistinctMeansInjective(rows);
    MinMaxBound(rows);
    forall t | t in OpenTimes(rows)
      ensures t in Slots(first, step, n)
    {
      OpenTimesAre(rows, t);
      AlignedIsSlot(t, first, step, n);
    }
    SlotsCount(first, step, n);
    FullSubset(OpenTimes(rows), Slots(first, step, n));
    forall t
      ensures t in OpenTimes(rows) <==> exists i :: 0 <= i < |rows| && rows[i].openTime == t
    {
      OpenTimesAre(rows, t);
    }
  }

  lemma GridImpliesMatch(rows: seq<Row>, bad: Row -> bool, first: int, step: int, n: nat)
    requires step > 0 && n > 0
    requires OneRowPerSlot(rows, bad, first, step, n)
    ensures Matches(Aggregate(rows, bad), first, step, n)
  {
    NoneBad(rows, bad);
    DistinctMeansInjective(rows);
    MinMaxBound(rows);
    SlotsCount(first, step, n);
    forall t
      ensures t in OpenTimes(rows) <==> t in Slots(first, step, n)
    {
      OpenTimesAre(rows, t);
    }
    assert OpenTimes(rows) == Slots(first, step, n);
    SlotsEnds(first, step, n);
    assert first in OpenTimes(rows) && first + (n - 1) * step in OpenTimes(rows);
  }

  lemma {:induction false} SlotsEnds(first: int, step: int, n: nat)
    requires step > 0 && n > 0
    ensures first in Slots(first, step, n) && first + (n - 1) * step in Slots(first, step, n)
    ensures forall t :: t in Slots(first, step, n) ==> first <= t <= first + (n - 1) * step
  {
    if n > 1 {
      SlotsEnds(first, step, n - 1);
      assert (n - 1) * step == (n - 2) * step + step;
    }
  }

  // ---------------------------------------------------------------------------
  // Candles
  // ---------------------------------------------------------------------------

  function Floor(t: int, step: int): int
    requires step > 0
  {
    t / step * step
  }

  function Misshapen(step: int): Row -> bool
    requires step > 0
  {
    (r: Row) => r.openTime % step != 0 || r.closeTime != r.openTime + step - 1
  }

  function ClosedIn(symbol: string, timeframe: string, start: int, end: int): Row -> bool {
    (r: Row) => r.symbol == symbol && r.timeframe == timeframe && start <= r.closeTime < end
  }

  function ExpectedBars(start: int, end: int, step: int): nat
    requires step > 0
  {
    var n := (Floor(end, step) - Floor(start, step)) / step;
    if n <= 0 then 0 else n
  }

  /** The check of one symbol and interval; an empty expected grid is not checked at all. */
  predicate KlinesAccepted(rows: seq<Row>, symbol: string, timeframe: string, step: int, start: int, end: int)
    requires step > 0
  {
    var selected := Filter(rows, ClosedIn(symbol, timeframe, start, end));
    var first, last := Floor(start, step), Floor(end, step);
    var n := ExpectedBars(start, end, step);
    n == 0 || Aggregate(selected, Misshapen(step)) == Aggregates(n, n, Some(first), Some(last - step), 0)
  }

  /**
   The five aggregates accept the data exactly when the bars that close inside the window are one
   well-formed bar for each aligned slot from floor(start) up to floor(end).
   */
  lemma {:induction false} KlineValidatorExact(
    rows: seq<Row>, symbol: string, timeframe: string, step: int, start: int, end: int)
    requires step > 0 && ExpectedBars(start, end, step) > 0
    ensures KlinesAccepted(rows, symbol, timeframe, step, start, end)
       <==> OneRowPerSlot(Filter(rows, ClosedIn(symbol, timeframe, start, end)), Misshapen(step),
                          Floor(start, step), step, ExpectedBars(start, end, step))
  {
    hide Aggregate, OneRowPerSlot, Filter;
    var selected := Filter(rows, ClosedIn(symbol, timeframe, start, end));
    var n := ExpectedBars(start, end, step);
    var first := Floor(start, step);
    FloorFacts(start, end, step);
    assert KlinesAccepted(rows, symbol, timeframe, step, start, end)
      <==> Matches(Aggregate(selected, Misshapen(step)), first, step, n);
    if Matches(Aggregate(selected, Misshapen(step)), first, step, n) {
      MatchImpliesGrid(selected, Misshapen(step), first, step, n);
    }
    if OneRowPerSlot(selected, Misshapen(step), first, step, n) {
      GridImpliesMatch(selected, Misshapen(step), first, step, n);
    }
  }

  /** The slots of the check, written out: aligned bars that close at or after the start and end by the end. */
  lemma {:induction false} GridSlots(start: int, end: int, step: int, t: int)
    requires step > 0 && ExpectedBars(start, end, step) > 0
    ensures t in Slots(Floor(start, step), step, ExpectedBars(start, end, step))
       <==> t % step == 0 && start < t + step <= end
  {
    var first, n := Floor(start, step), ExpectedBars(start, end, step);
    FloorFacts(start, end, step);
    FloorBounds(start, step);
    FloorBounds(end, step);
    OneStepBack(Floor(end, step), step);
    hide Floor, ExpectedBars, Slots;
    SlotsBetween(first, Floor(end, step) - step, step, n, start, end, t);
  }

  lemma OneStepBack(t: int, step: int)
    requires step > 0 && t % step == 0
    ensures (t - step) % step == 0
  {
    var k := t / step;
    assert t == step * k;
    assert t - step == (k - 1) * step;
    MultipleFacts(k - 1, step);
  }

  lemma {:induction false} SlotsBetween(first: int, last: int, step: int, n: nat, start: int, end: int, t: int)
    requires step > 0 && n > 0 && first % step == 0 && last % step == 0 && last == first + (n - 1) * step
    requires first <= start < first + step && last + step <= end < last + step + step
    ensures t in Slots(first, step, n) <==> t % step == 0 && start < t + step <= end
  {
    hide Slots;
    if t in Slots(first, step, n) {
      SlotAligned(first, step, n, t);
      SlotsEnds(first, step, n);
    } else if t % step == 0 && start < t + step <= end {
      MultipleGap(t, first, step);
      MultipleGap(last, t, step);
      AlignedIsSlot(t, first, step, n);
    }
  }

  lemma {:induction false} SlotAligned(first: int, step: int, n: nat, t: int)
    requires step > 0 && first % step == 0 && t in Slots(first, step, n)
    ensures t % step == 0
  {
    if t in Slots(first, step, n - 1) {
      SlotAligned(first, step, n - 1, t);
    } else {
      MultipleFacts(first / step + (n - 1), step);
      assert (first / step + (n - 1)) * step == first / step * step + (n - 1) * step;
    }
  }

  lemma FloorBounds(t: int, step: int)
    requires step > 0
    ensures Floor(t, step) <= t < Floor(t, step) + step && Floor(t, step) % step == 0
  {
    Division(t, step);
    MultipleFacts(t / step, step);
  }

  /** Two multiples that are less than one step apart, the wrong way round, are in order. */
  lemma MultipleGap(a: int, b: int, step: int)
    requires step > 0 && a % step == 0 && b % step == 0 && a > b - step
    ensures a >= b
  {
    var x, y := a / step, b / step;
    assert a == step * x && b == step * y;
    assert (x - y + 1) * step == a - b + step;
    FactorSign(x - y + 1, step);
    assert (x - y) * step == a - b;
    if x == y {
      assert a == b;
    } else {
      Multiple(x - y, step);
    }
  }

  lemma FloorFacts(start: int, end: int, step: int)
    requires step > 0 && ExpectedBars(start, end, step) > 0
    ensures Floor(start, step) % step == 0
    ensures Floor(end, step) - step == Floor(start, step) + (ExpectedBars(start, end, step) - 1) * step
  {
    var a, b := start / step, end / step;
    MultipleFacts(a, step);
    MultipleFacts(b - a, step);
    assert b * step - a * step == (b - a) * step;
    assert ExpectedBars(start, end, step) == b - a;
    assert (b - a - 1) * step == (b - a) * step - step;
  }

  lemma MultipleFacts(k: int, step: int)
    requires step > 0
    ensures (k * step) % step == 0 && (k * step) / step == k
  {
    var q, r := (k * step) / step, (k * step) % step;
    assert k * step == q * step + r && 0 <= r < step;
    assert (k - q) * step == r;
    assert (q - k + 1) * step == step - r;
    FactorSign(k - q, step);
    FactorSign(q - k + 1, step);
  }

  // ---------------------------------------------------------------------------
  // From the accepted candles to the stream
  // ---------------------------------------------------------------------------

  lemma {:induction false} GridPermuted(
    rows: seq<Row>, out: seq<Row>, bad: Row -> bool, first: int, step: int, n: nat)
    requires multiset(out) == multiset(rows) && OneRowPerSlot(rows, bad, first, step, n)
    ensures OneRowPerSlot(out, bad, first, step, n)
  {
    forall r
      ensures r in out <==> r in rows
    {
      SameElements(out, rows, r);
    }
    assert forall i :: 0 <= i < |out| ==> out[i] in rows;
    forall t
      ensures t in OpenTimes(out) <==> t in OpenTimes(rows)
    {
      OpenTimesOf(out, t);
      OpenTimesOf(rows, t);
    }
    assert OpenTimes(out) == OpenTimes(rows);
    assert |out| == |multiset(out)| == |multiset(rows)| == |rows|;
    DistinctMeansInjective(rows);
    DistinctMeansInjective(out);
    forall t | t in Slots(first, step, n)
      ensures exists i :: 0 <= i < |out| && out[i].openTime == t
    {
      OpenTimesAre(rows, t);
      OpenTimesAre(out, t);
    }
  }

  lemma {:induction false} OpenTimesOf(rows: seq<Row>, t: int)
    ensures t in OpenTimes(rows) <==> exists r :: r in rows && r.openTime == t
  {
    OpenTimesAre(rows, t);
    if t in OpenTimes(rows) {
      var i :| 0 <= i < |rows| && rows[i].openTime == t;
      assert rows[i] in rows;
    }
  }

  /** The request asks for the interval, and its check has accepted the source. */
  ghost predicate Accepted(q: Request, source: Source, symbol: string, timeframe: string, step: int) {
    && step > 0 && symbol in q.symbols && timeframe in q.timeframes && timeframe != SECOND
    && ExpectedBars(q.start, q.end, step) > 0
    && KlinesAccepted(SourceRows(source), symbol, timeframe, step, q.start, q.end)
  }

  /** The stream holds one well-formed bar of the interval for each slot of the window. */
  ghost predicate StreamsGrid(q: Request, out: seq<Row>, symbol: string, timeframe: string, step: int)
    requires step > 0
  {
    OneRowPerSlot(Filter(out, ClosedIn(symbol, timeframe, q.start, q.end)), Misshapen(step),
                  Floor(q.start, step), step, ExpectedBars(q.start, q.end, step))
  }

  /** What the check accepts is streamed in full from a table, and from an archive at a safe shift. */
  lemma {:induction false} AcceptedIsStreamed(
    q: Request, source: Source, symbol: string, timeframe: string, step: int, out: seq<Row>)
    requires Accepted(q, source, symbol, timeframe, step) && (source.Table? || -1000 <= q.shift <= step)
    requires Answers(q, SourceRows(source), Wanted(q), out, NeverLost(q, source))
    ensures StreamsGrid(q, out, symbol, timeframe, step)
  {
    var rows, closed := SourceRows(source), ClosedIn(symbol, timeframe, q.start, q.end);
    KlineValidatorExact(rows, symbol, timeframe, step, q.start, q.end);
    AcceptedBars(q, source, symbol, timeframe, step);
    forall r
      ensures multiset(Filter(out, closed))[r] == multiset(Filter(rows, closed))[r]
    {
      FilterCount(out, closed, r);
      FilterCount(rows, closed, r);
      FilterCount(rows, Wanted(q), r);
      assert r in rows <==> r in multiset(rows);
    }
    GridPermuted(Filter(rows, closed), Filter(out, closed), Misshapen(step),
                 Floor(q.start, step), step, ExpectedBars(q.start, q.end, step));
  }

  /** Accepted bars have the length of their interval. */
  lemma {:induction false} AcceptedBars(q: Request, source: Source, symbol: string, timeframe: string, step: int)
    requires Accepted(q, source, symbol, timeframe, step)
    ensures forall r :: r in SourceRows(source) && ClosedIn(symbol, timeframe, q.start, q.end)(r) ==>
              BarLength(r) == step && Requested(q, r)
  {
    var rows, closed := SourceRows(source), ClosedIn(symbol, timeframe, q.start, q.end);
    KlineValidatorExact(rows, symbol, timeframe, step, q.start, q.end);
    var selected := Filter(rows, closed);
    FilterMembers(rows, closed);
    forall r | r in rows && closed(r)
      ensures BarLength(r) == step
    {
      var i :| 0 <= i < |selected| && selected[i] == r;
      assert !Misshapen(step)(selected[i]);
    }
  }

  /** Whatever passes the check of an interval of this length is streamed in full, with every chunk size. */
  ghost predicate CheckSuffices(shift: int, step: int) {
    forall q: Request, source: Source, symbol: string, timeframe: string, chunk: int, out: seq<Row> ::
      && Accepted(q, source, symbol, timeframe, step) && q.shift == shift && SourceOk(source)
      && chunk >= 1 && Emits(q, source, chunk, out) ==>
        StreamsGrid(q, out, symbol, timeframe, step)
  }

  /** It is so exactly for shifts from -1000 ms up to the length of the interval. */
  lemma {:induction false} CheckSufficesExactly(shift: int, step: int)
    requires step > 0
    ensures CheckSuffices(shift, step) <==> -1000 <= shift <= step
  {
    if -1000 <= shift <= step {
      forall q: Request, source: Source, symbol: string, timeframe: string, chunk: int, out: seq<Row> |
        && Accepted(q, source, symbol, timeframe, step) && q.shift == shift && SourceOk(source)
        && chunk >= 1 && Emits(q, source, chunk, out)
        ensures StreamsGrid(q, out, symbol, timeframe, step)
      {
        EmitsAnswers(q, source, chunk, out);
        AcceptedIsStreamed(q, source, symbol, timeframe, step, out);
      }
    } else {
      BarIsLost(shift, step);
    }
  }

  /** One bar that passes the check; the chunk that asks for it does not read its file. */
  lemma {:induction false} BarIsLost(shift: int, step: int)
    requires step > 0 && !(-1000 <= shift <= step)
    ensures !CheckSuffices(shift, step)
  {
    hide CheckSuffices;
    var r := Row("S", "1m", 0, step - 1, 0);
    var f := File("S", "1m", 0, step - 1, [r]);
    var q := Request({"S"}, {"1m"}, 0, step, shift);
    var chunk := if shift > step then step + 1 else step;
    OneBarAccepted(q, f, r, step);
    BarNotRead(q, f, r, step, chunk);
    OneRowLoad(q, f, r, chunk);
    hide Accepted, Emits, SourceOk, ReadFor;
    NoGrid(q, Archive([f]), step, chunk);
  }

  lemma BarNotRead(q: Request, f: File, r: Row, step: int, chunk: int)
    requires step > 0 && r.timeframe != SECOND && r.closeTime == step - 1
    requires f.firstOpen == 0 && f.lastClose == step - 1
    requires q.start == 0 && q.end == step
    requires (q.shift > step && chunk == step + 1) || (q.shift < -1000 && chunk == step)
    ensures !ReadFor(q, chunk, r)(f)
  {
    var k := if chunk == step then 1 else 0;
    Quotient(step, k, chunk);
    assert ChunkStart(q, chunk, step) == k * chunk;
  }

  lemma {:induction false} NoGrid(q: Request, source: Source, step: int, chunk: int)
    requires Accepted(q, source, "S", "1m", step) && SourceOk(source) && chunk >= 1 && Emits(q, source, chunk, [])
    requires q.start == 0 && q.end == step && Floor(0, step) == 0 && ExpectedBars(0, step, step) == 1
    ensures !CheckSuffices(q.shift, step)
  {
    SlotsEnds(0, step, 1);
    assert Filter([], ClosedIn("S", "1m", 0, step)) == [];
    hide Accepted, Emits, SourceOk, Slots;
    assert !StreamsGrid(q, [], "S", "1m", step);
  }

  lemma OneBarAccepted(q: Request, f: File, r: Row, step: int)
    requires step > 0 && r == Row("S", "1m", 0, step - 1, 0) && f == File("S", "1m", 0, step - 1, [r])
    requires q.symbols == {"S"} && q.timeframes == {"1m"} && q.start == 0 && q.end == step
    ensures Accepted(q, Archive([f]), "S", "1m", step) && SourceOk(Archive([f]))
    ensures Floor(0, step) == 0 && ExpectedBars(0, step, step) == 1
  {
    var closed := ClosedIn("S", "1m", 0, step);
    MultipleFacts(1, step);
    MultipleFacts(0, step);
    assert [f][..0] == [] && AllRows([]) == [] && [r][..0] == [];
    assert AllRows([f]) == [] + [r] == [r];
    assert Filter([r], closed) == [r];
    var slots := Slots(0, step, 1);
    assert Slots(0, step, 0) == {} && slots == {0 + 0 * step};
    assert OneRowPerSlot([r], Misshapen(step), 0, step, 1) by {
      assert r.openTime == 0 && [r][0] == r;
    }
    KlineValidatorExact([r], "S", "1m", step, 0, step);
  }

  // ---------------------------------------------------------------------------
  // Seconds without trade ids: a dense grid
  // ---------------------------------------------------------------------------

  function Ceil(t: int): int {
    (t + 999) / 1000 * 1000
  }

  function OffSecond(): Row -> bool {
    (r: Row) => r.openTime % 1000 != 0
  }

  /** An empty expected grid can never match, since MIN and MAX are then null. */
  predicate DenseSecondsAccepted(selected: seq<Row>, start: int, end: int) {
    var first, stop := Ceil(start), Ceil(end);
    var n := (stop - first) / 1000;
    var a := Aggregate(selected, OffSecond());
    a.count == n && a.distinct == n && a.min == Some(first) && a.max == Some(stop - 1000) && a.bad == 0
  }

  lemma DenseSecondsExact(selected: seq<Row>, start: int, end: int)
    requires start < end
    ensures DenseSecondsAccepted(selected, start, end)
       <==> Ceil(start) < Ceil(end)
            && OneRowPerSlot(selected, OffSecond(), Ceil(start), 1000, (Ceil(end) - Ceil(start)) / 1000)
  {
    hide Filter, OneRowPerSlot;
    var first, stop := Ceil(start), Ceil(end);
    var n := (stop - first) / 1000;
    assert stop == first + n * 1000 && n >= 0;
    if n == 0 {
      MinMaxBound(selected);
    } else {
      if DenseSecondsAccepted(selected, start, end) {
        MatchImpliesGrid(selected, OffSecond(), first, 1000, n);
      }
      if OneRowPerSlot(selected, OffSecond(), first, 1000, n) {
        GridImpliesMatch(selected, OffSecond(), first, 1000, n);
      }
    }
  }

  // ---------------------------------------------------------------------------
  // Seconds with trade ids: contiguous ranges
  // ---------------------------------------------------------------------------

  /** A second with the range of aggregate trade ids it summarises; ids may be missing. */
  datatype SecondRow = SecondRow(time: int, firstId: Option<int>, lastId: Option<int>)

  /** The window function: the last id of the row before, in time order. */
  function Previous(rows: seq<SecondRow>, i: nat): Option<int>
    requires i < |rows|
  {
    if i == 0 then None else rows[i - 1].lastId
  }

  predicate InvalidSecond(rows: seq<SecondRow>, i: nat)
    requires i < |rows|
  {
    var r := rows[i];
    || r.firstId.None? || r.lastId.None? || r.firstId.value > r.lastId.value
    || (Previous(rows, i).Some? && r.firstId.value != Previous(rows, i).value + 1)
    || r.time % 1000 != 0
  }

  function CountInvalid(rows: seq<SecondRow>, n: nat): nat
    requires n <= |rows|
  {
    if n == 0 then 0 else CountInvalid(rows, n - 1) + if InvalidSecond(rows, n - 1) then 1 else 0
  }

  function CountIdentified(rows: seq<SecondRow>): nat {
    if rows == [] then 0
    else CountIdentified(rows[..|rows| - 1]) + if rows[|rows| - 1].firstId.Some? then 1 else 0
  }

  function Times(rows: seq<SecondRow>): set<int> {
    set i | 0 <= i < |rows| :: rows[i].time
  }

  ghost predicate InTimeOrder(rows: seq<SecondRow>) {
    forall i, j :: 0 <= i < j < |rows| ==> rows[i].time <= rows[j].time
  }

  datatype SecondsVerdict = Continuous | Broken | NoIds

  /** No row carries an id: the dense check decides.  Otherwise the ids must be contiguous. */
  function JudgeSeconds(rows: seq<SecondRow>): SecondsVerdict {
    if CountIdentified(rows) == 0 then NoIds
    else if CountInvalid(rows, |rows|) > 0 || |rows| != |Times(rows)| then Broken
    else Continuous
  }

  function First(r: SecondRow): int {
    if r.firstId.Some? then r.firstId.value else 0
  }

  function Last(r: SecondRow): int {
    if r.lastId.Some? then r.lastId.value else 0
  }

  predicate Ranged(r: SecondRow) {
    r.firstId.Some? && r.lastId.Some? && First(r) <= Last(r) && r.time % 1000 == 0
  }

  predicate HasId(r: SecondRow, id: int) {
    Ranged(r) && First(r) <= id <= Last(r)
  }

  ghost predicate IdCovered(rows: seq<SecondRow>, id: int) {
    exists i :: 0 <= i < |rows| && HasId(rows[i], id)
  }

  /** The id ranges of the seconds, in time order, partition the whole range of ids. */
  ghost predicate Partitions(rows: seq<SecondRow>) {
    && rows != []
    && (forall i :: 0 <= i < |rows| ==> Ranged(rows[i]))
    && (forall i, j :: 0 <= i < j < |rows| ==> rows[i].time < rows[j].time && Last(rows[i]) < First(rows[j]))
    && (forall id :: First(rows[0]) <= id <= Last(rows[|rows| - 1]) ==> IdCovered(rows, id))
  }

  lemma {:induction false} NoInvalid(rows: seq<SecondRow>, n: nat)
    requires n <= |rows|
    ensures CountInvalid(rows, n) == 0 <==> forall i :: 0 <= i < n ==> !InvalidSecond(rows, i)
  {
    if n > 0 {
      NoInvalid(rows, n - 1);
    }
  }

  lemma {:induction false} AllIdentified(rows: seq<SecondRow>)
    requires rows != [] && forall i :: 0 <= i < |rows| ==> rows[i].firstId.Some?
    ensures CountIdentified(rows) > 0
  {
  }

  lemma TimesSplit(rows: seq<SecondRow>)
    requires rows != []
    ensures Times(rows) == Times(rows[..|rows| - 1]) + {rows[|rows| - 1].time}
  {
    var n := |rows| - 1;
    forall t | t in Times(rows)
      ensures t in Times(rows[..n]) + {rows[n].time}
    {
      var i :| 0 <= i < |rows| && rows[i].time == t;
      assert i < n ==> rows[..n][i].time == t;
    }
    forall t | t in Times(rows[..n])
      ensures t in Times(rows)
    {
      var i :| 0 <= i < n && rows[..n][i].time == t;
      assert rows[i].time == t;
    }
  }

  ghost predicate TimesDiffer(rows: seq<SecondRow>) {
    forall i, j :: 0 <= i < j < |rows| ==> rows[i].time != rows[j].time
  }

  lemma {:induction false} TimesDistinct(rows: seq<SecondRow>)
    ensures |Times(rows)| <= |rows|
    ensures |Times(rows)| == |rows| <==> TimesDiffer(rows)
  {
    if rows == [] {
      assert Times(rows) == {};
    } else {
      var n := |rows| - 1;
      TimesDistinct(rows[..n]);
      TimesSplit(rows);
      TimesDifferSplit(rows);
      if rows[n].time in Times(rows[..n]) {
        assert Times(rows) == Times(rows[..n]);
      }
    }
  }

  lemma TimesDifferSplit(rows: seq<SecondRow>)
    requires rows != []
    ensures var n := |rows| - 1;
            TimesDiffer(rows) <==> TimesDiffer(rows[..n]) && rows[n].time !in Times(rows[..n])
  {
    var n := |rows| - 1;
    if rows[n].time in Times(rows[..n]) {
      var i :| 0 <= i < n && rows[..n][i].time == rows[n].time;
      assert rows[i].time == rows[n].time;
    } else {
      assert forall i :: 0 <= i < n ==> rows[..n][i].time in Times(rows[..n]) && rows[..n][i] == rows[i];
    }
    assert forall i :: 0 <= i < n ==> rows[..n][i] == rows[i];
  }

  ghost predicate Chained(rows: seq<SecondRow>) {
    forall i :: 0 <= i < |rows| ==> !InvalidSecond(rows, i)
  }

  lemma ChainedAt(rows: seq<SecondRow>, i: nat)
    requires i < |rows|
    ensures !InvalidSecond(rows, i)
       <==> Ranged(rows[i]) && (i > 0 && rows[i - 1].lastId.Some? ==> First(rows[i]) == Last(rows[i - 1]) + 1)
  {
  }

  lemma {:induction false} ChainedOrder(rows: seq<SecondRow>, i: nat, j: nat)
    requires Chained(rows) && i < j < |rows|
    ensures Last(rows[i]) < First(rows[j])
    decreases j - i
  {
    assert !InvalidSecond(rows, i) && !InvalidSecond(rows, i + 1);
    ChainedAt(rows, i);
    ChainedAt(rows, i + 1);
    if i + 1 < j {
      ChainedOrder(rows, i + 1, j);
    }
  }

  lemma {:induction false} ChainedCovers(rows: seq<SecondRow>, n: nat, id: int)
    requires Chained(rows) && 0 < n <= |rows| && First(rows[0]) <= id <= Last(rows[n - 1])
    ensures IdCovered(rows, id)
  {
    assert !InvalidSecond(rows, n - 1);
    ChainedAt(rows, n - 1);
    if id >= First(rows[n - 1]) {
      assert HasId(rows[n - 1], id);
    } else {
      assert !InvalidSecond(rows, n - 2);
      ChainedAt(rows, n - 2);
      ChainedCovers(rows, n - 1, id);
    }
  }

  lemma ChainedPartitions(rows: seq<SecondRow>)
    requires rows != [] && Chained(rows) && InTimeOrder(rows) && TimesDiffer(rows)
    ensures Partitions(rows)
  {
    forall i | 0 <= i < |rows|
      ensures Ranged(rows[i])
    {
      assert !InvalidSecond(rows, i);
      ChainedAt(rows, i);
    }
    forall i, j | 0 <= i < j < |rows|
      ensures Last(rows[i]) < First(rows[j])
    {
      ChainedOrder(rows, i, j);
    }
    forall id | First(rows[0]) <= id <= Last(rows[|rows| - 1])
      ensures IdCovered(rows, id)
    {
      ChainedCovers(rows, |rows|, id);
    }
  }

  lemma InOrder(rows: seq<SecondRow>, i: nat, j: nat)
    requires Partitions(rows) && i < |rows| && j < |rows|
    ensures i < j ==> Last(rows[i]) < First(rows[j])
  {
  }

  /** In a partition the next second starts with the very next id. */
  lemma NextIdFollows(rows: seq<SecondRow>, i: nat)
    requires Partitions(rows) && 0 < i < |rows|
    ensures First(rows[i]) == Last(rows[i - 1]) + 1
  {
    var n := |rows| - 1;
    var id := Last(rows[i - 1]) + 1;
    assert Ranged(rows[0]) && Ranged(rows[i - 1]) && Ranged(rows[i]) && Ranged(rows[n]);
    assert Last(rows[i - 1]) < First(rows[i]);
    assert i - 1 == 0 || Last(rows[0]) < First(rows[i - 1]);
    assert i == n || Last(rows[i]) < First(rows[n]);
    assert IdCovered(rows, id);
    var k :| 0 <= k < |rows| && HasId(rows[k], id);
    InOrder(rows, i, k);
    InOrder(rows, k, i - 1);
  }

  lemma PartitionsChained(rows: seq<SecondRow>)
    requires Partitions(rows)
    ensures Chained(rows)
  {
    forall i | 0 <= i < |rows|
      ensures !InvalidSecond(rows, i)
    {
      assert Ranged(rows[i]);
      if i > 0 {
        NextIdFollows(rows, i);
      }
      ChainedAt(rows, i);
    }
  }

  /** The continuity check passes exactly when the seconds partition the trade ids. */
  lemma ContinuityExact(rows: seq<SecondRow>)
    requires InTimeOrder(rows)
    ensures JudgeSeconds(rows) == Continuous <==> Partitions(rows)
  {
    NoInvalid(rows, |rows|);
    TimesDistinct(rows);
    if JudgeSeconds(rows) == Continuous {
      assert rows != [];
      ChainedPartitions(rows);
    }
    if Partitions(rows) {
      PartitionsChained(rows);
      assert forall i :: 0 <= i < |rows| ==> Ranged(rows[i]);
      AllIdentified(rows);
    }
  }

  /** So every trade id of the range belongs to exactly one second. */
  lemma EachIdInOneSecond(rows: seq<SecondRow>, id: int, i: nat, j: nat)
    requires Partitions(rows) && i < |rows| && j < |rows| && HasId(rows[i], id) && HasId(rows[j], id)
    ensures i == j
  {
  }

  // ---------------------------------------------------------------------------
  // The whole check of the seconds
  // ---------------------------------------------------------------------------

  function AsRow(r: SecondRow): Row {
    Row("", SECOND, r.time, r.time, 0)
  }

  function AsRows(rows: seq<SecondRow>): seq<Row> {
    seq(|rows|, i requires 0 <= i < |rows| => AsRow(rows[i]))
  }

  /** Ids decide when the columns exist and some row has an id; otherwise the grid must be dense. */
  predicate SecondsAccepted(hasIdColumns: bool, rows: seq<SecondRow>, start: int, end: int) {
    if hasIdColumns && JudgeSeconds(rows) != NoIds then JudgeSeconds(rows) == Continuous
    else DenseSecondsAccepted(AsRows(rows), start, end)
  }

  predicate Aligned(t: int) {
    t % 1000 == 0
  }

  /** One row for every full second of a window that has at least one. */
  ghost predicate DenseGrid(rows: seq<SecondRow>, start: int, end: int) {
    && (exists t :: Aligned(t) && start <= t < end)
    && (forall i :: 0 <= i < |rows| ==> Aligned(rows[i].time))
    && TimesDiffer(rows)
    && (forall t :: Aligned(t) && start <= t < end ==> exists i :: 0 <= i < |rows| && rows[i].time == t)
  }

  lemma SecondSlots(start: int, end: int, t: int)
    requires start < end
    ensures t in Slots(Ceil(start), 1000, (Ceil(end) - Ceil(start)) / 1000) <==> Aligned(t) && start <= t < end
  {
    var first := Ceil(start);
    var n := (Ceil(end) - first) / 1000;
    SlotsAre(first, 1000, n, t);
    if Aligned(t) && start <= t < end {
      assert t == first + (t - first) / 1000 * 1000 && 0 <= (t - first) / 1000 < n;
    }
  }

  lemma WindowHasSecond(start: int, end: int)
    requires start < end
    ensures Ceil(start) < Ceil(end) <==> exists t :: Aligned(t) && start <= t < end
  {
    if Ceil(start) < Ceil(end) {
      assert Aligned(Ceil(start));
    }
  }

  lemma GridOfSeconds(rows: seq<SecondRow>, start: int, end: int)
    requires start < end && forall i :: 0 <= i < |rows| ==> start <= rows[i].time < end
    ensures DenseGrid(rows, start, end)
       <==> Ceil(start) < Ceil(end)
            && OneRowPerSlot(AsRows(rows), OffSecond(), Ceil(start), 1000, (Ceil(end) - Ceil(start)) / 1000)
  {
    WindowHasSecond(start, end);
    var first := Ceil(start);
    var n := (Ceil(end) - first) / 1000;
    forall t
      ensures t in Slots(first, 1000, n) <==> Aligned(t) && start <= t < end
    {
      SecondSlots(start, end, t);
    }
    if DenseGrid(rows, start, end) {
      GridFillsSlots(rows, start, end, first, n);
    }
    if OneRowPerSlot(AsRows(rows), OffSecond(), first, 1000, n) && first < Ceil(end) {
      SlotsMakeGrid(rows, start, end, first, n);
    }
  }

  lemma {:induction false} GridFillsSlots(rows: seq<SecondRow>, start: int, end: int, first: int, n: nat)
    requires forall t :: t in Slots(first, 1000, n) <==> Aligned(t) && start <= t < end
    requires DenseGrid(rows, start, end) && forall i :: 0 <= i < |rows| ==> start <= rows[i].time < end
    ensures OneRowPerSlot(AsRows(rows), OffSecond(), first, 1000, n)
  {
    hide Slots;
    var slots := AsRows(rows);
    forall t | t in Slots(first, 1000, n)
      ensures exists i :: 0 <= i < |slots| && slots[i].openTime == t
    {
      var i :| 0 <= i < |rows| && rows[i].time == t;
      assert slots[i].openTime == t;
    }
  }

  lemma {:induction false} SlotsMakeGrid(rows: seq<SecondRow>, start: int, end: int, first: int, n: nat)
    requires forall t :: t in Slots(first, 1000, n) <==> Aligned(t) && start <= t < end
    requires OneRowPerSlot(AsRows(rows), OffSecond(), first, 1000, n) && exists t :: Aligned(t) && start <= t < end
    ensures DenseGrid(rows, start, end)
  {
    hide Slots;
    var slots := AsRows(rows);
    assert forall i :: 0 <= i < |rows| ==> slots[i].openTime == rows[i].time;
    forall t | Aligned(t) && start <= t < end
      ensures exists i :: 0 <= i < |rows| && rows[i].time == t
    {
      assert t in Slots(first, 1000, n);
      var i :| 0 <= i < |slots| && slots[i].openTime == t;
      assert rows[i].time == t;
    }
  }

  lemma {:induction false} IdentifiedIffSome(rows: seq<SecondRow>)
    ensures CountIdentified(rows) > 0 <==> exists i :: 0 <= i < |rows| && rows[i].firstId.Some?
  {
    if rows != [] {
      IdentifiedIffSome(rows[..|rows| - 1]);
    }
  }

  /**
   The check of a symbol's seconds, both branches: with ids the seconds partition the trade ids,
   and where there are none every full second of the window has its row.
   */
  lemma SecondsCheckExact(hasIdColumns: bool, rows: seq<SecondRow>, start: int, end: int)
    requires start < end && InTimeOrder(rows) && forall i :: 0 <= i < |rows| ==> start <= rows[i].time < end
    ensures SecondsAccepted(hasIdColumns, rows, start, end)
       <==> if hasIdColumns && exists i :: 0 <= i < |rows| && rows[i].firstId.Some?
            then Partitions(rows)
            else DenseGrid(rows, start, end)
  {
    hide Partitions, DenseGrid, OneRowPerSlot, DenseSecondsAccepted, InTimeOrder;
    IdentifiedIffSome(rows);
    ContinuityExact(rows);
    DenseSecondsExact(AsRows(rows), start, end);
    GridOfSeconds(rows, start, end);
  }
}
