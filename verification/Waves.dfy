/**
 Swing points of a price series and the segments between them.

 `IsZigZag` says, without a state machine, which pivots a series has; it determines them uniquely,
 and the one-pass loop computes exactly them.
 */
module ZigZag {

  datatype Bar = Bar(time: int, open: real, high: real, low: real, close: real)

  datatype Kind = High | Low
  {
    function Other(): Kind {
      if High? then Low else High
    }
  }

  datatype Pivot = Pivot(index: nat, price: real, kind: Kind)

  function Price(b: Bar, kind: Kind): real {
    if kind == High then b.high else b.low
  }

  predicate Better(kind: Kind, x: real, y: real) {
    if kind == High then x > y else x < y
  }

  /** The bar retreats from an extreme of this kind by at least `percent`. */
  predicate Retraces(percent: real, kind: Kind, extreme: real, b: Bar) {
    if kind == High then b.low <= extreme * (1.0 - percent / 100.0) else b.high >= extreme * (1.0 + percent / 100.0)
  }

  /** In percent of the extreme: a high is retraced by a fall, a low by a rise. */
  lemma RetracesInPercent(percent: real, kind: Kind, extreme: real, b: Bar)
    ensures Retraces(percent, kind, extreme, b)
       <==> if kind == High then 100.0 * (extreme - b.low) >= percent * extreme
            else 100.0 * (b.high - extreme) >= percent * extreme
  {
    var rate := percent / 100.0;
    assert 100.0 * rate == percent;
    assert extreme * (1.0 - rate) == extreme - extreme * rate && extreme * (1.0 + rate) == extreme + extreme * rate;
    assert 100.0 * (extreme * rate) == (100.0 * rate) * extreme;
  }

  ghost predicate Positive(bars: seq<Bar>) {
    forall j :: 0 <= j < |bars| ==> bars[j].high > 0.0 && bars[j].low > 0.0
  }

  /** Bar i is the first to reach the extreme of bars lo..hi. */
  ghost predicate Extreme(bars: seq<Bar>, kind: Kind, lo: nat, hi: nat, i: nat) {
    && lo <= i <= hi < |bars|
    && (forall j :: lo <= j <= hi ==> !Better(kind, Price(bars[j], kind), Price(bars[i], kind)))
    && (forall j :: lo <= j < i ==> Better(kind, Price(bars[i], kind), Price(bars[j], kind)))
  }

  /** In a leg that starts at bar lo, bar c confirms the extreme at bar i. */
  ghost predicate Turn(bars: seq<Bar>, percent: real, kind: Kind, lo: nat, c: nat, i: nat) {
    i < c && Extreme(bars, kind, lo, c, i) && Retraces(percent, kind, Price(bars[i], kind), bars[c])
  }

  /** In the first leg, whose direction is still open, bar c confirms; a high wins over a low. */
  ghost predicate FirstTurn(bars: seq<Bar>, percent: real, kind: Kind, c: nat, i: nat) {
    && 1 <= c && Extreme(bars, kind, 0, c, i) && Retraces(percent, kind, Price(bars[i], kind), bars[c])
    && (kind == Low ==>
          forall h: nat :: Extreme(bars, High, 0, c, h) ==> !Retraces(percent, High, bars[h].high, bars[c]))
  }

  /** No bar before `end` confirms in the leg that starts at lo. */
  ghost predicate NoTurn(bars: seq<Bar>, percent: real, kind: Kind, lo: nat, end: nat) {
    forall c: nat, i: nat :: c < end ==> !Turn(bars, percent, kind, lo, c, i)
  }

  ghost predicate NoFirstTurn(bars: seq<Bar>, percent: real, end: nat) {
    forall kind, c: nat, i: nat :: c < end ==> !FirstTurn(bars, percent, kind, c, i)
  }

  /** Where the leg that ends at pivot k starts: right after the bar that confirmed the pivot before it. */
  ghost function LegStart(confirms: seq<nat>, k: nat): nat
    requires k <= |confirms|
  {
    if k == 0 then 0 else confirms[k - 1] + 1
  }

  /** Pivot k is confirmed by bar confirms[k], and by no earlier bar of its leg. */
  ghost predicate Confirmed(bars: seq<Bar>, percent: real, pivots: seq<Pivot>, confirms: seq<nat>, k: nat)
    requires k < |confirms| <= |pivots|
  {
    var p, c := pivots[k], confirms[k];
    && c < |bars|
    && if k == 0 then FirstTurn(bars, percent, p.kind, c, p.index) && NoFirstTurn(bars, percent, c)
       else
         && p.kind == pivots[k - 1].kind.Other()
         && Turn(bars, percent, p.kind, LegStart(confirms, k), c, p.index)
         && NoTurn(bars, percent, p.kind, LegStart(confirms, k), c)
  }

  ghost predicate Labelled(bars: seq<Bar>, p: Pivot) {
    p.index < |bars| && p.price == Price(bars[p.index], p.kind)
  }

  ghost predicate Prefix(bars: seq<Bar>, percent: real, pivots: seq<Pivot>, confirms: seq<nat>) {
    && |confirms| <= |pivots|
    && (forall k :: 0 <= k < |pivots| ==> Labelled(bars, pivots[k]))
    && (forall k :: 0 <= k < |confirms| ==> Confirmed(bars, percent, pivots, confirms, k))
  }

  /** The last leg has no confirming bar; its extreme so far is the tail pivot, if it has any bar. */
  ghost predicate Tail(bars: seq<Bar>, percent: real, pivots: seq<Pivot>, confirms: seq<nat>)
    requires |confirms| <= |pivots|
  {
    var m := |confirms|;
    if m == 0 then pivots == [] && NoFirstTurn(bars, percent, |bars|)
    else if LegStart(confirms, m) >= |bars| then |pivots| == m
    else
      && |pivots| == m + 1
      && pivots[m].kind == pivots[m - 1].kind.Other()
      && Extreme(bars, pivots[m].kind, LegStart(confirms, m), |bars| - 1, pivots[m].index)
      && NoTurn(bars, percent, pivots[m].kind, LegStart(confirms, m), |bars|)
  }

  ghost predicate IsZigZag(bars: seq<Bar>, percent: real, pivots: seq<Pivot>, confirms: seq<nat>) {
    Prefix(bars, percent, pivots, confirms) && Tail(bars, percent, pivots, confirms)
  }

  /** The pivots of a series: some choice of confirming bars makes them a ZigZag. */
  ghost predicate ArePivots(bars: seq<Bar>, percent: real, pivots: seq<Pivot>) {
    exists confirms :: IsZigZag(bars, percent, pivots, confirms)
  }

  // ---------------------------------------------------------------------------
  // Extremes
  // ---------------------------------------------------------------------------

  lemma ExtremeUnique(bars: seq<Bar>, kind: Kind, lo: nat, hi: nat, i: nat, j: nat)
    requires Extreme(bars, kind, lo, hi, i) && Extreme(bars, kind, lo, hi, j)
    ensures i == j
  {
    assert !Better(kind, Price(bars[i], kind), Price(bars[j], kind));
    assert !Better(kind, Price(bars[j], kind), Price(bars[i], kind));
  }

  /** One more bar either becomes the extreme or leaves it. */
  lemma ExtremeStep(bars: seq<Bar>, kind: Kind, lo: nat, hi: nat, i: nat)
    requires Extreme(bars, kind, lo, hi, i) && hi + 1 < |bars|
    ensures if Better(kind, Price(bars[hi + 1], kind), Price(bars[i], kind))
            then Extreme(bars, kind, lo, hi + 1, hi + 1) else Extreme(bars, kind, lo, hi + 1, i)
  {
  }

  lemma NoFirstTurnStep(bars: seq<Bar>, percent: real, c: nat, h: nat, l: nat)
    requires NoFirstTurn(bars, percent, c)
    requires Extreme(bars, High, 0, c, h) && Extreme(bars, Low, 0, c, l)
    requires !Retraces(percent, High, bars[h].high, bars[c]) && !Retraces(percent, Low, bars[l].low, bars[c])
    ensures NoFirstTurn(bars, percent, c + 1)
  {
    forall kind, c': nat, i: nat | c' < c + 1
      ensures !FirstTurn(bars, percent, kind, c', i)
    {
      if c' == c && Extreme(bars, kind, 0, c, i) {
        ExtremeUnique(bars, kind, 0, c, i, if kind == High then h else l);
      }
    }
  }

  lemma NoTurnStep(bars: seq<Bar>, percent: real, kind: Kind, lo: nat, c: nat, i: nat)
    requires NoTurn(bars, percent, kind, lo, c) && Extreme(bars, kind, lo, c, i)
    requires i == c || !Retraces(percent, kind, Price(bars[i], kind), bars[c])
    ensures NoTurn(bars, percent, kind, lo, c + 1)
  {
    forall c': nat, j: nat | c' < c + 1
      ensures !Turn(bars, percent, kind, lo, c', j)
    {
      if c' == c && Extreme(bars, kind, lo, c, j) {
        ExtremeUnique(bars, kind, lo, c, i, j);
      }
    }
  }

  /** A leg starts with its own first bar as extreme and nothing confirmed. */
  lemma LegBegins(bars: seq<Bar>, percent: real, kind: Kind, lo: nat)
    requires lo < |bars|
    ensures Extreme(bars, kind, lo, lo, lo) && NoTurn(bars, percent, kind, lo, lo + 1)
  {
    forall c: nat, i: nat | c < lo + 1
      ensures !Turn(bars, percent, kind, lo, c, i)
    {
    }
  }

  lemma PushConfirmed(bars: seq<Bar>, percent: real, pivots: seq<Pivot>, confirms: seq<nat>, p: Pivot, c: nat)
    requires Prefix(bars, percent, pivots, confirms) && |pivots| == |confirms|
    requires Labelled(bars, p) && c < |bars|
    requires if pivots == [] then FirstTurn(bars, percent, p.kind, c, p.index) && NoFirstTurn(bars, percent, c)
             else
               && p.kind == pivots[|pivots| - 1].kind.Other()
               && Turn(bars, percent, p.kind, LegStart(confirms, |confirms|), c, p.index)
               && NoTurn(bars, percent, p.kind, LegStart(confirms, |confirms|), c)
    ensures Prefix(bars, percent, pivots + [p], confirms + [c])
  {
    var pivots', confirms' := pivots + [p], confirms + [c];
    forall k | 0 <= k < |confirms'|
      ensures Confirmed(bars, percent, pivots', confirms', k)
    {
      if k < |confirms| {
        assert Confirmed(bars, percent, pivots, confirms, k);
        assert LegStart(confirms', k) == LegStart(confirms, k);
      } else {
        assert LegStart(confirms', k) == LegStart(confirms, k);
      }
    }
  }

  // ---------------------------------------------------------------------------
  // The loop
  // ---------------------------------------------------------------------------

  /** The swing in progress: its extreme is known, unless the leg has no bar yet. */
  ghost predicate Tracking(bars: seq<Bar>, percent: real, kind: Kind, lo: nat, index: nat, swIdx: nat, sw: real) {
    if index == lo then sw == 0.0
    else
      && lo < index && Extreme(bars, kind, lo, index - 1, swIdx) && sw == Price(bars[swIdx], kind)
      && NoTurn(bars, percent, kind, lo, index)
  }

  /** Pivots are labelled with their bar's price, alternate in kind and move forward in time. */
  ghost predicate Swings(bars: seq<Bar>, pivots: seq<Pivot>) {
    && (forall k :: 0 <= k < |pivots| ==> Labelled(bars, pivots[k]))
    && (forall k :: 0 < k < |pivots| ==>
          pivots[k - 1].index < pivots[k].index && pivots[k].kind == pivots[k - 1].kind.Other())
  }

  lemma PushSwing(bars: seq<Bar>, pivots: seq<Pivot>, p: Pivot)
    requires Swings(bars, pivots) && Labelled(bars, p)
    requires pivots != [] ==> pivots[|pivots| - 1].index < p.index && p.kind == pivots[|pivots| - 1].kind.Other()
    ensures Swings(bars, pivots + [p])
  {
  }

  /** The pivots found so far, with the bars that confirmed them. */
  ghost predicate Found(bars: seq<Bar>, percent: real, pivots: seq<Pivot>, confirms: seq<nat>) {
    && Swings(bars, pivots) && |pivots| == |confirms|
    && (pivots != [] ==> pivots[|pivots| - 1].index < LegStart(confirms, |confirms|))
    && (Positive(bars) ==> Prefix(bars, percent, pivots, confirms))
  }

  /** The swing in progress: once set it is a bar of its leg, and for positive prices the leg's extreme. */
  ghost predicate Swing(bars: seq<Bar>, percent: real, kind: Kind, lo: nat, index: nat, swIdx: nat, sw: real) {
    && (sw != 0.0 ==> lo <= swIdx < index <= |bars| && sw == Price(bars[swIdx], kind))
    && (Positive(bars) ==> Tracking(bars, percent, kind, lo, index, swIdx, sw))
  }

  /** Bar c ends the leg: its swing is a pivot. */
  ghost predicate EndsLeg(bars: seq<Bar>, percent: real, kind: Kind, lo: nat, c: nat, i: nat) {
    && lo <= i < c < |bars|
    && (Positive(bars) ==> Turn(bars, percent, kind, lo, c, i) && NoTurn(bars, percent, kind, lo, c))
  }

  /** What one bar does to the swing: set it, move it, end its leg, or nothing. */
  lemma SwingStep(bars: seq<Bar>, percent: real, kind: Kind, lo: nat, index: nat, swIdx: nat, sw: real)
    requires index < |bars| && lo <= index && Swing(bars, percent, kind, lo, index, swIdx, sw)
    ensures var x := Price(bars[index], kind);
            && (sw == 0.0 || Better(kind, x, sw) ==> Swing(bars, percent, kind, lo, index + 1, index, x))
            && (!Better(kind, x, sw) && (sw != 0.0 || kind == High) ==>
                  if sw > 0.0 && Retraces(percent, kind, sw, bars[index])
                  then EndsLeg(bars, percent, kind, lo, index, swIdx) && sw == Price(bars[swIdx], kind)
                  else Swing(bars, percent, kind, lo, index + 1, swIdx, sw))
  {
    if Positive(bars) {
      TrackingStep(bars, percent, kind, lo, index, swIdx, sw);
    }
  }

  lemma FirstFound(bars: seq<Bar>, percent: real, p: Pivot, c: nat)
    requires Labelled(bars, p) && p.index <= c < |bars|
    requires FirstTurn(bars, percent, p.kind, c, p.index) && NoFirstTurn(bars, percent, c)
    ensures Found(bars, percent, [p], [c]) && LegStart([c], 1) == c + 1
  {
    hide FirstTurn, NoFirstTurn, Positive;
    assert Prefix(bars, percent, [], []);
    PushConfirmed(bars, percent, [], [], p, c);
    hide Prefix;
    assert [] + [p] == [p] && [] + [c] == [c];
  }

  lemma NextFound(bars: seq<Bar>, percent: real, pivots: seq<Pivot>, confirms: seq<nat>, p: Pivot, c: nat)
    requires Found(bars, percent, pivots, confirms) && pivots != [] && Labelled(bars, p)
    requires p.kind == pivots[|pivots| - 1].kind.Other()
    requires EndsLeg(bars, percent, p.kind, LegStart(confirms, |confirms|), c, p.index)
    ensures Found(bars, percent, pivots + [p], confirms + [c])
    ensures LegStart(confirms + [c], |confirms| + 1) == c + 1
  {
    PushSwing(bars, pivots, p);
    if Positive(bars) {
      PushConfirmed(bars, percent, pivots, confirms, p, c);
    }
  }

  /** The loop before bar `index` while no pivot has been found. */
  ghost predicate Undecided(
    bars: seq<Bar>, percent: real, index: nat, highIdx: nat, high: real, lowIdx: nat, low: real)
  {
    && 1 <= index <= |bars|
    && Extreme(bars, High, 0, index - 1, highIdx) && high == bars[highIdx].high
    && Extreme(bars, Low, 0, index - 1, lowIdx) && low == bars[lowIdx].low
    && NoFirstTurn(bars, percent, index)
  }

  /** The loop before bar `index` in a leg towards a pivot of this kind. */
  ghost predicate InLeg(
    bars: seq<Bar>, percent: real, pivots: seq<Pivot>, confirms: seq<nat>, kind: Kind, index: nat, swIdx: nat, sw: real)
  {
    && Found(bars, percent, pivots, confirms) && pivots != [] && pivots[|pivots| - 1].kind == kind.Other()
    && LegStart(confirms, |confirms|) <= index <= |bars|
    && Swing(bars, percent, kind, LegStart(confirms, |confirms|), index, swIdx, sw)
  }

  /** The first leg and one more bar, with the extremes it leaves. */
  lemma UndecidedStep(
    bars: seq<Bar>, percent: real, index: nat, h: nat, high: real, l: nat, low: real,
    h': nat, high': real, l': nat, low': real)
    requires index < |bars| && Undecided(bars, percent, index, h, high, l, low)
    requires if bars[index].high > high then h' == index && high' == bars[index].high else h' == h && high' == high
    requires if bars[index].low < low then l' == index && low' == bars[index].low else l' == l && low' == low
    ensures Retraces(percent, High, high', bars[index]) ==>
              InLeg(bars, percent, [Pivot(h', high', High)], [index], Low, index + 1, l', 0.0)
    ensures !Retraces(percent, High, high', bars[index]) && Retraces(percent, Low, low', bars[index]) ==>
              InLeg(bars, percent, [Pivot(l', low', Low)], [index], High, index + 1, h', 0.0)
    ensures !Retraces(percent, High, high', bars[index]) && !Retraces(percent, Low, low', bars[index]) ==>
              Undecided(bars, percent, index + 1, h', high', l', low')
  {
    hide Found, Swing, NoFirstTurn, FirstTurn, Retraces, Extreme;
    ExtremeBounds(bars, High, 0, index - 1, h);
    ExtremeBounds(bars, Low, 0, index - 1, l);
    FirstLegStep(bars, index, h, l);
    if Retraces(percent, High, high', bars[index]) {
      FirstTurnHigh(bars, percent, index, h');
      FirstFound(bars, percent, Pivot(h', high', High), index);
      NewSwing(bars, percent, Low, index + 1, l');
    } else if Retraces(percent, Low, low', bars[index]) {
      FirstTurnLow(bars, percent, index, h', l');
      FirstFound(bars, percent, Pivot(l', low', Low), index);
      NewSwing(bars, percent, High, index + 1, h');
    } else {
      NoFirstTurnStep(bars, percent, index, h', l');
    }
  }

  lemma NewSwing(bars: seq<Bar>, percent: real, kind: Kind, lo: nat, swIdx: nat)
    ensures Swing(bars, percent, kind, lo, lo, swIdx, 0.0)
  {
  }

  /** A leg and one more bar. */
  lemma LegStep(
    bars: seq<Bar>, percent: real, pivots: seq<Pivot>, confirms: seq<nat>, kind: Kind, index: nat, swIdx: nat, sw: real,
    other: nat)
    requires index < |bars| && InLeg(bars, percent, pivots, confirms, kind, index, swIdx, sw)
    ensures var x := Price(bars[index], kind);
            && (sw == 0.0 || Better(kind, x, sw) ==>
                  InLeg(bars, percent, pivots, confirms, kind, index + 1, index, x))
            && (!Better(kind, x, sw) && (sw != 0.0 || kind == High) ==>
                  if sw > 0.0 && Retraces(percent, kind, sw, bars[index])
                  then InLeg(bars, percent, pivots + [Pivot(swIdx, sw, kind)], confirms + [index], kind.Other(),
                             index + 1, other, 0.0)
                  else InLeg(bars, percent, pivots, confirms, kind, index + 1, swIdx, sw))
  {
    hide Found, Swing, Retraces, Better, LegStart;
    var lo := LegStart(confirms, |confirms|);
    SwingStep(bars, percent, kind, lo, index, swIdx, sw);
    var x := Price(bars[index], kind);
    if !Better(kind, x, sw) && sw > 0.0 && Retraces(percent, kind, sw, bars[index]) {
      FoundCount(bars, percent, pivots, confirms);
      NextFound(bars, percent, pivots, confirms, Pivot(swIdx, sw, kind), index);
      NewSwing(bars, percent, kind.Other(), index + 1, other);
    }
  }

  lemma FoundCount(bars: seq<Bar>, percent: real, pivots: seq<Pivot>, confirms: seq<nat>)
    requires Found(bars, percent, pivots, confirms)
    ensures |confirms| == |pivots|
  {
  }

  /**
   The pivots of the series: one pass, one direction flag and the running extremes.  The value 0.0
   marks an extreme not yet set, so that the pivots are those of the specification for positive prices.
   */
  method ZigzagPivots(bars: seq<Bar>, percent: real) returns (pivots: seq<Pivot>)
    ensures Swings(bars, pivots)
    ensures Positive(bars) ==> ArePivots(bars, percent, pivots)
  {
    pivots := [];
    ghost var confirms: seq<nat> := [];
    if bars == [] {
      NoBars(percent);
      return;
    }
    var direction := 0;
    var swHighIdx, swHigh := 0, bars[0].high;
    var swLowIdx, swLow := 0, bars[0].low;
    FirstLegBegins(bars, percent);
    hide InLeg, Undecided, Retraces, Better, Positive, ArePivots, Swings;
    for index := 1 to |bars|
      invariant -1 <= direction <= 1 && (direction == 0 ==> pivots == [] && confirms == [])
      invariant direction == 0 ==> Undecided(bars, percent, index, swHighIdx, swHigh, swLowIdx, swLow)
      invariant direction == 1 ==> InLeg(bars, percent, pivots, confirms, High, index, swHighIdx, swHigh)
      invariant direction == -1 ==> InLeg(bars, percent, pivots, confirms, Low, index, swLowIdx, swLow)
    {
      var high, low := bars[index].high, bars[index].low;
      if direction == 0 {
        ghost var h, h0, l, l0 := swHighIdx, swHigh, swLowIdx, swLow;
        if high > swHigh {
          swHighIdx, swHigh := index, high;
        }
        if low < swLow {
          swLowIdx, swLow := index, low;
        }
        UndecidedStep(bars, percent, index, h, h0, l, l0, swHighIdx, swHigh, swLowIdx, swLow);
        if Retraces(percent, High, swHigh, bars[index]) {
          pivots, confirms := pivots + [Pivot(swHighIdx, swHigh, High)], [index];
          assert pivots == [Pivot(swHighIdx, swHigh, High)];
          direction := -1;
          swHigh := 0.0;
          swLow := 0.0;
        } else if Retraces(percent, Low, swLow, bars[index]) {
          pivots, confirms := pivots + [Pivot(swLowIdx, swLow, Low)], [index];
          assert pivots == [Pivot(swLowIdx, swLow, Low)];
          direction := 1;
          swHigh := 0.0;
          swLow := 0.0;
        }
      } else if direction == 1 {
        LegStep(bars, percent, pivots, confirms, High, index, swHighIdx, swHigh, swLowIdx);
        BetterMeaning(high, swHigh);
        if high > swHigh {
          swHighIdx, swHigh := index, high;
        } else if swHigh > 0.0 && Retraces(percent, High, swHigh, bars[index]) {
          pivots, confirms := pivots + [Pivot(swHighIdx, swHigh, High)], confirms + [index];
          direction := -1;
          swLow := 0.0;
          swHigh := 0.0;
        }
      } else {
        LegStep(bars, percent, pivots, confirms, Low, index, swLowIdx, swLow, swHighIdx);
        BetterMeaning(low, swLow);
        if swLow == 0.0 {
          swLowIdx, swLow := index, low;
        } else if low < swLow {
          swLowIdx, swLow := index, low;
        } else if swLow > 0.0 && Retraces(percent, Low, swLow, bars[index]) {
          pivots, confirms := pivots + [Pivot(swLowIdx, swLow, Low)], confirms + [index];
          direction := 1;
          swHigh := 0.0;
          swLow := 0.0;
        }
      }
    }
    if direction == 0 {
      NeverTurned(bars, percent, swHighIdx, swHigh, swLowIdx, swLow);
    } else if direction == 1 {
      Finished(bars, percent, pivots, confirms, High, swHighIdx, swHigh);
    } else {
      Finished(bars, percent, pivots, confirms, Low, swLowIdx, swLow);
    }
    if direction == 1 && swHigh > 0.0 {
      pivots := pivots + [Pivot(swHighIdx, swHigh, High)];
    } else if direction == -1 && swLow > 0.0 {
      pivots := pivots + [Pivot(swLowIdx, swLow, Low)];
    }
  }

  lemma Finished(
    bars: seq<Bar>, percent: real, pivots: seq<Pivot>, confirms: seq<nat>, kind: Kind, swIdx: nat, sw: real)
    requires InLeg(bars, percent, pivots, confirms, kind, |bars|, swIdx, sw)
    ensures var all := if sw > 0.0 then pivots + [Pivot(swIdx, sw, kind)] else pivots;
            Swings(bars, all) && (Positive(bars) ==> ArePivots(bars, percent, all))
  {
    if sw > 0.0 {
      PushSwing(bars, pivots, Pivot(swIdx, sw, kind));
    }
    if Positive(bars) {
      CloseTail(bars, percent, pivots, confirms, kind, swIdx, sw);
    }
  }

  /** The swing left open at the end of the series becomes the tail pivot, if it has any bar. */
  lemma CloseTail(
    bars: seq<Bar>, percent: real, pivots: seq<Pivot>, confirms: seq<nat>, kind: Kind, swIdx: nat, sw: real)
    requires Positive(bars) && Prefix(bars, percent, pivots, confirms) && |pivots| == |confirms| > 0
    requires pivots[|pivots| - 1].kind == kind.Other()
    requires Tracking(bars, percent, kind, LegStart(confirms, |confirms|), |bars|, swIdx, sw)
    ensures IsZigZag(bars, percent, if sw > 0.0 then pivots + [Pivot(swIdx, sw, kind)] else pivots, confirms)
  {
    if sw > 0.0 {
      var pivots' := pivots + [Pivot(swIdx, sw, kind)];
      forall k | 0 <= k < |confirms|
        ensures Confirmed(bars, percent, pivots', confirms, k)
      {
        assert Confirmed(bars, percent, pivots, confirms, k);
      }
    }
  }

  // ---------------------------------------------------------------------------
  // What the specification gives a reader, and that it leaves no choice
  // ---------------------------------------------------------------------------

  /** Kinds alternate, indices increase, and each confirming bar lies between its pivot and the next. */
  lemma ZigZagShape(bars: seq<Bar>, percent: real, pivots: seq<Pivot>, confirms: seq<nat>, k: nat)
    requires IsZigZag(bars, percent, pivots, confirms) && k < |pivots|
    ensures pivots[k].index < |bars| && pivots[k].price == Price(bars[pivots[k].index], pivots[k].kind)
    ensures k < |confirms| ==>
              && pivots[k].index <= confirms[k] < |bars|
              && Retraces(percent, pivots[k].kind, pivots[k].price, bars[confirms[k]])
              && Extreme(bars, pivots[k].kind, LegStart(confirms, k), confirms[k], pivots[k].index)
    ensures k + 1 < |pivots| ==>
              && k < |confirms| && confirms[k] < pivots[k + 1].index && pivots[k].index < pivots[k + 1].index
              && pivots[k + 1].kind == pivots[k].kind.Other()
  {
    assert Labelled(bars, pivots[k]);
    if k < |confirms| {
      assert Confirmed(bars, percent, pivots, confirms, k);
    }
    if k + 1 < |confirms| {
      assert Confirmed(bars, percent, pivots, confirms, k + 1);
    }
  }

  /** The k-th confirmation is forced by the ones before it. */
  lemma SameConfirmation(
    bars: seq<Bar>, percent: real, a: seq<Pivot>, ca: seq<nat>, b: seq<Pivot>, cb: seq<nat>, k: nat)
    requires Prefix(bars, percent, a, ca) && Prefix(bars, percent, b, cb)
    requires k < |ca| && k < |cb| && (k > 0 ==> a[k - 1] == b[k - 1] && ca[k - 1] == cb[k - 1])
    ensures a[k] == b[k] && ca[k] == cb[k]
  {
    assert Confirmed(bars, percent, a, ca, k) && Confirmed(bars, percent, b, cb, k);
    assert Labelled(bars, a[k]) && Labelled(bars, b[k]);
    var lo := LegStart(ca, k);
    assert ca[k] == cb[k];
    if k == 0 {
      assert a[k].kind == b[k].kind;
    }
    ExtremeUnique(bars, a[k].kind, lo, ca[k], a[k].index, b[k].index);
  }

  lemma {:induction false} SamePrefix(
    bars: seq<Bar>, percent: real, a: seq<Pivot>, ca: seq<nat>, b: seq<Pivot>, cb: seq<nat>, k: nat)
    requires Prefix(bars, percent, a, ca) && Prefix(bars, percent, b, cb) && k <= |ca| && k <= |cb|
    ensures a[..k] == b[..k] && ca[..k] == cb[..k]
    ensures k > 0 ==> a[k - 1] == b[k - 1] && ca[k - 1] == cb[k - 1]
  {
    if k > 0 {
      SamePrefix(bars, percent, a, ca, b, cb, k - 1);
      SameConfirmation(bars, percent, a, ca, b, cb, k - 1);
      assert a[..k] == a[..k - 1] + [a[k - 1]] && b[..k] == b[..k - 1] + [b[k - 1]];
      assert ca[..k] == ca[..k - 1] + [ca[k - 1]] && cb[..k] == cb[..k - 1] + [cb[k - 1]];
    }
  }

  ghost function NextKind(pivots: seq<Pivot>, m: nat): Kind
    requires m <= |pivots|
  {
    if m == 0 then High else pivots[m - 1].kind.Other()
  }

  /** Some bar confirms in the leg that starts at lo. */
  ghost predicate CanConfirm(bars: seq<Bar>, percent: real, first: bool, kind: Kind, lo: nat) {
    if first then exists k, c: nat, i: nat :: c < |bars| && FirstTurn(bars, percent, k, c, i)
    else exists c: nat, i: nat :: c < |bars| && Turn(bars, percent, kind, lo, c, i)
  }

  lemma ConfirmedCan(bars: seq<Bar>, percent: real, pivots: seq<Pivot>, confirms: seq<nat>, m: nat)
    requires Prefix(bars, percent, pivots, confirms) && m < |confirms|
    ensures CanConfirm(bars, percent, m == 0, NextKind(pivots, m), LegStart(confirms, m))
  {
    assert Confirmed(bars, percent, pivots, confirms, m);
  }

  lemma TailCannot(bars: seq<Bar>, percent: real, pivots: seq<Pivot>, confirms: seq<nat>)
    requires IsZigZag(bars, percent, pivots, confirms)
    ensures !CanConfirm(bars, percent, |confirms| == 0, NextKind(pivots, |confirms|), LegStart(confirms, |confirms|))
  {
  }

  /** A series cannot end in an unconfirmed leg for one and have that leg confirmed for the other. */
  lemma NoMoreConfirmations(bars: seq<Bar>, percent: real, a: seq<Pivot>, ca: seq<nat>, b: seq<Pivot>, cb: seq<nat>)
    requires IsZigZag(bars, percent, a, ca) && IsZigZag(bars, percent, b, cb)
    ensures |cb| <= |ca|
  {
    var m := |ca|;
    if m < |cb| {
      SamePrefix(bars, percent, a, ca, b, cb, m);
      ConfirmedCan(bars, percent, b, cb, m);
      TailCannot(bars, percent, a, ca);
      assert false;
    }
  }

  /** The specification leaves no choice: a series has one list of pivots. */
  lemma ZigZagUnique(bars: seq<Bar>, percent: real, a: seq<Pivot>, ca: seq<nat>, b: seq<Pivot>, cb: seq<nat>)
    requires IsZigZag(bars, percent, a, ca) && IsZigZag(bars, percent, b, cb)
    ensures a == b && ca == cb
  {
    NoMoreConfirmations(bars, percent, a, ca, b, cb);
    NoMoreConfirmations(bars, percent, b, cb, a, ca);
    var m := |ca|;
    SamePrefix(bars, percent, a, ca, b, cb, m);
    assert ca == ca[..m] && cb == cb[..m];
    if m > 0 && LegStart(ca, m) < |bars| {
      assert a[m - 1] == a[..m][m - 1] == b[..m][m - 1] == b[m - 1];
      ExtremeUnique(bars, a[m].kind, LegStart(ca, m), |bars| - 1, a[m].index, b[m].index);
      assert Labelled(bars, a[m]) && Labelled(bars, b[m]);
      assert a == a[..m] + [a[m]] && b == b[..m] + [b[m]];
    } else {
      assert a == a[..m] && b == b[..m];
    }
  }

  lemma NeverTurned(bars: seq<Bar>, percent: real, h: nat, high: real, l: nat, low: real)
    requires Undecided(bars, percent, |bars|, h, high, l, low)
    ensures Swings(bars, []) && ArePivots(bars, percent, [])
  {
    assert IsZigZag(bars, percent, [], []);
  }

  lemma NoBars(percent: real)
    ensures ArePivots([], percent, [])
  {
    assert IsZigZag([], percent, [], []);
  }

  lemma FirstLegBegins(bars: seq<Bar>, percent: real)
    requires bars != []
    ensures Undecided(bars, percent, 1, 0, bars[0].high, 0, bars[0].low)
  {
  }

  lemma ExtremeBounds(bars: seq<Bar>, kind: Kind, lo: nat, hi: nat, i: nat)
    requires Extreme(bars, kind, lo, hi, i)
    ensures lo <= i <= hi < |bars|
  {
  }

  lemma FirstLegStep(bars: seq<Bar>, index: nat, h: nat, l: nat)
    requires 1 <= index < |bars| && Extreme(bars, High, 0, index - 1, h) && Extreme(bars, Low, 0, index - 1, l)
    ensures Extreme(bars, High, 0, index, if bars[index].high > bars[h].high then index else h)
    ensures Extreme(bars, Low, 0, index, if bars[index].low < bars[l].low then index else l)
  {
    ExtremeStep(bars, High, 0, index - 1, h);
    ExtremeStep(bars, Low, 0, index - 1, l);
  }

  lemma FirstTurnHigh(bars: seq<Bar>, percent: real, c: nat, h: nat)
    requires 1 <= c && Extreme(bars, High, 0, c, h) && Retraces(percent, High, bars[h].high, bars[c])
    ensures FirstTurn(bars, percent, High, c, h)
  {
  }

  lemma FirstTurnLow(bars: seq<Bar>, percent: real, c: nat, h: nat, l: nat)
    requires 1 <= c && Extreme(bars, High, 0, c, h) && Extreme(bars, Low, 0, c, l)
    requires !Retraces(percent, High, bars[h].high, bars[c]) && Retraces(percent, Low, bars[l].low, bars[c])
    ensures FirstTurn(bars, percent, Low, c, l)
  {
    forall h': nat | Extreme(bars, High, 0, c, h')
      ensures !Retraces(percent, High, bars[h'].high, bars[c])
    {
      ExtremeUnique(bars, High, 0, c, h, h');
    }
  }

  lemma BetterMeaning(x: real, y: real)
    ensures Better(High, x, y) == (x > y) && Better(Low, x, y) == (x < y)
  {
  }

  /** What one bar does to the swing in progress: start it, move its extreme, confirm it, or nothing. */
  lemma TrackingStep(bars: seq<Bar>, percent: real, kind: Kind, lo: nat, index: nat, swIdx: nat, sw: real)
    requires Positive(bars) && index < |bars| && Tracking(bars, percent, kind, lo, index, swIdx, sw)
    ensures var x := Price(bars[index], kind);
            && x > 0.0
            && (sw == 0.0 <==> index == lo)
            && (sw == 0.0 || Better(kind, x, sw) ==> Tracking(bars, percent, kind, lo, index + 1, index, x))
            && (sw != 0.0 && !Better(kind, x, sw) ==>
                  && swIdx < |bars| && sw == Price(bars[swIdx], kind) && sw > 0.0
                  && NoTurn(bars, percent, kind, lo, index)
                  && if Retraces(percent, kind, sw, bars[index])
                     then Turn(bars, percent, kind, lo, index, swIdx)
                     else Tracking(bars, percent, kind, lo, index + 1, swIdx, sw))
  {
    if index == lo {
      LegBegins(bars, percent, kind, lo);
    } else {
      ExtremeStep(bars, kind, lo, index - 1, swIdx);
      var x := Price(bars[index], kind);
      if Better(kind, x, sw) {
        NoTurnStep(bars, percent, kind, lo, index, index);
      } else if !Retraces(percent, kind, sw, bars[index]) {
        NoTurnStep(bars, percent, kind, lo, index, swIdx);
      }
    }
  }

  lemma PivotsUnique(bars: seq<Bar>, percent: real, a: seq<Pivot>, b: seq<Pivot>)
    requires ArePivots(bars, percent, a) && ArePivots(bars, percent, b)
    ensures a == b
  {
    var ca :| IsZigZag(bars, percent, a, ca);
    var cb :| IsZigZag(bars, percent, b, cb);
    ZigZagUnique(bars, percent, a, ca, b, cb);
  }
}

/** The segments between pivots, and the merging of those that are too short. */
module Segments {
  import opened Wrappers
  import opened ZigZag

  datatype Direction = Up | Down | Merged

  datatype Segment = Segment(start: nat, end: nat, direction: Direction)

  /** End to end from bar a to bar b, without gap or overlap. */
  ghost predicate Tiling(segs: seq<Segment>, a: nat, b: nat) {
    && segs != [] && segs[0].start == a && segs[|segs| - 1].end == b
    && forall k :: 0 < k < |segs| ==> segs[k - 1].end == segs[k].start
  }

  function Leg(kind: Kind): Direction {
    if kind == High then Up else Down
  }

  /** One segment per pivot: from bar 0 to the first, then from pivot to pivot, rising into highs. */
  function SegmentsOf(pivots: seq<Pivot>): seq<Segment> {
    if pivots == [] then []
    else
      var n := |pivots| - 1;
      SegmentsOf(pivots[..n])
      + [Segment(if n == 0 then 0 else pivots[n - 1].index, pivots[n].index, LegInto(pivots, n))]
  }

  function LegInto(pivots: seq<Pivot>, k: nat): Direction
    requires k < |pivots|
  {
    if k == 0 then Leg(pivots[0].kind) else Leg(pivots[k - 1].kind.Other())
  }

  method BuildSegments(pivots: seq<Pivot>) returns (segs: seq<Segment>)
    ensures segs == SegmentsOf(pivots)
  {
    segs := [];
    if pivots == [] {
      return;
    }
    var previous := pivots[0];
    segs := [Segment(0, previous.index, if previous.kind == High then Up else Down)];
    assert pivots[..1][..0] == [];
    for k := 1 to |pivots|
      invariant previous == pivots[k - 1] && segs == SegmentsOf(pivots[..k])
    {
      var current := pivots[k];
      var direction := if previous.kind == High then Down else Up;
      segs := segs + [Segment(previous.index, current.index, direction)];
      previous := current;
      assert pivots[..k + 1][..k] == pivots[..k];
    }
    assert pivots[..|pivots|] == pivots;
  }

  lemma {:induction false} SegmentAt(pivots: seq<Pivot>, k: nat)
    requires k < |pivots|
    ensures |SegmentsOf(pivots)| == |pivots|
    ensures SegmentsOf(pivots)[k]
         == Segment(if k == 0 then 0 else pivots[k - 1].index, pivots[k].index, LegInto(pivots, k))
  {
    var n := |pivots| - 1;
    if n > 0 {
      SegmentAt(pivots[..n], if k < n then k else n - 1);
    }
  }

  /** The segments of a swing series tile the bars up to the last pivot, run forward, and alternate up and down. */
  lemma {:induction false} SwingSegments(bars: seq<Bar>, pivots: seq<Pivot>)
    requires Swings(bars, pivots) && pivots != []
    ensures var segs := SegmentsOf(pivots);
            && |segs| == |pivots| && Tiling(segs, 0, pivots[|pivots| - 1].index)
            && InRange(bars, segs) && Forward(segs)
            && forall k :: 0 <= k < |pivots| ==>
                 segs[k].end == pivots[k].index && segs[k].direction == (if pivots[k].kind == High then Up else Down)
  {
    var segs := SegmentsOf(pivots);
    SegmentAt(pivots, 0);
    hide SegmentsOf;
    forall k | 0 <= k < |segs|
      ensures segs[k].start <= segs[k].end < |bars| && segs[k].end == pivots[k].index
      ensures segs[k].direction == Leg(pivots[k].kind)
      ensures segs[k].start == if k == 0 then 0 else pivots[k - 1].index
    {
      SegmentAt(pivots, k);
      assert Labelled(bars, pivots[k]);
    }
    forall k | 0 < k < |segs|
      ensures segs[k - 1].end == segs[k].start
    {
      assert segs[k - 1].end == pivots[k - 1].index;
    }
  }

  // ---------------------------------------------------------------------------
  // Merging short segments
  // ---------------------------------------------------------------------------

  ghost predicate InRange(bars: seq<Bar>, segs: seq<Segment>) {
    forall k :: 0 <= k < |segs| ==> segs[k].start < |bars| && segs[k].end < |bars|
  }

  function Minutes(bars: seq<Bar>, a: nat, b: nat): int
    requires a < |bars| && b < |bars|
  {
    (bars[b].time - bars[a].time) / 60000
  }

  /** A whole number of minutes has passed. */
  lemma MinutesPassed(bars: seq<Bar>, a: nat, b: nat, limit: int)
    requires a < |bars| && b < |bars|
    ensures Minutes(bars, a, b) >= limit <==> bars[b].time - bars[a].time >= 60000 * limit
  {
  }

  /** The first segment shorter than the limit, or |segs| when there is none. */
  function FirstShort(bars: seq<Bar>, segs: seq<Segment>, limit: int): (i: nat)
    requires InRange(bars, segs)
    ensures i <= |segs|
    ensures forall k :: 0 <= k < i ==> Minutes(bars, segs[k].start, segs[k].end) >= limit
    ensures i < |segs| ==> Minutes(bars, segs[i].start, segs[i].end) < limit
  {
    if segs == [] then 0
    else if Minutes(bars, segs[0].start, segs[0].end) < limit then 0
    else
      assert forall k :: 0 < k < |segs| ==> segs[k] == segs[1..][k - 1];
      1 + FirstShort(bars, segs[1..], limit)
  }

  /** Merge segment i with its neighbours on both sides, as far as it has them. */
  function Splice(segs: seq<Segment>, i: nat): (r: seq<Segment>)
    requires i < |segs|
    ensures |r| <= |segs| && (|segs| >= 2 ==> |r| < |segs|)
  {
    var left := if i == 0 then 0 else i - 1;
    var right := if i + 1 < |segs| then i + 1 else |segs| - 1;
    segs[..left] + [Segment(segs[left].start, segs[right].end, Merged)] + segs[right + 1..]
  }

  lemma SpliceKeepsTiling(bars: seq<Bar>, segs: seq<Segment>, i: nat, a: nat, b: nat)
    requires i < |segs| && Tiling(segs, a, b) && InRange(bars, segs)
    ensures Tiling(Splice(segs, i), a, b) && InRange(bars, Splice(segs, i))
  {
    var left := if i == 0 then 0 else i - 1;
    var right := if i + 1 < |segs| then i + 1 else |segs| - 1;
    var r := Splice(segs, i);
    assert forall k :: 0 <= k < left ==> r[k] == segs[k];
    assert r[left] == Segment(segs[left].start, segs[right].end, Merged);
    assert forall k :: left < k < |r| ==> r[k] == segs[k + right - left];
  }

  /** The whole span reaches the limit, so the merging comes to an end. */
  ghost predicate LongEnough(bars: seq<Bar>, segs: seq<Segment>, limit: int, a: nat, b: nat) {
    Tiling(segs, a, b) && InRange(bars, segs) && Minutes(bars, a, b) >= limit
  }

  /** Merge until no segment is short. */
  function MergeAll(bars: seq<Bar>, segs: seq<Segment>, limit: int, a: nat, b: nat): seq<Segment>
    requires LongEnough(bars, segs, limit, a, b)
    decreases |segs|
  {
    var i := FirstShort(bars, segs, limit);
    if i == |segs| then segs
    else
      SpliceKeepsTiling(bars, segs, i, a, b);
      MergeAll(bars, Splice(segs, i), limit, a, b)
  }

  method MergeShortSegments(bars: seq<Bar>, segments: seq<Segment>, limit: int, ghost a: nat, ghost b: nat)
    returns (merged: seq<Segment>)
    requires segments == [] || LongEnough(bars, segments, limit, a, b)
    ensures segments == [] ==> merged == []
    ensures segments != [] ==> merged == MergeAll(bars, segments, limit, a, b)
  {
    merged := segments;
    if segments == [] {
      return;
    }
    while true
      invariant LongEnough(bars, merged, limit, a, b)
      invariant MergeAll(bars, merged, limit, a, b) == MergeAll(bars, segments, limit, a, b)
      decreases |merged|
    {
      var index := 0;
      while index < |merged| && Minutes(bars, merged[index].start, merged[index].end) >= limit
        invariant 0 <= index <= |merged|
        invariant forall k :: 0 <= k < index ==> Minutes(bars, merged[k].start, merged[k].end) >= limit
      {
        index := index + 1;
      }
      assert index == FirstShort(bars, merged, limit);
      if index == |merged| {
        return;
      }
      SpliceKeepsTiling(bars, merged, index, a, b);
      var left := if index == 0 then 0 else index - 1;
      var right := if index + 1 < |merged| then index + 1 else |merged| - 1;
      merged := merged[..left] + [Segment(merged[left].start, merged[right].end, Merged)] + merged[right + 1..];
    }
  }

  // ---------------------------------------------------------------------------
  // What merging keeps and what it achieves
  // ---------------------------------------------------------------------------

  /** `s` spans the consecutive segments i..j: unchanged when it is one, relabelled when it is several. */
  ghost predicate Spans(segs: seq<Segment>, s: Segment, i: nat, j: nat) {
    && i <= j < |segs| && s.start == segs[i].start && s.end == segs[j].end
    && (if i == j then s == segs[i] else s.direction == Merged)
  }

  /** The result groups the original segments in order: group k is firsts[k] .. firsts[k+1]-1. */
  ghost predicate Groups(segs: seq<Segment>, r: seq<Segment>, firsts: seq<nat>) {
    && |firsts| == |r| + 1 && firsts[0] == 0 && firsts[|r|] == |segs|
    && forall k :: 0 <= k < |r| ==> firsts[k] < firsts[k + 1] && Spans(segs, r[k], firsts[k], firsts[k + 1] - 1)
  }

  lemma SpliceGroups(segs: seq<Segment>, r: seq<Segment>, firsts: seq<nat>, i: nat) returns (firsts': seq<nat>)
    requires Groups(segs, r, firsts) && i < |r| && |r| >= 2
    ensures Groups(segs, Splice(r, i), firsts') && firsts' == Spliced(firsts, |r|, i)
  {
    var left := if i == 0 then 0 else i - 1;
    var right := if i + 1 < |r| then i + 1 else |r| - 1;
    firsts' := firsts[..left + 1] + firsts[right + 1..];
    var r' := Splice(r, i);
    forall k | 0 <= k < |r'|
      ensures firsts'[k] < firsts'[k + 1] && Spans(segs, r'[k], firsts'[k], firsts'[k + 1] - 1)
    {
      if k < left {
        assert Spans(segs, r[k], firsts[k], firsts[k + 1] - 1);
      } else if k == left {
        assert Spans(segs, r[left], firsts[left], firsts[left + 1] - 1);
        assert Spans(segs, r[right], firsts[right], firsts[right + 1] - 1);
        assert firsts[left] < firsts[left + 1] <= firsts[right] < firsts[right + 1] by {
          FirstsIncrease(segs, r, firsts, left + 1, right);
        }
      } else {
        var k' := k + right - left;
        assert Spans(segs, r[k'], firsts[k'], firsts[k' + 1] - 1);
      }
    }
  }

  lemma {:induction false} FirstsIncrease(segs: seq<Segment>, r: seq<Segment>, firsts: seq<nat>, j: nat, k: nat)
    requires Groups(segs, r, firsts) && j <= k <= |r|
    ensures firsts[j] <= firsts[k]
    decreases k - j
  {
    if j < k {
      assert Spans(segs, r[j], firsts[j], firsts[j + 1] - 1);
      FirstsIncrease(segs, r, firsts, j + 1, k);
    }
  }

  lemma {:induction false} MergeAllGroups(
    bars: seq<Bar>, segs: seq<Segment>, r: seq<Segment>, limit: int, a: nat, b: nat, firsts: seq<nat>)
    returns (firsts': seq<nat>)
    requires LongEnough(bars, r, limit, a, b) && Groups(segs, r, firsts)
    ensures var m := MergeAll(bars, r, limit, a, b);
            && Tiling(m, a, b) && InRange(bars, m) && Groups(segs, m, firsts')
            && forall k :: 0 <= k < |m| ==> Minutes(bars, m[k].start, m[k].end) >= limit
    decreases |r|
  {
    var i := FirstShort(bars, r, limit);
    if i == |r| {
      firsts' := firsts;
    } else {
      SpliceKeepsTiling(bars, r, i, a, b);
      var next := SpliceGroups(segs, r, firsts, i);
      firsts' := MergeAllGroups(bars, segs, Splice(r, i), limit, a, b, next);
    }
  }

  /**
   Merging keeps the end-to-end tiling, only joins neighbouring segments, leaves the others as they
   are, and every segment it leaves reaches the limit.
   */
  lemma MergedSegmentsOk(bars: seq<Bar>, segs: seq<Segment>, limit: int, a: nat, b: nat) returns (firsts: seq<nat>)
    requires LongEnough(bars, segs, limit, a, b)
    ensures var m := MergeAll(bars, segs, limit, a, b);
            && Tiling(m, a, b) && Groups(segs, m, firsts) && InRange(bars, m)
            && forall k :: 0 <= k < |m| ==> bars[m[k].end].time - bars[m[k].start].time >= 60000 * limit
  {
    var each := seq(|segs| + 1, i => i);
    firsts := MergeAllGroups(bars, segs, segs, limit, a, b, each);
    var m := MergeAll(bars, segs, limit, a, b);
    forall k | 0 <= k < |m|
      ensures bars[m[k].end].time - bars[m[k].start].time >= 60000 * limit
    {
      MinutesPassed(bars, m[k].start, m[k].end, limit);
    }
  }

  // ---------------------------------------------------------------------------
  // Without the span condition the loop never settles
  // ---------------------------------------------------------------------------

  ghost predicate Chronological(bars: seq<Bar>) {
    forall i, j :: 0 <= i <= j < |bars| ==> bars[i].time <= bars[j].time
  }

  ghost predicate Forward(segs: seq<Segment>) {
    forall k :: 0 <= k < |segs| ==> segs[k].start <= segs[k].end
  }

  lemma {:induction false} EndsOrdered(segs: seq<Segment>, a: nat, b: nat, j: nat, k: nat)
    requires Tiling(segs, a, b) && Forward(segs) && j <= k < |segs|
    ensures segs[j].start <= segs[k].start && segs[j].end <= segs[k].end
    decreases k - j
  {
    if j < k {
      EndsOrdered(segs, a, b, j + 1, k);
      assert segs[j].end == segs[j + 1 - 1].end == segs[j + 1].start;
    }
  }

  /** When the whole span is short, every segment is, and splicing leaves the same situation. */
  lemma {:induction false} ShortSpanStep(bars: seq<Bar>, segs: seq<Segment>, limit: int, a: nat, b: nat)
    requires Chronological(bars) && Forward(segs) && Tiling(segs, a, b) && InRange(bars, segs)
    requires Minutes(bars, a, b) < limit
    ensures FirstShort(bars, segs, limit) == 0
    ensures Tiling(Splice(segs, 0), a, b) && InRange(bars, Splice(segs, 0)) && Forward(Splice(segs, 0))
  {
    EndsOrdered(segs, a, b, 0, |segs| - 1);
    assert bars[segs[0].end].time <= bars[b].time;
    assert Minutes(bars, segs[0].start, segs[0].end) <= Minutes(bars, a, b);
    SpliceKeepsTiling(bars, segs, 0, a, b);
    if |segs| > 1 {
      EndsOrdered(segs, a, b, 0, 1);
    }
  }

  lemma NotEmpty(segs: seq<Segment>, a: nat, b: nat)
    requires Tiling(segs, a, b)
    ensures |segs| > 0
  {
  }

  /** The state of the loop after n rounds. */
  ghost function AfterRounds(bars: seq<Bar>, segs: seq<Segment>, limit: int, n: nat): seq<Segment>
    decreases n
  {
    if n == 0 || !InRange(bars, segs) || FirstShort(bars, segs, limit) == |segs| then segs
    else AfterRounds(bars, Splice(segs, FirstShort(bars, segs, limit)), limit, n - 1)
  }

  /** For a non-empty tiling in time order the loop ends exactly when the whole span reaches the limit. */
  lemma {:induction false} ShortSpanNeverSettles(bars: seq<Bar>, segs: seq<Segment>, limit: int, a: nat, b: nat, n: nat)
    requires Chronological(bars) && Forward(segs) && Tiling(segs, a, b) && InRange(bars, segs)
    requires Minutes(bars, a, b) < limit
    ensures var r := AfterRounds(bars, segs, limit, n);
            InRange(bars, r) && FirstShort(bars, r, limit) < |r|
    decreases n
  {
    hide Splice, Tiling, Forward, InRange, Chronological, Minutes, FirstShort;
    NotEmpty(segs, a, b);
    ShortSpanStep(bars, segs, limit, a, b);
    if n > 0 {
      ShortSpanNeverSettles(bars, Splice(segs, 0), limit, a, b, n - 1);
    }
  }

  lemma {:induction false} LongSpanSettles(
    bars: seq<Bar>, segs: seq<Segment>, limit: int, a: nat, b: nat)
    returns (n: nat)
    requires LongEnough(bars, segs, limit, a, b)
    ensures AfterRounds(bars, segs, limit, n) == MergeAll(bars, segs, limit, a, b)
    ensures var r := AfterRounds(bars, segs, limit, n);
            InRange(bars, r) && FirstShort(bars, r, limit) == |r|
    decreases |segs|
  {
    var i := FirstShort(bars, segs, limit);
    if i == |segs| {
      n := 0;
    } else {
      SpliceKeepsTiling(bars, segs, i, a, b);
      var m := LongSpanSettles(bars, Splice(segs, i), limit, a, b);
      n := m + 1;
    }
  }

  // ---------------------------------------------------------------------------
  // Which segments are joined
  // ---------------------------------------------------------------------------

  /** Some segments in a row with their original boundaries: the tiling, its direction in time and its clock. */
  ghost predicate Ordinary(bars: seq<Bar>, segs: seq<Segment>, a: nat, b: nat) {
    Chronological(bars) && Forward(segs) && Tiling(segs, a, b) && InRange(bars, segs)
  }

  ghost predicate Reaches(bars: seq<Bar>, s: Segment, limit: int)
    requires s.start < |bars| && s.end < |bars|
  {
    bars[s.end].time - bars[s.start].time >= 60000 * limit
  }

  /** Segments x - 1 and x both reach the limit. */
  ghost predicate BothReach(bars: seq<Bar>, segs: seq<Segment>, limit: int, x: nat)
    requires InRange(bars, segs)
  {
    0 < x < |segs| && Reaches(bars, segs[x - 1], limit) && Reaches(bars, segs[x], limit)
  }

  /** Every boundary between two segments that reach the limit is still there. */
  ghost predicate KeepsBoundaries(bars: seq<Bar>, segs: seq<Segment>, limit: int, firsts: seq<nat>)
    requires InRange(bars, segs)
  {
    forall x: nat :: BothReach(bars, segs, limit, x) ==> x in firsts
  }

  function Spliced(firsts: seq<nat>, n: nat, i: nat): seq<nat>
    requires i < n && |firsts| == n + 1
  {
    var left := if i == 0 then 0 else i - 1;
    var right := if i + 1 < n then i + 1 else n - 1;
    firsts[..left + 1] + firsts[right + 1..]
  }

  /** A group that starts or ends with a long segment is long. */
  lemma GroupReaches(
    bars: seq<Bar>, segs: seq<Segment>, r: seq<Segment>, limit: int, a: nat, b: nat, firsts: seq<nat>, i: nat, x: nat)
    requires Ordinary(bars, segs, a, b) && InRange(bars, r) && Groups(segs, r, firsts) && i < |r|
    requires firsts[i] <= x < firsts[i + 1] <= |segs| && Reaches(bars, segs[x], limit)
    ensures Minutes(bars, r[i].start, r[i].end) >= limit
  {
    assert Spans(segs, r[i], firsts[i], firsts[i + 1] - 1);
    EndsOrdered(segs, a, b, firsts[i], x);
    EndsOrdered(segs, a, b, x, firsts[i + 1] - 1);
    assert segs[x].start <= segs[x].end;
    assert bars[r[i].start].time <= bars[segs[x].start].time && bars[segs[x].end].time <= bars[r[i].end].time;
    MinutesPassed(bars, r[i].start, r[i].end, limit);
  }

  /** Splicing around a short group removes only boundaries of that group. */
  lemma {:induction false} SpliceKeepsBoundaries(
    bars: seq<Bar>, segs: seq<Segment>, r: seq<Segment>, limit: int, a: nat, b: nat, firsts: seq<nat>, i: nat)
    requires Ordinary(bars, segs, a, b) && InRange(bars, r) && Groups(segs, r, firsts) && i < |r|
    requires Minutes(bars, r[i].start, r[i].end) < limit && KeepsBoundaries(bars, segs, limit, firsts)
    ensures KeepsBoundaries(bars, segs, limit, Spliced(firsts, |r|, i))
  {
    var firsts' := Spliced(firsts, |r|, i);
    forall x: nat | BothReach(bars, segs, limit, x)
      ensures x in firsts'
    {
      var k :| 0 <= k < |firsts| && firsts[k] == x;
      FirstsIncrease(segs, r, firsts, i + 1, |r|);
      assert Spans(segs, r[i], firsts[i], firsts[i + 1] - 1);
      if k == i {
        GroupReaches(bars, segs, r, limit, a, b, firsts, i, x);
        assert false;
      } else if k == i + 1 {
        GroupReaches(bars, segs, r, limit, a, b, firsts, i, x - 1);
        assert false;
      }
      SplicedHas(firsts, |r|, i, k);
    }
  }

  lemma SplicedHas(firsts: seq<nat>, n: nat, i: nat, k: nat)
    requires i < n && |firsts| == n + 1 && k < |firsts| && k != i && k != i + 1
    ensures firsts[k] in Spliced(firsts, n, i)
  {
    var left := if i == 0 then 0 else i - 1;
    var right := if i + 1 < n then i + 1 else n - 1;
    var firsts' := Spliced(firsts, n, i);
    if k <= left {
      assert firsts'[k] == firsts[k];
    } else {
      assert firsts'[k - (right - left)] == firsts[k];
    }
  }

  /** Merging step by step, with the boundaries that are left. */
  lemma {:induction false} MergeKeepsBoundaries(
    bars: seq<Bar>, segs: seq<Segment>, r: seq<Segment>, limit: int, a: nat, b: nat, firsts: seq<nat>)
    returns (firsts': seq<nat>)
    requires Ordinary(bars, segs, a, b) && LongEnough(bars, r, limit, a, b) && Groups(segs, r, firsts)
    requires KeepsBoundaries(bars, segs, limit, firsts)
    ensures Groups(segs, MergeAll(bars, r, limit, a, b), firsts')
    ensures KeepsBoundaries(bars, segs, limit, firsts')
    ensures forall x :: x in firsts' ==> x in firsts
    ensures var i := FirstShort(bars, r, limit);
            i < |r| ==> forall x :: x in firsts' ==> x in Spliced(firsts, |r|, i)
    decreases |r|
  {
    hide Groups, KeepsBoundaries, Ordinary, Splice;
    var i := FirstShort(bars, r, limit);
    if i == |r| {
      firsts' := firsts;
    } else {
      SpliceKeepsTiling(bars, r, i, a, b);
      SpliceShrinks(bars, r, limit, a, b, i);
      GroupsCount(segs, r, firsts);
      SpliceKeepsBoundaries(bars, segs, r, limit, a, b, firsts, i);
      var next := SpliceGroups(segs, r, firsts, i);
      firsts' := MergeKeepsBoundaries(bars, segs, Splice(r, i), limit, a, b, next);
      assert forall x :: x in next ==> x in firsts;
    }
  }

  lemma GroupsCount(segs: seq<Segment>, r: seq<Segment>, firsts: seq<nat>)
    requires Groups(segs, r, firsts)
    ensures |firsts| == |r| + 1
  {
  }

  /** A short segment is not alone when the whole span is long enough. */
  lemma SpliceShrinks(bars: seq<Bar>, r: seq<Segment>, limit: int, a: nat, b: nat, i: nat)
    requires LongEnough(bars, r, limit, a, b) && i < |r| && Minutes(bars, r[i].start, r[i].end) < limit
    ensures |r| >= 2 && |Splice(r, i)| < |r|
  {
  }

  /**
   Which segments are joined: two neighbours that both reach the limit never are, and the first short
   segment is joined with both its neighbours.
   */
  lemma {:induction false} MergedNeighbours(bars: seq<Bar>, segs: seq<Segment>, limit: int, a: nat, b: nat)
    returns (firsts: seq<nat>)
    requires Ordinary(bars, segs, a, b) && LongEnough(bars, segs, limit, a, b)
    ensures Groups(segs, MergeAll(bars, segs, limit, a, b), firsts)
    ensures forall x: nat :: BothReach(bars, segs, limit, x) ==> x in firsts
    ensures var i := FirstShort(bars, segs, limit);
            i < |segs| ==> (i > 0 ==> i !in firsts) && (i + 1 < |segs| ==> i + 1 !in firsts)
  {
    hide Tiling, Forward, Chronological, Groups, MergeAll, Spliced;
    EachAlone(bars, segs, limit, a, b);
    firsts := MergeKeepsBoundaries(bars, segs, segs, limit, a, b, Numbers(|segs| + 1));
    if FirstShort(bars, segs, limit) < |segs| {
      SplicedNumbers(|segs|, FirstShort(bars, segs, limit));
    }
  }

  function Numbers(n: nat): seq<nat> {
    seq(n, k => k)
  }

  lemma EachAlone(bars: seq<Bar>, segs: seq<Segment>, limit: int, a: nat, b: nat)
    requires Ordinary(bars, segs, a, b)
    ensures Groups(segs, segs, Numbers(|segs| + 1)) && KeepsBoundaries(bars, segs, limit, Numbers(|segs| + 1))
  {
    var each := Numbers(|segs| + 1);
    forall x: nat | BothReach(bars, segs, limit, x)
      ensures x in each
    {
      assert each[x] == x;
    }
  }

  lemma SplicedNumbers(n: nat, i: nat)
    requires i < n
    ensures i > 0 ==> i !in Spliced(Numbers(n + 1), n, i)
    ensures i + 1 < n ==> i + 1 !in Spliced(Numbers(n + 1), n, i)
  {
  }

  // ---------------------------------------------------------------------------
  // From bars to merged segments
  // ---------------------------------------------------------------------------

  /** After n rounds the loop finds no short segment and returns. */
  ghost predicate SettlesIn(bars: seq<Bar>, segs: seq<Segment>, limit: int, n: nat) {
    var r := AfterRounds(bars, segs, limit, n);
    InRange(bars, r) && FirstShort(bars, r, limit) == |r|
  }

  ghost predicate Settles(bars: seq<Bar>, segs: seq<Segment>, limit: int) {
    exists n: nat :: SettlesIn(bars, segs, limit, n)
  }

  /** The merged segments of a series: tiled, joined from neighbours only, and none short. */
  ghost predicate Waves(bars: seq<Bar>, segs: seq<Segment>, limit: int, r: seq<Segment>, b: nat) {
    && Tiling(r, 0, b) && InRange(bars, r) && (exists firsts :: Groups(segs, r, firsts))
    && forall k :: 0 <= k < |r| ==> bars[r[k].end].time - bars[r[k].start].time >= 60000 * limit
  }

  /**
   For the swings of any series in time order, merging their segments ends exactly when the time
   from the first bar to the last pivot reaches the limit.
   */
  lemma {:induction false} WavesSettleExactly(bars: seq<Bar>, pivots: seq<Pivot>, limit: int)
    requires Chronological(bars) && Swings(bars, pivots) && pivots != []
    ensures pivots[|pivots| - 1].index < |bars|
    ensures Settles(bars, SegmentsOf(pivots), limit)
       <==> bars[pivots[|pivots| - 1].index].time - bars[0].time >= 60000 * limit
  {
    var segs, b := SegmentsOf(pivots), pivots[|pivots| - 1].index;
    assert Labelled(bars, pivots[|pivots| - 1]);
    SwingSegments(bars, pivots);
    MinutesPassed(bars, 0, b, limit);
    if Minutes(bars, 0, b) >= limit {
      var n := LongSpanSettles(bars, segs, limit, 0, b);
      assert SettlesIn(bars, segs, limit, n);
    } else {
      forall n: nat
        ensures !SettlesIn(bars, segs, limit, n)
      {
        ShortSpanNeverSettles(bars, segs, limit, 0, b, n);
      }
    }
  }

  /** Merging is asked for and its loop never ends. */
  ghost predicate Endless(bars: seq<Bar>, pivots: seq<Pivot>, limit: int) {
    limit > 0 && pivots != [] && !Settles(bars, SegmentsOf(pivots), limit)
  }

  /** From the swings to the merged segments, whenever the loop ends; a limit of zero or less leaves all segments. */
  method BuildWaves(bars: seq<Bar>, pivots: seq<Pivot>, limit: int) returns (waves: seq<Segment>)
    requires Chronological(bars) && Swings(bars, pivots) && !Endless(bars, pivots, limit)
    ensures pivots == [] || limit <= 0 ==> waves == SegmentsOf(pivots)
    ensures pivots != [] && limit > 0 ==>
              Waves(bars, SegmentsOf(pivots), limit, waves, pivots[|pivots| - 1].index)
  {
    hide MergeAll, Groups, Swings, SegmentsOf, Tiling, InRange, Forward, Settles, Chronological, Minutes;
    waves := BuildSegments(pivots);
    if pivots == [] || limit <= 0 {
      return;
    }
    WavesSettleExactly(bars, pivots, limit);
    SwingSegments(bars, pivots);
    ghost var b := pivots[|pivots| - 1].index;
    MinutesPassed(bars, 0, b, limit);
    ghost var firsts := MergedSegmentsOk(bars, waves, limit, 0, b);
    waves := MergeShortSegments(bars, waves, limit, 0, b);
  }

  /** The whole way from bars to waves; `None` stands for a merging loop that never ends. */
  method ScanWaves(bars: seq<Bar>, percent: real, limit: int)
    returns (pivots: seq<Pivot>, waves: Option<seq<Segment>>)
    requires Chronological(bars)
    ensures Swings(bars, pivots) && (Positive(bars) ==> ArePivots(bars, percent, pivots))
    ensures waves.None? <==> Endless(bars, pivots, limit)
    ensures waves.Some? && (pivots == [] || limit <= 0) ==> waves.value == SegmentsOf(pivots)
    ensures waves.Some? && pivots != [] && limit > 0 ==>
              Waves(bars, SegmentsOf(pivots), limit, waves.value, pivots[|pivots| - 1].index)
  {
    hide Settles, Swings, Waves, Positive, ArePivots, Chronological;
    pivots := ZigzagPivots(bars, percent);
    if limit > 0 && pivots != [] {
      WavesSettleExactly(bars, pivots, limit);
      if Minutes(bars, 0, pivots[|pivots| - 1].index) < limit {
        return pivots, None;
      }
    }
    var segs := BuildWaves(bars, pivots, limit);
    waves := Some(segs);
  }

  /** The pivots of the specification are swings, so all of this holds of them. */
  lemma PivotsAreSwings(bars: seq<Bar>, percent: real, pivots: seq<Pivot>)
    requires ArePivots(bars, percent, pivots)
    ensures Swings(bars, pivots)
  {
    var confirms :| IsZigZag(bars, percent, pivots, confirms);
    forall k | 0 <= k < |pivots|
      ensures Labelled(bars, pivots[k])
    {
      ZigZagShape(bars, percent, pivots, confirms, k);
    }
    forall k | 0 < k < |pivots|
      ensures pivots[k - 1].index < pivots[k].index && pivots[k].kind == pivots[k - 1].kind.Other()
    {
      ZigZagShape(bars, percent, pivots, confirms, k - 1);
    }
  }
}
