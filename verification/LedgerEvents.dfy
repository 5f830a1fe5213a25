/**
 What one event does and why: which callbacks it makes, that their cancellations take effect, which
 orders it adds, and for what reason an order ends.

 Nothing here is said in terms of the steps of `LedgerModel`: an event is described by the ledger
 before it, the ledger after it and the strategy's answers.
 */
module LedgerEvents {
  import opened Wrappers
  import opened LedgerModel
  import opened LedgerLaws
  import opened LedgerRuns
  import opened LedgerProgress
  import opened LedgerHistory

  // ---------------------------------------------------------------------------
  // The callbacks of an event
  // ---------------------------------------------------------------------------

  /** What the strategy cancels at its n-th callback; number `at` is the market event, the others are fills. */
  function Named(strategy: Strategy, at: nat, n: nat): seq<OrderId> {
    if n == at then strategy.onEvent(n).cancels else strategy.onFill(n)
  }

  /** The callback that tells of fill j, counted from ledger l: one per fill, with `at` left out. */
  function CallOf(l: Ledger, at: nat, j: nat): nat
    requires |l.fills| <= j
  {
    var n := l.calls + (j - |l.fills|);
    if l.calls <= at <= n then n + 1 else n
  }

  /** Histories only grow, and what is added is recorded on the current event. */
  ghost predicate Within(l: Ledger, l': Ledger) {
    && Evolves(l, l') && l'.events == l.events && l'.now == l.now
    && (forall j :: |l.fills| <= j < |l'.fills| ==> l'.fills[j].order < |l'.orders|)
    && (forall j :: |l.filledOn| <= j < |l'.filledOn| ==> l'.filledOn[j] == |l.events|)
    && (forall i :: |l.placedOn| <= i < |l'.placedOn| ==> l'.placedOn[i] == |l.events|)
  }

  /** One callback for each fill, and one for the event itself when it lies in between. */
  ghost predicate Counted(at: nat, l: Ledger, l': Ledger) {
    && |l.fills| <= |l'.fills| && l.calls <= l'.calls
    && l'.calls == l.calls + (|l'.fills| - |l.fills|) + if l.calls <= at < l'.calls then 1 else 0
  }

  /** An order that existed when fill j was reported. */
  ghost predicate KnownAt(l: Ledger, l': Ledger, j: nat, i: nat) {
    && |l.fills| <= j < |l'.fills| && i < |l'.orders|
    && (i < |l.orders| || i <= l'.fills[j].order)
  }

  /** Whatever a callback cancels is inactive from then on. */
  ghost predicate Obeyed(strategy: Strategy, at: nat, l: Ledger, l': Ledger) {
    && (forall j: nat, i: nat :: KnownAt(l, l', j, i) && l'.orders[i].id in strategy.onFill(CallOf(l, at, j)) ==>
          !l'.orders[i].Active())
    && (l.calls <= at < l'.calls ==>
          forall i :: 0 <= i < |l.orders| && i < |l'.orders| && l'.orders[i].id in strategy.onEvent(at).cancels ==>
            !l'.orders[i].Active())
  }

  /** At some moment between the two ledgers the position had nothing that the order could close. */
  ghost predicate NothingToClose(l: Ledger, l': Ledger, o: Order) {
    exists k :: |l.fills| <= k <= |l'.fills|
      && if o.side == Buy then Net(l'.fills[..k], o.symbol) >= 0.0 else Net(l'.fills[..k], o.symbol) <= 0.0
  }

  ghost predicate CancelledBy(strategy: Strategy, at: nat, l: Ledger, l': Ledger, o: Order) {
    exists n :: l.calls <= n < l'.calls && o.id in Named(strategy, at, n)
  }

  /** An order that ended between the two ledgers ended for a reason, and at that time. */
  ghost predicate EndExplained(strategy: Strategy, at: nat, l: Ledger, l': Ledger, o: Order) {
    && (o.status == Cancelled ==> o.cancelTime == Some(l'.now) && CancelledBy(strategy, at, l, l', o))
    && (o.status == Expired ==>
          o.cancelTime == Some(l'.now) && (Due(o, l'.now) || (o.reduceOnly && NothingToClose(l, l', o))))
  }

  ghost predicate Explained(strategy: Strategy, at: nat, l: Ledger, l': Ledger) {
    forall i :: 0 <= i < |l'.orders| && (i < |l.orders| ==> l.orders[i].Active()) ==>
      EndExplained(strategy, at, l, l', l'.orders[i])
  }

  ghost predicate During(cfg: Config, strategy: Strategy, at: nat, l: Ledger, l': Ledger) {
    && Within(l, l') && Counted(at, l, l') && Obeyed(strategy, at, l, l') && Explained(strategy, at, l, l')
    && (History(cfg, l) ==> History(cfg, l'))
  }

  // ---------------------------------------------------------------------------
  // One step after another
  // ---------------------------------------------------------------------------

  lemma DuringReflexive(cfg: Config, strategy: Strategy, at: nat, l: Ledger)
    ensures During(cfg, strategy, at, l, l)
  {
    EvolvesReflexive(l);
    forall i | 0 <= i < |l.orders| && l.orders[i].Active()
      ensures EndExplained(strategy, at, l, l, l.orders[i])
    {
    }
  }

  lemma WithinTransitive(a: Ledger, b: Ledger, c: Ledger)
    requires Within(a, b) && Within(b, c)
    ensures Within(a, c)
  {
    hide OrderEvolves;
    EvolvesTransitive(a, b, c);
    assert forall j :: |a.fills| <= j < |b.fills| ==> c.fills[j] == b.fills[j];
    assert forall j :: |a.filledOn| <= j < |b.filledOn| ==> c.filledOn[j] == b.filledOn[j];
    assert forall i :: |a.placedOn| <= i < |b.placedOn| ==> c.placedOn[i] == b.placedOn[i];
  }

  lemma CountedTransitive(at: nat, a: Ledger, b: Ledger, c: Ledger, j: nat)
    requires Counted(at, a, b) && Counted(at, b, c)
    ensures Counted(at, a, c)
    ensures |b.fills| <= j ==> CallOf(b, at, j) == CallOf(a, at, j)
  {
  }

  lemma ObeyedTransitive(strategy: Strategy, at: nat, a: Ledger, b: Ledger, c: Ledger)
    requires Within(a, b) && Within(b, c) && Counted(at, a, b) && Counted(at, b, c)
    requires Obeyed(strategy, at, a, b) && Obeyed(strategy, at, b, c)
    ensures Obeyed(strategy, at, a, c)
  {
    hide Counted, CallOf;
    forall j: nat, i: nat | KnownAt(a, c, j, i) && c.orders[i].id in strategy.onFill(CallOf(a, at, j))
      ensures !c.orders[i].Active()
    {
      CountedTransitive(at, a, b, c, j);
      if j < |b.fills| {
        assert c.fills[j] == b.fills[j];
        ObeyedEarlier(strategy, at, a, b, c, j, i);
      } else {
        assert KnownAt(b, c, j, i);
      }
    }
    ObeyedEvent(strategy, at, a, b, c);
  }

  lemma ObeyedEarlier(strategy: Strategy, at: nat, a: Ledger, b: Ledger, c: Ledger, j: nat, i: nat)
    requires Within(b, c) && Obeyed(strategy, at, a, b) && |a.fills| <= j < |b.fills| && i < |c.orders|
    requires i < |a.orders| || i <= b.fills[j].order
    requires i < |b.orders|
    requires c.orders[i].id in strategy.onFill(CallOf(a, at, j))
    ensures !c.orders[i].Active()
  {
    assert OrderEvolves(b.orders[i], c.orders[i]);
    assert KnownAt(a, b, j, i);
  }

  lemma ObeyedEvent(strategy: Strategy, at: nat, a: Ledger, b: Ledger, c: Ledger)
    requires Within(a, b) && Within(b, c) && Counted(at, a, b) && Counted(at, b, c)
    requires Obeyed(strategy, at, a, b) && Obeyed(strategy, at, b, c)
    ensures a.calls <= at < c.calls ==>
              forall i :: 0 <= i < |a.orders| && c.orders[i].id in strategy.onEvent(at).cancels ==>
                !c.orders[i].Active()
  {
    if a.calls <= at < c.calls {
      forall i | 0 <= i < |a.orders| && c.orders[i].id in strategy.onEvent(at).cancels
        ensures !c.orders[i].Active()
      {
        assert OrderEvolves(b.orders[i], c.orders[i]);
      }
    }
  }

  lemma ReasonStays(strategy: Strategy, at: nat, a: Ledger, b: Ledger, c: Ledger, o: Order)
    requires Within(b, c) && Counted(at, b, c) && EndExplained(strategy, at, a, b, o)
    ensures EndExplained(strategy, at, a, c, o)
  {
    if o.status == Expired && !Due(o, b.now) {
      var k :| |a.fills| <= k <= |b.fills|
        && if o.side == Buy then Net(b.fills[..k], o.symbol) >= 0.0 else Net(b.fills[..k], o.symbol) <= 0.0;
      assert c.fills[..k] == b.fills[..k];
    }
    if o.status == Cancelled {
      var n :| a.calls <= n < b.calls && o.id in Named(strategy, at, n);
      assert n < c.calls;
    }
  }

  lemma ReasonExtends(strategy: Strategy, at: nat, a: Ledger, b: Ledger, c: Ledger, o: Order)
    requires Counted(at, a, b) && EndExplained(strategy, at, b, c, o)
    ensures EndExplained(strategy, at, a, c, o)
  {
  }

  lemma ExplainedTransitive(strategy: Strategy, at: nat, a: Ledger, b: Ledger, c: Ledger)
    requires Within(a, b) && Within(b, c) && Counted(at, a, b) && Counted(at, b, c)
    requires Explained(strategy, at, a, b) && Explained(strategy, at, b, c)
    ensures Explained(strategy, at, a, c)
  {
    hide EndExplained, Counted;
    forall i | 0 <= i < |c.orders| && (i < |a.orders| ==> a.orders[i].Active())
      ensures EndExplained(strategy, at, a, c, c.orders[i])
    {
      if i < |b.orders| && !b.orders[i].Active() {
        assert OrderEvolves(b.orders[i], c.orders[i]);
        ReasonStays(strategy, at, a, b, c, b.orders[i]);
      } else {
        ReasonExtends(strategy, at, a, b, c, c.orders[i]);
      }
    }
  }

  lemma DuringTransitive(cfg: Config, strategy: Strategy, at: nat, a: Ledger, b: Ledger, c: Ledger)
    requires During(cfg, strategy, at, a, b) && During(cfg, strategy, at, b, c)
    ensures During(cfg, strategy, at, a, c)
  {
    hide Obeyed, Explained, History, Counted;
    WithinTransitive(a, b, c);
    hide Within;
    CountedTransitive(at, a, b, c, 0);
    ObeyedTransitive(strategy, at, a, b, c);
    ExplainedTransitive(strategy, at, a, b, c);
  }

  // ---------------------------------------------------------------------------
  // Callbacks and fills
  // ---------------------------------------------------------------------------

  /** A callback cancels the active orders it names, and nothing else happens. */
  lemma CallbackExact(cfg: Config, l: Ledger, ids: seq<OrderId>, i: nat)
    requires Laws(cfg, l) && i < |l.orders|
    ensures var l' := AfterCallback(l, ids);
            && |l'.orders| == |l.orders| && l'.calls == l.calls + 1 && l'.fills == l.fills
            && l'.orders[i] == if l.orders[i].Active() && l.orders[i].id in ids
                               then l.orders[i].(status := Cancelled, cancelTime := Some(l.now)) else l.orders[i]
  {
    hide Laws, CancelAll;
    CountingKeepsLaws(cfg, l, l.calls + 1);
    CancelledStay(cfg, l.(calls := l.calls + 1), ids, i);
    CancelAllKeepsLaws(cfg, l.(calls := l.calls + 1), ids);
  }

  lemma CallbackCounts(cfg: Config, l: Ledger, ids: seq<OrderId>)
    requires Laws(cfg, l)
    ensures AfterCallback(l, ids).calls == l.calls + 1 && AfterCallback(l, ids).filledOn == l.filledOn
  {
    hide Laws, CancelAll;
    CountingKeepsLaws(cfg, l, l.calls + 1);
    CancelAllKeepsLaws(cfg, l.(calls := l.calls + 1), ids);
    SameRecords(cfg, l.(calls := l.calls + 1), AfterCallback(l, ids));
  }

  lemma SameRecords(cfg: Config, l: Ledger, l': Ledger)
    requires Laws(cfg, l) && Laws(cfg, l') && l'.fills == l.fills && l.filledOn <= l'.filledOn
    ensures l'.filledOn == l.filledOn
  {
  }

  lemma CalledExplained(strategy: Strategy, at: nat, l: Ledger, l': Ledger, o: Order, o': Order, n: nat)
    requires l.calls <= n < l'.calls && EndExplained(strategy, at, l, l', o)
    requires o' == if o.Active() && o.id in Named(strategy, at, n)
                   then o.(status := Cancelled, cancelTime := Some(l'.now)) else o
    ensures EndExplained(strategy, at, l, l', o')
  {
  }

  /** The callback for the market event itself. */
  lemma EventCallbackDuring(cfg: Config, l: Ledger, strategy: Strategy)
    requires Laws(cfg, l)
    ensures During(cfg, strategy, l.calls, l, AfterCallback(l, strategy.onEvent(l.calls).cancels))
  {
    hide Laws, History, AfterCallback, Evolves, EndExplained;
    var ids := strategy.onEvent(l.calls).cancels;
    var l' := AfterCallback(l, ids);
    CallbackKeepsLaws(cfg, l, ids);
    CallbackCounts(cfg, l, ids);
    if History(cfg, l) {
      CallHistory(cfg, l, ids);
    }
    forall i | 0 <= i < |l.orders|
      ensures l'.orders[i].id in ids ==> !l'.orders[i].Active()
      ensures l.orders[i].Active() ==> EndExplained(strategy, l.calls, l, l', l'.orders[i])
    {
      CallbackExact(cfg, l, ids, i);
      if l.orders[i].Active() {
        ActiveExplained(strategy, l.calls, l, l', l.orders[i]);
        CalledExplained(strategy, l.calls, l, l', l.orders[i], l'.orders[i], l.calls);
      }
    }
  }

  /** The fill of an order and the callback that tells of it. */
  lemma BookedDuring(cfg: Config, l: Ledger, strategy: Strategy, at: nat, i: nat)
    requires Laws(cfg, l) && Fillable(cfg, l, i) && at != l.calls
    requires Decide(cfg, l.orders[i], Net(l.fills, l.orders[i].symbol)).Take?
    ensures var d := Decide(cfg, l.orders[i], Net(l.fills, l.orders[i].symbol));
            var m := Book(cfg, l, i, d.quantity, d.expireRemainder, Current(l).open);
            var l' := AfterCallback(m, strategy.onFill(m.calls));
            During(cfg, strategy, at, l, l') && l'.calls == l.calls + 1
  {
    var d := Decide(cfg, l.orders[i], Net(l.fills, l.orders[i].symbol));
    var m := Book(cfg, l, i, d.quantity, d.expireRemainder, Current(l).open);
    var ids := strategy.onFill(m.calls);
    var l' := AfterCallback(m, ids);
    hide Laws, History, AfterCallback, Evolves, Decide, Book, Explained, Obeyed, Fillable, Net, Within, Counted;
    BookedHistory(cfg, l, i, ids);
    BookKeepsLaws(cfg, l, i);
    CallbackKeepsLaws(cfg, m, ids);
    CallbackCounts(cfg, m, ids);
    EvolvesTransitive(l, m, l');
    BookedOrders(cfg, l, strategy, at, i);
    BookedFill(cfg, l, i, d.quantity, d.expireRemainder, Current(l).open);
    BookedObeyed(cfg, l, strategy, at, m, i);
    OneFillWithin(l, m, l', at, i);
  }

  lemma OneFillWithin(l: Ledger, m: Ledger, l': Ledger, at: nat, i: nat)
    requires Evolves(l, l') && l'.events == l.events && l'.now == l.now && at != l.calls
    requires l'.fills == m.fills && l'.filledOn == m.filledOn && l'.placedOn == m.placedOn
    requires |m.fills| == |l.fills| + 1 && m.fills[|l.fills|].order == i < |l'.orders|
    requires m.placedOn == l.placedOn && m.filledOn == l.filledOn + [|l.events|] && l'.calls == l.calls + 1
    ensures Within(l, l') && Counted(at, l, l')
  {
    hide Evolves;
  }

  lemma BookedFill(cfg: Config, l: Ledger, i: nat, q: real, cut: bool, open: real)
    requires i < |l.orders|
    ensures var m := Book(cfg, l, i, q, cut, open);
            && |m.fills| == |l.fills| + 1 && m.fills[|l.fills|].order == i && |m.orders| == |l.orders|
            && m.calls == l.calls && m.events == l.events && m.now == l.now
            && m.placedOn == l.placedOn && m.filledOn == l.filledOn + [|l.events|]
  {
  }

  lemma BookedHistory(cfg: Config, l: Ledger, i: nat, ids: seq<OrderId>)
    requires Laws(cfg, l) && Fillable(cfg, l, i)
    requires Decide(cfg, l.orders[i], Net(l.fills, l.orders[i].symbol)).Take?
    ensures var d := Decide(cfg, l.orders[i], Net(l.fills, l.orders[i].symbol));
            var m := Book(cfg, l, i, d.quantity, d.expireRemainder, Current(l).open);
            History(cfg, l) ==> History(cfg, AfterCallback(m, ids))
  {
    hide History, AfterCallback, Book, Decide, OrdersOk, Tallied, Causal, Net, Paced, ReservationsBacked, NoReversal;
    var d := Decide(cfg, l.orders[i], Net(l.fills, l.orders[i].symbol));
    var m := Book(cfg, l, i, d.quantity, d.expireRemainder, Current(l).open);
    if History(cfg, l) {
      BookHistory(cfg, l, i, Current(l).open);
      CallHistory(cfg, m, ids);
    }
  }

  lemma BookedObeyed(cfg: Config, l: Ledger, strategy: Strategy, at: nat, m: Ledger, i: nat)
    requires Laws(cfg, m) && m.calls == l.calls != at && |m.fills| == |l.fills| + 1
    ensures Obeyed(strategy, at, l, AfterCallback(m, strategy.onFill(m.calls)))
  {
    hide Laws, AfterCallback;
    var ids := strategy.onFill(m.calls);
    var l' := AfterCallback(m, ids);
    CallbackKeepsLaws(cfg, m, ids);
    CallbackCounts(cfg, m, ids);
    assert CallOf(l, at, |l.fills|) == l.calls;
    forall j: nat, k: nat | KnownAt(l, l', j, k) && l'.orders[k].id in strategy.onFill(CallOf(l, at, j))
      ensures !l'.orders[k].Active()
    {
      assert j == |l.fills|;
      CallbackExact(cfg, m, ids, k);
    }
  }

  lemma BookedOrders(cfg: Config, l: Ledger, strategy: Strategy, at: nat, i: nat)
    requires Laws(cfg, l) && Fillable(cfg, l, i) && at != l.calls
    requires Decide(cfg, l.orders[i], Net(l.fills, l.orders[i].symbol)).Take?
    ensures var d := Decide(cfg, l.orders[i], Net(l.fills, l.orders[i].symbol));
            var m := Book(cfg, l, i, d.quantity, d.expireRemainder, Current(l).open);
            Explained(strategy, at, l, AfterCallback(m, strategy.onFill(m.calls)))
  {
    var d := Decide(cfg, l.orders[i], Net(l.fills, l.orders[i].symbol));
    var m := Book(cfg, l, i, d.quantity, d.expireRemainder, Current(l).open);
    var ids := strategy.onFill(m.calls);
    var l' := AfterCallback(m, ids);
    hide Laws;
    BookKeepsLaws(cfg, l, i);
    CallbackKeepsLaws(cfg, m, ids);
    CallbackCounts(cfg, m, ids);
    if d.expireRemainder {
      CutTakesAll(cfg, l, i);
    }
    assert m.orders[i].status == Expired ==> d.expireRemainder && m.orders[i].cancelTime == Some(l.now);
    assert m.orders[i].status != Cancelled && (d.expireRemainder ==> l.orders[i].reduceOnly);
    assert l'.fills == m.fills && m.fills[..|m.fills|] == m.fills;
    assert EndExplained(strategy, at, l, l', m.orders[i]);
    assert forall k :: 0 <= k < |l.orders| && k != i ==> m.orders[k] == l.orders[k];
    hide Laws, AfterCallback, Evolves, Decide, Book, Fillable, EndExplained, Net;
    forall k | 0 <= k < |l'.orders| && l.orders[k].Active()
      ensures EndExplained(strategy, at, l, l', l'.orders[k])
    {
      CallbackExact(cfg, m, ids, k);
      if k != i {
        ActiveExplained(strategy, at, l, l', m.orders[k]);
      }
      CalledExplained(strategy, at, l, l', m.orders[k], l'.orders[k], l.calls);
    }
  }

  /** An order that is cut short takes the whole position, so that nothing is left to close. */
  lemma CutTakesAll(cfg: Config, l: Ledger, i: nat)
    requires i < |l.orders|
    requires var d := Decide(cfg, l.orders[i], Net(l.fills, l.orders[i].symbol)); d.Take? && d.expireRemainder
    ensures var d := Decide(cfg, l.orders[i], Net(l.fills, l.orders[i].symbol));
            forall open :: Net(Book(cfg, l, i, d.quantity, d.expireRemainder, open).fills, l.orders[i].symbol) == 0.0
  {
    var o := l.orders[i];
    var d := Decide(cfg, o, Net(l.fills, o.symbol));
    forall open
      ensures Net(Book(cfg, l, i, d.quantity, d.expireRemainder, open).fills, o.symbol) == 0.0
    {
      SumAppend(l.fills, FillFor(cfg, o, i, d.quantity, open, l.now), NetQuantity(o.symbol));
    }
  }

  /** An order expires with a reason. */
  lemma ExpiredDuring(cfg: Config, l: Ledger, strategy: Strategy, at: nat, i: nat)
    requires Laws(cfg, l) && i < |l.orders| && l.orders[i].Active()
    requires || Due(l.orders[i], l.now)
             || (l.orders[i].reduceOnly && !Closes(l.orders[i].side, Net(l.fills, l.orders[i].symbol)))
    ensures During(cfg, strategy, at, l, Retire(l, i, Expired))
  {
    hide Laws, History, Evolves, Due, Explained;
    RetireKeepsLaws(cfg, l, i, Expired);
    if History(cfg, l) {
      RetireHistory(cfg, l, i, Expired);
    }
    ExpiredExplained(l, strategy, at, i);
  }

  lemma ExpiredExplained(l: Ledger, strategy: Strategy, at: nat, i: nat)
    requires i < |l.orders| && l.orders[i].Active()
    requires || Due(l.orders[i], l.now)
             || (l.orders[i].reduceOnly && !Closes(l.orders[i].side, Net(l.fills, l.orders[i].symbol)))
    ensures Explained(strategy, at, l, Retire(l, i, Expired))
  {
    var l' := Retire(l, i, Expired);
    assert l.fills[..|l.fills|] == l.fills;
    hide Net;
    forall k | 0 <= k < |l'.orders| && l.orders[k].Active()
      ensures EndExplained(strategy, at, l, l', l'.orders[k])
    {
      assert k != i ==> l'.orders[k] == l.orders[k];
    }
  }

  lemma FailedDuring(cfg: Config, l: Ledger, strategy: Strategy, at: nat)
    requires Laws(cfg, l)
    ensures During(cfg, strategy, at, l, l.(clean := false))
  {
    hide Laws, History, Evolves, EndExplained;
    var l' := l.(clean := false);
    FailKeepsLaws(cfg, l);
    SameHistory(cfg, l, l');
    forall k | 0 <= k < |l'.orders| && l.orders[k].Active()
      ensures EndExplained(strategy, at, l, l', l'.orders[k])
    {
      ActiveExplained(strategy, at, l, l', l.orders[k]);
    }
  }

  lemma ActiveExplained(strategy: Strategy, at: nat, l: Ledger, l': Ledger, o: Order)
    requires o.Active()
    ensures EndExplained(strategy, at, l, l', o)
  {
  }

  lemma SettleDuring(cfg: Config, l: Ledger, e: Event, strategy: Strategy, at: nat, i: nat)
    requires Laws(cfg, l) && Fillable(cfg, l, i) && Ongoing(l, e) && at != l.calls
    ensures var (l', ok) := Settle(cfg, l, e, strategy, i);
            During(cfg, strategy, at, l, l') && l.calls <= l'.calls <= l.calls + 1
  {
    var net := Net(l.fills, l.orders[i].symbol);
    assert OrderOk(l.orders[i], i);
    hide Laws, During, AfterCallback, Book, OrderOk;
    match Decide(cfg, l.orders[i], net)
    case WouldReverse =>
      FailedDuring(cfg, l, strategy, at);
    case Take(q, cut) =>
      BookedDuring(cfg, l, strategy, at, i);
    case Lapse =>
      LapseReason(cfg, l.orders[i], i, net);
      ExpiredDuring(cfg, l, strategy, at, i);
  }

  lemma LapseReason(cfg: Config, o: Order, i: nat, net: real)
    requires OrderOk(o, i) && o.Active() && Decide(cfg, o, net).Lapse?
    ensures o.reduceOnly && !Closes(o.side, net)
  {
    ProductPositive(o.quantity, cfg.fraction);
  }

  lemma VisitDuring(cfg: Config, l: Ledger, e: Event, strategy: Strategy, at: nat, i: nat)
    requires Laws(cfg, l) && AllPlacedEarlier(l) && Ongoing(l, e) && e.timeframe == cfg.executionTimeframe
    requires i < |l.orders| && l.orders[i].symbol == e.symbol
    requires at != l.calls
    ensures var (l', ok) := Visit(cfg, l, e, strategy, i);
            During(cfg, strategy, at, l, l') && l.calls <= l'.calls <= l.calls + 1
  {
    hide Laws, During, Settle;
    DuringReflexive(cfg, strategy, at, l);
    var o := l.orders[i];
    if o.Active() {
      if o.Lapsed(l.now) {
        ExpiredDuring(cfg, l, strategy, at, i);
      } else if Triggered(o, e) {
        CrossedIsFillable(cfg, l, e, i);
        SettleDuring(cfg, l, e, strategy, at, i);
      }
    }
  }

  lemma {:induction false} VisitAllCalls(cfg: Config, l: Ledger, e: Event, strategy: Strategy, refs: seq<nat>)
    requires Laws(cfg, l) && AllPlacedEarlier(l) && Ongoing(l, e) && e.timeframe == cfg.executionTimeframe
    requires forall j :: 0 <= j < |refs| ==> refs[j] < |l.orders| && l.orders[refs[j]].symbol == e.symbol
    ensures l.calls <= VisitAll(cfg, l, e, strategy, refs).0.calls
    decreases |refs|
  {
    hide Laws, Visit, During;
    if refs != [] {
      VisitKeepsLaws(cfg, l, e, strategy, refs[0]);
      VisitDuring(cfg, l, e, strategy, l.calls + 1, refs[0]);
      var (m, ok) := Visit(cfg, l, e, strategy, refs[0]);
      if ok {
        StillOfSymbol(l, m, e.symbol, refs);
        VisitAllCalls(cfg, m, e, strategy, refs[1..]);
      }
    }
  }

  lemma StillOfSymbol(l: Ledger, m: Ledger, s: Symbol, refs: seq<nat>)
    requires Evolves(l, m) && refs != []
    requires forall j :: 0 <= j < |refs| ==> refs[j] < |l.orders| && l.orders[refs[j]].symbol == s
    ensures forall j :: 0 <= j < |refs[1..]| ==> refs[1..][j] < |m.orders| && m.orders[refs[1..][j]].symbol == s
  {
    forall j | 0 <= j < |refs[1..]|
      ensures m.orders[refs[1..][j]].symbol == s
    {
      assert OrderEvolves(l.orders[refs[j + 1]], m.orders[refs[j + 1]]);
    }
  }

  /** The fill loop, before the callback of the event itself. */
  lemma {:induction false} VisitAllDuring(
    cfg: Config, l: Ledger, e: Event, strategy: Strategy, at: nat, refs: seq<nat>)
    requires Laws(cfg, l) && AllPlacedEarlier(l) && Ongoing(l, e) && e.timeframe == cfg.executionTimeframe
    requires forall j :: 0 <= j < |refs| ==> refs[j] < |l.orders| && l.orders[refs[j]].symbol == e.symbol
    requires VisitAll(cfg, l, e, strategy, refs).0.calls <= at
    ensures During(cfg, strategy, at, l, VisitAll(cfg, l, e, strategy, refs).0)
    decreases |refs|
  {
    hide Laws, Visit, During;
    DuringReflexive(cfg, strategy, at, l);
    if refs != [] {
      VisitKeepsLaws(cfg, l, e, strategy, refs[0]);
      var (m, ok) := Visit(cfg, l, e, strategy, refs[0]);
      if ok {
        StillOfSymbol(l, m, e.symbol, refs);
        VisitAllCalls(cfg, m, e, strategy, refs[1..]);
        VisitAllDuring(cfg, m, e, strategy, at, refs[1..]);
      }
      FirstVisitDuring(cfg, l, e, strategy, at, refs[0]);
      if ok {
        DuringTransitive(cfg, strategy, at, l, m, VisitAll(cfg, l, e, strategy, refs).0);
      }
    }
  }

  /** A visit whose callback, if any, comes before number `at`. */
  lemma FirstVisitDuring(cfg: Config, l: Ledger, e: Event, strategy: Strategy, at: nat, i: nat)
    requires Laws(cfg, l) && AllPlacedEarlier(l) && Ongoing(l, e) && e.timeframe == cfg.executionTimeframe
    requires i < |l.orders| && l.orders[i].symbol == e.symbol
    requires Visit(cfg, l, e, strategy, i).0.calls <= at
    ensures During(cfg, strategy, at, l, Visit(cfg, l, e, strategy, i).0)
  {
    hide Laws, Visit;
    var l' := Visit(cfg, l, e, strategy, i).0;
    if at != l.calls {
      hide During;
      VisitDuring(cfg, l, e, strategy, at, i);
    } else {
      VisitDuring(cfg, l, e, strategy, l.calls + 1, i);
      hide Evolves, History;
      SilentDuring(strategy, l.calls + 1, at, l, l');
    }
  }

  /** Without a callback it makes no difference which number the event has. */
  lemma SilentDuring(strategy: Strategy, other: nat, at: nat, l: Ledger, l': Ledger)
    requires l'.calls == l.calls && Counted(other, l, l')
    requires Obeyed(strategy, other, l, l') && Explained(strategy, other, l, l')
    ensures Counted(at, l, l') && Obeyed(strategy, at, l, l') && Explained(strategy, at, l, l')
  {
    forall i | 0 <= i < |l'.orders| && (i < |l.orders| ==> l.orders[i].Active())
      ensures EndExplained(strategy, at, l, l', l'.orders[i])
    {
      assert EndExplained(strategy, other, l, l', l'.orders[i]);
    }
  }

  lemma CheckFillsDuring(cfg: Config, l: Ledger, e: Event, strategy: Strategy)
    requires Laws(cfg, l) && AllPlacedEarlier(l) && Ongoing(l, e)
    ensures var m := CheckFills(cfg, l, e, strategy).0;
            During(cfg, strategy, m.calls, l, m) && |m.orders| == |l.orders|
  {
    hide Laws, VisitAll, During;
    var m := CheckFills(cfg, l, e, strategy).0;
    DuringReflexive(cfg, strategy, m.calls, l);
    if e.timeframe == cfg.executionTimeframe {
      var refs := ActiveRefs(l.orders, e.symbol);
      ActiveRefsOf(l.orders, e.symbol, refs);
      VisitAllDuring(cfg, l, e, strategy, m.calls, refs);
    }
  }

  // ---------------------------------------------------------------------------
  // Placements
  // ---------------------------------------------------------------------------

  lemma AppendDuring(cfg: Config, l: Ledger, strategy: Strategy, at: nat, intent: Intent)
    requires Evolves(l, Append(l, intent))
    ensures During(cfg, strategy, at, l, Append(l, intent))
  {
    hide History, Evolves, EndExplained;
    var l' := Append(l, intent);
    if History(cfg, l) {
      AppendHistory(cfg, l, intent);
    }
    forall i | 0 <= i < |l'.orders| && (i < |l.orders| ==> l.orders[i].Active())
      ensures EndExplained(strategy, at, l, l', l'.orders[i])
    {
      ActiveExplained(strategy, at, l, l', l'.orders[i]);
    }
  }

  lemma PlaceDuring(cfg: Config, l: Ledger, strategy: Strategy, at: nat, intent: Intent)
    requires Laws(cfg, l) && TradingEnabled(cfg, l.now) && l.events != []
    ensures During(cfg, strategy, at, l, Place(l, intent).0) && Place(l, intent).0.calls == l.calls
  {
    hide Laws, During, ReduceOnlyAllowed, Evolves;
    PlaceKeepsLaws(cfg, l, intent);
    DuringReflexive(cfg, strategy, at, l);
    var (l', placed) := Place(l, intent);
    if placed.None? {
      FailedDuring(cfg, l, strategy, at);
    } else if l' != l {
      AppendDuring(cfg, l, strategy, at, intent);
    }
  }

  lemma PlaceOneDuring(cfg: Config, l: Ledger, e: Event, strategy: Strategy, at: nat, intent: Intent)
    requires Laws(cfg, l) && TradingEnabled(cfg, l.now) && Ongoing(l, e) && at < l.calls
    ensures var l' := PlaceOne(cfg, l, e, strategy, intent).0;
            During(cfg, strategy, at, l, l') && l.calls <= l'.calls
  {
    hide Laws, During, Settle, Place;
    PlaceKeepsLaws(cfg, l, intent);
    PlaceDuring(cfg, l, strategy, at, intent);
    var (m, placed) := Place(l, intent);
    if placed.Some? {
      var i := placed.value;
      if m.orders[i].orderType == Market && m.orders[i].status == New {
        MarketIsFillable(cfg, m, i);
        SettleDuring(cfg, m, e, strategy, at, i);
        DuringTransitive(cfg, strategy, at, l, m, Settle(cfg, m, e, strategy, i).0);
      }
    }
  }

  lemma {:induction false} PlaceAllDuring(
    cfg: Config, l: Ledger, e: Event, strategy: Strategy, at: nat, intents: seq<Intent>)
    requires Laws(cfg, l) && MarketsDone(l) && TradingEnabled(cfg, l.now) && Ongoing(l, e) && at < l.calls
    ensures During(cfg, strategy, at, l, PlaceAll(cfg, l, e, strategy, intents).0)
    decreases |intents|
  {
    hide Laws, During, PlaceOne, MarketsDone, Evolves;
    DuringReflexive(cfg, strategy, at, l);
    if intents != [] {
      PlaceOneKeepsLaws(cfg, l, e, strategy, intents[0]);
      PlaceOneDuring(cfg, l, e, strategy, at, intents[0]);
      var (m, ok) := PlaceOne(cfg, l, e, strategy, intents[0]);
      if ok {
        PlaceAllDuring(cfg, m, e, strategy, at, intents[1..]);
        DuringTransitive(cfg, strategy, at, l, m, PlaceAll(cfg, m, e, strategy, intents[1..]).0);
      }
    }
  }

  lemma ReactDuring(cfg: Config, l: Ledger, e: Event, strategy: Strategy)
    requires Laws(cfg, l) && MarketsDone(l) && Ongoing(l, e)
    ensures var l' := React(cfg, l, e, strategy).0;
            During(cfg, strategy, l.calls, l, l') && l.calls < l'.calls
  {
    hide Laws, MarketsDone, PlaceAll, AfterCallback, Evolves;
    var response := strategy.onEvent(l.calls);
    var m := AfterCallback(l, response.cancels);
    CallbackKeepsLaws(cfg, l, response.cancels);
    CallbackCounts(cfg, l, response.cancels);
    MarketsStayDone(l, m);
    EventCallbackDuring(cfg, l, strategy);
    if TradingEnabled(cfg, l.now) {
      PlaceAllDuring(cfg, m, e, strategy, l.calls, response.intents);
      DuringTransitive(cfg, strategy, l.calls, l, m, React(cfg, l, e, strategy).0);
    }
  }

  // ---------------------------------------------------------------------------
  // What the intents become
  // ---------------------------------------------------------------------------

  function IntentsOf(orders: seq<Order>): seq<RawIntent> {
    seq(|orders|, k requires 0 <= k < |orders| => IntentOf(orders[k]))
  }

  ghost function ClientIds(orders: seq<Order>): set<string> {
    set i | 0 <= i < |orders| :: orders[i].clientId
  }

  /** The intents whose client id is not taken, by an order or by an earlier intent. */
  function FirstUses(taken: set<string>, intents: seq<Intent>): seq<RawIntent>
    decreases |intents|
  {
    if intents == [] then []
    else if intents[0].clientId in taken then FirstUses(taken, intents[1..])
    else [intents[0]] + FirstUses(taken + {intents[0].clientId}, intents[1..])
  }

  /** A fill, among those from `first` on, of the whole order. */
  ghost predicate FilledWhole(l: Ledger, first: nat, i: nat) {
    exists j :: first <= j < |l.fills| && i < |l.orders| && l.fills[j].order == i
                && l.fills[j].quantity == l.orders[i].quantity
  }

  lemma {:induction false} SumOfTwo(fills: seq<Fill>, i: nat, j: nat)
    requires j < |fills| && fills[j].order == i && forall k :: 0 <= k < |fills| ==> fills[k].quantity > 0.0
    ensures Sum(fills, FilledOf(i)) >= fills[j].quantity && FillCount(fills, i) >= 1
    ensures FillCount(fills, i) >= 2 ==> Sum(fills, FilledOf(i)) > fills[j].quantity
  {
    var n := |fills| - 1;
    var before := fills[..n];
    if j < n {
      SumOfTwo(before, i, j);
    } else {
      SumPositive(before, i);
    }
  }

  lemma {:induction false} SumPositive(fills: seq<Fill>, i: nat)
    requires forall k :: 0 <= k < |fills| ==> fills[k].quantity > 0.0
    ensures Sum(fills, FilledOf(i)) >= 0.0 && (FillCount(fills, i) >= 1 ==> Sum(fills, FilledOf(i)) > 0.0)
  {
    if fills != [] {
      SumPositive(fills[..|fills| - 1], i);
    }
  }

  /** A fill of the whole order is its only one, and the order is FILLED. */
  lemma {:induction false} WholeFillIsOnly(cfg: Config, l: Ledger, first: nat, i: nat)
    requires Laws(cfg, l) && FilledWhole(l, first, i)
    ensures i < |l.orders| && FillCount(l.fills, i) == 1 && l.orders[i].status == Filled
  {
    hide Causal, Paced, ReservationsBacked, NoReversal, ReduceOnlySafe, ClientsDistinct, Dated;
    var j :| first <= j < |l.fills| && i < |l.orders| && l.fills[j].order == i
             && l.fills[j].quantity == l.orders[i].quantity;
    assert forall k :: 0 <= k < |l.fills| ==> FillOk(l.orders, l.fills[k]);
    assert OrderOk(l.orders[i], i) && Sum(l.fills, FilledOf(i)) == l.orders[i].filled;
    SumOfTwo(l.fills, i, j);
  }

  /** Placing the intents turned l into l': exactly the first uses become orders, and only these are filled. */
  ghost predicate Placed(l: Ledger, l': Ledger, intents: seq<Intent>) {
    && |l.orders| <= |l'.orders| && |l.fills| <= |l'.fills|
    && IntentsOf(l'.orders[|l.orders|..]) == FirstUses(ClientIds(l.orders), intents)
    && (forall j :: |l.fills| <= j < |l'.fills| ==> l'.fills[j].order >= |l.orders|)
    && (forall i :: |l.orders| <= i < |l'.orders| && l'.orders[i].orderType == Market && !l'.orders[i].reduceOnly ==>
          FilledWhole(l', |l.fills|, i))
  }

  lemma KnownIds(l: Ledger, c: string)
    ensures Known(l, c) <==> c in ClientIds(l.orders)
  {
  }

  lemma {:induction false} OneUse(taken: set<string>, intent: Intent)
    ensures FirstUses(taken, [intent]) == if intent.clientId in taken then [] else [intent]
  {
    assert [intent][1..] == [];
    assert FirstUses(taken, []) == [] && FirstUses(taken + {intent.clientId}, []) == [];
  }

  lemma NothingPlaced(l: Ledger)
    ensures Placed(l, l, [])
  {
    assert l.orders[|l.orders|..] == [];
  }

  lemma KnownPlaced(l: Ledger, intent: Intent)
    requires Known(l, intent.clientId)
    ensures Placed(l, l, [intent])
  {
    KnownIds(l, intent.clientId);
    OneUse(ClientIds(l.orders), intent);
    assert l.orders[|l.orders|..] == [];
  }

  lemma NewPlaced(l: Ledger, l': Ledger, intent: Intent)
    requires !Known(l, intent.clientId)
    requires |l'.orders| == |l.orders| + 1 && IntentOf(l'.orders[|l.orders|]) == intent
    requires |l.fills| <= |l'.fills| <= |l.fills| + 1
    requires |l'.fills| == |l.fills| + 1 ==> l'.fills[|l.fills|].order == |l.orders|
    requires intent.orderType == Market && !intent.reduceOnly ==>
               |l'.fills| == |l.fills| + 1 && l'.fills[|l.fills|].quantity == intent.quantity
    ensures Placed(l, l', [intent])
  {
    KnownIds(l, intent.clientId);
    OneUse(ClientIds(l.orders), intent);
    var news := l'.orders[|l.orders|..];
    assert news == [l'.orders[|l.orders|]];
    assert IntentsOf(news) == [IntentOf(news[0])];
  }

  /** One intent: an order if its client id is new, filled whole at once if it is a MARKET order. */
  lemma PlaceOneExact(cfg: Config, l: Ledger, e: Event, strategy: Strategy, intent: Intent)
    requires Laws(cfg, l) && MarketsDone(l) && l.clean && TradingEnabled(cfg, l.now) && Ongoing(l, e)
    requires PlaceOne(cfg, l, e, strategy, intent).1
    ensures Placed(l, PlaceOne(cfg, l, e, strategy, intent).0, [intent])
  {
    hide Laws, PlaceOne, Placed, MarketsDone;
    if Known(l, intent.clientId) {
      PlacedAgain(cfg, l, e, strategy, intent);
      KnownPlaced(l, intent);
    } else {
      PlacedNew(cfg, l, e, strategy, intent);
      NewPlaced(l, PlaceOne(cfg, l, e, strategy, intent).0, intent);
    }
  }

  lemma PlacedAgain(cfg: Config, l: Ledger, e: Event, strategy: Strategy, intent: Intent)
    requires Laws(cfg, l) && MarketsDone(l) && l.clean && Known(l, intent.clientId)
    ensures PlaceOne(cfg, l, e, strategy, intent).0 == l
  {
    hide Laws;
    var i :| 0 <= i < |l.orders| && l.orders[i].clientId == intent.clientId;
    ResubmissionIsIdempotent(cfg, l, e, strategy, intent, i);
  }

  lemma PlacedNew(cfg: Config, l: Ledger, e: Event, strategy: Strategy, intent: Intent)
    requires Laws(cfg, l) && TradingEnabled(cfg, l.now) && Ongoing(l, e) && !Known(l, intent.clientId)
    requires PlaceOne(cfg, l, e, strategy, intent).1
    ensures var l', n, k := PlaceOne(cfg, l, e, strategy, intent).0, |l.orders|, |l.fills|;
            && |l'.orders| == n + 1 && IntentOf(l'.orders[n]) == intent
            && k <= |l'.fills| <= k + 1
            && (|l'.fills| == k + 1 ==> l'.fills[k].order == n)
            && (intent.orderType == Market && !intent.reduceOnly ==>
                  |l'.fills| == k + 1 && l'.fills[k].quantity == intent.quantity)
  {
    hide Laws, Settle, Evolves, Place;
    PlaceKeepsLaws(cfg, l, intent);
    PlacedAsAsked(cfg, l, intent);
    var (m, placed) := Place(l, intent);
    PlacedFresh(cfg, l, intent);
    var n := |l.orders|;
    if m.orders[n].orderType == Market && m.orders[n].status == New {
      MarketIsFillable(cfg, m, n);
      SettledFill(cfg, m, e, strategy, n);
      SettleKeepsLaws(cfg, m, e, strategy, n);
      SameIntent(m, Settle(cfg, m, e, strategy, n).0, n);
    }
  }

  lemma PlacedFresh(cfg: Config, l: Ledger, intent: Intent)
    requires Place(l, intent).1.Some? && !Known(l, intent.clientId)
    ensures Place(l, intent).0 == Append(l, intent) && Append(l, intent).orders[|l.orders|].status == New
    ensures Append(l, intent).orders[|l.orders|].filled == 0.0
  {
  }

  lemma SameIntent(l: Ledger, l': Ledger, i: nat)
    requires Evolves(l, l') && i < |l.orders|
    ensures IntentOf(l'.orders[i]) == IntentOf(l.orders[i])
  {
    assert OrderEvolves(l.orders[i], l'.orders[i]);
  }

  /** An attempt at a fill adds at most one, of that order; a MARKET order that may open fills in full. */
  lemma SettledFill(cfg: Config, l: Ledger, e: Event, strategy: Strategy, i: nat)
    requires Laws(cfg, l) && Fillable(cfg, l, i) && Ongoing(l, e) && Settle(cfg, l, e, strategy, i).1
    ensures var l', k := Settle(cfg, l, e, strategy, i).0, |l.fills|;
            && k <= |l'.fills| <= k + 1 && (|l'.fills| == k + 1 ==> l'.fills[k].order == i)
            && (l.orders[i].orderType == Market && !l.orders[i].reduceOnly && l.orders[i].filled == 0.0 ==>
                  |l'.fills| == k + 1 && l'.fills[k].quantity == l.orders[i].quantity)
  {
    hide Laws, AfterCallback, Evolves;
    ExecuteFillKeepsLaws(cfg, l, i);
    var (m, attempt) := ExecuteFill(cfg, l, i, e.open);
    if attempt.Executed? {
      CallbackKeepsLaws(cfg, m, strategy.onFill(m.calls));
    }
  }

  lemma IntentsConcat(a: seq<Order>, b: seq<Order>)
    ensures IntentsOf(a + b) == IntentsOf(a) + IntentsOf(b)
  {
  }

  lemma IntentsEvolve(l: Ledger, l': Ledger, n: nat)
    requires Evolves(l, l') && n <= |l.orders|
    ensures IntentsOf(l'.orders[n..|l.orders|]) == IntentsOf(l.orders[n..])
  {
    var a, b := l.orders[n..], l'.orders[n..|l.orders|];
    forall k | 0 <= k < |a|
      ensures IntentOf(b[k]) == IntentOf(a[k])
    {
      SameIntent(l, l', n + k);
    }
  }

  lemma {:induction false} FirstUsesSplit(taken: set<string>, intent: Intent, rest: seq<Intent>)
    ensures FirstUses(taken, [intent] + rest)
         == FirstUses(taken, [intent]) + FirstUses(taken + {intent.clientId}, rest)
  {
    assert ([intent] + rest)[1..] == rest && [intent][1..] == [];
    if intent.clientId in taken {
      assert taken + {intent.clientId} == taken;
    }
  }

  lemma ClientsAfter(l: Ledger, m: Ledger, intent: Intent)
    requires Evolves(l, m) && Placed(l, m, [intent])
    ensures ClientIds(m.orders) == ClientIds(l.orders) + {intent.clientId}
  {
    OneUse(ClientIds(l.orders), intent);
    var news := m.orders[|l.orders|..];
    assert |IntentsOf(news)| == |news|;
    forall i | 0 <= i < |l.orders|
      ensures m.orders[i].clientId == l.orders[i].clientId
    {
      SameIntent(l, m, i);
    }
    if intent.clientId !in ClientIds(l.orders) {
      assert IntentsOf(news)[0] == intent && news[0] == m.orders[|l.orders|];
      assert m.orders[|l.orders|].clientId == intent.clientId;
    } else {
      assert |m.orders| == |l.orders|;
    }
    forall c | c in ClientIds(l.orders)
      ensures c in ClientIds(m.orders)
    {
      var i :| 0 <= i < |l.orders| && l.orders[i].clientId == c;
      assert m.orders[i].clientId == c;
    }
    forall c | c in ClientIds(m.orders)
      ensures c in ClientIds(l.orders) + {intent.clientId}
    {
      var i :| 0 <= i < |m.orders| && m.orders[i].clientId == c;
      assert i < |l.orders| ==> l.orders[i].clientId == c;
    }
  }

  lemma PlacedThenPlaced(l: Ledger, m: Ledger, l': Ledger, intent: Intent, rest: seq<Intent>)
    requires Evolves(l, m) && Evolves(m, l') && Placed(l, m, [intent]) && Placed(m, l', rest)
    ensures Placed(l, l', [intent] + rest)
  {
    var n := |l.orders|;
    ClientsAfter(l, m, intent);
    FirstUsesSplit(ClientIds(l.orders), intent, rest);
    IntentsEvolve(m, l', n);
    assert l'.orders[n..] == l'.orders[n..|m.orders|] + l'.orders[|m.orders|..];
    IntentsConcat(l'.orders[n..|m.orders|], l'.orders[|m.orders|..]);
    hide IntentsOf, FirstUses;
    forall j | |l.fills| <= j < |l'.fills|
      ensures l'.fills[j].order >= n
    {
      assert j < |m.fills| ==> l'.fills[j] == m.fills[j];
    }
    forall i | n <= i < |l'.orders| && l'.orders[i].orderType == Market && !l'.orders[i].reduceOnly
      ensures FilledWhole(l', |l.fills|, i)
    {
      if i < |m.orders| {
        assert OrderEvolves(m.orders[i], l'.orders[i]);
        var j :| |l.fills| <= j < |m.fills| && m.fills[j].order == i && m.fills[j].quantity == m.orders[i].quantity;
        assert l'.fills[j] == m.fills[j];
      }
    }
  }

  /** All intents: exactly the first uses of a client id become orders, in the order of the intents. */
  lemma {:induction false} PlaceAllExact(cfg: Config, l: Ledger, e: Event, strategy: Strategy, intents: seq<Intent>)
    requires Laws(cfg, l) && MarketsDone(l) && l.clean && TradingEnabled(cfg, l.now) && Ongoing(l, e)
    requires PlaceAll(cfg, l, e, strategy, intents).1
    ensures Placed(l, PlaceAll(cfg, l, e, strategy, intents).0, intents)
    decreases |intents|
  {
    hide Laws, MarketsDone, PlaceOne, Evolves, Placed;
    if intents == [] {
      NothingPlaced(l);
    } else {
      PlaceOneKeepsLaws(cfg, l, e, strategy, intents[0]);
      PlaceOneExact(cfg, l, e, strategy, intents[0]);
      var m := PlaceOne(cfg, l, e, strategy, intents[0]).0;
      PlaceAllKeepsLaws(cfg, m, e, strategy, intents[1..]);
      PlaceAllExact(cfg, m, e, strategy, intents[1..]);
      assert intents == [intents[0]] + intents[1..];
      PlacedThenPlaced(l, m, PlaceAll(cfg, l, e, strategy, intents).0, intents[0], intents[1..]);
    }
  }

  // ---------------------------------------------------------------------------
  // One event, and every event of a run
  // ---------------------------------------------------------------------------

  /** From the start of trading on, and always when no start is set. */
  ghost predicate TradingOpen(cfg: Config, now: int) {
    cfg.tradingStart.Some? ==> cfg.tradingStart.value <= now
  }

  /**
   An event without an error has led from l to l'.  Callback `at` is the one for the event; the fills
   of older orders come before it, those of new orders after it.  Callbacks take effect, orders end
   for a reason, and the new orders are exactly what the strategy asked for.
   */
  ghost predicate EventDone(cfg: Config, strategy: Strategy, l: Ledger, e: Event, l': Ledger, at: nat) {
    && l.calls <= at < l'.calls
    && During(cfg, strategy, at, l.(events := l.events + [e], now := e.availableTime), l')
    && (forall j :: |l.fills| <= j < |l'.fills| ==>
          (l'.fills[j].order < |l.orders| <==> j - |l.fills| < at - l.calls))
    && |l.orders| <= |l'.orders|
    && IntentsOf(l'.orders[|l.orders|..])
       == (if TradingOpen(cfg, e.availableTime)
           then FirstUses(ClientIds(l.orders), strategy.onEvent(at).intents) else [])
    && (forall i :: |l.orders| <= i < |l'.orders| && l'.orders[i].orderType == Market && !l'.orders[i].reduceOnly ==>
          FilledWhole(l', |l.fills|, i))
  }

  lemma SameClientIds(l: Ledger, l': Ledger)
    requires Evolves(l, l') && |l'.orders| == |l.orders|
    ensures ClientIds(l'.orders) == ClientIds(l.orders)
  {
    forall i | 0 <= i < |l.orders|
      ensures l'.orders[i].clientId == l.orders[i].clientId
    {
      SameIntent(l, l', i);
    }
  }

  /** The reaction: nothing is placed before trading opens, then exactly the first uses. */
  lemma ReactPlaces(cfg: Config, l: Ledger, e: Event, strategy: Strategy)
    requires Laws(cfg, l) && MarketsDone(l) && l.clean && Ongoing(l, e) && React(cfg, l, e, strategy).1
    ensures Placed(l, React(cfg, l, e, strategy).0,
                   if TradingOpen(cfg, l.now) then strategy.onEvent(l.calls).intents else [])
  {
    hide Laws, MarketsDone, PlaceAll, AfterCallback;
    var response := strategy.onEvent(l.calls);
    var m := AfterCallback(l, response.cancels);
    CallbackKeepsLaws(cfg, l, response.cancels);
    MarketsStayDone(l, m);
    SameClientIds(l, m);
    NothingPlaced(m);
    if TradingEnabled(cfg, l.now) {
      PlaceAllExact(cfg, m, e, strategy, response.intents);
    }
  }

  lemma {:induction false} EventFollowsStrategy(cfg: Config, l: Ledger, e: Event, strategy: Strategy) returns (at: nat)
    requires Laws(cfg, l) && MarketsDone(l) && l.clean && ProcessEvent(cfg, l, e, strategy).1
    ensures EventDone(cfg, strategy, l, e, ProcessEvent(cfg, l, e, strategy).0, at)
  {
    hide Laws, MarketsDone, CheckFills, React;
    var b := Begin(l, e);
    BeginKeepsLaws(cfg, l, e);
    BeginKeepsMarkets(l, e);
    CheckFillsKeepsLaws(cfg, b, e, strategy);
    CheckFillsDuring(cfg, b, e, strategy);
    var m := CheckFills(cfg, b, e, strategy).0;
    at := m.calls;
    ClockOf(cfg, m);
    ReactDuring(cfg, m, e, strategy);
    ReactPlaces(cfg, m, e, strategy);
    DuringTransitive(cfg, strategy, at, b, m, React(cfg, m, e, strategy).0);
    JoinPhases(cfg, strategy, l, e, b, m, React(cfg, m, e, strategy).0, at);
  }

  lemma JoinPhases(cfg: Config, strategy: Strategy, l: Ledger, e: Event, b: Ledger, m: Ledger, l': Ledger, at: nat)
    requires b == l.(events := l.events + [e], now := e.availableTime) && at == m.calls < l'.calls
    requires During(cfg, strategy, at, b, m) && During(cfg, strategy, at, m, l') && During(cfg, strategy, at, b, l')
    requires |m.orders| == |l.orders|
    requires Placed(m, l', if TradingOpen(cfg, e.availableTime) then strategy.onEvent(at).intents else [])
    ensures EventDone(cfg, strategy, l, e, l', at)
  {
    hide Obeyed, Explained, History, IntentsOf, ClientIds;
    SameClientIds(b, m);
    assert |m.fills| - |l.fills| == at - l.calls;
    forall j | |l.fills| <= j < |l'.fills|
      ensures l'.fills[j].order < |l.orders| <==> j - |l.fills| < at - l.calls
    {
      assert j < |m.fills| ==> l'.fills[j] == m.fills[j];
    }
    forall i | |l.orders| <= i < |l'.orders| && l'.orders[i].orderType == Market && !l'.orders[i].reduceOnly
      ensures FilledWhole(l', |l.fills|, i)
    {
      assert FilledWhole(l', |m.fills|, i);
    }
  }

  /** Every event of an error-free run does what the strategy asks of it. */
  lemma {:induction false} RunFollowsStrategy(
    cfg: Config, l: Ledger, events: seq<Event>, strategy: Strategy, k: nat) returns (at: nat)
    requires Laws(cfg, l) && MarketsDone(l) && l.clean && k < |events| && Run(cfg, l, events[..k + 1], strategy).1
    ensures EventDone(cfg, strategy, Run(cfg, l, events[..k], strategy).0, events[k],
                      Run(cfg, l, events[..k + 1], strategy).0, at)
  {
    hide Laws, MarketsDone, Run, ProcessEvent, Evolves, EventDone;
    RunKeepsLaws(cfg, l, events[..k], strategy);
    RunOneMore(cfg, l, events, strategy, k);
    at := EventFollowsStrategy(cfg, Run(cfg, l, events[..k], strategy).0, events[k], strategy);
  }

  // ---------------------------------------------------------------------------
  // A bar fills what it crosses
  // ---------------------------------------------------------------------------

  /** A resting order that the bar reaches while its time to live is not over. */
  ghost predicate Reached(cfg: Config, o: Order, e: Event) {
    && o.Active() && o.symbol == e.symbol && e.timeframe == cfg.executionTimeframe
    && (if o.side == Sell then o.price < e.high else e.low < o.price)
    && (o.ttl.Some? && o.ttl.value != 0 ==> e.availableTime < o.createdAt + o.ttl.value)
  }

  ghost predicate FilledBetween(l: Ledger, l': Ledger, i: nat) {
    exists j :: |l.fills| <= j < |l'.fills| && l'.fills[j].order == i
  }

  lemma {:induction false} MoreFilled(fills: seq<Fill>, fills': seq<Fill>, i: nat)
    requires fills <= fills' && Sum(fills, FilledOf(i)) != Sum(fills', FilledOf(i))
    ensures exists j :: |fills| <= j < |fills'| && fills'[j].order == i
    decreases |fills'|
  {
    assert |fills'| == |fills| ==> fills' == fills;
    var n := |fills'| - 1;
    if fills'[n].order != i {
      assert fills <= fills'[..n];
      MoreFilled(fills, fills'[..n], i);
    }
  }

  lemma FilledMeansFills(cfg: Config, l: Ledger, l': Ledger, i: nat)
    requires Laws(cfg, l) && Laws(cfg, l') && Evolves(l, l') && i < |l.orders|
    requires l.orders[i].Active() && l'.orders[i].status == Filled
    ensures FilledBetween(l, l', i)
  {
    assert OrderOk(l.orders[i], i) && OrderOk(l'.orders[i], i) && OrderEvolves(l.orders[i], l'.orders[i]);
    assert Sum(l.fills, FilledOf(i)) == l.orders[i].filled && Sum(l'.fills, FilledOf(i)) == l'.orders[i].filled;
    MoreFilled(l.fills, l'.fills, i);
  }

  /**
   An error-free bar fills every resting order it reaches, unless a callback of the event cancels it,
   or it is reduce-only and at some moment of the event has nothing to close.
   */
  lemma {:induction false} ReachedOrderFills(
    cfg: Config, l: Ledger, e: Event, strategy: Strategy, i: nat) returns (at: nat)
    requires Laws(cfg, l) && MarketsDone(l) && l.clean && ProcessEvent(cfg, l, e, strategy).1
    requires i < |l.orders| && Reached(cfg, l.orders[i], e)
    ensures var l' := ProcessEvent(cfg, l, e, strategy).0;
            && EventDone(cfg, strategy, l, e, l', at) && i < |l'.orders|
            && (|| FilledBetween(l, l', i)
                || CancelledBy(strategy, at, l, l', l'.orders[i])
                || (l'.orders[i].reduceOnly && NothingToClose(l, l', l'.orders[i])))
  {
    hide Laws, MarketsDone, ProcessEvent;
    var l' := ProcessEvent(cfg, l, e, strategy).0;
    ProcessEventKeepsLaws(cfg, l, e, strategy);
    at := EventFollowsStrategy(cfg, l, e, strategy);
    EventLeavesNoneBehind(cfg, l, e, strategy, i);
    assert OrderEvolves(l.orders[i], l'.orders[i]);
    match l'.orders[i].status
    case Filled => FilledMeansFills(cfg, l, l', i);
    case New => ActiveIsFilled(cfg, l, l', e, i);
    case PartiallyFilled => ActiveIsFilled(cfg, l, l', e, i);
    case Cancelled => EndedForReason(cfg, strategy, l, e, l', at, i);
    case Expired => EndedForReason(cfg, strategy, l, e, l', at, i);
  }

  /** So over a whole run, bar by bar. */
  lemma {:induction false} RunFillsReached(
    cfg: Config, l: Ledger, events: seq<Event>, strategy: Strategy, k: nat, i: nat) returns (at: nat)
    requires Laws(cfg, l) && MarketsDone(l) && l.clean && k < |events| && Run(cfg, l, events[..k + 1], strategy).1
    requires var before := Run(cfg, l, events[..k], strategy).0;
             i < |before.orders| && Reached(cfg, before.orders[i], events[k])
    ensures var before, after := Run(cfg, l, events[..k], strategy).0, Run(cfg, l, events[..k + 1], strategy).0;
            && EventDone(cfg, strategy, before, events[k], after, at) && i < |after.orders|
            && (|| FilledBetween(before, after, i)
                || CancelledBy(strategy, at, before, after, after.orders[i])
                || (after.orders[i].reduceOnly && NothingToClose(before, after, after.orders[i])))
  {
    hide Laws, MarketsDone, Run, ProcessEvent, Evolves, EventDone, Reached;
    RunKeepsLaws(cfg, l, events[..k], strategy);
    RunOneMore(cfg, l, events, strategy, k);
    at := ReachedOrderFills(cfg, Run(cfg, l, events[..k], strategy).0, events[k], strategy, i);
  }

  lemma EndedForReason(cfg: Config, strategy: Strategy, l: Ledger, e: Event, l': Ledger, at: nat, i: nat)
    requires EventDone(cfg, strategy, l, e, l', at) && i < |l.orders| && Reached(cfg, l.orders[i], e)
    requires l'.orders[i].status == Cancelled || l'.orders[i].status == Expired
    ensures CancelledBy(strategy, at, l, l', l'.orders[i])
         || (l'.orders[i].reduceOnly && NothingToClose(l, l', l'.orders[i]))
  {
    hide Obeyed, History;
    var b := l.(events := l.events + [e], now := e.availableTime);
    assert OrderEvolves(b.orders[i], l'.orders[i]);
    assert EndExplained(strategy, at, b, l', l'.orders[i]);
    if l'.orders[i].status == Cancelled {
      var n :| b.calls <= n < l'.calls && l'.orders[i].id in Named(strategy, at, n);
      assert CancelledBy(strategy, at, l, l', l'.orders[i]);
    } else {
      assert NothingToClose(b, l', l'.orders[i]);
    }
  }

  lemma ActiveIsFilled(cfg: Config, l: Ledger, l': Ledger, e: Event, i: nat)
    requires Laws(cfg, l) && Laws(cfg, l') && Evolves(l, l') && l'.events == l.events + [e]
    requires i < |l.orders| && Reached(cfg, l.orders[i], e) && l'.orders[i].Active() && Handled(l', e, i)
    ensures FilledBetween(l, l', i)
  {
    assert OrderEvolves(l.orders[i], l'.orders[i]);
    var j :| 0 <= j < |l'.fills| && j < |l'.filledOn| && l'.fills[j].order == i && l'.filledOn[j] == |l'.events|;
    assert forall k :: 0 <= k < |l.filledOn| ==> l'.filledOn[k] == l.filledOn[k] <= |l.events|;
  }

  // ---------------------------------------------------------------------------
  // The histories of every run
  // ---------------------------------------------------------------------------

  lemma ProcessEventHistory(cfg: Config, l: Ledger, e: Event, strategy: Strategy)
    requires Laws(cfg, l) && MarketsDone(l) && History(cfg, l)
    ensures History(cfg, ProcessEvent(cfg, l, e, strategy).0)
  {
    hide Laws, MarketsDone, CheckFills, React, History;
    var b := Begin(l, e);
    BeginKeepsLaws(cfg, l, e);
    BeginKeepsMarkets(l, e);
    SameHistory(cfg, l, b);
    CheckFillsKeepsLaws(cfg, b, e, strategy);
    CheckFillsDuring(cfg, b, e, strategy);
    var (m, ok) := CheckFills(cfg, b, e, strategy);
    if ok {
      ReactDuring(cfg, m, e, strategy);
    }
  }

  lemma {:induction false} RunHistory(cfg: Config, l: Ledger, events: seq<Event>, strategy: Strategy)
    requires Laws(cfg, l) && MarketsDone(l) && History(cfg, l)
    ensures History(cfg, Run(cfg, l, events, strategy).0)
    decreases |events|
  {
    hide Laws, MarketsDone, ProcessEvent, History, Evolves;
    if events != [] {
      ProcessEventKeepsLaws(cfg, l, events[0], strategy);
      ProcessEventHistory(cfg, l, events[0], strategy);
      var (m, ok) := ProcessEvent(cfg, l, events[0], strategy);
      if ok {
        RunHistory(cfg, m, events[1..], strategy);
      }
    }
  }

  /** In every state of every run: stamps, reasons for expiry and the size of every fill are as they should be. */
  lemma {:induction false} EveryRunHasHistory(cfg: Config, now: int, events: seq<Event>, strategy: Strategy)
    ensures History(cfg, Run(cfg, Initial(now), events, strategy).0)
  {
    InitialIsLawful(cfg, now);
    RunHistory(cfg, Initial(now), events, strategy);
  }
}
