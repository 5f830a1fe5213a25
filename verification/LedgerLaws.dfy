/**
 What every reachable ledger satisfies, and what every step keeps.

 Each law is a predicate of its own.  The three primitive changes of a ledger (retiring an active
 order, appending an order, booking a fill) are shown to keep each law; `LedgerRuns` lifts this to
 whole events and whole runs.
 */
module LedgerLaws {
  import opened LedgerModel

  // ---------------------------------------------------------------------------
  // The laws
  // ---------------------------------------------------------------------------

  ghost predicate Shape(l: Ledger) {
    && |l.placedOn| == |l.orders| && |l.filledOn| == |l.fills|
    && (forall i :: 0 <= i < |l.placedOn| ==> 1 <= l.placedOn[i] <= |l.events|)
    && (forall j :: 0 <= j < |l.filledOn| ==> 1 <= l.filledOn[j] <= |l.events|)
    && (l.events != [] ==> l.now == l.events[|l.events| - 1].availableTime)
  }

  /** FILLED means exactly that nothing remains. */
  ghost predicate OrderOk(o: Order, i: nat) {
    && o.id.counter == i + 1
    && o.quantity > 0.0
    && 0.0 <= o.filled <= o.quantity
    && (o.filled == o.quantity <==> o.status == Filled)
    && (o.status == New ==> o.filled == 0.0)
  }

  ghost predicate OrdersOk(orders: seq<Order>) {
    forall i :: 0 <= i < |orders| ==> OrderOk(orders[i], i)
  }

  ghost predicate ClientsDistinct(orders: seq<Order>) {
    forall i, j :: 0 <= i < j < |orders| ==> orders[i].clientId != orders[j].clientId
  }

  ghost predicate FillOk(orders: seq<Order>, f: Fill) {
    && f.order < |orders|
    && f.symbol == orders[f.order].symbol
    && f.side == orders[f.order].side
    && f.quantity > 0.0
  }

  ghost predicate FillsOk(orders: seq<Order>, fills: seq<Fill>) {
    forall j :: 0 <= j < |fills| ==> FillOk(orders, fills[j])
  }

  /** The fills of an order add up to its filled quantity. */
  ghost predicate Tallied(orders: seq<Order>, fills: seq<Fill>) {
    forall i :: 0 <= i < |orders| ==> Sum(fills, FilledOf(i)) == orders[i].filled
  }

  /** k equal slices, each what one bar may fill of a LIMIT order. */
  ghost function Slices(k: nat, slice: real): real {
    k as real * slice
  }

  ghost function Slice(cfg: Config, o: Order): real {
    o.quantity * cfg.fraction
  }

  /** An order that is still active after k partial fills has filled k equal slices. */
  ghost predicate OnPace(cfg: Config, o: Order, k: nat) {
    o.orderType == Limit ==>
      && (o.Active() ==> o.filled == Slices(k, Slice(cfg, o)))
      && (k >= 1 ==> Slices(k, Slice(cfg, o)) < o.quantity + Slice(cfg, o))
  }

  ghost predicate Paced(cfg: Config, orders: seq<Order>, fills: seq<Fill>) {
    forall i :: 0 <= i < |orders| ==> OnPace(cfg, orders[i], FillCount(fills, i))
  }

  ghost predicate NotBeforeStart(cfg: Config, orders: seq<Order>) {
    forall i :: 0 <= i < |orders| ==> TradingEnabled(cfg, orders[i].createdAt)
  }

  /** An order carries the time of the event that placed it. */
  ghost predicate Dated(l: Ledger)
    requires Shape(l)
  {
    forall i :: 0 <= i < |l.orders| ==> l.orders[i].createdAt == l.events[l.placedOn[i] - 1].availableTime
  }

  /**
   A fill is justified by the event it is recorded on: its time, price and commission follow from
   that event; and for a LIMIT order that event is later than the placement and inside the time to
   live, and is a bar of the order's symbol and the execution timeframe that strictly crosses its price.
   */
  ghost predicate FillJustified(cfg: Config, o: Order, placed: nat, f: Fill, filled: nat, e: Event) {
    && f.time == e.availableTime && placed <= filled
    && f.price == FillPrice(cfg, o, e.open)
    && f.isMaker == (o.orderType == Limit) && f.commission == Commission(cfg, f.quantity, f.price, f.isMaker)
    && (o.orderType == Limit ==>
          && placed < filled
          && (o.ttl.Some? && o.ttl.value != 0 ==> f.time < o.createdAt + o.ttl.value)
          && CrossedBy(cfg, o, e))
  }

  ghost predicate CrossedBy(cfg: Config, o: Order, e: Event) {
    && e.symbol == o.symbol && e.timeframe == cfg.executionTimeframe
    && (o.side == Sell ==> o.price < e.high) && (o.side == Buy ==> e.low < o.price)
  }

  ghost predicate CausalFill(cfg: Config, l: Ledger, j: nat)
    requires Shape(l) && j < |l.fills|
  {
    var i := l.fills[j].order;
    i < |l.orders| ==>
      FillJustified(cfg, l.orders[i], l.placedOn[i], l.fills[j], l.filledOn[j], l.events[l.filledOn[j] - 1])
  }

  ghost predicate Causal(cfg: Config, l: Ledger)
    requires Shape(l)
  {
    forall j :: 0 <= j < |l.fills| ==> CausalFill(cfg, l, j)
  }

  /** The position just before the j-th fill, in that fill's symbol. */
  ghost function NetBefore(fills: seq<Fill>, j: nat): real
    requires j < |fills|
  {
    Net(fills[..j], fills[j].symbol)
  }

  ghost predicate ClosingFill(fills: seq<Fill>, j: nat)
    requires j < |fills|
  {
    Closes(fills[j].side, NetBefore(fills, j))
  }

  /** No fill takes a position through zero. */
  ghost predicate KeepsSide(fills: seq<Fill>, j: nat)
    requires j < |fills|
  {
    ClosingFill(fills, j) ==> fills[j].quantity <= Abs(NetBefore(fills, j))
  }

  ghost predicate NoReversal(fills: seq<Fill>) {
    forall j :: 0 <= j < |fills| ==> KeepsSide(fills, j)
  }

  ghost predicate ReduceOnlyFill(orders: seq<Order>, f: Fill) {
    f.order < |orders| && orders[f.order].reduceOnly
  }

  /** A reduce-only fill only ever shrinks a position: it never opens, grows or flips one. */
  ghost predicate ReduceOnlySafe(orders: seq<Order>, fills: seq<Fill>) {
    forall j :: 0 <= j < |fills| && ReduceOnlyFill(orders, fills[j]) ==>
                  ClosingFill(fills, j) && fills[j].quantity <= Abs(NetBefore(fills, j))
  }

  ghost predicate ClosersReduceOnly(orders: seq<Order>, fills: seq<Fill>) {
    forall j :: 0 <= j < |fills| && ClosingFill(fills, j) ==> ReduceOnlyFill(orders, fills[j])
  }

  ghost predicate Reserves(o: Order, s: Symbol) {
    o.Active() && o.reduceOnly && o.symbol == s
  }

  /** Active reduce-only orders never ask for more than the position and sit on its closing side. */
  ghost predicate Backed(orders: seq<Order>, net: real, s: Symbol) {
    && Reserved(orders, s) <= Abs(net)
    && (forall i :: 0 <= i < |orders| && Reserves(orders[i], s) ==> Closes(orders[i].side, net))
  }

  ghost predicate ReservationsBacked(orders: seq<Order>, fills: seq<Fill>) {
    ClosersReduceOnly(orders, fills) ==> forall s :: Backed(orders, Net(fills, s), s)
  }

  ghost predicate Laws(cfg: Config, l: Ledger) {
    && Shape(l)
    && OrdersOk(l.orders)
    && ClientsDistinct(l.orders)
    && FillsOk(l.orders, l.fills)
    && Tallied(l.orders, l.fills)
    && Paced(cfg, l.orders, l.fills)
    && NotBeforeStart(cfg, l.orders)
    && Dated(l)
    && Causal(cfg, l)
    && NoReversal(l.fills)
    && ReduceOnlySafe(l.orders, l.fills)
    && ReservationsBacked(l.orders, l.fills)
  }

  // ---------------------------------------------------------------------------
  // History only grows
  // ---------------------------------------------------------------------------

  /** Terms never change, fills only add up, and a final status is final. */
  ghost predicate OrderEvolves(o: Order, o': Order) {
    && o.SameTerms(o')
    && o.filled <= o'.filled
    && (!o.Active() ==> o' == o)
  }

  ghost predicate Evolves(l: Ledger, l': Ledger) {
    && |l.orders| <= |l'.orders|
    && (forall i :: 0 <= i < |l.orders| ==> OrderEvolves(l.orders[i], l'.orders[i]))
    && l.fills <= l'.fills
    && l.placedOn <= l'.placedOn
    && l.filledOn <= l'.filledOn
    && l.events <= l'.events
    && (l'.clean ==> l.clean)
  }

  lemma EvolvesReflexive(l: Ledger)
    ensures Evolves(l, l)
  {
  }

  lemma EvolvesTransitive(a: Ledger, b: Ledger, c: Ledger)
    requires Evolves(a, b) && Evolves(b, c)
    ensures Evolves(a, c)
  {
    forall i | 0 <= i < |a.orders|
      ensures OrderEvolves(a.orders[i], c.orders[i])
    {
      assert OrderEvolves(a.orders[i], b.orders[i]);
      assert OrderEvolves(b.orders[i], c.orders[i]);
    }
  }

  // ---------------------------------------------------------------------------
  // Sums
  // ---------------------------------------------------------------------------

  lemma {:induction false} SumAppend(fills: seq<Fill>, f: Fill, m: Measure)
    ensures Sum(fills + [f], m) == Sum(fills, m) + Weight(m, f)
  {
    assert (fills + [f])[..|fills|] == fills;
  }

  lemma {:induction false} FillCountAppend(fills: seq<Fill>, f: Fill, i: nat)
    ensures FillCount(fills + [f], i) == FillCount(fills, i) + if f.order == i then 1 else 0
  {
    assert (fills + [f])[..|fills|] == fills;
  }

  /** An order nobody has filled yet. */
  lemma {:induction false} Unfilled(fills: seq<Fill>, i: nat)
    requires forall j :: 0 <= j < |fills| ==> fills[j].order != i
    ensures Sum(fills, FilledOf(i)) == 0.0 && FillCount(fills, i) == 0
  {
    if fills != [] {
      Unfilled(fills[..|fills| - 1], i);
    }
  }

  lemma {:induction false} ReservedAppend(orders: seq<Order>, o: Order, s: Symbol)
    ensures Reserved(orders + [o], s) == Reserved(orders, s) + ReservedBy(o, s)
  {
    assert (orders + [o])[..|orders|] == orders;
  }

  lemma {:induction false} ReservedUpdate(orders: seq<Order>, i: nat, o: Order, s: Symbol)
    requires i < |orders|
    ensures Reserved(orders[i := o], s) == Reserved(orders, s) - ReservedBy(orders[i], s) + ReservedBy(o, s)
  {
    var n := |orders| - 1;
    if i == n {
      assert orders[i := o][..n] == orders[..n];
    } else {
      assert orders[i := o][..n] == orders[..n][i := o];
      ReservedUpdate(orders[..n], i, o, s);
    }
  }

  lemma {:induction false} ReservedNonNegative(orders: seq<Order>, s: Symbol)
    requires OrdersOk(orders)
    ensures Reserved(orders, s) >= 0.0
  {
    if orders != [] {
      ReservedNonNegative(orders[..|orders| - 1], s);
    }
  }

  /** One active reduce-only order accounts for part of what its symbol has reserved. */
  lemma {:induction false} ReservedIncludes(orders: seq<Order>, i: nat, s: Symbol)
    requires OrdersOk(orders) && i < |orders|
    ensures ReservedBy(orders[i], s) <= Reserved(orders, s)
  {
    var n := |orders| - 1;
    ReservedNonNegative(orders[..n], s);
    if i != n {
      ReservedIncludes(orders[..n], i, s);
    }
  }

  lemma {:induction false} NothingReserved(orders: seq<Order>, s: Symbol)
    requires forall i :: 0 <= i < |orders| ==> !Reserves(orders[i], s)
    ensures Reserved(orders, s) == 0.0
  {
    if orders != [] {
      NothingReserved(orders[..|orders| - 1], s);
      assert !Reserves(orders[|orders| - 1], s);
    }
  }

  /** The laws about fill positions look at earlier fills only, so they survive appending. */
  lemma PrefixOfAppend(fills: seq<Fill>, f: Fill, j: nat)
    requires j < |fills|
    ensures (fills + [f])[j] == fills[j] && (fills + [f])[..j] == fills[..j]
    ensures NetBefore(fills + [f], j) == NetBefore(fills, j)
    ensures ClosingFill(fills + [f], j) == ClosingFill(fills, j)
  {
  }

  lemma LastOfAppend(fills: seq<Fill>, f: Fill)
    ensures (fills + [f])[..|fills|] == fills
    ensures NetBefore(fills + [f], |fills|) == Net(fills, f.symbol)
  {
    assert (fills + [f])[..|fills|] == fills;
  }

  /** Replacing an order by a later state of itself. */
  lemma UpdateEvolves(cfg: Config, orders: seq<Order>, i: nat, o': Order)
    requires i < |orders| && OrderEvolves(orders[i], o')
    requires ClientsDistinct(orders) && NotBeforeStart(cfg, orders)
    ensures ClientsDistinct(orders[i := o']) && NotBeforeStart(cfg, orders[i := o'])
    ensures forall k :: 0 <= k < |orders| ==> OrderEvolves(orders[k], orders[i := o'][k])
  {
    var orders' := orders[i := o'];
    forall j, k | 0 <= j < k < |orders'|
      ensures orders'[j].clientId != orders'[k].clientId
    {
      assert orders[j].clientId != orders[k].clientId;
    }
  }

  /** The active orders of a symbol, each once, in the order of placement. */
  lemma {:induction false} ActiveRefsExact(orders: seq<Order>, s: Symbol)
    ensures var refs := ActiveRefs(orders, s);
            && (forall i :: i in refs <==> 0 <= i < |orders| && orders[i].Active() && orders[i].symbol == s)
            && (forall j, k :: 0 <= j < k < |refs| ==> refs[j] < refs[k])
  {
    if orders != [] {
      ActiveRefsExact(orders[..|orders| - 1], s);
    }
  }

  // ---------------------------------------------------------------------------
  // Primitive 1: an active order is cancelled or expires
  // ---------------------------------------------------------------------------

  ghost predicate Final(s: Status) {
    s == Cancelled || s == Expired
  }

  lemma RetireBacked(l: Ledger, i: nat, status: Status)
    requires OrdersOk(l.orders) && i < |l.orders| && l.orders[i].Active() && Final(status)
    requires ReservationsBacked(l.orders, l.fills)
    ensures ReservationsBacked(Retire(l, i, status).orders, l.fills)
  {
    var orders := Retire(l, i, status).orders;
    if ClosersReduceOnly(orders, l.fills) {
      assert ClosersReduceOnly(l.orders, l.fills) by {
        forall j | 0 <= j < |l.fills| && ClosingFill(l.fills, j)
          ensures ReduceOnlyFill(l.orders, l.fills[j])
        {
          assert ReduceOnlyFill(orders, l.fills[j]);
        }
      }
      forall s
        ensures Backed(orders, Net(l.fills, s), s)
      {
        assert Backed(l.orders, Net(l.fills, s), s);
        ReservedUpdate(l.orders, i, orders[i], s);
        assert OrderOk(l.orders[i], i);
        forall k | 0 <= k < |orders| && Reserves(orders[k], s)
          ensures Closes(orders[k].side, Net(l.fills, s))
        {
          assert Reserves(l.orders[k], s);
        }
      }
    }
  }

  lemma RetireKeepsFillLaws(cfg: Config, l: Ledger, i: nat, status: Status)
    requires Shape(l) && Dated(l) && Causal(cfg, l) && FillsOk(l.orders, l.fills) && ReduceOnlySafe(l.orders, l.fills)
    requires i < |l.orders|
    ensures var l' := Retire(l, i, status);
            && Shape(l') && Dated(l') && Causal(cfg, l')
            && FillsOk(l'.orders, l'.fills) && ReduceOnlySafe(l'.orders, l'.fills)
  {
    hide PriceFor, Commission;
    var l' := Retire(l, i, status);
    forall j | 0 <= j < |l.fills|
      ensures CausalFill(cfg, l', j) && FillOk(l'.orders, l'.fills[j])
    {
      assert CausalFill(cfg, l, j) && FillOk(l.orders, l.fills[j]);
    }
    forall j | 0 <= j < |l.fills| && ReduceOnlyFill(l'.orders, l.fills[j])
      ensures ClosingFill(l.fills, j) && l.fills[j].quantity <= Abs(NetBefore(l.fills, j))
    {
      assert ReduceOnlyFill(l.orders, l.fills[j]);
    }
  }

  lemma RetireKeepsOrders(cfg: Config, l: Ledger, i: nat, status: Status)
    requires i < |l.orders| && l.orders[i].Active() && Final(status)
    requires OrdersOk(l.orders) && Paced(cfg, l.orders, l.fills) && Tallied(l.orders, l.fills)
    ensures var l' := Retire(l, i, status);
            && OrdersOk(l'.orders) && Paced(cfg, l'.orders, l'.fills) && Tallied(l'.orders, l'.fills)
            && OrderEvolves(l.orders[i], l'.orders[i])
  {
    var l' := Retire(l, i, status);
    forall k | 0 <= k < |l.orders|
      ensures OrderOk(l'.orders[k], k) && OnPace(cfg, l'.orders[k], FillCount(l.fills, k))
      ensures Sum(l.fills, FilledOf(k)) == l'.orders[k].filled
    {
      assert OrderOk(l.orders[k], k) && OnPace(cfg, l.orders[k], FillCount(l.fills, k));
      assert Sum(l.fills, FilledOf(k)) == l.orders[k].filled;
    }
  }

  lemma RetireKeepsLaws(cfg: Config, l: Ledger, i: nat, status: Status)
    requires Laws(cfg, l) && i < |l.orders| && l.orders[i].Active() && Final(status)
    ensures Laws(cfg, Retire(l, i, status)) && Evolves(l, Retire(l, i, status))
  {
    RetireBacked(l, i, status);
    RetireKeepsFillLaws(cfg, l, i, status);
    RetireKeepsOrders(cfg, l, i, status);
    UpdateEvolves(cfg, l.orders, i, Retire(l, i, status).orders[i]);
  }

  // ---------------------------------------------------------------------------
  // Primitive 2: an order is appended
  // ---------------------------------------------------------------------------

  lemma AppendBacked(l: Ledger, intent: Intent)
    requires OrdersOk(l.orders) && FillsOk(l.orders, l.fills)
    requires ReservationsBacked(l.orders, l.fills)
    requires intent.reduceOnly ==> ReduceOnlyAllowed(l, intent)
    ensures ReservationsBacked(Append(l, intent).orders, l.fills)
  {
    var orders := Append(l, intent).orders;
    if ClosersReduceOnly(orders, l.fills) {
      assert ClosersReduceOnly(l.orders, l.fills) by {
        forall j | 0 <= j < |l.fills| && ClosingFill(l.fills, j)
          ensures ReduceOnlyFill(l.orders, l.fills[j])
        {
          assert ReduceOnlyFill(orders, l.fills[j]) && FillOk(l.orders, l.fills[j]);
        }
      }
      forall s
        ensures Backed(orders, Net(l.fills, s), s)
      {
        assert Backed(l.orders, Net(l.fills, s), s);
        ReservedAppend(l.orders, NewOrder(l, intent), s);
        forall k | 0 <= k < |orders| && Reserves(orders[k], s)
          ensures Closes(orders[k].side, Net(l.fills, s))
        {
          if k < |l.orders| {
            assert Reserves(l.orders[k], s);
          }
        }
      }
    }
  }

  lemma AppendKeepsFillLaws(cfg: Config, l: Ledger, intent: Intent)
    requires Shape(l) && Dated(l) && Causal(cfg, l) && l.events != []
    requires FillsOk(l.orders, l.fills) && ReduceOnlySafe(l.orders, l.fills)
    ensures var l' := Append(l, intent);
            && Shape(l') && Dated(l') && Causal(cfg, l')
            && FillsOk(l'.orders, l'.fills) && ReduceOnlySafe(l'.orders, l'.fills)
  {
    hide PriceFor, Commission;
    var l' := Append(l, intent);
    forall j | 0 <= j < |l.fills|
      ensures CausalFill(cfg, l', j) && FillOk(l'.orders, l'.fills[j])
    {
      assert CausalFill(cfg, l, j) && FillOk(l.orders, l.fills[j]);
    }
    forall j | 0 <= j < |l.fills| && ReduceOnlyFill(l'.orders, l.fills[j])
      ensures ClosingFill(l.fills, j) && l.fills[j].quantity <= Abs(NetBefore(l.fills, j))
    {
      assert FillOk(l.orders, l.fills[j]);
      assert ReduceOnlyFill(l.orders, l.fills[j]);
    }
  }

  lemma AppendKeepsOrders(cfg: Config, l: Ledger, intent: Intent)
    requires OrdersOk(l.orders) && Paced(cfg, l.orders, l.fills)
    requires Tallied(l.orders, l.fills) && FillsOk(l.orders, l.fills)
    ensures var l' := Append(l, intent);
            OrdersOk(l'.orders) && Paced(cfg, l'.orders, l'.fills) && Tallied(l'.orders, l'.fills)
  {
    var l' := Append(l, intent);
    var n := |l.orders|;
    assert forall j :: 0 <= j < |l.fills| ==> FillOk(l.orders, l.fills[j]);
    Unfilled(l.fills, n);
    forall k | 0 <= k < |l'.orders|
      ensures OrderOk(l'.orders[k], k) && OnPace(cfg, l'.orders[k], FillCount(l.fills, k))
      ensures Sum(l.fills, FilledOf(k)) == l'.orders[k].filled
    {
      if k < n {
        assert OrderOk(l.orders[k], k) && OnPace(cfg, l.orders[k], FillCount(l.fills, k));
        assert Sum(l.fills, FilledOf(k)) == l.orders[k].filled;
      }
    }
  }

  lemma {:induction false} AppendKeepsTerms(cfg: Config, orders: seq<Order>, o: Order)
    requires ClientsDistinct(orders) && NotBeforeStart(cfg, orders)
    requires FindClient(orders, o.clientId).None? && TradingEnabled(cfg, o.createdAt)
    ensures ClientsDistinct(orders + [o]) && NotBeforeStart(cfg, orders + [o])
    ensures forall k :: 0 <= k < |orders| ==> OrderEvolves(orders[k], (orders + [o])[k])
  {
  }

  lemma AppendKeepsLaws(cfg: Config, l: Ledger, intent: Intent)
    requires Laws(cfg, l)
    requires FindClient(l.orders, intent.clientId).None?
    requires intent.reduceOnly ==> ReduceOnlyAllowed(l, intent)
    requires TradingEnabled(cfg, l.now) && l.events != []
    ensures Laws(cfg, Append(l, intent)) && Evolves(l, Append(l, intent))
  {
    AppendBacked(l, intent);
    AppendKeepsFillLaws(cfg, l, intent);
    AppendKeepsOrders(cfg, l, intent);
    AppendKeepsTerms(cfg, l.orders, NewOrder(l, intent));
  }

  // ---------------------------------------------------------------------------
  // Primitive 3: a fill is booked
  // ---------------------------------------------------------------------------

  ghost function Current(l: Ledger): Event
    requires l.events != []
  {
    l.events[|l.events| - 1]
  }

  /** The order may be filled by the current event: a LIMIT order is old enough, not lapsed, and crossed. */
  ghost predicate Fillable(cfg: Config, l: Ledger, i: nat)
    requires Shape(l)
  {
    && l.events != []
    && i < |l.orders|
    && l.orders[i].Active()
    && (l.orders[i].orderType == Limit ==>
          l.placedOn[i] < |l.events| && !l.orders[i].Lapsed(l.now) && CrossedBy(cfg, l.orders[i], Current(l)))
  }

  lemma ProductPositive(x: real, y: real)
    requires x > 0.0 && y > 0.0
    ensures x * y > 0.0
  {
  }

  /** Filling decides on a positive quantity within the remainder, and truncation leaves some over. */
  lemma TakeBounds(cfg: Config, o: Order, i: nat, net: real)
    requires OrderOk(o, i) && o.Active() && Decide(cfg, o, net).Take?
    ensures var d := Decide(cfg, o, net);
            && 0.0 < d.quantity <= Wanted(cfg, o) <= o.Remaining()
            && (d.expireRemainder ==> d.quantity < o.Remaining())
            && (!d.expireRemainder ==> d.quantity == Wanted(cfg, o))
            && (Closes(o.side, net) ==> d.quantity <= Abs(net))
            && (o.reduceOnly ==> Closes(o.side, net))
  {
    ProductPositive(o.quantity, cfg.fraction);
  }

  lemma BookOrder(cfg: Config, o: Order, i: nat, net: real, now: int)
    requires OrderOk(o, i) && o.Active() && Decide(cfg, o, net).Take?
    ensures var d := Decide(cfg, o, net);
            var o' := AfterFill(o, d.quantity, d.expireRemainder, now);
            && OrderOk(o', i) && OrderEvolves(o, o')
            && (o'.Active() ==> d.quantity == Wanted(cfg, o) < o.Remaining())
  {
    TakeBounds(cfg, o, i, net);
  }

  /** k slices filled and one more to come: the count stays below 1 + 1/fraction. */
  lemma BookPace(cfg: Config, o: Order, i: nat, k: nat, o': Order)
    requires OrderOk(o, i) && o.Active() && OnPace(cfg, o, k) && o.SameTerms(o')
    requires o'.Active() ==> o'.filled == o.filled + Wanted(cfg, o) && Wanted(cfg, o) < o.Remaining()
    ensures OnPace(cfg, o', k + 1)
  {
    assert Slice(cfg, o') == Slice(cfg, o);
    assert Slices(k + 1, Slice(cfg, o)) == Slices(k, Slice(cfg, o)) + Slice(cfg, o);
  }

  lemma BookTallied(cfg: Config, l: Ledger, i: nat, q: real, cut: bool, open: real)
    requires i < |l.orders| && Tallied(l.orders, l.fills)
    ensures var l' := Book(cfg, l, i, q, cut, open); Tallied(l'.orders, l'.fills)
  {
    var l' := Book(cfg, l, i, q, cut, open);
    var f := FillFor(cfg, l.orders[i], i, q, open, l.now);
    forall k | 0 <= k < |l.orders|
      ensures Sum(l'.fills, FilledOf(k)) == l'.orders[k].filled
    {
      SumAppend(l.fills, f, FilledOf(k));
      assert Sum(l.fills, FilledOf(k)) == l.orders[k].filled;
    }
  }

  lemma BookKeepsOrders(cfg: Config, l: Ledger, i: nat, open: real)
    requires i < |l.orders| && l.orders[i].Active()
    requires OrdersOk(l.orders) && Paced(cfg, l.orders, l.fills)
    requires Decide(cfg, l.orders[i], Net(l.fills, l.orders[i].symbol)).Take?
    ensures var d := Decide(cfg, l.orders[i], Net(l.fills, l.orders[i].symbol));
            var l' := Book(cfg, l, i, d.quantity, d.expireRemainder, open);
            && OrdersOk(l'.orders) && Paced(cfg, l'.orders, l'.fills)
            && OrderEvolves(l.orders[i], l'.orders[i])
  {
    var net := Net(l.fills, l.orders[i].symbol);
    var d := Decide(cfg, l.orders[i], net);
    var l' := Book(cfg, l, i, d.quantity, d.expireRemainder, open);
    var f := FillFor(cfg, l.orders[i], i, d.quantity, open, l.now);
    assert OrderOk(l.orders[i], i) && OnPace(cfg, l.orders[i], FillCount(l.fills, i));
    BookOrder(cfg, l.orders[i], i, net, l.now);
    BookPace(cfg, l.orders[i], i, FillCount(l.fills, i), l'.orders[i]);
    forall k | 0 <= k < |l.orders|
      ensures OrderOk(l'.orders[k], k) && OnPace(cfg, l'.orders[k], FillCount(l'.fills, k))
    {
      assert OrderOk(l.orders[k], k) && OnPace(cfg, l.orders[k], FillCount(l.fills, k));
      FillCountAppend(l.fills, f, k);
    }
  }

  lemma BookKeepsCausality(cfg: Config, l: Ledger, i: nat, q: real, cut: bool)
    requires Shape(l) && Dated(l) && Causal(cfg, l) && FillsOk(l.orders, l.fills) && Fillable(cfg, l, i) && q > 0.0
    ensures var l' := Book(cfg, l, i, q, cut, Current(l).open);
            Shape(l') && Dated(l') && Causal(cfg, l') && FillsOk(l'.orders, l'.fills)
  {
    hide PriceFor, Commission;
    var l' := Book(cfg, l, i, q, cut, Current(l).open);
    forall j | 0 <= j < |l'.fills|
      ensures CausalFill(cfg, l', j) && FillOk(l'.orders, l'.fills[j])
    {
      if j < |l.fills| {
        assert CausalFill(cfg, l, j) && FillOk(l.orders, l.fills[j]);
      }
    }
  }

  /** Appending one fill keeps the position laws when that fill obeys them. */
  lemma AppendFillKeepsSides(orders: seq<Order>, orders': seq<Order>, fills: seq<Fill>, f: Fill)
    requires NoReversal(fills) && ReduceOnlySafe(orders, fills)
    requires |orders'| == |orders|
    requires forall k :: 0 <= k < |orders| ==> orders'[k].reduceOnly == orders[k].reduceOnly
    requires Closes(f.side, Net(fills, f.symbol)) ==> f.quantity <= Abs(Net(fills, f.symbol))
    requires ReduceOnlyFill(orders, f) ==> Closes(f.side, Net(fills, f.symbol))
    ensures NoReversal(fills + [f]) && ReduceOnlySafe(orders', fills + [f])
  {
    LastOfAppend(fills, f);
    forall j | 0 <= j < |fills + [f]|
      ensures KeepsSide(fills + [f], j)
      ensures ReduceOnlyFill(orders', (fills + [f])[j]) ==>
                ClosingFill(fills + [f], j) && (fills + [f])[j].quantity <= Abs(NetBefore(fills + [f], j))
    {
      if j < |fills| {
        PrefixOfAppend(fills, f, j);
        assert KeepsSide(fills, j);
        assert ReduceOnlyFill(orders', fills[j]) == ReduceOnlyFill(orders, fills[j]);
      }
    }
  }

  /** The closing fills after a booking are those before it and perhaps the new one. */
  lemma ClosersOfAppend(orders: seq<Order>, orders': seq<Order>, fills: seq<Fill>, f: Fill)
    requires |orders'| == |orders|
    requires forall k :: 0 <= k < |orders| ==> orders'[k].reduceOnly == orders[k].reduceOnly
    requires ClosersReduceOnly(orders', fills + [f])
    ensures ClosersReduceOnly(orders, fills)
    ensures Closes(f.side, Net(fills, f.symbol)) ==> ReduceOnlyFill(orders, f)
  {
    forall j | 0 <= j < |fills| && ClosingFill(fills, j)
      ensures ReduceOnlyFill(orders, fills[j])
    {
      PrefixOfAppend(fills, f, j);
      assert ReduceOnlyFill(orders', (fills + [f])[j]);
    }
    LastOfAppend(fills, f);
    if Closes(f.side, Net(fills, f.symbol)) {
      assert ClosingFill(fills + [f], |fills|);
      assert ReduceOnlyFill(orders', (fills + [f])[|fills|]);
    }
  }

  /** The heart of the reservation law: position and reservation shrink together. */
  lemma BookBackedFor(orders: seq<Order>, i: nat, o': Order, net: real, q: real, s: Symbol)
    requires OrdersOk(orders) && i < |orders| && orders[i].Active() && orders[i].symbol == s
    requires OrdersOk(orders[i := o'])
    requires Backed(orders, net, s)
    requires OrderEvolves(orders[i], o') && o'.filled == orders[i].filled + q && q > 0.0
    requires Closes(orders[i].side, net) ==> orders[i].reduceOnly && q <= Abs(net)
    requires orders[i].reduceOnly ==> Closes(orders[i].side, net)
    ensures Backed(orders[i := o'], if orders[i].side == Buy then net + q else net - q, s)
  {
    var orders' := orders[i := o'];
    var net' := if orders[i].side == Buy then net + q else net - q;
    assert OrderOk(orders[i], i) && OrderOk(orders'[i], i);
    ReservedUpdate(orders, i, o', s);
    if net == 0.0 || !Closes(orders[i].side, net) {
      // The position opens or grows: nothing was reserved by this order.
      assert !orders[i].reduceOnly;
      forall k | 0 <= k < |orders'| && Reserves(orders'[k], s)
        ensures Closes(orders'[k].side, net')
      {
        assert Reserves(orders[k], s);
      }
    } else {
      assert Reserved(orders', s) <= Abs(net');
      forall k | 0 <= k < |orders'| && Reserves(orders'[k], s)
        ensures Closes(orders'[k].side, net')
      {
        assert Reserves(orders[k], s);
        assert OrderOk(orders'[k], k);
        ReservedIncludes(orders', k, s);
      }
    }
  }

  lemma BackedElsewhere(orders: seq<Order>, i: nat, o': Order, net: real, s: Symbol)
    requires i < |orders| && orders[i].symbol != s && o'.symbol != s
    requires Backed(orders, net, s)
    ensures Backed(orders[i := o'], net, s)
  {
    ReservedUpdate(orders, i, o', s);
    var orders' := orders[i := o'];
    forall k | 0 <= k < |orders'| && Reserves(orders'[k], s)
      ensures Closes(orders'[k].side, net)
    {
      assert Reserves(orders[k], s);
    }
  }

  lemma BookBackedAt(orders: seq<Order>, fills: seq<Fill>, i: nat, o': Order, f: Fill, s: Symbol)
    requires OrdersOk(orders) && i < |orders| && orders[i].Active() && OrdersOk(orders[i := o'])
    requires OrderEvolves(orders[i], o') && o'.filled == orders[i].filled + f.quantity
    requires f.symbol == orders[i].symbol && f.side == orders[i].side && f.quantity > 0.0
    requires Closes(f.side, Net(fills, f.symbol)) ==> orders[i].reduceOnly && f.quantity <= Abs(Net(fills, f.symbol))
    requires orders[i].reduceOnly ==> Closes(f.side, Net(fills, f.symbol))
    requires Backed(orders, Net(fills, s), s)
    ensures Backed(orders[i := o'], Net(fills + [f], s), s)
  {
    SumAppend(fills, f, NetQuantity(s));
    if s == f.symbol {
      BookBackedFor(orders, i, o', Net(fills, s), f.quantity, s);
    } else {
      BackedElsewhere(orders, i, o', Net(fills, s), s);
    }
  }

  lemma BookBacked(cfg: Config, l: Ledger, i: nat, open: real)
    requires i < |l.orders| && l.orders[i].Active()
    requires OrdersOk(l.orders) && Paced(cfg, l.orders, l.fills)
    requires ReservationsBacked(l.orders, l.fills)
    requires Decide(cfg, l.orders[i], Net(l.fills, l.orders[i].symbol)).Take?
    ensures var d := Decide(cfg, l.orders[i], Net(l.fills, l.orders[i].symbol));
            var l' := Book(cfg, l, i, d.quantity, d.expireRemainder, open);
            ReservationsBacked(l'.orders, l'.fills)
  {
    var o := l.orders[i];
    var net := Net(l.fills, o.symbol);
    var d := Decide(cfg, o, net);
    var o' := AfterFill(o, d.quantity, d.expireRemainder, l.now);
    var f := FillFor(cfg, o, i, d.quantity, open, l.now);
    var orders' := l.orders[i := o'];
    assert OrderOk(o, i);
    TakeBounds(cfg, o, i, net);
    BookKeepsOrders(cfg, l, i, open);
    if ClosersReduceOnly(orders', l.fills + [f]) {
      ClosersOfAppend(l.orders, orders', l.fills, f);
      forall s
        ensures Backed(orders', Net(l.fills + [f], s), s)
      {
        assert Backed(l.orders, Net(l.fills, s), s);
        BookBackedAt(l.orders, l.fills, i, o', f, s);
      }
    }
  }

  lemma BookKeepsLaws(cfg: Config, l: Ledger, i: nat)
    requires Laws(cfg, l) && Fillable(cfg, l, i)
    requires Decide(cfg, l.orders[i], Net(l.fills, l.orders[i].symbol)).Take?
    ensures var d := Decide(cfg, l.orders[i], Net(l.fills, l.orders[i].symbol));
            var l' := Book(cfg, l, i, d.quantity, d.expireRemainder, Current(l).open);
            Laws(cfg, l') && Evolves(l, l')
  {
    var o := l.orders[i];
    var open := Current(l).open;
    var net := Net(l.fills, o.symbol);
    var d := Decide(cfg, o, net);
    var f := FillFor(cfg, o, i, d.quantity, open, l.now);
    var o' := AfterFill(o, d.quantity, d.expireRemainder, l.now);
    assert OrderOk(o, i);
    TakeBounds(cfg, o, i, net);
    BookKeepsOrders(cfg, l, i, open);
    BookTallied(cfg, l, i, d.quantity, d.expireRemainder, open);
    BookKeepsCausality(cfg, l, i, d.quantity, d.expireRemainder);
    AppendFillKeepsSides(l.orders, l.orders[i := o'], l.fills, f);
    BookBacked(cfg, l, i, open);
    UpdateEvolves(cfg, l.orders, i, o');
  }
}
