/**
 Positions and the money they account for.

 The engine keeps open positions and closed position records incrementally, with weighted-average
 entry prices.  `BookOk` says what these must add up to, in terms of the fill history alone:
 quantities, cash, commissions and the number of round trips.
 */
module Portfolio {
  import opened Wrappers
  import opened LedgerModel
  import opened LedgerLaws

  datatype PositionSide = Long | Short

  datatype PositionStatus = Open | Closed

  datatype Position = Position(
    symbol: Symbol, side: PositionSide, entryPrice: real, quantity: real, commission: real,
    unrealized: real, realized: real, openedAt: int, closedAt: Option<int>, status: PositionStatus)
  {
    function Signed(): real {
      if side == Long then quantity else -quantity
    }
  }

  /** The open positions are a dictionary by symbol, kept as its values in insertion order. */
  function IndexOf(open: seq<Position>, s: Symbol): (r: Option<nat>)
    ensures r.Some? ==> r.value < |open| && open[r.value].symbol == s
    ensures r.None? ==> forall k :: 0 <= k < |open| ==> open[k].symbol != s
  {
    if open == [] then None
    else
      var n := |open| - 1;
      if open[n].symbol == s then Some(n) else IndexOf(open[..n], s)
  }

  /** What positions account for: the cash their fills moved, and the commission charged. */
  datatype Tally = CashMoved(scope: Scope) | Charged(scope: Scope)

  /** A position holds its realised profit, and its open quantity at entry price. */
  function Share(t: Tally, p: Position): real {
    match t
    case CashMoved(scope) => if scope.Has(p.symbol) then p.realized - p.Signed() * p.entryPrice else 0.0
    case Charged(scope) => if scope.Has(p.symbol) then p.commission else 0.0
  }

  function Total(ps: seq<Position>, t: Tally): real {
    if ps == [] then 0.0 else Total(ps[..|ps| - 1], t) + Share(t, ps[|ps| - 1])
  }

  function CountOf(ps: seq<Position>, s: Symbol): nat {
    if ps == [] then 0 else CountOf(ps[..|ps| - 1], s) + if ps[|ps| - 1].symbol == s then 1 else 0
  }

  /** How often the position of a symbol has come back to flat. */
  ghost function RoundTrips(fills: seq<Fill>, s: Symbol): nat {
    if fills == [] then 0
    else
      RoundTrips(fills[..|fills| - 1], s)
      + if fills[|fills| - 1].symbol == s && Net(fills, s) == 0.0 then 1 else 0
  }

  ghost predicate PositionOk(fills: seq<Fill>, p: Position) {
    p.quantity > 0.0 && p.status == Open && p.Signed() == Net(fills, p.symbol)
  }

  /** Quantities: one open position per symbol that is not flat, of exactly the net size. */
  ghost predicate QuantitiesOk(fills: seq<Fill>, open: seq<Position>) {
    && (forall j, k :: 0 <= j < k < |open| ==> open[j].symbol != open[k].symbol)
    && (forall k :: 0 <= k < |open| ==> PositionOk(fills, open[k]))
    && (forall s :: IndexOf(open, s).None? ==> Net(fills, s) == 0.0)
  }

  /** One column of the books: what the fills moved is what the positions account for. */
  ghost predicate Balanced(fills: seq<Fill>, open: seq<Position>, records: seq<Position>, m: Measure, t: Tally) {
    Sum(fills, m) == Total(records, t) + Total(open, t)
  }

  /** Conservation of cash, per symbol and over the account. */
  ghost predicate CashOk(fills: seq<Fill>, open: seq<Position>, records: seq<Position>) {
    forall scope :: Balanced(fills, open, records, Cash(scope), CashMoved(scope))
  }

  ghost predicate FeesOk(fills: seq<Fill>, open: seq<Position>, records: seq<Position>) {
    forall scope :: Balanced(fills, open, records, Fees(scope), Charged(scope))
  }

  ghost predicate RecordsOk(fills: seq<Fill>, records: seq<Position>) {
    && (forall k :: 0 <= k < |records| ==> records[k].status == Closed && records[k].quantity == 0.0)
    && (forall s :: CountOf(records, s) == RoundTrips(fills, s))
  }

  ghost predicate BookOk(fills: seq<Fill>, open: seq<Position>, records: seq<Position>) {
    QuantitiesOk(fills, open) && CashOk(fills, open, records) && FeesOk(fills, open, records)
    && RecordsOk(fills, records)
  }

  // ---------------------------------------------------------------------------
  // What one fill does to one position
  // ---------------------------------------------------------------------------

  function Opened(f: Fill, now: int): Position {
    Position(f.symbol, if f.side == Sell then Short else Long, f.price, f.quantity, f.commission,
             0.0, 0.0, now, None, Open)
  }

  /** What a quantity of the position gains at a price. */
  function GainOn(p: Position, price: real, quantity: real): real {
    if p.side == Short then (p.entryPrice - price) * quantity else (price - p.entryPrice) * quantity
  }

  function Reduced(p: Position, f: Fill): Position {
    var closeQty := Min(f.quantity, p.quantity);
    p.(realized := p.realized + GainOn(p, f.price, closeQty),
       quantity := p.quantity - closeQty, commission := p.commission + f.commission)
  }

  /** The weighted average of two prices; both quantities are positive wherever a position grows. */
  function AveragePrice(q1: real, price1: real, q2: real, price2: real): real {
    if q1 + q2 == 0.0 then price1 else (q1 * price1 + q2 * price2) / (q1 + q2)
  }

  function Added(p: Position, f: Fill): Position {
    p.(entryPrice := AveragePrice(p.quantity, p.entryPrice, f.quantity, f.price),
       quantity := p.quantity + f.quantity, commission := p.commission + f.commission)
  }

  predicate ClosesPosition(p: Position, side: Side) {
    (p.side == Short && side == Buy) || (p.side == Long && side == Sell)
  }

  /** A position absorbs a fill: cash, commission and signed size move by what the fill moves. */
  ghost predicate Absorbs(before: Position, after: Position, f: Fill) {
    && after.symbol == before.symbol == f.symbol
    && after.Signed() == before.Signed() + SignedQuantity(f)
    && after.realized - after.Signed() * after.entryPrice
       == before.realized - before.Signed() * before.entryPrice - SignedQuantity(f) * f.price
    && after.commission == before.commission + f.commission
  }

  lemma ReducedAbsorbs(p: Position, f: Fill)
    requires p.symbol == f.symbol && ClosesPosition(p, f.side) && 0.0 < f.quantity <= p.quantity
    ensures Absorbs(p, Reduced(p, f), f)
  {
  }

  lemma AddedAbsorbs(p: Position, f: Fill)
    requires p.symbol == f.symbol && !ClosesPosition(p, f.side) && p.quantity > 0.0 && f.quantity > 0.0
    ensures Absorbs(p, Added(p, f), f)
  {
    var q := p.quantity + f.quantity;
    var cost := p.quantity * p.entryPrice + f.quantity * f.price;
    assert q * (cost / q) == cost;
  }

  // ---------------------------------------------------------------------------
  // Totals
  // ---------------------------------------------------------------------------

  lemma {:induction false} TotalAppend(ps: seq<Position>, p: Position, t: Tally)
    ensures Total(ps + [p], t) == Total(ps, t) + Share(t, p)
  {
    assert (ps + [p])[..|ps|] == ps;
  }

  lemma {:induction false} CountAppend(ps: seq<Position>, p: Position, s: Symbol)
    ensures CountOf(ps + [p], s) == CountOf(ps, s) + if p.symbol == s then 1 else 0
  {
    assert (ps + [p])[..|ps|] == ps;
  }

  lemma {:induction false} RoundTripsAppend(fills: seq<Fill>, f: Fill, s: Symbol)
    ensures RoundTrips(fills + [f], s)
         == RoundTrips(fills, s) + if f.symbol == s && Net(fills + [f], s) == 0.0 then 1 else 0
  {
    assert (fills + [f])[..|fills|] == fills;
  }

  lemma {:induction false} TotalUpdate(ps: seq<Position>, k: nat, p: Position, t: Tally)
    requires k < |ps|
    ensures Total(ps[k := p], t) == Total(ps, t) - Share(t, ps[k]) + Share(t, p)
  {
    var n := |ps| - 1;
    if k == n {
      assert ps[k := p][..n] == ps[..n];
    } else {
      assert ps[k := p][..n] == ps[..n][k := p];
      TotalUpdate(ps[..n], k, p, t);
    }
  }

  function Without(ps: seq<Position>, k: nat): seq<Position>
    requires k < |ps|
  {
    ps[..k] + ps[k + 1..]
  }

  lemma {:induction false} TotalWithout(ps: seq<Position>, k: nat, t: Tally)
    requires k < |ps|
    ensures Total(Without(ps, k), t) == Total(ps, t) - Share(t, ps[k])
  {
    var n := |ps| - 1;
    if k == n {
      assert Without(ps, k) == ps[..n];
    } else {
      TotalWithout(ps[..n], k, t);
      assert Without(ps, k) == Without(ps[..n], k) + [ps[n]];
      TotalAppend(Without(ps[..n], k), ps[n], t);
    }
  }

  // ---------------------------------------------------------------------------
  // The book after one fill
  // ---------------------------------------------------------------------------

  lemma OtherPositionsOk(fills: seq<Fill>, f: Fill, p: Position)
    requires PositionOk(fills, p) && p.symbol != f.symbol
    ensures PositionOk(fills + [f], p)
  {
    SumAppend(fills, f, NetQuantity(p.symbol));
  }

  lemma AbsorbedShare(before: Position, after: Position, f: Fill, scope: Scope)
    requires Absorbs(before, after, f)
    ensures Share(CashMoved(scope), after) == Share(CashMoved(scope), before) + Weight(Cash(scope), f)
    ensures Share(Charged(scope), after) == Share(Charged(scope), before) + Weight(Fees(scope), f)
  {
  }

  lemma OpenedShare(f: Fill, now: int, scope: Scope)
    ensures Share(CashMoved(scope), Opened(f, now)) == Weight(Cash(scope), f)
    ensures Share(Charged(scope), Opened(f, now)) == Weight(Fees(scope), f)
  {
  }

  lemma OpenedPosition(fills: seq<Fill>, f: Fill, now: int)
    requires Net(fills, f.symbol) == 0.0 && f.quantity > 0.0
    ensures PositionOk(fills + [f], Opened(f, now)) && Net(fills + [f], f.symbol) != 0.0
  {
    SumAppend(fills, f, NetQuantity(f.symbol));
  }

  lemma OpenedBalanced(
    fills: seq<Fill>, open: seq<Position>, records: seq<Position>, f: Fill, p: Position, m: Measure, t: Tally)
    requires Balanced(fills, open, records, m, t) && Share(t, p) == Weight(m, f)
    ensures Balanced(fills + [f], open + [p], records, m, t)
  {
    SumAppend(fills, f, m);
    TotalAppend(open, p, t);
  }

  lemma UpdatedBalanced(
    fills: seq<Fill>, open: seq<Position>, records: seq<Position>, f: Fill, k: nat, p: Position, m: Measure, t: Tally)
    requires k < |open| && Balanced(fills, open, records, m, t) && Share(t, p) == Share(t, open[k]) + Weight(m, f)
    ensures Balanced(fills + [f], open[k := p], records, m, t)
  {
    SumAppend(fills, f, m);
    TotalUpdate(open, k, p, t);
  }

  lemma ClosedBalanced(
    fills: seq<Fill>, open: seq<Position>, records: seq<Position>, f: Fill, k: nat, p: Position, m: Measure, t: Tally)
    requires k < |open| && Balanced(fills, open, records, m, t) && Share(t, p) == Share(t, open[k]) + Weight(m, f)
    ensures Balanced(fills + [f], Without(open, k), records + [p], m, t)
  {
    SumAppend(fills, f, m);
    TotalWithout(open, k, t);
    TotalAppend(records, p, t);
  }

  /** Symbols without a position stay flat when the filled symbol keeps one, or is flat itself. */
  lemma FlatElsewhere(fills: seq<Fill>, open: seq<Position>, open': seq<Position>, f: Fill)
    requires forall s :: IndexOf(open, s).None? ==> Net(fills, s) == 0.0
    requires forall s :: s != f.symbol && IndexOf(open, s).Some? ==> IndexOf(open', s).Some?
    requires Net(fills + [f], f.symbol) == 0.0 || IndexOf(open', f.symbol).Some?
    ensures forall s :: IndexOf(open', s).None? ==> Net(fills + [f], s) == 0.0
  {
    forall s | IndexOf(open', s).None?
      ensures Net(fills + [f], s) == 0.0
    {
      SumAppend(fills, f, NetQuantity(s));
    }
  }

  /** A flat symbol: the fill opens a position. */
  lemma {:induction false} OpenedBookOk(
    fills: seq<Fill>, open: seq<Position>, records: seq<Position>, f: Fill, now: int)
    requires BookOk(fills, open, records) && f.quantity > 0.0 && IndexOf(open, f.symbol).None?
    ensures BookOk(fills + [f], open + [Opened(f, now)], records)
  {
    var p := Opened(f, now);
    OpenedPosition(fills, f, now);
    OpenedQuantities(fills, open, f, p);
    forall scope
      ensures Balanced(fills + [f], open + [p], records, Cash(scope), CashMoved(scope))
      ensures Balanced(fills + [f], open + [p], records, Fees(scope), Charged(scope))
    {
      assert Balanced(fills, open, records, Cash(scope), CashMoved(scope));
      assert Balanced(fills, open, records, Fees(scope), Charged(scope));
      OpenedShare(f, now, scope);
      OpenedBalanced(fills, open, records, f, p, Cash(scope), CashMoved(scope));
      OpenedBalanced(fills, open, records, f, p, Fees(scope), Charged(scope));
    }
    StillCounted(fills, records, f);
  }

  lemma {:induction false} OpenedQuantities(fills: seq<Fill>, open: seq<Position>, f: Fill, p: Position)
    requires QuantitiesOk(fills, open) && IndexOf(open, f.symbol).None?
    requires p.symbol == f.symbol && PositionOk(fills + [f], p)
    ensures QuantitiesOk(fills + [f], open + [p])
  {
    var open' := open + [p];
    forall k | 0 <= k < |open'|
      ensures PositionOk(fills + [f], open'[k])
    {
      if k < |open| {
        assert PositionOk(fills, open[k]);
        OtherPositionsOk(fills, f, open[k]);
      }
    }
    forall s | IndexOf(open, s).Some? || s == f.symbol
      ensures IndexOf(open', s).Some?
    {
      var j := if s == f.symbol then |open| else IndexOf(open, s).value;
      assert open'[j].symbol == s;
    }
    FlatElsewhere(fills, open, open', f);
  }

  /** A fill that leaves its symbol with a position completes no round trip. */
  lemma StillCounted(fills: seq<Fill>, records: seq<Position>, f: Fill)
    requires RecordsOk(fills, records) && Net(fills + [f], f.symbol) != 0.0
    ensures RecordsOk(fills + [f], records)
  {
    forall s
      ensures CountOf(records, s) == RoundTrips(fills + [f], s)
    {
      RoundTripsAppend(fills, f, s);
      assert CountOf(records, s) == RoundTrips(fills, s);
    }
  }

  /** A position that absorbs the fill and stays open. */
  lemma UpdatedBookOk(fills: seq<Fill>, open: seq<Position>, records: seq<Position>, f: Fill, k: nat, p: Position)
    requires BookOk(fills, open, records)
    requires k < |open| && Absorbs(open[k], p, f) && p.quantity > 0.0 && p.status == Open
    ensures BookOk(fills + [f], open[k := p], records)
  {
    assert PositionOk(fills, open[k]);
    SumAppend(fills, f, NetQuantity(f.symbol));
    UpdatedQuantities(fills, open, f, k, p);
    forall scope
      ensures Balanced(fills + [f], open[k := p], records, Cash(scope), CashMoved(scope))
      ensures Balanced(fills + [f], open[k := p], records, Fees(scope), Charged(scope))
    {
      assert Balanced(fills, open, records, Cash(scope), CashMoved(scope));
      assert Balanced(fills, open, records, Fees(scope), Charged(scope));
      AbsorbedShare(open[k], p, f, scope);
      UpdatedBalanced(fills, open, records, f, k, p, Cash(scope), CashMoved(scope));
      UpdatedBalanced(fills, open, records, f, k, p, Fees(scope), Charged(scope));
    }
    StillCounted(fills, records, f);
  }

  lemma UpdatedQuantities(fills: seq<Fill>, open: seq<Position>, f: Fill, k: nat, p: Position)
    requires QuantitiesOk(fills, open) && k < |open|
    requires p.symbol == open[k].symbol == f.symbol && PositionOk(fills + [f], p)
    ensures QuantitiesOk(fills + [f], open[k := p])
  {
    var open' := open[k := p];
    forall j | 0 <= j < |open'|
      ensures PositionOk(fills + [f], open'[j])
    {
      if j != k {
        assert PositionOk(fills, open[j]);
        OtherPositionsOk(fills, f, open[j]);
      }
    }
    forall s | IndexOf(open, s).Some?
      ensures IndexOf(open', s).Some?
    {
      assert open'[IndexOf(open, s).value].symbol == s;
    }
    assert open'[k].symbol == f.symbol;
    FlatElsewhere(fills, open, open', f);
  }

  /** A position that is flat after the fill moves to the closed records. */
  lemma ClosedBookOk(fills: seq<Fill>, open: seq<Position>, records: seq<Position>, f: Fill, k: nat, p: Position)
    requires BookOk(fills, open, records)
    requires k < |open| && Absorbs(open[k], p, f) && p.quantity == 0.0 && p.status == Closed
    ensures BookOk(fills + [f], Without(open, k), records + [p])
  {
    assert PositionOk(fills, open[k]);
    SumAppend(fills, f, NetQuantity(f.symbol));
    ClosedQuantities(fills, open, f, k);
    forall scope
      ensures Balanced(fills + [f], Without(open, k), records + [p], Cash(scope), CashMoved(scope))
      ensures Balanced(fills + [f], Without(open, k), records + [p], Fees(scope), Charged(scope))
    {
      assert Balanced(fills, open, records, Cash(scope), CashMoved(scope));
      assert Balanced(fills, open, records, Fees(scope), Charged(scope));
      AbsorbedShare(open[k], p, f, scope);
      ClosedBalanced(fills, open, records, f, k, p, Cash(scope), CashMoved(scope));
      ClosedBalanced(fills, open, records, f, k, p, Fees(scope), Charged(scope));
    }
    forall s
      ensures CountOf(records + [p], s) == RoundTrips(fills + [f], s)
    {
      RoundTripsAppend(fills, f, s);
      CountAppend(records, p, s);
      assert CountOf(records, s) == RoundTrips(fills, s);
    }
  }

  lemma ClosedQuantities(fills: seq<Fill>, open: seq<Position>, f: Fill, k: nat)
    requires QuantitiesOk(fills, open) && k < |open| && open[k].symbol == f.symbol
    requires Net(fills + [f], f.symbol) == 0.0
    ensures QuantitiesOk(fills + [f], Without(open, k))
  {
    hide Net, PositionOk;
    var open' := Without(open, k);
    forall j | 0 <= j < |open'|
      ensures PositionOk(fills + [f], open'[j])
    {
      var j' := if j < k then j else j + 1;
      assert open'[j] == open[j'] && open[j'].symbol != open[k].symbol;
      OtherPositionsOk(fills, f, open[j']);
    }
    OthersIndexed(open, k);
    hide IndexOf;
    FlatElsewhere(fills, open, open', f);
  }

  lemma {:induction false} OthersIndexed(open: seq<Position>, k: nat)
    requires k < |open|
    ensures forall s :: s != open[k].symbol && IndexOf(open, s).Some? ==> IndexOf(Without(open, k), s).Some?
  {
    var open' := Without(open, k);
    forall s | s != open[k].symbol && IndexOf(open, s).Some?
      ensures IndexOf(open', s).Some?
    {
      var j := IndexOf(open, s).value;
      assert open'[if j < k then j else j - 1] == open[j];
    }
  }

  // ---------------------------------------------------------------------------
  // The books of a whole fill history
  // ---------------------------------------------------------------------------

  datatype Books = Books(open: seq<Position>, records: seq<Position>)

  /** What one more fill makes of the books: it opens, adds to, reduces or closes a position. */
  function AfterOneFill(b: Books, f: Fill): Books {
    match IndexOf(b.open, f.symbol)
    case None => b.(open := b.open + [Opened(f, f.time)])
    case Some(k) =>
      if !ClosesPosition(b.open[k], f.side) then b.(open := b.open[k := Added(b.open[k], f)])
      else AfterClosing(b, k, f)
  }

  function AfterClosing(b: Books, k: nat, f: Fill): Books
    requires k < |b.open|
  {
    var p := Reduced(b.open[k], f);
    if p.quantity <= 0.0
    then Books(Without(b.open, k), b.records + [p.(status := Closed, closedAt := Some(f.time))])
    else b.(open := b.open[k := p])
  }

  /** The books that a fill history determines. */
  function Replay(fills: seq<Fill>): Books {
    if fills == [] then Books([], [])
    else AfterOneFill(Replay(fills[..|fills| - 1]), fills[|fills| - 1])
  }

  lemma {:induction false} ReplayAppend(fills: seq<Fill>, f: Fill)
    ensures Replay(fills + [f]) == AfterOneFill(Replay(fills), f)
  {
    assert (fills + [f])[..|fills|] == fills;
  }

  ghost predicate Unmarked(ps: seq<Position>) {
    forall k :: 0 <= k < |ps| ==> ps[k].unrealized == 0.0
  }

  /** Books in balance with a fill history, on which no final mark has been made. */
  ghost predicate BooksOk(fills: seq<Fill>, b: Books) {
    BookOk(fills, b.open, b.records) && Unmarked(b.open) && Unmarked(b.records)
  }

  /** A fill that does not take its position through zero leaves balanced books. */
  lemma AfterOneFillOk(fills: seq<Fill>, b: Books, f: Fill)
    requires BooksOk(fills, b) && f.quantity > 0.0
    requires Closes(f.side, Net(fills, f.symbol)) ==> f.quantity <= Abs(Net(fills, f.symbol))
    ensures BooksOk(fills + [f], AfterOneFill(b, f))
  {
    BooksParts(fills, b);
    hide BookOk, QuantitiesOk, Absorbs;
    PositionIsNet(fills, b.open, f.symbol);
    match IndexOf(b.open, f.symbol)
    case None =>
      OpenedBookOk(fills, b.open, b.records, f, f.time);
    case Some(k) =>
      if ClosesPosition(b.open[k], f.side) {
        AfterClosingOk(fills, b, k, f);
      } else {
        AddedAbsorbs(b.open[k], f);
        UpdatedBookOk(fills, b.open, b.records, f, k, Added(b.open[k], f));
      }
  }

  lemma AfterClosingOk(fills: seq<Fill>, b: Books, k: nat, f: Fill)
    requires BooksOk(fills, b) && k < |b.open| && b.open[k].status == Open
    requires b.open[k].symbol == f.symbol && ClosesPosition(b.open[k], f.side)
    requires 0.0 < f.quantity <= b.open[k].quantity
    ensures BooksOk(fills + [f], AfterClosing(b, k, f))
  {
    hide BookOk, Absorbs;
    var p := Reduced(b.open[k], f);
    ReducedAbsorbs(b.open[k], f);
    if p.quantity <= 0.0 {
      ClosedAbsorbs(b.open[k], f, f.time);
      ClosedBookOk(fills, b.open, b.records, f, k, p.(status := Closed, closedAt := Some(f.time)));
    } else {
      UpdatedBookOk(fills, b.open, b.records, f, k, p);
    }
  }

  lemma ClosedAbsorbs(p: Position, f: Fill, now: int)
    requires Absorbs(p, Reduced(p, f), f)
    ensures Absorbs(p, Reduced(p, f).(status := Closed, closedAt := Some(now)), f)
  {
  }

  lemma BooksParts(fills: seq<Fill>, b: Books)
    requires BooksOk(fills, b)
    ensures QuantitiesOk(fills, b.open)
  {
  }

  /** The books of every history without a reversal are in balance. */
  lemma {:induction false} ReplayBalances(fills: seq<Fill>)
    requires NoReversal(fills) && forall k :: 0 <= k < |fills| ==> fills[k].quantity > 0.0
    ensures BooksOk(fills, Replay(fills))
  {
    if fills == [] {
      assert forall scope :: Balanced([], [], [], Cash(scope), CashMoved(scope));
      assert forall scope :: Balanced([], [], [], Fees(scope), Charged(scope));
    } else {
      var n := |fills| - 1;
      var before := fills[..n];
      assert fills == before + [fills[n]] && KeepsSide(fills, n);
      PrefixKeepsSides(fills, n);
      ReplayBalances(before);
      AfterOneFillOk(before, Replay(before), fills[n]);
    }
  }

  lemma PrefixKeepsSides(fills: seq<Fill>, n: nat)
    requires NoReversal(fills) && n <= |fills|
    ensures NoReversal(fills[..n])
  {
    var before := fills[..n];
    forall j | 0 <= j < n
      ensures KeepsSide(before, j)
    {
      assert before[..j] == fills[..j] && KeepsSide(fills, j);
    }
  }

  /** So are the books of every lawful account. */
  lemma LawfulBooks(cfg: Config, l: Ledger)
    requires Laws(cfg, l)
    ensures BooksOk(l.fills, Replay(l.fills))
  {
    hide BooksOk, Replay;
    assert forall k :: 0 <= k < |l.fills| ==> l.fills[k].quantity > 0.0;
    ReplayBalances(l.fills);
  }

  // ---------------------------------------------------------------------------
  // What a fill does to the position of its symbol, written out
  // ---------------------------------------------------------------------------

  function Cost(quantity: real, price: real): real {
    quantity * price
  }

  /** The position a fill opens. */
  ghost predicate OpenedBy(f: Fill, q: Position) {
    && q.symbol == f.symbol && (q.side == Long <==> f.side == Buy) && q.status == Open && q.closedAt == None
    && q.entryPrice == f.price && q.quantity == f.quantity && q.commission == f.commission
    && q.realized == 0.0 && q.unrealized == 0.0 && q.openedAt == f.time
  }

  /** Adding realises nothing, and the entry price becomes the mean weighted by quantity. */
  ghost predicate AddedBy(p: Position, f: Fill, q: Position) {
    && q.symbol == p.symbol && q.side == p.side && q.status == Open && q.closedAt == p.closedAt
    && q.realized == p.realized && q.unrealized == p.unrealized && q.openedAt == p.openedAt
    && q.quantity == p.quantity + f.quantity && q.commission == p.commission + f.commission
    && Cost(q.quantity, q.entryPrice) == Cost(p.quantity, p.entryPrice) + Cost(f.quantity, f.price)
  }

  /** Closing keeps the entry price, and realises the difference to it on what is closed. */
  ghost predicate ReducedBy(p: Position, f: Fill, q: Position) {
    && q.symbol == p.symbol && q.side == p.side && q.entryPrice == p.entryPrice && q.openedAt == p.openedAt
    && q.quantity == p.quantity - f.quantity && q.commission == p.commission + f.commission
    && q.unrealized == p.unrealized
    && q.realized - p.realized
       == (if p.side == Long then Cost(f.quantity, f.price) - Cost(f.quantity, p.entryPrice)
           else Cost(f.quantity, p.entryPrice) - Cost(f.quantity, f.price))
  }

  /** All positions but the k-th stand as before. */
  ghost predicate OthersStand(open: seq<Position>, open': seq<Position>, k: nat) {
    |open'| == |open| && forall j :: 0 <= j < |open| && j != k ==> open'[j] == open[j]
  }

  lemma AddedWritten(p: Position, f: Fill)
    requires p.quantity > 0.0 && f.quantity > 0.0 && p.status == Open
    ensures AddedBy(p, f, Added(p, f))
  {
    var q := p.quantity + f.quantity;
    var cost := p.quantity * p.entryPrice + f.quantity * f.price;
    assert q * (cost / q) == cost;
  }

  lemma ReducedWritten(p: Position, f: Fill)
    requires 0.0 < f.quantity <= p.quantity
    ensures ReducedBy(p, f, Reduced(p, f))
  {
  }

  /** The books after one more fill: it opens, adds to, reduces or closes the position of its symbol. */
  lemma {:induction false} FillMovesPosition(fills: seq<Fill>, f: Fill)
    requires BooksOk(fills, Replay(fills)) && f.quantity > 0.0
    requires Closes(f.side, Net(fills, f.symbol)) ==> f.quantity <= Abs(Net(fills, f.symbol))
    ensures var b, b' := Replay(fills), Replay(fills + [f]);
            match IndexOf(b.open, f.symbol)
            case None =>
              && b'.records == b.records && |b'.open| == |b.open| + 1 && b'.open[..|b.open|] == b.open
              && OpenedBy(f, b'.open[|b.open|])
            case Some(k) =>
              if (b.open[k].side == Long) == (f.side == Buy) then
                b'.records == b.records && OthersStand(b.open, b'.open, k) && AddedBy(b.open[k], f, b'.open[k])
              else if f.quantity < b.open[k].quantity then
                && b'.records == b.records && OthersStand(b.open, b'.open, k)
                && ReducedBy(b.open[k], f, b'.open[k]) && b'.open[k].status == Open
              else
                && b'.open == b.open[..k] + b.open[k + 1..]
                && |b'.records| == |b.records| + 1 && b'.records[..|b.records|] == b.records
                && ReducedBy(b.open[k], f, b'.records[|b.records|]) && b'.records[|b.records|].status == Closed
                && b'.records[|b.records|].closedAt == Some(f.time)
  {
    var b := Replay(fills);
    ReplayAppend(fills, f);
    BooksParts(fills, b);
    PositionIsNet(fills, b.open, f.symbol);
    hide BooksOk, Replay, QuantitiesOk, AddedBy, ReducedBy, Net;
    match IndexOf(b.open, f.symbol)
    case None =>
    case Some(k) =>
      var p := b.open[k];
      if ClosesPosition(p, f.side) {
        ReducedWritten(p, f);
        ClosedWritten(p, f, Reduced(p, f));
      } else {
        AddedWritten(p, f);
      }
  }

  lemma ClosedWritten(p: Position, f: Fill, q: Position)
    requires ReducedBy(p, f, q)
    ensures ReducedBy(p, f, q.(status := Closed, closedAt := Some(f.time)))
    ensures q.quantity == p.quantity - f.quantity
  {
  }

  /** Quantity and cost of the fills of a symbol. */
  function Bought(fills: seq<Fill>, s: Symbol): (real, real) {
    if fills == [] then (0.0, 0.0)
    else
      var (quantity, cost) := Bought(fills[..|fills| - 1], s);
      var f := fills[|fills| - 1];
      if f.symbol == s then (quantity + f.quantity, cost + Cost(f.quantity, f.price)) else (quantity, cost)
  }

  /** The position of s has realised nothing and costs the mean of the fills from k on. */
  ghost predicate CostsMean(fills: seq<Fill>, k: nat, s: Symbol, side: Side)
    requires k <= |fills|
  {
    var open, i := Replay(fills).open, IndexOf(Replay(fills).open, s);
    && i.Some? && open[i.value].realized == 0.0 && (open[i.value].side == Long <==> side == Buy)
    && open[i.value].quantity == Bought(fills[k..], s).0
    && Cost(open[i.value].quantity, open[i.value].entryPrice) == Bought(fills[k..], s).1
  }

  /** A position that has only been added to has realised nothing and costs the mean of its fills. */
  lemma {:induction false} OnlyAddedIsMean(fills: seq<Fill>, k: nat, s: Symbol, side: Side)
    requires NoReversal(fills) && (forall j :: 0 <= j < |fills| ==> fills[j].quantity > 0.0)
    requires k < |fills| && fills[k].symbol == s && IndexOf(Replay(fills[..k]).open, s).None?
    requires forall j :: k <= j < |fills| && fills[j].symbol == s ==> fills[j].side == side
    ensures CostsMean(fills, k, s, side)
  {
    hide CostsMean, Replay, BooksOk, Bought;
    var n := |fills| - 1;
    var before, f := fills[..n], fills[n];
    assert fills == before + [f] && KeepsSide(fills, n);
    PrefixKeepsSides(fills, n);
    ReplayBalances(before);
    ReplayBalances(fills);
    if k == n {
      OpenedCostsMean(fills, before, f, s);
    } else {
      assert before[..k] == fills[..k];
      OnlyAddedIsMean(before, k, s, side);
      AddedCostsMean(fills, before, f, k, s, side);
    }
  }

  lemma {:induction false} OpenedCostsMean(fills: seq<Fill>, before: seq<Fill>, f: Fill, s: Symbol)
    requires fills == before + [f] && BooksOk(before, Replay(before)) && BooksOk(fills, Replay(fills))
    requires f.quantity > 0.0 && f.symbol == s && IndexOf(Replay(before).open, s).None?
    requires Closes(f.side, Net(before, f.symbol)) ==> f.quantity <= Abs(Net(before, f.symbol))
    ensures CostsMean(fills, |before|, s, f.side)
  {
    hide Replay, BooksOk, Cost, Net, AddedBy, ReducedBy;
    FillMovesPosition(before, f);
    assert fills[|before|..] == [f] && [f][..0] == [] && Bought([], s) == (0.0, 0.0);
    SoleIndex(fills, Replay(fills), |Replay(before).open|);
  }

  lemma {:induction false} AddedCostsMean(fills: seq<Fill>, before: seq<Fill>, f: Fill, k: nat, s: Symbol, side: Side)
    requires fills == before + [f] && BooksOk(before, Replay(before)) && BooksOk(fills, Replay(fills))
    requires f.quantity > 0.0 && (f.symbol == s ==> f.side == side)
    requires Closes(f.side, Net(before, f.symbol)) ==> f.quantity <= Abs(Net(before, f.symbol))
    requires k <= |before| && CostsMean(before, k, s, side)
    ensures CostsMean(fills, k, s, side)
  {
    hide Replay, BooksOk, Net, Cost;
    OnlyAddedStep(fills, before, f, s, side);
    assert fills[k..] == before[k..] + [f] && (before[k..] + [f])[..|before[k..]|] == before[k..];
  }

  lemma SoleIndex(fills: seq<Fill>, b: Books, k: nat)
    requires BooksOk(fills, b) && k < |b.open|
    ensures IndexOf(b.open, b.open[k].symbol) == Some(k)
  {
  }

  lemma {:induction false} OnlyAddedStep(fills: seq<Fill>, before: seq<Fill>, f: Fill, s: Symbol, side: Side)
    requires fills == before + [f] && BooksOk(before, Replay(before)) && BooksOk(fills, Replay(fills))
    requires f.quantity > 0.0 && (f.symbol == s ==> f.side == side)
    requires Closes(f.side, Net(before, f.symbol)) ==> f.quantity <= Abs(Net(before, f.symbol))
    requires var i := IndexOf(Replay(before).open, s);
             i.Some? && (Replay(before).open[i.value].side == Long <==> side == Buy)
    ensures var i, i' := IndexOf(Replay(before).open, s), IndexOf(Replay(fills).open, s);
            && i'.Some?
            && if f.symbol == s then AddedBy(Replay(before).open[i.value], f, Replay(fills).open[i'.value])
               else Replay(fills).open[i'.value] == Replay(before).open[i.value]
  {
    hide Replay, BooksOk, AddedBy, ReducedBy, Net, OpenedBy, Closes;
    FillMovesPosition(before, f);
    var b, b' := Replay(before), Replay(fills);
    var i := IndexOf(b.open, s).value;
    if f.symbol == s {
      SymbolOfAdded(b.open[i], f, b'.open[i]);
      SoleIndex(fills, b', i);
    } else {
      var at := StillThere(b, b', f, i);
      SoleIndex(fills, b', at);
    }
  }

  /** Where a position of another symbol stands after a fill. */
  lemma StillThere(b: Books, b': Books, f: Fill, i: nat) returns (at: nat)
    requires i < |b.open| && b.open[i].symbol != f.symbol
    requires match IndexOf(b.open, f.symbol)
             case None => |b'.open| == |b.open| + 1 && b'.open[..|b.open|] == b.open
             case Some(k) => OthersStand(b.open, b'.open, k) || b'.open == b.open[..k] + b.open[k + 1..]
    ensures at < |b'.open| && b'.open[at] == b.open[i]
  {
    match IndexOf(b.open, f.symbol)
    case None =>
      at := i;
      assert b'.open[..|b.open|][i] == b.open[i];
    case Some(k) =>
      at := if OthersStand(b.open, b'.open, k) || i < k then i else i - 1;
  }

  lemma SymbolOfAdded(p: Position, f: Fill, q: Position)
    requires AddedBy(p, f, q)
    ensures q.symbol == p.symbol
  {
  }

  /** The open position and the net of the fills say the same about a symbol. */
  lemma {:induction false} PositionIsNet(fills: seq<Fill>, open: seq<Position>, s: Symbol)
    requires QuantitiesOk(fills, open)
    ensures match IndexOf(open, s)
            case None => Net(fills, s) == 0.0
            case Some(k) =>
              && Abs(Net(fills, s)) == open[k].quantity > 0.0 && open[k].status == Open
              && forall side :: ClosesPosition(open[k], side) == Closes(side, Net(fills, s))
  {
    if IndexOf(open, s).Some? {
      assert PositionOk(fills, open[IndexOf(open, s).value]);
    }
  }

  // ---------------------------------------------------------------------------
  // Equity
  // ---------------------------------------------------------------------------

  /** The value at a price of what the fills hold of a symbol. */
  ghost function Held(fills: seq<Fill>, s: Symbol, price: real): real {
    Net(fills, s) * price
  }

  /** The value of the open positions at given prices. */
  ghost function OpenValue(fills: seq<Fill>, open: seq<Position>, priceOf: Position -> real): real {
    if open == [] then 0.0
    else
      var n := |open| - 1;
      OpenValue(fills, open[..n], priceOf) + Held(fills, open[n].symbol, priceOf(open[n]))
  }

  /** What the account is worth: cash moved, less commissions, plus positions at their price. */
  ghost function AccountValue(fills: seq<Fill>, open: seq<Position>, priceOf: Position -> real): real {
    Sum(fills, Cash(All)) - Sum(fills, Fees(All)) + OpenValue(fills, open, priceOf)
  }

  function Gain(p: Position, price: real): real {
    GainOn(p, price, p.quantity)
  }

  /** Profit of one position marked to a price: what the engine adds up. */
  function MarkedProfit(p: Position, price: real): real {
    p.realized - p.commission + Gain(p, price)
  }

  function ProfitSum(ps: seq<Position>, priceOf: Position -> real): real {
    if ps == [] then 0.0
    else ProfitSum(ps[..|ps| - 1], priceOf) + MarkedProfit(ps[|ps| - 1], priceOf(ps[|ps| - 1]))
  }

  lemma {:induction false} ProfitOfOpen(fills: seq<Fill>, open: seq<Position>, priceOf: Position -> real)
    requires forall k :: 0 <= k < |open| ==> PositionOk(fills, open[k])
    ensures ProfitSum(open, priceOf)
         == Total(open, CashMoved(All)) - Total(open, Charged(All)) + OpenValue(fills, open, priceOf)
  {
    if open != [] {
      var n := |open| - 1;
      ProfitOfOpen(fills, open[..n], priceOf);
      assert PositionOk(fills, open[n]);
      MarkedShare(open[n], priceOf(open[n]));
    }
  }

  lemma MarkedShare(p: Position, price: real)
    ensures MarkedProfit(p, price)
         == Share(CashMoved(All), p) - Share(Charged(All), p) + p.Signed() * price
  {
  }

  lemma {:induction false} ProfitOfRecords(records: seq<Position>, priceOf: Position -> real)
    requires forall k :: 0 <= k < |records| ==> records[k].quantity == 0.0
    ensures ProfitSum(records, priceOf) == Total(records, CashMoved(All)) - Total(records, Charged(All))
  {
    if records != [] {
      var n := |records| - 1;
      ProfitOfRecords(records[..n], priceOf);
      MarkedShare(records[n], priceOf(records[n]));
    }
  }

  lemma {:induction false} ProfitSumConcat(ps: seq<Position>, qs: seq<Position>, priceOf: Position -> real)
    ensures ProfitSum(ps + qs, priceOf) == ProfitSum(ps, priceOf) + ProfitSum(qs, priceOf)
  {
    if qs == [] {
      assert ps + qs == ps;
    } else {
      var n := |qs| - 1;
      assert (ps + qs)[..|ps| + n] == ps + qs[..n];
      ProfitSumConcat(ps, qs[..n], priceOf);
    }
  }

  /** Position by position profit is the cash account of the fills: nothing is lost or made up. */
  lemma {:induction false} ProfitIsAccountValue(
    fills: seq<Fill>, open: seq<Position>, records: seq<Position>, priceOf: Position -> real)
    requires BookOk(fills, open, records)
    ensures ProfitSum(records, priceOf) + ProfitSum(open, priceOf) == AccountValue(fills, open, priceOf)
  {
    ProfitOfOpen(fills, open, priceOf);
    ProfitOfRecords(records, priceOf);
    assert Balanced(fills, open, records, Cash(All), CashMoved(All));
    assert Balanced(fills, open, records, Fees(All), Charged(All));
  }

  // ---------------------------------------------------------------------------
  // Drawdown
  // ---------------------------------------------------------------------------

  ghost predicate IsPeak(samples: seq<real>, peak: real) {
    && peak >= 0.0
    && (forall i :: 0 <= i < |samples| ==> samples[i] <= peak)
    && (peak == 0.0 || peak in samples)
  }

  /** The drop at sample i from an earlier sample j, or from the baseline zero when j is |samples|. */
  ghost function Drop(samples: seq<real>, j: nat, i: nat): real
    requires j <= |samples| && i < |samples|
  {
    samples[i] - if j == |samples| then 0.0 else samples[j]
  }

  ghost predicate DropIndex(samples: seq<real>, j: nat, i: nat) {
    i < |samples| && (j <= i || j == |samples|)
  }

  /** The deepest drop, seen with the whole history at hand. */
  ghost predicate IsWorstDrop(samples: seq<real>, d: real) {
    && d <= 0.0
    && (forall j: nat, i: nat :: DropIndex(samples, j, i) ==> d <= Drop(samples, j, i))
    && (d == 0.0 || exists j: nat, i: nat :: DropIndex(samples, j, i) && d == Drop(samples, j, i))
  }

  lemma WorstDropUnique(samples: seq<real>, d: real, d': real)
    requires IsWorstDrop(samples, d) && IsWorstDrop(samples, d')
    ensures d == d'
  {
  }

  lemma WorstDropStep(samples: seq<real>, peak: real, worst: real, x: real)
    requires IsPeak(samples, peak) && IsWorstDrop(samples, worst)
    ensures IsPeak(samples + [x], Max(peak, x))
    ensures IsWorstDrop(samples + [x], Min(worst, x - Max(peak, x)))
  {
    var samples' := samples + [x];
    var n := |samples|;
    var peak' := Max(peak, x);
    var d := Min(worst, x - peak');
    assert samples'[n] == x;
    assert peak' == 0.0 || peak' in samples' by {
      if peak' == peak && peak != 0.0 {
        var k :| 0 <= k < n && samples[k] == peak;
        assert samples'[k] == peak;
      }
    }
    forall j: nat, i: nat | DropIndex(samples', j, i)
      ensures d <= Drop(samples', j, i)
    {
      if i < n {
        var j' := if j == n + 1 then n else j;
        assert DropIndex(samples, j', i) && Drop(samples, j', i) == Drop(samples', j, i);
      }
    }
    if d != 0.0 {
      WorstDropAttained(samples, peak, worst, x);
    }
  }

  lemma WorstDropAttained(samples: seq<real>, peak: real, worst: real, x: real)
    requires IsPeak(samples, peak) && IsWorstDrop(samples, worst)
    requires Min(worst, x - Max(peak, x)) != 0.0
    ensures exists j: nat, i: nat ::
              DropIndex(samples + [x], j, i) && Min(worst, x - Max(peak, x)) == Drop(samples + [x], j, i)
  {
    var samples' := samples + [x];
    var n := |samples|;
    var peak' := Max(peak, x);
    if worst <= x - peak' {
      var j: nat, i: nat :| DropIndex(samples, j, i) && worst == Drop(samples, j, i);
      var j' := if j == n then n + 1 else j;
      assert DropIndex(samples', j', i) && worst == Drop(samples', j', i);
    } else if peak == 0.0 {
      assert DropIndex(samples', n + 1, n) && x - peak' == Drop(samples', n + 1, n);
    } else {
      var k :| 0 <= k < n && samples[k] == peak;
      assert DropIndex(samples', k, n) && x - peak' == Drop(samples', k, n);
    }
  }
}
