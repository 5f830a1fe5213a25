/**
 The per-symbol index of active orders, and the look-up tables by order id and client id.

 The index is a dictionary of insertion-ordered dictionaries; an inner dictionary is the sequence
 of its keys.  `IndexOk` says that it is exactly the simple form: for every symbol the active
 orders of the history in placement order, and no entry where there are none.
 */
module ActiveIndex {
  import opened Wrappers
  import opened LedgerModel
  import opened LedgerLaws

  type Index = map<Symbol, seq<nat>>

  function Registered(index: Index, s: Symbol, i: nat): Index {
    var refs := if s in index then index[s] else [];
    index[s := if i in refs then refs else refs + [i]]
  }

  function Pop(refs: seq<nat>, i: nat): seq<nat> {
    if refs == [] then []
    else if refs[|refs| - 1] == i then Pop(refs[..|refs| - 1], i)
    else Pop(refs[..|refs| - 1], i) + [refs[|refs| - 1]]
  }

  function Removed(index: Index, s: Symbol, i: nat): Index {
    if s !in index then index
    else
      var refs := Pop(index[s], i);
      if refs == [] then index - {s} else index[s := refs]
  }

  ghost predicate EntryOk(orders: seq<Order>, index: Index, s: Symbol) {
    if ActiveRefs(orders, s) == [] then s !in index
    else s in index && index[s] == ActiveRefs(orders, s)
  }

  ghost predicate IndexOk(orders: seq<Order>, index: Index) {
    forall s :: EntryOk(orders, index, s)
  }

  ghost predicate IdsOk(orders: seq<Order>, byId: map<OrderId, nat>) {
    && (forall i :: 0 <= i < |orders| ==> orders[i].id in byId && byId[orders[i].id] == i)
    && (forall id :: id in byId ==> byId[id] < |orders| && orders[byId[id]].id == id)
  }

  function Lookup(byClient: map<string, nat>, clientId: string): Option<nat> {
    if clientId in byClient then Some(byClient[clientId]) else None
  }

  ghost predicate ClientsOk(orders: seq<Order>, byClient: map<string, nat>) {
    forall c :: FindClient(orders, c) == Lookup(byClient, c)
  }

  // ---------------------------------------------------------------------------

  lemma {:induction false} PopAbsent(refs: seq<nat>, i: nat)
    requires i !in refs
    ensures Pop(refs, i) == refs
  {
    if refs != [] {
      var n := |refs| - 1;
      assert refs == refs[..n] + [refs[n]];
      assert refs[n] in refs;
      PopAbsent(refs[..n], i);
    }
  }

  lemma {:induction false} ActiveRefsAppend(orders: seq<Order>, o: Order, s: Symbol)
    ensures ActiveRefs(orders + [o], s)
         == if o.Active() && o.symbol == s then ActiveRefs(orders, s) + [|orders|] else ActiveRefs(orders, s)
  {
    assert (orders + [o])[..|orders|] == orders;
  }

  /** An update that leaves activity alone leaves the active orders alone. */
  lemma {:induction false} ActiveRefsSame(orders: seq<Order>, i: nat, o: Order, s: Symbol)
    requires i < |orders| && o.symbol == orders[i].symbol
    requires o.Active() == orders[i].Active() || o.symbol != s
    ensures ActiveRefs(orders[i := o], s) == ActiveRefs(orders, s)
  {
    var n := |orders| - 1;
    if i == n {
      assert orders[i := o][..n] == orders[..n];
    } else {
      assert orders[i := o][..n] == orders[..n][i := o];
      ActiveRefsSame(orders[..n], i, o, s);
    }
  }

  lemma {:induction false} PopAppend(refs: seq<nat>, j: nat, i: nat)
    ensures Pop(refs + [j], i) == if j == i then Pop(refs, i) else Pop(refs, i) + [j]
  {
    assert (refs + [j])[..|refs|] == refs;
  }

  /** An order that becomes final leaves the list of active orders, and nothing else moves. */
  lemma {:induction false} ActiveRefsPop(orders: seq<Order>, i: nat, o: Order, s: Symbol)
    requires i < |orders| && o.symbol == orders[i].symbol == s && !o.Active()
    ensures ActiveRefs(orders[i := o], s) == Pop(ActiveRefs(orders, s), i)
  {
    var n := |orders| - 1;
    var pre, last := orders[..n], orders[n];
    var rest := ActiveRefs(pre, s);
    assert orders == pre + [last];
    ActiveRefsAppend(pre, last, s);
    PopAppend(rest, n, i);
    if i == n {
      assert orders[i := o] == pre + [o];
      ActiveRefsAppend(pre, o, s);
      PopAbsent(rest, n);
    } else {
      assert orders[i := o] == pre[i := o] + [last];
      ActiveRefsAppend(pre[i := o], last, s);
      ActiveRefsPop(pre, i, o, s);
    }
  }

  lemma RegisterNew(orders: seq<Order>, index: Index, o: Order)
    requires IndexOk(orders, index) && o.Active()
    ensures IndexOk(orders + [o], Registered(index, o.symbol, |orders|))
  {
    var orders', index' := orders + [o], Registered(index, o.symbol, |orders|);
    forall s
      ensures EntryOk(orders', index', s)
    {
      assert EntryOk(orders, index, s);
      ActiveRefsAppend(orders, o, s);
    }
  }

  lemma RegisterAgain(orders: seq<Order>, index: Index, i: nat, o: Order)
    requires IndexOk(orders, index) && i < |orders|
    requires orders[i].Active() && o.Active() && o.symbol == orders[i].symbol
    ensures Registered(index, o.symbol, i) == index
    ensures IndexOk(orders[i := o], index)
  {
    assert EntryOk(orders, index, o.symbol);
    ActiveRefsExact(orders, o.symbol);
    var orders' := orders[i := o];
    forall s
      ensures EntryOk(orders', index, s)
    {
      assert EntryOk(orders, index, s);
      ActiveRefsSame(orders, i, o, s);
    }
  }

  lemma RemoveFinal(orders: seq<Order>, index: Index, i: nat, o: Order)
    requires IndexOk(orders, index) && i < |orders|
    requires !o.Active() && o.symbol == orders[i].symbol
    ensures IndexOk(orders[i := o], Removed(index, o.symbol, i))
  {
    var orders', index' := orders[i := o], Removed(index, o.symbol, i);
    forall s
      ensures EntryOk(orders', index', s)
    {
      assert EntryOk(orders, index, s);
      if s == o.symbol {
        ActiveRefsPop(orders, i, o, s);
      } else {
        ActiveRefsSame(orders, i, o, s);
      }
    }
  }

  lemma UpdateKeepsLookups(orders: seq<Order>, byId: map<OrderId, nat>, byClient: map<string, nat>, i: nat, o: Order)
    requires IdsOk(orders, byId) && ClientsOk(orders, byClient)
    requires i < |orders| && o.id == orders[i].id && o.clientId == orders[i].clientId
    ensures IdsOk(orders[i := o], byId) && ClientsOk(orders[i := o], byClient)
  {
    forall c
      ensures FindClient(orders[i := o], c) == Lookup(byClient, c)
    {
      FindClientSame(orders, i, o, c);
      assert FindClient(orders, c) == Lookup(byClient, c);
    }
  }

  lemma {:induction false} FindClientSame(orders: seq<Order>, i: nat, o: Order, c: string)
    requires i < |orders| && o.clientId == orders[i].clientId
    ensures FindClient(orders[i := o], c) == FindClient(orders, c)
  {
    var n := |orders| - 1;
    if i == n {
      assert orders[i := o][..n] == orders[..n];
    } else {
      assert orders[i := o][..n] == orders[..n][i := o];
      FindClientSame(orders[..n], i, o, c);
    }
  }

  lemma AppendKeepsIds(orders: seq<Order>, byId: map<OrderId, nat>, o: Order)
    requires IdsOk(orders, byId) && o.id !in byId
    ensures IdsOk(orders + [o], byId[o.id := |orders|])
  {
    var orders', byId' := orders + [o], byId[o.id := |orders|];
    forall i | 0 <= i < |orders'|
      ensures orders'[i].id in byId' && byId'[orders'[i].id] == i
    {
      if i < |orders| {
        assert orders'[i] == orders[i] && orders[i].id in byId;
      }
    }
  }

  lemma {:induction false} FindClientAppend(orders: seq<Order>, o: Order, c: string)
    ensures FindClient(orders + [o], c) == if o.clientId == c then Some(|orders|) else FindClient(orders, c)
  {
    assert (orders + [o])[..|orders|] == orders;
  }

  lemma AppendKeepsClients(orders: seq<Order>, byClient: map<string, nat>, o: Order)
    requires ClientsOk(orders, byClient)
    ensures ClientsOk(orders + [o], byClient[o.clientId := |orders|])
  {
    var orders', byClient' := orders + [o], byClient[o.clientId := |orders|];
    forall c
      ensures FindClient(orders', c) == Lookup(byClient', c)
    {
      FindClientAppend(orders, o, c);
      assert FindClient(orders, c) == Lookup(byClient, c);
    }
  }

  // ---------------------------------------------------------------------------

  /** What the active orders of a list reserve, one by one. */
  function ReservedOver(orders: seq<Order>, refs: seq<nat>): real
    requires forall k :: 0 <= k < |refs| ==> refs[k] < |orders|
  {
    if refs == [] then 0.0
    else
      var n := |refs| - 1;
      ReservedOver(orders, refs[..n]) + if orders[refs[n]].reduceOnly then orders[refs[n]].Remaining() else 0.0
  }

  lemma {:induction false} ReservedOverPrefix(orders: seq<Order>, o: Order, refs: seq<nat>)
    requires forall k :: 0 <= k < |refs| ==> refs[k] < |orders|
    ensures ReservedOver(orders + [o], refs) == ReservedOver(orders, refs)
  {
    if refs != [] {
      ReservedOverPrefix(orders, o, refs[..|refs| - 1]);
    }
  }

  lemma {:induction false} ReservedOverAppend(orders: seq<Order>, o: Order, s: Symbol)
    ensures ReservedOver(orders + [o], ActiveRefs(orders + [o], s))
         == ReservedOver(orders, ActiveRefs(orders, s)) + ReservedBy(o, s)
  {
    var rest := ActiveRefs(orders, s);
    ActiveRefsAppend(orders, o, s);
    ReservedOverPrefix(orders, o, rest);
    if o.Active() && o.symbol == s {
      assert (rest + [|orders|])[..|rest|] == rest;
    }
  }

  /** Summing over the index is summing over the history. */
  lemma {:induction false} ReservedOverActive(orders: seq<Order>, s: Symbol)
    ensures ReservedOver(orders, ActiveRefs(orders, s)) == Reserved(orders, s)
  {
    if orders != [] {
      var n := |orders| - 1;
      ReservedOverActive(orders[..n], s);
      ReservedOverAppend(orders[..n], orders[n], s);
      assert orders[..n] + [orders[n]] == orders;
    }
  }
}
