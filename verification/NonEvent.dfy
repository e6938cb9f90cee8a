/** Losing nodes is a non-event for the fleet as a whole. */
module NonEvent {
  import opened Store
  import opened Node
  import opened Invariant
  import opened Protocol
  import opened Fleet
  import opened Leases
  import opened Recovery

  /** What an action of the fleet does to the store, as the store's own operations. */
  ghost function StoreOps(net: Net, a: Action): seq<Op>
    requires Enabled(net, a)
  {
    match a
    case Client(op) => [op]
    case Serve(i, model, now, _) =>
      var c := net.conns[i];
      var k := Allowance(c.sent[0].capacity);
      if k > 0 then [Take(c.node, k, model, now)] else []
    case Record(i, now) =>
      var c := net.conns[i];
      (match c.sent[0]
       case WorkResult(id, result) => [Deliver(id, c.node, result, now)]
       case WorkFailed(id, message) => [Refuse(id, c.node, message, now)]
       case WorkRequest(_) => [])
    case Depart(i) => [NodeLeft(net.conns[i].node)]
    case _ => []
  }

  ghost function StoreRun(net: Net, acts: seq<Action>): seq<Op>
    requires Possible(net, acts)
    decreases |acts|
  {
    if acts == [] then [] else StoreOps(net, acts[0]) + StoreRun(Next(net, acts[0]), acts[1..])
  }

  lemma ActionIsStoreRun(net: Net, a: Action)
    requires Enabled(net, a)
    ensures LegalRun(net.store, StoreOps(net, a)) && Run(net.store, StoreOps(net, a)) == Next(net, a).store
  {
  }

  /** Whatever the fleet does, its store has been through a run of the store's own operations. */
  lemma {:induction false} FleetIsStoreRun(net: Net, acts: seq<Action>)
    requires Possible(net, acts)
    ensures LegalRun(net.store, StoreRun(net, acts)) && Run(net.store, StoreRun(net, acts)) == After(net, acts).store
    decreases |acts|
  {
    hide StoreOps, Next, Enabled;
    if acts != [] {
      ActionIsStoreRun(net, acts[0]);
      FleetIsStoreRun(Next(net, acts[0]), acts[1..]);
      RunInTurn(net.store, StoreOps(net, acts[0]), StoreRun(Next(net, acts[0]), acts[1..]));
    }
  }

  /** Every connection the server ever had has been cleared away: all the nodes are gone. */
  ghost predicate AllGone(net: Net) {
    forall i :: 0 <= i < |net.conns| ==> net.conns[i].server == CLOSED
  }

  lemma AllGoneNoLease(acts: seq<Action>)
    requires Possible(START, acts)
    ensures Inv(After(START, acts).store) && (AllGone(After(START, acts)) ==> NoLease(After(START, acts).store))
  {
    var net := After(START, acts);
    ReachableSound(acts);
    hide Wired, Linked;
    forall id | id in net.store.units && AllGone(net) ensures net.store.units[id].state != LEASED {
      LeasedHasConn(net, id);
    }
  }

  lemma LeasedHasConn(net: Net, id: UnitId)
    requires Held(net.store) && Covered(net) && id in net.store.units
    ensures net.store.units[id].state == LEASED ==> exists i :: 0 <= i < |net.conns| && net.conns[i].server != CLOSED
  {
    if net.store.units[id].state == LEASED {
      var n := net.store.units[id].node.value;
      assert net.store.units[id].LeasedTo(n);
      var i: nat :| AnswersFor(net, i, id) && net.conns[i].node == n;
    }
  }

  /**
   Kill every node of the fleet at any moment: once the server has cleared their
   connections away, one newcomer that leases and answers finishes every unit
   that had no verdict, in as many rounds as there are waiting units at most, and
   no verdict given before is touched.
   */
  lemma LosingEveryNodeIsANonEvent(acts: seq<Action>, v: Survivor)
    requires Possible(START, acts) && AllGone(After(START, acts)) && v.AsksForSome()
    ensures var s := After(START, acts).store; var t := Rounds(s, v, |Waiting(s)|);
      && (forall id :: id in s.units ==> id in t.units && Carried(s.units[id], t.units[id], v, id))
      && (forall b :: b in s.batches && s.batches[b].unitIds != [] ==> b in t.batches && t.batches[b].state != IN_PROGRESS)
  {
    var s := After(START, acts).store;
    AllGoneNoLease(acts);
    FleetIsStoreRun(START, acts);
    hide Inv, NoLease;
    assert OnlyReturned(s, s);
    FromAnyReachableState(StoreRun(START, acts), s, v);
  }
}
