/**
 Losing every node, played through on the fleet itself: the connections end one after
 another, and then a newcomer joins, connects, loads its model, and works off all that
 is left, asking for each batch before it reports the one before.
 */
module Takeover {
  import opened Sequences
  import opened Store
  import opened Node
  import opened Invariant
  import opened Protocol
  import opened Fleet
  import opened Leases
  import opened NonEvent
  import opened Recovery
  import Leasing
  import L = Link
  import N = Node

  // ── Runs put together ──────────────────────────────────────────────────

  lemma Do(net: Net, a: Action)
    requires Enabled(net, a)
    ensures Possible(net, [a]) && After(net, [a]) == Next(net, a)
  {
    hide Enabled, Next;
    assert [a][1..] == [];
  }

  lemma {:induction false} InTurn(net: Net, a: seq<Action>, b: seq<Action>)
    requires Possible(net, a) && Possible(After(net, a), b)
    ensures Possible(net, a + b) && After(net, a + b) == After(After(net, a), b)
    decreases |a|
  {
    hide Enabled, Next;
    if a == [] {
      assert a + b == b;
    } else {
      assert (a + b)[1..] == a[1..] + b;
      InTurn(Next(net, a[0]), a[1..], b);
    }
  }

  // ── Every connection ends ──────────────────────────────────────────────

  predicate Ending(a: Action) { a.Drop? || a.Hangup? || a.Depart? }

  predicate Ended(c: Conn) { c.server == CLOSED && !c.alive }

  /** Connections have only come closer to their end, and the store has only got leases back. */
  ghost predicate OnlyEnded(net: Net, t: Net) {
    && t.peers.Keys == net.peers.Keys && |t.conns| == |net.conns| && OnlyReturned(net.store, t.store)
    && forall j :: 0 <= j < |net.conns| && Ended(net.conns[j]) ==> Ended(t.conns[j])
  }

  lemma EndedInTurn(net: Net, mid: Net, t: Net)
    requires OnlyEnded(net, mid) && OnlyEnded(mid, t)
    ensures OnlyEnded(net, t)
  {
    ReturnedInTurn(net.store, mid.store, t.store);
    hide OnlyReturned;
  }

  /** How far connection `i` is from its end. */
  function Left(net: Net, i: nat): nat
    requires i < |net.conns|
  {
    var c := net.conns[i];
    (if c.alive then 1 else 0) + (if c.server == OPEN then 2 else if c.server == CLOSING then 1 else 0)
  }

  /** The next step towards the end of connection `i`. */
  function NextEnd(net: Net, i: nat): Action
    requires i < |net.conns|
  {
    var c := net.conns[i];
    if c.alive then Drop(c.node) else if c.server == OPEN then Hangup(i) else Depart(i)
  }

  lemma DropEnds(net: Net, i: nat)
    requires Wired(net) && i < |net.conns| && net.conns[i].alive
    ensures var n := net.conns[i].node;
      && Connected(net, n) && net.peers[n].conn == Some(i)
      && OnlyEnded(net, DropConn(net, n, i)) && Left(DropConn(net, n, i), i) < Left(net, i)
  {
    assert WiredConn(net, i) && WiredPeer(net, net.conns[i].node);
  }

  lemma HangupEnds(net: Net, i: nat)
    requires i < |net.conns| && net.conns[i].server == OPEN
    ensures var t := WithConn(net, i, net.conns[i].(server := CLOSING)); OnlyEnded(net, t) && Left(t, i) < Left(net, i)
  {
  }

  lemma DepartEnds(net: Net, i: nat)
    requires i < |net.conns| && net.conns[i].server == CLOSING
    ensures OnlyEnded(net, DepartConn(net, i)) && Left(DepartConn(net, i), i) < Left(net, i)
  {
    ReleaseReturns(net.store, net.conns[i].node);
    hide Release, OnlyReturned;
  }

  lemma EndStep(net: Net, i: nat)
    requires Sound(net) && i < |net.conns| && !Ended(net.conns[i])
    ensures var a := NextEnd(net, i);
      Enabled(net, a) && Ending(a) && OnlyEnded(net, Next(net, a)) && Left(Next(net, a), i) < Left(net, i)
  {
    hide Inv, Linked, Covered, Wired, OnlyEnded, DropConn, DepartConn, WithConn;
    var c := net.conns[i];
    if c.alive {
      DropEnds(net, i);
    } else if c.server == OPEN {
      HangupEnds(net, i);
    } else {
      DepartEnds(net, i);
    }
  }

  lemma EndConn(net: Net, i: nat) returns (acts: seq<Action>)
    requires Sound(net) && i < |net.conns|
    ensures Possible(net, acts) && (forall a :: a in acts ==> Ending(a))
    ensures Sound(After(net, acts)) && OnlyEnded(net, After(net, acts))
    ensures |After(net, acts).conns| == |net.conns| && Ended(After(net, acts).conns[i])
    decreases Left(net, i)
  {
    hide Sound, Enabled, Next, OnlyReturned, NextEnd;
    acts := [];
    NothingEnded(net);
    if !Ended(net.conns[i]) {
      var a := NextEnd(net, i);
      EndStep(net, i);
      NextSound(net, a);
      Do(net, a);
      var t := Next(net, a);
      var rest := EndConn(t, i);
      acts := [a] + rest;
      InTurn(net, [a], rest);
      EndedInTurn(net, t, After(t, rest));
    }
  }

  lemma NothingEnded(net: Net)
    ensures OnlyEnded(net, net)
  {
  }

  /** The first `k` connections end. */
  lemma {:induction false} EndConns(net: Net, k: nat) returns (acts: seq<Action>)
    requires Sound(net) && k <= |net.conns|
    ensures Possible(net, acts) && (forall a :: a in acts ==> Ending(a))
    ensures Sound(After(net, acts)) && OnlyEnded(net, After(net, acts))
    ensures forall j :: 0 <= j < k ==> Ended(After(net, acts).conns[j])
  {
    hide Sound, Enabled, Next, OnlyReturned, Ended;
    acts := [];
    NothingEnded(net);
    if k > 0 {
      var most := EndConns(net, k - 1);
      var mid := After(net, most);
      assert |mid.conns| == |net.conns|;
      var last := EndConn(mid, k - 1);
      acts := most + last;
      InTurn(net, most, last);
      EndedInTurn(net, mid, After(mid, last));
      hide OnlyEnded, Possible;
    }
  }

  // ── The newcomer ───────────────────────────────────────────────────────

  /** A node that was never there before, and what its model answers. */
  datatype Helper = Helper(node: NodeId, size: int, now: real, answer: UnitId -> (string, int, int), servedBy: string)
  {
    function ResultOf(id: UnitId): Result {
      Result(answer(id).0, answer(id).1, answer(id).2, servedBy)
    }

    function OutputFor(p: Payload): BatchOutput {
      BatchOutput(answer(p.unitId).0, answer(p.unitId).1, answer(p.unitId).2, None)
    }

    function AsSurvivor(): Survivor {
      Survivor(node, now, (id: UnitId) => ResultOf(id), (_: nat) => 1)
    }

    /** The agent at work, with its model loaded. */
    function Busy(queue: seq<Payload>, current: seq<Payload>, outbox: seq<Uplink>, inflight: bool): Agent {
      Agent(size, true, queue, current, outbox, inflight)
    }
  }

  /** The newcomer's connection is the only one left, with this under way on it. */
  ghost predicate At(net: Net, h: Helper, k: nat, a: Agent, sent: seq<Uplink>, down: seq<seq<Payload>>) {
    && h.node in net.peers && net.peers[h.node] == Peer(a, Some(k)) && k < |net.conns|
    && net.conns[k] == Conn(h.node, sent, down, [], true, OPEN)
  }

  // ── What the store goes through ────────────────────────────────────────

  /** Every unit is as it was in `s0`, or out on a lease to the newcomer, or answered by it. */
  ghost predicate Underway(s0: Store, s: Store, out: set<UnitId>, h: Helper) {
    && s.units.Keys == s0.units.Keys && s.batches.Keys == s0.batches.Keys
    && (forall b :: b in s0.batches ==> s.batches[b].unitIds == s0.batches[b].unitIds)
    && forall id :: id in s0.units ==> UnderwayAt(s0, s, out, h, id)
  }

  ghost predicate UnderwayAt(s0: Store, s: Store, out: set<UnitId>, h: Helper, id: UnitId)
    requires id in s0.units && id in s.units
  {
    if s.units[id].state == LEASED then id in out && s0.units[id].Outstanding()
    else s.units[id] == s0.units[id] || (s0.units[id].Outstanding() && IsAnswer(s.units[id], h.node, h.ResultOf(id)))
  }

  lemma GrantGoesOn(s0: Store, s: Store, out: set<UnitId>, h: Helper)
    requires Underway(s0, s, out, h) && Inv(s) && h.size >= 1
    ensures var ids, t := GrantedTo(s, h.size, ""), LeaseFor(s, h.node, h.size, "", h.now);
      && Inv(t) && Underway(s0, t, out + Elements(ids), h) && |ids| <= h.size && (ids == [] ==> Waiting(t) == {})
      && Waiting(t) == Waiting(s) - Elements(ids) && Elements(ids) <= Waiting(s)
  {
    var count := Allowance(h.size);
    var ids, t := Granted(s, count, ""), Lease(s, h.node, count, "", h.now);
    LeaseKeeps(s, h.node, count, "", h.now);
    GrantedMembers(s, count, "");
    Leasing.GrantedAreFirst(s, count, "");
    if Waiting(s) != {} { SomethingGranted(s, count); }
    hide Inv, Granted, LeftQueued, Underway;
    GrantWaits(s, ids, t, h);
    GrantUnderway(s0, s, out, h, ids, t);
  }

  lemma GrantWaits(s: Store, ids: seq<UnitId>, t: Store, h: Helper)
    requires t.units == GrantAll(s.units, ids, h.node, h.now)
    requires forall id :: id in ids ==> id in s.units && s.units[id].state == PENDING
    ensures Waiting(t) == Waiting(s) - Elements(ids) && Elements(ids) <= Waiting(s)
  {
  }

  lemma GrantUnderway(s0: Store, s: Store, out: set<UnitId>, h: Helper, ids: seq<UnitId>, t: Store)
    requires Underway(s0, s, out, h) && t.units == GrantAll(s.units, ids, h.node, h.now) && t.batches == s.batches
    requires forall id :: id in ids ==> id in s.units && s.units[id].state == PENDING
    ensures Underway(s0, t, out + Elements(ids), h)
  {
    forall id | id in s0.units ensures UnderwayAt(s0, t, out + Elements(ids), h, id) { assert UnderwayAt(s0, s, out, h, id); }
  }

  lemma AnswerGoesOn(s0: Store, s: Store, out: set<UnitId>, h: Helper, id: UnitId)
    requires Underway(s0, s, out, h) && Inv(s)
    ensures var t := Complete(s, id, h.node, h.ResultOf(id), h.now);
      Inv(t) && Underway(s0, t, out - {id}, h) && Waiting(t) == Waiting(s) - {id}
  {
    var t := Complete(s, id, h.node, h.ResultOf(id), h.now);
    CompleteKeeps(s, id, h.node, h.ResultOf(id), h.now);
    AnsweredUnits(s, id, h);
    hide Inv, Complete, Underway;
    AnswerWaits(s, t, id, h);
    AnswerUnderway(s0, s, t, out, h, id);
  }

  lemma AnswerWaits(s: Store, t: Store, id: UnitId, h: Helper)
    requires OnlyAnswered(s, t, id, h)
    ensures Waiting(t) == Waiting(s) - {id}
  {
  }

  lemma AnswerUnderway(s0: Store, s: Store, t: Store, out: set<UnitId>, h: Helper, id: UnitId)
    requires Underway(s0, s, out, h) && OnlyAnswered(s, t, id, h)
    ensures Underway(s0, t, out - {id}, h)
  {
    forall x | x in s0.units ensures UnderwayAt(s0, t, out - {id}, h, x) { assert UnderwayAt(s0, s, out, h, x); }
  }

  ghost predicate OnlyAnswered(s: Store, t: Store, id: UnitId, h: Helper) {
    && t.units.Keys == s.units.Keys && t.batches.Keys == s.batches.Keys
    && (forall b :: b in s.batches ==> t.batches[b].unitIds == s.batches[b].unitIds)
    && (forall x :: x in s.units && (x != id || !s.units[x].Outstanding()) ==> t.units[x] == s.units[x])
    && (id in s.units && s.units[id].Outstanding() ==> IsAnswer(t.units[id], h.node, h.ResultOf(id)))
  }

  lemma AnsweredUnits(s: Store, id: UnitId, h: Helper)
    ensures OnlyAnswered(s, Complete(s, id, h.node, h.ResultOf(id), h.now), id, h)
  {
    hide Unfinished;
  }

  /** Nothing waits and nothing is out: all that was undecided has the newcomer's answer. */
  lemma NothingLeft(s0: Store, s: Store, h: Helper)
    requires Underway(s0, s, {}, h) && Inv(s) && Waiting(s) == {}
    ensures forall id :: id in s0.units ==> id in s.units && Carried(s0.units[id], s.units[id], h.AsSurvivor(), id)
    ensures forall b :: b in s0.batches && s0.batches[b].unitIds != [] ==> b in s.batches && s.batches[b].state != IN_PROGRESS
  {
    forall id | id in s0.units ensures Carried(s0.units[id], s.units[id], h.AsSurvivor(), id) {
      assert UnderwayAt(s0, s, {}, h, id);
      assert id !in Waiting(s);
    }
    forall b | b in s0.batches && s0.batches[b].unitIds != [] ensures s.batches[b].state != IN_PROGRESS {
      assert ExactFor(s, b);
      forall id | id in s.batches[b].unitIds && id in s.units ensures !s.units[id].Outstanding() {
        assert UnderwayAt(s0, s, {}, h, id);
        assert id !in Waiting(s);
      }
    }
  }

  lemma MoreOut(s0: Store, s: Store, out: set<UnitId>, more: set<UnitId>, h: Helper)
    requires Underway(s0, s, out, h) && out <= more
    ensures Underway(s0, s, more, h)
  {
    forall id | id in s0.units ensures UnderwayAt(s0, s, more, h, id) { assert UnderwayAt(s0, s, out, h, id); }
  }

  // ── The newcomer's steps ───────────────────────────────────────────────

  /** One more action at the end of a run. */
  lemma Then(net: Net, acts: seq<Action>, a: Action) returns (more: seq<Action>)
    requires Possible(net, acts) && Enabled(After(net, acts), a)
    ensures more == acts + [a] && Possible(net, more) && After(net, more) == Next(After(net, acts), a)
  {
    hide Enabled, Next;
    more := acts + [a];
    Do(After(net, acts), a);
    InTurn(net, acts, [a]);
  }

  lemma HearStep(net: Net, h: Helper, k: nat, units: seq<Payload>)
    requires At(net, h, k, h.Busy([], [], [], true), [], [units])
    ensures Enabled(net, Hear(h.node)) && At(Next(net, Hear(h.node)), h, k, h.Busy(units, [], [], false), [], [])
    ensures Next(net, Hear(h.node)).store == net.store
  {
    assert [] + units == units && [units][1..] == [];
  }

  lemma StartStep(net: Net, h: Helper, k: nat, units: seq<Payload>)
    requires At(net, h, k, h.Busy(units, [], [], false), [], []) && 1 <= |units| <= h.size
    ensures Enabled(net, Start(h.node))
    ensures At(Next(net, Start(h.node)), h, k, h.Busy([], units, [WorkRequest(h.size)], true), [], [])
    ensures Next(net, Start(h.node)).store == net.store
  {
    assert units[..|units|] == units && units[|units|..] == [] && [] + [WorkRequest(h.size)] == [WorkRequest(h.size)];
  }

  lemma SendStep(net: Net, h: Helper, k: nat, current: seq<Payload>, m: Uplink, rest: seq<Uplink>, down: seq<seq<Payload>>)
    requires At(net, h, k, h.Busy([], current, [m] + rest, true), [], down)
    ensures Enabled(net, Send(h.node)) && At(Next(net, Send(h.node)), h, k, h.Busy([], current, rest, true), [m], down)
    ensures Next(net, Send(h.node)).store == net.store
  {
    assert ([m] + rest)[1..] == rest && [] + [m] == [m];
  }

  function Asked(h: Helper, k: nat): Action { Serve(k, "", h.now, false) }

  lemma ServeStep(net: Net, h: Helper, k: nat, a: Agent)
    requires At(net, h, k, a, [WorkRequest(h.size)], [])
    ensures Enabled(net, Asked(h, k))
    ensures var t := Next(net, Asked(h, k));
      && At(t, h, k, a, [], [Payloads(net.store, GrantedTo(net.store, h.size, ""))])
      && t.store == LeaseFor(net.store, h.node, h.size, "", h.now)
  {
    assert [WorkRequest(h.size)][1..] == [];
    hide LeaseFor, GrantedTo;
  }

  function Answers(ids: seq<UnitId>, h: Helper): seq<Uplink> {
    seq(|ids|, i requires 0 <= i < |ids| => WorkResult(ids[i], h.ResultOf(ids[i])))
  }

  function Decoding(units: seq<Payload>, h: Helper): Decoded {
    Returned(seq(|units|, i requires 0 <= i < |units| => h.OutputFor(units[i])))
  }

  lemma ReportStep(net: Net, h: Helper, k: nat, units: seq<Payload>, down: seq<seq<Payload>>)
    requires At(net, h, k, h.Busy([], units, [], true), [], down) && units != []
    ensures var a := Report(h.node, Decoding(units, h), h.servedBy);
      && Enabled(net, a) && Next(net, a).store == net.store
      && At(Next(net, a), h, k, h.Busy([], [], Answers(L.Ids(units), h), true), [], down)
  {
    assert N.Verdicts(units, Decoding(units, h), h.servedBy) == Answers(L.Ids(units), h);
    assert [] + Answers(L.Ids(units), h) == Answers(L.Ids(units), h);
  }

  lemma RecordStep(net: Net, h: Helper, k: nat, a: Agent, id: UnitId, down: seq<seq<Payload>>)
    requires At(net, h, k, a, [WorkResult(id, h.ResultOf(id))], down)
    ensures Enabled(net, Record(k, h.now))
    ensures At(Next(net, Record(k, h.now)), h, k, a, [], down)
    ensures Next(net, Record(k, h.now)).store == Complete(net.store, id, h.node, h.ResultOf(id), h.now)
  {
    assert [WorkResult(id, h.ResultOf(id))][1..] == [];
    hide Complete;
  }

  // ── The newcomer's work ────────────────────────────────────────────────

  /** The answers go out and are recorded one by one. */
  lemma Deliver(net: Net, h: Helper, k: nat, ids: seq<UnitId>, down: seq<seq<Payload>>, s0: Store, out: set<UnitId>)
      returns (acts: seq<Action>)
    requires At(net, h, k, h.Busy([], [], Answers(ids, h), true), [], down)
    requires Inv(net.store) && Underway(s0, net.store, out, h)
    ensures Possible(net, acts)
    ensures var t := After(net, acts);
      && At(t, h, k, h.Busy([], [], [], true), [], down)
      && Inv(t.store) && Underway(s0, t.store, out - Elements(ids), h) && Waiting(t.store) == Waiting(net.store) - Elements(ids)
    decreases |ids|
  {
    hide Enabled, Next, Inv, Underway, At, Waiting, Complete;
    acts := [];
    if ids != [] {
      var id, more := ids[0], ids[1..];
      assert Answers(ids, h) == [WorkResult(id, h.ResultOf(id))] + Answers(more, h);
      SendStep(net, h, k, [], WorkResult(id, h.ResultOf(id)), Answers(more, h), down);
      acts := Then(net, acts, Send(h.node));
      var mid := After(net, acts);
      RecordStep(mid, h, k, h.Busy([], [], Answers(more, h), true), id, down);
      acts := Then(net, acts, Record(k, h.now));
      AnswerGoesOn(s0, net.store, out, h, id);
      var rest := Deliver(After(net, acts), h, k, more, down, s0, out - {id});
      InTurn(net, acts, rest);
      acts := acts + rest;
      assert Elements(ids) == {id} + Elements(more) by { assert ids == [id] + more; }
      assert out - {id} - Elements(more) == out - Elements(ids);
      assert Waiting(net.store) - {id} - Elements(more) == Waiting(net.store) - Elements(ids);
    } else {
      assert Answers(ids, h) == [] && Elements(ids) == {};
      assert out - Elements(ids) == out && Waiting(net.store) - Elements(ids) == Waiting(net.store);
    }
  }

  /** Hear, start, ask for more, and only then report: one batch of the newcomer's. */
  lemma Batch(net: Net, h: Helper, k: nat, units: seq<Payload>, s0: Store) returns (acts: seq<Action>, next: seq<Payload>)
    requires At(net, h, k, h.Busy([], [], [], true), [], [units]) && 1 <= |units| <= h.size
    requires Inv(net.store) && Underway(s0, net.store, Elements(L.Ids(units)), h)
    ensures Possible(net, acts)
    ensures var t := After(net, acts);
      && At(t, h, k, h.Busy([], [], [], true), [], [next]) && |next| <= h.size
      && Inv(t.store) && Underway(s0, t.store, Elements(L.Ids(next)), h)
      && (next == [] ==> Waiting(t.store) == {}) && Waiting(t.store) <= Waiting(net.store)
      && (next != [] ==> Waiting(t.store) != Waiting(net.store))
  {
    hide Enabled, Next, Inv, Underway, At, Waiting, LeaseFor, GrantedTo;
    var s, ids := net.store, L.Ids(units);
    HearStep(net, h, k, units);
    acts := Then(net, [], Hear(h.node));
    StartStep(After(net, acts), h, k, units);
    acts := Then(net, acts, Start(h.node));
    assert [WorkRequest(h.size)] + [] == [WorkRequest(h.size)];
    SendStep(After(net, acts), h, k, units, WorkRequest(h.size), [], []);
    acts := Then(net, acts, Send(h.node));
    ServeStep(After(net, acts), h, k, h.Busy([], units, [], true));
    acts := Then(net, acts, Asked(h, k));
    GrantGoesOn(s0, s, Elements(ids), h);
    var granted := GrantedTo(s, h.size, "");
    next := Payloads(s, granted);
    assert L.Ids(next) == granted && |next| == |granted|;
    ReportStep(After(net, acts), h, k, units, [next]);
    acts := Then(net, acts, Report(h.node, Decoding(units, h), h.servedBy));
    var mid := After(net, acts);
    var rest := Deliver(mid, h, k, ids, [next], s0, Elements(ids) + Elements(granted));
    InTurn(net, acts, rest);
    acts := acts + rest;
    MoreOut(s0, After(net, acts).store, Elements(ids) + Elements(granted) - Elements(ids), Elements(granted), h);
    if next != [] { assert granted[0] in Elements(granted); }
  }

  /** Batch after batch, until nothing is left. */
  lemma WorkOff(net: Net, h: Helper, k: nat, units: seq<Payload>, s0: Store) returns (acts: seq<Action>)
    requires At(net, h, k, h.Busy([], [], [], true), [], [units]) && |units| <= h.size
    requires Inv(net.store) && Underway(s0, net.store, Elements(L.Ids(units)), h) && (units == [] ==> Waiting(net.store) == {})
    ensures Possible(net, acts)
    ensures var t := After(net, acts).store; Inv(t) && Underway(s0, t, {}, h) && Waiting(t) == {}
    decreases Waiting(net.store), |units|
  {
    hide Enabled, Next, Inv, Underway, At, Waiting;
    acts := [];
    if units == [] {
      assert Elements(L.Ids(units)) == {};
    } else {
      var next;
      acts, next := Batch(net, h, k, units, s0);
      var rest := WorkOff(After(net, acts), h, k, next, s0);
      InTurn(net, acts, rest);
      acts := acts + rest;
    }
  }

  /** The newcomer joins, connects, loads its model, and is served for the first time. */
  lemma Arrive(net: Net, h: Helper) returns (acts: seq<Action>)
    requires h.node !in net.peers && h.size >= 1
    ensures Possible(net, acts)
    ensures var t := After(net, acts);
      && At(t, h, |net.conns|, h.Busy([], [], [], true), [], [Payloads(net.store, GrantedTo(net.store, h.size, ""))])
      && t.store == LeaseFor(net.store, h.node, h.size, "", h.now)
  {
    var k := |net.conns|;
    acts := Then(net, [], Join(h.node, h.size));
    acts := Then(net, acts, Connect(h.node));
    acts := Then(net, acts, LoadModel(h.node));
    var a := After(net, acts);
    assert [] + [WorkRequest(h.size)] == [WorkRequest(h.size)] + [];
    assert At(a, h, k, h.Busy([], [], [WorkRequest(h.size)] + [], true), [], []);
    assert a.store == net.store;
    hide Enabled, Next, At, LeaseFor, GrantedTo;
    SendStep(a, h, k, [], WorkRequest(h.size), [], []);
    acts := Then(net, acts, Send(h.node));
    ServeStep(After(net, acts), h, k, h.Busy([], [], [], true));
    acts := Then(net, acts, Asked(h, k));
  }

  /**
   Losing every node is a non-event. From any state the fleet can reach, the ends of all
   its connections leave no lease and touch no verdict; and after them the steps of a
   single newcomer give every unit that had no verdict an answer, and leave every other
   as it was.
   */
  lemma LosingTheFleetIsANonEvent(before: seq<Action>, h: Helper) returns (kill: seq<Action>, work: seq<Action>)
    requires Possible(START, before) && h.node !in After(START, before).peers && h.size >= 1
    ensures Possible(START, before + kill) && Possible(START, before + kill + work)
    ensures forall a :: a in kill ==> Ending(a)
    ensures var s, dead := After(START, before).store, After(START, before + kill);
      AllGone(dead) && (forall c :: c in dead.conns ==> !c.alive) && NoLease(dead.store) && OnlyReturned(s, dead.store)
    ensures var s, t := After(START, before).store, After(START, before + kill + work).store;
      && (forall id :: id in s.units ==> id in t.units && Carried(s.units[id], t.units[id], h.AsSurvivor(), id))
      && (forall b :: b in s.batches && s.batches[b].unitIds != [] ==> b in t.batches && t.batches[b].state != IN_PROGRESS)
  {
    var net := After(START, before);
    ReachableSound(before);
    kill := EndConns(net, |net.conns|);
    InTurn(START, before, kill);
    var dead := After(net, kill);
    AllGoneNoLease(before + kill);
    work := Newcomer(dead, h);
    InTurn(START, before + kill, work);
    assert AllGone(dead);
    ThenCarried(net.store, dead.store, After(dead, work).store, h);
  }

  lemma Newcomer(net: Net, h: Helper) returns (acts: seq<Action>)
    requires h.node !in net.peers && h.size >= 1 && Inv(net.store) && NoLease(net.store)
    ensures Possible(net, acts)
    ensures var s, t := net.store, After(net, acts).store;
      && t.batches.Keys == s.batches.Keys && (forall b :: b in s.batches ==> t.batches[b].unitIds == s.batches[b].unitIds)
      && (forall id :: id in s.units ==> id in t.units && Carried(s.units[id], t.units[id], h.AsSurvivor(), id))
      && (forall b :: b in s.batches && s.batches[b].unitIds != [] ==> t.batches[b].state != IN_PROGRESS)
  {
    var s := net.store;
    assert Underway(s, s, {}, h);
    GrantGoesOn(s, s, {}, h);
    acts := Arrive(net, h);
    var first := After(net, acts);
    var ids := GrantedTo(s, h.size, "");
    assert {} + Elements(ids) == Elements(ids);
    var rest := WorkOff(first, h, |net.conns|, Payloads(s, ids), s);
    InTurn(net, acts, rest);
    acts := acts + rest;
    NothingLeft(s, After(net, acts).store, h);
  }

  lemma ThenCarried(s: Store, back: Store, t: Store, h: Helper)
    requires OnlyReturned(s, back)
    requires t.batches.Keys == back.batches.Keys
    requires forall id :: id in back.units ==> id in t.units && Carried(back.units[id], t.units[id], h.AsSurvivor(), id)
    requires forall b :: b in back.batches && back.batches[b].unitIds != [] ==> t.batches[b].state != IN_PROGRESS
    ensures forall id :: id in s.units ==> id in t.units && Carried(s.units[id], t.units[id], h.AsSurvivor(), id)
    ensures forall b :: b in s.batches && s.batches[b].unitIds != [] ==> b in t.batches && t.batches[b].state != IN_PROGRESS
  {
  }
}
