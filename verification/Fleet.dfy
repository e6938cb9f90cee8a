/** What every step of the fleet keeps, and what that says about leases in any reachable state. */
module Fleet {
  import opened Sequences
  import opened Store
  import opened Node
  import opened Invariant
  import opened Protocol
  import Leasing
  import L = Link

  // ── The invariant ──────────────────────────────────────────────────────

  /** A node without a connection holds nothing; at most a request waits in its outbox. */
  ghost predicate Resting(a: Agent) {
    && a.queue == [] && a.current == [] && L.VerdictIds(a.outbox) == []
    && L.Requests(a.outbox) == One(a.inflight)
    && (a.inflight ==> L.Capacity(a.outbox) <= a.batchSize)
  }

  ghost predicate WiredConn(net: Net, i: nat)
    requires i < |net.conns|
  {
    var c := net.conns[i];
    c.node in net.peers && (c.alive ==> net.peers[c.node].conn == Some(i))
  }

  ghost predicate WiredPeer(net: Net, n: NodeId)
    requires n in net.peers
  {
    match net.peers[n].conn
    case Some(i) => i < |net.conns| && net.conns[i].node == n && net.conns[i].alive
    case None => Resting(net.peers[n].agent)
  }

  /** The nodes' view of their connections and the connections' own agree. */
  ghost predicate Wired(net: Net) {
    && (forall i :: 0 <= i < |net.conns| ==> WiredConn(net, i))
    && (forall n :: n in net.peers ==> WiredPeer(net, n))
  }

  function LinkOf(net: Net, i: nat): L.Link
    requires i < |net.conns| && net.conns[i].node in net.peers
  {
    var c := net.conns[i];
    var a := net.peers[c.node].agent;
    L.Link(c.sent, c.down, c.lost, a.batchSize, if c.alive then Some(a) else None)
  }

  ghost predicate Linked(net: Net)
    requires Wired(net)
  {
    forall i :: 0 <= i < |net.conns| ==> WiredConn(net, i) && LinkOf(net, i).Ok()
  }

  /** Connection `i` answers for unit `id`: it was granted over it and is still under way or lost with it. */
  ghost predicate AnswersFor(net: Net, i: nat, id: UnitId) {
    && i < |net.conns| && net.conns[i].node in net.peers && net.conns[i].server != CLOSED
    && id in LinkOf(net, i).Custody()
  }

  /** Every lease of a node is answered for by a connection of that node. */
  ghost predicate Covered(net: Net) {
    forall id, n :: id in net.store.units && net.store.units[id].LeasedTo(n) ==>
      exists i: nat :: AnswersFor(net, i, id) && net.conns[i].node == n
  }

  ghost predicate Sound(net: Net) {
    Inv(net.store) && Wired(net) && Linked(net) && Covered(net)
  }

  // ── Steps that touch one link at most ──────────────────────────────────

  /** Nothing but link `i` changed, and it still answers for the same units. */
  ghost predicate OnlyLink(net: Net, after: Net, i: nat) {
    && after.store == net.store && |after.conns| == |net.conns|
    && (forall j :: 0 <= j < |net.conns| ==> SameConn(net, after, j) && (j != i ==> LinkOf(after, j) == LinkOf(net, j)))
  }

  ghost predicate SameConn(net: Net, after: Net, j: nat)
    requires j < |net.conns| && j < |after.conns|
  {
    && net.conns[j].node in net.peers && net.conns[j].node in after.peers
    && after.conns[j].node == net.conns[j].node && after.conns[j].server == net.conns[j].server
  }

  lemma LinkStep(net: Net, after: Net, i: nat)
    requires Sound(net) && Wired(after) && OnlyLink(net, after, i) && i < |net.conns|
    requires WiredConn(net, i) && WiredConn(after, i)
    requires LinkOf(after, i).Ok() && LinkOf(after, i).Custody() == LinkOf(net, i).Custody()
    ensures Sound(after)
  {
    hide Inv, L.Link.Ok, L.Link.Custody;
    forall j | 0 <= j < |after.conns| ensures WiredConn(after, j) && LinkOf(after, j).Ok() {
      assert SameConn(net, after, j) && WiredConn(net, j);
      assert LinkOf(net, j).Ok();
    }
    forall id, n | id in after.store.units && after.store.units[id].LeasedTo(n)
      ensures exists j: nat :: AnswersFor(after, j, id) && after.conns[j].node == n
    {
      var j: nat :| AnswersFor(net, j, id) && net.conns[j].node == n;
      assert SameConn(net, after, j);
      assert AnswersFor(after, j, id);
    }
  }

  /** Replacing a connected node's agent changes its own link only. */
  lemma AgentStep(net: Net, n: NodeId, a: Agent)
    requires Sound(net) && Connected(net, n) && a.batchSize == net.peers[n].agent.batchSize
    requires var i := net.peers[n].conn.value; var l := LinkOf(net, i).(agent := Some(a));
      l.Ok() && l.Custody() == LinkOf(net, i).Custody()
    ensures Sound(WithAgent(net, n, a))
  {
    var i := net.peers[n].conn.value;
    var after := WithAgent(net, n, a);
    assert WiredPeer(net, n);
    AgentWired(net, n, a);
    forall j | 0 <= j < |net.conns| ensures SameConn(net, after, j) && (j != i ==> LinkOf(after, j) == LinkOf(net, j)) {
      assert WiredConn(net, j);
    }
    LinkStep(net, after, i);
  }

  lemma AgentWired(net: Net, n: NodeId, a: Agent)
    requires Wired(net) && n in net.peers && (net.peers[n].conn.None? ==> Resting(a))
    ensures Wired(WithAgent(net, n, a))
  {
    var after := WithAgent(net, n, a);
    forall j | 0 <= j < |after.conns| ensures WiredConn(after, j) { assert WiredConn(net, j); }
    forall m | m in after.peers ensures WiredPeer(after, m) { assert WiredPeer(net, m); }
  }

  /** A node at rest may replace its agent by another at rest. */
  lemma RestingStep(net: Net, n: NodeId, a: Agent)
    requires Sound(net) && n in net.peers && net.peers[n].conn.None?
    requires Resting(a) && a.batchSize == net.peers[n].agent.batchSize
    ensures Sound(WithAgent(net, n, a))
  {
    var after := WithAgent(net, n, a);
    AgentWired(net, n, a);
    forall j | 0 <= j < |net.conns| ensures SameConn(net, after, j) && LinkOf(after, j) == LinkOf(net, j) {
      assert WiredConn(net, j);
    }
    Unlinked(net, after);
  }

  /** No link changed. */
  lemma Unlinked(net: Net, after: Net)
    requires Sound(net) && Wired(after) && after.store == net.store && |after.conns| == |net.conns|
    requires forall j :: 0 <= j < |net.conns| ==> SameConn(net, after, j) && LinkOf(after, j) == LinkOf(net, j)
    ensures Sound(after)
  {
    hide Inv, L.Link.Ok, L.Link.Custody;
    forall j | 0 <= j < |after.conns| ensures WiredConn(after, j) && LinkOf(after, j).Ok() {
      assert WiredConn(net, j) && LinkOf(net, j).Ok();
    }
    forall id, n | id in after.store.units && after.store.units[id].LeasedTo(n)
      ensures exists j: nat :: AnswersFor(after, j, id) && after.conns[j].node == n
    {
      var j: nat :| AnswersFor(net, j, id) && net.conns[j].node == n;
      assert SameConn(net, after, j);
      assert AnswersFor(after, j, id);
    }
  }

  lemma RestingRequest(a: Agent)
    requires Resting(a)
    ensures Resting(RequestWork(a))
  {
    if RequestWork(a) != a {
      var m := WorkRequest(a.batchSize);
      L.Single(m);
      L.Concat(a.outbox, [m]);
    }
  }

  lemma AskSound(net: Net, n: NodeId, a: Agent)
    requires Sound(net) && n in net.peers
    requires a == net.peers[n].agent || a == net.peers[n].agent.(modelLoaded := true)
    ensures Sound(WithAgent(net, n, RequestWork(a)))
  {
    assert WiredPeer(net, n);
    match net.peers[n].conn
    case None => RestingRequest(a); RestingStep(net, n, RequestWork(a));
    case Some(i) => ConnectedAsk(net, n, i, a);
  }

  lemma ConnectedAsk(net: Net, n: NodeId, i: nat, a: Agent)
    requires Sound(net) && Connected(net, n) && net.peers[n].conn == Some(i)
    requires a == net.peers[n].agent || a == net.peers[n].agent.(modelLoaded := true)
    ensures Sound(WithAgent(net, n, RequestWork(a)))
  {
    hide Inv, Covered;
    assert WiredPeer(net, n) && WiredConn(net, i) && LinkOf(net, i).Ok();
    var l := LinkOf(net, i).(agent := Some(a));
    SameLink(LinkOf(net, i), l);
    L.RequestOk(l);
    hide L.Link.Ok, L.Link.Custody, Linked;
    AgentStep(net, n, RequestWork(a));
  }

  /** Whether a model is loaded is nothing a link depends on. */
  lemma SameLink(l: L.Link, b: L.Link)
    requires l.Ok() && l.agent.Some? && b.agent.Some?
    requires b == l.(agent := b.agent)
    requires b.agent.value == l.agent.value.(modelLoaded := b.agent.value.modelLoaded)
    ensures b.Ok() && b.Custody() == l.Custody()
  {
    assert b.Out() == l.Out();
  }

  lemma StartSound(net: Net, n: NodeId)
    requires Sound(net) && Enabled(net, Start(n))
    ensures Sound(Next(net, Start(n)))
  {
    assert WiredPeer(net, n);
    var i := net.peers[n].conn.value;
    assert WiredConn(net, i);
    L.BeginOk(LinkOf(net, i));
    AgentStep(net, n, Begin(net.peers[n].agent));
  }

  lemma ReportSound(net: Net, n: NodeId, decoded: Decoded, servedBy: string)
    requires Sound(net) && Enabled(net, Report(n, decoded, servedBy))
    ensures Sound(Next(net, Report(n, decoded, servedBy)))
  {
    assert WiredPeer(net, n);
    var i := net.peers[n].conn.value;
    var a := net.peers[n].agent;
    assert WiredConn(net, i);
    OneVerdictEach(a.current, decoded, servedBy);
    L.FinishOk(LinkOf(net, i), Verdicts(a.current, decoded, servedBy));
    AgentStep(net, n, Finish(a, Verdicts(a.current, decoded, servedBy)));
  }

  /** A connected node's agent and its connection change together. */
  lemma BothStep(net: Net, n: NodeId, a: Agent, c: Conn)
    requires Sound(net) && Connected(net, n) && a.batchSize == net.peers[n].agent.batchSize
    requires c.node == n && c.alive && c.server == net.conns[net.peers[n].conn.value].server
    requires var i := net.peers[n].conn.value; var l := L.Link(c.sent, c.down, c.lost, a.batchSize, Some(a));
      l.Ok() && l.Custody() == LinkOf(net, i).Custody()
    ensures Sound(WithConn(WithAgent(net, n, a), net.peers[n].conn.value, c))
  {
    var i := net.peers[n].conn.value;
    assert WiredPeer(net, n) && WiredConn(net, i);
    BothFrame(net, n, a, c);
    hide Inv, L.Link.Ok;
    LinkStep(net, WithConn(WithAgent(net, n, a), i, c), i);
  }

  lemma BothFrame(net: Net, n: NodeId, a: Agent, c: Conn)
    requires Wired(net) && Connected(net, n) && a.batchSize == net.peers[n].agent.batchSize
    requires c.node == n && c.alive && c.server == net.conns[net.peers[n].conn.value].server
    ensures var i := net.peers[n].conn.value; var after := WithConn(WithAgent(net, n, a), i, c);
      Wired(after) && OnlyLink(net, after, i)
  {
    var i := net.peers[n].conn.value;
    var after := WithConn(WithAgent(net, n, a), i, c);
    assert WiredPeer(net, n);
    forall j | 0 <= j < |after.conns| ensures WiredConn(after, j) { assert WiredConn(net, j); }
    forall m | m in after.peers ensures WiredPeer(after, m) { assert WiredPeer(net, m); }
    forall j | 0 <= j < |net.conns| ensures SameConn(net, after, j) && (j != i ==> LinkOf(after, j) == LinkOf(net, j)) {
      assert WiredConn(net, j);
    }
  }

  lemma SendSound(net: Net, n: NodeId)
    requires Sound(net) && Enabled(net, Send(n))
    ensures Sound(Next(net, Send(n)))
  {
    assert WiredPeer(net, n);
    var i, a := net.peers[n].conn.value, net.peers[n].agent;
    assert WiredConn(net, i);
    L.SendOk(LinkOf(net, i));
    BothStep(net, n, a.(outbox := a.outbox[1..]), net.conns[i].(sent := net.conns[i].sent + [a.outbox[0]]));
  }

  lemma HearSound(net: Net, n: NodeId)
    requires Sound(net) && Enabled(net, Hear(n))
    ensures Sound(Next(net, Hear(n)))
  {
    assert WiredPeer(net, n);
    var i, a := net.peers[n].conn.value, net.peers[n].agent;
    assert WiredConn(net, i);
    L.DeliverOk(LinkOf(net, i));
    BothStep(net, n, Assigned(a, net.conns[i].down[0]), net.conns[i].(down := net.conns[i].down[1..]));
  }

  lemma DropFrame(net: Net, n: NodeId, i: nat)
    requires Wired(net) && Connected(net, n) && net.peers[n].conn == Some(i)
    ensures var after := DropConn(net, n, i);
      Wired(after) && OnlyLink(net, after, i) && WiredConn(net, i) && LinkOf(after, i) == L.Dropped(LinkOf(net, i))
  {
    var after := DropConn(net, n, i);
    assert WiredPeer(net, n) && WiredConn(net, i);
    forall j | 0 <= j < |after.conns| ensures WiredConn(after, j) { assert WiredConn(net, j); }
    forall m | m in after.peers ensures WiredPeer(after, m) { assert WiredPeer(net, m); }
    forall j | 0 <= j < |net.conns| ensures SameConn(net, after, j) && (j != i ==> LinkOf(after, j) == LinkOf(net, j)) {
      assert WiredConn(net, j);
    }
  }

  lemma DropConnSound(net: Net, n: NodeId, i: nat)
    requires Sound(net) && Connected(net, n) && net.peers[n].conn == Some(i)
    ensures Sound(DropConn(net, n, i))
  {
    hide Inv, Covered, L.Link.Ok, L.Link.Custody, L.Dropped, DropConn, OnlyLink, LinkOf, WiredConn;
    DropFrame(net, n, i);
    L.DropOk(LinkOf(net, i));
    var after := DropConn(net, n, i);
    assert WiredConn(after, i) by { assert Wired(after); }
    hide Wired, Linked;
    LinkStep(net, after, i);
  }

  lemma DropSound(net: Net, n: NodeId)
    requires Sound(net) && Enabled(net, Drop(n))
    ensures Sound(Next(net, Drop(n)))
  {
    hide Sound, DropConn;
    DropConnSound(net, n, net.peers[n].conn.value);
  }

  // ── Joining and connecting ─────────────────────────────────────────────

  lemma JoinSound(net: Net, n: NodeId, size: int)
    requires Sound(net) && n !in net.peers
    ensures Sound(Next(net, Join(n, size)))
  {
    var after := Next(net, Join(n, size));
    forall j | 0 <= j < |after.conns| ensures WiredConn(after, j) { assert WiredConn(net, j); }
    forall m | m in after.peers ensures WiredPeer(after, m) { if m != n { assert WiredPeer(net, m); } }
    forall j | 0 <= j < |net.conns| ensures SameConn(net, after, j) && LinkOf(after, j) == LinkOf(net, j) {
      assert WiredConn(net, j);
    }
    Unlinked(net, after);
  }

  lemma {:induction false} AfterAtMostVerdicts(m: seq<Uplink>)
    ensures L.After(m) <= |L.VerdictIds(m)|
  {
    if m != [] { AfterAtMostVerdicts(m[..|m| - 1]); }
  }

  lemma NewLinkOk(a: Agent)
    requires Resting(a)
    ensures L.Link([], [], [], a.batchSize, Some(a)).Ok()
  {
    var l := L.Link([], [], [], a.batchSize, Some(a));
    assert l.Out() == a.outbox;
    AfterAtMostVerdicts(a.outbox);
    if L.Requests(a.outbox) == 1 { assert a.inflight; }
  }

  lemma ConnectSound(net: Net, n: NodeId)
    requires Sound(net) && Enabled(net, Connect(n))
    ensures Sound(Next(net, Connect(n)))
  {
    var after := Next(net, Connect(n));
    var k := |net.conns|;
    assert WiredPeer(net, n);
    NewLinkOk(net.peers[n].agent);
    ConnectWired(net, n);
    hide Inv, L.Link.Ok;
    forall j | 0 <= j < |after.conns| ensures WiredConn(after, j) && LinkOf(after, j).Ok() {
      assert WiredConn(after, j);
      if j < k { assert WiredConn(net, j) && LinkOf(after, j) == LinkOf(net, j); }
    }
    ConnectCovered(net, n);
  }

  lemma ConnectCovered(net: Net, n: NodeId)
    requires Covered(net) && Wired(net) && Enabled(net, Connect(n))
    ensures Covered(Next(net, Connect(n)))
  {
    hide L.Link.Custody;
    var after := Next(net, Connect(n));
    forall id, m | id in after.store.units && after.store.units[id].LeasedTo(m)
      ensures exists j: nat :: AnswersFor(after, j, id) && after.conns[j].node == m
    {
      var j: nat :| AnswersFor(net, j, id) && net.conns[j].node == m;
      assert WiredConn(net, j) && LinkOf(after, j) == LinkOf(net, j);
      assert AnswersFor(after, j, id);
    }
  }

  lemma ConnectWired(net: Net, n: NodeId)
    requires Wired(net) && Enabled(net, Connect(n))
    ensures Wired(Next(net, Connect(n)))
  {
    var after := Next(net, Connect(n));
    forall j | 0 <= j < |after.conns| ensures WiredConn(after, j) {
      if j < |net.conns| { assert WiredConn(net, j); }
    }
    forall m | m in after.peers ensures WiredPeer(after, m) { assert WiredPeer(net, m); }
  }

  // ── Steps of the server ────────────────────────────────────────────────

  /** No unit is leased to a node that was not leased to it before. */
  ghost predicate NoNewLease(s: Store, t: Store) {
    forall id, n :: id in t.units && t.units[id].LeasedTo(n) ==> id in s.units && s.units[id].LeasedTo(n)
  }

  lemma OpLeasesNothing(s: Store, op: Op)
    requires Legal(s, op) && !op.Take?
    ensures NoNewLease(s, Step(s, op))
  {
    if op.Submit? {
      CreatedUnits(s, op.sub);
      var m := op.sub.ids + op.sub.canaryIds;
      forall id | id in m ensures Step(s, op).units[id].state == PENDING {
        var k :| 0 <= k < |m| && m[k] == id;
      }
    }
  }

  lemma ClientSound(net: Net, op: Op)
    requires Sound(net) && Enabled(net, Client(op))
    ensures Sound(Next(net, Client(op)))
  {
    var after := Next(net, Client(op));
    StepKeeps(net.store, op);
    OpLeasesNothing(net.store, op);
    StoreOnly(net, after);
  }

  /** Links and peers are as before, and the store leased nothing new. */
  lemma StoreOnly(net: Net, after: Net)
    requires Sound(net) && after == net.(store := after.store) && Inv(after.store) && NoNewLease(net.store, after.store)
    ensures Sound(after)
  {
    hide Inv, L.Link.Ok, L.Link.Custody;
    forall j | 0 <= j < |after.conns| ensures WiredConn(after, j) && LinkOf(after, j).Ok() {
      assert WiredConn(net, j) && LinkOf(net, j).Ok();
    }
    forall m | m in after.peers ensures WiredPeer(after, m) { assert WiredPeer(net, m); }
    forall id, n | id in after.store.units && after.store.units[id].LeasedTo(n)
      ensures exists j: nat :: AnswersFor(after, j, id) && after.conns[j].node == n
    {
      var j: nat :| AnswersFor(net, j, id) && net.conns[j].node == n;
      assert AnswersFor(after, j, id);
    }
  }

  /** The server's end of connection `i` changed, and the store with it. */
  lemma ServerWired(net: Net, i: nat, c: Conn)
    requires Wired(net) && i < |net.conns| && c.node == net.conns[i].node && c.alive == net.conns[i].alive
    ensures Wired(WithConn(net, i, c))
    ensures forall j :: 0 <= j < |net.conns| && j != i ==> WiredConn(net, j) && LinkOf(WithConn(net, i, c), j) == LinkOf(net, j)
  {
    var after := WithConn(net, i, c);
    forall j | 0 <= j < |after.conns| ensures WiredConn(after, j) { assert WiredConn(net, j); }
    forall m | m in after.peers ensures WiredPeer(after, m) { assert WiredPeer(net, m); }
  }

  ghost predicate ServerStep(net: Net, after: Net, i: nat, c: Conn)
    requires i < |net.conns|
  {
    && after == WithConn(net, i, c).(store := after.store)
    && c.node == net.conns[i].node && c.alive == net.conns[i].alive && c.lost == net.conns[i].lost
  }

  lemma ServerLinked(net: Net, after: Net, i: nat, c: Conn)
    requires Wired(net) && Linked(net) && i < |net.conns| && ServerStep(net, after, i, c)
    requires c.node in net.peers && LinkOf(after, i).Ok()
    ensures Wired(after) && Linked(after)
    ensures forall j :: 0 <= j < |net.conns| && j != i ==>
      WiredConn(net, j) && LinkOf(after, j) == LinkOf(net, j) && after.conns[j] == net.conns[j]
  {
    ServerWired(net, i, c);
    var mid := WithConn(net, i, c);
    forall j | 0 <= j < |after.conns| ensures WiredConn(after, j) && LinkOf(after, j).Ok() {
      assert WiredConn(mid, j);
      if j != i { assert WiredConn(net, j) && LinkOf(net, j).Ok(); }
    }
    forall m | m in after.peers ensures WiredPeer(after, m) { assert WiredPeer(mid, m); }
  }

  /** A unit leased before and not settled by this step stays answered for. */
  lemma StaysAnswered(net: Net, after: Net, i: nat, c: Conn, id: UnitId, n: NodeId)
    requires Wired(net) && Linked(net) && i < |net.conns| && ServerStep(net, after, i, c) && Wired(after) && Linked(after)
    requires forall j :: 0 <= j < |net.conns| && j != i ==>
      WiredConn(net, j) && LinkOf(after, j) == LinkOf(net, j) && after.conns[j] == net.conns[j]
    requires exists j: nat :: AnswersFor(net, j, id) && net.conns[j].node == n
    requires net.conns[i].node == n && net.conns[i].server != CLOSED && id in LinkOf(net, i).Custody()
             ==> c.server != CLOSED && id in LinkOf(after, i).Custody()
    ensures exists j: nat :: AnswersFor(after, j, id) && after.conns[j].node == n
  {
    var j: nat :| AnswersFor(net, j, id) && net.conns[j].node == n;
    assert WiredConn(after, j);
    assert AnswersFor(after, j, id);
  }

  /** The server grants no more than was asked for, and payloads for just those units. */
  lemma LeaseForKeeps(s: Store, n: NodeId, capacity: int, model: string, now: real)
    requires Inv(s)
    ensures Inv(LeaseFor(s, n, capacity, model, now))
    ensures var ids := GrantedTo(s, capacity, model); var t := LeaseFor(s, n, capacity, model, now);
      && (|ids| <= capacity || ids == [])
      && t.units.Keys == s.units.Keys
      && forall id :: id in s.units ==> t.units[id] == if id in ids then s.units[id].Grant(n, now) else s.units[id]
  {
    var k := Allowance(capacity);
    if k > 0 {
      LeaseKeeps(s, n, k, model, now);
      Leasing.GrantedAreFirst(s, k, model);
    }
  }

  lemma ServeLinked(net: Net, i: nat, model: string, now: real, sendFails: bool)
    requires Wired(net) && Linked(net) && Inv(net.store) && Reading(net, i) && net.conns[i].sent[0].WorkRequest?
    ensures var after := ServeConn(net, i, model, now, sendFails);
      && Wired(after) && Linked(after) && WiredConn(net, i) && WiredConn(after, i)
      && ServerStep(net, after, i, after.conns[i])
      && LinkOf(after, i).Custody() == LinkOf(net, i).Custody() + multiset(GrantedTo(net.store, net.conns[i].sent[0].capacity, model))
      && forall j :: 0 <= j < |net.conns| && j != i ==>
           WiredConn(net, j) && LinkOf(after, j) == LinkOf(net, j) && after.conns[j] == net.conns[j]
  {
    var c := net.conns[i];
    var after := ServeConn(net, i, model, now, sendFails);
    assert WiredConn(net, i);
    LeaseForKeeps(net.store, c.node, c.sent[0].capacity, model, now);
    var l, units := LinkOf(net, i), Payloads(net.store, GrantedTo(net.store, c.sent[0].capacity, model));
    L.ServeOk(l, units);
    L.ServeCustody(l, units);
    hide Inv, L.Link.Ok, L.Link.Custody, LeaseFor;
    assert LinkOf(after, i) == L.Served(l, units);
    ServerLinked(net, after, i, after.conns[i]);
    assert WiredConn(after, i);
  }

  lemma ServeCovered(net: Net, i: nat, model: string, now: real, sendFails: bool)
    requires Sound(net) && Reading(net, i) && net.conns[i].sent[0].WorkRequest?
    ensures Covered(ServeConn(net, i, model, now, sendFails))
  {
    var c, s := net.conns[i], net.store;
    var after := ServeConn(net, i, model, now, sendFails);
    var ids := GrantedTo(s, c.sent[0].capacity, model);
    ServeLinked(net, i, model, now, sendFails);
    LeaseForKeeps(s, c.node, c.sent[0].capacity, model, now);
    hide Inv, Linked, Wired, LinkOf, LeaseFor, GrantedTo, WiredConn, L.Link.Custody;
    forall id, n | id in after.store.units && after.store.units[id].LeasedTo(n)
      ensures exists j: nat :: AnswersFor(after, j, id) && after.conns[j].node == n
    {
      if id in ids {
        assert id in multiset(ids);
        assert AnswersFor(after, i, id);
      } else {
        assert after.store.units[id] == s.units[id];
        StaysAnswered(net, after, i, after.conns[i], id, n);
      }
    }
  }

  lemma ServeConnSound(net: Net, i: nat, model: string, now: real, sendFails: bool)
    requires Sound(net) && Reading(net, i) && net.conns[i].sent[0].WorkRequest?
    ensures Sound(ServeConn(net, i, model, now, sendFails))
  {
    ServeLinked(net, i, model, now, sendFails);
    LeaseForKeeps(net.store, net.conns[i].node, net.conns[i].sent[0].capacity, model, now);
    ServeCovered(net, i, model, now, sendFails);
    hide Covered, Linked, Wired, Inv;
  }

  lemma ServeSound(net: Net, i: nat, model: string, now: real, sendFails: bool)
    requires Sound(net) && Enabled(net, Serve(i, model, now, sendFails))
    ensures Sound(Next(net, Serve(i, model, now, sendFails)))
  {
    hide Sound, ServeConn;
    ServeConnSound(net, i, model, now, sendFails);
  }

  lemma VerdictLeasesNothing(s: Store, n: NodeId, m: Uplink, now: real)
    requires !m.WorkRequest? && Inv(s)
    ensures Inv(RecordVerdict(s, n, m, now)) && NoNewLease(s, RecordVerdict(s, n, m, now))
  {
    match m
    case WorkResult(id, result) =>
      CompleteKeeps(s, id, n, result, now);
      OpLeasesNothing(s, Deliver(id, n, result, now));
    case WorkFailed(id, message) =>
      FailKeeps(s, id, message, now);
      OpLeasesNothing(s, Refuse(id, n, message, now));
  }

  /** Whatever verdict the server reads on a unit, that unit is leased to nobody afterwards. */
  lemma VerdictEndsLease(s: Store, n: NodeId, m: Uplink, now: real, k: NodeId)
    requires !m.WorkRequest?
    ensures var t := RecordVerdict(s, n, m, now); m.unitId in t.units ==> !t.units[m.unitId].LeasedTo(k)
  {
  }

  lemma RecordConnSound(net: Net, i: nat, now: real)
    requires Sound(net) && Reading(net, i) && !net.conns[i].sent[0].WorkRequest?
    ensures Sound(RecordConn(net, i, now))
  {
    var c := net.conns[i];
    var after := RecordConn(net, i, now);
    assert WiredConn(net, i);
    VerdictLeasesNothing(net.store, c.node, c.sent[0], now);
    L.RecordOk(LinkOf(net, i));
    assert LinkOf(after, i) == LinkOf(net, i).(sent := c.sent[1..]);
    ServerLinked(net, after, i, after.conns[i]);
    forall id, n | id in after.store.units && after.store.units[id].LeasedTo(n)
      ensures exists j: nat :: AnswersFor(after, j, id) && after.conns[j].node == n
    {
      VerdictEndsLease(net.store, c.node, c.sent[0], now, n);
      StaysAnswered(net, after, i, after.conns[i], id, n);
    }
  }

  lemma RecordSound(net: Net, i: nat, now: real)
    requires Sound(net) && Enabled(net, Record(i, now))
    ensures Sound(Next(net, Record(i, now)))
  {
    hide Sound, RecordConn;
    RecordConnSound(net, i, now);
  }

  lemma HangupSound(net: Net, i: nat)
    requires Sound(net) && Enabled(net, Hangup(i))
    ensures Sound(Next(net, Hangup(i)))
  {
    var after := Next(net, Hangup(i));
    assert WiredConn(net, i) && LinkOf(net, i).Ok();
    assert LinkOf(after, i) == LinkOf(net, i);
    ServerLinked(net, after, i, after.conns[i]);
    forall id, n | id in after.store.units && after.store.units[id].LeasedTo(n)
      ensures exists j: nat :: AnswersFor(after, j, id) && after.conns[j].node == n
    {
      StaysAnswered(net, after, i, after.conns[i], id, n);
    }
  }

  lemma ReleaseFrees(s: Store, n: NodeId, id: UnitId)
    requires Ordered(s) && id in s.units
    ensures !Release(s, n).units[id].LeasedTo(n)
  {
    if s.units[id].LeasedTo(n) { assert id in HeldBy(s, n); }
  }

  lemma DepartConnSound(net: Net, i: nat)
    requires Sound(net) && i < |net.conns| && net.conns[i].server == CLOSING
    ensures Sound(DepartConn(net, i))
  {
    hide L.Link.Custody, L.Link.Ok;
    var after := DepartConn(net, i);
    var n := net.conns[i].node;
    assert WiredConn(net, i) && LinkOf(net, i).Ok();
    assert LinkOf(after, i) == LinkOf(net, i);
    ReclaimKeeps(net.store, HeldBy(net.store, n));
    OpLeasesNothing(net.store, NodeLeft(n));
    assert Ordered(net.store);
    hide Inv, Release;
    ServerLinked(net, after, i, after.conns[i]);
    forall id, m | id in after.store.units && after.store.units[id].LeasedTo(m)
      ensures exists j: nat :: AnswersFor(after, j, id) && after.conns[j].node == m
    {
      ReleaseFrees(net.store, n, id);
      StaysAnswered(net, after, i, after.conns[i], id, m);
    }
  }

  lemma DepartSound(net: Net, i: nat)
    requires Sound(net) && Enabled(net, Depart(i))
    ensures Sound(Next(net, Depart(i)))
  {
    hide Sound, DepartConn;
    DepartConnSound(net, i);
  }
}
