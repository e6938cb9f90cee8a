/** A work request is never stuck: what it waits for only gets less, and there is always something to do about it. */
module Delivery {
  import opened Sequences
  import opened Store
  import opened Node
  import opened Invariant
  import opened Protocol
  import opened Fleet
  import opened Leases
  import L = Link

  /** A node that is connected and whose server still reads. */
  predicate Live(net: Net, n: NodeId) {
    Connected(net, n) && net.conns[net.peers[n].conn.value].server == OPEN
  }

  /** Live, and waiting for an assignment. */
  predicate Waits(net: Net, n: NodeId) {
    Live(net, n) && net.peers[n].agent.inflight
  }

  // ── How long a request has to wait ─────────────────────────────────────

  /** How many messages go before the first request. */
  function Place(m: seq<Uplink>): nat {
    if m == [] || m[0].WorkRequest? then 0 else 1 + Place(m[1..])
  }

  lemma RequestsHead(m: seq<Uplink>)
    requires m != []
    ensures L.Requests(m) == One(m[0].WorkRequest?) + L.Requests(m[1..])
  {
    assert m == [m[0]] + m[1..];
    L.Concat([m[0]], m[1..]);
    L.Single(m[0]);
  }

  lemma RequestsSnoc(m: seq<Uplink>, x: Uplink)
    ensures L.Requests(m + [x]) == L.Requests(m) + One(x.WorkRequest?)
  {
    L.Concat(m, [x]);
    L.Single(x);
  }

  /** What comes after a request does not delay it. */
  lemma {:induction false} PlaceAppend(m: seq<Uplink>, v: seq<Uplink>)
    ensures Place(m + v) == if L.Requests(m) > 0 then Place(m) else |m| + Place(v)
  {
    if m == [] {
      assert m + v == v;
    } else {
      RequestsHead(m);
      assert (m + v)[1..] == m[1..] + v;
      PlaceAppend(m[1..], v);
    }
  }

  /**
   The steps of sending, reading and hearing that the outstanding request is away from its
   answer: one when the assignment is on its way, and before that one for each message the
   server reads first and two for each that has not even been sent.
   */
  function Wait(net: Net, n: NodeId): (w: nat)
    requires Connected(net, n)
    ensures w >= 1
  {
    var c, a := net.conns[net.peers[n].conn.value], net.peers[n].agent;
    if c.down != [] then 1
    else if L.Requests(c.sent) > 0 then Place(c.sent) + 2
    else |c.sent| + 2 * Place(a.outbox) + 3
  }

  /** A step on the node's own connection that the outstanding request waits for. */
  predicate Helps(net: Net, n: NodeId, a: Action)
    requires Connected(net, n)
  {
    var i := net.peers[n].conn.value;
    var c := net.conns[i];
    match a
    case Hear(m) => m == n
    case Serve(j, _, _, _) => j == i && c.down == []
    case Record(j, _) => j == i && c.down == []
    case Send(m) => m == n && c.down == [] && L.Requests(c.sent) == 0
    case _ => false
  }

  // ── One step ───────────────────────────────────────────────────────────

  /** Nothing a step does to the store, to other nodes or to other connections matters here. */
  ghost predicate Untouched(net: Net, t: Net, n: NodeId)
    requires Connected(net, n)
  {
    var i := net.peers[n].conn.value;
    && n in t.peers && t.peers[n].conn == Some(i) && i < |t.conns|
    && t.conns[i].sent == net.conns[i].sent && t.conns[i].down == net.conns[i].down
    && t.peers[n].agent.outbox == net.peers[n].agent.outbox
  }

  lemma ElsewhereUntouched(net: Net, n: NodeId, a: Action)
    requires Sound(net) && Enabled(net, a) && Waits(net, n) && Live(Next(net, a), n)
    requires !a.Hear? && !a.Serve? && !a.Record? && !a.Send? && !(a.Report? && a.node == n)
    ensures Untouched(net, Next(net, a), n)
  {
    hide Inv, Linked, Covered, Step, Release;
    assert WiredPeer(net, n);
    if a.Drop? { assert WiredPeer(net, a.node); }
  }

  lemma OthersUntouched(net: Net, n: NodeId, a: Action)
    requires Sound(net) && Enabled(net, a) && Waits(net, n)
    requires match a
      case Hear(m) => m != n
      case Send(m) => m != n
      case Serve(j, _, _, _) => j != net.peers[n].conn.value
      case Record(j, _) => j != net.peers[n].conn.value
      case _ => false
    ensures Untouched(net, Next(net, a), n)
  {
    hide Inv, Linked, Covered;
    assert WiredPeer(net, n);
    if a.Hear? || a.Send? { assert WiredPeer(net, a.node); }
  }

  lemma UntouchedWaits(net: Net, t: Net, n: NodeId)
    requires Connected(net, n) && Connected(t, n) && Untouched(net, t, n)
    ensures Wait(t, n) == Wait(net, n)
  {
  }

  lemma OneUnderWay(net: Net, n: NodeId)
    requires Sound(net) && Waits(net, n)
    ensures var c := net.conns[net.peers[n].conn.value];
      L.Requests(c.sent) + L.Requests(net.peers[n].agent.outbox) + |c.down| == 1
  {
    hide Inv;
    FlagExact(net, n);
    L.Concat(net.conns[net.peers[n].conn.value].sent, net.peers[n].agent.outbox);
  }

  /** The node's own connection: every step the request waits for brings it one nearer. */
  lemma OwnStep(net: Net, n: NodeId, a: Action)
    requires Sound(net) && Enabled(net, a) && Waits(net, n) && Waits(Next(net, a), n)
    requires match a
      case Hear(m) => m == n
      case Send(m) => m == n
      case Serve(j, _, _, _) => j == net.peers[n].conn.value
      case Record(j, _) => j == net.peers[n].conn.value
      case _ => false
    ensures Wait(Next(net, a), n) <= Wait(net, n) - One(Helps(net, n, a))
  {
    OneUnderWay(net, n);
    hide Inv, Linked, Covered, Wired, L.Requests;
    var c, o := net.conns[net.peers[n].conn.value], net.peers[n].agent.outbox;
    match a
    case Hear(_) =>
    case Send(_) =>
      RequestsSnoc(c.sent, o[0]);
      PlaceAppend(c.sent, [o[0]]);
    case Serve(_, _, _, _) => RequestsHead(c.sent);
    case Record(_, _) => RequestsHead(c.sent);
  }

  lemma ReportStep(net: Net, n: NodeId, a: Action)
    requires Sound(net) && Enabled(net, a) && Waits(net, n) && a.Report? && a.node == n
    ensures Connected(Next(net, a), n) && Wait(Next(net, a), n) == Wait(net, n)
  {
    OneUnderWay(net, n);
    hide Inv, Linked, Covered, Wired, L.Requests;
    PlaceAppend(net.peers[n].agent.outbox, Verdicts(net.peers[n].agent.current, a.decoded, a.servedBy));
  }

  /** No step, whoever's it is, makes an outstanding request wait longer, and each it waits for shortens its wait. */
  lemma WaitOnlyFalls(net: Net, n: NodeId, a: Action)
    requires Sound(net) && Enabled(net, a) && Waits(net, n) && Waits(Next(net, a), n)
    ensures Wait(Next(net, a), n) <= Wait(net, n) - One(Helps(net, n, a))
  {
    var i := net.peers[n].conn.value;
    hide Sound, Enabled, Next, Wait;
    match a
    case Hear(m) => if m == n { OwnStep(net, n, a); } else { OthersUntouched(net, n, a); UntouchedWaits(net, Next(net, a), n); }
    case Send(m) => if m == n { OwnStep(net, n, a); } else { OthersUntouched(net, n, a); UntouchedWaits(net, Next(net, a), n); }
    case Serve(j, _, _, _) => if j == i { OwnStep(net, n, a); } else { OthersUntouched(net, n, a); UntouchedWaits(net, Next(net, a), n); }
    case Record(j, _) => if j == i { OwnStep(net, n, a); } else { OthersUntouched(net, n, a); UntouchedWaits(net, Next(net, a), n); }
    case Report(m, _, _) =>
      if m == n { ReportStep(net, n, a); } else { ElsewhereUntouched(net, n, a); UntouchedWaits(net, Next(net, a), n); }
    case _ =>
      ElsewhereUntouched(net, n, a);
      UntouchedWaits(net, Next(net, a), n);
  }

  // ── Every run ──────────────────────────────────────────────────────────

  /** The node is live and its flag is set in every state of the run. */
  ghost predicate WaitsThroughout(net: Net, n: NodeId, acts: seq<Action>)
    requires Possible(net, acts)
    decreases |acts|
  {
    Waits(net, n) && (acts == [] || WaitsThroughout(Next(net, acts[0]), n, acts[1..]))
  }

  /** How many steps of the run the request waited for. */
  ghost function HelpfulSteps(net: Net, n: NodeId, acts: seq<Action>): nat
    requires Possible(net, acts) && WaitsThroughout(net, n, acts)
    decreases |acts|
  {
    if acts == [] then 0 else One(Helps(net, n, acts[0])) + HelpfulSteps(Next(net, acts[0]), n, acts[1..])
  }

  /**
   The flag never sticks, in any run: it stays set for fewer of those steps than there are
   to go when the run begins, whatever else happens in between.
   */
  lemma {:induction false} FlagNeverSticks(net: Net, n: NodeId, acts: seq<Action>)
    requires Sound(net) && Possible(net, acts) && WaitsThroughout(net, n, acts)
    ensures HelpfulSteps(net, n, acts) < Wait(net, n)
    decreases |acts|
  {
    hide Sound, Enabled, Next, Helps, Wait, Waits;
    assert Waits(net, n);
    if acts != [] {
      var t := Next(net, acts[0]);
      assert Waits(t, n);
      NextSound(net, acts[0]);
      WaitOnlyFalls(net, n, acts[0]);
      FlagNeverSticks(t, n, acts[1..]);
    }
  }

  /** A step that helps: hear the assignment, send the next message, or read the next one. */
  ghost function Push(net: Net, n: NodeId, now: real): Action
    requires Connected(net, n)
  {
    var i := net.peers[n].conn.value;
    if net.conns[i].down != [] then Hear(n)
    else if net.conns[i].sent == [] then Send(n)
    else if net.conns[i].sent[0].WorkRequest? then Serve(i, "", now, false)
    else Record(i, now)
  }

  lemma PushEnabled(net: Net, n: NodeId, now: real)
    requires Sound(net) && Waits(net, n)
    ensures Enabled(net, Push(net, n, now)) && Helps(net, n, Push(net, n, now))
  {
    OneUnderWay(net, n);
    hide Sound;
    if net.conns[net.peers[n].conn.value].sent == [] { assert L.Requests([]) == 0; }
  }

  lemma PushLive(net: Net, n: NodeId, now: real)
    requires Waits(net, n) && Enabled(net, Push(net, n, now))
    ensures Live(Next(net, Push(net, n, now)), n)
  {
    hide Assigned, LeaseFor, GrantedTo, RecordVerdict;
  }

  /** There is always such a step, and it leaves both ends open. */
  lemma PushHelps(net: Net, n: NodeId, now: real)
    requires Sound(net) && Waits(net, n)
    ensures Enabled(net, Push(net, n, now)) && Helps(net, n, Push(net, n, now)) && Live(Next(net, Push(net, n, now)), n)
  {
    PushEnabled(net, n, now);
    hide Sound, Enabled, Next, Push, Live, Helps;
    PushLive(net, n, now);
  }

  /** So as many steps as the request is away from its answer are enough. */
  lemma {:induction false} FlagClears(net: Net, n: NodeId, now: real) returns (acts: seq<Action>)
    requires Sound(net) && Waits(net, n)
    ensures Possible(net, acts) && |acts| <= Wait(net, n)
    ensures n in After(net, acts).peers && !After(net, acts).peers[n].agent.inflight
    decreases Wait(net, n)
  {
    var a := Push(net, n, now);
    PushHelps(net, n, now);
    hide Sound, Enabled, Next, Push, Wait, Helps;
    if Next(net, a).peers[n].agent.inflight {
      NextSound(net, a);
      WaitOnlyFalls(net, n, a);
      var rest := FlagClears(Next(net, a), n, now);
      acts := [a] + rest;
      assert acts[1..] == rest;
    } else {
      acts := [a];
      assert acts[1..] == [];
    }
  }
}
