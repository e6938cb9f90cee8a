/** The promises about leases, in every state the fleet can reach. */
module Leases {
  import opened Sequences
  import opened Store
  import opened Node
  import opened Invariant
  import opened Protocol
  import opened Fleet
  import L = Link

  lemma NextSound(net: Net, a: Action)
    requires Sound(net) && Enabled(net, a)
    ensures Sound(Next(net, a))
  {
    match a
    case Client(op) => ClientSound(net, op);
    case Join(n, size) => JoinSound(net, n, size);
    case Connect(n) => ConnectSound(net, n);
    case Abort(n) => RestingStep(net, n, Drain(net.peers[n].agent));
    case LoadModel(n) => AskSound(net, n, net.peers[n].agent.(modelLoaded := true));
    case Ask(n) => AskSound(net, n, net.peers[n].agent);
    case Send(n) => SendSound(net, n);
    case Hear(n) => HearSound(net, n);
    case Start(n) => StartSound(net, n);
    case Report(n, decoded, servedBy) => ReportSound(net, n, decoded, servedBy);
    case Drop(n) => DropSound(net, n);
    case Serve(i, model, now, sendFails) => ServeSound(net, i, model, now, sendFails);
    case Record(i, now) => RecordSound(net, i, now);
    case Hangup(i) => HangupSound(net, i);
    case Depart(i) => DepartSound(net, i);
  }

  lemma {:induction false} AfterSound(net: Net, acts: seq<Action>)
    requires Sound(net) && Possible(net, acts)
    ensures Sound(After(net, acts))
    decreases |acts|
  {
    hide Sound, Next;
    if acts != [] {
      NextSound(net, acts[0]);
      AfterSound(Next(net, acts[0]), acts[1..]);
    }
  }

  lemma FirstSound()
    ensures Sound(START)
  {
    EmptyInv();
  }

  lemma ReachableSound(acts: seq<Action>)
    requires Possible(START, acts)
    ensures Sound(After(START, acts))
  {
    hide Sound;
    FirstSound();
    AfterSound(START, acts);
  }

  // ── No orphan lease ────────────────────────────────────────────────────

  /** The unit is in an assignment on its way, queued, being decoded, or in a verdict not read yet. */
  predicate UnderWay(l: L.Link, id: UnitId) {
    id in L.DownIds(l.down) || id in L.Ids(l.Queue()) || id in L.Ids(l.Current()) || id in L.VerdictIds(l.Out())
  }

  /**
   A leased unit is never forgotten: some connection of its node, not yet cleared
   away, has it under way while the node's end is open, and otherwise still has
   the node's leases to give back.
   */
  lemma NoOrphanLease(acts: seq<Action>, id: UnitId, n: NodeId)
    requires Possible(START, acts)
    ensures var net := After(START, acts);
      id in net.store.units && net.store.units[id].LeasedTo(n) ==>
        exists i: nat :: i < |net.conns| && net.conns[i].node == n && n in net.peers && net.conns[i].server != CLOSED
                         && (net.conns[i].alive ==> UnderWay(LinkOf(net, i), id))
  {
    var net := After(START, acts);
    hide Inv;
    ReachableSound(acts);
    if id in net.store.units && net.store.units[id].LeasedTo(n) {
      var i: nat :| AnswersFor(net, i, id) && net.conns[i].node == n;
      assert WiredConn(net, i) && LinkOf(net, i).Ok();
      if net.conns[i].alive { HeldIsUnderWay(LinkOf(net, i), id); }
    }
  }

  lemma HeldIsUnderWay(l: L.Link, id: UnitId)
    requires l.Ok() && l.agent.Some? && id in l.Custody()
    ensures UnderWay(l, id)
  {
    InMultiset(L.DownIds(l.down), id);
    InMultiset(L.VerdictIds(l.Out()), id);
    InMultiset(L.Ids(l.Queue()), id);
    InMultiset(L.Ids(l.Current()), id);
  }

  lemma InMultiset(s: seq<UnitId>, id: UnitId)
    ensures id in multiset(s) <==> id in s
  {
  }

  // ── The lease bound ────────────────────────────────────────────────────

  function LeasedTo(s: Store, n: NodeId): set<UnitId> {
    set id | id in s.units && s.units[id].LeasedTo(n)
  }

  predicate Unclosed(c: Conn, n: NodeId) { c.node == n && c.server != CLOSED }

  /** How many of the first `k` connections are this node's and not yet cleared away. */
  function OpenConns(net: Net, n: NodeId, k: nat): nat
    requires k <= |net.conns|
  {
    if k == 0 then 0 else OpenConns(net, n, k - 1) + (if Unclosed(net.conns[k - 1], n) then 1 else 0)
  }

  /** The units those connections answer for. */
  function Answered(net: Net, n: NodeId, k: nat): multiset<UnitId>
    requires k <= |net.conns|
  {
    if k == 0 then multiset{}
    else Answered(net, n, k - 1) +
         (if Unclosed(net.conns[k - 1], n) && n in net.peers then LinkOf(net, k - 1).Custody() else multiset{})
  }

  function Limit(net: Net, n: NodeId): nat
    requires n in net.peers
  {
    if net.peers[n].agent.batchSize > 0 then net.peers[n].agent.batchSize else 0
  }

  lemma CustodySize(l: L.Link)
    ensures |l.Custody()| == l.Load()
  {
  }

  /** `each`, `k` times over. */
  function Times(each: nat, k: nat): nat { if k == 0 then 0 else Times(each, k - 1) + each }

  lemma {:induction false} TimesIsProduct(each: nat, k: nat)
    ensures Times(each, k) == each * k
  {
    if k > 0 {
      TimesIsProduct(each, k - 1);
      assert each * k == each * (k - 1) + each;
    }
  }

  lemma {:induction false} AnsweredSize(net: Net, n: NodeId, k: nat)
    requires k <= |net.conns| && Wired(net) && Linked(net) && n in net.peers
    ensures |Answered(net, n, k)| <= Times(2 * Limit(net, n), OpenConns(net, n, k))
  {
    hide L.Link.Custody, LinkOf, Limit, Wired, Linked;
    if k > 0 {
      AnsweredSize(net, n, k - 1);
      var l := LinkOk(net, k - 1);
      assert Answered(net, n, k) == Answered(net, n, k - 1) + (if Unclosed(net.conns[k - 1], n) then l.Custody() else multiset{});
    }
  }

  lemma LinkOk(net: Net, i: nat) returns (l: L.Link)
    requires Wired(net) && Linked(net) && i < |net.conns|
    ensures WiredConn(net, i) && l == LinkOf(net, i) && |l.Custody()| <= 2 * Limit(net, net.conns[i].node)
  {
    assert WiredConn(net, i);
    l := LinkOf(net, i);
    assert l.Ok();
    CustodySize(l);
  }

  lemma {:induction false} AnsweredHas(net: Net, n: NodeId, k: nat, i: nat, id: UnitId)
    requires i < k <= |net.conns| && AnswersFor(net, i, id) && net.conns[i].node == n
    ensures id in Answered(net, n, k)
  {
    hide L.Link.Custody, LinkOf;
    if i < k - 1 { AnsweredHas(net, n, k - 1, i, id); }
  }

  /** A set is no larger than a multiset that has all its elements. */
  lemma {:induction false} SetInMultiset(a: set<UnitId>, m: multiset<UnitId>)
    requires forall x :: x in a ==> x in m
    ensures |a| <= |m|
  {
    if a != {} {
      var x :| x in a;
      SetInMultiset(a - {x}, m - multiset{x});
      assert m == (m - multiset{x}) + multiset{x};
    }
  }

  /**
   Prefetching stays within bounds: whatever is in transit, a node never has more
   than twice its batch size of units leased for each connection of its that the
   server has not cleared away.
   */
  lemma LeaseBound(acts: seq<Action>, n: NodeId)
    requires Possible(START, acts) && n in After(START, acts).peers
    ensures var net := After(START, acts);
      |LeasedTo(net.store, n)| <= 2 * Limit(net, n) * OpenConns(net, n, |net.conns|)
  {
    var net := After(START, acts);
    hide Inv;
    ReachableSound(acts);
    AnsweredSize(net, n, |net.conns|);
    TimesIsProduct(2 * Limit(net, n), OpenConns(net, n, |net.conns|));
    forall id | id in LeasedTo(net.store, n) ensures id in Answered(net, n, |net.conns|) {
      var i: nat :| AnswersFor(net, i, id) && net.conns[i].node == n;
      AnsweredHas(net, n, |net.conns|, i, id);
    }
    SetInMultiset(LeasedTo(net.store, n), Answered(net, n, |net.conns|));
  }

  /** With one connection per node at a time, that is twice the batch size. */
  lemma LeaseBoundOneConnection(acts: seq<Action>, n: NodeId)
    requires Possible(START, acts) && n in After(START, acts).peers
    ensures var net := After(START, acts);
      OpenConns(net, n, |net.conns|) <= 1 ==> |LeasedTo(net.store, n)| <= 2 * Limit(net, n)
  {
    hide Possible, After, LeasedTo, OpenConns, Limit;
    LeaseBound(acts, n);
    var net := After(START, acts);
    var k := OpenConns(net, n, |net.conns|);
    assert k <= 1 ==> k == 0 || k == 1;
  }

  /** Once the server has cleared a node's connections away, nothing is leased to it. */
  lemma NothingLeftBehind(acts: seq<Action>, n: NodeId)
    requires Possible(START, acts)
    ensures var net := After(START, acts); OpenConns(net, n, |net.conns|) == 0 ==> LeasedTo(net.store, n) == {}
  {
    var net := After(START, acts);
    hide Inv;
    ReachableSound(acts);
    forall id | id in LeasedTo(net.store, n) ensures id in Answered(net, n, |net.conns|) {
      var i: nat :| AnswersFor(net, i, id) && net.conns[i].node == n;
      AnsweredHas(net, n, |net.conns|, i, id);
    }
    if OpenConns(net, n, |net.conns|) == 0 { NoneAnswered(net, n, |net.conns|); }
  }

  lemma {:induction false} NoneAnswered(net: Net, n: NodeId, k: nat)
    requires k <= |net.conns| && OpenConns(net, n, k) == 0
    ensures Answered(net, n, k) == multiset{}
  {
    if k > 0 { NoneAnswered(net, n, k - 1); }
  }

  /** A node's backlog and its batch each stay within the batch size. */
  lemma BacklogBound(acts: seq<Action>, n: NodeId)
    requires Possible(START, acts) && n in After(START, acts).peers
    ensures var net := After(START, acts); var a := net.peers[n].agent;
      |a.queue| <= Limit(net, n) && |a.current| <= Limit(net, n)
  {
    var net := After(START, acts);
    hide Inv;
    ReachableSound(acts);
    assert WiredPeer(net, n);
    if net.peers[n].conn.Some? {
      var i := net.peers[n].conn.value;
      assert WiredConn(net, i) && LinkOf(net, i).Ok();
    }
  }

  // ── The in-flight flag ─────────────────────────────────────────────────

  /** Requests not yet answered: in the node's outbox, on the wire, or as an assignment coming back. */
  function InFlight(net: Net, n: NodeId): nat
    requires n in net.peers
  {
    var p := net.peers[n];
    if p.conn.None? || p.conn.value >= |net.conns| then L.Requests(p.agent.outbox)
    else L.Requests(net.conns[p.conn.value].sent + p.agent.outbox) + |net.conns[p.conn.value].down|
  }

  /** The flag is set exactly while one request or its assignment is under way, and there is never a second. */
  lemma FlagIsExact(acts: seq<Action>, n: NodeId)
    requires Possible(START, acts) && n in After(START, acts).peers
    ensures var net := After(START, acts); InFlight(net, n) == if net.peers[n].agent.inflight then 1 else 0
  {
    var net := After(START, acts);
    hide Inv;
    ReachableSound(acts);
    FlagExact(net, n);
  }

  lemma FlagExact(net: Net, n: NodeId)
    requires Wired(net) && Linked(net) && n in net.peers
    ensures InFlight(net, n) == if net.peers[n].agent.inflight then 1 else 0
  {
    assert WiredPeer(net, n);
    if net.peers[n].conn.Some? {
      var i := net.peers[n].conn.value;
      assert WiredConn(net, i) && LinkOf(net, i).Ok();
    }
  }
}
