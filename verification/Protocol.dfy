/**
 The fleet as a state machine: one store, any number of nodes, and every
 connection any of them ever opened, overlapping ones included.
 */
module Protocol {
  import opened Sequences
  import opened Store
  import opened Node
  import L = Link

  /** The server's end of a connection: reading, about to release the node's leases, or done. */
  datatype Server = OPEN | CLOSING | CLOSED

  /** `alive` is the node's end; see `Link` for the other fields. */
  datatype Conn = Conn(node: NodeId, sent: seq<Uplink>, down: seq<seq<Payload>>, lost: seq<UnitId>,
                       alive: bool, server: Server)

  /** A node process and the connection it has open, if any. */
  datatype Peer = Peer(agent: Agent, conn: Option<nat>)

  datatype Net = Net(store: Store, peers: map<NodeId, Peer>, conns: seq<Conn>)

  const START := Net(EMPTY, map[], [])

  /** No single request is granted more than this. */
  const MAX_LEASE_PER_REQUEST := 64

  datatype Action =
    | Client(op: Op)                     // a submission, a cancellation, or the reaper
    | Join(node: NodeId, batchSize: int)
    | Connect(node: NodeId)
    | Abort(node: NodeId)                // a connection that ends before it is registered
    | LoadModel(node: NodeId)
    | Ask(node: NodeId)                  // the poller, a nudge, or a cancelled worker's last act
    | Send(node: NodeId)
    | Hear(node: NodeId)                 // an assignment arrives
    | Start(node: NodeId)
    | Report(node: NodeId, decoded: Decoded, servedBy: string)
    | Drop(node: NodeId)                 // the node's end closes
    | Serve(conn: nat, model: string, now: real, sendFails: bool)
    | Record(conn: nat, now: real)
    | Hangup(conn: nat)                  // the server's end sees the connection close
    | Depart(conn: nat)                  // and then gives the node's leases back

  predicate Connected(net: Net, n: NodeId) {
    n in net.peers && net.peers[n].conn.Some? && net.peers[n].conn.value < |net.conns|
  }

  predicate Reading(net: Net, i: nat) {
    i < |net.conns| && net.conns[i].server == OPEN && net.conns[i].sent != []
  }

  ghost predicate Enabled(net: Net, a: Action) {
    match a
    case Client(op) => (op.Submit? || op.Reap? || op.Stop?) && Legal(net.store, op)
    case Join(n, _) => n !in net.peers
    case Connect(n) => n in net.peers && net.peers[n].conn.None?
    case Abort(n) => n in net.peers && net.peers[n].conn.None?
    case LoadModel(n) => n in net.peers
    case Ask(n) => n in net.peers
    case Send(n) => Connected(net, n) && net.peers[n].agent.outbox != []
    case Hear(n) => Connected(net, n) && net.conns[net.peers[n].conn.value].down != []
    case Start(n) => Connected(net, n) && net.peers[n].agent.current == [] && net.peers[n].agent.queue != []
    case Report(n, _, _) => Connected(net, n) && net.peers[n].agent.current != []
    case Drop(n) => Connected(net, n)
    case Serve(i, _, _, _) => Reading(net, i) && net.conns[i].sent[0].WorkRequest?
    case Record(i, _) => Reading(net, i) && !net.conns[i].sent[0].WorkRequest?
    case Hangup(i) => i < |net.conns| && net.conns[i].server == OPEN
    case Depart(i) => i < |net.conns| && net.conns[i].server == CLOSING
  }

  function WithAgent(net: Net, n: NodeId, a: Agent): Net
    requires n in net.peers
  {
    net.(peers := net.peers[n := net.peers[n].(agent := a)])
  }

  function WithConn(net: Net, i: nat, c: Conn): Net
    requires i < |net.conns|
  {
    net.(conns := net.conns[i := c])
  }

  /** How many units a request for `capacity` is served. */
  function Allowance(capacity: int): nat {
    var k := if capacity < MAX_LEASE_PER_REQUEST then capacity else MAX_LEASE_PER_REQUEST;
    if k > 0 then k else 0
  }

  function GrantedTo(s: Store, capacity: int, model: string): seq<UnitId> {
    if Allowance(capacity) > 0 then Granted(s, Allowance(capacity), model) else []
  }

  function LeaseFor(s: Store, n: NodeId, capacity: int, model: string, now: real): Store {
    if Allowance(capacity) > 0 then Lease(s, n, Allowance(capacity), model, now) else s
  }

  function Payloads(s: Store, ids: seq<UnitId>): (r: seq<Payload>)
    ensures L.Ids(r) == ids
  {
    seq(|ids|, i requires 0 <= i < |ids| =>
      if ids[i] in s.units then PayloadOf(ids[i], s.units[ids[i]]) else Payload(ids[i], [], 0, 0.0))
  }

  function RecordVerdict(s: Store, n: NodeId, m: Uplink, now: real): Store {
    match m
    case WorkResult(id, result) => Complete(s, id, n, result, now)
    case WorkFailed(id, message) => Fail(s, id, message, now)
    case WorkRequest(_) => s
  }

  /** The node's end of connection `i` closes; its agent starts over with an empty outbox. */
  function DropConn(net: Net, n: NodeId, i: nat): Net
    requires n in net.peers && i < |net.conns|
  {
    var a, c := net.peers[n].agent, net.conns[i];
    var lost := c.lost + L.VerdictIds(a.outbox) + L.Ids(a.queue) + L.Ids(a.current);
    net.(peers := net.peers[n := Peer(Drain(a), None)], conns := net.conns[i := c.(alive := false, lost := lost)])
  }

  /** The server reads a request on connection `i` and sends what it granted, if the sending works. */
  function ServeConn(net: Net, i: nat, model: string, now: real, sendFails: bool): Net
    requires Reading(net, i) && net.conns[i].sent[0].WorkRequest?
  {
    var c := net.conns[i];
    var units := Payloads(net.store, GrantedTo(net.store, c.sent[0].capacity, model));
    WithConn(net, i, c.(sent := c.sent[1..], down := c.down + [units], server := if sendFails then CLOSING else OPEN))
      .(store := LeaseFor(net.store, c.node, c.sent[0].capacity, model, now))
  }

  /** The server reads a verdict on connection `i`. */
  function RecordConn(net: Net, i: nat, now: real): Net
    requires Reading(net, i)
  {
    var c := net.conns[i];
    WithConn(net, i, c.(sent := c.sent[1..])).(store := RecordVerdict(net.store, c.node, c.sent[0], now))
  }

  /** The server is done with connection `i`: its node's leases go back to the queue. */
  function DepartConn(net: Net, i: nat): Net
    requires i < |net.conns|
  {
    WithConn(net, i, net.conns[i].(server := CLOSED)).(store := Release(net.store, net.conns[i].node))
  }

  ghost function Next(net: Net, a: Action): Net
    requires Enabled(net, a)
  {
    match a
    case Client(op) => net.(store := Step(net.store, op))
    case Join(n, size) => net.(peers := net.peers[n := Peer(Newcomer(size), None)])
    case Connect(n) =>
      net.(peers := net.peers[n := net.peers[n].(conn := Some(|net.conns|))],
           conns := net.conns + [Conn(n, [], [], [], true, OPEN)])
    case Abort(n) => WithAgent(net, n, Drain(net.peers[n].agent))
    case LoadModel(n) => WithAgent(net, n, Loaded(net.peers[n].agent))
    case Ask(n) => WithAgent(net, n, RequestWork(net.peers[n].agent))
    case Send(n) =>
      var a, i := net.peers[n].agent, net.peers[n].conn.value;
      WithConn(WithAgent(net, n, a.(outbox := a.outbox[1..])), i,
               net.conns[i].(sent := net.conns[i].sent + [a.outbox[0]]))
    case Hear(n) =>
      var a, i := net.peers[n].agent, net.peers[n].conn.value;
      WithConn(WithAgent(net, n, Assigned(a, net.conns[i].down[0])), i,
               net.conns[i].(down := net.conns[i].down[1..]))
    case Start(n) => WithAgent(net, n, Begin(net.peers[n].agent))
    case Report(n, decoded, servedBy) =>
      var a := net.peers[n].agent;
      WithAgent(net, n, Finish(a, Verdicts(a.current, decoded, servedBy)))
    case Drop(n) => DropConn(net, n, net.peers[n].conn.value)
    case Serve(i, model, now, sendFails) => ServeConn(net, i, model, now, sendFails)
    case Record(i, now) => RecordConn(net, i, now)
    case Hangup(i) => WithConn(net, i, net.conns[i].(server := CLOSING))
    case Depart(i) => DepartConn(net, i)
  }

  ghost predicate Possible(net: Net, acts: seq<Action>)
    decreases |acts|
  {
    acts == [] || (Enabled(net, acts[0]) && Possible(Next(net, acts[0]), acts[1..]))
  }

  ghost function After(net: Net, acts: seq<Action>): Net
    requires Possible(net, acts)
    decreases |acts|
  {
    if acts == [] then net else After(Next(net, acts[0]), acts[1..])
  }
}
