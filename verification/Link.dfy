/**
 One connection between a node and the orchestrator, both ends and everything
 under way between them, apart from the rest of the fleet.
 */
module Link {
  import opened Sequences
  import opened Store
  import opened Node

  // ── What a FIFO of uplink messages carries ─────────────────────────────

  /** The units the messages give a verdict on. */
  function VerdictIds(m: seq<Uplink>): seq<UnitId> {
    if m == [] then [] else
      var last := m[|m| - 1];
      VerdictIds(m[..|m| - 1]) + (if last.WorkRequest? then [] else [last.unitId])
  }

  function Requests(m: seq<Uplink>): nat {
    if m == [] then 0 else Requests(m[..|m| - 1]) + One(m[|m| - 1].WorkRequest?)
  }

  /** The capacity of the last request. */
  function Capacity(m: seq<Uplink>): int {
    if m == [] then 0 else if m[|m| - 1].WorkRequest? then m[|m| - 1].capacity else Capacity(m[..|m| - 1])
  }

  /** How many verdicts follow the last request: those the server will read after it. */
  function After(m: seq<Uplink>): nat {
    if m == [] then 0 else if m[|m| - 1].WorkRequest? then 0 else After(m[..|m| - 1]) + 1
  }

  lemma {:induction false} Concat(a: seq<Uplink>, b: seq<Uplink>)
    ensures VerdictIds(a + b) == VerdictIds(a) + VerdictIds(b)
    ensures Requests(a + b) == Requests(a) + Requests(b)
    ensures Capacity(a + b) == if Requests(b) == 0 then Capacity(a) else Capacity(b)
    ensures After(a + b) == if Requests(b) == 0 then After(a) + |VerdictIds(b)| else After(b)
  {
    if b == [] {
      assert a + b == a;
    } else {
      var n := |b| - 1;
      Concat(a, b[..n]);
      assert (a + b)[..|a + b| - 1] == a + b[..n];
      assert (a + b)[|a + b| - 1] == b[n];
    }
  }

  lemma Single(m: Uplink)
    ensures VerdictIds([m]) == (if m.WorkRequest? then [] else [m.unitId])
    ensures Requests([m]) == One(m.WorkRequest?)
    ensures m.WorkRequest? ==> Capacity([m]) == m.capacity && After([m]) == 0
  {
    assert [m][..0] == [];
  }

  lemma {:induction false} AllVerdicts(v: seq<Uplink>, units: seq<Payload>)
    requires |v| == |units| && forall i :: 0 <= i < |v| ==> IsVerdictOn(v[i], units[i].unitId)
    ensures Requests(v) == 0 && VerdictIds(v) == Ids(units)
  {
    if v != [] {
      var n := |v| - 1;
      AllVerdicts(v[..n], units[..n]);
      assert Ids(units) == Ids(units[..n]) + [units[n].unitId];
    }
  }

  function Ids(q: seq<Payload>): (r: seq<UnitId>)
    ensures |r| == |q|
  {
    seq(|q|, i requires 0 <= i < |q| => q[i].unitId)
  }

  lemma IdsConcat(a: seq<Payload>, b: seq<Payload>)
    ensures Ids(a + b) == Ids(a) + Ids(b)
  {
  }

  function DownIds(d: seq<seq<Payload>>): seq<UnitId> {
    if d == [] then [] else Ids(d[0]) + DownIds(d[1..])
  }

  lemma {:induction false} DownSnoc(d: seq<seq<Payload>>, units: seq<Payload>)
    ensures DownIds(d + [units]) == DownIds(d) + Ids(units)
  {
    if d == [] {
      assert d + [units] == [units];
    } else {
      DownSnoc(d[1..], units);
      assert (d + [units])[1..] == d[1..] + [units];
    }
  }

  // ── The link ───────────────────────────────────────────────────────────

  /**
   `sent` is on the wire to the server and `down` on the wire to the node; `lost`
   is what the node held or had not sent when its end closed. `agent` is the
   node's end while it is open.
   */
  datatype Link = Link(sent: seq<Uplink>, down: seq<seq<Payload>>, lost: seq<UnitId>, size: int, agent: Option<Agent>)
  {
    /** Everything the server has still to read, in order. */
    function Out(): seq<Uplink> { if agent.Some? then sent + agent.value.outbox else sent }

    function Queue(): seq<Payload> { if agent.Some? then agent.value.queue else [] }

    function Current(): seq<Payload> { if agent.Some? then agent.value.current else [] }

    /** Every unit granted over this link and not yet answered for, wherever it is. */
    function Custody(): multiset<UnitId> {
      multiset(DownIds(down)) + multiset(lost) + multiset(VerdictIds(Out())) + multiset(Ids(Queue())) + multiset(Ids(Current()))
    }

    function Load(): nat {
      |DownIds(down)| + |lost| + |VerdictIds(Out())| + |Queue()| + |Current()|
    }

    /** At most one request or assignment is under way; an open node end knows whether one is. */
    ghost predicate Flagged() {
      var n := Requests(Out()) + |down|;
      n <= 1 && (agent.Some? ==> n == One(agent.value.inflight))
    }

    /** The most a link can be responsible for. */
    function Limit(): nat { if size > 0 then size else 0 }

    /** The bounds that make prefetching safe. */
    ghost predicate Bounded() {
      && Load() <= 2 * Limit()
      && (agent.Some? ==> agent.value.batchSize == size && lost == []
                          && |DownIds(down)| + |Queue()| <= Limit() && |Current()| <= Limit())
      && (Requests(Out()) == 1 ==>
            && Capacity(Out()) + |lost| + |Queue()| + |Current()| + After(Out()) <= 2 * Limit()
            && (agent.Some? ==> Capacity(Out()) + |Queue()| <= Limit()))
    }

    ghost predicate Ok() { Flagged() && Bounded() }
  }

  // ── The node's end ─────────────────────────────────────────────────────

  lemma RequestOk(l: Link)
    requires l.Ok() && l.agent.Some?
    ensures l.(agent := Some(RequestWork(l.agent.value))).Ok()
    ensures l.(agent := Some(RequestWork(l.agent.value))).Custody() == l.Custody()
  {
    hide VerdictIds, Requests, Capacity, After, DownIds, Ids;
    var a := l.agent.value;
    if RequestWork(a) != a {
      var m := WorkRequest(a.batchSize - |a.queue|);
      Single(m);
      Concat(l.Out(), [m]);
      assert l.(agent := Some(RequestWork(a))).Out() == l.Out() + [m];
    }
  }

  lemma BeginOk(l: Link)
    requires l.Ok() && l.agent.Some? && l.agent.value.current == [] && l.agent.value.queue != []
    ensures l.(agent := Some(Begin(l.agent.value))).Ok()
    ensures l.(agent := Some(Begin(l.agent.value))).Custody() == l.Custody()
  {
    var a := l.agent.value;
    var w := Width(a);
    var b := l.(agent := Some(a.(current := a.queue[..w], queue := a.queue[w..])));
    assert a.queue == a.queue[..w] + a.queue[w..];
    IdsConcat(a.queue[..w], a.queue[w..]);
    assert b.Out() == l.Out();
    RequestOk(b);
  }

  /** The batch's units turned into verdicts, behind everything else there is to send. */
  function Reported(l: Link, v: seq<Uplink>): Link
    requires l.agent.Some?
  {
    l.(agent := Some(l.agent.value.(current := [], outbox := l.agent.value.outbox + v)))
  }

  lemma ReportedOut(l: Link, v: seq<Uplink>)
    requires l.agent.Some? && |v| == |l.agent.value.current|
    requires forall i :: 0 <= i < |v| ==> IsVerdictOn(v[i], l.agent.value.current[i].unitId)
    ensures var out, next := l.Out(), Reported(l, v).Out();
      && Requests(next) == Requests(out) && Capacity(next) == Capacity(out) && After(next) == After(out) + |v|
      && VerdictIds(next) == VerdictIds(out) + Ids(l.Current())
  {
    assert Reported(l, v).Out() == l.Out() + v;
    AllVerdicts(v, l.agent.value.current);
    Concat(l.Out(), v);
  }

  /** What was being decoded is now on its way, and nothing else has moved. */
  lemma ReportedFits(l: Link, b: Link)
    requires l.Ok() && l.agent.Some? && b.agent.Some? && b.size == l.size && b.down == l.down && b.lost == l.lost
    requires b.agent.value.batchSize == l.agent.value.batchSize && b.agent.value.inflight == l.agent.value.inflight
    requires |b.Queue()| == |l.Queue()| && |b.Current()| == 0
    requires Requests(b.Out()) == Requests(l.Out()) && Capacity(b.Out()) == Capacity(l.Out())
    requires After(b.Out()) == After(l.Out()) + |l.Current()|
    requires |VerdictIds(b.Out())| == |VerdictIds(l.Out())| + |l.Current()|
    ensures b.Ok()
  {
    hide VerdictIds, Requests, Capacity, After, DownIds, Ids, Link.Out;
    assert b.Flagged();
    assert b.Load() == l.Load();
  }

  lemma ReportedOk(l: Link, v: seq<Uplink>)
    requires l.Ok() && l.agent.Some? && |v| == |l.agent.value.current|
    requires forall i :: 0 <= i < |v| ==> IsVerdictOn(v[i], l.agent.value.current[i].unitId)
    ensures Reported(l, v).Ok()
  {
    ReportedOut(l, v);
    hide VerdictIds, Requests, Capacity, After, DownIds, Link.Out, Link.Ok;
    ReportedFits(l, Reported(l, v));
  }

  lemma ReportedCustody(l: Link, v: seq<Uplink>)
    requires l.agent.Some? && |v| == |l.agent.value.current|
    requires forall i :: 0 <= i < |v| ==> IsVerdictOn(v[i], l.agent.value.current[i].unitId)
    ensures Reported(l, v).Custody() == l.Custody()
  {
    ReportedOut(l, v);
    hide VerdictIds, DownIds, Link.Out;
  }

  lemma FinishOk(l: Link, v: seq<Uplink>)
    requires l.Ok() && l.agent.Some?
    requires |v| == |l.agent.value.current| && forall i :: 0 <= i < |v| ==> IsVerdictOn(v[i], l.agent.value.current[i].unitId)
    ensures l.(agent := Some(Finish(l.agent.value, v))).Ok()
    ensures l.(agent := Some(Finish(l.agent.value, v))).Custody() == l.Custody()
  {
    ReportedOk(l, v);
    ReportedCustody(l, v);
    hide Link.Ok, Link.Custody;
    RequestOk(Reported(l, v));
  }

  lemma DeliverOk(l: Link)
    requires l.Ok() && l.agent.Some? && l.down != []
    ensures l.(down := l.down[1..], agent := Some(Assigned(l.agent.value, l.down[0]))).Ok()
    ensures l.(down := l.down[1..], agent := Some(Assigned(l.agent.value, l.down[0]))).Custody() == l.Custody()
  {
    var a := l.agent.value;
    var b := l.(down := l.down[1..], agent := Some(Assigned(a, l.down[0])));
    assert l.down == [l.down[0]];
    IdsConcat(a.queue, l.down[0]);
    assert b.Out() == l.Out();
  }

  lemma SendOk(l: Link)
    requires l.Ok() && l.agent.Some? && l.agent.value.outbox != []
    ensures var o := l.agent.value.outbox; var b := l.(sent := l.sent + [o[0]], agent := Some(l.agent.value.(outbox := o[1..])));
      b.Ok() && b.Custody() == l.Custody()
  {
    var o := l.agent.value.outbox;
    var b := l.(sent := l.sent + [o[0]], agent := Some(l.agent.value.(outbox := o[1..])));
    assert b.Out() == l.Out();
  }

  /** The node's end closes: what it held is lost, but stays accounted for. */
  function Dropped(l: Link): Link {
    if l.agent.None? then l else
      var a := l.agent.value;
      l.(agent := None, lost := l.lost + VerdictIds(a.outbox) + Ids(a.queue) + Ids(a.current))
  }

  lemma DropCustody(l: Link)
    ensures Dropped(l).Custody() == l.Custody() && Dropped(l).Load() == l.Load()
  {
    hide VerdictIds, Requests, Capacity, After, DownIds, Ids;
    if l.agent.Some? {
      Concat(l.sent, l.agent.value.outbox);
    }
  }

  lemma DropOk(l: Link)
    requires l.Ok()
    ensures Dropped(l).Ok() && Dropped(l).Custody() == l.Custody()
  {
    hide VerdictIds, Requests, Capacity, After, DownIds, Ids;
    DropCustody(l);
    if l.agent.Some? {
      Concat(l.sent, l.agent.value.outbox);
      assert Dropped(l).Out() == l.sent;
      assert Dropped(l).Flagged();
    }
  }

  // ── The server's end ───────────────────────────────────────────────────

  /** The server reads a verdict: that unit is answered for. */
  lemma RecordOk(l: Link)
    requires l.Ok() && l.sent != [] && !l.sent[0].WorkRequest?
    ensures l.(sent := l.sent[1..]).Ok()
    ensures l.Custody() == l.(sent := l.sent[1..]).Custody() + multiset{l.sent[0].unitId}
  {
    hide VerdictIds, Requests, Capacity, After, DownIds, Ids;
    var b := l.(sent := l.sent[1..]);
    assert l.Out() == [l.sent[0]] + b.Out();
    Single(l.sent[0]);
    Concat([l.sent[0]], b.Out());
  }

  /** The server reads a request and sends what it granted, at most what was asked for. */
  function Served(l: Link, units: seq<Payload>): Link
    requires l.sent != []
  {
    l.(sent := l.sent[1..], down := l.down + [units])
  }

  lemma ServeOut(l: Link, units: seq<Payload>)
    requires l.sent != [] && l.sent[0].WorkRequest?
    ensures VerdictIds(l.Out()) == VerdictIds(Served(l, units).Out())
    ensures Requests(l.Out()) == 1 + Requests(Served(l, units).Out())
    ensures Requests(l.Out()) == 1 ==> Capacity(l.Out()) == l.sent[0].capacity && After(l.Out()) == |VerdictIds(l.Out())|
  {
    var b := Served(l, units);
    assert l.Out() == [l.sent[0]] + b.Out();
    Single(l.sent[0]);
    Concat([l.sent[0]], b.Out());
  }

  lemma ServeCustody(l: Link, units: seq<Payload>)
    requires l.sent != [] && l.sent[0].WorkRequest?
    ensures Served(l, units).Custody() == l.Custody() + multiset(Ids(units))
    ensures Served(l, units).Load() == l.Load() + |units|
  {
    ServeOut(l, units);
    DownSnoc(l.down, units);
  }

  lemma ServeDown(l: Link, units: seq<Payload>)
    requires l.sent != []
    ensures l.down == [] ==> |DownIds(l.down)| == 0 && |DownIds(Served(l, units).down)| == |units|
  {
    DownSnoc(l.down, units);
  }

  /** The one request has been read, and no more was granted than it asked for. */
  lemma ServedBounded(l: Link, b: Link, granted: nat, capacity: int)
    requires l.Bounded() && Requests(l.Out()) == 1 && Capacity(l.Out()) == capacity && After(l.Out()) == |VerdictIds(l.Out())|
    requires granted <= capacity || granted == 0
    requires b.size == l.size && b.agent == l.agent && b.lost == l.lost && Requests(b.Out()) == 0
    requires |DownIds(l.down)| == 0 && |DownIds(b.down)| == granted && b.Load() == l.Load() + granted
    ensures b.Bounded()
  {
    hide VerdictIds, Requests, Capacity, After, DownIds, Link.Out;
  }

  lemma ServeOk(l: Link, units: seq<Payload>)
    requires l.Ok() && l.sent != [] && l.sent[0].WorkRequest?
    requires |units| <= l.sent[0].capacity || units == []
    ensures Served(l, units).Ok()
  {
    var b := Served(l, units);
    ServeOut(l, units);
    ServeCustody(l, units);
    ServeDown(l, units);
    hide VerdictIds, Requests, Capacity, After, DownIds, Link.Bounded;
    assert l.down == [] && b.Flagged();
    ServedBounded(l, b, |units|, l.sent[0].capacity);
  }
}
