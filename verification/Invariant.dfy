/** What every operation of the store keeps, and so holds in every reachable state. */
module Invariant {
  import opened Sequences
  import opened Store

  /** The dictionary's insertion order lists its keys once each. */
  ghost predicate Ordered(s: Store) {
    NoDup(s.order) && forall id :: id in s.order <==> id in s.units
  }

  /** Client units first, then canaries: the order in which a batch created its units. */
  function Members(b: Batch): seq<UnitId> { b.unitIds + b.canaryIds }

  ghost predicate Filed(s: Store) {
    forall id :: id in s.units ==> s.units[id].batch in s.batches && id in Members(s.batches[s.units[id].batch])
  }

  ghost predicate ListedIn(s: Store, b: BatchId)
    requires b in s.batches
  {
    var m := Members(s.batches[b]);
    NoDup(m) && forall k :: 0 <= k < |m| ==> m[k] in s.units && s.units[m[k]].batch == b && s.units[m[k]].index == k
  }

  ghost predicate Listed(s: Store) {
    forall b :: b in s.batches ==> ListedIn(s, b)
  }

  /** Every queue entry is a known unit, and no waiting unit is missing from the queue. */
  ghost predicate Queued(s: Store) {
    && (forall id :: id in s.pending ==> id in s.units)
    && (forall id :: id in s.units && s.units[id].state == PENDING ==> id in s.pending)
  }

  /** A cancelled batch costs the fleet nothing more: not a unit, not a canary. */
  ghost predicate Quiet(s: Store) {
    forall id :: id in s.units && s.units[id].Outstanding() && s.units[id].batch in s.batches
      ==> s.batches[s.units[id].batch].state != CANCELLED
  }

  /** A batch is in progress exactly while a client unit of it has no verdict. */
  ghost predicate ExactFor(s: Store, b: BatchId)
    requires b in s.batches
  {
    if s.batches[b].unitIds == [] then s.batches[b].state != COMPLETED && s.batches[b].canaryIds == []
    else s.batches[b].state == IN_PROGRESS <==> Unfinished(s, b)
  }

  ghost predicate Exact(s: Store) {
    forall b :: b in s.batches ==> ExactFor(s, b)
  }

  ghost predicate Held(s: Store) {
    forall id :: id in s.units && s.units[id].state == LEASED ==> s.units[id].node.Some? && s.units[id].attempts > 0
  }

  ghost predicate Inv(s: Store) {
    Ordered(s) && Filed(s) && Listed(s) && Queued(s) && Quiet(s) && Exact(s) && Held(s)
  }

  // ── Operations that change some units and no batch's membership ────────

  ghost predicate SameMembers(a: Batch, b: Batch) {
    a.unitIds == b.unitIds && a.canaryIds == b.canaryIds
  }

  /** `t` has the same units and batches as `s`, up to what their lives did to them. */
  ghost predicate SameShape(s: Store, t: Store) {
    && s.order == t.order && s.units.Keys == t.units.Keys && s.batches.Keys == t.batches.Keys
    && (forall id :: id in s.units ==> t.units[id].batch == s.units[id].batch && t.units[id].index == s.units[id].index)
    && (forall b :: b in s.batches ==> SameMembers(s.batches[b], t.batches[b]))
  }

  lemma ShapeKept(s: Store, t: Store)
    requires Ordered(s) && Filed(s) && Listed(s) && SameShape(s, t)
    ensures Ordered(t) && Filed(t) && Listed(t)
  {
    forall b | b in t.batches ensures ListedIn(t, b) {
      assert ListedIn(s, b);
    }
  }

  lemma SameUnfinished(s: Store, t: Store, b: BatchId)
    requires b in s.batches && b in t.batches && s.batches[b].unitIds == t.batches[b].unitIds
    requires forall id :: id in s.batches[b].unitIds ==> Undecided(s, id) == Undecided(t, id)
    ensures Unfinished(s, b) == Unfinished(t, b)
  {
    if Unfinished(s, b) {
      var id :| id in s.batches[b].unitIds && id in s.units && s.units[id].Outstanding();
      assert Undecided(t, id);
    }
    if Unfinished(t, b) {
      var id :| id in t.batches[b].unitIds && id in t.units && t.units[id].Outstanding();
      assert Undecided(s, id);
    }
  }

  /** A unit on a batch's list belongs to that batch. */
  lemma OnlyOwn(s: Store, b: BatchId, id: UnitId)
    requires Listed(s) && b in s.batches && id in Members(s.batches[b])
    ensures id in s.units && s.units[id].batch == b
  {
    assert ListedIn(s, b);
  }

  /** A batch none of whose units changed sides keeps its state exact. */
  lemma BatchStaysExact(s: Store, t: Store, b: BatchId)
    requires b in s.batches && b in t.batches && t.batches[b] == s.batches[b] && ExactFor(s, b)
    requires forall id :: id in s.batches[b].unitIds ==> Undecided(s, id) == Undecided(t, id)
    ensures ExactFor(t, b)
  {
    SameUnfinished(s, t, b);
  }

  /** Outstanding stays outstanding, so every batch keeps its state. */
  lemma StaysExact(s: Store, t: Store)
    requires Inv(s) && SameShape(s, t) && t.batches == s.batches
    requires forall id :: id in s.units ==> s.units[id].Outstanding() == t.units[id].Outstanding()
    ensures Exact(t) && Quiet(t)
  {
    forall b | b in t.batches ensures ExactFor(t, b) {
      BatchStaysExact(s, t, b);
    }
  }

  // ── Leasing ────────────────────────────────────────────────────────────

  lemma {:induction false} EligiblesMembers(s: Store, model: string, q: seq<UnitId>)
    ensures forall id :: id in Eligibles(s, model, q) <==> id in q && Eligible(s, model, id)
    ensures NoDup(Eligibles(s, model, q))
  {
    if q != [] {
      EligiblesMembers(s, model, q[..|q| - 1]);
      assert q == q[..|q| - 1] + [q[|q| - 1]];
    }
  }

  /** What `lease` throws away is never work: every waiting unit it did not grant stays queued. */
  lemma LeaseLosesNothing(s: Store, count: int, model: string, id: UnitId)
    requires Leasable(s, id) && id in s.pending && id !in Granted(s, count, model)
    ensures id in LeftQueued(s, count, model)
  {
    var k := ReadTo(s, model, count, 0);
    EligiblesMembers(s, model, s.pending[..k]);
    assert s.pending == s.pending[..k] + s.pending[k..];
  }

  lemma GrantedMembers(s: Store, count: int, model: string)
    ensures forall id :: id in Granted(s, count, model) ==> id in s.pending && Eligible(s, model, id)
    ensures NoDup(Granted(s, count, model))
    ensures forall id :: id in LeftQueued(s, count, model) ==> id in s.pending
  {
    var k := ReadTo(s, model, count, 0);
    EligiblesMembers(s, model, s.pending[..k]);
  }

  lemma LeaseKeeps(s: Store, n: NodeId, count: int, model: string, now: real)
    requires Inv(s)
    ensures Inv(Lease(s, n, count, model, now))
  {
    var t := Lease(s, n, count, model, now);
    GrantedMembers(s, count, model);
    ShapeKept(s, t);
    StaysExact(s, t);
    forall id | id in t.units && t.units[id].state == PENDING ensures id in t.pending {
      assert s.units[id] == t.units[id] && Leasable(s, id);
      LeaseLosesNothing(s, count, model, id);
    }
  }

  lemma ReclaimKeeps(s: Store, ids: seq<UnitId>)
    requires Inv(s)
    requires forall id :: id in ids ==> id in s.units && s.units[id].state == LEASED
    ensures Inv(Reclaim(s, ids))
  {
    var t := Reclaim(s, ids);
    ShapeKept(s, t);
    StaysExact(s, t);
  }

  // ── Verdicts ───────────────────────────────────────────────────────────

  /** One unit `id` got its verdict, and then its batch was looked at. */
  lemma SettledExact(s: Store, id: UnitId, u: Unit, now: real)
    requires Inv(s) && id in s.units && !u.Outstanding() && u.batch == s.units[id].batch
    ensures Exact(MaybeFinish(s.(units := s.units[id := u]), u.batch, now))
  {
    var mid := s.(units := s.units[id := u]);
    var t := MaybeFinish(mid, u.batch, now);
    forall b | b in t.batches ensures ExactFor(t, b) {
      assert ExactFor(s, b);
      if b != u.batch {
        forall x | x in s.batches[b].unitIds ensures Undecided(s, x) == Undecided(t, x) {
          OnlyOwn(s, b, x);
        }
        BatchStaysExact(s, t, b);
      } else {
        assert id in Members(s.batches[b]);
        SameUnfinished(mid, t, b);
        if Unfinished(mid, b) {
          var x :| x in s.batches[b].unitIds && x in mid.units && mid.units[x].Outstanding();
          assert x in s.units && s.units[x].Outstanding();
        }
      }
    }
  }

  lemma SettleKeeps(s: Store, id: UnitId, u: Unit, now: real)
    requires Inv(s) && id in s.units && !u.Outstanding()
    requires u.batch == s.units[id].batch && u.index == s.units[id].index
    ensures Inv(MaybeFinish(s.(units := s.units[id := u]), u.batch, now))
  {
    var t := MaybeFinish(s.(units := s.units[id := u]), u.batch, now);
    SettledShape(s, id, u, now);
    ShapeKept(s, t);
    SettledExact(s, id, u, now);
    SettledRest(s, t);
  }

  lemma SettledShape(s: Store, id: UnitId, u: Unit, now: real)
    requires id in s.units && !u.Outstanding()
    requires u.batch == s.units[id].batch && u.index == s.units[id].index
    ensures var t := MaybeFinish(s.(units := s.units[id := u]), u.batch, now);
      && SameShape(s, t) && t.pending == s.pending
      && (forall x :: x in s.units ==> t.units[x] == s.units[x] || !t.units[x].Outstanding())
      && (forall b :: b in s.batches ==> t.batches[b].state == CANCELLED ==> s.batches[b].state == CANCELLED)
  {
  }

  lemma SettledRest(s: Store, t: Store)
    requires Queued(s) && Quiet(s) && Held(s) && t.pending == s.pending
    requires s.units.Keys == t.units.Keys && s.batches.Keys == t.batches.Keys
    requires forall x :: x in s.units ==> t.units[x] == s.units[x] || !t.units[x].Outstanding()
    requires forall b :: b in s.batches ==> t.batches[b].state == CANCELLED ==> s.batches[b].state == CANCELLED
    ensures Queued(t) && Quiet(t) && Held(t)
  {
  }

  lemma CompleteKeeps(s: Store, id: UnitId, n: NodeId, result: Result, now: real)
    requires Inv(s)
    ensures Inv(Complete(s, id, n, result, now))
  {
    if Undecided(s, id) {
      SettleKeeps(s, id, s.units[id].Finish(n, result), now);
    }
  }

  lemma FailKeeps(s: Store, id: UnitId, message: string, now: real)
    requires Inv(s)
    ensures Inv(Fail(s, id, message, now))
  {
    if Undecided(s, id) {
      var u := s.units[id].Reject(message);
      if u.state == FAILED {
        SettleKeeps(s, id, u, now);
      } else {
        RequeueKeeps(s, id, message, now);
      }
    }
  }

  lemma RequeueKeeps(s: Store, id: UnitId, message: string, now: real)
    requires Inv(s) && Undecided(s, id) && s.units[id].Reject(message).state == PENDING
    ensures Inv(Fail(s, id, message, now))
  {
    var t := Fail(s, id, message, now);
    RequeueShape(s, id, message, now);
    ShapeKept(s, t);
    StaysExact(s, t);
    hide Ordered, Filed, Listed, Exact, Fail;
  }

  lemma RequeueShape(s: Store, id: UnitId, message: string, now: real)
    requires Undecided(s, id) && s.units[id].Reject(message).state == PENDING
    ensures var t := Fail(s, id, message, now);
      && SameShape(s, t) && t.batches == s.batches
      && (forall x :: x in s.units ==> s.units[x].Outstanding() == t.units[x].Outstanding())
    ensures Queued(s) && Held(s) ==> Queued(Fail(s, id, message, now)) && Held(Fail(s, id, message, now))
  {
  }

  lemma CancelKeeps(s: Store, b: BatchId)
    requires Inv(s)
    ensures Inv(Cancel(s, b))
  {
    if Cancellable(s, b) {
      var t := Cancel(s, b);
      ShapeKept(s, t);
      CancelQuiet(s, b);
      forall c | c in t.batches ensures ExactFor(t, c) {
        CancelExact(s, b, c);
      }
    }
  }

  lemma CancelQuiet(s: Store, b: BatchId)
    requires Filed(s) && Quiet(s) && Queued(s) && Held(s) && Cancellable(s, b)
    ensures Quiet(Cancel(s, b)) && Queued(Cancel(s, b)) && Held(Cancel(s, b))
  {
    var t := Cancel(s, b);
    var mine := s.batches[b].unitIds + s.batches[b].canaryIds;
    assert mine == Members(s.batches[b]);
    forall id | id in t.units && t.units[id].Outstanding()
      ensures s.units[id] == t.units[id] && id !in mine && s.units[id].batch != b
    {
    }
  }

  lemma CancelExact(s: Store, b: BatchId, c: BatchId)
    requires Inv(s) && Cancellable(s, b) && c in s.batches
    ensures ExactFor(Cancel(s, b), c)
  {
    var t := Cancel(s, b);
    assert ExactFor(s, c);
    forall x | x in s.batches[c].unitIds
      ensures if c == b then !Undecided(t, x) else Undecided(s, x) == Undecided(t, x)
    {
      OnlyOwn(s, c, x);
      if x in Members(s.batches[b]) { OnlyOwn(s, b, x); }
    }
    if c != b {
      BatchStaysExact(s, t, c);
    }
  }

  // ── Submission ─────────────────────────────────────────────────────────

  /** Planting moves nothing out: the queue is a permutation of real units and canaries. */
  lemma {:induction false} PlantedPermutes(ids: seq<UnitId>, canaryIds: seq<UnitId>)
    ensures multiset(Planted(ids, canaryIds)) == multiset(ids) + multiset(canaryIds)
  {
    if canaryIds != [] {
      var k := |canaryIds| - 1;
      PlantedPermutes(ids, canaryIds[..k]);
      var q := Planted(ids, canaryIds[..k]);
      var i := PlantIndex(|ids|, k);
      InsertedOnce(q, i, canaryIds[k]);
      assert canaryIds == canaryIds[..k] + [canaryIds[k]];
    }
  }

  lemma InsertedOnce(q: seq<UnitId>, i: nat, id: UnitId)
    requires i <= |q|
    ensures multiset(q[..i] + [id] + q[i..]) == multiset(q) + multiset{id}
  {
    assert q == q[..i] + q[i..];
  }

  lemma PlantedMembers(ids: seq<UnitId>, canaryIds: seq<UnitId>)
    ensures forall id :: id in Planted(ids, canaryIds) <==> id in ids + canaryIds
  {
    PlantedPermutes(ids, canaryIds);
    var q := Planted(ids, canaryIds);
    forall id ensures id in q <==> id in ids + canaryIds {
      assert id in q <==> id in multiset(q);
      assert id in ids <==> id in multiset(ids);
      assert id in canaryIds <==> id in multiset(canaryIds);
    }
  }

  lemma {:induction false} WithUnitsAt(units: map<UnitId, Unit>, sub: Submission, k: nat)
    requires |sub.ids| == |sub.requests| && |sub.canaryIds| == |sub.canaries|
    requires k <= |sub.ids + sub.canaryIds| && NoDup(sub.ids + sub.canaryIds)
    ensures var m := sub.ids + sub.canaryIds; var w := WithUnits(units, sub, k);
      && (forall i :: 0 <= i < k ==> m[i] in w && w[m[i]] == sub.UnitAt(i))
      && (forall id :: id in w <==> id in units || id in m[..k])
      && (forall id :: id in units && id !in m[..k] ==> w[id] == units[id])
  {
    hide Submission.UnitAt;
    if k > 0 {
      WithUnitsAt(units, sub, k - 1);
      var m := sub.ids + sub.canaryIds;
      forall i | 0 <= i < k - 1 ensures m[i] != m[k - 1] {}
      OneMore(m, k - 1);
    }
  }

  lemma OneMore(m: seq<UnitId>, k: nat)
    requires k < |m|
    ensures forall id :: id in m[..k + 1] <==> id in m[..k] || id == m[k]
  {
    assert m[..k + 1] == m[..k] + [m[k]];
  }

  /** The units after a submission: the old ones, and one waiting unit at each position. */
  lemma CreatedUnits(s: Store, sub: Submission)
    requires sub.Legal(s)
    ensures var m := sub.ids + sub.canaryIds; var w := Create(s, sub).units;
      && (forall i :: 0 <= i < |m| ==> m[i] in w && w[m[i]] == sub.UnitAt(i))
      && (forall id :: id in w <==> id in s.units || id in m)
      && (forall id :: id in s.units ==> w[id] == s.units[id])
  {
    var m := sub.ids + sub.canaryIds;
    WithUnitsAt(s.units, sub, |m|);
    assert m[..|m|] == m;
  }

  lemma CreateFiles(s: Store, sub: Submission)
    requires Inv(s) && sub.Legal(s)
    ensures Ordered(Create(s, sub)) && Filed(Create(s, sub)) && Listed(Create(s, sub))
  {
    hide Exact, Queued, Quiet, Held;
    CreateOrders(s, sub);
    CreateLists(s, sub);
    var t := Create(s, sub);
    forall id | id in t.units ensures t.units[id].batch in t.batches && id in Members(t.batches[t.units[id].batch]) {
      FiledAt(s, sub, id);
    }
  }

  lemma CreateOrders(s: Store, sub: Submission)
    requires Ordered(s) && sub.Legal(s)
    ensures Ordered(Create(s, sub))
  {
    var m := sub.ids + sub.canaryIds;
    CreatedUnits(s, sub);
    assert Create(s, sub).order == s.order + m;
    hide WithUnits;
  }

  lemma CreateLists(s: Store, sub: Submission)
    requires Listed(s) && sub.Legal(s)
    ensures Listed(Create(s, sub))
  {
    var t := Create(s, sub);
    CreatedUnits(s, sub);
    hide WithUnits;
    forall b | b in t.batches ensures ListedIn(t, b) {
      if b != sub.batch { assert ListedIn(s, b); }
    }
  }

  lemma FiledAt(s: Store, sub: Submission, id: UnitId)
    requires Filed(s) && sub.Legal(s) && id in Create(s, sub).units
    ensures var t := Create(s, sub); t.units[id].batch in t.batches && id in Members(t.batches[t.units[id].batch])
  {
    var m := sub.ids + sub.canaryIds;
    CreatedUnits(s, sub);
    hide WithUnits;
    if id !in s.units {
      var i :| 0 <= i < |m| && m[i] == id;
      assert Create(s, sub).units[id] == sub.UnitAt(i);
    }
  }

  lemma CreateExact(s: Store, sub: Submission)
    requires Inv(s) && sub.Legal(s)
    ensures Exact(Create(s, sub))
  {
    var t := Create(s, sub);
    CreatedUnits(s, sub);
    forall b | b in t.batches ensures ExactFor(t, b) {
      if b != sub.batch {
        forall x | x in s.batches[b].unitIds ensures Undecided(s, x) == Undecided(t, x) {
          assert x in Members(s.batches[b]);
          OnlyOwn(s, b, x);
        }
        BatchStaysExact(s, t, b);
      } else if sub.ids != [] {
        var id := sub.ids[0];
        assert (sub.ids + sub.canaryIds)[0] == id;
        assert id in t.batches[b].unitIds && id in t.units && t.units[id].Outstanding();
      }
    }
  }

  lemma CreateKeeps(s: Store, sub: Submission)
    requires Inv(s) && sub.Legal(s)
    ensures Inv(Create(s, sub))
  {
    CreateFiles(s, sub);
    CreateExact(s, sub);
    CreateRest(s, sub);
  }

  lemma CreateRest(s: Store, sub: Submission)
    requires Filed(s) && Queued(s) && Quiet(s) && Held(s) && sub.Legal(s)
    ensures Queued(Create(s, sub)) && Quiet(Create(s, sub)) && Held(Create(s, sub))
  {
    var t := Create(s, sub);
    var m := sub.ids + sub.canaryIds;
    CreatedUnits(s, sub);
    PlantedMembers(sub.ids, sub.canaryIds);
    forall id | id in t.units && id !in s.units
      ensures id in m && t.units[id].batch == sub.batch && t.units[id].state == PENDING
    {
      var i :| 0 <= i < |m| && m[i] == id;
    }
    CreateQueues(s, t, sub.batch, m);
  }

  lemma CreateQueues(s: Store, t: Store, b: BatchId, m: seq<UnitId>)
    requires Filed(s) && Queued(s) && Quiet(s) && Held(s)
    requires forall id :: id in s.units ==> id in t.units && t.units[id] == s.units[id]
    requires forall id :: id in m ==> id in t.units
    requires forall id :: id in t.units && id !in s.units ==> id in m && t.units[id].batch == b && t.units[id].state == PENDING
    requires b in t.batches && t.batches[b].state == IN_PROGRESS
    requires forall c :: c in s.batches ==> c in t.batches && (t.batches[c] == s.batches[c] || c == b)
    requires forall id :: id in t.pending <==> id in s.pending || id in m
    ensures Queued(t) && Quiet(t) && Held(t)
  {
  }

  // ── Every run ──────────────────────────────────────────────────────────

  lemma {:induction false} RunInTurn(s: Store, a: seq<Op>, b: seq<Op>)
    requires LegalRun(s, a) && LegalRun(Run(s, a), b)
    ensures LegalRun(s, a + b) && Run(s, a + b) == Run(Run(s, a), b)
    decreases |a|
  {
    if a == [] {
      assert a + b == b;
    } else {
      RunInTurn(Step(s, a[0]), a[1..], b);
      assert (a + b)[1..] == a[1..] + b;
    }
  }

  lemma StepKeeps(s: Store, op: Op)
    requires Inv(s) && Legal(s, op)
    ensures Inv(Step(s, op))
  {
    match op
    case Submit(sub) => CreateKeeps(s, sub);
    case Take(n, count, model, now) => LeaseKeeps(s, n, count, model, now);
    case Deliver(id, n, result, now) => CompleteKeeps(s, id, n, result, now);
    case Refuse(id, _, message, now) => FailKeeps(s, id, message, now);
    case NodeLeft(n) => ReclaimKeeps(s, HeldBy(s, n));
    case Reap(now) => ReclaimKeeps(s, ExpiredAt(s, now));
    case Stop(b) => CancelKeeps(s, b);
  }

  lemma {:induction false} RunKeeps(s: Store, ops: seq<Op>)
    requires Inv(s) && LegalRun(s, ops)
    ensures Inv(Run(s, ops))
    decreases |ops|
  {
    if ops != [] {
      StepKeeps(s, ops[0]);
      RunKeeps(Step(s, ops[0]), ops[1..]);
    }
  }

  lemma EmptyInv()
    ensures Inv(EMPTY)
  {
  }

  /** In every reachable state the invariant holds. */
  lemma Reachable(ops: seq<Op>)
    requires LegalRun(EMPTY, ops)
    ensures Inv(Run(EMPTY, ops))
  {
    EmptyInv();
    RunKeeps(EMPTY, ops);
  }
}
