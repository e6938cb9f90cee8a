/**
 What each operation of the store does to the fields themselves, with none of the
 vocabulary that the operations are defined by.
 */
module Fields {
  import opened Sequences
  import opened Store
  import opened Invariant
  import opened Leasing
  import Recovery
  import Verdicts

  // ── Leasing ────────────────────────────────────────────────────────────

  /** Whom a lease goes to, what it does to them, and that it is for no one else. */
  lemma LeaseFields(s: Store, n: NodeId, count: int, model: string, now: real)
    ensures var g, t := Granted(s, count, model), Lease(s, n, count, model, now);
      && NoDup(g) && |g| <= (if count > 0 then count else 0)
      && t.batches == s.batches && t.order == s.order && t.units.Keys == s.units.Keys
      && (forall id :: id in g ==>
            && id in s.pending && id in s.units && s.units[id].state == PENDING
            && s.units[id].batch in s.batches && s.batches[s.units[id].batch].state != CANCELLED
            && (s.units[id].model == "" || model == "" || s.units[id].model == model)
            && t.units[id] == s.units[id].(state := LEASED, node := Some(n), attempts := s.units[id].attempts + 1,
                                           leasedAt := now, leaseExpiresAt := now + LEASE_DURATION_SEC))
      && (forall id :: id in s.units && id !in g ==> t.units[id] == s.units[id])
  {
    GrantedMembers(s, count, model);
    if count > 0 {
      GrantedAreFirst(s, count, model);
    } else {
      assert ReadTo(s, model, count, 0) == 0 && s.pending[..0] == [];
    }
    hide Granted, LeftQueued;
  }

  lemma GrantedOnce(s: Store, count: int, model: string)
    ensures var g := Granted(s, count, model);
      |g| <= (if count > 0 then count else 0) && forall i, j :: 0 <= i < j < |g| ==> g[i] != g[j]
  {
    hide Granted, Lease;
    LeaseFields(s, 0, count, model, 0.0);
  }

  /** When fewer come back than were asked for, everything was given away that could be. */
  lemma LeaseLeavesNone(s: Store, count: int, model: string, id: UnitId)
    requires |Granted(s, count, model)| < count
    requires id in s.pending && id in s.units && s.units[id].state == PENDING
    requires s.units[id].batch in s.batches && s.batches[s.units[id].batch].state != CANCELLED
    requires s.units[id].model == "" || model == "" || s.units[id].model == model
    ensures id in Granted(s, count, model)
  {
    GrantedAreFirst(s, count, model);
    EligiblesMembers(s, model, s.pending);
  }

  /** `x` stands in the queue in front of every entry of `y`. */
  ghost predicate Ahead(q: seq<UnitId>, x: UnitId, y: UnitId) {
    exists a :: 0 <= a < |q| && q[a] == x && y !in q[..a + 1]
  }

  lemma AheadSnoc(q: seq<UnitId>, z: UnitId, x: UnitId, y: UnitId)
    requires Ahead(q, x, y) || (x in q && y !in q)
    ensures Ahead(q + [z], x, y)
  {
    var a :| 0 <= a < |q| && q[a] == x && (Ahead(q, x, y) ==> y !in q[..a + 1]);
    assert (q + [z])[..a + 1] == q[..a + 1] && (q + [z])[a] == x;
  }

  ghost predicate InOrder(q: seq<UnitId>, e: seq<UnitId>) {
    forall i, j :: 0 <= i < j < |e| ==> Ahead(q, e[i], e[j])
  }

  lemma {:induction false} EligiblesInOrder(s: Store, model: string, q: seq<UnitId>)
    ensures InOrder(q, Eligibles(s, model, q))
  {
    if q != [] {
      var init, z := q[..|q| - 1], q[|q| - 1];
      EligiblesInOrder(s, model, init);
      EligiblesMembers(s, model, init);
      assert q == init + [z];
      var d, e := Eligibles(s, model, init), Eligibles(s, model, q);
      assert InOrder(init, d);
      hide Ahead;
      forall i, j | 0 <= i < j < |e| ensures Ahead(q, e[i], e[j]) {
        assert e[i] == d[i] && d[i] in d;
        if j == |d| { assert e == d + [z] && d[i] in init && z !in init; }
        AheadSnoc(init, z, e[i], e[j]);
      }
    }
  }

  /** First come, first served: who could be given and stands in front of one that was given was given too. */
  lemma FirstComeFirstServed(s: Store, count: nat, model: string, x: UnitId, y: UnitId)
    requires y in Granted(s, count, model) && Ahead(s.pending, x, y)
    requires x in s.units && s.units[x].state == PENDING
    requires s.units[x].batch in s.batches && s.batches[s.units[x].batch].state != CANCELLED
    requires s.units[x].model == "" || model == "" || s.units[x].model == model
    ensures x in Granted(s, count, model)
  {
    var e := Eligibles(s, model, s.pending);
    GrantedAreFirst(s, count, model);
    EligiblesMembers(s, model, s.pending);
    EligiblesInOrder(s, model, s.pending);
    assert x in e;
    NotBothAhead(s.pending, x, y);
    hide Eligibles, Granted, Eligible, Ahead;
    var i :| 0 <= i < |e| && e[i] == x;
    var j :| 0 <= j < |Granted(s, count, model)| && Granted(s, count, model)[j] == y;
    assert e[j] == y;
    assert i <= j;
    assert Granted(s, count, model)[i] == x;
  }

  lemma NotBothAhead(q: seq<UnitId>, x: UnitId, y: UnitId)
    requires Ahead(q, x, y)
    ensures !Ahead(q, y, x)
  {
    var a :| 0 <= a < |q| && q[a] == x && y !in q[..a + 1];
    assert forall b :: 0 <= b < |q[..a + 1]| ==> q[..a + 1][b] == q[b];
    assert forall b :: 0 <= b <= a ==> q[b] in q[..a + 1];
    forall b | a < b < |q| ensures q[b] == y ==> x in q[..b + 1] {
      assert q[..b + 1][a] == x;
    }
  }

  // ── Submission ─────────────────────────────────────────────────────────

  /** Each request is filed as a unit of its own at its own place, and waits. */
  lemma RequestFields(s: Store, sub: Submission, k: nat)
    requires sub.Legal(s) && k < |sub.ids|
    ensures var t := Create(s, sub); var id, r := sub.ids[k], sub.requests[k];
      && id in t.units && t.units[id].batch == sub.batch && t.units[id].index == k
      && t.units[id].messages == r.messages && t.units[id].maxTokens == r.maxTokens && t.units[id].temperature == r.temperature
      && t.units[id].model == (if r.model != "" then r.model else sub.model)
      && t.units[id].state == PENDING && t.units[id].attempts == 0 && t.units[id].node == None
      && t.units[id].createdAt == sub.now && t.units[id].leasedAt == 0.0 && t.units[id].leaseExpiresAt == 0.0
      && t.units[id].text == "" && t.units[id].error == "" && t.units[id].servedBy == ""
      && t.units[id].promptTokens == 0 && t.units[id].completionTokens == 0
  {
    var m := sub.ids + sub.canaryIds;
    CreatedUnits(s, sub);
    assert m[k] == sub.ids[k];
    hide WithUnits;
  }

  /** So is each canary, behind the requests: its prompt as one user message, to be answered without sampling. */
  lemma CanaryFields(s: Store, sub: Submission, k: nat)
    requires sub.Legal(s) && k < |sub.canaryIds|
    ensures var t := Create(s, sub); var id, c := sub.canaryIds[k], sub.canaries[k];
      && id in t.units && t.units[id].batch == sub.batch && t.units[id].index == |sub.ids| + k
      && t.units[id].messages == [Message("user", c.prompt)] && t.units[id].maxTokens == 256 && t.units[id].temperature == 0.0
      && t.units[id].model == (if c.model != "" then c.model else sub.model)
      && t.units[id].state == PENDING && t.units[id].attempts == 0 && t.units[id].node == None
      && t.units[id].createdAt == sub.now && t.units[id].leasedAt == 0.0 && t.units[id].leaseExpiresAt == 0.0
      && t.units[id].text == "" && t.units[id].error == "" && t.units[id].servedBy == ""
      && t.units[id].promptTokens == 0 && t.units[id].completionTokens == 0
  {
    var m := sub.ids + sub.canaryIds;
    CreatedUnits(s, sub);
    assert m[|sub.ids| + k] == sub.canaryIds[k];
    hide WithUnits;
  }

  /** The batch itself, what was there before, and the queue behind what was queued before. */
  lemma SubmissionFields(s: Store, sub: Submission)
    requires sub.Legal(s)
    ensures var t := Create(s, sub);
      && t.batches == s.batches[sub.batch := Batch.Batch(sub.model, sub.now, IN_PROGRESS, sub.ids, sub.canaryIds, None)]
      && t.order == s.order + sub.ids + sub.canaryIds
      && (forall id :: id in s.units ==> id in t.units && t.units[id] == s.units[id])
      && (forall id :: id in t.units <==> id in s.units || id in sub.ids || id in sub.canaryIds)
      && s.pending <= t.pending && |t.pending| == |s.pending| + |sub.ids| + |sub.canaryIds|
      && multiset(t.pending) == multiset(s.pending) + multiset(sub.ids) + multiset(sub.canaryIds)
  {
    CreatedUnits(s, sub);
    PlantedPermutes(sub.ids, sub.canaryIds);
    hide WithUnits, Planted;
  }

  // ── Verdicts ───────────────────────────────────────────────────────────

  /** A result for a unit without a verdict fills that unit in; any other result changes nothing. */
  lemma CompleteFields(s: Store, id: UnitId, n: NodeId, r: Result, now: real)
    ensures var t := Complete(s, id, n, r, now);
      if id in s.units && (s.units[id].state == PENDING || s.units[id].state == LEASED) then
        && t.units == s.units[id := s.units[id].(state := COMPLETE, text := r.text, promptTokens := r.promptTokens,
             completionTokens := r.completionTokens, node := Some(n), servedBy := r.servedBy, leaseExpiresAt := 0.0)]
        && t.pending == s.pending && t.order == s.order
      else t == s
  {
    hide Unfinished;
  }

  /** A failure report dead-letters a unit whose attempts are used up, and queues any other again, behind all the rest. */
  lemma FailFields(s: Store, id: UnitId, message: string, now: real)
    ensures var t := Fail(s, id, message, now);
      if id in s.units && (s.units[id].state == PENDING || s.units[id].state == LEASED) then
        && t.order == s.order
        && if s.units[id].attempts >= MAX_UNIT_ATTEMPTS then
             t.units == s.units[id := s.units[id].(state := FAILED, error := message)] && t.pending == s.pending
           else
             && t.units == s.units[id := s.units[id].(state := PENDING, error := message, node := None, leaseExpiresAt := 0.0)]
             && t.pending == s.pending + [id] && t.batches == s.batches
      else t == s
  {
    hide Unfinished;
  }

  /** What a verdict on a unit does to the batches: its own is completed when it was in progress and nothing of it is left. */
  ghost predicate Closed(s: Store, t: Store, b: BatchId, now: real) {
    var done := b in s.batches && s.batches[b].state == IN_PROGRESS
      && forall x :: x in s.batches[b].unitIds && x in t.units ==> t.units[x].state == COMPLETE || t.units[x].state == FAILED;
    t.batches == if done then s.batches[b := s.batches[b].(state := COMPLETED, completedAt := Some(now))] else s.batches
  }

  lemma VerdictCloses(s: Store, id: UnitId, n: NodeId, r: Result, message: string, now: real)
    requires id in s.units && (s.units[id].state == PENDING || s.units[id].state == LEASED)
    ensures Closed(s, Complete(s, id, n, r, now), s.units[id].batch, now)
    ensures s.units[id].attempts >= MAX_UNIT_ATTEMPTS ==> Closed(s, Fail(s, id, message, now), s.units[id].batch, now)
  {
    FinishCloses(s.(units := s.units[id := s.units[id].Finish(n, r)]), s.units[id].batch, now);
    FinishCloses(s.(units := s.units[id := s.units[id].Reject(message)]), s.units[id].batch, now);
    hide MaybeFinish;
  }

  lemma FinishCloses(s: Store, b: BatchId, now: real)
    ensures Closed(s, MaybeFinish(s, b, now), b, now)
    ensures MaybeFinish(s, b, now).units == s.units
  {
    if b in s.batches {
      if Unfinished(s, b) {
        var x :| x in s.batches[b].unitIds && x in s.units && s.units[x].Outstanding();
        assert !(s.units[x].state == COMPLETE || s.units[x].state == FAILED);
      } else {
        forall x | x in s.batches[b].unitIds && x in s.units ensures s.units[x].state == COMPLETE || s.units[x].state == FAILED {
          assert !s.units[x].Outstanding();
        }
      }
    }
    hide Unfinished;
  }

  // ── Reclaiming ─────────────────────────────────────────────────────────

  /** The events that may end or extend the lease of unit `id` before its time is over. */
  predicate Touches(s: Store, op: Op, id: UnitId, n: NodeId, end: real)
    requires id in s.units
  {
    match op
    case Deliver(unit, _, _, _) => unit == id
    case Refuse(unit, _, _, _) => unit == id
    case NodeLeft(m) => m == n
    case Reap(now) => now > end
    case Stop(b) => b == s.units[id].batch
    case _ => false
  }

  ghost predicate Untouched(s: Store, ops: seq<Op>, id: UnitId, n: NodeId, end: real)
    requires LegalRun(s, ops)
    decreases |ops|
  {
    ops == [] || (id in s.units && !Touches(s, ops[0], id, n, end) && Untouched(Step(s, ops[0]), ops[1..], id, n, end))
  }

  lemma StepLeavesLease(s: Store, op: Op, id: UnitId, n: NodeId, end: real)
    requires Inv(s) && Legal(s, op) && id in s.units && !Touches(s, op, id, n, end)
    requires s.units[id].state == LEASED && s.units[id].node == Some(n) && s.units[id].leaseExpiresAt == end
    ensures id in Step(s, op).units && Step(s, op).units[id] == s.units[id]
  {
    match op
    case Submit(sub) => CreatedUnits(s, sub);
    case Take(m, count, model, now) => GrantedMembers(s, count, model);
    case Deliver(unit, m, r, now) => CompleteFields(s, unit, m, r, now);
    case Refuse(unit, _, message, now) => FailFields(s, unit, message, now);
    case NodeLeft(m) => Recovery.DepartureReturnsItsLeases(s, m);
    case Reap(now) => Recovery.ReaperReturnsTheOverdue(s, now);
    case Stop(b) => if Cancellable(s, b) && id in Members(s.batches[b]) { OnlyOwn(s, b, id); }
  }

  lemma {:induction false} RunLeavesLease(s: Store, ops: seq<Op>, id: UnitId, n: NodeId, end: real)
    requires Inv(s) && LegalRun(s, ops) && Untouched(s, ops, id, n, end) && id in s.units
    requires s.units[id].state == LEASED && s.units[id].node == Some(n) && s.units[id].leaseExpiresAt == end
    ensures id in Run(s, ops).units && Run(s, ops).units[id] == s.units[id]
    decreases |ops|
  {
    hide Inv, Step, Touches;
    if ops != [] {
      StepLeavesLease(s, ops[0], id, n, end);
      StepKeeps(s, ops[0]);
      RunLeavesLease(Step(s, ops[0]), ops[1..], id, n, end);
    }
  }

  /**
   From grant to reaper: a unit taken at time `t` is left alone by every pass up to
   `t + LEASE_DURATION_SEC`, whatever else happens, and returned by every later one.
   */
  lemma LeaseRunsItsTime(s: Store, n: NodeId, count: int, model: string, t: real, taken: Store, ops: seq<Op>, later: Store,
                         id: UnitId, now: real)
    requires Inv(s) && id in Granted(s, count, model) && taken == Lease(s, n, count, model, t)
    requires LegalRun(taken, ops) && Untouched(taken, ops, id, n, t + LEASE_DURATION_SEC) && later == Run(taken, ops)
    ensures id in later.units && later.units[id].state == LEASED && later.units[id].node == Some(n)
    ensures id in Expire(later, now).units
    ensures now <= t + LEASE_DURATION_SEC ==> Expire(later, now).units[id] == later.units[id] && id !in ExpiredAt(later, now)
    ensures now > t + LEASE_DURATION_SEC ==>
      Expire(later, now).units[id] == later.units[id].(state := PENDING, node := None, leaseExpiresAt := 0.0)
      && id in ExpiredAt(later, now)
  {
    hide Inv, Lease, Granted, Run, LegalRun, Untouched, Expire, ExpiredAt;
    LeaseKeeps(s, n, count, model, t);
    LeaseFields(s, n, count, model, t);
    RunningLease(taken, n, t + LEASE_DURATION_SEC, ops, later, id, now);
  }

  lemma RunningLease(s: Store, n: NodeId, end: real, ops: seq<Op>, later: Store, id: UnitId, now: real)
    requires Inv(s) && LegalRun(s, ops) && Untouched(s, ops, id, n, end) && later == Run(s, ops)
    requires id in s.units && s.units[id].state == LEASED && s.units[id].node == Some(n) && s.units[id].leaseExpiresAt == end
    ensures id in later.units && later.units[id] == s.units[id] && id in Expire(later, now).units
    ensures now <= end ==> Expire(later, now).units[id] == later.units[id] && id !in ExpiredAt(later, now)
    ensures now > end ==>
      Expire(later, now).units[id] == later.units[id].(state := PENDING, node := None, leaseExpiresAt := 0.0)
      && id in ExpiredAt(later, now)
  {
    hide Inv, Run, LegalRun, Untouched, Expire, ExpiredAt;
    RunLeavesLease(s, ops, id, n, end);
    RunKeeps(s, ops);
    ReapOne(later, id, now);
  }

  lemma ReapOne(s: Store, id: UnitId, now: real)
    requires Inv(s) && id in s.units && s.units[id].state == LEASED
    ensures id in Expire(s, now).units
    ensures now <= s.units[id].leaseExpiresAt ==> Expire(s, now).units[id] == s.units[id] && id !in ExpiredAt(s, now)
    ensures now > s.units[id].leaseExpiresAt ==>
      Expire(s, now).units[id] == s.units[id].(state := PENDING, node := None, leaseExpiresAt := 0.0) && id in ExpiredAt(s, now)
  {
    assert Ordered(s);
    hide Inv, Expire, ExpiredAt;
    Recovery.ReaperReturnsTheOverdue(s, now);
  }

  // ── Cancelling ─────────────────────────────────────────────────────────

  /** A batch in progress is cancelled with everything of it that has no verdict; any other is left alone. */
  lemma CancelFields(s: Store, b: BatchId)
    ensures var t := Cancel(s, b);
      if b in s.batches && s.batches[b].state == IN_PROGRESS then
        && t.batches == s.batches[b := s.batches[b].(state := CANCELLED)] && t.pending == s.pending && t.order == s.order
        && t.units.Keys == s.units.Keys
        && (forall id :: id in s.units ==>
              var hit := (id in s.batches[b].unitIds || id in s.batches[b].canaryIds)
                && (s.units[id].state == PENDING || s.units[id].state == LEASED);
              t.units[id] == if hit then s.units[id].(state := FAILED, error := "batch cancelled") else s.units[id])
      else t == s
  {
  }

  // ── Readings ───────────────────────────────────────────────────────────

  /** The client's lines: an answer where there is one, and otherwise how far the unit has come and why. */
  lemma ResultFields(s: Store, b: BatchId, i: nat)
    requires Inv(s) && b in s.batches && i < |s.batches[b].unitIds|
    ensures |ResultsOf(s, b)| == |s.batches[b].unitIds|
    ensures var id := s.batches[b].unitIds[i]; id in s.units
    ensures var id := s.batches[b].unitIds[i]; var u := s.units[id];
      ResultsOf(s, b)[i] ==
        if u.state == COMPLETE then
          Response(i, id, u.attempts, u.text, u.promptTokens, u.completionTokens, if u.servedBy != "" then u.servedBy else u.model)
        else
          NoResponse(i, id, u.state, u.attempts, if u.error != "" then u.error else "unknown error")
  {
    Verdicts.InOrder(s, b);
    hide Inv, ResultsOf;
    Verdicts.ReadAt(s, b, i);
  }

  /** The counts are those of the places on the client's list with a unit in that state. */
  lemma CountFields(s: Store, b: BatchId)
    requires b in s.batches
    ensures CountsOf(s, b).Some?
    ensures var ids, c := s.batches[b].unitIds, CountsOf(s, b).value;
      && c.total == |ids|
      && c.completed == |set k | 0 <= k < |ids| && ids[k] in s.units && s.units[ids[k]].state == COMPLETE|
      && c.failed == |set k | 0 <= k < |ids| && ids[k] in s.units && s.units[ids[k]].state == FAILED|
      && c.inFlight == |set k | 0 <= k < |ids| && ids[k] in s.units && s.units[ids[k]].state == LEASED|
      && c.pending == |set k | 0 <= k < |ids| && ids[k] in s.units && s.units[ids[k]].state == PENDING|
  {
    var ids := s.batches[b].unitIds;
    CountsIn(s, ids, COMPLETE);
    CountsIn(s, ids, FAILED);
    CountsIn(s, ids, LEASED);
    CountsIn(s, ids, PENDING);
  }

  lemma CountsIn(s: Store, ids: seq<UnitId>, st: UnitState)
    ensures InState(s, ids, st) == |set k | 0 <= k < |ids| && ids[k] in s.units && s.units[ids[k]].state == st|
  {
    FilterCountsPlaces(ids, IsIn(s, st));
    assert Places(ids, IsIn(s, st)) == set k | 0 <= k < |ids| && ids[k] in s.units && s.units[ids[k]].state == st;
  }

  /** Usage is summed over the answered units on the client's list, and over no other. */
  lemma UsageFields(s: Store, b: BatchId)
    requires b in s.batches
    ensures UsageOf(s, b).Some?
    ensures var ids, u := s.batches[b].unitIds, UsageOf(s, b).value;
      && u.promptTokens ==
           Sum(ids, (id: UnitId) => if id in s.units && s.units[id].state == COMPLETE then s.units[id].promptTokens else 0)
      && u.completionTokens ==
           Sum(ids, (id: UnitId) => if id in s.units && s.units[id].state == COMPLETE then s.units[id].completionTokens else 0)
      && u.totalTokens == u.promptTokens + u.completionTokens
  {
    var ids := s.batches[b].unitIds;
    SumSame(ids, PromptTokensIn(s),
            (id: UnitId) => if id in s.units && s.units[id].state == COMPLETE then s.units[id].promptTokens else 0);
    SumSame(ids, CompletionTokensIn(s),
            (id: UnitId) => if id in s.units && s.units[id].state == COMPLETE then s.units[id].completionTokens else 0);
  }

  /** A counted result adds its tokens to its batch's usage, prompt to prompt and completion to completion. */
  lemma UsageGrows(s: Store, id: UnitId, n: NodeId, r: Result, now: real, b: BatchId)
    requires Inv(s) && b in s.batches && id in s.batches[b].unitIds
    requires id in s.units && (s.units[id].state == PENDING || s.units[id].state == LEASED)
    ensures var t := Complete(s, id, n, r, now);
      && UsageOf(s, b).Some? && UsageOf(t, b).Some?
      && UsageOf(t, b).value.promptTokens == UsageOf(s, b).value.promptTokens + r.promptTokens
      && UsageOf(t, b).value.completionTokens == UsageOf(s, b).value.completionTokens + r.completionTokens
      && UsageOf(t, b).value.totalTokens == UsageOf(s, b).value.totalTokens + r.promptTokens + r.completionTokens
  {
    var t, ids := Complete(s, id, n, r, now), s.batches[b].unitIds;
    AfterResult(s, id, n, r, now, b);
    hide Inv, Complete;
    UsageAfter(s, t, ids, id, r);
  }

  /** What a counted result leaves of a batch's list and of the units on it. */
  lemma AfterResult(s: Store, id: UnitId, n: NodeId, r: Result, now: real, b: BatchId)
    requires Inv(s) && b in s.batches && id in s.batches[b].unitIds
    requires id in s.units && (s.units[id].state == PENDING || s.units[id].state == LEASED)
    ensures var t := Complete(s, id, n, r, now);
      && b in t.batches && t.batches[b].unitIds == s.batches[b].unitIds && NoDup(s.batches[b].unitIds)
      && id in t.units && t.units == s.units[id := t.units[id]]
      && t.units[id].state == COMPLETE
      && t.units[id].promptTokens == r.promptTokens && t.units[id].completionTokens == r.completionTokens
  {
    ClientListed(s, b);
    CompleteFields(s, id, n, r, now);
    VerdictCloses(s, id, n, r, "", now);
    hide Inv, Complete;
  }

  lemma UsageAfter(s: Store, t: Store, ids: seq<UnitId>, id: UnitId, r: Result)
    requires NoDup(ids) && id in ids && id in s.units && id in t.units && t.units == s.units[id := t.units[id]]
    requires s.units[id].state != COMPLETE && t.units[id].state == COMPLETE
    requires t.units[id].promptTokens == r.promptTokens && t.units[id].completionTokens == r.completionTokens
    ensures Sum(ids, PromptTokensIn(t)) == Sum(ids, PromptTokensIn(s)) + r.promptTokens
    ensures Sum(ids, CompletionTokensIn(t)) == Sum(ids, CompletionTokensIn(s)) + r.completionTokens
  {
    hide Sum;
    SumOneChange(ids, id, PromptTokensIn(t), PromptTokensIn(s));
    SumOneChange(ids, id, CompletionTokensIn(t), CompletionTokensIn(s));
  }

  /** And moves one unit of it to the completed ones, from where it was. */
  lemma CountsMove(s: Store, id: UnitId, n: NodeId, r: Result, now: real, b: BatchId)
    requires Inv(s) && b in s.batches && id in s.batches[b].unitIds
    requires id in s.units && (s.units[id].state == PENDING || s.units[id].state == LEASED)
    ensures CountsOf(s, b).Some? && CountsOf(Complete(s, id, n, r, now), b).Some?
    ensures var c, d, was := CountsOf(s, b).value, CountsOf(Complete(s, id, n, r, now), b).value, s.units[id].state;
      && d.total == c.total && d.completed == c.completed + 1 && d.failed == c.failed
      && d.inFlight == c.inFlight - One(was == LEASED) && d.pending == c.pending - One(was == PENDING)
  {
    var t, ids := Complete(s, id, n, r, now), s.batches[b].unitIds;
    AfterResult(s, id, n, r, now, b);
    hide Inv, Complete, InState;
    OneMoved(s, t, ids, id, COMPLETE);
    OneMoved(s, t, ids, id, FAILED);
    OneMoved(s, t, ids, id, LEASED);
    OneMoved(s, t, ids, id, PENDING);
  }

  function OneIf(p: UnitId -> bool): UnitId -> int { (id: UnitId) => One(p(id)) }

  lemma OneMoved(s: Store, t: Store, ids: seq<UnitId>, id: UnitId, st: UnitState)
    requires NoDup(ids) && id in ids && id in s.units && id in t.units && t.units == s.units[id := t.units[id]]
    ensures InState(t, ids, st) == InState(s, ids, st) + One(t.units[id].state == st) - One(s.units[id].state == st)
  {
    hide Sum, Filter;
    SumIsCount(ids, IsIn(s, st), OneIf(IsIn(s, st)));
    SumIsCount(ids, IsIn(t, st), OneIf(IsIn(t, st)));
    SumOneChange(ids, id, OneIf(IsIn(t, st)), OneIf(IsIn(s, st)));
  }

  lemma ClientListed(s: Store, b: BatchId)
    requires Inv(s) && b in s.batches
    ensures NoDup(s.batches[b].unitIds)
  {
    var m := Members(s.batches[b]);
    assert ListedIn(s, b);
    forall i, j | 0 <= i < j < |s.batches[b].unitIds| ensures s.batches[b].unitIds[i] != s.batches[b].unitIds[j] {
      assert m[i] != m[j];
    }
  }
}
