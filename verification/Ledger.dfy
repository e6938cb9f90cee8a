/** Where the leases went: the counters account for every grant of every run. */
module Ledger {
  import opened Sequences
  import opened Store
  import opened Invariant
  import C = Counters

  // ── The counters, driven by the store ──────────────────────────────────

  /** How long a unit waited, and how long its node then took. A unit never leased has neither. */
  function QueueSec(u: Unit): real {
    if u.leasedAt != 0.0 then C.NonNegative(u.leasedAt - u.createdAt) else 0.0
  }

  function ServiceSec(u: Unit, now: real): real {
    if u.leasedAt != 0.0 then C.NonNegative(now - u.leasedAt) else 0.0
  }

  function Retries(u: Unit): nat { if u.attempts > 0 then u.attempts - 1 else 0 }

  /** The batch that this verdict closes, if it closes one. */
  predicate Closes(s: Store, id: UnitId, u: Unit) {
    id in s.units && Finishes(s.(units := s.units[id := u]), u.batch)
  }

  function CountFinish(c: C.Counters, closes: bool): C.Counters {
    c.(batchesCompleted := c.batchesCompleted + (if closes then 1 else 0))
  }

  function CountComplete(c: C.Counters, s: Store, id: UnitId, n: NodeId, result: Result, now: real): C.Counters {
    if !Undecided(s, id) then c else
      var u := s.units[id];
      C.UnitCompleted(CountFinish(c, Closes(s, id, u.Finish(n, result))), QueueSec(u), ServiceSec(u, now), Retries(u))
  }

  function CountFail(c: C.Counters, s: Store, id: UnitId, message: string): C.Counters {
    if !Undecided(s, id) then c else
      var u := s.units[id].Reject(message);
      CountFinish(c, u.state == FAILED && Closes(s, id, u))
  }

  function Count(c: C.Counters, s: Store, op: Op): C.Counters {
    match op
    case Submit(_) => c.(batchesCreated := c.batchesCreated + 1)
    case Take(_, _, _, _) => c
    case Deliver(id, n, result, now) => CountComplete(c, s, id, n, result, now)
    case Refuse(id, _, message, _) => CountFail(c, s, id, message)
    case NodeLeft(n) => C.LeasesReturned(c, |HeldBy(s, n)|)
    case Reap(now) => C.LeasesReturned(c, |ExpiredAt(s, now)|)
    case Stop(_) => c
  }

  ghost function CountRun(c: C.Counters, s: Store, ops: seq<Op>): C.Counters
    requires LegalRun(s, ops)
    decreases |ops|
  {
    if ops == [] then c else CountRun(Count(c, s, ops[0]), Step(s, ops[0]), ops[1..])
  }

  // ── What one step does to one unit's lease ─────────────────────────────

  /** A lease ended by a verdict or a cancellation. */
  predicate Ends(s: Store, op: Op, id: UnitId) {
    && id in s.units && s.units[id].state == LEASED
    && match op
       case Deliver(unit, _, _, _) => unit == id
       case Refuse(unit, _, _, _) => unit == id
       case Stop(b) => Cancellable(s, b) && id in Members(s.batches[b])
       case _ => false
  }

  /** A lease taken back because its node left or its time ran out. */
  predicate Reclaims(s: Store, op: Op, id: UnitId) {
    && id in s.units
    && match op
       case NodeLeft(n) => s.units[id].LeasedTo(n)
       case Reap(now) => s.units[id].ExpiredAt(now)
       case _ => false
  }

  function Attempts(s: Store, id: UnitId): nat { if id in s.units then s.units[id].attempts else 0 }

  /** Grants of a unit that are no longer running. */
  function Spent(s: Store, id: UnitId): int {
    if id in s.units then s.units[id].attempts - One(s.units[id].Leased()) else 0
  }

  lemma StepSpends(s: Store, op: Op, id: UnitId)
    requires Ordered(s) && Legal(s, op) && id in s.units
    ensures id in Step(s, op).units
    ensures Spent(Step(s, op), id) == Spent(s, id) + One(Ends(s, op, id)) + One(Reclaims(s, op, id))
  {
    match op
    case Submit(sub) => CreatedUnits(s, sub);
    case Take(n, count, model, now) => GrantedMembers(s, count, model);
    case Deliver(_, _, _, _) =>
    case Refuse(_, _, _, _) =>
    case NodeLeft(n) =>
    case Reap(now) =>
    case Stop(b) =>
  }

  // ── Conservation over a run ────────────────────────────────────────────

  function SpentIn(s: Store): UnitId -> int { (id: UnitId) => Spent(s, id) }
  function AttemptsIn(s: Store): UnitId -> int { (id: UnitId) => Attempts(s, id) }
  function LeasedIn(s: Store): UnitId -> int { (id: UnitId) => One(id in s.units && s.units[id].Leased()) }
  function EndsAt(s: Store, op: Op): UnitId -> int { (id: UnitId) => One(Ends(s, op, id)) }
  function ReclaimsAt(s: Store, op: Op): UnitId -> int { (id: UnitId) => One(Reclaims(s, op, id)) }
  function SpentOrEnded(s: Store, op: Op): UnitId -> int { (id: UnitId) => Spent(s, id) + One(Ends(s, op, id)) }

  function SpentAll(s: Store): int { Sum(s.order, SpentIn(s)) }
  function AttemptsAll(s: Store): int { Sum(s.order, AttemptsIn(s)) }
  function LeasedAll(s: Store): int { Sum(s.order, LeasedIn(s)) }
  function EndedBy(s: Store, op: Op): int { Sum(s.order, EndsAt(s, op)) }
  function ReclaimedBy(s: Store, op: Op): int { Sum(s.order, ReclaimsAt(s, op)) }

  /** The leases that verdicts and cancellations ended over a run. */
  ghost function Ended(s: Store, ops: seq<Op>): int
    requires LegalRun(s, ops)
    decreases |ops|
  {
    if ops == [] then 0 else EndedBy(s, ops[0]) + Ended(Step(s, ops[0]), ops[1..])
  }

  /** A step adds only new, unspent units at the end of the dictionary. */
  lemma StepOrder(s: Store, op: Op) returns (added: seq<UnitId>)
    requires Legal(s, op)
    ensures Step(s, op).order == s.order + added
    ensures forall id :: id in added ==> id in Step(s, op).units && Step(s, op).units[id].attempts == 0
                                         && Step(s, op).units[id].state == PENDING
    ensures forall id :: id in added ==> id !in s.units
  {
    added := [];
    if op.Submit? {
      added := op.sub.ids + op.sub.canaryIds;
      CreatedUnits(s, op.sub);
      assert Step(s, op).order == s.order + added;
    } else {
      assert Step(s, op).order == s.order + [];
    }
  }

  lemma StepSpendsAll(s: Store, op: Op)
    requires Inv(s) && Legal(s, op)
    ensures SpentAll(Step(s, op)) == SpentAll(s) + EndedBy(s, op) + ReclaimedBy(s, op)
  {
    var t := Step(s, op);
    var added := StepOrder(s, op);
    SumAppend(s.order, added, SpentIn(t));
    SumConst(added, SpentIn(t), 0);
    forall id | id in s.order ensures Spent(t, id) == Spent(s, id) + One(Ends(s, op, id)) + One(Reclaims(s, op, id)) {
      StepSpends(s, op, id);
    }
    SumAdds(s.order, SpentIn(t), SpentOrEnded(s, op), ReclaimsAt(s, op));
    SumAdds(s.order, SpentOrEnded(s, op), SpentIn(s), EndsAt(s, op));
  }

  /** The counter goes up by exactly the leases taken back. */
  lemma StepCountsReclaims(c: C.Counters, s: Store, op: Op)
    requires Inv(s) && Legal(s, op)
    ensures Count(c, s, op).leasesReclaimed == c.leasesReclaimed + ReclaimedBy(s, op)
  {
    match op
    case NodeLeft(n) =>
      SumIsCount(s.order, IsHeldBy(s, n), ReclaimsAt(s, op));
    case Reap(now) =>
      SumIsCount(s.order, IsExpiredAt(s, now), ReclaimsAt(s, op));
    case _ =>
      SumConst(s.order, ReclaimsAt(s, op), 0);
  }

  /** Every grant is running, was reclaimed, or was ended by a verdict or a cancellation. */
  lemma {:induction false} LeasesAreConserved(c: C.Counters, s: Store, ops: seq<Op>)
    requires Inv(s) && LegalRun(s, ops)
    ensures SpentAll(Run(s, ops)) - SpentAll(s)
            == CountRun(c, s, ops).leasesReclaimed - c.leasesReclaimed + Ended(s, ops)
    decreases |ops|
  {
    if ops != [] {
      StepKeeps(s, ops[0]);
      StepSpendsAll(s, ops[0]);
      StepCountsReclaims(c, s, ops[0]);
      LeasesAreConserved(Count(c, s, ops[0]), Step(s, ops[0]), ops[1..]);
    }
  }

  lemma AttemptsSplit(s: Store)
    ensures AttemptsAll(s) == LeasedAll(s) + SpentAll(s)
  {
    SumAdds(s.order, AttemptsIn(s), LeasedIn(s), SpentIn(s));
  }

  /** From an empty store: attempts made == units leased now + leases reclaimed + leases ended. */
  lemma EveryGrantIsAccountedFor(ops: seq<Op>)
    requires LegalRun(EMPTY, ops)
    ensures var s := Run(EMPTY, ops);
      AttemptsAll(s) == LeasedAll(s) + CountRun(C.ZERO, EMPTY, ops).leasesReclaimed + Ended(EMPTY, ops)
  {
    LeasesAreConserved(C.ZERO, EMPTY, ops);
    AttemptsSplit(Run(EMPTY, ops));
  }

  // ── The retry bound ────────────────────────────────────────────────────

  /** How often a unit's lease was taken back over a run. */
  ghost function Losses(s: Store, ops: seq<Op>, id: UnitId): nat
    requires LegalRun(s, ops)
    decreases |ops|
  {
    if ops == [] then 0 else One(Reclaims(s, ops[0], id)) + Losses(Step(s, ops[0]), ops[1..], id)
  }

  ghost function LossesIn(s: Store, ops: seq<Op>): UnitId -> int
    requires LegalRun(s, ops)
  {
    (id: UnitId) => Losses(s, ops, id)
  }

  /** The most a unit may be granted in a run. */
  ghost function BudgetIn(ops: seq<Op>): UnitId -> int
    requires LegalRun(EMPTY, ops)
  {
    (id: UnitId) => MAX_UNIT_ATTEMPTS + Losses(EMPTY, ops, id)
  }

  /** A waiting unit can still be granted within its budget. */
  predicate Within(s: Store, id: UnitId, losses: nat) {
    id in s.units ==> s.units[id].attempts + One(s.units[id].state == PENDING) <= MAX_UNIT_ATTEMPTS + losses
  }

  lemma StepWithin(s: Store, op: Op, id: UnitId, losses: nat)
    requires Ordered(s) && Legal(s, op) && Within(s, id, losses)
    ensures Within(Step(s, op), id, losses + One(Reclaims(s, op, id)))
  {
    match op
    case Submit(sub) =>
      CreatedUnits(s, sub);
      if id !in s.units && id in sub.ids + sub.canaryIds {
        var m := sub.ids + sub.canaryIds;
        var k :| 0 <= k < |m| && m[k] == id;
        assert Step(s, op).units[id] == sub.UnitAt(k);
      }
    case Take(n, count, model, now) => GrantedMembers(s, count, model);
    case Deliver(_, _, _, _) =>
    case Refuse(_, _, _, _) =>
    case NodeLeft(n) =>
    case Reap(now) =>
    case Stop(b) =>
  }

  lemma {:induction false} RunWithin(s: Store, ops: seq<Op>, id: UnitId, losses: nat)
    requires Inv(s) && LegalRun(s, ops) && Within(s, id, losses)
    ensures Within(Run(s, ops), id, losses + Losses(s, ops, id))
    decreases |ops|
  {
    if ops != [] {
      StepKeeps(s, ops[0]);
      StepWithin(s, ops[0], id, losses);
      RunWithin(Step(s, ops[0]), ops[1..], id, losses + One(Reclaims(s, ops[0], id)));
    }
  }

  /** No unit is granted more often than the limit plus the times it was taken back. */
  lemma AttemptsBounded(ops: seq<Op>, id: UnitId)
    requires LegalRun(EMPTY, ops) && id in Run(EMPTY, ops).units
    ensures Run(EMPTY, ops).units[id].attempts <= MAX_UNIT_ATTEMPTS + Losses(EMPTY, ops, id)
  {
    RunWithin(EMPTY, ops, id, 0);
  }

  /** A lease is taken back of a unit that has used up its attempts already. */
  predicate Overdraws(s: Store, op: Op, id: UnitId) {
    Reclaims(s, op, id) && s.units[id].attempts >= MAX_UNIT_ATTEMPTS
  }

  /** One step leaves a unit within its limit if and only if it does not put it back in the queue with no attempt left. */
  lemma StepStaysWithin(s: Store, op: Op, id: UnitId)
    requires Inv(s) && Legal(s, op) && Within(s, id, 0)
    ensures Within(Step(s, op), id, 0) <==> !Overdraws(s, op, id)
  {
    if Overdraws(s, op, id) {
      ReclaimedWaits(s, op, id);
    } else if Reclaims(s, op, id) {
      ReclaimedWaits(s, op, id);
    } else {
      StepWithin(s, op, id, 0);
    }
  }

  lemma ReclaimedWaits(s: Store, op: Op, id: UnitId)
    requires Inv(s) && Legal(s, op) && Reclaims(s, op, id)
    ensures id in Step(s, op).units && Step(s, op).units[id] == s.units[id].Requeue()
  {
    if op.NodeLeft? { assert id in HeldBy(s, op.node); } else { assert id in ExpiredAt(s, op.now); }
  }

  ghost predicate NeverOverdraws(s: Store, ops: seq<Op>, id: UnitId)
    requires LegalRun(s, ops)
    decreases |ops|
  {
    ops == [] || (!Overdraws(s, ops[0], id) && NeverOverdraws(Step(s, ops[0]), ops[1..], id))
  }

  ghost predicate AlwaysWithin(s: Store, ops: seq<Op>, id: UnitId)
    requires LegalRun(s, ops)
    decreases |ops|
  {
    Within(s, id, 0) && (ops == [] || AlwaysWithin(Step(s, ops[0]), ops[1..], id))
  }

  /**
   Exactly when the limit on attempts holds: a unit keeps within it, in every state of
   a run, if and only if no departure and no reaper ever takes it back at its limit.
   */
  lemma {:induction false} LimitHoldsExactly(s: Store, ops: seq<Op>, id: UnitId)
    requires Inv(s) && LegalRun(s, ops) && Within(s, id, 0)
    ensures AlwaysWithin(s, ops, id) <==> NeverOverdraws(s, ops, id)
    decreases |ops|
  {
    if ops != [] {
      var t := Step(s, ops[0]);
      StepStaysWithin(s, ops[0], id);
      StepKeeps(s, ops[0]);
      hide Inv, Step, Overdraws;
      if Within(t, id, 0) { LimitHoldsExactly(t, ops[1..], id); }
    }
  }

  /** The first lease that breaks the limit was granted to a unit that came back at its limit. */
  lemma {:induction false} OnlyTheOverdrawnExceed(s: Store, ops: seq<Op>, id: UnitId)
    requires Inv(s) && LegalRun(s, ops) && Within(s, id, 0)
    ensures Attempts(Run(s, ops), id) > MAX_UNIT_ATTEMPTS ==> !NeverOverdraws(s, ops, id)
    decreases |ops|
  {
    if ops != [] {
      StepStaysWithin(s, ops[0], id);
      StepKeeps(s, ops[0]);
      hide Inv, Step, Overdraws;
      if Within(Step(s, ops[0]), id, 0) { OnlyTheOverdrawnExceed(Step(s, ops[0]), ops[1..], id); }
    }
  }

  /** The losses of all units add up to the counter. */
  lemma {:induction false} LossesAddUp(c: C.Counters, s: Store, ops: seq<Op>, all: seq<UnitId>)
    requires Inv(s) && LegalRun(s, ops) && Covers(all, s) && Run(s, ops).order == all
    ensures Sum(all, LossesIn(s, ops)) == CountRun(c, s, ops).leasesReclaimed - c.leasesReclaimed
    decreases |ops|
  {
    hide Sum, Inv, Step, Count;
    if ops == [] {
      SumConst(all, LossesIn(s, ops), 0);
    } else {
      var t := Step(s, ops[0]);
      StepKeeps(s, ops[0]);
      StepCountsReclaims(c, s, ops[0]);
      RunOrder(t, ops[1..]);
      LossesAddUp(Count(c, s, ops[0]), t, ops[1..], all);
      SumAdds(all, LossesIn(s, ops), ReclaimsAt(s, ops[0]), LossesIn(t, ops[1..]));
      var k := |s.order|;
      SumAppend(all[..k], all[k..], ReclaimsAt(s, ops[0]));
      assert all == all[..k] + all[k..] && all[..k] == s.order;
      SumConst(all[k..], ReclaimsAt(s, ops[0]), 0);
    }
  }

  /** `all` lists the units of `s` first and only later ones after. */
  ghost predicate Covers(all: seq<UnitId>, s: Store) {
    s.order <= all && forall id :: id in all[|s.order|..] ==> id !in s.units
  }

  lemma {:induction false} RunOrder(s: Store, ops: seq<Op>)
    requires Inv(s) && LegalRun(s, ops)
    ensures Covers(Run(s, ops).order, s)
    decreases |ops|
  {
    RunKeeps(s, ops);
    var t := Run(s, ops);
    if ops != [] {
      StepKeeps(s, ops[0]);
      var added := StepOrder(s, ops[0]);
      RunOrder(Step(s, ops[0]), ops[1..]);
    }
    assert Ordered(s) && Ordered(t) && s.order <= t.order;
    hide Inv, Run, LegalRun, Step;
    forall i | |s.order| <= i < |t.order| ensures t.order[i] !in s.units {
      assert forall j :: 0 <= j < |s.order| ==> s.order[j] == t.order[j] != t.order[i];
    }
  }

  /** So a whole run grants at most the limit for each unit, plus what was reclaimed. */
  lemma TotalGrantsBounded(ops: seq<Op>)
    requires LegalRun(EMPTY, ops)
    ensures AttemptsAll(Run(EMPTY, ops))
            <= MAX_UNIT_ATTEMPTS * |Run(EMPTY, ops).order| + CountRun(C.ZERO, EMPTY, ops).leasesReclaimed
  {
    var s := Run(EMPTY, ops);
    Reachable(ops);
    forall id | id in s.order ensures Attempts(s, id) <= MAX_UNIT_ATTEMPTS + Losses(EMPTY, ops, id) {
      AttemptsBounded(ops, id);
    }
    SumAtMost(s.order, AttemptsIn(s), BudgetIn(ops));
    SumAdds(s.order, BudgetIn(ops), id => MAX_UNIT_ATTEMPTS, LossesIn(EMPTY, ops));
    SumConst(s.order, id => MAX_UNIT_ATTEMPTS, MAX_UNIT_ATTEMPTS);
    RunOrder(EMPTY, ops);
    LossesAddUp(C.ZERO, EMPTY, ops, s.order);
  }

  // ── Retries and finished batches ───────────────────────────────────────

  function RetriesOf(s: Store, id: UnitId): nat {
    if id in s.units && s.units[id].state == COMPLETE then Retries(s.units[id]) else 0
  }

  function RetriesIn(s: Store): UnitId -> int { (id: UnitId) => RetriesOf(s, id) }

  function RetriesAll(s: Store): int { Sum(s.order, RetriesIn(s)) }

  function Done(s: Store): set<BatchId> {
    set b | b in s.batches && s.batches[b].state == COMPLETED
  }

  /** The counters of finished work say what the store holds. */
  ghost predicate Tallied(c: C.Counters, s: Store) {
    c.unitRetries == RetriesAll(s) && c.batchesCompleted == |Done(s)| && c.batchesCreated == |s.batches|
  }

  lemma StepRetries(c: C.Counters, s: Store, op: Op)
    requires Inv(s) && Legal(s, op) && c.unitRetries == RetriesAll(s)
    ensures Count(c, s, op).unitRetries == RetriesAll(Step(s, op))
  {
    var t := Step(s, op);
    var added := StepOrder(s, op);
    SumAppend(s.order, added, RetriesIn(t));
    SumConst(added, RetriesIn(t), 0);
    if op.Deliver? && Undecided(s, op.unit) {
      AnswerRetries(s, op);
    } else {
      forall id | id in s.order ensures RetriesOf(t, id) == RetriesOf(s, id) {
        StepKeepsAnswers(s, op, id);
      }
      SumSame(s.order, RetriesIn(t), RetriesIn(s));
    }
  }

  lemma AnswerRetries(s: Store, op: Op)
    requires Ordered(s) && op.Deliver? && Undecided(s, op.unit)
    ensures RetriesAll(Step(s, op)) == RetriesAll(s) + Retries(s.units[op.unit])
  {
    var t := Step(s, op);
    SumOneChange(s.order, op.unit, RetriesIn(t), RetriesIn(s));
  }

  lemma StepKeepsAnswers(s: Store, op: Op, id: UnitId)
    requires Ordered(s) && Legal(s, op) && id in s.units && !(op.Deliver? && Undecided(s, op.unit))
    ensures id in Step(s, op).units
    ensures RetriesOf(Step(s, op), id) == RetriesOf(s, id)
  {
    match op
    case Submit(sub) => CreatedUnits(s, sub);
    case Take(n, count, model, now) => GrantedMembers(s, count, model);
    case _ =>
  }

  lemma FinishTallies(s: Store, b: BatchId, now: real)
    ensures |Done(MaybeFinish(s, b, now))| == |Done(s)| + One(Finishes(s, b))
    ensures MaybeFinish(s, b, now).batches.Keys == s.batches.Keys
  {
    if Finishes(s, b) {
      assert Done(MaybeFinish(s, b, now)) == Done(s) + {b};
    }
  }

  lemma SubmitTallies(s: Store, sub: Submission)
    requires sub.Legal(s)
    ensures Done(Create(s, sub)) == Done(s) && |Create(s, sub).batches| == |s.batches| + 1
  {
    var after := Create(s, sub).batches;
    assert after == s.batches[sub.batch := sub.NewBatch()];
    hide Create, Submission.Legal;
    assert after.Keys == s.batches.Keys + {sub.batch};
    assert |after| == |after.Keys| && |s.batches| == |s.batches.Keys|;
  }

  lemma StopTallies(s: Store, b: BatchId)
    ensures Done(Cancel(s, b)) == Done(s) && |Cancel(s, b).batches| == |s.batches|
  {
    hide AbandonAll;
    var after := Cancel(s, b).batches;
    SameKeysSameSize(s.batches, after);
    forall c ensures c in Done(Cancel(s, b)) <==> c in Done(s) {}
  }

  /** Only a verdict finishes a batch. */
  lemma OthersFinishNone(s: Store, op: Op)
    requires Legal(s, op) && !op.Deliver? && !op.Refuse?
    ensures Done(Step(s, op)) == Done(s) && |Step(s, op).batches| == |s.batches| + One(op.Submit?)
  {
    hide Create, Cancel;
    match op
    case Submit(sub) => SubmitTallies(s, sub);
    case Stop(b) => StopTallies(s, b);
    case _ =>
  }

  lemma StepBatches(c: C.Counters, s: Store, op: Op)
    requires Legal(s, op) && c.batchesCompleted == |Done(s)| && c.batchesCreated == |s.batches|
    ensures Count(c, s, op).batchesCompleted == |Done(Step(s, op))|
    ensures Count(c, s, op).batchesCreated == |Step(s, op).batches|
  {
    hide MaybeFinish, Closes;
    match op
    case Deliver(id, n, result, now) =>
      if Undecided(s, id) { SettleTallies(s, id, s.units[id].Finish(n, result), now); }
    case Refuse(id, n, message, now) =>
      if Undecided(s, id) {
        var u := s.units[id].Reject(message);
        if u.state == FAILED { SettleTallies(s, id, u, now); } else { assert Done(Step(s, op)) == Done(s); }
      }
    case _ => OthersFinishNone(s, op);
  }

  lemma SettleTallies(s: Store, id: UnitId, u: Unit, now: real)
    requires id in s.units
    ensures var mid := s.(units := s.units[id := u]); var t := MaybeFinish(mid, u.batch, now);
      |Done(t)| == |Done(s)| + One(Closes(s, id, u)) && |t.batches| == |s.batches|
  {
    var mid := s.(units := s.units[id := u]);
    FinishTallies(mid, u.batch, now);
    assert Done(mid) == Done(s);
    SameKeysSameSize(s.batches, MaybeFinish(mid, u.batch, now).batches);
  }

  lemma SameKeysSameSize<K, V>(a: map<K, V>, b: map<K, V>)
    requires a.Keys == b.Keys
    ensures |a| == |b|
  {
    assert |a.Keys| == |a| && |b.Keys| == |b|;
  }

  lemma {:induction false} RunTallies(c: C.Counters, s: Store, ops: seq<Op>)
    requires Inv(s) && LegalRun(s, ops) && Tallied(c, s)
    ensures Tallied(CountRun(c, s, ops), Run(s, ops))
    decreases |ops|
  {
    if ops != [] {
      StepKeeps(s, ops[0]);
      StepRetries(c, s, ops[0]);
      StepBatches(c, s, ops[0]);
      RunTallies(Count(c, s, ops[0]), Step(s, ops[0]), ops[1..]);
    }
  }

  /**
   In every reachable state `unit_retries` is the sum over answered units of
   attempts beyond the first, and `batches_completed` is the number of COMPLETED
   batches: each was counted when it finished, and never again.
   */
  lemma CountersAgree(ops: seq<Op>)
    requires LegalRun(EMPTY, ops)
    ensures Tallied(CountRun(C.ZERO, EMPTY, ops), Run(EMPTY, ops))
  {
    assert Done(EMPTY) == {};
    RunTallies(C.ZERO, EMPTY, ops);
  }

  // ── The windows of samples ─────────────────────────────────────────────

  /** How long each answered unit had waited, in the order the answers came. */
  ghost function QueueSamples(s: Store, ops: seq<Op>): seq<real>
    requires LegalRun(s, ops)
    decreases |ops|
  {
    if ops == [] then [] else
      (if ops[0].Deliver? && Undecided(s, ops[0].unit) then [QueueSec(s.units[ops[0].unit])] else [])
      + QueueSamples(Step(s, ops[0]), ops[1..])
  }

  /** How long its node then took. */
  ghost function ServiceSamples(s: Store, ops: seq<Op>): seq<real>
    requires LegalRun(s, ops)
    decreases |ops|
  {
    if ops == [] then [] else
      (if ops[0].Deliver? && Undecided(s, ops[0].unit) then [ServiceSec(s.units[ops[0].unit], ops[0].now)] else [])
      + ServiceSamples(Step(s, ops[0]), ops[1..])
  }

  function Latest(q: seq<real>): seq<real> {
    if |q| <= C.LATENCY_SAMPLES then q else q[|q| - C.LATENCY_SAMPLES..]
  }

  lemma PushKeepsLatest(q: seq<real>, x: real)
    ensures C.Push(Latest(q), x) == Latest(q + [x])
  {
  }

  lemma StepWindows(c: C.Counters, s: Store, op: Op, queue: seq<real>, service: seq<real>)
    requires c.queueTimes == Latest(queue) && c.serviceTimes == Latest(service)
    ensures var answered := op.Deliver? && Undecided(s, op.unit);
      && Count(c, s, op).queueTimes == Latest(queue + (if answered then [QueueSec(s.units[op.unit])] else []))
      && Count(c, s, op).serviceTimes == Latest(service + (if answered then [ServiceSec(s.units[op.unit], op.now)] else []))
  {
    if op.Deliver? && Undecided(s, op.unit) {
      var u := s.units[op.unit];
      PushKeepsLatest(queue, QueueSec(u));
      PushKeepsLatest(service, ServiceSec(u, op.now));
      hide Latest, C.Push;
    } else {
      assert queue + [] == queue && service + [] == service;
    }
  }

  lemma {:induction false} RunWindows(c: C.Counters, s: Store, ops: seq<Op>, queue: seq<real>, service: seq<real>)
    requires LegalRun(s, ops) && c.queueTimes == Latest(queue) && c.serviceTimes == Latest(service)
    ensures CountRun(c, s, ops).queueTimes == Latest(queue + QueueSamples(s, ops))
    ensures CountRun(c, s, ops).serviceTimes == Latest(service + ServiceSamples(s, ops))
    decreases |ops|
  {
    hide Latest, Count, Step;
    if ops == [] {
      assert queue + [] == queue && service + [] == service;
    } else {
      var op := ops[0];
      var answered := op.Deliver? && Undecided(s, op.unit);
      var q := if answered then [QueueSec(s.units[op.unit])] else [];
      var v := if answered then [ServiceSec(s.units[op.unit], op.now)] else [];
      StepWindows(c, s, op, queue, service);
      RunWindows(Count(c, s, op), Step(s, op), ops[1..], queue + q, service + v);
      assert queue + q + QueueSamples(Step(s, op), ops[1..]) == queue + (q + QueueSamples(Step(s, op), ops[1..]));
      assert service + v + ServiceSamples(Step(s, op), ops[1..]) == service + (v + ServiceSamples(Step(s, op), ops[1..]));
    }
  }

  /** After every run the windows hold the samples of the latest counted answers, in order and no other. */
  lemma WindowsHoldTheLatest(ops: seq<Op>)
    requires LegalRun(EMPTY, ops)
    ensures var c := CountRun(C.ZERO, EMPTY, ops);
      var q, v := QueueSamples(EMPTY, ops), ServiceSamples(EMPTY, ops);
      && c.queueTimes == (if |q| <= 10_000 then q else q[|q| - 10_000..])
      && c.serviceTimes == (if |v| <= 10_000 then v else v[|v| - 10_000..])
  {
    RunWindows(C.ZERO, EMPTY, ops, [], []);
    assert [] + QueueSamples(EMPTY, ops) == QueueSamples(EMPTY, ops);
    assert [] + ServiceSamples(EMPTY, ops) == ServiceSamples(EMPTY, ops);
  }
}
