/** The store as a register per unit that the first deciding event writes, once. */
module Verdicts {
  import opened Sequences
  import opened Store
  import opened Invariant

  /** The verdict on a unit, if there is one. */
  function Verdict(s: Store, id: UnitId): Option<Unit> {
    if id in s.units && !s.units[id].Outstanding() then Some(s.units[id]) else None
  }

  /** The events that decide unit `id` when nothing has decided it before. */
  predicate Decides(s: Store, op: Op, id: UnitId) {
    match op
    case Deliver(unit, _, _, _) => unit == id
    case Refuse(unit, _, _, _) => unit == id && id in s.units && s.units[id].attempts >= MAX_UNIT_ATTEMPTS
    case Stop(b) => Cancellable(s, b) && id in Members(s.batches[b])
    case _ => false
  }

  /** What the deciding event writes. */
  function Written(u: Unit, op: Op): Unit
    requires op.Deliver? || op.Refuse? || op.Stop?
  {
    match op
    case Deliver(_, n, result, _) => u.Finish(n, result)
    case Refuse(_, _, message, _) => u.(state := FAILED, error := message)
    case Stop(_) => u.Abandon()
  }

  /** One step of the store is one step of the register: write once, at a deciding event only. */
  lemma StepRefinesRegister(s: Store, op: Op, id: UnitId)
    requires Legal(s, op) && id in s.units
    ensures id in Step(s, op).units
    ensures Verdict(Step(s, op), id) ==
            if Verdict(s, id).Some? then Verdict(s, id)
            else if Decides(s, op, id) then Some(Written(s.units[id], op))
            else None
  {
    match op
    case Submit(sub) => CreatedUnits(s, sub);
    case Take(n, count, model, now) => GrantedMembers(s, count, model);
    case Deliver(_, _, _, _) =>
    case Refuse(_, _, _, _) =>
    case NodeLeft(n) =>
    case Reap(now) =>
    case Stop(b) =>
  }

  /** What identifies a unit to the client never changes. */
  lemma StepKeepsIdentity(s: Store, op: Op, id: UnitId)
    requires Legal(s, op) && id in s.units
    ensures id in Step(s, op).units && SameIdentity(s.units[id], Step(s, op).units[id])
  {
    if op.Submit? { CreatedUnits(s, op.sub); }
  }

  predicate SameIdentity(u: Unit, v: Unit) {
    v.batch == u.batch && v.index == u.index && v.messages == u.messages && v.model == u.model
  }

  /** The first deciding event of a run wins: what it wrote is what every later state holds. */
  lemma {:induction false} FirstVerdictWins(s: Store, ops: seq<Op>, i: nat, id: UnitId)
    requires Inv(s) && LegalRun(s, ops) && i <= |ops| && id in s.units
    requires LegalRun(s, ops[..i])
    ensures Verdict(Run(s, ops[..i]), id).Some? ==> Verdict(Run(s, ops), id) == Verdict(Run(s, ops[..i]), id)
    decreases |ops|
  {
    if i == 0 {
      assert ops[..0] == [];
      if Verdict(s, id).Some? { VerdictStays(s, ops, id); }
    } else {
      assert ops[..i][0] == ops[0] && ops[..i][1..] == ops[1..][..i - 1];
      StepKeeps(s, ops[0]);
      StepRefinesRegister(s, ops[0], id);
      FirstVerdictWins(Step(s, ops[0]), ops[1..], i - 1, id);
    }
  }

  lemma {:induction false} VerdictStays(s: Store, ops: seq<Op>, id: UnitId)
    requires Inv(s) && LegalRun(s, ops) && Verdict(s, id).Some?
    ensures Verdict(Run(s, ops), id) == Verdict(s, id)
    decreases |ops|
  {
    if ops != [] {
      StepKeeps(s, ops[0]);
      StepRefinesRegister(s, ops[0], id);
      VerdictStays(Step(s, ops[0]), ops[1..], id);
    }
  }

  // ── A batch that is over ───────────────────────────────────────────────

  lemma StepKeepsOver(s: Store, op: Op, b: BatchId)
    requires Inv(s) && Legal(s, op) && b in s.batches && s.batches[b].state != IN_PROGRESS
    ensures b in Step(s, op).batches && Step(s, op).batches[b] == s.batches[b]
  {
  }

  lemma {:induction false} RunKeepsOver(s: Store, ops: seq<Op>, b: BatchId)
    requires Inv(s) && LegalRun(s, ops) && b in s.batches && s.batches[b].state != IN_PROGRESS
    ensures b in Run(s, ops).batches && Run(s, ops).batches[b] == s.batches[b]
    ensures forall id :: id in s.batches[b].unitIds ==>
      id in s.units && id in Run(s, ops).units && Run(s, ops).units[id] == s.units[id]
    decreases |ops|
  {
    assert ExactFor(s, b);
    forall id | id in s.batches[b].unitIds
      ensures id in s.units && id in Run(s, ops).units && Run(s, ops).units[id] == s.units[id]
    {
      assert id in Members(s.batches[b]);
      OnlyOwn(s, b, id);
      assert !Undecided(s, id);
      VerdictStays(s, ops, id);
    }
    if ops != [] {
      StepKeeps(s, ops[0]);
      StepKeepsOver(s, ops[0], b);
      RunKeepsOver(Step(s, ops[0]), ops[1..], b);
    }
  }

  /** What the client reads of a batch depends on its state and its submitted units alone. */
  lemma ReadingsAgree(s: Store, t: Store, b: BatchId)
    requires Inv(s) && Inv(t)
    requires SameClientUnits(s, t, b)
    ensures CountsOf(t, b) == CountsOf(s, b)
    ensures UsageOf(t, b) == UsageOf(s, b)
    ensures ResultsOf(t, b) == ResultsOf(s, b)
  {
    SameCounts(s, t, b);
    SameUsage(s, t, b);
    SameResults(s, t, b);
  }

  lemma SameCounts(s: Store, t: Store, b: BatchId)
    requires SameClientUnits(s, t, b)
    ensures CountsOf(t, b) == CountsOf(s, b)
  {
    SameInState(s, t, b, COMPLETE);
    SameInState(s, t, b, FAILED);
    SameInState(s, t, b, LEASED);
    SameInState(s, t, b, PENDING);
  }

  lemma SameResults(s: Store, t: Store, b: BatchId)
    requires Inv(s) && Inv(t) && SameClientUnits(s, t, b)
    ensures ResultsOf(t, b) == ResultsOf(s, b)
  {
    ResultsInSubmissionOrder(s, b);
    ResultsInSubmissionOrder(t, b);
    SameListing(s, t, b, ResultsOf(s, b), ResultsOf(t, b));
  }

  lemma SameListing(s: Store, t: Store, b: BatchId, r: seq<ResultRecord>, q: seq<ResultRecord>)
    requires SameClientUnits(s, t, b) && ListsInOrder(s, b, r) && ListsInOrder(t, b, q)
    ensures r == q
  {
    forall i | 0 <= i < |r| ensures r[i] == q[i] {
      assert s.batches[b].unitIds[i] in s.batches[b].unitIds;
    }
  }

  ghost predicate SameClientUnits(s: Store, t: Store, b: BatchId) {
    && b in s.batches && b in t.batches && s.batches[b].unitIds == t.batches[b].unitIds
    && forall id :: id in s.batches[b].unitIds ==> id in s.units && id in t.units && t.units[id] == s.units[id]
  }

  lemma SameInState(s: Store, t: Store, b: BatchId, st: UnitState)
    requires SameClientUnits(s, t, b)
    ensures InState(t, s.batches[b].unitIds, st) == InState(s, s.batches[b].unitIds, st)
  {
    FilterSame(s.batches[b].unitIds, IsIn(s, st), IsIn(t, st));
  }

  lemma SameUsage(s: Store, t: Store, b: BatchId)
    requires SameClientUnits(s, t, b)
    ensures UsageOf(t, b) == UsageOf(s, b)
  {
    SumSame(s.batches[b].unitIds, PromptTokensIn(s), PromptTokensIn(t));
    SumSame(s.batches[b].unitIds, CompletionTokensIn(s), CompletionTokensIn(t));
  }

  /** One record for each submitted unit, in the order they were submitted. */
  ghost predicate ListsInOrder(s: Store, b: BatchId, r: seq<ResultRecord>)
    requires b in s.batches
  {
    var ids := s.batches[b].unitIds;
    && |r| == |ids|
    && forall i :: 0 <= i < |ids| ==> ids[i] in s.units && s.units[ids[i]].index == i && r[i] == RecordAt(s, ids[i])
  }

  lemma {:induction false} RecordsAt(s: Store, ids: seq<UnitId>)
    requires forall id :: id in ids ==> id in s.units
    ensures |Records(s, ids)| == |ids|
    ensures forall i :: 0 <= i < |ids| ==> ids[i] in s.units && Records(s, ids)[i] == RecordAt(s, ids[i])
  {
    if ids != [] {
      RecordsAt(s, ids[..|ids| - 1]);
      assert ids[|ids| - 1] in ids;
    }
  }

  /** `results` sorts by index, which is the order of submission, and loses and adds nothing. */
  lemma ResultsInSubmissionOrder(s: Store, b: BatchId)
    requires Inv(s) && b in s.batches
    ensures ListsInOrder(s, b, ResultsOf(s, b))
  {
    var ids := s.batches[b].unitIds;
    InOrder(s, b);
    hide Inv;
    FilterAll(ids, IsKnown(s));
    SortedIsStable(ids, IndexIn(s));
    RecordsAt(s, ids);
  }

  lemma InOrder(s: Store, b: BatchId)
    requires Listed(s) && b in s.batches
    ensures var ids := s.batches[b].unitIds;
      && (forall i :: 0 <= i < |ids| ==> ids[i] in s.units && s.units[ids[i]].index == i)
      && SortedBy(ids, IndexIn(s))
  {
    var ids, m := s.batches[b].unitIds, Members(s.batches[b]);
    assert ListedIn(s, b);
    forall i | 0 <= i < |ids| ensures ids[i] in s.units && s.units[ids[i]].index == i {
      assert m[i] == ids[i];
    }
  }

  /** Once a batch has left IN_PROGRESS, what its client reads is final. */
  lemma OverIsFrozen(s: Store, ops: seq<Op>, b: BatchId)
    requires Inv(s) && LegalRun(s, ops) && b in s.batches && s.batches[b].state != IN_PROGRESS
    ensures var t := Run(s, ops);
      && b in t.batches && t.batches[b].state == s.batches[b].state
      && CountsOf(t, b) == CountsOf(s, b) && UsageOf(t, b) == UsageOf(s, b) && ResultsOf(t, b) == ResultsOf(s, b)
  {
    RunKeeps(s, ops);
    RunKeepsOver(s, ops, b);
    ReadingsAgree(s, Run(s, ops), b);
  }

  /** The client's counts add up, and show work left exactly while the batch is in progress. */
  lemma CountsAddUp(s: Store, b: BatchId)
    requires Inv(s) && b in s.batches && s.batches[b].unitIds != []
    ensures var c := CountsOf(s, b).value;
      && c.total == c.completed + c.failed + c.inFlight + c.pending
      && (s.batches[b].state == IN_PROGRESS <==> c.inFlight + c.pending > 0)
  {
    var ids := s.batches[b].unitIds;
    InOrder(s, b);
    assert ExactFor(s, b);
    hide Inv;
    PartitionedByState(s, ids);
    if Unfinished(s, b) {
      var id :| id in ids && id in s.units && s.units[id].Outstanding();
      assert id in Filter(ids, IsIn(s, s.units[id].state));
    } else {
      FilterNone(ids, IsIn(s, LEASED));
      FilterNone(ids, IsIn(s, PENDING));
    }
  }

  lemma {:induction false} PartitionedByState(s: Store, ids: seq<UnitId>)
    requires forall i :: 0 <= i < |ids| ==> ids[i] in s.units
    ensures |ids| == InState(s, ids, COMPLETE) + InState(s, ids, FAILED) + InState(s, ids, LEASED) + InState(s, ids, PENDING)
  {
    if ids != [] {
      PartitionedByState(s, ids[..|ids| - 1]);
    }
  }

  // ── What the client reads of a verdict ─────────────────────────────────

  lemma {:induction false} ListStays(s: Store, ops: seq<Op>, b: BatchId)
    requires LegalRun(s, ops) && b in s.batches
    ensures b in Run(s, ops).batches && Run(s, ops).batches[b].unitIds == s.batches[b].unitIds
    decreases |ops|
  {
    if ops != [] {
      StepListStays(s, ops[0], b);
      hide Step;
      ListStays(Step(s, ops[0]), ops[1..], b);
    }
  }

  lemma StepListStays(s: Store, op: Op, b: BatchId)
    requires Legal(s, op) && b in s.batches
    ensures b in Step(s, op).batches && Step(s, op).batches[b].unitIds == s.batches[b].unitIds
  {
  }

  /**
   The first event that decides a unit of the client's is what the client reads at that
   unit's place, after that event and after everything that may follow.
   */
  lemma FirstVerdictIsRead(s: Store, op: Op, ops: seq<Op>, b: BatchId, i: nat)
    requires Inv(s) && Legal(s, op) && LegalRun(Step(s, op), ops) && b in s.batches && i < |s.batches[b].unitIds|
    requires var id := s.batches[b].unitIds[i]; Undecided(s, id) && Decides(s, op, id)
    ensures var id := s.batches[b].unitIds[i]; var u, r := s.units[id], ResultsOf(Run(Step(s, op), ops), b);
      && |r| == |s.batches[b].unitIds|
      && r[i] == match op
        case Deliver(_, _, d, _) =>
          Response(i, id, u.attempts, d.text, d.promptTokens, d.completionTokens, if d.servedBy != "" then d.servedBy else u.model)
        case Refuse(_, _, message, _) => NoResponse(i, id, FAILED, u.attempts, if message != "" then message else "unknown error")
        case _ => NoResponse(i, id, FAILED, u.attempts, "batch cancelled")
  {
    var id, t := s.batches[b].unitIds[i], Step(s, op);
    InOrder(s, b);
    StepKeeps(s, op);
    RunKeeps(t, ops);
    DecidedForGood(s, op, ops, id);
    StepListStays(s, op, b);
    ListStays(t, ops, b);
    hide Inv, Step, Decides, Run, LegalRun, Written, ResultsOf;
    ReadAt(Run(t, ops), b, i);
    WrittenIsLine(s.units[id], op, id);
  }

  lemma DecidedForGood(s: Store, op: Op, ops: seq<Op>, id: UnitId)
    requires Inv(s) && Legal(s, op) && LegalRun(Step(s, op), ops) && Undecided(s, id) && Decides(s, op, id)
    ensures id in Run(Step(s, op), ops).units && Run(Step(s, op), ops).units[id] == Written(s.units[id], op)
  {
    StepKeeps(s, op);
    StepRefinesRegister(s, op, id);
    VerdictStays(Step(s, op), ops, id);
    hide Inv, Step, Decides, Run, LegalRun, Written;
  }

  lemma ReadAt(s: Store, b: BatchId, i: nat)
    requires Inv(s) && b in s.batches && i < |s.batches[b].unitIds|
    ensures var id := s.batches[b].unitIds[i];
      |ResultsOf(s, b)| == |s.batches[b].unitIds| && id in s.units && ResultsOf(s, b)[i] == s.units[id].Record(id)
  {
    ResultsInSubmissionOrder(s, b);
    hide Inv, ResultsOf;
  }

  lemma WrittenIsLine(u: Unit, op: Op, id: UnitId)
    requires op.Deliver? || op.Refuse? || op.Stop?
    ensures Written(u, op).Record(id) == match op
      case Deliver(_, _, d, _) =>
        Response(u.index, id, u.attempts, d.text, d.promptTokens, d.completionTokens, if d.servedBy != "" then d.servedBy else u.model)
      case Refuse(_, _, message, _) => NoResponse(u.index, id, FAILED, u.attempts, if message != "" then message else "unknown error")
      case _ => NoResponse(u.index, id, FAILED, u.attempts, "batch cancelled")
  {
  }

  // ── Late verdicts ──────────────────────────────────────────────────────

  /** A result or failure report for a unit that is unknown or already decided. */
  predicate IsLate(s: Store, op: Op) {
    (op.Deliver? || op.Refuse?) && !Undecided(s, op.unit)
  }

  /** The run with every late verdict taken out. */
  ghost function Pruned(s: Store, ops: seq<Op>): (r: seq<Op>)
    requires LegalRun(s, ops)
    decreases |ops|
  {
    if ops == [] then []
    else (if IsLate(s, ops[0]) then [] else [ops[0]]) + Pruned(Step(s, ops[0]), ops[1..])
  }

  /** Late verdicts change nothing, however many arrive: the run without them ends the same. */
  lemma {:induction false} LateVerdictsAreIgnored(s: Store, ops: seq<Op>)
    requires LegalRun(s, ops)
    ensures LegalRun(s, Pruned(s, ops)) && Run(s, Pruned(s, ops)) == Run(s, ops)
    decreases |ops|
  {
    if ops != [] {
      var t := Step(s, ops[0]);
      LateVerdictsAreIgnored(t, ops[1..]);
      var rest := Pruned(t, ops[1..]);
      if IsLate(s, ops[0]) {
        assert Pruned(s, ops) == rest;
      } else {
        assert Pruned(s, ops)[1..] == rest;
      }
    }
  }
}
