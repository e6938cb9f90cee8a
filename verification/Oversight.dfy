/** The verifier riding along with a store: what it knows agrees with what the store recorded. */
module Oversight {
  import opened Sequences
  import opened Store
  import opened Invariant
  import opened Verification
  import N = Node
  import Text

  /** The question a unit asks: its messages' contents, joined. */
  function Question(u: Unit): string { Asked(u.messages) }

  function Asked(messages: seq<Message>): string {
    Text.Join(seq(|messages|, i requires 0 <= i < |messages| => messages[i].content))
  }

  /** The contents in order, with one space between each and the next. */
  lemma AskedJoins(messages: seq<Message>, m: Message)
    ensures Asked([]) == "" && Asked([m]) == m.content
    ensures messages != [] ==> Asked(messages + [m]) == Asked(messages) + " " + m.content
  {
    if messages != [] {
      var ws := seq(|messages|, i requires 0 <= i < |messages| => messages[i].content);
      var all := messages + [m];
      assert seq(|all|, i requires 0 <= i < |all| => all[i].content) == ws + [m.content];
      Text.JoinSnoc(ws, m.content);
    }
  }

  function AnswerTo(s: Store, id: UnitId, n: NodeId, result: Result): Answer
    requires id in s.units
  {
    Answer(id, n, result.text, Question(s.units[id]))
  }

  /** What a step does to the verifier: it sees submissions, and the answers that count. */
  function Oversee(cfg: Config, v: Verifier, s: Store, op: Op): Verifier
    requires op.Submit? ==> |op.sub.canaryIds| == |op.sub.canaries|
  {
    match op
    case Submit(sub) => RegisterAll(v, sub.canaryIds, sub.canaries)
    case Deliver(id, n, result, _) => if Undecided(s, id) then Judge(cfg, v, AnswerTo(s, id, n, result)) else v
    case _ => v
  }

  /** The verifier gets to see each answer that counts: its own text, beside all that its unit asked. */
  lemma JudgesTheAnswer(cfg: Config, v: Verifier, s: Store, id: UnitId, n: NodeId, result: Result, now: real)
    ensures Oversee(cfg, v, s, Deliver(id, n, result, now)) ==
      if id in s.units && (s.units[id].state == PENDING || s.units[id].state == LEASED) then
        Judge(cfg, v, Answer(id, n, result.text, Asked(s.units[id].messages)))
      else v
  {
  }

  /** The answers a step adds to the history. */
  function Heard(s: Store, op: Op): seq<Answer> {
    if op.Deliver? && Undecided(s, op.unit) then [AnswerTo(s, op.unit, op.node, op.result)] else []
  }

  /** The run was made with this verifier: it chose the canaries of every submission. */
  ghost predicate Planned(cfg: Config, ops: seq<Op>) {
    forall i :: 0 <= i < |ops| && ops[i].Submit? ==> ops[i].sub.canaries == Select(cfg, |ops[i].sub.requests|)
  }

  ghost function OverseeRun(cfg: Config, v: Verifier, s: Store, ops: seq<Op>): Verifier
    requires LegalRun(s, ops)
    decreases |ops|
  {
    if ops == [] then v else OverseeRun(cfg, Oversee(cfg, v, s, ops[0]), Step(s, ops[0]), ops[1..])
  }

  ghost function History(s: Store, ops: seq<Op>): seq<Answer>
    requires LegalRun(s, ops)
    decreases |ops|
  {
    if ops == [] then [] else Heard(s, ops[0]) + History(Step(s, ops[0]), ops[1..])
  }

  predicate IsCanary(s: Store, id: UnitId) {
    && id in s.units && s.units[id].batch in s.batches && id in s.batches[s.units[id].batch].canaryIds
  }

  /** All a node gets to see of a canary's unit, apart from its id. */
  predicate AsksAs(u: Unit, c: Canary) {
    u.messages == [Message("user", c.prompt)] && u.maxTokens == 256 && u.temperature == 0.0
  }

  /** A planted unit is a canary of its batch, asking the canary's question. */
  ghost predicate PlantedAs(cfg: Config, v: Verifier, s: Store, id: UnitId)
    requires id in v.planted && id in s.units
  {
    && IsCanary(s, id) && v.planted[id] in cfg.canaries
    && AsksAs(s.units[id], v.planted[id])
  }

  ghost predicate PlantsMatch(cfg: Config, v: Verifier, s: Store) {
    && (forall id :: id in v.planted ==> id in s.units && PlantedAs(cfg, v, s, id))
    && (forall id :: IsCanary(s, id) ==> id in v.planted)
  }

  predicate Checked(v: Verifier, s: Store, id: UnitId) {
    id in v.planted && id in s.units && s.units[id].state == COMPLETE
  }

  function CheckedIn(v: Verifier, s: Store): UnitId -> int {
    (id: UnitId) => One(Checked(v, s, id))
  }

  function ChecksDone(v: Verifier, s: Store): int {
    Sum(s.order, CheckedIn(v, s))
  }

  ghost predicate Agrees(cfg: Config, v: Verifier, s: Store, h: seq<Answer>) {
    Balanced(v) && Indexes(v, h) && PlantsMatch(cfg, v, s) && v.checksRun == ChecksDone(v, s)
  }

  // ── Submissions ────────────────────────────────────────────────────────

  lemma {:induction false} RegisterAllPlants(v: Verifier, ids: seq<UnitId>, cs: seq<Canary>)
    requires |ids| == |cs| && NoDup(ids)
    ensures var w := RegisterAll(v, ids, cs);
      && w == v.(planted := w.planted)
      && (forall i :: 0 <= i < |ids| ==> ids[i] in w.planted && w.planted[ids[i]] == cs[i])
      && (forall id :: id in w.planted <==> id in v.planted || id in ids)
      && (forall id :: id in v.planted && id !in ids ==> w.planted[id] == v.planted[id])
  {
    if ids != [] {
      var k := |ids| - 1;
      RegisterAllPlants(v, ids[..k], cs[..k]);
      assert ids == ids[..k] + [ids[k]];
    }
  }

  lemma SubmissionPlants(cfg: Config, v: Verifier, s: Store, sub: Submission)
    requires Inv(s) && sub.Legal(s) && PlantsMatch(cfg, v, s)
    requires sub.canaries == Select(cfg, |sub.requests|)
    ensures PlantsMatch(cfg, RegisterAll(v, sub.canaryIds, sub.canaries), Create(s, sub))
  {
    var w := RegisterAll(v, sub.canaryIds, sub.canaries);
    SubmissionRegisters(v, s, sub);
    CreatedUnits(s, sub);
    forall id | id in w.planted ensures id in Create(s, sub).units && PlantedAs(cfg, w, Create(s, sub), id) {
      if id in sub.canaryIds {
        var i :| 0 <= i < |sub.canaryIds| && sub.canaryIds[i] == id;
        NewPlant(cfg, w, s, sub, i);
      } else {
        assert PlantedAs(cfg, v, s, id);
      }
    }
    forall id | IsCanary(Create(s, sub), id) ensures id in w.planted {
      OnlyNewCanaries(s, sub, id);
    }
  }

  lemma NewPlant(cfg: Config, w: Verifier, s: Store, sub: Submission, i: nat)
    requires sub.Legal(s) && i < |sub.canaryIds| && sub.canaryIds[i] in w.planted
    requires w.planted[sub.canaryIds[i]] == sub.canaries[i] && sub.canaries == Select(cfg, |sub.requests|)
    ensures sub.canaryIds[i] in Create(s, sub).units && PlantedAs(cfg, w, Create(s, sub), sub.canaryIds[i])
  {
    var m := sub.ids + sub.canaryIds;
    CreatedUnits(s, sub);
    assert m[|sub.ids| + i] == sub.canaryIds[i];
    assert Create(s, sub).units[sub.canaryIds[i]] == sub.UnitAt(|sub.ids| + i);
    assert sub.canaries[i] in cfg.canaries;
  }

  lemma OnlyNewCanaries(s: Store, sub: Submission, id: UnitId)
    requires Filed(s) && sub.Legal(s) && IsCanary(Create(s, sub), id)
    ensures IsCanary(s, id) || id in sub.canaryIds
  {
    CreatedUnits(s, sub);
    if id !in s.units {
      var m := sub.ids + sub.canaryIds;
      var k :| 0 <= k < |m| && m[k] == id;
      assert Create(s, sub).units[id] == sub.UnitAt(k);
    }
  }

  lemma SubmissionRegisters(v: Verifier, s: Store, sub: Submission)
    requires sub.Legal(s)
    ensures var w := RegisterAll(v, sub.canaryIds, sub.canaries);
      && w == v.(planted := w.planted)
      && (forall i :: 0 <= i < |sub.canaryIds| ==> sub.canaryIds[i] in w.planted && w.planted[sub.canaryIds[i]] == sub.canaries[i])
      && (forall id :: id in w.planted <==> id in v.planted || id in sub.canaryIds)
      && (forall id :: id in v.planted && id !in sub.canaryIds ==> w.planted[id] == v.planted[id])
      && (forall id :: id in s.units ==> id !in sub.canaryIds)
  {
    var m := sub.ids + sub.canaryIds;
    forall i, j | 0 <= i < j < |sub.canaryIds| ensures sub.canaryIds[i] != sub.canaryIds[j] {
      assert m[|sub.ids| + i] != m[|sub.ids| + j];
    }
    RegisterAllPlants(v, sub.canaryIds, sub.canaries);
  }

  lemma SubmissionChecksNothing(v: Verifier, s: Store, sub: Submission)
    requires Ordered(s) && sub.Legal(s)
    ensures ChecksDone(RegisterAll(v, sub.canaryIds, sub.canaries), Create(s, sub)) == ChecksDone(v, s)
  {
    var m := sub.ids + sub.canaryIds;
    var t := Create(s, sub);
    var w := RegisterAll(v, sub.canaryIds, sub.canaries);
    assert t.order == s.order + m;
    forall id | id in m ensures CheckedIn(w, t)(id) == 0 { SubmittedUnchecked(v, s, sub, id); }
    forall id | id in s.order ensures CheckedIn(w, t)(id) == CheckedIn(v, s)(id) { SubmittedUnchecked(v, s, sub, id); }
    hide Create, RegisterAll, Checked;
    SumAppend(s.order, m, CheckedIn(w, t));
    SumConst(m, CheckedIn(w, t), 0);
    SumSame(s.order, CheckedIn(w, t), CheckedIn(v, s));
  }

  lemma SubmittedUnchecked(v: Verifier, s: Store, sub: Submission, id: UnitId)
    requires Ordered(s) && sub.Legal(s)
    ensures Checked(RegisterAll(v, sub.canaryIds, sub.canaries), Create(s, sub), id) ==
            (Checked(v, s, id) && id !in sub.ids + sub.canaryIds)
  {
    var m := sub.ids + sub.canaryIds;
    SubmissionRegisters(v, s, sub);
    CreatedUnits(s, sub);
    if id in m {
      var k :| 0 <= k < |m| && m[k] == id;
      assert Create(s, sub).units[id] == sub.UnitAt(k);
    }
  }

  lemma SubmissionAgrees(cfg: Config, v: Verifier, s: Store, sub: Submission, h: seq<Answer>)
    requires Inv(s) && sub.Legal(s) && Agrees(cfg, v, s, h)
    requires sub.canaries == Select(cfg, |sub.requests|)
    ensures Agrees(cfg, RegisterAll(v, sub.canaryIds, sub.canaries), Create(s, sub), h)
  {
    hide PlantsMatch, ChecksDone, Create;
    SubmissionPlants(cfg, v, s, sub);
    SubmissionChecksNothing(v, s, sub);
    SubmissionRegisters(v, s, sub);
    BalancedByTrust(v, RegisterAll(v, sub.canaryIds, sub.canaries));
  }

  // ── Every other step ───────────────────────────────────────────────────

  /** A node cannot tell two units apart by what it is sent of them. */
  predicate SameQuestion(u: Unit, v: Unit) {
    u.messages == v.messages && u.maxTokens == v.maxTokens && u.temperature == v.temperature
  }

  /** No step but a submission changes which units are canaries or what they ask. */
  lemma StepKeepsPlant(s: Store, op: Op, id: UnitId)
    requires Legal(s, op) && !op.Submit?
    ensures var t := Step(s, op);
      && (id in t.units <==> id in s.units) && IsCanary(t, id) == IsCanary(s, id)
      && (id in s.units ==> SameQuestion(s.units[id], t.units[id]))
  {
    hide Unfinished, HeldBy, ExpiredAt, Granted, LeftQueued;
  }

  lemma StepKeepsPlants(cfg: Config, v: Verifier, s: Store, op: Op)
    requires Legal(s, op) && !op.Submit? && PlantsMatch(cfg, v, s)
    ensures PlantsMatch(cfg, v, Step(s, op))
  {
    var t := Step(s, op);
    hide Step, IsCanary;
    forall id | id in v.planted ensures id in t.units && PlantedAs(cfg, v, t, id) {
      assert PlantedAs(cfg, v, s, id);
      StepKeepsPlant(s, op, id);
    }
    forall id | IsCanary(t, id) ensures id in v.planted {
      StepKeepsPlant(s, op, id);
    }
  }

  /** Only an answer that counts completes a unit. */
  lemma QuietStepChecks(v: Verifier, s: Store, op: Op, id: UnitId)
    requires Ordered(s) && Legal(s, op) && !op.Submit? && Heard(s, op) == [] && id in s.units
    ensures Step(s, op).order == s.order && Checked(v, Step(s, op), id) == Checked(v, s, id)
  {
    if op.Take? { GrantedMembers(s, op.count, op.model); }
  }

  lemma AnswerChecks(v: Verifier, s: Store, op: Op)
    requires Ordered(s) && Legal(s, op) && Heard(s, op) != []
    ensures ChecksDone(v, Step(s, op)) == ChecksDone(v, s) + One(op.unit in v.planted)
  {
    var t := Step(s, op);
    SumOneChange(s.order, op.unit, CheckedIn(v, t), CheckedIn(v, s));
  }

  lemma JudgeRuns(cfg: Config, v: Verifier, a: Answer)
    ensures Judge(cfg, v, a).planted == v.planted
    ensures Judge(cfg, v, a).checksRun == v.checksRun + One(a.unit in v.planted)
  {
  }

  lemma StepAgrees(cfg: Config, v: Verifier, s: Store, op: Op, h: seq<Answer>)
    requires Inv(s) && Legal(s, op) && Agrees(cfg, v, s, h)
    requires op.Submit? ==> op.sub.canaries == Select(cfg, |op.sub.requests|)
    ensures Agrees(cfg, Oversee(cfg, v, s, op), Step(s, op), h + Heard(s, op))
  {
    if op.Submit? {
      SubmissionAgrees(cfg, v, s, op.sub, h);
      assert h + Heard(s, op) == h;
    } else if Heard(s, op) == [] {
      assert h + Heard(s, op) == h;
      StepKeepsPlants(cfg, v, s, op);
      QuietStepChecksAll(v, s, op);
    } else {
      AnswerAgrees(cfg, v, s, op, h);
    }
  }

  lemma QuietStepChecksAll(v: Verifier, s: Store, op: Op)
    requires Ordered(s) && Legal(s, op) && !op.Submit? && Heard(s, op) == []
    ensures ChecksDone(v, Step(s, op)) == ChecksDone(v, s)
  {
    var t := Step(s, op);
    forall id | id in s.order ensures Checked(v, t, id) == Checked(v, s, id) { QuietStepChecks(v, s, op, id); }
    SumSame(s.order, CheckedIn(v, t), CheckedIn(v, s));
    assert t.order == s.order;
  }

  lemma AnswerAgrees(cfg: Config, v: Verifier, s: Store, op: Op, h: seq<Answer>)
    requires Ordered(s) && Legal(s, op) && Agrees(cfg, v, s, h) && Heard(s, op) != []
    ensures Agrees(cfg, Oversee(cfg, v, s, op), Step(s, op), h + Heard(s, op))
  {
    var a := Heard(s, op)[0];
    StepKeepsPlants(cfg, v, s, op);
    hide PlantsMatch, ChecksDone, Step, Judge;
    JudgeKeeps(cfg, v, h, a);
    JudgeRuns(cfg, v, a);
    AnswerChecks(v, s, op);
    PlantedIsAll(cfg, v, Oversee(cfg, v, s, op), Step(s, op));
  }

  lemma PlantedIsAll(cfg: Config, v: Verifier, w: Verifier, s: Store)
    requires v.planted == w.planted && PlantsMatch(cfg, v, s)
    ensures PlantsMatch(cfg, w, s) && ChecksDone(w, s) == ChecksDone(v, s)
  {
    forall id | id in w.planted ensures id in s.units && PlantedAs(cfg, w, s, id) {
      assert PlantedAs(cfg, v, s, id);
    }
    SumSame(s.order, CheckedIn(w, s), CheckedIn(v, s));
  }

  lemma {:induction false} RunAgrees(cfg: Config, v: Verifier, s: Store, ops: seq<Op>, h: seq<Answer>)
    requires Inv(s) && LegalRun(s, ops) && Planned(cfg, ops) && Agrees(cfg, v, s, h)
    ensures Agrees(cfg, OverseeRun(cfg, v, s, ops), Run(s, ops), h + History(s, ops))
    decreases |ops|
  {
    hide Agrees, Inv, Oversee, Heard;
    if ops == [] {
      assert h + History(s, ops) == h;
    } else {
      assert Planned(cfg, ops[1..]);
      StepKeeps(s, ops[0]);
      StepAgrees(cfg, v, s, ops[0], h);
      RunAgrees(cfg, Oversee(cfg, v, s, ops[0]), Step(s, ops[0]), ops[1..], h + Heard(s, ops[0]));
      assert h + Heard(s, ops[0]) + History(Step(s, ops[0]), ops[1..]) == h + History(s, ops);
    }
  }

  /**
   In every reachable state: one check for each planted unit that is COMPLETE, the
   nodes' records add up to the checks and the caught replays, and the replays
   caught are those the full history of counted answers shows.
   */
  lemma VerifierAgrees(cfg: Config, ops: seq<Op>)
    requires LegalRun(EMPTY, ops) && Planned(cfg, ops)
    ensures Agrees(cfg, OverseeRun(cfg, FRESH, EMPTY, ops), Run(EMPTY, ops), History(EMPTY, ops))
  {
    hide Agrees, OverseeRun, History, Inv;
    assert [] + History(EMPTY, ops) == History(EMPTY, ops);
    FreshAgrees(cfg);
    RunAgrees(cfg, FRESH, EMPTY, ops, []);
  }

  lemma FreshAgrees(cfg: Config)
    ensures Inv(EMPTY) && Agrees(cfg, FRESH, EMPTY, [])
  {
    EmptyInv();
    hide Inv, Indexes, Balanced, PlantsMatch;
    FreshIndexes();
    FreshBalanced();
    FreshPlants(cfg);
  }

  lemma FreshBalanced()
    ensures Balanced(FRESH)
  {
  }

  lemma FreshPlants(cfg: Config)
    ensures PlantsMatch(cfg, FRESH, EMPTY)
  {
  }

  lemma FreshIndexes()
    ensures Indexes(FRESH, [])
  {
    hide Text.IsLong, Text.Normalised;
  }

  // ── An honest fleet has no suspects ────────────────────────────────────

  /** Every answer that counts is the honest model's answer to that unit's question. */
  ghost predicate HonestRun(s: Store, ops: seq<Op>, f: string -> string)
    requires LegalRun(s, ops)
    decreases |ops|
  {
    ops == [] || (HonestHistory(Heard(s, ops[0]), f) && HonestRun(Step(s, ops[0]), ops[1..], f))
  }

  ghost predicate Spotless(v: Verifier) {
    forall n :: n in v.trust ==> v.trust[n].failed == 0
  }

  /** A canary's unit asks the canary's own question. */
  lemma CanaryAsks(cfg: Config, v: Verifier, s: Store, id: UnitId)
    requires PlantsMatch(cfg, v, s) && id in v.planted
    ensures id in s.units && Question(s.units[id]) == v.planted[id].prompt && v.planted[id] in cfg.canaries
  {
    assert PlantedAs(cfg, v, s, id);
  }

  /**
   In every reachable state a canary looks like another unit to a node if and only if
   that unit asks the canary's prompt as a single user message, with a limit of 256
   tokens and at temperature zero: whatever else a client sets gives its canaries away.
   */
  lemma CanaryLooksLike(cfg: Config, ops: seq<Op>, id: UnitId, x: UnitId)
    requires LegalRun(EMPTY, ops) && Planned(cfg, ops)
    ensures var v, s := OverseeRun(cfg, FRESH, EMPTY, ops), Run(EMPTY, ops);
      id in v.planted && x in s.units ==>
        && id in s.units
        && (N.PayloadOf(x, s.units[id]) == N.PayloadOf(x, s.units[x]) <==> AsksAs(s.units[x], v.planted[id]))
  {
    hide OverseeRun, Run, Inv, Balanced, Indexes, ChecksDone, IsCanary;
    VerifierAgrees(cfg, ops);
    var v, s := OverseeRun(cfg, FRESH, EMPTY, ops), Run(EMPTY, ops);
    if id in v.planted { assert PlantedAs(cfg, v, s, id); }
  }

  lemma HonestAnswer(cfg: Config, v: Verifier, s: Store, a: Answer, h: seq<Answer>, f: string -> string)
    requires HonestModel(cfg, f) && HonestHistory(h, f) && Agrees(cfg, v, s, h) && Spotless(v)
    requires a.unit in s.units && a.prompt == Question(s.units[a.unit]) && a.text == f(a.prompt)
    ensures Spotless(Judge(cfg, v, a))
  {
    var w := Check(cfg, v, a.unit, a.node, a.text);
    if a.unit in v.planted {
      CanaryAsks(cfg, v, s, a.unit);
      assert Passes(cfg, v.planted[a.unit], a.text);
    }
    assert Spotless(w);
    HonestNeverFlagged(cfg, h, a, f);
    NoteReplayIndexes(v, h, a);
    assert w.seen == v.seen && !IsReplay(w, a.text, a.prompt);
  }

  lemma {:induction false} HonestRunSpotless(cfg: Config, v: Verifier, s: Store, ops: seq<Op>, h: seq<Answer>, f: string -> string)
    requires Inv(s) && LegalRun(s, ops) && Planned(cfg, ops) && HonestModel(cfg, f) && HonestRun(s, ops, f)
    requires Agrees(cfg, v, s, h) && HonestHistory(h, f) && Spotless(v)
    ensures Spotless(OverseeRun(cfg, v, s, ops))
    decreases |ops|
  {
    hide Agrees, Judge, HonestModel;
    if ops != [] {
      var op := ops[0];
      assert Planned(cfg, ops[1..]);
      StepKeeps(s, op);
      StepAgrees(cfg, v, s, op, h);
      HonestStep(cfg, v, s, op, h, f);
      HonestRunSpotless(cfg, Oversee(cfg, v, s, op), Step(s, op), ops[1..], h + Heard(s, op), f);
    }
  }

  lemma HonestStep(cfg: Config, v: Verifier, s: Store, op: Op, h: seq<Answer>, f: string -> string)
    requires Legal(s, op) && HonestModel(cfg, f) && HonestHistory(h, f) && HonestHistory(Heard(s, op), f)
    requires Ordered(s) && Agrees(cfg, v, s, h) && Spotless(v)
    ensures Spotless(Oversee(cfg, v, s, op)) && HonestHistory(h + Heard(s, op), f)
  {
    hide Agrees, Judge;
    if Heard(s, op) != [] {
      var a := Heard(s, op)[0];
      assert a.text == f(a.prompt);
      HonestAnswer(cfg, v, s, a, h, f);
    } else if op.Submit? {
      SubmissionRegisters(v, s, op.sub);
    }
  }

  /** An honest fleet is never accused, whatever runs, retries and duplicates it goes through. */
  lemma HonestFleetHasNoSuspects(cfg: Config, ops: seq<Op>, f: string -> string)
    requires LegalRun(EMPTY, ops) && Planned(cfg, ops) && HonestModel(cfg, f) && HonestRun(EMPTY, ops, f)
    ensures Suspects(OverseeRun(cfg, FRESH, EMPTY, ops)) == []
  {
    hide Agrees, OverseeRun, Inv, HonestRun, HonestModel;
    FreshAgrees(cfg);
    HonestRunSpotless(cfg, FRESH, EMPTY, ops, [], f);
    var v := OverseeRun(cfg, FRESH, EMPTY, ops);
    FilterNone(v.order, IsSuspectIn(v));
  }
}
