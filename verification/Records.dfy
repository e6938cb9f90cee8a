/** Each node's record, against the full history of the answers that counted. */
module Records {
  import opened Sequences
  import opened Store
  import opened Invariant
  import opened Verification
  import opened Oversight
  import Text

  type Plants = map<UnitId, Canary>

  predicate Right(cfg: Config, planted: Plants, a: Answer) {
    a.unit in planted && Passes(cfg, planted[a.unit], a.text)
  }

  predicate Wrong(cfg: Config, planted: Plants, a: Answer) {
    a.unit in planted && !Passes(cfg, planted[a.unit], a.text)
  }

  /** The checks node `n` passed. */
  function Passed(cfg: Config, planted: Plants, h: seq<Answer>, n: NodeId): nat {
    if h == [] then 0 else
      var k := |h| - 1;
      Passed(cfg, planted, h[..k], n) + (if h[k].node == n then One(Right(cfg, planted, h[k])) else 0)
  }

  /** What can be held against answer `i`: it failed a check, or was given before to another question. */
  predicate Caught(cfg: Config, planted: Plants, h: seq<Answer>, i: nat)
    requires i < |h|
  {
    Wrong(cfg, planted, h[i]) || Flagged(h[..i], h[i])
  }

  /** All that can be held against node `n`; one answer may count twice. */
  function Faults(cfg: Config, planted: Plants, h: seq<Answer>, n: NodeId): nat {
    if h == [] then 0 else
      var k := |h| - 1;
      Faults(cfg, planted, h[..k], n)
      + (if h[k].node == n then One(Wrong(cfg, planted, h[k])) + One(Flagged(h[..k], h[k])) else 0)
  }

  lemma Snoc(cfg: Config, planted: Plants, h: seq<Answer>, a: Answer, n: NodeId)
    ensures Passed(cfg, planted, h + [a], n) ==
            Passed(cfg, planted, h, n) + (if a.node == n then One(Right(cfg, planted, a)) else 0)
    ensures Faults(cfg, planted, h + [a], n) ==
            Faults(cfg, planted, h, n) + (if a.node == n then One(Wrong(cfg, planted, a)) + One(Flagged(h, a)) else 0)
  {
    assert (h + [a])[..|h|] == h;
  }

  lemma {:induction false} SamePlants(cfg: Config, p: Plants, q: Plants, h: seq<Answer>, n: NodeId)
    requires forall i :: 0 <= i < |h| ==> (h[i].unit in p <==> h[i].unit in q) && (h[i].unit in p ==> p[h[i].unit] == q[h[i].unit])
    ensures Passed(cfg, p, h, n) == Passed(cfg, q, h, n) && Faults(cfg, p, h, n) == Faults(cfg, q, h, n)
  {
    if h != [] { SamePlants(cfg, p, q, h[..|h| - 1], n); }
  }

  lemma CheckRecords(cfg: Config, v: Verifier, a: Answer, n: NodeId)
    ensures var w := Check(cfg, v, a.unit, a.node, a.text);
      && w.seen == v.seen
      && TrustOf(w, n).passed == TrustOf(v, n).passed + (if a.node == n then One(Right(cfg, v.planted, a)) else 0)
      && TrustOf(w, n).failed == TrustOf(v, n).failed + (if a.node == n then One(Wrong(cfg, v.planted, a)) else 0)
  {
    hide Agreement;
  }

  lemma ReplayRecords(v: Verifier, a: Answer, n: NodeId)
    ensures var w := NoteReplay(v, a.unit, a.node, a.text, a.prompt);
      && TrustOf(w, n).passed == TrustOf(v, n).passed
      && TrustOf(w, n).failed == TrustOf(v, n).failed + (if a.node == n then One(IsReplay(v, a.text, a.prompt)) else 0)
  {
    hide Text.IsLong, Text.Normalised;
  }

  /** Judging one answer changes one node's record, by what that answer deserves. */
  lemma JudgeRecords(cfg: Config, v: Verifier, h: seq<Answer>, a: Answer, n: NodeId)
    requires Indexes(v, h)
    ensures var was, now := TrustOf(v, n), TrustOf(Judge(cfg, v, a), n);
      && now.passed == was.passed + (if a.node == n then One(Right(cfg, v.planted, a)) else 0)
      && now.failed == was.failed + (if a.node == n then One(Wrong(cfg, v.planted, a)) + One(Flagged(h, a)) else 0)
  {
    NoteReplayIndexes(v, h, a);
    CheckRecords(cfg, v, a, n);
    ReplayRecords(Check(cfg, v, a.unit, a.node, a.text), a, n);
    hide Flagged, Indexes, Right, Wrong, Check, NoteReplay, TrustOf;
  }

  /** Every record says what its node's answers deserve. */
  ghost predicate Recorded(cfg: Config, v: Verifier, s: Store, h: seq<Answer>) {
    && (forall i :: 0 <= i < |h| ==> h[i].unit in s.units)
    && forall n :: RecordFits(cfg, v, h, n)
  }

  predicate RecordFits(cfg: Config, v: Verifier, h: seq<Answer>, n: NodeId) {
    TrustOf(v, n).passed == Passed(cfg, v.planted, h, n) && TrustOf(v, n).failed == Faults(cfg, v.planted, h, n)
  }

  lemma StepRecords(cfg: Config, v: Verifier, s: Store, op: Op, h: seq<Answer>)
    requires Legal(s, op) && Agrees(cfg, v, s, h) && Recorded(cfg, v, s, h)
    ensures Recorded(cfg, Oversee(cfg, v, s, op), Step(s, op), h + Heard(s, op))
  {
    assert Indexes(v, h);
    hide Agrees, Step, Recorded, Indexes, Judge, RegisterAll;
    var w := Oversee(cfg, v, s, op);
    KeepsUnits(s, op);
    if Heard(s, op) == [] {
      assert h + Heard(s, op) == h;
      if op.Submit? { SubmissionRecords(cfg, v, s, op.sub, h); }
    } else {
      AnswerRecords(cfg, v, s, h, Heard(s, op)[0]);
      assert [Heard(s, op)[0]] == Heard(s, op);
    }
    RecordedLater(cfg, w, s, Step(s, op), h + Heard(s, op));
  }

  lemma RecordedLater(cfg: Config, v: Verifier, s: Store, t: Store, h: seq<Answer>)
    requires Recorded(cfg, v, s, h) && forall id :: id in s.units ==> id in t.units
    ensures Recorded(cfg, v, t, h)
  {
  }

  lemma SubmissionRecords(cfg: Config, v: Verifier, s: Store, sub: Submission, h: seq<Answer>)
    requires sub.Legal(s) && Recorded(cfg, v, s, h)
    ensures Recorded(cfg, RegisterAll(v, sub.canaryIds, sub.canaries), s, h)
  {
    var w := RegisterAll(v, sub.canaryIds, sub.canaries);
    SubmissionRegisters(v, s, sub);
    hide RegisterAll, Submission.Legal;
    forall n ensures RecordFits(cfg, w, h, n) {
      assert RecordFits(cfg, v, h, n);
      SamePlants(cfg, w.planted, v.planted, h, n);
    }
  }

  lemma AnswerRecords(cfg: Config, v: Verifier, s: Store, h: seq<Answer>, a: Answer)
    requires Recorded(cfg, v, s, h) && Indexes(v, h) && a.unit in s.units
    ensures Recorded(cfg, Judge(cfg, v, a), s, h + [a])
  {
    var w := Judge(cfg, v, a);
    JudgeRuns(cfg, v, a);
    hide Judge, Indexes, TrustOf, Passed, Faults, Right, Wrong, Flagged;
    forall n ensures RecordFits(cfg, w, h + [a], n) {
      assert RecordFits(cfg, v, h, n);
      JudgeRecords(cfg, v, h, a, n);
      Snoc(cfg, v.planted, h, a, n);
    }
  }

  lemma KeepsUnits(s: Store, op: Op)
    requires Legal(s, op)
    ensures forall id :: id in s.units ==> id in Step(s, op).units
  {
    if op.Submit? { CreatedUnits(s, op.sub); }
  }

  lemma {:induction false} RunRecords(cfg: Config, v: Verifier, s: Store, ops: seq<Op>, h: seq<Answer>)
    requires Inv(s) && LegalRun(s, ops) && Planned(cfg, ops) && Agrees(cfg, v, s, h) && Recorded(cfg, v, s, h)
    ensures Recorded(cfg, OverseeRun(cfg, v, s, ops), Run(s, ops), h + History(s, ops))
    decreases |ops|
  {
    hide Agrees, Inv, Oversee, Heard, Recorded;
    if ops == [] {
      assert h + History(s, ops) == h;
    } else {
      assert Planned(cfg, ops[1..]);
      StepKeeps(s, ops[0]);
      StepAgrees(cfg, v, s, ops[0], h);
      StepRecords(cfg, v, s, ops[0], h);
      RunRecords(cfg, Oversee(cfg, v, s, ops[0]), Step(s, ops[0]), ops[1..], h + Heard(s, ops[0]));
      assert h + Heard(s, ops[0]) + History(Step(s, ops[0]), ops[1..]) == h + History(s, ops);
    }
  }

  lemma CaughtInPrefix(cfg: Config, planted: Plants, h: seq<Answer>, k: nat, i: nat)
    requires i < k <= |h|
    ensures h[..k][i] == h[i] && Caught(cfg, planted, h[..k], i) == Caught(cfg, planted, h, i)
  {
    assert h[..k][..i] == h[..i];
  }

  lemma {:induction false} FaultsAreCaught(cfg: Config, planted: Plants, h: seq<Answer>, n: NodeId)
    ensures Faults(cfg, planted, h, n) > 0 <==> exists i: nat :: i < |h| && h[i].node == n && Caught(cfg, planted, h, i)
  {
    if h != [] {
      var k := |h| - 1;
      FaultsAreCaught(cfg, planted, h[..k], n);
      assert Faults(cfg, planted, h, n) > 0 <==>
             Faults(cfg, planted, h[..k], n) > 0 || (h[k].node == n && Caught(cfg, planted, h, k));
      hide Faults, Caught;
      forall i: nat | i < k
        ensures h[..k][i] == h[i] && Caught(cfg, planted, h[..k], i) == Caught(cfg, planted, h, i)
      {
        CaughtInPrefix(cfg, planted, h, k, i);
      }
    }
  }

  /**
   After any run a node is a suspect if and only if some answer of its that counted
   failed a canary, or repeated the text of an earlier answer to another question;
   and its record counts exactly those.
   */
  lemma SuspectsAreTheCaught(cfg: Config, ops: seq<Op>, n: NodeId)
    requires LegalRun(EMPTY, ops) && Planned(cfg, ops)
    ensures var v, h := OverseeRun(cfg, FRESH, EMPTY, ops), History(EMPTY, ops);
      && RecordFits(cfg, v, h, n)
      && (n in Suspects(v) <==> exists i: nat :: i < |h| && h[i].node == n && Caught(cfg, v.planted, h, i))
  {
    var v, h := OverseeRun(cfg, FRESH, EMPTY, ops), History(EMPTY, ops);
    VerifierAgrees(cfg, ops);
    RunRecorded(cfg, ops);
    hide OverseeRun, History, Run, Faults, Passed, Caught, Indexes, PlantsMatch, ChecksDone;
    FaultsAreCaught(cfg, v.planted, h, n);
    assert RecordFits(cfg, v, h, n);
    assert IsSuspectIn(v)(n) <==> TrustOf(v, n).failed > 0;
  }

  lemma RunRecorded(cfg: Config, ops: seq<Op>)
    requires LegalRun(EMPTY, ops) && Planned(cfg, ops)
    ensures Recorded(cfg, OverseeRun(cfg, FRESH, EMPTY, ops), Run(EMPTY, ops), History(EMPTY, ops))
  {
    hide Inv, OverseeRun, History, Agrees, Run, Recorded;
    FreshAgrees(cfg);
    FreshRecorded(cfg);
    RunRecords(cfg, FRESH, EMPTY, ops, []);
    assert [] + History(EMPTY, ops) == History(EMPTY, ops);
  }

  lemma FreshRecorded(cfg: Config)
    ensures Recorded(cfg, FRESH, EMPTY, [])
  {
  }
}
