/** The verifier as the orchestrator keeps it: records updated in place. */
module Verifiers {
  import opened Sequences
  import opened Store
  import Text
  import V = Verification

  class NodeTrust {
    const nodeId: NodeId
    var passed: nat
    var failed: nat
    var failures: seq<V.Failure>

    ghost function View(): V.Trust reads this { V.Trust(passed, failed, failures) }

    constructor (n: NodeId)
      ensures nodeId == n && View() == V.UNPROVEN
    {
      nodeId, passed, failed, failures := n, 0, 0, [];
    }

    method Pass()
      modifies this
      ensures View() == old(View()).Pass()
    {
      passed := passed + 1;
    }

    method Blame(f: V.Failure)
      modifies this
      ensures View() == old(View()).Blame(f)
    {
      failed, failures := failed + 1, failures + [f];
    }
  }

  class Verifier {
    const cfg: V.Config
    var trust: map<NodeId, NodeTrust>
    var order: seq<NodeId>
    var planted: map<UnitId, Canary>
    var checksRun: nat
    var checksFailed: nat
    var replaysCaught: nat
    var seen: map<string, V.Seen>

    /** The verifier as a value, kept in step with the fields above. */
    ghost var Model: V.Verifier

    ghost predicate Valid()
      reads this, trust.Values
    {
      && Model.order == order && (forall n :: n in order <==> n in trust)
      && Model.planted == planted && Model.seen == seen
      && Model.checksRun == checksRun && Model.checksFailed == checksFailed && Model.replaysCaught == replaysCaught
      && (forall n :: n in trust <==> n in Model.trust)
      && (forall n :: n in trust ==> trust[n].nodeId == n && trust[n].View() == Model.trust[n])
    }

    constructor (cfg: V.Config)
      ensures Valid() && Model == V.FRESH && this.cfg == cfg
    {
      this.cfg := cfg;
      trust, order, planted, seen := map[], [], map[], map[];
      checksRun, checksFailed, replaysCaught := 0, 0, 0;
      Model := V.FRESH;
    }

    function Select(batchSize: nat): (r: seq<Canary>)
      ensures r == V.Select(cfg, batchSize)
    {
      V.Select(cfg, batchSize)
    }

    method Register(id: UnitId, c: Canary)
      requires Valid()
      modifies this`planted, this`Model
      ensures Valid() && Model == V.Register(old(Model), id, c)
    {
      planted := planted[id := c];
      Model := V.Register(Model, id, c);
    }

    /** The record of a node, entered if there is none. */
    method RecordOf(n: NodeId) returns (t: NodeTrust)
      requires Valid()
      modifies this`trust, this`order, this`Model
      ensures Valid() && n in trust && trust[n] == t
      ensures trust.Values <= old(trust.Values) + {t} && (t in old(trust.Values) || fresh(t))
      ensures Model == V.SetTrust(old(Model), n, V.TrustOf(old(Model), n))
    {
      if n !in trust {
        t := new NodeTrust(n);
        trust, order := trust[n := t], order + [n];
        Model := V.SetTrust(Model, n, V.UNPROVEN);
      } else {
        t := trust[n];
        assert Model.trust == Model.trust[n := Model.trust[n]];
      }
    }

    method PassKnown(n: NodeId)
      requires Valid() && n in trust
      modifies this`Model, trust[n]
      ensures Valid() && Model == old(Model).(trust := old(Model).trust[n := old(Model).trust[n].Pass()])
    {
      trust[n].Pass();
      Model := Model.(trust := Model.trust[n := Model.trust[n].Pass()]);
    }

    method BlameKnown(n: NodeId, f: V.Failure)
      requires Valid() && n in trust
      modifies this`Model, trust[n]
      ensures Valid() && Model == old(Model).(trust := old(Model).trust[n := old(Model).trust[n].Blame(f)])
    {
      trust[n].Blame(f);
      Model := Model.(trust := Model.trust[n := Model.trust[n].Blame(f)]);
    }

    method Pass(n: NodeId)
      requires Valid()
      modifies this`trust, this`order, this`Model, trust.Values
      ensures Valid() && fresh(trust.Values - old(trust.Values))
      ensures Model == V.SetTrust(old(Model), n, V.TrustOf(old(Model), n).Pass())
    {
      hide Valid;
      var _ := RecordOf(n);
      PassKnown(n);
    }

    method Blame(n: NodeId, f: V.Failure)
      requires Valid()
      modifies this`trust, this`order, this`Model, trust.Values
      ensures Valid() && fresh(trust.Values - old(trust.Values))
      ensures Model == V.SetTrust(old(Model), n, V.TrustOf(old(Model), n).Blame(f))
    {
      hide Valid;
      var _ := RecordOf(n);
      BlameKnown(n, f);
    }

    /**
     `None` for a unit that was never planted. A canary is passed when the expected text comes
     back up to whitespace, which agrees by one; failed by an empty answer, which agrees by
     nothing; and otherwise judged by how similar the texts are. One record has one entry more.
     */
    method Check(id: UnitId, n: NodeId, text: string) returns (passed: Option<bool>)
      requires Valid()
      modifies this, trust.Values
      ensures Valid() && fresh(trust.Values - old(trust.Values))
      ensures Model == V.Check(cfg, old(Model), id, n, text)
      ensures passed == if id in old(planted) then Some(V.Passes(cfg, old(planted)[id], text)) else None
      ensures passed.Some? <==> id in old(planted)
      ensures passed.Some? ==> var want, got := Text.Normalised(old(planted)[id].expected), Text.Normalised(text);
        passed.value == (cfg.threshold <= if want == got then 1.0 else if want == "" || got == "" then 0.0 else cfg.similarity(want, got))
      ensures passed.Some? ==> n in trust && checksRun == old(checksRun) + 1
      ensures passed.Some? ==> checksFailed == old(checksFailed) + (if passed.value then 0 else 1)
      ensures passed.Some? ==>
        trust[n].passed == (if n in old(trust) then old(trust[n].passed) else 0) + (if passed.value then 1 else 0)
      ensures passed.Some? ==>
        trust[n].failed == (if n in old(trust) then old(trust[n].failed) else 0) + (if passed.value then 0 else 1)
      ensures passed.Some? ==>
        |trust[n].failures| == (if n in old(trust) then |old(trust[n].failures)| else 0) + (if passed.value then 0 else 1)
      ensures passed.None? ==> checksRun == old(checksRun) && checksFailed == old(checksFailed)
    {
      KnowsNode(n);
      ghost var v := Model;
      assert n in trust ==> trust[n].View() == v.trust[n];
      passed := Judge(id, n, text);
      KnowsNode(n);
      hide Valid, Text.Normalised;
    }

    lemma KnowsNode(n: NodeId)
      requires Valid()
      ensures Model.checksRun == checksRun && Model.checksFailed == checksFailed && Model.replaysCaught == replaysCaught
      ensures Model.planted == planted && Model.seen == seen
      ensures n in trust <==> n in Model.trust
      ensures n in trust ==> trust[n].View() == Model.trust[n]
    {
    }

    /** One more canary was judged. */
    method CountCheck(failed: bool)
      requires Valid()
      modifies this`checksRun, this`checksFailed, this`Model
      ensures Valid()
      ensures Model == old(Model).(checksRun := old(Model).checksRun + 1,
                                   checksFailed := old(Model).checksFailed + (if failed then 1 else 0))
    {
      checksRun, Model := checksRun + 1, Model.(checksRun := Model.checksRun + 1);
      if failed { checksFailed, Model := checksFailed + 1, Model.(checksFailed := Model.checksFailed + 1); }
    }

    /** The steps of `Check`. */
    method Judge(id: UnitId, n: NodeId, text: string) returns (passed: Option<bool>)
      requires Valid()
      modifies this, trust.Values
      ensures Valid() && fresh(trust.Values - old(trust.Values))
      ensures Model == V.Check(cfg, old(Model), id, n, text)
      ensures passed == if id in old(planted) then Some(V.Passes(cfg, old(planted)[id], text)) else None
    {
      KnowsPlanted();
      hide V.Agreement, Valid, V.TrustOf, V.SetTrust;
      if id !in planted { return None; }
      var canary := planted[id];
      var score := V.Agreement(cfg, canary.expected, text);
      var ok := score >= cfg.threshold;
      CountCheck(!ok);
      if ok { Pass(n); } else { Blame(n, V.WrongCanary(canary, score)); }
      return Some(ok);
    }

    /** Flags a long text that was first seen as the answer to another question, and remembers one that is new. */
    method NoteReplay(id: UnitId, n: NodeId, text: string, prompt: string) returns (flagged: bool)
      requires Valid()
      modifies this, trust.Values
      ensures Valid() && fresh(trust.Values - old(trust.Values))
      ensures Model == V.NoteReplay(old(Model), id, n, text, prompt)
      ensures flagged == V.IsReplay(old(Model), text, prompt)
      ensures flagged <==> |Text.Strip(text)| >= 40 && Text.Normalised(text) in old(seen)
                           && old(seen)[Text.Normalised(text)].prompt != Text.Normalised(prompt)
      ensures seen == if |Text.Strip(text)| >= 40 && Text.Normalised(text) !in old(seen)
                      then old(seen)[Text.Normalised(text) := V.Seen(Text.Normalised(prompt), id)] else old(seen)
      ensures replaysCaught == old(replaysCaught) + (if flagged then 1 else 0)
      ensures flagged ==> n in trust && trust[n].failed == (if n in old(trust) then old(trust[n].failed) else 0) + 1
    {
      KnowsNode(n);
      ghost var v := Model;
      assert n in trust ==> trust[n].View() == v.trust[n];
      flagged := Compare(id, n, text, prompt);
      KnowsNode(n);
      hide Valid, Text.Normalised, Text.Strip;
    }

    /** The steps of `NoteReplay`: the text is compared with the first of its kind, which it may be itself. */
    method Compare(id: UnitId, n: NodeId, text: string, prompt: string) returns (flagged: bool)
      requires Valid()
      modifies this, trust.Values
      ensures Valid() && fresh(trust.Values - old(trust.Values))
      ensures Model == V.NoteReplay(old(Model), id, n, text, prompt)
      ensures flagged == V.IsReplay(old(Model), text, prompt)
    {
      if |Text.Strip(text)| < Text.REPLAY_MIN_LENGTH { return false; }
      var answer, question := Text.Normalised(text), Text.Normalised(prompt);
      if answer !in seen {
        seen := seen[answer := V.Seen(question, id)];
        Model := Model.(seen := seen);
      }
      var first := seen[answer];
      if first.prompt == question { return false; }
      replaysCaught, Model := replaysCaught + 1, Model.(replaysCaught := replaysCaught + 1);
      Blame(n, V.Replayed(first.unit));
      return true;
    }

    lemma KnowsPlanted()
      requires Valid()
      ensures Model.planted == planted
    {
    }

    /** The nodes with a failure on record, in the order they were first judged. */
    method Suspects() returns (r: seq<NodeId>)
      requires Valid()
      ensures r == V.Suspects(Model)
      ensures forall n :: n in r <==> n in trust && trust[n].failed > 0
    {
      hide Filter;
      ghost var p := V.IsSuspectIn(Model);
      r := [];
      assert order[..0] == [] && Filter(order[..0], p) == [] by { FilterNone(order[..0], p); }
      for i := 0 to |order|
        invariant r == Filter(order[..i], p)
      {
        var n := order[i];
        assert order[..i + 1] == order[..i] + [n];
        FilterSnoc(order[..i], n, p);
        assert p(n) == (trust[n].failed > 0);
        if trust[n].failed > 0 { r := r + [n]; } else { assert r + [] == r; }
      }
      assert order[..|order|] == order;
    }
  }
}
