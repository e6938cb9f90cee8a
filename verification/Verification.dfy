/** Canary bookkeeping and replay detection, as operations on values. */
module Verification {
  import opened Sequences
  import opened Store
  import Text

  /** What an operator configures. `similarity` stands for the sequence matcher's ratio. */
  datatype Config = Config(canaries: seq<Canary>, rate: real, threshold: real, similarity: (string, string) -> real)

  datatype Failure = WrongCanary(canary: Canary, score: real) | Replayed(firstUnit: UnitId)

  /** A node's record. */
  datatype Trust = Trust(passed: nat, failed: nat, failures: seq<Failure>) {
    predicate IsSuspect() { failed > 0 }
    function Pass(): Trust { this.(passed := passed + 1) }
    function Blame(f: Failure): Trust { this.(failed := failed + 1, failures := failures + [f]) }
  }

  const UNPROVEN := Trust(0, 0, [])

  /** Where an answer was first seen: the question it answered and the unit. */
  datatype Seen = Seen(prompt: string, unit: UnitId)

  /** `order` is the insertion order of the dictionary `trust`. A text stands for its own fingerprint. */
  datatype Verifier = Verifier(
    trust: map<NodeId, Trust>, order: seq<NodeId>, planted: map<UnitId, Canary>,
    checksRun: nat, checksFailed: nat, replaysCaught: nat, seen: map<string, Seen>)

  const FRESH := Verifier(map[], [], map[], 0, 0, 0, map[])

  // ── Planting ───────────────────────────────────────────────────────────

  function Clamp(rate: real): real { if rate < 0.0 then 0.0 else if rate > 1.0 then 1.0 else rate }

  /** Rounding to the nearest integer, ties to even. */
  function Round(x: real): int {
    var f := x.Floor;
    var d := x - f as real;
    if d < 0.5 || (d == 0.5 && f % 2 == 0) then f else f + 1
  }

  function Share(n: nat, rate: real): real { n as real * rate }

  function CanaryCount(cfg: Config, n: nat): nat {
    if cfg.canaries == [] || Clamp(cfg.rate) <= 0.0 || n == 0 then 0
    else
      var c := Round(Share(n, Clamp(cfg.rate)));
      if c > 1 then c else 1
  }

  /** At least one canary whenever verification is on, and never more than one per real unit. */
  lemma CanaryCountInRange(cfg: Config, n: nat)
    ensures if cfg.canaries == [] || cfg.rate <= 0.0 || n == 0 then CanaryCount(cfg, n) == 0
            else 1 <= CanaryCount(cfg, n) <= n
  {
    hide Round;
    ShareAtMost(n, Clamp(cfg.rate));
    RoundAtMost(Share(n, Clamp(cfg.rate)), n);
  }

  /** `k` is the integer nearest to `x`, the even one of two that are equally near. */
  ghost predicate Nearest(k: int, x: real) {
    && -0.5 <= k as real - x <= 0.5
    && (k as real - x == 0.5 || x - k as real == 0.5 ==> k % 2 == 0)
  }

  lemma RoundIsNearest(x: real, k: int)
    ensures Nearest(Round(x), x)
    ensures Nearest(k, x) ==> k == Round(x)
  {
    var f := x.Floor;
    assert f as real <= x < f as real + 1.0;
    if Nearest(k, x) { assert k == f || k == f + 1; }
  }

  /** The count is the share of the batch that the rate asks for, to the nearest canary, and one at least. */
  lemma CanaryCountIsNearest(cfg: Config, n: nat, k: int)
    requires cfg.canaries != [] && cfg.rate > 0.0 && n > 0
    requires Nearest(k, n as real * (if cfg.rate > 1.0 then 1.0 else cfg.rate))
    ensures CanaryCount(cfg, n) == if k > 1 then k else 1
  {
    var rate := if cfg.rate > 1.0 then 1.0 else cfg.rate;
    assert Nearest(k, Share(n, rate));
    hide Share, Nearest, Round;
    RoundIsNearest(Share(n, rate), k);
    assert Clamp(cfg.rate) == rate;
  }

  lemma {:induction false} ShareAtMost(n: nat, rate: real)
    requires 0.0 <= rate <= 1.0
    ensures n as real * rate <= n as real
  {
    if n > 0 {
      ShareAtMost(n - 1, rate);
      assert n as real * rate == (n - 1) as real * rate + rate;
    }
  }

  lemma RoundAtMost(x: real, n: int)
    requires x <= n as real
    ensures Round(x) <= n
  {
    assert x.Floor as real <= x;
  }

  function Select(cfg: Config, n: nat): (r: seq<Canary>)
    ensures |r| == CanaryCount(cfg, n)
  {
    var k := CanaryCount(cfg, n);
    seq(k, i requires 0 <= i < k => if cfg.canaries == [] then Canary("", "", "") else cfg.canaries[i % |cfg.canaries|])
  }

  /**
   Selection starts over with every batch: what is planted in a batch is the beginning
   of the list, as far as the batch's count reaches. So every canary is planted in a
   batch if and only if each stands among that many first ones somewhere.
   */
  lemma UsedIffReached(cfg: Config, n: nat, c: Canary)
    ensures c in Select(cfg, n) <==> exists q :: 0 <= q < |cfg.canaries| && q < CanaryCount(cfg, n) && cfg.canaries[q] == c
  {
    hide CanaryCount;
    var r, cs := Select(cfg, n), cfg.canaries;
    assert |r| == CanaryCount(cfg, n);
    forall i | 0 <= i < |r| && cs != [] ensures i % |cs| < |cs| && i % |cs| <= i && r[i] == cs[i % |cs|] {
      ModAtMost(i, |cs|);
    }
    forall i | 0 <= i < |r| && i < |cs| ensures r[i] == cs[i] {
      SmallMod(i, |cs|);
    }
    if cs == [] { NoneSelected(cfg, n); }
  }

  /** Selection goes round the list in its order: it begins with the first, and each turn is like the one before. */
  lemma SelectGoesRound(cfg: Config, n: nat, i: nat)
    requires i < CanaryCount(cfg, n)
    ensures |Select(cfg, n)| == CanaryCount(cfg, n) && cfg.canaries != []
    ensures i < |cfg.canaries| ==> Select(cfg, n)[i] == cfg.canaries[i]
    ensures i >= |cfg.canaries| ==> Select(cfg, n)[i] == Select(cfg, n)[i - |cfg.canaries|]
  {
    var m := |cfg.canaries|;
    if m == 0 { NoneSelected(cfg, n); }
    hide CanaryCount;
    if i < m { SmallMod(i, m); } else { TurnMod(i, m); }
  }

  lemma TurnMod(i: nat, n: nat)
    requires 0 < n <= i
    ensures i % n == (i - n) % n
  {
    var p, q := i / n, (i - n) / n;
    assert n * p + i % n == n + (n * q + (i - n) % n);
    assert n * (p - q - 1) == n * p - n * q - n;
    WholeMultiples(n, p - q - 1);
  }

  lemma WholeMultiples(n: int, d: int)
    requires n > 0
    ensures d > 0 ==> n * d >= n
    ensures d < 0 ==> n * d <= -n
  {
    if d > 0 { assert n * d == n + n * (d - 1) && n * (d - 1) >= 0; }
    if d < 0 { assert n * d == -n - n * (-d - 1) && n * (-d - 1) >= 0; }
  }

  /** Of canaries that are all different, all are planted just when the count is no less than their number. */
  lemma AllUsedIffEnough(cfg: Config, n: nat)
    requires NoDup(cfg.canaries)
    ensures (forall c :: c in cfg.canaries ==> c in Select(cfg, n)) <==> |cfg.canaries| <= CanaryCount(cfg, n)
  {
    hide CanaryCount, Select;
    forall c ensures c in Select(cfg, n) <==> exists q :: 0 <= q < |cfg.canaries| && q < CanaryCount(cfg, n) && cfg.canaries[q] == c {
      UsedIffReached(cfg, n, c);
    }
    if CanaryCount(cfg, n) < |cfg.canaries| {
      var last := cfg.canaries[|cfg.canaries| - 1];
      assert last in cfg.canaries && last !in Select(cfg, n);
    }
  }

  lemma NoneSelected(cfg: Config, n: nat)
    requires cfg.canaries == []
    ensures CanaryCount(cfg, n) == 0
  {
  }

  lemma ModAtMost(i: nat, n: nat)
    requires n > 0
    ensures i % n < n && i % n <= i
  {
    if i < n { SmallMod(i, n); }
  }

  lemma SmallMod(i: nat, n: nat)
    requires i < n
    ensures i % n == i
  {
  }

  function Register(v: Verifier, id: UnitId, c: Canary): Verifier {
    v.(planted := v.planted[id := c])
  }

  function RegisterAll(v: Verifier, ids: seq<UnitId>, cs: seq<Canary>): Verifier
    requires |ids| == |cs|
  {
    if ids == [] then v else
      var k := |ids| - 1; Register(RegisterAll(v, ids[..k], cs[..k]), ids[k], cs[k])
  }

  // ── Checking ───────────────────────────────────────────────────────────

  function Agreement(cfg: Config, a: string, b: string): real {
    var left, right := Text.Normalised(a), Text.Normalised(b);
    if left == right then 1.0 else if left == "" || right == "" then 0.0 else cfg.similarity(left, right)
  }

  function Passes(cfg: Config, c: Canary, text: string): bool {
    Agreement(cfg, c.expected, text) >= cfg.threshold
  }

  function TrustOf(v: Verifier, n: NodeId): Trust {
    if n in v.trust then v.trust[n] else UNPROVEN
  }

  /** Replace a node's record, entering the node if it has none. */
  function SetTrust(v: Verifier, n: NodeId, t: Trust): Verifier {
    v.(trust := v.trust[n := t], order := if n in v.trust then v.order else v.order + [n])
  }

  function Check(cfg: Config, v: Verifier, id: UnitId, n: NodeId, text: string): Verifier {
    if id !in v.planted then v else
      var c := v.planted[id];
      var w := v.(checksRun := v.checksRun + 1);
      if Passes(cfg, c, text) then SetTrust(w, n, TrustOf(v, n).Pass())
      else SetTrust(w.(checksFailed := v.checksFailed + 1), n,
                    TrustOf(v, n).Blame(WrongCanary(c, Agreement(cfg, c.expected, text))))
  }

  /** Whether the first answer with this text was to another question. */
  predicate IsReplay(v: Verifier, text: string, prompt: string) {
    && Text.IsLong(text) && Text.Normalised(text) in v.seen
    && v.seen[Text.Normalised(text)].prompt != Text.Normalised(prompt)
  }

  function NoteReplay(v: Verifier, id: UnitId, n: NodeId, text: string, prompt: string): Verifier {
    if !Text.IsLong(text) then v
    else if Text.Normalised(text) !in v.seen then
      v.(seen := v.seen[Text.Normalised(text) := Seen(Text.Normalised(prompt), id)])
    else if IsReplay(v, text, prompt) then
      SetTrust(v.(replaysCaught := v.replaysCaught + 1), n,
               TrustOf(v, n).Blame(Replayed(v.seen[Text.Normalised(text)].unit)))
    else v
  }

  function IsSuspectIn(v: Verifier): NodeId -> bool {
    (n: NodeId) => n in v.trust && v.trust[n].IsSuspect()
  }

  function Suspects(v: Verifier): seq<NodeId> {
    Filter(v.order, IsSuspectIn(v))
  }

  // ── What a check comes to ──────────────────────────────────────────────

  /**
   The expected text up to whitespace agrees in full, an empty text with no other does not
   agree at all, and any other agrees as far as the normalised texts are similar.
   */
  lemma PassesExactly(cfg: Config, c: Canary, text: string)
    ensures var want, got := Text.Normalised(c.expected), Text.Normalised(text);
      && (want == got ==> (Passes(cfg, c, text) <==> cfg.threshold <= 1.0))
      && (want != got && (want == "" || got == "") ==> (Passes(cfg, c, text) <==> cfg.threshold <= 0.0))
      && (want != got && want != "" && got != "" ==> (Passes(cfg, c, text) <==> cfg.similarity(want, got) >= cfg.threshold))
  {
  }

  // ── The books balance ──────────────────────────────────────────────────

  function ChecksAt(v: Verifier): NodeId -> int { (n: NodeId) => TrustOf(v, n).passed + TrustOf(v, n).failed }
  function FailedAt(v: Verifier): NodeId -> int { (n: NodeId) => TrustOf(v, n).failed }

  function ChecksOf(v: Verifier): int { Sum(v.order, ChecksAt(v)) }
  function FailedOf(v: Verifier): int { Sum(v.order, FailedAt(v)) }

  /** Every check and every caught replay is on exactly one node's record, with its reason. */
  ghost predicate Balanced(v: Verifier) {
    && NoDup(v.order) && (forall n :: n in v.order <==> n in v.trust)
    && ChecksOf(v) == v.checksRun + v.replaysCaught
    && FailedOf(v) == v.checksFailed + v.replaysCaught
    && (forall n :: n in v.trust ==> |v.trust[n].failures| == v.trust[n].failed)
  }

  /** Adding to one node's record adds as much to the totals. */
  lemma SetTrustAdds(v: Verifier, n: NodeId, t: Trust)
    requires NoDup(v.order) && (forall m :: m in v.order <==> m in v.trust)
    ensures var w := SetTrust(v, n, t); var was := TrustOf(v, n);
      && NoDup(w.order) && (forall m :: m in w.order <==> m in w.trust)
      && ChecksOf(w) == ChecksOf(v) + (t.passed + t.failed) - (was.passed + was.failed)
      && FailedOf(w) == FailedOf(v) + t.failed - was.failed
  {
    hide Sum;
    var w := SetTrust(v, n, t);
    if n in v.trust {
      SumOneChange(v.order, n, ChecksAt(w), ChecksAt(v));
      SumOneChange(v.order, n, FailedAt(w), FailedAt(v));
    } else {
      SumSnoc(v.order, n, ChecksAt(w));
      SumSnoc(v.order, n, FailedAt(w));
      SumSame(v.order, ChecksAt(w), ChecksAt(v));
      SumSame(v.order, FailedAt(w), FailedAt(v));
    }
  }

  lemma CheckBalances(cfg: Config, v: Verifier, id: UnitId, n: NodeId, text: string)
    requires Balanced(v)
    ensures Balanced(Check(cfg, v, id, n, text))
  {
    if id in v.planted {
      var c := v.planted[id];
      var t := if Passes(cfg, c, text) then TrustOf(v, n).Pass()
               else TrustOf(v, n).Blame(WrongCanary(c, Agreement(cfg, c.expected, text)));
      SetTrustBalances(v, Check(cfg, v, id, n, text), n, t);
    }
  }

  lemma ReplayBalances(v: Verifier, id: UnitId, n: NodeId, text: string, prompt: string)
    requires Balanced(v)
    ensures Balanced(NoteReplay(v, id, n, text, prompt))
  {
    var w := NoteReplay(v, id, n, text, prompt);
    if IsReplay(v, text, prompt) {
      SetTrustBalances(v, w, n, TrustOf(v, n).Blame(Replayed(v.seen[Text.Normalised(text)].unit)));
    } else {
      BalancedByTrust(v, w);
    }
  }

  lemma BalancedByTrust(v: Verifier, w: Verifier)
    requires Balanced(v) && w.trust == v.trust && w.order == v.order
    requires w.checksRun == v.checksRun && w.checksFailed == v.checksFailed && w.replaysCaught == v.replaysCaught
    ensures Balanced(w)
  {
    SumSame(v.order, ChecksAt(w), ChecksAt(v));
    SumSame(v.order, FailedAt(w), FailedAt(v));
  }

  lemma SetTrustBalances(v: Verifier, w: Verifier, n: NodeId, t: Trust)
    requires Balanced(v) && w.trust == SetTrust(v, n, t).trust && w.order == SetTrust(v, n, t).order
    requires |t.failures| == t.failed
    requires (t.passed + t.failed) - (TrustOf(v, n).passed + TrustOf(v, n).failed)
             == (w.checksRun + w.replaysCaught) - (v.checksRun + v.replaysCaught)
    requires t.failed - TrustOf(v, n).failed == (w.checksFailed + w.replaysCaught) - (v.checksFailed + v.replaysCaught)
    ensures Balanced(w)
  {
    hide Sum;
    var u := SetTrust(v, n, t);
    SetTrustAdds(v, n, t);
    SumSame(u.order, ChecksAt(w), ChecksAt(u));
    SumSame(u.order, FailedAt(w), FailedAt(u));
  }

  // ── The replay index against the full history ──────────────────────────

  /** One answer that counted. */
  datatype Answer = Answer(unit: UnitId, node: NodeId, text: string, prompt: string)

  predicate SameText(a: Answer, b: Answer) { Text.Normalised(a.text) == Text.Normalised(b.text) }

  /** The first long answer of `h` with the text of `a`, if there is one. */
  function FirstWithText(h: seq<Answer>, a: Answer): Option<Answer> {
    if h == [] then None
    else if Text.IsLong(h[0].text) && SameText(h[0], a) then Some(h[0])
    else FirstWithText(h[1..], a)
  }

  /** The definition of a replay that remembers everything: the first equal answer was to another question. */
  predicate Flagged(h: seq<Answer>, a: Answer) {
    && Text.IsLong(a.text) && FirstWithText(h, a).Some?
    && Text.Normalised(FirstWithText(h, a).value.prompt) != Text.Normalised(a.prompt)
  }

  function FlaggedCount(h: seq<Answer>): nat {
    if h == [] then 0 else
      var k := |h| - 1; FlaggedCount(h[..k]) + (if Flagged(h[..k], h[k]) then 1 else 0)
  }

  /** The index of first answers holds what the full history would say. */
  ghost predicate Indexes(v: Verifier, h: seq<Answer>) {
    && v.replaysCaught == FlaggedCount(h)
    && forall a: Answer :: Text.IsLong(a.text) ==>
         IndexedAs(v.seen, Text.Normalised(a.text), FirstWithText(h, a))
  }

  predicate IndexedAs(seen: map<string, Seen>, key: string, first: Option<Answer>) {
    if first.None? then key !in seen
    else key in seen && seen[key] == Seen(Text.Normalised(first.value.prompt), first.value.unit)
  }

  lemma {:induction false} FirstWithTextSnoc(h: seq<Answer>, b: Answer, a: Answer)
    ensures FirstWithText(h + [b], a) ==
      if FirstWithText(h, a).Some? then FirstWithText(h, a)
      else if Text.IsLong(b.text) && SameText(b, a) then Some(b) else None
  {
    if h == [] {
      assert h + [b] == [b];
    } else {
      assert (h + [b])[1..] == h[1..] + [b];
      FirstWithTextSnoc(h[1..], b, a);
    }
  }

  lemma NoteReplayIndexes(v: Verifier, h: seq<Answer>, b: Answer)
    requires Indexes(v, h)
    ensures IsReplay(v, b.text, b.prompt) == Flagged(h, b)
    ensures Indexes(NoteReplay(v, b.unit, b.node, b.text, b.prompt), h + [b])
  {
    var w := NoteReplay(v, b.unit, b.node, b.text, b.prompt);
    assert (h + [b])[..|h|] == h;
    forall a: Answer | Text.IsLong(a.text)
      ensures IndexedAs(w.seen, Text.Normalised(a.text), FirstWithText(h + [b], a))
    {
      FirstWithTextSnoc(h, b, a);
      if Text.IsLong(b.text) && SameText(b, a) {
        SameTextSameFirst(h, a, b);
      }
    }
  }

  lemma {:induction false} SameTextSameFirst(h: seq<Answer>, a: Answer, b: Answer)
    requires SameText(a, b)
    ensures FirstWithText(h, a) == FirstWithText(h, b)
  {
    if h != [] { SameTextSameFirst(h[1..], a, b); }
  }

  /** What happens to the verifier when an answer counts. */
  function Judge(cfg: Config, v: Verifier, a: Answer): Verifier {
    NoteReplay(Check(cfg, v, a.unit, a.node, a.text), a.unit, a.node, a.text, a.prompt)
  }

  lemma JudgeKeeps(cfg: Config, v: Verifier, h: seq<Answer>, a: Answer)
    requires Balanced(v) && Indexes(v, h)
    ensures Balanced(Judge(cfg, v, a)) && Indexes(Judge(cfg, v, a), h + [a])
  {
    CheckBalances(cfg, v, a.unit, a.node, a.text);
    var w := Check(cfg, v, a.unit, a.node, a.text);
    ReplayBalances(w, a.unit, a.node, a.text, a.prompt);
    NoteReplayIndexes(w, h, a);
  }

  // ── An honest fleet ────────────────────────────────────────────────────

  /**
   All answers come from one function of the question that tells long answers to
   different questions apart, and that answers every configured canary well enough.
   */
  ghost predicate HonestModel(cfg: Config, f: string -> string) {
    && (forall c :: c in cfg.canaries ==> Passes(cfg, c, f(c.prompt)))
    && (forall p, q :: Text.IsLong(f(p)) && Text.Normalised(f(p)) == Text.Normalised(f(q))
          ==> Text.Normalised(p) == Text.Normalised(q))
  }

  ghost predicate HonestHistory(h: seq<Answer>, f: string -> string) {
    forall i :: 0 <= i < |h| ==> h[i].text == f(h[i].prompt)
  }

  lemma {:induction false} HonestNeverFlagged(cfg: Config, h: seq<Answer>, a: Answer, f: string -> string)
    requires HonestModel(cfg, f) && HonestHistory(h, f) && a.text == f(a.prompt)
    ensures !Flagged(h, a)
  {
    if h != [] {
      assert HonestHistory(h[1..], f);
      HonestNeverFlagged(cfg, h[1..], a, f);
      assert h[0].text == f(h[0].prompt);
    }
  }
}
