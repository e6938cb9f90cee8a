/** `lease` in terms of the queue as a whole rather than of its loop. */
module Leasing {
  import opened Sequences
  import opened Store
  import opened Invariant

  function Min(a: int, b: int): int { if a < b then a else b }

  function IsLive(s: Store): UnitId -> bool {
    (id: UnitId) => Leasable(s, id)
  }

  /** The waiting work in queue order, stale entries left out. */
  function Live(s: Store): seq<UnitId> {
    Filter(s.pending, IsLive(s))
  }

  lemma EligiblesSnoc(s: Store, model: string, q: seq<UnitId>, x: UnitId)
    ensures var e := Eligibles(s, model, q);
      Eligibles(s, model, q + [x]) == if Eligible(s, model, x) && x !in e then e + [x] else e
  {
    assert (q + [x])[..|q|] == q;
  }

  lemma {:induction false} EligiblesGrow(s: Store, model: string, q: seq<UnitId>, k: nat)
    requires k <= |q|
    ensures Eligibles(s, model, q[..k]) <= Eligibles(s, model, q)
  {
    if k < |q| {
      EligiblesGrow(s, model, q[..|q| - 1], k);
      assert q[..|q| - 1][..k] == q[..k];
    } else {
      assert q[..k] == q;
    }
  }

  /** Asking for one takes the head of the queue. */
  lemma TakeHead(s: Store, x: UnitId, rest: seq<UnitId>)
    requires s.pending == [x] + rest && Eligible(s, "", x)
    ensures Granted(s, 1, "") == [x] && LeftQueued(s, 1, "") == rest
  {
    var q := s.pending;
    assert q[..0] == [] && q[..1] == [] + [x] && q[1..] == rest;
    EligiblesSnoc(s, "", [], x);
    assert ReadTo(s, "", 1, 0) == ReadTo(s, "", 1, 1) == 1;
    FilterSnoc([], x, IsSkipped(s, ""));
  }

  /** The loop stops at the first place where it holds enough, or at the end of the queue. */
  lemma {:induction false} ReadToIsFirst(s: Store, model: string, count: int, i: nat)
    requires i <= |s.pending|
    ensures var k := ReadTo(s, model, count, i);
      && (k == |s.pending| || |Eligibles(s, model, s.pending[..k])| >= count)
      && (k > i ==> |Eligibles(s, model, s.pending[..k - 1])| < count)
    decreases |s.pending| - i
  {
    if i < |s.pending| && |Eligibles(s, model, s.pending[..i])| < count {
      ReadToIsFirst(s, model, count, i + 1);
    }
  }

  /** A lease takes the first `count` distinct units the node may serve, in queue order. */
  lemma GrantedAreFirst(s: Store, count: nat, model: string)
    ensures var e := Eligibles(s, model, s.pending);
      Granted(s, count, model) == e[..Min(count, |e|)]
  {
    var k := ReadTo(s, model, count, 0);
    ReadToIsFirst(s, model, count, 0);
    EligiblesGrow(s, model, s.pending, k);
    if k > 0 {
      assert s.pending[..k][..k - 1] == s.pending[..k - 1];
    }
    if k == |s.pending| { assert s.pending[..k] == s.pending; }
  }

  /** Only an empty-handed queue sends a node away with less than it asked for. */
  lemma ShortOnlyWhenDry(s: Store, n: NodeId, count: nat, model: string, now: real, id: UnitId)
    requires Inv(s) && |Granted(s, count, model)| < count
    ensures !Eligible(Lease(s, n, count, model, now), model, id)
  {
    GrantedAreFirst(s, count, model);
    EligiblesMembers(s, model, s.pending);
  }

  /** Nothing but the granted units leaves the live queue, and the rest keeps its order. */
  lemma LiveAfterLease(s: Store, n: NodeId, count: int, model: string, now: real)
    ensures Live(Lease(s, n, count, model, now)) == Filter(Live(s), id => id !in Granted(s, count, model))
  {
    var t := Lease(s, n, count, model, now);
    var k := ReadTo(s, model, count, 0);
    var read, tail := s.pending[..k], s.pending[k..];
    var granted := Granted(s, count, model);
    EligiblesMembers(s, model, read);
    var before := IsLive(s);
    var after := IsLive(t);
    var kept := (id: UnitId) => Leasable(s, id) && id !in granted;
    var skip := IsSkipped(s, model);
    assert forall id :: after(id) == kept(id);
    calc {
      Filter(t.pending, after);
      { FilterAppend(Filter(read, skip), tail, after); }
      Filter(Filter(read, skip), after) + Filter(tail, after);
      { FilterFilter(read, skip, after, kept); FilterSame(tail, after, kept); }
      Filter(read, kept) + Filter(tail, kept);
      { FilterAppend(read, tail, kept); assert read + tail == s.pending; }
      Filter(s.pending, kept);
      { FilterFilter(s.pending, before, id => id !in granted, kept); }
      Filter(Filter(s.pending, before), id => id !in granted);
    }
  }
}
