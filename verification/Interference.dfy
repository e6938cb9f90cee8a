/**
 Why the erasure theorem asks that failure reports do not requeue waiting units. A
 node reports a failure after its lease expired, so its unit is queued twice; the
 second entry outlives the next lease. A lease that goes on to take a canary behind
 it sweeps it up, and no lease of any size does that in a store without the canary
 and leaves everything else as it was.
 */
module Interference {
  import opened Sequences
  import opened Store
  import opened Invariant
  import opened Leasing
  import opened Verdicts

  const A: UnitId := 0
  const C: UnitId := 1
  const D: UnitId := 2
  const ASK := Request([], "", 1, 0.0)
  const FIRST := Submission(0, [A], [ASK], [C], [Canary("", "", "")], "", 0.0)
  const SECOND := Submission(1, [D], [ASK], [], [], "", 0.0)

  /** Just after a lease granted at time zero has run out. */
  const LATE: real := LEASE_DURATION_SEC + 1.0

  function Bare(sub: Submission): Submission { sub.(canaryIds := [], canaries := []) }

  // ── The run ────────────────────────────────────────────────────────────

  /**
   Node 9 takes A, goes dark, and reports its failure after the reaper was there. Node 3
   takes the canary and leaves, so that the canary is queued behind both entries of A.
   Node 1 takes A, and node 5 the canary. Node 1 leaves, and node 2 asks for one unit.
   */
  function Rude(): seq<Op> {
    [Submit(FIRST), Take(9, 1, "", 0.0), Reap(LATE), Refuse(A, 9, "x", LATE), Take(3, 1, "", LATE), NodeLeft(3),
     Submit(SECOND), Take(1, 1, "", LATE), Take(5, 1, "", LATE), NodeLeft(1), Take(2, 1, "", LATE)]
  }

  /** The same event in a store without canaries, where each lease may be of any size. */
  ghost predicate Recounts(op: Op, bare: Op) {
    match op
    case Submit(sub) => bare == Submit(Bare(sub))
    case Take(n, _, model, now) => bare.Take? && bare == Take(n, bare.count, model, now)
    case _ => bare == op
  }

  ghost predicate RecountsAll(ops: seq<Op>, bare: seq<Op>) {
    |ops| == |bare| && forall i :: 0 <= i < |ops| ==> Recounts(ops[i], bare[i])
  }

  ghost predicate SameCounts(s: Store, e: Store) {
    forall b :: CountsOf(s, b) == CountsOf(e, b)
  }

  /** From event `i` on the client reads the same counts of every batch in both stores, after every event. */
  ghost predicate AlikeFrom(s: Store, e: Store, ops: seq<Op>, bare: seq<Op>, i: nat)
    requires i <= |ops| == |bare|
    decreases |ops| - i
  {
    && SameCounts(s, e)
    && (i < |ops| && Legal(s, ops[i]) && Legal(e, bare[i]) ==>
          AlikeFrom(Step(s, ops[i]), Step(e, bare[i]), ops, bare, i + 1))
  }

  // ── The stores along it, with the canary and without ───────────────────

  const WAITING_A := NewUnit(0, 0, ASK, "", 0.0)
  const TAKEN_A := WAITING_A.Grant(9, 0.0)
  const EXPIRED_A := TAKEN_A.Requeue()
  const REFUSED_A := EXPIRED_A.(error := "x")
  const LEASED_A := REFUSED_A.Grant(1, LATE)
  const BACK_A := LEASED_A.Requeue()
  const WAITING_C := NewUnit(0, 1, AsRequest(Canary("", "", "")), "", 0.0)
  const TAKEN_C := WAITING_C.Grant(3, LATE)
  const BACK_C := TAKEN_C.Requeue()
  const LEASED_C := BACK_C.Grant(5, LATE)
  const WAITING_D := NewUnit(1, 0, ASK, "", 0.0)
  const LEASED_D := WAITING_D.Grant(2, LATE)

  function With(a: Unit, c: Unit, q: seq<UnitId>): Store {
    Store(map[A := a, C := c], [A, C], map[0 := FIRST.NewBatch()], q)
  }

  function Without(a: Unit, q: seq<UnitId>): Store {
    Store(map[A := a], [A], map[0 := Bare(FIRST).NewBatch()], q)
  }

  function Later(s: Store, d: Unit, q: seq<UnitId>): Store {
    Store(s.units[D := d], s.order + [D], s.batches[1 := SECOND.NewBatch()], q)
  }

  // ── Leases of any size ─────────────────────────────────────────────────

  /** Asking for none, or for less, changes nothing. */
  lemma TakeNone(s: Store, n: NodeId, count: int, now: real)
    requires count <= 0
    ensures Lease(s, n, count, "", now) == s
  {
    assert ReadTo(s, "", count, 0) == 0 && s.pending[..0] == [] && s.pending[0..] == s.pending;
    assert GrantAll(s.units, [], n, now) == s.units;
  }

  /** One unit behind a stale entry: the lease sweeps the entry up. */
  lemma TakeBehindStale(s: Store, x: UnitId, y: UnitId, rest: seq<UnitId>)
    requires s.pending == [x, y] + rest && !Leasable(s, x) && Eligible(s, "", y)
    ensures Granted(s, 1, "") == [y] && LeftQueued(s, 1, "") == rest
  {
    var q := s.pending;
    assert q[..0] == [] && q[..1] == [] + [x] && q[..2] == [x] + [y] && q[2..] == rest;
    EligiblesSnoc(s, "", [], x);
    EligiblesSnoc(s, "", [x], y);
    assert ReadTo(s, "", 1, 0) == ReadTo(s, "", 1, 1) == ReadTo(s, "", 1, 2) == 2;
    FilterSnoc([], x, IsSkipped(s, ""));
    FilterSnoc([x], y, IsSkipped(s, ""));
  }

  /** Whoever asks for one or more gets the first. */
  lemma FirstTaken(s: Store, count: int, x: UnitId)
    requires count >= 1 && Eligibles(s, "", s.pending) != [] && Eligibles(s, "", s.pending)[0] == x
    ensures x in Granted(s, count, "")
  {
    GrantedAreFirst(s, count, "");
    assert Granted(s, count, "")[0] == x;
  }

  /** Nobody gets the second without the first, and asking for two or more gets both. */
  lemma SecondTaken(s: Store, count: int, x: UnitId, y: UnitId)
    requires Eligibles(s, "", s.pending) == [x, y]
    ensures y in Granted(s, count, "") ==> x in Granted(s, count, "")
    ensures if count >= 1 then x in Granted(s, count, "") else Granted(s, count, "") == []
    ensures count >= 2 ==> y in Granted(s, count, "")
  {
    if count >= 1 {
      GrantedAreFirst(s, count, "");
      assert Granted(s, count, "")[0] == x;
      if count >= 2 { assert Granted(s, count, "")[1] == y; }
    } else {
      assert ReadTo(s, "", count, 0) == 0 && s.pending[..0] == [];
    }
  }

  lemma TwoEligible(s: Store, x: UnitId, y: UnitId)
    requires s.pending == [x, x, y] || s.pending == [x, y, x]
    requires x != y && Eligible(s, "", x) && Eligible(s, "", y)
    ensures Eligibles(s, "", s.pending) == [x, y]
  {
    hide Eligible;
    assert [] + [x] == [x] && [x] + [y] == [x, y];
    EligiblesSnoc(s, "", [], x);
    if s.pending == [x, x, y] {
      assert [x] + [x] == [x, x] && [x, x] + [y] == [x, x, y];
      EligiblesSnoc(s, "", [x], x);
      EligiblesSnoc(s, "", [x, x], y);
    } else {
      assert [x, y] + [x] == [x, y, x];
      EligiblesSnoc(s, "", [x], y);
      EligiblesSnoc(s, "", [x, y], x);
    }
  }

  lemma OneEligible(s: Store, x: UnitId)
    requires s.pending == [x] || s.pending == [x, x]
    requires Eligible(s, "", x)
    ensures Eligibles(s, "", s.pending) == [x]
  {
    assert s.pending[..1] == [] + [x];
    EligiblesSnoc(s, "", [], x);
    if s.pending == [x, x] {
      assert [x] + [x] == [x, x];
      EligiblesSnoc(s, "", [x], x);
    } else {
      assert s.pending == s.pending[..1];
    }
  }

  lemma BehindStaleEligible(s: Store, x: UnitId, y: UnitId)
    requires s.pending == [x, y] && !Leasable(s, x) && Eligible(s, "", y)
    ensures Eligibles(s, "", s.pending) == [y]
  {
    assert [] + [x] == [x] && [x] + [y] == [x, y];
    EligiblesSnoc(s, "", [], x);
    EligiblesSnoc(s, "", [x], y);
  }

  lemma GrantOne(s: Store, x: UnitId, n: NodeId, rest: seq<UnitId>)
    requires x in s.units && Granted(s, 1, "") == [x] && LeftQueued(s, 1, "") == rest
    ensures Lease(s, n, 1, "", LATE) == s.(units := s.units[x := s.units[x].Grant(n, LATE)], pending := rest)
  {
    assert GrantAll(s.units, [x], n, LATE) == s.units[x := s.units[x].Grant(n, LATE)];
  }

  lemma TakeOne(s: Store, n: NodeId, x: UnitId, rest: seq<UnitId>)
    requires s.pending == [x] + rest && Eligible(s, "", x)
    ensures Lease(s, n, 1, "", LATE) == s.(units := s.units[x := s.units[x].Grant(n, LATE)], pending := rest)
  {
    TakeHead(s, x, rest);
    hide Granted, LeftQueued, Lease;
    GrantOne(s, x, n, rest);
  }

  lemma ReleaseOne(s: Store, n: NodeId, x: UnitId)
    requires x in s.units && HeldBy(s, n) == [x]
    ensures Release(s, n) == s.(units := s.units[x := s.units[x].Requeue()], pending := s.pending + [x])
  {
    assert RequeueAll(s.units, [x]) == s.units[x := s.units[x].Requeue()];
  }

  // ── What the client can tell ───────────────────────────────────────────

  /** The counts of a batch of one unit show whether that unit is out on a lease. */
  lemma CountsShowLease(s: Store, e: Store, b: BatchId, x: UnitId)
    requires b in s.batches && b in e.batches && s.batches[b].unitIds == e.batches[b].unitIds == [x]
    requires x in s.units && x in e.units && SameCounts(s, e)
    ensures s.units[x].state == LEASED <==> e.units[x].state == LEASED
  {
    assert CountsOf(s, b) == CountsOf(e, b);
    FilterSnoc([], x, IsIn(s, LEASED));
    FilterSnoc([], x, IsIn(e, LEASED));
    assert [] + [x] == [x];
  }

  // ── One event after another ────────────────────────────────────────────

  lemma Submitted()
    ensures Legal(EMPTY, Submit(FIRST)) && Create(EMPTY, FIRST) == With(WAITING_A, WAITING_C, [A, C])
  {
    CreatedUnits(EMPTY, FIRST);
    assert FIRST.ids + FIRST.canaryIds == [A, C];
    assert [C][..0] == [] && PlantIndex(1, 0) == 1;
    assert Planted([A], []) == [A];
    assert Planted([A], [C]) == [A] + [C] + [];
    hide Planted, WithUnits, PlantIndex;
  }

  lemma SubmittedBare()
    ensures Legal(EMPTY, Submit(Bare(FIRST))) && Create(EMPTY, Bare(FIRST)) == Without(WAITING_A, [A])
  {
    var sub := Bare(FIRST);
    CreatedUnits(EMPTY, sub);
    assert sub.ids + sub.canaryIds == [A];
    assert Planted([A], []) == [A];
    hide Planted, WithUnits;
  }

  lemma SubmittedLater(s: Store, q: seq<UnitId>)
    requires D !in s.units && 1 !in s.batches && q == s.pending + [D]
    ensures SECOND.Legal(s) && Create(s, SECOND) == Later(s, WAITING_D, q)
  {
    CreatedUnits(s, SECOND);
    assert SECOND.ids + SECOND.canaryIds == [D] && Planted([D], []) == [D];
    assert s.order + [D] + [] == s.order + [D];
    assert Create(s, SECOND).units == s.units[D := WAITING_D];
  }

  lemma TakenFirst()
    ensures Lease(With(WAITING_A, WAITING_C, [A, C]), 9, 1, "", 0.0) == With(TAKEN_A, WAITING_C, [C])
  {
    hide Granted, LeftQueued;
    assert [A, C] == [A] + [C];
    TakeHead(With(WAITING_A, WAITING_C, [A, C]), A, [C]);
  }

  /** Only a lease that takes A shows what the first lease shows. */
  lemma TakenFirstBare(count: int)
    requires SameCounts(With(TAKEN_A, WAITING_C, [C]), Lease(Without(WAITING_A, [A]), 9, count, "", 0.0))
    ensures Lease(Without(WAITING_A, [A]), 9, count, "", 0.0) == Without(TAKEN_A, [])
  {
    var e := Without(WAITING_A, [A]);
    var f := Lease(e, 9, count, "", 0.0);
    CountsShowLease(With(TAKEN_A, WAITING_C, [C]), f, 0, A);
    if count <= 0 { TakeNone(e, 9, count, 0.0); }
    OneEligible(e, A);
    GrantedAreFirst(e, count, "");
    assert [A][..1] == [A];
    ReadAll(e, count);
    assert f.units == Without(TAKEN_A, []).units;
  }

  /** A lease of a queue of one reads it all. */
  lemma ReadAll(s: Store, count: int)
    requires |s.pending| == 1 && count >= 1 && Eligible(s, "", s.pending[0])
    ensures LeftQueued(s, count, "") == []
  {
    var x := s.pending[0];
    assert s.pending[..0] == [] && s.pending[..1] == [] + [x] && s.pending[1..] == [];
    EligiblesSnoc(s, "", [], x);
    assert ReadTo(s, "", count, 0) == ReadTo(s, "", count, 1) == 1;
    FilterSnoc([], x, IsSkipped(s, ""));
  }

  /** The reaper finds A alone overdue. */
  lemma Reaped(s: Store, rest: seq<UnitId>)
    requires s.order == [A] + rest && A in s.units && s.units[A] == TAKEN_A
    requires rest == [] || rest == [C]
    requires rest == [C] ==> C in s.units && s.units[C] == WAITING_C
    ensures ExpiredAt(s, LATE) == [A]
  {
    var p := IsExpiredAt(s, LATE);
    assert [] + [A] == [A];
    FilterSnoc([], A, p);
    if rest == [C] { FilterSnoc([A], C, p); } else { assert s.order == [A]; }
  }

  lemma Overdue()
    ensures Expire(With(TAKEN_A, WAITING_C, [C]), LATE) == With(EXPIRED_A, WAITING_C, [C, A])
  {
    hide Filter, ExpiredAt;
    var s := With(TAKEN_A, WAITING_C, [C]);
    assert [A] + [C] == [A, C] && [C] + [A] == [C, A];
    Reaped(s, [C]);
    assert Reclaim(s, [A]).units == With(EXPIRED_A, WAITING_C, []).units;
  }

  lemma OverdueBare()
    ensures Expire(Without(TAKEN_A, []), LATE) == Without(EXPIRED_A, [A])
  {
    hide Filter, ExpiredAt;
    var e := Without(TAKEN_A, []);
    assert [A] + [] == [A] && [] + [A] == [A];
    Reaped(e, []);
    assert Reclaim(e, [A]).units == Without(EXPIRED_A, []).units;
  }

  /** The report comes late: A waits already, with an attempt left. */
  lemma Refused()
    requires MAX_UNIT_ATTEMPTS > 1
    ensures Fail(With(EXPIRED_A, WAITING_C, [C, A]), A, "x", LATE) == With(REFUSED_A, WAITING_C, [C, A, A])
    ensures Fail(Without(EXPIRED_A, [A]), A, "x", LATE) == Without(REFUSED_A, [A, A])
  {
    assert [C, A] + [A] == [C, A, A] && [A] + [A] == [A, A];
  }

  lemma TakenCanary()
    ensures Lease(With(REFUSED_A, WAITING_C, [C, A, A]), 3, 1, "", LATE) == With(REFUSED_A, TAKEN_C, [A, A])
  {
    hide Granted, LeftQueued;
    assert [C, A, A] == [C] + [A, A];
    TakeHead(With(REFUSED_A, WAITING_C, [C, A, A]), C, [A, A]);
  }

  /** Only a lease of none leaves A waiting. */
  lemma TakenCanaryBare(count: int)
    requires SameCounts(With(REFUSED_A, TAKEN_C, [A, A]), Lease(Without(REFUSED_A, [A, A]), 3, count, "", LATE))
    ensures Lease(Without(REFUSED_A, [A, A]), 3, count, "", LATE) == Without(REFUSED_A, [A, A])
  {
    var e := Without(REFUSED_A, [A, A]);
    CountsShowLease(With(REFUSED_A, TAKEN_C, [A, A]), Lease(e, 3, count, "", LATE), 0, A);
    OneEligible(e, A);
    if count >= 1 {
      FirstTaken(e, count, A);
    } else {
      TakeNone(e, 3, count, LATE);
    }
  }

  lemma HeldBack(s: Store, n: NodeId, x: UnitId, rest: seq<UnitId>)
    requires s.order == [x] + rest && x in s.units && s.units[x].LeasedTo(n)
    requires forall id :: id in rest ==> id in s.units && !s.units[id].LeasedTo(n)
    ensures HeldBy(s, n) == [x]
  {
    hide Filter;
    var p := IsHeldBy(s, n);
    FilterAll([x], p);
    FilterNone(rest, p);
    FilterAppend([x], rest, p);
    assert [x] + [] == [x];
  }

  lemma CanaryLeft()
    ensures Release(With(REFUSED_A, TAKEN_C, [A, A]), 3) == With(REFUSED_A, BACK_C, [A, A, C])
  {
    hide Filter, HeldBy;
    var s := With(REFUSED_A, TAKEN_C, [A, A]);
    HeldLast(s);
    hide Release;
    ReleaseOne(s, 3, C);
    assert [A, A] + [C] == [A, A, C];
    assert s.units[C := BACK_C] == With(REFUSED_A, BACK_C, []).units;
  }

  lemma CanaryLeftBare()
    ensures Release(Without(REFUSED_A, [A, A]), 3) == Without(REFUSED_A, [A, A])
  {
    var e := Without(REFUSED_A, [A, A]);
    FilterNone(e.order, IsHeldBy(e, 3));
    hide Filter;
    assert HeldBy(e, 3) == [];
    assert [A, A] + [] == [A, A];
    assert Reclaim(e, []).units == e.units;
  }

  lemma HeldLast(s: Store)
    requires s == With(REFUSED_A, TAKEN_C, [A, A])
    ensures HeldBy(s, 3) == [C]
  {
    assert s.order == [A] + [C] && [] + [A] == [A];
    FilterSnoc([A], C, IsHeldBy(s, 3));
    FilterNone([A], IsHeldBy(s, 3));
    assert [] + [C] == [C];
  }

  lemma SetA(a: Unit, b: Unit, c: Unit, d: Unit, q: seq<UnitId>, r: seq<UnitId>)
    ensures var s := Later(With(a, c, []), d, q);
      A in s.units && s.units[A] == a && s.(units := s.units[A := b], pending := r) == Later(With(b, c, []), d, r)
  {
    assert Later(With(a, c, []), d, q).units[A := b] == Later(With(b, c, []), d, r).units;
  }

  lemma TakenAgain()
    ensures var s := Later(With(REFUSED_A, BACK_C, []), WAITING_D, [A, A, C, D]);
      Lease(s, 1, 1, "", LATE) == Later(With(LEASED_A, BACK_C, []), WAITING_D, [A, C, D])
  {
    var s := Later(With(REFUSED_A, BACK_C, []), WAITING_D, [A, A, C, D]);
    assert s.pending == [A] + [A, C, D] && Eligible(s, "", A);
    hide Lease, Eligible, With, Later;
    TakeOne(s, 1, A, [A, C, D]);
    SetA(REFUSED_A, LEASED_A, BACK_C, WAITING_D, [A, A, C, D], [A, C, D]);
  }

  /** Only a lease of one takes A and leaves D. */
  lemma TakenAgainBare(count: int)
    requires SameCounts(Later(With(LEASED_A, BACK_C, []), WAITING_D, [A, C, D]),
                        Lease(Later(Without(REFUSED_A, []), WAITING_D, [A, A, D]), 1, count, "", LATE))
    ensures Lease(Later(Without(REFUSED_A, []), WAITING_D, [A, A, D]), 1, count, "", LATE)
            == Later(Without(LEASED_A, []), WAITING_D, [A, D])
  {
    var s, e := Later(With(LEASED_A, BACK_C, []), WAITING_D, [A, C, D]), Later(Without(REFUSED_A, []), WAITING_D, [A, A, D]);
    var f := Lease(e, 1, count, "", LATE);
    CountsShowLease(s, f, 0, A);
    CountsShowLease(s, f, 1, D);
    TwoEligible(e, A, D);
    SecondTaken(e, count, A, D);
    hide SameCounts, Granted;
    assert count == 1;
    TakenAgainOne();
  }

  lemma TakenAgainOne()
    ensures Lease(Later(Without(REFUSED_A, []), WAITING_D, [A, A, D]), 1, 1, "", LATE)
            == Later(Without(LEASED_A, []), WAITING_D, [A, D])
  {
    hide Granted, LeftQueued;
    var e := Later(Without(REFUSED_A, []), WAITING_D, [A, A, D]);
    assert [A, A, D] == [A] + [A, D];
    TakeHead(e, A, [A, D]);
    hide Lease, Eligible;
    GrantOne(e, A, 1, [A, D]);
    assert e.units[A := LEASED_A] == Later(Without(LEASED_A, []), WAITING_D, []).units;
  }

  /** Taking the canary sweeps up the entry of A in front of it. */
  lemma Swept()
    ensures var s := Later(With(LEASED_A, BACK_C, []), WAITING_D, [A, C, D]);
      Lease(s, 5, 1, "", LATE) == Later(With(LEASED_A, LEASED_C, []), WAITING_D, [D])
  {
    hide Granted, LeftQueued;
    var s := Later(With(LEASED_A, BACK_C, []), WAITING_D, [A, C, D]);
    assert [A, C, D] == [A, C] + [D];
    TakeBehindStale(s, A, C, [D]);
    hide Lease, Eligible, Leasable;
    GrantOne(s, C, 5, [D]);
    assert s.units[C := LEASED_C] == Later(With(LEASED_A, LEASED_C, []), WAITING_D, []).units;
  }

  /** Only a lease of none leaves D waiting, and it sweeps up nothing. */
  lemma SweptBare(count: int)
    requires SameCounts(Later(With(LEASED_A, LEASED_C, []), WAITING_D, [D]),
                        Lease(Later(Without(LEASED_A, []), WAITING_D, [A, D]), 5, count, "", LATE))
    ensures Lease(Later(Without(LEASED_A, []), WAITING_D, [A, D]), 5, count, "", LATE)
            == Later(Without(LEASED_A, []), WAITING_D, [A, D])
  {
    var e := Later(Without(LEASED_A, []), WAITING_D, [A, D]);
    CountsShowLease(Later(With(LEASED_A, LEASED_C, []), WAITING_D, [D]), Lease(e, 5, count, "", LATE), 1, D);
    BehindStaleEligible(e, A, D);
    if count >= 1 {
      FirstTaken(e, count, D);
    } else {
      TakeNone(e, 5, count, LATE);
    }
  }

  lemma HolderLeft()
    ensures Release(Later(With(LEASED_A, LEASED_C, []), WAITING_D, [D]), 1)
            == Later(With(BACK_A, LEASED_C, []), WAITING_D, [D, A])
  {
    hide Filter, HeldBy;
    var s := Later(With(LEASED_A, LEASED_C, []), WAITING_D, [D]);
    assert [A, C] + [D] == [A] + [C, D] && [D] + [A] == [D, A];
    assert s.units[A].LeasedTo(1) && !s.units[C].LeasedTo(1) && !s.units[D].LeasedTo(1);
    HeldBack(s, 1, A, [C, D]);
    hide Release;
    ReleaseOne(s, 1, A);
    assert s.units[A := BACK_A] == Later(With(BACK_A, LEASED_C, []), WAITING_D, []).units;
  }

  lemma HolderLeftBare()
    ensures Release(Later(Without(LEASED_A, []), WAITING_D, [A, D]), 1)
            == Later(Without(BACK_A, []), WAITING_D, [A, D, A])
  {
    hide Filter, HeldBy;
    var e := Later(Without(LEASED_A, []), WAITING_D, [A, D]);
    assert [A, D] + [A] == [A, D, A];
    HeldBack(e, 1, A, [D]);
    hide Release;
    ReleaseOne(e, 1, A);
    assert e.units[A := BACK_A] == Later(Without(BACK_A, []), WAITING_D, []).units;
  }

  /** In the end node 2 gets D, and A goes on waiting; without the canary no lease does that. */
  lemma TakenLast(count: int)
    ensures var s, e := Later(With(BACK_A, LEASED_C, []), WAITING_D, [D, A]), Later(Without(BACK_A, []), WAITING_D, [A, D, A]);
      !SameCounts(Lease(s, 2, 1, "", LATE), Lease(e, 2, count, "", LATE))
  {
    hide SameCounts;
    var s, e := Later(With(BACK_A, LEASED_C, []), WAITING_D, [D, A]), Later(Without(BACK_A, []), WAITING_D, [A, D, A]);
    var t, f := Lease(s, 2, 1, "", LATE), Lease(e, 2, count, "", LATE);
    LastWith(s);
    LastWithout(e, count);
    if SameCounts(t, f) {
      CountsShowLease(t, f, 0, A);
      CountsShowLease(t, f, 1, D);
      assert false;
    }
  }

  lemma LastWith(s: Store)
    requires s == Later(With(BACK_A, LEASED_C, []), WAITING_D, [D, A])
    ensures var t := Lease(s, 2, 1, "", LATE);
      && A in t.units && t.units[A].state != LEASED && D in t.units && t.units[D].state == LEASED
      && t.batches == s.batches
  {
    hide Granted, LeftQueued;
    assert [D, A] == [D] + [A];
    TakeHead(s, D, [A]);
  }

  lemma LastWithout(e: Store, count: int)
    requires e == Later(Without(BACK_A, []), WAITING_D, [A, D, A])
    ensures var f := Lease(e, 2, count, "", LATE);
      && A in f.units && D in f.units && (f.units[D].state == LEASED ==> f.units[A].state == LEASED)
      && f.batches == e.batches
  {
    TwoEligible(e, A, D);
    SecondTaken(e, count, A, D);
    hide Granted, LeftQueued;
  }

  // ── The run as a whole ─────────────────────────────────────────────────

  /** One event on, with what the two stores are then. */
  lemma Advance(s: Store, e: Store, bare: seq<Op>, i: nat, t: Store, f: Store)
    requires RecountsAll(Rude(), bare) && i < |Rude()| && Legal(s, Rude()[i]) && Legal(e, bare[i])
    requires t == Step(s, Rude()[i]) && f == Step(e, bare[i])
    ensures AlikeFrom(s, e, Rude(), bare, i) ==> AlikeFrom(t, f, Rude(), bare, i + 1) && SameCounts(t, f)
  {
    assert |Rude()| == |bare|;
    hide Rude, Step, SameCounts, RecountsAll;
    if AlikeFrom(s, e, Rude(), bare, i) { assert AlikeFrom(t, f, Rude(), bare, i + 1); }
  }

  /** The lease that stands for event `i` in the store without the canary. */
  lemma TakeOf(bare: seq<Op>, i: nat) returns (count: int)
    requires RecountsAll(Rude(), bare) && i < |Rude()| && Rude()[i].Take?
    ensures bare[i] == Take(Rude()[i].node, count, Rude()[i].model, Rude()[i].now)
  {
    assert Recounts(Rude()[i], bare[i]);
    count := bare[i].count;
  }

  lemma UpToLease(bare: seq<Op>)
    requires RecountsAll(Rude(), bare)
    ensures AlikeFrom(EMPTY, EMPTY, Rude(), bare, 0) ==> AlikeFrom(With(TAKEN_A, WAITING_C, [C]), Without(TAKEN_A, []), Rude(), bare, 2)
  {
    hide Create, Lease, With, Without, AlikeFrom, SameCounts;
    Submitted(); SubmittedBare(); TakenFirst();
    var s, e := With(WAITING_A, WAITING_C, [A, C]), Without(WAITING_A, [A]);
    assert Recounts(Rude()[0], bare[0]);
    Advance(EMPTY, EMPTY, bare, 0, s, e);
    var count := TakeOf(bare, 1);
    var f := Lease(e, 9, count, "", 0.0);
    Advance(s, e, bare, 1, With(TAKEN_A, WAITING_C, [C]), f);
    if SameCounts(With(TAKEN_A, WAITING_C, [C]), f) { TakenFirstBare(count); }
  }

  lemma UpToCanaryLease(bare: seq<Op>)
    requires RecountsAll(Rude(), bare) && MAX_UNIT_ATTEMPTS > 1
    ensures AlikeFrom(With(TAKEN_A, WAITING_C, [C]), Without(TAKEN_A, []), Rude(), bare, 2) ==>
            AlikeFrom(With(REFUSED_A, TAKEN_C, [A, A]), Without(REFUSED_A, [A, A]), Rude(), bare, 5)
  {
    hide Lease, Fail, Expire, With, Without, AlikeFrom, SameCounts;
    Overdue(); OverdueBare(); Refused(); TakenCanary();
    var e := Without(REFUSED_A, [A, A]);
    assert Recounts(Rude()[2], bare[2]) && Recounts(Rude()[3], bare[3]);
    Advance(With(TAKEN_A, WAITING_C, [C]), Without(TAKEN_A, []), bare, 2, With(EXPIRED_A, WAITING_C, [C, A]), Without(EXPIRED_A, [A]));
    Advance(With(EXPIRED_A, WAITING_C, [C, A]), Without(EXPIRED_A, [A]), bare, 3, With(REFUSED_A, WAITING_C, [C, A, A]), e);
    var count := TakeOf(bare, 4);
    var f := Lease(e, 3, count, "", LATE);
    Advance(With(REFUSED_A, WAITING_C, [C, A, A]), e, bare, 4, With(REFUSED_A, TAKEN_C, [A, A]), f);
    if SameCounts(With(REFUSED_A, TAKEN_C, [A, A]), f) { TakenCanaryBare(count); }
  }

  lemma UpToSecond(bare: seq<Op>)
    requires RecountsAll(Rude(), bare)
    ensures AlikeFrom(With(REFUSED_A, TAKEN_C, [A, A]), Without(REFUSED_A, [A, A]), Rude(), bare, 5) ==>
            AlikeFrom(Later(With(REFUSED_A, BACK_C, []), WAITING_D, [A, A, C, D]),
                      Later(Without(REFUSED_A, []), WAITING_D, [A, A, D]), Rude(), bare, 7)
  {
    hide Create, Release, AlikeFrom, SameCounts;
    CanaryLeft(); CanaryLeftBare();
    var s, e := With(REFUSED_A, BACK_C, [A, A, C]), Without(REFUSED_A, [A, A]);
    assert [A, A, C] + [D] == [A, A, C, D] && [A, A] + [D] == [A, A, D];
    SubmittedLater(s, [A, A, C, D]);
    SubmittedLater(e, [A, A, D]);
    assert Recounts(Rude()[5], bare[5]) && Recounts(Rude()[6], bare[6]) && Bare(SECOND) == SECOND;
    Advance(With(REFUSED_A, TAKEN_C, [A, A]), e, bare, 5, s, e);
    Advance(s, e, bare, 6, Later(s, WAITING_D, [A, A, C, D]), Later(e, WAITING_D, [A, A, D]));
  }

  lemma UpToSweep(bare: seq<Op>)
    requires RecountsAll(Rude(), bare)
    ensures AlikeFrom(Later(With(REFUSED_A, BACK_C, []), WAITING_D, [A, A, C, D]),
                      Later(Without(REFUSED_A, []), WAITING_D, [A, A, D]), Rude(), bare, 7) ==>
            AlikeFrom(Later(With(LEASED_A, LEASED_C, []), WAITING_D, [D]),
                      Later(Without(LEASED_A, []), WAITING_D, [A, D]), Rude(), bare, 9)
  {
    hide Lease, With, Without, Later, AlikeFrom, SameCounts;
    TakenAgain(); Swept();
    var s, e := Later(With(REFUSED_A, BACK_C, []), WAITING_D, [A, A, C, D]), Later(Without(REFUSED_A, []), WAITING_D, [A, A, D]);
    var t, f := Later(With(LEASED_A, BACK_C, []), WAITING_D, [A, C, D]), Later(Without(LEASED_A, []), WAITING_D, [A, D]);
    var count := TakeOf(bare, 7);
    Advance(s, e, bare, 7, t, Lease(e, 1, count, "", LATE));
    if SameCounts(t, Lease(e, 1, count, "", LATE)) { TakenAgainBare(count); }
    var more := TakeOf(bare, 8);
    var u := Later(With(LEASED_A, LEASED_C, []), WAITING_D, [D]);
    Advance(t, f, bare, 8, u, Lease(f, 5, more, "", LATE));
    if SameCounts(u, Lease(f, 5, more, "", LATE)) { SweptBare(more); }
  }

  lemma AtTheEnd(bare: seq<Op>)
    requires RecountsAll(Rude(), bare)
    ensures !AlikeFrom(Later(With(LEASED_A, LEASED_C, []), WAITING_D, [D]),
                       Later(Without(LEASED_A, []), WAITING_D, [A, D]), Rude(), bare, 9)
  {
    hide Lease, Release, With, Without, Later, AlikeFrom, SameCounts;
    HolderLeft(); HolderLeftBare();
    var s, e := Later(With(BACK_A, LEASED_C, []), WAITING_D, [D, A]), Later(Without(BACK_A, []), WAITING_D, [A, D, A]);
    assert Recounts(Rude()[9], bare[9]);
    Advance(Later(With(LEASED_A, LEASED_C, []), WAITING_D, [D]), Later(Without(LEASED_A, []), WAITING_D, [A, D]), bare, 9, s, e);
    var count := TakeOf(bare, 10);
    TakenLast(count);
    Advance(s, e, bare, 10, Lease(s, 2, 1, "", LATE), Lease(e, 2, count, "", LATE));
  }

  /**
   When a unit may be tried more than once, a failure report that comes after its lease
   ran out can make the client's batches fare as they never would without the canary:
   whatever the size of each lease in a store without it, some event of the run is
   followed by other counts.
   */
  lemma RudeRunInterferes(bare: seq<Op>)
    requires MAX_UNIT_ATTEMPTS > 1 && RecountsAll(Rude(), bare)
    ensures !AlikeFrom(EMPTY, EMPTY, Rude(), bare, 0)
  {
    hide AlikeFrom, With, Without, Later;
    UpToLease(bare);
    UpToCanaryLease(bare);
    UpToSecond(bare);
    UpToSweep(bare);
    AtTheEnd(bare);
  }
}
