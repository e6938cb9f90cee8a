/** Where canaries land in a new batch's queue. */
module Planting {
  import opened Sequences
  import opened Store
  import opened Invariant

  /** The clamp to the queue's length never bites, and with two real units neither end is a canary. */
  lemma PlantIndexInside(n: nat, k: nat)
    requires n >= 1
    ensures var len := n + k; var stride := if len / (k + 2) > 1 then len / (k + 2) else 1;
      && PlantIndex(n, k) == stride * (k + 1) <= len
      && 1 <= PlantIndex(n, k)
      && (n >= 2 ==> PlantIndex(n, k) <= len - 1)
  {
    var len := n + k;
    var q := len / (k + 2);
    if q > 1 {
      assert q * (k + 2) <= len;
      assert q * (k + 1) == q * (k + 2) - q;
    }
  }

  /** The real units keep their places relative to each other. */
  lemma {:induction false} RealUnitsKeepOrder(ids: seq<UnitId>, canaryIds: seq<UnitId>, genuine: UnitId -> bool)
    requires forall id :: id in ids ==> genuine(id)
    requires forall id :: id in canaryIds ==> !genuine(id)
    ensures Filter(Planted(ids, canaryIds), genuine) == ids
  {
    if canaryIds == [] {
      FilterAll(ids, genuine);
    } else {
      var k := |canaryIds| - 1;
      var c, q := canaryIds[k], Planted(ids, canaryIds[..k]);
      var i := PlantIndex(|ids|, k);
      RealUnitsKeepOrder(ids, canaryIds[..k], genuine);
      assert c in canaryIds;
      FilterInsert(q, i, c, genuine);
    }
  }

  lemma FilterInsert(q: seq<UnitId>, i: nat, c: UnitId, p: UnitId -> bool)
    requires i <= |q| && !p(c)
    ensures Filter(q[..i] + [c] + q[i..], p) == Filter(q, p)
  {
    hide Filter;
    var a, b := q[..i], q[i..];
    assert q == a + b;
    FilterSnoc(a, c, p);
    FilterAppend(a + [c], b, p);
    FilterAppend(a, b, p);
    assert Filter(a, p) + [] == Filter(a, p);
  }

  /** A batch of two or more real units starts and ends with one, however many canaries it carries. */
  lemma {:induction false} EndsAreReal(ids: seq<UnitId>, canaryIds: seq<UnitId>)
    requires |ids| >= 2
    ensures var q := Planted(ids, canaryIds); q[0] == ids[0] && q[|q| - 1] == ids[|ids| - 1]
  {
    if canaryIds != [] {
      var k := |canaryIds| - 1;
      EndsAreReal(ids, canaryIds[..k]);
      PlantIndexInside(|ids|, k);
    }
  }

  // ── How the canaries are spread ────────────────────────────────────────

  /** The first `n * (j + 1) / (j + 2)` places: half of a batch for no canary, two thirds for one, three quarters for two. */
  function Front(n: nat, j: nat): nat { n * (j + 1) / (j + 2) }

  lemma StrideShare(len: nat, parts: nat) returns (q: nat)
    requires parts > 0
    ensures q == len / parts && q * parts <= len < q * parts + parts
  {
    q := len / parts;
  }

  lemma CrossMultiply(a: nat, b: nat, c: nat)
    requires a <= b
    ensures a * c <= b * c
  {
  }

  /** Every canary from the `j`-th on is inserted behind the front that belongs to `j`. */
  lemma InsertedBehindFront(n: nat, k: nat, j: nat)
    requires n >= 1 && j <= k
    ensures Front(n, j) <= PlantIndex(n, k)
  {
    var stride := if (n + k) / (k + 2) > 1 then (n + k) / (k + 2) else 1;
    PlantIndexInside(n, k);
    StrideCovers(n, k, stride);
    FrontBelow(n, k, j, stride);
  }

  /** The stride leaves out less than one part: `(k + 2)` strides reach `n - 1` at least. */
  lemma StrideCovers(n: nat, k: nat, stride: nat)
    requires n >= 1 && stride == if (n + k) / (k + 2) > 1 then (n + k) / (k + 2) else 1
    ensures stride * (k + 2) >= n - 1
  {
    var q := StrideShare(n + k, k + 2);
    if stride != q { assert stride * (k + 2) == k + 2; }
  }

  lemma FrontBelow(n: nat, k: nat, j: nat, stride: nat)
    requires n >= 1 && j <= k && stride * (k + 2) >= n - 1
    ensures Front(n, j) <= stride * (k + 1)
  {
    var i := stride * (k + 1);
    Shares(stride, k, j);
    CrossMultiply(n - 1, stride * (k + 2), j + 1);
    Regroup(stride, k + 2, j + 1);
    Regroup(stride, k + 1, j + 2);
    assert i * (j + 2) >= (n - 1) * (j + 1);
    assert (n - 1) * (j + 1) == n * (j + 1) - (j + 1);
    var f := StrideShare(n * (j + 1), j + 2);
    Below(f, i, j + 2);
  }

  lemma Regroup(a: nat, b: nat, c: nat)
    ensures (a * b) * c == a * (b * c)
  {
  }

  lemma Below(f: nat, i: nat, c: nat)
    requires f * c < i * c + c
    ensures f <= i
  {
    if f > i { CrossMultiply(i + 1, f, c); }
  }

  lemma Shares(stride: nat, k: nat, j: nat)
    requires j <= k
    ensures stride * ((k + 1) * (j + 2)) >= stride * ((k + 2) * (j + 1))
  {
    assert (k + 1) * (j + 2) == (k + 2) * (j + 1) + (k - j);
    CrossMultiply((k + 2) * (j + 1), (k + 1) * (j + 2), stride);
  }

  /**
   The front of every batch sees few canaries: in its first `Front(n, j)` places it is
   as if only the first `j` canaries had been planted, however many there are.
   */
  lemma {:induction false} FrontSeesFew(ids: seq<UnitId>, canaryIds: seq<UnitId>, j: nat)
    requires |ids| >= 1 && j <= |canaryIds|
    ensures var m := Front(|ids|, j);
      && m <= |ids| + j && m <= |Planted(ids, canaryIds)|
      && Planted(ids, canaryIds)[..m] == Planted(ids, canaryIds[..j])[..m]
    decreases |canaryIds|
  {
    var m := Front(|ids|, j);
    FrontShort(|ids|, j);
    if |canaryIds| > j {
      var k := |canaryIds| - 1;
      FrontSeesFew(ids, canaryIds[..k], j);
      assert canaryIds[..k][..j] == canaryIds[..j];
      InsertedBehindFront(|ids|, k, j);
      PlantIndexInside(|ids|, k);
      BeforeInsert(Planted(ids, canaryIds[..k]), PlantIndex(|ids|, k), canaryIds[k], m);
    } else {
      assert canaryIds[..j] == canaryIds;
    }
  }

  lemma BeforeInsert(q: seq<UnitId>, i: nat, c: UnitId, m: nat)
    requires m <= i <= |q|
    ensures (q[..i] + [c] + q[i..])[..m] == q[..m]
  {
  }

  lemma FrontShort(n: nat, j: nat)
    ensures Front(n, j) <= n
  {
    var f := StrideShare(n * (j + 1), j + 2);
    assert n * (j + 1) <= n * (j + 2);
    Below(f, n, j + 2);
  }

  /** So the first half of a batch is never checked, and right behind it always stands a canary. */
  lemma {:induction false} FirstHalfIsReal(ids: seq<UnitId>, canaryIds: seq<UnitId>)
    requires |ids| >= 2 && canaryIds != []
    ensures var q, half := Planted(ids, canaryIds), |ids| / 2;
      q[..half] == ids[..half] && q[half] in canaryIds
  {
    var half := |ids| / 2;
    assert Front(|ids|, 0) == half;
    FrontSeesFew(ids, canaryIds, 0);
    assert canaryIds[..0] == [];
    CanaryAtHalf(ids, canaryIds);
  }

  lemma {:induction false} CanaryAtHalf(ids: seq<UnitId>, canaryIds: seq<UnitId>)
    requires |ids| >= 2 && canaryIds != []
    ensures Planted(ids, canaryIds)[|ids| / 2] in canaryIds
  {
    var k := |canaryIds| - 1;
    var half, i, q := |ids| / 2, PlantIndex(|ids|, k), Planted(ids, canaryIds[..k]);
    PlantIndexInside(|ids|, k);
    InsertedBehindFront(|ids|, k, 0);
    if k == 0 {
      assert i == half;
    } else {
      CanaryAtHalf(ids, canaryIds[..k]);
      if i > half { assert Planted(ids, canaryIds)[half] == q[half]; }
    }
  }

  // ── Two canaries ───────────────────────────────────────────────────────

  /** Where the first and the second of two canaries end up. */
  function FirstAt(n: nat): nat {
    if PlantIndex(n, 1) <= PlantIndex(n, 0) then PlantIndex(n, 0) + 1 else PlantIndex(n, 0)
  }

  function SecondAt(n: nat): nat { PlantIndex(n, 1) }

  /** Two canaries stand side by side just in batches of these sizes, and swapped just in a batch of four. */
  lemma TwoCanaries(ids: seq<UnitId>, c0: UnitId, c1: UnitId)
    requires |ids| >= 1
    ensures var n := |ids|; var q := Planted(ids, [c0, c1]);
      && FirstAt(n) < |q| && SecondAt(n) < |q| && q[FirstAt(n)] == c0 && q[SecondAt(n)] == c1
      && (SecondAt(n) == FirstAt(n) + 1 || FirstAt(n) == SecondAt(n) + 1 <==> n in {1, 2, 3, 4, 6, 7, 10})
      && (SecondAt(n) < FirstAt(n) <==> n == 4)
  {
    var n := |ids|;
    TwoPlaces(n);
    PlantIndexInside(n, 0);
    PlantIndexInside(n, 1);
    PlantedTwo(ids, c0, c1);
    hide PlantIndex, Planted;
    InsertTwo(ids, PlantIndex(n, 0), PlantIndex(n, 1), c0, c1);
  }

  lemma PlantedTwo(ids: seq<UnitId>, c0: UnitId, c1: UnitId)
    requires PlantIndex(|ids|, 0) <= |ids| && PlantIndex(|ids|, 1) <= |ids| + 1
    ensures var i, j := PlantIndex(|ids|, 0), PlantIndex(|ids|, 1); var q := ids[..i] + [c0] + ids[i..];
      Planted(ids, [c0, c1]) == q[..j] + [c1] + q[j..]
  {
    hide PlantIndex;
    assert [c0, c1][..1] == [c0] && [c0][..0] == [];
    assert Planted(ids, []) == ids;
    var i := PlantIndex(|ids|, 0);
    assert Planted(ids, [c0]) == ids[..i] + [c0] + ids[i..];
  }

  lemma InsertTwo(ids: seq<UnitId>, i: nat, j: nat, c0: UnitId, c1: UnitId)
    requires i <= |ids| && j <= |ids| + 1
    ensures var q := ids[..i] + [c0] + ids[i..]; var r := q[..j] + [c1] + q[j..];
      |r| == |ids| + 2 && r[j] == c1 && r[if j <= i then i + 1 else i] == c0
  {
  }

  lemma TwoPlaces(n: nat)
    requires n >= 1
    ensures SecondAt(n) == FirstAt(n) + 1 || FirstAt(n) == SecondAt(n) + 1 <==> n in {1, 2, 3, 4, 6, 7, 10}
    ensures SecondAt(n) < FirstAt(n) <==> n == 4
  {
    var a, b := n / 2, (n + 1) / 3;
    assert PlantIndex(n, 0) == if a > 1 then a else 1;
    assert PlantIndex(n, 1) == if b > 1 then 2 * b else 2;
    hide PlantIndex;
    if n > 10 { assert 2 * b > a + 1; }
  }

  /** A batch of four, for one. */
  lemma AdjacentAndSwapped(r0: UnitId, r1: UnitId, r2: UnitId, r3: UnitId, c0: UnitId, c1: UnitId)
    ensures Planted([r0, r1, r2, r3], [c0, c1]) == [r0, r1, c1, c0, r2, r3]
  {
    var ids := [r0, r1, r2, r3];
    assert [c0, c1][..1] == [c0] && [c0][..0] == [];
    assert Planted(ids, []) == ids;
    assert PlantIndex(4, 0) == 2 && PlantIndex(4, 1) == 2;
    assert Planted(ids, [c0]) == ids[..2] + [c0] + ids[2..] == [r0, r1, c0, r2, r3];
  }
}
