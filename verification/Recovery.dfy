/**
 Losing a node is a non-event: from any reachable state, once the outstanding
 leases have come back, one surviving node finishes everything.
 */
module Recovery {
  import opened Sequences
  import opened Store
  import opened Invariant
  import opened Leasing
  import opened Verdicts

  function Waiting(s: Store): set<UnitId> {
    set id | id in s.units && s.units[id].state == PENDING
  }

  predicate NoLease(s: Store) {
    forall id :: id in s.units ==> s.units[id].state != LEASED
  }

  /** What the survivor answers, and how many units it asks for in each round. */
  datatype Survivor = Survivor(node: NodeId, now: real, answer: UnitId -> Result, ask: nat -> nat)
  {
    ghost predicate AsksForSome() { forall i :: ask(i) >= 1 }
  }

  function CompleteAll(s: Store, ids: seq<UnitId>, v: Survivor): Store {
    if ids == [] then s
    else var k := |ids| - 1; Complete(CompleteAll(s, ids[..k], v), ids[k], v.node, v.answer(ids[k]), v.now)
  }

  /** One round: lease some units, with no model named, and complete each of them. */
  function Round(s: Store, v: Survivor, i: nat): Store {
    CompleteAll(Lease(s, v.node, v.ask(i), "", v.now), Granted(s, v.ask(i), ""), v)
  }

  function Rounds(s: Store, v: Survivor, r: nat): Store {
    if r == 0 then s else Round(Rounds(s, v, r - 1), v, r - 1)
  }

  /** `t` comes from `s` by answering the units of `done`; no other unit changed. */
  ghost predicate Answered(s: Store, t: Store, done: set<UnitId>, v: Survivor) {
    && s.units.Keys == t.units.Keys && s.batches.Keys == t.batches.Keys
    && (forall id :: id in s.units && id !in done ==> t.units[id] == s.units[id])
    && (forall id :: id in s.units && id in done ==> IsAnswer(t.units[id], v.node, v.answer(id)))
  }

  predicate IsAnswer(u: Unit, n: NodeId, r: Result) {
    && u.state == COMPLETE && u.node == Some(n)
    && r == Result(u.text, u.promptTokens, u.completionTokens, u.servedBy)
  }

  lemma CompleteAnswers(s: Store, id: UnitId, v: Survivor)
    requires Undecided(s, id)
    ensures Answered(s, Complete(s, id, v.node, v.answer(id), v.now), {id}, v)
  {
  }

  lemma AnsweredInTurn(s: Store, m: Store, t: Store, a: set<UnitId>, b: set<UnitId>, v: Survivor)
    requires Answered(s, m, a, v) && Answered(m, t, b, v)
    ensures Answered(s, t, a + b, v)
  {
  }

  lemma {:induction false} CompleteAllKeeps(s: Store, ids: seq<UnitId>, v: Survivor)
    requires Inv(s)
    ensures Inv(CompleteAll(s, ids, v))
  {
    if ids != [] {
      var k := |ids| - 1;
      CompleteAllKeeps(s, ids[..k], v);
      CompleteKeeps(CompleteAll(s, ids[..k], v), ids[k], v.node, v.answer(ids[k]), v.now);
    }
  }

  lemma {:induction false} CompleteAllAnswers(s: Store, ids: seq<UnitId>, v: Survivor)
    requires NoDup(ids) && forall id :: id in ids ==> Undecided(s, id)
    ensures Answered(s, CompleteAll(s, ids, v), Elements(ids), v)
  {
    if ids != [] {
      var k := |ids| - 1;
      var id, init := ids[k], ids[..k];
      var mid := CompleteAll(s, init, v);
      CompleteAllAnswers(s, init, v);
      assert id !in init && id in ids;
      assert Undecided(s, id) && mid.units[id] == s.units[id];
      CompleteAnswers(mid, id, v);
      AnsweredInTurn(s, mid, CompleteAll(s, ids, v), Elements(init), {id}, v);
      LastElement(ids);
    }
  }

  lemma LastElement<T>(s: seq<T>)
    requires s != []
    ensures Elements(s) == Elements(s[..|s| - 1]) + {s[|s| - 1]}
  {
    assert s == s[..|s| - 1] + [s[|s| - 1]];
  }

  /** The units a round settles: all it was granted. */
  function Settled(s: Store, v: Survivor, i: nat): set<UnitId> {
    Elements(Granted(s, v.ask(i), ""))
  }

  /** A round with work waiting settles some of it, for good, and leaves no lease behind. */
  lemma RoundProgress(s: Store, v: Survivor, i: nat)
    requires Inv(s) && NoLease(s) && v.ask(i) >= 1
    ensures Inv(Round(s, v, i)) && NoLease(Round(s, v, i))
    ensures Settled(s, v, i) <= Waiting(s) && (Waiting(s) != {} ==> Settled(s, v, i) != {})
    ensures Answered(s, Round(s, v, i), Settled(s, v, i), v)
  {
    var granted := Granted(s, v.ask(i), "");
    var t := Lease(s, v.node, v.ask(i), "", v.now);
    LeaseKeeps(s, v.node, v.ask(i), "", v.now);
    GrantedMembers(s, v.ask(i), "");
    CompleteAllKeeps(t, granted, v);
    CompleteAllAnswers(t, granted, v);
    if Waiting(s) != {} {
      SomethingGranted(s, v.ask(i));
      assert granted[0] in Settled(s, v, i);
    }
    LeaseThenAnswer(s, t, Round(s, v, i), granted, v);
  }

  lemma LeaseThenAnswer(s: Store, t: Store, r: Store, granted: seq<UnitId>, v: Survivor)
    requires NoLease(s) && t.units == GrantAll(s.units, granted, v.node, v.now) && t.batches == s.batches
    requires Answered(t, r, Elements(granted), v)
    ensures Answered(s, r, Elements(granted), v) && NoLease(r)
  {
  }

  lemma SomethingGranted(s: Store, count: nat)
    requires Inv(s) && count >= 1 && Waiting(s) != {}
    ensures Granted(s, count, "") != []
  {
    var id :| id in Waiting(s);
    GrantedAreFirst(s, count, "");
    EligiblesMembers(s, "", s.pending);
    assert Eligible(s, "", id);
  }

  lemma {:induction false} RoundsKeep(s: Store, v: Survivor, r: nat)
    requires Inv(s) && NoLease(s) && v.AsksForSome()
    ensures Inv(Rounds(s, v, r)) && NoLease(Rounds(s, v, r))
  {
    hide Inv, NoLease, Round;
    if r > 0 {
      RoundsKeep(s, v, r - 1);
      RoundProgress(Rounds(s, v, r - 1), v, r - 1);
    }
  }

  /** After `r` rounds at least `r` waiting units are answered, or all of them are. */
  lemma {:induction false} RoundsProgress(s: Store, v: Survivor, r: nat) returns (done: set<UnitId>)
    requires Inv(s) && NoLease(s) && v.AsksForSome()
    ensures done <= Waiting(s) && Answered(s, Rounds(s, v, r), done, v)
    ensures |done| >= r || done == Waiting(s)
  {
    hide Round, Inv, NoLease;
    done := {};
    if r > 0 {
      var before := RoundsProgress(s, v, r - 1);
      var mid := Rounds(s, v, r - 1);
      RoundsKeep(s, v, r - 1);
      RoundProgress(mid, v, r - 1);
      var more := Settled(mid, v, r - 1);
      WaitingAfter(s, mid, before, v);
      AnsweredInTurn(s, mid, Rounds(s, v, r), before, more, v);
      done := GrowsUntilFull(before, more, Waiting(s), r);
    }
  }

  lemma GrowsUntilFull(before: set<UnitId>, more: set<UnitId>, all: set<UnitId>, r: nat) returns (done: set<UnitId>)
    requires r > 0 && before <= all && more <= all - before && (all - before != {} ==> more != {})
    requires |before| >= r - 1 || before == all
    ensures done == before + more && done <= all && (|done| >= r || done == all)
  {
    done := before + more;
    if more != {} {
      var x :| x in more;
      SubsetSize(before + {x}, done);
    } else {
      assert before == all;
    }
  }

  lemma WaitingAfter(s: Store, t: Store, done: set<UnitId>, v: Survivor)
    requires Answered(s, t, done, v)
    ensures Waiting(t) == Waiting(s) - done
  {
  }

  /** As many rounds as there are waiting units are enough, whatever the lease sizes. */
  lemma SurvivorFinishes(s: Store, v: Survivor, r: nat)
    requires Inv(s) && NoLease(s) && v.AsksForSome() && r >= |Waiting(s)|
    ensures var t := Rounds(s, v, r);
      && (forall id :: id in t.units ==> !t.units[id].Outstanding())
      && (forall b :: b in t.batches && t.batches[b].unitIds != [] ==> t.batches[b].state != IN_PROGRESS)
      && Answered(s, t, Waiting(s), v)
  {
    var done := RoundsProgress(s, v, r);
    RoundsKeep(s, v, r);
    if done != Waiting(s) {
      ProperSubsetSmaller(done, Waiting(s));
    }
    hide Rounds, Round, Filed, Listed, Ordered;
    var t := Rounds(s, v, r);
    assert forall id :: id in t.units ==> !t.units[id].Outstanding();
    forall b | b in t.batches && t.batches[b].unitIds != [] ensures t.batches[b].state != IN_PROGRESS {
      assert ExactFor(t, b);
    }
  }

  lemma ProperSubsetSmaller<T>(a: set<T>, b: set<T>)
    requires a <= b && a != b
    ensures |a| < |b|
  {
    var x :| x in b && x !in a;
    SubsetSize(a, b - {x});
  }

  // ── How the leases come back ───────────────────────────────────────────

  /** Both ways a lease comes back leave a waiting unit and every verdict as it was. */
  ghost predicate OnlyReturned(s: Store, t: Store) {
    && t.batches == s.batches && s.units.Keys == t.units.Keys
    && forall id :: id in s.units ==>
         t.units[id] == s.units[id] || (s.units[id].state == LEASED && t.units[id] == s.units[id].Requeue())
  }

  /** A departure takes back exactly what is leased to that node: each unit once, at the end of the queue, and nothing else. */
  lemma DepartureReturnsItsLeases(s: Store, n: NodeId)
    requires Ordered(s)
    ensures var t, held := Release(s, n), HeldBy(s, n);
      && t.batches == s.batches && t.order == s.order && t.pending == s.pending + held && t.units.Keys == s.units.Keys
      && NoDup(held)
      && (forall id :: id in held <==> id in s.units && s.units[id].state == LEASED && s.units[id].node == Some(n))
      && (forall id :: id in held ==> t.units[id] == s.units[id].(state := PENDING, node := None, leaseExpiresAt := 0.0))
      && (forall id :: id in s.units && id !in held ==> t.units[id] == s.units[id])
  {
    FilterNoDup(s.order, IsHeldBy(s, n));
    hide Filter;
  }

  /** So does the reaper with the leases whose time is over; a lease that is still running is left alone. */
  lemma ReaperReturnsTheOverdue(s: Store, now: real)
    requires Ordered(s)
    ensures var t, due := Expire(s, now), ExpiredAt(s, now);
      && t.batches == s.batches && t.order == s.order && t.pending == s.pending + due && t.units.Keys == s.units.Keys
      && NoDup(due)
      && (forall id :: id in due <==> id in s.units && s.units[id].state == LEASED && now > s.units[id].leaseExpiresAt)
      && (forall id :: id in due ==> t.units[id] == s.units[id].(state := PENDING, node := None, leaseExpiresAt := 0.0))
      && (forall id :: id in s.units && id !in due ==> t.units[id] == s.units[id])
  {
    FilterNoDup(s.order, IsExpiredAt(s, now));
    hide Filter;
  }

  /** A reaper pass later than every lease's end returns them all. */
  lemma LateReapReturnsAll(s: Store, now: real)
    requires Inv(s) && forall id :: id in s.units && s.units[id].state == LEASED ==> now > s.units[id].leaseExpiresAt
    ensures NoLease(Expire(s, now)) && Inv(Expire(s, now)) && OnlyReturned(s, Expire(s, now))
  {
    ReclaimKeeps(s, ExpiredAt(s, now));
    ReclaimReturns(s, ExpiredAt(s, now));
  }

  lemma ReclaimReturns(s: Store, ids: seq<UnitId>)
    requires forall id :: id in ids ==> id in s.units && s.units[id].state == LEASED
    ensures OnlyReturned(s, Reclaim(s, ids))
  {
  }

  lemma ReturnedInTurn(s: Store, m: Store, t: Store)
    requires OnlyReturned(s, m) && OnlyReturned(m, t)
    ensures OnlyReturned(s, t)
  {
  }

  function ReleaseAll(s: Store, nodes: seq<NodeId>): Store {
    if nodes == [] then s else Release(ReleaseAll(s, nodes[..|nodes| - 1]), nodes[|nodes| - 1])
  }

  /** So does the departure of every node that holds one. */
  lemma {:induction false} DeparturesKeep(s: Store, nodes: seq<NodeId>)
    requires Inv(s)
    ensures Inv(ReleaseAll(s, nodes))
  {
    if nodes != [] {
      var k := |nodes| - 1;
      DeparturesKeep(s, nodes[..k]);
      var mid := ReleaseAll(s, nodes[..k]);
      ReclaimKeeps(mid, HeldBy(mid, nodes[k]));
    }
  }

  ghost predicate NoneHeldBy(s: Store, nodes: seq<NodeId>) {
    forall id, n :: n in nodes && id in s.units ==> !s.units[id].LeasedTo(n)
  }

  lemma {:induction false} DeparturesReturnAll(s: Store, nodes: seq<NodeId>)
    requires Ordered(s)
    ensures OnlyReturned(s, ReleaseAll(s, nodes)) && NoneHeldBy(ReleaseAll(s, nodes), nodes)
    ensures ReleaseAll(s, nodes).order == s.order
  {
    if nodes != [] {
      var k := |nodes| - 1;
      var mid := ReleaseAll(s, nodes[..k]);
      DeparturesReturnAll(s, nodes[..k]);
      assert forall id :: id in mid.units ==> id in mid.order;
      ReleaseReturns(mid, nodes[k]);
      ReleasedToo(mid, nodes[..k], nodes[k]);
      hide OnlyReturned, NoneHeldBy, Release, Ordered;
      ReturnedInTurn(s, mid, ReleaseAll(s, nodes));
      assert nodes == nodes[..k] + [nodes[k]];
    }
  }

  lemma ReleaseReturns(s: Store, n: NodeId)
    ensures OnlyReturned(s, Release(s, n)) && Release(s, n).order == s.order
  {
    ReclaimReturns(s, HeldBy(s, n));
  }

  lemma ReleasedToo(s: Store, nodes: seq<NodeId>, n: NodeId)
    requires (forall id :: id in s.units ==> id in s.order) && NoneHeldBy(s, nodes)
    ensures NoneHeldBy(Release(s, n), nodes + [n])
  {
    var t := Release(s, n);
    forall id, m | m in nodes + [n] && id in t.units ensures !t.units[id].LeasedTo(m) {
      if s.units[id].LeasedTo(n) { assert id in HeldBy(s, n); }
    }
  }

  /** When the departed nodes are all that held leases, no lease is left. */
  lemma NoLeaseAfterDepartures(s: Store, nodes: seq<NodeId>)
    requires Inv(s) && forall id :: id in s.units && s.units[id].state == LEASED ==> s.units[id].node.value in nodes
    ensures NoLease(ReleaseAll(s, nodes)) && Inv(ReleaseAll(s, nodes)) && OnlyReturned(s, ReleaseAll(s, nodes))
  {
    DeparturesKeep(s, nodes);
    DeparturesReturnAll(s, nodes);
  }

  predicate Carried(before: Unit, after: Unit, v: Survivor, id: UnitId) {
    if before.Outstanding() then IsAnswer(after, v.node, v.answer(id)) else after == before
  }

  /**
   From any reachable state, once the leases are back, |PENDING| rounds of one
   survivor leave nothing outstanding: each unit that had no verdict has the
   survivor's answer, and each that had one still has it.
   */
  lemma FromAnyReachableState(ops: seq<Op>, back: Store, v: Survivor)
    requires LegalRun(EMPTY, ops) && v.AsksForSome()
    requires Inv(back) && NoLease(back) && OnlyReturned(Run(EMPTY, ops), back)
    ensures var s, t := Run(EMPTY, ops), Rounds(back, v, |Waiting(back)|);
      && (forall id :: id in s.units ==> id in t.units && Carried(s.units[id], t.units[id], v, id))
      && (forall b :: b in s.batches && s.batches[b].unitIds != [] ==> b in t.batches && t.batches[b].state != IN_PROGRESS)
  {
    var s, t := Run(EMPTY, ops), Rounds(back, v, |Waiting(back)|);
    Reachable(ops);
    SurvivorFinishes(back, v, |Waiting(back)|);
    forall b | b in s.batches && s.batches[b].unitIds != [] ensures b in t.batches && t.batches[b].state != IN_PROGRESS {
      RoundsKeepLists(back, v, |Waiting(back)|, b);
    }
  }

  lemma {:induction false} RoundsKeepLists(s: Store, v: Survivor, r: nat, b: BatchId)
    requires b in s.batches
    ensures b in Rounds(s, v, r).batches && Rounds(s, v, r).batches[b].unitIds == s.batches[b].unitIds
  {
    if r > 0 {
      RoundsKeepLists(s, v, r - 1, b);
      var mid := Rounds(s, v, r - 1);
      CompleteAllKeepsLists(Lease(mid, v.node, v.ask(r - 1), "", v.now), Granted(mid, v.ask(r - 1), ""), v, b);
    }
  }

  lemma {:induction false} CompleteAllKeepsLists(s: Store, ids: seq<UnitId>, v: Survivor, b: BatchId)
    requires b in s.batches
    ensures b in CompleteAll(s, ids, v).batches && CompleteAll(s, ids, v).batches[b].unitIds == s.batches[b].unitIds
  {
    if ids != [] {
      CompleteAllKeepsLists(s, ids[..|ids| - 1], v, b);
    }
  }
}
