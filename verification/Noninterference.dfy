/** The simulation: each step of a store with canaries, and the step that is left without them. */
module Noninterference {
  import opened Sequences
  import opened Store
  import opened Invariant
  import opened Erasure
  import Verdicts

  // ── Tidiness is kept ───────────────────────────────────────────────────

  lemma {:induction false} FilterCount<T>(q: seq<T>, p: T -> bool, x: T)
    ensures multiset(Filter(q, p))[x] <= multiset(q)[x]
  {
    if q != [] {
      FilterCount(q[..|q| - 1], p, x);
      assert q == q[..|q| - 1] + [q[|q| - 1]];
    }
  }

  lemma {:induction false} NoDupCount<T>(q: seq<T>, x: T)
    requires NoDup(q)
    ensures multiset(q)[x] <= 1
  {
    if q != [] {
      NoDupCount(q[..|q| - 1], x);
      assert q == q[..|q| - 1] + [q[|q| - 1]];
      if x == q[|q| - 1] { assert x !in q[..|q| - 1]; }
    }
  }

  lemma LeaseTidyAt(s: Store, count: int, model: string, id: UnitId)
    requires id in s.units && s.units[id].state == PENDING && multiset(s.pending)[id] <= 1
    ensures multiset(LeftQueued(s, count, model))[id] <= 1
    ensures id in Granted(s, count, model) ==> id !in LeftQueued(s, count, model)
  {
    var k := ReadTo(s, model, count, 0);
    var read, tail := s.pending[..k], s.pending[k..];
    assert s.pending == read + tail;
    FilterCount(read, IsSkipped(s, model), id);
    EligiblesMembers(s, model, read);
    if id in Granted(s, count, model) {
      assert id in read && id in multiset(read);
      assert id in tail <==> id in multiset(tail);
    }
  }

  lemma LeaseTidy(s: Store, n: NodeId, count: int, model: string, now: real)
    requires Tidy(s)
    ensures Tidy(Lease(s, n, count, model, now))
  {
    var t := Lease(s, n, count, model, now);
    GrantedMembers(s, count, model);
    forall id | Client(t, id)
      ensures t.units[id].state == LEASED ==> id !in t.pending
      ensures t.units[id].state == PENDING ==> multiset(t.pending)[id] <= 1
    {
      assert Client(s, id);
      if s.units[id].state == PENDING { LeaseTidyAt(s, count, model, id); }
    }
  }

  lemma ReclaimTidy(s: Store, ids: seq<UnitId>)
    requires Tidy(s) && NoDup(ids)
    requires forall id :: id in ids ==> id in s.units && s.units[id].state == LEASED
    ensures Tidy(Reclaim(s, ids))
  {
    var t := Reclaim(s, ids);
    forall id | Client(t, id)
      ensures t.units[id].state == LEASED ==> id !in t.pending
      ensures t.units[id].state == PENDING ==> multiset(t.pending)[id] <= 1
    {
      assert Client(s, id);
      NoDupCount(ids, id);
      assert id in s.pending <==> id in multiset(s.pending);
      assert id in ids <==> id in multiset(ids);
    }
  }

  lemma SettleTidy(s: Store, id: UnitId, u: Unit, now: real)
    requires Tidy(s) && id in s.units && !u.Outstanding() && u.batch == s.units[id].batch
    ensures Tidy(MaybeFinish(s.(units := s.units[id := u]), u.batch, now))
  {
    var t := MaybeFinish(s.(units := s.units[id := u]), u.batch, now);
    forall x | Client(t, x)
      ensures t.units[x].state == LEASED ==> x !in t.pending
      ensures t.units[x].state == PENDING ==> multiset(t.pending)[x] <= 1
    {
      assert Client(s, x);
    }
  }

  lemma FailTidy(s: Store, id: UnitId, message: string, now: real)
    requires Tidy(s)
    requires Client(s, id) && s.units[id].state == PENDING ==> s.units[id].attempts >= MAX_UNIT_ATTEMPTS
    ensures Tidy(Fail(s, id, message, now))
  {
    if Undecided(s, id) {
      var u := s.units[id].Reject(message);
      if u.state == FAILED {
        SettleTidy(s, id, u, now);
      } else {
        var t := Fail(s, id, message, now);
        forall x | Client(t, x)
          ensures t.units[x].state == LEASED ==> x !in t.pending
          ensures t.units[x].state == PENDING ==> multiset(t.pending)[x] <= 1
        {
          assert Client(s, x);
          assert x in s.pending <==> x in multiset(s.pending);
        }
      }
    }
  }

  lemma CreateTidy(s: Store, sub: Submission)
    requires Filed(s) && Queued(s) && Tidy(s) && sub.Legal(s)
    ensures Tidy(Create(s, sub))
  {
    var t := Create(s, sub);
    var m, q := sub.ids + sub.canaryIds, Planted(sub.ids, sub.canaryIds);
    CreatedUnits(s, sub);
    PlantedPermutes(sub.ids, sub.canaryIds);
    assert multiset(q) == multiset(m);
    forall id | Client(t, id)
      ensures t.units[id].state == LEASED ==> id !in t.pending
      ensures t.units[id].state == PENDING ==> multiset(t.pending)[id] <= 1
    {
      NoDupCount(m, id);
      assert id in m <==> id in multiset(m);
      assert id in q <==> id in multiset(q);
      if id in m {
        CreatedClient(s, sub, id);
        assert id !in s.pending && id !in multiset(s.pending);
      } else {
        assert Client(s, id);
      }
    }
  }

  lemma StepTidy(s: Store, op: Op)
    requires Inv(s) && Tidy(s) && Legal(s, op) && Polite(s, op)
    ensures Tidy(Step(s, op))
  {
    match op
    case Submit(sub) => CreateTidy(s, sub);
    case Take(n, count, model, now) => LeaseTidy(s, n, count, model, now);
    case Deliver(id, n, result, now) => if Undecided(s, id) { SettleTidy(s, id, s.units[id].Finish(n, result), now); }
    case Refuse(id, _, message, now) => FailTidy(s, id, message, now);
    case NodeLeft(n) =>
      FilterNoDup(s.order, IsHeldBy(s, n));
      ReclaimTidy(s, HeldBy(s, n));
    case Reap(now) =>
      FilterNoDup(s.order, IsExpiredAt(s, now));
      ReclaimTidy(s, ExpiredAt(s, now));
    case Stop(b) => CancelTidy(s, b);
  }

  /** The guard that untidies a queue is exact: a step keeps it tidy if and only if it is polite. */
  lemma PoliteIsExact(s: Store, op: Op)
    requires Inv(s) && Tidy(s) && Legal(s, op)
    ensures Tidy(Step(s, op)) <==> Polite(s, op)
  {
    if Polite(s, op) {
      StepTidy(s, op);
    } else {
      var id, t := op.unit, Step(s, op);
      assert id in s.pending && id in multiset(s.pending);
      assert Client(t, id) && t.units[id].state == PENDING && t.pending == s.pending + [id];
      assert multiset(t.pending)[id] >= 2;
    }
  }

  lemma CancelTidy(s: Store, b: BatchId)
    requires Tidy(s)
    ensures Tidy(Cancel(s, b))
  {
    var t := Cancel(s, b);
    forall x | Client(t, x)
      ensures t.units[x].state == LEASED ==> x !in t.pending
      ensures t.units[x].state == PENDING ==> multiset(t.pending)[x] <= 1
    {
      assert Client(s, x);
    }
  }

  // ── Each step and what is left of it ───────────────────────────────────

  /** In a store without canaries every unit is the client's. */
  lemma AllClients(s: Store, e: Store)
    requires SameClients(s, e)
    ensures forall id :: Client(e, id) == Client(s, id)
  {
  }

  lemma SubmitErases(s: Store, e: Store, sub: Submission)
    requires Inv(s) && Inv(e) && Erases(s, e) && sub.Legal(s)
    ensures sub.(canaryIds := [], canaries := []).Legal(e)
    ensures Erases(Create(s, sub), Create(e, sub.(canaryIds := [], canaries := [])))
  {
    var bare := sub.(canaryIds := [], canaries := []);
    assert NoDup(bare.ids + bare.canaryIds) by {
      var m := sub.ids + sub.canaryIds;
      assert bare.ids + bare.canaryIds == m[..|sub.ids|];
    }
    SubmitLegal(s, e, sub);
    CreateLive(s, sub);
    CreateLive(e, bare);
    SubmitClients(s, e, sub);
    SubmitOrder(s, e, sub);
  }

  lemma SubmitLegal(s: Store, e: Store, sub: Submission)
    requires SameClients(s, e) && sub.Legal(s)
    ensures sub.(canaryIds := [], canaries := []).Legal(e)
  {
    var m := sub.ids + sub.canaryIds;
    var bare := sub.(canaryIds := [], canaries := []);
    assert bare.ids + bare.canaryIds == m[..|sub.ids|];
    forall id | id in bare.ids + bare.canaryIds ensures id !in e.units { assert id in m; }
  }

  lemma SubmitClients(s: Store, e: Store, sub: Submission)
    requires Filed(s) && SameClients(s, e) && sub.Legal(s) && sub.(canaryIds := [], canaries := []).Legal(e)
    ensures SameClients(Create(s, sub), Create(e, sub.(canaryIds := [], canaries := [])))
  {
    var bare := sub.(canaryIds := [], canaries := []);
    var t, f := Create(s, sub), Create(e, bare);
    forall id ensures (id in f.units <==> Client(t, id)) && (id in f.units ==> f.units[id] == t.units[id]) {
      SubmittedClient(s, e, sub, id);
    }
  }

  lemma SubmittedClient(s: Store, e: Store, sub: Submission, id: UnitId)
    requires Filed(s) && SameClients(s, e) && sub.Legal(s) && sub.(canaryIds := [], canaries := []).Legal(e)
    ensures var t, f := Create(s, sub), Create(e, sub.(canaryIds := [], canaries := []));
      (id in f.units <==> Client(t, id)) && (id in f.units ==> f.units[id] == t.units[id])
  {
    var bare := sub.(canaryIds := [], canaries := []);
    var m := sub.ids + sub.canaryIds;
    assert bare.ids + bare.canaryIds == sub.ids;
    CreatedUnits(s, sub);
    CreatedUnits(e, bare);
    if id in m {
      CreatedClient(s, sub, id);
      if id in sub.ids {
        var k :| 0 <= k < |sub.ids| && sub.ids[k] == id;
        assert m[k] == id && (bare.ids + bare.canaryIds)[k] == id;
        assert Create(s, sub).units[id] == sub.UnitAt(k) && Create(e, bare).units[id] == bare.UnitAt(k);
      }
    } else {
      assert id !in sub.ids;
      assert Client(Create(s, sub), id) == Client(s, id);
    }
  }

  lemma SubmitOrder(s: Store, e: Store, sub: Submission)
    requires Ordered(s) && Filed(s) && sub.Legal(s) && e.order == Filter(s.order, IsClient(s))
    ensures Filter(Create(s, sub).order, IsClient(Create(s, sub))) == e.order + sub.ids
  {
    var t := Create(s, sub);
    var c := IsClient(t);
    CreatedUnits(s, sub);
    forall id | id in sub.ids ensures c(id) { CreatedClient(s, sub, id); }
    forall id | id in sub.canaryIds ensures !c(id) {
      CreatedClient(s, sub, id);
      NotBoth(sub.ids, sub.canaryIds, id);
    }
    forall id | id in s.order ensures c(id) == IsClient(s)(id) { assert id !in sub.ids + sub.canaryIds; }
    assert t.order == s.order + sub.ids + sub.canaryIds;
    hide Create, Client, Filter;
    FilterAppend(s.order + sub.ids, sub.canaryIds, c);
    FilterAppend(s.order, sub.ids, c);
    FilterAll(sub.ids, c);
    FilterNone(sub.canaryIds, c);
    FilterSame(s.order, c, IsClient(s));
    assert Filter(s.order + sub.ids, c) + [] == Filter(s.order + sub.ids, c);
  }

  /** No step but a submission changes whose a unit is. */
  lemma SameOrder(s: Store, t: Store)
    requires t.order == s.order && forall id :: Client(t, id) == Client(s, id)
    ensures Filter(t.order, IsClient(t)) == Filter(s.order, IsClient(s))
  {
    FilterSame(s.order, IsClient(t), IsClient(s));
  }

  lemma TakeErases(s: Store, e: Store, n: NodeId, count: int, model: string, now: real)
    requires Erases(s, e)
    ensures var k := |Filter(Granted(s, count, model), IsClient(s))|;
      Erases(Lease(s, n, count, model, now), Lease(e, n, k, model, now))
  {
    var mine := Filter(Granted(s, count, model), IsClient(s));
    var t, f := Lease(s, n, count, model, now), Lease(e, n, |mine|, model, now);
    ClientGrants(s, e, count, model);
    LeaseLive(s, n, count, model, now);
    LeaseLive(e, n, |mine|, model, now);
    TakeClients(s, e, n, count, model, now);
    hide Lease, Client, Filter;
    FilterSame(ClientLive(s), id => id !in Granted(s, count, model), id => id !in Granted(e, |mine|, model));
    assert t.order == s.order && f.order == e.order by { LeaseOrder(s, n, count, model, now); LeaseOrder(e, n, |mine|, model, now); }
    SameOrder(s, t);
  }

  lemma LeaseOrder(s: Store, n: NodeId, count: int, model: string, now: real)
    ensures Lease(s, n, count, model, now).order == s.order
  {
  }

  lemma TakeClients(s: Store, e: Store, n: NodeId, count: int, model: string, now: real)
    requires SameClients(s, e)
    requires var mine := Filter(Granted(s, count, model), IsClient(s)); Granted(e, |mine|, model) == mine
    ensures var k := |Filter(Granted(s, count, model), IsClient(s))|;
      SameClients(Lease(s, n, count, model, now), Lease(e, n, k, model, now))
    ensures forall id :: Client(Lease(s, n, count, model, now), id) == Client(s, id)
  {
    hide Granted, LeftQueued;
  }

  lemma ReclaimErases(s: Store, e: Store, ids: seq<UnitId>, mine: seq<UnitId>)
    requires Inv(s) && Inv(e) && Tidy(s) && Tidy(e) && Erases(s, e)
    requires forall id :: id in ids ==> id in s.units && s.units[id].state == LEASED
    requires mine == Filter(ids, IsClient(s))
    ensures Erases(Reclaim(s, ids), Reclaim(e, mine))
  {
    ReclaimLive(s, ids);
    ReclaimLive(e, mine);
    AllClients(s, e);
    FilterAll(mine, IsClient(e));
    ReclaimClients(s, e, ids, mine);
    SameOrder(s, Reclaim(s, ids));
  }

  lemma ReclaimClients(s: Store, e: Store, ids: seq<UnitId>, mine: seq<UnitId>)
    requires SameClients(s, e) && mine == Filter(ids, IsClient(s))
    ensures SameClients(Reclaim(s, ids), Reclaim(e, mine))
    ensures forall id :: Client(Reclaim(s, ids), id) == Client(s, id)
  {
  }

  lemma HeldErases(s: Store, e: Store, p: Unit -> bool, held: UnitId -> bool, mine: UnitId -> bool)
    requires Erases(s, e)
    requires forall id :: held(id) == (id in s.units && p(s.units[id]))
    requires forall id :: mine(id) == (id in e.units && p(e.units[id]))
    ensures Filter(e.order, mine) == Filter(Filter(s.order, held), IsClient(s))
  {
    var both := (id: UnitId) => held(id) && Client(s, id);
    FilterFilter(s.order, IsClient(s), mine, both);
    FilterFilter(s.order, held, IsClient(s), both);
  }

  lemma ReleaseErases(s: Store, e: Store, n: NodeId)
    requires Inv(s) && Inv(e) && Tidy(s) && Tidy(e) && Erases(s, e)
    ensures Erases(Release(s, n), Release(e, n))
  {
    hide Inv, Tidy, Erases, Reclaim;
    HeldErases(s, e, (u: Unit) => u.LeasedTo(n), IsHeldBy(s, n),
               IsHeldBy(e, n));
    ReclaimErases(s, e, HeldBy(s, n), HeldBy(e, n));
  }

  lemma ExpireErases(s: Store, e: Store, now: real)
    requires Inv(s) && Inv(e) && Tidy(s) && Tidy(e) && Erases(s, e)
    ensures Erases(Expire(s, now), Expire(e, now))
  {
    hide Inv, Tidy, Erases, Reclaim;
    HeldErases(s, e, (u: Unit) => u.ExpiredAt(now), IsExpiredAt(s, now),
               IsExpiredAt(e, now));
    ReclaimErases(s, e, ExpiredAt(s, now), ExpiredAt(e, now));
  }

  /** Both stores give the client's unit the same verdict, and its batch the same end. */
  lemma SettleErases(s: Store, e: Store, id: UnitId, u: Unit, now: real)
    requires Listed(s) && Erases(s, e) && Client(s, id) && !u.Outstanding() && u.batch == s.units[id].batch
    ensures Erases(MaybeFinish(s.(units := s.units[id := u]), u.batch, now),
                   MaybeFinish(e.(units := e.units[id := u]), u.batch, now))
  {
    SettleLive(s, id, u, now);
    SettleLive(e, id, u, now);
    SettleClients(s, e, id, u, now);
    SameOrder(s, MaybeFinish(s.(units := s.units[id := u]), u.batch, now));
  }

  lemma SettleClients(s: Store, e: Store, id: UnitId, u: Unit, now: real)
    requires Listed(s) && SameClients(s, e) && Client(s, id) && !u.Outstanding() && u.batch == s.units[id].batch
    ensures SameClients(MaybeFinish(s.(units := s.units[id := u]), u.batch, now),
                        MaybeFinish(e.(units := e.units[id := u]), u.batch, now))
    ensures forall x :: Client(MaybeFinish(s.(units := s.units[id := u]), u.batch, now), x) == Client(s, x)
  {
    var t, f := s.(units := s.units[id := u]), e.(units := e.units[id := u]);
    assert SameClients(t, f) && forall x :: Client(t, x) == Client(s, x);
    forall x | x in s.batches[u.batch].unitIds ensures Undecided(t, x) == Undecided(f, x) {
      UndecidedSame(s, e, x, u.batch);
    }
    SameUnfinished(t, f, u.batch);
    FinishClients(t, f, u.batch, now);
  }

  /** When the batch ends in both stores or in neither, the client's side stays the same. */
  lemma FinishClients(s: Store, e: Store, b: BatchId, now: real)
    requires SameClients(s, e) && Finishes(s, b) == Finishes(e, b)
    ensures SameClients(MaybeFinish(s, b, now), MaybeFinish(e, b, now))
    ensures forall x :: Client(MaybeFinish(s, b, now), x) == Client(s, x)
  {
    hide Unfinished;
  }

  lemma UndecidedSame(s: Store, e: Store, x: UnitId, b: BatchId)
    requires Listed(s) && SameClients(s, e) && b in s.batches && x in s.batches[b].unitIds
    ensures x in s.units && s.units[x].batch == b && Undecided(s, x) == Undecided(e, x)
  {
    assert x in Members(s.batches[b]);
    OnlyOwn(s, b, x);
  }

  lemma RejectErases(s: Store, e: Store, id: UnitId, message: string, now: real)
    requires Inv(s) && Inv(e) && Tidy(s) && Tidy(e) && Erases(s, e)
    requires Client(s, id) && s.units[id].state == LEASED && s.units[id].Reject(message).state == PENDING
    ensures Erases(Fail(s, id, message, now), Fail(e, id, message, now))
  {
    AllClients(s, e);
    assert id in e.units && e.units[id] == s.units[id];
    hide Filter, ClientLive, SameClients, Fail;
    RejectLive(s, id, message, now);
    RejectLive(e, id, message, now);
    RejectClients(s, e, id, message, now);
    SameOrder(s, Fail(s, id, message, now));
  }

  lemma RejectClients(s: Store, e: Store, id: UnitId, message: string, now: real)
    requires SameClients(s, e) && Client(s, id) && Undecided(s, id) && s.units[id].Reject(message).state == PENDING
    ensures SameClients(Fail(s, id, message, now), Fail(e, id, message, now))
    ensures forall x :: Client(Fail(s, id, message, now), x) == Client(s, x)
    ensures Fail(s, id, message, now).order == s.order && Fail(e, id, message, now).order == e.order
  {
  }

  lemma CancelErases(s: Store, e: Store, b: BatchId)
    requires Inv(s) && Inv(e) && Erases(s, e) && Cancellable(s, b)
    ensures Erases(Cancel(s, b), Cancel(e, b))
  {
    CancelLive(s, b);
    CancelLive(e, b);
    CancelClients(s, e, b);
    forall id | id in ClientLive(s) ensures OutsideOf(s, b)(id) == OutsideOf(e, b)(id) {
      assert Client(s, id);
    }
    FilterSame(ClientLive(s), OutsideOf(s, b), OutsideOf(e, b));
    SameClientsOf(s, b);
    assert Cancel(s, b).order == s.order && Cancel(e, b).order == e.order;
    hide Cancel, Inv;
    SameOrder(s, Cancel(s, b));
  }

  lemma StopErases(s: Store, e: Store, b: BatchId)
    requires Inv(s) && Inv(e) && Erases(s, e)
    ensures Erases(Cancel(s, b), Cancel(e, b))
  {
    hide Inv;
    if Cancellable(s, b) { CancelErases(s, e, b); } else { assert !Cancellable(e, b); }
  }

  lemma SameClientsOf(s: Store, b: BatchId)
    ensures forall x :: Client(Cancel(s, b), x) == Client(s, x)
  {
  }

  lemma CancelClients(s: Store, e: Store, b: BatchId)
    requires Listed(s) && SameClients(s, e) && Cancellable(s, b)
    ensures SameClients(Cancel(s, b), Cancel(e, b))
  {
    var mine := s.batches[b].unitIds + s.batches[b].canaryIds;
    assert mine == Members(s.batches[b]) && s.batches[b].unitIds == e.batches[b].unitIds + e.batches[b].canaryIds;
    forall x | Client(s, x) ensures x in mine <==> x in s.batches[b].unitIds {
      if x in mine { OnlyOwn(s, b, x); }
    }
  }

  // ── Events on a canary leave no trace ──────────────────────────────────

  /** A canary's verdict never ends its batch: the client's units decide that alone. */
  lemma CanaryNeverFinishes(s: Store, id: UnitId, u: Unit)
    requires Inv(s) && id in s.units && !Client(s, id) && u.batch == s.units[id].batch
    ensures !Finishes(s.(units := s.units[id := u]), u.batch)
  {
    var b := u.batch;
    if s.batches[b].state == IN_PROGRESS {
      assert ExactFor(s, b) && id in Members(s.batches[b]);
      var x :| x in s.batches[b].unitIds && x in s.units && s.units[x].Outstanding();
      var t := s.(units := s.units[id := u]);
      assert x != id && x in t.batches[b].unitIds && x in t.units && t.units[x].Outstanding();
    }
  }

  /** Nothing of the client's changed. */
  lemma StillErases(s: Store, t: Store, e: Store)
    requires Erases(s, e) && t.order == s.order && t.batches == s.batches && ClientLive(t) == ClientLive(s)
    requires t.units.Keys == s.units.Keys
    requires forall x :: x in s.units ==> t.units[x].batch == s.units[x].batch && (Client(s, x) ==> t.units[x] == s.units[x])
    ensures Erases(t, e)
  {
    forall x ensures Client(t, x) == Client(s, x) {}
    SameOrder(s, t);
  }

  lemma CanarySettleErased(s: Store, e: Store, id: UnitId, u: Unit, now: real)
    requires Inv(s) && Erases(s, e) && id in s.units && !Client(s, id)
    requires !u.Outstanding() && u.batch == s.units[id].batch
    ensures Erases(MaybeFinish(s.(units := s.units[id := u]), u.batch, now), e)
  {
    var mid := s.(units := s.units[id := u]);
    CanaryNeverFinishes(s, id, u);
    hide Inv, Finishes, Erases;
    assert MaybeFinish(mid, u.batch, now) == mid;
    CanaryLive(s, id, u, now);
    hide MaybeFinish, ClientLive;
    StillErases(s, mid, e);
  }

  lemma CanaryLive(s: Store, id: UnitId, u: Unit, now: real)
    requires id in s.units && !Client(s, id) && !u.Outstanding() && u.batch == s.units[id].batch
    ensures ClientLive(MaybeFinish(s.(units := s.units[id := u]), u.batch, now)) == ClientLive(s)
  {
    SettleLive(s, id, u, now);
    hide MaybeFinish;
    forall x | x in ClientLive(s) ensures Except(id)(x) { assert Client(s, x); }
    FilterAll(ClientLive(s), Except(id));
  }

  lemma CanaryRejectErased(s: Store, e: Store, id: UnitId, message: string, now: real)
    requires Filed(s) && Quiet(s) && Erases(s, e) && Undecided(s, id) && !Client(s, id)
    requires s.units[id].Reject(message).state == PENDING
    ensures Erases(Fail(s, id, message, now), e)
  {
    RejectLive(s, id, message, now);
    StillErases(s, Fail(s, id, message, now), e);
  }

  lemma RunOne(e: Store, op: Op)
    requires Legal(e, op)
    ensures Run(e, [op]) == Step(e, op)
  {
    assert [op][1..] == [];
  }

  lemma SameUndecided(s: Store, e: Store, id: UnitId)
    requires SameClients(s, e) && (id in s.units ==> Client(s, id))
    ensures Undecided(s, id) == Undecided(e, id) && (id in s.units ==> id in e.units && e.units[id] == s.units[id])
  {
  }

  /** A result for a unit of the client's, or for no unit at all, does the same in both stores. */
  lemma ClientDeliver(s: Store, e: Store, id: UnitId, n: NodeId, result: Result, now: real)
    requires Listed(s) && Erases(s, e) && (id in s.units ==> Client(s, id))
    ensures Erases(Complete(s, id, n, result, now), Complete(e, id, n, result, now))
  {
    SameUndecided(s, e, id);
    hide Erases, Listed, MaybeFinish;
    if Undecided(s, id) { SettleErases(s, e, id, s.units[id].Finish(n, result), now); }
  }

  lemma CanaryDeliver(s: Store, e: Store, id: UnitId, n: NodeId, result: Result, now: real)
    requires Inv(s) && Erases(s, e) && id in s.units && !Client(s, id)
    ensures Erases(Complete(s, id, n, result, now), e)
  {
    hide Inv, Erases, MaybeFinish, Client;
    if Undecided(s, id) { CanarySettleErased(s, e, id, s.units[id].Finish(n, result), now); }
  }

  lemma DeliverErases(s: Store, e: Store, op: Op)
    requires Related(s, e) && op.Deliver?
    ensures Erases(Step(s, op), Run(e, Erase(s, op)))
  {
    hide Erases, Tidy, Complete, Client;
    var id := op.unit;
    RunOne(e, op);
    if id in s.units && !Client(s, id) {
      CanaryDeliver(s, e, id, op.node, op.result, op.now);
    } else {
      ClientDeliver(s, e, id, op.node, op.result, op.now);
    }
  }

  lemma ClientDeadLetter(s: Store, e: Store, id: UnitId, message: string, now: real)
    requires Listed(s) && Erases(s, e) && Client(s, id) && Undecided(s, id) && s.units[id].Reject(message).state == FAILED
    ensures Erases(Fail(s, id, message, now), Fail(e, id, message, now))
  {
    SameUndecided(s, e, id);
    hide Erases, Listed, MaybeFinish, Client;
    SettleErases(s, e, id, s.units[id].Reject(message), now);
  }

  /** So does a failure report on one, unless it would requeue a unit that is waiting. */
  lemma ClientRefuse(s: Store, e: Store, id: UnitId, message: string, now: real)
    requires Inv(s) && Inv(e) && Tidy(s) && Tidy(e) && Erases(s, e) && (id in s.units ==> Client(s, id))
    requires id in s.units && s.units[id].state == PENDING ==> s.units[id].attempts >= MAX_UNIT_ATTEMPTS
    ensures Erases(Fail(s, id, message, now), Fail(e, id, message, now))
  {
    assert Listed(s);
    SameUndecided(s, e, id);
    if !Undecided(s, id) { assert Fail(s, id, message, now) == s && Fail(e, id, message, now) == e; }
    hide Inv, Erases, Tidy, Fail, Client, Listed;
    if Undecided(s, id) {
      if s.units[id].Reject(message).state == FAILED {
        ClientDeadLetter(s, e, id, message, now);
      } else {
        RejectErases(s, e, id, message, now);
      }
    }
  }

  lemma CanaryRefuse(s: Store, e: Store, id: UnitId, message: string, now: real)
    requires Inv(s) && Erases(s, e) && id in s.units && !Client(s, id)
    ensures Erases(Fail(s, id, message, now), e)
  {
    assert Filed(s) && Quiet(s);
    hide Inv, Filed, Quiet, Erases, MaybeFinish, Client;
    if Undecided(s, id) {
      var u := s.units[id].Reject(message);
      if u.state == FAILED { CanarySettleErased(s, e, id, u, now); } else { CanaryRejectErased(s, e, id, message, now); }
    }
  }

  lemma RefuseErases(s: Store, e: Store, op: Op)
    requires Related(s, e) && op.Refuse? && Polite(s, op)
    ensures Erases(Step(s, op), Run(e, Erase(s, op)))
  {
    hide Inv, Erases, Tidy, Fail, Client;
    var id := op.unit;
    RunOne(e, op);
    if id in s.units && !Client(s, id) {
      CanaryRefuse(s, e, id, op.message, op.now);
    } else {
      ClientRefuse(s, e, id, op.message, op.now);
    }
  }

  // ── Steps and runs ─────────────────────────────────────────────────────

  lemma StepErases(s: Store, e: Store, op: Op)
    requires Related(s, e) && Legal(s, op) && Polite(s, op)
    ensures LegalRun(e, Erase(s, op))
    ensures Erases(Step(s, op), Run(e, Erase(s, op)))
  {
    hide Inv, Tidy, Erases;
    match op
    case Submit(sub) => SubmitErases(s, e, sub);
    case Take(n, count, model, now) => TakeErases(s, e, n, count, model, now);
    case Deliver(_, _, _, _) => DeliverErases(s, e, op);
    case Refuse(_, _, _, _) => RefuseErases(s, e, op);
    case NodeLeft(n) => ReleaseErases(s, e, n);
    case Reap(now) => ExpireErases(s, e, now);
    case Stop(b) => StopErases(s, e, b);
  }

  lemma StepRelated(s: Store, e: Store, op: Op)
    requires Related(s, e) && Legal(s, op) && Polite(s, op)
    ensures LegalRun(e, Erase(s, op)) && Related(Step(s, op), Run(e, Erase(s, op)))
  {
    StepErases(s, e, op);
    StepKeeps(s, op);
    StepTidy(s, op);
    RunKeeps(e, Erase(s, op));
    ErasedTidy(s, e, op);
  }

  lemma ErasedTidy(s: Store, e: Store, op: Op)
    requires Related(s, e) && Legal(s, op) && Polite(s, op) && LegalRun(e, Erase(s, op))
    ensures Tidy(Run(e, Erase(s, op)))
  {
    AllClients(s, e);
    if Erase(s, op) != [] {
      StepTidy(e, Erase(s, op)[0]);
    }
  }

  ghost predicate PoliteRun(s: Store, ops: seq<Op>)
    requires LegalRun(s, ops)
    decreases |ops|
  {
    ops == [] || (Polite(s, ops[0]) && PoliteRun(Step(s, ops[0]), ops[1..]))
  }

  ghost function ErasedRun(s: Store, ops: seq<Op>): seq<Op>
    requires LegalRun(s, ops)
    decreases |ops|
  {
    if ops == [] then [] else Erase(s, ops[0]) + ErasedRun(Step(s, ops[0]), ops[1..])
  }

  lemma {:induction false} RunRelated(s: Store, e: Store, ops: seq<Op>)
    requires Related(s, e) && LegalRun(s, ops) && PoliteRun(s, ops)
    ensures LegalRun(e, ErasedRun(s, ops)) && Related(Run(s, ops), Run(e, ErasedRun(s, ops)))
    decreases |ops|
  {
    hide Related, Erase;
    if ops != [] {
      StepRelated(s, e, ops[0]);
      var f := Run(e, Erase(s, ops[0]));
      RunRelated(Step(s, ops[0]), f, ops[1..]);
      RunInTurn(e, Erase(s, ops[0]), ErasedRun(Step(s, ops[0]), ops[1..]));
    }
  }

  /** No canary is left in a run that was erased. */
  ghost predicate WithoutCanaries(ops: seq<Op>) {
    forall i :: 0 <= i < |ops| && ops[i].Submit? ==> ops[i].sub.canaries == [] && ops[i].sub.canaryIds == []
  }

  lemma {:induction false} ErasedHasNone(s: Store, ops: seq<Op>)
    requires LegalRun(s, ops)
    ensures WithoutCanaries(ErasedRun(s, ops))
    decreases |ops|
  {
    if ops != [] {
      ErasedHasNone(Step(s, ops[0]), ops[1..]);
    }
  }

  /** In related stores the client reads the same of every batch. */
  lemma SameReadings(s: Store, e: Store, b: BatchId)
    requires Related(s, e) && b in s.batches
    ensures b in e.batches && e.batches[b].state == s.batches[b].state
    ensures CountsOf(e, b) == CountsOf(s, b) && UsageOf(e, b) == UsageOf(s, b) && ResultsOf(e, b) == ResultsOf(s, b)
  {
    assert Verdicts.SameClientUnits(s, e, b) by {
      forall id | id in s.batches[b].unitIds ensures id in s.units && id in e.units && e.units[id] == s.units[id] {
        assert id in Members(s.batches[b]);
        OnlyOwn(s, b, id);
        assert Client(s, id);
      }
    }
    Verdicts.ReadingsAgree(s, e, b);
  }

  /**
   Canaries do not interfere: take any run in which no failure report requeues a
   waiting unit of the client, leave out the canaries and all that happened to
   them, and what remains is a run of an unverified store after which the client
   reads the same state, results, counts and usage of every batch.
   */
  lemma CanariesDoNotInterfere(ops: seq<Op>, b: BatchId)
    requires LegalRun(EMPTY, ops) && PoliteRun(EMPTY, ops) && b in Run(EMPTY, ops).batches
    ensures var bare := ErasedRun(EMPTY, ops);
      && WithoutCanaries(bare) && LegalRun(EMPTY, bare)
      && var s, e := Run(EMPTY, ops), Run(EMPTY, bare);
      && b in e.batches && e.batches[b].state == s.batches[b].state
      && ResultsOf(e, b) == ResultsOf(s, b) && CountsOf(e, b) == CountsOf(s, b) && UsageOf(e, b) == UsageOf(s, b)
  {
    hide Related;
    assert Related(EMPTY, EMPTY) by { EmptyRelated(); }
    RunRelated(EMPTY, EMPTY, ops);
    ErasedHasNone(EMPTY, ops);
    SameReadings(Run(EMPTY, ops), Run(EMPTY, ErasedRun(EMPTY, ops)), b);
  }

  lemma EmptyRelated()
    ensures Related(EMPTY, EMPTY)
  {
    EmptyInv();
  }
}
