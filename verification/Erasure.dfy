/**
 Canaries do not interfere with the client: erase them, and what is left of any
 run is a run of a store that never heard of them.
 */
module Erasure {
  import opened Sequences
  import opened Store
  import opened Invariant
  import opened Leasing
  import Planting

  predicate Client(s: Store, id: UnitId) {
    && id in s.units && s.units[id].batch in s.batches && id in s.batches[s.units[id].batch].unitIds
  }

  function IsClient(s: Store): UnitId -> bool {
    (id: UnitId) => Client(s, id)
  }

  function IsLiveClient(s: Store): UnitId -> bool {
    (id: UnitId) => Client(s, id) && Leasable(s, id)
  }

  /** The client's waiting work, in queue order. */
  function ClientLive(s: Store): seq<UnitId> {
    Filter(s.pending, IsLiveClient(s))
  }

  /** `e` is `s` without its canaries; of the queues, only the client's waiting work is compared. */
  ghost predicate Erases(s: Store, e: Store) {
    && e.order == Filter(s.order, IsClient(s))
    && SameClients(s, e)
    && ClientLive(e) == ClientLive(s)
  }

  ghost predicate SameClients(s: Store, e: Store) {
    && (forall id :: id in e.units <==> Client(s, id))
    && (forall id :: id in e.units ==> e.units[id] == s.units[id])
    && e.batches.Keys == s.batches.Keys
    && (forall b :: b in s.batches ==> e.batches[b] == s.batches[b].(canaryIds := []))
  }

  /** A waiting client unit is queued once, and one that is out on a lease is not queued at all. */
  ghost predicate Tidy(s: Store) {
    forall id :: Client(s, id) ==>
      && (s.units[id].state == LEASED ==> id !in s.pending)
      && (s.units[id].state == PENDING ==> multiset(s.pending)[id] <= 1)
  }

  /** No failure report puts a unit of the client's back into the queue that is waiting there already. */
  predicate Polite(s: Store, op: Op) {
    op.Refuse? && Client(s, op.unit) && s.units[op.unit].state == PENDING ==> s.units[op.unit].attempts >= MAX_UNIT_ATTEMPTS
  }

  /** The same event without its canaries; an event about a canary alone is gone. */
  function Erase(s: Store, op: Op): seq<Op> {
    match op
    case Submit(sub) => [Submit(sub.(canaryIds := [], canaries := []))]
    case Take(n, count, model, now) => [Take(n, |Filter(Granted(s, count, model), IsClient(s))|, model, now)]
    case Deliver(id, _, _, _) => if id in s.units && !Client(s, id) then [] else [op]
    case Refuse(id, _, _, _) => if id in s.units && !Client(s, id) then [] else [op]
    case _ => [op]
  }

  /** What every pair of stores in the simulation satisfies. */
  ghost predicate Related(s: Store, e: Store) {
    Inv(s) && Inv(e) && Tidy(s) && Tidy(e) && Erases(s, e)
  }

  // ── Leasing ────────────────────────────────────────────────────────────

  /** Stale entries make no difference to what is eligible. */
  lemma {:induction false} EligiblesOfLive(s: Store, model: string, q: seq<UnitId>)
    ensures Eligibles(s, model, Filter(q, IsLive(s))) == Eligibles(s, model, q)
  {
    if q != [] {
      var init, x := q[..|q| - 1], q[|q| - 1];
      EligiblesOfLive(s, model, init);
      if Leasable(s, x) {
        EligiblesSnoc(s, model, Filter(init, IsLive(s)), x);
      } else {
        assert Filter(q, IsLive(s)) == Filter(init, IsLive(s));
      }
    }
  }

  lemma {:induction false} EligiblesOfClients(s: Store, model: string, q: seq<UnitId>, c: UnitId -> bool)
    ensures Eligibles(s, model, Filter(q, c)) == Filter(Eligibles(s, model, q), c)
  {
    if q != [] {
      var init, x := q[..|q| - 1], q[|q| - 1];
      EligiblesOfClients(s, model, init, c);
      FilterSnoc(Eligibles(s, model, init), x, c);
      if c(x) {
        EligiblesSnoc(s, model, Filter(init, c), x);
      } else {
        assert Filter(q, c) == Filter(init, c);
        assert Filter(Eligibles(s, model, q), c) == Filter(Eligibles(s, model, init), c);
      }
    }
  }

  lemma {:induction false} EligiblesSame(s: Store, e: Store, model: string, q: seq<UnitId>)
    requires forall id :: id in q ==> Eligible(s, model, id) == Eligible(e, model, id)
    ensures Eligibles(s, model, q) == Eligibles(e, model, q)
  {
    if q != [] {
      EligiblesSame(s, e, model, q[..|q| - 1]);
      assert q[|q| - 1] in q;
    }
  }

  lemma ClientEligibles(s: Store, e: Store, model: string)
    requires SameClients(s, e) && ClientLive(e) == ClientLive(s)
    ensures Eligibles(e, model, e.pending) == Filter(Eligibles(s, model, s.pending), IsClient(s))
  {
    EligiblesOfClientLive(e, model);
    EligiblesOfClientLive(s, model);
    forall id | id in ClientLive(s) ensures Eligible(s, model, id) == Eligible(e, model, id) {
      assert Client(s, id) && id in e.units;
    }
    EligiblesSame(s, e, model, ClientLive(s));
    EligiblesMembers(e, model, e.pending);
    FilterAll(Eligibles(e, model, e.pending), IsClient(e));
  }

  lemma EligiblesOfClientLive(s: Store, model: string)
    ensures Eligibles(s, model, ClientLive(s)) == Filter(Eligibles(s, model, s.pending), IsClient(s))
  {
    EligiblesOfLive(s, model, s.pending);
    EligiblesOfClients(s, model, Live(s), IsClient(s));
    FilterFilter(s.pending, IsLive(s), IsClient(s), IsLiveClient(s));
  }

  lemma {:induction false} FilterPrefix<T>(q: seq<T>, k: nat, c: T -> bool)
    requires k <= |q|
    ensures Filter(q[..k], c) <= Filter(q, c)
  {
    FilterAppend(q[..k], q[k..], c);
    assert q[..k] + q[k..] == q;
  }

  /** The erased lease grants exactly the client units of the full one. */
  lemma ClientGrants(s: Store, e: Store, count: int, model: string)
    requires SameClients(s, e) && ClientLive(e) == ClientLive(s)
    ensures var mine := Filter(Granted(s, count, model), IsClient(s));
      Granted(e, |mine|, model) == mine
  {
    var c := IsClient(s);
    var all := Eligibles(s, model, s.pending);
    var mine := Filter(Granted(s, count, model), c);
    GrantedIsPrefix(s, count, model);
    ClientEligibles(s, e, model);
    GrantedAreFirst(e, |mine|, model);
    hide Filter, Eligibles, Granted, SameClients, ClientLive;
    FilterPrefix(all, |Granted(s, count, model)|, c);
  }

  /** However many units are asked for, the grant is the beginning of what is eligible. */
  lemma GrantedIsPrefix(s: Store, count: int, model: string)
    ensures var all := Eligibles(s, model, s.pending); var g := Granted(s, count, model);
      |g| <= |all| && g == all[..|g|]
  {
    if count >= 0 {
      GrantedAreFirst(s, count, model);
    } else {
      assert ReadTo(s, model, count, 0) == 0;
    }
  }

  // ── What each operation does to the client's waiting work ──────────────

  lemma LeaseLive(s: Store, n: NodeId, count: int, model: string, now: real)
    ensures ClientLive(Lease(s, n, count, model, now)) == Filter(ClientLive(s), id => id !in Granted(s, count, model))
  {
    var t := Lease(s, n, count, model, now);
    var granted := Granted(s, count, model);
    var out := (id: UnitId) => id !in granted;
    var rest := (id: UnitId) => Client(s, id) && Leasable(s, id) && id !in granted;
    FilterFilter(t.pending, IsLive(t), IsClient(t), IsLiveClient(t));
    LiveAfterLease(s, n, count, model, now);
    FilterSame(Filter(Live(s), out), IsClient(t), IsClient(s));
    FilterFilter(Live(s), out, IsClient(s), id => id !in granted && Client(s, id));
    FilterFilter(s.pending, IsLive(s), id => id !in granted && Client(s, id), rest);
    FilterFilter(s.pending, IsLiveClient(s), out, rest);
  }

  /** The queue is as it was, but some waiting units have gone. */
  lemma ShrinkLive(s: Store, t: Store, keep: UnitId -> bool)
    requires t.pending == s.pending
    requires forall id :: id in s.pending ==> IsLiveClient(t)(id) == (IsLiveClient(s)(id) && keep(id))
    ensures ClientLive(t) == Filter(ClientLive(s), keep)
  {
    FilterFilter(s.pending, IsLiveClient(s), keep, IsLiveClient(t));
  }

  /** Some units joined the end of the queue, and no entry before them came to life. */
  lemma GrowLive(s: Store, t: Store, added: seq<UnitId>, clients: seq<UnitId>)
    requires t.pending == s.pending + added && Filter(added, IsLiveClient(t)) == clients
    requires forall id :: id in s.pending ==> IsLiveClient(t)(id) == IsLiveClient(s)(id)
    ensures ClientLive(t) == ClientLive(s) + clients
  {
    FilterAppend(s.pending, added, IsLiveClient(t));
    FilterSame(s.pending, IsLiveClient(t), IsLiveClient(s));
  }

  lemma ReclaimLive(s: Store, ids: seq<UnitId>)
    requires Filed(s) && Quiet(s) && Tidy(s)
    requires forall id :: id in ids ==> id in s.units && s.units[id].state == LEASED
    ensures ClientLive(Reclaim(s, ids)) == ClientLive(s) + Filter(ids, IsClient(s))
  {
    var t := Reclaim(s, ids);
    forall id | id in ids ensures IsLiveClient(t)(id) == IsClient(s)(id) {
      assert s.units[id].Outstanding();
    }
    FilterSame(ids, IsLiveClient(t), IsClient(s));
    GrowLive(s, t, ids, Filter(ids, IsClient(s)));
  }

  function Except(id: UnitId): UnitId -> bool {
    (x: UnitId) => x != id
  }

  function OutsideOf(s: Store, b: BatchId): UnitId -> bool {
    (id: UnitId) => !(id in s.units && s.units[id].batch == b)
  }

  lemma SettleLive(s: Store, id: UnitId, u: Unit, now: real)
    requires id in s.units && !u.Outstanding() && u.batch == s.units[id].batch
    ensures ClientLive(MaybeFinish(s.(units := s.units[id := u]), u.batch, now)) == Filter(ClientLive(s), Except(id))
  {
    var t := MaybeFinish(s.(units := s.units[id := u]), u.batch, now);
    forall x ensures IsLiveClient(t)(x) == (IsLiveClient(s)(x) && x != id) {
      SettleLiveAt(s, id, u, now, x);
    }
    hide MaybeFinish;
    ShrinkLive(s, t, Except(id));
  }

  lemma SettleLiveAt(s: Store, id: UnitId, u: Unit, now: real, x: UnitId)
    requires id in s.units && !u.Outstanding() && u.batch == s.units[id].batch
    ensures var t := MaybeFinish(s.(units := s.units[id := u]), u.batch, now);
      t.pending == s.pending && IsLiveClient(t)(x) == (IsLiveClient(s)(x) && x != id)
  {
  }

  lemma RejectLive(s: Store, id: UnitId, message: string, now: real)
    requires Filed(s) && Quiet(s) && Undecided(s, id) && s.units[id].Reject(message).state == PENDING
    requires Client(s, id) ==> s.units[id].state == LEASED && id !in s.pending
    ensures ClientLive(Fail(s, id, message, now)) == ClientLive(s) + (if Client(s, id) then [id] else [])
  {
    var t := Fail(s, id, message, now);
    FilterSnoc([], id, IsLiveClient(t));
    assert [] + [id] == [id];
    GrowLive(s, t, [id], if Client(s, id) then [id] else []);
  }

  lemma CancelLive(s: Store, b: BatchId)
    requires Filed(s) && Listed(s) && Cancellable(s, b)
    ensures ClientLive(Cancel(s, b)) == Filter(ClientLive(s), OutsideOf(s, b))
  {
    var t := Cancel(s, b);
    forall x ensures IsLiveClient(t)(x) == (IsLiveClient(s)(x) && OutsideOf(s, b)(x)) {
      CancelLiveAt(s, b, x);
    }
    assert t.pending == s.pending;
    hide Cancel, Listed, Filed;
    ShrinkLive(s, t, OutsideOf(s, b));
  }

  lemma CancelLiveAt(s: Store, b: BatchId, x: UnitId)
    requires Filed(s) && Listed(s) && Cancellable(s, b)
    ensures IsLiveClient(Cancel(s, b))(x) == (IsLiveClient(s)(x) && OutsideOf(s, b)(x))
  {
    if x in Members(s.batches[b]) { OnlyOwn(s, b, x); }
  }

  lemma CreateLive(s: Store, sub: Submission)
    requires Filed(s) && Queued(s) && sub.Legal(s)
    ensures ClientLive(Create(s, sub)) == ClientLive(s) + sub.ids
  {
    var t := Create(s, sub);
    CreatedUnits(s, sub);
    forall id | id in sub.ids ensures IsLiveClient(t)(id) { CreatedClient(s, sub, id); }
    forall id | id in sub.canaryIds ensures !IsLiveClient(t)(id) {
      CreatedClient(s, sub, id);
      NotBoth(sub.ids, sub.canaryIds, id);
    }
    Planting.RealUnitsKeepOrder(sub.ids, sub.canaryIds, IsLiveClient(t));
    GrowLive(s, t, Planted(sub.ids, sub.canaryIds), sub.ids);
  }

  lemma NotBoth(a: seq<UnitId>, b: seq<UnitId>, id: UnitId)
    requires NoDup(a + b) && id in b
    ensures id !in a
  {
    var j :| 0 <= j < |b| && b[j] == id;
    assert (a + b)[|a| + j] == id;
    forall i | 0 <= i < |a| ensures a[i] != id { assert (a + b)[i] == a[i]; }
  }

  lemma CreatedClient(s: Store, sub: Submission, id: UnitId)
    requires sub.Legal(s) && id in sub.ids + sub.canaryIds
    ensures var t := Create(s, sub);
      id in t.units && t.units[id].batch == sub.batch && t.units[id].state == PENDING && Client(t, id) == (id in sub.ids)
  {
    var m := sub.ids + sub.canaryIds;
    CreatedUnits(s, sub);
    var k :| 0 <= k < |m| && m[k] == id;
    assert Create(s, sub).units[id] == sub.UnitAt(k);
  }
}
