/** The orchestrator's batch store: units, batches and a queue, updated in place. */
module BatchStore {
  import opened Sequences
  import opened Store
  import opened Metrics
  import S = Store
  import opened Verifiers
  import Fields
  import Invariant
  import Ledger
  import Leasing
  import Oversight
  import Recovery
  import N = Node
  import C = Counters
  import V = Verification

  class WorkUnit {
    const id: UnitId
    const batchId: BatchId
    const index: nat
    const messages: seq<Message>
    const model: string
    const maxTokens: int
    const temperature: real
    const createdAt: real
    var state: UnitState
    var attempts: nat
    var nodeId: Option<NodeId>
    var leaseExpiresAt: real
    var leasedAt: real
    var resultText: string
    var error: string
    var promptTokens: int
    var completionTokens: int
    var servedBy: string

    ghost function View(): Unit reads this {
      Unit(batchId, index, messages, model, maxTokens, temperature, createdAt, state, attempts, nodeId,
           leaseExpiresAt, leasedAt, resultText, error, promptTokens, completionTokens, servedBy)
    }

    constructor (id: UnitId, batch: BatchId, index: nat, r: Request, model: string, now: real)
      ensures this.id == id && View() == NewUnit(batch, index, r, model, now)
    {
      this.id, batchId, this.index, messages := id, batch, index, r.messages;
      this.model := if r.model != "" then r.model else model;
      maxTokens, temperature, createdAt := r.maxTokens, r.temperature, now;
      state, attempts, nodeId, leaseExpiresAt, leasedAt := PENDING, 0, None, 0.0, 0.0;
      resultText, error, promptTokens, completionTokens, servedBy := "", "", 0, 0, "";
    }

    predicate Outstanding() reads this { state == PENDING || state == LEASED }

    function Payload(): N.Payload
    {
      N.Payload(id, messages, maxTokens, temperature)
    }

    function ResultRecord(): (r: ResultRecord)
      reads this
      ensures r == View().Record(id)
    {
      if state == COMPLETE then
        Response(index, id, attempts, resultText, promptTokens, completionTokens, if servedBy != "" then servedBy else model)
      else
        NoResponse(index, id, state, attempts, if error != "" then error else "unknown error")
    }

    method Grant(n: NodeId, now: real)
      modifies this
      ensures View() == old(View()).Grant(n, now)
    {
      state, nodeId, attempts := LEASED, Some(n), attempts + 1;
      leasedAt, leaseExpiresAt := now, now + LEASE_DURATION_SEC;
    }

    method Requeue()
      modifies this
      ensures View() == old(View()).Requeue()
    {
      state, nodeId, leaseExpiresAt := PENDING, None, 0.0;
    }

    method Reject(message: string)
      modifies this
      ensures View() == old(View()).Reject(message)
    {
      error := message;
      if attempts >= MAX_UNIT_ATTEMPTS {
        state := FAILED;
      } else {
        state, nodeId, leaseExpiresAt := PENDING, None, 0.0;
      }
    }

    method Abandon()
      modifies this
      ensures View() == old(View()).Abandon()
    {
      state, error := FAILED, "batch cancelled";
    }

    method Finish(n: NodeId, result: Result)
      modifies this
      ensures View() == old(View()).Finish(n, result)
    {
      state, resultText, nodeId := COMPLETE, result.text, Some(n);
      promptTokens, completionTokens, servedBy := result.promptTokens, result.completionTokens, result.servedBy;
      leaseExpiresAt := 0.0;
    }
  }

  class BatchJob {
    const id: BatchId
    const model: string
    const createdAt: real
    var state: BatchState
    var unitIds: seq<UnitId>
    var canaryUnitIds: seq<UnitId>
    var completedAt: Option<real>

    ghost function View(): Batch reads this { Batch(model, createdAt, state, unitIds, canaryUnitIds, completedAt) }

    constructor (id: BatchId, model: string, now: real)
      ensures this.id == id && View() == Batch(model, now, IN_PROGRESS, [], [], None)
    {
      this.id, this.model, createdAt := id, model, now;
      state, unitIds, canaryUnitIds, completedAt := IN_PROGRESS, [], [], None;
    }

    method MarkCompleted(now: real)
      modifies this
      ensures View() == old(View()).(state := COMPLETED, completedAt := Some(now))
    {
      state, completedAt := COMPLETED, Some(now);
    }

    method MarkCancelled()
      modifies this
      ensures View() == old(View()).(state := CANCELLED)
    {
      state := CANCELLED;
    }
  }

  /** `order` is the insertion order of the dictionary `units`. */
  class BatchStore {
    var units: map<UnitId, WorkUnit>
    var order: seq<UnitId>
    var batches: map<BatchId, BatchJob>
    var pending: seq<UnitId>
    const metrics: FleetMetrics
    const verifier: Verifier?

    /** The store as a value, kept in step with the fields above. */
    ghost var Model: Store

    ghost predicate Valid()
      reads this, units.Values, batches.Values
    {
      && Model.order == order && Model.pending == pending && NoDup(order)
      && (forall id :: id in order <==> id in units)
      && (forall id :: id in units <==> id in Model.units)
      && (forall id :: id in units ==> units[id].id == id && units[id].View() == Model.units[id])
      && (forall b :: b in batches <==> b in Model.batches)
      && (forall b :: b in batches ==> batches[b].id == b && batches[b].View() == Model.batches[b])
    }

    /** What the verifier, if there is one, consists of. */
    ghost function Watch(): set<object>
      reads this, verifier
    {
      if verifier == null then {} else {verifier} + verifier.trust.Values
    }

    constructor (metrics: FleetMetrics, verifier: Verifier?)
      ensures Valid() && Model == EMPTY && this.metrics == metrics && this.verifier == verifier
    {
      units, order, batches, pending := map[], [], map[], [];
      Model := EMPTY;
      this.metrics, this.verifier := metrics, verifier;
    }

    lemma Knows(id: UnitId)
      requires Valid()
      ensures Model.pending == pending && Model.order == order && NoDup(order)
      ensures id in units <==> id in Model.units
      ensures id in order <==> id in units
      ensures id in units ==> units[id].id == id && units[id].View() == Model.units[id]
    {
    }

    lemma KnowsAll()
      requires Valid()
      ensures Model.pending == pending && Model.order == order
      ensures forall id :: id in units <==> id in Model.units
      ensures forall id :: id in units ==> units[id].id == id && units[id].View() == Model.units[id]
      ensures forall b :: b in batches <==> b in Model.batches
      ensures forall b :: b in batches ==> batches[b].id == b && batches[b].View() == Model.batches[b]
    {
    }

    lemma NotFiled(job: BatchJob)
      requires Valid() && job.id !in batches
      ensures job !in batches.Values
    {
    }

    lemma KnowsBatch(b: BatchId)
      requires Valid()
      ensures b in batches <==> b in Model.batches
      ensures b in batches ==> batches[b].id == b && batches[b].View() == Model.batches[b]
    {
    }

    // ── One unit at a time ───────────────────────────────────────────────

    method GrantUnit(id: UnitId, n: NodeId, now: real)
      requires Valid() && id in units
      modifies this`Model, units[id]
      ensures Valid() && Model == old(Model).(units := old(Model).units[id := old(Model).units[id].Grant(n, now)])
    {
      units[id].Grant(n, now);
      Model := Model.(units := Model.units[id := Model.units[id].Grant(n, now)]);
    }

    method RequeueUnit(id: UnitId)
      requires Valid() && id in units
      modifies this`Model, units[id]
      ensures Valid() && Model == old(Model).(units := old(Model).units[id := old(Model).units[id].Requeue()])
    {
      units[id].Requeue();
      Model := Model.(units := Model.units[id := Model.units[id].Requeue()]);
    }

    method FinishUnit(id: UnitId, n: NodeId, result: Result)
      requires Valid() && id in units
      modifies this`Model, units[id]
      ensures Valid() && Model == old(Model).(units := old(Model).units[id := old(Model).units[id].Finish(n, result)])
    {
      units[id].Finish(n, result);
      Model := Model.(units := Model.units[id := Model.units[id].Finish(n, result)]);
    }

    method RejectUnit(id: UnitId, message: string)
      requires Valid() && id in units
      modifies this`Model, units[id]
      ensures Valid() && Model == old(Model).(units := old(Model).units[id := old(Model).units[id].Reject(message)])
    {
      units[id].Reject(message);
      Model := Model.(units := Model.units[id := Model.units[id].Reject(message)]);
    }

    method AbandonUnit(id: UnitId)
      requires Valid() && id in units
      modifies this`Model, units[id]
      ensures Valid() && Model == old(Model).(units := old(Model).units[id := old(Model).units[id].Abandon()])
    {
      units[id].Abandon();
      Model := Model.(units := Model.units[id := Model.units[id].Abandon()]);
    }

    method CompleteJob(b: BatchId, now: real)
      requires Valid() && b in batches
      modifies this`Model, batches[b]
      ensures Valid()
      ensures Model == old(Model).(batches :=
        old(Model).batches[b := old(Model).batches[b].(state := COMPLETED, completedAt := Some(now))])
    {
      batches[b].MarkCompleted(now);
      Model := Model.(batches := Model.batches[b := Model.batches[b].(state := COMPLETED, completedAt := Some(now))]);
    }

    method CancelJob(b: BatchId)
      requires Valid() && b in batches
      modifies this`Model, batches[b]
      ensures Valid() && Model == old(Model).(batches := old(Model).batches[b := old(Model).batches[b].(state := CANCELLED)])
    {
      batches[b].MarkCancelled();
      Model := Model.(batches := Model.batches[b := Model.batches[b].(state := CANCELLED)]);
    }

    method SetPending(q: seq<UnitId>)
      requires Valid()
      modifies this`pending, this`Model
      ensures Valid() && pending == q && Model == old(Model).(pending := q)
    {
      pending, Model := q, Model.(pending := q);
    }

    // ── Submission ───────────────────────────────────────────────────────

    /** The verifier decides, where there is one. */
    function Plant(batchSize: nat): seq<Canary> {
      if verifier == null then [] else verifier.Select(batchSize)
    }

    method AddUnit(id: UnitId, b: BatchId, index: nat, r: Request, model: string, now: real)
      requires Valid() && id !in units
      modifies this`units, this`order, this`Model
      ensures Valid() && fresh(units.Values - old(units.Values))
      ensures Model == old(Model).(units := old(Model).units[id := NewUnit(b, index, r, model, now)],
                                   order := old(Model).order + [id])
    {
      var unit := new WorkUnit(id, b, index, r, model, now);
      units, order := units[id := unit], order + [id];
      Model := Model.(units := Model.units[id := NewUnit(b, index, r, model, now)], order := Model.order + [id]);
    }

    /** File a finished job and queue its units. */
    method AddJob(job: BatchJob, queued: seq<UnitId>)
      requires Valid() && job.id !in batches
      modifies this`batches, this`pending, this`Model
      ensures Valid() && batches == old(batches)[job.id := job]
      ensures Model == old(Model).(batches := old(Model).batches[job.id := job.View()], pending := old(Model).pending + queued)
    {
      pending := pending + queued;
      batches := batches[job.id := job];
      Model := Model.(batches := Model.batches[job.id := job.View()], pending := Model.pending + queued);
    }

    /** File one request as a unit of its batch. */
    method AddRequest(job: BatchJob, index: nat, id: UnitId, r: Request, model: string, now: real)
      requires Valid() && id !in units && job.id !in batches
      modifies this`units, this`order, this`Model, job`unitIds
      ensures Valid() && fresh(units.Values - old(units.Values)) && job.unitIds == old(job.unitIds) + [id]
      ensures Model == old(Model).(units := old(Model).units[id := NewUnit(job.id, index, r, model, now)],
                                   order := old(Model).order + [id])
    {
      NotFiled(job);
      hide Valid, NewUnit;
      AddUnit(id, job.id, index, r, model, now);
      job.unitIds := job.unitIds + [id];
    }

    method AddRequests(job: BatchJob, sub: Submission, ghost s: Store)
      requires Valid() && sub.Legal(s) && Model == Filed(s, sub, 0)
      requires job.id == sub.batch && job.id !in batches && job.unitIds == []
      modifies this`units, this`order, this`Model, job`unitIds
      ensures Valid() && fresh(units.Values - old(units.Values))
      ensures Model == Filed(s, sub, |sub.ids|) && job.unitIds == sub.ids
    {
      hide Valid, Filed, NewUnit;
      for i := 0 to |sub.requests|
        invariant Valid() && fresh(units.Values - old(units.Values))
        invariant Model == Filed(s, sub, i) && job.unitIds == sub.ids[..i]
      {
        var id := sub.ids[i];
        Knows(id);
        FileOneMore(s, sub, i);
        AddRequest(job, i, id, sub.requests[i], sub.model, sub.now);
        assert sub.ids[..i + 1] == sub.ids[..i] + [id];
      }
      assert sub.ids[..|sub.ids|] == sub.ids;
    }

    /** The index is taken from the queue as it has grown so far. */
    method Insert(queued: seq<UnitId>, n: nat, k: nat, id: UnitId) returns (q: seq<UnitId>)
      requires |queued| == n + k
      ensures var i := PlantIndex(n, k); q == queued[..i] + [id] + queued[i..]
    {
      var planted := k + 1;
      var share := |queued| / (planted + 1);
      var stride := if share > 1 then share else 1;
      var i := if stride * (k + 1) < |queued| then stride * (k + 1) else |queued|;
      q := queued[..i] + [id] + queued[i..];
    }

    /** File one canary as a unit of its batch. */
    method AddCanary(job: BatchJob, index: nat, id: UnitId, c: Canary, model: string, now: real)
      requires Valid() && id !in units && job.id !in batches
      modifies this`units, this`order, this`Model, job`canaryUnitIds
      ensures Valid() && fresh(units.Values - old(units.Values)) && job.canaryUnitIds == old(job.canaryUnitIds) + [id]
      ensures Model == old(Model).(units := old(Model).units[id := NewUnit(job.id, index, AsRequest(c), model, now)],
                                   order := old(Model).order + [id])
    {
      NotFiled(job);
      hide Valid, NewUnit, AsRequest;
      AddUnit(id, job.id, index, AsRequest(c), model, now);
      job.canaryUnitIds := job.canaryUnitIds + [id];
    }

    /** File, register and queue the `k`-th canary of a batch. */
    method PlantCanary(v: Verifier, job: BatchJob, queued: seq<UnitId>, k: nat, id: UnitId, c: Canary, model: string, now: real)
        returns (q: seq<UnitId>)
      requires Valid() && v.Valid() && id !in units && job.id !in batches && |queued| == |job.unitIds| + k
      modifies this`units, this`order, this`Model, job`canaryUnitIds, v`planted, v`Model
      ensures Valid() && v.Valid() && fresh(units.Values - old(units.Values))
      ensures Model == old(Model).(units := old(Model).units[id := NewUnit(job.id, |job.unitIds| + k, AsRequest(c), model, now)],
                                   order := old(Model).order + [id])
      ensures job.canaryUnitIds == old(job.canaryUnitIds) + [id] && v.Model == V.Register(old(v.Model), id, c)
      ensures var i := PlantIndex(|job.unitIds|, k); q == queued[..i] + [id] + queued[i..]
    {
      hide Valid, PlantIndex, NewUnit, AsRequest, V.Register, Verifier.Valid;
      q := Insert(queued, |job.unitIds|, k, id);
      v.Register(id, c);
      AddCanary(job, |job.unitIds| + k, id, c, model, now);
    }

    method AddCanaries(v: Verifier, job: BatchJob, sub: Submission, ghost s: Store) returns (queued: seq<UnitId>)
      requires Valid() && sub.Legal(s) && Model == Filed(s, sub, |sub.ids|)
      requires job.id == sub.batch && job.id !in batches && job.unitIds == sub.ids && job.canaryUnitIds == []
      requires v.Valid()
      modifies this`units, this`order, this`Model, job`canaryUnitIds, v`planted, v`Model
      ensures Valid() && fresh(units.Values - old(units.Values)) && v.Valid()
      ensures Model == Filed(s, sub, |sub.ids| + |sub.canaryIds|) && job.canaryUnitIds == sub.canaryIds
      ensures queued == Planted(sub.ids, sub.canaryIds) && v.Model == V.RegisterAll(old(v.Model), sub.canaryIds, sub.canaries)
    {
      hide Valid, Filed, Planted, PlantIndex, NewUnit, AsRequest, V.Register, V.RegisterAll, Verifier.Valid;
      ghost var w := v.Model;
      queued := sub.ids;
      NonePlanted(sub, w);
      for k := 0 to |sub.canaries|
        invariant Valid() && fresh(units.Values - old(units.Values)) && v.Valid()
        invariant Model == Filed(s, sub, |sub.ids| + k) && job.canaryUnitIds == sub.canaryIds[..k]
        invariant queued == Planted(sub.ids, sub.canaryIds[..k]) && |queued| == |sub.ids| + k
        invariant v.Model == V.RegisterAll(w, sub.canaryIds[..k], sub.canaries[..k])
      {
        var id := sub.canaryIds[k];
        Knows(id);
        FileOneMore(s, sub, |sub.ids| + k);
        PlantOneMore(sub, w, k);
        queued := PlantCanary(v, job, queued, k, id, sub.canaries[k], sub.model, sub.now);
      }
      assert sub.canaryIds[..|sub.canaryIds|] == sub.canaryIds && sub.canaries[..|sub.canaryIds|] == sub.canaries;
    }

    /** File the requests of a batch and then its canaries. */
    method Fill(job: BatchJob, sub: Submission, ghost s: Store) returns (queued: seq<UnitId>)
      requires Valid() && sub.Legal(s) && Model == Filed(s, sub, 0) && (verifier != null ==> verifier.Valid())
      requires sub.canaries == Plant(|sub.requests|)
      requires job.id == sub.batch && job.id !in batches && job.unitIds == [] && job.canaryUnitIds == []
      modifies this`units, this`order, this`Model, job`unitIds, job`canaryUnitIds, Watch()
      ensures Valid() && fresh(units.Values - old(units.Values))
      ensures Model == Filed(s, sub, |sub.ids| + |sub.canaryIds|)
      ensures job.unitIds == sub.ids && job.canaryUnitIds == sub.canaryIds && queued == Planted(sub.ids, sub.canaryIds)
      ensures verifier != null ==> verifier.Valid()
      ensures verifier != null ==> verifier.Model == V.RegisterAll(old(verifier.Model), sub.canaryIds, sub.canaries)
    {
      hide Valid, Filed, V.RegisterAll, Verifier.Valid;
      AddRequests(job, sub, s);
      queued := sub.ids;
      if verifier != null { queued := AddCanaries(verifier, job, sub, s); } else { assert sub.canaryIds == []; }
    }

    /** Queue a batch of requests, with the canaries the verifier wants in it. */
    method CreateBatch(sub: Submission) returns (job: BatchJob)
      requires Valid() && sub.Legal(Model) && (verifier != null ==> verifier.Valid())
      requires sub.canaries == Plant(|sub.requests|)
      modifies this`units, this`order, this`batches, this`pending, this`Model, metrics`batchesCreated, Watch()
      ensures Valid() && Model == Create(old(Model), sub)
      ensures sub.batch in batches && batches[sub.batch] == job && fresh(job) && fresh(units.Values - old(units.Values))
      ensures metrics.batchesCreated == old(metrics.batchesCreated) + 1
      ensures verifier != null ==> verifier.Valid()
      ensures verifier != null ==> verifier.Model == V.RegisterAll(old(verifier.Model), sub.canaryIds, sub.canaries)
      ensures forall k :: 0 <= k < |sub.ids| ==>
                && sub.ids[k] in units && units[sub.ids[k]].batchId == sub.batch && units[sub.ids[k]].index == k
                && units[sub.ids[k]].messages == sub.requests[k].messages
                && units[sub.ids[k]].maxTokens == sub.requests[k].maxTokens
                && units[sub.ids[k]].temperature == sub.requests[k].temperature
                && units[sub.ids[k]].model == (if sub.requests[k].model != "" then sub.requests[k].model else sub.model)
                && units[sub.ids[k]].state == PENDING && units[sub.ids[k]].attempts == 0
      ensures forall k :: 0 <= k < |sub.canaryIds| ==>
                && sub.canaryIds[k] in units && units[sub.canaryIds[k]].batchId == sub.batch
                && units[sub.canaryIds[k]].index == |sub.ids| + k
                && units[sub.canaryIds[k]].messages == [Message("user", sub.canaries[k].prompt)]
                && units[sub.canaryIds[k]].maxTokens == 256 && units[sub.canaryIds[k]].temperature == 0.0
                && units[sub.canaryIds[k]].model == (if sub.canaries[k].model != "" then sub.canaries[k].model else sub.model)
                && units[sub.canaryIds[k]].state == PENDING && units[sub.canaryIds[k]].attempts == 0
    {
      hide Valid, Create, V.RegisterAll, Verifier.Valid, Submission.Legal, Plant;
      ghost var s := Model;
      job := FileBatch(sub);
      forall k | 0 <= k < |sub.ids| { FiledRequest(s, sub, k); }
      forall k | 0 <= k < |sub.canaryIds| { FiledCanary(s, sub, k); }
    }

    lemma FiledRequest(s: Store, sub: Submission, k: nat)
      requires Valid() && sub.Legal(s) && Model == Create(s, sub) && k < |sub.ids|
      ensures && sub.ids[k] in units && units[sub.ids[k]].batchId == sub.batch && units[sub.ids[k]].index == k
              && units[sub.ids[k]].messages == sub.requests[k].messages
              && units[sub.ids[k]].maxTokens == sub.requests[k].maxTokens
              && units[sub.ids[k]].temperature == sub.requests[k].temperature
              && units[sub.ids[k]].model == (if sub.requests[k].model != "" then sub.requests[k].model else sub.model)
              && units[sub.ids[k]].state == PENDING && units[sub.ids[k]].attempts == 0
    {
      hide Valid, Create;
      Fields.RequestFields(s, sub, k);
      Knows(sub.ids[k]);
    }

    lemma FiledCanary(s: Store, sub: Submission, k: nat)
      requires Valid() && sub.Legal(s) && Model == Create(s, sub) && k < |sub.canaryIds|
      ensures && sub.canaryIds[k] in units && units[sub.canaryIds[k]].batchId == sub.batch
              && units[sub.canaryIds[k]].index == |sub.ids| + k
              && units[sub.canaryIds[k]].messages == [Message("user", sub.canaries[k].prompt)]
              && units[sub.canaryIds[k]].maxTokens == 256 && units[sub.canaryIds[k]].temperature == 0.0
              && units[sub.canaryIds[k]].model == (if sub.canaries[k].model != "" then sub.canaries[k].model else sub.model)
              && units[sub.canaryIds[k]].state == PENDING && units[sub.canaryIds[k]].attempts == 0
    {
      hide Valid, Create;
      Fields.CanaryFields(s, sub, k);
      Knows(sub.canaryIds[k]);
    }

    method FileBatch(sub: Submission) returns (job: BatchJob)
      requires Valid() && sub.Legal(Model) && (verifier != null ==> verifier.Valid())
      requires sub.canaries == Plant(|sub.requests|)
      modifies this`units, this`order, this`batches, this`pending, this`Model, metrics`batchesCreated, Watch()
      ensures Valid() && Model == Create(old(Model), sub)
      ensures sub.batch in batches && batches[sub.batch] == job && fresh(job) && fresh(units.Values - old(units.Values))
      ensures metrics.batchesCreated == old(metrics.batchesCreated) + 1
      ensures verifier != null ==> verifier.Valid()
      ensures verifier != null ==> verifier.Model == V.RegisterAll(old(verifier.Model), sub.canaryIds, sub.canaries)
    {
      hide Valid, Filed, Planted, V.RegisterAll, Verifier.Valid, Create, Submission.Legal;
      ghost var s := Model;
      KnowsBatch(sub.batch);
      FileAll(s, sub);
      job := new BatchJob(sub.batch, sub.model, sub.now);
      var queued := Fill(job, sub, s);
      assert job.View() == sub.NewBatch();
      hide BatchJob.View, Submission.NewBatch;
      AddJob(job, queued);
      metrics.batchesCreated := metrics.batchesCreated + 1;
    }

    // ── Leasing ──────────────────────────────────────────────────────────

    /** What one queue entry comes to when a node asks: granted, left for another node, or stale. */
    method Offer(uid: UnitId, n: NodeId, nodeModel: string, now: real) returns (granted: bool, skipped: bool)
      requires Valid()
      modifies this`Model, if uid in units then {units[uid]} else {}
      ensures Valid() && granted == Eligible(old(Model), nodeModel, uid)
      ensures skipped == (Leasable(old(Model), uid) && !granted)
      ensures Model == if granted then old(Model).(units := old(Model).units[uid := old(Model).units[uid].Grant(n, now)])
                       else old(Model)
    {
      hide Valid;
      Knows(uid);
      granted, skipped := false, false;
      if uid in units && units[uid].state == PENDING {
        var unit := units[uid];
        KnowsBatch(unit.batchId);
        if unit.batchId in batches && batches[unit.batchId].state != CANCELLED {
          skipped := unit.model != "" && nodeModel != "" && unit.model != nodeModel;
          granted := !skipped;
          if granted { GrantUnit(uid, n, now); }
        }
      }
    }

    /**
     Every unit that is returned was waiting, in a batch that was not cancelled, and names no
     model but the node's; and when fewer come back than were asked for, there is no other such
     unit in the queue. Each is now out on a lease to this node.
     */
    method Lease(n: NodeId, count: int, nodeModel: string, now: real) returns (leased: seq<WorkUnit>)
      requires Valid()
      modifies this`pending, this`Model, units.Values
      ensures Valid() && Model == S.Lease(old(Model), n, count, nodeModel, now)
      ensures |leased| == |Granted(old(Model), count, nodeModel)|
      ensures |leased| <= if count > 0 then count else 0
      ensures forall i :: 0 <= i < |leased| ==>
                leased[i].id == Granted(old(Model), count, nodeModel)[i] && leased[i].id in units && units[leased[i].id] == leased[i]
      ensures forall i :: 0 <= i < |leased| ==>
                && leased[i].id in old(pending) && old(units[leased[i].id].state) == PENDING
                && leased[i].batchId in batches && batches[leased[i].batchId].state != CANCELLED
                && (leased[i].model == "" || nodeModel == "" || leased[i].model == nodeModel)
      ensures forall i :: 0 <= i < |leased| ==>
                && leased[i].state == LEASED && leased[i].nodeId == Some(n)
                && leased[i].attempts == old(units[leased[i].id].attempts) + 1
                && leased[i].leasedAt == now && leased[i].leaseExpiresAt == now + LEASE_DURATION_SEC
      ensures |leased| < count ==> forall id ::
                && id in old(pending) && id in units && old(units[id].state) == PENDING
                && units[id].batchId in batches && batches[units[id].batchId].state != CANCELLED
                && (units[id].model == "" || nodeModel == "" || units[id].model == nodeModel)
                ==> units[id] in leased
    {
      ghost var s := Model;
      KnowsAll();
      hide Valid, S.Lease, Granted;
      leased := GrantPending(n, count, nodeModel, now);
      Fields.GrantedOnce(s, count, nodeModel);
      forall i | 0 <= i < |leased| { TakenFields(s, n, count, nodeModel, now, leased[i], i); }
      if |leased| < count {
        forall id | id in s.pending && id in units && s.units[id].state == PENDING
          && units[id].batchId in batches && batches[units[id].batchId].state != CANCELLED
          && (units[id].model == "" || nodeModel == "" || units[id].model == nodeModel)
          ensures units[id] in leased
        {
          var i := TakenToo(s, n, count, nodeModel, now, id);
          assert leased[i] == units[id];
        }
      }
    }

    /** What the model says of the `i`-th unit granted, said of the unit itself. */
    lemma TakenFields(s: Store, n: NodeId, count: int, nodeModel: string, now: real, unit: WorkUnit, i: nat)
      requires Valid() && Model == S.Lease(s, n, count, nodeModel, now) && i < |Granted(s, count, nodeModel)|
      requires unit.id == Granted(s, count, nodeModel)[i] && unit.id in units && units[unit.id] == unit
      ensures unit.id in s.units && unit.id in s.pending && s.units[unit.id].state == PENDING
      ensures unit.batchId in batches && batches[unit.batchId].state != CANCELLED
      ensures unit.model == "" || nodeModel == "" || unit.model == nodeModel
      ensures unit.state == LEASED && unit.nodeId == Some(n) && unit.attempts == s.units[unit.id].attempts + 1
      ensures unit.leasedAt == now && unit.leaseExpiresAt == now + LEASE_DURATION_SEC
    {
      hide Valid, S.Lease, Granted;
      Fields.LeaseFields(s, n, count, nodeModel, now);
      Knows(unit.id);
      KnowsBatch(unit.batchId);
    }

    lemma TakenToo(s: Store, n: NodeId, count: int, nodeModel: string, now: real, id: UnitId) returns (i: nat)
      requires Valid() && Model == S.Lease(s, n, count, nodeModel, now) && |Granted(s, count, nodeModel)| < count
      requires id in s.pending && id in s.units && s.units[id].state == PENDING && id in units
      requires units[id].batchId in batches && batches[units[id].batchId].state != CANCELLED
      requires units[id].model == "" || nodeModel == "" || units[id].model == nodeModel
      ensures i < |Granted(s, count, nodeModel)| && Granted(s, count, nodeModel)[i] == id
    {
      hide Valid, S.Lease, Granted;
      Fields.LeaseFields(s, n, count, nodeModel, now);
      Knows(id);
      KnowsBatch(units[id].batchId);
      Fields.LeaseLeavesNone(s, count, nodeModel, id);
      i :| 0 <= i < |Granted(s, count, nodeModel)| && Granted(s, count, nodeModel)[i] == id;
    }

    /** The loop of `Lease`: takes the lease step of the model, and returns the very units that it grants. */
    method GrantPending(n: NodeId, count: int, nodeModel: string, now: real) returns (leased: seq<WorkUnit>)
      requires Valid()
      modifies this`pending, this`Model, units.Values
      ensures Valid() && Model == S.Lease(old(Model), n, count, nodeModel, now)
      ensures |leased| == |Granted(old(Model), count, nodeModel)|
      ensures forall i :: 0 <= i < |leased| ==>
                leased[i].id == Granted(old(Model), count, nodeModel)[i] && leased[i].id in units && units[leased[i].id] == leased[i]
    {
      hide Eligibles, Skipped, Valid, GrantAll, Eligible, Leasable;
      ghost var s := Model;
      leased := [];
      ghost var ids: seq<UnitId> := [];
      var stillPending: seq<UnitId> := [];
      var i := 0;
      Knows(0);
      StartReading(s, nodeModel, n, now);
      while i < |pending| && |leased| < count
        invariant pending == s.pending && i <= |pending| && ReadTo(s, nodeModel, count, 0) == ReadTo(s, nodeModel, count, i)
        invariant Valid() && Model == s.(units := GrantAll(s.units, ids, n, now))
        invariant ids == Eligibles(s, nodeModel, pending[..i]) && |ids| == |leased|
        invariant forall k :: 0 <= k < |ids| ==> leased[k].id == ids[k] && ids[k] in units && units[ids[k]] == leased[k]
        invariant stillPending == Skipped(s, nodeModel, pending[..i])
      {
        var uid := pending[i];
        ReadOne(s, ids, nodeModel, i, n, now);
        var granted, skipped := Offer(uid, n, nodeModel, now);
        if granted {
          Knows(uid);
          leased, ids := leased + [units[uid]], ids + [uid];
        }
        if skipped { stillPending := stillPending + [uid]; }
        i := i + 1;
      }
      SetPending(stillPending + pending[i..]);
    }

    // ── Verdicts ─────────────────────────────────────────────────────────

    /** Takes the finishing step of the model, and counts it if it is one. Canaries are not looked at. */
    method MaybeFinishBatch(b: BatchId, now: real)
      requires Valid()
      modifies this`Model, batches.Values, metrics`batchesCompleted
      ensures Valid() && Model == S.MaybeFinish(old(Model), b, now)
      ensures metrics.View() == Ledger.CountFinish(old(metrics.View()), Finishes(old(Model), b))
    {
      hide Valid, Unfinished;
      ghost var s := Model;
      KnowsBatch(b);
      if b !in batches || batches[b].state != IN_PROGRESS { return; }
      var ids := batches[b].unitIds;
      for i := 0 to |ids|
        invariant Valid() && Model == s && metrics.View() == old(metrics.View())
        invariant forall k :: 0 <= k < i ==> !Undecided(s, ids[k])
      {
        Knows(ids[i]);
        if ids[i] in units && units[ids[i]].Outstanding() {
          SomeoneLeft(s, b, ids[i]);
          return;
        }
      }
      NobodyLeft(s, b);
      CompleteJob(b, now);
      metrics.batchesCompleted := metrics.batchesCompleted + 1;
    }

    /** The part of `Complete` after the lock is released: verifier and counters, while the store stays as it is. */
    method Account(a: V.Answer, queueSec: real, serviceSec: real, retries: nat)
      requires Valid() && (verifier != null ==> verifier.Valid())
      modifies metrics, Watch()
      ensures Valid()
      ensures metrics.View() == C.UnitCompleted(old(metrics.View()), queueSec, serviceSec, retries)
      ensures verifier != null ==> verifier.Valid() && fresh(verifier.trust.Values - old(verifier.trust.Values))
      ensures verifier != null ==> verifier.Model == V.Judge(verifier.cfg, old(verifier.Model), a)
    {
      hide Valid, V.Check, V.NoteReplay, C.UnitCompleted, Verifier.Valid;
      if verifier != null {
        var _ := verifier.Check(a.unit, a.node, a.text);
        var _ := verifier.NoteReplay(a.unit, a.node, a.text, a.prompt);
      }
      metrics.UnitCompleted(queueSec, serviceSec, retries);
    }

    /** The part of `Complete` that runs under the lock: whether the result counts, and what was measured. */
    method RecordResult(id: UnitId, n: NodeId, result: Result, now: real)
        returns (counted: bool, queueSec: real, serviceSec: real, retries: nat, prompt: string)
      requires Valid()
      modifies this`Model, units.Values, batches.Values, metrics`batchesCompleted
      ensures Valid() && Model == S.Complete(old(Model), id, n, result, now) && counted == Undecided(old(Model), id)
      ensures counted ==> var u := old(Model).units[id];
        && queueSec == Ledger.QueueSec(u) && serviceSec == Ledger.ServiceSec(u, now)
        && retries == Ledger.Retries(u) && prompt == Oversight.Question(u)
      ensures counted ==> var u := old(Model).units[id];
        && queueSec == (if u.leasedAt != 0.0 && u.leasedAt > u.createdAt then u.leasedAt - u.createdAt else 0.0)
        && serviceSec == (if u.leasedAt != 0.0 && now > u.leasedAt then now - u.leasedAt else 0.0)
        && retries == (if u.attempts > 1 then u.attempts - 1 else 0)
      ensures metrics.View() == Ledger.CountFinish(old(metrics.View()),
                counted && Ledger.Closes(old(Model), id, old(Model).units[id].Finish(n, result)))
    {
      hide MaybeFinish, Finishes, Valid, Oversight.Asked;
      Knows(id);
      counted, queueSec, serviceSec, retries, prompt := false, 0.0, 0.0, 0, "";
      if id in units && units[id].Outstanding() {
        var unit := units[id];
        FinishUnit(id, n, result);
        queueSec := if unit.leasedAt != 0.0 then C.NonNegative(unit.leasedAt - unit.createdAt) else 0.0;
        serviceSec := if unit.leasedAt != 0.0 then C.NonNegative(now - unit.leasedAt) else 0.0;
        counted, retries := true, if unit.attempts > 0 then unit.attempts - 1 else 0;
        prompt := Oversight.Asked(unit.messages);
        Knows(id);
        MaybeFinishBatch(unit.batchId, now);
      }
    }

    /** A result reaches store, counters and verifier, or, when its unit has a verdict, none of them. */
    method Complete(id: UnitId, n: NodeId, result: Result, now: real)
      requires Valid() && (verifier != null ==> verifier.Valid())
      modifies this`Model, units.Values, batches.Values, metrics, Watch()
      ensures Valid() && Model == S.Complete(old(Model), id, n, result, now)
      ensures metrics.View() == Ledger.CountComplete(old(metrics.View()), old(Model), id, n, result, now)
      ensures verifier != null ==> verifier.Valid() && fresh(verifier.trust.Values - old(verifier.trust.Values))
      ensures verifier != null ==>
        verifier.Model == Oversight.Oversee(verifier.cfg, old(verifier.Model), old(Model), Deliver(id, n, result, now))
      ensures verifier != null ==>
        verifier.Model ==
          if id in old(Model).units && (old(Model).units[id].state == PENDING || old(Model).units[id].state == LEASED) then
            V.Judge(verifier.cfg, old(verifier.Model),
                    V.Answer(id, n, result.text, Oversight.Asked(old(Model).units[id].messages)))
          else old(verifier.Model)
    {
      ghost var s := Model;
      if verifier != null { Oversight.JudgesTheAnswer(verifier.cfg, verifier.Model, s, id, n, result, now); }
      hide *;
      Settle(id, n, result, now);
    }

    /** The steps of `Complete`. */
    method Settle(id: UnitId, n: NodeId, result: Result, now: real)
      requires Valid() && (verifier != null ==> verifier.Valid())
      modifies this`Model, units.Values, batches.Values, metrics, Watch()
      ensures Valid() && Model == S.Complete(old(Model), id, n, result, now)
      ensures metrics.View() == Ledger.CountComplete(old(metrics.View()), old(Model), id, n, result, now)
      ensures verifier != null ==> verifier.Valid() && fresh(verifier.trust.Values - old(verifier.trust.Values))
      ensures verifier != null ==>
        verifier.Model == Oversight.Oversee(verifier.cfg, old(verifier.Model), old(Model), Deliver(id, n, result, now))
    {
      hide V.Judge, Valid, S.Complete, Ledger.Closes, Ledger.QueueSec, Ledger.ServiceSec, Ledger.Retries;
      hide Oversight.Question, C.UnitCompleted;
      var counted, queueSec, serviceSec, retries, prompt := RecordResult(id, n, result, now);
      if counted { Account(V.Answer(id, n, result.text, prompt), queueSec, serviceSec, retries); }
    }

    /** Takes the step of a failure report: who sent it plays no part. */
    method Fail(id: UnitId, n: NodeId, message: string, now: real)
      requires Valid()
      modifies this`pending, this`Model, units.Values, batches.Values, metrics`batchesCompleted
      ensures Valid() && Model == S.Fail(old(Model), id, message, now)
      ensures metrics.View() == Ledger.CountFail(old(metrics.View()), old(Model), id, message)
    {
      hide MaybeFinish, Finishes, Valid;
      Knows(id);
      if id !in units { return; }
      var unit := units[id];
      if unit.state == COMPLETE || unit.state == FAILED { return; }
      RejectUnit(id, message);
      Knows(id);
      if unit.state == FAILED {
        MaybeFinishBatch(unit.batchId, now);
      } else {
        SetPending(pending + [unit.id]);
      }
    }

    // ── Reclaiming ───────────────────────────────────────────────────────

    method GiveBack(id: UnitId)
      requires Valid() && id in units
      modifies this`pending, this`Model, units[id]
      ensures Valid()
      ensures Model == old(Model).(units := old(Model).units[id := old(Model).units[id].Requeue()],
                                   pending := old(Model).pending + [id])
    {
      Knows(id);
      hide Valid;
      RequeueUnit(id);
      SetPending(pending + [id]);
    }

    /** What was leased to the departed node waits again; nothing else has changed. */
    method ReleaseNode(n: NodeId) returns (requeued: nat)
      requires Valid()
      modifies this`pending, this`Model, units.Values, metrics`leasesReclaimed
      ensures Valid() && Model == S.Release(old(Model), n) && requeued == |HeldBy(old(Model), n)|
      ensures metrics.View() == C.LeasesReturned(old(metrics.View()), requeued)
      ensures forall id :: id in units ==>
                units[id].View() == if old(units[id].state) == LEASED && old(units[id].nodeId) == Some(n)
                then old(units[id].View()).(state := PENDING, node := None, leaseExpiresAt := 0.0) else old(units[id].View())
    {
      ghost var s := Model;
      KnowsAll();
      hide Valid, S.Release;
      requeued := ReleaseEach(n);
      forall id | id in units { ReleasedFields(s, n, id); }
    }

    lemma ReleasedFields(s: Store, n: NodeId, id: UnitId)
      requires Valid() && Model == S.Release(s, n) && id in units
      ensures id in s.units && units[id].View() ==
                if s.units[id].state == LEASED && s.units[id].node == Some(n)
                then s.units[id].(state := PENDING, node := None, leaseExpiresAt := 0.0) else s.units[id]
    {
      KnowsAll();
      assert Invariant.Ordered(s);
      hide Valid, S.Release;
      Recovery.DepartureReturnsItsLeases(s, n);
    }

    lemma ExpiredFields(s: Store, now: real, id: UnitId)
      requires Valid() && Model == S.Expire(s, now) && id in units
      ensures id in s.units && units[id].View() ==
                if s.units[id].state == LEASED && now > s.units[id].leaseExpiresAt
                then s.units[id].(state := PENDING, node := None, leaseExpiresAt := 0.0) else s.units[id]
    {
      KnowsAll();
      assert Invariant.Ordered(s);
      hide Valid, S.Expire;
      Recovery.ReaperReturnsTheOverdue(s, now);
    }

    /** The loop of `ReleaseNode`, one unit of the dictionary after another. */
    method ReleaseEach(n: NodeId) returns (requeued: nat)
      requires Valid()
      modifies this`pending, this`Model, units.Values, metrics`leasesReclaimed
      ensures Valid() && Model == S.Release(old(Model), n) && requeued == |HeldBy(old(Model), n)|
      ensures metrics.View() == C.LeasesReturned(old(metrics.View()), requeued)
    {
      hide Filter, Valid, Reclaim, Unit.Requeue;
      ghost var s := Model;
      Knows(0);
      ghost var p := IsHeldBy(s, n);
      ghost var ids: seq<UnitId> := [];
      requeued := 0;
      StartReclaim(s, p);
      for i := 0 to |order|
        invariant ids == Filter(s.order[..i], p) && requeued == |ids|
        invariant order == s.order && Valid() && Model == Reclaim(s, ids)
        invariant metrics.View() == old(metrics.View())
      {
        Knows(order[i]);
        var unit := units[order[i]];
        NextInOrder(order, i, p);
        ReclaimedAt(s, ids, unit.id);
        if unit.state == LEASED && unit.nodeId == Some(n) {
          RequeueOneMore(s, ids, unit.id);
          GiveBack(unit.id);
          requeued, ids := requeued + 1, ids + [unit.id];
        }
      }
      assert order[..|order|] == order;
      if requeued > 0 { metrics.LeasesReturned(requeued); }
    }

    /** What was leased and overdue waits again; a lease that still runs is left alone. */
    method ExpireLeases(now: real) returns (expired: nat)
      requires Valid()
      modifies this`pending, this`Model, units.Values, metrics`leasesReclaimed
      ensures Valid() && Model == S.Expire(old(Model), now) && expired == |ExpiredAt(old(Model), now)|
      ensures metrics.View() == C.LeasesReturned(old(metrics.View()), expired)
      ensures forall id :: id in units ==>
                units[id].View() == if old(units[id].state) == LEASED && now > old(units[id].leaseExpiresAt)
                then old(units[id].View()).(state := PENDING, node := None, leaseExpiresAt := 0.0) else old(units[id].View())
    {
      ghost var s := Model;
      KnowsAll();
      hide Valid, S.Expire;
      expired := ExpireEach(now);
      forall id | id in units { ExpiredFields(s, now, id); }
    }

    /** The loop of `ExpireLeases`, one unit of the dictionary after another. */
    method ExpireEach(now: real) returns (expired: nat)
      requires Valid()
      modifies this`pending, this`Model, units.Values, metrics`leasesReclaimed
      ensures Valid() && Model == S.Expire(old(Model), now) && expired == |ExpiredAt(old(Model), now)|
      ensures metrics.View() == C.LeasesReturned(old(metrics.View()), expired)
    {
      hide Filter, Valid, Reclaim, Unit.Requeue;
      ghost var s := Model;
      Knows(0);
      ghost var p := IsExpiredAt(s, now);
      ghost var ids: seq<UnitId> := [];
      expired := 0;
      StartReclaim(s, p);
      for i := 0 to |order|
        invariant ids == Filter(s.order[..i], p) && expired == |ids|
        invariant order == s.order && Valid() && Model == Reclaim(s, ids)
        invariant metrics.View() == old(metrics.View())
      {
        Knows(order[i]);
        var unit := units[order[i]];
        NextInOrder(order, i, p);
        ReclaimedAt(s, ids, unit.id);
        if unit.state == LEASED && now > unit.leaseExpiresAt {
          RequeueOneMore(s, ids, unit.id);
          GiveBack(unit.id);
          expired, ids := expired + 1, ids + [unit.id];
        }
      }
      assert order[..|order|] == order;
      if expired > 0 { metrics.LeasesReturned(expired); }
    }

    // ── Cancelling ───────────────────────────────────────────────────────

    method AbandonUnits(all: seq<UnitId>)
      requires Valid()
      modifies this`Model, units.Values
      ensures Valid() && Model == old(Model).(units := AbandonAll(old(Model).units, all))
    {
      hide Valid, AbandonAll;
      ghost var s := Model;
      NoneAbandoned(s.units, all);
      for i := 0 to |all|
        invariant Valid() && Model == s.(units := AbandonAll(s.units, all[..i]))
      {
        AbandonOneMore(s.units, all, i);
        Knows(all[i]);
        if all[i] in units && units[all[i]].Outstanding() { AbandonUnit(all[i]); }
      }
      assert all[..|all|] == all;
    }

    method CancelBatch(b: BatchId) returns (done: bool)
      requires Valid()
      modifies this`Model, units.Values, batches.Values
      ensures Valid() && Model == S.Cancel(old(Model), b) && done == Cancellable(old(Model), b)
    {
      hide Valid, AbandonAll;
      KnowsBatch(b);
      done := b in batches && batches[b].state == IN_PROGRESS;
      if done {
        var all := batches[b].unitIds + batches[b].canaryUnitIds;
        CancelJob(b);
        AbandonUnits(all);
      }
    }

    // ── Status ───────────────────────────────────────────────────────────

    method GetCounts(b: BatchId) returns (r: Option<Counts>)
      requires Valid()
      ensures r == CountsOf(Model, b)
    {
      hide Valid, Filter;
      KnowsBatch(b);
      if b !in batches { return None; }
      var ids := batches[b].unitIds;
      var completed, failed, inFlight, waiting := 0, 0, 0, 0;
      NoneCounted(Model, ids);
      for i := 0 to |ids|
        invariant completed == InState(Model, ids[..i], COMPLETE) && failed == InState(Model, ids[..i], FAILED)
        invariant inFlight == InState(Model, ids[..i], LEASED) && waiting == InState(Model, ids[..i], PENDING)
      {
        Knows(ids[i]);
        CountOneMore(Model, ids, i);
        if ids[i] in units {
          match units[ids[i]].state
          case COMPLETE => completed := completed + 1;
          case FAILED => failed := failed + 1;
          case LEASED => inFlight := inFlight + 1;
          case PENDING => waiting := waiting + 1;
        }
      }
      assert ids[..|ids|] == ids;
      return Some(Counts(|ids|, completed, failed, inFlight, waiting));
    }

    method GetResults(b: BatchId) returns (r: seq<ResultRecord>)
      requires Valid()
      ensures r == ResultsOf(Model, b)
    {
      hide Valid, Sorted;
      KnowsBatch(b);
      if b !in batches { return []; }
      var ids := batches[b].unitIds;
      var known: seq<UnitId> := [];
      for i := 0 to |ids|
        invariant known == Filter(ids[..i], IsKnown(Model)) && forall id :: id in known ==> id in units
      {
        Knows(ids[i]);
        assert ids[..i + 1] == ids[..i] + [ids[i]];
        FilterSnoc(ids[..i], ids[i], IsKnown(Model));
        if ids[i] in units { known := known + [ids[i]]; }
      }
      assert ids[..|ids|] == ids;
      var us := units;
      var key := (id: UnitId) => if id in us then us[id].index as real else 0.0;
      forall id | id in known ensures key(id) == IndexIn(Model)(id) { Knows(id); }
      SortedSame(known, key, IndexIn(Model));
      r := RecordsOf(Sorted(known, key));
    }

    method RecordsOf(ids: seq<UnitId>) returns (r: seq<ResultRecord>)
      requires Valid()
      ensures r == Records(Model, ids)
    {
      hide Valid;
      r := [];
      for i := 0 to |ids|
        invariant r == Records(Model, ids[..i])
      {
        Knows(ids[i]);
        assert ids[..i + 1][..i] == ids[..i];
        if ids[i] in units { r := r + [units[ids[i]].ResultRecord()]; }
      }
      assert ids[..|ids|] == ids;
    }

    method GetUsage(b: BatchId) returns (r: Option<Usage>)
      requires Valid()
      ensures r == UsageOf(Model, b)
    {
      hide Valid;
      KnowsBatch(b);
      if b !in batches { return None; }
      var ids := batches[b].unitIds;
      var prompt, completion := 0, 0;
      for i := 0 to |ids|
        invariant prompt == Sum(ids[..i], PromptTokensIn(Model)) && completion == Sum(ids[..i], CompletionTokensIn(Model))
      {
        Knows(ids[i]);
        assert ids[..i + 1][..i] == ids[..i];
        if ids[i] in units && units[ids[i]].state == COMPLETE {
          prompt, completion := prompt + units[ids[i]].promptTokens, completion + units[ids[i]].completionTokens;
        }
      }
      assert ids[..|ids|] == ids;
      return Some(Usage(prompt, completion, prompt + completion));
    }
  }

  // ── The loops, seen from the specification ─────────────────────────────

  /** The store with the first `k` units of a submission in it. */
  ghost function Filed(s: Store, sub: Submission, k: nat): Store
    requires sub.Legal(s) && k <= |sub.ids| + |sub.canaryIds|
  {
    s.(units := WithUnits(s.units, sub, k), order := s.order + (sub.ids + sub.canaryIds)[..k])
  }

  /** One more unit of a submission filed, and its id was free. */
  lemma FileOneMore(s: Store, sub: Submission, k: nat)
    requires sub.Legal(s) && k < |sub.ids| + |sub.canaryIds|
    ensures var f, id := Filed(s, sub, k), if k < |sub.ids| then sub.ids[k] else sub.canaryIds[k - |sub.ids|];
      && id !in f.units
      && Filed(s, sub, k + 1) == f.(units := f.units[id := sub.UnitAt(k)], order := f.order + [id])
  {
    var m := sub.ids + sub.canaryIds;
    Invariant.WithUnitsAt(s.units, sub, k);
    assert m[k] in m && m[..k + 1] == m[..k] + [m[k]];
    assert s.order + m[..k + 1] == s.order + m[..k] + [m[k]];
  }

  lemma FileAll(s: Store, sub: Submission)
    requires sub.Legal(s)
    ensures Filed(s, sub, 0) == s && sub.batch !in s.batches
    ensures var f := Filed(s, sub, |sub.ids| + |sub.canaryIds|);
      Create(s, sub) == f.(batches := f.batches[sub.batch := sub.NewBatch()], pending := f.pending + Planted(sub.ids, sub.canaryIds))
    ensures sub.canaries == [] ==> Planted(sub.ids, sub.canaryIds) == sub.ids
  {
    var m := sub.ids + sub.canaryIds;
    assert s.order + m[..0] == s.order;
    assert m[..|m|] == m && s.order + m == s.order + sub.ids + sub.canaryIds;
  }

  lemma NonePlanted(sub: Submission, w: V.Verifier)
    requires |sub.canaryIds| == |sub.canaries|
    ensures Planted(sub.ids, sub.canaryIds[..0]) == sub.ids && V.RegisterAll(w, sub.canaryIds[..0], sub.canaries[..0]) == w
  {
  }

  /** One more canary planted and registered. */
  lemma PlantOneMore(sub: Submission, w: V.Verifier, k: nat)
    requires k < |sub.canaryIds| == |sub.canaries|
    ensures var i, q, id := PlantIndex(|sub.ids|, k), Planted(sub.ids, sub.canaryIds[..k]), sub.canaryIds[k];
      && i <= |q| == |sub.ids| + k && sub.canaryIds[..k + 1] == sub.canaryIds[..k] + [id]
      && Planted(sub.ids, sub.canaryIds[..k + 1]) == q[..i] + [id] + q[i..]
    ensures V.RegisterAll(w, sub.canaryIds[..k + 1], sub.canaries[..k + 1])
            == V.Register(V.RegisterAll(w, sub.canaryIds[..k], sub.canaries[..k]), sub.canaryIds[k], sub.canaries[k])
  {
    hide V.Register;
    var ids, cs := sub.canaryIds[..k + 1], sub.canaries[..k + 1];
    assert ids[..k] == sub.canaryIds[..k] && cs[..k] == sub.canaries[..k];
  }

  lemma SomeoneLeft(s: Store, b: BatchId, id: UnitId)
    requires b in s.batches && id in s.batches[b].unitIds && Undecided(s, id)
    ensures Unfinished(s, b)
  {
  }

  lemma NobodyLeft(s: Store, b: BatchId)
    requires b in s.batches && forall k :: 0 <= k < |s.batches[b].unitIds| ==> !Undecided(s, s.batches[b].unitIds[k])
    ensures !Unfinished(s, b)
  {
    forall id | id in s.batches[b].unitIds ensures !Undecided(s, id) {}
  }

  lemma StartReading(s: Store, model: string, n: NodeId, now: real)
    ensures GrantAll(s.units, [], n, now) == s.units
    ensures Eligibles(s, model, s.pending[..0]) == [] && Skipped(s, model, s.pending[..0]) == []
  {
  }

  /** One more queue entry read by the leasing loop: what it is now, and what it was at the start. */
  lemma ReadOne(s: Store, ids: seq<UnitId>, model: string, i: nat, n: NodeId, now: real)
    requires i < |s.pending| && ids == Eligibles(s, model, s.pending[..i])
    ensures var q, id, m := s.pending[..i], s.pending[i], s.(units := GrantAll(s.units, ids, n, now));
      && Eligibles(s, model, s.pending[..i + 1]) == (if Eligible(m, model, id) then ids + [id] else ids)
      && Skipped(s, model, s.pending[..i + 1]) ==
           (if Leasable(m, id) && !Eligible(m, model, id) then Skipped(s, model, q) + [id] else Skipped(s, model, q))
      && (Eligible(m, model, id) ==>
            id in m.units && m.units[id := m.units[id].Grant(n, now)] == GrantAll(s.units, ids + [id], n, now))
  {
    var q, id, m := s.pending[..i], s.pending[i], s.(units := GrantAll(s.units, ids, n, now));
    assert s.pending[..i + 1] == q + [id];
    Invariant.EligiblesMembers(s, model, q);
    GrantedSoFar(s, ids, model, id, n, now);
    if Eligible(m, model, id) { GrantOneMore(s, ids, id, n, now); }
    hide Eligible, Leasable, GrantAll, Filter, Eligibles;
    Leasing.EligiblesSnoc(s, model, q, id);
    FilterSnoc(q, id, IsSkipped(s, model));
    assert Skipped(s, model, q) + [] == Skipped(s, model, q);
  }

  /** Among the units granted so far nothing is waiting any more, and no other unit changed. */
  lemma GrantedSoFar(s: Store, ids: seq<UnitId>, model: string, id: UnitId, n: NodeId, now: real)
    requires forall x :: x in ids ==> Eligible(s, model, x)
    ensures var m := s.(units := GrantAll(s.units, ids, n, now));
      && Eligible(m, model, id) == (Eligible(s, model, id) && id !in ids)
      && Leasable(m, id) == (Leasable(s, id) && id !in ids)
  {
  }

  lemma GrantOneMore(s: Store, ids: seq<UnitId>, id: UnitId, n: NodeId, now: real)
    requires id in s.units && id !in ids
    ensures var m := GrantAll(s.units, ids, n, now);
      id in m && m[id := m[id].Grant(n, now)] == GrantAll(s.units, ids + [id], n, now)
  {
  }

  lemma StartReclaim(s: Store, p: UnitId -> bool)
    ensures Filter(s.order[..0], p) == [] && Reclaim(s, []) == s
  {
    assert RequeueAll(s.units, []) == s.units;
    assert s.pending + [] == s.pending;
  }

  lemma ReclaimedAt(s: Store, ids: seq<UnitId>, id: UnitId)
    ensures var r := Reclaim(s, ids);
      && r.order == s.order && (id in r.units <==> id in s.units)
      && (id in s.units && id !in ids ==> r.units[id] == s.units[id])
  {
  }

  lemma RequeueOneMore(s: Store, ids: seq<UnitId>, id: UnitId)
    requires id in s.units && id !in ids
    ensures var r := Reclaim(s, ids);
      Reclaim(s, ids + [id]) == r.(units := r.units[id := s.units[id].Requeue()], pending := r.pending + [id])
  {
    assert s.pending + (ids + [id]) == s.pending + ids + [id];
  }

  lemma NoneCounted(s: Store, ids: seq<UnitId>)
    ensures forall st: UnitState :: InState(s, ids[..0], st) == 0
  {
  }

  lemma CountOneMore(s: Store, ids: seq<UnitId>, i: nat)
    requires i < |ids|
    ensures forall st: UnitState :: InState(s, ids[..i + 1], st) == InState(s, ids[..i], st) + (if IsIn(s, st)(ids[i]) then 1 else 0)
  {
    assert ids[..i + 1] == ids[..i] + [ids[i]];
    forall st: UnitState ensures InState(s, ids[..i + 1], st) == InState(s, ids[..i], st) + (if IsIn(s, st)(ids[i]) then 1 else 0) {
      FilterSnoc(ids[..i], ids[i], IsIn(s, st));
    }
  }

  lemma NoneAbandoned(units: map<UnitId, Unit>, all: seq<UnitId>)
    ensures AbandonAll(units, all[..0]) == units
  {
  }

  lemma AbandonOneMore(units: map<UnitId, Unit>, all: seq<UnitId>, i: nat)
    requires i < |all|
    ensures var before, id := AbandonAll(units, all[..i]), all[i];
      && (id in before <==> id in units)
      && AbandonAll(units, all[..i + 1]) ==
           if id in units && before[id].Outstanding() then before[id := before[id].Abandon()] else before
  {
    assert all[..i + 1] == all[..i] + [all[i]];
  }

  /** One more entry of the dictionary read by a reclaiming loop. */
  lemma NextInOrder(order: seq<UnitId>, i: nat, p: UnitId -> bool)
    requires i < |order| && NoDup(order)
    ensures Filter(order[..i + 1], p) == Filter(order[..i], p) + (if p(order[i]) then [order[i]] else [])
    ensures order[i] !in Filter(order[..i], p)
  {
    assert order[..i + 1] == order[..i] + [order[i]];
    FilterSnoc(order[..i], order[i], p);
  }
}
