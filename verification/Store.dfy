/**
 The batch store as a state machine on values: what each operation of the
 orchestrator's store does to the units, the batches and the queue.

 Identifiers are opaque and only compared; the source draws them at random, so
 here the caller of `Create` supplies them. A text the source may leave unset is
 the empty string when unset, because the source only ever asks whether it is
 truthy. One operation reads the clock once.
 */
module Store {
  import opened Sequences

  type UnitId = nat
  type BatchId = nat
  type NodeId = nat

  datatype UnitState = PENDING | LEASED | COMPLETE | FAILED
  datatype BatchState = IN_PROGRESS | COMPLETED | CANCELLED

  datatype Message = Message(role: string, content: string)
  datatype Request = Request(messages: seq<Message>, model: string, maxTokens: int, temperature: real)
  datatype Canary = Canary(prompt: string, expected: string, model: string)

  // Settings an operator may change; what is proved holds for every value.
  type Positive = n: nat | n > 0 witness 3
  const MAX_UNIT_ATTEMPTS: Positive
  const LEASE_DURATION_SEC: real

  datatype Unit = Unit(
    batch: BatchId, index: nat, messages: seq<Message>, model: string, maxTokens: int, temperature: real,
    createdAt: real, state: UnitState, attempts: nat, node: Option<NodeId>,
    leaseExpiresAt: real, leasedAt: real,
    text: string, error: string, promptTokens: int, completionTokens: int, servedBy: string)
  {
    /** No verdict has been recorded for this unit yet. */
    predicate Outstanding() { state == PENDING || state == LEASED }

    predicate Leased() { state == LEASED }

    predicate LeasedTo(n: NodeId) { state == LEASED && node == Some(n) }

    predicate ExpiredAt(now: real) { state == LEASED && now > leaseExpiresAt }

    /** A unit and a node that both name a model must name the same one. */
    predicate Suits(nodeModel: string) { model == "" || nodeModel == "" || model == nodeModel }

    function Grant(n: NodeId, now: real): Unit {
      this.(state := LEASED, node := Some(n), attempts := attempts + 1,
            leasedAt := now, leaseExpiresAt := now + LEASE_DURATION_SEC)
    }

    function Requeue(): Unit {
      this.(state := PENDING, node := None, leaseExpiresAt := 0.0)
    }

    function Finish(n: NodeId, result: Result): Unit {
      this.(state := COMPLETE, text := result.text, promptTokens := result.promptTokens,
            completionTokens := result.completionTokens, node := Some(n),
            servedBy := result.servedBy, leaseExpiresAt := 0.0)
    }

    function Abandon(): Unit {
      this.(state := FAILED, error := "batch cancelled")
    }

    /** A failure report: back to the queue while attempts remain, dead-lettered after. */
    function Reject(message: string): Unit {
      if attempts >= MAX_UNIT_ATTEMPTS then this.(state := FAILED, error := message)
      else this.(error := message).Requeue()
    }

    /** What the client gets to read about a unit. */
    function Record(id: UnitId): ResultRecord {
      if state == COMPLETE then
        Response(index, id, attempts, text, promptTokens, completionTokens,
                 if servedBy != "" then servedBy else model)
      else
        NoResponse(index, id, state, attempts, if error != "" then error else "unknown error")
    }
  }

  datatype Result = Result(text: string, promptTokens: int, completionTokens: int, servedBy: string)

  datatype ResultRecord =
    | Response(index: nat, unitId: UnitId, attempts: nat, content: string,
               promptTokens: int, completionTokens: int, model: string)
    | NoResponse(index: nat, unitId: UnitId, status: UnitState, attempts: nat, error: string)

  datatype Batch = Batch(model: string, createdAt: real, state: BatchState,
                         unitIds: seq<UnitId>, canaryIds: seq<UnitId>, completedAt: Option<real>)

  /** `order` is the insertion order of the dictionary `units`; iteration follows it. */
  datatype Store = Store(units: map<UnitId, Unit>, order: seq<UnitId>,
                         batches: map<BatchId, Batch>, pending: seq<UnitId>)

  const EMPTY := Store(map[], [], map[], [])

  function NewUnit(b: BatchId, index: nat, r: Request, model: string, now: real): Unit {
    Unit(b, index, r.messages, if r.model != "" then r.model else model, r.maxTokens, r.temperature,
         now, PENDING, 0, None, 0.0, 0.0, "", "", 0, 0, "")
  }

  /** The request a canary is queued as. Its limit and its temperature are the same for all of them. */
  function AsRequest(c: Canary): Request {
    Request([Message("user", c.prompt)], c.model, 256, 0.0)
  }

  // ── Submission ─────────────────────────────────────────────────────────

  /** Where the canary with offset `k` goes in a queue of `n` real units and `k` canaries. */
  function PlantIndex(n: nat, k: nat): nat {
    var len := n + k;
    var stride := if len / (k + 2) > 1 then len / (k + 2) else 1;
    if stride * (k + 1) < len then stride * (k + 1) else len
  }

  /** The queue of a new batch once its canaries have been inserted one after another. */
  function Planted(ids: seq<UnitId>, canaryIds: seq<UnitId>): (q: seq<UnitId>)
    ensures |q| == |ids| + |canaryIds|
  {
    if canaryIds == [] then ids else
      var k := |canaryIds| - 1;
      var q := Planted(ids, canaryIds[..k]);
      var i := PlantIndex(|ids|, k);
      q[..i] + [canaryIds[k]] + q[i..]
  }

  datatype Submission = Submission(batch: BatchId, ids: seq<UnitId>, requests: seq<Request>,
                                   canaryIds: seq<UnitId>, canaries: seq<Canary>, model: string, now: real)
  {
    /** Identifiers are fresh and distinct, one for each request and each canary. */
    ghost predicate Legal(s: Store) {
      && |ids| == |requests| && |canaryIds| == |canaries|
      && (requests == [] ==> canaries == [])
      && batch !in s.batches
      && NoDup(ids + canaryIds)
      && (forall id :: id in ids + canaryIds ==> id !in s.units)
    }

    function NewBatch(): Batch { Batch.Batch(model, now, IN_PROGRESS, ids, canaryIds, None) }

    /** The unit at position `k` of `ids + canaryIds`. */
    function UnitAt(k: nat): Unit
      requires |ids| == |requests| && |canaryIds| == |canaries| && k < |ids| + |canaryIds|
    {
      NewUnit(batch, k, if k < |ids| then requests[k] else AsRequest(canaries[k - |ids|]), model, now)
    }
  }

  /** The units of a submission up to position `k`, added to `units`. */
  function WithUnits(units: map<UnitId, Unit>, sub: Submission, k: nat): map<UnitId, Unit>
    requires |sub.ids| == |sub.requests| && |sub.canaryIds| == |sub.canaries|
    requires k <= |sub.ids| + |sub.canaryIds|
  {
    if k == 0 then units else WithUnits(units, sub, k - 1)[(sub.ids + sub.canaryIds)[k - 1] := sub.UnitAt(k - 1)]
  }

  ghost function Create(s: Store, sub: Submission): Store
    requires sub.Legal(s)
  {
    Store(WithUnits(s.units, sub, |sub.ids| + |sub.canaryIds|), s.order + sub.ids + sub.canaryIds,
          s.batches[sub.batch := sub.NewBatch()], s.pending + Planted(sub.ids, sub.canaryIds))
  }

  // ── Leasing ────────────────────────────────────────────────────────────

  /** A queue entry that stands for work: its unit waits and its batch was not cancelled. */
  predicate Leasable(s: Store, id: UnitId) {
    && id in s.units && s.units[id].state == PENDING
    && s.units[id].batch in s.batches && s.batches[s.units[id].batch].state != CANCELLED
  }

  predicate Eligible(s: Store, model: string, id: UnitId) {
    Leasable(s, id) && s.units[id].Suits(model)
  }

  /** The distinct entries of `q` that a node serving `model` may take, in queue order. */
  function Eligibles(s: Store, model: string, q: seq<UnitId>): seq<UnitId> {
    if q == [] then [] else
      var e := Eligibles(s, model, q[..|q| - 1]);
      var id := q[|q| - 1];
      if Eligible(s, model, id) && id !in e then e + [id] else e
  }

  /** The entries a node leaves in place because they are for another model. */
  function Skipped(s: Store, model: string, q: seq<UnitId>): seq<UnitId> {
    Filter(q, IsSkipped(s, model))
  }

  function IsSkipped(s: Store, model: string): UnitId -> bool {
    (id: UnitId) => Leasable(s, id) && !Eligible(s, model, id)
  }

  /** How far into the queue the loop reads from `i` on before it holds `count` units. */
  function ReadTo(s: Store, model: string, count: int, i: nat): (k: nat)
    requires i <= |s.pending|
    ensures i <= k <= |s.pending|
    decreases |s.pending| - i
  {
    if i == |s.pending| || |Eligibles(s, model, s.pending[..i])| >= count then i
    else ReadTo(s, model, count, i + 1)
  }

  function Granted(s: Store, count: int, model: string): seq<UnitId> {
    Eligibles(s, model, s.pending[..ReadTo(s, model, count, 0)])
  }

  function LeftQueued(s: Store, count: int, model: string): seq<UnitId> {
    var k := ReadTo(s, model, count, 0);
    Skipped(s, model, s.pending[..k]) + s.pending[k..]
  }

  function GrantAll(units: map<UnitId, Unit>, ids: seq<UnitId>, n: NodeId, now: real): map<UnitId, Unit> {
    map id | id in units :: if id in ids then units[id].Grant(n, now) else units[id]
  }

  function Lease(s: Store, n: NodeId, count: int, model: string, now: real): Store {
    s.(units := GrantAll(s.units, Granted(s, count, model), n, now), pending := LeftQueued(s, count, model))
  }

  // ── Verdicts ───────────────────────────────────────────────────────────

  /** Some unit the client submitted in batch `b` still has no verdict. */
  predicate Unfinished(s: Store, b: BatchId)
    requires b in s.batches
  {
    exists id :: id in s.batches[b].unitIds && id in s.units && s.units[id].Outstanding()
  }

  predicate Finishes(s: Store, b: BatchId) {
    b in s.batches && s.batches[b].state == IN_PROGRESS && !Unfinished(s, b)
  }

  function MaybeFinish(s: Store, b: BatchId, now: real): Store {
    if Finishes(s, b) then
      s.(batches := s.batches[b := s.batches[b].(state := COMPLETED, completedAt := Some(now))])
    else s
  }

  /** A verdict on this unit still counts. */
  predicate Undecided(s: Store, id: UnitId) {
    id in s.units && s.units[id].Outstanding()
  }

  function Complete(s: Store, id: UnitId, n: NodeId, result: Result, now: real): Store {
    if !Undecided(s, id) then s
    else MaybeFinish(s.(units := s.units[id := s.units[id].Finish(n, result)]), s.units[id].batch, now)
  }

  function Fail(s: Store, id: UnitId, message: string, now: real): Store {
    if !Undecided(s, id) then s else
      var u := s.units[id].Reject(message);
      var s' := s.(units := s.units[id := u]);
      if u.state == FAILED then MaybeFinish(s', u.batch, now) else s'.(pending := s.pending + [id])
  }

  // ── Reclaiming ─────────────────────────────────────────────────────────

  function RequeueAll(units: map<UnitId, Unit>, ids: seq<UnitId>): map<UnitId, Unit> {
    map id | id in units :: if id in ids then units[id].Requeue() else units[id]
  }

  function Reclaim(s: Store, ids: seq<UnitId>): Store {
    s.(units := RequeueAll(s.units, ids), pending := s.pending + ids)
  }

  function IsHeldBy(s: Store, n: NodeId): UnitId -> bool {
    (id: UnitId) => id in s.units && s.units[id].LeasedTo(n)
  }

  function IsExpiredAt(s: Store, now: real): UnitId -> bool {
    (id: UnitId) => id in s.units && s.units[id].ExpiredAt(now)
  }

  function HeldBy(s: Store, n: NodeId): seq<UnitId> { Filter(s.order, IsHeldBy(s, n)) }

  function ExpiredAt(s: Store, now: real): seq<UnitId> { Filter(s.order, IsExpiredAt(s, now)) }

  function Release(s: Store, n: NodeId): Store { Reclaim(s, HeldBy(s, n)) }

  function Expire(s: Store, now: real): Store { Reclaim(s, ExpiredAt(s, now)) }

  // ── Cancelling ─────────────────────────────────────────────────────────

  predicate Cancellable(s: Store, b: BatchId) {
    b in s.batches && s.batches[b].state == IN_PROGRESS
  }

  function AbandonAll(units: map<UnitId, Unit>, ids: seq<UnitId>): map<UnitId, Unit> {
    map id | id in units :: if id in ids && units[id].Outstanding() then units[id].Abandon() else units[id]
  }

  function Cancel(s: Store, b: BatchId): Store {
    if !Cancellable(s, b) then s
    else s.(units := AbandonAll(s.units, s.batches[b].unitIds + s.batches[b].canaryIds),
            batches := s.batches[b := s.batches[b].(state := CANCELLED)])
  }

  // ── What the client reads ──────────────────────────────────────────────

  datatype Counts = Counts(total: nat, completed: nat, failed: nat, inFlight: nat, pending: nat)
  datatype Usage = Usage(promptTokens: int, completionTokens: int, totalTokens: int)

  function IsIn(s: Store, st: UnitState): UnitId -> bool {
    (id: UnitId) => id in s.units && s.units[id].state == st
  }

  function InState(s: Store, ids: seq<UnitId>, st: UnitState): nat {
    |Filter(ids, IsIn(s, st))|
  }

  function CountsOf(s: Store, b: BatchId): Option<Counts> {
    if b !in s.batches then None else
      var ids := s.batches[b].unitIds;
      Some(Counts(|ids|, InState(s, ids, COMPLETE), InState(s, ids, FAILED), InState(s, ids, LEASED), InState(s, ids, PENDING)))
  }

  function PromptTokensIn(s: Store): UnitId -> int {
    (id: UnitId) => if id in s.units && s.units[id].state == COMPLETE then s.units[id].promptTokens else 0
  }

  function CompletionTokensIn(s: Store): UnitId -> int {
    (id: UnitId) => if id in s.units && s.units[id].state == COMPLETE then s.units[id].completionTokens else 0
  }

  /** Tokens of the answered units alone. */
  function UsageOf(s: Store, b: BatchId): Option<Usage> {
    if b !in s.batches then None else
      var p, c := Sum(s.batches[b].unitIds, PromptTokensIn(s)), Sum(s.batches[b].unitIds, CompletionTokensIn(s));
      Some(Usage(p, c, p + c))
  }

  function IsKnown(s: Store): UnitId -> bool {
    (id: UnitId) => id in s.units
  }

  function IndexIn(s: Store): UnitId -> real {
    (id: UnitId) => if id in s.units then s.units[id].index as real else 0.0
  }

  function RecordAt(s: Store, id: UnitId): ResultRecord
    requires id in s.units
  {
    s.units[id].Record(id)
  }

  function Records(s: Store, ids: seq<UnitId>): seq<ResultRecord> {
    if ids == [] then [] else
      var k := |ids| - 1; Records(s, ids[..k]) + (if ids[k] in s.units then [RecordAt(s, ids[k])] else [])
  }

  /** One record for each submitted unit, sorted by its place in the submission. */
  function ResultsOf(s: Store, b: BatchId): seq<ResultRecord> {
    if b !in s.batches then [] else Records(s, Sorted(Filter(s.batches[b].unitIds, IsKnown(s)), IndexIn(s)))
  }

  // ── Runs ───────────────────────────────────────────────────────────────

  datatype Op =
    | Submit(sub: Submission)
    | Take(node: NodeId, count: int, model: string, now: real)
    | Deliver(unit: UnitId, node: NodeId, result: Result, now: real)
    | Refuse(unit: UnitId, node: NodeId, message: string, now: real)
    | NodeLeft(node: NodeId)
    | Reap(now: real)
    | Stop(batch: BatchId)

  ghost predicate Legal(s: Store, op: Op) {
    op.Submit? ==> op.sub.Legal(s)
  }

  ghost function Step(s: Store, op: Op): Store
    requires Legal(s, op)
  {
    match op
    case Submit(sub) => Create(s, sub)
    case Take(n, count, model, now) => Lease(s, n, count, model, now)
    case Deliver(id, n, result, now) => Complete(s, id, n, result, now)
    case Refuse(id, _, message, now) => Fail(s, id, message, now)
    case NodeLeft(n) => Release(s, n)
    case Reap(now) => Expire(s, now)
    case Stop(b) => Cancel(s, b)
  }

  ghost predicate LegalRun(s: Store, ops: seq<Op>)
    decreases |ops|
  {
    ops == [] || (Legal(s, ops[0]) && LegalRun(Step(s, ops[0]), ops[1..]))
  }

  ghost function Run(s: Store, ops: seq<Op>): Store
    requires LegalRun(s, ops)
    decreases |ops|
  {
    if ops == [] then s else Run(Step(s, ops[0]), ops[1..])
  }
}
