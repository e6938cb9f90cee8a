/** How the orchestrator answers a node's work messages, on the store it shares. */
module NodesApi {
  import opened Sequences
  import opened Store
  import opened Node
  import opened Protocol
  import B = BatchStore
  import Ledger
  import Engine
  import Oversight
  import Verdicts
  import Invariant
  import V = Verification
  import S = Store

  /** The payload carries the unit's own fields, and the unit is leased to that node and fits its model. */
  predicate IsSent(p: Payload, u: B.WorkUnit, n: NodeId, nodeModel: string)
    reads u
  {
    && p.unitId == u.id && p.messages == u.messages && p.maxTokens == u.maxTokens && p.temperature == u.temperature
    && u.state == LEASED && u.nodeId == Some(n)
    && (u.model == "" || nodeModel == "" || u.model == nodeModel)
  }

  /** A node asks for work: it is leased what it has room for, and sent the payloads. */
  method HandleWorkRequest(store: B.BatchStore, n: NodeId, capacity: int, nodeModel: string, now: real)
      returns (units: seq<Payload>)
    requires store.Valid()
    modifies store`pending, store`Model, store.units.Values
    ensures store.Valid() && store.Model == LeaseFor(old(store.Model), n, capacity, nodeModel, now)
    ensures units == Payloads(old(store.Model), GrantedTo(old(store.Model), capacity, nodeModel))
    ensures |units| <= 64 && |units| <= if capacity > 0 then capacity else 0
    ensures forall i :: 0 <= i < |units| ==>
              units[i].unitId in store.units && IsSent(units[i], store.units[units[i].unitId], n, nodeModel)
    ensures |units| < (if capacity < 64 then capacity else 64) ==> forall id ::
              && id in old(store.pending) && id in store.units && old(store.units[id].state) == PENDING
              && store.units[id].batchId in store.batches && store.batches[store.units[id].batchId].state != CANCELLED
              && (store.units[id].model == "" || nodeModel == "" || store.units[id].model == nodeModel)
              ==> store.units[id].state == LEASED && store.units[id].nodeId == Some(n)
  {
    hide S.Lease, Granted, B.BatchStore.Valid;
    ghost var s := store.Model;
    var asked := if capacity < MAX_LEASE_PER_REQUEST then capacity else MAX_LEASE_PER_REQUEST;
    if asked < 0 { asked := 0; }
    units := [];
    if asked == 0 { return; }
    var leased := store.Lease(n, asked, nodeModel, now);
    ghost var ids := GrantedTo(s, capacity, nodeModel);
    units := PayloadsOf(leased);
    forall i | 0 <= i < |leased| ensures units[i] == Payloads(s, ids)[i] {
      store.Knows(leased[i].id);
      LeasedPayload(s, n, asked, nodeModel, now, ids[i]);
    }
    assert units == Payloads(s, ids);
  }

  method PayloadsOf(leased: seq<B.WorkUnit>) returns (units: seq<Payload>)
    ensures |units| == |leased|
    ensures forall i :: 0 <= i < |leased| ==>
              units[i] == Payload(leased[i].id, leased[i].messages, leased[i].maxTokens, leased[i].temperature)
  {
    units := [];
    for i := 0 to |leased|
      invariant |units| == i && forall k :: 0 <= k < i ==>
                  units[k] == Payload(leased[k].id, leased[k].messages, leased[k].maxTokens, leased[k].temperature)
    {
      units := units + [leased[i].Payload()];
    }
  }

  /** Leasing a unit does not change what a node is sent about it. */
  lemma LeasedPayload(s: Store, n: NodeId, count: nat, model: string, now: real, id: UnitId)
    ensures var t := S.Lease(s, n, count, model, now);
      id in t.units ==> id in s.units && PayloadOf(id, t.units[id]) == PayloadOf(id, s.units[id])
  {
  }

  /** The store's event that a verdict from node `n` stands for. */
  function VerdictOp(n: NodeId, m: Uplink, now: real): Op
    requires !m.WorkRequest?
  {
    match m
    case WorkResult(id, result) => Deliver(id, n, result, now)
    case WorkFailed(id, message) => Refuse(id, n, message, now)
  }

  /** A node reports on a unit: the store, the counters and the verifier take the same step. */
  method HandleVerdict(store: B.BatchStore, n: NodeId, m: Uplink, now: real)
    requires !m.WorkRequest? && store.Valid() && (store.verifier != null ==> store.verifier.Valid())
    modifies store`pending, store`Model, store.units.Values, store.batches.Values, store.metrics, store.Watch()
    ensures store.Valid() && store.Model == RecordVerdict(old(store.Model), n, m, now)
    ensures store.Model == match m
      case WorkResult(id, result) => S.Complete(old(store.Model), id, n, result, now)
      case WorkFailed(id, message) => S.Fail(old(store.Model), id, message, now)
    ensures store.metrics.View() == Ledger.Count(old(store.metrics.View()), old(store.Model), VerdictOp(n, m, now))
    ensures store.verifier != null ==> store.verifier.Valid()
    ensures store.verifier != null ==>
      store.verifier.Model == Oversight.Oversee(store.verifier.cfg, old(store.verifier.Model), old(store.Model), VerdictOp(n, m, now))
  {
    hide S.Complete, S.Fail, B.BatchStore.Valid, Ledger.CountComplete, Ledger.CountFail, V.Judge;
    match m
    case WorkResult(id, result) => store.Complete(id, n, result, now);
    case WorkFailed(id, message) => store.Fail(id, n, message, now);
  }

  /** The connection of node `n` closed: every unit it still held goes back to the queue, and is counted. */
  method HandleDisconnect(store: B.BatchStore, n: NodeId)
    requires store.Valid()
    modifies store`pending, store`Model, store.units.Values, store.metrics
    ensures store.Valid() && store.Model == Step(old(store.Model), NodeLeft(n))
    ensures store.metrics.View() == Ledger.Count(old(store.metrics.View()), old(store.Model), NodeLeft(n))
  {
    hide S.Release, B.BatchStore.Valid;
    var _ := store.ReleaseNode(n);
  }

  /**
   What becomes of an item that raised: when its exception says nothing, the client
   reads an empty answer at the unit's place from then on; otherwise this verdict
   answers nothing.
   */
  lemma RaisedItemIsRead(s: Store, n: NodeId, o: BatchOutput, st: Engine.Streamed, servedBy: string, now: real,
                         ops: seq<Op>, b: BatchId, i: nat)
    requires Invariant.Inv(s) && b in s.batches && i < |s.batches[b].unitIds| && Undecided(s, s.batches[b].unitIds[i])
    requires Engine.IsSingle(o, st) && st.raised.Some?
    requires LegalRun(Step(s, VerdictOp(n, VerdictOn(s.batches[b].unitIds[i], o, servedBy), now)), ops)
    ensures var id := s.batches[b].unitIds[i]; var u := s.units[id];
      var t := Step(s, VerdictOp(n, VerdictOn(id, o, servedBy), now));
      if st.raised.value == "" then
        |ResultsOf(Run(t, ops), b)| == |s.batches[b].unitIds|
        && ResultsOf(Run(t, ops), b)[i] == Response(i, id, u.attempts, "", 0, 0, if servedBy != "" then servedBy else u.model)
      else id in t.units && t.units[id].state != COMPLETE
  {
    var id := s.batches[b].unitIds[i];
    if st.raised.value == "" {
      assert VerdictOp(n, VerdictOn(id, o, servedBy), now) == Deliver(id, n, Result("", 0, 0, servedBy), now);
      hide Invariant.Inv, ResultsOf, Step, Run, LegalRun, VerdictOp, VerdictOn;
      Verdicts.FirstVerdictIsRead(s, Deliver(id, n, Result("", 0, 0, servedBy), now), ops, b, i);
    } else {
      assert VerdictOn(id, o, servedBy) == WorkFailed(id, st.raised.value);
      hide Invariant.Inv, ResultsOf, Run, LegalRun, VerdictOn;
      RefusedIsNoAnswer(s, id, n, st.raised.value, now);
    }
  }

  lemma RefusedIsNoAnswer(s: Store, id: UnitId, n: NodeId, message: string, now: real)
    requires Undecided(s, id)
    ensures var t := Step(s, Refuse(id, n, message, now)); id in t.units && t.units[id].state != COMPLETE
  {
  }
}
