/** A node agent's batch work, as operations on values. */
module Node {
  import opened Sequences
  import opened Store

  /** A unit as a node gets to see it. */
  datatype Payload = Payload(unitId: UnitId, messages: seq<Message>, maxTokens: int, temperature: real)

  function PayloadOf(id: UnitId, u: Unit): Payload {
    Payload(id, u.messages, u.maxTokens, u.temperature)
  }

  /** The work messages of a node. */
  datatype Uplink =
    | WorkRequest(capacity: int)
    | WorkResult(unitId: UnitId, result: Result)
    | WorkFailed(unitId: UnitId, message: string)

  /** What an engine returns for one item. */
  datatype BatchOutput = BatchOutput(text: string, promptTokens: int, completionTokens: int, error: Option<string>)

  /** How an engine's run over a batch ended. */
  datatype Decoded = Raised(message: string) | Returned(outputs: seq<BatchOutput>)

  // ── Verdicts ───────────────────────────────────────────────────────────

  function Decimal(n: nat): string {
    (if n >= 10 then Decimal(n / 10) else "") + [['0', '1', '2', '3', '4', '5', '6', '7', '8', '9'][n % 10]]
  }

  function Miscount(got: nat, want: nat): string {
    "engine returned " + Decimal(got) + " outputs for " + Decimal(want) + " units"
  }

  /** An engine that answers for another number of units than it was given has failed them all. */
  function Checked(units: nat, d: Decoded): Decoded {
    if d.Returned? && |d.outputs| != units then Raised(Miscount(|d.outputs|, units)) else d
  }

  predicate HasFailed(o: BatchOutput) { o.error.Some? && o.error.value != "" }

  function VerdictOn(id: UnitId, o: BatchOutput, servedBy: string): Uplink {
    if HasFailed(o) then WorkFailed(id, o.error.value)
    else WorkResult(id, Result(o.text, o.promptTokens, o.completionTokens, servedBy))
  }

  /** What the worker reports when a batch ends. */
  function Verdicts(units: seq<Payload>, d: Decoded, servedBy: string): seq<Uplink> {
    var c := Checked(|units|, d);
    seq(|units|, i requires 0 <= i < |units| =>
      if c.Returned? && |c.outputs| == |units| then VerdictOn(units[i].unitId, c.outputs[i], servedBy)
      else WorkFailed(units[i].unitId, if c.Raised? then c.message else ""))
  }

  predicate IsVerdictOn(m: Uplink, id: UnitId) {
    !m.WorkRequest? && m.unitId == id
  }

  /** What is to be said of unit `id`, the `i`-th of `n`: the batch's failure, its own failure, or its answer. */
  predicate IsReport(m: Uplink, id: UnitId, i: nat, n: nat, d: Decoded, servedBy: string)
    requires i < n
  {
    match d
    case Raised(message) => m == WorkFailed(id, message)
    case Returned(outputs) =>
      if |outputs| != n then
        m == WorkFailed(id, "engine returned " + Decimal(|outputs|) + " outputs for " + Decimal(n) + " units")
      else
        match outputs[i]
        case BatchOutput(text, promptTokens, completionTokens, error) =>
          if error.Some? && |error.value| > 0 then m == WorkFailed(id, error.value)
          else m == WorkResult(id, Result(text, promptTokens, completionTokens, servedBy))
  }

  /** Exactly one verdict per unit, in the order of the units, however the batch ended. */
  lemma OneVerdictEach(units: seq<Payload>, d: Decoded, servedBy: string)
    ensures var v := Verdicts(units, d, servedBy);
      && |v| == |units|
      && (forall i :: 0 <= i < |units| ==> IsVerdictOn(v[i], units[i].unitId) && IsReport(v[i], units[i].unitId, i, |units|, d, servedBy))
  {
  }

  // ── The agent ──────────────────────────────────────────────────────────

  /**
   `queue` holds leased units not yet started and `current` those being decoded;
   `outbox` is what waits for the sender, and `inflight` says that a work request
   has no assignment yet.
   */
  datatype Agent = Agent(batchSize: int, modelLoaded: bool, queue: seq<Payload>, current: seq<Payload>,
                         outbox: seq<Uplink>, inflight: bool)

  function Newcomer(batchSize: int): Agent { Agent(batchSize, false, [], [], [], false) }

  /** A request for the room in the backlog goes out, if there is any and no request is out already. */
  function RequestWork(a: Agent): Agent {
    var room := a.batchSize - |a.queue|;
    if !a.modelLoaded || a.inflight || room <= 0 then a
    else a.(inflight := true, outbox := a.outbox + [WorkRequest(room)])
  }

  /** An assignment arrives. */
  function Assigned(a: Agent, units: seq<Payload>): Agent {
    a.(inflight := false, queue := a.queue + units)
  }

  /** How many units the worker takes up at once. */
  function Width(a: Agent): nat
    ensures a.queue != [] ==> 1 <= Width(a) <= |a.queue|
  {
    if a.queue == [] then 0 else if |a.queue| <= a.batchSize then |a.queue| else if a.batchSize > 1 then a.batchSize else 1
  }

  /** The worker starts a batch, and asks for the next one before decoding. */
  function Begin(a: Agent): Agent {
    RequestWork(a.(current := a.queue[..Width(a)], queue := a.queue[Width(a)..]))
  }

  /** The batch ended: one verdict per unit goes out, and the worker asks again. */
  function Finish(a: Agent, verdicts: seq<Uplink>): Agent {
    RequestWork(a.(current := [], outbox := a.outbox + verdicts))
  }

  /** The connection is gone, and with it the backlog, the batch and everything unsent. */
  function Drain(a: Agent): Agent {
    a.(inflight := false, outbox := [], queue := [], current := [])
  }

  function Loaded(a: Agent): Agent { RequestWork(a.(modelLoaded := true)) }
}
