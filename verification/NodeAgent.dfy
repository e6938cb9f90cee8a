/** The node agent's batch loop, with its queue, outbox and flags updated in place. */
module NodeAgent {
  import opened Sequences
  import opened Store
  import opened Node
  import opened Engine

  /** A generation of the unit's own: its text, or its exception. */
  predicate AnsweredAlone(b: Backend, u: Payload, o: BatchOutput) {
    var s := b.stream(Item(u.messages, u.maxTokens, u.temperature));
    if s.raised.Some? then o == BatchOutput("", 0, 0, s.raised)
    else o.error.None? && o.text == Concat(s.pieces) && (s.tokens.Some? ==> (o.promptTokens, o.completionTokens) == s.tokens.value)
  }

  /** A slot of a batched decode at the unit's temperature, in which its prompt and its limit were handed over. */
  ghost predicate AnsweredInSlot(b: Backend, u: Payload, o: BatchOutput) {
    exists prompts: seq<seq<int>>, limits: seq<int>, slot: nat ::
      && slot < |prompts| == |limits| && b.encodePrompt(u.messages) == Some(prompts[slot]) && limits[slot] == u.maxTokens
      && SlotGives(b, prompts, limits, u.temperature, slot, o)
  }

  predicate SlotGives(b: Backend, prompts: seq<seq<int>>, limits: seq<int>, t: real, slot: nat, o: BatchOutput)
    requires slot < |prompts|
  {
    var texts := b.decode(prompts, limits, t);
    && texts.Some? && slot < |texts.value| && b.countTokens(texts.value[slot]).Some?
    && o == BatchOutput(texts.value[slot], |prompts[slot]|, b.countTokens(texts.value[slot]).value, None)
  }

  lemma InSlotOrAlone(b: Backend, items: seq<Item>, units: seq<Payload>, i: nat, o: BatchOutput)
    requires |items| == |units| && i < |units| && items[i] == Item(units[i].messages, units[i].maxTokens, units[i].temperature)
    requires IsAnswer(b, items, i, o)
    ensures AnsweredAlone(b, units[i], o) || AnsweredInSlot(b, units[i], o)
  {
    var t := items[i].temperature;
    var g := Group(items, t);
    if Texts(b, items, g, t).Some? {
      var slot := Slot(items, i);
      GroupsPartition(items, i);
      SlotHandsOver(b, items, g, slot);
      assert SlotGives(b, Prompts(b, items, g).value, Limits(items, g), t, slot, o);
    }
  }

  /**
   The outbox grew by exactly one report for each unit, in the order of the units, and
   behind them by nothing or by one request.
   */
  ghost predicate ReportsEach(before: seq<Uplink>, after: seq<Uplink>, units: seq<Payload>, d: Decoded, servedBy: string) {
    var n, m := |before|, |units|;
    && n + m <= |after| <= n + m + 1 && after[..n] == before
    && (forall i :: 0 <= i < m ==> IsReport(after[n + i], units[i].unitId, i, m, d, servedBy))
    && (|after| == n + m + 1 ==> after[n + m].WorkRequest?)
  }

  class NodeAgent {
    const batchSize: int
    const modelId: string
    var modelLoaded: bool
    var outbox: seq<Uplink>
    var workQueue: seq<Payload>
    var workInProgress: nat
    var workRequestInflight: bool
    /** The worker's local batch. */
    var decoding: seq<Payload>
    /** Units of workers cancelled before their batch ended, which have still to be counted off. */
    var cancelled: nat

    ghost function View(): Agent reads this {
      Agent(batchSize, modelLoaded, workQueue, decoding, outbox, workRequestInflight)
    }

    ghost predicate Valid() reads this { workInProgress == |decoding| + cancelled }

    constructor (batchSize: int, modelId: string)
      ensures Valid() && View() == Newcomer(batchSize)
    {
      this.batchSize, this.modelId := batchSize, modelId;
      modelLoaded, outbox, workQueue, workInProgress := false, [], [], 0;
      workRequestInflight, decoding, cancelled := false, [], 0;
    }

    /** Puts a request into the outbox, or does nothing; never two requests in a row. */
    method RequestWorkIfRoom()
      requires Valid()
      modifies this`outbox, this`workRequestInflight
      ensures Valid() && View() == RequestWork(old(View()))
      ensures
        if modelLoaded && !old(workRequestInflight) && |workQueue| < batchSize then
          workRequestInflight && outbox == old(outbox) + [WorkRequest(batchSize - |workQueue|)]
        else workRequestInflight == old(workRequestInflight) && outbox == old(outbox)
    {
      if !modelLoaded || workRequestInflight { return; }
      var room := batchSize - |workQueue|;
      if room <= 0 { return; }
      workRequestInflight := true;
      outbox := outbox + [WorkRequest(room)];
    }

    method ModelLoaded()
      requires Valid()
      modifies this`modelLoaded, this`outbox, this`workRequestInflight
      ensures Valid() && View() == Loaded(old(View()))
    {
      modelLoaded := true;
      RequestWorkIfRoom();
    }

    /** An assignment answers the outstanding request, whether it brings units or not. */
    method OnAssignment(units: seq<Payload>)
      requires Valid()
      modifies this`workQueue, this`workRequestInflight
      ensures Valid() && View() == Assigned(old(View()), units)
      ensures workQueue == old(workQueue) + units && !workRequestInflight
    {
      workRequestInflight := false;
      for i := 0 to |units|
        invariant workQueue == old(workQueue) + units[..i] && !workRequestInflight && Valid()
      {
        workQueue := workQueue + [units[i]];
        assert units[..i + 1] == units[..i] + [units[i]];
      }
      assert units[..|units|] == units;
      assert workQueue == old(workQueue) + units;
    }

    /** One unit at least, and as many more as there are and the batch has room for. */
    method TakeUnits() returns (units: seq<Payload>)
      requires Valid() && workQueue != []
      modifies this`workQueue
      ensures Valid() && units + workQueue == old(workQueue)
      ensures |units| == if |old(workQueue)| <= batchSize then |old(workQueue)| else if batchSize > 1 then batchSize else 1
      ensures units == old(workQueue)[..|units|] && workQueue == old(workQueue)[|units|..]
    {
      units := [workQueue[0]];
      workQueue := workQueue[1..];
      while |units| < batchSize && workQueue != []
        invariant units + workQueue == old(workQueue) && 1 <= |units| && (|units| <= batchSize || |units| == 1)
        decreases |workQueue|
      {
        units, workQueue := units + [workQueue[0]], workQueue[1..];
      }
      assert units == old(workQueue)[..|units|] && workQueue == old(workQueue)[|units|..];
    }

    /** The batch is the front of the backlog, and its place in the backlog is asked for at once. */
    method BeginBatch()
      requires Valid() && workQueue != [] && decoding == []
      modifies this
      ensures Valid() && View() == Begin(old(View()))
      ensures decoding + workQueue == old(workQueue) && workInProgress == old(workInProgress) + |decoding|
      ensures |decoding| == if |old(workQueue)| <= batchSize then |old(workQueue)| else if batchSize > 1 then batchSize else 1
      ensures
        if modelLoaded && !old(workRequestInflight) && |workQueue| < batchSize then
          outbox == old(outbox) + [WorkRequest(batchSize - |workQueue|)]
        else outbox == old(outbox)
    {
      var units := TakeUnits();
      workInProgress := workInProgress + |units|;
      decoding := units;
      RequestWorkIfRoom();
    }

    /** Whatever engine ran the batch: an exception goes through, and a count that does not match is one. */
    method CheckOutputs(units: seq<Payload>, ran: Decoded) returns (d: Decoded)
      ensures d.Returned? <==> ran.Returned? && |ran.outputs| == |units|
      ensures d.Returned? || ran.Raised? ==> d == ran
      ensures d.Raised? && ran.Returned? ==> d.message == Miscount(|ran.outputs|, |units|)
    {
      if ran.Raised? { return ran; }
      if |ran.outputs| != |units| {
        return Raised("engine returned " + Decimal(|ran.outputs|) + " outputs for " + Decimal(|units|) + " units");
      }
      return ran;
    }

    /**
     Of a batch run on an `MlxEngine` nothing is lost: it neither raises nor miscounts, and each
     unit gets the answer to its own messages, under its own limit and at its own temperature.
     */
    method RunUnits(engine: MlxEngine, units: seq<Payload>) returns (d: Decoded)
      modifies engine
      ensures d.Returned? && |d.outputs| == |units|
      ensures forall i :: 0 <= i < |units| ==>
                || AnsweredAlone(engine.backend, units[i], d.outputs[i])
                || (|units| >= 2 && engine.backend.hasBatch && AnsweredInSlot(engine.backend, units[i], d.outputs[i]))
    {
      var items := Items(units);
      var outputs := engine.GenerateBatch(items);
      forall i | 0 <= i < |units|
        ensures || AnsweredAlone(engine.backend, units[i], outputs[i])
                || (|units| >= 2 && engine.backend.hasBatch && AnsweredInSlot(engine.backend, units[i], outputs[i]))
      {
        assert items[i] == Item(units[i].messages, units[i].maxTokens, units[i].temperature);
        if |units| >= 2 && engine.backend.hasBatch { InSlotOrAlone(engine.backend, items, units, i, outputs[i]); }
      }
      d := CheckOutputs(units, Returned(outputs));
    }

    /** One message for each unit of a batch that returned. */
    method ReportUnits(units: seq<Payload>, outputs: seq<BatchOutput>, servedBy: string)
      requires Valid() && |outputs| == |units|
      modifies this`outbox
      ensures Valid() && outbox == old(outbox) + Verdicts(units, Returned(outputs), servedBy)
    {
      ghost var all := Verdicts(units, Returned(outputs), servedBy);
      for i := 0 to |units|
        invariant Valid() && outbox == old(outbox) + all[..i]
      {
        var o := outputs[i];
        if o.error.Some? && o.error.value != "" {
          outbox := outbox + [WorkFailed(units[i].unitId, o.error.value)];
        } else {
          outbox := outbox + [WorkResult(units[i].unitId, Result(o.text, o.promptTokens, o.completionTokens, servedBy))];
        }
        assert all[..i + 1] == all[..i] + [all[i]];
      }
      assert all[..|units|] == all;
    }

    method ReportFailure(units: seq<Payload>, message: string)
      requires Valid()
      modifies this`outbox
      ensures Valid() && outbox == old(outbox) + Verdicts(units, Raised(message), "")
    {
      ghost var all := Verdicts(units, Raised(message), "");
      for i := 0 to |units|
        invariant Valid() && outbox == old(outbox) + all[..i]
      {
        outbox := outbox + [WorkFailed(units[i].unitId, message)];
        assert all[..i + 1] == all[..i] + [all[i]];
      }
      assert all[..|units|] == all;
    }

    /** The batch ended, however it did: report every unit, count them off, and ask again. */
    method FinishBatch(d: Decoded, servedBy: string)
      requires Valid() && decoding != []
      modifies this
      ensures Valid() && View() == Finish(old(View()), Verdicts(old(decoding), d, servedBy))
      ensures workInProgress == old(workInProgress) - |old(decoding)|
      ensures ReportsEach(old(outbox), outbox, old(decoding), d, servedBy)
    {
      var units := decoding;
      ghost var all := Verdicts(units, d, servedBy);
      match Checked(|units|, d) {
        case Raised(message) =>
          assert all == Verdicts(units, Raised(message), "");
          ReportFailure(units, message);
        case Returned(outputs) => ReportUnits(units, outputs, servedBy);
      }
      assert outbox == old(outbox) + all;
      assert ReportsEach(old(outbox), outbox, units, d, servedBy) by { OneVerdictEach(units, d, servedBy); }
      workInProgress := workInProgress - |units|;
      decoding := [];
      RequestWorkIfRoom();
    }

    /** The connection is gone: the worker is cancelled and the local backlog dropped. */
    method Disconnect()
      requires Valid()
      modifies this
      ensures Valid() && View() == Drain(old(View())) && workInProgress == old(workInProgress)
      ensures workQueue == [] && decoding == [] && outbox == [] && !workRequestInflight && modelLoaded == old(modelLoaded)
    {
      cancelled, decoding := cancelled + |decoding|, [];
      workRequestInflight, outbox := false, [];
      while workQueue != []
        invariant Valid() && View() == Drain(old(View())).(queue := workQueue) && workInProgress == old(workInProgress)
        decreases |workQueue|
      {
        workQueue := workQueue[1..];
      }
    }

    /** The last act of a cancelled worker, after the outbox was replaced: it counts its batch off and asks. */
    method CancelledWorkerEnds(units: nat)
      requires Valid() && units <= cancelled
      modifies this
      ensures Valid() && View() == RequestWork(old(View())) && workInProgress == old(workInProgress) - units
    {
      workInProgress, cancelled := workInProgress - units, cancelled - units;
      RequestWorkIfRoom();
    }
  }

  function Items(units: seq<Payload>): (r: seq<Item>)
    ensures |r| == |units|
  {
    seq(|units|, i requires 0 <= i < |units| => Item(units[i].messages, units[i].maxTokens, units[i].temperature))
  }

  /**
   An item whose generation raised is reported as failed only when the exception has
   a message; otherwise it is reported as a result with an empty text.
   */
  lemma RaisingItemFailsUnlessSilent(id: UnitId, o: BatchOutput, s: Streamed, servedBy: string)
    requires IsSingle(o, s) && s.raised.Some?
    ensures VerdictOn(id, o, servedBy).WorkFailed? <==> s.raised.value != ""
    ensures s.raised.value == "" ==> VerdictOn(id, o, servedBy) == WorkResult(id, Result("", 0, 0, servedBy))
  {
  }

  /** And an item that does not raise is never reported as failed. */
  lemma AnsweringItemSucceeds(id: UnitId, o: BatchOutput, s: Streamed, servedBy: string)
    requires IsSingle(o, s) && s.raised.None?
    ensures VerdictOn(id, o, servedBy) == WorkResult(id, Result(Concat(s.pieces), o.promptTokens, o.completionTokens, servedBy))
  {
  }
}
