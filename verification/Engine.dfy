/** Batched decoding on a node: items regrouped by temperature, scattered back, with a sequential fallback. */
module Engine {
  import opened Sequences
  import opened Store
  import opened Node

  datatype Item = Item(messages: seq<Message>, maxTokens: int, temperature: real)

  /** One single-stream generation: its pieces, its token counts when it reported any, and its exception. */
  datatype Streamed = Streamed(pieces: seq<string>, tokens: Option<(nat, nat)>, raised: Option<string>)

  /** The calls into the model, as functions that may fail. */
  datatype Backend = Backend(
    stream: Item -> Streamed,
    hasBatch: bool,
    encodePrompt: seq<Message> -> Option<seq<int>>,
    decode: (seq<seq<int>>, seq<int>, real) -> Option<seq<string>>,
    countTokens: string -> Option<nat>)

  function Concat(pieces: seq<string>): string {
    if pieces == [] then "" else pieces[0] + Concat(pieces[1..])
  }

  /** The pieces come one after another. */
  lemma ConcatSnoc(pieces: seq<string>, p: string)
    ensures Concat([]) == "" && Concat([p]) == p && Concat(pieces + [p]) == Concat(pieces) + p
  {
    if pieces == [] {
      assert pieces + [p] == [p] && [p][1..] == [] && p + "" == p && "" + p == p;
    } else {
      assert (pieces + [p])[1..] == pieces[1..] + [p];
      ConcatSnoc(pieces[1..], p);
      assert pieces[0] + (Concat(pieces[1..]) + p) == (pieces[0] + Concat(pieces[1..])) + p;
      assert [p][1..] == [] && p + "" == p;
    }
  }

  /** `o` is what a single generation of its own would give, up to token counts that were never reported. */
  predicate IsSingle(o: BatchOutput, s: Streamed) {
    match s.raised
    case Some(message) => o == BatchOutput("", 0, 0, Some(message))
    case None =>
      && o.text == Concat(s.pieces) && o.error.None?
      && (s.tokens.Some? ==> (o.promptTokens, o.completionTokens) == s.tokens.value)
  }

  // ── Groups ─────────────────────────────────────────────────────────────

  /** The positions of the items sampled at temperature `t`, in order. */
  function Group(items: seq<Item>, t: real): (g: seq<nat>)
    ensures forall s :: 0 <= s < |g| ==> g[s] < |items| && items[g[s]].temperature == t
    ensures forall s, r :: 0 <= s < r < |g| ==> g[s] < g[r]
  {
    if items == [] then [] else
      var n := |items| - 1;
      Group(items[..n], t) + (if items[n].temperature == t then [n] else [])
  }

  predicate Occurs(items: seq<Item>, t: real) {
    exists i :: 0 <= i < |items| && items[i].temperature == t
  }

  lemma GroupSnoc(items: seq<Item>, i: nat, t: real)
    requires i < |items|
    ensures Group(items[..i + 1], t) == if items[i].temperature == t then Group(items[..i], t) + [i] else Group(items[..i], t)
  {
    assert items[..i + 1][..i] == items[..i];
  }

  lemma EmptyOrPresent(items: seq<Item>, t: real)
    ensures Group(items, t) == [] || exists j :: 0 <= j < |items| && items[j].temperature == t
  {
    var g := Group(items, t);
    if g != [] { assert items[g[0]].temperature == t; }
  }

  /** Where item `i` stands in its group. */
  function Slot(items: seq<Item>, i: nat): nat
    requires i < |items|
  {
    |Group(items[..i], items[i].temperature)|
  }

  /** The groups partition the items: each position is in the group of its temperature, once, at its slot. */
  lemma {:induction false} GroupsPartition(items: seq<Item>, i: nat)
    requires i < |items|
    ensures var g := Group(items, items[i].temperature); Slot(items, i) < |g| && g[Slot(items, i)] == i
    ensures forall t, s :: 0 <= s < |Group(items, t)| && Group(items, t)[s] == i ==> t == items[i].temperature && s == Slot(items, i)
  {
    var n := |items| - 1;
    if i < n {
      GroupsPartition(items[..n], i);
      assert items[..n][..i] == items[..i];
    }
  }

  // ── One group decoded together ─────────────────────────────────────────

  function Prompts(b: Backend, items: seq<Item>, idxs: seq<nat>): (r: Option<seq<seq<int>>>)
    requires forall s :: 0 <= s < |idxs| ==> idxs[s] < |items|
    ensures r.Some? ==> |r.value| == |idxs|
  {
    if idxs == [] then Some([]) else
      var k := |idxs| - 1;
      var rest, p := Prompts(b, items, idxs[..k]), b.encodePrompt(items[idxs[k]].messages);
      if rest.Some? && p.Some? then Some(rest.value + [p.value]) else None
  }

  function Limits(items: seq<Item>, idxs: seq<nat>): seq<int>
    requires forall s :: 0 <= s < |idxs| ==> idxs[s] < |items|
  {
    seq(|idxs|, s requires 0 <= s < |idxs| => items[idxs[s]].maxTokens)
  }

  /** What a slot hands over is what its item asks: that item's prompt, and that item's limit. */
  lemma {:induction false} SlotHandsOver(b: Backend, items: seq<Item>, idxs: seq<nat>, s: nat)
    requires (forall k :: 0 <= k < |idxs| ==> idxs[k] < |items|) && s < |idxs|
    ensures |Limits(items, idxs)| == |idxs| && Limits(items, idxs)[s] == items[idxs[s]].maxTokens
    ensures Prompts(b, items, idxs).Some? ==>
              |Prompts(b, items, idxs).value| == |idxs| && b.encodePrompt(items[idxs[s]].messages) == Some(Prompts(b, items, idxs).value[s])
  {
    var k := |idxs| - 1;
    if s < k && Prompts(b, items, idxs).Some? { SlotHandsOver(b, items, idxs[..k], s); }
  }

  /** The texts of a batched decode, one per slot at least, or nothing if any part of it raises. */
  function Texts(b: Backend, items: seq<Item>, idxs: seq<nat>, t: real): (r: Option<seq<string>>)
    requires forall s :: 0 <= s < |idxs| ==> idxs[s] < |items|
    ensures r.Some? ==> |r.value| >= |idxs| && Prompts(b, items, idxs).Some?
    ensures r.Some? ==> forall s :: 0 <= s < |idxs| ==> b.countTokens(r.value[s]).Some?
  {
    var prompts := Prompts(b, items, idxs);
    if prompts.None? then None else
      var texts := b.decode(prompts.value, Limits(items, idxs), t);
      if texts.None? || |texts.value| < |idxs| then None
      else if exists s :: 0 <= s < |idxs| && b.countTokens(texts.value[s]).None? then None
      else texts
  }

  /** The output in slot `s`: token counts are taken from the prompt and by encoding the text again. */
  function SlotOutput(b: Backend, items: seq<Item>, idxs: seq<nat>, t: real, s: nat): BatchOutput
    requires (forall k :: 0 <= k < |idxs| ==> idxs[k] < |items|) && s < |idxs| && Texts(b, items, idxs, t).Some?
  {
    var text := Texts(b, items, idxs, t).value[s];
    BatchOutput(text, |Prompts(b, items, idxs).value[s]|, b.countTokens(text).value, None)
  }

  /** What item `i` should come back as: its slot of its group's decode, or a generation of its own. */
  predicate IsAnswer(b: Backend, items: seq<Item>, i: nat, o: BatchOutput)
    requires i < |items|
  {
    var t := items[i].temperature;
    var g := Group(items, t);
    if Texts(b, items, g, t).None? then IsSingle(o, b.stream(items[i]))
    else Slot(items, i) < |g| && o == SlotOutput(b, items, g, t, Slot(items, i))
  }

  /** Batched decoding gives every slot the text a generation of its own would give, and fails for none that would fail. */
  ghost predicate Slotwise(b: Backend) {
    forall items: seq<Item>, t: real, s: nat ::
      var g := Group(items, t); var texts := Texts(b, items, g, t);
      texts.Some? && s < |g| ==>
        b.stream(items[g[s]]).raised.None? && texts.value[s] == Concat(b.stream(items[g[s]]).pieces)
  }

  /** Then grouping, scattering and falling back change no text and no failure. */
  lemma BatchingPreservesMeaning(b: Backend, items: seq<Item>, i: nat, o: BatchOutput, alone: BatchOutput)
    requires Slotwise(b) && i < |items| && IsAnswer(b, items, i, o) && IsSingle(alone, b.stream(items[i]))
    ensures o.text == alone.text && o.error == alone.error
  {
    GroupsPartition(items, i);
    var t := items[i].temperature;
    var g := Group(items, t);
    var s := Slot(items, i);
    assert g[s] == i;
  }

  // ── The engine ─────────────────────────────────────────────────────────

  class MlxEngine {
    const backend: Backend
    var lastPromptTokens: nat
    var lastCompletionTokens: nat

    constructor (backend: Backend)
      ensures this.backend == backend
    {
      this.backend, lastPromptTokens, lastCompletionTokens := backend, 0, 0;
    }

    /** An exception becomes an output like any other. Counts that were not reported are those of an earlier run. */
    method GenerateOne(item: Item) returns (o: BatchOutput)
      modifies this
      ensures IsSingle(o, backend.stream(item))
      ensures var s := backend.stream(item);
        s.raised.None? && s.tokens.None? ==>
          o.promptTokens == old(lastPromptTokens) && o.completionTokens == old(lastCompletionTokens)
    {
      var s := backend.stream(item);
      if s.raised.Some? {
        return BatchOutput("", 0, 0, Some(s.raised.value));
      }
      if s.tokens.Some? {
        lastPromptTokens, lastCompletionTokens := s.tokens.value.0, s.tokens.value.1;
      }
      return BatchOutput(Concat(s.pieces), lastPromptTokens, lastCompletionTokens, None);
    }

    /** One item after another, in the order given. */
    method GenerateSequentially(items: seq<Item>) returns (r: seq<BatchOutput>)
      modifies this
      ensures |r| == |items| && forall i :: 0 <= i < |items| ==> IsSingle(r[i], backend.stream(items[i]))
    {
      r := [];
      for i := 0 to |items|
        invariant |r| == i && forall j :: 0 <= j < i ==> IsSingle(r[j], backend.stream(items[j]))
      {
        var o := GenerateOne(items[i]);
        r := r + [o];
      }
    }

    /** The groups of a batch, by temperature, in the order the temperatures first appear. */
    method Regroup(items: seq<Item>) returns (order: seq<real>, groups: map<real, seq<nat>>)
      ensures forall t :: t in order <==> t in groups
      ensures NoDup(order) && forall t :: t in groups ==> groups[t] == Group(items, t)
      ensures forall i :: 0 <= i < |items| ==> items[i].temperature in groups
      ensures forall t :: t in order ==> Occurs(items, t)
    {
      hide Group;
      order, groups := [], map[];
      for i := 0 to |items|
        invariant NoDup(order) && forall t :: t in order <==> t in groups
        invariant forall t :: t in groups ==> groups[t] == Group(items[..i], t)
        invariant forall j :: 0 <= j < i ==> items[j].temperature in groups
        invariant forall t :: t in order ==> Occurs(items, t)
      {
        var t := items[i].temperature;
        if t !in groups {
          EmptyOrPresent(items[..i], t);
          groups, order := groups[t := []], order + [t];
        }
        forall u ensures Group(items[..i + 1], u) == (if u == t then Group(items[..i], u) + [i] else Group(items[..i], u)) {
          GroupSnoc(items, i, u);
        }
        groups := groups[t := groups[t] + [i]];
      }
      assert items[..|items|] == items;
    }

    method EncodePrompts(items: seq<Item>, idxs: seq<nat>) returns (r: Option<seq<seq<int>>>)
      requires forall s :: 0 <= s < |idxs| ==> idxs[s] < |items|
      ensures r == Prompts(backend, items, idxs)
    {
      r := Some([]);
      for s := 0 to |idxs|
        invariant r == Prompts(backend, items, idxs[..s])
      {
        assert idxs[..s + 1][..s] == idxs[..s];
        var p := backend.encodePrompt(items[idxs[s]].messages);
        r := if r.Some? && p.Some? then Some(r.value + [p.value]) else None;
      }
      assert idxs[..|idxs|] == idxs;
    }

    /** One batched call over a group. When it raises, some of the group may have been written already. */
    method DecodeGroup(items: seq<Item>, idxs: seq<nat>, outputs: array<BatchOutput>, t: real) returns (raised: bool)
      requires outputs.Length == |items| && forall s :: 0 <= s < |idxs| ==> idxs[s] < |items|
      requires forall s, r :: 0 <= s < r < |idxs| ==> idxs[s] < idxs[r]
      modifies outputs
      ensures forall j :: 0 <= j < outputs.Length && j !in idxs ==> outputs[j] == old(outputs[j])
      ensures raised == Texts(backend, items, idxs, t).None?
      ensures !raised ==> forall s :: 0 <= s < |idxs| ==> outputs[idxs[s]] == SlotOutput(backend, items, idxs, t, s)
    {
      var prompts := EncodePrompts(items, idxs);
      if prompts.None? { return true; }
      var texts := backend.decode(prompts.value, Limits(items, idxs), t);
      if texts.None? { return true; }
      for slot := 0 to |idxs|
        invariant slot <= |texts.value| && forall s :: 0 <= s < slot ==> backend.countTokens(texts.value[s]).Some?
        invariant forall j :: 0 <= j < outputs.Length && j !in idxs ==> outputs[j] == old(outputs[j])
        invariant forall s :: 0 <= s < slot ==>
                    outputs[idxs[s]] == BatchOutput(texts.value[s], |prompts.value[s]|, backend.countTokens(texts.value[s]).value, None)
      {
        if slot >= |texts.value| { return true; }
        var text := texts.value[slot];
        var count := backend.countTokens(text);
        if count.None? { return true; }
        outputs[idxs[slot]] := BatchOutput(text, |prompts.value[slot]|, count.value, None);
      }
      return false;
    }

    /** Run a failed group one by one, over whatever it had written. */
    method Redo(items: seq<Item>, idxs: seq<nat>, outputs: array<BatchOutput>)
      requires outputs.Length == |items| && forall s :: 0 <= s < |idxs| ==> idxs[s] < |items|
      requires forall s, r :: 0 <= s < r < |idxs| ==> idxs[s] < idxs[r]
      modifies this, outputs
      ensures forall j :: 0 <= j < outputs.Length && j !in idxs ==> outputs[j] == old(outputs[j])
      ensures forall s :: 0 <= s < |idxs| ==> IsSingle(outputs[idxs[s]], backend.stream(items[idxs[s]]))
    {
      for k := 0 to |idxs|
        invariant forall j :: 0 <= j < outputs.Length && j !in idxs ==> outputs[j] == old(outputs[j])
        invariant forall s :: 0 <= s < k ==> IsSingle(outputs[idxs[s]], backend.stream(items[idxs[s]]))
      {
        var o := GenerateOne(items[idxs[k]]);
        outputs[idxs[k]] := o;
      }
    }

    /** Every item comes back in its place, from its group's decode or from a run of its own. */
    method GenerateBatch(items: seq<Item>) returns (r: seq<BatchOutput>)
      modifies this
      ensures |r| == |items|
      ensures |items| >= 2 && backend.hasBatch ==> forall i :: 0 <= i < |items| ==> IsAnswer(backend, items, i, r[i])
      ensures !(|items| >= 2 && backend.hasBatch) ==> forall i :: 0 <= i < |items| ==> IsSingle(r[i], backend.stream(items[i]))
    {
      if |items| < 2 || !backend.hasBatch {
        r := GenerateSequentially(items);
        return;
      }
      var outputs := new BatchOutput[|items|](_ => BatchOutput("", 0, 0, None));
      var order, groups := Regroup(items);
      for k := 0 to |order|
        invariant forall i :: 0 <= i < |items| && items[i].temperature in order[..k] ==> IsAnswer(backend, items, i, outputs[i])
      {
        var t := order[k];
        var idxs := groups[t];
        label before:
        var raised := DecodeGroup(items, idxs, outputs, t);
        if raised { Redo(items, idxs, outputs); }
        assert order[..k + 1] == order[..k] + [t];
        forall i | 0 <= i < |items| && items[i].temperature in order[..k + 1]
          ensures IsAnswer(backend, items, i, outputs[i])
        {
          GroupsPartition(items, i);
          if items[i].temperature == t {
            assert idxs[Slot(items, i)] == i;
          } else {
            assert i !in idxs;
            assert outputs[i] == old@before(outputs[i]);
          }
        }
      }
      r := outputs[..];
      assert order[..|order|] == order;
    }
  }
}
