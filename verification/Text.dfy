/** The few string operations whose meaning the verifier's fingerprints rest on. */
module Text {

  /** What `str.split()` and `str.strip()` treat as whitespace. */
  predicate IsSpace(c: char) {
    || '\t' <= c <= '\r' || '\U{1c}' <= c <= ' ' || c == '\U{85}' || c == '\U{a0}' || c == '\U{1680}'
    || '\U{2000}' <= c <= '\U{200a}' || c == '\U{2028}' || c == '\U{2029}' || c == '\U{202f}'
    || c == '\U{205f}' || c == '\U{3000}'
  }

  function StripLeft(t: string): string {
    if t != "" && IsSpace(t[0]) then StripLeft(t[1..]) else t
  }

  function StripRight(t: string): string {
    if t != "" && IsSpace(t[|t| - 1]) then StripRight(t[..|t| - 1]) else t
  }

  function Strip(t: string): string {
    StripRight(StripLeft(t))
  }

  /** `t.split()`, given the letters `word` already read of the current word. */
  function WordsFrom(word: string, t: string): seq<string>
    decreases |t|
  {
    if t == "" then (if word == "" then [] else [word])
    else if IsSpace(t[0]) then (if word == "" then [] else [word]) + WordsFrom("", t[1..])
    else WordsFrom(word + [t[0]], t[1..])
  }

  function Join(words: seq<string>): string {
    if words == [] then ""
    else if |words| == 1 then words[0]
    else words[0] + " " + Join(words[1..])
  }

  /** `" ".join(t.split())`: the text up to line wrapping. */
  function Normalised(t: string): string {
    Join(WordsFrom("", t))
  }

  /** Answers shorter than this are never compared for replay. */
  const REPLAY_MIN_LENGTH := 40

  predicate IsLong(t: string) {
    |Strip(t)| >= REPLAY_MIN_LENGTH
  }

  // ── What splitting, joining and stripping come to ──────────────────────

  predicate NoSpace(t: string) { forall i :: 0 <= i < |t| ==> !IsSpace(t[i]) }

  predicate AllSpace(t: string) { forall i :: 0 <= i < |t| ==> IsSpace(t[i]) }

  predicate AreWords(ws: seq<string>) { forall i :: 0 <= i < |ws| ==> ws[i] != "" && NoSpace(ws[i]) }

  /** A text without whitespace is one word. */
  lemma {:induction false} OneWord(word: string, t: string)
    requires NoSpace(t)
    ensures WordsFrom(word, t) == if word + t == "" then [] else [word + t]
    decreases |t|
  {
    if t == "" {
      assert word + t == word;
    } else {
      OneWord(word + [t[0]], t[1..]);
      assert word + [t[0]] + t[1..] == word + t;
    }
  }

  /** Whitespace separates: the words before it and the words after it do not see each other. */
  lemma {:induction false} SplitAtSpace(word: string, a: string, c: char, b: string)
    requires IsSpace(c)
    ensures WordsFrom(word, a + [c] + b) == WordsFrom(word, a) + WordsFrom("", b)
    decreases |a|
  {
    var t := a + [c] + b;
    if a == "" {
      assert t == [c] + b && t[1..] == b;
      assert WordsFrom(word, a) == if word == "" then [] else [word];
    } else {
      assert t[0] == a[0] && t[1..] == a[1..] + [c] + b;
      if IsSpace(a[0]) { SplitAtSpace("", a[1..], c, b); } else { SplitAtSpace(word + [a[0]], a[1..], c, b); }
    }
  }

  /** What `split` returns are words. */
  lemma {:induction false} SplitGivesWords(word: string, t: string)
    requires NoSpace(word)
    ensures AreWords(WordsFrom(word, t))
    decreases |t|
  {
    if t != "" {
      if IsSpace(t[0]) { SplitGivesWords("", t[1..]); } else { SplitGivesWords(word + [t[0]], t[1..]); }
    }
  }

  /** Splitting what was joined gives the words back. */
  lemma {:induction false} SplitOfJoin(ws: seq<string>)
    requires AreWords(ws)
    ensures WordsFrom("", Join(ws)) == ws
  {
    if |ws| == 0 {
      assert ws == [];
    } else if |ws| == 1 {
      OneWord("", ws[0]);
      assert "" + ws[0] == ws[0] && ws == [ws[0]];
    } else {
      var rest := ws[1..];
      assert AreWords(rest);
      SplitOfJoin(rest);
      assert Join(ws) == ws[0] + [' '] + Join(rest);
      SplitAtSpace("", ws[0], ' ', Join(rest));
      OneWord("", ws[0]);
      assert "" + ws[0] == ws[0] && ws == [ws[0]] + rest;
    }
  }

  /** Two texts are the same normalised if and only if they have the same words. */
  lemma NormalisedIsItsWords(a: string, b: string)
    ensures Normalised(a) == Normalised(b) <==> WordsFrom("", a) == WordsFrom("", b)
    ensures Normalised(Normalised(a)) == Normalised(a)
    ensures Normalised(a) == "" <==> WordsFrom("", a) == []
  {
    SplitGivesWords("", a);
    SplitGivesWords("", b);
    SplitOfJoin(WordsFrom("", a));
    SplitOfJoin(WordsFrom("", b));
  }

  /** Stripping takes whitespace off both ends, and all of it. */
  lemma StripTrims(t: string)
    ensures exists l, r :: AllSpace(l) && AllSpace(r) && t == l + Strip(t) + r
    ensures Strip(t) != "" ==> !IsSpace(Strip(t)[0]) && !IsSpace(Strip(t)[|Strip(t)| - 1])
  {
    var l := TrimLeft(t);
    var r := TrimRight(StripLeft(t));
    assert t == l + (Strip(t) + r) == l + Strip(t) + r;
    if Strip(t) != "" { assert Strip(t)[0] == StripLeft(t)[0]; }
  }

  lemma {:induction false} TrimLeft(t: string) returns (l: string)
    ensures AllSpace(l) && t == l + StripLeft(t) && (StripLeft(t) != "" ==> !IsSpace(StripLeft(t)[0]))
  {
    if t != "" && IsSpace(t[0]) {
      var m := TrimLeft(t[1..]);
      l := [t[0]] + m;
      assert t == [t[0]] + t[1..];
    } else {
      l := "";
    }
  }

  lemma {:induction false} TrimRight(t: string) returns (r: string)
    ensures AllSpace(r) && t == StripRight(t) + r && (StripRight(t) != "" ==> !IsSpace(StripRight(t)[|StripRight(t)| - 1]))
  {
    if t != "" && IsSpace(t[|t| - 1]) {
      var m := TrimRight(t[..|t| - 1]);
      r := m + [t[|t| - 1]];
      assert t == t[..|t| - 1] + [t[|t| - 1]];
    } else {
      r := "";
    }
  }

  lemma {:induction false} JoinSnoc(ws: seq<string>, w: string)
    requires ws != []
    ensures Join(ws + [w]) == Join(ws) + " " + w
  {
    if |ws| == 1 {
      assert (ws + [w])[1..] == [w];
    } else {
      assert (ws + [w])[1..] == ws[1..] + [w];
      JoinSnoc(ws[1..], w);
      assert Join(ws) + " " + w == ws[0] + " " + (Join(ws[1..]) + " " + w);
    }
  }
}
