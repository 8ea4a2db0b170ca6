/**
 * `useTextInterval`: the typing animation. Its state is the text shown so
 * far and the index of the next character; each interval tick appends one
 * character of the current text until the index reaches the text's end.
 */
module Typing {

  datatype TypingState = TypingState(result: string, index: nat)

  /** Both pieces of state start empty. */
  const Init := TypingState("", 0)

  /** The state is a prefix of `text`, aligned with the index. */
  ghost predicate Typed(s: TypingState, text: string) {
    s.index <= |text| && s.result == text[..s.index]
  }

  /** One tick of the effect for the current `text`. */
  function Tick(s: TypingState, text: string): (s': TypingState)
    ensures s.index >= |text| ==> s' == s
    ensures s.index < |text| ==>
              && s'.index == s.index + 1
              && |s'.result| == |s.result| + 1
              && s'.result[..|s.result|] == s.result
              && s'.result[|s.result|] == text[s.index]
    ensures Typed(s, text) ==> Typed(s', text)
  {
    if s.index >= |text| then s
    else
      assert text[..s.index + 1] == text[..s.index] + [text[s.index]];
      TypingState(s.result + [text[s.index]], s.index + 1)
  }

  /** `n` ticks against a fixed text. */
  function Run(s: TypingState, text: string, n: nat): TypingState
    decreases n
  {
    if n == 0 then s else Run(Tick(s, text), text, n - 1)
  }

  /** Once the index has reached the end, ticking changes nothing. */
  lemma {:induction false} RunAtEndIsFixed(s: TypingState, text: string, n: nat)
    requires s.index >= |text|
    ensures Run(s, text, n) == s
    decreases n
  {
    if n > 0 {
      RunAtEndIsFixed(Tick(s, text), text, n - 1);
    }
  }

  /** From any state, `n` ticks append the next `n` characters of the text
      (fewer when the text runs out); the shown prefix is never reset, even
      when it came from an earlier text. */
  lemma {:induction false} RunAppends(s: TypingState, text: string, n: nat)
    requires s.index <= |text|
    ensures var k := if s.index + n <= |text| then s.index + n else |text|;
            Run(s, text, n) == TypingState(s.result + text[s.index..k], k)
    decreases n
  {
    if n == 0 {
      assert text[s.index..s.index] == [];
    } else if s.index == |text| {
      RunAtEndIsFixed(s, text, n);
      assert text[s.index..|text|] == [];
    } else {
      var t := Tick(s, text);
      RunAppends(t, text, n - 1);
      var k := if s.index + n <= |text| then s.index + n else |text|;
      assert text[s.index..k] == [text[s.index]] + text[s.index + 1..k];
    }
  }

  /** After `|text|` ticks from the initial state the whole text is shown. */
  lemma FullTextAfterLength(text: string)
    ensures Run(Init, text, |text|) == TypingState(text, |text|)
  {
    RunAppends(Init, text, |text|);
    assert text[0..|text|] == text;
  }

  /** When the text changes mid-animation to one at least as long as the
      index, the display keeps the old prefix and finishes with the new
      text's remainder. */
  lemma TextChangeKeepsPrefix(before: string, after: string, i: nat)
    requires i <= |before| && i <= |after|
    ensures Run(TypingState(before[..i], i), after, |after| - i) == TypingState(before[..i] + after[i..], |after|)
  {
    RunAppends(TypingState(before[..i], i), after, |after| - i);
  }

  /** When the new text is shorter than the index, the display freezes. */
  lemma ShorterTextFreezes(s: TypingState, text: string, n: nat)
    requires s.index >= |text|
    ensures Run(s, text, n).result == s.result
  {
    RunAtEndIsFixed(s, text, n);
  }
}
