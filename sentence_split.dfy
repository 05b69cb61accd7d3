/**
 * How the speech scheduler cuts a text into speakable chunks: the global match
 * of the regular expression `/[^.!?]+[.!?]+|[^.!?]+$/g` over the text, with the
 * whole text as the only chunk when the expression does not match at all.
 *
 * The global match scans the text from a position (the expression's
 * `lastIndex`). At each position the matcher tries the first alternative (a
 * run of non-terminators followed by a run of terminators, both maximal
 * because both quantifiers are greedy), then the second (a run of
 * non-terminators reaching the end of the text); where neither applies, which
 * happens only at a terminator, it moves one character on.
 */
module SentenceSplit {

  /** The sentence terminators of the character classes `[.!?]` and `[^.!?]`. */
  predicate IsTerminator(c: char)
  {
    c == '.' || c == '!' || c == '?'
  }

  /** Where the run starting at `i` of terminators (if `term`) or of non-terminators (otherwise) ends. */
  function RunEnd(s: string, i: nat, term: bool): (j: nat)
    requires i <= |s|
    ensures i <= j <= |s|
    ensures forall k :: i <= k < j ==> IsTerminator(s[k]) == term
    ensures j < |s| ==> IsTerminator(s[j]) != term
    decreases |s| - i
  {
    if i < |s| && IsTerminator(s[i]) == term then RunEnd(s, i + 1, term) else i
  }

  /** The global match from position `i` on: the matched substrings, in order. */
  function MatchFrom(s: string, i: nat): seq<string>
    requires i <= |s|
    decreases |s| - i
  {
    if i == |s| then []
    else if IsTerminator(s[i]) then MatchFrom(s, i + 1)
    else
      var n := RunEnd(s, i, false);
      if n == |s| then [s[i..]]
      else
        var m := RunEnd(s, n, true);
        [s[i..m]] + MatchFrom(s, m)
  }

  /** Where a non-terminator at `i` is followed by a terminator, the match at `i` is the sentence ending with that terminator's run. */
  lemma MatchFromSentence(s: string, i: nat, n: nat, m: nat)
    requires i < |s| && !IsTerminator(s[i])
    requires n == RunEnd(s, i, false) && n < |s| && m == RunEnd(s, n, true)
    ensures MatchFrom(s, i) == [s[i..m]] + MatchFrom(s, m)
  {
  }

  /** Nothing but terminators from position `i` on. */
  predicate TerminatorsFrom(s: string, i: nat)
  {
    forall k :: i <= k < |s| ==> IsTerminator(s[k])
  }

  /** Text made of terminators only (the empty text included): the expression cannot match it. */
  predicate OnlyTerminators(s: string)
  {
    TerminatorsFrom(s, 0)
  }

  /** The chunks in their order, glued back together. */
  function Concat(cs: seq<string>): string
  {
    if cs == [] then [] else cs[0] + Concat(cs[1..])
  }

  /** A chunk of the first alternative: non-terminators, then terminators, both runs non-empty. */
  predicate IsSentence(c: string)
  {
    var n := RunEnd(c, 0, false);
    0 < n < |c| && RunEnd(c, n, true) == |c|
  }

  /** A chunk of the second alternative: non-terminators only, at least one. */
  predicate IsFragment(c: string)
  {
    c != [] && RunEnd(c, 0, false) == |c|
  }

  /** Every chunk is a sentence, except that the last one may be a fragment without terminator. */
  predicate WellSplit(cs: seq<string>)
  {
    forall i :: 0 <= i < |cs| ==> IsSentence(cs[i]) || (i == |cs| - 1 && IsFragment(cs[i]))
  }

  /**
   * `text.match(/[^.!?]+[.!?]+|[^.!?]+$/g) || [text]`: there is always at least
   * one chunk; text without any non-terminator is its own only chunk; otherwise
   * the chunks glue back to the text minus its leading terminators (and are
   * well formed, as `SplitWellFormed` shows).
   */
  function SplitSentences(text: string): (chunks: seq<string>)
    ensures |chunks| >= 1
    ensures OnlyTerminators(text) ==> chunks == [text]
    ensures !OnlyTerminators(text) ==> Concat(chunks) == text[RunEnd(text, 0, true)..]
  {
    var m := MatchFrom(text, 0);
    MatchFromEmpty(text, 0);
    MatchFromConcat(text, 0);
    if m == [] then [text] else m
  }

  /** A run ends exactly where its characters stop matching. */
  lemma RunEndAt(s: string, i: nat, term: bool, j: nat)
    requires i <= j <= |s|
    requires forall k :: i <= k < j ==> IsTerminator(s[k]) == term
    requires j < |s| ==> IsTerminator(s[j]) != term
    ensures RunEnd(s, i, term) == j
  {
  }

  /** The expression matches nowhere from `i` on exactly when only terminators are left. */
  lemma {:induction false} MatchFromEmpty(s: string, i: nat)
    requires i <= |s|
    ensures MatchFrom(s, i) == [] <==> TerminatorsFrom(s, i)
    decreases |s| - i
  {
    if i < |s| && IsTerminator(s[i]) {
      MatchFromEmpty(s, i + 1);
    }
  }

  /** One chunk glues back to itself. */
  lemma ConcatOne(c: string)
    ensures Concat([c]) == c
  {
    assert [c][1..] == [];
  }

  /** Gluing a chunk in front of others. */
  lemma ConcatCons(c: string, cs: seq<string>)
    ensures Concat([c] + cs) == c + Concat(cs)
  {
    assert ([c] + cs)[1..] == cs;
  }

  /** The matches from `i` glue back to the text from the end of the terminators at `i`: no other character is lost. */
  lemma {:induction false} MatchFromConcat(s: string, i: nat)
    requires i <= |s|
    ensures Concat(MatchFrom(s, i)) == s[RunEnd(s, i, true)..]
    decreases |s| - i
  {
    if i == |s| {
    } else if IsTerminator(s[i]) {
      MatchFromConcat(s, i + 1);
    } else {
      var n := RunEnd(s, i, false);
      if n == |s| {
        ConcatOne(s[i..]);
      } else {
        var m := RunEnd(s, n, true);
        MatchFromConcat(s, m);
        RunEndAt(s, m, true, m);
        ConcatCons(s[i..m], MatchFrom(s, m));
        assert s[i..m] + s[m..] == s[i..];
      }
    }
  }

  /** The first alternative's match at `i` is a sentence. */
  lemma FirstMatchIsSentence(s: string, i: nat, n: nat, m: nat)
    requires i < |s| && !IsTerminator(s[i])
    requires n == RunEnd(s, i, false) && n < |s| && m == RunEnd(s, n, true)
    ensures IsSentence(s[i..m])
  {
    var c := s[i..m];
    forall k | 0 <= k < |c|
      ensures c[k] == s[i + k]
    {
    }
    RunEndAt(c, 0, false, n - i);
    RunEndAt(c, n - i, true, |c|);
  }

  /** The second alternative's match at `i` is a fragment. */
  lemma LastMatchIsFragment(s: string, i: nat)
    requires i < |s| && RunEnd(s, i, false) == |s|
    ensures IsFragment(s[i..])
  {
    var c := s[i..];
    forall k | 0 <= k < |c|
      ensures c[k] == s[i + k]
    {
    }
    RunEndAt(c, 0, false, |c|);
  }

  /** A sentence in front of a well-formed split keeps it well formed. */
  lemma WellSplitCons(c: string, cs: seq<string>)
    requires IsSentence(c) && WellSplit(cs)
    ensures WellSplit([c] + cs)
  {
    var all := [c] + cs;
    forall i | 0 < i < |all|
      ensures IsSentence(all[i]) || (i == |all| - 1 && IsFragment(all[i]))
    {
      assert all[i] == cs[i - 1];
    }
  }

  /** Every match is a sentence, but for a trailing fragment at the very end. */
  lemma {:induction false} MatchFromWellSplit(s: string, i: nat)
    requires i <= |s|
    ensures WellSplit(MatchFrom(s, i))
    decreases |s| - i
  {
    if i == |s| {
    } else if IsTerminator(s[i]) {
      MatchFromWellSplit(s, i + 1);
    } else {
      var n := RunEnd(s, i, false);
      if n == |s| {
        LastMatchIsFragment(s, i);
      } else {
        var m := RunEnd(s, n, true);
        FirstMatchIsSentence(s, i, n, m);
        MatchFromWellSplit(s, m);
        WellSplitCons(s[i..m], MatchFrom(s, m));
      }
    }
  }

  /** Dropping the first chunk keeps the split well formed. */
  lemma WellSplitTail(cs: seq<string>)
    requires cs != [] && WellSplit(cs)
    ensures WellSplit(cs[1..])
  {
    forall i | 0 <= i < |cs| - 1
      ensures IsSentence(cs[1..][i]) || (i == |cs| - 2 && IsFragment(cs[1..][i]))
    {
      assert cs[1..][i] == cs[i + 1];
    }
  }

  /** A well-formed split glues back to text that does not start with a terminator. */
  lemma WellSplitStartsClean(cs: seq<string>)
    requires WellSplit(cs)
    ensures Concat(cs) == [] || !IsTerminator(Concat(cs)[0])
  {
    if cs != [] {
      var c := cs[0];
      assert IsSentence(c) || IsFragment(c);
      assert Concat(cs)[0] == c[0];
    }
  }

  /** Text from `i` that is `c` followed by `tail` holds `c` at `i`, character by character, and `tail` after it. */
  lemma SplitOff(s: string, i: nat, c: string, tail: string)
    requires i <= |s| && s[i..] == c + tail
    ensures i + |c| <= |s| && s[i..i + |c|] == c && s[i + |c|..] == tail
    ensures forall k :: 0 <= k < |c| ==> s[i + k] == c[k]
  {
    assert s[i..][..|c|] == c;
    assert s[i..][|c|..] == tail;
    forall k | 0 <= k < |c|
      ensures s[i + k] == c[k]
    {
      assert s[i..][k] == s[i + k];
    }
  }

  /**
   * A sentence `c` sitting in the text at `i`, followed by a non-terminator or
   * the end, is exactly what the matcher takes at `i`: its two runs are the
   * text's runs there.
   */
  lemma SentenceRuns(s: string, i: nat, c: string)
    requires IsSentence(c) && i + |c| <= |s|
    requires forall k :: 0 <= k < |c| ==> s[i + k] == c[k]
    requires i + |c| == |s| || !IsTerminator(s[i + |c|])
    ensures RunEnd(s, i, false) == i + RunEnd(c, 0, false)
    ensures RunEnd(s, i + RunEnd(c, 0, false), true) == i + |c|
  {
    var n := RunEnd(c, 0, false);
    forall k | i <= k < i + n
      ensures !IsTerminator(s[k])
    {
      assert s[i + (k - i)] == c[k - i];
    }
    assert s[i + n] == c[n];
    RunEndAt(s, i, false, i + n);
    forall k | i + n <= k < i + |c|
      ensures IsTerminator(s[k])
    {
      assert s[i + (k - i)] == c[k - i];
    }
    RunEndAt(s, i + n, true, i + |c|);
  }

  /** A fragment `c` sitting in the text at `i` and reaching its end is what the second alternative matches there. */
  lemma FragmentRuns(s: string, i: nat, c: string)
    requires IsFragment(c) && i + |c| == |s|
    requires forall k :: 0 <= k < |c| ==> s[i + k] == c[k]
    ensures i < |s| && !IsTerminator(s[i]) && RunEnd(s, i, false) == |s|
  {
    forall k | i <= k < |s|
      ensures !IsTerminator(s[k])
    {
      assert s[i + (k - i)] == c[k - i];
    }
    assert s[i + 0] == c[0];
    RunEndAt(s, i, false, |s|);
  }

  /**
   * The matches are the ONLY well-formed split: any list of sentences (and one
   * final fragment) that glues back to the text from a position where no
   * terminator stands is exactly what the matcher returns from there.
   */
  lemma {:induction false} MatchFromUnique(s: string, i: nat, cs: seq<string>)
    requires i <= |s| && WellSplit(cs) && Concat(cs) == s[i..]
    requires i == |s| || !IsTerminator(s[i])
    ensures cs == MatchFrom(s, i)
    decreases |cs|
  {
    if cs == [] {
      assert |s[i..]| == 0;
    } else {
      var c, rest := cs[0], cs[1..];
      var j := i + |c|;
      SplitOff(s, i, c, Concat(rest));
      WellSplitTail(cs);
      WellSplitStartsClean(rest);
      if j < |s| {
        assert s[j] == s[j..][0];
      }
      MatchFromUnique(s, j, rest);
      assert cs == [c] + rest;
      if IsSentence(c) {
        SentenceRuns(s, i, c);
        MatchFromSentence(s, i, RunEnd(c, 0, false) + i, j);
      } else {
        assert rest == [] && IsFragment(c);
        FragmentRuns(s, i, c);
        assert s[i..] == s[i..j] == c;
      }
    }
  }

  /** Gluing splits around any one chunk. */
  lemma {:induction false} ConcatAround(cs: seq<string>, i: nat)
    requires i < |cs|
    ensures Concat(cs) == Concat(cs[..i]) + cs[i] + Concat(cs[i + 1..])
  {
    if i > 0 {
      ConcatAround(cs[1..], i - 1);
      assert cs[1..][..i - 1] == cs[1..i];
      assert cs[1..][i - 1] == cs[i];
      assert cs[1..][i..] == cs[i + 1..];
      assert cs[..i] == [cs[0]] + cs[1..i];
      assert Concat(cs[..i]) == cs[0] + Concat(cs[1..i]);
    } else {
      assert cs[..0] == [];
      assert cs[1..] == cs[i + 1..];
    }
  }

  /** Chunk `i` sits in the glued text right after the chunks before it. */
  lemma ChunkAt(cs: seq<string>, i: nat)
    requires i < |cs|
    ensures var start := |Concat(cs[..i])|;
            start + |cs[i]| <= |Concat(cs)| && Concat(cs)[start..start + |cs[i]|] == cs[i]
  {
    ConcatAround(cs, i);
  }

  /** Chunk `i` of chunks that glue back to `text[r..]` lies in `text` right after `r` and the chunks before it. */
  lemma ChunkInSuffix(text: string, r: nat, cs: seq<string>, i: nat)
    requires r <= |text| && Concat(cs) == text[r..] && i < |cs|
    ensures var start := r + |Concat(cs[..i])|;
            start + |cs[i]| <= |text| && cs[i] == text[start..start + |cs[i]|]
  {
    var start := |Concat(cs[..i])|;
    ChunkAt(cs, i);
    assert text[r + start..r + start + |cs[i]|] == text[r..][start..start + |cs[i]|];
  }

  /**
   * The chunks are contiguous, non-overlapping pieces of the text, left to right:
   * chunk `i` is the text between the end of the previous chunks and the start
   * of the next ones, counted from the end of the leading terminators.
   */
  lemma ChunkInText(text: string, i: nat)
    requires !OnlyTerminators(text)
    requires i < |SplitSentences(text)|
    ensures var cs := SplitSentences(text);
            var start := RunEnd(text, 0, true) + |Concat(cs[..i])|;
            start + |cs[i]| <= |text| && cs[i] == text[start..start + |cs[i]|]
  {
    ChunkInSuffix(text, RunEnd(text, 0, true), SplitSentences(text), i);
  }

  /** Text that is not all terminators splits into sentences and, last, at most one fragment. */
  lemma SplitWellFormed(text: string)
    requires !OnlyTerminators(text)
    ensures WellSplit(SplitSentences(text))
  {
    MatchFromEmpty(text, 0);
    MatchFromWellSplit(text, 0);
  }

  /**
   * The split is the only well-formed one: any sentences (and final fragment)
   * that glue back to the text after its leading terminators are its chunks.
   */
  lemma SplitUnique(text: string, cs: seq<string>)
    requires !OnlyTerminators(text)
    requires WellSplit(cs) && Concat(cs) == text[RunEnd(text, 0, true)..]
    ensures cs == SplitSentences(text)
  {
    var r := RunEnd(text, 0, true);
    MatchFromEmpty(text, 0);
    MatchFromUnique(text, r, cs);
    MatchFromSkipsTerminators(text, 0);
  }

  /** Terminators match nothing: the matches from `i` are those from the end of the terminators there. */
  lemma {:induction false} MatchFromSkipsTerminators(s: string, i: nat)
    requires i <= |s|
    ensures MatchFrom(s, i) == MatchFrom(s, RunEnd(s, i, true))
    decreases |s| - i
  {
    if i < |s| && IsTerminator(s[i]) {
      MatchFromSkipsTerminators(s, i + 1);
    }
  }
}
