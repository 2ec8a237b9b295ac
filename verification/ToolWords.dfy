/** The words of a tool name, told from the identifier's spelling alone. */
module ToolWords {
  import opened Wrappers
  import opened ToolName

  /** A capital, then lower-case letters and digits, a letter first. */
  predicate Capitalised(w: string) {
    && |w| >= 2 && 'A' <= w[0] <= 'Z' && 'a' <= w[1] <= 'z'
    && forall i | 1 <= i < |w| :: 'a' <= w[i] <= 'z' || '0' <= w[i] <= '9'
  }

  /** Capitals only. */
  predicate Capitals(w: string) {
    w != "" && forall i | 0 <= i < |w| :: 'A' <= w[i] <= 'Z'
  }

  /** Capitals, then a digit, then lower-case letters and digits; the digit stands at `k`. */
  predicate NumberedAt(w: string, k: nat) {
    && 0 < k < |w| && '0' <= w[k] <= '9'
    && (forall i | 0 <= i < k :: 'A' <= w[i] <= 'Z')
    && forall i | k <= i < |w| :: 'a' <= w[i] <= 'z' || '0' <= w[i] <= '9'
  }

  predicate Numbered(w: string) {
    exists k | 0 < k < |w| :: NumberedAt(w, k)
  }

  /** A lower-case letter, then lower-case letters and digits. */
  predicate Small(w: string) {
    && w != "" && 'a' <= w[0] <= 'z'
    && forall i | 0 <= i < |w| :: 'a' <= w[i] <= 'z' || '0' <= w[i] <= '9'
  }

  /** A sequence of words as camel case shows it: each starts with a capital, though the first need not,
      and where a word ends in a capital the next is a capitalised one. */
  predicate Spelled(words: seq<string>) {
    && words != []
    && (forall k | 0 <= k < |words| ::
          Capitalised(words[k]) || Capitals(words[k]) || Numbered(words[k]) || (k == 0 && Small(words[k])))
    && forall k | 1 <= k < |words| && Capitals(words[k - 1]) :: Capitalised(words[k])
  }

  function Concat(words: seq<string>): string
    decreases |words|
  {
    if words == [] then "" else Concat(words[..|words| - 1]) + words[|words| - 1]
  }

  /** The words in lower case, with an underscore between each two. */
  function Underscored(words: seq<string>): string
    requires words != []
    decreases |words|
  {
    var last := Lower(words[|words| - 1]);
    if |words| == 1 then last else Underscored(words[..|words| - 1]) + "_" + last
  }

  // ----- a spelling gives the name -----

  lemma SpelledShorter(words: seq<string>)
    requires Spelled(words) && |words| > 1
    ensures Spelled(words[..|words| - 1])
  {
    var shorter := words[..|words| - 1];
    forall k | 1 <= k < |shorter| && Capitals(shorter[k - 1]) ensures Capitalised(shorter[k]) {
      assert words[k - 1] == shorter[k - 1] && words[k] == shorter[k];
    }
    hide Capitals;
    hide Capitalised;
    hide Numbered;
    hide Small;
  }

  /** How a word may end: in a capital, or in a lower-case letter or digit. */
  lemma WordEnds(w: string)
    requires Capitalised(w) || Capitals(w) || Numbered(w) || Small(w)
    ensures w != "" && (!Capitals(w) ==> IsLower(w[|w| - 1]) || IsDigit(w[|w| - 1]))
    ensures Capitals(w) ==> IsUpper(w[|w| - 1])
  {
  }

  lemma {:induction false} ConcatEnds(words: seq<string>)
    requires Spelled(words)
    ensures Concat(words) != ""
    ensures
      var last, end := words[|words| - 1], Concat(words)[|Concat(words)| - 1];
      if Capitals(last) then IsUpper(end) else IsLower(end) || IsDigit(end)
  {
    WordEnds(words[|words| - 1]);
    var last := words[|words| - 1];
    assert Concat(words)[|Concat(words)| - 1] == last[|last| - 1];
  }

  /** No word starts inside the last one. */
  lemma InsideWord(before: string, w: string, j: nat)
    requires Capitalised(w) || Capitals(w) || Numbered(w) || Small(w)
    requires 0 < j < |w|
    ensures !Boundary(before + w, |before| + j)
  {
    var text, i := before + w, |before| + j;
    assert text[i] == w[j] && text[i - 1] == w[j - 1];
    assert i + 1 < |text| ==> text[i + 1] == w[j + 1];
    if Numbered(w) {
      var k :| NumberedAt(w, k);
    }
  }

  /** What follows does not move the words before it, unless it goes on in lower case. */
  lemma {:induction false} SnakeOfPrefix(before: string, w: string, n: nat)
    requires n <= |before| && (w != "" ==> !IsLower(w[0]))
    ensures Snake(before + w, n) == Snake(before, n)
  {
    if n > 0 {
      SnakeOfPrefix(before, w, n - 1);
      assert (before + w)[n - 1] == before[n - 1];
      assert n > 1 ==> (before + w)[n - 2] == before[n - 2];
      assert n < |before| ==> (before + w)[n] == before[n];
      assert n == |before| && w != "" ==> (before + w)[n] == w[0];
    }
  }

  /** The last word is taken over in one piece. */
  lemma {:induction false} SnakeOfWord(before: string, w: string, j: nat)
    requires Capitalised(w) || Capitals(w) || Numbered(w) || Small(w)
    requires 0 < j <= |w|
    ensures
      Snake(before + w, |before| + j) ==
      Snake(before + w, |before|) + (if Boundary(before + w, |before|) then "_" else "") + Lower(w[..j])
  {
    hide *;
    LowerMore(w, j);
    SnakeMore(before, w, j);
    if j > 1 {
      SnakeOfWord(before, w, j - 1);
      InsideWord(before, w, j - 1);
    } else {
      LowerNothing(w);
    }
  }

  lemma LowerNothing(w: string)
    ensures Lower(w[..0]) == ""
  {
  }

  lemma SnakeMore(before: string, w: string, j: nat)
    requires 0 < j <= |w|
    ensures
      Snake(before + w, |before| + j) ==
      Snake(before + w, |before| + (j - 1)) +
      (if Boundary(before + w, |before| + (j - 1)) then "_" else "") + [LowerChar(w[j - 1])]
  {
    assert (before + w)[|before| + j - 1] == w[j - 1];
    hide Boundary;
  }

  lemma LastPieces(words: seq<string>)
    requires words != []
    ensures
      var shorter, last := words[..|words| - 1], words[|words| - 1];
      && Concat(words) == Concat(shorter) + last && last[..|last|] == last
      && Underscored(words) == if shorter == [] then Lower(last) else Underscored(shorter) + "_" + Lower(last)
    ensures |words| == 1 ==> Concat(words[..|words| - 1]) == "" && Snake("" + words[0], 0) == ""
    ensures |words| == 1 && words[0] != "" ==> !Boundary("" + words[0], 0)
  {
    hide Lower;
  }

  lemma {:induction false} SnakeIsUnderscored(words: seq<string>)
    requires Spelled(words)
    ensures Snake(Concat(words), |Concat(words)|) == Underscored(words)
    decreases |words|
  {
    SpelledKinds(words);
    hide *;
    if |words| == 1 {
      LastPieces(words);
      WordEnds(words[0]);
      SnakeOfWord("", words[0], |words[0]|);
    } else {
      SpelledShorter(words);
      SnakeIsUnderscored(words[..|words| - 1]);
      LastWordAdded(words);
    }
  }

  lemma LastWordAdded(words: seq<string>)
    requires Spelled(words) && |words| > 1
    requires
      var before := Concat(words[..|words| - 1]);
      Snake(before, |before|) == Underscored(words[..|words| - 1])
    ensures Snake(Concat(words), |Concat(words)|) == Underscored(words)
  {
    SpelledKinds(words);
    hide *;
    var last, shorter := words[|words| - 1], words[..|words| - 1];
    LastPieces(words);
    WordEnds(last);
    SpelledShorter(words);
    ConcatEnds(shorter);
    LastStarts(words, Concat(shorter));
    WordAfter(Concat(shorter), last);
  }

  /** A word that starts where it is put is set off by an underscore. */
  lemma WordAfter(before: string, w: string)
    requires Capitalised(w) || Capitals(w) || Numbered(w) || Small(w)
    requires w != "" && !IsLower(w[0]) && Boundary(before + w, |before|)
    ensures Snake(before + w, |before + w|) == Snake(before, |before|) + "_" + Lower(w)
  {
    hide *;
    SnakeOfWord(before, w, |w|);
    SnakeOfPrefix(before, w, |before|);
    assert w[..|w|] == w && |before| + |w| == |before + w|;
  }

  lemma SpelledKinds(words: seq<string>)
    requires Spelled(words)
    ensures words != []
    ensures
      var last := words[|words| - 1];
      Capitalised(last) || Capitals(last) || Numbered(last) || Small(last)
  {
  }

  lemma LastStarts(words: seq<string>, before: string)
    requires Spelled(words) && |words| > 1 && before != ""
    requires
      var previous, end := words[|words| - 2], before[|before| - 1];
      if Capitals(previous) then IsUpper(end) else IsLower(end) || IsDigit(end)
    ensures words[|words| - 1] != "" && !IsLower(words[|words| - 1][0])
    ensures Boundary(before + words[|words| - 1], |before|)
  {
    var last := words[|words| - 1];
    assert Capitalised(last) || Capitals(last) || Numbered(last);
    assert (before + last)[|before|] == last[0] && (before + last)[|before| - 1] == before[|before| - 1];
    if Capitals(words[|words| - 2]) {
      var k := |words| - 1;
      assert Capitals(words[k - 1]) && Capitalised(words[k]);
      assert (before + last)[|before| + 1] == last[1];
    }
  }

  lemma {:induction false} ConcatIsAlphanumeric(words: seq<string>)
    requires forall k | 0 <= k < |words| ::
               Capitalised(words[k]) || Capitals(words[k]) || Numbered(words[k]) || Small(words[k])
    ensures AllAlphanumeric(Concat(words))
    ensures words != [] ==> Concat(words) != "" && words[0] != "" && Concat(words)[0] == words[0][0]
    decreases |words|
  {
    if words != [] {
      var shorter, last := words[..|words| - 1], words[|words| - 1];
      ConcatIsAlphanumeric(shorter);
      WordEnds(last);
      WordIsAlphanumeric(last);
      hide Capitalised;
      hide Capitals;
      hide Numbered;
      hide Small;
      AlphanumericJoined(Concat(shorter), last);
      if shorter == [] { assert Concat(words) == last; }
    }
  }

  lemma WordIsAlphanumeric(w: string)
    requires Capitalised(w) || Capitals(w) || Numbered(w) || Small(w)
    ensures AllAlphanumeric(w) && w != "" && (IsUpper(w[0]) || IsLower(w[0]))
  {
  }

  lemma AlphanumericJoined(a: string, b: string)
    requires AllAlphanumeric(a) && AllAlphanumeric(b)
    ensures AllAlphanumeric(a + b)
  {
  }

  lemma SpelledIsSafe(words: seq<string>)
    requires Spelled(words)
    ensures SafeId(Concat(words))
  {
    ConcatIsAlphanumeric(words);
    WordIsAlphanumeric(words[0]);
  }

  /** However the identifier is spelled once its initialisms are brought to one word, its name is the
      prefix and those words in lower case, an underscore between each two. */
  lemma NameIsItsWords(id: string, words: seq<string>)
    requires Spelled(words) && Normalised(id) == Concat(words)
    ensures NameOf(id) == Some("mist_" + Underscored(words))
  {
    SpelledIsSafe(words);
    InitialismsVary();
    ReplaceAllKeeps(id, INITIALISMS);
    VariantsSafeBack(id, Normalised(id));
    SnakeIsUnderscored(words);
    hide Normalised;
    hide Snake;
    hide Underscored;
    hide Concat;
    hide Spelled;
    hide SafeId;
  }

  lemma VariantsSafeBack(a: string, b: string)
    requires SafeId(b) && CaseVariants(a, b)
    ensures SafeId(a)
  {
  }

  // ----- every identifier has such a spelling -----

  /** The words with one character more. */
  lemma SpelledMore(words: seq<string>, c: char) returns (more: seq<string>)
    requires Spelled(words) && IsAlphanumeric(c)
    ensures Spelled(more) && Concat(more) == Concat(words) + [c]
  {
    var before, last := words[..|words| - 1], words[|words| - 1];
    assert words == before + [last];
    if Capitals(last) && IsLower(c) && |last| > 1 {
      var first, second := last[..|last| - 1], [last[|last| - 1], c];
      more := before + [first] + [second];
      ConcatMore(before + [first], second);
      ConcatMore(before, first);
      assert last == first + [last[|last| - 1]];
      SplitLast(words, before, last, first, second);
    } else if IsUpper(c) && !Capitals(last) {
      more := words + [[c]];
      ConcatMore(words, [c]);
      NewLast(words, c);
    } else {
      more := before + [last + [c]];
      ConcatMore(before, last + [c]);
      LongerLast(words, before, last, c);
    }
    hide Spelled;
  }

  lemma ConcatMore(words: seq<string>, w: string)
    ensures Concat(words + [w]) == Concat(words) + w
  {
    assert (words + [w])[..|words|] == words;
  }

  lemma AfterCapitals(words: seq<string>)
    requires Spelled(words)
    ensures |words| > 1 && Capitals(words[|words| - 2]) ==> Capitalised(words[|words| - 1])
  {
    hide Capitals;
    hide Capitalised;
    hide Numbered;
    hide Small;
  }

  /** Two last capitals followed by a lower-case letter: the second capital starts the next word. */
  lemma SplitLast(words: seq<string>, before: seq<string>, last: string, first: string, second: string)
    requires Spelled(words) && words == before + [last] && Capitals(last) && |last| > 1
    requires first == last[..|last| - 1] && |second| == 2 && second[0] == last[|last| - 1] && IsLower(second[1])
    ensures Spelled(before + [first] + [second])
  {
    var more := before + [first] + [second];
    assert Capitals(first) && Capitalised(second);
    assert before != [] ==> words[|words| - 2] == before[|before| - 1];
    assert Capitals(last) && !Capitalised(last);
    AfterCapitals(words);
    forall k | 0 <= k < |before| ensures more[k] == words[k] {
    }
    hide Capitals;
    hide Capitalised;
    hide Numbered;
    hide Small;
  }

  lemma NewLast(words: seq<string>, c: char)
    requires Spelled(words) && IsUpper(c) && !Capitals(words[|words| - 1])
    ensures Spelled(words + [[c]])
  {
    assert Capitals([c]);
    hide Capitals;
    hide Capitalised;
    hide Numbered;
    hide Small;
  }

  lemma LongerLast(words: seq<string>, before: seq<string>, last: string, c: char)
    requires Spelled(words) && words == before + [last] && IsAlphanumeric(c)
    requires !(Capitals(last) && IsLower(c) && |last| > 1) && !(IsUpper(c) && !Capitals(last))
    ensures Spelled(before + [last + [c]])
  {
    var longer := last + [c];
    LongerWord(last, c);
    assert words[|words| - 1] == last;
    forall k | 0 <= k < |before| ensures (before + [longer])[k] == words[k] {
    }
    assert before != [] && Capitals(before[|before| - 1]) ==> Capitalised(last) by {
      if before != [] && Capitals(before[|before| - 1]) {
        var k := |words| - 1;
        assert Capitals(words[k - 1]) && Capitalised(words[k]);
      }
    }
    hide Capitals;
    hide Capitalised;
    hide Numbered;
    hide Small;
  }

  lemma LongerWord(last: string, c: char)
    requires Capitalised(last) || Capitals(last) || Numbered(last) || Small(last)
    requires IsAlphanumeric(c) && !(Capitals(last) && IsLower(c) && |last| > 1) && !(IsUpper(c) && !Capitals(last))
    ensures Capitalised(last) ==> Capitalised(last + [c])
    ensures Small(last) ==> Small(last + [c])
    ensures Capitals(last) || Numbered(last) ==>
              Capitals(last + [c]) || Numbered(last + [c]) || Capitalised(last + [c])
  {
    if Capitals(last) {
      if IsDigit(c) { assert NumberedAt(last + [c], |last|); }
    } else if Numbered(last) {
      var k :| 0 < k < |last| && NumberedAt(last, k);
      NumberedLonger(last, k, c);
    }
  }

  lemma NumberedLonger(w: string, k: nat, c: char)
    requires NumberedAt(w, k) && (IsLower(c) || IsDigit(c))
    ensures NumberedAt(w + [c], k)
  {
  }

  lemma {:induction false} EveryTextIsSpelled(s: string) returns (words: seq<string>)
    requires SafeId(s)
    ensures Spelled(words) && Concat(words) == s
    decreases |s|
  {
    if |s| == 1 {
      words := [s];
      assert Concat(words) == Concat([]) + s == s;
      assert Capitals(s) || Small(s);
    } else {
      var shorter, c := s[..|s| - 1], s[|s| - 1];
      words := EveryTextIsSpelled(shorter);
      words := SpelledMore(words, c);
      assert s == shorter + [c];
    }
  }

  /** So the words decide every name: an identifier has one exactly if, once its initialisms are brought
      to one word, it is spelled in words. */
  lemma NamedIffSpelled(id: string)
    ensures NameOf(id).Some? <==> exists words :: Spelled(words) && Normalised(id) == Concat(words)
    ensures NameOf(id).Some? <==>
              && id != "" && ('A' <= id[0] <= 'Z' || 'a' <= id[0] <= 'z')
              && forall i | 0 <= i < |id| ::
                   'A' <= id[i] <= 'Z' || 'a' <= id[i] <= 'z' || '0' <= id[i] <= '9'
  {
    if NameOf(id).Some? {
      NormalisedKeeps(id);
      var words := EveryTextIsSpelled(Normalised(id));
    }
    if words :| Spelled(words) && Normalised(id) == Concat(words) { NameIsItsWords(id, words); }
    hide Normalised;
    hide Snake;
    hide Spelled;
    hide Concat;
  }
}
