/** The frozen transform from operation identifiers to tool names, in both of its programs. */
module ToolName {
  import opened Wrappers

  predicate IsUpper(c: char) {
    'A' <= c <= 'Z'
  }

  predicate IsLower(c: char) {
    'a' <= c <= 'z'
  }

  predicate IsDigit(c: char) {
    '0' <= c <= '9'
  }

  predicate IsAlphanumeric(c: char) {
    IsUpper(c) || IsLower(c) || IsDigit(c)
  }

  predicate AllAlphanumeric(s: string) {
    forall i | 0 <= i < |s| :: IsAlphanumeric(s[i])
  }

  predicate SafeId(id: string) {
    id != "" && (IsUpper(id[0]) || IsLower(id[0])) && AllAlphanumeric(id)
  }

  function LowerChar(c: char): char {
    if IsUpper(c) then c + ('a' - 'A') else c
  }

  function Lower(s: string): (l: string)
    ensures |l| == |s| && forall i | 0 <= i < |s| :: l[i] == LowerChar(s[i])
    decreases |s|
  {
    if s == "" then "" else Lower(s[..|s| - 1]) + [LowerChar(s[|s| - 1])]
  }

  /** Every occurrence of `from`, left to right and without overlap, becomes `to`. */
  function Replace(s: string, from: string, to: string): string
    requires from != ""
    decreases |s|
  {
    if |s| < |from| then s
    else if s[..|from|] == from then to + Replace(s[|from|..], from, to)
    else [s[0]] + Replace(s[1..], from, to)
  }

  datatype Initialism = Initialism(original: string, normal: string)

  const INITIALISMS := [
    Initialism("OAuth2", "Oauth2"), Initialism("OAUTH2", "Oauth2"),
    Initialism("WiFi", "Wifi"), Initialism("WIFI", "Wifi"),
    Initialism("IoT", "Iot"), Initialism("IOT", "Iot"), Initialism("AOSCX", "Aoscx")]

  /** The texts agree up to ASCII case. */
  predicate CaseVariants(a: string, b: string) {
    |a| == |b| && forall i | 0 <= i < |a| :: LowerChar(a[i]) == LowerChar(b[i])
  }

  function ReplaceAll(s: string, initialisms: seq<Initialism>): string
    requires forall k | 0 <= k < |initialisms| :: initialisms[k].original != ""
    decreases |initialisms|
  {
    if initialisms == [] then s
    else ReplaceAll(Replace(s, initialisms[0].original, initialisms[0].normal), initialisms[1..])
  }

  /** The branded initialisms are brought to one word, in this order, before any boundary is looked for. */
  function Normalised(id: string): string {
    ReplaceAll(id, INITIALISMS)
  }

  /** A word starts at `i`. */
  predicate Boundary(s: string, i: nat)
    requires i < |s|
  {
    && i > 0
    && IsUpper(s[i])
    && (IsLower(s[i - 1]) || IsDigit(s[i - 1]) || (IsUpper(s[i - 1]) && i + 1 < |s| && IsLower(s[i + 1])))
  }

  /** The first `n` characters in lower case, with an underscore before each word but the first. */
  function Snake(s: string, n: nat): string
    requires n <= |s|
  {
    if n == 0 then ""
    else Snake(s, n - 1) + (if Boundary(s, n - 1) then "_" else "") + [LowerChar(s[n - 1])]
  }

  function NameOf(id: string): Option<string> {
    if SafeId(id) then Some("mist_" + Snake(Normalised(id), |Normalised(id)|)) else None
  }

  // ----- the two programs -----

  function Join(words: seq<string>): string
    decreases |words|
  {
    if words == [] then ""
    else if |words| == 1 then words[0]
    else Join(words[..|words| - 1]) + "_" + words[|words| - 1]
  }

  predicate SafeNameChar(c: char) {
    IsLower(c) || IsDigit(c) || c == '_'
  }

  /** The words so far and the word being read, against the text read so far. */
  ghost predicate Reading(s: string, n: nat, words: seq<string>, word: string) {
    && n <= |s|
    && (if n == 0 then words == [] && word == "" else word != "" && Join(words + [Lower(word)]) == Snake(s, n))
    && forall k | 0 <= k < |words| :: words[k] != ""
  }

  lemma JoinMore(words: seq<string>, word: string, c: char)
    ensures Join(words + [word + [c]]) == Join(words + [word]) + [c]
    ensures words != [] ==> Join(words + [word]) == Join(words) + "_" + word
  {
    assert (words + [word + [c]])[..|words|] == words && (words + [word])[..|words|] == words;
  }

  lemma ReadingOn(s: string, n: nat, words: seq<string>, word: string)
    requires n < |s| && Reading(s, n, words, word)
    ensures Boundary(s, n) ==> Reading(s, n + 1, words + [Lower(word)], [s[n]])
    ensures !Boundary(s, n) ==> Reading(s, n + 1, words, word + [s[n]])
  {
    if Boundary(s, n) { StartsWord(s, n, words, word); } else { ContinuesWord(s, n, words, word); }
  }

  lemma StartsWord(s: string, n: nat, words: seq<string>, word: string)
    requires n < |s| && Reading(s, n, words, word) && Boundary(s, n)
    ensures Reading(s, n + 1, words + [Lower(word)], [s[n]])
  {
    hide Join;
    assert Lower([s[n]]) == [LowerChar(s[n])];
    JoinMore(words + [Lower(word)], [LowerChar(s[n])], '_');
    assert Snake(s, n + 1) == Snake(s, n) + "_" + [LowerChar(s[n])];
    hide Snake;
    hide Boundary;
  }

  lemma ContinuesWord(s: string, n: nat, words: seq<string>, word: string)
    requires n < |s| && Reading(s, n, words, word) && !Boundary(s, n)
    ensures Reading(s, n + 1, words, word + [s[n]])
  {
    hide Join;
    assert Lower(word + [s[n]]) == Lower(word) + [LowerChar(s[n])];
    assert Snake(s, n + 1) == Snake(s, n) + [LowerChar(s[n])];
    hide Snake;
    hide Boundary;
    if n == 0 {
      assert word + [s[n]] == [s[n]];
      JoinOne(Lower([s[n]]));
    } else {
      JoinMore(words, Lower(word), LowerChar(s[n]));
    }
  }

  lemma JoinOne(word: string)
    ensures Join([word]) == word && Join([] + [word]) == word
  {
    assert [] + [word] == [word];
  }

  lemma ReadingStarts(s: string)
    ensures Reading(s, 0, [], "")
  {
  }

  predicate SafeName(name: string) {
    forall i | 0 <= i < |name| :: SafeNameChar(name[i])
  }

  /** The words read are the name, and the check on its characters cannot fail. */
  lemma ReadingEnds(s: string, words: seq<string>, word: string, name: string)
    requires SafeId(s) && Reading(s, |s|, words, word)
    requires name == "mist_" + Join(words + [Lower(word)])
    ensures word != "" && name == "mist_" + Snake(s, |s|) && SafeName(name) && name != "mist_"
  {
    SnakeIsSafe(s, |s|);
    hide Snake;
    hide Join;
    PrefixedIsSafe(Snake(s, |s|));
  }

  lemma PrefixedIsSafe(t: string)
    requires SafeName(t) && t != ""
    ensures SafeName("mist_" + t) && "mist_" + t != "mist_"
  {
    assert SafeName("mist_");
    SafeJoins("mist_", t);
    assert |"mist_" + t| > 5;
  }

  lemma SafeJoins(a: string, b: string)
    requires SafeName(a) && SafeName(b)
    ensures SafeName(a + b)
  {
  }

  lemma ReplacedOnce(s: string, k: nat)
    requires k < |INITIALISMS|
    ensures ReplaceAll(s, INITIALISMS[k..]) ==
            ReplaceAll(Replace(s, INITIALISMS[k].original, INITIALISMS[k].normal), INITIALISMS[k + 1..])
  {
    var rest := INITIALISMS[k..];
    assert rest != [] && rest[0] == INITIALISMS[k] && rest[1..] == INITIALISMS[k + 1..];
    hide Replace;
  }

  lemma SevenReplacements(id: string, a: string, b: string, d: string, e: string, f: string, g: string, h: string)
    requires a == Replace(id, "OAuth2", "Oauth2") && b == Replace(a, "OAUTH2", "Oauth2")
    requires d == Replace(b, "WiFi", "Wifi") && e == Replace(d, "WIFI", "Wifi")
    requires f == Replace(e, "IoT", "Iot") && g == Replace(f, "IOT", "Iot") && h == Replace(g, "AOSCX", "Aoscx")
    ensures h == Normalised(id)
  {
    hide Replace;
    hide ReplaceAll;
    ReplacedOnce(id, 0);
    ReplacedOnce(a, 1);
    ReplacedOnce(b, 2);
    ReplacedOnce(d, 3);
    ReplacedOnce(e, 4);
    ReplacedOnce(f, 5);
    ReplacedOnce(g, 6);
    ReplacedAll(h);
    assert INITIALISMS[0..] == INITIALISMS;
  }

  lemma ReplacedAll(s: string)
    ensures ReplaceAll(s, INITIALISMS[|INITIALISMS|..]) == s
  {
  }

  /** The server's question, put to the character before, if any, the one there, and the one after. */
  predicate IsBoundary(index: nat, character: char, previous: Option<char>, following: Option<char>) {
    && index > 0 && IsUpper(character) && previous.Some?
    && (|| IsLower(previous.value) || IsDigit(previous.value)
        || (IsUpper(previous.value) && following.Some? && IsLower(following.value)))
  }

  lemma BoundaryIff(s: string, index: nat)
    requires index < |s|
    ensures IsBoundary(index, s[index], if index > 0 then Some(s[index - 1]) else None,
                       if index + 1 < |s| then Some(s[index + 1]) else None) == Boundary(s, index)
  {
  }

  /** The server's version. */
  method CatalogToolName(operationId: string) returns (name: Option<string>)
    ensures name == NameOf(operationId)
  {
    if operationId == "" || !(IsUpper(operationId[0]) || IsLower(operationId[0])) || !AllAlphanumeric(operationId) {
      return None;
    }
    hide Normalised;
    hide Replace;
    hide Reading;
    hide Join;
    hide Snake;
    hide SafeName;
    hide Lower;
    hide Boundary;
    hide IsBoundary;
    var oauth := Replace(operationId, "OAuth2", "Oauth2");
    var oauthUpper := Replace(oauth, "OAUTH2", "Oauth2");
    var wifi := Replace(oauthUpper, "WiFi", "Wifi");
    var wifiUpper := Replace(wifi, "WIFI", "Wifi");
    var iot := Replace(wifiUpper, "IoT", "Iot");
    var iotUpper := Replace(iot, "IOT", "Iot");
    var characters := Replace(iotUpper, "AOSCX", "Aoscx");
    SevenReplacements(operationId, oauth, oauthUpper, wifi, wifiUpper, iot, iotUpper, characters);
    NormalisedKeeps(operationId);
    ReadingStarts(characters);
    var words: seq<string>, word: string := [], "";
    for index := 0 to |characters|
      invariant Reading(characters, index, words, word)
    {
      var character := characters[index];
      var previous := if index > 0 then Some(characters[index - 1]) else None;
      var following := if index + 1 < |characters| then Some(characters[index + 1]) else None;
      var boundary := IsBoundary(index, character, previous, following);
      BoundaryIff(characters, index);
      ReadingOn(characters, index, words, word);
      if boundary {
        words := words + [Lower(word)];
        word := "";
        assert word + [character] == [character];
      }
      word := word + [character];
    }
    ReadingEnds(characters, words, word, "mist_" + Join(words + [Lower(word)]));
    if word != "" { words := words + [Lower(word)]; }
    var joined := "mist_" + Join(words);
    if !SafeName(joined) { return None; }
    name := Some(joined);
  }

  // The generator asks its questions of texts of at most one character; none holds of the empty one.

  predicate TextIsUpper(s: string) {
    s != "" && forall i | 0 <= i < |s| :: IsUpper(s[i])
  }

  predicate TextIsLower(s: string) {
    s != "" && forall i | 0 <= i < |s| :: IsLower(s[i])
  }

  predicate TextIsDigit(s: string) {
    s != "" && forall i | 0 <= i < |s| :: IsDigit(s[i])
  }

  /** A letter, then letters and digits. */
  predicate MatchesIdentifier(s: string) {
    s != "" && (IsUpper(s[0]) || IsLower(s[0])) && forall i | 1 <= i < |s| :: IsAlphanumeric(s[i])
  }

  /** The prefix, then at least one character that a name may hold. */
  predicate MatchesName(s: string) {
    "mist_" <= s && |s| > 5 && SafeName(s[5..])
  }

  lemma SafeNameMatches(name: string, rest: string)
    requires name == "mist_" + rest && SafeName(name) && name != "mist_"
    ensures MatchesName(name)
  {
    assert rest != "" && name[5..] == rest;
    forall i | 0 <= i < |rest| ensures SafeNameChar(rest[i]) {
      assert rest[i] == name[i + 5];
    }
  }

  method Normalise(operationId: string) returns (text: string)
    ensures text == Normalised(operationId)
  {
    text := operationId;
    assert INITIALISMS[0..] == INITIALISMS;
    InitialismsVary();
    for k := 0 to |INITIALISMS|
      invariant ReplaceAll(text, INITIALISMS[k..]) == Normalised(operationId)
    {
      hide ReplaceAll;
      hide CaseVariants;
      hide Normalised;
      ReplacedOnce(text, k);
      text := Replace(text, INITIALISMS[k].original, INITIALISMS[k].normal);
    }
    ReplacedAll(text);
  }

  /** The question put to the texts before, at and after a place is whether a word starts there. */
  predicate StartsWordAt(index: nat, character: string, previous: string, following: string) {
    && index > 0 && TextIsUpper(character)
    && (TextIsLower(previous) || TextIsDigit(previous) || (TextIsUpper(previous) && TextIsLower(following)))
  }

  lemma StartsWordIff(text: string, index: nat)
    requires index < |text|
    ensures StartsWordAt(index, [text[index]], if index > 0 then [text[index - 1]] else "",
                         if index + 1 < |text| then [text[index + 1]] else "") == Boundary(text, index)
  {
    OneCharacter(text[index]);
    if index > 0 { OneCharacter(text[index - 1]); }
    if index + 1 < |text| { OneCharacter(text[index + 1]); }
    hide TextIsUpper;
    hide TextIsLower;
    hide TextIsDigit;
    NoCharacter();
  }

  lemma OneCharacter(c: char)
    ensures TextIsUpper([c]) == IsUpper(c) && TextIsLower([c]) == IsLower(c) && TextIsDigit([c]) == IsDigit(c)
  {
    assert [c][0] == c;
  }

  lemma NoCharacter()
    ensures !TextIsUpper("") && !TextIsLower("") && !TextIsDigit("")
  {
  }

  /** The generator's version. */
  method GeneratorToolName(operationId: string) returns (name: Option<string>)
    ensures name == NameOf(operationId)
  {
    if !MatchesIdentifier(operationId) { return None; }
    assert SafeId(operationId);
    hide Normalised;
    hide Reading;
    hide Join;
    hide Snake;
    hide SafeName;
    hide MatchesName;
    hide Lower;
    hide Boundary;
    hide StartsWordAt;
    var text := Normalise(operationId);
    NormalisedKeeps(operationId);
    ReadingStarts(text);
    var words: seq<string>, word: string := [], "";
    for index := 0 to |text|
      invariant Reading(text, index, words, word)
    {
      var character := [text[index]];
      var previous := if index > 0 then [text[index - 1]] else "";
      var following := if index + 1 < |text| then [text[index + 1]] else "";
      var boundary := StartsWordAt(index, character, previous, following);
      StartsWordIff(text, index);
      ReadingOn(text, index, words, word);
      if boundary {
        words := words + [Lower(word)];
        word := character;
      } else {
        word := word + character;
      }
    }
    ReadingEnds(text, words, word, "mist_" + Join(words + [Lower(word)]));
    SafeNameMatches("mist_" + Join(words + [Lower(word)]), Join(words + [Lower(word)]));
    if word != "" { words := words + [Lower(word)]; }
    var joined := "mist_" + Join(words);
    if !MatchesName(joined) { return None; }
    name := Some(joined);
  }

  // ----- what the name tells -----

  /** Replacing by a text that differs only in case changes only case. */
  lemma {:induction false} ReplaceKeeps(s: string, from: string, to: string)
    requires from != "" && CaseVariants(from, to)
    ensures CaseVariants(s, Replace(s, from, to))
    decreases |s|
  {
    if |s| >= |from| {
      if s[..|from|] == from {
        ReplaceKeeps(s[|from|..], from, to);
        assert s == from + s[|from|..];
        VariantsJoin(from, to, s[|from|..], Replace(s[|from|..], from, to));
      } else {
        ReplaceKeeps(s[1..], from, to);
        assert s == [s[0]] + s[1..];
        VariantsJoin([s[0]], [s[0]], s[1..], Replace(s[1..], from, to));
      }
    }
  }

  lemma VariantsJoin(a: string, b: string, x: string, y: string)
    requires CaseVariants(a, b) && CaseVariants(x, y)
    ensures CaseVariants(a + x, b + y)
  {
  }

  lemma VariantsChain(a: string, b: string, d: string)
    requires CaseVariants(a, b) && CaseVariants(b, d)
    ensures CaseVariants(a, d)
  {
  }

  lemma {:induction false} ReplaceAllKeeps(s: string, initialisms: seq<Initialism>)
    requires forall k | 0 <= k < |initialisms| ::
               initialisms[k].original != "" && CaseVariants(initialisms[k].original, initialisms[k].normal)
    ensures CaseVariants(s, ReplaceAll(s, initialisms))
    decreases |initialisms|
  {
    hide CaseVariants;
    if initialisms == [] {
      SameCase(s);
    } else {
      var next := Replace(s, initialisms[0].original, initialisms[0].normal);
      ReplaceKeeps(s, initialisms[0].original, initialisms[0].normal);
      ReplaceAllKeeps(next, initialisms[1..]);
      VariantsChain(s, next, ReplaceAll(next, initialisms[1..]));
    }
  }

  lemma SameCase(s: string)
    ensures CaseVariants(s, s)
  {
  }

  lemma InitialismsVary()
    ensures forall k | 0 <= k < |INITIALISMS| ::
              INITIALISMS[k].original != "" && CaseVariants(INITIALISMS[k].original, INITIALISMS[k].normal)
  {
  }

  /** Lower-casing erases exactly the differences of case. */
  lemma VariantsIffLowerEqual(a: string, b: string)
    ensures CaseVariants(a, b) <==> Lower(a) == Lower(b)
  {
  }

  /** All seven replacements together change case only. */
  lemma NormalisedKeeps(id: string)
    requires SafeId(id)
    ensures Lower(Normalised(id)) == Lower(id) && SafeId(Normalised(id))
  {
    InitialismsVary();
    ReplaceAllKeeps(id, INITIALISMS);
    hide ReplaceAll;
    VariantsIffLowerEqual(id, Normalised(id));
    VariantsAreSafe(id, Normalised(id));
  }

  lemma VariantsAreSafe(a: string, b: string)
    requires SafeId(a) && CaseVariants(a, b)
    ensures SafeId(b)
  {
  }

  lemma {:induction false} SnakeIsSafe(s: string, n: nat)
    requires n <= |s| && AllAlphanumeric(s)
    ensures SafeName(Snake(s, n)) && (n > 0 ==> Snake(s, n) != "")
  {
    if n > 0 { SnakeIsSafe(s, n - 1); }
  }

  /** The text without its underscores. */
  function Erased(s: string): string
    decreases |s|
  {
    if s == "" then ""
    else Erased(s[..|s| - 1]) + if s[|s| - 1] == '_' then "" else [s[|s| - 1]]
  }

  lemma ErasedMore(s: string, c: char)
    ensures Erased(s + [c]) == Erased(s) + if c == '_' then "" else [c]
  {
    assert (s + [c])[..|s|] == s;
  }

  lemma {:induction false} SnakeErased(s: string, n: nat)
    requires n <= |s| && AllAlphanumeric(s)
    ensures Erased(Snake(s, n)) == Lower(s[..n])
  {
    if n > 0 {
      SnakeErased(s, n - 1);
      LowerMore(s, n);
      hide Lower;
      var before, c := Snake(s, n - 1), LowerChar(s[n - 1]);
      assert IsAlphanumeric(s[n - 1]) && c != '_';
      ErasedMore(before, '_');
      ErasedMore(before + "_", c);
      ErasedMore(before, c);
      hide Erased;
      assert Snake(s, n) == if Boundary(s, n - 1) then (before + "_") + [c] else before + [c];
    }
  }

  lemma LowerMore(s: string, n: nat)
    requires 0 < n <= |s|
    ensures Lower(s[..n]) == Lower(s[..n - 1]) + [LowerChar(s[n - 1])]
  {
  }

  /** The prefix and the underscores erased, a name is its identifier in lower case. */
  lemma NameErasesToId(id: string)
    requires SafeId(id)
    ensures NameOf(id).Some? && |NameOf(id).value| > 5 && NameOf(id).value[..5] == "mist_"
    ensures Erased(NameOf(id).value[5..]) == Lower(id)
  {
    var n := Normalised(id);
    NormalisedKeeps(id);
    SnakeErased(n, |n|);
    assert n[..|n|] == n;
    assert ("mist_" + Snake(n, |n|))[5..] == Snake(n, |n|);
    hide Normalised;
  }

  /** Equal names come only from identifiers that agree up to case. */
  lemma EqualNamesOnlyUpToCase(a: string, b: string)
    requires SafeId(a) && SafeId(b) && NameOf(a) == NameOf(b)
    ensures Lower(a) == Lower(b)
  {
    NameErasesToId(a);
    NameErasesToId(b);
  }

  /** The words of the two texts start at the same places. */
  predicate SameWords(s: string, t: string) {
    |s| == |t| && forall i | 0 <= i < |s| :: Boundary(s, i) <==> Boundary(t, i)
  }

  lemma {:induction false} SnakeEqualIff(s: string, t: string, n: nat)
    requires n <= |s| && n <= |t| && AllAlphanumeric(s) && AllAlphanumeric(t)
    requires forall i | 0 <= i < n :: LowerChar(s[i]) == LowerChar(t[i])
    ensures Snake(s, n) == Snake(t, n) <==> forall i | 0 <= i < n :: Boundary(s, i) <==> Boundary(t, i)
  {
    if n > 0 {
      SnakeEqualIff(s, t, n - 1);
      NoEmptyWord(s, n - 1);
      NoEmptyWord(t, n - 1);
      LastWordStart(s, n);
      LastWordStart(t, n);
      var x, y := Snake(s, n - 1), Snake(t, n - 1);
      hide Snake;
      hide Boundary;
      SameTail(x, if Boundary(s, n - 1) then "_" else "",
               y, if Boundary(t, n - 1) then "_" else "", LowerChar(s[n - 1]));
    }
  }

  lemma LastWordStart(s: string, n: nat)
    requires 0 < n <= |s|
    ensures Snake(s, n) == Snake(s, n - 1) + (if Boundary(s, n - 1) then "_" else "") + [LowerChar(s[n - 1])]
    ensures n == 1 ==> !Boundary(s, 0)
    ensures Snake(s, 0) == ""
  {
  }

  /** An underscore in one text's tail must be in the other's, as no word before it ends in one. */
  lemma SameTail(x: string, p: string, y: string, q: string, c: char)
    requires p in {"", "_"} && q in {"", "_"}
    requires x != "" ==> x[|x| - 1] != '_'
    requires y != "" ==> y[|y| - 1] != '_'
    requires x == "" ==> p == ""
    requires y == "" ==> q == ""
    ensures x + p + [c] == y + q + [c] <==> x == y && p == q
  {
    if x + p + [c] == y + q + [c] {
      assert (x + p + [c])[..|x + p|] == x + p && (y + q + [c])[..|y + q|] == y + q;
      assert x + p == y + q;
      assert (x + p)[..|x|] == x && (y + q)[..|y|] == y;
    }
  }

  /** Two identifiers have one name exactly when they agree up to case and, once the initialisms are
      brought to one word, their words start at the same places. */
  lemma NamesEqualIff(a: string, b: string)
    requires SafeId(a) && SafeId(b)
    ensures NameOf(a) == NameOf(b) <==> Lower(a) == Lower(b) && SameWords(Normalised(a), Normalised(b))
  {
    NormalisedKeeps(a);
    NormalisedKeeps(b);
    if NameOf(a) == NameOf(b) { EqualNamesOnlyUpToCase(a, b); }
    NamesOf(a, b);
    var s, t := Normalised(a), Normalised(b);
    hide Normalised;
    hide NameOf;
    if Lower(a) == Lower(b) {
      VariantsIffLowerEqual(s, t);
      SnakeEqualIff(s, t, |s|);
    }
  }

  lemma NamesOf(a: string, b: string)
    requires SafeId(a) && SafeId(b)
    ensures
      var s, t := Normalised(a), Normalised(b);
      NameOf(a) == NameOf(b) <==> Snake(s, |s|) == Snake(t, |t|)
  {
    hide Normalised;
    hide Snake;
    var x, y := Snake(Normalised(a), |Normalised(a)|), Snake(Normalised(b), |Normalised(b)|);
    assert ("mist_" + x)[5..] == x && ("mist_" + y)[5..] == y;
  }

  /** So a name can lose a distinction of case. */
  lemma CaseMayNotShow()
    ensures SafeId("IoT") && SafeId("Iot") && NameOf("IoT") == NameOf("Iot")
  {
    hide Lower;
    IotIsOneWord("IoT");
    IotIsOneWord("Iot");
    CaseDiffers("IoT", "Iot");
    NamesEqualIff("IoT", "Iot");
    hide Normalised;
    hide NameOf;
  }

  /** And it can make one: identifiers equal up to case may have different names. */
  lemma CaseMayShow()
    ensures SafeId("aB") && SafeId("ab") && Lower("aB") == Lower("ab") && NameOf("aB") != NameOf("ab")
  {
    hide Lower;
    TwoLetters("aB");
    TwoLetters("ab");
    CaseDiffers("aB", "ab");
    NamesEqualIff("aB", "ab");
    assert Boundary("aB", 1) && !Boundary("ab", 1);
    hide Normalised;
    hide NameOf;
  }

  lemma CaseDiffers(a: string, b: string)
    requires CaseVariants(a, b)
    ensures Lower(a) == Lower(b)
  {
    VariantsIffLowerEqual(a, b);
  }

  lemma TwoLetters(id: string)
    requires |id| == 2
    ensures Normalised(id) == id
  {
    ShortStays(id, INITIALISMS);
  }

  lemma {:induction false} ShortStays(s: string, initialisms: seq<Initialism>)
    requires forall k | 0 <= k < |initialisms| :: |s| < |initialisms[k].original|
    ensures ReplaceAll(s, initialisms) == s
    decreases |initialisms|
  {
    if initialisms != [] { ShortStays(s, initialisms[1..]); }
  }

  lemma {:induction false} ReplaceAllInTwo(s: string, a: seq<Initialism>, b: seq<Initialism>)
    requires forall k | 0 <= k < |a| :: a[k].original != ""
    requires forall k | 0 <= k < |b| :: b[k].original != ""
    ensures ReplaceAll(s, a + b) == ReplaceAll(ReplaceAll(s, a), b)
    decreases |a|
  {
    if a == [] {
      assert a + b == b;
    } else {
      assert (a + b)[1..] == a[1..] + b;
      ReplaceAllInTwo(Replace(s, a[0].original, a[0].normal), a[1..], b);
    }
  }

  lemma IotIsOneWord(s: string)
    requires s == "IoT" || s == "Iot"
    ensures Normalised(s) == "Iot"
  {
    var longer, iot := INITIALISMS[..4], INITIALISMS[4..];
    assert INITIALISMS == longer + iot;
    assert forall k | 0 <= k < 4 :: longer[k] == INITIALISMS[k];
    ReplaceAllInTwo(s, longer, iot);
    ShortStays(s, longer);
    ReplaceWord(s, "IoT", "Iot");
    ReplaceWord("Iot", "IOT", "Iot");
    ShortStays("Iot", [INITIALISMS[6]]);
    assert iot[1..][1..] == [INITIALISMS[6]];
    assert ReplaceAll("Iot", iot[1..]) == "Iot";
    assert ReplaceAll(s, iot) == "Iot";
  }

  lemma ReplaceWord(s: string, from: string, to: string)
    requires from != "" && |s| == |from|
    ensures Replace(s, from, to) == if s == from then to else s
  {
    assert s[..|from|] == s && s[|from|..] == "";
    assert Replace("", from, to) == "";
    assert [s[0]] + s[1..] == s;
  }

  /** No word is empty: underscores are single and never first or last. */
  lemma {:induction false} NoEmptyWord(s: string, n: nat)
    requires n <= |s| && AllAlphanumeric(s)
    ensures
      var name := Snake(s, n);
      && (n > 0 ==> name != "" && name[0] != '_' && name[|name| - 1] != '_')
      && forall i | 0 <= i < |name| - 1 :: !(name[i] == '_' && name[i + 1] == '_')
  {
    if n > 0 {
      NoEmptyWord(s, n - 1);
      assert IsAlphanumeric(s[n - 1]) && LowerChar(s[n - 1]) != '_';
    }
  }

  lemma NamesHaveNoEmptyWord(id: string)
    requires SafeId(id)
    ensures
      var name := NameOf(id).value;
      && |name| > 5 && name[5] != '_' && name[|name| - 1] != '_'
      && forall i | 0 <= i < |name| - 1 :: !(name[i] == '_' && name[i + 1] == '_')
  {
    NormalisedKeeps(id);
    var n := Normalised(id);
    NoEmptyWord(n, |n|);
    hide Normalised;
    var name := "mist_" + Snake(n, |n|);
    assert name[5..] == Snake(n, |n|);
    forall i | 0 <= i < |name| - 1 ensures !(name[i] == '_' && name[i + 1] == '_') {
      if i >= 5 { assert name[i] == Snake(n, |n|)[i - 5] && name[i + 1] == Snake(n, |n|)[i - 4]; }
    }
  }
}
