/** The case-insensitive edit distance that ranks near-miss operation identifiers. */
module EditDistance {
  type Text = seq<char>

  function Min3(x: nat, y: nat, z: nat): nat {
    if x <= y && x <= z then x else if y <= z then y else z
  }

  function Init(s: Text): Text
    requires s != []
  {
    s[..|s| - 1]
  }

  function Cost(a: Text, b: Text): nat
    requires a != [] && b != []
  {
    if a[|a| - 1] == b[|b| - 1] then 0 else 1
  }

  /** The recursive edit distance. */
  function Distance(a: Text, b: Text): nat
    decreases |a| + |b|
  {
    if a == [] then |b|
    else if b == [] then |a|
    else Min3(Distance(Init(a), b) + 1, Distance(a, Init(b)) + 1, Distance(Init(a), Init(b)) + Cost(a, b))
  }

  /** The distance is the cheapest of three last steps. */
  lemma {:induction false} LastStep(a: Text, b: Text)
    requires a != [] && b != []
    ensures Distance(a, b) <= Distance(Init(a), b) + 1
    ensures Distance(a, b) <= Distance(a, Init(b)) + 1
    ensures Distance(a, b) <= Distance(Init(a), Init(b)) + Cost(a, b)
    ensures || Distance(a, b) == Distance(Init(a), b) + 1
            || Distance(a, b) == Distance(a, Init(b)) + 1
            || Distance(a, b) == Distance(Init(a), Init(b)) + Cost(a, b)
  {
  }

  lemma {:induction false} Edges(a: Text)
    ensures Distance([], a) == |a| && Distance(a, []) == |a|
  {
  }

  // ----- the two-row loop -----

  lemma {:induction false} Cell(x: Text, y: Text, i: nat, j: nat)
    requires 0 < i <= |x| && 0 < j <= |y|
    ensures Distance(x[..i], y[..j]) ==
            Min3(Distance(x[..i - 1], y[..j]) + 1,
                 Distance(x[..i], y[..j - 1]) + 1,
                 Distance(x[..i - 1], y[..j - 1]) + if x[i - 1] == y[j - 1] then 0 else 1)
  {
    hide Distance;
    assert Init(x[..i]) == x[..i - 1] && Init(y[..j]) == y[..j - 1];
    LastStep(x[..i], y[..j]);
  }

  /** The first `filled` entries of `row` are the distances from `head` to the prefixes of `y`. */
  ghost predicate Row(row: seq<nat>, head: Text, y: Text, filled: nat) {
    filled <= |row| == |y| + 1 && forall j :: 0 <= j < filled ==> row[j] == Distance(head, y[..j])
  }

  /** For any lower-casing, which may change a text's length. */
  method LevenshteinDistance(lowercase: Text -> Text, a: Text, b: Text) returns (distance: nat)
    ensures distance == Distance(lowercase(a), lowercase(b))
  {
    hide Distance;
    var x, y := lowercase(a), lowercase(b);
    var m, n := |x|, |y|;
    Edges(x);
    Edges(y);
    if m == 0 {
      return n;
    }
    if n == 0 {
      return m;
    }
    var prevRow := new nat[n + 1](j => j);
    var currRow := new nat[n + 1](_ => 0);
    FirstRow(prevRow[..], x, y);
    var i := 1;
    while i <= m
      invariant 1 <= i <= m + 1
      invariant prevRow.Length == currRow.Length == n + 1 && prevRow != currRow
      invariant fresh(prevRow) && fresh(currRow)
      invariant Row(prevRow[..], x[..i - 1], y, n + 1)
    {
      currRow[0] := i;
      Edges(x[..i]);
      ghost var above := prevRow[..];
      assert y[..0] == [];
      var j := 1;
      while j <= n
        invariant 1 <= j <= n + 1
        invariant prevRow[..] == above
        invariant Row(currRow[..], x[..i], y, j)
      {
        var cost := if x[i - 1] == y[j - 1] then 0 else 1;
        ghost var partial := currRow[..];
        var best := Min3(prevRow[j] + 1, currRow[j - 1] + 1, prevRow[j - 1] + cost);
        NextEntry(above, partial, x, y, i, j, best);
        currRow[j] := best;
        assert currRow[..] == partial[j := best];
        j := j + 1;
      }
      prevRow, currRow := currRow, prevRow;
      i := i + 1;
    }
    assert x[..m] == x && y[..n] == y;
    distance := prevRow[n];
    assert distance == prevRow[..][n];
  }

  lemma {:induction false} FirstRow(row: seq<nat>, x: Text, y: Text)
    requires |row| == |y| + 1 && forall j :: 0 <= j <= |y| ==> row[j] == j
    ensures Row(row, x[..0], y, |y| + 1)
  {
    forall j | 0 <= j <= |y| ensures row[j] == Distance(x[..0], y[..j]) { Edges(y[..j]); }
  }

  lemma {:induction false} NextEntry(above: seq<nat>, row: seq<nat>, x: Text, y: Text, i: nat, j: nat, best: nat)
    requires 0 < i <= |x| && 0 < j <= |y|
    requires Row(above, x[..i - 1], y, |y| + 1) && Row(row, x[..i], y, j)
    requires best == Min3(above[j] + 1, row[j - 1] + 1, above[j - 1] + if x[i - 1] == y[j - 1] then 0 else 1)
    ensures Row(row[j := best], x[..i], y, j + 1)
  {
    hide Distance;
    Cell(x, y, i, j);
  }

  // ----- the distance is a metric -----

  lemma {:induction false} DistanceBounds(a: Text, b: Text)
    ensures |a| - |b| <= Distance(a, b) && |b| - |a| <= Distance(a, b)
    ensures Distance(a, b) <= if |a| <= |b| then |b| else |a|
    decreases |a| + |b|
  {
    if a != [] && b != [] {
      DistanceBounds(Init(a), b);
      DistanceBounds(a, Init(b));
      DistanceBounds(Init(a), Init(b));
    }
  }

  lemma {:induction false} DistanceZeroIff(a: Text, b: Text)
    ensures Distance(a, b) == 0 <==> a == b
    decreases |a| + |b|
  {
    if a != [] && b != [] {
      DistanceZeroIff(Init(a), Init(b));
      assert a == Init(a) + [a[|a| - 1]] && b == Init(b) + [b[|b| - 1]];
    }
  }

  lemma {:induction false} DistanceSymmetric(a: Text, b: Text)
    ensures Distance(a, b) == Distance(b, a)
    decreases |a| + |b|
  {
    if a != [] && b != [] {
      DistanceSymmetric(Init(a), b);
      DistanceSymmetric(a, Init(b));
      DistanceSymmetric(Init(a), Init(b));
    }
  }

  /** By cases on the last step of the two shortest routes. */
  lemma {:induction false} DistanceTriangle(a: Text, b: Text, c: Text)
    ensures Distance(a, c) <= Distance(a, b) + Distance(b, c)
    decreases |a| + |b| + |c|
  {
    if a == [] {
      DistanceBounds(b, c);
    } else if b == [] {
      DistanceBounds(a, c);
    } else if c == [] {
      DistanceBounds(a, b);
    } else {
      hide Distance;
      var a', b', c' := Init(a), Init(b), Init(c);
      LastStep(a, b);
      LastStep(b, c);
      LastStep(a, c);
      if Distance(a, b) == Distance(a', b) + 1 {
        DistanceTriangle(a', b, c);
      } else if Distance(b, c) == Distance(b, c') + 1 {
        DistanceTriangle(a, b, c');
      } else if Distance(a, b) == Distance(a, b') + 1 {
        DistanceTriangle(a, b', c);
        DistanceTriangle(a, b', c');
      } else {
        DistanceTriangle(a', b', c);
        DistanceTriangle(a', b', c');
      }
    }
  }

  /** The distance is a metric lying between the difference of the lengths and the longer length. */
  lemma DistanceIsMetric(a: Text, b: Text, c: Text)
    ensures Distance(a, b) == 0 <==> a == b
    ensures Distance(a, b) == Distance(b, a)
    ensures Distance(a, c) <= Distance(a, b) + Distance(b, c)
    ensures |a| - |b| <= Distance(a, b) <= if |a| <= |b| then |b| else |a|
  {
    hide Distance;
    DistanceZeroIff(a, b);
    DistanceSymmetric(a, b);
    DistanceTriangle(a, b, c);
    DistanceBounds(a, b);
  }

  // ----- the distance is the length of a shortest edit script -----

  datatype Edit = Insert(at: nat, c: char) | Delete(at: nat) | Replace(at: nat, c: char)

  predicate Applies(e: Edit, s: Text) {
    if e.Insert? then e.at <= |s| else e.at < |s|
  }

  function Apply(e: Edit, s: Text): Text
    requires Applies(e, s)
  {
    match e
    case Insert(at, c) => s[..at] + [c] + s[at..]
    case Delete(at) => s[..at] + s[at + 1..]
    case Replace(at, c) => s[..at] + [c] + s[at + 1..]
  }

  /** Edits to perform in order. */
  datatype Script = Done | Then(first: Edit, rest: Script)

  function Length(script: Script): nat {
    if script.Done? then 0 else 1 + Length(script.rest)
  }

  function Followed(script: Script, last: Edit): Script {
    if script.Done? then Then(last, Done) else Then(script.first, Followed(script.rest, last))
  }

  /** Performing the edits turns `a` into `b`. */
  predicate Transforms(script: Script, a: Text, b: Text) {
    match script
    case Done => a == b
    case Then(first, rest) => Applies(first, a) && Transforms(rest, Apply(first, a), b)
  }

  lemma {:induction false} OneMoreEdit(script: Script, last: Edit, a: Text, b: Text)
    requires Transforms(script, a, b) && Applies(last, b)
    ensures Transforms(Followed(script, last), a, Apply(last, b))
    ensures Length(Followed(script, last)) == Length(script) + 1
  {
    if script.Then? {
      OneMoreEdit(script.rest, last, Apply(script.first, a), b);
    }
  }

  lemma ApplyFramed(e: Edit, a: Text, tail: Text)
    requires Applies(e, a)
    ensures Applies(e, a + tail) && Apply(e, a + tail) == Apply(e, a) + tail
  {
    assert (a + tail)[..e.at] == a[..e.at];
    if e.Insert? {
      assert (a + tail)[e.at..] == a[e.at..] + tail;
    } else {
      assert (a + tail)[e.at + 1..] == a[e.at + 1..] + tail;
    }
  }

  /** A script works unchanged in front of any tail. */
  lemma {:induction false} TransformsFramed(script: Script, a: Text, b: Text, tail: Text)
    requires Transforms(script, a, b)
    ensures Transforms(script, a + tail, b + tail)
  {
    if script.Then? {
      ApplyFramed(script.first, a, tail);
      TransformsFramed(script.rest, Apply(script.first, a), b, tail);
    }
  }

  lemma DeleteLast(a: Text, rest: Script, b: Text) returns (script: Script)
    requires a != [] && Transforms(rest, Init(a), b)
    ensures Transforms(script, a, b) && Length(script) == Length(rest) + 1
  {
    script := Then(Delete(|a| - 1), rest);
    assert Apply(script.first, a) == Init(a);
  }

  lemma InsertLast(a: Text, rest: Script, b: Text) returns (script: Script)
    requires b != [] && Transforms(rest, a, Init(b))
    ensures Transforms(script, a, b) && Length(script) == Length(rest) + 1
  {
    var last := Insert(|b| - 1, b[|b| - 1]);
    assert Apply(last, Init(b)) == b;
    OneMoreEdit(rest, last, a, Init(b));
    script := Followed(rest, last);
  }

  lemma MatchLast(a: Text, rest: Script, b: Text) returns (script: Script)
    requires a != [] && b != [] && Transforms(rest, Init(a), Init(b))
    ensures Transforms(script, a, b) && Length(script) == Length(rest) + Cost(a, b)
  {
    hide Transforms;
    var x, y := a[|a| - 1], b[|b| - 1];
    assert a == Init(a) + [x] && b == Init(b) + [y];
    TransformsFramed(rest, Init(a), Init(b), [x]);
    if x == y {
      script := rest;
    } else {
      ReplacedLast(Init(b), x, y);
      OneMoreEdit(rest, Replace(|Init(b)|, y), a, Init(b) + [x]);
      script := Followed(rest, Replace(|Init(b)|, y));
    }
  }

  lemma ReplacedLast(head: Text, x: char, y: char)
    ensures Applies(Replace(|head|, y), head + [x])
    ensures Apply(Replace(|head|, y), head + [x]) == head + [y]
  {
    assert (head + [x])[..|head|] == head;
  }

  lemma {:induction false} ShortestScript(a: Text, b: Text) returns (script: Script)
    ensures Transforms(script, a, b) && Length(script) == Distance(a, b)
    decreases |a| + |b|
  {
    if a == [] && b == [] {
      script := Done;
    } else if b == [] || (a != [] && Distance(a, b) == Distance(Init(a), b) + 1) {
      script := ShortestScript(Init(a), b);
      script := DeleteLast(a, script, b);
      DistanceBounds(Init(a), b);
    } else if a == [] || Distance(a, b) == Distance(a, Init(b)) + 1 {
      script := ShortestScript(a, Init(b));
      script := InsertLast(a, script, b);
    } else {
      script := ShortestScript(Init(a), Init(b));
      script := MatchLast(a, script, b);
    }
  }

  lemma {:induction false} CommonTail(a: Text, b: Text, tail: Text)
    ensures Distance(a + tail, b + tail) <= Distance(a, b)
    decreases |tail|
  {
    hide Distance;
    if tail == [] {
      assert a + tail == a && b + tail == b;
    } else {
      var x, y := a + tail, b + tail;
      assert Init(x) == a + Init(tail) && Init(y) == b + Init(tail);
      LastStep(x, y);
      CommonTail(a, b, Init(tail));
    }
  }

  lemma {:induction false} OneLetterMore(head: Text, x: char, y: char)
    ensures Distance(head, head + [x]) <= 1 && Distance(head + [x], head) <= 1
    ensures Distance(head + [x], head + [y]) <= 1
  {
    hide Distance;
    DistanceZeroIff(head, head);
    var headX, headY := head + [x], head + [y];
    assert Init(headX) == head && Init(headY) == head;
    LastStep(headX, headY);
    Edges(headX);
    if head != [] {
      LastStep(head, headX);
      LastStep(headX, head);
    }
  }

  lemma OneEditCostsAtMostOne(e: Edit, s: Text)
    requires Applies(e, s)
    ensures Distance(s, Apply(e, s)) <= 1
  {
    hide Distance;
    var head := s[..e.at];
    match e
    case Insert(at, c) =>
      OneLetterMore(head, c, c);
      assert s == head + s[at..];
      CommonTail(head, head + [c], s[at..]);
    case Delete(at) =>
      OneLetterMore(head, s[at], s[at]);
      assert s == head + [s[at]] + s[at + 1..];
      CommonTail(head + [s[at]], head, s[at + 1..]);
    case Replace(at, c) =>
      OneLetterMore(head, s[at], c);
      assert s == head + [s[at]] + s[at + 1..];
      CommonTail(head + [s[at]], head + [c], s[at + 1..]);
  }

  lemma {:induction false} NoShorterScript(script: Script, a: Text, b: Text)
    requires Transforms(script, a, b)
    ensures Distance(a, b) <= Length(script)
  {
    match script
    case Done => DistanceZeroIff(a, b);
    case Then(first, rest) =>
      var next := Apply(first, a);
      OneEditCostsAtMostOne(first, a);
      NoShorterScript(rest, next, b);
      DistanceTriangle(a, next, b);
  }

  /** A script of at most `n` edits exists exactly when the distance is at most `n`. */
  lemma DistanceIsShortestScript(a: Text, b: Text, n: nat)
    ensures Distance(a, b) <= n <==> exists script :: Transforms(script, a, b) && Length(script) <= n
  {
    if Distance(a, b) <= n {
      var script := ShortestScript(a, b);
    }
    forall script | Transforms(script, a, b) && Length(script) <= n
      ensures Distance(a, b) <= n
    {
      NoShorterScript(script, a, b);
    }
  }
}
