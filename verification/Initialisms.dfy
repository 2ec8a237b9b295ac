/** What becomes of the branded initialisms inside an identifier. */
module Initialisms {
  import opened Wrappers
  import opened ToolName

  predicate OccursAt(s: string, x: string, p: int) {
    0 <= p && p + |x| <= |s| && s[p..p + |x|] == x
  }

  predicate Covers(x: string, p: int, i: int) {
    p <= i < p + |x|
  }

  lemma OccursShifted(s: string, x: string, d: nat, p: int)
    requires d <= |s| && d <= p
    ensures OccursAt(s, x, p) <==> OccursAt(s[d..], x, p - d)
  {
    if p + |x| <= |s| { assert s[d..][p - d..p - d + |x|] == s[p..p + |x|]; }
  }

  // ----- one replacement -----

  /** The first character of the text does not come again. */
  predicate Borderless(x: string) {
    x != "" && forall j | 0 < j < |x| :: x[j] != x[0]
  }

  lemma NoOverlapWithSelf(s: string, x: string, p: int, q: int)
    requires Borderless(x) && OccursAt(s, x, p) && OccursAt(s, x, q) && p < q
    ensures p + |x| <= q
  {
    assert s[q..q + |x|][0] == s[q];
  }

  /** At `i`, `u` shows what becomes of `s` when each `from` becomes `to`. */
  ghost predicate ReplacedAt(s: string, u: string, from: string, to: string, i: nat)
    requires |to| == |from| && i < |s| == |u|
  {
    && (forall p | OccursAt(s, from, p) && Covers(from, p, i) :: u[i] == to[i - p])
    && ((forall p | OccursAt(s, from, p) :: !Covers(from, p, i)) ==> u[i] == s[i])
  }

  /** The occurrences past the first `d` characters are those of the rest. */
  ghost predicate Shifts(s: string, rest: string, from: string, d: nat) {
    && (forall p | OccursAt(s, from, p) && p >= d :: OccursAt(rest, from, p - d))
    && (forall p | OccursAt(rest, from, p) :: OccursAt(s, from, p + d))
  }

  lemma RestShifts(s: string, from: string, d: nat)
    requires d <= |s|
    ensures Shifts(s, s[d..], from, d)
  {
    forall p | p >= d ensures OccursAt(s, from, p) <==> OccursAt(s[d..], from, p - d) {
      OccursShifted(s, from, d, p);
    }
    forall p | OccursAt(s[d..], from, p) ensures OccursAt(s, from, p + d) {
      OccursShifted(s, from, d, p + d);
    }
    hide OccursAt;
  }

  /** A place past the front is as in the rest, if no occurrence reaches over. */
  lemma LaterPlace(s: string, u: string, rest: string, u': string, from: string, to: string, d: nat, i: nat)
    requires |to| == |from| && d <= i < |s| == |u| && |rest| == |u'| == |s| - d
    requires u[i] == u'[i - d] && s[i] == rest[i - d] && ReplacedAt(rest, u', from, to, i - d)
    requires Shifts(s, rest, from, d) && forall p | OccursAt(s, from, p) && p < d :: !Covers(from, p, i)
    ensures ReplacedAt(s, u, from, to, i)
  {
    hide OccursAt;
    if forall p | OccursAt(s, from, p) :: !Covers(from, p, i) {
      forall p | OccursAt(rest, from, p) ensures !Covers(from, p, i - d) { assert !Covers(from, p + d, i); }
    }
  }

  /** Where the text occurs it is replaced, and nothing else changes. */
  lemma {:induction false} ReplaceAt(s: string, from: string, to: string, i: nat)
    requires Borderless(from) && |to| == |from| && i < |s|
    ensures |Replace(s, from, to)| == |s| && ReplacedAt(s, Replace(s, from, to), from, to, i)
    decreases |s|
  {
    SameLength(s, from, to);
    if |s| >= |from| {
      if s[..|from|] == from {
        if i < |from| { FrontPlace(s, from, to, i); } else { ReplacedFront(s, from, to, i); }
      } else {
        KeptFront(s, from, to, i);
      }
    }
  }

  lemma {:induction false} SameLength(s: string, from: string, to: string)
    requires from != "" && |to| == |from|
    ensures |Replace(s, from, to)| == |s|
    decreases |s|
  {
    if |s| >= |from| {
      if s[..|from|] == from { SameLength(s[|from|..], from, to); } else { SameLength(s[1..], from, to); }
    }
  }

  lemma FrontPlace(s: string, from: string, to: string, i: nat)
    requires Borderless(from) && |to| == |from| && i < |from| <= |s| && s[..|from|] == from
    requires |Replace(s, from, to)| == |s|
    ensures ReplacedAt(s, Replace(s, from, to), from, to, i)
  {
    assert OccursAt(s, from, 0);
    forall p | OccursAt(s, from, p) && Covers(from, p, i) ensures p == 0 {
      if p > 0 { NoOverlapWithSelf(s, from, 0, p); }
    }
    assert Replace(s, from, to) == to + Replace(s[|from|..], from, to);
    hide Replace;
    hide OccursAt;
    assert Covers(from, 0, i);
  }

  lemma {:induction false} ReplacedFront(s: string, from: string, to: string, i: nat)
    requires Borderless(from) && |to| == |from| && |from| <= i < |s| && s[..|from|] == from
    requires |Replace(s, from, to)| == |s|
    ensures ReplacedAt(s, Replace(s, from, to), from, to, i)
    decreases |s|, 0
  {
    var n, rest := |from|, s[|from|..];
    ReplaceAt(rest, from, to, i - n);
    RestShifts(s, from, n);
    assert OccursAt(s, from, 0);
    forall p | OccursAt(s, from, p) && p < n ensures p == 0 {
      if p > 0 { NoOverlapWithSelf(s, from, 0, p); }
    }
    assert Replace(s, from, to) == to + Replace(rest, from, to);
    hide Replace;
    hide OccursAt;
    hide Shifts;
    hide ReplacedAt;
    LaterPlace(s, to + Replace(rest, from, to), rest, Replace(rest, from, to), from, to, n, i);
  }

  lemma {:induction false} KeptFront(s: string, from: string, to: string, i: nat)
    requires Borderless(from) && |to| == |from| && i < |s| && |s| >= |from| && s[..|from|] != from
    requires |Replace(s, from, to)| == |s|
    ensures ReplacedAt(s, Replace(s, from, to), from, to, i)
    decreases |s|, 0
  {
    var rest := s[1..];
    assert !OccursAt(s, from, 0);
    assert Replace(s, from, to) == [s[0]] + Replace(rest, from, to);
    if i > 0 {
      ReplaceAt(rest, from, to, i - 1);
      RestShifts(s, from, 1);
      forall p | OccursAt(s, from, p) ensures p >= 1 {
      }
      hide Replace;
      hide OccursAt;
      hide Shifts;
      hide ReplacedAt;
      LaterPlace(s, [s[0]] + Replace(rest, from, to), rest, Replace(rest, from, to), from, to, 1, i);
    } else {
      forall p | OccursAt(s, from, p) ensures p >= 1 {
      }
      hide Replace;
      hide OccursAt;
    }
  }

  // ----- the seven texts -----

  function Original(k: nat): string
    requires k < 7
  {
    INITIALISMS[k].original
  }

  function Normal(k: nat): string
    requires k < 7
  {
    INITIALISMS[k].normal
  }

  lemma TheSeven(k: nat)
    requires k < 7
    ensures |INITIALISMS| == 7 && Borderless(Original(k)) && |Normal(k)| == |Original(k)|
    ensures |Original(k)| >= 3
  {
  }

  /** What a replacement makes lower-case occurs in no text looked for after it. */
  lemma ChangedIsForeign(l: nat, k: nat, m: nat)
    requires l < k < 7 && m < |Original(l)| && |Normal(l)| == |Original(l)|
    ensures Original(l)[m] != Normal(l)[m] ==>
              forall j | 0 <= j < |Original(k)| :: Original(k)[j] != Normal(l)[m]
  {
  }

  /** Only `WIFI` can end in the first letter of another: of `IoT` or `IOT`. */
  lemma OverlapOnly(k: nat, l: nat, d: nat)
    requires k < 7 && l < 7 && d < |Original(k)| && |Original(l)| >= 3 && !(k == l && d == 0)
    requires Original(l)[0] == Original(k)[d]
    requires d + 1 < |Original(k)| ==> Original(l)[1] == Original(k)[d + 1]
    requires d + 2 < |Original(k)| ==> Original(l)[2] == Original(k)[d + 2]
    ensures k == 3 && d == 3 && l in {4, 5}
  {
  }

  lemma CharAt(s: string, x: string, p: int, j: nat)
    requires OccursAt(s, x, p) && j < |x|
    ensures s[p + j] == x[j]
  {
    assert s[p..p + |x|][j] == s[p + j];
  }

  lemma OverlapAt(s: string, k: nat, p: int, l: nat, q: int)
    requires k < 7 && l < 7 && OccursAt(s, Original(k), p) && OccursAt(s, Original(l), q)
    requires Covers(Original(k), p, q) && !(k == l && p == q)
    ensures k == 3 && q == p + 3 && l in {4, 5}
  {
    TheSeven(k);
    TheSeven(l);
    var d := q - p;
    CharAt(s, Original(k), p, d);
    CharAt(s, Original(l), q, 0);
    CharAt(s, Original(l), q, 1);
    CharAt(s, Original(l), q, 2);
    if d + 1 < |Original(k)| { CharAt(s, Original(k), p, d + 1); }
    if d + 2 < |Original(k)| { CharAt(s, Original(k), p, d + 2); }
    hide Original;
    OverlapOnly(k, l, d);
  }

  // ----- all seven, in turn -----

  /** An `IoT` or `IOT` whose first letter is the last of a `WIFI`. */
  predicate Shadowed(s: string, l: nat, p: int)
    requires l < 7
  {
    l in {4, 5} && OccursAt(s, Original(3), p - 3)
  }

  /** One of the first `n` texts covers the place, which shows what that text becomes. */
  ghost predicate ChangedAt(s: string, t: string, n: nat, i: nat)
    requires n <= 7 && i < |s| == |t|
  {
    exists l: nat, p: int ::
      l < n && OccursAt(s, Original(l), p) && Covers(Original(l), p, i)
      && |Normal(l)| == |Original(l)| && t[i] == Normal(l)[i - p]
  }

  /** `t` is `s` after the first `n` replacements. */
  ghost predicate After(s: string, t: string, n: nat)
    requires n <= 7
  {
    && |t| == |s|
    && (forall i: nat | i < |s| && t[i] != s[i] :: ChangedAt(s, t, n, i))
    && (forall l: nat, p: int | l < n && OccursAt(s, Original(l), p) && !Shadowed(s, l, p) ::
          OccursAt(t, Normal(l), p))
  }

  lemma ChangedFrom(s: string, t: string, n: nat, i: nat) returns (l: nat, p: int)
    requires n <= 7 && After(s, t, n) && i < |s| && t[i] != s[i]
    ensures l < n && OccursAt(s, Original(l), p) && Covers(Original(l), p, i)
    ensures |Normal(l)| == |Original(l)| && t[i] == Normal(l)[i - p] && Original(l)[i - p] == s[i]
  {
    assert ChangedAt(s, t, n, i);
    l, p :| l < n && OccursAt(s, Original(l), p) && Covers(Original(l), p, i)
            && |Normal(l)| == |Original(l)| && t[i] == Normal(l)[i - p];
    CharAt(s, Original(l), p, i - p);
  }

  /** The next text occurs only where it occurred at first. */
  lemma OccurredBefore(s: string, t: string, n: nat, q: int)
    requires n < 7 && After(s, t, n) && OccursAt(t, Original(n), q)
    ensures OccursAt(s, Original(n), q)
  {
    var x := Original(n);
    forall j | 0 <= j < |x| ensures s[q + j] == x[j] {
      CharAt(t, x, q, j);
      NotChanged(s, t, n, q + j, j);
    }
    hide *;
    SliceIs(s, x, q);
  }

  lemma SliceIs(s: string, x: string, q: int)
    requires 0 <= q && q + |x| <= |s| && forall j | 0 <= j < |x| :: s[q + j] == x[j]
    ensures OccursAt(s, x, q)
  {
    assert s[q..q + |x|] == x;
  }

  lemma NotChanged(s: string, t: string, n: nat, i: nat, j: nat)
    requires n < 7 && After(s, t, n) && i < |s| && j < |Original(n)| && t[i] == Original(n)[j]
    ensures s[i] == t[i]
  {
    hide *;
    SameSize(s, t, n);
    if t[i] != s[i] {
      var l, p := ChangedFrom(s, t, n, i);
      CoversWithin(Original(l), p, i);
      ChangedIsForeign(l, n, i - p);
    }
  }

  lemma CoversWithin(x: string, p: int, i: int)
    requires Covers(x, p, i)
    ensures 0 <= i - p < |x|
  {
  }

  lemma SameSize(s: string, t: string, n: nat)
    requires n <= 7 && After(s, t, n)
    ensures |t| == |s|
  {
    hide ChangedAt;
  }

  /** And there it still occurs, unless a replacement has taken its first letter. */
  lemma OccursStill(s: string, t: string, n: nat, q: int)
    requires n < 7 && After(s, t, n) && OccursAt(s, Original(n), q) && !Shadowed(s, n, q)
    ensures OccursAt(t, Original(n), q)
  {
    var x := Original(n);
    forall j | 0 <= j < |x| ensures t[q + j] == x[j] {
      CharAt(s, x, q, j);
      if t[q + j] != s[q + j] {
        var l, p := ChangedFrom(s, t, n, q + j);
        if p <= q { OverlapAt(s, l, p, n, q); } else { OverlapAt(s, n, q, l, p); }
        assert false;
      }
    }
    hide After;
    assert t[q..q + |x|] == x;
  }

  /** What an earlier replacement left is not touched again. */
  lemma StaysNormal(s: string, t: string, n: nat, l: nat, p: int, q: int)
    requires n < 7 && l < n && After(s, t, n)
    requires OccursAt(s, Original(l), p) && !Shadowed(s, l, p) && OccursAt(t, Original(n), q)
    ensures q + |Original(n)| <= p || p + |Original(l)| <= q
  {
    OccurredBefore(s, t, n, q);
    TheSeven(l);
    assert OccursAt(t, Normal(l), p);
    if p <= q < p + |Original(l)| {
      OverlapAt(s, l, p, n, q);
      CharAt(t, Normal(l), p, 3);
      TheSeven(n);
      CharAt(t, Original(n), q, 0);
      assert false;
    }
    if q < p < q + |Original(n)| {
      OverlapAt(s, n, q, l, p);
      assert false;
    }
  }

  lemma ReplacedNext(s: string, t: string, n: nat)
    requires n < 7 && After(s, t, n) && Original(n) != ""
    ensures After(s, Replace(t, Original(n), Normal(n)), n + 1)
  {
    var u := Replace(t, Original(n), Normal(n));
    TheSeven(n);
    SameLength(t, Original(n), Normal(n));
    forall i: nat | i < |s| && u[i] != s[i] ensures ChangedAt(s, u, n + 1, i) {
      NextChanges(s, t, u, n, i);
    }
    forall l: nat, p: int | l < n + 1 && OccursAt(s, Original(l), p) && !Shadowed(s, l, p)
      ensures OccursAt(u, Normal(l), p)
    {
      if l == n { NextReplaces(s, t, u, n, p); } else { NextKeeps(s, t, u, n, l, p); }
    }
    hide Original;
    hide Normal;
    hide Replace;
  }

  lemma NextChanges(s: string, t: string, u: string, n: nat, i: nat)
    requires n < 7 && After(s, t, n) && Original(n) != "" && u == Replace(t, Original(n), Normal(n))
    requires |u| == |s| && i < |s| && u[i] != s[i]
    ensures ChangedAt(s, u, n + 1, i)
  {
    TheSeven(n);
    ReplaceAt(t, Original(n), Normal(n), i);
    hide Replace;
    if u[i] == t[i] {
      var l, p := ChangedFrom(s, t, n, i);
    } else {
      var q :| OccursAt(t, Original(n), q) && Covers(Original(n), q, i);
      OccurredBefore(s, t, n, q);
    }
    hide After;
  }

  lemma NextReplaces(s: string, t: string, u: string, n: nat, p: int)
    requires n < 7 && After(s, t, n) && Original(n) != "" && u == Replace(t, Original(n), Normal(n)) && |u| == |s|
    requires OccursAt(s, Original(n), p) && !Shadowed(s, n, p)
    ensures OccursAt(u, Normal(n), p)
  {
    hide *;
    TheSeven(n);
    SameSize(s, t, n);
    OccursStill(s, t, n, p);
    InRange(t, Original(n), p);
    forall j | 0 <= j < |Normal(n)| ensures u[p + j] == Normal(n)[j] {
      ReplaceAt(t, Original(n), Normal(n), p + j);
      ReplacedThere(t, u, Original(n), Normal(n), p, j);
    }
    SliceIs(u, Normal(n), p);
  }

  lemma InRange(s: string, x: string, p: int)
    requires OccursAt(s, x, p)
    ensures 0 <= p && p + |x| <= |s|
  {
  }

  lemma ReplacedThere(t: string, u: string, from: string, to: string, p: nat, j: nat)
    requires |to| == |from| && j < |to| && p + j < |t| == |u| && ReplacedAt(t, u, from, to, p + j)
    requires OccursAt(t, from, p)
    ensures u[p + j] == to[j]
  {
    assert Covers(from, p, p + j);
    hide OccursAt;
  }

  lemma KeptThere(t: string, u: string, from: string, to: string, i: nat)
    requires |to| == |from| && i < |t| == |u| && ReplacedAt(t, u, from, to, i)
    requires forall p | OccursAt(t, from, p) :: p + |from| <= i || i < p
    ensures u[i] == t[i]
  {
    hide OccursAt;
  }

  lemma NextKeeps(s: string, t: string, u: string, n: nat, l: nat, p: int)
    requires n < 7 && l < n && After(s, t, n) && Original(n) != "" && u == Replace(t, Original(n), Normal(n))
    requires |u| == |s| && OccursAt(s, Original(l), p) && !Shadowed(s, l, p)
    ensures OccursAt(u, Normal(l), p)
  {
    StillNormal(s, t, n, l, p);
    hide *;
    TheSeven(n);
    TheSeven(l);
    SameSize(s, t, n);
    InRange(t, Normal(l), p);
    forall q | OccursAt(t, Original(n), q) ensures q + |Original(n)| <= p || p + |Normal(l)| <= q {
      StaysNormal(s, t, n, l, p, q);
    }
    forall j | 0 <= j < |Normal(l)| ensures u[p + j] == Normal(l)[j] {
      KeptChar(t, u, Original(n), Normal(n), Normal(l), p, j);
    }
    SliceIs(u, Normal(l), p);
  }

  lemma KeptChar(t: string, u: string, from: string, to: string, kept: string, p: nat, j: nat)
    requires Borderless(from) && |to| == |from| && u == Replace(t, from, to) && |u| == |t|
    requires OccursAt(t, kept, p) && j < |kept| && p + |kept| <= |t|
    requires forall q | OccursAt(t, from, q) :: q + |from| <= p || p + |kept| <= q
    ensures u[p + j] == kept[j]
  {
    hide *;
    ReplaceAt(t, from, to, p + j);
    CharAt(t, kept, p, j);
    KeptThere(t, u, from, to, p + j);
  }

  lemma StillNormal(s: string, t: string, n: nat, l: nat, p: int)
    requires n < 7 && l < n && After(s, t, n) && OccursAt(s, Original(l), p) && !Shadowed(s, l, p)
    ensures OccursAt(t, Normal(l), p)
  {
  }

  lemma AllReplaced(id: string)
    ensures After(id, Normalised(id), 7)
  {
    var t := id;
    assert INITIALISMS[0..] == INITIALISMS;
    TheSeven(0);
    for n := 0 to 7
      invariant After(id, t, n) && ReplaceAll(t, INITIALISMS[n..]) == Normalised(id)
    {
      hide After;
      hide ReplaceAll;
      hide Normalised;
      hide Replace;
      TheSeven(n);
      ReplacedOnce(t, n);
      ReplacedNext(id, t, n);
      t := Replace(t, Original(n), Normal(n));
    }
    ReplacedAll(t);
  }

  // ----- what that comes to -----

  /** Wherever one of the seven stands in an identifier it becomes its one-word form, except for an `IoT`
      or `IOT` whose first letter a `WIFI` ends in. */
  lemma InitialismsBecomeWords(id: string, o: string, n: string, p: int)
    requires (o, n) in {("OAuth2", "Oauth2"), ("OAUTH2", "Oauth2"), ("WiFi", "Wifi"), ("WIFI", "Wifi"),
                        ("IoT", "Iot"), ("IOT", "Iot"), ("AOSCX", "Aoscx")}
    requires OccursAt(id, o, p)
    ensures OccursAt(Normalised(id), n, p) <==> !(o in {"IoT", "IOT"} && OccursAt(id, "WIFI", p - 3))
  {
    AllReplaced(id);
    var l := Index(o, n);
    hide Normalised;
    if o in {"IoT", "IOT"} && OccursAt(id, "WIFI", p - 3) {
      assert !Shadowed(id, 3, p - 3) && OccursAt(Normalised(id), "Wifi", p - 3);
      CharAt(Normalised(id), "Wifi", p - 3, 3);
      if OccursAt(Normalised(id), n, p) { CharAt(Normalised(id), n, p, 0); }
    } else {
      assert !Shadowed(id, l, p);
    }
  }

  lemma Index(o: string, n: string) returns (l: nat)
    requires (o, n) in {("OAuth2", "Oauth2"), ("OAUTH2", "Oauth2"), ("WiFi", "Wifi"), ("WIFI", "Wifi"),
                        ("IoT", "Iot"), ("IOT", "Iot"), ("AOSCX", "Aoscx")}
    ensures l < 7 && Original(l) == o && Normal(l) == n
    ensures Original(3) == "WIFI" && Normal(3) == "Wifi" && (o in {"IoT", "IOT"} <==> l in {4, 5})
  {
    l := if o == "OAuth2" then 0 else if o == "OAUTH2" then 1 else if o == "WiFi" then 2 else if o == "WIFI" then 3
         else if o == "IoT" then 4 else if o == "IOT" then 5 else 6;
  }

  /** Nothing else changes. */
  lemma OnlyInitialismsChange(id: string, i: nat)
    requires i < |id|
    ensures |Normalised(id)| == |id|
    ensures Normalised(id)[i] != id[i] ==>
              exists o: string, p: int ::
                && o in {"OAuth2", "OAUTH2", "WiFi", "WIFI", "IoT", "IOT", "AOSCX"}
                && OccursAt(id, o, p) && p <= i < p + |o|
  {
    AllReplaced(id);
    hide Normalised;
    if Normalised(id)[i] != id[i] {
      var l, p := ChangedFrom(id, Normalised(id), 7, i);
      OriginalsAre(l);
      assert OccursAt(id, Original(l), p);
    }
  }

  lemma OriginalsAre(l: nat)
    requires l < 7
    ensures Original(l) in {"OAuth2", "OAUTH2", "WiFi", "WIFI", "IoT", "IOT", "AOSCX"}
  {
  }
}
