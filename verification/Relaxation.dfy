/** The response-schema relaxation: a rewrite of a JSON tree that looks at keys, not at roles. */
module Relaxation {
  import opened Wrappers
  import opened JsonValues

  type Members = map<string, Json>

  const ADDITIONAL := "additionalProperties"
  const ANY_OF := "anyOf"
  const ENUM := "enum"
  const ONE_OF := "oneOf"
  const REQUIRED := "required"
  const TYPE := "type"

  // ----- the steps the walker takes on one object -----

  function Dropped(members: Members): Members {
    var kept := members - {ENUM, REQUIRED};
    if ADDITIONAL in kept && kept[ADDITIONAL] == Bool(false) then kept - {ADDITIONAL} else kept
  }

  function OneOfRenamed(members: Members): Members {
    if ONE_OF in members then (members - {ONE_OF})[ANY_OF := members[ONE_OF]] else members
  }

  function NullAdmitted(declared: Json): Json {
    match declared
    case Str(name) => if name != "null" then Arr([declared, Str("null")]) else declared
    case Arr(names) => if Str("null") in names then declared else Arr(names + [Str("null")])
    case _ => declared
  }

  function NumberAdmitted(declared: Json): Json {
    match declared
    case Str(name) => if name == "integer" then Arr([Str("integer"), Str("number")]) else declared
    case Arr(names) =>
      if Str("integer") in names && Str("number") !in names then Arr(names + [Str("number")]) else declared
    case _ => declared
  }

  function Widened(declared: Json): Json {
    NumberAdmitted(NullAdmitted(declared))
  }

  function TypeWidened(members: Members): Members {
    if TYPE in members then members[TYPE := Widened(members[TYPE])] else members
  }

  function Rewritten(members: Members): Members {
    TypeWidened(OneOfRenamed(Dropped(members)))
  }

  /** The whole rewrite, bottom up: children first, then the object that holds them. */
  function Relaxed(value: Json): Json
    decreases value, 1
  {
    match value
    case Obj(members) => Obj(Rewritten(RelaxedMembers(members)))
    case Arr(items) => Arr(seq(|items|, i requires 0 <= i < |items| => Relaxed(items[i])))
    case _ => value
  }

  function RelaxedMembers(members: Members): Members
    decreases Obj(members), 0
  {
    map k | k in members :: Relaxed(members[k])
  }

  // ----- the walker itself: top down, editing the object before it descends -----

  /** A bound on nesting that leaves room for the array a widened `type` becomes. */
  ghost predicate HeightAtMost(value: Json, height: nat) {
    match value
    case Obj(members) => height >= 2 && forall k | k in members :: HeightAtMost(members[k], height - 2)
    case Arr(items) => height >= 1 && forall v | v in items :: HeightAtMost(v, height - 1)
    case _ => true
  }

  lemma {:induction false} HeightMonotone(value: Json, low: nat, high: nat)
    requires HeightAtMost(value, low) && low <= high
    ensures HeightAtMost(value, high)
  {
    match value
    case Obj(members) => forall k | k in members { HeightMonotone(members[k], low - 2, high - 2); }
    case Arr(items) => forall v | v in items { HeightMonotone(v, low - 1, high - 1); }
    case _ =>
  }

  lemma {:induction false} HeightExists(value: Json) returns (height: nat)
    ensures HeightAtMost(value, height)
  {
    match value
    case Obj(members) =>
      var keys, bound: nat := members.Keys, 0;
      while keys != {}
        invariant keys <= members.Keys
        invariant forall k | k in members && k !in keys :: HeightAtMost(members[k], bound)
        decreases keys
      {
        var key :| key in keys;
        var next := HeightExists(members[key]);
        var raised := bound + next;
        forall k | k in members && k !in keys { HeightMonotone(members[k], bound, raised); }
        HeightMonotone(members[key], next, raised);
        keys, bound := keys - {key}, raised;
      }
      height := bound + 2;
    case Arr(items) =>
      var i, bound: nat := 0, 0;
      while i < |items|
        invariant 0 <= i <= |items|
        invariant forall v | v in items[..i] :: HeightAtMost(v, bound)
      {
        var next := HeightExists(items[i]);
        var raised := bound + next;
        forall v | v in items[..i] { HeightMonotone(v, bound, raised); }
        HeightMonotone(items[i], next, raised);
        assert items[..i + 1] == items[..i] + [items[i]];
        i, bound := i + 1, raised;
      }
      assert items[..|items|] == items;
      height := bound + 1;
    case _ =>
      height := 0;
  }

  method WidenTypeToAdmitNull(members: Members) returns (widened: Members)
    ensures widened == if TYPE in members then members[TYPE := NullAdmitted(members[TYPE])] else members
  {
    widened := members;
    if TYPE !in members { return; }
    match members[TYPE]
    case Str(name) =>
      if name != "null" { widened := widened[TYPE := Arr([Str(name), Str("null")])]; }
    case Arr(names) =>
      if Str("null") !in names { widened := widened[TYPE := Arr(names + [Str("null")])]; }
    case _ =>
  }

  method WidenIntegerToAdmitNumber(members: Members) returns (widened: Members)
    ensures widened == if TYPE in members then members[TYPE := NumberAdmitted(members[TYPE])] else members
  {
    widened := members;
    if TYPE !in members { return; }
    match members[TYPE]
    case Str(name) =>
      if name == "integer" { widened := widened[TYPE := Arr([Str("integer"), Str("number")])]; }
    case Arr(names) =>
      if Str("integer") in names && Str("number") !in names {
        widened := widened[TYPE := Arr(names + [Str("number")])];
      }
    case _ =>
  }

  /** The edits of one object, in the walker's order. */
  method EditObject(declared: Members) returns (members: Members)
    ensures members == Rewritten(declared)
  {
    members := declared - {ENUM};
    members := members - {REQUIRED};
    if ADDITIONAL in members && members[ADDITIONAL] == Bool(false) {
      members := members - {ADDITIONAL};
    }
    assert members == Dropped(declared);
    if ONE_OF in members {
      var oneOf := members[ONE_OF];
      members := members - {ONE_OF};
      members := members[ANY_OF := oneOf];
    }
    ghost var renamed := OneOfRenamed(Dropped(declared));
    assert members == renamed;
    members := WidenTypeToAdmitNull(members);
    members := WidenIntegerToAdmitNumber(members);
    assert members == TypeWidened(renamed);
  }

  method RelaxForResponses(value: Json, ghost height: nat) returns (relaxed: Json)
    requires HeightAtMost(value, height)
    ensures relaxed == Relaxed(value)
    decreases height, 0
  {
    match value
    case Obj(declared) =>
      var members := EditObject(declared);
      RewrittenHeight(declared, height);
      members := RelaxMembers(members, height - 1);
      RewriteCommutes(declared);
      relaxed := Obj(members);
    case Arr(items) =>
      var done: seq<Json> := [];
      while |done| < |items|
        invariant |done| <= |items|
        invariant forall i :: 0 <= i < |done| ==> done[i] == Relaxed(items[i])
      {
        assert items[|done|] in items;
        var item := RelaxForResponses(items[|done|], height - 1);
        done := done + [item];
      }
      assert done == Relaxed(value).items;
      relaxed := Arr(done);
    case _ =>
      relaxed := value;
  }

  /** The walker's loop over the values of an edited object. */
  method RelaxMembers(edited: Members, ghost height: nat) returns (members: Members)
    requires forall k | k in edited :: HeightAtMost(edited[k], height)
    ensures members == RelaxedMembers(edited)
    decreases height, 1
  {
    members := edited;
    var pending := members.Keys;
    while pending != {}
      invariant pending <= edited.Keys && members.Keys == edited.Keys
      invariant forall k | k in edited :: members[k] == if k in pending then edited[k] else Relaxed(edited[k])
      decreases pending
    {
      var key :| key in pending;
      var nested := RelaxForResponses(members[key], height);
      members := members[key := nested];
      pending := pending - {key};
    }
  }

  lemma RewrittenHeight(declared: Members, height: nat)
    requires height >= 2 && forall k | k in declared :: HeightAtMost(declared[k], height - 2)
    ensures forall k | k in Rewritten(declared) :: HeightAtMost(Rewritten(declared)[k], height - 1)
  {
    forall k | k in declared ensures HeightAtMost(declared[k], height - 1) {
      HeightMonotone(declared[k], height - 2, height - 1);
    }
    var renamed := OneOfRenamed(Dropped(declared));
    assert forall k | k in renamed :: HeightAtMost(renamed[k], height - 1);
    if TYPE in renamed { WidenedHeight(renamed[TYPE], height - 1); }
  }

  lemma WidenedHeight(declared: Json, height: nat)
    requires height >= 1 && HeightAtMost(declared, height)
    ensures HeightAtMost(Widened(declared), height)
  {
  }

  /** Descending after the edit gives what editing after the descent gives. */
  lemma RewriteCommutes(declared: Members)
    ensures RelaxedMembers(Rewritten(declared)) == Rewritten(RelaxedMembers(declared))
  {
    var nested := RelaxedMembers(declared);
    assert ADDITIONAL in declared ==> nested[ADDITIONAL] == Relaxed(declared[ADDITIONAL]);
    var left := OneOfRenamed(Dropped(declared));
    var right := OneOfRenamed(Dropped(nested));
    assert left.Keys == right.Keys;
    assert forall k | k in left :: right[k] == Relaxed(left[k]);
    if TYPE in left { WidenCommutes(left[TYPE]); }
    var ours, theirs := RelaxedMembers(Rewritten(declared)), Rewritten(nested);
    assert ours.Keys == left.Keys == theirs.Keys;
    forall k | k in left ensures ours[k] == theirs[k] {
      assert ours[k] == Relaxed(if k == TYPE then Widened(left[k]) else left[k]);
    }
    assert ours == theirs;
  }

  lemma WidenCommutes(declared: Json)
    ensures Relaxed(Widened(declared)) == Widened(Relaxed(declared))
  {
    match declared
    case Arr(names) =>
      var inner := Relaxed(declared).items;
      RelaxedKeepsNames(names, "null");
      RelaxedKeepsNames(names, "integer");
      RelaxedKeepsNames(names, "number");
      var afterNull := if Str("null") in names then names else names + [Str("null")];
      assert NullAdmitted(declared) == Arr(afterNull);
      assert Relaxed(Arr(afterNull)).items == (if Str("null") in names then inner else inner + [Str("null")]);
      assert Str("integer") in afterNull <==> Str("integer") in names;
      assert Str("number") in afterNull <==> Str("number") in names;
      if Str("integer") in names && Str("number") !in names {
        assert Relaxed(Arr(afterNull + [Str("number")])).items == Relaxed(Arr(afterNull)).items + [Str("number")];
      }
    case Str(name) =>
      assert Relaxed(Widened(declared)) == Widened(declared) by {
        if Widened(declared).Arr? {
          RelaxedFixesNames(Widened(declared).items);
        }
      }
    case _ =>
  }

  lemma RelaxedKeepsNames(names: seq<Json>, name: string)
    ensures Str(name) in Relaxed(Arr(names)).items <==> Str(name) in names
  {
    var inner := Relaxed(Arr(names)).items;
    forall i | 0 <= i < |names| ensures inner[i] == Str(name) <==> names[i] == Str(name) {
      assert inner[i] == Relaxed(names[i]);
      match names[i] case Obj(_) => case Arr(_) => case _ =>
    }
  }

  lemma RelaxedFixesNames(names: seq<Json>)
    requires forall v | v in names :: v.Str?
    ensures Relaxed(Arr(names)) == Arr(names)
  {
    assert Relaxed(Arr(names)).items == names;
  }

  // ----- idempotence -----

  /** Relaxing twice is relaxing once, on every JSON value. */
  lemma {:induction false} RelaxIdempotent(value: Json)
    ensures Relaxed(Relaxed(value)) == Relaxed(value)
  {
    match value
    case Obj(members) =>
      var nested := RelaxedMembers(members);
      forall k | k in members ensures Relaxed(nested[k]) == nested[k] { RelaxIdempotent(members[k]); }
      FixedMembersStayFixed(nested);
    case Arr(items) =>
      forall i | 0 <= i < |items| { RelaxIdempotent(items[i]); }
      assert Relaxed(Relaxed(value)).items == Relaxed(value).items;
    case _ =>
  }

  lemma FixedMembersStayFixed(members: Members)
    requires forall k | k in members :: Relaxed(members[k]) == members[k]
    ensures Relaxed(Obj(Rewritten(members))) == Obj(Rewritten(members))
  {
    RewriteCommutes(members);
    assert RelaxedMembers(members) == members;
    RewriteIdempotent(members);
  }

  lemma RewriteIdempotent(members: Members)
    ensures Rewritten(Rewritten(members)) == Rewritten(members)
  {
    var once := Rewritten(members);
    assert OneOfRenamed(Dropped(once)) == once;
    if TYPE in once {
      WidenIdempotent(OneOfRenamed(Dropped(members))[TYPE]);
    }
    assert Rewritten(once) == once;
  }

  lemma WidenIdempotent(declared: Json)
    ensures Widened(Widened(declared)) == Widened(declared)
  {
  }

  // ----- what is left of a schema -----

  /** Does a declared `type` name this type? */
  predicate NamesType(declared: Json, name: string) {
    declared == Str(name) || (declared.Arr? && Str(name) in declared.items)
  }

  /** What becomes of each member of an object: three go, a closed `additionalProperties` goes, `oneOf`
      takes the place of `anyOf`, and everything else stays, relaxed. */
  lemma RelaxedExactly(members: Members, k: string)
    requires k !in {"enum", "required", "oneOf", "anyOf", "additionalProperties", "type"}
    ensures Relaxed(Obj(members)).Obj?
    ensures
      var relaxed := Relaxed(Obj(members)).members;
      && "enum" !in relaxed && "required" !in relaxed && "oneOf" !in relaxed
      && (k in relaxed <==> k in members)
      && (k in members ==> relaxed[k] == Relaxed(members[k]))
      && ("additionalProperties" in relaxed <==>
            "additionalProperties" in members && members["additionalProperties"] != Bool(false))
      && ("additionalProperties" in relaxed ==>
            relaxed["additionalProperties"] == Relaxed(members["additionalProperties"]))
      && ("anyOf" in relaxed <==> "anyOf" in members || "oneOf" in members)
      && ("oneOf" in members ==> relaxed["anyOf"] == Relaxed(members["oneOf"]))
      && ("anyOf" in members && "oneOf" !in members ==> relaxed["anyOf"] == Relaxed(members["anyOf"]))
      && ("type" in relaxed <==> "type" in members)
  {
    var nested := RelaxedMembers(members);
    assert ADDITIONAL in members ==> nested[ADDITIONAL] == Relaxed(members[ADDITIONAL]);
  }

  /** Arrays are relaxed item by item, and every other value stays. */
  lemma RelaxedElsewhere(value: Json)
    requires !value.Obj?
    ensures value.Arr? ==>
              && Relaxed(value).Arr? && |Relaxed(value).items| == |value.items|
              && forall i | 0 <= i < |value.items| :: Relaxed(value).items[i] == Relaxed(value.items[i])
    ensures !value.Arr? ==> Relaxed(value) == value
  {
  }

  /** The types a relaxed schema names: those declared, null, and numbers beside integers. */
  lemma RelaxedTypeExactly(members: Members, name: string)
    requires "type" in members
    ensures Relaxed(Obj(members)).Obj? && "type" in Relaxed(Obj(members)).members
    ensures
      var declared, relaxed := members["type"], Relaxed(Obj(members)).members["type"];
      if declared.Str? || declared.Arr? then
        NamesType(relaxed, name) <==>
        NamesType(declared, name) || name == "null" || (name == "number" && NamesType(declared, "integer"))
      else relaxed == Relaxed(declared)
  {
    RelaxedExactly(members, "title");
    assert Relaxed(Obj(members)).members["type"] == Widened(Relaxed(members["type"]));
    var declared := members["type"];
    if declared.Arr? {
      RelaxedKeepsNames(declared.items, name);
      RelaxedKeepsNames(declared.items, "null");
      RelaxedKeepsNames(declared.items, "integer");
      RelaxedKeepsNames(declared.items, "number");
      WidenedNames(Relaxed(declared), name);
    } else if declared.Str? {
      WidenedNames(declared, name);
    }
  }

  lemma WidenedNames(declared: Json, name: string)
    requires declared.Str? || declared.Arr?
    ensures NamesType(Widened(declared), name) <==>
            NamesType(declared, name) || name == "null" || (name == "number" && NamesType(declared, "integer"))
  {
  }

  /** The parts of what the rewrite leaves alone are left alone as well. */
  lemma FixedParts(value: Json)
    requires Relaxed(value) == value
    ensures value.Arr? ==> forall i | 0 <= i < |value.items| :: Relaxed(value.items[i]) == value.items[i]
    ensures value.Obj? ==> forall k | k in value.members :: Relaxed(value.members[k]) == value.members[k]
  {
    match value
    case Obj(members) =>
      forall k | k in members ensures Relaxed(members[k]) == members[k] {
        if k in {"anyOf", "additionalProperties"} {
          RelaxedExactly(members, "title");
        } else if k == "type" {
          assert members["type"] == Widened(Relaxed(members["type"]));
          WidenCommutes(members["type"]);
          RelaxIdempotent(Widened(members["type"]));
        } else {
          RelaxedExactly(members, "title");
          RelaxedExactly(members, k);
        }
      }
    case Arr(items) => assert forall i | 0 <= i < |items| :: Relaxed(value).items[i] == Relaxed(items[i]);
    case _ =>
  }

  lemma {:induction false} FixedWithin(value: Json, path: Path)
    requires Relaxed(value) == value && Lookup(value, path).Some?
    ensures Relaxed(Lookup(value, path).value) == Lookup(value, path).value
    decreases |path|
  {
    if path != [] {
      FixedParts(value);
      match (value, path[0])
      case (Obj(members), Member(name)) => FixedWithin(members[name], path[1..]);
      case (Arr(items), Slot(index)) => FixedWithin(items[index], path[1..]);
    }
  }

  /** Nowhere in a relaxed document does an object hold `enum`, `required` or `oneOf`, or close itself
      to further members. */
  lemma RelaxedHasNone(value: Json, path: Path)
    ensures Lookup(Relaxed(value), path + [Member("enum")]) == None
    ensures Lookup(Relaxed(value), path + [Member("required")]) == None
    ensures Lookup(Relaxed(value), path + [Member("oneOf")]) == None
    ensures Lookup(Relaxed(value), path + [Member("additionalProperties")]) != Some(Bool(false))
  {
    forall name ensures MemberAt(Relaxed(value), path, name) == Lookup(Relaxed(value), path + [Member(name)]) {
      MemberAtIsLookup(Relaxed(value), path, name);
    }
    RelaxIdempotent(value);
    var found := Lookup(Relaxed(value), path);
    if found.Some? {
      FixedWithin(Relaxed(value), path);
      if found.value.Obj? { RelaxedExactly(found.value.members, "title"); }
    }
    hide Relaxed;
    hide Lookup;
  }

  /** The document with every `enum`, `required` and closed `additionalProperties` taken out. */
  function Unpinned(value: Json): Json {
    match value
    case Obj(members) =>
      Obj(map k | k in members && k != "enum" && k != "required"
                  && !(k == "additionalProperties" && members[k] == Bool(false)) :: Unpinned(members[k]))
    case Arr(items) => Arr(seq(|items|, i requires 0 <= i < |items| => Unpinned(items[i])))
    case _ => value
  }

  /** What a document declares there leaves no trace in the relaxed one. */
  lemma {:induction false} RelaxedIgnoresPins(value: Json)
    ensures Relaxed(Unpinned(value)) == Relaxed(value)
  {
    match value
    case Obj(members) =>
      forall k | k in members ensures Relaxed(Unpinned(members[k])) == Relaxed(members[k]) {
        RelaxedIgnoresPins(members[k]);
      }
      PinsDropped(members);
    case Arr(items) =>
      forall i | 0 <= i < |items| { RelaxedIgnoresPins(items[i]); }
      assert Relaxed(Unpinned(value)).items == Relaxed(value).items;
    case _ =>
  }

  lemma PinsDropped(members: Members)
    requires forall k | k in members :: Relaxed(Unpinned(members[k])) == Relaxed(members[k])
    ensures Relaxed(Unpinned(Obj(members))) == Relaxed(Obj(members))
  {
    var left, right := RelaxedMembers(Unpinned(Obj(members)).members), RelaxedMembers(members);
    assert ADDITIONAL in members ==> (right[ADDITIONAL] == Bool(false) <==> members[ADDITIONAL] == Bool(false));
    assert left.Keys == right.Keys - {ENUM, REQUIRED} -
                        (if ADDITIONAL in right && right[ADDITIONAL] == Bool(false) then {ADDITIONAL} else {});
    assert forall k | k in left :: left[k] == right[k];
    DroppedAlike(left, right);
    hide Dropped;
  }

  lemma DroppedAlike(left: Members, right: Members)
    requires left.Keys == right.Keys - {ENUM, REQUIRED} -
                          (if ADDITIONAL in right && right[ADDITIONAL] == Bool(false) then {ADDITIONAL} else {})
    requires forall k | k in left :: left[k] == right[k]
    ensures Dropped(left) == Dropped(right)
  {
  }
}
