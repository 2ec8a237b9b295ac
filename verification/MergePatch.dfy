/** The merge patch that builds a write body, and the two walks that guard it. */
module MergePatch {
  import opened Wrappers
  import opened JsonValues

  /** The members of an object; anything else contributes none. */
  function Members(v: Json): map<string, Json> {
    if v.Obj? then v.members else map[]
  }

  /** What the merge computes: patch members win, `null` deletes, and a key that
      `before` lacks receives the patch value exactly as written. */
  function Merged(before: Json, patch: Json): Json
    decreases patch
  {
    if !patch.Obj? then patch
    else
      var base := Members(before);
      Obj(map k | k in base.Keys + patch.members.Keys && !Deletes(patch, k) ::
            if k !in patch.members then base[k]
            else if k in base then Merged(base[k], patch.members[k])
            else patch.members[k])
  }

  predicate Deletes(patch: Json, k: string) {
    patch.Obj? && k in patch.members && patch.members[k].Null?
  }

  method MergePatch(before: Json, patch: Json) returns (result: Json)
    ensures result == Merged(before, patch)
    decreases patch
  {
    if !patch.Obj? {
      return patch;
    }
    var base, edits := Members(before), patch.members;
    var merged := base;
    var remaining := edits.Keys;
    ghost var done := {};
    MergedOverNone(base, edits);
    hide Merged;
    hide MergedOver;
    while remaining != {}
      invariant remaining <= edits.Keys && done == edits.Keys - remaining
      invariant merged == MergedOver(base, edits, done)
      decreases remaining
    {
      var key :| key in remaining;
      var value := edits[key];
      MergedOverStep(base, edits, done, key);
      if value.Null? {
        merged := merged - {key};
      } else if key in merged {
        var nested := MergePatch(merged[key], value);
        merged := merged[key := nested];
      } else {
        merged := merged[key := value];
      }
      remaining, done := remaining - {key}, done + {key};
    }
    assert done == edits.Keys;
    MergedOverAll(before, patch);
    result := Obj(merged);
  }

  /** The merge with only the edits in `done` made. */
  ghost function MergedOver(base: map<string, Json>, edits: map<string, Json>, done: set<string>): map<string, Json>
    requires done <= edits.Keys
  {
    map k | k in base.Keys + done && !(k in done && edits[k].Null?) ::
      if k !in done then base[k] else if k in base then Merged(base[k], edits[k]) else edits[k]
  }

  lemma MergedOverNone(base: map<string, Json>, edits: map<string, Json>)
    ensures MergedOver(base, edits, {}) == base
  {
  }

  lemma MergedOverAll(before: Json, patch: Json)
    requires patch.Obj?
    ensures Obj(MergedOver(Members(before), patch.members, patch.members.Keys)) == Merged(before, patch)
  {
  }

  lemma MergedOverStep(base: map<string, Json>, edits: map<string, Json>, done: set<string>, key: string)
    requires done <= edits.Keys && key in edits && key !in done
    ensures
      var merged, value := MergedOver(base, edits, done), edits[key];
      && (key in merged <==> key in base)
      && (key in base ==> merged[key] == base[key])
      && MergedOver(base, edits, done + {key}) ==
         (if value.Null? then merged - {key}
          else merged[key := if key in base then Merged(base[key], value) else value])
  {
  }

  // ----- RFC 7396, section 2 -----

  /** The algorithm of section 2 of RFC 7396. An absent member recurses on an undefined
      target, which the algorithm treats like any other non-object. */
  function Rfc7396(target: Json, patch: Json): Json
    decreases patch
  {
    if !patch.Obj? then patch
    else
      var base := Members(target);
      Obj(map k | k in base.Keys + patch.members.Keys && !Deletes(patch, k) ::
            if k !in patch.members then base[k]
            else Rfc7396(if k in base then base[k] else Null, patch.members[k]))
  }

  /** A null object member can be reached from `v` without crossing an array. */
  predicate HoldsNullMember(v: Json) {
    v.Obj? && exists k | k in v.members :: v.members[k].Null? || HoldsNullMember(v.members[k])
  }

  /** Some subtree the merge inserts at a key absent from its target holds a null member. */
  predicate InsertsNullMember(before: Json, patch: Json)
    decreases patch
  {
    patch.Obj? && exists k | k in patch.members && !patch.members[k].Null? ::
      if k in Members(before) then InsertsNullMember(Members(before)[k], patch.members[k])
      else HoldsNullMember(patch.members[k])
  }

  /** The RFC algorithm copies a value into an empty place unchanged exactly when it holds no null member. */
  lemma {:induction false} RfcCopies(target: Json, v: Json)
    requires !target.Obj?
    ensures Rfc7396(target, v) == v <==> !HoldsNullMember(v)
    decreases v
  {
    if v.Obj? {
      forall k | k in v.members { RfcCopies(Null, v.members[k]); }
      var copy := Rfc7396(target, v).members;
      if HoldsNullMember(v) {
        var k :| k in v.members && (v.members[k].Null? || HoldsNullMember(v.members[k]));
        assert k !in copy || copy[k] != v.members[k];
      } else {
        assert copy == v.members;
      }
    }
  }

  /** The merge agrees with RFC 7396 exactly when it inserts no null member. */
  lemma {:induction false} MergeConformsIff(before: Json, patch: Json)
    ensures Merged(before, patch) == Rfc7396(before, patch) <==> !InsertsNullMember(before, patch)
    decreases patch
  {
    if patch.Obj? {
      var base, ours, theirs := Members(before), Merged(before, patch).members, Rfc7396(before, patch).members;
      forall k | k in patch.members
        ensures Rfc7396(Null, patch.members[k]) == patch.members[k] <==> !HoldsNullMember(patch.members[k])
        ensures k in base ==>
          (Merged(base[k], patch.members[k]) == Rfc7396(base[k], patch.members[k])
           <==> !InsertsNullMember(base[k], patch.members[k]))
      {
        RfcCopies(Null, patch.members[k]);
        if k in base { MergeConformsIff(base[k], patch.members[k]); }
      }
      if InsertsNullMember(before, patch) {
        var k :| k in patch.members && !patch.members[k].Null? &&
          if k in base then InsertsNullMember(base[k], patch.members[k]) else HoldsNullMember(patch.members[k]);
        assert ours[k] != theirs[k];
      } else {
        assert ours == theirs;
      }
    }
  }

  /** The smallest divergence: a null nested in a value for an absent key is kept, where the RFC drops it. */
  lemma NestedNullIsKept()
    ensures
      var patch := Obj(map["a" := Obj(map["b" := Null])]);
      && Merged(Obj(map[]), patch) == patch
      && Rfc7396(Obj(map[]), patch) == Obj(map["a" := Obj(map[])]) != patch
  {
    var inner := map["b" := Null];
    var patch := Obj(map["a" := Obj(inner)]);
    assert Merged(Obj(map[]), patch).members == map["a" := Obj(inner)];
    assert Rfc7396(Null, Obj(inner)).members == map[];
    assert Rfc7396(Obj(map[]), patch).members.Keys == {"a"};
    assert "a" in map["a" := Obj(inner)] && "b" in inner && inner != map[];
  }

  /** A value merged onto itself is unchanged exactly when it holds no null member. */
  lemma {:induction false} SelfMerge(v: Json)
    ensures Merged(v, v) == v <==> !HoldsNullMember(v)
  {
    if v.Obj? {
      forall k | k in v.members { SelfMerge(v.members[k]); }
      var again := Merged(v, v).members;
      if HoldsNullMember(v) {
        var k :| k in v.members && (v.members[k].Null? || HoldsNullMember(v.members[k]));
        assert k !in again || again[k] != v.members[k];
      } else {
        assert again == v.members;
      }
    }
  }

  /** The same condition decides whether applying a patch twice equals applying it once. */
  lemma {:induction false} MergeIdempotentIff(before: Json, patch: Json)
    ensures Merged(Merged(before, patch), patch) == Merged(before, patch) <==> !InsertsNullMember(before, patch)
    decreases patch
  {
    if patch.Obj? {
      var base, once := Members(before), Merged(before, patch).members;
      var twice := Merged(Merged(before, patch), patch).members;
      forall k | k in patch.members
        ensures Merged(patch.members[k], patch.members[k]) == patch.members[k]
                <==> !HoldsNullMember(patch.members[k])
        ensures k in base ==>
          (Merged(Merged(base[k], patch.members[k]), patch.members[k]) == Merged(base[k], patch.members[k])
           <==> !InsertsNullMember(base[k], patch.members[k]))
      {
        SelfMerge(patch.members[k]);
        if k in base { MergeIdempotentIff(base[k], patch.members[k]); }
      }
      if InsertsNullMember(before, patch) {
        var k :| k in patch.members && !patch.members[k].Null? &&
          if k in base then InsertsNullMember(base[k], patch.members[k]) else HoldsNullMember(patch.members[k]);
        assert twice[k] != once[k];
      } else {
        assert twice == once;
      }
    }
  }

  /** The RFC algorithm itself is idempotent on every input. */
  lemma {:induction false} RfcIdempotent(target: Json, patch: Json)
    ensures Rfc7396(Rfc7396(target, patch), patch) == Rfc7396(target, patch)
    decreases patch
  {
    if patch.Obj? {
      var base, once := Members(target), Rfc7396(target, patch).members;
      forall k | k in patch.members {
        RfcIdempotent(if k in base then base[k] else Null, patch.members[k]);
      }
      assert Rfc7396(Rfc7396(target, patch), patch).members == once;
    }
  }

  // ----- what the merge makes of the patch -----

  /** Every value of the patch that is neither an object nor null is found at its place in the result. */
  lemma {:induction false} MergeSetsLeaf(before: Json, patch: Json, path: Path)
    requires Lookup(patch, path).Some? && !Lookup(patch, path).value.Obj? && !Lookup(patch, path).value.Null?
    ensures Lookup(Merged(before, patch), path) == Lookup(patch, path)
    decreases |path|
  {
    if patch.Obj? {
      var k, base := path[0].name, Members(before);
      if k in base { MergeSetsLeaf(base[k], patch.members[k], path[1..]); }
    }
  }

  /** Steps through object members only. */
  predicate ThroughMembers(path: Path) {
    forall i | 0 <= i < |path| :: path[i].Member?
  }

  /** A null of the patch removes what stood at its place. */
  lemma {:induction false} MergeDeletes(before: Json, patch: Json, path: Path)
    requires path != [] && ThroughMembers(path)
    requires Lookup(patch, path) == Some(Null) && Lookup(before, path).Some?
    ensures Lookup(Merged(before, patch), path) == None
    decreases |path|
  {
    var k := path[0].name;
    if |path| > 1 { MergeDeletes(before.members[k], patch.members[k], path[1..]); }
  }

  // ----- what the merge keeps -----

  /** The patch says nothing about the place `path` leads to. */
  predicate Unmentioned(patch: Json, path: Path)
    decreases |path|
  {
    patch.Obj? && path != [] && path[0].Member? &&
    (path[0].name in patch.members ==> Unmentioned(patch.members[path[0].name], path[1..]))
  }

  /** A place the patch does not mention keeps exactly what it held, present or absent. */
  lemma {:induction false} MergeKeepsUnmentioned(before: Json, patch: Json, path: Path)
    requires Unmentioned(patch, path)
    ensures Lookup(Merged(before, patch), path) == Lookup(before, path)
    decreases |path|
  {
    var k, base := path[0].name, Members(before);
    if k in patch.members {
      if k in base {
        MergeKeepsUnmentioned(base[k], patch.members[k], path[1..]);
      } else {
        UnmentionedIsAbsent(patch.members[k], path[1..]);
      }
    }
  }

  lemma {:induction false} UnmentionedIsAbsent(patch: Json, path: Path)
    requires Unmentioned(patch, path)
    ensures Lookup(patch, path) == None
    decreases |path|
  {
    if path[0].name in patch.members {
      UnmentionedIsAbsent(patch.members[path[0].name], path[1..]);
    }
  }

  /** Every value in the merged document was already there, or the patch has a value at
      that path, and has that very value unless the merged value is an object. */
  lemma {:induction false} MergeProvenance(before: Json, patch: Json, path: Path)
    requires Lookup(Merged(before, patch), path).Some?
    ensures
      var found := Lookup(Merged(before, patch), path);
      || Lookup(before, path) == found
      || (Lookup(patch, path).Some? && (found.value.Obj? || Lookup(patch, path) == found))
    decreases |path|
  {
    if path != [] && patch.Obj? {
      var k, base := path[0].name, Members(before);
      if k in patch.members && k in base {
        MergeProvenance(base[k], patch.members[k], path[1..]);
      }
    }
  }

  // ----- the guards -----

  datatype PatchError = MistConfigured | RedactionPlaceholder

  datatype Verdict = Accepted | Refused(error: PatchError)

  const MIST_CONFIGURED := "mist_configured"
  const REDACTION_PLACEHOLDER := "[REDACTED]"

  /** Refuse any patch naming `mist_configured` at any depth. */
  function RejectConfigAuthority(patch: Json): Verdict {
    match patch
    case Obj(members) =>
      if MIST_CONFIGURED in members then Refused(MistConfigured)
      else if exists k | k in members :: RejectConfigAuthority(members[k]).Refused? then Refused(MistConfigured)
      else Accepted
    case Arr(items) =>
      if exists v | v in items :: RejectConfigAuthority(v).Refused? then Refused(MistConfigured) else Accepted
    case _ => Accepted
  }

  /** Refuse any patch holding a string with the redaction placeholder in it, at any depth. */
  function RejectRedactionPlaceholder(patch: Json): Verdict {
    match patch
    case Str(text) => if Contains(text, REDACTION_PLACEHOLDER) then Refused(RedactionPlaceholder) else Accepted
    case Obj(members) =>
      if exists k | k in members :: RejectRedactionPlaceholder(members[k]).Refused? then Refused(RedactionPlaceholder)
      else Accepted
    case Arr(items) =>
      if exists v | v in items :: RejectRedactionPlaceholder(v).Refused? then Refused(RedactionPlaceholder)
      else Accepted
    case _ => Accepted
  }

  ghost predicate RedactedAt(v: Json, path: Path) {
    match Lookup(v, path)
    case Some(Str(text)) => Contains(text, REDACTION_PLACEHOLDER)
    case _ => false
  }

  /** The first walk accepts exactly the documents with no `mist_configured` member anywhere. */
  lemma {:induction false} ConfigAuthorityWalkExact(patch: Json)
    ensures RejectConfigAuthority(patch) == Accepted <==>
            forall path: Path :: MemberAt(patch, path, MIST_CONFIGURED) == None
  {
    match patch
    case Obj(members) =>
      forall k | k in members { ConfigAuthorityWalkExact(members[k]); }
      if RejectConfigAuthority(patch).Refused? {
        if MIST_CONFIGURED in members {
          assert MemberAt(patch, [], MIST_CONFIGURED).Some?;
        } else {
          var k :| k in members && RejectConfigAuthority(members[k]).Refused?;
          var below :| MemberAt(members[k], below, MIST_CONFIGURED).Some?;
          assert MemberAt(patch, [Member(k)] + below, MIST_CONFIGURED).Some?;
        }
      } else {
        forall path: Path ensures MemberAt(patch, path, MIST_CONFIGURED) == None {
          if path != [] && path[0].Member? && path[0].name in members {
            assert MemberAt(members[path[0].name], path[1..], MIST_CONFIGURED) == None;
          }
        }
      }
    case Arr(items) =>
      forall v | v in items { ConfigAuthorityWalkExact(v); }
      if RejectConfigAuthority(patch).Refused? {
        var v :| v in items && RejectConfigAuthority(v).Refused?;
        var i :| 0 <= i < |items| && items[i] == v;
        var below :| MemberAt(v, below, MIST_CONFIGURED).Some?;
        assert MemberAt(patch, [Slot(i)] + below, MIST_CONFIGURED).Some?;
      } else {
        forall path: Path ensures MemberAt(patch, path, MIST_CONFIGURED) == None {
          if path != [] && path[0].Slot? && path[0].index < |items| {
            assert items[path[0].index] in items;
            assert MemberAt(items[path[0].index], path[1..], MIST_CONFIGURED) == None;
          }
        }
      }
    case _ =>
  }

  /** The second walk accepts exactly the documents with no placeholder-bearing string anywhere. */
  lemma {:induction false} RedactionWalkExact(patch: Json)
    ensures RejectRedactionPlaceholder(patch) == Accepted <==> forall path: Path :: !RedactedAt(patch, path)
  {
    match patch
    case Str(text) =>
      assert RedactedAt(patch, []) <==> Contains(text, REDACTION_PLACEHOLDER);
    case Obj(members) =>
      forall k | k in members { RedactionWalkExact(members[k]); }
      if RejectRedactionPlaceholder(patch).Refused? {
        var k :| k in members && RejectRedactionPlaceholder(members[k]).Refused?;
        var below :| RedactedAt(members[k], below);
        assert RedactedAt(patch, [Member(k)] + below);
      } else {
        forall path: Path ensures !RedactedAt(patch, path) {
          if path != [] && path[0].Member? && path[0].name in members {
            assert !RedactedAt(members[path[0].name], path[1..]);
          }
        }
      }
    case Arr(items) =>
      forall v | v in items { RedactionWalkExact(v); }
      if RejectRedactionPlaceholder(patch).Refused? {
        var v :| v in items && RejectRedactionPlaceholder(v).Refused?;
        var i :| 0 <= i < |items| && items[i] == v;
        var below :| RedactedAt(v, below);
        assert RedactedAt(patch, [Slot(i)] + below);
      } else {
        forall path: Path ensures !RedactedAt(patch, path) {
          if path != [] && path[0].Slot? && path[0].index < |items| {
            assert items[path[0].index] in items;
            assert !RedactedAt(items[path[0].index], path[1..]);
          }
        }
      }
    case _ =>
  }

  /** Both guards pass. */
  predicate GuardsPass(patch: Json) {
    RejectConfigAuthority(patch) == Accepted && RejectRedactionPlaceholder(patch) == Accepted
  }

  /** `after` introduces no authority field and no placeholder that `before` did not hold
      at the same path with the same value. */
  ghost predicate OnlyInherited(before: Json, after: Json) {
    && (forall path: Path :: MemberAt(after, path, MIST_CONFIGURED).Some? ==>
          MemberAt(before, path, MIST_CONFIGURED) == MemberAt(after, path, MIST_CONFIGURED))
    && (forall path: Path :: RedactedAt(after, path) ==> Lookup(before, path) == Lookup(after, path))
  }

  /** A guarded patch leaves every authority field and every placeholder in the merged body
      where `before` had it. */
  lemma GuardedMergeOnlyInherits(before: Json, patch: Json)
    requires GuardsPass(patch)
    ensures OnlyInherited(before, Merged(before, patch))
  {
    var after := Merged(before, patch);
    ConfigAuthorityWalkExact(patch);
    RedactionWalkExact(patch);
    forall path: Path | MemberAt(after, path, MIST_CONFIGURED).Some?
      ensures MemberAt(before, path, MIST_CONFIGURED) == MemberAt(after, path, MIST_CONFIGURED)
    {
      MemberAtIsLookup(after, path, MIST_CONFIGURED);
      MemberAtIsLookup(before, path, MIST_CONFIGURED);
      MemberAtIsLookup(patch, path, MIST_CONFIGURED);
      MergeProvenance(before, patch, path + [Member(MIST_CONFIGURED)]);
    }
    forall path: Path | RedactedAt(after, path)
      ensures Lookup(before, path) == Lookup(after, path)
    {
      MergeProvenance(before, patch, path);
      assert !RedactedAt(patch, path);
    }
  }
}
