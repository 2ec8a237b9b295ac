/** Relaxing a response schema never turns a valid body into an invalid one. */
module RelaxationWeakens {
  import opened JsonValues
  import opened SchemaReferences
  import opened SchemaSemantics
  import opened Relaxation

  /** The rewrite would delete this name from a map of declared names. */
  predicate LosesName(declared: Members, name: string) {
    name in declared &&
    (name == ENUM || name == REQUIRED || (name == ADDITIONAL && declared[name] == Bool(false)))
  }

  /** Schemas built from the keywords of the fragment. A declared property must not be called
      `oneOf` or `$ref`, which the walker takes for keywords; one that it would delete must not
      sit beside an `additionalProperties` schema, which would then take the property over. */
  predicate InFragment(schema: Json)
    decreases schema, 1
  {
    match schema
    case Bool(_) => true
    case Obj(members) => forall k | k in members :: KeywordInFragment(members, k)
    case _ => false
  }

  predicate KeywordInFragment(members: Members, k: string)
    requires k in members
    decreases Obj(members), 0
  {
    var value := members[k];
    if k == REF then value.Str?
    else if k == ALL_OF || k == ANY_OF || k == ONE_OF then
      value.Arr? && forall s | s in value.items :: InFragment(s)
    else if k == PROPERTIES then
      && value.Obj?
      && REF !in value.members && ONE_OF !in value.members
      && (forall name | name in value.members :: InFragment(value.members[name]))
      && ((exists name | name in value.members :: LosesName(value.members, name)) ==>
            ADDITIONAL !in members || members[ADDITIONAL].Bool?)
    else if k == ADDITIONAL || k == ITEMS then InFragment(value)
    else if k == TYPE then value.Str? || (value.Arr? && forall t | t in value.items :: t.Str?)
    else if k in {ENUM, REQUIRED} + ANNOTATIONS then true
    else k !in EXCLUDED && Relaxed(value) == value
  }

  /** References lead from `schema` to the component `name`. */
  ghost predicate Reaches(schema: Json, registry: Registry, name: string) {
    exists names :: LeadsFrom(schema, registry, names) && names[|names| - 1] == name
  }

  predicate LeadsFrom(schema: Json, registry: Registry, names: seq<string>) {
    Walk(registry, names) && Refers(schema, names[0])
  }

  /** Every component that the schema can reach is in the fragment. */
  ghost predicate ReachedInFragment(schema: Json, registry: Registry) {
    forall name | name in registry && Reaches(schema, registry, name) :: InFragment(registry[name])
  }

  lemma PartReached(part: Json, schema: Json, registry: Registry)
    requires ReachedInFragment(schema, registry)
    requires forall name | Refers(part, name) :: Refers(schema, name)
    ensures ReachedInFragment(part, registry)
  {
    hide InFragment;
    hide Refers;
    forall name | Reaches(part, registry, name) ensures Reaches(schema, registry, name) {
      var names :| LeadsFrom(part, registry, names) && names[|names| - 1] == name;
      assert LeadsFrom(schema, registry, names);
    }
  }

  /** So is a component it refers to, and every component reached from there. */
  lemma ReferredInFragment(schema: Json, registry: Registry, name: string)
    requires ReachedInFragment(schema, registry) && Refers(schema, name) && name in registry
    ensures InFragment(registry[name]) && ReachedInFragment(registry[name], registry)
  {
    hide InFragment;
    hide Refers;
    assert LeadsFrom(schema, registry, [name]) && [name][|[name]| - 1] == name;
    forall next | Reaches(registry[name], registry, next) ensures Reaches(schema, registry, next) {
      var names :| LeadsFrom(registry[name], registry, names) && names[|names| - 1] == next;
      var longer := [name] + names;
      forall i | 0 <= i < |longer| - 1 ensures Edge(registry, longer[i], longer[i + 1]) {
        if i > 0 { assert Edge(registry, names[i - 1], names[i - 1 + 1]); }
      }
      assert LeadsFrom(schema, registry, longer) && longer[|longer| - 1] == next;
    }
  }

  lemma MemberReached(members: Members, k: string, registry: Registry)
    requires ReachedInFragment(Obj(members), registry) && k in members && k != REF
    ensures ReachedInFragment(members[k], registry)
  {
    PartReached(members[k], Obj(members), registry);
  }

  lemma ItemsReached(items: seq<Json>, registry: Registry)
    requires ReachedInFragment(Arr(items), registry)
    ensures forall v | v in items :: ReachedInFragment(v, registry)
  {
    hide ReachedInFragment;
    forall v | v in items ensures ReachedInFragment(v, registry) {
      PartReached(v, Arr(items), registry);
    }
  }

  // ----- the registry -----

  /** The rewrite of the components document relaxes each schema in place exactly when no
      component is called `enum`, `required` or `oneOf`. */
  lemma RegistrySurvivesIff(components: Members, registry: Registry)
    requires "schemas" in components && components["schemas"] == Obj(registry)
    requires forall name | name in registry :: registry[name].Obj?
    ensures "schemas" in Relaxed(Obj(components)).members
    ensures Relaxed(Obj(components)).members["schemas"] == Obj(RelaxedMembers(registry))
            <==> ENUM !in registry && REQUIRED !in registry && ONE_OF !in registry
  {
    var relaxed := RelaxedMembers(registry);
    assert "schemas" in Rewritten(RelaxedMembers(components));
    assert Relaxed(Obj(components)).members["schemas"] == Relaxed(Obj(registry)) == Obj(Rewritten(relaxed));
    assert forall name | name in registry :: relaxed[name] == Relaxed(registry[name]) && relaxed[name].Obj?;
    RewriteFixesIff(relaxed);
  }

  lemma RewriteFixesIff(members: Members)
    requires forall name | name in members :: members[name].Obj?
    ensures Rewritten(members) == members <==> ENUM !in members && REQUIRED !in members && ONE_OF !in members
  {
    if ENUM in members || REQUIRED in members || ONE_OF in members {
      var lost := if ENUM in members then ENUM else if REQUIRED in members then REQUIRED else ONE_OF;
      assert lost in members && lost !in Rewritten(members);
    } else {
      assert OneOfRenamed(Dropped(members)) == members;
      assert Rewritten(members) == members;
    }
  }

  lemma ReferenceSurvives(members: Members, registry: Registry, stack: seq<string>)
    requires ReferenceOf(members, registry, stack).Absent? || ReferenceOf(members, registry, stack).Follow?
    ensures ReferenceOf(Rewritten(RelaxedMembers(members)), RelaxedMembers(registry), stack)
            == ReferenceOf(members, registry, stack)
  {
    var rewritten := Rewritten(RelaxedMembers(members));
    assert REF in members <==> REF in rewritten;
    if REF in members {
      assert rewritten[REF] == Relaxed(members[REF]) == members[REF];
    }
    assert forall name | name in registry :: RelaxedMembers(registry)[name] == Relaxed(registry[name]);
  }

  /** A relaxed schema over a relaxed registry still passes the reference check. */
  lemma {:induction false} RelaxedIsAccepted(schema: Json, registry: Registry, stack: seq<string>)
    requires ValidateSchema(schema, registry, stack)
    ensures ValidateSchema(Relaxed(schema), RelaxedMembers(registry), stack)
    decreases registry.Keys - Names(stack), schema
  {
    var registry' := RelaxedMembers(registry);
    match schema
    case Arr(items) =>
      forall v | v in items { RelaxedIsAccepted(v, registry, stack); }
    case Obj(members) =>
      var relaxed, rewritten := RelaxedMembers(members), Rewritten(RelaxedMembers(members));
      forall k | k in members && k != REF
        ensures ValidateSchema(relaxed[k], registry', stack)
      {
        RelaxedIsAccepted(members[k], registry, stack);
      }
      if TYPE in members { WidenedIsAccepted(relaxed[TYPE], registry', stack); }
      forall k | k in rewritten && k != REF
        ensures ValidateSchema(rewritten[k], registry', stack)
      {
      }
      ReferenceSurvives(members, registry, stack);
      var reference := ReferenceOf(members, registry, stack);
      if reference.Follow? {
        var name := reference.name;
        assert name in registry.Keys - Names(stack) && name in Names(stack + [name]);
        RelaxedIsAccepted(registry[name], registry, stack + [name]);
      }
    case _ =>
  }

  lemma WidenedIsAccepted(declared: Json, registry: Registry, stack: seq<string>)
    requires ValidateSchema(declared, registry, stack)
    ensures ValidateSchema(Widened(declared), registry, stack)
  {
  }

  // ----- what the rewrite does to each keyword -----

  lemma TypeWeakens(declared: Json, v: Json)
    requires declared.Str? || declared.Arr?
    ensures TypeAdmits(Widened(declared), v) <==>
            || TypeAdmits(declared, v)
            || v.Null?
            || (v.Num? && (declared == Str("integer") || (declared.Arr? && Str("integer") in declared.items)))
  {
    var names := if declared.Str? then [declared] else declared.items;
    assert TypeAdmits(declared, v) <==> TypeAdmits(Arr(names), v) by {
      if declared.Str? { assert declared in names; }
    }
    var afterNull := if Str("null") in names then names else names + [Str("null")];
    NameAdded(names, "null", v);
    assert TypeAdmits(Arr(afterNull), v) <==> TypeAdmits(Arr(names), v) || v.Null? by {
      assert Str("null") in afterNull;
    }
    var afterNumber :=
      if Str("integer") in afterNull && Str("number") !in afterNull then afterNull + [Str("number")] else afterNull;
    NameAdded(afterNull, "number", v);
    assert Widened(declared) == Arr(afterNumber) || (declared == Str("null") && Widened(declared) == declared);
  }

  lemma NameAdded(names: seq<Json>, name: string, v: Json)
    ensures TypeAdmits(Arr(names + [Str(name)]), v) <==> TypeAdmits(Arr(names), v) || IsType(name, v)
    ensures Str(name) in names && IsType(name, v) ==> TypeAdmits(Arr(names), v)
  {
    var longer := names + [Str(name)];
    assert Str(name) in longer;
    assert forall t | t in names :: t in longer;
    assert forall t | t in longer :: t in names || t == Str(name);
  }

  /** A map of declared properties keeps every surviving name's own relaxed schema. */
  lemma PropertiesSurvive(declared: Members)
    requires ONE_OF !in declared
    requires forall name | name in declared :: InFragment(declared[name])
    ensures
      var after := Rewritten(RelaxedMembers(declared));
      && (forall name | name in after :: name in declared && after[name] == Relaxed(declared[name]))
      && (forall name | name in declared && name !in after :: LosesName(declared, name))
  {
    SchemasStaySchemas(declared);
    hide InFragment;
    hide Relaxed;
    RewriteOnlyDrops(RelaxedMembers(declared));
    hide Rewritten;
  }

  lemma SchemasStaySchemas(declared: Members)
    requires forall name | name in declared :: InFragment(declared[name])
    ensures forall name | name in declared ::
              && RelaxedMembers(declared)[name] == Relaxed(declared[name])
              && (Relaxed(declared[name]).Bool? || Relaxed(declared[name]).Obj?)
              && (Relaxed(declared[name]) == Bool(false) <==> declared[name] == Bool(false))
  {
  }

  lemma RewriteOnlyDrops(members: Members)
    requires ONE_OF !in members && (TYPE in members ==> members[TYPE].Bool? || members[TYPE].Obj?)
    ensures Rewritten(members) == Dropped(members)
  {
    assert OneOfRenamed(Dropped(members)) == Dropped(members);
    if TYPE in members { assert Widened(members[TYPE]) == members[TYPE]; }
  }

  // ----- the theorem -----

  /** Every body valid under the declared schema is valid under the relaxed one, references
      resolved in the raw and in the relaxed registry respectively. */
  lemma {:induction false} RelaxationOnlyWeakens(leaf: Leaf, registry: Registry, stack: seq<string>, schema: Json,
                                                 v: Json)
    requires InFragment(schema) && ReachedInFragment(schema, registry)
    requires ValidateSchema(schema, registry, stack)
    requires Valid(leaf, registry, stack, schema, v)
    ensures ValidateSchema(Relaxed(schema), RelaxedMembers(registry), stack)
    ensures Valid(leaf, RelaxedMembers(registry), stack, Relaxed(schema), v)
    decreases registry.Keys - Names(stack), schema, 1
  {
    RelaxedIsAccepted(schema, registry, stack);
    match schema
    case Obj(members) =>
      var rewritten := Rewritten(RelaxedMembers(members));
      forall k | k in rewritten
        ensures Holds(leaf, RelaxedMembers(registry), stack, rewritten, k, v)
      {
        KeywordWeakens(leaf, registry, stack, members, k, v);
      }
    case _ =>
  }

  lemma {:induction false} KeywordWeakens(leaf: Leaf, registry: Registry, stack: seq<string>, members: Members,
                                          k: string, v: Json)
    requires InFragment(Obj(members)) && ReachedInFragment(Obj(members), registry)
    requires ValidateSchema(Obj(members), registry, stack)
    requires Valid(leaf, registry, stack, Obj(members), v)
    requires ValidateSchema(Obj(Rewritten(RelaxedMembers(members))), RelaxedMembers(registry), stack)
    requires k in Rewritten(RelaxedMembers(members))
    ensures Holds(leaf, RelaxedMembers(registry), stack, Rewritten(RelaxedMembers(members)), k, v)
    decreases registry.Keys - Names(stack), Obj(members), 0, 1
  {
    hide *;
    KeptKeyword(members, k);
    if k == REF {
      ReferenceWeakens(leaf, registry, stack, members, v);
    } else if k == ALL_OF {
      HeldAt(leaf, registry, stack, members, k, v);
      AllOfWeakens(leaf, registry, stack, members, v);
    } else if k == ANY_OF {
      AnyOfWeakens(leaf, registry, stack, members, v);
    } else if k == PROPERTIES {
      HeldAt(leaf, registry, stack, members, k, v);
      PropertiesWeaken(leaf, registry, stack, members, v);
    } else if k == ADDITIONAL {
      AdditionalWeakens(leaf, registry, stack, members, v);
    } else if k == ITEMS {
      ItemsWeaken(leaf, registry, stack, members, v);
    } else {
      PlainWeakens(leaf, registry, stack, members, k, v);
    }
  }

  lemma KeptKeyword(members: Members, k: string)
    requires k in Rewritten(RelaxedMembers(members))
    ensures k == ANY_OF || k in members
    ensures k == ALL_OF || k == PROPERTIES || k == REF ==> k in members
  {
    hide Relaxed;
  }

  lemma HeldAt(leaf: Leaf, registry: Registry, stack: seq<string>, members: Members, k: string, v: Json)
    requires ValidateSchema(Obj(members), registry, stack) && k in members
    requires InFragment(Obj(members)) && Valid(leaf, registry, stack, Obj(members), v)
    ensures KeywordInFragment(members, k) && Holds(leaf, registry, stack, members, k, v)
  {
    hide Holds;
    hide KeywordInFragment;
  }

  lemma {:induction false} ReferenceWeakens(leaf: Leaf, registry: Registry, stack: seq<string>, members: Members,
                                            v: Json)
    requires InFragment(Obj(members)) && ReachedInFragment(Obj(members), registry)
    requires ValidateSchema(Obj(members), registry, stack)
    requires Valid(leaf, registry, stack, Obj(members), v)
    requires ValidateSchema(Obj(Rewritten(RelaxedMembers(members))), RelaxedMembers(registry), stack)
    requires REF in Rewritten(RelaxedMembers(members))
    ensures Holds(leaf, RelaxedMembers(registry), stack, Rewritten(RelaxedMembers(members)), REF, v)
    decreases registry.Keys - Names(stack), Obj(members), 0, 0
  {
    hide *;
    KeptKeyword(members, REF);
    HeldAt(leaf, registry, stack, members, REF, v);
    AcceptedReference(members, registry, stack);
    ReferenceSurvives(members, registry, stack);
    var reference := ReferenceOf(members, registry, stack);
    if reference.Follow? {
      FollowedReference(leaf, registry, stack, members, reference.name, v);
      ReferredInFragment(Obj(members), registry, reference.name);
      RelaxationOnlyWeakens(leaf, registry, stack + [reference.name], registry[reference.name], v);
      RelaxedFollows(leaf, registry, stack, members, reference.name, v);
    } else {
      NothingFollowed(leaf, registry, stack, members, v);
    }
  }

  lemma AcceptedReference(members: Members, registry: Registry, stack: seq<string>)
    requires ValidateSchema(Obj(members), registry, stack)
    ensures ReferenceOf(members, registry, stack).Absent? || ReferenceOf(members, registry, stack).Follow?
  {
    hide ReferenceOf;
  }

  lemma FollowedReference(leaf: Leaf, registry: Registry, stack: seq<string>, members: Members, name: string, v: Json)
    requires ValidateSchema(Obj(members), registry, stack) && REF in members
    requires ReferenceOf(members, registry, stack) == Follow(name) && Holds(leaf, registry, stack, members, REF, v)
    ensures Refers(Obj(members), name) && name in registry && ValidateSchema(registry[name], registry, stack + [name])
    ensures Valid(leaf, registry, stack + [name], registry[name], v)
    ensures registry.Keys - Names(stack + [name]) < registry.Keys - Names(stack)
  {
    hide Valid;
    assert members[REF] == Str(SCHEMA_PREFIX + name);
    assert name in registry.Keys - Names(stack) && name in Names(stack + [name]);
  }

  lemma RelaxedFollows(leaf: Leaf, registry: Registry, stack: seq<string>, members: Members, name: string, v: Json)
    requires name in registry
    requires ReferenceOf(Rewritten(RelaxedMembers(members)), RelaxedMembers(registry), stack) == Follow(name)
    requires ValidateSchema(Obj(Rewritten(RelaxedMembers(members))), RelaxedMembers(registry), stack)
    requires REF in Rewritten(RelaxedMembers(members))
    requires ValidateSchema(Relaxed(registry[name]), RelaxedMembers(registry), stack + [name])
    requires Valid(leaf, RelaxedMembers(registry), stack + [name], Relaxed(registry[name]), v)
    ensures Holds(leaf, RelaxedMembers(registry), stack, Rewritten(RelaxedMembers(members)), REF, v)
  {
    assert RelaxedMembers(registry)[name] == Relaxed(registry[name]);
    hide Valid;
    hide Relaxed;
    hide Rewritten;
    hide ReferenceOf;
  }

  lemma NothingFollowed(leaf: Leaf, registry: Registry, stack: seq<string>, members: Members, v: Json)
    requires !ReferenceOf(Rewritten(RelaxedMembers(members)), RelaxedMembers(registry), stack).Follow?
    requires ValidateSchema(Obj(Rewritten(RelaxedMembers(members))), RelaxedMembers(registry), stack)
    requires REF in Rewritten(RelaxedMembers(members))
    ensures Holds(leaf, RelaxedMembers(registry), stack, Rewritten(RelaxedMembers(members)), REF, v)
  {
    hide Valid;
    hide Relaxed;
    hide Rewritten;
    hide ReferenceOf;
  }

  lemma {:induction false} ItemsWeaken(leaf: Leaf, registry: Registry, stack: seq<string>, members: Members, v: Json)
    requires InFragment(Obj(members)) && ReachedInFragment(Obj(members), registry)
    requires ValidateSchema(Obj(members), registry, stack)
    requires Valid(leaf, registry, stack, Obj(members), v)
    requires ValidateSchema(Obj(Rewritten(RelaxedMembers(members))), RelaxedMembers(registry), stack)
    requires ITEMS in Rewritten(RelaxedMembers(members))
    ensures Holds(leaf, RelaxedMembers(registry), stack, Rewritten(RelaxedMembers(members)), ITEMS, v)
    decreases registry.Keys - Names(stack), Obj(members), 0, 0
  {
    var registry', rewritten := RelaxedMembers(registry), Rewritten(RelaxedMembers(members));
    KeptKeyword(members, ITEMS);
    HeldAt(leaf, registry, stack, members, ITEMS, v);
    assert rewritten[ITEMS] == Relaxed(members[ITEMS]);
    if v.Arr? {
      MemberReached(members, ITEMS, registry);
      forall x | x in v.items
        ensures ValidateSchema(rewritten[ITEMS], registry', stack)
        ensures Valid(leaf, registry', stack, rewritten[ITEMS], x)
      {
        assert ValidateSchema(members[ITEMS], registry, stack);
        RelaxationOnlyWeakens(leaf, registry, stack, members[ITEMS], x);
      }
    }
  }

  /** The keywords whose value holds no schema. */
  lemma PlainWeakens(leaf: Leaf, registry: Registry, stack: seq<string>, members: Members, k: string, v: Json)
    requires InFragment(Obj(members)) && ReachedInFragment(Obj(members), registry)
    requires ValidateSchema(Obj(members), registry, stack)
    requires Valid(leaf, registry, stack, Obj(members), v)
    requires ValidateSchema(Obj(Rewritten(RelaxedMembers(members))), RelaxedMembers(registry), stack)
    requires k in Rewritten(RelaxedMembers(members))
    requires k !in {REF, ALL_OF, ANY_OF, PROPERTIES, ADDITIONAL, ITEMS}
    ensures Holds(leaf, RelaxedMembers(registry), stack, Rewritten(RelaxedMembers(members)), k, v)
  {
    KeptKeyword(members, k);
    HeldAt(leaf, registry, stack, members, k, v);
    hide InFragment;
    var rewritten := Rewritten(RelaxedMembers(members));
    if k == TYPE {
      RelaxedNamesUnchanged(members[k]);
      TypeWeakens(members[k], v);
      assert rewritten[k] == Widened(members[k]);
    } else if k !in ANNOTATIONS {
      assert rewritten[k] == members[k];
    }
  }

  lemma RelaxedNamesUnchanged(declared: Json)
    requires declared.Str? || (declared.Arr? && forall t | t in declared.items :: t.Str?)
    ensures Relaxed(declared) == declared
  {
    if declared.Arr? { RelaxedFixesNames(declared.items); }
  }

  lemma {:induction false} AllOfWeakens(leaf: Leaf, registry: Registry, stack: seq<string>, members: Members, v: Json)
    requires ALL_OF in members
    requires InFragment(Obj(members)) && ReachedInFragment(Obj(members), registry)
    requires ValidateSchema(Obj(members), registry, stack)
    requires Holds(leaf, registry, stack, members, ALL_OF, v)
    requires ValidateSchema(Obj(Rewritten(RelaxedMembers(members))), RelaxedMembers(registry), stack)
    ensures ALL_OF in Rewritten(RelaxedMembers(members))
    ensures Holds(leaf, RelaxedMembers(registry), stack, Rewritten(RelaxedMembers(members)), ALL_OF, v)
    decreases registry.Keys - Names(stack), Obj(members), 0, 0
  {
    var registry', rewritten := RelaxedMembers(registry), Rewritten(RelaxedMembers(members));
    var raw, relaxed := BranchesRelax(registry, stack, members, ALL_OF, ALL_OF);
    forall i | 0 <= i < |relaxed|
      ensures ValidateSchema(relaxed[i], registry', stack)
      ensures Valid(leaf, registry', stack, relaxed[i], v)
    {
      assert raw[i] in raw;
      RelaxationOnlyWeakens(leaf, registry, stack, raw[i], v);
    }
  }

  lemma BranchesRelax(registry: Registry, stack: seq<string>, members: Members, source: string, target: string)
    returns (raw: seq<Json>, relaxed: seq<Json>)
    requires source in {ALL_OF, ANY_OF, ONE_OF} && source in members
    requires InFragment(Obj(members)) && ValidateSchema(Obj(members), registry, stack)
    requires target in Rewritten(RelaxedMembers(members))
    requires Rewritten(RelaxedMembers(members))[target] == RelaxedMembers(members)[source]
    ensures members[source] == Arr(raw) && Rewritten(RelaxedMembers(members))[target] == Arr(relaxed)
    ensures |raw| == |relaxed| && forall i | 0 <= i < |raw| :: relaxed[i] == Relaxed(raw[i])
    ensures forall s | s in raw :: s < Obj(members) && InFragment(s) && ValidateSchema(s, registry, stack)
    ensures ReachedInFragment(Obj(members), registry) ==> forall s | s in raw :: ReachedInFragment(s, registry)
  {
    assert KeywordInFragment(members, source);
    assert ValidateSchema(members[source], registry, stack);
    raw, relaxed := members[source].items, Relaxed(members[source]).items;
    if ReachedInFragment(Obj(members), registry) {
      MemberReached(members, source, registry);
      ItemsReached(raw, registry);
    }
  }

  lemma AnyOfSource(members: Members) returns (source: string)
    requires ANY_OF in Rewritten(RelaxedMembers(members))
    ensures source == (if ONE_OF in members then ONE_OF else ANY_OF) && source in members
    ensures Rewritten(RelaxedMembers(members))[ANY_OF] == RelaxedMembers(members)[source]
  {
    hide Relaxed;
    source := if ONE_OF in members then ONE_OF else ANY_OF;
  }

  lemma SomeBranchHolds(leaf: Leaf, registry: Registry, stack: seq<string>, members: Members, source: string,
                        raw: seq<Json>, v: Json)
    returns (i: nat)
    requires source in {ANY_OF, ONE_OF} && source in members && members[source] == Arr(raw)
    requires ValidateSchema(Obj(members), registry, stack) && forall s | s in raw :: ValidateSchema(s, registry, stack)
    requires Holds(leaf, registry, stack, members, source, v)
    ensures i < |raw| && Valid(leaf, registry, stack, raw[i], v)
  {
    i :| 0 <= i < |raw| && Valid(leaf, registry, stack, raw[i], v);
  }

  /** `anyOf` after the rewrite is the declared `oneOf` if there was one, else the declared `anyOf`. */
  lemma {:induction false} AnyOfWeakens(leaf: Leaf, registry: Registry, stack: seq<string>, members: Members, v: Json)
    requires InFragment(Obj(members)) && ReachedInFragment(Obj(members), registry)
    requires ValidateSchema(Obj(members), registry, stack)
    requires Valid(leaf, registry, stack, Obj(members), v)
    requires ValidateSchema(Obj(Rewritten(RelaxedMembers(members))), RelaxedMembers(registry), stack)
    requires ANY_OF in Rewritten(RelaxedMembers(members))
    ensures Holds(leaf, RelaxedMembers(registry), stack, Rewritten(RelaxedMembers(members)), ANY_OF, v)
    decreases registry.Keys - Names(stack), Obj(members), 0, 0
  {
    var registry', rewritten := RelaxedMembers(registry), Rewritten(RelaxedMembers(members));
    var source := AnyOfSource(members);
    var raw, relaxed := BranchesRelax(registry, stack, members, source, ANY_OF);
    assert Holds(leaf, registry, stack, members, source, v);
    var i := SomeBranchHolds(leaf, registry, stack, members, source, raw, v);
    assert raw[i] in raw && relaxed[i] == Relaxed(raw[i]) && relaxed[i] in relaxed;
    RelaxationOnlyWeakens(leaf, registry, stack, raw[i], v);
  }

  lemma {:induction false} PropertiesWeaken(leaf: Leaf, registry: Registry, stack: seq<string>, members: Members,
                                            v: Json)
    requires PROPERTIES in members
    requires InFragment(Obj(members)) && ReachedInFragment(Obj(members), registry)
    requires ValidateSchema(Obj(members), registry, stack)
    requires Holds(leaf, registry, stack, members, PROPERTIES, v)
    requires ValidateSchema(Obj(Rewritten(RelaxedMembers(members))), RelaxedMembers(registry), stack)
    ensures PROPERTIES in Rewritten(RelaxedMembers(members))
    ensures Holds(leaf, RelaxedMembers(registry), stack, Rewritten(RelaxedMembers(members)), PROPERTIES, v)
    decreases registry.Keys - Names(stack), Obj(members), 0, 0
  {
    var registry', rewritten := RelaxedMembers(registry), Rewritten(RelaxedMembers(members));
    assert KeywordInFragment(members, PROPERTIES);
    var declared := members[PROPERTIES].members;
    assert rewritten[PROPERTIES] == Relaxed(members[PROPERTIES]) == Obj(Rewritten(RelaxedMembers(declared)));
    PropertiesSurvive(declared);
    assert ValidateSchema(members[PROPERTIES], registry, stack);
    MemberReached(members, PROPERTIES, registry);
    if v.Obj? {
      forall name | name in rewritten[PROPERTIES].members && name in v.members
        ensures ValidateSchema(rewritten[PROPERTIES].members[name], registry', stack)
        ensures Valid(leaf, registry', stack, rewritten[PROPERTIES].members[name], v.members[name])
      {
        MemberReached(declared, name, registry);
        RelaxationOnlyWeakens(leaf, registry, stack, declared[name], v.members[name]);
      }
    }
  }

  lemma {:induction false} AdditionalWeakens(leaf: Leaf, registry: Registry, stack: seq<string>, members: Members,
                                             v: Json)
    requires InFragment(Obj(members)) && ReachedInFragment(Obj(members), registry)
    requires ValidateSchema(Obj(members), registry, stack)
    requires Valid(leaf, registry, stack, Obj(members), v)
    requires ValidateSchema(Obj(Rewritten(RelaxedMembers(members))), RelaxedMembers(registry), stack)
    requires ADDITIONAL in Rewritten(RelaxedMembers(members))
    ensures Holds(leaf, RelaxedMembers(registry), stack, Rewritten(RelaxedMembers(members)), ADDITIONAL, v)
    decreases registry.Keys - Names(stack), Obj(members), 0, 0
  {
    var registry', rewritten := RelaxedMembers(registry), Rewritten(RelaxedMembers(members));
    AdditionalKept(members);
    HeldAt(leaf, registry, stack, members, ADDITIONAL, v);
    assert ValidateSchema(members[ADDITIONAL], registry, stack);
    MemberReached(members, ADDITIONAL, registry);
    if v.Obj? {
      forall name | name in v.members && name !in DeclaredNames(rewritten)
        ensures ValidateSchema(rewritten[ADDITIONAL], registry', stack)
        ensures Valid(leaf, registry', stack, rewritten[ADDITIONAL], v.members[name])
      {
        if name in DeclaredNames(members) {
          LostNameIsAdmitted(members, name);
        } else {
          RelaxationOnlyWeakens(leaf, registry, stack, members[ADDITIONAL], v.members[name]);
        }
      }
    }
  }

  lemma AdditionalKept(members: Members)
    requires ADDITIONAL in Rewritten(RelaxedMembers(members))
    ensures ADDITIONAL in members && members[ADDITIONAL] != Bool(false)
    ensures Rewritten(RelaxedMembers(members))[ADDITIONAL] == Relaxed(members[ADDITIONAL])
  {
    assert ADDITIONAL in members ==> RelaxedMembers(members)[ADDITIONAL] == Relaxed(members[ADDITIONAL]);
  }

  /** A property whose name the rewrite deletes falls to an `additionalProperties` that admits all. */
  lemma LostNameIsAdmitted(members: Members, name: string)
    requires InFragment(Obj(members)) && ADDITIONAL in Rewritten(RelaxedMembers(members))
    requires name in DeclaredNames(members) && name !in DeclaredNames(Rewritten(RelaxedMembers(members)))
    ensures Rewritten(RelaxedMembers(members))[ADDITIONAL] == Bool(true)
  {
    AdditionalKept(members);
    assert KeywordInFragment(members, PROPERTIES);
    var declared := members[PROPERTIES].members;
    PropertiesSurvive(declared);
    PropertiesKept(members);
    hide InFragment;
    hide Rewritten;
    assert LosesName(declared, name);
  }

  lemma PropertiesKept(members: Members)
    requires PROPERTIES in members && members[PROPERTIES].Obj?
    ensures PROPERTIES in Rewritten(RelaxedMembers(members))
    ensures Rewritten(RelaxedMembers(members))[PROPERTIES] ==
            Obj(Rewritten(RelaxedMembers(members[PROPERTIES].members)))
  {
    assert RelaxedMembers(members)[PROPERTIES] == Relaxed(members[PROPERTIES]);
  }

  // ----- whole responses -----

  /** The registry inside a components document, as `#/components/schemas/...` resolves it. */
  function RegistryOf(components: Json): Registry {
    if components.Obj? && "schemas" in components.members && components.members["schemas"].Obj?
    then components.members["schemas"].members
    else map[]
  }

  /** Over a generated catalog, a body that the declared response schema accepts is accepted by
      the root that response validation builds from the relaxed components and schema. */
  lemma ResponseValidationOnlyWeakens(leaf: Leaf, components: Json, schema: Json, v: Json)
    requires components.Obj? && "schemas" in components.members && components.members["schemas"].Obj?
    requires
      var registry := RegistryOf(components);
      && RegistryAccepted(registry) && AllResolve(schema, registry)
      && InFragment(schema) && ReachedInFragment(schema, registry)
      && ENUM !in registry && REQUIRED !in registry && ONE_OF !in registry
    ensures ValidateSchema(schema, RegistryOf(components), [])
    ensures ValidateSchema(Relaxed(schema), RegistryOf(Relaxed(components)), [])
    ensures Valid(leaf, RegistryOf(components), [], schema, v)
            ==> Valid(leaf, RegistryOf(Relaxed(components)), [], Relaxed(schema), v)
  {
    var registry := RegistryOf(components);
    OperationSchemaAcceptedIff(schema, registry);
    RegistrySurvivesIff(components.members, registry);
    RelaxedIsAccepted(schema, registry, []);
    if Valid(leaf, registry, [], schema, v) {
      RelaxationOnlyWeakens(leaf, registry, [], schema, v);
    }
  }

  /** Whether a body passes response validation does not depend on what schema and components declare
      as `enum` or `required`, or on where they close an object to further members. */
  lemma PinsAreNotJudged(leaf: Leaf, components: Json, schema: Json, otherComponents: Json, other: Json, v: Json)
    requires Unpinned(components) == Unpinned(otherComponents) && Unpinned(schema) == Unpinned(other)
    requires ValidateSchema(Relaxed(schema), RegistryOf(Relaxed(components)), [])
    ensures ValidateSchema(Relaxed(other), RegistryOf(Relaxed(otherComponents)), [])
    ensures Valid(leaf, RegistryOf(Relaxed(components)), [], Relaxed(schema), v) <==>
            Valid(leaf, RegistryOf(Relaxed(otherComponents)), [], Relaxed(other), v)
  {
    RelaxedIgnoresPins(components);
    RelaxedIgnoresPins(otherComponents);
    RelaxedIgnoresPins(schema);
    RelaxedIgnoresPins(other);
    hide *;
  }

  /** Does the declared `type` name the integers? */
  predicate DeclaresInteger(declared: Json) {
    declared == Str("integer") || (declared.Arr? && Str("integer") in declared.items)
  }

  /** After the rewrite a schema's `type` admits what was declared, null, and any number where
      an integer was declared; nothing else, so a wrong container is still refused. */
  lemma RelaxedTypeAdmits(leaf: Leaf, registry: Registry, stack: seq<string>, members: Members, v: Json)
    requires TYPE in members && KeywordInFragment(members, TYPE)
    requires ValidateSchema(Obj(members), registry, stack)
    ensures ValidateSchema(Relaxed(Obj(members)), RelaxedMembers(registry), stack)
    ensures TYPE in Rewritten(RelaxedMembers(members))
    ensures Holds(leaf, RelaxedMembers(registry), stack, Rewritten(RelaxedMembers(members)), TYPE, v) <==>
            TypeAdmits(members[TYPE], v) || v.Null? || (v.Num? && DeclaresInteger(members[TYPE]))
    ensures Valid(leaf, RelaxedMembers(registry), stack, Relaxed(Obj(members)), v) ==>
            TypeAdmits(members[TYPE], v) || v.Null? || (v.Num? && DeclaresInteger(members[TYPE]))
  {
    RelaxedIsAccepted(Obj(members), registry, stack);
    RelaxedNamesUnchanged(members[TYPE]);
    TypeWeakens(members[TYPE], v);
    assert Rewritten(RelaxedMembers(members))[TYPE] == Widened(members[TYPE]);
  }

  // ----- why the names are restricted -----

  const STRING_SCHEMA := Obj(map[TYPE := Str("string")])
  const TRUE := Bool(true)

  lemma StringSchemaAccepted()
    ensures ValidateSchema(STRING_SCHEMA, map[], [])
    ensures RelaxedMembers(map[]) == map[]
  {
    assert forall k | k in STRING_SCHEMA.members :: STRING_SCHEMA.members[k] == Str("string");
  }

  lemma RelaxedStringRefusesTrue(leaf: Leaf)
    ensures ValidateSchema(STRING_SCHEMA, map[], []) && ValidateSchema(Relaxed(STRING_SCHEMA), map[], [])
    ensures !Valid(leaf, map[], [], Relaxed(STRING_SCHEMA), TRUE)
  {
    var members := map[TYPE := Str("string")];
    StringSchemaAccepted();
    hide ValidateSchema;
    hide Valid;
    hide Relaxed;
    hide Holds;
    hide RelaxedMembers;
    RelaxedTypeAdmits(leaf, map[], [], members, TRUE);
  }

  lemma OnlyMemberRelaxed(k: string, value: Json)
    requires k !in {ENUM, REQUIRED, ONE_OF, TYPE} && !(k == ADDITIONAL && value == Bool(false))
    ensures Relaxed(Obj(map[k := value])) == Obj(map[k := Relaxed(value)])
  {
    assert RelaxedMembers(map[k := value]) == map[k := Relaxed(value)];
    assert ADDITIONAL == k ==> Relaxed(value) != Bool(false);
    assert Rewritten(map[k := Relaxed(value)]) == map[k := Relaxed(value)];
  }

  lemma PropertyRefuses(leaf: Leaf, name: string, property: Json, x: Json)
    requires name != REF && ValidateSchema(property, map[], []) && !Valid(leaf, map[], [], property, x)
    ensures ValidateSchema(Obj(map[PROPERTIES := Obj(map[name := property])]), map[], [])
    ensures !Valid(leaf, map[], [], Obj(map[PROPERTIES := Obj(map[name := property])]), Obj(map[name := x]))
  {
    var members := map[PROPERTIES := Obj(map[name := property])];
    assert ValidateSchema(members[PROPERTIES], map[], []);
    assert ValidateSchema(Obj(members), map[], []);
    var v := Obj(map[name := x]);
    assert name in members[PROPERTIES].members && name in v.members;
    assert !Valid(leaf, map[], [], members[PROPERTIES].members[name], v.members[name]);
    assert !Holds(leaf, map[], [], members, PROPERTIES, v);
  }

  lemma UndeclaredMemberAccepted(leaf: Leaf, name: string, property: Json, other: string, x: Json)
    requires name != REF && other != name && ValidateSchema(property, map[], [])
    ensures ValidateSchema(Obj(map[PROPERTIES := Obj(map[name := property])]), map[], [])
    ensures Valid(leaf, map[], [], Obj(map[PROPERTIES := Obj(map[name := property])]), Obj(map[other := x]))
  {
    var members := map[PROPERTIES := Obj(map[name := property])];
    assert ValidateSchema(members[PROPERTIES], map[], []);
    assert ValidateSchema(Obj(members), map[], []);
    assert Holds(leaf, map[], [], members, PROPERTIES, Obj(map[other := x]));
  }

  /** A declared property called `oneOf` becomes one called `anyOf`, and starts to constrain it. */
  lemma PropertyCalledOneOfStrengthens(leaf: Leaf)
    ensures
      var schema := Obj(map[PROPERTIES := Obj(map[ONE_OF := STRING_SCHEMA])]);
      var v := Obj(map[ANY_OF := TRUE]);
      && ValidateSchema(schema, map[], []) && ValidateSchema(Relaxed(schema), map[], [])
      && Valid(leaf, map[], [], schema, v) && !Valid(leaf, map[], [], Relaxed(schema), v)
  {
    var declared := map[ONE_OF := STRING_SCHEMA];
    RelaxedStringRefusesTrue(leaf);
    UndeclaredMemberAccepted(leaf, ONE_OF, STRING_SCHEMA, ANY_OF, TRUE);
    OneOfPropertyRenamed();
    hide Relaxed;
    hide Valid;
    hide ValidateSchema;
    PropertyRefuses(leaf, ANY_OF, Relaxed(STRING_SCHEMA), TRUE);
  }

  lemma OneOfPropertyRenamed()
    ensures Relaxed(Obj(map[PROPERTIES := Obj(map[ONE_OF := STRING_SCHEMA])]))
            == Obj(map[PROPERTIES := Obj(map[ANY_OF := Relaxed(STRING_SCHEMA)])])
  {
    var declared := map[ONE_OF := STRING_SCHEMA];
    OnlyMemberRelaxed(PROPERTIES, Obj(declared));
    assert RelaxedMembers(declared) == map[ONE_OF := Relaxed(STRING_SCHEMA)];
    assert Rewritten(map[ONE_OF := Relaxed(STRING_SCHEMA)]) == map[ANY_OF := Relaxed(STRING_SCHEMA)];
  }

  /** A declared property called `enum` is deleted, and an `additionalProperties` schema takes it over. */
  lemma PropertyCalledEnumStrengthens(leaf: Leaf)
    ensures
      var schema := Obj(map[PROPERTIES := Obj(map[ENUM := TRUE]), ADDITIONAL := STRING_SCHEMA]);
      var v := Obj(map[ENUM := TRUE]);
      && ValidateSchema(schema, map[], []) && ValidateSchema(Relaxed(schema), map[], [])
      && Valid(leaf, map[], [], schema, v) && !Valid(leaf, map[], [], Relaxed(schema), v)
  {
    EnumPropertyAccepted(leaf);
    EnumPropertyRelaxed();
    EnumPropertyRefused(leaf);
    hide Relaxed;
    hide Valid;
    hide ValidateSchema;
  }

  lemma EnumPropertyRefused(leaf: Leaf)
    ensures
      var after := Obj(map[PROPERTIES := Obj(map[]), ADDITIONAL := Relaxed(STRING_SCHEMA)]);
      ValidateSchema(after, map[], []) && !Valid(leaf, map[], [], after, Obj(map[ENUM := TRUE]))
  {
    RelaxedStringRefusesTrue(leaf);
    hide Relaxed;
    var after := map[PROPERTIES := Obj(map[]), ADDITIONAL := Relaxed(STRING_SCHEMA)];
    assert ValidateSchema(Obj(map[]), map[], []) && ValidateSchema(Obj(after), map[], []);
    var v := Obj(map[ENUM := TRUE]);
    assert ENUM in v.members && ENUM !in DeclaredNames(after);
    assert !Valid(leaf, map[], [], after[ADDITIONAL], v.members[ENUM]);
    assert !Holds(leaf, map[], [], after, ADDITIONAL, v);
  }

  lemma EnumPropertyAccepted(leaf: Leaf)
    ensures
      var schema := Obj(map[PROPERTIES := Obj(map[ENUM := TRUE]), ADDITIONAL := STRING_SCHEMA]);
      ValidateSchema(schema, map[], []) && Valid(leaf, map[], [], schema, Obj(map[ENUM := TRUE]))
  {
    var members, v := map[PROPERTIES := Obj(map[ENUM := TRUE]), ADDITIONAL := STRING_SCHEMA], Obj(map[ENUM := TRUE]);
    RelaxedStringRefusesTrue(leaf);
    assert ValidateSchema(members[PROPERTIES], map[], []) && ValidateSchema(Obj(members), map[], []);
    assert Holds(leaf, map[], [], members, PROPERTIES, v) && Holds(leaf, map[], [], members, ADDITIONAL, v);
  }

  lemma EnumPropertyRelaxed()
    ensures Relaxed(Obj(map[PROPERTIES := Obj(map[ENUM := TRUE]), ADDITIONAL := STRING_SCHEMA]))
            == Obj(map[PROPERTIES := Obj(map[]), ADDITIONAL := Relaxed(STRING_SCHEMA)])
  {
    assert Rewritten(RelaxedMembers(map[ENUM := TRUE])) == map[];
    var members := map[PROPERTIES := Obj(map[ENUM := TRUE]), ADDITIONAL := STRING_SCHEMA];
    var after := map[PROPERTIES := Obj(map[]), ADDITIONAL := Relaxed(STRING_SCHEMA)];
    assert RelaxedMembers(members) == after;
    assert Rewritten(after) == after;
  }
}
