/** Validity of a JSON value under a schema, for a positive fragment of JSON Schema 2020-12. */
module SchemaSemantics {
  import opened JsonValues
  import opened SchemaReferences
  import R = Relaxation

  /** The verdict of a keyword this model leaves uninterpreted: keyword, its value, the instance. */
  type Leaf = (string, Json, Json) -> bool

  const ALL_OF := "allOf"
  const ITEMS := "items"
  const PROPERTIES := "properties"
  /** Keywords that carry no assertion. */
  const ANNOTATIONS := {"title", "description", "default", "example", "examples", "deprecated",
                        "readOnly", "writeOnly", "$comment"}
  /** Keywords outside the fragment: negative, conditional, constant, or holding subschemas of their own. */
  const EXCLUDED := {"not", "if", "then", "else", "const", "contains", "minContains", "maxContains", "prefixItems",
                     "patternProperties", "propertyNames", "dependentSchemas", "dependentRequired", "unevaluatedItems",
                     "unevaluatedProperties", "$defs", "$dynamicRef", "components"}

  // ----- leaf assertions -----

  predicate IsType(name: string, v: Json) {
    match name
    case "null" => v.Null?
    case "boolean" => v.Bool?
    case "number" => v.Num?
    case "integer" => v.Num? && v.number.Floor as real == v.number
    case "string" => v.Str?
    case "array" => v.Arr?
    case "object" => v.Obj?
    case _ => false
  }

  /** Validation section 6.1.1. */
  predicate TypeAdmits(declared: Json, v: Json) {
    match declared
    case Str(name) => IsType(name, v)
    case Arr(names) => exists name | name in names :: name.Str? && IsType(name.text, v)
    case _ => true
  }

  /** Validation section 6.5.3. */
  predicate HasRequired(required: Json, v: Json) {
    required.Arr? && v.Obj? ==>
      forall name | name in required.items && name.Str? :: name.text in v.members
  }

  function DeclaredNames(members: R.Members): set<string> {
    if PROPERTIES in members && members[PROPERTIES].Obj? then members[PROPERTIES].members.Keys else {}
  }

  // ----- validity -----

  /** `v` satisfies `schema`. A followed reference leaves the names still available to the
      reference check, which is what makes the definition well-founded. */
  ghost predicate Valid(leaf: Leaf, registry: Registry, stack: seq<string>, schema: Json, v: Json)
    requires ValidateSchema(schema, registry, stack)
    decreases registry.Keys - Names(stack), schema, 1
  {
    match schema
    case Bool(verdict) => verdict
    case Obj(members) => forall k | k in members :: Holds(leaf, registry, stack, members, k, v)
    case _ => true
  }

  /** The assertion one keyword of an object schema makes about `v`. */
  ghost predicate Holds(leaf: Leaf, registry: Registry, stack: seq<string>, members: R.Members, k: string, v: Json)
    requires ValidateSchema(Obj(members), registry, stack)
    requires k in members
    decreases registry.Keys - Names(stack), Obj(members), 0
  {
    if k == REF then
      match ReferenceOf(members, registry, stack)
      case Follow(name) =>
        assert name in registry.Keys - Names(stack) && name in Names(stack + [name]);
        Valid(leaf, registry, stack + [name], registry[name], v)
      case _ => true
    else
    assert ValidateSchema(members[k], registry, stack);
    if k == ALL_OF then
      members[k].Arr? ==> forall s | s in members[k].items :: Valid(leaf, registry, stack, s, v)
    else if k == R.ANY_OF then
      members[k].Arr? ==> exists s | s in members[k].items :: Valid(leaf, registry, stack, s, v)
    else if k == R.ONE_OF then
      members[k].Arr? ==> ExactlyOne(leaf, registry, stack, members[k].items, Obj(members), v)
    else if k == PROPERTIES then
      members[k].Obj? && v.Obj? ==>
        forall name | name in members[k].members && name != REF && name in v.members ::
          Valid(leaf, registry, stack, members[k].members[name], v.members[name])
    else if k == R.ADDITIONAL then
      v.Obj? ==>
        forall name | name in v.members && name !in DeclaredNames(members) ::
          Valid(leaf, registry, stack, members[k], v.members[name])
    else if k == ITEMS then
      v.Arr? ==> forall x | x in v.items :: Valid(leaf, registry, stack, members[k], x)
    else if k == R.TYPE then TypeAdmits(members[k], v)
    else if k == R.ENUM then members[k].Arr? ==> v in members[k].items
    else if k == R.REQUIRED then HasRequired(members[k], v)
    else if k in ANNOTATIONS then true
    else leaf(k, members[k], v)
  }

  /** Core section 10.2.1.3: exactly one position holds a schema that accepts `v`. */
  ghost predicate ExactlyOne(leaf: Leaf, registry: Registry, stack: seq<string>, branches: seq<Json>, within: Json,
                             v: Json)
    requires forall s | s in branches :: s < within && ValidateSchema(s, registry, stack)
    decreases registry.Keys - Names(stack), within, 0, 0
  {
    exists i | 0 <= i < |branches| ::
      && Valid(leaf, registry, stack, branches[i], v)
      && forall j | 0 <= j < |branches| && j != i :: !Valid(leaf, registry, stack, branches[j], v)
  }

  /** Validity does not depend on which references were followed on the way to a schema. */
  lemma {:induction false} ValidityIgnoresStack(leaf: Leaf, registry: Registry, a: seq<string>, b: seq<string>,
                                                schema: Json, v: Json)
    requires ValidateSchema(schema, registry, a) && ValidateSchema(schema, registry, b)
    ensures Valid(leaf, registry, a, schema, v) <==> Valid(leaf, registry, b, schema, v)
    decreases registry.Keys - Names(a), schema, 1
  {
    match schema
    case Obj(members) =>
      forall k | k in members
        ensures Holds(leaf, registry, a, members, k, v) <==> Holds(leaf, registry, b, members, k, v)
      {
        KeywordIgnoresStack(leaf, registry, a, b, members, k, v);
      }
    case _ =>
  }

  lemma {:induction false} KeywordIgnoresStack(leaf: Leaf, registry: Registry, a: seq<string>, b: seq<string>,
                                               members: R.Members, k: string, v: Json)
    requires ValidateSchema(Obj(members), registry, a) && ValidateSchema(Obj(members), registry, b)
    requires k in members
    ensures Holds(leaf, registry, a, members, k, v) <==> Holds(leaf, registry, b, members, k, v)
    decreases registry.Keys - Names(a), Obj(members), 0, 1
  {
    hide *;
    if k == REF {
      ReferenceIgnoresStack(leaf, registry, a, b, members, k, v);
    } else if k in {ALL_OF, R.ANY_OF, R.ONE_OF} {
      CombinationIgnoresStack(leaf, registry, a, b, members, k, v);
    } else if k in {PROPERTIES, R.ADDITIONAL, ITEMS} {
      ContainerIgnoresStack(leaf, registry, a, b, members, k, v);
    } else {
      LeafIgnoresStack(leaf, registry, a, b, members, k, v);
    }
  }

  lemma {:induction false} ReferenceIgnoresStack(leaf: Leaf, registry: Registry, a: seq<string>, b: seq<string>,
                                                 members: R.Members, k: string, v: Json)
    requires ValidateSchema(Obj(members), registry, a) && ValidateSchema(Obj(members), registry, b)
    requires k in members && k == REF
    ensures Holds(leaf, registry, a, members, k, v) <==> Holds(leaf, registry, b, members, k, v)
    decreases registry.Keys - Names(a), Obj(members), 0, 0
  {
    assert ReferenceOf(members, registry, a) == ReferenceOf(members, registry, b);
    var reference := ReferenceOf(members, registry, a);
    if reference.Follow? {
      var name := reference.name;
      assert name in registry.Keys - Names(a) && name in Names(a + [name]);
      ValidityIgnoresStack(leaf, registry, a + [name], b + [name], registry[name], v);
    }
  }

  lemma {:induction false} CombinationIgnoresStack(leaf: Leaf, registry: Registry, a: seq<string>, b: seq<string>,
                                                   members: R.Members, k: string, v: Json)
    requires ValidateSchema(Obj(members), registry, a) && ValidateSchema(Obj(members), registry, b)
    requires k in members && k in {ALL_OF, R.ANY_OF, R.ONE_OF}
    ensures Holds(leaf, registry, a, members, k, v) <==> Holds(leaf, registry, b, members, k, v)
    decreases registry.Keys - Names(a), Obj(members), 0, 0
  {
    var child := members[k];
    assert ValidateSchema(child, registry, a) && ValidateSchema(child, registry, b);
    if k == R.ONE_OF && child.Arr? {
      OneOfIgnoresStack(leaf, registry, a, b, child, Obj(members), v);
    } else if child.Arr? {
      BranchesIgnoreStack(leaf, registry, a, b, child, v);
    }
  }

  lemma {:induction false} ContainerIgnoresStack(leaf: Leaf, registry: Registry, a: seq<string>, b: seq<string>,
                                                 members: R.Members, k: string, v: Json)
    requires ValidateSchema(Obj(members), registry, a) && ValidateSchema(Obj(members), registry, b)
    requires k in members && k in {PROPERTIES, R.ADDITIONAL, ITEMS}
    ensures Holds(leaf, registry, a, members, k, v) <==> Holds(leaf, registry, b, members, k, v)
    decreases registry.Keys - Names(a), Obj(members), 0, 0
  {
    var child := members[k];
    assert ValidateSchema(child, registry, a) && ValidateSchema(child, registry, b);
    if k == PROPERTIES && child.Obj? && v.Obj? {
      forall name | name in child.members && name != REF && name in v.members
        ensures Valid(leaf, registry, a, child.members[name], v.members[name])
                <==> Valid(leaf, registry, b, child.members[name], v.members[name])
      {
        ValidityIgnoresStack(leaf, registry, a, b, child.members[name], v.members[name]);
      }
    } else if k == R.ADDITIONAL && v.Obj? {
      forall name | name in v.members
        ensures Valid(leaf, registry, a, child, v.members[name]) <==> Valid(leaf, registry, b, child, v.members[name])
      {
        ValidityIgnoresStack(leaf, registry, a, b, child, v.members[name]);
      }
    } else if k == ITEMS && v.Arr? {
      forall x | x in v.items
        ensures Valid(leaf, registry, a, child, x) <==> Valid(leaf, registry, b, child, x)
      {
        ValidityIgnoresStack(leaf, registry, a, b, child, x);
      }
    }
  }

  lemma LeafIgnoresStack(leaf: Leaf, registry: Registry, a: seq<string>, b: seq<string>, members: R.Members, k: string,
                         v: Json)
    requires ValidateSchema(Obj(members), registry, a) && ValidateSchema(Obj(members), registry, b)
    requires k in members && k !in {REF, ALL_OF, R.ANY_OF, R.ONE_OF, PROPERTIES, R.ADDITIONAL, ITEMS}
    ensures Holds(leaf, registry, a, members, k, v) <==> Holds(leaf, registry, b, members, k, v)
  {
  }

  lemma {:induction false} BranchesIgnoreStack(leaf: Leaf, registry: Registry, a: seq<string>, b: seq<string>,
                                               branches: Json, v: Json)
    requires branches.Arr? && ValidateSchema(branches, registry, a) && ValidateSchema(branches, registry, b)
    ensures forall s | s in branches.items :: ValidateSchema(s, registry, a) && ValidateSchema(s, registry, b)
    ensures forall s | s in branches.items :: Valid(leaf, registry, a, s, v) <==> Valid(leaf, registry, b, s, v)
    decreases registry.Keys - Names(a), branches, 0
  {
    forall s | s in branches.items
      ensures ValidateSchema(s, registry, a) && ValidateSchema(s, registry, b)
      ensures Valid(leaf, registry, a, s, v) <==> Valid(leaf, registry, b, s, v)
    {
      ValidityIgnoresStack(leaf, registry, a, b, s, v);
    }
  }

  lemma {:induction false} OneOfIgnoresStack(leaf: Leaf, registry: Registry, a: seq<string>, b: seq<string>,
                                             branches: Json, within: Json, v: Json)
    requires branches.Arr? && ValidateSchema(branches, registry, a) && ValidateSchema(branches, registry, b)
    requires forall s | s in branches.items ::
               s < within && ValidateSchema(s, registry, a) && ValidateSchema(s, registry, b)
    ensures ExactlyOne(leaf, registry, a, branches.items, within, v) <==>
            ExactlyOne(leaf, registry, b, branches.items, within, v)
    decreases registry.Keys - Names(a), branches, 1
  {
    BranchesIgnoreStack(leaf, registry, a, b, branches, v);
    if ExactlyOne(leaf, registry, a, branches.items, within, v) {
      ExactlyOneCarries(leaf, registry, a, b, branches.items, within, v);
    }
    if ExactlyOne(leaf, registry, b, branches.items, within, v) {
      ExactlyOneCarries(leaf, registry, b, a, branches.items, within, v);
    }
  }

  lemma ExactlyOneCarries(leaf: Leaf, registry: Registry, a: seq<string>, b: seq<string>, branches: seq<Json>,
                          within: Json, v: Json)
    requires forall s | s in branches :: s < within && ValidateSchema(s, registry, a) && ValidateSchema(s, registry, b)
    requires forall s | s in branches :: Valid(leaf, registry, a, s, v) <==> Valid(leaf, registry, b, s, v)
    requires ExactlyOne(leaf, registry, a, branches, within, v)
    ensures ExactlyOne(leaf, registry, b, branches, within, v)
  {
    hide Valid;
    hide ValidateSchema;
    var i :| 0 <= i < |branches| && Valid(leaf, registry, a, branches[i], v)
             && forall j | 0 <= j < |branches| && j != i :: !Valid(leaf, registry, a, branches[j], v);
    assert branches[i] in branches;
    forall j | 0 <= j < |branches| && j != i ensures !Valid(leaf, registry, b, branches[j], v) {
      assert branches[j] in branches;
    }
  }
}
