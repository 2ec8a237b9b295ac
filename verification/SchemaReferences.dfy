/** The generator's check that every schema reference is local, resolvable and acyclic. */
module SchemaReferences {
  import opened Wrappers
  import opened JsonValues

  /** The `components.schemas` registry. */
  type Registry = map<string, Json>

  const REF := "$ref"
  const SCHEMA_PREFIX := "#/components/schemas/"

  function Names(stack: seq<string>): set<string> {
    set name | name in stack
  }

  /** What the walk makes of an object's `$ref` member, in the order it tests. */
  datatype Reference = Absent | Unsupported | Cyclic | Unresolved | Follow(name: string)

  function ReferenceOf(members: map<string, Json>, registry: Registry, stack: seq<string>): Reference {
    if REF !in members || members[REF].Null? then Absent
    else if !members[REF].Str? || !(SCHEMA_PREFIX <= members[REF].text) then Unsupported
    else
      var name := members[REF].text[|SCHEMA_PREFIX|..];
      if name in stack then Cyclic
      else if name !in registry || !registry[name].Obj? then Unresolved
      else Follow(name)
  }

  /** True when the walk returns, false when it raises. It terminates on every finite
      registry: a followed name is new to the stack, and otherwise the schema shrinks. */
  predicate ValidateSchema(schema: Json, registry: Registry, stack: seq<string>)
    decreases registry.Keys - Names(stack), schema
  {
    match schema
    case Arr(items) => forall v | v in items :: ValidateSchema(v, registry, stack)
    case Obj(members) =>
      && (match ReferenceOf(members, registry, stack)
          case Absent => true
          case Follow(name) =>
            assert name in registry.Keys - Names(stack) && name in Names(stack + [name]);
            ValidateSchema(registry[name], registry, stack + [name])
          case _ => false)
      && forall k | k in members && k != REF :: ValidateSchema(members[k], registry, stack)
    case _ => true
  }

  /** What generation demands before it emits a catalog. */
  predicate RegistryAccepted(registry: Registry) {
    forall name | name in registry ::
      registry[name].Obj? && ValidateSchema(registry[name], registry, [name])
  }

  // ----- the reference graph -----

  /** Somewhere in `schema` an object refers to the component `name`. */
  predicate Refers(schema: Json, name: string) {
    match schema
    case Arr(items) => exists v | v in items :: Refers(v, name)
    case Obj(members) =>
      || ("$ref" in members && members["$ref"] == Str("#/components/schemas/" + name))
      || exists k | k in members && k != "$ref" :: Refers(members[k], name)
    case _ => false
  }

  /** Every `$ref` in `schema` that is not null is the local text that names an object of the registry. */
  predicate AllResolve(schema: Json, registry: Registry) {
    match schema
    case Arr(items) => forall v | v in items :: AllResolve(v, registry)
    case Obj(members) =>
      && ("$ref" in members ==>
            || members["$ref"].Null?
            || exists name | name in registry && registry[name].Obj? ::
                 members["$ref"] == Str("#/components/schemas/" + name))
      && forall k | k in members && k != "$ref" :: AllResolve(members[k], registry)
    case _ => true
  }

  predicate Edge(registry: Registry, source: string, target: string) {
    source in registry && Refers(registry[source], target)
  }

  /** Consecutive names are joined by references. */
  predicate Walk(registry: Registry, names: seq<string>) {
    names != [] && forall i :: 0 <= i < |names| - 1 ==> Edge(registry, names[i], names[i + 1])
  }

  /** No walk returns to where it started. */
  ghost predicate Acyclic(registry: Registry) {
    forall names | Walk(registry, names) && |names| > 1 :: names[0] != names[|names| - 1]
  }

  ghost predicate WellFormed(registry: Registry) {
    && Acyclic(registry)
    && forall name | name in registry :: registry[name].Obj? && AllResolve(registry[name], registry)
  }

  lemma SameName(prefix: string, a: string, b: string)
    ensures prefix + a == prefix + b ==> a == b
  {
    assert (prefix + a)[|prefix|..] == a && (prefix + b)[|prefix|..] == b;
  }

  lemma {:induction false} ResolvedNamesExist(schema: Json, registry: Registry, name: string)
    requires AllResolve(schema, registry) && Refers(schema, name)
    ensures name in registry && registry[name].Obj?
  {
    match schema
    case Arr(items) =>
      var v :| v in items && Refers(v, name);
      ResolvedNamesExist(v, registry, name);
    case Obj(members) =>
      if REF in members && members[REF] == Str(SCHEMA_PREFIX + name) {
        var known :| known in registry && registry[known].Obj? && members[REF] == Str(SCHEMA_PREFIX + known);
        SameName(SCHEMA_PREFIX, name, known);
      } else {
        var k :| k in members && k != REF && Refers(members[k], name);
        ResolvedNamesExist(members[k], registry, name);
      }
    case _ =>
  }

  /** One level of the walk, stated on the reference graph. */
  lemma {:induction false} AcceptedIff(schema: Json, registry: Registry, stack: seq<string>)
    ensures ValidateSchema(schema, registry, stack) <==>
            && AllResolve(schema, registry)
            && forall name | name in registry && Refers(schema, name) ::
                 name !in stack && ValidateSchema(registry[name], registry, stack + [name])
    decreases schema
  {
    match schema
    case Arr(items) =>
      forall v | v in items { AcceptedIff(v, registry, stack); }
    case Obj(members) =>
      forall k | k in members && k != REF { AcceptedIff(members[k], registry, stack); }
      if REF in members && members[REF].Str? && SCHEMA_PREFIX <= members[REF].text {
        var target := members[REF].text[|SCHEMA_PREFIX|..];
        assert members[REF].text == SCHEMA_PREFIX + target;
        forall name ensures SCHEMA_PREFIX + name == SCHEMA_PREFIX + target ==> name == target {
          SameName(SCHEMA_PREFIX, name, target);
        }
        assert Refers(schema, target);
      }
    case _ =>
  }

  /** Acceptance of a component follows every walk that starts there. */
  lemma {:induction false} AcceptedAlongWalk(registry: Registry, names: seq<string>, last: nat)
    requires RegistryAccepted(registry) && Walk(registry, names) && last < |names|
    requires names[0] in registry
    ensures names[last] in registry
    ensures ValidateSchema(registry[names[last]], registry, names[..last + 1])
    ensures last > 0 ==> names[last] !in names[..last]
  {
    if last == 0 {
      assert names[..1] == [names[0]];
    } else {
      AcceptedAlongWalk(registry, names, last - 1);
      var before := names[..last];
      assert Edge(registry, names[last - 1], names[last - 1 + 1]);
      AcceptedIff(registry[names[last - 1]], registry, before);
      ResolvedNamesExist(registry[names[last - 1]], registry, names[last]);
      assert before + [names[last]] == names[..last + 1];
    }
  }

  lemma WalkExtended(registry: Registry, names: seq<string>, next: string)
    requires names == [] || (Walk(registry, names) && Edge(registry, names[|names| - 1], next))
    ensures Walk(registry, names + [next])
  {
    var longer := names + [next];
    forall i | 0 <= i < |longer| - 1 ensures Edge(registry, longer[i], longer[i + 1]) {
      if i < |names| - 1 {
        assert Edge(registry, names[i], names[i + 1]);
      }
    }
  }

  lemma ReturningIsCyclic(registry: Registry, names: seq<string>, next: string)
    requires Walk(registry, names) && Edge(registry, names[|names| - 1], next)
    ensures next in names ==> !Acyclic(registry)
  {
    if next in names {
      var i :| 0 <= i < |names| && names[i] == next;
      var longer := names + [next];
      WalkExtended(registry, names, next);
      var loop := longer[i..];
      assert loop[0] == loop[|loop| - 1];
      forall j | 0 <= j < |loop| - 1 ensures Edge(registry, loop[j], loop[j + 1]) {
        assert Edge(registry, longer[i + j], longer[i + j + 1]);
      }
      assert Walk(registry, loop);
    }
  }

  /** With an acyclic, resolving registry the walk never raises. */
  lemma {:induction false} WellFormedIsAccepted(schema: Json, registry: Registry, stack: seq<string>)
    requires WellFormed(registry) && AllResolve(schema, registry)
    requires stack != [] ==>
      Walk(registry, stack) && stack[|stack| - 1] in registry && schema == registry[stack[|stack| - 1]]
    ensures ValidateSchema(schema, registry, stack)
    decreases registry.Keys - Names(stack)
  {
    forall name | name in registry && Refers(schema, name)
      ensures name !in stack && ValidateSchema(registry[name], registry, stack + [name])
    {
      var longer := stack + [name];
      assert stack != [] ==> Edge(registry, stack[|stack| - 1], name);
      if stack != [] { ReturningIsCyclic(registry, stack, name); }
      assert name in registry.Keys - Names(stack) && name in Names(longer);
      WalkExtended(registry, stack, name);
      WellFormedIsAccepted(registry[name], registry, longer);
    }
    AcceptedIff(schema, registry, stack);
  }

  /** Every component passes exactly when all references resolve and none is circular. */
  lemma RegistryAcceptedIffWellFormed(registry: Registry)
    ensures RegistryAccepted(registry) <==> WellFormed(registry)
  {
    if RegistryAccepted(registry) {
      forall name | name in registry ensures AllResolve(registry[name], registry) {
        AcceptedIff(registry[name], registry, [name]);
      }
      forall names | Walk(registry, names) && |names| > 1
        ensures names[0] != names[|names| - 1]
      {
        assert Edge(registry, names[0], names[0 + 1]);
        AcceptedAlongWalk(registry, names, |names| - 1);
        assert names[0] in names[..|names| - 1];
      }
    }
    if WellFormed(registry) {
      forall name | name in registry ensures ValidateSchema(registry[name], registry, [name]) {
        WellFormedIsAccepted(registry[name], registry, [name]);
      }
    }
  }

  /** Over an accepted registry, an operation's own schema passes exactly when its references resolve. */
  lemma OperationSchemaAcceptedIff(schema: Json, registry: Registry)
    requires RegistryAccepted(registry)
    ensures ValidateSchema(schema, registry, []) <==> AllResolve(schema, registry)
  {
    RegistryAcceptedIffWellFormed(registry);
    AcceptedIff(schema, registry, []);
    if AllResolve(schema, registry) {
      WellFormedIsAccepted(schema, registry, []);
    }
  }

  // ----- resolving one component reference -----

  function Prefix(collection: string): string {
    "#/components/" + collection + "/"
  }

  /** The name an object refers to in `collection`, when it refers to one that exists. */
  function NextName(value: map<string, Json>, collection: string, table: Registry): Option<string> {
    if REF in value && value[REF].Str? && Prefix(collection) <= value[REF].text &&
       value[REF].text[|Prefix(collection)|..] in table &&
       table[value[REF].text[|Prefix(collection)|..]].Obj?
    then Some(value[REF].text[|Prefix(collection)|..])
    else None
  }

  predicate HasNoReference(value: map<string, Json>) {
    REF in value ==> value[REF].Null?
  }

  /** Follow references until an object has none; `None` stands for the raised error. */
  function ResolveComponent(value: map<string, Json>, collection: string, table: Registry, seen: set<string>)
    : Option<map<string, Json>>
    decreases table.Keys - seen
  {
    if HasNoReference(value) then Some(value)
    else
      match NextName(value, collection, table)
      case Some(name) =>
        if name in seen then None
        else
          assert name in table.Keys - seen;
          ResolveComponent(table[name].members, collection, table, seen + {name})
      case None => None
  }

  /** Following `chain` name by name from `value` arrives at `end`, which has no reference. */
  predicate LeadsTo(value: map<string, Json>, collection: string, table: Registry, chain: seq<string>,
                    end: map<string, Json>)
    decreases |chain|
  {
    if chain == [] then ("$ref" in value ==> value["$ref"].Null?) && end == value
    else
      && "$ref" in value
      && value["$ref"] == Str("#/components/" + collection + "/" + chain[0])
      && chain[0] in table && table[chain[0]].Obj?
      && LeadsTo(table[chain[0]].members, collection, table, chain[1..], end)
  }

  ghost predicate Arrives(value: map<string, Json>, collection: string, table: Registry, end: map<string, Json>) {
    exists chain :: LeadsTo(value, collection, table, chain, end)
  }

  /** The next name is the one the text of `$ref` ends in. */
  lemma NextNameIff(value: map<string, Json>, collection: string, table: Registry, name: string)
    ensures NextName(value, collection, table) == Some(name) <==>
            && "$ref" in value && value["$ref"] == Str("#/components/" + collection + "/" + name)
            && name in table && table[name].Obj?
  {
    if "$ref" in value && value["$ref"].Str? && Prefix(collection) <= value["$ref"].text {
      var next := value["$ref"].text[|Prefix(collection)|..];
      assert value["$ref"].text == Prefix(collection) + next;
      SameName(Prefix(collection), name, next);
    }
  }

  lemma {:induction false} ChainIsUnique(value: map<string, Json>, collection: string, table: Registry,
                                         a: seq<string>, b: seq<string>,
                                         endA: map<string, Json>, endB: map<string, Json>)
    requires LeadsTo(value, collection, table, a, endA) && LeadsTo(value, collection, table, b, endB)
    ensures a == b && endA == endB
    decreases |a|
  {
    if a != [] {
      SameName("#/components/" + collection + "/", a[0], b[0]);
      ChainIsUnique(table[a[0]].members, collection, table, a[1..], b[1..], endA, endB);
      assert a == [a[0]] + a[1..] && b == [b[0]] + b[1..];
    }
  }

  lemma {:induction false} ResolvedChain(value: map<string, Json>, collection: string, table: Registry,
                                         seen: set<string>)
    returns (chain: seq<string>)
    requires ResolveComponent(value, collection, table, seen).Some?
    ensures LeadsTo(value, collection, table, chain, ResolveComponent(value, collection, table, seen).value)
    decreases table.Keys - seen
  {
    if HasNoReference(value) {
      chain := [];
    } else {
      var name := NextName(value, collection, table).value;
      NextNameIff(value, collection, table, name);
      assert name in table.Keys - seen;
      var rest := ResolvedChain(table[name].members, collection, table, seen + {name});
      chain := [name] + rest;
      assert chain[1..] == rest;
    }
  }

  /** A chain that ends never meets a name already seen on the way to it. */
  lemma {:induction false} ChainResolves(value: map<string, Json>, collection: string, table: Registry,
                                         seen: set<string>,
                                         chain: seq<string>, end: map<string, Json>)
    requires LeadsTo(value, collection, table, chain, end)
    requires forall name | name in seen :: name in table && table[name].Obj? &&
               exists longer :: |longer| >= |chain| && LeadsTo(table[name].members, collection, table, longer, end)
    ensures ResolveComponent(value, collection, table, seen) == Some(end)
    decreases |chain|
  {
    if chain != [] {
      var name, rest := chain[0], chain[1..];
      NextNameIff(value, collection, table, name);
      if name in seen {
        var longer :| |longer| >= |chain| && LeadsTo(table[name].members, collection, table, longer, end);
        ChainIsUnique(table[name].members, collection, table, longer, rest, end, end);
        assert false;
      }
      ChainResolves(table[name].members, collection, table, seen + {name}, rest, end);
    }
  }

  /** Resolution succeeds exactly on finite chains of existing references, and returns where they end. */
  lemma ResolveComponentIff(value: map<string, Json>, collection: string, table: Registry, end: map<string, Json>)
    ensures ResolveComponent(value, collection, table, {}) == Some(end) <==>
            Arrives(value, collection, table, end)
  {
    if ResolveComponent(value, collection, table, {}) == Some(end) {
      var chain := ResolvedChain(value, collection, table, {});
    }
    if Arrives(value, collection, table, end) {
      var chain :| LeadsTo(value, collection, table, chain, end);
      ChainResolves(value, collection, table, {}, chain, end);
    }
  }
}
