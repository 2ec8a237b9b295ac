/** What the validators handed out by the cache accept, whatever threads race for them. */
module ValidatorAnswers {
  import opened Wrappers
  import opened JsonValues
  import opened SchemaReferences
  import opened SchemaSemantics
  import opened RelaxationWeakens
  import opened ValidatorCache
  import R = Relaxation

  /** The declared schema, read over the declared components, accepts `v`. */
  ghost predicate Accepts(leaf: Leaf, components: Json, schema: Json, v: Json) {
    ValidateSchema(schema, RegistryOf(components), []) && Valid(leaf, RegistryOf(components), [], schema, v)
  }

  /** A compiled document accepts `v`: its components only serve its references, the rest is the schema. */
  ghost predicate DocumentAccepts(leaf: Leaf, document: Json, v: Json) {
    && document.Obj? && "components" in document.members
    && Accepts(leaf, document.members["components"], Obj(document.members - {"components"}), v)
  }

  lemma DocumentOf(components: Json, schema: Json)
    ensures
      var document := RootAround(components, schema);
      && document.Obj? && "components" in document.members && document.members["components"] == components
      && Obj(document.members - {"components"}) == Obj(map["allOf" := Arr([schema])])
  {
    assert RootAround(components, schema).members - {"components"} == map["allOf" := Arr([schema])];
  }

  lemma OneOfAllAccepts(leaf: Leaf, registry: Registry, schema: Json, v: Json)
    ensures
      var all := Obj(map["allOf" := Arr([schema])]);
      && ValidateSchema(all, registry, []) == ValidateSchema(schema, registry, [])
      && (ValidateSchema(schema, registry, []) ==>
            (Valid(leaf, registry, [], all, v) <==> Valid(leaf, registry, [], schema, v)))
  {
    var members := map["allOf" := Arr([schema])];
    assert ValidateSchema(members["allOf"], registry, []) == ValidateSchema(schema, registry, []) by {
      assert schema in members["allOf"].items;
    }
    assert "allOf" in members;
    if ValidateSchema(schema, registry, []) {
      assert Holds(leaf, registry, [], members, "allOf", v) <==> Valid(leaf, registry, [], schema, v) by {
        assert schema in members["allOf"].items;
      }
    }
  }

  lemma RootAccepts(leaf: Leaf, components: Json, schema: Json, v: Json)
    ensures DocumentAccepts(leaf, RootAround(components, schema), v) <==> Accepts(leaf, components, schema, v)
  {
    DocumentOf(components, schema);
    OneOfAllAccepts(leaf, RegistryOf(components), schema, v);
    hide RootAround;
    hide ValidateSchema;
    hide Valid;
    hide RegistryOf;
  }

  /** A catalog as it is generated and loaded. */
  ghost predicate Proper(c: Catalog) {
    UniqueOperations(c) && forall o | o in c.operations :: UniqueParameters(o)
  }

  /** In some run of the threads, `thread` asked for the validator of `site` and was given `document`. */
  ghost predicate AnsweredWith(c: Catalog, compiles: Compiler, thread: ThreadId, site: Site, document: Json) {
    exists events, w ::
      && Run(c, compiles, EMPTY, events) == Some(w) && thread in w.threads
      && w.threads[thread] == Thread(site, Answered(Some(document)))
  }

  /** Every place that declares a schema is answered, if all documents compile. */
  lemma EverySiteIsAnswered(c: Catalog, compiles: Compiler, thread: ThreadId, site: Site) returns (document: Json)
    requires Declares(c, site) && forall root :: compiles(root)
    ensures AnsweredWith(c, compiles, thread, site, document)
  {
    document := RootOf(c, site);
    var events, w := UninterruptedCallIsRun(c, compiles, EMPTY, thread, site);
    hide Run;
    hide RootOf;
    hide KeyOf;
    hide Declares;
  }

  lemma AnswerIsRoot(c: Catalog, compiles: Compiler, thread: ThreadId, site: Site, document: Json)
    requires Proper(c) && AnsweredWith(c, compiles, thread, site, document)
    ensures Declares(c, site) && document == RootOf(c, site)
  {
    UniqueCatalogKeysNameRoots(c, compiles);
    var events, w :|
      && Run(c, compiles, EMPTY, events) == Some(w) && thread in w.threads
      && w.threads[thread] == Thread(site, Answered(Some(document)));
    hide *;
    EmptyIsSound(c, compiles);
    RunIsSound(c, compiles, EMPTY, events, w);
    SoundAnswer(c, compiles, w, thread, site, document);
  }

  lemma EmptyIsSound(c: Catalog, compiles: Compiler)
    ensures Sound(c, compiles, EMPTY)
  {
  }

  lemma SoundAnswer(c: Catalog, compiles: Compiler, w: World, thread: ThreadId, site: Site, document: Json)
    requires Sound(c, compiles, w) && thread in w.threads
    requires w.threads[thread] == Thread(site, Answered(Some(document)))
    ensures Declares(c, site) && document == RootOf(c, site)
  {
    hide RootOf;
    hide KeyOf;
    hide Declares;
    hide EntriesAreRoots;
  }

  /** Whoever asks for the validator of what is sent gets one that accepts exactly what was declared. */
  lemma RequestsAreJudgedAsDeclared(c: Catalog, compiles: Compiler, thread: ThreadId, site: Site, document: Json,
                                    leaf: Leaf, v: Json)
    requires Proper(c) && AnsweredWith(c, compiles, thread, site, document)
    ensures site.BodyAt? ==>
      && site.operation < |c.operations| && c.operations[site.operation].body.Some?
      && (DocumentAccepts(leaf, document, v) <==>
          Accepts(leaf, c.components, c.operations[site.operation].body.value, v))
    ensures site.ParameterAt? ==>
      && site.operation < |c.operations| && site.index < |c.operations[site.operation].parameters|
      && (DocumentAccepts(leaf, document, v) <==>
          Accepts(leaf, c.components, c.operations[site.operation].parameters[site.index].schema, v))
  {
    AnswerIsRoot(c, compiles, thread, site, document);
    if site.BodyAt? {
      RootAccepts(leaf, c.components, c.operations[site.operation].body.value, v);
    } else if site.ParameterAt? {
      RootAccepts(leaf, c.components, c.operations[site.operation].parameters[site.index].schema, v);
    }
    hide Accepts;
    hide DocumentAccepts;
    hide AnsweredWith;
    hide Proper;
    hide RootAround;
  }

  /** The document compiled for a response is itself the relaxation of the declared document. */
  lemma RelaxedRoot(components: Json, schema: Json)
    ensures R.Relaxed(RootAround(components, schema)) == RootAround(R.Relaxed(components), R.Relaxed(schema))
  {
    var members: R.Members := map["components" := components, "allOf" := Arr([schema])];
    var relaxed: R.Members := map["components" := R.Relaxed(components), "allOf" := Arr([R.Relaxed(schema)])];
    assert R.Relaxed(Arr([schema])).items == [R.Relaxed(schema)];
    assert R.RelaxedMembers(members) == relaxed;
    PlainKeysStay(relaxed);
    hide R.Rewritten;
  }

  lemma PlainKeysStay(members: R.Members)
    requires members.Keys == {"components", "allOf"}
    ensures R.Rewritten(members) == members
  {
    assert R.Dropped(members) == members;
  }

  /** Whoever asks for the validator of a response gets one that pins neither vocabulary nor presence:
      its document holds no `enum`, `required`, `oneOf` or closed `additionalProperties` anywhere, and
      what it accepts does not depend on those that were declared. */
  lemma ResponsesAreNotPinned(c: Catalog, compiles: Compiler, thread: ThreadId, site: Site, document: Json,
                              path: Path, leaf: Leaf, components: Json, schema: Json, v: Json)
    requires Proper(c) && AnsweredWith(c, compiles, thread, site, document) && site.ResponseAt?
    ensures site.operation < |c.operations| && site.status in c.operations[site.operation].responses
    ensures site.media in c.operations[site.operation].responses[site.status]
    ensures Lookup(document, path + [Member("enum")]) == None
    ensures Lookup(document, path + [Member("required")]) == None
    ensures Lookup(document, path + [Member("oneOf")]) == None
    ensures Lookup(document, path + [Member("additionalProperties")]) != Some(Bool(false))
    ensures
      R.Unpinned(components) == R.Unpinned(c.components) &&
      R.Unpinned(schema) == R.Unpinned(c.operations[site.operation].responses[site.status][site.media])
      ==> (DocumentAccepts(leaf, document, v) <==> Accepts(leaf, R.Relaxed(components), R.Relaxed(schema), v))
  {
    AnswerIsRoot(c, compiles, thread, site, document);
    var declared := c.operations[site.operation].responses[site.status][site.media];
    hide *;
    DeclaredResponse(c, site, document);
    RelaxedRoot(c.components, declared);
    R.RelaxedHasNone(RootAround(c.components, declared), path);
    RootAccepts(leaf, R.Relaxed(c.components), R.Relaxed(declared), v);
    R.RelaxedIgnoresPins(components);
    R.RelaxedIgnoresPins(schema);
    R.RelaxedIgnoresPins(c.components);
    R.RelaxedIgnoresPins(declared);
  }

  lemma DeclaredResponse(c: Catalog, site: Site, document: Json)
    requires Declares(c, site) && document == RootOf(c, site) && site.ResponseAt?
    ensures site.operation < |c.operations| && site.status in c.operations[site.operation].responses
    ensures site.media in c.operations[site.operation].responses[site.status]
    ensures document == RootAround(R.Relaxed(c.components),
                                   R.Relaxed(c.operations[site.operation].responses[site.status][site.media]))
  {
  }

  /** And it accepts every body that the declared schema accepts, in the fragment for which
      relaxation only weakens. */
  lemma DeclaredResponsesAreAccepted(c: Catalog, compiles: Compiler, thread: ThreadId, site: Site, document: Json,
                                     leaf: Leaf, v: Json)
    requires Proper(c) && AnsweredWith(c, compiles, thread, site, document) && site.ResponseAt? && Declares(c, site)
    requires c.components.Obj? && "schemas" in c.components.members && c.components.members["schemas"].Obj?
    requires
      var registry := RegistryOf(c.components);
      var declared := c.operations[site.operation].responses[site.status][site.media];
      && RegistryAccepted(registry) && AllResolve(declared, registry)
      && InFragment(declared) && ReachedInFragment(declared, registry)
      && "enum" !in registry && "required" !in registry && "oneOf" !in registry
    ensures
      Accepts(leaf, c.components, c.operations[site.operation].responses[site.status][site.media], v)
      ==> DocumentAccepts(leaf, document, v)
  {
    AnswerIsRoot(c, compiles, thread, site, document);
    var declared := c.operations[site.operation].responses[site.status][site.media];
    DeclaredResponse(c, site, document);
    hide *;
    RootAccepts(leaf, R.Relaxed(c.components), R.Relaxed(declared), v);
    ResponseValidationOnlyWeakens(leaf, c.components, declared, v);
    Weakened(leaf, c.components, declared, v);
  }

  lemma Weakened(leaf: Leaf, components: Json, schema: Json, v: Json)
    requires ValidateSchema(schema, RegistryOf(components), [])
    requires ValidateSchema(R.Relaxed(schema), RegistryOf(R.Relaxed(components)), [])
    requires Valid(leaf, RegistryOf(components), [], schema, v)
             ==> Valid(leaf, RegistryOf(R.Relaxed(components)), [], R.Relaxed(schema), v)
    ensures Accepts(leaf, components, schema, v) ==> Accepts(leaf, R.Relaxed(components), R.Relaxed(schema), v)
  {
    hide Valid;
    hide ValidateSchema;
    hide R.Relaxed;
  }
}
