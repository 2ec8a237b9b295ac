/** The memoised validators: what a key names, and what threads racing for one get back. */
module ValidatorCache {
  import opened Wrappers
  import opened JsonValues
  import R = Relaxation
  import P = PageWalk
  import T = ToolName

  datatype Parameter = Parameter(location: string, name: string, schema: Json)

  datatype Operation = Operation(
    id: string, key: string, tool: string, pagination: P.PaginationMode, parameters: seq<Parameter>, body: Option<Json>,
    responses: map<string, map<string, Json>>)

  datatype Catalog = Catalog(components: Json, operations: seq<Operation>)

  /** A place in the catalog that declares a schema. */
  datatype Site =
    | BodyAt(operation: nat)
    | ParameterAt(operation: nat, index: nat)
    | ResponseAt(operation: nat, status: string, media: string)

  predicate Declares(c: Catalog, s: Site) {
    && s.operation < |c.operations|
    && var o := c.operations[s.operation];
       match s
       case BodyAt(_) => o.body.Some?
       case ParameterAt(_, index) => index < |o.parameters|
       case ResponseAt(_, status, media) => status in o.responses && media in o.responses[status]
  }

  datatype SchemaSlot =
    | RequestBody
    | RequestParameter(location: string, name: string)
    | ResponseBody(status: string, media: string)

  datatype ValidatorKey = ValidatorKey(operation: string, slot: SchemaSlot)

  /** Requests are keyed by the operation's key, responses by its identifier. */
  function KeyOf(c: Catalog, s: Site): ValidatorKey
    requires Declares(c, s)
  {
    var o := c.operations[s.operation];
    match s
    case BodyAt(_) => ValidatorKey(o.key, RequestBody)
    case ParameterAt(_, index) =>
      ValidatorKey(o.key, RequestParameter(o.parameters[index].location, o.parameters[index].name))
    case ResponseAt(_, status, media) => ValidatorKey(o.id, ResponseBody(status, media))
  }

  function RootAround(components: Json, schema: Json): Json {
    Obj(map["components" := components, "allOf" := Arr([schema])])
  }

  /** The document compiled for a site: as declared for what is sent, relaxed for what comes back. */
  function RootOf(c: Catalog, s: Site): Json
    requires Declares(c, s)
  {
    var o := c.operations[s.operation];
    match s
    case BodyAt(_) => RootAround(c.components, o.body.value)
    case ParameterAt(_, index) => RootAround(c.components, o.parameters[index].schema)
    case ResponseAt(_, status, media) => RootAround(R.Relaxed(c.components), R.Relaxed(o.responses[status][media]))
  }

  // ----- the cache object -----

  /** A validator is known by the document it was compiled from; some documents do not compile. */
  type Compiler = Json -> bool

  type Entries = map<ValidatorKey, Json>

  function Found(entries: Entries, compiles: Compiler, key: ValidatorKey, root: Json): Option<Json> {
    if key in entries then Some(entries[key]) else if compiles(root) then Some(root) else None
  }

  function Remembered(entries: Entries, compiles: Compiler, key: ValidatorKey, root: Json): Entries {
    if key !in entries && compiles(root) then entries[key := root] else entries
  }

  class Cache {
    var entries: Entries

    constructor ()
      ensures entries == map[]
    {
      entries := map[];
    }

    /** One uninterrupted call. A failure is not remembered. */
    method CachedValidator(compiles: Compiler, key: ValidatorKey, root: Json) returns (validator: Option<Json>)
      modifies this
      ensures validator == Found(old(entries), compiles, key, root)
      ensures entries == Remembered(old(entries), compiles, key, root)
    {
      if key in entries { return Some(entries[key]); }
      if !compiles(root) { return None; }
      entries := entries[key := root];
      validator := Some(root);
    }
  }

  // ----- threads -----

  type ThreadId = nat

  datatype Stage = Asking | Missed | Compiled | Answered(validator: Option<Json>)

  datatype Thread = Thread(site: Site, stage: Stage)

  datatype World = World(entries: Entries, threads: map<ThreadId, Thread>)

  const EMPTY := World(map[], map[])

  /** A lock that was poisoned reads as a miss, and writes nothing. */
  datatype Event =
    | Ask(thread: ThreadId, site: Site)
    | ReadLock(thread: ThreadId, poisoned: bool)
    | Compile(thread: ThreadId)
    | WriteLock(thread: ThreadId, poisoned: bool)

  function Next(c: Catalog, compiles: Compiler, w: World, e: Event): Option<World> {
    if e.Ask? then
      if e.thread in w.threads || !Declares(c, e.site) then None
      else Some(w.(threads := w.threads[e.thread := Thread(e.site, Asking)]))
    else if e.thread !in w.threads then None
    else
      var t := w.threads[e.thread];
      if !Declares(c, t.site) then None
      else
        var key, root := KeyOf(c, t.site), RootOf(c, t.site);
        match e
        case ReadLock(_, poisoned) =>
          if !t.stage.Asking? then None
          else
            var stage := if !poisoned && key in w.entries then Answered(Some(w.entries[key])) else Missed;
            Some(w.(threads := w.threads[e.thread := t.(stage := stage)]))
        case Compile(_) =>
          if !t.stage.Missed? then None
          else
            var stage := if compiles(root) then Compiled else Answered(None);
            Some(w.(threads := w.threads[e.thread := t.(stage := stage)]))
        case WriteLock(_, poisoned) =>
          if !t.stage.Compiled? then None
          else
            var entries := if poisoned || key in w.entries then w.entries else w.entries[key := root];
            Some(World(entries, w.threads[e.thread := t.(stage := Answered(Some(root)))]))
  }

  function Run(c: Catalog, compiles: Compiler, w: World, events: seq<Event>): Option<World>
    decreases |events|
  {
    if events == [] then Some(w)
    else match Next(c, compiles, w, events[0])
      case Some(next) => Run(c, compiles, next, events[1..])
      case None => None
  }

  /** What the call would have returned had there been no cache. */
  function Uncached(c: Catalog, compiles: Compiler, s: Site): Option<Json>
    requires Declares(c, s)
  {
    if compiles(RootOf(c, s)) then Some(RootOf(c, s)) else None
  }

  /** Every thread that has its answer has the uncached one. */
  ghost predicate AnswersAreUncached(c: Catalog, compiles: Compiler, w: World) {
    forall t | t in w.threads && w.threads[t].stage.Answered? ::
      Declares(c, w.threads[t].site) && w.threads[t].stage.validator == Uncached(c, compiles, w.threads[t].site)
  }

  /** Every entry is the compiled document of each site whose key names it. */
  ghost predicate EntriesAreRoots(c: Catalog, compiles: Compiler, w: World) {
    forall s: Site | Declares(c, s) && KeyOf(c, s) in w.entries ::
      w.entries[KeyOf(c, s)] == RootOf(c, s) && compiles(RootOf(c, s))
  }

  ghost predicate Sound(c: Catalog, compiles: Compiler, w: World) {
    && EntriesAreRoots(c, compiles, w)
    && AnswersAreUncached(c, compiles, w)
    && forall t | t in w.threads ::
         Declares(c, w.threads[t].site) && (w.threads[t].stage.Compiled? ==> compiles(RootOf(c, w.threads[t].site)))
  }

  /** Sites that share a key share their document, as far as it compiles. */
  ghost predicate KeysNameRoots(c: Catalog, compiles: Compiler) {
    forall s: Site, t: Site
      | Declares(c, s) && Declares(c, t) && KeyOf(c, s) == KeyOf(c, t) && compiles(RootOf(c, s)) ::
      RootOf(c, s) == RootOf(c, t)
  }

  lemma StepIsSound(c: Catalog, compiles: Compiler, w: World, e: Event, w': World)
    requires KeysNameRoots(c, compiles) && Sound(c, compiles, w) && Next(c, compiles, w, e) == Some(w')
    ensures Sound(c, compiles, w')
  {
    hide RootOf;
    hide KeyOf;
    hide Declares;
  }

  lemma {:induction false} RunIsSound(c: Catalog, compiles: Compiler, w: World, events: seq<Event>, w': World)
    requires KeysNameRoots(c, compiles) && Sound(c, compiles, w) && Run(c, compiles, w, events) == Some(w')
    ensures Sound(c, compiles, w')
    decreases |events|
  {
    hide Sound;
    hide Next;
    hide KeysNameRoots;
    if events != [] {
      var next := Next(c, compiles, w, events[0]).value;
      StepIsSound(c, compiles, w, events[0], next);
      RunIsSound(c, compiles, next, events[1..], w');
    }
  }

  /** Two sites with one key but different documents: the second to ask is handed the first's. */
  lemma SharedKeyMisleads(c: Catalog, compiles: Compiler, s: Site, t: Site) returns (events: seq<Event>, w: World)
    requires Declares(c, s) && Declares(c, t) && KeyOf(c, s) == KeyOf(c, t)
    requires compiles(RootOf(c, s)) && RootOf(c, s) != RootOf(c, t)
    ensures Run(c, compiles, EMPTY, events) == Some(w) && !AnswersAreUncached(c, compiles, w)
  {
    hide RootOf;
    hide KeyOf;
    hide Declares;
    events := [Ask(0, s), ReadLock(0, false), Compile(0), WriteLock(0, false), Ask(1, t), ReadLock(1, false)];
    var key, root := KeyOf(c, s), RootOf(c, s);
    var w1 := EMPTY.(threads := EMPTY.threads[0 := Thread(s, Asking)]);
    var w2 := w1.(threads := w1.threads[0 := Thread(s, Missed)]);
    var w3 := w2.(threads := w2.threads[0 := Thread(s, Compiled)]);
    var w4 := World(w3.entries[key := root], w3.threads[0 := Thread(s, Answered(Some(root)))]);
    var w5 := w4.(threads := w4.threads[1 := Thread(t, Asking)]);
    w := w5.(threads := w5.threads[1 := Thread(t, Answered(Some(root)))]);
    assert Next(c, compiles, EMPTY, events[0]) == Some(w1);
    assert Next(c, compiles, w1, events[1]) == Some(w2);
    assert Next(c, compiles, w2, events[2]) == Some(w3);
    assert Next(c, compiles, w3, events[3]) == Some(w4);
    assert Next(c, compiles, w4, events[4]) == Some(w5);
    assert Next(c, compiles, w5, events[5]) == Some(w);
    assert w.threads[1].stage.validator != Uncached(c, compiles, t);
    hide Next;
    RunLeads(c, compiles, [EMPTY, w1, w2, w3, w4, w5, w], events);
  }

  lemma {:induction false} RunLeads(c: Catalog, compiles: Compiler, worlds: seq<World>, events: seq<Event>)
    requires |worlds| == |events| + 1
    requires forall i | 0 <= i < |events| :: Next(c, compiles, worlds[i], events[i]) == Some(worlds[i + 1])
    ensures Run(c, compiles, worlds[0], events) == Some(worlds[|events|])
    decreases |events|
  {
    if events != [] {
      forall i | 0 <= i < |events[1..]|
        ensures Next(c, compiles, worlds[1..][i], events[1..][i]) == Some(worlds[1..][i + 1])
      {
        assert worlds[1..][i] == worlds[i + 1] && events[1..][i] == events[i + 1];
      }
      RunLeads(c, compiles, worlds[1..], events[1..]);
    }
  }

  /** In every interleaving every cached answer is the uncached one, exactly when keys name documents. */
  lemma CacheAgreesIff(c: Catalog, compiles: Compiler)
    ensures KeysNameRoots(c, compiles) <==>
            forall events, w | Run(c, compiles, EMPTY, events) == Some(w) :: AnswersAreUncached(c, compiles, w)
  {
    hide RootOf;
    hide KeyOf;
    hide Declares;
    if KeysNameRoots(c, compiles) {
      forall events, w | Run(c, compiles, EMPTY, events) == Some(w) ensures AnswersAreUncached(c, compiles, w) {
        assert Sound(c, compiles, EMPTY);
        hide Run;
        RunIsSound(c, compiles, EMPTY, events, w);
      }
    } else {
      var s: Site, t: Site :| Declares(c, s) && Declares(c, t) && KeyOf(c, s) == KeyOf(c, t)
                              && compiles(RootOf(c, s)) && RootOf(c, s) != RootOf(c, t);
      var events, w := SharedKeyMisleads(c, compiles, s, t);
    }
  }

  /** One uninterrupted call of the cache object is a run of the machine. */
  lemma UninterruptedCallIsRun(c: Catalog, compiles: Compiler, w: World, thread: ThreadId, site: Site)
    returns (events: seq<Event>, w': World)
    requires thread !in w.threads && Declares(c, site)
    ensures Run(c, compiles, w, events) == Some(w')
    ensures
      var key, root := KeyOf(c, site), RootOf(c, site);
      && w'.threads == w.threads[thread := Thread(site, Answered(Found(w.entries, compiles, key, root)))]
      && w'.entries == Remembered(w.entries, compiles, key, root)
  {
    hide RootOf;
    hide KeyOf;
    hide Declares;
    var all := [Ask(thread, site), ReadLock(thread, false), Compile(thread), WriteLock(thread, false)];
    var w1 := Next(c, compiles, w, all[0]).value;
    var w2 := Next(c, compiles, w1, all[1]).value;
    if KeyOf(c, site) in w.entries {
      events, w' := all[..2], w2;
      hide Next;
      RunLeads(c, compiles, [w, w1, w2], events);
    } else {
      var w3 := Next(c, compiles, w2, all[2]).value;
      if !compiles(RootOf(c, site)) {
        events, w' := all[..3], w3;
        hide Next;
        RunLeads(c, compiles, [w, w1, w2, w3], events);
      } else {
        var w4 := Next(c, compiles, w3, all[3]).value;
        events, w' := all, w4;
        hide Next;
        RunLeads(c, compiles, [w, w1, w2, w3, w4], events);
      }
    }
  }

  // ----- when keys name documents -----

  /** What loading a catalog checks of its operations together. */
  ghost predicate UniqueOperations(c: Catalog) {
    forall i, j | 0 <= i < j < |c.operations| ::
      && c.operations[i].id != c.operations[j].id && c.operations[i].key != c.operations[j].key
      && c.operations[i].tool != c.operations[j].tool
  }

  /** What generating it ensures. */
  ghost predicate UniqueParameters(o: Operation) {
    forall i, j | 0 <= i < j < |o.parameters| ::
      (o.parameters[i].location, o.parameters[i].name) != (o.parameters[j].location, o.parameters[j].name)
  }

  /** Unique identifiers, keys and parameter names make every key name one site. */
  lemma UniqueCatalogKeysNameRoots(c: Catalog, compiles: Compiler)
    requires UniqueOperations(c) && forall o | o in c.operations :: UniqueParameters(o)
    ensures KeysNameRoots(c, compiles)
  {
    forall s: Site, t: Site | Declares(c, s) && Declares(c, t) && KeyOf(c, s) == KeyOf(c, t) ensures s == t {
      KeyNamesSite(c, s, t);
    }
  }

  lemma KeyNamesSite(c: Catalog, s: Site, t: Site)
    requires UniqueOperations(c) && forall o | o in c.operations :: UniqueParameters(o)
    requires Declares(c, s) && Declares(c, t) && KeyOf(c, s) == KeyOf(c, t)
    ensures s == t
  {
    assert s.operation == t.operation;
    assert UniqueParameters(c.operations[s.operation]);
  }

  // ----- what loading does not check -----

  predicate HasQuery(parameters: seq<Parameter>, name: string) {
    exists p | p in parameters :: p.location == "query" && p.name == name
  }

  function PaginationFor(parameters: seq<Parameter>): P.PaginationMode {
    if HasQuery(parameters, "search_after") then P.SearchAfter
    else if HasQuery(parameters, "page") || HasQuery(parameters, "limit") then P.PageLimit
    else P.Unpaged
  }

  /** What loading checks of one operation: its parameters, schemas and tool name; `rest` stands for
      the checks that do not look at its parameters. */
  predicate OperationLoads(o: Operation, rest: Operation -> bool) {
    && T.NameOf(o.id) == Some(o.tool)
    && o.pagination == PaginationFor(o.parameters)
    && (forall p | p in o.parameters :: p.schema.Obj?)
    && (o.body.Some? ==> o.body.value.Obj?)
    && (forall status, media | status in o.responses && media in o.responses[status] :: o.responses[status][media].Obj?)
    && rest(o.(parameters := [], pagination := P.Unpaged))
  }

  ghost predicate Loads(c: Catalog, rest: Operation -> bool) {
    c.components.Obj? && UniqueOperations(c) && forall o | o in c.operations :: OperationLoads(o, rest)
  }

  /** The catalog in which an operation declares one of its parameters again, with another schema. */
  function Repeated(c: Catalog, i: nat, j: nat, schema: Json): Catalog
    requires i < |c.operations| && j < |c.operations[i].parameters|
  {
    var o := c.operations[i];
    c.(operations := c.operations[i := o.(parameters := o.parameters + [o.parameters[j].(schema := schema)])])
  }

  lemma RepeatedLoads(c: Catalog, rest: Operation -> bool, i: nat, j: nat, schema: Json)
    requires Loads(c, rest) && schema.Obj?
    requires i < |c.operations| && j < |c.operations[i].parameters|
    ensures Loads(Repeated(c, i, j, schema), rest)
  {
    var o, c' := c.operations[i], Repeated(c, i, j, schema);
    var o' := c'.operations[i];
    assert o in c.operations && o.parameters[j] in o.parameters;
    forall name ensures HasQuery(o.parameters, name) <==> HasQuery(o'.parameters, name) {
      RepeatedHasQuery(o.parameters, j, schema, name);
    }
    assert o'.(parameters := [], pagination := P.Unpaged) == o.(parameters := [], pagination := P.Unpaged);
    hide HasQuery;
    hide T.NameOf;
    assert OperationLoads(o', rest);
    forall other | other in c'.operations ensures OperationLoads(other, rest) {
      assert other == o' || other in c.operations;
    }
  }

  lemma RepeatedHasQuery(parameters: seq<Parameter>, j: nat, schema: Json, name: string)
    requires j < |parameters|
    ensures HasQuery(parameters, name) <==> HasQuery(parameters + [parameters[j].(schema := schema)], name)
  {
    var last := parameters[j].(schema := schema);
    if HasQuery(parameters + [last], name) {
      var p :| p in parameters + [last] && p.location == "query" && p.name == name;
      if p == last { assert parameters[j] in parameters; }
    }
  }

  /** Loading does not ask that parameters be unique, and without that threads can be misled. Any
      catalog that loads still loads after one of its parameters is declared again with another
      schema; and whenever both compile, some run hands the second the validator of the first. */
  lemma RepeatedParameterMisleads(c: Catalog, rest: Operation -> bool, compiles: Compiler, i: nat, j: nat, schema: Json)
    returns (c': Catalog, events: seq<Event>, w: World)
    requires Loads(c, rest) && i < |c.operations| && j < |c.operations[i].parameters|
    requires schema.Obj? && schema != c.operations[i].parameters[j].schema
    requires compiles(RootAround(c.components, c.operations[i].parameters[j].schema))
    requires compiles(RootAround(c.components, schema))
    ensures c' == Repeated(c, i, j, schema) && Loads(c', rest)
    ensures Run(c', compiles, EMPTY, events) == Some(w) && !AnswersAreUncached(c', compiles, w)
  {
    RepeatedLoads(c, rest, i, j, schema);
    c' := Repeated(c, i, j, schema);
    hide Loads;
    var s, t := ParameterAt(i, j), ParameterAt(i, |c.operations[i].parameters|);
    assert RootOf(c', s) == RootAround(c.components, c.operations[i].parameters[j].schema);
    assert RootOf(c', t) == RootAround(c.components, schema);
    RootsDiffer(c.components, c.operations[i].parameters[j].schema, schema);
    events, w := SharedKeyMisleads(c', compiles, s, t);
  }

  lemma RootsDiffer(components: Json, a: Json, b: Json)
    requires a != b
    ensures RootAround(components, a) != RootAround(components, b)
  {
    assert RootAround(components, a).members["allOf"].items[0] == a;
    assert RootAround(components, b).members["allOf"].items[0] == b;
  }

  // ----- how the generator gathers parameters -----

  /** The last declaration of each location and name wins. */
  function Gathered(raw: seq<Parameter>): map<(string, string), Parameter>
    decreases |raw|
  {
    if raw == [] then map[]
    else
      var last := raw[|raw| - 1];
      Gathered(raw[..|raw| - 1])[(last.location, last.name) := last]
  }

  method GatherParameters(raw: seq<Parameter>) returns (parameters: seq<Parameter>)
    ensures forall p :: p in parameters <==> p in Gathered(raw).Values
    ensures forall i, j | 0 <= i < j < |parameters| ::
              (parameters[i].location, parameters[i].name) != (parameters[j].location, parameters[j].name)
  {
    var byKey: map<(string, string), Parameter> := map[];
    for k := 0 to |raw|
      invariant byKey == Gathered(raw[..k])
    {
      assert raw[..k + 1][..k] == raw[..k];
      byKey := byKey[(raw[k].location, raw[k].name) := raw[k]];
    }
    assert raw[..|raw|] == raw;
    GatheredByKey(raw);
    parameters := [];
    var rest := byKey.Keys;
    while rest != {}
      invariant rest <= byKey.Keys
      invariant forall p | p in parameters ::
                  (p.location, p.name) in byKey.Keys - rest && byKey[(p.location, p.name)] == p
      invariant forall key | key in byKey.Keys - rest :: byKey[key] in parameters
      invariant forall i, j | 0 <= i < j < |parameters| ::
                  (parameters[i].location, parameters[i].name) != (parameters[j].location, parameters[j].name)
      decreases rest
    {
      var key :| key in rest;
      parameters := parameters + [byKey[key]];
      rest := rest - {key};
    }
  }

  lemma {:induction false} GatheredByKey(raw: seq<Parameter>)
    ensures forall key | key in Gathered(raw) :: (Gathered(raw)[key].location, Gathered(raw)[key].name) == key
    decreases |raw|
  {
    if raw != [] { GatheredByKey(raw[..|raw| - 1]); }
  }

  /** Each key keeps its last declaration. */
  lemma {:induction false} LastDeclarationWins(raw: seq<Parameter>, k: nat)
    requires k < |raw|
    requires forall j | k < j < |raw| :: (raw[j].location, raw[j].name) != (raw[k].location, raw[k].name)
    ensures (raw[k].location, raw[k].name) in Gathered(raw) && Gathered(raw)[(raw[k].location, raw[k].name)] == raw[k]
    decreases |raw|
  {
    if k < |raw| - 1 { LastDeclarationWins(raw[..|raw| - 1], k); }
  }
}
