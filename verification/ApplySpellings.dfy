/** Guards are keyed by the text of an identifier. Where two texts name one object, two applies can
    get past each other; only then, short of an outsider, is an update lost. */
module ApplySpellings {
  import opened Wrappers
  import opened JsonValues
  import opened MergePatch
  import opened ChangeSets
  import opened ApplyProtocol
  import opened ApplyLaws
  import opened ApplyRuns
  import opened ApplyProgress
  import opened ApplyTheorems
  import opened ApplySucceeds

  /** One way to name an object. */
  datatype Spelling = Spelling(kind: WanObject, org: string, text: string)

  function Named(c: Config, s: Spelling): Target {
    c.resolve(s.kind, s.org, s.text)
  }

  function KeyOf(s: Spelling): string {
    ObjectKey(s.kind, Some(s.text))
  }

  /** Each object has one spelling: identifiers that Mist resolves alike are equal. */
  ghost predicate OneSpelling(c: Config) {
    forall s: Spelling, s': Spelling
      | s.org in c.allowedOrgs && s'.org in c.allowedOrgs && Named(c, s) == Named(c, s') ::
      KeyOf(s) == KeyOf(s')
  }

  // ----- a resolver with two spellings -----

  function Segments(text: string): (segments: seq<string>)
    ensures segments != []
    decreases |text|
  {
    if text == "" then [""]
    else
      var rest := Segments(text[1..]);
      if text[0] == '/' then [""] + rest else [[text[0]] + rest[0]] + rest[1..]
  }

  /** The segments of a path as a URL keeps them: a dot is dropped, two dots undo the segment before. */
  function Folded(done: seq<string>, rest: seq<string>): seq<string>
    decreases |rest|
  {
    if rest == [] then done
    else if rest[0] == "." then Folded(done, rest[1..])
    else if rest[0] == ".." && done != [] && done[|done| - 1] != ".." then Folded(done[..|done| - 1], rest[1..])
    else Folded(done + [rest[0]], rest[1..])
  }

  function Joined(segments: seq<string>): string
    decreases |segments|
  {
    if segments == [] then "" else if |segments| == 1 then segments[0] else segments[0] + "/" + Joined(segments[1..])
  }

  /** Identifiers are put into a URL's path as they are, and the path is folded. */
  function FoldedText(text: string): string {
    Joined(Folded([], Segments(text)))
  }

  ghost predicate FoldsPaths(c: Config) {
    forall kind, org, text :: c.resolve(kind, org, text) == Target(kind, org, FoldedText(text))
  }

  lemma {:induction false} PlainText(text: string)
    requires '/' !in text
    ensures Segments(text) == [text]
    decreases |text|
  {
    if text != "" {
      PlainText(text[1..]);
      assert [text[0]] + text[1..] == text;
    }
  }

  lemma {:induction false} FirstSegment(word: string, rest: string)
    requires '/' !in word
    ensures Segments(word + ("/" + rest)) == [word] + Segments(rest)
    decreases |word|
  {
    var text := word + ("/" + rest);
    if word == "" {
      assert text == "/" + rest && text[1..] == rest;
    } else {
      FirstSegment(word[1..], rest);
      assert text[1..] == word[1..] + ("/" + rest);
      assert [word[0]] + word[1..] == word;
    }
  }

  lemma DetourFolds(id: string)
    requires '/' !in id && id !in {".", ".."}
    ensures FoldedText(id) == id == FoldedText("x/../" + id)
  {
    PlainText(id);
    FirstSegment("..", id);
    FirstSegment("x", ".." + ("/" + id));
    assert "x/../" + id == "x" + ("/" + (".." + ("/" + id)));
    var rest := ["x"] + ([".."] + [id]);
    hide Segments;
    OnlySegment(id);
    assert rest[1..] == [".."] + [id] && rest[1..][1..] == [id];
    assert [] + ["x"] == ["x"] && ["x"][..0] == [];
    assert Folded([], rest) == Folded(["x"], rest[1..]);
    assert Folded(["x"], rest[1..]) == Folded([], rest[1..][1..]);
    assert Segments("x/../" + id) == rest;
  }

  lemma OnlySegment(id: string)
    requires id !in {".", ".."}
    ensures Folded([], [id]) == [id]
  {
    assert Folded([id], []) == [id];
  }

  /** Such a server has two guards for every object: its identifier, and the same after a detour. */
  lemma FoldingHasTwoSpellings(c: Config, kind: WanObject, org: string, id: string)
    requires FoldsPaths(c) && org in c.allowedOrgs && '/' !in id && id !in {".", ".."}
    ensures
      var s, s' := Spelling(kind, org, id), Spelling(kind, org, "x/../" + id);
      Named(c, s) == Named(c, s') == Target(kind, org, id) && KeyOf(s) != KeyOf(s')
    ensures !OneSpelling(c)
  {
    var s, s' := Spelling(kind, org, id), Spelling(kind, org, "x/../" + id);
    DetourFolds(id);
    hide FoldedText;
    assert |"x/../" + id| > |id|;
    ObjectKeyEqualIff(kind, Some(id), kind, Some("x/../" + id));
    assert Named(c, s) == Named(c, s') && KeyOf(s) != KeyOf(s');
  }

  // ----- staging and approving a plan -----

  function CallFor(id: string, s: Spelling): Apply {
    Apply(id, s.kind, Some(s.text), WaitGuard)
  }

  /** The record of an approved plan for this spelling. */
  function ApprovedPlan(id: string, s: Spelling, before: Json, patch: Json): Record {
    var staged := Staged(id, "owner", s.kind, Some(s.text), s.org, before, Merged(before, patch), 0);
    staged.(state := Approved, approval := Granted("approver", Human, staged.digest), expiresAt := 0)
  }

  function WithClaim(r: Record): Record {
    r.(state := Applying, handleless := true)
  }

  lemma Proposes(c: Config, w: World, call: Call, s: Spelling, before: Json, patch: Json) returns (e: Event, w': World)
    requires call !in w.plans && s.org in c.allowedOrgs && Named(c, s) in w.objects && w.objects[Named(c, s)] == before
    requires GuardsPass(patch)
    ensures Next(c, w, e) == Some(w')
    ensures w' == w.(plans := w'.plans, log := w'.log) && NothingOutside(w, w')
    ensures w'.plans == w.plans[call := Proposed("owner", s.kind, Some(s.text), s.org, before, Merged(before, patch))]
  {
    e := Propose(call, "owner", Update, s.kind, Some(s.text), s.org, patch);
    hide Merged;
    hide GuardsPass;
    w' := Next(c, w, e).value;
  }

  lemma Inserts(c: Config, w: World, call: Call, id: string, s: Spelling, before: Json, patch: Json)
    returns (e: Event, w': World)
    requires call in w.plans && id !in w.records
    requires w.plans[call] == Proposed("owner", s.kind, Some(s.text), s.org, before, Merged(before, patch))
    ensures Next(c, w, e) == Some(w')
    ensures
      var staged := Staged(id, "owner", s.kind, Some(s.text), s.org, before, Merged(before, patch), 0);
      && w' == w.(records := w.records[id := staged], plans := w'.plans, log := w'.log)
      && w'.plans.Keys <= w.plans.Keys && NothingOutside(w, w')
  {
    e := Insert(call, id, 0, true);
    hide Merged;
    hide Plan;
    w' := Next(c, w, e).value;
  }

  lemma Approves(c: Config, w: World, id: string, s: Spelling, before: Json, patch: Json)
    returns (e: Event, w': World)
    requires id in w.records
    requires w.records[id] == Staged(id, "owner", s.kind, Some(s.text), s.org, before, Merged(before, patch), 0)
    ensures Next(c, w, e) == Some(w')
    ensures w' == w.(records := w.records[id := ApprovedPlan(id, s, before, patch)], log := w'.log)
    ensures NothingOutside(w, w')
  {
    var digest := w.records[id].digest;
    e := Approve(id, KeyOf(s), "approver", Human, digest, 0, 0, true);
    hide Merged;
    w' := Next(c, w, e).value;
  }

  lemma Unchanged(w: World, w1: World, w2: World, w3: World)
    requires NothingOutside(w, w1) && NothingOutside(w1, w2) && NothingOutside(w2, w3)
    ensures NothingOutside(w, w3)
  {
  }

  lemma Overwritten(records: Store, id: string, r: Record, r': Record)
    ensures records[id := r][id := r'] == records[id := r']
  {
  }

  /** From anywhere, a plan made under this spelling can be staged and approved. */
  lemma PlanApproved(c: Config, w: World, call: Call, id: string, s: Spelling, before: Json, patch: Json)
    returns (events: seq<Event>, w': World)
    requires call !in w.plans && id !in w.records && s.org in c.allowedOrgs && GuardsPass(patch)
    requires Named(c, s) in w.objects && w.objects[Named(c, s)] == before
    ensures Run(c, w, events) == Some(w')
    ensures w'.records == w.records[id := ApprovedPlan(id, s, before, patch)]
    ensures w'.objects == w.objects && w'.applies == w.applies && w'.guards == w.guards
    ensures w'.plans.Keys <= w.plans.Keys + {call} && NothingOutside(w, w')
  {
    var e1, w1 := Proposes(c, w, call, s, before, patch);
    var e2, w2 := Inserts(c, w1, call, id, s, before, patch);
    var e3, w3 := Approves(c, w2, id, s, before, patch);
    hide *;
    Unchanged(w, w1, w2, w3);
    Overwritten(w.records, id, w2.records[id], ApprovedPlan(id, s, before, patch));
    RunOne(c, w, e1, w1);
    OneMore(c, w, [e1], w1, e2, w2);
    OneMore(c, w, [e1] + [e2], w2, e3, w3);
    events, w' := [e1] + [e2] + [e3], w3;
  }

  // ----- two applies side by side -----

  /** The call holds its guard and is about to write its claimed plan. */
  predicate AboutToWrite(w: World, call: Call, id: string, s: Spelling, r: Record) {
    && call in w.applies && w.applies[call] == CallFor(id, s).(stage := Writing(r))
    && KeyOf(s) in w.guards && w.guards[KeyOf(s)] == call
    && id in w.records && w.records[id] == r
  }

  lemma ClaimsPlan(c: Config, w: World, call: Call, id: string, s: Spelling, before: Json, patch: Json)
    returns (events: seq<Event>, w': World)
    requires call !in w.applies && KeyOf(s) !in w.guards
    requires id in w.records && w.records[id] == ApprovedPlan(id, s, before, patch)
    requires s.org in c.allowedOrgs && !before.Null? && Named(c, s) in w.objects && w.objects[Named(c, s)] == before
    ensures Run(c, w, events) == Some(w')
    ensures
      var r := WithClaim(ApprovedPlan(id, s, before, patch));
      Stands(w, w', call, CallFor(id, s), Writing(r), w.records[id := r], w.objects)
  {
    hide Merged;
    events, w' := ReachesClaim(c, w, call, CallFor(id, s), ApprovedPlan(id, s, before, patch), 0);
  }

  lemma ClaimedStands(w: World, w': World, call: Call, id: string, s: Spelling, r: Record)
    requires Stands(w, w', call, CallFor(id, s), Writing(r), w.records[id := r], w.objects)
    ensures AboutToWrite(w', call, id, s, r)
    ensures w'.guards == w.guards[KeyOf(s) := call] && w'.applies.Keys == w.applies.Keys + {call}
    ensures forall other | other in w.applies && other != call :: w'.applies[other] == w.applies[other]
    ensures w'.records == w.records[id := r] && w'.objects == w.objects && NothingOutside(w, w')
  {
  }

  /** Neither apply waits for the other. */
  lemma BothClaim(c: Config, w: World, s: Spelling, s': Spelling, before: Json, p: Json, q: Json)
    returns (events: seq<Event>, w': World)
    requires s.org in c.allowedOrgs && s'.org in c.allowedOrgs && KeyOf(s) != KeyOf(s') && !before.Null?
    requires Named(c, s) == Named(c, s') && Named(c, s) in w.objects && w.objects[Named(c, s)] == before
    requires w.applies == map[] && w.guards == map[]
    requires "a" in w.records && w.records["a"] == ApprovedPlan("a", s, before, p)
    requires "b" in w.records && w.records["b"] == ApprovedPlan("b", s', before, q)
    ensures Run(c, w, events) == Some(w') && NothingOutside(w, w') && w'.objects == w.objects
    ensures AboutToWrite(w', 2, "a", s, WithClaim(ApprovedPlan("a", s, before, p)))
    ensures AboutToWrite(w', 3, "b", s', WithClaim(ApprovedPlan("b", s', before, q)))
  {
    hide *;
    var ra, rb := WithClaim(ApprovedPlan("a", s, before, p)), WithClaim(ApprovedPlan("b", s', before, q));
    var es3, w3 := ClaimsPlan(c, w, 2, "a", s, before, p);
    ClaimedStands(w, w3, 2, "a", s, ra);
    var es4, w4 := ClaimsPlan(c, w3, 3, "b", s', before, q);
    ClaimedStands(w3, w4, 3, "b", s', rb);
    StillAboutToWrite(w3, w4, 2, "a", s, ra);
    Unchanged(w, w3, w4, w4);
    RunAppend(c, w, es3, w3, es4, w4);
    events, w' := es3 + es4, w4;
  }

  lemma StillAboutToWrite(w: World, w': World, call: Call, id: string, s: Spelling, r: Record)
    requires AboutToWrite(w, call, id, s, r)
    requires call in w'.applies && w'.applies[call] == w.applies[call]
    requires KeyOf(s) in w'.guards && w'.guards[KeyOf(s)] == call
    requires id in w'.records && w'.records[id] == r
    ensures AboutToWrite(w', call, id, s, r)
  {
  }

  lemma StandsThere(w: World, call: Call, id: string, s: Spelling, r: Record)
    requires AboutToWrite(w, call, id, s, r)
    ensures Stands(w, w, call, CallFor(id, s), Writing(r), w.records, w.objects)
  {
    assert w.applies == w.applies[call := w.applies[call]] && w.guards == w.guards[KeyOf(s) := call];
  }

  /** The call has returned verified, its change set is applied, and its guard is free. */
  predicate Finished(w: World, w': World, call: Call, id: string, s: Spelling, r: Record) {
    && w'.applies == w.applies[call := CallFor(id, s).(stage := Returned(Verdict(true)))]
    && w'.guards == w.guards - {KeyOf(s)}
    && w'.records == w.records[id := r.(state := Applied)]
  }

  lemma WritesPlan(c: Config, w: World, call: Call, id: string, s: Spelling, before: Json, patch: Json)
    returns (landing: seq<Event>, landed: World, rest: seq<Event>, w': World)
    requires !before.Null? && Named(c, s) in w.objects
    requires AboutToWrite(w, call, id, s, WithClaim(ApprovedPlan(id, s, before, patch)))
    ensures Run(c, w, landing) == Some(landed) && Run(c, landed, rest) == Some(w') && NothingOutside(w, w')
    ensures landed.log != []
    ensures landed.log[|landed.log| - 1] == Landed(call, id, Named(c, s), Some(w.objects[Named(c, s)]))
    ensures w'.objects == w.objects[Named(c, s) := Merged(before, patch)]
    ensures Finished(w, w', call, id, s, WithClaim(ApprovedPlan(id, s, before, patch)))
  {
    var a, r := CallFor(id, s), WithClaim(ApprovedPlan(id, s, before, patch));
    StandsThere(w, call, id, s, r);
    hide Merged;
    assert r.id == id && !IsCreate(r) && UpdateTarget(c, a, r) == Named(c, s) && Key(a) == KeyOf(s);
    assert r.state == Applying && r.preview.after == Merged(before, patch);
    hide Run;
    landing, landed, rest, w' := CarriesThrough(c, w, w, call, a, r, w.records, w.objects);
  }

  /** Two spellings of one object, and so two guards. Take any object and any two guarded patches:
      both applies pass their drift check before either writes; each write leaves exactly its approved
      body, both calls return verified and both change sets are applied. Yet the second replaced the
      first's body, and whatever the first patch set that the second does not mention is gone. */
  lemma TwoSpellingsLoseAnUpdate(c: Config, s: Spelling, s': Spelling, before: Json, p: Json, q: Json)
    returns (events: seq<Event>, w: World, k: nat)
    requires s.org in c.allowedOrgs && s'.org in c.allowedOrgs && Named(c, s) == Named(c, s') && KeyOf(s) != KeyOf(s')
    requires before.Obj? && GuardsPass(p) && GuardsPass(q)
    ensures Run(c, EMPTY.(objects := map[Named(c, s) := before]), events) == Some(w) && NothingOutside(EMPTY, w)
    ensures {2, 3} <= w.applies.Keys
    ensures w.applies[2].stage == w.applies[3].stage == Returned(Verdict(true))
    ensures {"a", "b"} <= w.records.Keys && w.records["a"].state == w.records["b"].state == Applied
    ensures w.records["a"].preview == Preview(before, Merged(before, p), s.org)
    ensures w.records["b"].preview == Preview(before, Merged(before, q), s'.org)
    ensures k < |w.log| && w.log[k] == Landed(3, "b", Named(c, s'), Some(Merged(before, p)))
    ensures w.objects == map[Named(c, s) := Merged(before, q)]
    ensures forall path | Unmentioned(q, path) :: Lookup(w.objects[Named(c, s)], path) == Lookup(before, path)
  {
    hide *;
    BothPlans(s, s', before, p, q);
    var ra, rb := WithClaim(ApprovedPlan("a", s, before, p)), WithClaim(ApprovedPlan("b", s', before, q));
    var es, w4 := BothReady(c, s, s', before, p, q);
    var es5, landed5, rest5, w5 := WritesPlan(c, w4, 2, "a", s, before, p);
    AfterFirst(w4, w5, s, s', ra, rb);
    var es6, landed6, rest6, w6 := WritesPlan(c, w5, 3, "b", s', before, q);
    BothFinished(w4, w5, w6, s, s', ra, rb);
    KeepsUnmentioned(before, q);
    TwiceReplaced(Named(c, s), before, Merged(before, p), Merged(before, q), w4.objects, w5.objects, w6.objects);
    Unchanged(EMPTY, w4, w5, w6);
    var start := EMPTY.(objects := map[Named(c, s) := before]);
    events := ThreeRuns(c, start, es, w4, es5, landed5, rest5, w5, es6, landed6, rest6, w6);
    w, k := w6, |landed6.log| - 1;
    LandedStays(c, map[Named(c, s) := before], es + es5 + rest5 + es6, landed6, rest6, w6);
  }

  lemma BothReady(c: Config, s: Spelling, s': Spelling, before: Json, p: Json, q: Json)
    returns (events: seq<Event>, w: World)
    requires s.org in c.allowedOrgs && s'.org in c.allowedOrgs && Named(c, s) == Named(c, s') && KeyOf(s) != KeyOf(s')
    requires before.Obj? && GuardsPass(p) && GuardsPass(q)
    ensures Run(c, EMPTY.(objects := map[Named(c, s) := before]), events) == Some(w) && NothingOutside(EMPTY, w)
    ensures w.objects == map[Named(c, s) := before]
    ensures AboutToWrite(w, 2, "a", s, WithClaim(ApprovedPlan("a", s, before, p)))
    ensures AboutToWrite(w, 3, "b", s', WithClaim(ApprovedPlan("b", s', before, q)))
  {
    var start := EMPTY.(objects := map[Named(c, s) := before]);
    assert NothingOutside(EMPTY, start);
    hide *;
    var es1, w1 := PlanApproved(c, start, 0, "a", s, before, p);
    var es2, w2 := PlanApproved(c, w1, 1, "b", s', before, q);
    var es, w4 := BothClaim(c, w2, s, s', before, p, q);
    RunAppend(c, start, es1, w1, es2, w2);
    RunAppend(c, start, es1 + es2, w2, es, w4);
    events, w := es1 + es2 + es, w4;
    Unchanged(EMPTY, start, w1, w2);
    Unchanged(EMPTY, w2, w4, w4);
  }

  lemma ThreeRuns(c: Config, start: World, es: seq<Event>, w4: World,
                  es5: seq<Event>, landed5: World, rest5: seq<Event>, w5: World,
                  es6: seq<Event>, landed6: World, rest6: seq<Event>, w6: World)
    returns (events: seq<Event>)
    requires Run(c, start, es) == Some(w4) && Run(c, w4, es5) == Some(landed5) && Run(c, landed5, rest5) == Some(w5)
    requires Run(c, w5, es6) == Some(landed6) && Run(c, landed6, rest6) == Some(w6)
    ensures events == es + es5 + rest5 + es6 + rest6
    ensures Run(c, start, es + es5 + rest5 + es6) == Some(landed6) && Run(c, start, events) == Some(w6)
  {
    hide *;
    RunAppend(c, start, es, w4, es5, landed5);
    RunAppend(c, start, es + es5, landed5, rest5, w5);
    RunAppend(c, start, es + es5 + rest5, w5, es6, landed6);
    RunAppend(c, start, es + es5 + rest5 + es6, landed6, rest6, w6);
    events := es + es5 + rest5 + es6 + rest6;
  }

  lemma LandedStays(c: Config, objects: map<Target, Json>, events: seq<Event>, landed: World, rest: seq<Event>,
                    w: World)
    requires Run(c, EMPTY.(objects := objects), events) == Some(landed) && Run(c, landed, rest) == Some(w)
    requires landed.log != []
    ensures |landed.log| <= |w.log| && w.log[|landed.log| - 1] == landed.log[|landed.log| - 1]
  {
    hide *;
    IsReachable(c, objects, events, landed);
    ReachableIsLawful(c, landed);
    RunLogGrows(c, landed, rest, w);
  }

  lemma TwiceReplaced(target: Target, x: Json, y: Json, z: Json, first: map<Target, Json>, second: map<Target, Json>,
                      third: map<Target, Json>)
    requires first == map[target := x] && second == first[target := y] && third == second[target := z]
    ensures second[target] == y && third == map[target := z]
  {
  }

  lemma BothPlans(s: Spelling, s': Spelling, before: Json, p: Json, q: Json)
    ensures WithClaim(ApprovedPlan("a", s, before, p)).preview == Preview(before, Merged(before, p), s.org)
    ensures WithClaim(ApprovedPlan("b", s', before, q)).preview == Preview(before, Merged(before, q), s'.org)
  {
    hide Merged;
  }

  lemma KeepsUnmentioned(before: Json, q: Json)
    ensures forall path | Unmentioned(q, path) :: Lookup(Merged(before, q), path) == Lookup(before, path)
  {
    forall path | Unmentioned(q, path) ensures Lookup(Merged(before, q), path) == Lookup(before, path) {
      MergeKeepsUnmentioned(before, q, path);
    }
  }

  lemma AfterFirst(w: World, w': World, s: Spelling, s': Spelling, ra: Record, rb: Record)
    requires KeyOf(s) != KeyOf(s') && AboutToWrite(w, 3, "b", s', rb) && Finished(w, w', 2, "a", s, ra)
    ensures AboutToWrite(w', 3, "b", s', rb)
  {
    hide KeyOf;
  }

  lemma BothFinished(w4: World, w5: World, w6: World, s: Spelling, s': Spelling, ra: Record, rb: Record)
    requires Finished(w4, w5, 2, "a", s, ra) && Finished(w5, w6, 3, "b", s', rb)
    ensures {2, 3} <= w6.applies.Keys
    ensures w6.applies[2].stage == w6.applies[3].stage == Returned(Verdict(true))
    ensures {"a", "b"} <= w6.records.Keys && w6.records["a"].state == w6.records["b"].state == Applied
    ensures w6.records["a"].preview == ra.preview && w6.records["b"].preview == rb.preview
  {
    hide KeyOf;
  }

  lemma IsReachable(c: Config, objects: map<Target, Json>, events: seq<Event>, w: World)
    requires Run(c, EMPTY.(objects := objects), events) == Some(w)
    ensures Reachable(c, w)
  {
    hide Run;
  }

  // ----- the condition -----

  /** In every run, an update that no outsider disturbed replaced exactly what its plan read. */
  ghost predicate UpdatesAreNeverLost(c: Config) {
    forall w, k: nat
      | Reachable(c, w) && k < |w.log| && w.log[k].Landed? && w.log[k].replaced.Some?
        && !ChangedSince(w.log[..k], w.log[k].call, w.log[k].id, w.log[k].target) ::
      Unlost(w.log, k)
  }

  ghost predicate Unlost(log: seq<Entry>, k: nat)
    requires k < |log| && log[k].Landed?
  {
    exists plan ::
      RecordStaged(plan) in log[..k] && plan.id == log[k].id && log[k].replaced == Some(plan.preview.before)
  }

  /** Where each object has one spelling, every object is named by one text. */
  lemma OneSpellingIsOneText(c: Config, log: seq<Entry>, target: Target)
    requires OneSpelling(c) && Lawful(c, log)
    ensures OneTextFor(c, log, target)
  {
    forall p, q
      | RecordStaged(p) in log && RecordStaged(q) in log && PlansFor(c, p, target) && PlansFor(c, q, target)
      ensures p.device == q.device
    {
      var s := SpellingOf(c, log, p, target);
      var s' := SpellingOf(c, log, q, target);
    }
  }

  lemma SpellingOf(c: Config, log: seq<Entry>, plan: Record, target: Target) returns (s: Spelling)
    requires Lawful(c, log) && RecordStaged(plan) in log && PlansFor(c, plan, target)
    ensures s.org in c.allowedOrgs && Named(c, s) == target && KeyOf(s) == plan.device
  {
    StagedIsSound(c, log, plan);
    hide Lawful;
    var text :|
      && target == c.resolve(plan.action.kind, plan.preview.orgId, text)
      && plan.device == ObjectKey(plan.action.kind, Some(text));
    s := Spelling(plan.action.kind, plan.preview.orgId, text);
  }

  /** The landing replaced another state than its plan read. */
  lemma SecondWriteIsLost(c: Config, w: World, k: nat)
    requires Reachable(c, w) && NothingOutside(EMPTY, w) && k < |w.log| && w.log[k].Landed? && w.log[k].replaced.Some?
    requires w.log[k].id in w.records && w.records[w.log[k].id].preview.before != w.log[k].replaced.value
    ensures !UpdatesAreNeverLost(c)
  {
    hide *;
    ReachableIsLawful(c, w);
    StagedAs(c, w, w.log[k].id);
    ReadsAnother(c, w.log, k, Plan(w.records[w.log[k].id]));
    NothingSince(w, k, w.log[k].call, w.log[k].id, w.log[k].target);
    Refutes(c, w, k);
  }

  lemma ReadsAnother(c: Config, log: seq<Entry>, k: nat, plan: Record)
    requires Lawful(c, log) && k < |log| && log[k].Landed? && log[k].id == plan.id && RecordStaged(plan) in log
    requires log[k].replaced != Some(plan.preview.before)
    ensures !Unlost(log, k)
  {
    hide Lawful;
    forall other | RecordStaged(other) in log[..k] && other.id == log[k].id ensures other == plan {
      assert RecordStaged(other) in log;
      PlansAreUnique(c, log, other, plan);
    }
  }

  lemma NothingSince(w: World, k: nat, call: Call, id: string, target: Target)
    requires NothingOutside(EMPTY, w) && k <= |w.log|
    ensures !ChangedSince(w.log[..k], call, id, target)
  {
    assert ChangedOutside(target) !in w.log;
  }

  lemma Refutes(c: Config, w: World, k: nat)
    requires Reachable(c, w) && k < |w.log| && w.log[k].Landed? && w.log[k].replaced.Some?
    requires !ChangedSince(w.log[..k], w.log[k].call, w.log[k].id, w.log[k].target) && !Unlost(w.log, k)
    ensures !UpdatesAreNeverLost(c)
  {
    hide Reachable;
    hide ChangedSince;
    hide Unlost;
  }

  lemma StagedAs(c: Config, w: World, id: string)
    requires Inv(c, w) && id in w.records
    ensures
      var plan := Plan(w.records[id]);
      RecordStaged(plan) in w.log && plan.id == id && plan.preview == w.records[id].preview
  {
    assert RecordOk(w.log, w.records[id]);
  }

  /** Two patches that set different members of an empty object. */
  lemma ExamplePatches() returns (p: Json, q: Json)
    ensures GuardsPass(p) && GuardsPass(q)
    ensures Merged(Obj(map[]), p) != Obj(map[])
  {
    var first, second := map["a" := Bool(true)], map["b" := Bool(true)];
    p, q := Obj(first), Obj(second);
    assert RejectConfigAuthority(Bool(true)) == Accepted && RejectRedactionPlaceholder(Bool(true)) == Accepted;
    assert "a" in first && "a" in Merged(Obj(map[]), p).members;
  }

  /** Every update that no outsider disturbs replaces exactly what its plan read, in every run, if and
      only if identifiers that name one object are one text. */
  lemma NoLostUpdateIff(c: Config)
    ensures OneSpelling(c) <==> UpdatesAreNeverLost(c)
  {
    if OneSpelling(c) {
      forall w, k: nat
        | Reachable(c, w) && k < |w.log| && w.log[k].Landed? && w.log[k].replaced.Some?
          && !ChangedSince(w.log[..k], w.log[k].call, w.log[k].id, w.log[k].target)
        ensures Unlost(w.log, k)
      {
        OneSpellingKeeps(c, w, k);
      }
    } else {
      var s: Spelling, s': Spelling :|
        s.org in c.allowedOrgs && s'.org in c.allowedOrgs && Named(c, s) == Named(c, s') && KeyOf(s) != KeyOf(s');
      hide *;
      var p, q := ExamplePatches();
      var events, w, k := TwoSpellingsLoseAnUpdate(c, s, s', Obj(map[]), p, q);
      IsReachable(c, map[Named(c, s) := Obj(map[])], events, w);
      SecondWriteIsLost(c, w, k);
    }
  }

  lemma OneSpellingKeeps(c: Config, w: World, k: nat)
    requires OneSpelling(c) && Reachable(c, w) && k < |w.log| && w.log[k].Landed? && w.log[k].replaced.Some?
    requires !ChangedSince(w.log[..k], w.log[k].call, w.log[k].id, w.log[k].target)
    ensures Unlost(w.log, k)
  {
    ReachableIsLawful(c, w);
    PrefixIsLawful(c, w.log, k);
    hide Reachable;
    hide Inv;
    hide Lawful;
    OneSpellingIsOneText(c, w.log[..k], w.log[k].target);
    hide OneSpelling;
    hide OneTextFor;
    var plan := OneTextKeepsUpdates(c, w, k);
  }
}
