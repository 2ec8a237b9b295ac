/** The safety results are not met by doing nothing: an approved, unexpired and undrifted update, and an
    approved and unexpired create, can always be carried through from any state in which its guard is free. */
module ApplySucceeds {
  import opened Wrappers
  import opened JsonValues
  import opened ChangeSets
  import opened ApplyProtocol

  /** Since `base` only this call has moved: it stands at `stage`; this is what is stored, and what
      Mist holds; and nothing was changed from outside. */
  ghost predicate Stands(base: World, w: World, call: Call, a: Apply, stage: Stage, records: Store,
                         objects: map<Target, Json>) {
    && w.applies == base.applies[call := a.(stage := stage)] && w.records == records && w.objects == objects
    && w.guards == (if Holding(stage) then base.guards[Key(a) := call] else base.guards - {Key(a)})
    && NothingOutside(base, w)
  }

  ghost predicate NothingOutside(base: World, w: World) {
    forall target :: ChangedOutside(target) in w.log ==> ChangedOutside(target) in base.log
  }

  lemma OneMore(c: Config, w: World, events: seq<Event>, middle: World, e: Event, w': World)
    requires Run(c, w, events) == Some(middle) && Next(c, middle, e) == Some(w')
    ensures Run(c, w, events + [e]) == Some(w')
  {
    hide *;
    RunOne(c, middle, e, w');
    RunAppend(c, w, events, middle, [e], w');
  }

  lemma Enters(c: Config, w: World, call: Call, a: Apply) returns (events: seq<Event>, w': World)
    requires call !in w.applies && Key(a) !in w.guards && a.stage == WaitGuard
    ensures Run(c, w, events) == Some(w') && Stands(w, w', call, a, Fetching, w.records, w.objects)
  {
    var begin, take := BeginApply(call, a.id, a.kind, a.objectId), TakeGuard(call, true);
    var begun := Next(c, w, begin).value;
    w' := Next(c, begun, take).value;
    assert Stands(w, w', call, a, Fetching, w.records, w.objects);
    hide *;
    RunOne(c, w, begin, begun);
    OneMore(c, w, [begin], begun, take, w');
    events := [begin] + [take];
  }

  lemma FetchGoes(c: Config, base: World, w: World, call: Call, a: Apply, r: Record, now: nat, records: Store,
                  objects: map<Target, Json>)
    returns (w': World)
    requires Stands(base, w, call, a, Fetching, records, objects)
    requires Holds(records, a.id, Key(a)) && r == records[a.id] && r.state == Approved && now <= r.expiresAt
    requires !IsCreate(r) && a.objectId.Some?
    ensures Next(c, w, Fetch(call, now)) == Some(w') && Stands(base, w', call, a, ReadingDrift(r), records, objects)
  {
    w' := Next(c, w, Fetch(call, now)).value;
  }

  /** A create has nothing to compare with. */
  lemma FetchGoesOn(c: Config, base: World, w: World, call: Call, a: Apply, r: Record, now: nat, records: Store,
                    objects: map<Target, Json>)
    returns (w': World)
    requires Stands(base, w, call, a, Fetching, records, objects)
    requires Holds(records, a.id, Key(a)) && r == records[a.id] && r.state == Approved && now <= r.expiresAt
    requires IsCreate(r)
    ensures Next(c, w, Fetch(call, now)) == Some(w') && Stands(base, w', call, a, CheckingOrg(r), records, objects)
  {
    w' := Next(c, w, Fetch(call, now)).value;
  }

  lemma DriftGoes(c: Config, base: World, w: World, call: Call, a: Apply, r: Record, records: Store,
                  objects: map<Target, Json>)
    returns (w': World)
    requires Stands(base, w, call, a, ReadingDrift(r), records, objects)
    requires UpdateTarget(c, a, r) in objects && Sha256(objects[UpdateTarget(c, a, r)]) == r.fingerprint
    ensures Next(c, w, ReadDrift(call, true)) == Some(w') && Stands(base, w', call, a, CheckingOrg(r), records, objects)
  {
    assert Key(w.applies[call]) == Key(a);
    hide Key;
    w' := Next(c, w, ReadDrift(call, true)).value;
  }

  lemma OrgGoes(c: Config, base: World, w: World, call: Call, a: Apply, r: Record, records: Store,
                objects: map<Target, Json>)
    returns (w': World)
    requires Stands(base, w, call, a, CheckingOrg(r), records, objects) && r.preview.orgId in c.allowedOrgs
    ensures Next(c, w, CheckOrg(call)) == Some(w') && Stands(base, w', call, a, RecordingIntent(r), records, objects)
  {
    assert Key(w.applies[call]) == Key(a);
    hide Key;
    w' := Next(c, w, CheckOrg(call)).value;
  }

  lemma IntentGoes(c: Config, base: World, w: World, call: Call, a: Apply, r: Record, records: Store,
                   objects: map<Target, Json>)
    returns (w': World)
    requires Stands(base, w, call, a, RecordingIntent(r), records, objects)
    ensures Next(c, w, RecordIntent(call, true)) == Some(w') && Stands(base, w', call, a, Claiming(r), records, objects)
  {
    assert Key(w.applies[call]) == Key(a);
    hide Key;
    w' := Next(c, w, RecordIntent(call, true)).value;
  }

  lemma ClaimGoes(c: Config, base: World, w: World, call: Call, a: Apply, r: Record, records: Store,
                  objects: map<Target, Json>)
    returns (w': World)
    requires Stands(base, w, call, a, Claiming(r), records, objects)
    requires Holds(records, a.id, Key(a)) && r == records[a.id] && r.state == Approved
    ensures
      var claimed := r.(state := Applying, handleless := true);
      && Next(c, w, Claim(call, true)) == Some(w')
      && Stands(base, w', call, a, Writing(claimed), records[a.id := claimed], objects)
  {
    assert Key(w.applies[call]) == Key(a);
    hide Key;
    w' := Next(c, w, Claim(call, true)).value;
  }

  lemma LandGoes(c: Config, base: World, w: World, call: Call, a: Apply, r: Record, records: Store,
                 objects: map<Target, Json>,
                 result: Json) returns (w': World)
    requires Stands(base, w, call, a, InFlight(r, false), records, objects) && !IsCreate(r)
    requires UpdateTarget(c, a, r) in objects
    ensures Next(c, w, Land(call, "", result)) == Some(w')
    ensures Stands(base, w', call, a, InFlight(r, true), records, objects[UpdateTarget(c, a, r) := result])
    ensures w'.log == w.log + [Landed(call, r.id, UpdateTarget(c, a, r), Some(objects[UpdateTarget(c, a, r)]))]
  {
    assert Key(w.applies[call]) == Key(a);
    hide Key;
    w' := Next(c, w, Land(call, "", result)).value;
  }

  lemma CreateLands(c: Config, base: World, w: World, call: Call, a: Apply, r: Record, records: Store,
                    objects: map<Target, Json>, createdId: string, result: Json)
    returns (w': World)
    requires Stands(base, w, call, a, InFlight(r, false), records, objects) && IsCreate(r)
    requires Target(a.kind, r.preview.orgId, createdId) !in objects
    ensures Next(c, w, Land(call, createdId, result)) == Some(w')
    ensures
      var created := Target(a.kind, r.preview.orgId, createdId);
      && Stands(base, w', call, a, InFlight(r, true), records, objects[created := result])
      && w'.log == w.log + [Landed(call, r.id, created, None)]
  {
    assert Key(w.applies[call]) == Key(a);
    hide Key;
    w' := Next(c, w, Land(call, createdId, result)).value;
  }

  lemma SendGoes(c: Config, base: World, w: World, call: Call, a: Apply, r: Record, records: Store,
                 objects: map<Target, Json>)
    returns (w': World)
    requires Stands(base, w, call, a, Writing(r), records, objects)
    ensures Next(c, w, Send(call)) == Some(w') && Stands(base, w', call, a, InFlight(r, false), records, objects)
  {
    assert Key(w.applies[call]) == Key(a);
    hide Key;
    w' := Next(c, w, Send(call)).value;
  }

  lemma ReplyGoes(c: Config, base: World, w: World, call: Call, a: Apply, r: Record, records: Store,
                  objects: map<Target, Json>)
    returns (w': World)
    requires Stands(base, w, call, a, InFlight(r, true), records, objects) && !IsCreate(r)
    ensures Next(c, w, Return(call, Response(None))) == Some(w')
    ensures Stands(base, w', call, a, Verifying(r, IdText(a.objectId)), records, objects)
  {
    assert Key(w.applies[call]) == Key(a);
    hide Key;
    w' := Next(c, w, Return(call, Response(None))).value;
  }

  /** The reply to a create names the object to read back. */
  lemma CreateIsNamed(c: Config, base: World, w: World, call: Call, a: Apply, r: Record, records: Store,
                      objects: map<Target, Json>, name: string)
    returns (w': World)
    requires Stands(base, w, call, a, InFlight(r, true), records, objects) && IsCreate(r)
    ensures Next(c, w, Return(call, Response(Some(name)))) == Some(w')
    ensures Stands(base, w', call, a, Verifying(r, name), records, objects)
  {
    assert Key(w.applies[call]) == Key(a);
    hide Key;
    w' := Next(c, w, Return(call, Response(Some(name)))).value;
  }

  lemma VerifyGoes(c: Config, base: World, w: World, call: Call, a: Apply, r: Record, finalId: string, records: Store,
                   objects: map<Target, Json>)
    returns (w': World)
    requires Stands(base, w, call, a, Verifying(r, finalId), records, objects)
    requires c.resolve(a.kind, r.preview.orgId, finalId) in objects
    requires objects[c.resolve(a.kind, r.preview.orgId, finalId)] == r.preview.after
    ensures Next(c, w, Verify(call, true)) == Some(w')
    ensures Stands(base, w', call, a, Receipting(r, Verified), records, objects)
  {
    assert Key(w.applies[call]) == Key(a);
    hide Key;
    w' := Next(c, w, Verify(call, true)).value;
  }

  lemma ReceiptGoes(c: Config, base: World, w: World, call: Call, a: Apply, r: Record, records: Store,
                    objects: map<Target, Json>)
    returns (w': World)
    requires Stands(base, w, call, a, Receipting(r, Verified), records, objects)
    ensures Next(c, w, EmitReceipt(call, true)) == Some(w')
    ensures Stands(base, w', call, a, Settling(r, Verified), records, objects)
    ensures c.recorder ==> Receipt(call, r.id, true) in w'.log
  {
    assert Key(w.applies[call]) == Key(a);
    hide Key;
    w' := Next(c, w, EmitReceipt(call, true)).value;
    assert c.recorder ==> w'.log[|w.log|] == Receipt(call, r.id, true);
  }

  lemma SettleGoes(c: Config, base: World, w: World, call: Call, a: Apply, r: Record, records: Store,
                   objects: map<Target, Json>)
    returns (w': World)
    requires Stands(base, w, call, a, Settling(r, Verified), records, objects)
    requires r.id in records && records[r.id].state == Applying
    ensures Next(c, w, Settle(call, true)) == Some(w')
    ensures Stands(base, w', call, a, Returned(Verdict(true)), records[r.id := r.(state := Applied)], objects)
    ensures forall e | e in w.log :: e in w'.log
  {
    assert Key(w.applies[call]) == Key(a);
    hide Key;
    w' := Next(c, w, Settle(call, true)).value;
  }

  /** An object read back as it was sent is receipted and settled as applied. */
  lemma ConcludesApplied(c: Config, base: World, w: World, call: Call, a: Apply, r: Record, finalId: string,
                         records: Store, objects: map<Target, Json>)
    returns (events: seq<Event>, w': World)
    requires Stands(base, w, call, a, Verifying(r, finalId), records, objects)
    requires c.resolve(a.kind, r.preview.orgId, finalId) in objects
    requires objects[c.resolve(a.kind, r.preview.orgId, finalId)] == r.preview.after
    requires r.id in records && records[r.id].state == Applying
    ensures Run(c, w, events) == Some(w')
    ensures Stands(base, w', call, a, Returned(Verdict(true)), records[r.id := r.(state := Applied)], objects)
    ensures c.recorder ==> Receipt(call, r.id, true) in w'.log
  {
    hide *;
    var w1 := VerifyGoes(c, base, w, call, a, r, finalId, records, objects);
    var w2 := ReceiptGoes(c, base, w1, call, a, r, records, objects);
    w' := SettleGoes(c, base, w2, call, a, r, records, objects);
    RunOne(c, w, Verify(call, true), w1);
    OneMore(c, w, [Verify(call, true)], w1, EmitReceipt(call, true), w2);
    events := [Verify(call, true)] + [EmitReceipt(call, true)];
    OneMore(c, w, events, w2, Settle(call, true), w');
    events := events + [Settle(call, true)];
  }

  /** A claimed update, left alone with Mist and the coordinator working, is carried through: its
      write takes effect as sent, is verified, receipted and settled. */
  lemma CarriesThrough(c: Config, base: World, w: World, call: Call, a: Apply, r: Record, records: Store,
                       objects: map<Target, Json>)
    returns (landing: seq<Event>, landed: World, rest: seq<Event>, w': World)
    requires Stands(base, w, call, a, Writing(r), records, objects) && !IsCreate(r)
    requires UpdateTarget(c, a, r) in objects && r.id in records && records[r.id].state == Applying
    ensures Run(c, w, landing) == Some(landed) && Run(c, landed, rest) == Some(w')
    ensures
      var target := UpdateTarget(c, a, r);
      && landed.log != [] && landed.log[|landed.log| - 1] == Landed(call, r.id, target, Some(objects[target]))
      && Stands(base, w', call, a, Returned(Verdict(true)), records[r.id := r.(state := Applied)],
                objects[target := r.preview.after])
    ensures c.recorder ==> Receipt(call, r.id, true) in w'.log
  {
    AddressedIs(c, a, r);
    hide *;
    var after := objects[UpdateTarget(c, a, r) := r.preview.after];
    var w1 := SendGoes(c, base, w, call, a, r, records, objects);
    var w2 := LandGoes(c, base, w1, call, a, r, records, objects, r.preview.after);
    RunOne(c, w, Send(call), w1);
    OneMore(c, w, [Send(call)], w1, Land(call, "", r.preview.after), w2);
    landing, landed := [Send(call)] + [Land(call, "", r.preview.after)], w2;
    assert landed.log[|landed.log| - 1].Landed?;
    var w3 := ReplyGoes(c, base, w2, call, a, r, records, after);
    var read;
    read, w' := ConcludesApplied(c, base, w3, call, a, r, IdText(a.objectId), records, after);
    RunOne(c, w2, Return(call, Response(None)), w3);
    RunAppend(c, w2, [Return(call, Response(None))], w3, read, w');
    rest := [Return(call, Response(None))] + read;
  }

  lemma AddressedIs(c: Config, a: Apply, r: Record)
    ensures UpdateTarget(c, a, r) == c.resolve(a.kind, r.preview.orgId, IdText(a.objectId))
  {
  }

  /** So is a claimed create, whose reply names the new object. */
  lemma CreateCarriesThrough(c: Config, base: World, w: World, call: Call, a: Apply, r: Record, records: Store,
                             objects: map<Target, Json>, createdId: string, name: string)
    returns (events: seq<Event>, w': World)
    requires Stands(base, w, call, a, Writing(r), records, objects) && IsCreate(r)
    requires Target(a.kind, r.preview.orgId, createdId) !in objects
    requires c.resolve(a.kind, r.preview.orgId, name) == Target(a.kind, r.preview.orgId, createdId)
    requires r.id in records && records[r.id].state == Applying
    ensures Run(c, w, events) == Some(w')
    ensures Stands(base, w', call, a, Returned(Verdict(true)), records[r.id := r.(state := Applied)],
                   objects[Target(a.kind, r.preview.orgId, createdId) := r.preview.after])
    ensures c.recorder ==> Receipt(call, r.id, true) in w'.log
  {
    hide *;
    var after := objects[Target(a.kind, r.preview.orgId, createdId) := r.preview.after];
    var w1 := SendGoes(c, base, w, call, a, r, records, objects);
    var w2 := CreateLands(c, base, w1, call, a, r, records, objects, createdId, r.preview.after);
    var w3 := CreateIsNamed(c, base, w2, call, a, r, records, after, name);
    var read;
    read, w' := ConcludesApplied(c, base, w3, call, a, r, name, records, after);
    RunOne(c, w, Send(call), w1);
    OneMore(c, w, [Send(call)], w1, Land(call, createdId, r.preview.after), w2);
    events := [Send(call)] + [Land(call, createdId, r.preview.after)];
    OneMore(c, w, events, w2, Return(call, Response(Some(name))), w3);
    events := events + [Return(call, Response(Some(name)))];
    RunAppend(c, w, events, w3, read, w');
    events := events + read;
  }

  /** So an approved update can be applied from any state: the object ends as the approved body, the
      record as applied, the call returns verified, and its receipt says so. */
  lemma AnApprovedUpdateCanBeApplied(c: Config, w: World, call: Call, a: Apply, now: nat)
    returns (events: seq<Event>, w': World)
    requires call !in w.applies && Key(a) !in w.guards && a.stage == WaitGuard && a.objectId.Some?
    requires Holds(w.records, a.id, Key(a)) && w.records[a.id].id == a.id && w.records[a.id].state == Approved
    requires now <= w.records[a.id].expiresAt && w.records[a.id].preview.orgId in c.allowedOrgs
    requires !IsCreate(w.records[a.id])
    requires UpdateTarget(c, a, w.records[a.id]) in w.objects
    requires Sha256(w.objects[UpdateTarget(c, a, w.records[a.id])]) == w.records[a.id].fingerprint
    ensures Run(c, w, events) == Some(w')
    ensures call in w'.applies && w'.applies[call].stage == Returned(Verdict(true))
    ensures w'.records == w.records[a.id := w.records[a.id].(state := Applied, handleless := true)]
    ensures w'.objects == w.objects[UpdateTarget(c, a, w.records[a.id]) := w.records[a.id].preview.after]
    ensures c.recorder ==> Receipt(call, a.id, true) in w'.log
  {
    var r := w.records[a.id];
    var claimed := r.(state := Applying, handleless := true);
    var es, w1 := ReachesClaim(c, w, call, a, r, now);
    var landing, landed, rest, w2 :=
      CarriesThrough(c, w, w1, call, a, claimed, w.records[a.id := claimed], w.objects);
    hide Run;
    RunAppend(c, w1, landing, landed, rest, w2);
    RunAppend(c, w, es, w1, landing + rest, w2);
    events, w' := es + (landing + rest), w2;
  }

  /** And so can an approved create, whatever free place Mist gives the new object and whatever name for
      it the reply bears: the objects gain exactly the approved body there. */
  lemma AnApprovedCreateCanBeApplied(c: Config, w: World, call: Call, a: Apply, now: nat, createdId: string,
                                     name: string)
    returns (events: seq<Event>, w': World)
    requires call !in w.applies && Key(a) !in w.guards && a.stage == WaitGuard
    requires Holds(w.records, a.id, Key(a)) && w.records[a.id].id == a.id && w.records[a.id].state == Approved
    requires now <= w.records[a.id].expiresAt && w.records[a.id].preview.orgId in c.allowedOrgs
    requires IsCreate(w.records[a.id])
    requires Target(a.kind, w.records[a.id].preview.orgId, createdId) !in w.objects
    requires c.resolve(a.kind, w.records[a.id].preview.orgId, name) ==
             Target(a.kind, w.records[a.id].preview.orgId, createdId)
    ensures Run(c, w, events) == Some(w')
    ensures call in w'.applies && w'.applies[call].stage == Returned(Verdict(true))
    ensures w'.records == w.records[a.id := w.records[a.id].(state := Applied, handleless := true)]
    ensures w'.objects ==
            w.objects[Target(a.kind, w.records[a.id].preview.orgId, createdId) := w.records[a.id].preview.after]
    ensures c.recorder ==> Receipt(call, a.id, true) in w'.log
  {
    var r := w.records[a.id];
    var claimed := r.(state := Applying, handleless := true);
    var es, w1 := CreateReachesClaim(c, w, call, a, r, now);
    var rest;
    rest, w' :=
      CreateCarriesThrough(c, w, w1, call, a, claimed, w.records[a.id := claimed], w.objects, createdId, name);
    hide Run;
    RunAppend(c, w, es, w1, rest, w');
    events := es + rest;
  }

  lemma CreateReachesClaim(c: Config, w: World, call: Call, a: Apply, r: Record, now: nat)
    returns (events: seq<Event>, w': World)
    requires call !in w.applies && Key(a) !in w.guards && a.stage == WaitGuard
    requires Holds(w.records, a.id, Key(a)) && r == w.records[a.id] && r.state == Approved
    requires now <= r.expiresAt && r.preview.orgId in c.allowedOrgs && IsCreate(r)
    ensures
      var claimed := r.(state := Applying, handleless := true);
      Run(c, w, events) == Some(w') && Stands(w, w', call, a, Writing(claimed), w.records[a.id := claimed], w.objects)
  {
    hide *;
    var es, w1 := Enters(c, w, call, a);
    var w2 := FetchGoesOn(c, w, w1, call, a, r, now, w.records, w.objects);
    var w3 := OrgGoes(c, w, w2, call, a, r, w.records, w.objects);
    var w4 := IntentGoes(c, w, w3, call, a, r, w.records, w.objects);
    w' := ClaimGoes(c, w, w4, call, a, r, w.records, w.objects);
    OneMore(c, w, es, w1, Fetch(call, now), w2);
    OneMore(c, w, es + [Fetch(call, now)], w2, CheckOrg(call), w3);
    events := es + [Fetch(call, now)] + [CheckOrg(call)];
    OneMore(c, w, events, w3, RecordIntent(call, true), w4);
    events := events + [RecordIntent(call, true)];
    OneMore(c, w, events, w4, Claim(call, true), w');
    events := events + [Claim(call, true)];
  }

  lemma ReachesClaim(c: Config, w: World, call: Call, a: Apply, r: Record, now: nat)
    returns (events: seq<Event>, w': World)
    requires call !in w.applies && Key(a) !in w.guards && a.stage == WaitGuard && a.objectId.Some?
    requires Holds(w.records, a.id, Key(a)) && r == w.records[a.id] && r.state == Approved
    requires now <= r.expiresAt && r.preview.orgId in c.allowedOrgs && !IsCreate(r)
    requires UpdateTarget(c, a, r) in w.objects && Sha256(w.objects[UpdateTarget(c, a, r)]) == r.fingerprint
    ensures
      var claimed := r.(state := Applying, handleless := true);
      Run(c, w, events) == Some(w') && Stands(w, w', call, a, Writing(claimed), w.records[a.id := claimed], w.objects)
  {
    hide *;
    var es, w1 := Enters(c, w, call, a);
    var w2 := FetchGoes(c, w, w1, call, a, r, now, w.records, w.objects);
    var w3 := DriftGoes(c, w, w2, call, a, r, w.records, w.objects);
    var w4 := OrgGoes(c, w, w3, call, a, r, w.records, w.objects);
    var w5 := IntentGoes(c, w, w4, call, a, r, w.records, w.objects);
    w' := ClaimGoes(c, w, w5, call, a, r, w.records, w.objects);
    OneMore(c, w, es, w1, Fetch(call, now), w2);
    OneMore(c, w, es + [Fetch(call, now)], w2, ReadDrift(call, true), w3);
    var read := es + [Fetch(call, now)] + [ReadDrift(call, true)];
    OneMore(c, w, read, w3, CheckOrg(call), w4);
    OneMore(c, w, read + [CheckOrg(call)], w4, RecordIntent(call, true), w5);
    events := read + [CheckOrg(call)] + [RecordIntent(call, true)];
    OneMore(c, w, events, w5, Claim(call, true), w');
    events := events + [Claim(call, true)];
  }
}
