/** Steps after the write: the reply, the verifying read, the receipt and the final update. */
module ApplySettlement {
  import opened Wrappers
  import opened JsonValues
  import opened ChangeSets
  import opened ApplyProtocol
  import opened ApplyLaws
  import opened ApplyFrames
  import opened ApplySteps

  // ----- the reply -----

  lemma InFlightOwn(c: Config, w: World, call: Call, a: Apply, r: Record, landed: bool)
    requires ApplyOk(c, w, call, a) && a.stage == InFlight(r, landed)
    ensures CopyOk(w.log, call, a, r) && ClaimOk(w, call, a, true) && Sent(call, a.id, r.preview.after) in w.log
    ensures NothingBeyond(w.log, call, Reached(a.stage)) && Reached(a.stage) <= 6
  {
  }

  lemma AnswerIsLawful(c: Config, w: World, call: Call, a: Apply, body: Json, named: Option<string>)
    requires call in w.applies && w.applies[call] == a && Sent(call, a.id, body) in w.log
    requires NothingBeyond(w.log, call, Reached(a.stage)) && Reached(a.stage) <= 6
    ensures EntryOk(c, w, call, Answered(call, a.id, named)) && Level(Answered(call, a.id, named)) == 7
  {
    NoAnswerYet(w.log, call, Reached(a.stage));
    hide NothingBeyond;
    hide WasAnswered;
  }

  lemma ClaimFramed(w: World, w': World, added: Option<Entry>, call: Call, a: Apply, stage: Stage, handleless: bool)
    requires ClaimOk(w, call, a, handleless) && w'.log == Noted(w.log, added) && w'.records == w.records
    ensures ClaimOk(w', call, a.(stage := stage), handleless)
  {
    GrowsKeeps(w.log, w'.log, added);
  }

  /** Where a call goes once its write is answered. */
  ghost predicate GoesOn(a: Apply, r: Record, named: Option<string>, stage: Stage) {
    || (stage == Receipting(r, Unnamed) && IsCreate(r) && named.None?)
    || (stage.Verifying? && stage.r == r && if IsCreate(r) then named == Some(stage.finalId)
                                            else stage.finalId == IdText(a.objectId))
  }

  lemma AnsweredOk(c: Config, w: World, w': World, call: Call, a: Apply, r: Record, landed: bool,
                   named: Option<string>, stage: Stage)
    requires call in w.applies && w.applies[call] == a && ApplyOk(c, w, call, a) && a.stage == InFlight(r, landed)
    requires GoesOn(a, r, named, stage)
    requires w'.log == Noted(w.log, Some(Answered(call, a.id, named))) && w'.records == w.records
    ensures ApplyOk(c, w', call, a.(stage := stage)) && EntryOk(c, w, call, Answered(call, a.id, named))
  {
    hide *;
    var entry := Answered(call, a.id, named);
    InFlightOwn(c, w, call, a, r, landed);
    AnswerIsLawful(c, w, call, a, r.preview.after, named);
    AnsweredDepth(a, r, named, stage);
    Carried(w, w', call, a, stage, r, Some(entry));
    ClaimFramed(w, w', Some(entry), call, a, stage, true);
    NothingReadYet(w.log, call, a.id, r.preview.after);
    AnsweredReading(w.log, w'.log, call, a, r, named, stage);
    AnsweredAssembled(c, w', call, a.(stage := stage), r);
  }

  lemma AnsweredDepth(a: Apply, r: Record, named: Option<string>, stage: Stage)
    requires GoesOn(a, r, named, stage)
    ensures Reached(stage) >= 7
    ensures stage == Receipting(r, Unnamed) || (stage.Verifying? && stage.r == r)
  {
  }

  lemma NothingReadYet(log: seq<Entry>, call: Call, id: string, body: Json)
    requires exists level :: NothingBeyond(log, call, level) && level <= 7
    ensures !ReadAs(log, call, id, body)
  {
    forall target ensures VerifyRead(call, id, target, Some(body)) !in log {
      assert VerifyRead(call, id, target, Some(body)) in log ==> Level(VerifyRead(call, id, target, Some(body))) <= 7;
    }
  }

  lemma AnsweredReading(before: seq<Entry>, after: seq<Entry>, call: Call, a: Apply, r: Record, named: Option<string>,
                        stage: Stage)
    requires after == Noted(before, Some(Answered(call, a.id, named))) && GoesOn(a, r, named, stage)
    requires !ReadAs(before, call, a.id, r.preview.after)
    ensures WasAnswered(after, call, a.id) && !ReadAs(after, call, a.id, r.preview.after)
    ensures stage.Verifying? ==> ReadingOk(after, call, a.(stage := stage), r, stage.finalId)
  {
    GrowsKeeps(before, after, Some(Answered(call, a.id, named)));
    assert Answered(call, a.id, named) in after;
    forall target ensures VerifyRead(call, a.id, target, Some(r.preview.after)) !in after {
      assert VerifyRead(call, a.id, target, Some(r.preview.after)) !in before;
    }
  }

  lemma AnsweredAssembled(c: Config, w: World, call: Call, a: Apply, r: Record)
    requires a.stage == Receipting(r, Unnamed) || (a.stage.Verifying? && a.stage.r == r)
    requires CopyOk(w.log, call, a, r) && ClaimOk(w, call, a, true) && NothingBeyond(w.log, call, Reached(a.stage))
    requires WasAnswered(w.log, call, a.id) && !ReadAs(w.log, call, a.id, r.preview.after)
    requires a.stage.Verifying? ==> ReadingOk(w.log, call, a, r, a.stage.finalId)
    ensures ApplyOk(c, w, call, a)
  {
    hide CopyOk;
    hide ClaimOk;
    hide WasAnswered;
    hide ReadAs;
    hide ReadingOk;
    hide NothingBeyond;
  }

  lemma AnswerKeeps(c: Config, w: World, call: Call, r: Record, landed: bool, named: Option<string>, stage: Stage,
                    w': World)
    requires Inv(c, w) && call in w.applies && w.applies[call].stage == InFlight(r, landed)
    requires GoesOn(w.applies[call], r, named, stage)
    requires w' == Go(w, call, stage, Some(Answered(call, w.applies[call].id, named)))
    ensures Inv(c, w')
  {
    hide *;
    var a, entry := w.applies[call], Some(Answered(call, w.applies[call].id, named));
    Own(c, w, call);
    QuietFacts(w, w', call, stage, entry);
    AnsweredOk(c, w, w', call, a, r, landed, named, stage);
    QuietGo(c, w, w', call, stage, entry);
  }

  lemma NoAnswerOk(c: Config, w: World, w': World, call: Call, a: Apply, r: Record, landed: bool)
    requires ApplyOk(c, w, call, a) && a.stage == InFlight(r, landed)
    requires w'.log == Noted(w.log, None) && w'.records == w.records
    ensures ApplyOk(c, w', call, a.(stage := SettlingUnanswered(r)))
  {
    InFlightOwn(c, w, call, a, r, landed);
    Carried(w, w', call, a, SettlingUnanswered(r), r, None);
    ClaimFramed(w, w', None, call, a, SettlingUnanswered(r), true);
    hide CopyOk;
    hide NothingBeyond;
    hide ClaimOk;
  }

  lemma NoAnswerKeeps(c: Config, w: World, call: Call, r: Record, landed: bool, w': World)
    requires Inv(c, w) && call in w.applies && w.applies[call].stage == InFlight(r, landed)
    requires w' == Go(w, call, SettlingUnanswered(r), None)
    ensures Inv(c, w')
  {
    hide *;
    Own(c, w, call);
    QuietFacts(w, w', call, SettlingUnanswered(r), None);
    NoAnswerOk(c, w, w', call, w.applies[call], r, landed);
    QuietGo(c, w, w', call, SettlingUnanswered(r), None);
  }

  lemma ReturnKeeps(c: Config, w: World, call: Call, reply: Reply, w': World)
    requires Inv(c, w) && ReturnStep(w, call, reply) == Some(w')
    ensures Inv(c, w')
  {
    InFlightIds(c, w, call, reply);
    hide *;
    var landed, stage := ReturnShape(w, call, reply, w');
    var r := w.applies[call].stage.r;
    if reply.NoResponse? {
      NoAnswerKeeps(c, w, call, r, landed, w');
    } else {
      AnswerKeeps(c, w, call, r, landed, reply.id, stage, w');
    }
  }

  lemma InFlightIds(c: Config, w: World, call: Call, reply: Reply)
    requires Inv(c, w) && ReturnStep(w, call, reply).Some?
    ensures call in w.applies && w.applies[call].stage.InFlight? && w.applies[call].stage.r.id == w.applies[call].id
  {
    hide Inv;
    hide Go;
    assert Holding(w.applies[call].stage) && !w.applies[call].stage.Fetching?;
    CopyIds(c, w, call);
  }

  lemma ReturnShape(w: World, call: Call, reply: Reply, w': World) returns (landed: bool, stage: Stage)
    requires ReturnStep(w, call, reply) == Some(w') && w.applies[call].stage.r.id == w.applies[call].id
    ensures call in w.applies && w.applies[call].stage == InFlight(w.applies[call].stage.r, landed)
    ensures reply.NoResponse? ==> w' == Go(w, call, SettlingUnanswered(w.applies[call].stage.r), None)
    ensures reply.Response? ==> GoesOn(w.applies[call], w.applies[call].stage.r, reply.id, stage)
    ensures reply.Response? ==> w' == Go(w, call, stage, Some(Answered(call, w.applies[call].id, reply.id)))
  {
    hide Go;
    var a, r := w.applies[call], w.applies[call].stage.r;
    landed := a.stage.landed;
    stage := if reply.NoResponse? then SettlingUnanswered(r)
             else if !IsCreate(r) then Verifying(r, IdText(a.objectId))
             else if reply.id.Some? then Verifying(r, reply.id.value)
             else Receipting(r, Unnamed);
  }

  // ----- the verifying read -----

  lemma VerifyKeeps(c: Config, w: World, call: Call, ok: bool, w': World)
    requires Inv(c, w) && VerifyStep(c, w, call, ok) == Some(w')
    ensures Inv(c, w')
  {
    CopyIds(c, w, call);
    hide Inv;
    hide Go;
    var a, r := w.applies[call], w.applies[call].stage.r;
    var target := c.resolve(a.kind, r.preview.orgId, a.stage.finalId);
    var found := if ok && target in w.objects then Some(w.objects[target]) else None;
    VerifiedKeeps(c, w, call, r, a.stage.finalId, found, Receipting(r, Compared(found, r.preview.after)), w');
  }

  lemma VerifyingOwn(c: Config, w: World, call: Call, a: Apply, r: Record, finalId: string)
    requires ApplyOk(c, w, call, a) && a.stage == Verifying(r, finalId)
    ensures CopyOk(w.log, call, a, r) && ClaimOk(w, call, a, true) && ReadingOk(w.log, call, a, r, finalId)
    ensures WasAnswered(w.log, call, a.id)
    ensures NothingBeyond(w.log, call, Reached(a.stage)) && Reached(a.stage) == 7
    ensures forall finding :: Reached(Receipting(r, finding)) == 8
    ensures forall target, found :: Level(VerifyRead(call, a.id, target, found)) == 8
  {
  }

  /** The read goes to what the reply named, or to what the plan names. */
  lemma VerifyIsLawful(c: Config, w: World, call: Call, a: Apply, r: Record, finalId: string, found: Option<Json>)
    requires Lawful(c, w.log) && call in w.applies && w.applies[call] == a
    requires CopyOk(w.log, call, a, r) && ReadingOk(w.log, call, a, r, finalId)
    ensures EntryOk(c, w, call, VerifyRead(call, a.id, c.resolve(a.kind, r.preview.orgId, finalId), found))
  {
    CopyIsSound(c, w.log, call, a, r);
    hide *;
    PlannedKind(c, w.log, call, a, r);
    ReadingIsSound(c, w.log, call, a, r, finalId);
    SoundReadingIsOk(c, w, call, c.resolve(a.kind, r.preview.orgId, finalId), found);
  }

  lemma PlannedKind(c: Config, log: seq<Entry>, call: Call, a: Apply, r: Record)
    requires SoundPlan(c, log, Plan(r)) && CopyOk(log, call, a, r)
    ensures Plan(r).action.kind == a.kind && Plan(r).device == ObjectKey(a.kind, a.objectId)
    ensures RecordStaged(Plan(r)) in log && Plan(r).id == a.id && Plan(r).preview == r.preview
    ensures IsCreate(Plan(r)) == IsCreate(r)
  {
    var plan := Plan(r);
    var objectId :| plan.device == ObjectKey(plan.action.kind, objectId);
    ObjectKeyEqualIff(plan.action.kind, objectId, a.kind, a.objectId);
    hide SoundPlan;
  }

  lemma ReadingIsSound(c: Config, log: seq<Entry>, call: Call, a: Apply, r: Record, finalId: string)
    requires ReadingOk(log, call, a, r, finalId)
    requires Plan(r).action.kind == a.kind && Plan(r).device == ObjectKey(a.kind, a.objectId)
    requires RecordStaged(Plan(r)) in log && Plan(r).id == a.id && Plan(r).preview == r.preview
    requires IsCreate(Plan(r)) == IsCreate(r)
    ensures SoundReading(c, log, call, a.id, c.resolve(a.kind, r.preview.orgId, finalId))
  {
    var plan := Plan(r);
    hide Plan;
    hide IsCreate;
    if !IsCreate(plan) { assert plan.device == ObjectKey(plan.action.kind, Some(finalId)); }
  }

  lemma SoundReadingIsOk(c: Config, w: World, call: Call, target: Target, found: Option<Json>)
    requires call in w.applies && SoundReading(c, w.log, call, w.applies[call].id, target)
    ensures EntryOk(c, w, call, VerifyRead(call, w.applies[call].id, target, found))
  {
    hide SoundReading;
  }

  /** What the read found is what the log says it found. */
  lemma ReadLogged(before: seq<Entry>, after: seq<Entry>, call: Call, id: string, target: Target, found: Option<Json>,
                   body: Json)
    requires after == Noted(before, Some(VerifyRead(call, id, target, found))) && !ReadAs(before, call, id, body)
    ensures ReadAs(after, call, id, body) <==> found == Some(body)
    ensures WasAnswered(before, call, id) ==> WasAnswered(after, call, id)
  {
    GrowsKeeps(before, after, Some(VerifyRead(call, id, target, found)));
    assert VerifyRead(call, id, target, found) in after;
    forall other | VerifyRead(call, id, other, Some(body)) in after ensures found == Some(body) {
      assert VerifyRead(call, id, other, Some(body)) !in before;
    }
    ReadingFramed(before, after, Some(VerifyRead(call, id, target, found)), call, id, body);
  }

  lemma VerifiedOk(c: Config, w: World, w': World, call: Call, a: Apply, r: Record, finalId: string,
                   found: Option<Json>, stage: Stage)
    requires Lawful(c, w.log) && call in w.applies && w.applies[call] == a && ApplyOk(c, w, call, a)
    requires a.stage == Verifying(r, finalId) && stage == Receipting(r, Compared(found, r.preview.after))
    requires
      var target := c.resolve(a.kind, r.preview.orgId, finalId);
      w'.log == Noted(w.log, Some(VerifyRead(call, a.id, target, found))) && w'.records == w.records
    ensures ApplyOk(c, w', call, a.(stage := stage))
    ensures EntryOk(c, w, call, VerifyRead(call, a.id, c.resolve(a.kind, r.preview.orgId, finalId), found))
  {
    hide *;
    var target := c.resolve(a.kind, r.preview.orgId, finalId);
    var entry := Some(VerifyRead(call, a.id, target, found));
    VerifyingOwn(c, w, call, a, r, finalId);
    VerifyIsLawful(c, w, call, a, r, finalId, found);
    Carried(w, w', call, a, stage, r, entry);
    ClaimFramed(w, w', entry, call, a, stage, true);
    NothingReadYet(w.log, call, a.id, r.preview.after);
    ReadLogged(w.log, w'.log, call, a.id, target, found, r.preview.after);
    ComparedEqual(found, r.preview.after);
    ReceiptingAssembled(c, w', call, a.(stage := stage), r);
  }

  lemma ComparedEqual(found: Option<Json>, sent: Json)
    ensures Compared(found, sent).Verified? <==> found == Some(sent)
  {
  }

  lemma ReceiptingAssembled(c: Config, w: World, call: Call, a: Apply, r: Record)
    requires a.stage.Receipting? && a.stage.r == r
    requires CopyOk(w.log, call, a, r) && ClaimOk(w, call, a, true) && NothingBeyond(w.log, call, Reached(a.stage))
    requires WasAnswered(w.log, call, a.id)
    requires a.stage.finding.Verified? <==> ReadAs(w.log, call, a.id, r.preview.after)
    ensures ApplyOk(c, w, call, a)
  {
  }

  lemma VerifiedKeeps(c: Config, w: World, call: Call, r: Record, finalId: string, found: Option<Json>, stage: Stage,
                      w': World)
    requires Inv(c, w) && call in w.applies && w.applies[call].stage == Verifying(r, finalId)
    requires stage == Receipting(r, Compared(found, r.preview.after))
    requires
      var a := w.applies[call];
      w' == Go(w, call, stage, Some(VerifyRead(call, a.id, c.resolve(a.kind, r.preview.orgId, finalId), found)))
    ensures Inv(c, w')
  {
    hide *;
    var a := w.applies[call];
    var entry := Some(VerifyRead(call, a.id, c.resolve(a.kind, r.preview.orgId, finalId), found));
    Own(c, w, call);
    QuietFacts(w, w', call, stage, entry);
    VerifiedOk(c, w, w', call, a, r, finalId, found, stage);
    QuietGo(c, w, w', call, stage, entry);
  }

  // ----- the receipt -----

  lemma NoReceiptYet(log: seq<Entry>, call: Call)
    requires NothingBeyond(log, call, 8)
    ensures !HasReceipt(log, call)
  {
    forall id, success ensures Receipt(call, id, success) !in log {
      assert Receipt(call, id, success) in log ==> Level(Receipt(call, id, success)) <= 8;
    }
    forall id ensures ReceiptLost(call, id) !in log {
      assert ReceiptLost(call, id) in log ==> Level(ReceiptLost(call, id)) <= 8;
    }
  }

  lemma EmitReceiptKeeps(c: Config, w: World, call: Call, ok: bool, w': World)
    requires Inv(c, w) && EmitReceiptStep(c, w, call, ok) == Some(w')
    ensures Inv(c, w')
  {
    CopyIds(c, w, call);
    hide Inv;
    hide Go;
    var Receipting(r, finding) := w.applies[call].stage;
    var id := w.applies[call].id;
    ReceiptKeeps(c, w, call, r, finding,
                 if !c.recorder then None
                 else if ok then Some(Receipt(call, id, finding.Verified?))
                 else Some(ReceiptLost(call, id)), w');
  }

  lemma ReceiptingOwn(c: Config, w: World, call: Call, a: Apply, r: Record, finding: Finding)
    requires ApplyOk(c, w, call, a) && a.stage == Receipting(r, finding)
    ensures CopyOk(w.log, call, a, r) && ClaimOk(w, call, a, true) && WasAnswered(w.log, call, a.id)
    ensures finding.Verified? <==> ReadAs(w.log, call, a.id, r.preview.after)
    ensures NothingBeyond(w.log, call, 8) && Reached(a.stage) == 8 && Reached(Settling(r, finding)) == 9
    ensures Level(Receipt(call, a.id, finding.Verified?)) == Level(ReceiptLost(call, a.id)) == 9
  {
  }

  /** What was read is the body of the one plan of this call's change set, or is not. */
  lemma ReadAsPlanned(c: Config, log: seq<Entry>, call: Call, a: Apply, r: Record)
    requires Lawful(c, log) && CopyOk(log, call, a, r)
    ensures VerifiedEqual(log, call, a.id) <==> ReadAs(log, call, a.id, r.preview.after)
  {
    hide Lawful;
    hide ReadAs;
    assert RecordStaged(Plan(r)) in log && Plan(r).preview.after == r.preview.after && Plan(r).id == a.id;
    if VerifiedEqual(log, call, a.id) {
      var plan :| RecordStaged(plan) in log && plan.id == a.id && ReadAs(log, call, a.id, plan.preview.after);
      PlansAreUnique(c, log, plan, Plan(r));
    }
  }

  lemma ReceiptIsLawful(c: Config, w: World, call: Call, a: Apply, success: bool)
    requires call in w.applies && w.applies[call] == a
    requires c.recorder && !HasReceipt(w.log, call) && WasAnswered(w.log, call, a.id)
    requires success <==> VerifiedEqual(w.log, call, a.id)
    ensures EntryOk(c, w, call, Receipt(call, a.id, success)) && EntryOk(c, w, call, ReceiptLost(call, a.id))
  {
    hide HasReceipt;
    hide VerifiedEqual;
    hide WasAnswered;
  }

  lemma ReceiptedOk(c: Config, w: World, w': World, call: Call, a: Apply, r: Record, finding: Finding,
                    added: Option<Entry>)
    requires Lawful(c, w.log) && call in w.applies && w.applies[call] == a && ApplyOk(c, w, call, a)
    requires a.stage == Receipting(r, finding)
    requires
      if c.recorder then
        added == Some(Receipt(call, a.id, finding.Verified?)) || added == Some(ReceiptLost(call, a.id))
      else added == None
    requires w'.log == Noted(w.log, added) && w'.records == w.records
    ensures ApplyOk(c, w', call, a.(stage := Settling(r, finding)))
    ensures added.Some? ==> EntryOk(c, w, call, added.value)
  {
    hide *;
    ReceiptingOwn(c, w, call, a, r, finding);
    NoReceiptYet(w.log, call);
    ReadAsPlanned(c, w.log, call, a, r);
    if c.recorder { ReceiptIsLawful(c, w, call, a, finding.Verified?); }
    Carried(w, w', call, a, Settling(r, finding), r, added);
    ClaimFramed(w, w', added, call, a, Settling(r, finding), true);
    ReadingFramed(w.log, w'.log, added, call, a.id, r.preview.after);
    if c.recorder { ReceiptSeen(w'.log, call, a.id, added.value); }
    ReceiptedAssembled(c, w', call, a.(stage := Settling(r, finding)), r);
  }

  lemma ReceiptSeen(log: seq<Entry>, call: Call, id: string, entry: Entry)
    requires entry in log && (entry == ReceiptLost(call, id) || exists success :: entry == Receipt(call, id, success))
    ensures HasReceipt(log, call)
  {
  }

  lemma ReceiptedAssembled(c: Config, w: World, call: Call, a: Apply, r: Record)
    requires a.stage.Settling? && a.stage.r == r
    requires CopyOk(w.log, call, a, r) && ClaimOk(w, call, a, true) && NothingBeyond(w.log, call, Reached(a.stage))
    requires a.stage.finding.Verified? <==> ReadAs(w.log, call, a.id, r.preview.after)
    requires c.recorder ==> HasReceipt(w.log, call)
    ensures ApplyOk(c, w, call, a)
  {
  }

  lemma ReceiptKeeps(c: Config, w: World, call: Call, r: Record, finding: Finding, added: Option<Entry>, w': World)
    requires Inv(c, w) && call in w.applies && w.applies[call].stage == Receipting(r, finding)
    requires
      var id := w.applies[call].id;
      if c.recorder then added == Some(Receipt(call, id, finding.Verified?)) || added == Some(ReceiptLost(call, id))
      else added == None
    requires w' == Go(w, call, Settling(r, finding), added)
    ensures Inv(c, w')
  {
    hide *;
    Own(c, w, call);
    QuietFacts(w, w', call, Settling(r, finding), added);
    ReceiptedOk(c, w, w', call, w.applies[call], r, finding, added);
    QuietGo(c, w, w', call, Settling(r, finding), added);
  }

  // ----- the final update -----

  /** Nobody else's claim is on this record. */
  lemma OthersKeepTheirs(c: Config, w: World, w': World, call: Call, id: string, handleless: bool, other: Call)
    requires Lawful(c, w.log) && Claimed(call, id, handleless) in w.log && other != call
    requires w'.records.Keys == w.records.Keys && forall k | k in w.records && k != id :: w'.records[k] == w.records[k]
    ensures StatesKept(w, w', other)
  {
    hide Lawful;
    forall k, h | Claimed(other, k, h) in w.log && k in w.records ensures k != id {
      if k == id { ClaimsAreUnique(c, w.log, other, call, id, h, handleless); }
    }
  }

  lemma FinalRecords(c: Config, w: World, w': World, call: Call, a: Apply, r: Record, handleless: bool, state: State)
    requires Lawful(c, w.log) && RecordsOk(w) && CopyOk(w.log, call, a, r) && ClaimOk(w, call, a, handleless)
    requires state in {Applied, Failed}
    requires w'.records == w.records[a.id := r.(state := state)]
    requires w'.log == Noted(w.log, Some(Settled(call, a.id, state)))
    ensures RecordsOk(w')
  {
    var added, final := Some(Settled(call, a.id, state)), r.(state := state);
    assert RecordOk(w.log, w.records[a.id]);
    GrowsKeeps(w.log, w'.log, added);
    HistoryFramed(w.log, w'.log, added, a.id);
    assert Plan(final) == Plan(r);
    RecordReplaced(w, w', added, a.id, final);
  }

  /** What a call owes once it has answered for its one claim. */
  lemma AnsweredFor(c: Config, w': World, call: Call, id: string)
    requires forall e | e in w'.log && ByApply(e, call) :: e.id == id
    requires id in w'.records && (w'.records[id].state == Applying ==> UpdateRefused(call, id) in w'.log)
    requires c.recorder && (exists k :: WasAnswered(w'.log, call, k)) ==> HasReceipt(w'.log, call)
    ensures forall a :: ReturnOk(c, w', call, a)
  {
    forall a ensures ReturnOk(c, w', call, a) {
      forall k, handleless | Claimed(call, k, handleless) in w'.log ensures k == id {
        assert Claimed(call, k, handleless).id == id;
      }
    }
  }

  /** The claim a settling call holds. */
  predicate Mode(s: Stage) {
    !s.SettlingDrift?
  }

  /** A call about to settle has its claim, its copy, and any receipt it owes. */
  lemma ReadyToSettle(c: Config, w: World, call: Call)
    requires Inv(c, w) && call in w.applies
    requires Concluding(w.applies[call].stage)
    ensures
      var a := w.applies[call];
      && CopyOk(w.log, call, a, a.stage.r) && ClaimOk(w, call, a, Mode(a.stage))
      && (c.recorder && (exists k :: WasAnswered(w.log, call, k)) ==> HasReceipt(w.log, call))
      && ((a.stage.Settling? && a.stage.finding.Verified?) <==> VerifiedEqual(w.log, call, a.id))
      && NothingBeyond(w.log, call, 9)
  {
    hide *;
    Own(c, w, call);
    var a := w.applies[call];
    ConcludingOwn(c, w, call, a);
    BeyondGrows(w.log, w.log, None, call, Reached(a.stage), 9);
    ReadAsPlanned(c, w.log, call, a, a.stage.r);
    if !a.stage.Settling? {
      NoAnswerYet(w.log, call, Reached(a.stage));
      NothingReadYet(w.log, call, a.id, a.stage.r.preview.after);
    }
  }

  lemma ConcludingOwn(c: Config, w: World, call: Call, a: Apply)
    requires ApplyOk(c, w, call, a) && Concluding(a.stage)
    ensures CopyOk(w.log, call, a, a.stage.r) && ClaimOk(w, call, a, Mode(a.stage))
    ensures NothingBeyond(w.log, call, Reached(a.stage)) && Reached(a.stage) <= 9 && Noted(w.log, None) == w.log
    ensures a.stage.Settling? || a.stage.SettlingUnanswered? || a.stage.SettlingDrift?
    ensures !a.stage.Settling? ==> Reached(a.stage) <= 6
    ensures a.stage.Settling? ==>
              && (a.stage.finding.Verified? <==> ReadAs(w.log, call, a.id, a.stage.r.preview.after))
              && (c.recorder ==> HasReceipt(w.log, call))
  {
    hide CopyOk;
    hide HasReceipt;
    hide ReadAs;
    hide NothingBeyond;
  }

  lemma NoAnswerYet(log: seq<Entry>, call: Call, level: nat)
    requires NothingBeyond(log, call, level) && level <= 6
    ensures forall k :: !WasAnswered(log, call, k)
  {
    forall k, named ensures Answered(call, k, named) !in log {
      assert Answered(call, k, named) in log ==> Level(Answered(call, k, named)) <= 6;
    }
  }

  /** The three stages from which an apply stores its final state. */
  predicate Concluding(s: Stage) {
    s.Settling? || s.SettlingUnanswered? || s.SettlingDrift?
  }

  lemma SettledKeeps(c: Config, w: World, call: Call, a: Apply, r: Record, state: State, how: Ending, w': World)
    requires Inv(c, w) && call in w.applies && a == w.applies[call] && state in {Applied, Failed}
    requires Concluding(a.stage) && r == a.stage.r
    requires !a.stage.WaitGuard? && !a.stage.Returned? && !a.stage.Abandoned?
    requires state == Applied <==> a.stage.Settling? && a.stage.finding.Verified?
    requires w' == Go(w.(records := w.records[a.id := r.(state := state)]), call, Returned(how),
                      Some(Settled(call, a.id, state)))
    ensures Inv(c, w')
  {
    hide *;
    var added := Some(Settled(call, a.id, state));
    ReadyToSettle(c, w, call);
    Own(c, w, call);
    GoFacts(w, w', w.records[a.id := r.(state := state)], w.objects, call, Returned(how), added);
    ClaimGives(w, call, a, Mode(a.stage));
    FinalRecords(c, w, w', call, a, r, Mode(a.stage), state);
    forall other | other in w.applies && other != call ensures StatesKept(w, w', other) {
      OthersKeepTheirs(c, w, w', call, a.id, Mode(a.stage), other);
    }
    SettlingIsLawful(c, w, call, a, state, Mode(a.stage));
    ConcludedOk(c, w, w', call, how, added);
    RecordGo(c, w, w', w.records[a.id := r.(state := state)], call, Returned(how), added);
  }

  lemma ClaimGives(w: World, call: Call, a: Apply, handleless: bool)
    requires ClaimOk(w, call, a, handleless)
    ensures Claimed(call, a.id, handleless) in w.log && a.id in w.records && w.records[a.id].state == Applying
  {
  }

  lemma SettlingIsLawful(c: Config, w: World, call: Call, a: Apply, state: State, handleless: bool)
    requires call in w.applies && w.applies[call] == a && Claimed(call, a.id, handleless) in w.log
    requires state in {Applied, Failed} && (state == Applied <==> VerifiedEqual(w.log, call, a.id))
    ensures EntryOk(c, w, call, Settled(call, a.id, state)) && EntryOk(c, w, call, UpdateRefused(call, a.id))
  {
    hide VerifiedEqual;
  }

  lemma RefusedKeeps(c: Config, w: World, call: Call, a: Apply, how: Ending, w': World)
    requires Inv(c, w) && call in w.applies && a == w.applies[call] && Concluding(a.stage)
    requires !a.stage.WaitGuard? && !a.stage.Returned? && !a.stage.Abandoned?
    requires w' == Go(w, call, Returned(how), Some(UpdateRefused(call, a.id)))
    ensures Inv(c, w')
  {
    hide *;
    var added := Some(UpdateRefused(call, a.id));
    ReadyToSettle(c, w, call);
    QuietFacts(w, w', call, Returned(how), added);
    ClaimGives(w, call, a, Mode(a.stage));
    SettlingIsLawful(c, w, call, a, if a.stage.Settling? && a.stage.finding.Verified? then Applied else Failed,
                     Mode(a.stage));
    Own(c, w, call);
    ConcludedOk(c, w, w', call, how, added);
    QuietGo(c, w, w', call, Returned(how), added);
  }

  lemma ConcludedOk(c: Config, w: World, w': World, call: Call, how: Ending, added: Option<Entry>)
    requires call in w.applies && NothingBeyond(w.log, call, 9) && w'.log == Noted(w.log, added)
    requires OwnIds(w, call)
    requires
      var id := w.applies[call].id;
      && id in w'.records
      && ((exists state :: added == Some(Settled(call, id, state)) && w'.records[id].state != Applying)
          || added == Some(UpdateRefused(call, id)))
    requires c.recorder && (exists k :: WasAnswered(w.log, call, k)) ==> HasReceipt(w.log, call)
    ensures ApplyOk(c, w', call, w.applies[call].(stage := Returned(how)))
  {
    var id := w.applies[call].id;
    GrowsKeeps(w.log, w'.log, added);
    ReceiptFramed(w.log, w'.log, added, call);
    BeyondGrows(w.log, w'.log, added, call, 9, 10);
    if exists k :: WasAnswered(w'.log, call, k) {
      var k :| WasAnswered(w'.log, call, k);
      var named :| Answered(call, k, named) in w'.log;
      assert Answered(call, k, named) in w.log;
      assert WasAnswered(w.log, call, k);
    }
    assert added.value in w'.log;
    AnsweredFor(c, w', call, id);
  }

  lemma ConcludeKeeps(c: Config, w: World, call: Call, r: Record, state: State, ok: bool, how: Ending, w': World)
    requires Inv(c, w) && call in w.applies && state in {Applied, Failed}
    requires Concluding(w.applies[call].stage) && r == w.applies[call].stage.r
    requires state == Applied <==> w.applies[call].stage.Settling? && w.applies[call].stage.finding.Verified?
    requires w' == Conclude(w, call, r, state, ok, how)
    ensures Inv(c, w')
  {
    CopyIds(c, w, call);
    hide Inv;
    hide Go;
    if UpdateOutcome(w.records, r.(state := state), ok).Refused? {
      RefusedKeeps(c, w, call, w.applies[call], how, w');
    } else {
      SettledKeeps(c, w, call, w.applies[call], r, state, how, w');
    }
  }
}
