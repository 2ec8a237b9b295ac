/** Each step of the machine keeps the invariant. */
module ApplySteps {
  import opened Wrappers
  import opened JsonValues
  import opened MergePatch
  import opened ChangeSets
  import opened ApplyProtocol
  import opened ApplyLaws
  import opened ApplyFrames

  /** Entries that say nothing about plans, approvals or claims. */
  predicate Neutral(added: Option<Entry>) {
    added.Some? ==>
      && !added.value.RecordStaged? && !added.value.Claimed?
      && !added.value.ApprovalGranted? && !added.value.ApprovalWaived?
  }

  /** An entry that approves or waives this change set. */
  predicate AboutApproval(added: Option<Entry>, id: string) {
    added.Some? && (added.value.ApprovalGranted? || added.value.ApprovalWaived?) && added.value.id == id
  }

  lemma ApprovedFramed(before: seq<Entry>, after: seq<Entry>, added: Option<Entry>, id: string, until: nat)
    requires after == Noted(before, added) && ApprovedUntil(before, id, until)
    ensures ApprovedUntil(after, id, until)
  {
    GrowsKeeps(before, after, added);
    if ApprovalWaived(id, until) !in before {
      var approver, actor, echoed :| ApprovalGranted(id, approver, actor, echoed, until) in before;
      assert ApprovalGranted(id, approver, actor, echoed, until) in after;
    }
  }

  lemma ApprovedBefore(before: seq<Entry>, after: seq<Entry>, added: Option<Entry>, id: string)
    requires after == Noted(before, added) && HasApproval(after, id) && !AboutApproval(added, id)
    ensures HasApproval(before, id)
  {
    GrowsKeeps(before, after, added);
    var until :| ApprovedUntil(after, id, until);
    if ApprovalWaived(id, until) !in after {
      var approver, actor, echoed :| ApprovalGranted(id, approver, actor, echoed, until) in after;
      assert ApprovalGranted(id, approver, actor, echoed, until) in before;
    }
    assert ApprovedUntil(before, id, until);
  }

  lemma RecordFramed(before: seq<Entry>, after: seq<Entry>, added: Option<Entry>, r: Record)
    requires after == Noted(before, added) && Neutral(added) && RecordOk(before, r)
    ensures RecordOk(after, r)
  {
    GrowsKeeps(before, after, added);
    HistoryFramed(before, after, added, r.id);
    if r.state == Approved { ApprovedFramed(before, after, added, r.id, r.expiresAt); }
    hide HasApproval;
    hide HasClaim;
    hide ApprovedUntil;
  }

  /** A neutral entry, or one about another change set, leaves a change set's history alone. */
  lemma HistoryFramed(before: seq<Entry>, after: seq<Entry>, added: Option<Entry>, id: string)
    requires after == Noted(before, added)
    ensures Neutral(added) || (added.value.Claimed? && added.value.id != id) || added.value.RecordStaged?
            || ((added.value.ApprovalGranted? || added.value.ApprovalWaived?) && added.value.id != id)
            ==> (HasApproval(before, id) <==> HasApproval(after, id)) && (HasClaim(before, id) <==> HasClaim(after, id))
    ensures HasApproval(before, id) ==> HasApproval(after, id)
    ensures HasClaim(before, id) ==> HasClaim(after, id)
    ensures HasStaged(before, id) ==> HasStaged(after, id)
  {
    GrowsKeeps(before, after, added);
    if HasApproval(before, id) {
      var until :| ApprovedUntil(before, id, until);
      ApprovedFramed(before, after, added, id, until);
    }
    if HasApproval(after, id) && !AboutApproval(added, id) { ApprovedBefore(before, after, added, id); }
    if HasClaim(before, id) {
      var call, handleless :| Claimed(call, id, handleless) in before;
      assert Claimed(call, id, handleless) in after;
    }
    if HasStaged(before, id) {
      var plan :| RecordStaged(plan) in before && plan.id == id;
      assert RecordStaged(plan) in after;
    }
  }

  lemma RecordsFramed(w: World, w': World, added: Option<Entry>)
    requires RecordsOk(w) && w'.records == w.records
    requires w'.log == Noted(w.log, added) && Neutral(added)
    ensures RecordsOk(w')
  {
    GrowsKeeps(w.log, w'.log, added);
    forall id | id in w'.records ensures RecordOk(w'.log, w'.records[id]) {
      RecordFramed(w.log, w'.log, added, w.records[id]);
    }
  }

  lemma PlansFramed(c: Config, w: World, w': World, added: Option<Entry>)
    requires PlansOk(c, w) && w'.log == Noted(w.log, added)
    requires forall call | call in w'.plans && w'.plans[call].Proposed? ::
               call in w.plans && w.plans[call] == w'.plans[call]
    ensures PlansOk(c, w')
  {
    GrowsKeeps(w.log, w'.log, added);
    forall call | call in w'.plans && w'.plans[call].Proposed? ensures ProposalOk(c, w'.log, w'.plans[call]) {
      ProposalFramed(c, w.log, w'.log, added, w.plans[call]);
    }
  }

  lemma ProposalFramed(c: Config, before: seq<Entry>, after: seq<Entry>, added: Option<Entry>, p: Planning)
    requires p.Proposed? && ProposalOk(c, before, p) && after == Noted(before, added)
    ensures ProposalOk(c, after, p)
  {
    GrowsKeeps(before, after, added);
    if !p.before.Null? {
      var call :| PlanRead(call, c.resolve(p.kind, p.org, p.objectId.value), p.before) in before;
      assert PlanRead(call, c.resolve(p.kind, p.org, p.objectId.value), p.before) in after;
    }
  }

  /** Only `call` moved, to `stage`. */
  ghost predicate MovedBy(w: World, w': World, call: Call, stage: Stage, added: Option<Entry>) {
    && call in w.applies
    && w' == Go(w.(records := w'.records, objects := w'.objects), call, stage, added)
    && (w.applies[call].stage.WaitGuard? && Holding(stage) ==> Key(w.applies[call]) !in w.guards)
    && !w.applies[call].stage.Returned? && !w.applies[call].stage.Abandoned?
  }

  /** A lawful entry by this call, about its change set. */
  ghost predicate EntryOk(c: Config, w: World, call: Call, e: Entry) {
    call in w.applies && ByApply(e, call) && e.id == w.applies[call].id && LawfulEntry(c, w.log, e)
  }

  lemma GuardsFramed(w: World, w': World, call: Call, stage: Stage, added: Option<Entry>)
    requires GuardsOk(w) && MovedBy(w, w', call, stage, added)
    ensures GuardsOk(w')
  {
  }

  /** A step by one apply call keeps the invariant if it keeps that call and the records right
      and stays out of the way of every other call. */
  lemma CallStep(c: Config, w: World, w': World, call: Call, stage: Stage, added: Option<Entry>)
    requires Inv(c, w)
    requires MovedBy(w, w', call, stage, added)
    requires added.Some? ==> EntryOk(c, w, call, added.value)
    requires RecordsOk(w')
    requires ApplyOk(c, w', call, w.applies[call].(stage := stage))
    requires forall other | other in w.applies && other != call :: StatesKept(w, w', other)
    requires forall other | other in w.applies && other != call && Holding(w.applies[other].stage) ::
               ObjectsKept(w, w', added, Key(w.applies[other]))
    ensures Inv(c, w')
  {
    CallLog(c, w, w', call, stage, added);
    assert PlansOk(c, w) && GuardsOk(w) && AppliesOk(c, w);
    hide Lawful;
    hide LawfulEntry;
    hide EntryOk;
    hide CallsOk;
    hide Inv;
    hide RecordsOk;
    PlansFramed(c, w, w', added);
    hide PlansOk;
    GuardsFramed(w, w', call, stage, added);
    hide GuardsOk;
    OthersFramed(c, w, w', call, stage, added);
    hide AppliesOk;
    InvAssembled(c, w');
  }

  lemma InvAssembled(c: Config, w: World)
    requires Lawful(c, w.log) && RecordsOk(w) && PlansOk(c, w) && GuardsOk(w) && CallsOk(w) && AppliesOk(c, w)
    ensures Inv(c, w)
  {
  }

  lemma CallLog(c: Config, w: World, w': World, call: Call, stage: Stage, added: Option<Entry>)
    requires Inv(c, w) && MovedBy(w, w', call, stage, added)
    requires added.Some? ==> EntryOk(c, w, call, added.value)
    ensures Lawful(c, w'.log) && CallsOk(w') && (added.Some? ==> ByApply(added.value, call))
    ensures w'.log == Noted(w.log, added)
  {
    hide RecordsOk;
    hide PlansOk;
    hide GuardsOk;
    hide AppliesOk;
    if added.Some? { LawfulExtended(c, w.log, added.value); }
    hide LawfulEntry;
    hide Lawful;
    GrowsKeeps(w.log, w'.log, added);
  }

  lemma OthersFramed(c: Config, w: World, w': World, call: Call, stage: Stage, added: Option<Entry>)
    requires AppliesOk(c, w) && MovedBy(w, w', call, stage, added)
    requires w'.log == Noted(w.log, added) && (added.Some? ==> ByApply(added.value, call))
    requires ApplyOk(c, w', call, w.applies[call].(stage := stage))
    requires forall other | other in w.applies && other != call :: StatesKept(w, w', other)
    requires forall other | other in w.applies && other != call && Holding(w.applies[other].stage) ::
               ObjectsKept(w, w', added, Key(w.applies[other]))
    ensures AppliesOk(c, w')
  {
    hide StatesKept;
    hide ObjectsKept;
    hide Key;
    hide Holding;
    forall other | other in w'.applies ensures ApplyOk(c, w', other, w'.applies[other]) {
      if other != call {
        assert ApplyOk(c, w, other, w.applies[other]);
        hide ApplyOk;
        BystanderFramed(c, w, w', added, other, w.applies[other]);
      }
    }
  }

  /** A step, from inside the guarded section, that touches neither records nor objects. */
  lemma QuietGo(c: Config, w: World, w': World, call: Call, stage: Stage, added: Option<Entry>)
    requires Inv(c, w) && call in w.applies && w' == Go(w, call, stage, added)
    requires !w.applies[call].stage.WaitGuard? && !w.applies[call].stage.Returned? && !w.applies[call].stage.Abandoned?
    requires added.Some? ==> EntryOk(c, w, call, added.value) && !added.value.Claimed?
    requires ApplyOk(c, w', call, w.applies[call].(stage := stage))
    ensures Inv(c, w')
  {
    hide Lawful;
    hide LawfulEntry;
    hide ApplyOk;
    assert RecordsOk(w);
    hide Inv;
    RecordsFramed(w, w', added);
    hide RecordsOk;
    CallStep(c, w, w', call, stage, added);
  }

  /** What a moving call may use of the invariant. */
  lemma Own(c: Config, w: World, call: Call)
    requires Inv(c, w) && call in w.applies
    ensures Lawful(c, w.log) && RecordsOk(w) && ApplyOk(c, w, call, w.applies[call]) && OwnIds(w, call)
  {
  }

  ghost predicate OwnIds(w: World, call: Call)
    requires call in w.applies
  {
    forall e | e in w.log && ByApply(e, call) :: e.id == w.applies[call].id
  }

  /** What a step leaves in place. */
  lemma GoFacts(w: World, w': World, records: Store, objects: map<Target, Json>, call: Call, stage: Stage,
                added: Option<Entry>)
    requires call in w.applies && w' == Go(w.(records := records, objects := objects), call, stage, added)
    requires !w.applies[call].stage.WaitGuard? && !w.applies[call].stage.Returned? && !w.applies[call].stage.Abandoned?
    ensures w'.log == Noted(w.log, added) && w'.records == records && w'.objects == objects
    ensures MovedBy(w, w', call, stage, added)
  {
  }

  lemma QuietFacts(w: World, w': World, call: Call, stage: Stage, added: Option<Entry>)
    requires call in w.applies && w' == Go(w, call, stage, added)
    ensures w'.log == Noted(w.log, added) && w'.records == w.records && w'.objects == w.objects
  {
  }

  lemma BeyondGrows(before: seq<Entry>, after: seq<Entry>, added: Option<Entry>, call: Call, level: nat, level': nat)
    requires after == Noted(before, added) && NothingBeyond(before, call, level) && level <= level'
    requires added.Some? ==> Level(added.value) <= level'
    ensures NothingBeyond(after, call, level')
  {
    GrowsKeeps(before, after, added);
  }

  /** A call's copy, and the limit on its entries, carry over to its next stage. */
  lemma Carried(w: World, w': World, call: Call, a: Apply, stage: Stage, r: Record, added: Option<Entry>)
    requires w'.log == Noted(w.log, added)
    requires CopyOk(w.log, call, a, r) && NothingBeyond(w.log, call, Reached(a.stage))
    requires Reached(a.stage) <= Reached(stage) && (added.Some? ==> Level(added.value) <= Reached(stage))
    ensures CopyOk(w'.log, call, a.(stage := stage), r) && NothingBeyond(w'.log, call, Reached(stage))
    ensures added.Some? ==> added.value in w'.log
    ensures forall e | e in w.log :: e in w'.log
  {
    CopyFramed(w.log, w'.log, added, call, a, r);
    BeyondGrows(w.log, w'.log, added, call, Reached(a.stage), Reached(stage));
    GrowsKeeps(w.log, w'.log, added);
  }

  // ----- before the claim -----

  lemma TakeGuardKeeps(c: Config, w: World, call: Call, ok: bool, w': World)
    requires Inv(c, w) && TakeGuardStep(w, call, ok) == Some(w')
    ensures Inv(c, w')
  {
    Own(c, w, call);
    hide Lawful;
    RecordsFramed(w, w', None);
    if !ok { ReturnUnclaimedOk(c, w, w', call, NoGuard); }
    hide Inv;
    CallStep(c, w, w', call, if ok then Fetching else Returned(NoGuard), None);
  }

  lemma OwesNothing(c: Config, w: World, call: Call, a: Apply)
    requires NothingBeyond(w.log, call, 3)
    ensures ReturnOk(c, w, call, a)
  {
    forall id, handleless ensures Claimed(call, id, handleless) !in w.log {
      var e := Claimed(call, id, handleless);
      assert e in w.log && ByApply(e, call) ==> Level(e) <= 3;
    }
    forall id, named ensures Answered(call, id, named) !in w.log {
      var e := Answered(call, id, named);
      assert e in w.log && ByApply(e, call) ==> Level(e) <= 3;
    }
  }

  lemma ReturnUnclaimedOk(c: Config, w: World, w': World, call: Call, how: Ending)
    requires call in w.applies && ApplyOk(c, w, call, w.applies[call]) && Reached(w.applies[call].stage) <= 3
    requires w'.log == w.log
    ensures ApplyOk(c, w', call, w.applies[call].(stage := Returned(how)))
  {
    BeyondGrows(w.log, w'.log, None, call, Reached(w.applies[call].stage), 3);
    OwesNothing(c, w', call, w.applies[call].(stage := Returned(how)));
  }

  /** A call that returns before claiming anything owes nothing. */
  lemma ReturnUnclaimedKeeps(c: Config, w: World, call: Call, how: Ending, w': World)
    requires Inv(c, w) && call in w.applies && Holding(w.applies[call].stage) && Reached(w.applies[call].stage) <= 3
    requires w' == Go(w, call, Returned(how), None)
    ensures Inv(c, w')
  {
    assert !w.applies[call].stage.WaitGuard? && !w.applies[call].stage.Returned? && !w.applies[call].stage.Abandoned?;
    hide *;
    Own(c, w, call);
    QuietFacts(w, w', call, Returned(how), None);
    assert w'.log == w.log by { NothingNoted(w.log); }
    ReturnUnclaimedOk(c, w, w', call, how);
    QuietGo(c, w, w', call, Returned(how), None);
  }

  lemma NothingNoted(log: seq<Entry>)
    ensures Noted(log, None) == log
  {
  }

  lemma FetchKeeps(c: Config, w: World, call: Call, now: nat, w': World)
    requires Inv(c, w) && FetchStep(w, call, now) == Some(w')
    ensures Inv(c, w')
  {
    hide Inv;
    hide Go;
    var a := w.applies[call];
    var stage := FetchedStage(w.records, a, now);
    if stage.Returned? {
      ReturnUnclaimedKeeps(c, w, call, stage.how, w');
    } else {
      FetchedKeeps(c, w, call, w.records[a.id], stage, now, w');
    }
  }

  lemma FetchedOk(c: Config, w: World, w': World, call: Call, a: Apply, r: Record, stage: Stage, now: nat)
    requires RecordsOk(w) && ApplyOk(c, w, call, a) && call in w.applies && w.applies[call] == a && a.stage == Fetching
    requires a.id in w.records && r == w.records[a.id] && r.device == Key(a) && r.state == Approved
    requires now <= r.expiresAt
    requires stage == if IsCreate(r) then CheckingOrg(r) else ReadingDrift(r)
    requires IsCreate(r) || a.objectId.Some?
    requires w'.log == Noted(w.log, Some(Fetched(call, a.id, now, r.expiresAt)))
    ensures ApplyOk(c, w', call, a.(stage := stage)) && EntryOk(c, w, call, Fetched(call, a.id, now, r.expiresAt))
  {
    var entry := Fetched(call, a.id, now, r.expiresAt);
    assert RecordOk(w.log, r);
    hide RecordsOk;
    GrowsKeeps(w.log, w'.log, Some(entry));
    assert entry in w'.log;
    BeyondGrows(w.log, w'.log, Some(entry), call, 0, Reached(stage));
    assert CopyOk(w'.log, call, a.(stage := stage), r);
  }

  lemma FetchedKeeps(c: Config, w: World, call: Call, r: Record, stage: Stage, now: nat, w': World)
    requires Inv(c, w) && call in w.applies && w.applies[call].stage == Fetching
    requires w.applies[call].id in w.records && r == w.records[w.applies[call].id] && r.device == Key(w.applies[call])
    requires r.state == Approved && now <= r.expiresAt
    requires stage == if IsCreate(r) then CheckingOrg(r) else ReadingDrift(r)
    requires IsCreate(r) || w.applies[call].objectId.Some?
    requires w' == Go(w, call, stage, Some(Fetched(call, w.applies[call].id, now, r.expiresAt)))
    ensures Inv(c, w')
  {
    hide *;
    var a := w.applies[call];
    Own(c, w, call);
    QuietFacts(w, w', call, stage, Some(Fetched(call, a.id, now, r.expiresAt)));
    FetchedOk(c, w, w', call, a, r, stage, now);
    QuietGo(c, w, w', call, stage, Some(Fetched(call, a.id, now, r.expiresAt)));
  }

  lemma ReadDriftKeeps(c: Config, w: World, call: Call, ok: bool, w': World)
    requires Inv(c, w) && ReadDriftStep(c, w, call, ok) == Some(w')
    ensures Inv(c, w')
  {
    hide Inv;
    hide Go;
    var a, r := w.applies[call], w.applies[call].stage.r;
    var target := UpdateTarget(c, a, r);
    if !ok || target !in w.objects {
      ReturnUnclaimedKeeps(c, w, call, ReadFailed, w');
    } else if Sha256(w.objects[target]) != r.fingerprint {
      DriftSeenKeeps(c, w, call, r, w');
    } else {
      DriftClearKeeps(c, w, call, r, w');
    }
  }

  lemma DriftSeenOk(c: Config, w: World, w': World, call: Call, a: Apply, r: Record)
    requires ApplyOk(c, w, call, a) && a.stage == ReadingDrift(r) && w'.log == Noted(w.log, None)
    ensures ApplyOk(c, w', call, a.(stage := ClaimingDrift(r)))
  {
    Carried(w, w', call, a, ClaimingDrift(r), r, None);
  }

  lemma DriftSeenKeeps(c: Config, w: World, call: Call, r: Record, w': World)
    requires Inv(c, w) && call in w.applies && w.applies[call].stage == ReadingDrift(r)
    requires w' == Go(w, call, ClaimingDrift(r), None)
    ensures Inv(c, w')
  {
    hide *;
    Own(c, w, call);
    QuietFacts(w, w', call, ClaimingDrift(r), None);
    DriftSeenOk(c, w, w', call, w.applies[call], r);
    QuietGo(c, w, w', call, ClaimingDrift(r), None);
  }

  /** The call's copy is a lawful plan. */
  lemma CopyIsSound(c: Config, log: seq<Entry>, call: Call, a: Apply, r: Record)
    requires Lawful(c, log) && CopyOk(log, call, a, r)
    ensures SoundPlan(c, log, Plan(r))
    ensures forall state :: Sha256(state) == r.fingerprint ==> state == r.preview.before
  {
    var k := LawAt(c, log, RecordStaged(Plan(r)));
    assert SoundPlan(c, log[..k], Plan(r));
    if !IsCreate(r) {
      var reader, id :| PlanRead(reader, c.resolve(r.action.kind, r.preview.orgId, id), r.preview.before) in log[..k]
                        && r.device == ObjectKey(r.action.kind, Some(id));
      assert PlanRead(reader, c.resolve(r.action.kind, r.preview.orgId, id), r.preview.before) in log;
    }
  }

  lemma DriftClearOk(c: Config, w: World, w': World, call: Call, a: Apply, r: Record, target: Target)
    requires Lawful(c, w.log) && ApplyOk(c, w, call, a) && call in w.applies && w.applies[call] == a
    requires a.stage == ReadingDrift(r) && target == UpdateTarget(c, a, r)
    requires target in w.objects && Sha256(w.objects[target]) == r.fingerprint
    requires w'.log == Noted(w.log, Some(DriftChecked(call, a.id, target))) && w'.objects == w.objects
    ensures ApplyOk(c, w', call, a.(stage := CheckingOrg(r))) && EntryOk(c, w, call, DriftChecked(call, a.id, target))
  {
    hide *;
    DriftOwn(c, w, call, a, r);
    DriftClearTarget(c, w, w', call, a, r, target);
    DriftIsLawful(c, w, call, a, target);
    Carried(w, w', call, a, CheckingOrg(r), r, Some(DriftChecked(call, a.id, target)));
    DriftClearAssembled(c, w', call, a.(stage := CheckingOrg(r)), r);
  }

  lemma DriftOwn(c: Config, w: World, call: Call, a: Apply, r: Record)
    requires ApplyOk(c, w, call, a) && a.stage == ReadingDrift(r)
    ensures CopyOk(w.log, call, a, r) && NothingBeyond(w.log, call, Reached(a.stage))
    ensures Reached(a.stage) <= Reached(CheckingOrg(r))
    ensures forall id, target :: Level(DriftChecked(call, id, target)) <= Reached(CheckingOrg(r))
  {
  }

  lemma DriftIsLawful(c: Config, w: World, call: Call, a: Apply, target: Target)
    requires call in w.applies && w.applies[call] == a
    ensures EntryOk(c, w, call, DriftChecked(call, a.id, target))
  {
  }

  lemma DriftClearAssembled(c: Config, w: World, call: Call, a: Apply, r: Record)
    requires a.stage == CheckingOrg(r) && NothingBeyond(w.log, call, Reached(a.stage))
    requires CopyOk(w.log, call, a, r) && TargetOk(c, w, call, a, r)
    ensures ApplyOk(c, w, call, a)
  {
  }

  lemma DriftClearTarget(c: Config, w: World, w': World, call: Call, a: Apply, r: Record, target: Target)
    requires Lawful(c, w.log) && CopyOk(w.log, call, a, r) && target == UpdateTarget(c, a, r)
    requires target in w.objects && Sha256(w.objects[target]) == r.fingerprint
    requires w'.log == Noted(w.log, Some(DriftChecked(call, a.id, target))) && w'.objects == w.objects
    ensures TargetOk(c, w', call, a.(stage := CheckingOrg(r)), r)
  {
    CopyIsSound(c, w.log, call, a, r);
    hide Lawful;
    hide SoundPlan;
    assert DriftChecked(call, a.id, target) in w'.log;
  }

  lemma DriftClearKeeps(c: Config, w: World, call: Call, r: Record, w': World)
    requires Inv(c, w) && call in w.applies && w.applies[call].stage == ReadingDrift(r)
    requires UpdateTarget(c, w.applies[call], r) in w.objects
    requires Sha256(w.objects[UpdateTarget(c, w.applies[call], r)]) == r.fingerprint
    requires w' == Go(w, call, CheckingOrg(r),
                      Some(DriftChecked(call, w.applies[call].id, UpdateTarget(c, w.applies[call], r))))
    ensures Inv(c, w')
  {
    hide *;
    var a, target := w.applies[call], UpdateTarget(c, w.applies[call], r);
    Own(c, w, call);
    QuietFacts(w, w', call, CheckingOrg(r), Some(DriftChecked(call, a.id, target)));
    DriftClearOk(c, w, w', call, a, r, target);
    QuietGo(c, w, w', call, CheckingOrg(r), Some(DriftChecked(call, a.id, target)));
  }

  lemma OrgCheckedOk(c: Config, w: World, w': World, call: Call, a: Apply, r: Record)
    requires ApplyOk(c, w, call, a) && a.stage == CheckingOrg(r)
    requires w'.log == Noted(w.log, None) && w'.objects == w.objects
    ensures ApplyOk(c, w', call, a.(stage := RecordingIntent(r)))
  {
    Carried(w, w', call, a, RecordingIntent(r), r, None);
    TargetFramed(c, w, w', None, call, a, r);
  }

  lemma CheckOrgKeeps(c: Config, w: World, call: Call, w': World)
    requires Inv(c, w) && CheckOrgStep(c, w, call) == Some(w')
    ensures Inv(c, w')
  {
    var r := w.applies[call].stage.r;
    if r.preview.orgId !in c.allowedOrgs {
      hide Inv;
      ReturnUnclaimedKeeps(c, w, call, OrgDenied, w');
    } else {
      assert w' == Go(w, call, RecordingIntent(r), None);
      OrgCheckedKeeps(c, w, call, r, w');
    }
  }

  lemma OrgCheckedKeeps(c: Config, w: World, call: Call, r: Record, w': World)
    requires Inv(c, w) && call in w.applies && w.applies[call].stage == CheckingOrg(r)
    requires w' == Go(w, call, RecordingIntent(r), None)
    ensures Inv(c, w')
  {
    hide *;
    Own(c, w, call);
    QuietFacts(w, w', call, RecordingIntent(r), None);
    OrgCheckedOk(c, w, w', call, w.applies[call], r);
    QuietGo(c, w, w', call, RecordingIntent(r), None);
  }

  lemma IntentOk(c: Config, w: World, w': World, call: Call, a: Apply, r: Record, added: Option<Entry>)
    requires ApplyOk(c, w, call, a) && call in w.applies && w.applies[call] == a && a.stage == RecordingIntent(r)
    requires added == if c.recorder then Some(IntentPersisted(call, a.id)) else None
    requires w'.log == Noted(w.log, added) && w'.objects == w.objects
    ensures ApplyOk(c, w', call, a.(stage := Claiming(r))) && (added.Some? ==> EntryOk(c, w, call, added.value))
  {
    Carried(w, w', call, a, Claiming(r), r, added);
    TargetFramed(c, w, w', added, call, a, r);
  }

  lemma RecordIntentKeeps(c: Config, w: World, call: Call, ok: bool, w': World)
    requires Inv(c, w) && RecordIntentStep(c, w, call, ok) == Some(w')
    ensures Inv(c, w')
  {
    var r := w.applies[call].stage.r;
    CopyIds(c, w, call);
    hide Inv;
    if c.recorder && !ok {
      ReturnUnclaimedKeeps(c, w, call, IntentRefused, w');
    } else {
      IntentKeeps(c, w, call, r, if c.recorder then Some(IntentPersisted(call, w.applies[call].id)) else None, w');
    }
  }

  /** A copy is a copy of the change set the call names. */
  lemma CopyIds(c: Config, w: World, call: Call)
    requires Inv(c, w) && call in w.applies && Holding(w.applies[call].stage) && !w.applies[call].stage.Fetching?
    ensures w.applies[call].stage.r.id == w.applies[call].id
  {
    hide Lawful;
    Own(c, w, call);
    hide Inv;
    hide RecordsOk;
  }

  lemma IntentKeeps(c: Config, w: World, call: Call, r: Record, added: Option<Entry>, w': World)
    requires Inv(c, w) && call in w.applies && w.applies[call].stage == RecordingIntent(r)
    requires added == if c.recorder then Some(IntentPersisted(call, w.applies[call].id)) else None
    requires w' == Go(w, call, Claiming(r), added)
    ensures Inv(c, w')
  {
    hide *;
    Own(c, w, call);
    QuietFacts(w, w', call, Claiming(r), added);
    IntentOk(c, w, w', call, w.applies[call], r, added);
    QuietGo(c, w, w', call, Claiming(r), added);
  }

  // ----- claiming -----

  /** One record replaced by a version of itself. */
  lemma RecordReplaced(w: World, w': World, added: Option<Entry>, id: string, r: Record)
    requires RecordsOk(w) && id in w.records && w'.records == w.records[id := r]
    requires r.id == id && RecordOk(w'.log, r)
    requires w'.log == Noted(w.log, added)
    requires Neutral(added) || AboutApproval(added, id) || (added.value.Claimed? && added.value.id == id)
    ensures RecordsOk(w')
  {
    GrowsKeeps(w.log, w'.log, added);
    forall other | other in w'.records && other != id ensures RecordOk(w'.log, w'.records[other]) {
      assert RecordOk(w.log, w.records[other]);
      HistoryFramed(w.log, w'.log, added, other);
    }
  }

  /** The stored record and the call's copy are versions of one plan. */
  lemma CopyAgrees(c: Config, w: World, call: Call, a: Apply, r: Record)
    requires Lawful(c, w.log) && RecordsOk(w) && CopyOk(w.log, call, a, r)
    ensures a.id in w.records && Plan(w.records[a.id]) == Plan(r)
  {
    assert Plan(r).id == a.id && RecordOk(w.log, w.records[a.id]);
    PlansAreUnique(c, w.log, Plan(r), Plan(w.records[a.id]));
  }

  lemma ClaimIsLawful(c: Config, w: World, call: Call, a: Apply, r: Record, handleless: bool)
    requires RecordsOk(w) && CopyOk(w.log, call, a, r)
    requires call in w.applies && w.applies[call] == a
    requires a.id in w.records && w.records[a.id].state == Approved
    requires c.recorder && handleless ==> IntentPersisted(call, a.id) in w.log
    ensures EntryOk(c, w, call, Claimed(call, a.id, handleless))
  {
    assert RecordOk(w.log, w.records[a.id]);
  }

  lemma ClaimRecords(w: World, w': World, call: Call, id: string, handleless: bool)
    requires RecordsOk(w) && id in w.records && w.records[id].state == Approved
    requires w'.records == w.records[id := w.records[id].(state := Applying, handleless := handleless)]
    requires w'.log == Noted(w.log, Some(Claimed(call, id, handleless)))
    ensures RecordsOk(w')
    ensures forall other :: StatesKept(w, w', other)
  {
    var r, added := w'.records[id], Some(Claimed(call, id, handleless));
    assert RecordOk(w.log, w.records[id]) && Plan(r) == Plan(w.records[id]);
    GrowsKeeps(w.log, w'.log, added);
    HistoryFramed(w.log, w'.log, added, id);
    assert Claimed(call, id, handleless) in w'.log;
    assert HasApproval(w'.log, id) && HasClaim(w'.log, id);
    RecordReplaced(w, w', added, id, r);
    assert !HasClaim(w.log, id);
  }

  lemma ClaimedOk(c: Config, w: World, w': World, call: Call, a: Apply, r: Record, stage: Stage, handleless: bool)
    requires ApplyOk(c, w, call, a) && a.stage == if handleless then Claiming(r) else ClaimingDrift(r)
    requires w'.objects == w.objects && w'.log == Noted(w.log, Some(Claimed(call, a.id, handleless)))
    requires a.id in w'.records && w'.records[a.id].state == Applying && Plan(w'.records[a.id]) == Plan(r)
    requires stage == if handleless then Writing(w'.records[a.id]) else SettlingDrift(w'.records[a.id])
    ensures ApplyOk(c, w', call, a.(stage := stage))
  {
    var r', added := w'.records[a.id], Some(Claimed(call, a.id, handleless));
    Carried(w, w', call, a, stage, r, added);
    assert r'.id == r.id && r'.device == r.device && r'.fingerprint == r.fingerprint && r'.preview == r.preview;
    if handleless { TargetFramed(c, w, w', added, call, a, r); }
  }

  lemma ClaimingOwn(c: Config, w: World, call: Call, a: Apply, r: Record, handleless: bool)
    requires ApplyOk(c, w, call, a) && a.stage == if handleless then Claiming(r) else ClaimingDrift(r)
    ensures CopyOk(w.log, call, a, r) && (c.recorder && handleless ==> IntentPersisted(call, a.id) in w.log)
  {
  }

  /** A step that changes records while every object stays. */
  lemma RecordGo(c: Config, w: World, w': World, records: Store, call: Call, stage: Stage, added: Option<Entry>)
    requires Inv(c, w) && call in w.applies && w' == Go(w.(records := records), call, stage, added)
    requires !w.applies[call].stage.WaitGuard? && !w.applies[call].stage.Returned? && !w.applies[call].stage.Abandoned?
    requires added.Some? && EntryOk(c, w, call, added.value)
    requires RecordsOk(w') && ApplyOk(c, w', call, w.applies[call].(stage := stage))
    requires forall other | other in w.applies && other != call :: StatesKept(w, w', other)
    ensures Inv(c, w')
  {
    hide Inv;
    hide RecordsOk;
    hide ApplyOk;
    hide LawfulEntry;
    hide EntryOk;
    CallStep(c, w, w', call, stage, added);
  }

  /** A claim that the coordinator grants. */
  lemma GrantedClaimKeeps(c: Config, w: World, call: Call, r: Record, handleless: bool, claimed: Record, stage: Stage,
                          w': World)
    requires Inv(c, w) && call in w.applies
    requires w.applies[call].stage == if handleless then Claiming(r) else ClaimingDrift(r)
    requires w.applies[call].id in w.records && w.records[w.applies[call].id].state == Approved
    requires claimed == w.records[w.applies[call].id].(state := Applying, handleless := handleless)
    requires stage == if handleless then Writing(claimed) else SettlingDrift(claimed)
    requires w' == Go(w.(records := w.records[w.applies[call].id := claimed]), call, stage,
                      Some(Claimed(call, w.applies[call].id, handleless)))
    ensures Inv(c, w')
  {
    hide *;
    var a := w.applies[call];
    var entry := Claimed(call, a.id, handleless);
    Own(c, w, call);
    GoFacts(w, w', w.records[a.id := claimed], w.objects, call, stage, Some(entry));
    ClaimingOwn(c, w, call, a, r, handleless);
    CopyAgrees(c, w, call, a, r);
    ClaimIsLawful(c, w, call, a, r, handleless);
    ClaimRecords(w, w', call, a.id, handleless);
    PlanOfClaimed(w.records[a.id], handleless);
    ClaimedOk(c, w, w', call, a, r, stage, handleless);
    RecordGo(c, w, w', w.records[a.id := claimed], call, stage, Some(entry));
  }

  lemma PlanOfClaimed(r: Record, handleless: bool)
    ensures Plan(r.(state := Applying, handleless := handleless)) == Plan(r)
  {
  }

  lemma ClaimDriftKeeps(c: Config, w: World, call: Call, ok: bool, w': World)
    requires Inv(c, w) && ClaimDriftStep(w, call, ok) == Some(w')
    ensures Inv(c, w')
  {
    hide Inv;
    hide Go;
    var a, r := w.applies[call], w.applies[call].stage.r;
    var outcome := ClaimOutcome(w.records, a.id, Key(a), false, ok);
    if outcome.Refused? {
      ReturnUnclaimedKeeps(c, w, call, DriftFound, w');
    } else {
      var claimed := outcome.store[a.id];
      GrantedClaimKeeps(c, w, call, r, false, claimed, SettlingDrift(claimed), w');
    }
  }

  lemma ClaimKeeps(c: Config, w: World, call: Call, ok: bool, w': World)
    requires Inv(c, w) && ClaimStep(w, call, ok) == Some(w')
    ensures Inv(c, w')
  {
    hide Inv;
    hide Go;
    var a, r := w.applies[call], w.applies[call].stage.r;
    var outcome := ClaimOutcome(w.records, a.id, Key(a), true, ok);
    if outcome.Refused? {
      ReturnUnclaimedKeeps(c, w, call, ClaimRefused, w');
    } else {
      var claimed := outcome.store[a.id];
      GrantedClaimKeeps(c, w, call, r, true, claimed, Writing(claimed), w');
    }
  }

  // ----- the write -----

  /** Only the claimant writes a change set, so a claimant that has not yet, is the first. */
  lemma NotSentBefore(c: Config, log: seq<Entry>, call: Call, id: string)
    requires Lawful(c, log) && Claimed(call, id, true) in log && NothingBeyond(log, call, 4)
    ensures !HasSent(log, id)
  {
    hide Lawful;
    forall other, body ensures Sent(other, id, body) !in log {
      if Sent(other, id, body) in log && other != call { SentByClaimant(c, log, other, id, body, call); }
      assert Sent(call, id, body) in log ==> Level(Sent(call, id, body)) <= 4;
    }
  }

  lemma NotLandedBefore(c: Config, log: seq<Entry>, call: Call, id: string)
    requires Lawful(c, log) && Claimed(call, id, true) in log && NothingBeyond(log, call, 5)
    ensures !HasLanded(log, id)
  {
    hide Lawful;
    forall other, target, replaced ensures Landed(other, id, target, replaced) !in log {
      if Landed(other, id, target, replaced) in log && other != call {
        LandedByClaimant(c, log, other, id, target, replaced, call);
      }
      assert Landed(call, id, target, replaced) in log ==> Level(Landed(call, id, target, replaced)) <= 5;
    }
  }

  lemma LandedByClaimant(c: Config, log: seq<Entry>, other: Call, id: string, target: Target, replaced: Option<Json>,
                         call: Call)
    requires Lawful(c, log) && Landed(other, id, target, replaced) in log && Claimed(call, id, true) in log
    ensures other == call
  {
    var k := LawAt(c, log, Landed(other, id, target, replaced));
    var body :| Sent(other, id, body) in log[..k];
    SentByClaimant(c, log, other, id, body, call);
  }

  lemma SentByClaimant(c: Config, log: seq<Entry>, other: Call, id: string, body: Json, call: Call)
    requires Lawful(c, log) && Sent(other, id, body) in log && Claimed(call, id, true) in log
    ensures other == call
  {
    var k := LawAt(c, log, Sent(other, id, body));
    assert Claimed(other, id, true) in log[..k];
    ClaimsAreUnique(c, log, other, call, id, true, true);
  }

  lemma SentOk(c: Config, w: World, w': World, call: Call, a: Apply, r: Record)
    requires Lawful(c, w.log) && ApplyOk(c, w, call, a) && call in w.applies && w.applies[call] == a
    requires a.stage == Writing(r)
    requires w'.log == Noted(w.log, Some(Sent(call, a.id, r.preview.after)))
    requires w'.objects == w.objects && w'.records == w.records
    ensures ApplyOk(c, w', call, a.(stage := InFlight(r, false)))
    ensures EntryOk(c, w, call, Sent(call, a.id, r.preview.after))
  {
    hide *;
    var entry := Sent(call, a.id, r.preview.after);
    WritingOwn(c, w, call, a, r);
    FirstSend(c, w, call, a, r);
    Carried(w, w', call, a, InFlight(r, false), r, Some(entry));
    TargetKept(c, w, w', entry, call, a, r);
    FlyingAssembled(c, w', call, a, r, false);
  }

  lemma WritingOwn(c: Config, w: World, call: Call, a: Apply, r: Record)
    requires ApplyOk(c, w, call, a) && (a.stage == Writing(r) || a.stage == InFlight(r, false))
    ensures CopyOk(w.log, call, a, r) && ClaimOk(w, call, a, true) && TargetOk(c, w, call, a, r)
    ensures Claimed(call, a.id, true) in w.log && a.id in w.records && w.records[a.id].state == Applying
    ensures NothingBeyond(w.log, call, Reached(a.stage)) && Reached(a.stage) == if a.stage.Writing? then 4 else 5
    ensures Reached(InFlight(r, false)) == 5 && Reached(InFlight(r, true)) == 6
    ensures forall id, body :: Level(Sent(call, id, body)) == 5
    ensures forall id, target, replaced :: Level(Landed(call, id, target, replaced)) == 6
    ensures a.stage.InFlight? ==> Sent(call, a.id, r.preview.after) in w.log
  {
  }

  lemma FirstSend(c: Config, w: World, call: Call, a: Apply, r: Record)
    requires Lawful(c, w.log) && call in w.applies && w.applies[call] == a
    requires CopyOk(w.log, call, a, r) && Claimed(call, a.id, true) in w.log && NothingBeyond(w.log, call, 4)
    ensures EntryOk(c, w, call, Sent(call, a.id, r.preview.after))
  {
    NotSentBefore(c, w.log, call, a.id);
    hide Lawful;
    SendingIsLawful(c, w.log, call, a.id, r);
    hide LawfulEntry;
    hide NothingBeyond;
  }

  /** Where a create puts its object. */
  ghost predicate Creates(a: Apply, r: Record, target: Target) {
    exists createdId :: target == Target(a.kind, r.preview.orgId, createdId)
  }

  lemma FirstLanding(c: Config, w: World, call: Call, a: Apply, r: Record, target: Target, replaced: Option<Json>)
    requires Lawful(c, w.log) && call in w.applies && w.applies[call] == a
    requires CopyOk(w.log, call, a, r) && Claimed(call, a.id, true) in w.log
    requires NothingBeyond(w.log, call, 5) && Sent(call, a.id, r.preview.after) in w.log
    requires TargetOk(c, w, call, a, r)
    requires if IsCreate(r) then replaced == None && Creates(a, r, target)
             else target == UpdateTarget(c, a, r) && target in w.objects && replaced == Some(w.objects[target])
    ensures EntryOk(c, w, call, Landed(call, a.id, target, replaced))
  {
    hide *;
    LandingIsLawful(c, w, call, a, r, target, replaced);
    LawfulIsOk(c, w, call, Landed(call, a.id, target, replaced));
  }

  lemma LawfulIsOk(c: Config, w: World, call: Call, e: Entry)
    requires e.Landed? && call in w.applies && e.call == call && e.id == w.applies[call].id && LawfulEntry(c, w.log, e)
    ensures EntryOk(c, w, call, e)
  {
    hide LawfulEntry;
  }

  lemma TargetKept(c: Config, w: World, w': World, entry: Entry, call: Call, a: Apply, r: Record)
    requires w'.log == Noted(w.log, Some(entry)) && w'.objects == w.objects && TargetOk(c, w, call, a, r)
    ensures TargetOk(c, w', call, a, r)
  {
    hide TargetOk;
    TargetFramed(c, w, w', Some(entry), call, a, r);
  }

  lemma FlyingAssembled(c: Config, w: World, call: Call, a: Apply, r: Record, landed: bool)
    requires NothingBeyond(w.log, call, Reached(InFlight(r, landed)))
    requires CopyOk(w.log, call, a.(stage := InFlight(r, landed)), r)
    requires Claimed(call, a.id, true) in w.log && a.id in w.records && w.records[a.id].state == Applying
    requires Sent(call, a.id, r.preview.after) in w.log
    requires landed || TargetOk(c, w, call, a, r)
    ensures ApplyOk(c, w, call, a.(stage := InFlight(r, landed)))
  {
  }

  lemma SendingIsLawful(c: Config, log: seq<Entry>, call: Call, id: string, r: Record)
    requires !HasSent(log, id) && Claimed(call, id, true) in log
    requires RecordStaged(Plan(r)) in log && r.id == id
    ensures LawfulEntry(c, log, Sent(call, id, r.preview.after))
  {
    assert Plan(r).preview.after == r.preview.after;
  }

  lemma SendKeeps(c: Config, w: World, call: Call, w': World)
    requires Inv(c, w) && SendStep(w, call) == Some(w')
    ensures Inv(c, w')
  {
    CopyIds(c, w, call);
    hide Inv;
    hide Go;
    SendingKeeps(c, w, call, w.applies[call].stage.r, w');
  }

  lemma SendingKeeps(c: Config, w: World, call: Call, r: Record, w': World)
    requires Inv(c, w) && call in w.applies && w.applies[call].stage == Writing(r)
    requires w' == Go(w, call, InFlight(r, false), Some(Sent(call, w.applies[call].id, r.preview.after)))
    ensures Inv(c, w')
  {
    hide *;
    var a := w.applies[call];
    Own(c, w, call);
    QuietFacts(w, w', call, InFlight(r, false), Some(Sent(call, a.id, r.preview.after)));
    SentOk(c, w, w', call, a, r);
    QuietGo(c, w, w', call, InFlight(r, false), Some(Sent(call, a.id, r.preview.after)));
  }

  lemma LandingIsLawful(c: Config, w: World, call: Call, a: Apply, r: Record, target: Target, replaced: Option<Json>)
    requires Lawful(c, w.log) && CopyOk(w.log, call, a, r) && Claimed(call, a.id, true) in w.log
    requires NothingBeyond(w.log, call, 5) && Sent(call, a.id, r.preview.after) in w.log
    requires TargetOk(c, w, call, a, r)
    requires if IsCreate(r) then replaced == None && Creates(a, r, target)
             else target == UpdateTarget(c, a, r) && target in w.objects && replaced == Some(w.objects[target])
    ensures LawfulEntry(c, w.log, Landed(call, a.id, target, replaced))
  {
    NotLandedBefore(c, w.log, call, a.id);
    CopyIsSound(c, w.log, call, a, r);
    hide Lawful;
    hide NothingBeyond;
    LandingIsSound(c, w, call, a, r, target, replaced);
    hide SoundLanding;
    hide SoundPlan;
    hide CopyOk;
    hide TargetOk;
    hide HasLanded;
  }

  lemma LandingIsSound(c: Config, w: World, call: Call, a: Apply, r: Record, target: Target, replaced: Option<Json>)
    requires SoundPlan(c, w.log, Plan(r)) && CopyOk(w.log, call, a, r) && TargetOk(c, w, call, a, r)
    requires if IsCreate(r) then replaced == None && Creates(a, r, target)
             else target == UpdateTarget(c, a, r) && target in w.objects && replaced == Some(w.objects[target])
    ensures SoundLanding(c, w.log, call, a.id, target, replaced)
  {
    var plan := Plan(r);
    var objectId :| plan.device == ObjectKey(plan.action.kind, objectId);
    ObjectKeyEqualIff(plan.action.kind, objectId, a.kind, a.objectId);
    hide SoundPlan;
    assert RecordStaged(plan) in w.log && plan.id == a.id;
    if IsCreate(r) {
      var createdId :| target == Target(a.kind, r.preview.orgId, createdId);
      assert target == Target(plan.action.kind, plan.preview.orgId, createdId);
    } else {
      assert target == c.resolve(plan.action.kind, plan.preview.orgId, IdText(a.objectId));
      assert plan.device == ObjectKey(plan.action.kind, Some(IdText(a.objectId)));
    }
  }

  lemma LandedOk(c: Config, w: World, w': World, call: Call, a: Apply, r: Record, target: Target,
                 replaced: Option<Json>)
    requires Lawful(c, w.log) && ApplyOk(c, w, call, a) && call in w.applies && w.applies[call] == a
    requires a.stage == InFlight(r, false)
    requires if IsCreate(r) then replaced == None && Creates(a, r, target)
             else target == UpdateTarget(c, a, r) && target in w.objects && replaced == Some(w.objects[target])
    requires w'.log == Noted(w.log, Some(Landed(call, a.id, target, replaced))) && w'.records == w.records
    ensures ApplyOk(c, w', call, a.(stage := InFlight(r, true)))
    ensures EntryOk(c, w, call, Landed(call, a.id, target, replaced))
  {
    hide *;
    var entry := Landed(call, a.id, target, replaced);
    WritingOwn(c, w, call, a, r);
    FirstLanding(c, w, call, a, r, target, replaced);
    Carried(w, w', call, a, InFlight(r, true), r, Some(entry));
    FlyingAssembled(c, w', call, a, r, true);
  }

  /** To whoever holds another key, a landing is an intrusion, and nothing else changes. */
  lemma LandDisturbsNobody(c: Config, w: World, w': World, call: Call, r: Record, target: Target,
                           replaced: Option<Json>)
    requires Inv(c, w) && call in w.applies && w.applies[call].stage == InFlight(r, false)
    requires target in w.objects ==> replaced.Some?
    requires forall t | t in w.objects && t != target :: t in w'.objects && w'.objects[t] == w.objects[t]
    ensures
      var entry := Landed(call, w.applies[call].id, target, replaced);
      forall other | other in w.applies && other != call && Holding(w.applies[other].stage) ::
        ObjectsKept(w, w', Some(entry), Key(w.applies[other]))
  {
    assert GuardsOk(w);
    var a := w.applies[call];
    OwnPlan(c, w, call, r);
    hide Inv;
    hide Key;
    var entry := Landed(call, a.id, target, replaced);
    hide ObjectsKept;
    hide UpdateTarget;
    forall other | other in w.applies && other != call && Holding(w.applies[other].stage)
      ensures ObjectsKept(w, w', Some(entry), Key(w.applies[other]))
    {
      LandIntrudes(w, w', entry, Plan(r), Key(w.applies[other]));
    }
  }

  lemma LandIntrudes(w: World, w': World, entry: Entry, plan: Record, key: string)
    requires entry.Landed? && RecordStaged(plan) in w.log && plan.id == entry.id && plan.device != key
    requires entry.target in w.objects ==> entry.replaced.Some?
    requires forall t | t in w.objects && t != entry.target :: t in w'.objects && w'.objects[t] == w.objects[t]
    ensures ObjectsKept(w, w', Some(entry), key)
  {
    assert PlannedElsewhere(w.log, entry.id, key);
    hide PlannedElsewhere;
  }

  lemma OwnPlan(c: Config, w: World, call: Call, r: Record)
    requires Inv(c, w) && call in w.applies && w.applies[call].stage == InFlight(r, false)
    ensures
      var a := w.applies[call];
      RecordStaged(Plan(r)) in w.log && Plan(r).id == a.id && Plan(r).device == Key(a)
  {
    hide Lawful;
    Own(c, w, call);
    hide Inv;
    hide RecordsOk;
    hide TargetOk;
    hide ClaimOk;
    hide NothingBeyond;
  }

  lemma LandKeeps(c: Config, w: World, call: Call, createdId: string, result: Json, w': World)
    requires Inv(c, w) && LandStep(c, w, call, createdId, result) == Some(w')
    ensures Inv(c, w')
  {
    CopyIds(c, w, call);
    hide Inv;
    hide Go;
    var a, r := w.applies[call], w.applies[call].stage.r;
    if IsCreate(r) {
      LandedKeeps(c, w, call, r, Target(a.kind, r.preview.orgId, createdId), None, result, w');
    } else {
      LandedKeeps(c, w, call, r, UpdateTarget(c, a, r), Some(w.objects[UpdateTarget(c, a, r)]), result, w');
    }
  }

  lemma LandedKeeps(c: Config, w: World, call: Call, r: Record, target: Target, replaced: Option<Json>, result: Json,
                    w': World)
    requires Inv(c, w) && call in w.applies && w.applies[call].stage == InFlight(r, false)
    requires if IsCreate(r) then replaced == None && target !in w.objects && Creates(w.applies[call], r, target)
             else && target == UpdateTarget(c, w.applies[call], r) && target in w.objects
                  && replaced == Some(w.objects[target])
    requires w' == Go(w.(objects := w.objects[target := result]), call, InFlight(r, true),
                      Some(Landed(call, w.applies[call].id, target, replaced)))
    ensures Inv(c, w')
  {
    hide *;
    var a := w.applies[call];
    var entry := Landed(call, a.id, target, replaced);
    Own(c, w, call);
    GoFacts(w, w', w.records, w.objects[target := result], call, InFlight(r, true), Some(entry));
    LandedOk(c, w, w', call, a, r, target, replaced);
    LandDisturbsNobody(c, w, w', call, r, target, replaced);
    ObjectGo(c, w, w', call, InFlight(r, true), entry);
  }

  /** A step that changes objects while every record stays. */
  lemma ObjectGo(c: Config, w: World, w': World, call: Call, stage: Stage, entry: Entry)
    requires Inv(c, w) && MovedBy(w, w', call, stage, Some(entry)) && w'.records == w.records
    requires w'.log == Noted(w.log, Some(entry))
    requires EntryOk(c, w, call, entry) && entry.Landed?
    requires ApplyOk(c, w', call, w.applies[call].(stage := stage))
    requires forall other | other in w.applies && other != call && Holding(w.applies[other].stage) ::
               ObjectsKept(w, w', Some(entry), Key(w.applies[other]))
    ensures Inv(c, w')
  {
    hide ApplyOk;
    hide EntryOk;
    hide Lawful;
    hide MovedBy;
    assert RecordsOk(w);
    hide Inv;
    RecordsFramed(w, w', Some(entry));
    hide RecordsOk;
    CallStep(c, w, w', call, stage, Some(entry));
  }
}
