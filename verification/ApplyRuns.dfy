/** Every run keeps the invariant, and what that means for writes, approvals and evidence. */
module ApplyRuns {
  import opened Wrappers
  import opened JsonValues
  import opened MergePatch
  import opened ChangeSets
  import opened ApplyProtocol
  import opened ApplyLaws
  import opened ApplyFrames
  import opened ApplySteps
  import opened ApplySettlement

  // ----- steps that no apply call takes -----

  lemma IdleStep(c: Config, w: World, w': World, added: Option<Entry>)
    requires Inv(c, w)
    requires w'.applies == w.applies && w'.guards == w.guards
    requires w'.log == Noted(w.log, added)
    requires added.Some? ==> Level(added.value) == 0 && LawfulEntry(c, w.log, added.value)
    requires RecordsOk(w') && PlansOk(c, w')
    requires forall call :: StatesKept(w, w', call)
    requires forall key :: ObjectsKept(w, w', added, key)
    ensures Inv(c, w')
  {
    if added.Some? { LawfulExtended(c, w.log, added.value); }
    GrowsKeeps(w.log, w'.log, added);
    hide Lawful;
    forall call | call in w'.applies ensures ApplyOk(c, w', call, w'.applies[call]) {
      assert ApplyOk(c, w, call, w.applies[call]);
      BystanderFramed(c, w, w', added, call, w.applies[call]);
    }
    assert CallsOk(w') && GuardsOk(w');
  }

  /** A step that leaves records and objects alone as well. */
  lemma PlanningStep(c: Config, w: World, w': World, added: Option<Entry>)
    requires Inv(c, w)
    requires w'.applies == w.applies && w'.guards == w.guards && w'.records == w.records && w'.objects == w.objects
    requires w'.log == Noted(w.log, added) && Neutral(added)
    requires added.Some? ==> Level(added.value) == 0 && LawfulEntry(c, w.log, added.value)
    requires PlansOk(c, w')
    ensures Inv(c, w')
  {
    assert RecordsOk(w);
    hide Lawful;
    RecordsFramed(w, w', added);
    IdleStep(c, w, w', added);
  }

  lemma OneMoreProposal(c: Config, w: World, w': World, call: Call, p: Planning, added: Option<Entry>)
    requires PlansOk(c, w) && w'.log == Noted(w.log, added) && w'.plans == w.plans[call := p]
    requires p.Proposed? ==> ProposalOk(c, w'.log, p)
    ensures PlansOk(c, w')
  {
    GrowsKeeps(w.log, w'.log, added);
    forall other | other in w'.plans && w'.plans[other].Proposed? ensures ProposalOk(c, w'.log, w'.plans[other]) {
      if other != call { ProposalFramed(c, w.log, w'.log, added, w.plans[other]); }
    }
  }

  lemma ProposeKeeps(c: Config, w: World, e: Event, w': World)
    requires e.Propose? && Inv(c, w) && ProposeStep(c, w, e) == Some(w')
    ensures Inv(c, w')
  {
    InvParts(c, w);
    hide Inv;
    hide GuardsPass;
    hide OnlyInherited;
    hide Merged;
    if e.verb.Create? {
      GuardedMergeOnlyInherits(Null, e.patch);
      OneMoreProposal(c, w, w', e.call, w'.plans[e.call], None);
      PlanningStep(c, w, w', None);
    } else {
      ReadingPlanKeeps(c, w, e, c.resolve(e.kind, e.org, e.objectId.value), w');
    }
  }

  lemma ReadingPlanKeeps(c: Config, w: World, e: Event, target: Target, w': World)
    requires e.Propose? && Inv(c, w) && e.objectId.Some? && target == c.resolve(e.kind, e.org, e.objectId.value)
    requires target in w.objects && GuardsPass(e.patch) && e.org in c.allowedOrgs
    requires
      var before := w.objects[target];
      var p := Proposed(e.owner, e.kind, e.objectId, e.org, before, Merged(before, e.patch));
      w' == w.(plans := w.plans[e.call := p], log := Noted(w.log, Some(PlanRead(e.call, target, before))))
    ensures Inv(c, w')
  {
    var before := w.objects[target];
    var entry, p := PlanRead(e.call, target, before), w'.plans[e.call];
    InvParts(c, w);
    hide Inv;
    hide Lawful;
    hide RecordsOk;
    GuardedMergeOnlyInherits(before, e.patch);
    hide GuardsPass;
    hide OnlyInherited;
    GrowsKeeps(w.log, w'.log, Some(entry));
    assert entry in w'.log;
    assert ProposalOk(c, w'.log, p);
    hide ProposalOk;
    OneMoreProposal(c, w, w', e.call, p, Some(entry));
    hide PlansOk;
    PlanningStep(c, w, w', Some(entry));
  }

  /** Only staged change sets are approved or claimed. */
  lemma TouchedIsStaged(c: Config, log: seq<Entry>, id: string)
    requires Lawful(c, log) && (HasApproval(log, id) || HasClaim(log, id))
    ensures HasStaged(log, id)
  {
    if HasApproval(log, id) {
      ApprovedIsStaged(c, log, id);
    } else {
      var call, handleless :| Claimed(call, id, handleless) in log;
      var k := LawAt(c, log, Claimed(call, id, handleless));
      var until := ApprovalInPrefix(log, k, id);
      ApprovedIsStaged(c, log, id);
    }
  }

  lemma ApprovalEntry(log: seq<Entry>, id: string, until: nat) returns (entry: Entry)
    requires ApprovedUntil(log, id, until)
    ensures entry in log && (entry.ApprovalGranted? || entry.ApprovalWaived?) && entry.id == id && entry.until == until
  {
    if ApprovalWaived(id, until) in log {
      entry := ApprovalWaived(id, until);
    } else {
      var approver, actor, echoed :| ApprovalGranted(id, approver, actor, echoed, until) in log;
      entry := ApprovalGranted(id, approver, actor, echoed, until);
    }
  }

  lemma ApprovedIsStaged(c: Config, log: seq<Entry>, id: string)
    requires Lawful(c, log) && HasApproval(log, id)
    ensures HasStaged(log, id)
  {
    var until :| ApprovedUntil(log, id, until);
    var entry := ApprovalEntry(log, id, until);
    var k := LawAt(c, log, entry);
    var plan :| RecordStaged(plan) in log[..k] && plan.id == id;
    assert RecordStaged(plan) in log;
  }

  lemma ApprovalInPrefix(log: seq<Entry>, k: nat, id: string) returns (until: nat)
    requires k <= |log| && HasApproval(log[..k], id)
    ensures ApprovedUntil(log, id, until) && ApprovedUntil(log[..k], id, until) && HasApproval(log, id)
  {
    until :| ApprovedUntil(log[..k], id, until);
    var entry := ApprovalEntry(log[..k], id, until);
    assert entry in log;
    assert ApprovedUntil(log, id, until);
  }

  lemma StagedPlanIsSound(c: Config, log: seq<Entry>, p: Planning, id: string, now: nat)
    requires p.Proposed? && ProposalOk(c, log, p)
    ensures SoundPlan(c, log, Plan(Staged(id, p.owner, p.kind, p.objectId, p.org, p.before, p.after, now)))
  {
    var plan := Plan(Staged(id, p.owner, p.kind, p.objectId, p.org, p.before, p.after, now));
    assert plan.device == ObjectKey(p.kind, p.objectId);
    if !IsCreate(plan) {
      var reader :| PlanRead(reader, c.resolve(p.kind, p.org, p.objectId.value), p.before) in log;
      var id := p.objectId.value;
      assert PlanRead(reader, c.resolve(plan.action.kind, plan.preview.orgId, id), plan.preview.before) in log;
      assert plan.device == ObjectKey(plan.action.kind, Some(id));
    }
  }

  lemma InsertKeeps(c: Config, w: World, e: Event, w': World)
    requires e.Insert? && Inv(c, w) && InsertStep(c, w, e) == Some(w')
    ensures Inv(c, w')
  {
    hide Lawful;
    hide ApplyOk;
    var p := w.plans[e.call];
    var r := Staged(e.id, p.owner, p.kind, p.objectId, p.org, p.before, p.after, e.now);
    assert PlansOk(c, w) && ProposalOk(c, w.log, p);
    if !e.ok {
      PlanForgotten(c, w, w', e.call);
    } else {
      InsertedKeeps(c, w, p, r, e.id, e.now, w');
    }
  }

  lemma InsertedKeeps(c: Config, w: World, p: Planning, r: Record, id: string, now: nat, w': World)
    requires Inv(c, w) && p.Proposed? && ProposalOk(c, w.log, p)
    requires r == Staged(id, p.owner, p.kind, p.objectId, p.org, p.before, p.after, now) && id !in w.records
    requires w'.records == w.records[id := r] && w'.log == Noted(w.log, Some(RecordStaged(Plan(r))))
    requires w'.applies == w.applies && w'.guards == w.guards && w'.objects == w.objects
    requires forall call | call in w'.plans && w'.plans[call].Proposed? ::
               call in w.plans && w.plans[call] == w'.plans[call]
    ensures Inv(c, w')
  {
    hide *;
    var added := Some(RecordStaged(Plan(r)));
    InvParts(c, w);
    InsertIsLawful(c, w, p, r, id, now);
    NothingOfIt(c, w, id);
    StagedRecords(w, w', r, id);
    PlansFramed(c, w, w', added);
    RecordStagedIdle(c, w, w', id, added);
    IdleStep(c, w, w', added);
  }

  lemma InvParts(c: Config, w: World)
    requires Inv(c, w)
    ensures Lawful(c, w.log) && RecordsOk(w) && PlansOk(c, w)
  {
  }

  /** Nothing was ever logged about an identifier that is not stored. */
  lemma NothingOfIt(c: Config, w: World, id: string)
    requires Lawful(c, w.log) && RecordsOk(w) && id !in w.records
    ensures !HasStaged(w.log, id) && !HasApproval(w.log, id) && !HasClaim(w.log, id)
  {
    if HasApproval(w.log, id) || HasClaim(w.log, id) { TouchedIsStaged(c, w.log, id); }
  }

  lemma InsertIsLawful(c: Config, w: World, p: Planning, r: Record, id: string, now: nat)
    requires RecordsOk(w) && id !in w.records && p.Proposed? && ProposalOk(c, w.log, p)
    requires r == Staged(id, p.owner, p.kind, p.objectId, p.org, p.before, p.after, now)
    ensures LawfulEntry(c, w.log, RecordStaged(Plan(r))) && Level(RecordStaged(Plan(r))) == 0
    ensures r.id == id && r.state == Planned && r.expiresAt == r.stagedUntil
  {
    StagedPlanIsSound(c, w.log, p, id, now);
    hide ProposalOk;
    hide SoundPlan;
    assert Plan(r).id == id && !HasStaged(w.log, id);
  }

  lemma StagedRecords(w: World, w': World, r: Record, id: string)
    requires RecordsOk(w) && !HasApproval(w.log, id) && !HasClaim(w.log, id)
    requires id !in w.records && r.id == id && r.state == Planned && r.expiresAt == r.stagedUntil
    requires w'.records == w.records[id := r] && w'.log == Noted(w.log, Some(RecordStaged(Plan(r))))
    ensures RecordsOk(w')
  {
    var added := Some(RecordStaged(Plan(r)));
    GrowsKeeps(w.log, w'.log, added);
    forall other | other in w'.records ensures w'.records[other].id == other && RecordOk(w'.log, w'.records[other]) {
      HistoryFramed(w.log, w'.log, added, other);
      if other != id { assert RecordOk(w.log, w.records[other]); }
    }
  }

  lemma RecordStagedIdle(c: Config, w: World, w': World, id: string, added: Option<Entry>)
    requires id !in w.records && w'.objects == w.objects
    requires w'.records.Keys == w.records.Keys + {id} && forall k | k in w.records :: w'.records[k] == w.records[k]
    ensures forall call :: StatesKept(w, w', call)
    ensures forall key :: ObjectsKept(w, w', added, key)
  {
  }

  /** A planned record becomes approved. */
  lemma ApprovedKeeps(c: Config, w: World, id: string, r: Record, entry: Entry, w': World)
    requires Inv(c, w) && id in w.records && w.records[id].state == Planned
    requires r.state == Approved && r.id == id && Plan(r) == Plan(w.records[id])
    requires (entry.ApprovalGranted? || entry.ApprovalWaived?) && entry.id == id && LawfulEntry(c, w.log, entry)
    requires entry.until == r.expiresAt
    requires w'.records == w.records[id := r] && w'.log == Noted(w.log, Some(entry))
    requires w'.applies == w.applies && w'.guards == w.guards && w'.objects == w.objects
    requires forall call | call in w'.plans && w'.plans[call].Proposed? ::
               call in w.plans && w.plans[call] == w'.plans[call]
    ensures Inv(c, w')
  {
    hide Lawful;
    hide LawfulEntry;
    assert RecordsOk(w) && PlansOk(c, w);
    hide Inv;
    ApprovalRecords(w, w', id, r, entry);
    hide RecordsOk;
    PlansFramed(c, w, w', Some(entry));
    hide PlansOk;
    IdleStep(c, w, w', Some(entry));
  }

  lemma ApprovalRecords(w: World, w': World, id: string, r: Record, entry: Entry)
    requires RecordsOk(w) && id in w.records && w.records[id].state == Planned
    requires r.state == Approved && r.id == id && Plan(r) == Plan(w.records[id])
    requires (entry.ApprovalGranted? || entry.ApprovalWaived?) && entry.id == id && entry.until == r.expiresAt
    requires w'.records == w.records[id := r] && w'.log == Noted(w.log, Some(entry))
    ensures RecordsOk(w')
    ensures forall call :: StatesKept(w, w', call)
  {
    assert RecordOk(w.log, w.records[id]);
    GrowsKeeps(w.log, w'.log, Some(entry));
    HistoryKeepsClaims(w.log, w'.log, entry, id);
    assert entry in w'.log;
    assert ApprovedUntil(w'.log, id, r.expiresAt);
    RecordReplaced(w, w', Some(entry), id, r);
    assert !HasClaim(w.log, id);
  }

  lemma HistoryKeepsClaims(before: seq<Entry>, after: seq<Entry>, entry: Entry, id: string)
    requires after == Noted(before, Some(entry)) && !entry.Claimed?
    ensures HasClaim(after, id) <==> HasClaim(before, id)
  {
    GrowsKeeps(before, after, Some(entry));
    if HasClaim(after, id) {
      var call, handleless :| Claimed(call, id, handleless) in after;
      assert Claimed(call, id, handleless) in before;
    }
    HistoryFramed(before, after, Some(entry), id);
  }

  lemma PlanForgotten(c: Config, w: World, w': World, call: Call)
    requires Inv(c, w) && w' == w.(plans := w.plans - {call})
    ensures Inv(c, w')
  {
    InvParts(c, w);
    hide Inv;
    hide Lawful;
    hide RecordsOk;
    PlansFramed(c, w, w', None);
    hide PlansOk;
    PlanningStep(c, w, w', None);
  }

  lemma WaivedPlan(r: Record)
    ensures Plan(r.(state := Approved, approval := Waived)) == Plan(r)
  {
  }

  lemma WaiverIsLawful(c: Config, w: World, id: string)
    requires RecordsOk(w) && id in w.records && w.records[id].state == Planned && c.labMode
    ensures LawfulEntry(c, w.log, ApprovalWaived(id, w.records[id].expiresAt)) && w.records[id].id == id
  {
    assert RecordOk(w.log, w.records[id]) && w.records[id].id == id;
    assert RecordStaged(Plan(w.records[id])) in w.log && Plan(w.records[id]).id == id;
  }

  lemma WaiveKeeps(c: Config, w: World, e: Event, w': World)
    requires e.Waive? && Inv(c, w) && WaiveStep(c, w, e) == Some(w')
    ensures Inv(c, w')
  {
    var id := w.plans[e.call].id;
    InvParts(c, w);
    hide Inv;
    hide Lawful;
    hide Plan;
    var outcome := WaiveOutcome(w.records, id, w.records[id].device, w.records[id].digest, e.ok);
    if outcome.Refused? {
      hide RecordsOk;
      hide Noted;
      PlanForgotten(c, w, w', e.call);
    } else {
      WaiverIsLawful(c, w, id);
      WaivedPlan(w.records[id]);
      hide LawfulEntry;
      hide PlansOk;
      hide RecordsOk;
      ApprovedKeeps(c, w, id, outcome.store[id], ApprovalWaived(id, w.records[id].expiresAt), w');
    }
  }

  lemma ApproveKeeps(c: Config, w: World, e: Event, w': World)
    requires e.Approve? && Inv(c, w) && ApproveStep(w, e) == Some(w')
    ensures Inv(c, w')
  {
    hide Lawful;
    var outcome := ApproveOutcome(w.records, e.id, e.device, e.approver, e.actor, e.echoed, e.now, e.expiresAt, e.ok);
    if outcome.Changed? {
      assert RecordsOk(w) && RecordOk(w.log, w.records[e.id]) && w.records[e.id].id == e.id;
      hide Inv;
      var plan := Plan(w.records[e.id]);
      assert RecordStaged(plan) in w.log && plan.id == e.id && e.approver != plan.owner && e.echoed == plan.digest;
      var entry := ApprovalGranted(e.id, e.approver, e.actor, e.echoed, e.expiresAt);
      assert LawfulEntry(c, w.log, entry);
      ApprovedKeeps(c, w, e.id, outcome.store[e.id], entry, w');
    }
  }

  lemma BeginApplyKeeps(c: Config, w: World, e: Event, w': World)
    requires e.BeginApply? && Inv(c, w) && BeginApplyStep(w, e) == Some(w')
    ensures Inv(c, w')
  {
    InvParts(c, w);
    BegunApplies(c, w, e, w');
    hide Inv;
    hide Lawful;
    RecordsFramed(w, w', None);
    hide RecordsOk;
    PlansFramed(c, w, w', None);
    hide PlansOk;
    InvAssembled(c, w');
  }

  lemma BegunApplies(c: Config, w: World, e: Event, w': World)
    requires e.BeginApply? && Inv(c, w) && BeginApplyStep(w, e) == Some(w')
    ensures AppliesOk(c, w') && CallsOk(w') && GuardsOk(w')
  {
    hide Lawful;
    hide RecordsOk;
    hide PlansOk;
    assert NothingBeyond(w.log, e.call, 0) by {
      assert forall x | x in w.log && Level(x) > 0 :: x.call in w.applies;
    }
    forall call | call in w'.applies ensures ApplyOk(c, w', call, w'.applies[call]) {
      if call != e.call {
        assert ApplyOk(c, w, call, w.applies[call]);
        BystanderFramed(c, w, w', None, call, w.applies[call]);
      }
    }
  }

  // ----- interruptions -----

  lemma AbandonKeeps(c: Config, w: World, call: Call, w': World)
    requires Inv(c, w) && AbandonStep(w, call) == Some(w')
    ensures Inv(c, w')
  {
    var a := w.applies[call];
    QuietFacts(w, w', call, Abandoned, None);
    assert MovedBy(w, w', call, Abandoned, None);
    hide *;
    Own(c, w, call);
    RecordsFramed(w, w', None);
    NothingNoted(w.log);
    AbandonedOk(c, w, w', call, a);
    CallStep(c, w, w', call, Abandoned, None);
  }

  lemma AbandonedOk(c: Config, w: World, w': World, call: Call, a: Apply)
    requires ApplyOk(c, w, call, a) && w'.log == w.log
    ensures ApplyOk(c, w', call, a.(stage := Abandoned))
  {
    BeyondGrows(w.log, w'.log, None, call, Reached(a.stage), 10);
  }

  lemma RestartKeeps(c: Config, w: World)
    requires Inv(c, w)
    ensures Inv(c, RestartStep(w))
  {
    var w', added := RestartStep(w), Some(Restarted);
    InvParts(c, w);
    LawfulExtended(c, w.log, Restarted);
    RestartShape(w, w');
    RestartedApplies(c, w, w');
    hide *;
    RecoveredRecords(w, w');
    PlansFramed(c, w, w', added);
    InvAssembled(c, w');
  }

  lemma RestartShape(w: World, w': World)
    requires w' == RestartStep(w)
    ensures w'.log == w.log + [Restarted] == Noted(w.log, Some(Restarted))
    ensures w'.records.Keys == w.records.Keys
    ensures forall id | id in w.records :: w'.records[id] == Recovered(w.records[id])
    ensures w'.plans == map[]
  {
  }

  lemma RestartedApplies(c: Config, w: World, w': World)
    requires Inv(c, w) && w' == RestartStep(w)
    ensures AppliesOk(c, w') && CallsOk(w') && GuardsOk(w')
  {
    hide Lawful;
    hide RecordsOk;
    hide PlansOk;
    forall call | call in w'.applies ensures ApplyOk(c, w', call, w'.applies[call]) {
      assert ApplyOk(c, w, call, w.applies[call]);
      hide ApplyOk;
      RestartedOk(c, w, w', call);
    }
    hide ApplyOk;
    GrowsKeeps(w.log, w'.log, Some(Restarted));
  }

  lemma RecoveredRecords(w: World, w': World)
    requires RecordsOk(w) && w'.log == Noted(w.log, Some(Restarted))
    requires w'.records.Keys == w.records.Keys
    requires forall id | id in w.records :: w'.records[id] == Recovered(w.records[id])
    ensures RecordsOk(w')
  {
    GrowsKeeps(w.log, w'.log, Some(Restarted));
    forall id | id in w'.records ensures w'.records[id].id == id && RecordOk(w'.log, w'.records[id]) {
      assert RecordOk(w.log, w.records[id]);
      HistoryFramed(w.log, w'.log, Some(Restarted), id);
      assert Plan(w'.records[id]) == Plan(w.records[id]);
    }
  }

  lemma RestartedOk(c: Config, w: World, w': World, call: Call)
    requires call in w.applies && ApplyOk(c, w, call, w.applies[call])
    requires w' == RestartStep(w)
    ensures ApplyOk(c, w', call, w'.applies[call])
  {
    BeyondGrows(w.log, w'.log, Some(Restarted), call, Reached(w.applies[call].stage), 10);
    if w.applies[call].stage.Returned? {
      ReturnFramed(c, w, w', Some(Restarted), call, w.applies[call]);
    }
  }

  lemma OutsideKeeps(c: Config, w: World, target: Target, state: Option<Json>)
    requires Inv(c, w)
    ensures Inv(c, OutsideStep(w, target, state))
  {
    var w', added := OutsideStep(w, target, state), Some(ChangedOutside(target));
    assert RecordsOk(w) && PlansOk(c, w);
    hide Lawful;
    hide Inv;
    RecordsFramed(w, w', added);
    PlansFramed(c, w, w', added);
    IdleStep(c, w, w', added);
  }

  // ----- all steps, all runs -----

  lemma StepKeepsInv(c: Config, w: World, e: Event, w': World)
    requires Inv(c, w) && Next(c, w, e) == Some(w')
    ensures Inv(c, w')
  {
    hide Inv;
    match e
    case Propose(_, _, _, _, _, _, _) => ProposeKeeps(c, w, e, w');
    case Insert(_, _, _, _) => InsertKeeps(c, w, e, w');
    case Waive(_, _) => WaiveKeeps(c, w, e, w');
    case Approve(_, _, _, _, _, _, _, _) => ApproveKeeps(c, w, e, w');
    case BeginApply(_, _, _, _) => BeginApplyKeeps(c, w, e, w');
    case TakeGuard(call, ok) => TakeGuardKeeps(c, w, call, ok, w');
    case Fetch(call, now) => FetchKeeps(c, w, call, now, w');
    case ReadDrift(call, ok) => ReadDriftKeeps(c, w, call, ok, w');
    case ClaimDrift(call, ok) => ClaimDriftKeeps(c, w, call, ok, w');
    case SettleDrift(call, ok) => ConcludeKeeps(c, w, call, w.applies[call].stage.r, Failed, ok, DriftFound, w');
    case CheckOrg(call) => CheckOrgKeeps(c, w, call, w');
    case RecordIntent(call, ok) => RecordIntentKeeps(c, w, call, ok, w');
    case Claim(call, ok) => ClaimKeeps(c, w, call, ok, w');
    case Send(call) => SendKeeps(c, w, call, w');
    case Land(call, createdId, result) => LandKeeps(c, w, call, createdId, result, w');
    case Return(call, reply) => ReturnKeeps(c, w, call, reply, w');
    case Verify(call, ok) => VerifyKeeps(c, w, call, ok, w');
    case EmitReceipt(call, ok) => EmitReceiptKeeps(c, w, call, ok, w');
    case Settle(call, ok) =>
      var Settling(r, finding) := w.applies[call].stage;
      ConcludeKeeps(c, w, call, r, StateFor(finding), ok, EndingFor(finding, ok), w');
    case SettleUnanswered(call, ok) =>
      ConcludeKeeps(c, w, call, w.applies[call].stage.r, Failed, ok, WriteFailed, w');
    case Abandon(call) => AbandonKeeps(c, w, call, w');
    case Restart => RestartKeeps(c, w);
    case Outside(target, state) => OutsideKeeps(c, w, target, state);
  }

  lemma {:induction false} RunKeepsInv(c: Config, w: World, events: seq<Event>, w': World)
    requires Inv(c, w) && Run(c, w, events) == Some(w')
    ensures Inv(c, w')
    decreases |events|
  {
    hide Inv;
    hide Next;
    if events != [] {
      var next := Next(c, w, events[0]).value;
      StepKeepsInv(c, w, events[0], next);
      RunKeepsInv(c, next, events[1..], w');
    }
  }

  /** Whatever the interleaving, and wherever the run stops. */
  lemma ReachableIsLawful(c: Config, w: World)
    requires Reachable(c, w)
    ensures Inv(c, w) && Lawful(c, w.log)
  {
    var objects, events :| Run(c, EMPTY.(objects := objects), events) == Some(w);
    assert Inv(c, EMPTY.(objects := objects));
    hide Run;
    RunKeepsInv(c, EMPTY.(objects := objects), events, w);
  }
}
