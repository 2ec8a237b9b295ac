/** The laws every log obeys, and the invariant that makes each step obey them. */
module ApplyLaws {
  import opened Wrappers
  import opened JsonValues
  import opened MergePatch
  import opened ChangeSets
  import opened ApplyProtocol

  // ----- reading a log -----

  ghost predicate HasStaged(log: seq<Entry>, id: string) {
    exists plan :: RecordStaged(plan) in log && plan.id == id
  }

  /** Approved or waived, to be applied no later than `until`. */
  ghost predicate ApprovedUntil(log: seq<Entry>, id: string, until: nat) {
    || ApprovalWaived(id, until) in log
    || exists approver, actor, echoed :: ApprovalGranted(id, approver, actor, echoed, until) in log
  }

  ghost predicate HasApproval(log: seq<Entry>, id: string) {
    exists until :: ApprovedUntil(log, id, until)
  }

  ghost predicate HasClaim(log: seq<Entry>, id: string) {
    exists call, handleless :: Claimed(call, id, handleless) in log
  }

  ghost predicate HasSent(log: seq<Entry>, id: string) {
    exists call, body :: Sent(call, id, body) in log
  }

  ghost predicate HasLanded(log: seq<Entry>, id: string) {
    exists call, target, replaced :: Landed(call, id, target, replaced) in log
  }

  ghost predicate WasFetched(log: seq<Entry>, call: Call, id: string) {
    exists now, expiresAt :: Fetched(call, id, now, expiresAt) in log
  }

  ghost predicate HasReceipt(log: seq<Entry>, call: Call) {
    || (exists id, success :: Receipt(call, id, success) in log)
    || (exists id :: ReceiptLost(call, id) in log)
  }

  /** Mist answered the write; its reply may have named an object. */
  ghost predicate WasAnswered(log: seq<Entry>, call: Call, id: string) {
    exists named :: Answered(call, id, named) in log
  }

  /** The read that verifies the write found exactly this body. */
  ghost predicate ReadAs(log: seq<Entry>, call: Call, id: string, body: Json) {
    exists target :: VerifyRead(call, id, target, Some(body)) in log
  }

  /** The change set `id` was planned under another guard than `key`. */
  ghost predicate PlannedElsewhere(log: seq<Entry>, id: string, key: string) {
    exists plan :: RecordStaged(plan) in log && plan.id == id && plan.device != key
  }

  /** A change to an object by someone whom the guard `key` does not keep out: an outsider, or an
      apply whose change set names the object by another text. */
  ghost predicate Intrudes(log: seq<Entry>, e: Entry, target: Target, key: string) {
    || e == ChangedOutside(target)
    || (e.Landed? && e.target == target && e.replaced.Some? && PlannedElsewhere(log, e.id, key))
  }

  /** That happened to the object after this call had checked it for drift under `key`. */
  ghost predicate Disturbed(log: seq<Entry>, call: Call, id: string, target: Target, key: string) {
    exists i, j ::
      0 <= i < j < |log| && log[i] == DriftChecked(call, id, target) && Intrudes(log, log[j], target, key)
  }

  // ----- the laws -----

  /** The digest covers what the record will send, and the body inherits what the guards protect. */
  ghost predicate SoundPlan(c: Config, past: seq<Entry>, plan: Record) {
    && plan == Plan(plan)
    && plan.digest == Digest(plan.owner, plan.device, plan.fingerprint, plan.action)
    && plan.action.body == plan.preview.after
    && plan.fingerprint == FingerprintOf(plan.preview.before)
    && plan.preview.orgId in c.allowedOrgs
    && OnlyInherited(plan.preview.before, plan.preview.after)
    && (exists objectId :: plan.device == ObjectKey(plan.action.kind, objectId))
    && (!IsCreate(plan) ==>
          exists call, id ::
            && PlanRead(call, c.resolve(plan.action.kind, plan.preview.orgId, id), plan.preview.before) in past
            && plan.device == ObjectKey(plan.action.kind, Some(id)))
  }

  /** A verified human other than the owner echoed the stored digest. */
  ghost predicate SoundApproval(past: seq<Entry>, id: string, approver: string, actor: ActorType, echoed: Digest) {
    && actor == Human
    && exists plan :: RecordStaged(plan) in past && plan.id == id && approver != plan.owner && echoed == plan.digest
  }

  /** The identifier of an update's plan names `target`. */
  ghost predicate PlansFor(c: Config, plan: Record, target: Target) {
    exists text ::
      && target == c.resolve(plan.action.kind, plan.preview.orgId, text)
      && plan.device == ObjectKey(plan.action.kind, Some(text))
  }

  /** A write that took effect created a new object of the planned type in the planned organisation, or
      replaced the one its plan names, and exactly the state its plan read, unless the object was disturbed
      between the drift check and the write. */
  ghost predicate SoundLanding(c: Config, past: seq<Entry>, call: Call, id: string, target: Target,
                               replaced: Option<Json>) {
    exists plan ::
      && RecordStaged(plan) in past && plan.id == id
      && if IsCreate(plan) then
           replaced == None && exists createdId :: target == Target(plan.action.kind, plan.preview.orgId, createdId)
         else PlansFor(c, plan, target) &&
              (Disturbed(past, call, id, target, plan.device) || replaced == Some(plan.preview.before))
  }

  /** The read that verifies a write reads what the reply named, after a create, and after an update
      the object its plan names. */
  ghost predicate SoundReading(c: Config, past: seq<Entry>, call: Call, id: string, target: Target) {
    && WasAnswered(past, call, id)
    && exists plan ::
         && RecordStaged(plan) in past && plan.id == id
         && if IsCreate(plan) then
              exists name ::
                && Answered(call, id, Some(name)) in past
                && target == c.resolve(plan.action.kind, plan.preview.orgId, name)
            else PlansFor(c, plan, target)
  }

  /** The read that verifies a write found exactly the approved body. */
  ghost predicate VerifiedEqual(past: seq<Entry>, call: Call, id: string) {
    exists plan :: RecordStaged(plan) in past && plan.id == id && ReadAs(past, call, id, plan.preview.after)
  }

  /** What must already have happened for `e` to happen. */
  ghost predicate LawfulEntry(c: Config, past: seq<Entry>, e: Entry) {
    match e
    case RecordStaged(plan) => !HasStaged(past, plan.id) && SoundPlan(c, past, plan)
    case ApprovalGranted(id, approver, actor, echoed, _) =>
      !HasApproval(past, id) && SoundApproval(past, id, approver, actor, echoed)
    case ApprovalWaived(id, until) =>
      && !HasApproval(past, id) && c.labMode
      && exists plan :: RecordStaged(plan) in past && plan.id == id && until == plan.stagedUntil
    case Fetched(_, id, now, expiresAt) => ApprovedUntil(past, id, expiresAt) && now <= expiresAt
    case IntentPersisted(_, _) => c.recorder
    case Claimed(call, id, handleless) =>
      && !HasClaim(past, id) && HasApproval(past, id) && WasFetched(past, call, id)
      && (c.recorder && handleless ==> IntentPersisted(call, id) in past)
    case Sent(call, id, body) =>
      && !HasSent(past, id) && Claimed(call, id, true) in past
      && exists plan :: RecordStaged(plan) in past && plan.id == id && body == plan.preview.after
    case Landed(call, id, target, replaced) =>
      && !HasLanded(past, id)
      && (exists body :: Sent(call, id, body) in past)
      && SoundLanding(c, past, call, id, target, replaced)
    case Answered(call, id, _) => !WasAnswered(past, call, id) && exists body :: Sent(call, id, body) in past
    case VerifyRead(call, id, target, _) => SoundReading(c, past, call, id, target)
    case Receipt(call, id, success) =>
      && c.recorder && !HasReceipt(past, call) && WasAnswered(past, call, id)
      && (success <==> VerifiedEqual(past, call, id))
    case ReceiptLost(call, id) => c.recorder && !HasReceipt(past, call) && WasAnswered(past, call, id)
    case Settled(call, id, final) =>
      && (exists handleless :: Claimed(call, id, handleless) in past)
      && final in {Applied, Failed}
      && (final == Applied <==> VerifiedEqual(past, call, id))
    case UpdateRefused(call, id) => exists handleless :: Claimed(call, id, handleless) in past
    case _ => true
  }

  ghost predicate Lawful(c: Config, log: seq<Entry>) {
    forall k | 0 <= k < |log| :: LawfulEntry(c, log[..k], log[k])
  }

  lemma LawfulExtended(c: Config, log: seq<Entry>, e: Entry)
    requires Lawful(c, log) && LawfulEntry(c, log, e)
    ensures Lawful(c, log + [e])
  {
    forall k | 0 <= k < |log + [e]| ensures LawfulEntry(c, (log + [e])[..k], (log + [e])[k]) {
      if k < |log| {
        assert (log + [e])[..k] == log[..k];
      } else {
        assert (log + [e])[..k] == log;
      }
    }
  }

  /** No change set is staged, claimed, sent or landed twice, and no call gets two receipts. */
  lemma NothingHappensTwice(c: Config, log: seq<Entry>, i: nat, j: nat)
    requires Lawful(c, log) && i < j < |log|
    ensures log[i].RecordStaged? && log[j].RecordStaged? ==> log[i].plan.id != log[j].plan.id
    ensures log[i].Claimed? && log[j].Claimed? ==> log[i].id != log[j].id
    ensures log[i].Sent? && log[j].Sent? ==> log[i].id != log[j].id
    ensures log[i].Landed? && log[j].Landed? ==> log[i].id != log[j].id
    ensures (log[i].Receipt? || log[i].ReceiptLost?) && (log[j].Receipt? || log[j].ReceiptLost?) ==>
              log[i].call != log[j].call
  {
    assert LawfulEntry(c, log[..j], log[j]);
    assert log[..j][i] == log[i];
  }

  lemma ClaimsAreUnique(c: Config, log: seq<Entry>, p: Call, q: Call, id: string, h: bool, g: bool)
    requires Lawful(c, log) && Claimed(p, id, h) in log && Claimed(q, id, g) in log
    ensures p == q && h == g
  {
    var i: nat :| i < |log| && log[i] == Claimed(p, id, h);
    var j: nat :| j < |log| && log[j] == Claimed(q, id, g);
    if i < j { NothingHappensTwice(c, log, i, j); }
    if j < i { NothingHappensTwice(c, log, j, i); }
  }

  lemma PlansAreUnique(c: Config, log: seq<Entry>, a: Record, b: Record)
    requires Lawful(c, log) && RecordStaged(a) in log && RecordStaged(b) in log && a.id == b.id
    ensures a == b
  {
    var i: nat :| i < |log| && log[i] == RecordStaged(a);
    var j: nat :| j < |log| && log[j] == RecordStaged(b);
    if i < j { NothingHappensTwice(c, log, i, j); }
    if j < i { NothingHappensTwice(c, log, j, i); }
  }

  /** What the laws say of an entry stays true of the whole log. */
  lemma LawAt(c: Config, log: seq<Entry>, e: Entry) returns (k: nat)
    requires Lawful(c, log) && e in log
    ensures k < |log| && log[k] == e && LawfulEntry(c, log[..k], e)
    ensures forall x | x in log[..k] :: x in log
  {
    k :| 0 <= k < |log| && log[k] == e;
  }

  // ----- the invariant -----

  /** How far along its call an entry belongs. */
  function Level(e: Entry): nat {
    match e
    case Fetched(_, _, _, _) => 1
    case DriftChecked(_, _, _) => 2
    case IntentPersisted(_, _) => 3
    case Claimed(_, _, _) => 4
    case Sent(_, _, _) => 5
    case Landed(_, _, _, _) => 6
    case Answered(_, _, _) => 7
    case VerifyRead(_, _, _, _) => 8
    case Receipt(_, _, _) => 9
    case ReceiptLost(_, _) => 9
    case Settled(_, _, _) => 10
    case UpdateRefused(_, _) => 10
    case _ => 0
  }

  /** An entry made by the apply call `call`. */
  predicate ByApply(e: Entry, call: Call) {
    Level(e) > 0 && e.call == call
  }

  /** The furthest entries a call at this stage can have made. */
  function Reached(s: Stage): nat {
    match s
    case WaitGuard => 0
    case Fetching => 0
    case ReadingDrift(_) => 1
    case ClaimingDrift(_) => 1
    case SettlingDrift(_) => 4
    case CheckingOrg(_) => 2
    case RecordingIntent(_) => 2
    case Claiming(_) => 3
    case Writing(_) => 4
    case InFlight(_, landed) => if landed then 6 else 5
    case Verifying(_, _) => 7
    case Receipting(_, _) => 8
    case Settling(_, _) => 9
    case SettlingUnanswered(_) => 6
    case Returned(_) => 10
    case Abandoned => 10
  }

  ghost predicate NothingBeyond(log: seq<Entry>, call: Call, level: nat) {
    forall e | e in log && ByApply(e, call) :: Level(e) <= level
  }

  ghost predicate RecordOk(log: seq<Entry>, r: Record) {
    && RecordStaged(Plan(r)) in log
    && (HasApproval(log, r.id) <==> r.state != Planned)
    && (r.state == Planned ==> r.expiresAt == r.stagedUntil)
    && (r.state == Approved ==> ApprovedUntil(log, r.id, r.expiresAt))
    && (HasClaim(log, r.id) <==> r.state !in {Planned, Approved})
  }

  ghost predicate RecordsOk(w: World) {
    && (forall id | id in w.records :: w.records[id].id == id && RecordOk(w.log, w.records[id]))
    && (forall plan | RecordStaged(plan) in w.log :: plan.id in w.records)
  }

  ghost predicate ProposalOk(c: Config, log: seq<Entry>, p: Planning)
    requires p.Proposed?
  {
    && p.org in c.allowedOrgs
    && OnlyInherited(p.before, p.after)
    && (!p.before.Null? ==>
          && p.objectId.Some?
          && exists call :: PlanRead(call, c.resolve(p.kind, p.org, p.objectId.value), p.before) in log)
  }

  ghost predicate PlansOk(c: Config, w: World) {
    forall call | call in w.plans && w.plans[call].Proposed? :: ProposalOk(c, w.log, w.plans[call])
  }

  /** A guard is held by exactly the call inside the section it protects. */
  ghost predicate GuardsOk(w: World) {
    && (forall key | key in w.guards ::
          w.guards[key] in w.applies && Holding(w.applies[w.guards[key]].stage) && Key(w.applies[w.guards[key]]) == key)
    && (forall call | call in w.applies && Holding(w.applies[call].stage) ::
          Key(w.applies[call]) in w.guards && w.guards[Key(w.applies[call])] == call)
  }

  /** The call's copy of its record is the stored plan. */
  ghost predicate CopyOk(log: seq<Entry>, call: Call, a: Apply, r: Record) {
    && r.id == a.id && r.device == Key(a)
    && RecordStaged(Plan(r)) in log
    && (IsCreate(r) || a.objectId.Some?)
    && WasFetched(log, call, a.id)
  }

  /** An update past its drift check still finds what its plan read, unless disturbed. */
  ghost predicate TargetOk(c: Config, w: World, call: Call, a: Apply, r: Record) {
    IsCreate(r) ||
    var target := UpdateTarget(c, a, r);
    && DriftChecked(call, a.id, target) in w.log
    && (|| Disturbed(w.log, call, a.id, target, r.device)
        || (target in w.objects && w.objects[target] == r.preview.before))
  }

  ghost predicate ClaimOk(w: World, call: Call, a: Apply, handleless: bool) {
    && Claimed(call, a.id, handleless) in w.log
    && a.id in w.records && w.records[a.id].state == Applying
  }

  /** What is to be read back is what the reply named, or for an update what the call addresses. */
  ghost predicate ReadingOk(log: seq<Entry>, call: Call, a: Apply, r: Record, finalId: string) {
    && WasAnswered(log, call, a.id)
    && if IsCreate(r) then Answered(call, a.id, Some(finalId)) in log else finalId == IdText(a.objectId)
  }

  ghost predicate ApplyOk(c: Config, w: World, call: Call, a: Apply) {
    && NothingBeyond(w.log, call, Reached(a.stage))
    && match a.stage
       case WaitGuard => true
       case Fetching => true
       case ReadingDrift(r) => CopyOk(w.log, call, a, r) && !IsCreate(r)
       case ClaimingDrift(r) => CopyOk(w.log, call, a, r)
       case SettlingDrift(r) => CopyOk(w.log, call, a, r) && ClaimOk(w, call, a, false)
       case CheckingOrg(r) => CopyOk(w.log, call, a, r) && TargetOk(c, w, call, a, r)
       case RecordingIntent(r) => CopyOk(w.log, call, a, r) && TargetOk(c, w, call, a, r)
       case Claiming(r) =>
         && CopyOk(w.log, call, a, r) && TargetOk(c, w, call, a, r)
         && (c.recorder ==> IntentPersisted(call, a.id) in w.log)
       case Writing(r) => CopyOk(w.log, call, a, r) && TargetOk(c, w, call, a, r) && ClaimOk(w, call, a, true)
       case InFlight(r, landed) =>
         && CopyOk(w.log, call, a, r) && ClaimOk(w, call, a, true) && Sent(call, a.id, r.preview.after) in w.log
         && (landed || TargetOk(c, w, call, a, r))
       case Verifying(r, finalId) =>
         CopyOk(w.log, call, a, r) && ClaimOk(w, call, a, true) && ReadingOk(w.log, call, a, r, finalId)
       case Receipting(r, finding) =>
         && CopyOk(w.log, call, a, r) && ClaimOk(w, call, a, true) && WasAnswered(w.log, call, a.id)
         && (finding.Verified? <==> ReadAs(w.log, call, a.id, r.preview.after))
       case Settling(r, finding) =>
         && CopyOk(w.log, call, a, r) && ClaimOk(w, call, a, true)
         && (finding.Verified? <==> ReadAs(w.log, call, a.id, r.preview.after))
         && (c.recorder ==> HasReceipt(w.log, call))
       case SettlingUnanswered(r) => CopyOk(w.log, call, a, r) && ClaimOk(w, call, a, true)
       case Returned(_) => ReturnOk(c, w, call, a)
       case Abandoned => true
  }

  /** A returned call left no record Applying unless an update was refused, and no answered
      write without a receipt or the report of a lost one. */
  ghost predicate ReturnOk(c: Config, w: World, call: Call, a: Apply) {
    && (forall id, handleless | Claimed(call, id, handleless) in w.log ::
          id in w.records && (w.records[id].state == Applying ==> UpdateRefused(call, id) in w.log))
    && (c.recorder && (exists id :: WasAnswered(w.log, call, id)) ==> HasReceipt(w.log, call))
  }

  ghost predicate AppliesOk(c: Config, w: World) {
    forall call | call in w.applies :: ApplyOk(c, w, call, w.applies[call])
  }

  /** Entries of apply calls belong to calls that began, and name their change set. */
  ghost predicate CallsOk(w: World) {
    forall e | e in w.log && Level(e) > 0 :: e.call in w.applies && e.id == w.applies[e.call].id
  }

  ghost predicate Inv(c: Config, w: World) {
    Lawful(c, w.log) && RecordsOk(w) && PlansOk(c, w) && GuardsOk(w) && CallsOk(w) && AppliesOk(c, w)
  }
}
