/** The change-set lifecycle as a machine: any number of plans, approvals and applies take
    steps in any order, and a run may end, be abandoned or restart between any two of them. */
module ApplyProtocol {
  import opened Wrappers
  import opened JsonValues
  import opened MergePatch
  import opened ChangeSets

  /** One call, identified by its request. */
  type Call = nat

  /** Where a configuration object lives in Mist. */
  datatype Target = Target(kind: WanObject, org: string, id: string)

  /** `resolve` is what Mist makes of an identifier in a request's path: identifiers are free text,
      and nothing in the server says that two texts name two objects. */
  datatype Config = Config(
    labMode: bool, allowedOrgs: set<string>, recorder: bool, resolve: (WanObject, string, string) -> Target)

  datatype Verb = Create | Update

  /** What happened, in order. The log only grows. */
  datatype Entry =
    | PlanRead(call: Call, target: Target, state: Json)
    | RecordStaged(plan: Record)
    | ApprovalGranted(id: string, approver: string, actor: ActorType, echoed: Digest, until: nat)
    | ApprovalWaived(id: string, until: nat)
    | Fetched(call: Call, id: string, now: nat, expiresAt: nat)
    | DriftChecked(call: Call, id: string, target: Target)
    | IntentPersisted(call: Call, id: string)
    | Claimed(call: Call, id: string, handleless: bool)
    | Sent(call: Call, id: string, body: Json)
    | Landed(call: Call, id: string, target: Target, replaced: Option<Json>)
    | Answered(call: Call, id: string, named: Option<string>)
    | VerifyRead(call: Call, id: string, target: Target, found: Option<Json>)
    | Receipt(call: Call, id: string, success: bool)
    | ReceiptLost(call: Call, id: string)
    | Settled(call: Call, id: string, final: State)
    | UpdateRefused(call: Call, id: string)
    | ChangedOutside(target: Target)
    | Restarted

  datatype Ending =
    | NoSuchRecord | NotApproved | ApprovalExpired | MissingObjectId | ReadFailed | DriftFound | OrgDenied
    | IntentRefused | ClaimRefused | WriteFailed | NoIdentifier | Verdict(verified: bool) | NotPersisted | NoGuard

  /** What the call made of an answered write: read back equal or not, or, for a create whose reply
      names no object, nothing to read back. */
  datatype Finding = Verified | Differs | Unnamed

  function Compared(found: Option<Json>, sent: Json): Finding {
    if found == Some(sent) then Verified else Differs
  }

  function StateFor(finding: Finding): State {
    if finding.Verified? then Applied else Failed
  }

  /** A create without an identifier is an error whatever becomes of the update. */
  function EndingFor(finding: Finding, persisted: bool): Ending {
    if finding.Unnamed? then NoIdentifier else if persisted then Verdict(finding.Verified?) else NotPersisted
  }

  /** Where an apply call stands; `r` is its own copy of the record. */
  datatype Stage =
    | WaitGuard
    | Fetching
    | ReadingDrift(r: Record)
    | ClaimingDrift(r: Record)
    | SettlingDrift(r: Record)
    | CheckingOrg(r: Record)
    | RecordingIntent(r: Record)
    | Claiming(r: Record)
    | Writing(r: Record)
    | InFlight(r: Record, landed: bool)
    | Verifying(r: Record, finalId: string)
    | Receipting(r: Record, finding: Finding)
    | Settling(r: Record, finding: Finding)
    | SettlingUnanswered(r: Record)
    | Returned(how: Ending)
    | Abandoned

  datatype Apply = Apply(id: string, kind: WanObject, objectId: Option<string>, stage: Stage)

  datatype Planning =
    | Proposed(owner: string, kind: WanObject, objectId: Option<string>, org: string, before: Json, after: Json)
    | AwaitingWaiver(id: string)

  datatype World = World(
    records: Store,
    objects: map<Target, Json>,
    guards: map<string, Call>,
    plans: map<Call, Planning>,
    applies: map<Call, Apply>,
    log: seq<Entry>)

  const EMPTY := World(map[], map[], map[], map[], map[], [])

  /** Mist's reply to a write: none, or a response that may name the created object. */
  datatype Reply = NoResponse | Response(id: Option<string>)

  datatype Event =
    | Propose(
        call: Call, owner: string, verb: Verb, kind: WanObject, objectId: Option<string>, org: string, patch: Json)
    | Insert(call: Call, id: string, now: nat, ok: bool)
    | Waive(call: Call, ok: bool)
    | Approve(
        id: string, device: string, approver: string, actor: ActorType, echoed: Digest, now: nat, expiresAt: nat,
        ok: bool)
    | BeginApply(call: Call, id: string, kind: WanObject, objectId: Option<string>)
    | TakeGuard(call: Call, ok: bool)
    | Fetch(call: Call, now: nat)
    | ReadDrift(call: Call, ok: bool)
    | ClaimDrift(call: Call, ok: bool)
    | SettleDrift(call: Call, ok: bool)
    | CheckOrg(call: Call)
    | RecordIntent(call: Call, ok: bool)
    | Claim(call: Call, ok: bool)
    | Send(call: Call)
    | Land(call: Call, createdId: string, result: Json)
    | Return(call: Call, reply: Reply)
    | Verify(call: Call, ok: bool)
    | EmitReceipt(call: Call, ok: bool)
    | Settle(call: Call, ok: bool)
    | SettleUnanswered(call: Call, ok: bool)
    | Abandon(call: Call)
    | Restart
    | Outside(target: Target, state: Option<Json>)

  // ----- vocabulary -----

  function Key(a: Apply): string {
    ObjectKey(a.kind, a.objectId)
  }

  /** The call is inside the guarded section. */
  predicate Holding(s: Stage) {
    !s.WaitGuard? && !s.Returned? && !s.Abandoned?
  }

  /** The object an update addresses: identifier from the call, organisation from the record. */
  function UpdateTarget(c: Config, a: Apply, r: Record): Target {
    c.resolve(a.kind, r.preview.orgId, IdText(a.objectId))
  }

  function Noted(log: seq<Entry>, added: Option<Entry>): seq<Entry> {
    match added
    case None => log
    case Some(e) => log + [e]
  }

  function Note(w: World, entry: Entry): World {
    w.(log := Noted(w.log, Some(entry)))
  }

  /** The call goes on to `stage`. Returning or being dropped releases its guard. */
  function Go(w: World, call: Call, stage: Stage, added: Option<Entry>): World
    requires call in w.applies
  {
    var a := w.applies[call];
    w.(applies := w.applies[call := a.(stage := stage)],
       guards := if Holding(stage) then w.guards[Key(a) := call]
                 else if Holding(a.stage) then w.guards - {Key(a)}
                 else w.guards,
       log := Noted(w.log, added))
  }

  // ----- planning and approval -----

  /** The plan call up to its read: the guards on the patch and the organisation come first. */
  function ProposeStep(c: Config, w: World, e: Event): Option<World>
    requires e.Propose?
  {
    if e.call in w.plans || !GuardsPass(e.patch) || e.org !in c.allowedOrgs then None
    else if e.verb.Create? then
      Some(w.(plans := w.plans[e.call := Proposed(e.owner, e.kind, e.objectId, e.org, Null, Merged(Null, e.patch))]))
    else if e.objectId.None? then None
    else
      var target := c.resolve(e.kind, e.org, e.objectId.value);
      if target !in w.objects then None
      else
        var before := w.objects[target];
        Some(Note(
          w.(plans := w.plans[e.call := Proposed(e.owner, e.kind, e.objectId, e.org, before, Merged(before, e.patch))]),
          PlanRead(e.call, target, before)))
  }

  /** The plan call's insert. Identifiers are random, so never reused. */
  function InsertStep(c: Config, w: World, e: Event): Option<World>
    requires e.Insert?
  {
    if e.call !in w.plans || !w.plans[e.call].Proposed? || e.id in w.records then None
    else
      var p := w.plans[e.call];
      var r := Staged(e.id, p.owner, p.kind, p.objectId, p.org, p.before, p.after, e.now);
      match InsertOutcome(w.records, r, e.ok)
      case Refused(_) => Some(w.(plans := w.plans - {e.call}))
      case Changed(store) =>
        var plans := if c.labMode then w.plans[e.call := AwaitingWaiver(e.id)] else w.plans - {e.call};
        Some(Note(w.(records := store, plans := plans), RecordStaged(Plan(r))))
  }

  /** In lab mode the plan call waives approval itself, echoing the digest it just staged. */
  function WaiveStep(c: Config, w: World, e: Event): Option<World>
    requires e.Waive?
  {
    if e.call !in w.plans || !w.plans[e.call].AwaitingWaiver? || !c.labMode then None
    else
      var id := w.plans[e.call].id;
      var w' := w.(plans := w.plans - {e.call});
      if id !in w.records then None
      else
        match WaiveOutcome(w.records, id, w.records[id].device, w.records[id].digest, e.ok)
        case Refused(_) => Some(w')
        case Changed(store) => Some(Note(w'.(records := store), ApprovalWaived(id, store[id].expiresAt)))
  }

  function ApproveStep(w: World, e: Event): Option<World>
    requires e.Approve?
  {
    match ApproveOutcome(w.records, e.id, e.device, e.approver, e.actor, e.echoed, e.now, e.expiresAt, e.ok)
    case Refused(_) => Some(w)
    case Changed(store) =>
      Some(Note(w.(records := store), ApprovalGranted(e.id, e.approver, e.actor, e.echoed, e.expiresAt)))
  }

  // ----- applying -----

  function BeginApplyStep(w: World, e: Event): Option<World>
    requires e.BeginApply?
  {
    if e.call in w.applies then None
    else Some(w.(applies := w.applies[e.call := Apply(e.id, e.kind, e.objectId, WaitGuard)]))
  }

  /** The guard is had once it is free, unless the coordinator gives it up for the call. */
  function TakeGuardStep(w: World, call: Call, ok: bool): Option<World> {
    if call !in w.applies || !w.applies[call].stage.WaitGuard? then None
    else if !ok then Some(Go(w, call, Returned(NoGuard), None))
    else if Key(w.applies[call]) in w.guards then None
    else Some(Go(w, call, Fetching, None))
  }

  /** The checks on the fetched record, in the order the code makes them. */
  function FetchedStage(records: Store, a: Apply, now: nat): Stage {
    if !Holds(records, a.id, Key(a)) then Returned(NoSuchRecord)
    else
      var r := records[a.id];
      if r.state != Approved then Returned(NotApproved)
      else if now > r.expiresAt then Returned(ApprovalExpired)
      else if IsCreate(r) then CheckingOrg(r)
      else if a.objectId.None? then Returned(MissingObjectId)
      else ReadingDrift(r)
  }

  function FetchStep(w: World, call: Call, now: nat): Option<World> {
    if call !in w.applies || !w.applies[call].stage.Fetching? then None
    else
      var a := w.applies[call];
      var stage := FetchedStage(w.records, a, now);
      Some(Go(w, call, stage, if stage.Returned? then None else Some(Fetched(call, a.id, now, stage.r.expiresAt))))
  }

  function ReadDriftStep(c: Config, w: World, call: Call, ok: bool): Option<World> {
    if call !in w.applies || !w.applies[call].stage.ReadingDrift? then None
    else
      var a, r := w.applies[call], w.applies[call].stage.r;
      var target := UpdateTarget(c, a, r);
      var stage :=
        if !ok || target !in w.objects then Returned(ReadFailed)
        else if Sha256(w.objects[target]) != r.fingerprint then ClaimingDrift(r)
        else CheckingOrg(r);
      Some(Go(w, call, stage, if stage.CheckingOrg? then Some(DriftChecked(call, a.id, target)) else None))
  }

  /** A drifted plan is claimed first, so that its approval is spent; nothing is sent. */
  function ClaimDriftStep(w: World, call: Call, ok: bool): Option<World> {
    if call !in w.applies || !w.applies[call].stage.ClaimingDrift? then None
    else
      var a := w.applies[call];
      match ClaimOutcome(w.records, a.id, Key(a), false, ok)
      case Refused(_) => Some(Go(w, call, Returned(DriftFound), None))
      case Changed(store) =>
        Some(Go(w.(records := store), call, SettlingDrift(store[a.id]), Some(Claimed(call, a.id, false))))
  }

  /** Store this call's copy in its final state and return, or note that the coordinator would not. */
  function Conclude(w: World, call: Call, r: Record, state: State, ok: bool, how: Ending): World
    requires call in w.applies
  {
    match UpdateOutcome(w.records, r.(state := state), ok)
    case Refused(_) => Go(w, call, Returned(how), Some(UpdateRefused(call, r.id)))
    case Changed(store) => Go(w.(records := store), call, Returned(how), Some(Settled(call, r.id, state)))
  }

  function SettleDriftStep(w: World, call: Call, ok: bool): Option<World> {
    if call !in w.applies || !w.applies[call].stage.SettlingDrift? then None
    else Some(Conclude(w, call, w.applies[call].stage.r, Failed, ok, DriftFound))
  }

  function CheckOrgStep(c: Config, w: World, call: Call): Option<World> {
    if call !in w.applies || !w.applies[call].stage.CheckingOrg? then None
    else
      var r := w.applies[call].stage.r;
      Some(Go(w, call, if r.preview.orgId in c.allowedOrgs then RecordingIntent(r) else Returned(OrgDenied), None))
  }

  function RecordIntentStep(c: Config, w: World, call: Call, ok: bool): Option<World> {
    if call !in w.applies || !w.applies[call].stage.RecordingIntent? then None
    else
      var r := w.applies[call].stage.r;
      Some(Go(w, call, if c.recorder && !ok then Returned(IntentRefused) else Claiming(r),
              if c.recorder && ok then Some(IntentPersisted(call, r.id)) else None))
  }

  function ClaimStep(w: World, call: Call, ok: bool): Option<World> {
    if call !in w.applies || !w.applies[call].stage.Claiming? then None
    else
      var a := w.applies[call];
      match ClaimOutcome(w.records, a.id, Key(a), true, ok)
      case Refused(_) => Some(Go(w, call, Returned(ClaimRefused), None))
      case Changed(store) =>
        Some(Go(w.(records := store), call, Writing(store[a.id]), Some(Claimed(call, a.id, true))))
  }

  function SendStep(w: World, call: Call): Option<World> {
    if call !in w.applies || !w.applies[call].stage.Writing? then None
    else
      var r := w.applies[call].stage.r;
      Some(Go(w, call, InFlight(r, false), Some(Sent(call, r.id, r.preview.after))))
  }

  /** The write takes effect, if it ever does, while its call is still waiting for the reply.
      Mist decides the resulting state, and the identifier of a created object. */
  function LandStep(c: Config, w: World, call: Call, createdId: string, result: Json): Option<World> {
    if call !in w.applies || !w.applies[call].stage.InFlight? || w.applies[call].stage.landed then None
    else
      var a, r := w.applies[call], w.applies[call].stage.r;
      var target := if IsCreate(r) then Target(a.kind, r.preview.orgId, createdId) else UpdateTarget(c, a, r);
      if IsCreate(r) == (target in w.objects) then None
      else
        var replaced := if IsCreate(r) then None else Some(w.objects[target]);
        Some(Go(w.(objects := w.objects[target := result]), call, InFlight(r, true),
                Some(Landed(call, r.id, target, replaced))))
  }

  function ReturnStep(w: World, call: Call, reply: Reply): Option<World> {
    if call !in w.applies || !w.applies[call].stage.InFlight? then None
    else
      var a, r := w.applies[call], w.applies[call].stage.r;
      var stage :=
        if reply.NoResponse? then SettlingUnanswered(r)
        else if !IsCreate(r) then Verifying(r, IdText(a.objectId))
        else if reply.id.Some? then Verifying(r, reply.id.value)
        else Receipting(r, Unnamed);
      Some(Go(w, call, stage, if reply.NoResponse? then None else Some(Answered(call, r.id, reply.id))))
  }

  function VerifyStep(c: Config, w: World, call: Call, ok: bool): Option<World> {
    if call !in w.applies || !w.applies[call].stage.Verifying? then None
    else
      var a, r := w.applies[call], w.applies[call].stage.r;
      var target := c.resolve(a.kind, r.preview.orgId, a.stage.finalId);
      var found := if ok && target in w.objects then Some(w.objects[target]) else None;
      Some(Go(w, call, Receipting(r, Compared(found, r.preview.after)), Some(VerifyRead(call, r.id, target, found))))
  }

  function EmitReceiptStep(c: Config, w: World, call: Call, ok: bool): Option<World> {
    if call !in w.applies || !w.applies[call].stage.Receipting? then None
    else
      var Receipting(r, finding) := w.applies[call].stage;
      Some(Go(w, call, Settling(r, finding),
              if !c.recorder then None
              else if ok then Some(Receipt(call, r.id, finding.Verified?))
              else Some(ReceiptLost(call, r.id))))
  }

  function SettleStep(w: World, call: Call, ok: bool): Option<World> {
    if call !in w.applies || !w.applies[call].stage.Settling? then None
    else
      var Settling(r, finding) := w.applies[call].stage;
      Some(Conclude(w, call, r, StateFor(finding), ok, EndingFor(finding, ok)))
  }

  function SettleUnansweredStep(w: World, call: Call, ok: bool): Option<World> {
    if call !in w.applies || !w.applies[call].stage.SettlingUnanswered? then None
    else Some(Conclude(w, call, w.applies[call].stage.r, Failed, ok, WriteFailed))
  }

  // ----- interruptions -----

  /** A cancelled call drops its guard wherever it stood. */
  function AbandonStep(w: World, call: Call): Option<World> {
    if call !in w.applies || w.applies[call].stage.Returned? || w.applies[call].stage.Abandoned? then None
    else Some(Go(w, call, Abandoned, None))
  }

  /** The process stops: every call is gone, and the stored records are read back. */
  function RestartStep(w: World): World {
    var applies := map call | call in w.applies ::
      if w.applies[call].stage.Returned? then w.applies[call] else w.applies[call].(stage := Abandoned);
    var records := map id | id in w.records :: Recovered(w.records[id]);
    Note(w.(records := records, guards := map[], plans := map[], applies := applies), Restarted)
  }

  /** Someone else changes, creates or deletes an object. A request abandoned in flight that
      still takes effect after its guard is gone counts as one of these. */
  function OutsideStep(w: World, target: Target, state: Option<Json>): World {
    var objects := if state.Some? then w.objects[target := state.value] else w.objects - {target};
    Note(w.(objects := objects), ChangedOutside(target))
  }

  // ----- runs -----

  /** The step an event takes, or `None` where it cannot happen. */
  function Next(c: Config, w: World, e: Event): Option<World> {
    match e
    case Propose(_, _, _, _, _, _, _) => ProposeStep(c, w, e)
    case Insert(_, _, _, _) => InsertStep(c, w, e)
    case Waive(_, _) => WaiveStep(c, w, e)
    case Approve(_, _, _, _, _, _, _, _) => ApproveStep(w, e)
    case BeginApply(_, _, _, _) => BeginApplyStep(w, e)
    case TakeGuard(call, ok) => TakeGuardStep(w, call, ok)
    case Fetch(call, now) => FetchStep(w, call, now)
    case ReadDrift(call, ok) => ReadDriftStep(c, w, call, ok)
    case ClaimDrift(call, ok) => ClaimDriftStep(w, call, ok)
    case SettleDrift(call, ok) => SettleDriftStep(w, call, ok)
    case CheckOrg(call) => CheckOrgStep(c, w, call)
    case RecordIntent(call, ok) => RecordIntentStep(c, w, call, ok)
    case Claim(call, ok) => ClaimStep(w, call, ok)
    case Send(call) => SendStep(w, call)
    case Land(call, createdId, result) => LandStep(c, w, call, createdId, result)
    case Return(call, reply) => ReturnStep(w, call, reply)
    case Verify(call, ok) => VerifyStep(c, w, call, ok)
    case EmitReceipt(call, ok) => EmitReceiptStep(c, w, call, ok)
    case Settle(call, ok) => SettleStep(w, call, ok)
    case SettleUnanswered(call, ok) => SettleUnansweredStep(w, call, ok)
    case Abandon(call) => AbandonStep(w, call)
    case Restart => Some(RestartStep(w))
    case Outside(target, state) => Some(OutsideStep(w, target, state))
  }

  /** Where a sequence of events leads, or `None` if one of them cannot happen. */
  function Run(c: Config, w: World, events: seq<Event>): Option<World>
    decreases |events|
  {
    if events == [] then Some(w)
    else match Next(c, w, events[0])
      case Some(next) => Run(c, next, events[1..])
      case None => None
  }

  /** A world some run from nothing arrives at. Mist may hold any objects to begin with. */
  ghost predicate Reachable(c: Config, w: World) {
    exists objects, events :: Run(c, EMPTY.(objects := objects), events) == Some(w)
  }

  // ----- composing runs -----

  lemma RunOne(c: Config, w: World, e: Event, w': World)
    requires Next(c, w, e) == Some(w')
    ensures Run(c, w, [e]) == Some(w')
  {
    hide Next;
    assert [e][1..] == [];
    assert Run(c, w', []) == Some(w');
  }

  lemma {:induction false} RunAppend(c: Config, w: World, first: seq<Event>, middle: World, second: seq<Event>,
                                     w': World)
    requires Run(c, w, first) == Some(middle) && Run(c, middle, second) == Some(w')
    ensures Run(c, w, first + second) == Some(w')
    decreases |first|
  {
    hide Next;
    if first == [] {
      assert first + second == second;
    } else {
      assert (first + second)[1..] == first[1..] + second;
      RunAppend(c, Next(c, w, first[0]).value, first[1..], middle, second, w');
    }
  }

  lemma ReachesOn(c: Config, w: World, events: seq<Event>, w': World)
    requires Run(c, w, events) == Some(w')
    ensures Reachable(c, w) ==> Reachable(c, w')
  {
    hide Run;
    if Reachable(c, w) {
      var objects, first :| Run(c, EMPTY.(objects := objects), first) == Some(w);
      RunAppend(c, EMPTY.(objects := objects), first, w, events, w');
    }
  }
}
