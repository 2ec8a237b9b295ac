/** Change-set records, how they are staged, and the coordinator that stores them. */
module ChangeSets {
  import opened Wrappers
  import opened JsonValues

  datatype WanObject = Network | Service | ServicePolicy | GatewayTemplate | DeviceProfile

  function ObjectName(kind: WanObject): string {
    match kind
    case Network => "network"
    case Service => "service"
    case ServicePolicy => "servicepolicy"
    case GatewayTemplate => "gatewaytemplate"
    case DeviceProfile => "deviceprofile"
  }

  function IdText(objectId: Option<string>): string {
    if objectId.Some? then objectId.value else "new"
  }

  /** The `device` key of a record, and so the key its guard locks. A create has no identifier yet. */
  function ObjectKey(kind: WanObject, objectId: Option<string>): string {
    ObjectName(kind) + ("/" + IdText(objectId))
  }

  /** Keys separate objects exactly, except that an object whose identifier is the word `new`
      shares the key of its type's creates. */
  lemma ObjectKeyEqualIff(a: WanObject, idA: Option<string>, b: WanObject, idB: Option<string>)
    ensures ObjectKey(a, idA) == ObjectKey(b, idB) <==> a == b && IdText(idA) == IdText(idB)
  {
    ObjectNameInjective(a, b);
    ObjectNameInjective(b, a);
    if ObjectKey(a, idA) == ObjectKey(b, idB) {
      SlashSplitsOnce(ObjectName(a), IdText(idA), ObjectName(b), IdText(idB));
    }
  }

  /** The keys, spelled out. */
  lemma ObjectKeysAre(id: string)
    ensures ObjectKey(Network, Some(id)) == "network/" + id
    ensures ObjectKey(Service, Some(id)) == "service/" + id
    ensures ObjectKey(ServicePolicy, Some(id)) == "servicepolicy/" + id
    ensures ObjectKey(GatewayTemplate, Some(id)) == "gatewaytemplate/" + id
    ensures ObjectKey(DeviceProfile, Some(id)) == "deviceprofile/" + id
    ensures forall kind :: ObjectKey(kind, None) == ObjectKey(kind, Some("new"))
  {
  }

  lemma ObjectNameInjective(a: WanObject, b: WanObject)
    ensures '/' !in ObjectName(a)
    ensures ObjectName(a) == ObjectName(b) ==> a == b
  {
    var x, y := ObjectName(a), ObjectName(b);
    if a != b {
      assert |x| != |y| || x[0] != y[0];
    }
  }

  lemma SlashSplitsOnce(a: string, restA: string, b: string, restB: string)
    requires '/' !in a && '/' !in b
    requires a + ("/" + restA) == b + ("/" + restB)
    ensures a == b && restA == restB
  {
    var x, y := a + ("/" + restA), b + ("/" + restB);
    assert x[|a|] == '/' && y[|b|] == '/';
    assert forall i :: 0 <= i < |a| ==> x[i] == a[i];
    assert forall i :: 0 <= i < |b| ==> y[i] == b[i];
    assert |a| == |b|;
    assert x[..|a|] == a && y[..|b|] == b;
    assert x[|a| + 1..] == restA && y[|b| + 1..] == restB;
  }

  /** A fingerprint stands for the serialised state it was hashed from: hashing is taken to be injective. */
  datatype Fingerprint = CreateMarker | Sha256(state: Json)

  function FingerprintOf(before: Json): Fingerprint {
    if before.Null? then CreateMarker else Sha256(before)
  }

  datatype Action = Action(kind: WanObject, body: Json)

  /** A plan digest stands for what was digested. The organisation is not part of it. */
  datatype Digest = Digest(owner: string, device: string, fingerprint: Fingerprint, action: Action)

  datatype Preview = Preview(before: Json, after: Json, orgId: string)

  datatype State = Planned | Approved | Applying | Applied | Failed

  datatype ActorType = Human | Agent | Unknown

  /** An unattributed caller is never taken for a human. */
  function ActorTypeOf(caller: Option<ActorType>): ActorType {
    if caller.Some? then caller.value else Unknown
  }

  datatype Approval = Unapproved | Granted(approver: string, actor: ActorType, echoed: Digest) | Waived

  /** `stagedUntil` is the expiry a record starts with; an approval may replace the current one. */
  datatype Record = Record(
    id: string, owner: string, device: string, fingerprint: Fingerprint, action: Action, digest: Digest,
    preview: Preview, stagedUntil: nat, state: State, approval: Approval, expiresAt: nat, handleless: bool)

  const PLAN_LIFETIME := 3600

  /** The record a plan is stored as. */
  function Staged(id: string, owner: string, kind: WanObject, objectId: Option<string>, orgId: string,
                  before: Json, after: Json, now: nat): Record
  {
    var device, fingerprint, action := ObjectKey(kind, objectId), FingerprintOf(before), Action(kind, after);
    Record(id, owner, device, fingerprint, action, Digest(owner, device, fingerprint, action),
           Preview(before, after, orgId), now + PLAN_LIFETIME, Planned, Unapproved, now + PLAN_LIFETIME, false)
  }

  /** The part of a record fixed when it is staged. */
  function Plan(r: Record): Record {
    r.(state := Planned, approval := Unapproved, expiresAt := 0, handleless := false)
  }

  predicate IsCreate(r: Record) {
    r.fingerprint.CreateMarker?
  }

  // ----- the coordinator's transitions -----

  type Store = map<string, Record>

  datatype Refusal = Duplicate | NotFound | OwnPlan | NotHuman | WrongState | Expired | DigestMismatch | Unpersisted

  datatype Outcome = Changed(store: Store) | Refused(why: Refusal)

  predicate Holds(store: Store, id: string, device: string) {
    id in store && store[id].device == device
  }

  function InsertOutcome(store: Store, r: Record, persisted: bool): Outcome {
    if r.id in store then Refused(Duplicate)
    else if !persisted then Refused(Unpersisted)
    else Changed(store[r.id := r])
  }

  /** Approval, with the coordinator's checks in its order. */
  function ApproveOutcome(store: Store, id: string, device: string, approver: string, actor: ActorType, echoed: Digest,
                          now: nat, expiresAt: nat, persisted: bool): Outcome
  {
    if !Holds(store, id, device) then Refused(NotFound)
    else if store[id].owner == approver then Refused(OwnPlan)
    else if actor != Human then Refused(NotHuman)
    else if store[id].state != Planned then Refused(WrongState)
    else if now > store[id].expiresAt then Refused(Expired)
    else if echoed != store[id].digest then Refused(DigestMismatch)
    else if !persisted then Refused(Unpersisted)
    else
      var approval := Granted(approver, actor, echoed);
      Changed(store[id := store[id].(state := Approved, approval := approval, expiresAt := expiresAt)])
  }

  /** The lab-mode waiver: no approver is recorded. */
  function WaiveOutcome(store: Store, id: string, device: string, echoed: Digest, persisted: bool): Outcome {
    if !Holds(store, id, device) then Refused(NotFound)
    else if store[id].state != Planned then Refused(WrongState)
    else if echoed != store[id].digest then Refused(DigestMismatch)
    else if !persisted then Refused(Unpersisted)
    else Changed(store[id := store[id].(state := Approved, approval := Waived)])
  }

  /** The only Approved-to-Applying edge: read and write under one lock. */
  function ClaimOutcome(store: Store, id: string, device: string, handleless: bool, persisted: bool): Outcome {
    if !Holds(store, id, device) then Refused(NotFound)
    else if store[id].state != Approved then Refused(WrongState)
    else if !persisted then Refused(Unpersisted)
    else Changed(store[id := store[id].(state := Applying, handleless := handleless)])
  }

  /** A plain update stores the caller's copy, and only along Applying-to-Applied or Applying-to-Failed. */
  function UpdateOutcome(store: Store, r: Record, persisted: bool): Outcome {
    if r.id !in store then Refused(NotFound)
    else if store[r.id].state != Applying || r.state !in {Applied, Failed} then Refused(WrongState)
    else if !persisted then Refused(Unpersisted)
    else Changed(store[r.id := r])
  }

  /** What loading the store after a restart makes of an interrupted apply. */
  function Recovered(r: Record): Record {
    if r.state == Applying && !r.handleless then r.(state := Failed) else r
  }

  /** The coordinator as the server uses it. */
  class Coordinator {
    var records: Store

    constructor ()
      ensures records == map[]
    {
      records := map[];
    }

    method InsertChangeSet(r: Record, persisted: bool) returns (outcome: Outcome)
      modifies this
      ensures outcome == InsertOutcome(old(records), r, persisted)
      ensures outcome.Changed? <==> r.id !in old(records) && persisted
      ensures records == if outcome.Changed? then old(records)[r.id := r] else old(records)
    {
      if r.id in records { return Refused(Duplicate); }
      if !persisted { return Refused(Unpersisted); }
      records := records[r.id := r];
      outcome := Changed(records);
    }

    method ChangeSet(id: string, device: string) returns (found: Option<Record>)
      ensures found == if Holds(records, id, device) then Some(records[id]) else None
    {
      if id !in records || records[id].device != device { return None; }
      found := Some(records[id]);
    }

    method ApproveChangeSet(id: string, device: string, approver: string, actor: ActorType, echoed: Digest,
                            now: nat, expiresAt: nat, persisted: bool) returns (outcome: Outcome)
      modifies this
      ensures outcome == ApproveOutcome(old(records), id, device, approver, actor, echoed, now, expiresAt, persisted)
      ensures outcome.Changed? <==>
                && id in old(records) && persisted && actor == Human
                && var r := old(records)[id];
                   && r.device == device && r.owner != approver && r.state == Planned && now <= r.expiresAt
                   && r.digest == echoed
      ensures records ==
              if outcome.Changed? then
                old(records)[id := old(records)[id].(
                  state := Approved, approval := Granted(approver, actor, echoed), expiresAt := expiresAt)]
              else old(records)
    {
      var found := ChangeSet(id, device);
      if found.None? { return Refused(NotFound); }
      var r := found.value;
      if r.owner == approver { return Refused(OwnPlan); }
      if actor != Human { return Refused(NotHuman); }
      if r.state != Planned { return Refused(WrongState); }
      if now > r.expiresAt { return Refused(Expired); }
      if echoed != r.digest { return Refused(DigestMismatch); }
      if !persisted { return Refused(Unpersisted); }
      var approval := Granted(approver, actor, echoed);
      records := records[id := r.(state := Approved, approval := approval, expiresAt := expiresAt)];
      outcome := Changed(records);
    }

    method WaiveApproval(id: string, device: string, echoed: Digest, persisted: bool) returns (outcome: Outcome)
      modifies this
      ensures outcome == WaiveOutcome(old(records), id, device, echoed, persisted)
      ensures outcome.Changed? <==>
                && id in old(records) && persisted
                && var r := old(records)[id]; r.device == device && r.state == Planned && r.digest == echoed
      ensures records ==
              if outcome.Changed? then old(records)[id := old(records)[id].(state := Approved, approval := Waived)]
              else old(records)
    {
      var found := ChangeSet(id, device);
      if found.None? { return Refused(NotFound); }
      if found.value.state != Planned { return Refused(WrongState); }
      if echoed != found.value.digest { return Refused(DigestMismatch); }
      if !persisted { return Refused(Unpersisted); }
      records := records[id := found.value.(state := Approved, approval := Waived)];
      outcome := Changed(records);
    }

    method ClaimChangeSetForApply(id: string, device: string, handleless: bool, persisted: bool)
      returns (outcome: Outcome)
      modifies this
      ensures outcome == ClaimOutcome(old(records), id, device, handleless, persisted)
      ensures outcome.Changed? <==>
                && id in old(records) && persisted
                && var r := old(records)[id]; r.device == device && r.state == Approved
      ensures records ==
              if outcome.Changed? then
                old(records)[id := old(records)[id].(state := Applying, handleless := handleless)]
              else old(records)
    {
      var found := ChangeSet(id, device);
      if found.None? { return Refused(NotFound); }
      if found.value.state != Approved { return Refused(WrongState); }
      if !persisted { return Refused(Unpersisted); }
      records := records[id := found.value.(state := Applying, handleless := handleless)];
      outcome := Changed(records);
    }

    method UpdateChangeSet(r: Record, persisted: bool) returns (outcome: Outcome)
      modifies this
      ensures outcome == UpdateOutcome(old(records), r, persisted)
      ensures outcome.Changed? <==>
                && r.id in old(records) && old(records)[r.id].state == Applying && r.state in {Applied, Failed}
                && persisted
      ensures records == if outcome.Changed? then old(records)[r.id := r] else old(records)
    {
      if r.id !in records { return Refused(NotFound); }
      if records[r.id].state != Applying || r.state !in {Applied, Failed} { return Refused(WrongState); }
      if !persisted { return Refused(Unpersisted); }
      records := records[r.id := r];
      outcome := Changed(records);
    }
  }
}
