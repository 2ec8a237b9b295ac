/** A plan call and an apply call as the server makes them, step by step and with early returns.
    Left to itself each is a run of the machine, so what holds of every run holds of it. */
module ApplyCall {
  import opened Wrappers
  import opened JsonValues
  import opened MergePatch
  import opened ChangeSets
  import opened ApplyProtocol

  datatype Args = Args(id: string, kind: WanObject, objectId: Option<string>)

  /** Whom a request's token names. A local caller has none. */
  datatype Caller = Caller(name: string, actor: ActorType)

  /** What the clock, Mist, the recorder and the store make of one call. */
  datatype Circumstances = Circumstances(
    now: nat, driftReadable: bool, intentPersists: bool, claimPersists: bool,
    landing: Option<(string, Json)>, reply: Reply, verifyReadable: bool, receiptPersists: bool, updatePersists: bool)

  /** A section of the call either goes on with the record or ends the call. */
  datatype Progress = Continue(r: Record) | End(how: Ending)

  // ----- how the circumstances decide a call -----

  function Addressed(c: Config, args: Args, r: Record): Target {
    c.resolve(args.kind, r.preview.orgId, IdText(args.objectId))
  }

  function AfterFetch(records: Store, args: Args, now: nat): Progress {
    var stage := FetchedStage(records, Apply(args.id, args.kind, args.objectId, Fetching), now);
    if stage.Returned? then End(stage.how) else Continue(stage.r)
  }

  /** An update goes on only if its object is readable and still what the plan read. */
  function AfterDrift(c: Config, objects: map<Target, Json>, args: Args, r: Record, readable: bool): Progress {
    var target := Addressed(c, args, r);
    if !readable || target !in objects then End(ReadFailed)
    else if Sha256(objects[target]) != r.fingerprint then End(DriftFound)
    else Continue(r)
  }

  function AfterClaim(c: Config, records: Store, args: Args, r: Record, k: Circumstances): Progress {
    if r.preview.orgId !in c.allowedOrgs then End(OrgDenied)
    else if c.recorder && !k.intentPersists then End(IntentRefused)
    else match ClaimOutcome(records, args.id, ObjectKey(args.kind, args.objectId), true, k.claimPersists)
      case Refused(_) => End(ClaimRefused)
      case Changed(store) => Continue(store[args.id])
  }

  /** What Mist holds once the write has taken effect, if it does. */
  function Written(c: Config, objects: map<Target, Json>, args: Args, r: Record,
                   landing: Option<(string, Json)>): map<Target, Json> {
    if landing.None? then objects
    else
      var target := if IsCreate(r) then Target(args.kind, r.preview.orgId, landing.value.0) else Addressed(c, args, r);
      if IsCreate(r) == (target in objects) then objects else objects[target := landing.value.1]
  }

  /** The identifier to read back, where the reply gives one. */
  function ReplyId(args: Args, r: Record, reply: Reply): Option<string> {
    if reply.NoResponse? then None else if IsCreate(r) then reply.id else Some(IdText(args.objectId))
  }

  predicate ReadsBack(c: Config, objects: map<Target, Json>, args: Args, r: Record, finalId: Option<string>,
                      readable: bool) {
    && finalId.Some? && readable
    && var target := c.resolve(args.kind, r.preview.orgId, finalId.value);
       target in objects && objects[target] == r.preview.after
  }

  function AfterWrite(c: Config, objects: map<Target, Json>, args: Args, r: Record, k: Circumstances): Ending {
    if k.reply.NoResponse? then WriteFailed
    else if ReplyId(args, r, k.reply).None? then NoIdentifier
    else if !k.updatePersists then NotPersisted
    else Verdict(ReadsBack(c, objects, args, r, ReplyId(args, r, k.reply), k.verifyReadable))
  }

  /** As far as the claim. */
  function Prepared(c: Config, records: Store, objects: map<Target, Json>, args: Args, k: Circumstances): Progress {
    var found := AfterFetch(records, args, k.now);
    if found.End? then found
    else
      var checked := if IsCreate(found.r) then found else AfterDrift(c, objects, args, found.r, k.driftReadable);
      if checked.End? then checked else AfterClaim(c, records, args, found.r, k)
  }

  /** How the whole call ends. */
  function Foreseen(c: Config, records: Store, objects: map<Target, Json>, args: Args, k: Circumstances): Ending {
    var prepared := Prepared(c, records, objects, args, k);
    if prepared.End? then prepared.how
    else AfterWrite(c, Written(c, objects, args, prepared.r, k.landing), args, prepared.r, k)
  }

  /** The objects it leaves behind: only a call that got its claim writes. */
  function ForeseenObjects(c: Config, records: Store, objects: map<Target, Json>, args: Args,
                           k: Circumstances): map<Target, Json> {
    var prepared := Prepared(c, records, objects, args, k);
    if prepared.End? then objects else Written(c, objects, args, prepared.r, k.landing)
  }

  lemma ClaimDecided(c: Config, records: Store, args: Args, r: Record, k: Circumstances)
    ensures AfterClaim(c, records, args, r, k) ==
            if r.preview.orgId !in c.allowedOrgs then End(OrgDenied)
            else if c.recorder && !k.intentPersists then End(IntentRefused)
            else
              var outcome := ClaimOutcome(records, args.id, ObjectKey(args.kind, args.objectId), true, k.claimPersists);
              if outcome.Refused? then End(ClaimRefused) else Continue(outcome.store[args.id])
  {
  }

  lemma WriteDecided(c: Config, objects: map<Target, Json>, args: Args, r: Record, k: Circumstances)
    ensures k.reply.NoResponse? ==> AfterWrite(c, objects, args, r, k) == WriteFailed
    ensures !k.reply.NoResponse? && ReplyId(args, r, k.reply).None? ==>
              AfterWrite(c, objects, args, r, k) == NoIdentifier
    ensures !k.reply.NoResponse? && ReplyId(args, r, k.reply).Some? ==>
              var read := ReadsBack(c, objects, args, r, ReplyId(args, r, k.reply), k.verifyReadable);
              AfterWrite(c, objects, args, r, k) == EndingFor(if read then Verified else Differs, k.updatePersists)
    ensures EndingFor(Unnamed, k.updatePersists) == NoIdentifier
  {
    hide ReplyId;
    hide ReadsBack;
  }

  lemma PreparedDecided(c: Config, records: Store, objects: map<Target, Json>, args: Args, k: Circumstances)
    ensures
      var found := AfterFetch(records, args, k.now);
      var checked :=
        if found.End? || IsCreate(found.r) then found
        else AfterDrift(c, objects, args, found.r, k.driftReadable);
      Prepared(c, records, objects, args, k) ==
      if checked.End? then checked else AfterClaim(c, records, args, checked.r, k)
  {
    hide AfterFetch;
    hide AfterClaim;
    hide Addressed;
    hide IsCreate;
  }

  lemma CallDecided(c: Config, records: Store, objects: map<Target, Json>, args: Args, k: Circumstances)
    ensures
      var prepared := Prepared(c, records, objects, args, k);
      && Foreseen(c, records, objects, args, k) ==
           (if prepared.End? then prepared.how
            else AfterWrite(c, Written(c, objects, args, prepared.r, k.landing), args, prepared.r, k))
      && ForeseenObjects(c, records, objects, args, k) ==
           (if prepared.End? then objects else Written(c, objects, args, prepared.r, k.landing))
  {
    hide Prepared;
  }

  /** Exactly when a call ends verified: the record is there under its key, approved and in time; an
      update names its object, which can be read and has not moved since its plan; everything is allowed,
      persisted and answered; and the object that was written can be read and is the approved body. For an
      update that is the object the call names, for a create the one the reply names. */
  lemma EndsVerifiedIff(c: Config, records: Store, objects: map<Target, Json>, args: Args, k: Circumstances)
    ensures Foreseen(c, records, objects, args, k) == Verdict(true) <==>
            && args.id in records && records[args.id].device == ObjectKey(args.kind, args.objectId)
            && var r := records[args.id];
               && r.state == Approved && k.now <= r.expiresAt
               && (r.fingerprint.CreateMarker? ||
                   (&& args.objectId.Some? && k.driftReadable
                    && var target := c.resolve(args.kind, r.preview.orgId, args.objectId.value);
                       target in objects && Sha256(objects[target]) == r.fingerprint))
               && r.preview.orgId in c.allowedOrgs
               && (c.recorder ==> k.intentPersists) && k.claimPersists && k.updatePersists
               && k.reply.Response? && k.verifyReadable
               && if r.fingerprint.CreateMarker? then
                    && k.reply.id.Some?
                    && var named := c.resolve(args.kind, r.preview.orgId, k.reply.id.value);
                       if named in objects then objects[named] == r.preview.after
                       else k.landing.Some? && k.landing.value.1 == r.preview.after
                            && named == Target(args.kind, r.preview.orgId, k.landing.value.0)
                  else
                    if k.landing.Some? then k.landing.value.1 == r.preview.after
                    else objects[c.resolve(args.kind, r.preview.orgId, args.objectId.value)] == r.preview.after
  {
    if Prepared(c, records, objects, args, k).Continue? {
      var r := records[args.id];
      SamePreview(c, objects, args, r, r.(state := Applying, handleless := true), k);
      ReadsBackIff(c, objects, args, r, k);
    }
    hide ReadsBack;
    hide Written;
    hide ReplyId;
  }

  /** The object read back is the approved body: it was already, and nothing was written there, or the
      write made it so. */
  lemma ReadsBackIff(c: Config, objects: map<Target, Json>, args: Args, r: Record, k: Circumstances)
    requires !IsCreate(r) ==> args.objectId.Some? && Addressed(c, args, r) in objects
    ensures
      var held := Written(c, objects, args, r, k.landing);
      k.reply.Response? && ReadsBack(c, held, args, r, ReplyId(args, r, k.reply), k.verifyReadable) <==>
      && k.reply.Response? && k.verifyReadable
      && if IsCreate(r) then
           && k.reply.id.Some?
           && var named := c.resolve(args.kind, r.preview.orgId, k.reply.id.value);
              if named in objects then objects[named] == r.preview.after
              else k.landing.Some? && k.landing.value.1 == r.preview.after
                   && named == Target(args.kind, r.preview.orgId, k.landing.value.0)
         else
           if k.landing.Some? then k.landing.value.1 == r.preview.after
           else objects[c.resolve(args.kind, r.preview.orgId, args.objectId.value)] == r.preview.after
  {
  }

  /** Which circumstance decides how a call ends, in the order in which it looks at them. */
  lemma EndingsDecided(c: Config, records: Store, objects: map<Target, Json>, args: Args, k: Circumstances)
    ensures
      var how := Foreseen(c, records, objects, args, k);
      var found := args.id in records && records[args.id].device == ObjectKey(args.kind, args.objectId);
      && (how == NoSuchRecord <==> !found)
      && (how == NotApproved <==> found && records[args.id].state != Approved)
      && (how == ApprovalExpired <==>
            found && records[args.id].state == Approved && k.now > records[args.id].expiresAt)
      && (found && records[args.id].state == Approved && k.now <= records[args.id].expiresAt ==>
            var r := records[args.id];
            var update := !r.fingerprint.CreateMarker?;
            && (how == MissingObjectId <==> update && args.objectId.None?)
            && (args.objectId.Some? ==>
                  var target := c.resolve(args.kind, r.preview.orgId, args.objectId.value);
                  && (how == ReadFailed <==> update && (!k.driftReadable || target !in objects))
                  && (how == DriftFound <==>
                        update && k.driftReadable && target in objects && Sha256(objects[target]) != r.fingerprint))
            && (how !in {MissingObjectId, ReadFailed, DriftFound} ==>
                  && (how == OrgDenied <==> r.preview.orgId !in c.allowedOrgs)
                  && (how != OrgDenied ==>
                        && (how == IntentRefused <==> c.recorder && !k.intentPersists)
                        && (how != IntentRefused ==>
                              && (how == ClaimRefused <==> !k.claimPersists)
                              && (how != ClaimRefused ==>
                                    && (how == WriteFailed <==> k.reply.NoResponse?)
                                    && (how == NoIdentifier <==> k.reply.Response? && !update && k.reply.id.None?)
                                    && (how !in {WriteFailed, NoIdentifier} ==>
                                          (how == NotPersisted <==> !k.updatePersists)
                                          && (how.Verdict? <==> k.updatePersists)))))))
  {
    hide ReadsBack;
    hide Written;
    hide ObjectKey;
  }

  /** Being claimed changes nothing that the write looks at. */
  lemma SamePreview(c: Config, objects: map<Target, Json>, args: Args, r: Record, claimed: Record, k: Circumstances)
    requires claimed.preview == r.preview && claimed.fingerprint == r.fingerprint
    ensures Written(c, objects, args, claimed, k.landing) == Written(c, objects, args, r, k.landing)
    ensures ReplyId(args, claimed, k.reply) == ReplyId(args, r, k.reply)
    ensures forall held, finalId ::
              ReadsBack(c, held, args, claimed, finalId, k.verifyReadable) ==
              ReadsBack(c, held, args, r, finalId, k.verifyReadable)
  {
  }

  /** When everything goes well the call ends verified, and the object is the approved body. */
  lemma AllWellIsApplied(c: Config, records: Store, objects: map<Target, Json>, args: Args, k: Circumstances)
    requires Holds(records, args.id, ObjectKey(args.kind, args.objectId)) && args.objectId.Some?
    requires
      var r := records[args.id];
      && r.state == Approved && k.now <= r.expiresAt && !IsCreate(r) && r.preview.orgId in c.allowedOrgs
      && Addressed(c, args, r) in objects && Sha256(objects[Addressed(c, args, r)]) == r.fingerprint
      && k.landing.Some? && k.landing.value.1 == r.preview.after
    requires k.driftReadable && (c.recorder ==> k.intentPersists) && k.claimPersists
    requires k.reply.Response? && k.verifyReadable && k.updatePersists
    ensures Foreseen(c, records, objects, args, k) == Verdict(true)
    ensures ForeseenObjects(c, records, objects, args, k) ==
            objects[Addressed(c, args, records[args.id]) := records[args.id].preview.after]
  {
  }

  /** And so for a create: Mist stores the approved body as a new object and its reply names that object. */
  lemma AllWellCreateIsApplied(c: Config, records: Store, objects: map<Target, Json>, args: Args, k: Circumstances,
                               createdId: string, name: string)
    requires Holds(records, args.id, ObjectKey(args.kind, args.objectId))
    requires
      var r := records[args.id];
      var created := Target(args.kind, r.preview.orgId, createdId);
      && r.state == Approved && k.now <= r.expiresAt && IsCreate(r) && r.preview.orgId in c.allowedOrgs
      && created !in objects && k.landing == Some((createdId, r.preview.after))
      && k.reply == Response(Some(name)) && c.resolve(args.kind, r.preview.orgId, name) == created
    requires (c.recorder ==> k.intentPersists) && k.claimPersists && k.verifyReadable && k.updatePersists
    ensures Foreseen(c, records, objects, args, k) == Verdict(true)
    ensures ForeseenObjects(c, records, objects, args, k) ==
            objects[Target(args.kind, records[args.id].preview.orgId, createdId) := records[args.id].preview.after]
  {
  }

  // ----- what a call leaves stored -----

  /** The record as updated, if the coordinator takes the update. */
  function Stored(records: Store, r: Record, persists: bool): Store {
    if r.id in records && records[r.id].state == Applying && persists then records[r.id := r] else records
  }

  /** What is stored once a call has ended so. A drifted plan's approval is spent without a write; a
      record claimed for its write says whether the write was verified, unless it could not be stored. */
  function Left(records: Store, id: string, how: Ending, k: Circumstances): Store {
    if id !in records then records
    else
      var r := records[id];
      var unsettled := if k.updatePersists then Failed else Applying;
      match how
      case Verdict(true) => records[id := r.(state := Applied, handleless := true)]
      case Verdict(false) => records[id := r.(state := Failed, handleless := true)]
      case NotPersisted => records[id := r.(state := Applying, handleless := true)]
      case NoIdentifier => records[id := r.(state := unsettled, handleless := true)]
      case WriteFailed => records[id := r.(state := unsettled, handleless := true)]
      case DriftFound =>
        if k.claimPersists then records[id := r.(state := unsettled, handleless := false)] else records
      case _ => records
  }

  /** The store after a drifted plan's approval was spent. */
  function Spent(records: Store, id: string, device: string, k: Circumstances): Store {
    if Holds(records, id, device) && records[id].state == Approved && k.claimPersists then
      var claimed := records[id].(state := Applying, handleless := false);
      Stored(records[id := claimed], claimed.(state := Failed), k.updatePersists)
    else records
  }

  lemma DriftLeaves(records: Store, args: Args, k: Circumstances)
    requires Holds(records, args.id, ObjectKey(args.kind, args.objectId))
    requires records[args.id].id == args.id && records[args.id].state == Approved
    ensures Spent(records, args.id, ObjectKey(args.kind, args.objectId), k) == Left(records, args.id, DriftFound, k)
  {
    hide ObjectKey;
  }

  lemma WriteLeaves(records: Store, id: string, r: Record, k: Circumstances, how: Ending)
    requires id in records && records[id].id == id && r == records[id].(state := Applying, handleless := true)
    requires how in {WriteFailed, NoIdentifier} || (k.updatePersists && how.Verdict?)
             || (!k.updatePersists && how == NotPersisted)
    ensures Stored(records[id := r], r.(state := if how == Verdict(true) then Applied else Failed), k.updatePersists)
            == Left(records, id, how, k)
  {
  }

  lemma WriteEndings(c: Config, objects: map<Target, Json>, args: Args, r: Record, k: Circumstances)
    ensures
      var how := AfterWrite(c, objects, args, r, k);
      how in {WriteFailed, NoIdentifier} || (k.updatePersists && how.Verdict?)
      || (!k.updatePersists && how == NotPersisted)
  {
    hide ReadsBack;
    hide ReplyId;
  }

  /** What an ending leaves is what the call has stored by then. */
  lemma CallLeaves(c: Config, records: Store, objects: map<Target, Json>, args: Args, k: Circumstances)
    requires args.id in records ==> records[args.id].id == args.id
    ensures
      var prepared, how := Prepared(c, records, objects, args, k), Foreseen(c, records, objects, args, k);
      Left(records, args.id, how, k) ==
      if prepared == End(DriftFound) then Spent(records, args.id, ObjectKey(args.kind, args.objectId), k)
      else if prepared.End? then records
      else Stored(records[args.id := prepared.r],
                  prepared.r.(state := if how == Verdict(true) then Applied else Failed), k.updatePersists)
  {
    var found := AfterFetch(records, args, k.now);
    if found.Continue? {
      DriftLeaves(records, args, k);
      var claim := AfterClaim(c, records, args, found.r, k);
      if claim.Continue? {
        var held := Written(c, objects, args, claim.r, k.landing);
        WriteEndings(c, held, args, claim.r, k);
        WriteLeaves(records, args.id, claim.r, k, AfterWrite(c, held, args, claim.r, k));
      }
    }
    hide Spent;
    hide Stored;
    hide Written;
    hide AfterWrite;
    hide ObjectKey;
    hide IsCreate;
  }

  class Server {
    const c: Config
    const coordinator: Coordinator
    /** What Mist holds. */
    var objects: map<Target, Json>
    var guards: map<string, Call>
    /** The evidence, and with it everything that happened. */
    var log: seq<Entry>
    ghost var plans: map<Call, Planning>
    ghost var applies: map<Call, Apply>

    constructor (c: Config, objects: map<Target, Json>)
      ensures this.c == c && fresh(coordinator) && Now() == EMPTY.(objects := objects)
    {
      this.c := c;
      coordinator := new Coordinator();
      this.objects := objects;
      guards, log, plans, applies := map[], [], map[], map[];
    }

    ghost function Now(): World
      reads this, coordinator
    {
      World(coordinator.records, objects, guards, plans, applies, log)
    }

    /** The call stands at `stage`, inside the guarded section. */
    ghost predicate Doing(call: Call, args: Args, stage: Stage)
      reads this
    {
      && call in applies && applies[call] == Apply(args.id, args.kind, args.objectId, stage) && Holding(stage)
      && ObjectKey(args.kind, args.objectId) in guards && guards[ObjectKey(args.kind, args.objectId)] == call
    }

    /** The call has returned, and its guard is free. */
    ghost predicate Done(call: Call, args: Args, how: Ending)
      reads this
    {
      && call in applies && applies[call].stage == Returned(how)
      && ObjectKey(args.kind, args.objectId) !in guards
    }

    method Proceed(call: Call, args: Args, ghost from: Stage, ghost to: Stage, added: Option<Entry>)
      requires Doing(call, args, from) && Holding(to)
      modifies this`log, this`applies
      ensures Now() == Go(old(Now()), call, to, added) && Doing(call, args, to)
    {
      if added.Some? { log := log + [added.value]; }
      applies := applies[call := applies[call].(stage := to)];
    }

    method Finish(call: Call, args: Args, ghost from: Stage, how: Ending, added: Option<Entry>)
      requires Doing(call, args, from)
      modifies this`log, this`applies, this`guards
      ensures Now() == Go(old(Now()), call, Returned(how), added) && Done(call, args, how)
      ensures guards == old(guards) - {ObjectKey(args.kind, args.objectId)}
    {
      if added.Some? { log := log + [added.value]; }
      applies := applies[call := applies[call].(stage := Returned(how))];
      guards := guards - {ObjectKey(args.kind, args.objectId)};
    }

    /** The whole plan call: checks on the patch and the organisation, the read, the merge, the
        record, and in lab mode its waiver. `id` stands for the random identifier. */
    method PlanMistChange(call: Call, owner: string, verb: Verb, kind: WanObject, objectId: Option<string>, org: string,
                          patch: Json, id: string, now: nat, insertPersists: bool, waivePersists: bool)
      returns (planned: bool, ghost events: seq<Event>)
      requires call !in plans && id !in coordinator.records
      modifies this, coordinator
      ensures Run(c, old(Now()), events) == Some(Now())
      ensures guards == old(guards) && plans == old(plans) && objects == old(objects)
      ensures
        var staged :=
          && GuardsPass(patch) && org in c.allowedOrgs && insertPersists
          && (verb.Create? || (objectId.Some? && c.resolve(kind, org, objectId.value) in old(objects)));
        && (planned <==> staged && (c.labMode ==> waivePersists))
        && (!staged ==> coordinator.records == old(coordinator.records))
        && (staged ==>
              var before := if verb.Create? then Null else old(objects)[c.resolve(kind, org, objectId.value)];
              var after, device := Merged(before, patch), ObjectKey(kind, objectId);
              var fingerprint := if before.Null? then CreateMarker else Sha256(before);
              coordinator.records == old(coordinator.records)[
                id := Record(id, owner, device, fingerprint, Action(kind, after),
                             Digest(owner, device, fingerprint, Action(kind, after)), Preview(before, after, org),
                             now + 3600, if c.labMode && waivePersists then Approved else Planned,
                             if c.labMode && waivePersists then Waived else Unapproved, now + 3600, false)])
      ensures Reachable(c, old(Now())) ==> Reachable(c, Now())
    {
      planned, events := false, [];
      if RejectConfigAuthority(patch).Refused? || RejectRedactionPlaceholder(patch).Refused? || org !in c.allowedOrgs {
        ReachesOn(c, old(Now()), events, Now());
        return;
      }
      ghost var middle := Now();
      var before;
      before, events := ReadForPlan(call, owner, verb, kind, objectId, org, patch);
      hide *;
      if before.None? {
        ReachesOn(c, old(Now()), events, Now());
        return;
      }
      middle := Now();
      var after := MergePatch.MergePatch(before.value, patch);
      ghost var more;
      planned, more :=
        StageAndWaive(call, owner, kind, objectId, org, before.value, after, id, now, insertPersists, waivePersists);
      RunAppend(c, old(Now()), events, middle, more, Now());
      events := events + more;
      ReachesOn(c, old(Now()), events, Now());
    }

    /** The record as planned is stored, and in lab mode approved at once. */
    method StageAndWaive(call: Call, owner: string, kind: WanObject, objectId: Option<string>, org: string,
                         before: Json, after: Json, id: string, now: nat, insertPersists: bool, waivePersists: bool)
      returns (planned: bool, ghost events: seq<Event>)
      requires call in plans && plans[call] == Proposed(owner, kind, objectId, org, before, after)
      requires id !in coordinator.records
      modifies this, coordinator
      ensures Run(c, old(Now()), events) == Some(Now())
      ensures guards == old(guards) && objects == old(objects) && plans == old(plans) - {call}
      ensures planned <==> insertPersists && (c.labMode ==> waivePersists)
      ensures !insertPersists ==> coordinator.records == old(coordinator.records)
      ensures insertPersists ==>
                var device := ObjectKey(kind, objectId);
                var fingerprint := if before.Null? then CreateMarker else Sha256(before);
                coordinator.records == old(coordinator.records)[
                  id := Record(id, owner, device, fingerprint, Action(kind, after),
                               Digest(owner, device, fingerprint, Action(kind, after)), Preview(before, after, org),
                               now + 3600, if c.labMode && waivePersists then Approved else Planned,
                               if c.labMode && waivePersists then Waived else Unapproved, now + 3600, false)]
    {
      StagedIs(id, owner, kind, objectId, org, before, after, now);
      hide *;
      planned, events := StagePlan(call, owner, kind, objectId, org, before, after, id, now, insertPersists);
      if planned && c.labMode {
        ghost var middle, more := Now(), [];
        planned, more := WaiveOwnPlan(call, id, waivePersists);
        RunAppend(c, old(Now()), events, middle, more, Now());
        events := events + more;
      }
    }

    method ReadForPlan(call: Call, owner: string, verb: Verb, kind: WanObject, objectId: Option<string>, org: string,
                       patch: Json)
      returns (before: Option<Json>, ghost events: seq<Event>)
      requires call !in plans && GuardsPass(patch) && org in c.allowedOrgs
      modifies this
      ensures Run(c, old(Now()), events) == Some(Now()) && guards == old(guards) && objects == old(objects)
      ensures before == if verb.Create? then Some(Null)
                        else if objectId.Some? && c.resolve(kind, org, objectId.value) in objects
                        then Some(objects[c.resolve(kind, org, objectId.value)]) else None
      ensures before.None? ==> plans == old(plans)
      ensures before.Some? ==>
                plans == old(plans)[
                  call := Proposed(owner, kind, objectId, org, before.value, Merged(before.value, patch))]
    {
      events := [];
      if verb.Update? {
        if objectId.None? { return None, []; }
        var target := c.resolve(kind, org, objectId.value);
        if target !in objects { return None, []; }
        before := Some(objects[target]);
        log := log + [PlanRead(call, target, objects[target])];
      } else {
        before := Some(Null);
      }
      plans := plans[call := Proposed(owner, kind, objectId, org, before.value, Merged(before.value, patch))];
      ghost var e := Propose(call, owner, verb, kind, objectId, org, patch);
      hide Merged;
      assert Next(c, old(Now()), e) == Some(Now());
      hide Next;
      RunOne(c, old(Now()), e, Now());
      events := [e];
    }

    method StagePlan(call: Call, owner: string, kind: WanObject, objectId: Option<string>, org: string,
                     before: Json, after: Json, id: string, now: nat, persists: bool)
      returns (ok: bool, ghost events: seq<Event>)
      requires call in plans && plans[call] == Proposed(owner, kind, objectId, org, before, after)
      requires id !in coordinator.records
      modifies this, coordinator
      ensures Run(c, old(Now()), events) == Some(Now()) && guards == old(guards) && objects == old(objects)
      ensures ok == persists
      ensures coordinator.records ==
              if ok then old(coordinator.records)[id := Staged(id, owner, kind, objectId, org, before, after, now)]
              else old(coordinator.records)
      ensures plans == if ok && c.labMode then old(plans)[call := AwaitingWaiver(id)] else old(plans) - {call}
    {
      var r := Staged(id, owner, kind, objectId, org, before, after, now);
      var outcome := coordinator.InsertChangeSet(r, persists);
      ok := outcome.Changed?;
      if ok && c.labMode { plans := plans[call := AwaitingWaiver(id)]; } else { plans := plans - {call}; }
      if ok { log := log + [RecordStaged(Plan(r))]; }
      ghost var e := Insert(call, id, now, persists);
      assert r.id == id;
      hide Staged;
      assert Next(c, old(Now()), e) == Some(Now());
      hide Next;
      RunOne(c, old(Now()), e, Now());
      events := [e];
    }

    method WaiveOwnPlan(call: Call, id: string, persists: bool) returns (ok: bool, ghost events: seq<Event>)
      requires call in plans && plans[call] == AwaitingWaiver(id) && id in coordinator.records && c.labMode
      requires coordinator.records[id].state == Planned
      modifies this, coordinator
      ensures Run(c, old(Now()), events) == Some(Now()) && guards == old(guards) && plans == old(plans) - {call}
      ensures ok == persists && objects == old(objects)
      ensures
        var r := old(coordinator.records)[id];
        coordinator.records ==
        if ok then old(coordinator.records)[id := r.(state := Approved, approval := Waived)]
        else old(coordinator.records)
    {
      var r := coordinator.records[id];
      var outcome := coordinator.WaiveApproval(id, r.device, r.digest, persists);
      ok := outcome.Changed?;
      plans := plans - {call};
      if ok { log := log + [ApprovalWaived(id, r.expiresAt)]; }
      ghost var e := Waive(call, persists);
      assert Next(c, old(Now()), e) == Some(Now());
      hide Next;
      RunOne(c, old(Now()), e, Now());
      events := [e];
    }

    /** An approval. It succeeds only for a verified human other than the plan's owner who echoes
        the stored digest of a plan still open; a caller without a token never is one. */
    method ApproveMistChangeSet(caller: Option<Caller>, id: string, kind: WanObject, objectId: Option<string>,
                                echoed: Digest, now: nat, expiresAt: nat, persists: bool)
      returns (approved: bool, ghost events: seq<Event>)
      modifies this, coordinator
      ensures Run(c, old(Now()), events) == Some(Now())
      ensures Reachable(c, old(Now())) ==> Reachable(c, Now())
      ensures
        var records, device := old(coordinator.records), ObjectKey(kind, objectId);
        approved <==>
          && caller.Some? && caller.value.actor == Human && persists
          && Holds(records, id, device) && records[id].owner != caller.value.name
          && records[id].state == Planned && now <= records[id].expiresAt && records[id].digest == echoed
      ensures !approved ==> coordinator.records == old(coordinator.records)
      ensures approved ==>
                coordinator.records == old(coordinator.records)[
                  id := old(coordinator.records)[id].(
                    state := Approved, approval := Granted(caller.value.name, Human, echoed), expiresAt := expiresAt)]
      ensures objects == old(objects) && guards == old(guards)
    {
      var approver := if caller.Some? then caller.value.name else "stdio";
      var actor := ActorTypeOf(if caller.Some? then Some(caller.value.actor) else None);
      var device := ObjectKey(kind, objectId);
      var outcome := coordinator.ApproveChangeSet(id, device, approver, actor, echoed, now, expiresAt, persists);
      approved := outcome.Changed?;
      if approved { log := log + [ApprovalGranted(id, approver, actor, echoed, expiresAt)]; }
      ghost var e := Approve(id, device, approver, actor, echoed, now, expiresAt, persists);
      events := [e];
      assert Next(c, old(Now()), e) == Some(Now());
      hide Next;
      RunOne(c, old(Now()), e, Now());
      ReachesOn(c, old(Now()), events, Now());
    }

    /** Step 2 and 3: the record must be there, approved and unexpired. */
    method FetchApproved(call: Call, args: Args, now: nat) returns (p: Progress, ghost events: seq<Event>)
      requires Doing(call, args, Fetching)
      modifies this
      ensures Run(c, old(Now()), events) == Some(Now())
      ensures p.End? ==> Done(call, args, p.how) && guards == old(guards) - {ObjectKey(args.kind, args.objectId)}
      ensures p.Continue? ==>
                && guards == old(guards)
                && Doing(call, args, if IsCreate(p.r) then CheckingOrg(p.r) else ReadingDrift(p.r))
      ensures p.Continue? && !IsCreate(p.r) ==> args.objectId.Some?
      ensures p == AfterFetch(coordinator.records, args, now) && objects == old(objects)
    {
      var device := ObjectKey(args.kind, args.objectId);
      events := [Fetch(call, now)];
      var found := coordinator.ChangeSet(args.id, device);
      if found.None? {
        p := End(NoSuchRecord);
      } else if found.value.state != Approved {
        p := End(NotApproved);
      } else if now > found.value.expiresAt {
        p := End(ApprovalExpired);
      } else if !IsCreate(found.value) && args.objectId.None? {
        p := End(MissingObjectId);
      } else {
        p := Continue(found.value);
      }
      if p.End? {
        Finish(call, args, Fetching, p.how, None);
      } else {
        Proceed(call, args, Fetching, if IsCreate(p.r) then CheckingOrg(p.r) else ReadingDrift(p.r),
                Some(Fetched(call, args.id, now, p.r.expiresAt)));
      }
      hide Go;
      hide IsCreate;
      RunOne(c, old(Now()), Fetch(call, now), Now());
    }

    /** Step 4: the object must still be what the plan read. */
    method CheckDrift(call: Call, args: Args, r: Record, k: Circumstances)
      returns (p: Progress, ghost events: seq<Event>)
      requires Doing(call, args, ReadingDrift(r)) && args.objectId.Some?
      modifies this, coordinator
      ensures Run(c, old(Now()), events) == Some(Now())
      ensures p.End? ==> Done(call, args, p.how) && guards == old(guards) - {ObjectKey(args.kind, args.objectId)}
      ensures p.Continue? ==> p.r == r && guards == old(guards) && Doing(call, args, CheckingOrg(r))
      ensures p == AfterDrift(c, old(objects), args, r, k.driftReadable) && objects == old(objects)
      ensures coordinator.records == if p == End(DriftFound) then
                                       Spent(old(coordinator.records), args.id, ObjectKey(args.kind, args.objectId), k)
                                     else old(coordinator.records)
    {
      var drifted;
      p, drifted := CompareFingerprints(call, args, r, k.driftReadable);
      events := [ReadDrift(call, k.driftReadable)];
      RunOne(c, old(Now()), ReadDrift(call, k.driftReadable), Now());
      if drifted {
        ghost var middle, more := Now(), [];
        hide *;
        p, more := SpendDriftedApproval(call, args, r, k);
        RunAppend(c, old(Now()), events, middle, more, Now());
        events := events + more;
      }
    }

    method CompareFingerprints(call: Call, args: Args, r: Record, readable: bool) returns (p: Progress, drifted: bool)
      requires Doing(call, args, ReadingDrift(r)) && args.objectId.Some?
      modifies this
      ensures Next(c, old(Now()), ReadDrift(call, readable)) == Some(Now())
      ensures p.End? ==> Done(call, args, p.how) && guards == old(guards) - {ObjectKey(args.kind, args.objectId)}
      ensures p.End? ==> !drifted
      ensures p.Continue? ==>
                && p.r == r && guards == old(guards)
                && Doing(call, args, if drifted then ClaimingDrift(r) else CheckingOrg(r))
      ensures AfterDrift(c, old(objects), args, r, readable) == if drifted then End(DriftFound) else p
      ensures objects == old(objects)
    {
      var target := c.resolve(args.kind, r.preview.orgId, args.objectId.value);
      drifted := false;
      if !readable || target !in objects {
        p := End(ReadFailed);
        Finish(call, args, ReadingDrift(r), ReadFailed, None);
        return;
      }
      p, drifted := Continue(r), Sha256(objects[target]) != r.fingerprint;
      if drifted {
        Proceed(call, args, ReadingDrift(r), ClaimingDrift(r), None);
      } else {
        Proceed(call, args, ReadingDrift(r), CheckingOrg(r), Some(DriftChecked(call, args.id, target)));
      }
    }

    /** A drifted plan is claimed and settled as failed, so that its approval is spent. */
    method SpendDriftedApproval(call: Call, args: Args, r: Record, k: Circumstances)
      returns (p: Progress, ghost events: seq<Event>)
      requires Doing(call, args, ClaimingDrift(r))
      modifies this, coordinator
      ensures Run(c, old(Now()), events) == Some(Now())
      ensures p == End(DriftFound) && Done(call, args, DriftFound)
      ensures guards == old(guards) - {ObjectKey(args.kind, args.objectId)}
      ensures objects == old(objects)
      ensures coordinator.records ==
              Spent(old(coordinator.records), args.id, ObjectKey(args.kind, args.objectId), k)
    {
      SpentInTwo(coordinator.records, args.id, ObjectKey(args.kind, args.objectId), k);
      events := [ClaimDrift(call, k.claimPersists)];
      p := End(DriftFound);
      var claimed := ClaimAsDrifted(call, args, r, k.claimPersists);
      RunOne(c, old(Now()), ClaimDrift(call, k.claimPersists), Now());
      if claimed.Some? {
        ghost var middle, more := Now(), [SettleDrift(call, k.updatePersists)];
        hide *;
        Settle(call, args, SettlingDrift(claimed.value), claimed.value, Failed, k.updatePersists, DriftFound);
        SettledDrift(c, middle, call, args, claimed.value, k.updatePersists, Now());
        RunOne(c, middle, SettleDrift(call, k.updatePersists), Now());
        RunAppend(c, old(Now()), events, middle, more, Now());
        events := events + more;
      }
    }

    method ClaimAsDrifted(call: Call, args: Args, r: Record, persists: bool) returns (claimed: Option<Record>)
      requires Doing(call, args, ClaimingDrift(r))
      modifies this, coordinator
      ensures Next(c, old(Now()), ClaimDrift(call, persists)) == Some(Now())
      ensures claimed.None? ==>
                Done(call, args, DriftFound) && guards == old(guards) - {ObjectKey(args.kind, args.objectId)}
      ensures claimed.Some? ==> guards == old(guards) && Doing(call, args, SettlingDrift(claimed.value))
      ensures objects == old(objects)
      ensures
        var outcome :=
          ClaimOutcome(old(coordinator.records), args.id, ObjectKey(args.kind, args.objectId), false, persists);
        && coordinator.records == (if outcome.Changed? then outcome.store else old(coordinator.records))
        && claimed == if outcome.Changed? then Some(outcome.store[args.id]) else None
    {
      var outcome := coordinator.ClaimChangeSetForApply(args.id, ObjectKey(args.kind, args.objectId), false, persists);
      if outcome.Refused? {
        Finish(call, args, ClaimingDrift(r), DriftFound, None);
        return None;
      }
      claimed := Some(coordinator.records[args.id]);
      Proceed(call, args, ClaimingDrift(r), SettlingDrift(claimed.value), Some(Claimed(call, args.id, false)));
    }

    /** The last update: the call's copy in its final state, if the coordinator takes it. */
    method Settle(call: Call, args: Args, ghost from: Stage, r: Record, state: State, persists: bool, how: Ending)
      requires Doing(call, args, from) && state in {Applied, Failed}
      modifies this, coordinator
      ensures Now() == Conclude(old(Now()), call, r, state, persists, how)
      ensures coordinator.records == Stored(old(coordinator.records), r.(state := state), persists)
      ensures Done(call, args, how) && guards == old(guards) - {ObjectKey(args.kind, args.objectId)}
      ensures objects == old(objects)
    {
      var outcome := coordinator.UpdateChangeSet(r.(state := state), persists);
      if outcome.Refused? {
        Finish(call, args, from, how, Some(UpdateRefused(call, r.id)));
      } else {
        Finish(call, args, from, how, Some(Settled(call, r.id, state)));
      }
    }

    /** The organisation check, the intent record and step 5, the claim. */
    method ClaimForWrite(call: Call, args: Args, r: Record, k: Circumstances)
      returns (p: Progress, ghost events: seq<Event>)
      requires Doing(call, args, CheckingOrg(r))
      modifies this, coordinator
      ensures Run(c, old(Now()), events) == Some(Now())
      ensures p.End? ==> Done(call, args, p.how) && guards == old(guards) - {ObjectKey(args.kind, args.objectId)}
      ensures p.Continue? ==> guards == old(guards) && Doing(call, args, Writing(p.r))
      ensures p == AfterClaim(c, old(coordinator.records), args, r, k) && objects == old(objects)
      ensures coordinator.records ==
              if p.End? then old(coordinator.records) else old(coordinator.records)[args.id := p.r]
    {
      hide *;
      ClaimDecided(c, coordinator.records, args, r, k);
      p := AllowOrg(call, args, r);
      events := [CheckOrg(call)];
      RunOne(c, old(Now()), CheckOrg(call), Now());
      if p.End? { return; }
      ghost var middle := Now();
      p := PersistIntent(call, args, r, k.intentPersists);
      RunOne(c, middle, RecordIntent(call, k.intentPersists), Now());
      RunAppend(c, old(Now()), events, middle, [RecordIntent(call, k.intentPersists)], Now());
      events := events + [RecordIntent(call, k.intentPersists)];
      if p.End? { return; }
      middle := Now();
      p := TakeClaim(call, args, r, k.claimPersists);
      RunOne(c, middle, Claim(call, k.claimPersists), Now());
      RunAppend(c, old(Now()), events, middle, [Claim(call, k.claimPersists)], Now());
      events := events + [Claim(call, k.claimPersists)];
    }

    method AllowOrg(call: Call, args: Args, r: Record) returns (p: Progress)
      requires Doing(call, args, CheckingOrg(r))
      modifies this
      ensures Next(c, old(Now()), CheckOrg(call)) == Some(Now())
      ensures p.End? ==> Done(call, args, p.how) && guards == old(guards) - {ObjectKey(args.kind, args.objectId)}
      ensures p.Continue? ==> p.r == r && guards == old(guards) && Doing(call, args, RecordingIntent(r))
      ensures p.End? <==> r.preview.orgId !in c.allowedOrgs
      ensures p.End? ==> p.how == OrgDenied
      ensures objects == old(objects)
    {
      if r.preview.orgId !in c.allowedOrgs {
        p := End(OrgDenied);
        Finish(call, args, CheckingOrg(r), OrgDenied, None);
      } else {
        p := Continue(r);
        Proceed(call, args, CheckingOrg(r), RecordingIntent(r), None);
      }
    }

    method PersistIntent(call: Call, args: Args, r: Record, persists: bool) returns (p: Progress)
      requires Doing(call, args, RecordingIntent(r))
      modifies this
      ensures Next(c, old(Now()), RecordIntent(call, persists)) == Some(Now())
      ensures p.End? ==> Done(call, args, p.how) && guards == old(guards) - {ObjectKey(args.kind, args.objectId)}
      ensures p.Continue? ==> p.r == r && guards == old(guards) && Doing(call, args, Claiming(r))
      ensures p.End? <==> c.recorder && !persists
      ensures p.End? ==> p.how == IntentRefused
      ensures objects == old(objects)
    {
      if c.recorder && !persists {
        p := End(IntentRefused);
        Finish(call, args, RecordingIntent(r), IntentRefused, None);
      } else {
        p := Continue(r);
        Proceed(call, args, RecordingIntent(r), Claiming(r),
                if c.recorder then Some(IntentPersisted(call, r.id)) else None);
      }
    }

    method TakeClaim(call: Call, args: Args, r: Record, persists: bool) returns (p: Progress)
      requires Doing(call, args, Claiming(r))
      modifies this, coordinator
      ensures Next(c, old(Now()), Claim(call, persists)) == Some(Now())
      ensures p.End? ==> Done(call, args, p.how) && guards == old(guards) - {ObjectKey(args.kind, args.objectId)}
      ensures p.Continue? ==> guards == old(guards) && Doing(call, args, Writing(p.r))
      ensures
        var key := ObjectKey(args.kind, args.objectId);
        var outcome := ClaimOutcome(old(coordinator.records), args.id, key, true, persists);
        && p == (if outcome.Refused? then End(ClaimRefused) else Continue(outcome.store[args.id]))
        && coordinator.records == if p.End? then old(coordinator.records) else old(coordinator.records)[args.id := p.r]
      ensures objects == old(objects)
    {
      var outcome := coordinator.ClaimChangeSetForApply(args.id, ObjectKey(args.kind, args.objectId), true, persists);
      if outcome.Refused? {
        p := End(ClaimRefused);
        Finish(call, args, Claiming(r), ClaimRefused, None);
      } else {
        p := Continue(coordinator.records[args.id]);
        Proceed(call, args, Claiming(r), Writing(p.r), Some(Claimed(call, args.id, true)));
      }
    }

    /** Step 6: the write, which Mist may or may not carry out, and its reply. */
    method IssueWrite(call: Call, args: Args, r: Record, k: Circumstances)
      returns (p: Progress, finalId: Option<string>, ghost events: seq<Event>)
      requires Doing(call, args, Writing(r))
      modifies this, coordinator
      ensures Run(c, old(Now()), events) == Some(Now())
      ensures p.End? ==> Done(call, args, p.how) && guards == old(guards) - {ObjectKey(args.kind, args.objectId)}
      ensures p.Continue? ==>
                && p.r == r && guards == old(guards)
                && Doing(call, args, if finalId.Some? then Verifying(r, finalId.value) else Receipting(r, Unnamed))
      ensures objects == Written(c, old(objects), args, r, k.landing)
      ensures p == if k.reply.NoResponse? then End(WriteFailed) else Continue(r)
      ensures finalId == ReplyId(args, r, k.reply)
      ensures k.reply.Response? ==> finalId == if IsCreate(r) then k.reply.id
                                               else if args.objectId.Some? then args.objectId else Some("new")
      ensures coordinator.records ==
              if p.End? then Stored(old(coordinator.records), r.(state := Failed), k.updatePersists)
              else old(coordinator.records)
    {
      ReplyIdIs(args, r, k.reply);
      hide *;
      SendBody(call, args, r);
      events := [Send(call)];
      RunOne(c, old(Now()), Send(call), Now());
      ghost var middle := Now();
      ghost var landed, more := LetLand(call, args, r, k.landing);
      RunAppend(c, old(Now()), events, middle, more, Now());
      events := events + more;
      middle := Now();
      p, finalId := TakeReply(call, args, r, landed, k.reply);
      RunOne(c, middle, Return(call, k.reply), Now());
      RunAppend(c, old(Now()), events, middle, [Return(call, k.reply)], Now());
      events := events + [Return(call, k.reply)];
      if k.reply.NoResponse? {
        middle := Now();
        p := End(WriteFailed);
        SettleAsFailed(call, args, r, k.updatePersists);
        RunOne(c, middle, SettleUnanswered(call, k.updatePersists), Now());
        RunAppend(c, old(Now()), events, middle, [SettleUnanswered(call, k.updatePersists)], Now());
        events := events + [SettleUnanswered(call, k.updatePersists)];
      }
    }

    method SettleAsFailed(call: Call, args: Args, r: Record, persists: bool)
      requires Doing(call, args, SettlingUnanswered(r))
      modifies this, coordinator
      ensures Next(c, old(Now()), SettleUnanswered(call, persists)) == Some(Now())
      ensures Done(call, args, WriteFailed) && guards == old(guards) - {ObjectKey(args.kind, args.objectId)}
      ensures objects == old(objects)
      ensures coordinator.records == Stored(old(coordinator.records), r.(state := Failed), persists)
    {
      hide Conclude;
      Settle(call, args, SettlingUnanswered(r), r, Failed, persists, WriteFailed);
      SettledUnanswered(c, old(Now()), call, args, r, persists, Now());
      hide Next;
    }

    method SettleAsFound(call: Call, args: Args, r: Record, finding: Finding, persists: bool) returns (how: Ending)
      requires Doing(call, args, Settling(r, finding))
      modifies this, coordinator
      ensures Next(c, old(Now()), ApplyProtocol.Settle(call, persists)) == Some(Now())
      ensures Done(call, args, how) && guards == old(guards) - {ObjectKey(args.kind, args.objectId)}
      ensures objects == old(objects) && how == EndingFor(finding, persists)
      ensures coordinator.records == Stored(old(coordinator.records), r.(state := StateFor(finding)), persists)
    {
      hide Conclude;
      how := EndingFor(finding, persists);
      Settle(call, args, Settling(r, finding), r, StateFor(finding), persists, how);
      SettledVerdict(c, old(Now()), call, args, r, finding, persists, Now());
      hide Next;
    }

    method SendBody(call: Call, args: Args, r: Record)
      requires Doing(call, args, Writing(r))
      modifies this
      ensures Next(c, old(Now()), Send(call)) == Some(Now())
      ensures guards == old(guards) && Doing(call, args, InFlight(r, false))
      ensures objects == old(objects)
    {
      Proceed(call, args, Writing(r), InFlight(r, false), Some(Sent(call, r.id, r.preview.after)));
    }

    /** What Mist does with the request. */
    method LetLand(call: Call, args: Args, r: Record, landing: Option<(string, Json)>)
      returns (ghost landed: bool, ghost events: seq<Event>)
      requires Doing(call, args, InFlight(r, false))
      modifies this
      ensures Run(c, old(Now()), events) == Some(Now()) && guards == old(guards)
      ensures Doing(call, args, InFlight(r, landed))
      ensures objects == Written(c, old(objects), args, r, landing)
    {
      landed, events := false, [];
      if landing.None? { return; }
      var createdId, result := landing.value.0, landing.value.1;
      var target := if IsCreate(r) then Target(args.kind, r.preview.orgId, createdId)
                    else c.resolve(args.kind, r.preview.orgId, IdText(args.objectId));
      if IsCreate(r) == (target in objects) { return; }
      var replaced := if IsCreate(r) then None else Some(objects[target]);
      objects := objects[target := result];
      Proceed(call, args, InFlight(r, false), InFlight(r, true), Some(Landed(call, r.id, target, replaced)));
      landed, events := true, [Land(call, createdId, result)];
      LandsThere(c, old(Now()), call, args, r, createdId, result, target, Now());
      hide *;
      RunOne(c, old(Now()), Land(call, createdId, result), Now());
    }

    method TakeReply(call: Call, args: Args, r: Record, ghost landed: bool, reply: Reply)
      returns (p: Progress, finalId: Option<string>)
      requires Doing(call, args, InFlight(r, landed))
      modifies this
      ensures Next(c, old(Now()), Return(call, reply)) == Some(Now()) && guards == old(guards) && p == Continue(r)
      ensures Doing(call, args, if reply.NoResponse? then SettlingUnanswered(r)
                                else if finalId.Some? then Verifying(r, finalId.value) else Receipting(r, Unnamed))
      ensures objects == old(objects) && finalId == ReplyId(args, r, reply)
    {
      p := Continue(r);
      finalId := if reply.NoResponse? then None else if IsCreate(r) then reply.id else Some(IdText(args.objectId));
      if reply.NoResponse? {
        Proceed(call, args, InFlight(r, landed), SettlingUnanswered(r), None);
      } else {
        Proceed(call, args, InFlight(r, landed),
                if finalId.Some? then Verifying(r, finalId.value) else Receipting(r, Unnamed),
                Some(Answered(call, r.id, reply.id)));
      }
    }

    /** Step 7: read the object back and compare it with what was sent. */
    method ReadBack(call: Call, args: Args, r: Record, finalId: string, readable: bool) returns (finding: Finding)
      requires Doing(call, args, Verifying(r, finalId))
      modifies this
      ensures Next(c, old(Now()), Verify(call, readable)) == Some(Now()) && guards == old(guards)
      ensures Doing(call, args, Receipting(r, finding))
      ensures objects == old(objects)
      ensures finding == if ReadsBack(c, objects, args, r, Some(finalId), readable) then Verified else Differs
    {
      var target := c.resolve(args.kind, r.preview.orgId, finalId);
      var found := if readable && target in objects then Some(objects[target]) else None;
      finding := Compared(found, r.preview.after);
      Proceed(call, args, Verifying(r, finalId), Receipting(r, finding), Some(VerifyRead(call, r.id, target, found)));
    }

    method GiveReceipt(call: Call, args: Args, r: Record, finding: Finding, persists: bool)
      requires Doing(call, args, Receipting(r, finding))
      modifies this
      ensures Next(c, old(Now()), EmitReceipt(call, persists)) == Some(Now()) && guards == old(guards)
      ensures Doing(call, args, Settling(r, finding))
      ensures objects == old(objects)
    {
      Proceed(call, args, Receipting(r, finding), Settling(r, finding),
              if !c.recorder then None
              else if persists then Some(Receipt(call, r.id, finding.Verified?))
              else Some(ReceiptLost(call, r.id)));
    }

    /** Step 7's receipt and step 8: the receipt first, then the stored state. */
    method ReportAndSettle(call: Call, args: Args, r: Record, finding: Finding, k: Circumstances)
      returns (how: Ending, ghost events: seq<Event>)
      requires Doing(call, args, Receipting(r, finding))
      modifies this, coordinator
      ensures Run(c, old(Now()), events) == Some(Now())
      ensures Done(call, args, how) && guards == old(guards) - {ObjectKey(args.kind, args.objectId)}
      ensures objects == old(objects) && how == EndingFor(finding, k.updatePersists)
      ensures coordinator.records == Stored(old(coordinator.records), r.(state := StateFor(finding)), k.updatePersists)
    {
      hide *;
      GiveReceipt(call, args, r, finding, k.receiptPersists);
      events := [EmitReceipt(call, k.receiptPersists)];
      RunOne(c, old(Now()), EmitReceipt(call, k.receiptPersists), Now());
      ghost var middle, last := Now(), ApplyProtocol.Settle(call, k.updatePersists);
      how := SettleAsFound(call, args, r, finding, k.updatePersists);
      RunOne(c, middle, last, Now());
      RunAppend(c, old(Now()), events, middle, [last], Now());
      events := events + [last];
    }

    /** Step 1 onward. Nobody else holds the guard, so the call has it at once; whichever way the
        call returns, the guard is free again. */
    method ApplyMistChangeSet(call: Call, args: Args, k: Circumstances) returns (how: Ending, ghost events: seq<Event>)
      requires call !in applies && ObjectKey(args.kind, args.objectId) !in guards
      modifies this, coordinator
      ensures Run(c, old(Now()), events) == Some(Now())
      ensures Done(call, args, how) && guards == old(guards)
      ensures Reachable(c, old(Now())) ==> Reachable(c, Now())
      ensures how == Foreseen(c, old(coordinator.records), old(objects), args, k)
      ensures objects == ForeseenObjects(c, old(coordinator.records), old(objects), args, k)
      ensures
        var records := old(coordinator.records);
        (args.id in records ==> records[args.id].id == args.id) ==>
          coordinator.records == Left(records, args.id, how, k)
    {
      hide *;
      CallDecided(c, coordinator.records, objects, args, k);
      if args.id in coordinator.records ==> coordinator.records[args.id].id == args.id {
        CallLeaves(c, coordinator.records, objects, args, k);
      }
      events := EnterGuard(call, args);
      ghost var middle, more := Now(), [];
      var p;
      p, more := PrepareWrite(call, args, k);
      RunAppend(c, old(Now()), events, middle, more, Now());
      events := events + more;
      if p.End? {
        how := p.how;
      } else {
        middle := Now();
        how, more := WriteAndReport(call, args, p.r, k);
        RunAppend(c, old(Now()), events, middle, more, Now());
        events := events + more;
      }
      GuardGivenBack(old(guards), ObjectKey(args.kind, args.objectId), call);
      ReachesOn(c, old(Now()), events, Now());
    }

    /** Steps 2 to 5. */
    method PrepareWrite(call: Call, args: Args, k: Circumstances) returns (p: Progress, ghost events: seq<Event>)
      requires Doing(call, args, Fetching)
      modifies this, coordinator
      ensures Run(c, old(Now()), events) == Some(Now())
      ensures p.End? ==> Done(call, args, p.how) && guards == old(guards) - {ObjectKey(args.kind, args.objectId)}
      ensures p.Continue? ==> guards == old(guards) && Doing(call, args, Writing(p.r))
      ensures p == Prepared(c, old(coordinator.records), old(objects), args, k) && objects == old(objects)
      ensures coordinator.records ==
              if p == End(DriftFound)
              then Spent(old(coordinator.records), args.id, ObjectKey(args.kind, args.objectId), k)
              else if p.End? then old(coordinator.records)
              else old(coordinator.records)[args.id := p.r]
    {
      hide *;
      PreparedDecided(c, coordinator.records, objects, args, k);
      ClaimNeverDrifts(c, coordinator.records, args, k);
      p, events := FindUnchanged(call, args, k);
      if p.Continue? {
        ghost var middle, more := Now(), [];
        p, more := ClaimForWrite(call, args, p.r, k);
        RunAppend(c, old(Now()), events, middle, more, Now());
        events := events + more;
      }
    }

    /** Steps 2 to 4. */
    method FindUnchanged(call: Call, args: Args, k: Circumstances) returns (p: Progress, ghost events: seq<Event>)
      requires Doing(call, args, Fetching)
      modifies this, coordinator
      ensures Run(c, old(Now()), events) == Some(Now())
      ensures p.End? ==> Done(call, args, p.how) && guards == old(guards) - {ObjectKey(args.kind, args.objectId)}
      ensures p.Continue? ==> guards == old(guards) && Doing(call, args, CheckingOrg(p.r))
      ensures
        var found := AfterFetch(old(coordinator.records), args, k.now);
        p == if found.End? || IsCreate(found.r) then found
             else AfterDrift(c, old(objects), args, found.r, k.driftReadable)
      ensures coordinator.records == if p == End(DriftFound) then
                                       Spent(old(coordinator.records), args.id, ObjectKey(args.kind, args.objectId), k)
                                     else old(coordinator.records)
      ensures objects == old(objects)
    {
      FetchNeverDrifts(coordinator.records, args, k.now);
      hide *;
      p, events := FetchApproved(call, args, k.now);
      if p.End? || IsCreate(p.r) { return; }
      ghost var middle, more := Now(), [];
      p, more := CheckDrift(call, args, p.r, k);
      RunAppend(c, old(Now()), events, middle, more, Now());
      events := events + more;
    }

    method EnterGuard(call: Call, args: Args) returns (ghost events: seq<Event>)
      requires call !in applies && ObjectKey(args.kind, args.objectId) !in guards
      modifies this
      ensures Run(c, old(Now()), events) == Some(Now())
      ensures Doing(call, args, Fetching) && guards == old(guards)[ObjectKey(args.kind, args.objectId) := call]
      ensures objects == old(objects)
    {
      hide *;
      Begin(call, args);
      ghost var middle := Now();
      AcquireGuard(call, args);
      ghost var begin, take := BeginApply(call, args.id, args.kind, args.objectId), TakeGuard(call, true);
      RunOne(c, old(Now()), begin, middle);
      RunOne(c, middle, take, Now());
      RunAppend(c, old(Now()), [begin], middle, [take], Now());
      events := [begin] + [take];
    }

    method Begin(call: Call, args: Args)
      requires call !in applies
      modifies this
      ensures Next(c, old(Now()), BeginApply(call, args.id, args.kind, args.objectId)) == Some(Now())
      ensures call in applies && applies[call] == Apply(args.id, args.kind, args.objectId, WaitGuard)
      ensures guards == old(guards) && objects == old(objects)
    {
      applies := applies[call := Apply(args.id, args.kind, args.objectId, WaitGuard)];
    }

    method AcquireGuard(call: Call, args: Args)
      requires call in applies && applies[call] == Apply(args.id, args.kind, args.objectId, WaitGuard)
      requires ObjectKey(args.kind, args.objectId) !in guards
      modifies this
      ensures Next(c, old(Now()), TakeGuard(call, true)) == Some(Now())
      ensures Doing(call, args, Fetching) && guards == old(guards)[ObjectKey(args.kind, args.objectId) := call]
      ensures objects == old(objects)
    {
      guards := guards[ObjectKey(args.kind, args.objectId) := call];
      applies := applies[call := applies[call].(stage := Fetching)];
    }

    method WriteAndReport(call: Call, args: Args, r: Record, k: Circumstances)
      returns (how: Ending, ghost events: seq<Event>)
      requires Doing(call, args, Writing(r))
      modifies this, coordinator
      ensures Run(c, old(Now()), events) == Some(Now())
      ensures Done(call, args, how) && guards == old(guards) - {ObjectKey(args.kind, args.objectId)}
      ensures objects == Written(c, old(objects), args, r, k.landing)
      ensures how == AfterWrite(c, objects, args, r, k)
      ensures coordinator.records ==
              Stored(old(coordinator.records), r.(state := if how == Verdict(true) then Applied else Failed),
                     k.updatePersists)
    {
      hide *;
      var p, finalId;
      p, finalId, events := IssueWrite(call, args, r, k);
      WriteDecided(c, objects, args, r, k);
      if p.End? { return p.how, events; }
      FindingDecides(coordinator.records, r, k.updatePersists);
      var finding := Unnamed;
      ghost var middle, more := Now(), [];
      if finalId.Some? {
        finding := ReadBack(call, args, r, finalId.value, k.verifyReadable);
        RunOne(c, middle, Verify(call, k.verifyReadable), Now());
        RunAppend(c, old(Now()), events, middle, [Verify(call, k.verifyReadable)], Now());
        events := events + [Verify(call, k.verifyReadable)];
        middle := Now();
      }
      how, more := ReportAndSettle(call, args, r, finding, k);
      RunAppend(c, old(Now()), events, middle, more, Now());
      events := events + more;
    }
  }

  lemma ReplyIdIs(args: Args, r: Record, reply: Reply)
    ensures reply.Response? ==>
              ReplyId(args, r, reply) == if IsCreate(r) then reply.id
                                         else if args.objectId.Some? then args.objectId else Some("new")
  {
  }

  lemma StagedIs(id: string, owner: string, kind: WanObject, objectId: Option<string>, org: string, before: Json,
                 after: Json, now: nat)
    ensures
      var device, fingerprint := ObjectKey(kind, objectId), if before.Null? then CreateMarker else Sha256(before);
      Staged(id, owner, kind, objectId, org, before, after, now) ==
      Record(id, owner, device, fingerprint, Action(kind, after),
             Digest(owner, device, fingerprint, Action(kind, after)), Preview(before, after, org),
             now + 3600, Planned, Unapproved, now + 3600, false)
  {
  }

  lemma SpentInTwo(records: Store, id: string, device: string, k: Circumstances)
    ensures
      var outcome := ClaimOutcome(records, id, device, false, k.claimPersists);
      Spent(records, id, device, k) ==
      if outcome.Refused? then records
      else Stored(outcome.store, outcome.store[id].(state := Failed), k.updatePersists)
  {
  }

  lemma ClaimNeverDrifts(c: Config, records: Store, args: Args, k: Circumstances)
    ensures forall r :: AfterClaim(c, records, args, r, k) != End(DriftFound)
  {
  }

  lemma FetchNeverDrifts(records: Store, args: Args, now: nat)
    ensures AfterFetch(records, args, now) != End(DriftFound)
  {
  }

  /** Only a verified finding stores an applied record, and it is then that the call ends verified. */
  lemma FindingDecides(records: Store, r: Record, persists: bool)
    ensures forall finding: Finding ::
              Stored(records, r.(state := StateFor(finding)), persists) ==
              Stored(records, r.(state := if EndingFor(finding, persists) == Verdict(true) then Applied else Failed),
                     persists)
  {
  }

  lemma LandsThere(c: Config, w: World, call: Call, args: Args, r: Record, createdId: string, result: Json,
                   target: Target, w': World)
    requires call in w.applies && w.applies[call] == Apply(args.id, args.kind, args.objectId, InFlight(r, false))
    requires target == if IsCreate(r) then Target(args.kind, r.preview.orgId, createdId)
                    else c.resolve(args.kind, r.preview.orgId, IdText(args.objectId))
    requires IsCreate(r) != (target in w.objects)
    requires w' == Go(w.(objects := w.objects[target := result]), call, InFlight(r, true),
                      Some(Landed(call, r.id, target, if IsCreate(r) then None else Some(w.objects[target]))))
    ensures Next(c, w, Land(call, createdId, result)) == Some(w')
  {
    hide Go;
  }

  lemma SettledDrift(c: Config, w: World, call: Call, args: Args, r: Record, persists: bool, w': World)
    requires call in w.applies && w.applies[call] == Apply(args.id, args.kind, args.objectId, SettlingDrift(r))
    requires w' == Conclude(w, call, r, Failed, persists, DriftFound)
    ensures Next(c, w, SettleDrift(call, persists)) == Some(w')
  {
    hide Conclude;
  }

  lemma GuardGivenBack(guards: map<string, Call>, key: string, call: Call)
    requires key !in guards
    ensures guards[key := call] - {key} == guards
  {
  }

  lemma SettledUnanswered(c: Config, w: World, call: Call, args: Args, r: Record, persists: bool, w': World)
    requires call in w.applies && w.applies[call] == Apply(args.id, args.kind, args.objectId, SettlingUnanswered(r))
    requires w' == Conclude(w, call, r, Failed, persists, WriteFailed)
    ensures Next(c, w, SettleUnanswered(call, persists)) == Some(w')
  {
    hide Conclude;
  }

  lemma SettledVerdict(c: Config, w: World, call: Call, args: Args, r: Record, finding: Finding, persists: bool,
                       w': World)
    requires call in w.applies && w.applies[call] == Apply(args.id, args.kind, args.objectId, Settling(r, finding))
    requires w' == Conclude(w, call, r, StateFor(finding), persists, EndingFor(finding, persists))
    ensures Next(c, w, Settle(call, persists)) == Some(w')
  {
    hide Conclude;
  }
}
