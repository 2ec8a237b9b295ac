/** What single steps, and so whole runs, never undo: a record only moves forward, and a
    call that has returned stays returned and told the truth. */
module ApplyProgress {
  import opened Wrappers
  import opened ChangeSets
  import opened ApplyProtocol
  import opened ApplyLaws
  import opened ApplyFrames
  import opened ApplySteps
  import opened ApplySettlement
  import opened ApplyRuns

  // ----- records only move forward -----

  function Rank(s: State): nat {
    match s
    case Planned => 0
    case Approved => 1
    case Applying => 2
    case Applied => 3
    case Failed => 3
  }

  /** `r'` is a later version of `r`: same plan, no earlier state, untouched while it stays claimed,
      and untouched once final. */
  predicate Later(r: Record, r': Record) {
    && Plan(r') == Plan(r)
    && Rank(r.state) <= Rank(r'.state)
    && (r.state == Applying && r'.state == Applying ==> r' == r)
    && (Rank(r.state) == 3 ==> r' == r)
  }

  ghost predicate OnlyForward(records: Store, records': Store) {
    forall id | id in records :: id in records' && Later(records[id], records'[id])
  }

  lemma ForwardReplaced(records: Store, id: string, r: Record)
    requires id in records ==> Later(records[id], r)
    ensures OnlyForward(records, records[id := r])
  {
  }

  lemma ForwardRecovered(records: Store, records': Store)
    requires forall id | id in records :: id in records' && records'[id] == Recovered(records[id])
    ensures OnlyForward(records, records')
  {
  }

  /** The final update stores a later version of the claimed record. */
  lemma ForwardConclude(c: Config, w: World, call: Call, a: Apply, r: Record, state: State)
    requires Inv(c, w) && call in w.applies && a == w.applies[call] && Concluding(a.stage) && r == a.stage.r
    requires state in {Applied, Failed}
    ensures r.id == a.id && OnlyForward(w.records, w.records[a.id := r.(state := state)])
  {
    CopyIds(c, w, call);
    hide *;
    ReadyToSettle(c, w, call);
    Own(c, w, call);
    ClaimGives(w, call, a, Mode(a.stage));
    CopyAgrees(c, w, call, a, r);
    LaterFinal(w.records[a.id], r, state);
    ForwardReplaced(w.records, a.id, r.(state := state));
  }

  lemma LaterFinal(stored: Record, r: Record, state: State)
    requires Plan(stored) == Plan(r) && stored.state == Applying && state in {Applied, Failed}
    ensures Later(stored, r.(state := state))
  {
  }

  lemma ForwardConcluding(c: Config, w: World, call: Call, a: Apply, r: Record, state: State, ok: bool, how: Ending)
    requires Inv(c, w) && call in w.applies && a == w.applies[call] && Concluding(a.stage) && r == a.stage.r
    requires state in {Applied, Failed}
    ensures OnlyForward(w.records, Conclude(w, call, r, state, ok, how).records)
  {
    ForwardConclude(c, w, call, a, r, state);
    hide *;
    ConcludeRecords(w, call, r, state, ok, how);
    ForwardIdle(w.records);
  }

  lemma ConcludeRecords(w: World, call: Call, r: Record, state: State, ok: bool, how: Ending)
    requires call in w.applies
    ensures
      var records := Conclude(w, call, r, state, ok, how).records;
      records == w.records || records == w.records[r.id := r.(state := state)]
  {
    hide Key;
  }

  /** No step leads back to Approved, or anywhere back; a final record never changes again. */
  lemma StepOnlyForward(c: Config, w: World, e: Event, w': World)
    requires Inv(c, w) && Next(c, w, e) == Some(w')
    ensures OnlyForward(w.records, w'.records)
  {
    hide OnlyForward;
    hide Inv;
    hide Plan;
    match e
    case SettleDrift(call, _) => ForwardFinal(c, w, e, call, w');
    case Settle(call, _) => ForwardFinal(c, w, e, call, w');
    case SettleUnanswered(call, _) => ForwardFinal(c, w, e, call, w');
    case Restart => ForwardRecovered(w.records, w'.records);
    case Insert(_, _, _, _) => ForwardPlanning(c, w, e, w');
    case Waive(_, _) => ForwardPlanning(c, w, e, w');
    case Approve(_, _, _, _, _, _, _, _) => ForwardPlanning(c, w, e, w');
    case ClaimDrift(call, ok) => ForwardClaiming(c, w, call, false, ok, w');
    case Claim(call, ok) => ForwardClaiming(c, w, call, true, ok, w');
    case _ => ForwardIdle(w.records);
  }

  lemma ForwardFinal(c: Config, w: World, e: Event, call: Call, w': World)
    requires e.SettleDrift? || e.Settle? || e.SettleUnanswered?
    requires Inv(c, w) && Next(c, w, e) == Some(w') && e.call == call
    ensures OnlyForward(w.records, w'.records)
  {
    hide *;
    var r, state, ok, how := FinalShape(c, w, e, call, w');
    ForwardConcluding(c, w, call, w.applies[call], r, state, ok, how);
  }

  lemma ForwardIdle(records: Store)
    ensures OnlyForward(records, records)
  {
  }

  lemma ForwardPlanning(c: Config, w: World, e: Event, w': World)
    requires (e.Insert? || e.Waive? || e.Approve?) && Next(c, w, e) == Some(w')
    ensures OnlyForward(w.records, w'.records)
  {
    ForwardIdle(w.records);
    hide OnlyForward;
    match e
    case Insert(call, id, _, _) => if id in w'.records { ForwardReplaced(w.records, id, w'.records[id]); }
    case Waive(call, _) => ForwardReplaced(w.records, w.plans[call].id, w'.records[w.plans[call].id]);
    case Approve(id, _, _, _, _, _, _, _) => if id in w.records { ForwardReplaced(w.records, id, w'.records[id]); }
  }

  lemma ForwardClaiming(c: Config, w: World, call: Call, handleless: bool, ok: bool, w': World)
    requires (if handleless then ClaimStep(w, call, ok) else ClaimDriftStep(w, call, ok)) == Some(w')
    ensures OnlyForward(w.records, w'.records)
  {
    ForwardIdle(w.records);
    hide OnlyForward;
    hide Key;
    var id := w.applies[call].id;
    if id in w.records { ForwardReplaced(w.records, id, w'.records[id]); }
  }

  lemma ForwardTwice(a: Store, b: Store, d: Store)
    requires OnlyForward(a, b) && OnlyForward(b, d)
    ensures OnlyForward(a, d)
  {
  }

  lemma {:induction false} RunOnlyForward(c: Config, w: World, events: seq<Event>, w': World)
    requires Inv(c, w) && Run(c, w, events) == Some(w')
    ensures OnlyForward(w.records, w'.records)
    decreases |events|
  {
    hide Inv;
    hide Next;
    hide OnlyForward;
    if events == [] {
      ForwardIdle(w.records);
    } else {
      var next := Next(c, w, events[0]).value;
      StepKeepsInv(c, w, events[0], next);
      StepOnlyForward(c, w, events[0], next);
      RunOnlyForward(c, next, events[1..], w');
      ForwardTwice(w.records, next.records, w'.records);
    }
  }

  // ----- what a claimed record remembers of its claim -----

  /** A claimed record says whether it was claimed for its write, as its claim does. */
  ghost predicate ClaimRemembered(w: World, id: string) {
    id in w.records && w.records[id].state == Applying ==>
      exists call :: Claimed(call, id, w.records[id].handleless) in w.log
  }

  ghost predicate ClaimsRemembered(w: World) {
    forall id :: ClaimRemembered(w, id)
  }

  /** Only a claim makes a record `Applying`. */
  lemma OnlyClaimsClaim(c: Config, w: World, e: Event, w': World, id: string)
    requires Inv(c, w) && Next(c, w, e) == Some(w') && id in w'.records && w'.records[id].state == Applying
    requires id in w.records ==> w.records[id].state != Applying
    ensures Mover(e).Some? && w'.log == w.log + [Claimed(Mover(e).value, id, w'.records[id].handleless)]
  {
    hide Inv;
    hide Next;
    match e
    case SettleDrift(call, _) => SettlingClaimsNothing(c, w, e, call, w', id);
    case Settle(call, _) => SettlingClaimsNothing(c, w, e, call, w', id);
    case SettleUnanswered(call, _) => SettlingClaimsNothing(c, w, e, call, w', id);
    case ClaimDrift(call, _) => ClaimingClaims(c, w, e, w', id);
    case Claim(call, _) => ClaimingClaims(c, w, e, w', id);
    case Insert(_, _, _, _) => StagingClaimsNothing(c, w, e, w', id);
    case Waive(_, _) => StagingClaimsNothing(c, w, e, w', id);
    case Approve(_, _, _, _, _, _, _, _) => StagingClaimsNothing(c, w, e, w', id);
    case _ => OthersClaimNothing(c, w, e, w', id);
  }

  lemma StagingClaimsNothing(c: Config, w: World, e: Event, w': World, id: string)
    requires (e.Insert? || e.Waive? || e.Approve?) && Next(c, w, e) == Some(w')
    ensures id in w'.records && w'.records[id].state == Applying ==>
              id in w.records && w.records[id].state == Applying
  {
    hide Plan;
    hide Holds;
  }

  lemma OthersClaimNothing(c: Config, w: World, e: Event, w': World, id: string)
    requires Next(c, w, e) == Some(w')
    requires e.Restart? || e.Outside? || e.Propose? || e.BeginApply? || e.TakeGuard? || e.Fetch? || e.ReadDrift? ||
             e.CheckOrg? || e.RecordIntent? || e.Send? || e.Land? || e.Return? || e.Verify? || e.EmitReceipt? ||
             e.Abandon?
    ensures id in w'.records && w'.records[id].state == Applying ==>
              id in w.records && w.records[id].state == Applying
  {
    hide Key;
    hide Holds;
    hide UpdateTarget;
  }

  lemma SettlingClaimsNothing(c: Config, w: World, e: Event, call: Call, w': World, id: string)
    requires e.SettleDrift? || e.Settle? || e.SettleUnanswered?
    requires Inv(c, w) && Next(c, w, e) == Some(w') && e.call == call
    ensures id in w'.records && w'.records[id].state == Applying ==>
              id in w.records && w.records[id].state == Applying
  {
    hide *;
    var r, state, ok, how := FinalShape(c, w, e, call, w');
    ConcludeRecords(w, call, r, state, ok, how);
  }

  lemma ClaimingClaims(c: Config, w: World, e: Event, w': World, id: string)
    requires (e.ClaimDrift? || e.Claim?) && Next(c, w, e) == Some(w')
    requires id in w'.records && w'.records[id].state == Applying
    requires id in w.records ==> w.records[id].state != Applying
    ensures w'.log == w.log + [Claimed(e.call, id, w'.records[id].handleless)]
  {
    hide Key;
  }

  lemma StepClaimsRemembered(c: Config, w: World, e: Event, w': World)
    requires Inv(c, w) && ClaimsRemembered(w) && Next(c, w, e) == Some(w')
    ensures ClaimsRemembered(w')
  {
    hide *;
    StepOnlyForward(c, w, e, w');
    StepLogGrows(c, w, e, w');
    forall id ensures ClaimRemembered(w', id) {
      if id in w'.records && w'.records[id].state == Applying {
        if id in w.records && w.records[id].state == Applying {
          ClaimStillThere(w, w', id);
        } else {
          OnlyClaimsClaim(c, w, e, w', id);
          ClaimJustMade(w, w', Mover(e).value, id);
        }
      } else {
        NothingToRemember(w', id);
      }
    }
    AllRemembered(w');
  }

  lemma NothingToRemember(w: World, id: string)
    requires id in w.records ==> w.records[id].state != Applying
    ensures ClaimRemembered(w, id)
  {
  }

  lemma AllRemembered(w: World)
    requires forall id :: ClaimRemembered(w, id)
    ensures ClaimsRemembered(w)
  {
  }

  lemma ClaimJustMade(w: World, w': World, call: Call, id: string)
    requires id in w'.records && w'.log == w.log + [Claimed(call, id, w'.records[id].handleless)]
    ensures ClaimRemembered(w', id)
  {
    assert w'.log[|w.log|] in w'.log;
  }

  lemma ClaimStillThere(w: World, w': World, id: string)
    requires ClaimsRemembered(w) && OnlyForward(w.records, w'.records) && w.log <= w'.log
    requires id in w.records && w.records[id].state == Applying && id in w'.records && w'.records[id].state == Applying
    ensures ClaimRemembered(w', id)
  {
    assert ClaimRemembered(w, id) && Later(w.records[id], w'.records[id]);
    var call :| Claimed(call, id, w.records[id].handleless) in w.log;
    assert Claimed(call, id, w'.records[id].handleless) in w'.log;
  }

  lemma {:induction false} RunClaimsRemembered(c: Config, w: World, events: seq<Event>, w': World)
    requires Inv(c, w) && ClaimsRemembered(w) && Run(c, w, events) == Some(w')
    ensures ClaimsRemembered(w')
    decreases |events|
  {
    hide Inv;
    hide Next;
    hide ClaimsRemembered;
    if events != [] {
      var next := Next(c, w, events[0]).value;
      StepKeepsInv(c, w, events[0], next);
      StepClaimsRemembered(c, w, events[0], next);
      RunClaimsRemembered(c, next, events[1..], w');
    }
  }

  // ----- a write nobody saw the end of -----

  predicate Stopped(s: Stage) {
    s.Returned? || s.Abandoned?
  }

  /** A record claimed for its write by a call that takes no more steps. */
  ghost predicate Orphaned(w: World, call: Call, r: Record) {
    && Claimed(call, r.id, true) in w.log && call in w.applies && Stopped(w.applies[call].stage)
    && r.id in w.records && w.records[r.id] == r && r.state == Applying && r.handleless
  }

  lemma StoppedStays(c: Config, w: World, e: Event, w': World, call: Call)
    requires Next(c, w, e) == Some(w') && call in w.applies && Stopped(w.applies[call].stage)
    ensures call in w'.applies && Stopped(w'.applies[call].stage) && Mover(e) != Some(call)
  {
    hide Next;
    if Mover(e).None? {
      StoppedIdles(c, w, e, w', call);
    } else if e.SettleDrift? || e.Settle? || e.SettleUnanswered? {
      StoppedWhileConcluding(c, w, e, w', call);
    } else {
      StoppedWhileMoving(c, w, e, w', call);
    }
  }

  lemma StoppedIdles(c: Config, w: World, e: Event, w': World, call: Call)
    requires Next(c, w, e) == Some(w') && Mover(e).None? && call in w.applies && Stopped(w.applies[call].stage)
    ensures call in w'.applies && Stopped(w'.applies[call].stage)
  {
    hide Holds;
    hide Plan;
    hide Staged;
  }

  lemma StoppedWhileConcluding(c: Config, w: World, e: Event, w': World, call: Call)
    requires Next(c, w, e) == Some(w') && (e.SettleDrift? || e.Settle? || e.SettleUnanswered?)
    requires call in w.applies && Stopped(w.applies[call].stage)
    ensures call in w'.applies && Stopped(w'.applies[call].stage) && e.call != call
  {
    hide Key;
  }

  lemma StoppedWhileMoving(c: Config, w: World, e: Event, w': World, call: Call)
    requires Next(c, w, e) == Some(w') && Mover(e).Some? && !e.SettleDrift? && !e.Settle? && !e.SettleUnanswered?
    requires call in w.applies && Stopped(w.applies[call].stage)
    ensures call in w'.applies && Stopped(w'.applies[call].stage) && e.call != call
  {
    hide Key;
    hide Holds;
    hide UpdateTarget;
  }

  lemma OrphanedStays(c: Config, w: World, e: Event, w': World, call: Call, r: Record)
    requires Inv(c, w) && Orphaned(w, call, r) && Next(c, w, e) == Some(w')
    ensures Orphaned(w', call, r)
  {
    StoppedStays(c, w, e, w', call);
    hide *;
    OrphanedParts(w, call, r);
    StepOnlyForward(c, w, e, w');
    StepLogGrows(c, w, e, w');
    StaysClaimed(c, w, e, w', call, r);
    StillOrphaned(w, w', call, r);
  }

  lemma OrphanedParts(w: World, call: Call, r: Record)
    requires Orphaned(w, call, r)
    ensures call in w.applies && Stopped(w.applies[call].stage) && r.id in w.records && w.records[r.id] == r
  {
  }

  lemma StillOrphaned(w: World, w': World, call: Call, r: Record)
    requires Orphaned(w, call, r) && OnlyForward(w.records, w'.records) && w.log <= w'.log
    requires call in w'.applies && Stopped(w'.applies[call].stage)
    requires r.id in w'.records ==> w'.records[r.id].state == Applying
    ensures Orphaned(w', call, r)
  {
    assert Later(w.records[r.id], w'.records[r.id]);
    hide Plan;
  }

  lemma StaysClaimed(c: Config, w: World, e: Event, w': World, call: Call, r: Record)
    requires Inv(c, w) && Orphaned(w, call, r) && Next(c, w, e) == Some(w') && Mover(e) != Some(call)
    ensures r.id in w'.records ==> w'.records[r.id].state == Applying
  {
    hide Inv;
    if e.SettleDrift? || e.Settle? || e.SettleUnanswered? {
      OthersSettleElsewhere(c, w, e, e.call, w', call, r);
    } else {
      hide Key;
      hide Plan;
      hide Staged;
      hide UpdateTarget;
    }
  }

  /** A call settles only the record of its own claim. */
  lemma OthersSettleElsewhere(c: Config, w: World, e: Event, mover: Call, w': World, call: Call, r: Record)
    requires e.SettleDrift? || e.Settle? || e.SettleUnanswered?
    requires Inv(c, w) && Orphaned(w, call, r) && Next(c, w, e) == Some(w') && e.call == mover && mover != call
    ensures r.id in w'.records && w'.records[r.id].state == Applying
  {
    hide *;
    var own, state, ok, how := FinalShape(c, w, e, mover, w');
    ConcludeRecords(w, mover, own, state, ok, how);
    ConcludingHolds(w.applies[mover].stage);
    CopyIds(c, w, mover);
    ReadyToSettle(c, w, mover);
    ClaimGives(w, mover, w.applies[mover], Mode(w.applies[mover].stage));
    Own(c, w, mover);
    OrphanedClaims(c, w, call, r, mover, w.applies[mover].id, Mode(w.applies[mover].stage));
  }

  lemma OrphanedClaims(c: Config, w: World, call: Call, r: Record, other: Call, id: string, handleless: bool)
    requires Inv(c, w) && Orphaned(w, call, r) && other != call && Claimed(other, id, handleless) in w.log
    ensures id != r.id && r.id in w.records && w.records[r.id].state == Applying
  {
    InvParts(c, w);
    hide Inv;
    if id == r.id { ClaimsAreUnique(c, w.log, call, other, id, true, handleless); }
  }

  lemma {:induction false} RunOrphanedStays(c: Config, w: World, events: seq<Event>, w': World, call: Call, r: Record)
    requires Inv(c, w) && Orphaned(w, call, r) && Run(c, w, events) == Some(w')
    ensures Orphaned(w', call, r)
    decreases |events|
  {
    hide Inv;
    hide Next;
    hide Orphaned;
    if events != [] {
      var next := Next(c, w, events[0]).value;
      StepKeepsInv(c, w, events[0], next);
      OrphanedStays(c, w, events[0], next, call, r);
      RunOrphanedStays(c, next, events[1..], w', call, r);
    }
  }

  // ----- what a returned call said -----

  /** The log bears out what the call returned: a verdict is what was stored, an unanswered
      write has no answer, drift sent nothing, and any other early return claimed nothing. */
  ghost predicate Told(log: seq<Entry>, call: Call, id: string, how: Ending) {
    match how
    case Verdict(verified) => Settled(call, id, if verified then Applied else Failed) in log
    case NotPersisted => UpdateRefused(call, id) in log
    case NoIdentifier => Settled(call, id, Failed) in log || UpdateRefused(call, id) in log
    case WriteFailed => forall e | e in log && ByApply(e, call) :: Level(e) <= 6 || Level(e) == 10
    case DriftFound => forall e | e in log && ByApply(e, call) :: Level(e) <= 4 || Level(e) == 10
    case _ => NothingBeyond(log, call, 3)
  }

  ghost predicate Truthful(w: World) {
    forall call | call in w.applies && w.applies[call].stage.Returned? ::
      Told(w.log, call, w.applies[call].id, w.applies[call].stage.how)
  }

  /** A settled change set is stored in the state it was settled in. */
  ghost predicate SettledStored(w: World) {
    forall call, id, state | Settled(call, id, state) in w.log :: StoredAs(w, id, state)
  }

  predicate StoredAs(w: World, id: string, state: State) {
    id in w.records && w.records[id].state == state && Rank(state) == 3
  }

  /** The entry with which a call leaves `stage` to return. */
  predicate Exits(call: Call, stage: Stage, how: Ending, added: Option<Entry>) {
    match how
    case Verdict(verified) =>
      stage.Settling? && added == Some(Settled(call, stage.r.id, if verified then Applied else Failed))
    case NotPersisted => stage.Settling? && added == Some(UpdateRefused(call, stage.r.id))
    case NoIdentifier =>
      stage.Settling? && added in {Some(Settled(call, stage.r.id, Failed)), Some(UpdateRefused(call, stage.r.id))}
    case WriteFailed => stage.SettlingUnanswered? && added.Some? && Level(added.value) == 10
    case DriftFound =>
      (stage.SettlingDrift? && added.Some? && Level(added.value) == 10) || (Reached(stage) <= 3 && added == None)
    case _ => Reached(stage) <= 3 && added == None
  }

  /** The apply call that takes a step. */
  function Mover(e: Event): Option<Call> {
    match e
    case TakeGuard(call, _) => Some(call)
    case Fetch(call, _) => Some(call)
    case ReadDrift(call, _) => Some(call)
    case ClaimDrift(call, _) => Some(call)
    case SettleDrift(call, _) => Some(call)
    case CheckOrg(call) => Some(call)
    case RecordIntent(call, _) => Some(call)
    case Claim(call, _) => Some(call)
    case Send(call) => Some(call)
    case Land(call, _, _) => Some(call)
    case Return(call, _) => Some(call)
    case Verify(call, _) => Some(call)
    case EmitReceipt(call, _) => Some(call)
    case Settle(call, _) => Some(call)
    case SettleUnanswered(call, _) => Some(call)
    case Abandon(call) => Some(call)
    case _ => None
  }

  /** One call's move from `stage`, and what it adds to the log. */
  ghost predicate Moved(w: World, w': World, call: Call, stage: Stage, added: Option<Entry>) {
    && call in w.applies && w.applies[call].stage == stage && !stage.Returned?
    && call in w'.applies && w'.applies == w.applies[call := w.applies[call].(stage := w'.applies[call].stage)]
    && w'.log == Noted(w.log, added)
    && (added.Some? ==> ByApply(added.value, call))
    && (w'.records == w.records || (added.Some? && (added.value.Claimed? || added.value.Settled?)))
    && (w'.applies[call].stage.Returned? ==> Exits(call, stage, w'.applies[call].stage.how, added))
    && (added.Some? && added.value.Settled? ==> StoredAs(w', added.value.id, added.value.final))
  }

  lemma EarlyMoves(c: Config, w: World, e: Event, w': World) returns (added: Option<Entry>)
    requires Next(c, w, e) == Some(w')
    requires e.TakeGuard? || e.Fetch? || e.ReadDrift? || e.CheckOrg? || e.RecordIntent?
    ensures Moved(w, w', e.call, w.applies[e.call].stage, added)
  {
    hide Moved;
    if e.Fetch? || e.ReadDrift? {
      added := ReadingMoves(c, w, e, w');
    } else {
      added := WaitingMoves(c, w, e, w');
    }
  }

  lemma ReadingMoves(c: Config, w: World, e: Event, w': World) returns (added: Option<Entry>)
    requires Next(c, w, e) == Some(w') && (e.Fetch? || e.ReadDrift?)
    ensures Moved(w, w', e.call, w.applies[e.call].stage, added)
  {
    hide Holds;
    hide Key;
    hide UpdateTarget;
    added := if |w'.log| > |w.log| then Some(w'.log[|w.log|]) else None;
  }

  lemma WaitingMoves(c: Config, w: World, e: Event, w': World) returns (added: Option<Entry>)
    requires Next(c, w, e) == Some(w') && (e.TakeGuard? || e.CheckOrg? || e.RecordIntent?)
    ensures Moved(w, w', e.call, w.applies[e.call].stage, added)
  {
    hide Key;
    added := if |w'.log| > |w.log| then Some(w'.log[|w.log|]) else None;
  }

  lemma ClaimMoves(c: Config, w: World, e: Event, w': World) returns (added: Option<Entry>)
    requires Next(c, w, e) == Some(w')
    requires e.ClaimDrift? || e.Claim?
    ensures Moved(w, w', e.call, w.applies[e.call].stage, added)
  {
    hide Moved;
    if e.Claim? {
      added := WriteClaimMoves(w, e.call, e.ok, w');
    } else {
      added := DriftClaimMoves(w, e.call, e.ok, w');
    }
  }

  lemma WriteClaimMoves(w: World, call: Call, ok: bool, w': World) returns (added: Option<Entry>)
    requires ClaimStep(w, call, ok) == Some(w')
    ensures Moved(w, w', call, w.applies[call].stage, added)
  {
    hide Holds;
    hide Key;
    added := if |w'.log| > |w.log| then Some(w'.log[|w.log|]) else None;
  }

  lemma DriftClaimMoves(w: World, call: Call, ok: bool, w': World) returns (added: Option<Entry>)
    requires ClaimDriftStep(w, call, ok) == Some(w')
    ensures Moved(w, w', call, w.applies[call].stage, added)
  {
    hide Holds;
    hide Key;
    added := if |w'.log| > |w.log| then Some(w'.log[|w.log|]) else None;
  }

  lemma LateMoves(c: Config, w: World, e: Event, w': World) returns (added: Option<Entry>)
    requires Next(c, w, e) == Some(w')
    requires e.Send? || e.Land? || e.Return? || e.Verify? || e.EmitReceipt? || e.Abandon?
    ensures Moved(w, w', e.call, w.applies[e.call].stage, added)
  {
    hide Key;
    hide UpdateTarget;
    added := if |w'.log| > |w.log| then Some(w'.log[|w.log|]) else None;
  }

  /** How a concluding call returns, given whether its update was stored. */
  predicate Concludes(stage: Stage, state: State, ok: bool, how: Ending) {
    match stage
    case SettlingDrift(_) => state == Failed && how == DriftFound
    case SettlingUnanswered(_) => state == Failed && how == WriteFailed
    case Settling(_, finding) => state == StateFor(finding) && how == EndingFor(finding, ok)
    case _ => false
  }

  lemma ConcludeMoves(w: World, call: Call, stage: Stage, r: Record, state: State, ok: bool, how: Ending, w': World)
    returns (added: Option<Entry>)
    requires call in w.applies && w.applies[call].stage == stage && Concluding(stage) && r == stage.r
    requires Concludes(stage, state, ok, how) && r.id in w.records && w.records[r.id].state == Applying
    requires w' == Conclude(w, call, r, state, ok, how)
    ensures Moved(w, w', call, stage, added)
  {
    hide Key;
    if ok {
      added := Some(Settled(call, r.id, state));
      GoFacts(w, w', w.records[r.id := r.(state := state)], w.objects, call, Returned(how), added);
    } else {
      added := Some(UpdateRefused(call, r.id));
      QuietFacts(w, w', call, Returned(how), added);
    }
  }

  lemma ConcludingHolds(stage: Stage)
    requires Concluding(stage)
    ensures Holding(stage) && !stage.Fetching?
  {
  }

  lemma ReadyRecord(c: Config, w: World, call: Call, stage: Stage)
    requires Inv(c, w) && call in w.applies && stage == w.applies[call].stage && Concluding(stage)
    ensures stage.r.id in w.records && w.records[stage.r.id].state == Applying
  {
    hide *;
    ConcludingHolds(stage);
    CopyIds(c, w, call);
    ReadyToSettle(c, w, call);
    ClaimGives(w, call, w.applies[call], Mode(stage));
  }

  lemma FinalShape(c: Config, w: World, e: Event, call: Call, w': World)
    returns (r: Record, state: State, ok: bool, how: Ending)
    requires e.SettleDrift? || e.Settle? || e.SettleUnanswered?
    requires Next(c, w, e) == Some(w') && e.call == call
    ensures call in w.applies && Concluding(w.applies[call].stage) && Concludes(w.applies[call].stage, state, ok, how)
    ensures state in {Applied, Failed}
    ensures w.applies[call].stage.r == r && w' == Conclude(w, call, r, state, ok, how)
  {
    hide Conclude;
    ok, r := e.ok, w.applies[call].stage.r;
    match w.applies[call].stage
    case SettlingDrift(_) => state, how := Failed, DriftFound;
    case SettlingUnanswered(_) => state, how := Failed, WriteFailed;
    case Settling(_, finding) => state, how := StateFor(finding), EndingFor(finding, ok);
  }

  lemma FinalMoves(c: Config, w: World, e: Event, call: Call, w': World) returns (added: Option<Entry>)
    requires e.SettleDrift? || e.Settle? || e.SettleUnanswered?
    requires Inv(c, w) && Next(c, w, e) == Some(w') && e.call == call
    ensures call in w.applies && Moved(w, w', call, w.applies[call].stage, added)
  {
    hide *;
    var r, state, ok, how := FinalShape(c, w, e, call, w');
    ReadyRecord(c, w, call, w.applies[call].stage);
    added := ConcludeMoves(w, call, w.applies[call].stage, r, state, ok, how, w');
  }

  lemma StepMoves(c: Config, w: World, e: Event, w': World) returns (added: Option<Entry>)
    requires Inv(c, w) && Next(c, w, e) == Some(w') && Mover(e).Some?
    ensures Moved(w, w', Mover(e).value, w.applies[Mover(e).value].stage, added)
  {
    hide Moved;
    hide Next;
    if e.SettleDrift? || e.Settle? || e.SettleUnanswered? {
      added := FinalMoves(c, w, e, e.call, w');
    } else if e.Send? || e.Land? || e.Return? || e.Verify? || e.EmitReceipt? || e.Abandon? {
      added := LateMoves(c, w, e, w');
    } else if e.ClaimDrift? || e.Claim? {
      added := ClaimMoves(c, w, e, w');
    } else {
      added := EarlyMoves(c, w, e, w');
    }
  }

  /** Every other step leaves returned calls alone and adds no entry of theirs. */
  lemma StepIdles(c: Config, w: World, e: Event, w': World) returns (added: Option<Entry>)
    requires Next(c, w, e) == Some(w') && Mover(e).None?
    ensures w'.log == Noted(w.log, added) && (added.Some? ==> Level(added.value) == 0)
    ensures forall call | call in w'.applies && w'.applies[call].stage.Returned? ::
              call in w.applies && w.applies[call] == w'.applies[call]
  {
    if e.Restart? {
      added := RestartIdles(w, w');
    } else if e.Insert? || e.Waive? {
      added := StagingIdles(c, w, e, w');
    } else {
      added := if |w'.log| > |w.log| then Some(w'.log[|w.log|]) else None;
    }
  }

  lemma RestartIdles(w: World, w': World) returns (added: Option<Entry>)
    requires w' == RestartStep(w)
    ensures w'.log == Noted(w.log, added) && (added.Some? ==> Level(added.value) == 0)
    ensures forall call | call in w'.applies && w'.applies[call].stage.Returned? ::
              call in w.applies && w.applies[call] == w'.applies[call]
  {
    added := Some(Restarted);
  }

  lemma StagingIdles(c: Config, w: World, e: Event, w': World) returns (added: Option<Entry>)
    requires (e.Insert? || e.Waive?) && Next(c, w, e) == Some(w')
    ensures w'.log == Noted(w.log, added) && (added.Some? ==> Level(added.value) == 0)
    ensures w'.applies == w.applies
  {
    hide Holds;
    hide Plan;
    hide Staged;
    added := if |w'.log| > |w.log| then Some(w'.log[|w.log|]) else None;
  }

  lemma ToldStays(before: seq<Entry>, after: seq<Entry>, added: Option<Entry>, call: Call, id: string, how: Ending)
    requires after == Noted(before, added) && (added.Some? ==> !ByApply(added.value, call))
    requires Told(before, call, id, how)
    ensures Told(after, call, id, how)
  {
    GrowsKeeps(before, after, added);
  }

  lemma ToldOnExit(before: seq<Entry>, after: seq<Entry>, added: Option<Entry>, call: Call, stage: Stage, id: string,
                   how: Ending)
    requires after == Noted(before, added) && NothingBeyond(before, call, Reached(stage))
    requires Exits(call, stage, how, added) && (stage.Settling? ==> stage.r.id == id)
    ensures Told(after, call, id, how)
  {
    GrowsKeeps(before, after, added);
    if added.Some? { assert added.value in after; }
  }

  lemma StepTruthful(c: Config, w: World, e: Event, w': World)
    requires Inv(c, w) && Truthful(w) && Next(c, w, e) == Some(w')
    ensures Truthful(w')
  {
    if Mover(e).None? {
      var added := StepIdles(c, w, e, w');
      hide *;
      IdleTruthful(w, w', added);
    } else {
      var added := StepMoves(c, w, e, w');
      hide *;
      MovedTruthful(c, w, w', Mover(e).value, w.applies[Mover(e).value].stage, added);
    }
  }

  lemma IdleTruthful(w: World, w': World, added: Option<Entry>)
    requires Truthful(w) && w'.log == Noted(w.log, added) && (added.Some? ==> Level(added.value) == 0)
    requires forall call | call in w'.applies && w'.applies[call].stage.Returned? ::
               call in w.applies && w.applies[call] == w'.applies[call]
    ensures Truthful(w')
  {
    hide Told;
    forall call | call in w'.applies && w'.applies[call].stage.Returned?
      ensures Told(w'.log, call, w'.applies[call].id, w'.applies[call].stage.how)
    {
      ToldStays(w.log, w'.log, added, call, w.applies[call].id, w.applies[call].stage.how);
    }
  }

  lemma MovedTruthful(c: Config, w: World, w': World, mover: Call, stage: Stage, added: Option<Entry>)
    requires Inv(c, w) && Truthful(w) && Moved(w, w', mover, stage, added)
    ensures Truthful(w')
  {
    if stage.Settling? { CopyIds(c, w, mover); }
    LimitOf(c, w, mover);
    hide *;
    MovedFacts(w, w', mover, stage, added);
    OthersTruthful(w, w', mover, added);
    if w'.applies[mover].stage.Returned? {
      ToldOnExit(w.log, w'.log, added, mover, stage, w.applies[mover].id, w'.applies[mover].stage.how);
    }
    BothTruthful(w', mover);
  }

  lemma MovedFacts(w: World, w': World, mover: Call, stage: Stage, added: Option<Entry>)
    requires Moved(w, w', mover, stage, added)
    ensures mover in w.applies && mover in w'.applies && w'.applies[mover].id == w.applies[mover].id
    ensures w'.applies.Keys == w.applies.Keys
    ensures forall call | call in w.applies && call != mover :: w'.applies[call] == w.applies[call]
    ensures w'.log == Noted(w.log, added)
    ensures added.Some? ==> forall call :: ByApply(added.value, call) ==> call == mover
    ensures w'.applies[mover].stage.Returned? ==> Exits(mover, stage, w'.applies[mover].stage.how, added)
  {
    hide Exits;
  }

  /** Calls other than `mover` that have returned told the truth. */
  ghost predicate OthersTold(w: World, mover: Call) {
    forall call | call in w.applies && call != mover && w.applies[call].stage.Returned? ::
      Told(w.log, call, w.applies[call].id, w.applies[call].stage.how)
  }

  lemma OthersTruthful(w: World, w': World, mover: Call, added: Option<Entry>)
    requires Truthful(w) && w'.log == Noted(w.log, added) && w'.applies.Keys == w.applies.Keys
    requires forall call | call in w.applies && call != mover :: w'.applies[call] == w.applies[call]
    requires added.Some? ==> forall call :: ByApply(added.value, call) ==> call == mover
    ensures OthersTold(w', mover)
  {
    hide Told;
    forall call | call in w'.applies && call != mover && w'.applies[call].stage.Returned?
      ensures Told(w'.log, call, w'.applies[call].id, w'.applies[call].stage.how)
    {
      ToldStays(w.log, w'.log, added, call, w.applies[call].id, w.applies[call].stage.how);
    }
  }

  lemma BothTruthful(w: World, mover: Call)
    requires OthersTold(w, mover)
    requires mover in w.applies && w.applies[mover].stage.Returned? ==>
               Told(w.log, mover, w.applies[mover].id, w.applies[mover].stage.how)
    ensures Truthful(w)
  {
    hide Told;
  }

  lemma LimitOf(c: Config, w: World, call: Call)
    requires Inv(c, w) && call in w.applies
    ensures NothingBeyond(w.log, call, Reached(w.applies[call].stage))
  {
    hide Lawful;
    hide RecordsOk;
    assert ApplyOk(c, w, call, w.applies[call]);
  }

  lemma StepSettledStored(c: Config, w: World, e: Event, w': World)
    requires Inv(c, w) && SettledStored(w) && Next(c, w, e) == Some(w')
    ensures SettledStored(w')
  {
    StepOnlyForward(c, w, e, w');
    var added: Option<Entry>;
    if Mover(e).None? {
      added := StepIdles(c, w, e, w');
    } else {
      added := StepMoves(c, w, e, w');
    }
    assert w'.log == Noted(w.log, added);
    assert added.Some? && added.value.Settled? ==> StoredAs(w', added.value.id, added.value.final);
    hide *;
    SettledKept(w, w', added);
  }

  lemma SettledKept(w: World, w': World, added: Option<Entry>)
    requires SettledStored(w) && OnlyForward(w.records, w'.records) && w'.log == Noted(w.log, added)
    requires added.Some? && added.value.Settled? ==> StoredAs(w', added.value.id, added.value.final)
    ensures SettledStored(w')
  {
    GrowsKeeps(w.log, w'.log, added);
  }

  lemma {:induction false} RunTruthful(c: Config, w: World, events: seq<Event>, w': World)
    requires Inv(c, w) && Truthful(w) && SettledStored(w) && Run(c, w, events) == Some(w')
    ensures Truthful(w') && SettledStored(w')
    decreases |events|
  {
    hide Inv;
    hide Next;
    hide Truthful;
    hide SettledStored;
    if events != [] {
      var next := Next(c, w, events[0]).value;
      StepKeepsInv(c, w, events[0], next);
      StepTruthful(c, w, events[0], next);
      StepSettledStored(c, w, events[0], next);
      RunTruthful(c, next, events[1..], w');
    }
  }

  // ----- the log only grows -----

  lemma StepLogGrows(c: Config, w: World, e: Event, w': World)
    requires Inv(c, w) && Next(c, w, e) == Some(w')
    ensures w.log <= w'.log
  {
    if Mover(e).None? {
      var added := StepIdles(c, w, e, w');
    } else {
      var added := StepMoves(c, w, e, w');
      hide Next;
      hide Inv;
      hide Exits;
    }
  }

  lemma {:induction false} RunLogGrows(c: Config, w: World, events: seq<Event>, w': World)
    requires Inv(c, w) && Run(c, w, events) == Some(w')
    ensures w.log <= w'.log
    decreases |events|
  {
    hide Inv;
    hide Next;
    if events != [] {
      var next := Next(c, w, events[0]).value;
      StepKeepsInv(c, w, events[0], next);
      StepLogGrows(c, w, events[0], next);
      RunLogGrows(c, next, events[1..], w');
    }
  }
}
