/** What holds of every run of the change-set machine: any number of plans, approvals, waivers
    and applies, interleaved in any order, with any coordinator or Mist failure, cancellation or
    restart between any two steps, and wherever the run stops. */
module ApplyTheorems {
  import opened Wrappers
  import opened JsonValues
  import opened MergePatch
  import opened ChangeSets
  import opened ApplyProtocol
  import opened ApplyLaws
  import opened ApplyFrames
  import opened ApplySteps
  import opened ApplyRuns
  import opened ApplyProgress

  /** Each change set is written at most once, by the call that made its only claim. */
  lemma AtMostOneWrite(c: Config, w: World, id: string, k: nat) returns (j: nat)
    requires Reachable(c, w) && k < |w.log| && w.log[k].Sent? && w.log[k].id == id
    ensures forall i | 0 <= i < |w.log| && w.log[i].Sent? && w.log[i].id == id :: i == k
    ensures j < k && w.log[j] == Claimed(w.log[k].call, id, true)
    ensures forall i | 0 <= i < |w.log| && w.log[i].Claimed? && w.log[i].id == id :: i == j
  {
    ReachableIsLawful(c, w);
    hide Inv;
    hide Reachable;
    assert LawfulEntry(c, w.log[..k], w.log[k]);
    j :| 0 <= j < k && w.log[j] == Claimed(w.log[k].call, id, true);
    hide Lawful;
    forall i | 0 <= i < |w.log| ensures w.log[i].Sent? && w.log[i].id == id ==> i == k {
      if i < k { NothingHappensTwice(c, w.log, i, k); }
      if k < i { NothingHappensTwice(c, w.log, k, i); }
    }
    forall i | 0 <= i < |w.log| ensures w.log[i].Claimed? && w.log[i].id == id ==> i == j {
      if i < j { NothingHappensTwice(c, w.log, i, j); }
      if j < i { NothingHappensTwice(c, w.log, j, i); }
    }
  }

  /** Over any stretch of any run, records keep their plan and only move forward: none returns
      to Approved, and an applied or failed record never changes again. */
  lemma RecordsOnlyMoveForward(c: Config, w: World, events: seq<Event>, w': World, id: string)
    requires Reachable(c, w) && Run(c, w, events) == Some(w') && id in w.records
    ensures id in w'.records && Plan(w'.records[id]) == Plan(w.records[id])
    ensures w'.records[id].state == Approved ==> w.records[id].state in {Planned, Approved}
    ensures w.records[id].state in {Applied, Failed} ==> w'.records[id] == w.records[id]
  {
    ReachableIsLawful(c, w);
    RunOnlyForward(c, w, events, w');
    hide Inv;
    hide Run;
  }

  /** A restart fails a record claimed only to spend its drifted plan's approval, and leaves one claimed
      for its write as it was: nobody knows what became of that write, and no later step of any run
      says so either. No other record changes. */
  lemma RestartLeavesWritesUnresolved(c: Config, w: World, id: string, next: World, events: seq<Event>, w': World)
    requires Reachable(c, w) && Next(c, w, Restart) == Some(next) && Run(c, next, events) == Some(w')
    requires id in w.records
    ensures id in next.records && id in w'.records
    ensures w.records[id].state == Applying ==> HasClaim(w.log, id)
    ensures w.records[id].state != Applying ==> next.records[id] == w.records[id]
    ensures forall call | Claimed(call, id, true) in w.log && w.records[id].state == Applying ::
              next.records[id] == w.records[id] && w'.records[id] == w.records[id]
    ensures forall call | Claimed(call, id, false) in w.log && w.records[id].state == Applying ::
              next.records[id] == w.records[id].(state := Failed) && w'.records[id] == next.records[id]
  {
    ReachableIsLawful(c, w);
    StepKeepsInv(c, w, Restart, next);
    ReachableRemembersClaims(c, w);
    hide *;
    RestartRecovers(c, w, id, next);
    RunOnlyForward(c, next, events, w');
    FinalStays(next, w', id);
    if w.records[id].state == Applying {
      var call, handleless := ClaimOnRecord(c, w, id);
      forall other, h | Claimed(other, id, h) in w.log ensures h == handleless && other == call {
        ClaimsAreUnique(c, w.log, other, call, id, h, handleless);
      }
      if handleless {
        RestartOrphans(c, w, id, next, call);
        RunOrphanedStays(c, next, events, w', call, w.records[id]);
        OrphanedParts(w', call, w.records[id]);
      }
    }
  }

  lemma ReachableRemembersClaims(c: Config, w: World)
    requires Reachable(c, w)
    ensures ClaimsRemembered(w)
  {
    var objects, events :| Run(c, EMPTY.(objects := objects), events) == Some(w);
    var start := EMPTY.(objects := objects);
    assert Inv(c, start) && ClaimsRemembered(start);
    hide *;
    RunClaimsRemembered(c, start, events, w);
  }

  lemma RestartRecovers(c: Config, w: World, id: string, next: World)
    requires Inv(c, w) && Next(c, w, Restart) == Some(next) && id in w.records
    ensures Lawful(c, w.log) && id in next.records && w.records[id].id == id
    ensures next.records[id] ==
            if w.records[id].state == Applying && !w.records[id].handleless then w.records[id].(state := Failed)
            else w.records[id]
  {
    hide Lawful;
  }

  lemma FinalStays(w: World, w': World, id: string)
    requires OnlyForward(w.records, w'.records) && id in w.records
    ensures id in w'.records && (w.records[id].state == Failed ==> w'.records[id] == w.records[id])
  {
    assert Later(w.records[id], w'.records[id]);
    hide Plan;
  }

  lemma ClaimOnRecord(c: Config, w: World, id: string) returns (call: Call, handleless: bool)
    requires ClaimsRemembered(w) && id in w.records && w.records[id].state == Applying
    ensures Claimed(call, id, handleless) in w.log && handleless == w.records[id].handleless && HasClaim(w.log, id)
  {
    assert ClaimRemembered(w, id);
    call, handleless :| Claimed(call, id, handleless) in w.log && handleless == w.records[id].handleless;
  }

  lemma RestartOrphans(c: Config, w: World, id: string, next: World, call: Call)
    requires Inv(c, w) && Next(c, w, Restart) == Some(next) && id in w.records && w.records[id].id == id
    requires w.records[id].state == Applying && w.records[id].handleless && Claimed(call, id, true) in w.log
    ensures Orphaned(next, call, w.records[id])
  {
    hide Lawful;
    hide RecordsOk;
    hide ApplyOk;
    assert CallsOk(w) && Level(Claimed(call, id, true)) == 4;
  }

  /** To be applied no later than `until`: approved so by a verified human other than the owner, who
      echoed the digest of this very plan; or waived with lab mode on, for as long as it was staged. */
  ghost predicate Authorised(c: Config, past: seq<Entry>, plan: Record, until: nat) {
    || (c.labMode && ApprovalWaived(plan.id, until) in past && until == plan.stagedUntil)
    || exists approver ::
         approver != plan.owner && ApprovalGranted(plan.id, approver, Human, plan.digest, until) in past
  }

  lemma ApprovalsAreAuthorised(c: Config, log: seq<Entry>, plan: Record, until: nat)
    requires Lawful(c, log) && ApprovedUntil(log, plan.id, until) && RecordStaged(plan) in log
    ensures Authorised(c, log, plan, until)
  {
    if ApprovalWaived(plan.id, until) in log {
      var k := LawAt(c, log, ApprovalWaived(plan.id, until));
      var other :| RecordStaged(other) in log[..k] && other.id == plan.id && until == other.stagedUntil;
      PlansAreUnique(c, log, other, plan);
    } else {
      var approver, actor, echoed :| ApprovalGranted(plan.id, approver, actor, echoed, until) in log;
      var k := LawAt(c, log, ApprovalGranted(plan.id, approver, actor, echoed, until));
      var other :|
        RecordStaged(other) in log[..k] && other.id == plan.id && approver != other.owner && echoed == other.digest;
      PlansAreUnique(c, log, other, plan);
    }
  }

  /** A change set is approved or waived once, so its expiry is that of its approval. */
  lemma ApprovalsAreUnique(c: Config, log: seq<Entry>, id: string, a: nat, b: nat)
    requires Lawful(c, log) && ApprovedUntil(log, id, a) && ApprovedUntil(log, id, b)
    ensures a == b
  {
    hide *;
    var x := ApprovalEntry(log, id, a);
    var y := ApprovalEntry(log, id, b);
    var i :| 0 <= i < |log| && log[i] == x;
    var j :| 0 <= j < |log| && log[j] == y;
    NoApprovalBefore(c, log, i);
    NoApprovalBefore(c, log, j);
    if i < j { EarlierApproval(log, i, j, x); }
    if j < i { EarlierApproval(log, j, i, y); }
  }

  lemma NoApprovalBefore(c: Config, log: seq<Entry>, k: nat)
    requires Lawful(c, log) && k < |log| && (log[k].ApprovalGranted? || log[k].ApprovalWaived?)
    ensures !HasApproval(log[..k], log[k].id)
  {
    assert LawfulEntry(c, log[..k], log[k]);
    hide HasApproval;
  }

  lemma EarlierApproval(log: seq<Entry>, i: nat, j: nat, entry: Entry)
    requires i < j <= |log| && log[i] == entry && (entry.ApprovalGranted? || entry.ApprovalWaived?)
    ensures HasApproval(log[..j], entry.id)
  {
    assert log[..j][i] == entry;
    assert ApprovedUntil(log[..j], entry.id, entry.until);
  }

  lemma PrefixIsLawful(c: Config, log: seq<Entry>, k: nat)
    requires Lawful(c, log) && k <= |log|
    ensures Lawful(c, log[..k])
  {
    forall i | 0 <= i < k ensures LawfulEntry(c, log[..k][..i], log[..k][i]) {
      assert log[..k][..i] == log[..i];
      assert LawfulEntry(c, log[..i], log[i]);
    }
  }

  /** What was claimed had been fetched, within the expiry of its approval. */
  lemma ClaimsAreInTime(c: Config, log: seq<Entry>, call: Call, id: string, handleless: bool)
    returns (now: nat, until: nat)
    requires Lawful(c, log) && Claimed(call, id, handleless) in log
    ensures Fetched(call, id, now, until) in log && now <= until && ApprovedUntil(log, id, until)
  {
    var k := LawAt(c, log, Claimed(call, id, handleless));
    now, until :| Fetched(call, id, now, until) in log[..k];
    var i := LawAt(c, log, Fetched(call, id, now, until));
    hide Lawful;
    var entry := ApprovalEntry(log[..i], id, until);
    assert entry in log;
  }

  lemma StagedIsSound(c: Config, log: seq<Entry>, plan: Record)
    requires Lawful(c, log) && RecordStaged(plan) in log
    ensures SoundPlan(c, log, plan)
  {
    var k := LawAt(c, log, RecordStaged(plan));
    hide Lawful;
    SoundLater(c, log, k, plan);
  }

  lemma SoundLater(c: Config, log: seq<Entry>, k: nat, plan: Record)
    requires k <= |log| && SoundPlan(c, log[..k], plan)
    ensures SoundPlan(c, log, plan)
  {
    if !IsCreate(plan) {
      var call, id :|
        && PlanRead(call, c.resolve(plan.action.kind, plan.preview.orgId, id), plan.preview.before) in log[..k]
        && plan.device == ObjectKey(plan.action.kind, Some(id));
      assert PlanRead(call, c.resolve(plan.action.kind, plan.preview.orgId, id), plan.preview.before) in log;
    }
  }

  /** Every body sent is the one its plan's digest was computed over, in a plan that was authorised
      once, and that the call fetched before that approval expired; all before the write. */
  lemma OnlyApprovedBodiesAreSent(c: Config, w: World, k: nat) returns (plan: Record, now: nat, until: nat)
    requires Reachable(c, w) && k < |w.log| && w.log[k].Sent?
    ensures RecordStaged(plan) in w.log[..k] && plan.id == w.log[k].id
    ensures w.log[k].body == plan.preview.after == plan.digest.action.body
    ensures plan.digest == Digest(plan.owner, plan.device, plan.fingerprint, plan.action)
    ensures Authorised(c, w.log[..k], plan, until)
    ensures forall other | ApprovedUntil(w.log, plan.id, other) :: other == until
    ensures Fetched(w.log[k].call, plan.id, now, until) in w.log[..k] && now <= until
    ensures plan.preview.orgId in c.allowedOrgs && OnlyInherited(plan.preview.before, w.log[k].body)
  {
    ReachableIsLawful(c, w);
    hide Reachable;
    hide Inv;
    var past, id, call := w.log[..k], w.log[k].id, w.log[k].call;
    assert LawfulEntry(c, past, w.log[k]);
    plan :| RecordStaged(plan) in past && plan.id == id && w.log[k].body == plan.preview.after;
    PrefixIsLawful(c, w.log, k);
    hide Lawful;
    hide LawfulEntry;
    now, until := ClaimsAreInTime(c, past, call, id, true);
    ApprovalsAreAuthorised(c, past, plan, until);
    StagedIsSound(c, past, plan);
    OnlyApproval(c, w.log, k, id, until);
  }

  lemma OnlyApproval(c: Config, log: seq<Entry>, k: nat, id: string, until: nat)
    requires Lawful(c, log) && k <= |log| && ApprovedUntil(log[..k], id, until)
    ensures forall other | ApprovedUntil(log, id, other) :: other == until
  {
    var entry := ApprovalEntry(log[..k], id, until);
    assert entry in log;
    assert ApprovedUntil(log, id, until);
    forall other | ApprovedUntil(log, id, other) ensures other == until {
      ApprovalsAreUnique(c, log, id, other, until);
    }
  }

  lemma WriteHasClaim(c: Config, log: seq<Entry>, k: nat) returns (j: nat)
    requires Lawful(c, log) && k < |log| && log[k].Sent?
    ensures j < k && log[j] == Claimed(log[k].call, log[k].id, true)
  {
    assert LawfulEntry(c, log[..k], log[k]);
    hide Lawful;
    j :| 0 <= j < k && log[j] == Claimed(log[k].call, log[k].id, true);
  }

  lemma ClaimHasIntent(c: Config, log: seq<Entry>, j: nat) returns (i: nat)
    requires Lawful(c, log) && c.recorder && j < |log| && log[j].Claimed? && log[j].handleless
    ensures i < j && log[i] == IntentPersisted(log[j].call, log[j].id)
  {
    assert LawfulEntry(c, log[..j], log[j]);
    hide Lawful;
    i :| 0 <= i < j && log[i] == IntentPersisted(log[j].call, log[j].id);
  }

  /** With a recorder, the intent is persisted before the claim, and the claim before the write. */
  lemma IntentThenClaimThenWrite(c: Config, w: World, k: nat) returns (i: nat, j: nat)
    requires Reachable(c, w) && c.recorder && k < |w.log| && w.log[k].Sent?
    ensures i < j < k
    ensures w.log[i] == IntentPersisted(w.log[k].call, w.log[k].id)
    ensures w.log[j] == Claimed(w.log[k].call, w.log[k].id, true)
  {
    ReachableIsLawful(c, w);
    hide *;
    j := WriteHasClaim(c, w.log, k);
    i := ClaimHasIntent(c, w.log, j);
  }

  /** A receipt follows an answer and is the call's only one; a success receipt means the
      verifying read found exactly the body the plan would send. */
  lemma ReceiptsAreTrue(c: Config, w: World, k: nat)
    requires Reachable(c, w) && k < |w.log| && w.log[k].Receipt?
    ensures WasAnswered(w.log[..k], w.log[k].call, w.log[k].id)
    ensures forall i | 0 <= i < |w.log| && w.log[i].Receipt? && w.log[i].call == w.log[k].call :: i == k
    ensures w.log[k].success <==>
              exists plan, target ::
                && RecordStaged(plan) in w.log[..k] && plan.id == w.log[k].id
                && VerifyRead(w.log[k].call, plan.id, target, Some(plan.preview.after)) in w.log[..k]
  {
    ReachableIsLawful(c, w);
    hide Reachable;
    hide Inv;
    assert LawfulEntry(c, w.log[..k], w.log[k]);
    hide Lawful;
    hide LawfulEntry;
    forall i | 0 <= i < |w.log| ensures w.log[i].Receipt? && w.log[i].call == w.log[k].call ==> i == k {
      if i < k { NothingHappensTwice(c, w.log, i, k); }
      if k < i { NothingHappensTwice(c, w.log, k, i); }
    }
  }

  /** The read that verifies a write goes to the object that the one reply to it named, after a create;
      after an update, to the object its plan names, which is where the write landed if it did. */
  lemma ReadsBackWhatWasWritten(c: Config, w: World, k: nat) returns (plan: Record)
    requires Reachable(c, w) && k < |w.log| && w.log[k].VerifyRead?
    ensures RecordStaged(plan) in w.log[..k] && plan.id == w.log[k].id
    ensures IsCreate(plan) ==>
              exists name ::
                && Answered(w.log[k].call, plan.id, Some(name)) in w.log[..k]
                && w.log[k].target == c.resolve(plan.action.kind, plan.preview.orgId, name)
    ensures forall i, j
              | 0 <= i < |w.log| && 0 <= j < |w.log| && w.log[i].Answered? && w.log[j].Answered?
                && w.log[i].call == w.log[j].call && w.log[i].id == w.log[j].id :: i == j
    ensures !IsCreate(plan) ==>
              exists text ::
                && w.log[k].target == c.resolve(plan.action.kind, plan.preview.orgId, text)
                && plan.device == ObjectKey(plan.action.kind, Some(text))
    ensures !IsCreate(plan) ==>
              forall i | 0 <= i < |w.log| && w.log[i].Landed? && w.log[i].id == plan.id ::
                w.log[i].target == w.log[k].target
  {
    ReachableIsLawful(c, w);
    hide *;
    plan := ReadingIsSound(c, w.log, k);
    forall i, j
      | 0 <= i < |w.log| && 0 <= j < |w.log| && w.log[i].Answered? && w.log[j].Answered?
        && w.log[i].call == w.log[j].call && w.log[i].id == w.log[j].id
      ensures i == j
    {
      if i < j { AnsweredOnce(c, w.log, i, j); }
      if j < i { AnsweredOnce(c, w.log, j, i); }
    }
    if !IsCreate(plan) {
      forall i | 0 <= i < |w.log| && w.log[i].Landed? && w.log[i].id == plan.id
        ensures w.log[i].target == w.log[k].target
      {
        LandsWhereRead(c, w.log, i, k, plan);
      }
    }
  }

  lemma ReadingIsSound(c: Config, log: seq<Entry>, k: nat) returns (plan: Record)
    requires Lawful(c, log) && k < |log| && log[k].VerifyRead?
    ensures RecordStaged(plan) in log[..k] && plan.id == log[k].id && RecordStaged(plan) in log
    ensures IsCreate(plan) ==>
              exists name ::
                && Answered(log[k].call, plan.id, Some(name)) in log[..k]
                && log[k].target == c.resolve(plan.action.kind, plan.preview.orgId, name)
    ensures !IsCreate(plan) ==> PlansFor(c, plan, log[k].target)
    ensures !IsCreate(plan) ==>
              exists text ::
                && log[k].target == c.resolve(plan.action.kind, plan.preview.orgId, text)
                && plan.device == ObjectKey(plan.action.kind, Some(text))
  {
    assert LawfulEntry(c, log[..k], log[k]);
    hide Lawful;
    plan :|
      && RecordStaged(plan) in log[..k] && plan.id == log[k].id
      && if IsCreate(plan) then
           exists name ::
             && Answered(log[k].call, log[k].id, Some(name)) in log[..k]
             && log[k].target == c.resolve(plan.action.kind, plan.preview.orgId, name)
         else PlansFor(c, plan, log[k].target);
  }

  lemma AnsweredOnce(c: Config, log: seq<Entry>, i: nat, j: nat)
    requires Lawful(c, log) && i < j < |log| && log[i].Answered? && log[j].Answered?
    ensures log[i].call != log[j].call || log[i].id != log[j].id
  {
    assert LawfulEntry(c, log[..j], log[j]);
    hide Lawful;
    EarlierAnswer(log, i, j);
    hide WasAnswered;
  }

  lemma EarlierAnswer(log: seq<Entry>, i: nat, j: nat)
    requires i < j <= |log| && log[i].Answered?
    ensures WasAnswered(log[..j], log[i].call, log[i].id)
  {
    assert log[..j][i] == Answered(log[i].call, log[i].id, log[i].named);
  }

  lemma LandsWhereRead(c: Config, log: seq<Entry>, i: nat, k: nat, plan: Record)
    requires Lawful(c, log) && i < |log| && log[i].Landed? && log[i].id == plan.id && !IsCreate(plan)
    requires k < |log| && log[k].VerifyRead? && RecordStaged(plan) in log && PlansFor(c, plan, log[k].target)
    ensures log[i].target == log[k].target
  {
    assert LawfulEntry(c, log[..i], log[i]);
    var own :|
      && RecordStaged(own) in log[..i] && own.id == plan.id
      && (!IsCreate(own) ==> PlansFor(c, own, log[i].target));
    assert RecordStaged(own) in log;
    PlansAreUnique(c, log, own, plan);
    hide Lawful;
    hide LawfulEntry;
    OnePlannedObject(c, plan, log[i].target, log[k].target);
  }

  lemma OnePlannedObject(c: Config, plan: Record, a: Target, b: Target)
    requires PlansFor(c, plan, a) && PlansFor(c, plan, b)
    ensures a == b
  {
    var x :| a == c.resolve(plan.action.kind, plan.preview.orgId, x)
             && plan.device == ObjectKey(plan.action.kind, Some(x));
    var y :| b == c.resolve(plan.action.kind, plan.preview.orgId, y)
             && plan.device == ObjectKey(plan.action.kind, Some(y));
    ObjectKeyEqualIff(plan.action.kind, Some(x), plan.action.kind, Some(y));
  }

  /** The endings reached before any claim. */
  predicate Unclaimed(how: Ending) {
    !how.Verdict? && !how.NotPersisted? && !how.NoIdentifier? && !how.WriteFailed? && !how.DriftFound?
  }

  /** What a call that has returned left behind. */
  lemma WhatAReturnMeans(c: Config, w: World, call: Call)
    requires Reachable(c, w) && call in w.applies && w.applies[call].stage.Returned?
    ensures
      var id, how := w.applies[call].id, w.applies[call].stage.how;
      // Returned early: it claimed, wrote and settled nothing.
      && (Unclaimed(how) ==> NothingBeyond(w.log, call, 3))
      // Drift: nothing was sent.
      && (how.DriftFound? ==> forall body :: Sent(call, id, body) !in w.log)
      // No answer: no receipt either way.
      && (how.WriteFailed? ==> !WasAnswered(w.log, call, id) && !HasReceipt(w.log, call))
      // An answer: a receipt, unless the recorder lost it.
      && (c.recorder && WasAnswered(w.log, call, id) ==> HasReceipt(w.log, call))
      // A create that was not named is not left applied.
      && (how.NoIdentifier? ==> Settled(call, id, Failed) in w.log || UpdateRefused(call, id) in w.log)
      // A verdict is the stored state.
      && (how.Verdict? ==> id in w.records && w.records[id].state == if how.verified then Applied else Failed)
      // Nothing it claimed is still Applying, unless the coordinator refused the final update.
      && forall claimed, handleless | Claimed(call, claimed, handleless) in w.log ::
           claimed in w.records && (w.records[claimed].state == Applying ==> UpdateRefused(call, claimed) in w.log)
  {
    ReachableIsLawful(c, w);
    ReachableIsTruthful(c, w);
    hide Reachable;
    ReturnedOwes(c, w, call);
    hide Inv;
    hide Lawful;
    TellingLevels(w.log, call, w.applies[call].id, w.applies[call].stage.how);
    hide Told;
    hide HasReceipt;
    hide NothingBeyond;
  }

  /** An apply changes records only by a step that logs its claim or its settlement, so one that
      returns having claimed nothing has left every record as it found it. */
  lemma RecordChangeIsLogged(c: Config, w: World, e: Event, w': World)
    requires Reachable(c, w) && Next(c, w, e) == Some(w') && Mover(e).Some? && w'.records != w.records
    ensures |w'.log| == |w.log| + 1 && w'.log[..|w.log|] == w.log
    ensures (w'.log[|w.log|].Claimed? || w'.log[|w.log|].Settled?) && w'.log[|w.log|].call == Mover(e).value
  {
    ReachableIsLawful(c, w);
    hide Inv;
    hide Next;
    hide Reachable;
    var added := StepMoves(c, w, e, w');
  }

  lemma {:induction false} RunFrom(c: Config, w: World, events: seq<Event>, k: nat, before: World, after: World,
                                   w': World)
    requires Run(c, w, events) == Some(w') && k < |events|
    requires Run(c, w, events[..k]) == Some(before) && Next(c, before, events[k]) == Some(after)
    ensures Run(c, after, events[k + 1..]) == Some(w')
    decreases k
  {
    hide Next;
    if k > 0 {
      assert events[..k][0] == events[0] && events[..k][1..] == events[1..][..k - 1];
      assert events[1..][k - 1] == events[k] && events[1..][k..] == events[k + 1..];
      RunFrom(c, Next(c, w, events[0]).value, events[1..], k - 1, before, after, w');
    }
  }

  /** Over a run: an apply that comes to return before its claim, other than for drift, changes no
      record in any of its steps. */
  lemma EarlyReturnLeavesRecords(c: Config, w: World, events: seq<Event>, w': World, call: Call,
                                 k: nat, before: World, after: World)
    requires Reachable(c, w) && Run(c, w, events) == Some(w')
    requires call in w'.applies && w'.applies[call].stage.Returned? && Unclaimed(w'.applies[call].stage.how)
    requires k < |events| && Mover(events[k]) == Some(call)
    requires Run(c, w, events[..k]) == Some(before) && Next(c, before, events[k]) == Some(after)
    ensures after.records == before.records
  {
    hide *;
    ReachesOn(c, w, events[..k], before);
    ReachesOn(c, w, events, w');
    ReachableIsLawful(c, before);
    StepKeepsInv(c, before, events[k], after);
    RunFrom(c, w, events, k, before, after, w');
    RunLogGrows(c, after, events[k + 1..], w');
    WhatAReturnMeans(c, w', call);
    if after.records != before.records {
      RecordChangeIsLogged(c, before, events[k], after);
      var e := after.log[|before.log|];
      assert e in w'.log by { assert w'.log[|before.log|] == e; }
      BeyondTheClaim(w'.log, call, e);
      assert false;
    }
  }

  lemma BeyondTheClaim(log: seq<Entry>, call: Call, e: Entry)
    requires e in log && (e.Claimed? || e.Settled?) && e.call == call
    ensures !NothingBeyond(log, call, 3)
  {
    assert ByApply(e, call) && Level(e) > 3;
  }

  lemma ReturnedOwes(c: Config, w: World, call: Call)
    requires Inv(c, w) && Truthful(w) && call in w.applies && w.applies[call].stage.Returned?
    ensures ReturnOk(c, w, call, w.applies[call]) && Told(w.log, call, w.applies[call].id, w.applies[call].stage.how)
  {
    hide Lawful;
    hide RecordsOk;
    hide Told;
    assert ApplyOk(c, w, call, w.applies[call]);
  }

  lemma TellingLevels(log: seq<Entry>, call: Call, id: string, how: Ending)
    requires Told(log, call, id, how)
    ensures Unclaimed(how) ==> NothingBeyond(log, call, 3)
    ensures how.DriftFound? ==> forall body :: Sent(call, id, body) !in log
    ensures how.WriteFailed? ==> !WasAnswered(log, call, id) && !HasReceipt(log, call)
    ensures how.NoIdentifier? ==> Settled(call, id, Failed) in log || UpdateRefused(call, id) in log
    ensures how.Verdict? ==> Settled(call, id, if how.verified then Applied else Failed) in log
  {
    if how.DriftFound? {
      forall body ensures Sent(call, id, body) !in log {
        assert Level(Sent(call, id, body)) == 5;
      }
    }
    if how.WriteFailed? {
      forall named ensures Answered(call, id, named) !in log {
        assert Level(Answered(call, id, named)) == 7;
      }
      forall other, success ensures Receipt(call, other, success) !in log && ReceiptLost(call, other) !in log {
        assert Level(Receipt(call, other, success)) == Level(ReceiptLost(call, other)) == 9;
      }
    }
  }

  lemma ReachableIsTruthful(c: Config, w: World)
    requires Reachable(c, w)
    ensures Truthful(w) && SettledStored(w)
  {
    var objects, events :| Run(c, EMPTY.(objects := objects), events) == Some(w);
    var start := EMPTY.(objects := objects);
    assert Inv(c, start) && Truthful(start) && SettledStored(start);
    hide *;
    RunTruthful(c, start, events, w);
  }

  // ----- no lost update -----

  /** The plan of an update that took effect read the very object it replaced. */
  lemma LandingHasItsRead(c: Config, log: seq<Entry>, k: nat) returns (plan: Record, reader: Call)
    requires Lawful(c, log) && k < |log| && log[k].Landed? && log[k].replaced.Some?
    ensures RecordStaged(plan) in log[..k] && plan.id == log[k].id && PlansFor(c, plan, log[k].target)
    ensures PlanRead(reader, log[k].target, plan.preview.before) in log[..k]
    ensures || Disturbed(log[..k], log[k].call, log[k].id, log[k].target, plan.device)
            || log[k].replaced == Some(plan.preview.before)
  {
    var past, target := log[..k], log[k].target;
    assert LawfulEntry(c, past, log[k]);
    plan :| RecordStaged(plan) in past && plan.id == log[k].id && !IsCreate(plan) && PlansFor(c, plan, target)
            && (|| Disturbed(past, log[k].call, log[k].id, target, plan.device)
                || log[k].replaced == Some(plan.preview.before));
    PrefixIsLawful(c, log, k);
    hide Lawful;
    hide LawfulEntry;
    hide Disturbed;
    StagedIsSound(c, past, plan);
    reader := PlanHasItsRead(c, past, plan, target);
  }

  lemma PlanHasItsRead(c: Config, log: seq<Entry>, plan: Record, target: Target) returns (reader: Call)
    requires SoundPlan(c, log, plan) && !IsCreate(plan) && PlansFor(c, plan, target)
    ensures PlanRead(reader, target, plan.preview.before) in log
  {
    var text :| target == c.resolve(plan.action.kind, plan.preview.orgId, text)
                && plan.device == ObjectKey(plan.action.kind, Some(text));
    var call, id :| PlanRead(call, c.resolve(plan.action.kind, plan.preview.orgId, id), plan.preview.before) in log
                    && plan.device == ObjectKey(plan.action.kind, Some(id));
    ObjectKeyEqualIff(plan.action.kind, Some(id), plan.action.kind, Some(text));
    reader := call;
  }

  /** No lost update: in every run, every update write replaces exactly the state its plan read of
      that same object, whatever other applies did in between; unless, after the drift check, the
      object was changed by an outsider or by an apply that named it by another text. The body sent
      holds no managed marker or redaction placeholder that the plan did not read there. */
  lemma NoLostUpdate(c: Config, w: World, k: nat) returns (plan: Record, reader: Call)
    requires Reachable(c, w) && k < |w.log| && w.log[k].Landed? && w.log[k].replaced.Some?
    ensures RecordStaged(plan) in w.log[..k] && plan.id == w.log[k].id && PlansFor(c, plan, w.log[k].target)
    ensures PlanRead(reader, w.log[k].target, plan.preview.before) in w.log[..k]
    ensures || Disturbed(w.log[..k], w.log[k].call, plan.id, w.log[k].target, plan.device)
            || w.log[k].replaced == Some(plan.preview.before)
    ensures Sent(w.log[k].call, plan.id, plan.preview.after) in w.log[..k]
    ensures OnlyInherited(plan.preview.before, plan.preview.after)
  {
    ReachableIsLawful(c, w);
    hide *;
    plan, reader := LandingHasItsRead(c, w.log, k);
    PrefixIsLawful(c, w.log, k);
    SentAsPlanned(c, w.log, k, plan);
    StagedInherits(c, w.log[..k], plan);
  }

  /** An outsider changed the object after this call had checked it for drift. */
  ghost predicate ChangedSince(log: seq<Entry>, call: Call, id: string, target: Target) {
    exists i, j ::
      0 <= i < j < |log| && log[i] == DriftChecked(call, id, target) && log[j] == ChangedOutside(target)
  }

  /** Every plan made for the object named it by the same text. */
  ghost predicate OneTextFor(c: Config, log: seq<Entry>, target: Target) {
    forall p, q
      | RecordStaged(p) in log && RecordStaged(q) in log && PlansFor(c, p, target) && PlansFor(c, q, target) ::
      p.device == q.device
  }

  /** So callers who name an object by one text never lose each other's updates: only an outsider's
      change can come between. */
  lemma OneTextKeepsUpdates(c: Config, w: World, k: nat) returns (plan: Record)
    requires Reachable(c, w) && k < |w.log| && w.log[k].Landed? && w.log[k].replaced.Some?
    requires OneTextFor(c, w.log[..k], w.log[k].target)
    requires !ChangedSince(w.log[..k], w.log[k].call, w.log[k].id, w.log[k].target)
    ensures RecordStaged(plan) in w.log[..k] && plan.id == w.log[k].id
    ensures w.log[k].replaced == Some(plan.preview.before)
  {
    ReachableIsLawful(c, w);
    hide *;
    var reader;
    plan, reader := LandingHasItsRead(c, w.log, k);
    PrefixIsLawful(c, w.log, k);
    OneTextIsUndisturbed(c, w.log[..k], w.log[k].call, w.log[k].id, w.log[k].target, plan);
  }

  lemma OneTextIsUndisturbed(c: Config, log: seq<Entry>, call: Call, id: string, target: Target, plan: Record)
    requires Lawful(c, log) && RecordStaged(plan) in log && PlansFor(c, plan, target)
    requires OneTextFor(c, log, target) && !ChangedSince(log, call, id, target)
    ensures !Disturbed(log, call, id, target, plan.device)
  {
    forall i, j | 0 <= i < j < |log| && log[i] == DriftChecked(call, id, target)
      ensures !Intrudes(log, log[j], target, plan.device)
    {
      if log[j].Landed? && log[j].target == target && log[j].replaced.Some? {
        LandsAsNamed(c, log, j, plan);
      }
    }
    hide Intrudes;
  }

  lemma LandsAsNamed(c: Config, log: seq<Entry>, j: nat, plan: Record)
    requires Lawful(c, log) && j < |log| && log[j].Landed? && log[j].replaced.Some?
    requires RecordStaged(plan) in log && PlansFor(c, plan, log[j].target) && OneTextFor(c, log, log[j].target)
    ensures !PlannedElsewhere(log, log[j].id, plan.device)
  {
    var own, reader := LandingHasItsRead(c, log, j);
    hide PlansFor;
    assert RecordStaged(own) in log;
    forall other | RecordStaged(other) in log && other.id == log[j].id ensures other.device == plan.device {
      PlansAreUnique(c, log, other, own);
    }
  }

  lemma StagedInherits(c: Config, log: seq<Entry>, plan: Record)
    requires Lawful(c, log) && RecordStaged(plan) in log
    ensures OnlyInherited(plan.preview.before, plan.preview.after)
  {
    StagedIsSound(c, log, plan);
    hide Lawful;
    hide OnlyInherited;
  }

  lemma SentAsPlanned(c: Config, log: seq<Entry>, k: nat, plan: Record)
    requires Lawful(c, log) && k < |log| && log[k].Landed? && log[k].id == plan.id && RecordStaged(plan) in log[..k]
    ensures Sent(log[k].call, plan.id, plan.preview.after) in log[..k]
  {
    assert LawfulEntry(c, log[..k], log[k]);
    var body :| Sent(log[k].call, plan.id, body) in log[..k];
    PrefixIsLawful(c, log, k);
    var j := LawAt(c, log[..k], Sent(log[k].call, plan.id, body));
    var other :| RecordStaged(other) in log[..k][..j] && other.id == plan.id && body == other.preview.after;
    PlansAreUnique(c, log[..k], other, plan);
  }

  /** An outsider's change made after the drift check is indeed overwritten unseen, whatever it is. */
  lemma OutsideChangeIsOverwritten(c: Config, w: World, call: Call, other: Json, result: Json)
    returns (events: seq<Event>, w': World)
    requires call in w.applies && w.applies[call].stage.Writing? && !IsCreate(w.applies[call].stage.r)
    ensures Run(c, w, events) == Some(w')
    ensures
      var target := UpdateTarget(c, w.applies[call], w.applies[call].stage.r);
      Landed(call, w.applies[call].stage.r.id, target, Some(other)) in w'.log
  {
    hide *;
    var a, r := w.applies[call], w.applies[call].stage.r;
    var target := UpdateTarget(c, a, r);
    var w1, w2 := SendsAnyway(c, w, call, a, r, target, other);
    var w3 := LandsOver(c, w2, call, a, r, other, result);
    events, w' := [Outside(target, Some(other)), Send(call), Land(call, "", result)], w3;
    ThreeSteps(c, w, w1, w2, w3, events);
  }

  lemma SendsAnyway(c: Config, w: World, call: Call, a: Apply, r: Record, target: Target, other: Json)
    returns (w1: World, w2: World)
    requires call in w.applies && w.applies[call] == a && a.stage == Writing(r)
    ensures Next(c, w, Outside(target, Some(other))) == Some(w1) && Next(c, w1, Send(call)) == Some(w2)
    ensures call in w2.applies && w2.applies[call] == a.(stage := InFlight(r, false))
    ensures target in w2.objects && w2.objects[target] == other
  {
    hide Key;
    w1 := OutsideStep(w, target, Some(other));
    w2 := SendStep(w1, call).value;
  }

  lemma LandsOver(c: Config, w: World, call: Call, a: Apply, r: Record, other: Json, result: Json) returns (w': World)
    requires call in w.applies && w.applies[call] == a.(stage := InFlight(r, false)) && !IsCreate(r)
    requires UpdateTarget(c, a, r) in w.objects && w.objects[UpdateTarget(c, a, r)] == other
    ensures Next(c, w, Land(call, "", result)) == Some(w')
    ensures Landed(call, r.id, UpdateTarget(c, a, r), Some(other)) in w'.log
  {
    hide Key;
    w' := LandStep(c, w, call, "", result).value;
  }

  lemma ThreeSteps(c: Config, w: World, w1: World, w2: World, w3: World, events: seq<Event>)
    requires |events| == 3
    requires Next(c, w, events[0]) == Some(w1) && Next(c, w1, events[1]) == Some(w2)
    requires Next(c, w2, events[2]) == Some(w3)
    ensures Run(c, w, events) == Some(w3)
  {
    hide Next;
    assert events[1..][0] == events[1] && events[1..][1..][0] == events[2] && events[1..][1..][1..] == [];
    assert Run(c, w3, []) == Some(w3);
    assert Run(c, w2, events[1..][1..]) == Some(w3);
    assert Run(c, w1, events[1..]) == Some(w3);
  }
}
