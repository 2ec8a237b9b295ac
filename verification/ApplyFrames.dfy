/** What one step leaves alone: everything about the other calls. */
module ApplyFrames {
  import opened Wrappers
  import opened JsonValues
  import opened MergePatch
  import opened ChangeSets
  import opened ApplyProtocol
  import opened ApplyLaws

  /** `after` is `before` with at most one entry more. */
  lemma GrowsKeeps(before: seq<Entry>, after: seq<Entry>, added: Option<Entry>)
    requires after == Noted(before, added)
    ensures forall e | e in before :: e in after
    ensures forall e | e in after :: e in before || added == Some(e)
  {
  }

  lemma IntrudesGrows(before: seq<Entry>, after: seq<Entry>, added: Option<Entry>, e: Entry, target: Target,
                      key: string)
    requires after == Noted(before, added) && Intrudes(before, e, target, key)
    ensures Intrudes(after, e, target, key)
  {
    GrowsKeeps(before, after, added);
    if e != ChangedOutside(target) {
      var plan :| RecordStaged(plan) in before && plan.id == e.id && plan.device != key;
      assert RecordStaged(plan) in after;
    }
  }

  lemma DisturbedGrows(before: seq<Entry>, after: seq<Entry>, added: Option<Entry>, call: Call, id: string,
                       target: Target, key: string)
    requires after == Noted(before, added)
    ensures Disturbed(before, call, id, target, key) ==> Disturbed(after, call, id, target, key)
    ensures DriftChecked(call, id, target) in before && added.Some? && Intrudes(before, added.value, target, key)
            ==> Disturbed(after, call, id, target, key)
  {
    hide Intrudes;
    if Disturbed(before, call, id, target, key) {
      var i, j :|
        && 0 <= i < j < |before| && before[i] == DriftChecked(call, id, target)
        && Intrudes(before, before[j], target, key);
      IntrudesGrows(before, after, added, before[j], target, key);
      assert after[i] == before[i] && after[j] == before[j];
    }
    if DriftChecked(call, id, target) in before && added.Some? && Intrudes(before, added.value, target, key) {
      var i :| 0 <= i < |before| && before[i] == DriftChecked(call, id, target);
      IntrudesGrows(before, after, added, added.value, target, key);
      assert after[i] == before[i] && after[|before|] == added.value;
    }
  }

  /** Stored states that this call has claimed do not move. */
  ghost predicate ClaimsKept(w: World, w': World, call: Call) {
    forall id, handleless | Claimed(call, id, handleless) in w.log && id in w.records ::
      id in w'.records && (w'.records[id].state == w.records[id].state || w'.records[id].state == Failed)
  }

  ghost predicate StatesKept(w: World, w': World, call: Call) {
    forall id, handleless | Claimed(call, id, handleless) in w.log && id in w.records ::
      id in w'.records && w'.records[id].state == w.records[id].state
  }

  /** No object changes, unless it is a logged change by someone whom this key does not keep out. */
  ghost predicate ObjectsKept(w: World, w': World, added: Option<Entry>, key: string) {
    forall target | target in w.objects ::
      || (added.Some? && Intrudes(w.log, added.value, target, key))
      || (target in w'.objects && w'.objects[target] == w.objects[target])
  }

  lemma TargetFramed(c: Config, w: World, w': World, added: Option<Entry>, call: Call, a: Apply, r: Record)
    requires w'.log == Noted(w.log, added)
    requires TargetOk(c, w, call, a, r) && ObjectsKept(w, w', added, r.device)
    ensures TargetOk(c, w', call, a, r)
  {
    GrowsKeeps(w.log, w'.log, added);
    hide Disturbed;
    hide Intrudes;
    if !IsCreate(r) {
      DisturbedGrows(w.log, w'.log, added, call, a.id, UpdateTarget(c, a, r), r.device);
    }
  }

  lemma CopyFramed(before: seq<Entry>, after: seq<Entry>, added: Option<Entry>, call: Call, a: Apply, r: Record)
    requires after == Noted(before, added) && CopyOk(before, call, a, r)
    ensures CopyOk(after, call, a, r)
  {
    GrowsKeeps(before, after, added);
    var now, expiresAt :| Fetched(call, a.id, now, expiresAt) in before;
    assert Fetched(call, a.id, now, expiresAt) in after;
  }

  lemma ReceiptFramed(before: seq<Entry>, after: seq<Entry>, added: Option<Entry>, call: Call)
    requires after == Noted(before, added)
    ensures HasReceipt(before, call) ==> HasReceipt(after, call)
  {
    GrowsKeeps(before, after, added);
    if HasReceipt(before, call) {
      if other, success :| Receipt(call, other, success) in before {
        assert Receipt(call, other, success) in after;
      } else {
        var other :| ReceiptLost(call, other) in before;
        assert ReceiptLost(call, other) in after;
      }
    }
  }

  /** What was read and answered stays so; only the call itself adds to that. */
  lemma ReadingFramed(before: seq<Entry>, after: seq<Entry>, added: Option<Entry>, call: Call, id: string, body: Json)
    requires after == Noted(before, added)
    ensures ReadAs(before, call, id, body) ==> ReadAs(after, call, id, body)
    ensures WasAnswered(before, call, id) ==> WasAnswered(after, call, id)
    ensures (added.Some? ==> !ByApply(added.value, call)) || (added.Some? && added.value.Receipt?) ||
            (added.Some? && added.value.ReceiptLost?) ==>
              && (ReadAs(after, call, id, body) ==> ReadAs(before, call, id, body))
              && (WasAnswered(after, call, id) ==> WasAnswered(before, call, id))
  {
    GrowsKeeps(before, after, added);
    forall target | VerifyRead(call, id, target, Some(body)) in before
      ensures VerifyRead(call, id, target, Some(body)) in after
    {
    }
    forall named | Answered(call, id, named) in before ensures Answered(call, id, named) in after {
    }
  }

  /** A call that takes no part in a step stays as it should be. */
  lemma BystanderFramed(c: Config, w: World, w': World, added: Option<Entry>, call: Call, a: Apply)
    requires w'.log == Noted(w.log, added) && (added.Some? ==> !ByApply(added.value, call))
    requires ApplyOk(c, w, call, a)
    requires StatesKept(w, w', call)
    requires Holding(a.stage) ==> ObjectsKept(w, w', added, Key(a))
    ensures ApplyOk(c, w', call, a)
  {
    if Holding(a.stage) {
      HolderFramed(c, w, w', added, call, a);
    } else {
      GrowsKeeps(w.log, w'.log, added);
      if a.stage.Returned? { ReturnFramed(c, w, w', added, call, a); }
    }
  }

  lemma HolderFramed(c: Config, w: World, w': World, added: Option<Entry>, call: Call, a: Apply)
    requires w'.log == Noted(w.log, added) && (added.Some? ==> !ByApply(added.value, call))
    requires Holding(a.stage) && ApplyOk(c, w, call, a)
    requires StatesKept(w, w', call) && ObjectsKept(w, w', added, Key(a))
    ensures ApplyOk(c, w', call, a)
  {
    hide ReturnOk;
    GrowsKeeps(w.log, w'.log, added);
    ReceiptFramed(w.log, w'.log, added, call);
    hide HasReceipt;
    if !a.stage.Fetching? {
      CopyFramed(w.log, w'.log, added, call, a, a.stage.r);
      ReadingFramed(w.log, w'.log, added, call, a.id, a.stage.r.preview.after);
    }
    hide ReadAs;
    hide WasAnswered;
    hide CopyOk;
    if a.stage.CheckingOrg? || a.stage.RecordingIntent? || a.stage.Claiming? || a.stage.Writing? ||
       (a.stage.InFlight? && !a.stage.landed) {
      TargetFramed(c, w, w', added, call, a, a.stage.r);
    }
    hide TargetOk;
  }

  lemma ReturnFramed(c: Config, w: World, w': World, added: Option<Entry>, call: Call, a: Apply)
    requires w'.log == Noted(w.log, added) && (added.Some? ==> !ByApply(added.value, call))
    requires ReturnOk(c, w, call, a) && ClaimsKept(w, w', call)
    ensures ReturnOk(c, w', call, a)
  {
    GrowsKeeps(w.log, w'.log, added);
    ReceiptFramed(w.log, w'.log, added, call);
    forall id, handleless | Claimed(call, id, handleless) in w'.log
      ensures id in w'.records && (w'.records[id].state == Applying ==> UpdateRefused(call, id) in w'.log)
    {
      assert Claimed(call, id, handleless) in w.log;
    }
    if c.recorder && exists id :: WasAnswered(w'.log, call, id) {
      var id :| WasAnswered(w'.log, call, id);
      ReadingFramed(w.log, w'.log, added, call, id, Null);
    }
  }
}
