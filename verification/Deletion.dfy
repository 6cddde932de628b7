/**
 When a delete may report the volume as gone.

 A delete records the deletion policy of the object before it asks for the deletion and decides by
 that record afterwards.  As long as no edit takes a recorded `Delete` back, it means that the operator
 removed the volume before it let the object go; without that record the instance only ever becomes
 `Detached`.
 */
module Deletion {
  import opened Wrappers
  import opened Protocol
  import opened Effects
  import Identity
  import Fencing

  // ----- The operator never gives the volume to an object that is gone

  /** Whatever a version with a finalizer was to take over is already in its hands, or later ones, when it is gone. */
  predicate Passed(s: State, v: Instance) {
    v.finalizer && Gone(s, v.uid) && v.spec.reclaim.Some? && s.volume.Some? && s.volume.value.uid == v.spec.reclaim.value.volume ==>
      v.uid <= s.volume.value.owner
  }

  predicate Anchors(s: State) {
    && (forall v | v in s.history.seen :: Passed(s, v))
    && (s.instance.Some? && !s.instance.value.finalizer ==>
          forall v | v in s.history.seen && v.finalizer :: v.uid != s.instance.value.uid)
    && (s.volume.Some? ==> exists v | v in s.history.seen :: v.finalizer && v.uid == s.volume.value.owner)
  }

  /** What a step does to the volume. */
  predicate VolumeStays(s: State, t: State) {
    t.volume.Some? ==> s.volume.Some? && t.volume.value.uid == s.volume.value.uid && t.volume.value.owner == s.volume.value.owner
  }

  lemma WorkVolume(s: State, c: nat, action: Action)
    requires MayWork(s, c, action)
    ensures VolumeStays(s, DoWork(s, c, action))
  {
  }

  lemma VolumeEffect(s: State, step: Step)
    requires Enabled(s, step)
    ensures VolumeStays(s, Apply(s, step)) ||
            (step.Operate? && (step.write.Transfer? || step.write.ProvisionVolume?) && Kept(s, Apply(s, step)))
  {
    if step.Work? { WorkVolume(s, step.c, step.action); }
  }

  /** A volume is taken over only by the object that exists, from whatever stale version the operator works. */
  lemma TransferTakesCurrent(s: State, read: Instance)
    requires Identity.Base(s) && Anchors(s) && CanTransfer(s, read)
    ensures s.instance.Some? && s.instance.value.uid == read.uid
  {
    assert Identity.VersionInv(s, read) && Passed(s, read);
  }

  lemma VolumeKeepsAnchors(s: State, step: Step)
    requires Identity.Base(s) && Anchors(s) && Enabled(s, step) && step.Operate? && (step.write.Transfer? || step.write.ProvisionVolume?)
    ensures Anchors(Apply(s, step))
  {
    var t := Apply(s, step);
    if step.write.Transfer? { TransferTakesCurrent(s, step.write.read); }
    forall v | v in t.history.seen ensures Passed(t, v) { assert Passed(s, v) && Identity.VersionInv(s, v); }
    assert step.write.read in t.history.seen;
  }

  lemma RemovalKeepsAnchors(s: State, t: State)
    requires Identity.Base(s) && Anchors(s) && Removed(s, t) && t.volume == s.volume
    requires
      || !s.instance.value.finalizer
      || (s.volume.Some? ==> s.volume.value.owner == s.instance.value.uid)
    ensures Anchors(t)
  {
    forall v | v in t.history.seen ensures Passed(t, v) { assert Passed(s, v); }
  }

  /** A version is added of the object there is, or of a new one; finalizers are never taken off by themselves. */
  predicate Continued(s: State, t: State) {
    && t.instance.Some?
    && t.history.seen == s.history.seen + {t.instance.value}
    && (if s.instance.Some?
        then t.instance.value.uid == s.instance.value.uid && (s.instance.value.finalizer ==> t.instance.value.finalizer)
        else t.instance.value.uid == s.nextUid && !t.instance.value.finalizer)
  }

  lemma ContinuedKeepsAnchors(s: State, t: State)
    requires Identity.Base(s) && Anchors(s) && VolumeStays(s, t) && (Kept(s, t) || Continued(s, t))
    ensures Anchors(t)
  {
    forall v | v in t.history.seen ensures Passed(t, v) {
      if v in s.history.seen { assert Passed(s, v) && Identity.VersionInv(s, v); }
    }
    forall v | v in t.history.seen && v.finalizer && t.instance.Some? && !t.instance.value.finalizer
      ensures v.uid != t.instance.value.uid
    {
      assert v in s.history.seen && Identity.VersionInv(s, v);
    }
    if t.volume.Some? {
      var v :| v in s.history.seen && v.finalizer && v.uid == s.volume.value.owner;
      assert v in t.history.seen;
    }
  }

  /** What becomes of the object: it stays, gains a version, or is removed by its release or by a bare delete. */
  predicate Ending(s: State, step: Step, t: State) {
    && Removed(s, t) && t.volume == s.volume
    && (!s.instance.value.finalizer || (step.Operate? && step.write.ReleaseInstance?))
  }

  lemma ObjectEffect(s: State, step: Step)
    requires Identity.Base(s) && Enabled(s, step)
    ensures Kept(s, Apply(s, step)) || Continued(s, Apply(s, step)) || Ending(s, step, Apply(s, step))
  {
    if step.Work? { WorkObject(s, step.c, step.action); }
  }

  lemma WorkObject(s: State, c: nat, action: Action)
    requires Identity.Base(s) && MayWork(s, c, action)
    ensures Kept(s, DoWork(s, c, action)) || Continued(s, DoWork(s, c, action)) || Ending(s, Work(c, action), DoWork(s, c, action))
  {
    hide Identity.Base;
    WorkEffect(s, c, action);
    if action.Write? { WriteObject(s, c, action.lost); }
  }

  lemma WriteObject(s: State, c: nat, lost: bool)
    requires MayWork(s, c, Write(lost))
    ensures Kept(s, DoWrite(s, c, lost)) || Continued(s, DoWrite(s, c, lost))
  {
  }

  lemma StepKeepsAnchors(s: State, step: Step)
    requires Identity.Base(s) && Anchors(s) && Enabled(s, step)
    ensures Anchors(Apply(s, step))
  {
    hide Identity.Base, Anchors, DoWork, DoAdmit;
    var t := Apply(s, step);
    ObjectEffect(s, step);
    VolumeEffect(s, step);
    if step.Operate? && (step.write.Transfer? || step.write.ProvisionVolume?) {
      VolumeKeepsAnchors(s, step);
    } else if Ending(s, step, t) {
      RemovalKeepsAnchors(s, t);
    } else {
      ContinuedKeepsAnchors(s, t);
    }
  }

  // ----- The recorded policy

  /** The object `uid` has the policy Delete, and if it is gone its volume went before it. */
  predicate Disposes(s: State, uid: Uid) {
    && (s.instance.Some? && s.instance.value.uid == uid ==> s.instance.value.spec.policy.Delete?)
    && (Gone(s, uid) && s.volume.Some? ==> s.volume.value.owner != uid)
  }

  predicate Last(s: State, op: nat) {
    op + 1 == |s.operations|
  }

  predicate RowInv(s: State, op: nat)
    requires op < |s.operations|
  {
    var row := s.operations[op];
    row.request.Remove? ==>
      && row.request.uid < s.nextUid
      && (Last(s, op) ==>
            && s.uid == Some(row.request.uid)
            && (row.policy == Some(Delete) ==> Disposes(s, row.request.uid)))
  }

  predicate RemoveStage(stage: Stage) {
    || stage.ReadingInstance? || stage.CapturingPolicy? || stage.IssuingDelete? || stage.Listing? || stage.Cleaning?
    || stage.Waiting? || stage.Failing? || stage.Released?
  }

  /** The stages of a claim that deletes a volume on request. */
  predicate VolumeStage(stage: Stage) {
    || stage.ReadingVolume? || stage.ConfirmingVolume? || stage.IssuingVolumeDelete? || stage.Cleaning?
    || stage.Waiting? || stage.Failing? || stage.Released?
  }

  /** What a claim of the delete of `uid` holds. */
  predicate ClaimInv(s: State, claim: Claim, uid: Uid) {
    && RemoveStage(claim.stage)
    && (claim.stage.Listing? || claim.stage.Cleaning? ==> Gone(s, uid))
    && (claim.stage.CapturingPolicy? && claim.answer.Some? ==> claim.answer.value.uid == uid)
    && (Last(s, claim.operation) && Recording(claim) ==> Disposes(s, uid))
  }

  /** A claim of a delete that has not let go knows of the policy Delete, from the record or from the object it has just read. */
  predicate Recording(claim: Claim) {
    && !claim.stage.Released?
    && (claim.policy == Some(Delete) || (claim.stage.CapturingPolicy? && claim.answer.Some? && claim.answer.value.spec.policy.Delete?))
  }

  /** The newest operation is a delete of the current object that has recorded, or is about to record, the policy Delete. */
  predicate Recorded(s: State) {
    && s.operations != []
    && var op := |s.operations| - 1;
       var row := s.operations[op];
       && row.request.Remove? && s.instance.Some? && s.instance.value.uid == row.request.uid
       && (|| row.policy == Some(Delete)
           || exists d | 0 <= d < |s.claims| :: s.claims[d].operation == op && Recording(s.claims[d]))
  }

  /** The edit claim `c` is about to make goes through and takes the policy Delete back after a delete has recorded it. */
  predicate Withdraws(s: State, c: nat) {
    && At(s, c, Writing) && Row(s, c).request.Edits() && Row(s, c).request.desired.policy.Retain?
    && s.instance.Some? && !s.instance.value.deleting && s.instance.value.operation != s.claims[c].operation
    && Expects(Row(s, c).request, s.instance.value)
    && Recorded(s)
  }

  predicate Steady(s: State, step: Step) {
    step.Work? && step.action.Write? ==> !Withdraws(s, step.c)
  }

  predicate Removing(s: State, claim: Claim) {
    claim.operation < |s.operations| && s.operations[claim.operation].request.Remove?
  }

  predicate Inv(s: State) {
    && Anchors(s)
    && (forall op | 0 <= op < |s.operations| :: RowInv(s, op))
    && (forall c | 0 <= c < |s.claims| && Removing(s, s.claims[c]) ::
          ClaimInv(s, s.claims[c], s.operations[s.claims[c].operation].request.uid))
  }

  predicate Facts(s: State) {
    Identity.Base(s) && Fencing.Inv(s)
  }

  /** A leased claim works on the last operation. */
  lemma LeasedIsLast(s: State, c: nat)
    requires Facts(s) && Claimed(s, c) && Leased(s, c)
    ensures Last(s, s.claims[c].operation) && Row(s, c).Running()
  {
    assert Fencing.RowInv(s, s.claims[c].operation);
  }

  lemma WorkEdit(s: State, c: nat, action: Action)
    requires MayWork(s, c, action)
    requires EditedBy(s, DoWork(s, c, action), s.claims[c].operation)
    ensures action.Write? && At(s, c, Writing) && Row(s, c).request.Edits() && !s.instance.value.deleting
  {
    if action.Write? { UndeletedEdit(s, c, action.lost); }
  }

  lemma UndeletedEdit(s: State, c: nat, lost: bool)
    requires At(s, c, Writing) && Row(s, c).request.Configures() && EditedBy(s, DoWrite(s, c, lost), s.claims[c].operation)
    ensures Row(s, c).request.Edits() && !s.instance.value.deleting
  {
  }

  lemma StepEdit(s: State, step: Step)
    requires Enabled(s, step) && EditedBy(s, Apply(s, step), Writer(s, step)) && Steady(s, step) && Recorded(s)
    ensures Apply(s, step).instance.value.spec.policy.Delete?
  {
    hide DoWork, Recorded;
    if step.Work? {
      WorkEdit(s, step.c, step.action);
    } else {
      NotEdited(s, step);
    }
  }

  lemma NotEdited(s: State, step: Step)
    requires Enabled(s, step) && !step.Work?
    ensures !EditedBy(s, Apply(s, step), 0)
  {
  }

  /** While a delete that has recorded Delete is the last operation, no step changes the policy of its object, or gives the
      volume back to it. */
  lemma DisposesKept(s: State, step: Step, uid: Uid)
    requires Facts(s) && Anchors(s) && Enabled(s, step) && Steady(s, step) && uid < s.nextUid
    requires s.operations != [] && s.operations[|s.operations| - 1].request.Remove? && s.operations[|s.operations| - 1].request.uid == uid
    requires s.instance.Some? && s.instance.value.uid == uid ==> Recorded(s)
    requires Disposes(s, uid)
    ensures Disposes(Apply(s, step), uid)
  {
    hide Facts, DoWork, DoAdmit, Anchors, Recorded, Steady;
    InstanceEffect(s, step);
    ObjectFacts(s, step);
    VolumeEffect(s, step);
    if EditedBy(s, Apply(s, step), Writer(s, step)) && s.instance.value.uid == uid { StepEdit(s, step); }
    if step.Operate? && step.write.Transfer? { TransferTakesCurrent(s, step.write.read); }
  }

  lemma ObjectFacts(s: State, step: Step)
    requires Facts(s) && Anchors(s) && Enabled(s, step)
    ensures Identity.Base(s)
    ensures Removed(s, Apply(s, step)) && s.volume.Some? && s.volume.value.owner == s.instance.value.uid ==>
              s.instance.value.spec.policy.Retain?
  {
    hide Identity.Base, DoWork;
    var t := Apply(s, step);
    ObjectEffect(s, step);
    if Removed(s, t) && s.volume.Some? && s.volume.value.owner == s.instance.value.uid && !s.instance.value.finalizer {
      assert false;
    }
  }

  /** An object that is gone does not come back. */
  lemma GoneStays(s: State, step: Step, uid: Uid)
    requires Enabled(s, step) && uid < s.nextUid && Gone(s, uid)
    ensures Gone(Apply(s, step), uid)
  {
    hide DoWork, DoAdmit;
    InstanceEffect(s, step);
  }

  // ----- Every step keeps it

  /** The parts of a claim and of a row that the record depends on are carried over. */
  predicate ClaimCarried(s: State, claim: Claim, claim': Claim) {
    && claim'.operation == claim.operation
    && claim'.policy == claim.policy
    && (|| (claim'.stage == claim.stage && claim'.answer == claim.answer)
        || claim'.stage.Waiting? || claim'.stage.Failing? || claim'.stage.Released? || claim'.stage.IssuingDelete?
        || (claim'.stage.Cleaning? && (claim.stage.Listing? || claim.stage.Cleaning?)))
    && (claim.stage.Released? ==> claim'.stage.Released?)
  }

  lemma CarriedClaim(s: State, step: Step, claim: Claim, claim': Claim)
    requires Facts(s) && Inv(s) && Enabled(s, step) && Steady(s, step) && Removing(s, claim)
    requires claim in s.claims && ClaimInv(s, claim, s.operations[claim.operation].request.uid)
    requires ClaimCarried(s, claim, claim') && Removing(Apply(s, step), claim')
    requires Appended(s, Apply(s, step)) || SameRequests(s, Apply(s, step))
    ensures ClaimInv(Apply(s, step), claim', s.operations[claim.operation].request.uid)
  {
    assert RowInv(s, claim.operation);
    InvAnchors(s);
    hide Facts, Inv, Disposes, Apply, Enabled, Steady, Gone, Anchors, Expects;
    var uid := s.operations[claim.operation].request.uid;
    if Gone(s, uid) { GoneStays(s, step, uid); }
    assert Recording(claim') ==> Recording(claim);
    if Last(Apply(s, step), claim.operation) {
      LastBefore(s, step, claim.operation);
      if Recording(claim) { DisposesKept(s, step, uid); }
    }
  }

  lemma LastBefore(s: State, step: Step, op: nat)
    requires op < |s.operations| && Enabled(s, step) && Last(Apply(s, step), op)
    requires Appended(s, Apply(s, step)) || SameRequests(s, Apply(s, step))
    ensures Last(s, op)
  {
    hide Apply, Enabled;
  }

  lemma InvAnchors(s: State)
    requires Inv(s)
    ensures Anchors(s)
  {
  }

  lemma CarriedRow(s: State, step: Step, op: nat)
    requires Facts(s) && Inv(s) && Enabled(s, step) && Steady(s, step) && op < |s.operations|
    requires op < |Apply(s, step).operations|
    requires Apply(s, step).operations[op].request == s.operations[op].request
    requires Apply(s, step).operations[op].policy == s.operations[op].policy
    requires Last(Apply(s, step), op) ==> Last(s, op) && (s.operations[op].request.Remove? ==> Apply(s, step).uid == s.uid)
    requires s.nextUid <= Apply(s, step).nextUid
    ensures RowInv(Apply(s, step), op)
  {
    assert RowInv(s, op);
    hide Facts, Inv, Disposes, Apply, Enabled, Steady;
    InvAnchors(s);
    var row := s.operations[op];
    if Last(Apply(s, step), op) && row.request.Remove? && row.policy == Some(Delete) {
      DisposesKept(s, step, row.request.uid);
    }
  }

  /** Claims other than `x` are carried, rows other than `op` keep their policy, and no delete loses its binding. */
  predicate Carried(s: State, t: State, x: nat, op: nat) {
    && (Appended(s, t) || SameRequests(s, t))
    && s.nextUid <= t.nextUid
    && (s.operations != [] && s.operations[|s.operations| - 1].request.Remove? ==> t.uid == s.uid)
    && (forall i | 0 <= i < |t.operations| && i != op :: i < |s.operations| && t.operations[i].policy == s.operations[i].policy)
    && (forall c | 0 <= c < |t.claims| && c != x :: c < |s.claims| && ClaimKept(s, s.claims[c], t.claims[c]))
  }

  predicate ClaimKept(s: State, claim: Claim, claim': Claim) {
    && claim.operation < |s.operations| && claim'.operation == claim.operation
    && (Removing(s, claim) ==> ClaimCarried(s, claim, claim'))
  }

  lemma SameRequest(s: State, t: State, i: nat)
    requires (Appended(s, t) || SameRequests(s, t)) && i < |s.operations|
    ensures i < |t.operations| && t.operations[i].request == s.operations[i].request
    ensures Last(t, i) ==> Last(s, i)
  {
    assert Appended(s, t) ==> t.operations[..|s.operations|][i] == s.operations[i];
  }

  predicate RowHolds(t: State, op: nat) {
    op < |t.operations| ==> RowInv(t, op)
  }

  predicate ClaimHolds(t: State, c: nat) {
    c < |t.claims| && Removing(t, t.claims[c]) ==>
      ClaimInv(t, t.claims[c], t.operations[t.claims[c].operation].request.uid)
  }

  lemma CarriedRows(s: State, step: Step, x: nat, op: nat)
    requires Facts(s) && Inv(s) && Enabled(s, step) && Steady(s, step) && Carried(s, Apply(s, step), x, op)
    requires RowHolds(Apply(s, step), op)
    ensures forall i | 0 <= i < |Apply(s, step).operations| :: RowInv(Apply(s, step), i)
  {
    var t := Apply(s, step);
    hide Facts, Inv, RowInv, Apply, Enabled, Steady, Carried;
    forall i | 0 <= i < |t.operations| ensures RowInv(t, i) { CarriedRowAt(s, step, x, op, i); }
  }

  lemma CarriedRowAt(s: State, step: Step, x: nat, op: nat, i: nat)
    requires Facts(s) && Inv(s) && Enabled(s, step) && Steady(s, step) && Carried(s, Apply(s, step), x, op)
    requires RowHolds(Apply(s, step), op) && i < |Apply(s, step).operations|
    ensures RowInv(Apply(s, step), i)
  {
    hide Facts, Inv, RowInv, Apply, Enabled, Steady, Appended, SameRequests;
    if i != op {
      assert Apply(s, step).operations[i].policy == s.operations[i].policy;
      SameRequest(s, Apply(s, step), i);
      CarriedRow(s, step, i);
    }
  }

  lemma CarriedClaims(s: State, step: Step, x: nat, op: nat)
    requires Facts(s) && Inv(s) && Enabled(s, step) && Steady(s, step) && Carried(s, Apply(s, step), x, op)
    requires ClaimHolds(Apply(s, step), x)
    ensures forall c | 0 <= c < |Apply(s, step).claims| :: ClaimHolds(Apply(s, step), c)
  {
    var t := Apply(s, step);
    hide Facts, Apply, Enabled, Steady, Appended, SameRequests, ClaimInv, RowInv, Anchors;
    forall c | 0 <= c < |t.claims| ensures ClaimHolds(t, c) {
      if c != x && Removing(t, t.claims[c]) {
        SameRequest(s, t, s.claims[c].operation);
        CarriedClaim(s, step, s.claims[c], t.claims[c]);
      }
    }
  }

  lemma CarriedKeeps(s: State, step: Step, x: nat, op: nat)
    requires Facts(s) && Inv(s) && Enabled(s, step) && Steady(s, step) && Carried(s, Apply(s, step), x, op)
    requires RowHolds(Apply(s, step), op) && ClaimHolds(Apply(s, step), x)
    ensures Inv(Apply(s, step))
  {
    var t := Apply(s, step);
    CarriedRows(s, step, x, op);
    CarriedClaims(s, step, x, op);
    InvAnchors(s);
    StepKeepsAnchors(s, step);
    hide RowInv, ClaimInv, Anchors, Facts, Apply, Carried;
    forall c | 0 <= c < |t.claims| && Removing(t, t.claims[c])
      ensures ClaimInv(t, t.claims[c], t.operations[t.claims[c].operation].request.uid)
    {
      assert ClaimHolds(t, c);
    }
  }

  lemma Operations(s: State)
    requires Facts(s)
    ensures forall c | 0 <= c < |s.claims| :: s.claims[c].operation < |s.operations|
    ensures s.uid.Some? ==> s.uid.value < s.nextUid
  {
    forall c | 0 <= c < |s.claims| ensures s.claims[c].operation < |s.operations| { assert Fencing.ClaimInv(s, c); }
  }

  lemma AdmitCarried(s: State, a: Admission)
    requires Facts(s) && MayAdmit(s, a)
    ensures Carried(s, DoAdmit(s, a), |s.claims|, |s.operations|)
    ensures RowHolds(DoAdmit(s, a), |s.operations|) && ClaimHolds(DoAdmit(s, a), |s.claims|)
  {
    Operations(s);
    hide Facts;
    AdmitRowEffect(s, a);
  }

  lemma OtherCarried(s: State, step: Step)
    requires Facts(s) && Enabled(s, step) && (step.Operate? || step.Pass?)
    ensures Carried(s, Apply(s, step), |s.claims|, |s.operations|)
    ensures RowHolds(Apply(s, step), |s.operations|) && ClaimHolds(Apply(s, step), |s.claims|)
  {
    Operations(s);
    hide Facts;
  }

  /** A new claim copies the recorded policy. */
  lemma TakeCarried(s: State, op: nat)
    requires Facts(s) && Inv(s) && CanTake(s, op)
    ensures Carried(s, DoTake(s, op), |s.claims|, |s.operations|)
    ensures RowHolds(DoTake(s, op), |s.operations|) && ClaimHolds(DoTake(s, op), |s.claims|)
  {
    assert RowInv(s, op);
    Operations(s);
    hide Facts, Inv;
  }

  /** The policy of the object as read is its policy. */
  lemma ReadCarried(s: State, c: nat)
    requires Facts(s) && MayWork(s, c, ReadForRemove) && (forall d | 0 <= d < |s.claims| :: ClaimHolds(s, d))
    ensures Carried(s, DoWork(s, c, ReadForRemove), c, |s.operations|) && ClaimHolds(DoWork(s, c, ReadForRemove), c)
  {
    assert ClaimHolds(s, c);
    ReadDisposes(s, c);
    Operations(s);
    hide DoWork, Facts, ClaimHolds;
    WorkRowEffect(s, c, ReadForRemove);
    WorkClaims(s, c, ReadForRemove);
    WorkRest(s, c, ReadForRemove);
    WorkPolicies(s, c, ReadForRemove);
    WorkNext(s, c, ReadForRemove);
  }

  lemma ReadDisposes(s: State, c: nat)
    requires MayWork(s, c, ReadForRemove) && ClaimHolds(s, c)
    ensures ClaimHolds(DoWork(s, c, ReadForRemove), c)
  {
  }

  lemma CaptureCarried(s: State, c: nat)
    requires Facts(s) && Inv(s) && MayWork(s, c, CapturePolicy)
    ensures Carried(s, DoCapturePolicy(s, c), c, s.claims[c].operation)
    ensures ClaimHolds(DoCapturePolicy(s, c), c) && RowHolds(DoCapturePolicy(s, c), s.claims[c].operation)
  {
    assert RowInv(s, s.claims[c].operation);
    Operations(s);
    if Leased(s, c) { LeasedIsLast(s, c); }
    hide Facts;
  }

  lemma BindCarried(s: State, c: nat)
    requires Facts(s) && Inv(s) && MayWork(s, c, Bind)
    ensures Carried(s, DoBind(s, c), |s.claims|, |s.operations|)
    ensures RowHolds(DoBind(s, c), |s.operations|) && ClaimHolds(DoBind(s, c), |s.claims|)
  {
    Operations(s);
    assert !Row(s, c).request.Remove?;
    if Leased(s, c) { LeasedIsLast(s, c); }
    hide Facts, Inv;
  }

  /** All other actions: a claim of a delete only moves on, and no policy changes. */
  lemma WorkCarried(s: State, c: nat, action: Action)
    requires Facts(s) && Inv(s) && MayWork(s, c, action) && !action.CapturePolicy? && !action.ReadForRemove? && !action.Bind?
    ensures Carried(s, DoWork(s, c, action), |s.claims|, |s.operations|)
  {
    hide DoWork;
    WorkRowEffect(s, c, action);
    WorkClaims(s, c, action);
    WorkRest(s, c, action);
    WorkPolicies(s, c, action);
    WorkNext(s, c, action);
    Operations(s);
    hide Facts, Identity.Base;
    if Row(s, c).request.Remove? { OwnCarried(s, c, action); }
  }

  lemma WorkPolicies(s: State, c: nat, action: Action)
    requires MayWork(s, c, action) && !action.CapturePolicy?
    ensures forall i | 0 <= i < |s.operations| && i < |DoWork(s, c, action).operations| ::
              DoWork(s, c, action).operations[i].policy == s.operations[i].policy
  {
  }

  lemma WorkNext(s: State, c: nat, action: Action)
    requires MayWork(s, c, action)
    ensures s.nextUid <= DoWork(s, c, action).nextUid
  {
  }

  lemma OwnCarried(s: State, c: nat, action: Action)
    requires MayWork(s, c, action) && !action.CapturePolicy? && !action.ReadForRemove?
    requires Row(s, c).request.Remove? && RemoveStage(s.claims[c].stage)
    ensures c < |DoWork(s, c, action).claims| && ClaimCarried(s, s.claims[c], DoWork(s, c, action).claims[c])
  {
  }

  lemma StepKeeps(s: State, step: Step)
    requires Facts(s) && Inv(s) && Enabled(s, step) && Steady(s, step)
    ensures Inv(Apply(s, step))
  {
    match step {
      case Admit(a) =>
        AdmitCarried(s, a);
        CarriedKeeps(s, step, |s.claims|, |s.operations|);
      case Take(op) => TakeCarried(s, op); CarriedKeeps(s, step, |s.claims|, |s.operations|);
      case Work(c, action) => WorkKeeps(s, c, action);
      case _ => OtherCarried(s, step); CarriedKeeps(s, step, |s.claims|, |s.operations|);
    }
  }

  lemma WorkKeeps(s: State, c: nat, action: Action)
    requires Facts(s) && Inv(s) && MayWork(s, c, action) && Steady(s, Work(c, action))
    ensures Inv(DoWork(s, c, action))
  {
    var step := Work(c, action);
    hide Carried, RowHolds, ClaimHolds, Inv, Facts;
    if action.ReadForRemove? {
      ClaimsHold(s);
      ReadCarried(s, c);
      NoRow(s, c, action);
      CarriedKeeps(s, step, c, |s.operations|);
    } else if action.CapturePolicy? {
      CaptureCarried(s, c);
      CarriedKeeps(s, step, c, s.claims[c].operation);
    } else if action.Bind? {
      BindCarried(s, c);
      CarriedKeeps(s, step, |s.claims|, |s.operations|);
    } else {
      WorkCarried(s, c, action);
      NoRow(s, c, action);
      CarriedKeeps(s, step, |s.claims|, |s.operations|);
    }
  }

  lemma ClaimsHold(s: State)
    requires Inv(s)
    ensures forall d | 0 <= d < |s.claims| :: ClaimHolds(s, d)
  {
  }

  lemma NoRow(s: State, c: nat, action: Action)
    requires MayWork(s, c, action)
    ensures RowHolds(DoWork(s, c, action), |s.operations|) && ClaimHolds(DoWork(s, c, action), |s.claims|)
  {
    WorkRowEffect(s, c, action);
  }

  // ----- Main results

  lemma {:induction false} RunKeepsAnchors(steps: seq<Step>)
    requires Run(Initial, steps)
    ensures Anchors(After(Initial, steps)) && Identity.Base(After(Initial, steps))
    decreases |steps|
  {
    if steps != [] {
      var front := steps[..|steps| - 1];
      RunKeepsAnchors(front);
      Identity.StepKeepsBase(After(Initial, front), steps[|steps| - 1]);
      StepKeepsAnchors(After(Initial, front), steps[|steps| - 1]);
    }
  }

  /** In every run, without any assumption, the volume is handed over only to the object that exists at that moment. */
  lemma TransferOnlyToCurrent(steps: seq<Step>, read: Instance)
    requires Run(Initial, steps) && CanTransfer(After(Initial, steps), read)
    ensures After(Initial, steps).instance.Some? && After(Initial, steps).instance.value.uid == read.uid
  {
    RunKeepsAnchors(steps);
    TransferTakesCurrent(After(Initial, steps), read);
  }

  /** Taking the policy back leaves a record that is no longer true: the steps that keep the invariant among the writes are
      exactly the others. */
  lemma KeptUnlessWithdrawn(s: State, c: nat, lost: bool)
    requires Facts(s) && Inv(s) && MayWork(s, c, Write(lost))
    ensures Inv(DoWork(s, c, Write(lost))) <==> !Withdraws(s, c)
  {
    hide Inv, Facts, DoWork, Withdraws;
    if Withdraws(s, c) { WithdrawalBreaks(s, c, lost); } else { StepKeeps(s, Work(c, Write(lost))); }
  }

  lemma WithdrawalBreaks(s: State, c: nat, lost: bool)
    requires MayWork(s, c, Write(lost)) && Withdraws(s, c)
    ensures !Inv(DoWork(s, c, Write(lost)))
  {
    var t := DoWork(s, c, Write(lost));
    var op := |s.operations| - 1;
    WorkRowEffect(s, c, Write(lost));
    WorkClaims(s, c, Write(lost));
    Withdrawn(s, c, lost);
    hide DoWork;
    if s.operations[op].policy == Some(Delete) {
      assert !RowInv(t, op);
    } else {
      var d :| 0 <= d < |s.claims| && s.claims[d].operation == op && Recording(s.claims[d]);
      assert Removing(t, t.claims[d]) && !ClaimInv(t, t.claims[d], t.operations[op].request.uid);
    }
  }

  lemma Withdrawn(s: State, c: nat, lost: bool)
    requires MayWork(s, c, Write(lost)) && Withdraws(s, c)
    ensures
      var t := DoWork(s, c, Write(lost));
      && t.operations == s.operations
      && t.instance.Some? && t.instance.value.uid == s.instance.value.uid && t.instance.value.spec.policy.Retain?
  {
    assert DoWork(s, c, Write(lost)) == DoUpdateInstance(s, c, lost);
  }

  ghost predicate SteadyRun(steps: seq<Step>)
    requires Run(Initial, steps)
  {
    forall i | 0 <= i < |steps| && Run(Initial, steps[..i]) :: Steady(After(Initial, steps[..i]), steps[i])
  }

  lemma {:induction false} RunKeeps(steps: seq<Step>)
    requires Run(Initial, steps) && SteadyRun(steps)
    ensures Inv(After(Initial, steps)) && Facts(After(Initial, steps))
    decreases |steps|
  {
    Identity.RunKeepsBase(steps);
    Fencing.RunKeeps(steps);
    if steps != [] {
      var front := steps[..|steps| - 1];
      forall i | 0 <= i < |front| && Run(Initial, front[..i]) ensures Steady(After(Initial, front[..i]), front[i]) {
        assert front[..i] == steps[..i];
      }
      RunKeeps(front);
      StepKeeps(After(Initial, front), steps[|steps| - 1]);
    }
  }

  /** A delete that succeeds finds its object gone, and reports the volume as deleted exactly when a recorded policy
      said so; the volume of that object is then gone as well. */
  lemma DeletedMeansGone(steps: seq<Step>, c: nat)
    requires Run(Initial, steps) && SteadyRun(steps)
    requires MayWork(After(Initial, steps), c, Succeed) && Row(After(Initial, steps), c).request.Remove?
    requires Held(After(Initial, steps), c)
    ensures
      var s := After(Initial, steps);
      var t := DoWork(s, c, Succeed);
      var uid := Row(s, c).request.uid;
      && s.uid == Some(uid) && Gone(s, uid)
      && (t.lifecycle.Deleted? <==> s.claims[c].policy == Some(Delete))
      && (t.lifecycle.Deleted? || t.lifecycle.Detached?)
      && (t.lifecycle.Deleted? && s.volume.Some? ==> s.volume.value.owner != uid)
  {
    var s := After(Initial, steps);
    RunKeeps(steps);
    LeasedIsLast(s, c);
    assert RowInv(s, s.claims[c].operation);
    assert Removing(s, s.claims[c]);
  }
}
