/**
 Which custom resource the binding names, and when the retained volume may change owner.

 The two main results: along every run the bound identity only ever moves forward, and the
 operator moves a volume to an identity only while the binding names that identity.  The second
 needs that no object which is still to take over a volume is deleted before it has a finalizer.
 */
module Identity {
  import opened Wrappers
  import opened Protocol

  // ----- The invariant

  predicate RequestInv(s: State, request: Request) {
    && (request.Provisions() && request.desired.reclaim.Some? ==>
          && request.desired.reclaim.value.previous < s.nextUid
          && request.desired.reclaim.value.volume < s.nextUid)
    && (request.Create? ==> request.desired.reclaim.None?)
    && (request.Reclaim? ==> request.desired.reclaim == Some(ReclaimRef(request.previous, request.volume)))
    && (!request.Create? ==> s.uid.Some?)
    && (request.Edits() ==>
          && request.expectedUid < s.nextUid
          && (s.instance.Some? && s.instance.value.uid == request.expectedUid ==>
                s.instance.value.spec.reclaim == request.desired.reclaim))
    && (request.Rotate? && request.marker.Some? ==>
          request.marker == Some(request.expectedUid) && request.expectedUid in s.history.marked)
  }

  predicate RowsInv(s: State) {
    && (forall i | 0 <= i < |s.operations| - 1 :: !s.operations[i].Running())
    && (forall i | 0 <= i < |s.operations| :: RequestInv(s, s.operations[i].request))
    && (forall i | 0 <= i < |s.operations| && s.operations[i].target.Some? :: i in s.history.boundBy)
  }

  predicate ClaimInv(s: State, claim: Claim) {
    && claim.operation < |s.operations|
    && (claim.target.Some? || claim.stage.Approving? ==> claim.operation in s.history.boundBy)
    && (claim.answer.Some? ==> claim.answer.value in s.history.seen)
    && (claim.stage.Binding? && claim.answer.Some? && s.operations[claim.operation].request.Provisions() ==>
          && claim.answer.value.operation == claim.operation
          && claim.answer.value.spec == s.operations[claim.operation].request.desired)
  }

  predicate ClaimsInv(s: State) {
    forall c | 0 <= c < |s.claims| :: ClaimInv(s, s.claims[c])
  }

  predicate VersionInv(s: State, v: Instance) {
    && v.uid < s.nextUid
    && (v.spec.reclaim.Some? ==> v.spec.reclaim.value.previous < v.uid && v.spec.reclaim.value.volume < v.uid)
    && (v.spec.reclaim.Some? ==> s.uid.Some?)
    && (v.marker.Some? ==> v.marker == Some(v.uid) && v.uid in s.history.marked)
    && (s.instance.Some? ==> v.uid <= s.instance.value.uid)
    && (s.instance.Some? && v.uid == s.instance.value.uid ==> v.spec.reclaim == s.instance.value.spec.reclaim)
  }

  predicate VersionsInv(s: State) {
    && (forall v | v in s.history.seen :: VersionInv(s, v))
    && (s.instance.Some? ==> s.instance.value in s.history.seen)
    && (forall u | u in s.history.marked :: u < s.nextUid)
  }

  predicate BindingInv(s: State) {
    && (s.uid.Some? ==>
          && s.uid.value < s.nextUid
          && (s.instance.Some? ==> s.uid.value <= s.instance.value.uid))
    && (forall op | op in s.history.boundBy ::
          && op < |s.operations|
          && s.history.boundBy[op] in s.history.seen
          && s.uid.Some? && s.history.boundBy[op].uid <= s.uid.value
          && (s.operations[op].request.Provisions() ==> s.history.boundBy[op].spec == s.operations[op].request.desired))
  }

  predicate VolumeInv(s: State) {
    s.volume.Some? ==> s.volume.value.uid < s.nextUid && s.volume.value.owner < s.nextUid
  }

  predicate Base(s: State) {
    RowsInv(s) && ClaimsInv(s) && VersionsInv(s) && BindingInv(s) && VolumeInv(s)
  }

  /** The volume a reclaim version names still has the owner it was to be taken from. */
  predicate Untransferred(s: State, v: Instance) {
    && v.spec.reclaim.Some?
    && s.volume.Some?
    && s.volume.value.uid == v.spec.reclaim.value.volume
    && s.volume.value.owner == v.spec.reclaim.value.previous
  }

  /** A removed reclaim object has left its volume owned by itself or by a later identity. */
  predicate Departed(s: State) {
    forall v | v in s.history.seen && Gone(s, v.uid) && v.spec.reclaim.Some? && s.volume.Some? &&
               s.volume.value.uid == v.spec.reclaim.value.volume ::
      v.uid <= s.volume.value.owner
  }

  /** While a marked version could still take its volume, the binding names it. */
  predicate Covered(s: State) {
    forall v | v in s.history.seen && v.uid in s.history.marked && Untransferred(s, v) :: s.uid == Some(v.uid)
  }

  predicate Safe(s: State) {
    Base(s) && Departed(s) && Covered(s)
  }

  /** The delete that claim `c` is about to issue removes the object at once, for want of a finalizer, and leaves behind the
      volume that object was to take over, still in the hands of an earlier identity. */
  predicate Exposed(s: State, c: nat)
    requires Claimed(s, c)
  {
    && Row(s, c).request.Remove?
    && s.instance.Some? && s.instance.value.uid == Row(s, c).request.uid
    && !s.instance.value.finalizer
    && s.instance.value.spec.reclaim.Some?
    && s.volume.Some?
    && s.volume.value.uid == s.instance.value.spec.reclaim.value.volume
    && s.volume.value.owner < s.instance.value.uid
  }

  predicate Unexposed(s: State, step: Step) {
    step.Work? && step.action.IssueDelete? && Claimed(s, step.c) ==> !Exposed(s, step.c)
  }

  // ----- Every step keeps the base invariant

  lemma ClaimFacts(s: State, c: nat)
    requires Base(s) && c < |s.claims|
    ensures ClaimInv(s, s.claims[c]) && RequestInv(s, Row(s, c).request)
  {
  }

  lemma InstanceFacts(s: State)
    requires Base(s) && s.instance.Some?
    ensures s.instance.value in s.history.seen && VersionInv(s, s.instance.value)
  {
  }

  lemma ClaimChange(s: State, c: nat, claim: Claim)
    requires Base(s) && c < |s.claims| && ClaimInv(s, claim)
    ensures Base(SetClaim(s, c, claim))
  {
  }

  lemma RowChange(s: State, op: nat, row: Operation)
    requires Base(s) && op < |s.operations|
    requires row.request == s.operations[op].request
    requires row.target == s.operations[op].target || op in s.history.boundBy
    requires row.Running() ==> s.operations[op].Running() || op == |s.operations| - 1
    ensures Base(SetRow(s, op, row))
  {
  }

  /** A later version of the current object, with the same identity and the same volume claim. */
  lemma VersionChange(s: State, v: Instance)
    requires Base(s) && s.instance.Some? && v.uid == s.instance.value.uid && v.spec.reclaim == s.instance.value.spec.reclaim
    requires v.marker.Some? ==> v.marker == Some(v.uid) && v.uid in s.history.marked
    ensures Base(SetInstance(s, v))
  {
  }

  lemma FinishKeepsBase(s: State, c: nat, state: OperationState, lifecycle: Lifecycle, reserved: Resources)
    requires Base(s) && Claimed(s, c) && (state.Succeeded? || state.Faulted? || state.Superseded?)
    ensures Base(Finish(s, c, state, lifecycle, reserved))
  {
    if Held(s, c) {
      var op := s.claims[c].operation;
      var t := SetRow(s, op, Row(s, c).(state := state, lease := None, payload := false));
      RowChange(s, op, Row(s, c).(state := state, lease := None, payload := false));
      ClaimChange(t, c, t.claims[c].(stage := Released));
    } else {
      ClaimChange(s, c, s.claims[c].(stage := Released));
    }
  }

  lemma AcceptKeepsBase(s: State, request: Request)
    requires Base(s) && Idle(s) && RequestInv(s, request)
    ensures Base(Accept(s, request))
  {
    var t := Accept(s, request);
    forall c | 0 <= c < |t.claims| ensures ClaimInv(t, t.claims[c]) {
      assert ClaimInv(s, s.claims[c]);
    }
  }

  /** The invariant does not read the lifecycle, the reservation, the credential table, the Secrets or the clock. */
  lemma SameBase(s: State, t: State)
    requires Base(s)
    requires t == s.(now := t.now, lifecycle := t.lifecycle, reserved := t.reserved, credentials := t.credentials,
                     secrets := t.secrets, history := s.history.(ended := t.history.ended))
    ensures Base(t)
  {
  }

  lemma AdmittedKeepsBase(s: State, a: Admission, request: Request)
    requires Base(s) && MayAdmit(s, a) && !a.AcceptRetry? && !a.ReconcileReservation?
    requires DoAdmit(s, a).operations == Accept(s, request).operations
    requires RequestInv(s, request)
    ensures Base(DoAdmit(s, a))
  {
    AcceptKeepsBase(s, request);
    SameBase(Accept(s, request), DoAdmit(s, a));
  }

  lemma EditKeepsBase(s: State, a: Admission)
    requires Base(s) && MayAdmit(s, a) && (a.AcceptUpdate? || a.AcceptRotate?)
    ensures Base(DoAdmit(s, a))
  {
    assert VersionInv(s, a.read);
    if a.AcceptUpdate? {
      AdmittedKeepsBase(s, a, Update(a.desired, a.read.uid, a.read.generation));
    } else {
      AdmittedKeepsBase(s, a, Rotate(a.read.spec.(secret := |s.operations|), a.read.uid, a.read.generation, a.read.marker));
    }
  }

  lemma ProvisionKeepsBase(s: State, a: Admission)
    requires Base(s) && MayAdmit(s, a) && (a.AcceptCreate? || a.AcceptReclaim?)
    ensures Base(DoAdmit(s, a))
  {
    if a.AcceptCreate? {
      AdmittedKeepsBase(s, a, Create(a.desired));
    } else {
      AdmittedKeepsBase(s, a, Reclaim(a.desired, s.uid.value, a.volume));
    }
  }

  lemma RemovalKeepsBase(s: State, a: Admission)
    requires Base(s) && MayAdmit(s, a) && (a.AcceptRemove? || a.AcceptRemoveVolume?)
    ensures Base(DoAdmit(s, a))
  {
    if a.AcceptRemove? {
      AdmittedKeepsBase(s, a, Remove(s.uid.value));
    } else {
      AdmittedKeepsBase(s, a, RemoveVolume(s.uid.value, a.volume));
    }
  }

  lemma RetryKeepsBase(s: State)
    requires Base(s) && CanRetry(s)
    ensures Base(DoRetry(s))
  {
    var op := |s.operations| - 1;
    var row := s.operations[op].(state := Reconciling, lease := None, nextAttempt := s.now);
    RowChange(s, op, row);
    SameBase(SetRow(s, op, row), DoRetry(s));
  }

  lemma AdmitKeepsBase(s: State, a: Admission)
    requires Base(s) && MayAdmit(s, a)
    ensures Base(DoAdmit(s, a))
  {
    hide Base;
    if a.AcceptUpdate? || a.AcceptRotate? {
      EditKeepsBase(s, a);
    } else if a.AcceptCreate? || a.AcceptReclaim? {
      ProvisionKeepsBase(s, a);
    } else if a.AcceptRemove? || a.AcceptRemoveVolume? {
      RemovalKeepsBase(s, a);
    } else if a.AcceptRetry? {
      RetryKeepsBase(s);
    } else {
      SameBase(s, DoAdmit(s, a));
    }
  }

  lemma TakeKeepsBase(s: State, op: nat)
    requires Base(s) && CanTake(s, op)
    ensures Base(DoTake(s, op))
  {
  }

  lemma OperateKeepsBase(s: State, w: OperatorWrite)
    requires Base(s) && MayOperate(s, w)
    ensures Base(DoOperate(s, w))
  {
  }

  lemma CreateKeepsBase(s: State, c: nat, lost: bool)
    requires Base(s) && At(s, c, Writing) && Row(s, c).request.Provisions()
    ensures Base(DoCreateInstance(s, c, lost))
  {
    hide Base;
    ClaimFacts(s, c);
    if s.instance.None? {
      var created := Instance(s.nextUid, 1, s.claims[c].operation, Row(s, c).request.desired, None, false, false, None);
      CreatedKeepsBase(s, s.claims[c].operation, created);
      var t := SetInstance(s, created).(nextUid := s.nextUid + 1);
      ClaimChange(t, c, Answered(t, c, created, lost).claims[c]);
    } else {
      InstanceFacts(s);
      ClaimChange(s, c, DoCreateInstance(s, c, lost).claims[c]);
    }
  }

  lemma CreatedKeepsBase(s: State, op: nat, created: Instance)
    requires Base(s) && op < |s.operations| && s.operations[op].request.Provisions() && s.instance.None?
    requires created == Instance(s.nextUid, 1, op, s.operations[op].request.desired, None, false, false, None)
    ensures Base(SetInstance(s, created).(nextUid := s.nextUid + 1))
  {
    var t := SetInstance(s, created).(nextUid := s.nextUid + 1);
    assert RequestInv(s, s.operations[op].request);
    assert RowsInv(t);
    assert ClaimsInv(t);
    forall v | v in t.history.seen ensures VersionInv(t, v) {
      assert v == created || VersionInv(s, v);
    }
  }

  lemma UpdateKeepsBase(s: State, c: nat, lost: bool)
    requires Base(s) && At(s, c, Writing) && Row(s, c).request.Edits()
    ensures Base(DoUpdateInstance(s, c, lost))
  {
    var request := Row(s, c).request;
    var op := s.claims[c].operation;
    if s.instance.Some? && !s.instance.value.deleting && s.instance.value.operation != op &&
       Expects(request, s.instance.value) {
      var next := Edited(s.instance.value, request, op);
      EditedKeepsBase(s, request, op);
      assert DoUpdateInstance(s, c, lost) == Answered(SetInstance(s, next), c, next, lost);
      AnsweredKeepsBase(SetInstance(s, next), c, next, lost);
    } else {
      UneditedKeepsBase(s, c, lost);
    }
  }

  lemma AnsweredKeepsBase(s: State, c: nat, answer: Instance, lost: bool)
    requires Base(s) && c < |s.claims| && answer in s.history.seen && Claimed(s, c) && Row(s, c).request.Edits()
    ensures Base(Answered(s, c, answer, lost))
  {
    ClaimFacts(s, c);
    hide Base;
    ClaimChange(s, c, Answered(s, c, answer, lost).claims[c]);
  }

  lemma UneditedKeepsBase(s: State, c: nat, lost: bool)
    requires Base(s) && At(s, c, Writing) && Row(s, c).request.Edits()
    requires s.instance.Some? ==>
      s.instance.value.deleting || s.instance.value.operation == s.claims[c].operation || !Expects(Row(s, c).request, s.instance.value)
    ensures Base(DoUpdateInstance(s, c, lost))
  {
    if s.instance.Some? { InstanceFacts(s); AnsweredKeepsBase(s, c, s.instance.value, lost); }
    ResultKeepsBase(s, c, Failing);
    SupersedingKeepsBase(s, c);
    hide Base;
  }

  lemma SupersedingKeepsBase(s: State, c: nat)
    requires Base(s) && c < |s.claims|
    ensures Base(SetStage(s, c, Superseding))
  {
    ClaimFacts(s, c);
    hide Base;
    ClaimChange(s, c, s.claims[c].(stage := Superseding));
  }

  lemma EditedKeepsBase(s: State, request: Request, op: nat)
    requires Base(s) && op < |s.operations| && request == s.operations[op].request && request.Edits()
    requires s.instance.Some? && Expects(request, s.instance.value)
    ensures Base(SetInstance(s, Edited(s.instance.value, request, op)))
  {
    assert RequestInv(s, request) && VersionInv(s, s.instance.value);
    VersionChange(s, Edited(s.instance.value, request, op));
  }

  lemma BoundKeepsBase(s: State, op: nat, answer: Instance)
    requires Base(s) && op < |s.operations| && answer in s.history.seen
    requires MayBind(s, s.operations[op].request, answer.uid)
    requires s.operations[op].request.Provisions() ==> answer.spec == s.operations[op].request.desired
    ensures Base(s.(uid := Some(answer.uid),
                    history := s.history.(bound := s.history.bound + {answer.uid}, boundBy := s.history.boundBy[op := answer])))
  {
    assert VersionInv(s, answer) && RequestInv(s, s.operations[op].request);
    assert s.uid.Some? ==> s.uid.value <= answer.uid;
  }

  lemma BindKeepsBase(s: State, c: nat)
    requires Base(s) && At(s, c, Binding) && s.claims[c].answer.Some?
    ensures Base(DoBind(s, c))
  {
    var answer := s.claims[c].answer.value;
    var op := s.claims[c].operation;
    var row := Row(s, c);
    assert ClaimInv(s, s.claims[c]);
    if !Held(s, c) || !MayBind(s, row.request, answer.uid) {
      ClaimChange(s, c, s.claims[c].(stage := Failing));
    } else {
      var t := s.(uid := Some(answer.uid),
                  history := s.history.(bound := s.history.bound + {answer.uid}, boundBy := s.history.boundBy[op := answer]));
      BoundKeepsBase(s, op, answer);
      var claim := s.claims[c].(stage := AfterIdentity(row.request), target := Some(answer.generation));
      ClaimChange(t, c, claim);
      RowChange(SetClaim(t, c, claim), op, row.(state := Reconciling, target := Some(answer.generation)));
    }
  }

  lemma ApproveKeepsBase(s: State, c: nat, lost: bool)
    requires Base(s) && At(s, c, Approving) && Row(s, c).request.Reclaim? && s.claims[c].answer.Some?
    ensures Base(DoApprove(s, c, lost))
  {
    assert ClaimInv(s, s.claims[c]);
    if Approvable(s, c) && s.instance.value.marker.None? {
      var uid := s.instance.value.uid;
      var t := s.(history := s.history.(marked := s.history.marked + {uid}));
      assert Base(t);
      VersionChange(t, t.instance.value.(marker := Some(uid)));
      var u := SetInstance(t, t.instance.value.(marker := Some(uid)));
      ClaimChange(u, c, u.claims[c].(stage := if lost then Waiting else Verifying));
    } else {
      ClaimChange(s, c, DoApprove(s, c, lost).claims[c]);
    }
  }

  lemma VanishedKeepsBase(s: State)
    requires Base(s)
    ensures Base(s.(instance := None))
  {
  }

  lemma MarkedKeepsBase(s: State)
    requires Base(s) && s.instance.Some?
    ensures
      var v := s.instance.value;
      Base(SetInstance(s, v.(deleting := true, generation := v.generation + 1)))
  {
    var v := s.instance.value;
    assert VersionInv(s, v);
    VersionChange(s, v.(deleting := true, generation := v.generation + 1));
  }

  lemma ResultKeepsBase(s: State, c: nat, stage: Stage)
    requires Base(s) && c < |s.claims| && (stage.Waiting? || stage.Failing?)
    ensures Base(SetStage(s, c, stage))
  {
    ClaimFacts(s, c);
    hide Base;
    ClaimChange(s, c, s.claims[c].(stage := stage));
  }

  lemma IssueDeleteKeepsBase(s: State, c: nat)
    requires Base(s) && At(s, c, IssuingDelete) && Row(s, c).request.Remove?
    ensures Base(DoIssueDelete(s, c))
  {
    hide Base;
    if s.instance.None? { ResultKeepsBase(s, c, Waiting); }
    else if s.instance.value.uid != Row(s, c).request.uid { ResultKeepsBase(s, c, Failing); }
    else {
      var v := s.instance.value;
      VanishedKeepsBase(s);
      MarkedKeepsBase(s);
      ResultKeepsBase(s.(instance := None), c, Waiting);
      ResultKeepsBase(s, c, Waiting);
      ResultKeepsBase(SetInstance(s, v.(deleting := true, generation := v.generation + 1)), c, Waiting);
    }
  }

  /** The actions that change nothing but the claim itself and the Secrets. */
  predicate Quiet(action: Action) {
    action.CheckVolume? || action.Seal? || action.Observe? || action.Verify? || action.ListCredentials? ||
    action.DropSecret? || action.ReadForRemove? || action.ReadVolume? || action.ConfirmVolume?
  }

  lemma QuietIsClaimOnly(s: State, c: nat, action: Action)
    requires MayWork(s, c, action) && Quiet(action)
    ensures |DoWork(s, c, action).claims| == |s.claims|
    ensures DoWork(s, c, action) == SetClaim(s, c, DoWork(s, c, action).claims[c]).(secrets := DoWork(s, c, action).secrets)
  {
  }

  lemma QuietClaimInv(s: State, c: nat, action: Action)
    requires Base(s) && MayWork(s, c, action) && Quiet(action)
    ensures |DoWork(s, c, action).claims| == |s.claims| && ClaimInv(s, DoWork(s, c, action).claims[c])
  {
    hide Base;
    ClaimFacts(s, c);
    if s.instance.Some? { InstanceFacts(s); }
    if action.Observe? {
      hide MayWork;
      assert DoWork(s, c, action) == DoObserve(s, c);
    } else {
      QuietClaim(s, c, action);
      hide DoWork;
    }
  }

  lemma QuietClaim(s: State, c: nat, action: Action)
    requires MayWork(s, c, action) && Quiet(action) && !action.Observe?
    ensures |DoWork(s, c, action).claims| == |s.claims|
    ensures
      var claim := DoWork(s, c, action).claims[c];
      && claim.operation == s.claims[c].operation && claim.target == s.claims[c].target
      && !claim.stage.Approving? && !claim.stage.Binding?
      && (claim.answer == s.claims[c].answer || claim.answer == s.instance)
  {
  }

  lemma QuietKeepsBase(s: State, c: nat, action: Action)
    requires Base(s) && MayWork(s, c, action) && Quiet(action)
    ensures Base(DoWork(s, c, action))
  {
    hide Base, DoWork;
    var t := DoWork(s, c, action);
    QuietIsClaimOnly(s, c, action);
    QuietClaimInv(s, c, action);
    ClaimChange(s, c, t.claims[c]);
    SameBase(SetClaim(s, c, t.claims[c]), t);
  }

  lemma DeferKeepsBase(s: State, c: nat)
    requires Base(s) && Claimed(s, c)
    ensures Base(DoDefer(s, c))
  {
    hide Base;
    ClaimFacts(s, c);
    if Leased(s, c) {
      var row := Row(s, c).(lease := None, nextAttempt := s.now + RETRY_SECONDS);
      RowChange(s, s.claims[c].operation, row);
      ClaimChange(SetRow(s, s.claims[c].operation, row), c, s.claims[c].(stage := Released));
    } else {
      ClaimChange(s, c, s.claims[c].(stage := Released));
    }
  }

  lemma CaptureKeepsBase(s: State, c: nat)
    requires Base(s) && At(s, c, CapturingPolicy) && s.claims[c].answer.Some?
    ensures Base(DoCapturePolicy(s, c))
  {
    assert ClaimInv(s, s.claims[c]);
    var next := SetStage(s, c, IssuingDelete);
    ClaimChange(s, c, s.claims[c].(stage := IssuingDelete));
    if Leased(s, c) {
      RowChange(next, s.claims[c].operation, Row(s, c).(policy := Some(s.claims[c].answer.value.spec.policy)));
    }
  }

  lemma IssueVolumeDeleteKeepsBase(s: State, c: nat)
    requires Base(s) && At(s, c, IssuingVolumeDelete)
    ensures Base(DoIssueVolumeDelete(s, c))
  {
    var t := DoIssueVolumeDelete(s, c);
    var next := SetClaim(s, c, t.claims[c]);
    ClaimFacts(s, c);
    ClaimChange(s, c, t.claims[c]);
    assert t == next.(volume := t.volume);
    MarkedVolume(s, next, t.volume);
  }

  lemma MarkedVolume(s: State, next: State, volume: Option<Volume>)
    requires Base(s) && Base(next) && next.volume == s.volume && next.nextUid == s.nextUid
    requires volume.Some? ==> s.volume.Some? && volume.value.uid == s.volume.value.uid && volume.value.owner == s.volume.value.owner
    ensures Base(next.(volume := volume))
  {
  }

  lemma WorkKeepsBase(s: State, c: nat, action: Action)
    requires Base(s) && MayWork(s, c, action)
    ensures Base(DoWork(s, c, action))
  {
    hide Base, DoCreateInstance, DoUpdateInstance, DoBind, DoApprove, Finish, DoDefer, DoCapturePolicy, DoIssueDelete,
      DoIssueVolumeDelete;
    match action {
      case Write(lost) =>
        if Row(s, c).request.Provisions() { CreateKeepsBase(s, c, lost); } else { UpdateKeepsBase(s, c, lost); }
      case Bind => BindKeepsBase(s, c);
      case Approve(lost) => ApproveKeepsBase(s, c, lost);
      case Succeed =>
        var request := Row(s, c).request;
        FinishKeepsBase(s, c, Succeeded, LifecycleAfter(request, s.claims[c].policy),
                        if request.Reserves() then Settle(s.reserved, request.desired.resources) else s.reserved);
      case Fail =>
        FinishKeepsBase(s, c, Faulted, if Row(s, c).request.Provisions() then Failed else s.lifecycle, s.reserved);
      case Supersede => FinishKeepsBase(s, c, Superseded, s.lifecycle, s.reserved);
      case Defer => DeferKeepsBase(s, c);
      case CapturePolicy => CaptureKeepsBase(s, c);
      case IssueDelete => IssueDeleteKeepsBase(s, c);
      case IssueVolumeDelete => IssueVolumeDeleteKeepsBase(s, c);
      case _ =>
        QuietKeepsBase(s, c, action);
    }
  }

  lemma StepKeepsBase(s: State, step: Step)
    requires Base(s) && Enabled(s, step)
    ensures Base(Apply(s, step))
  {
    hide Base, DoAdmit, DoTake, DoWork, DoOperate;
    match step {
      case Pass(_) => SameBase(s, Apply(s, step));
      case Admit(a) => AdmitKeepsBase(s, a);
      case Take(op) => TakeKeepsBase(s, op);
      case Work(c, action) => WorkKeepsBase(s, c, action);
      case Operate(w) => OperateKeepsBase(s, w);
    }
  }

  // ----- Every step but an exposed deletion keeps the transfer invariant

  predicate SameObjects(s: State, t: State) {
    && t.instance == s.instance && t.volume == s.volume && t.uid == s.uid
    && t.history.seen == s.history.seen && t.history.marked == s.history.marked
  }

  lemma SameObjectsSafe(s: State, t: State)
    requires Safe(s) && Base(t) && SameObjects(s, t)
    ensures Safe(t)
  {
    forall v | v in t.history.seen && v.uid in t.history.marked && Untransferred(t, v) ensures t.uid == Some(v.uid) {
      assert Untransferred(s, v);
    }
  }

  lemma VersionKeepsSafe(s: State, t: State, v: Instance)
    requires Safe(s) && Base(t) && SameObjects(SetInstance(s, v), t)
    requires s.instance.Some? && v.uid == s.instance.value.uid && v.spec.reclaim == s.instance.value.spec.reclaim
    ensures Safe(t)
  {
    forall w | w in t.history.seen && w.uid in t.history.marked && Untransferred(t, w) ensures t.uid == Some(w.uid) {
      var u := if w == v then s.instance.value else w;
      assert u in s.history.seen && Untransferred(s, u);
    }
  }

  lemma CreatedKeepsSafe(s: State, t: State, created: Instance)
    requires Safe(s) && Base(t) && SameObjects(SetInstance(s, created), t)
    requires s.instance.None? && created.uid == s.nextUid
    ensures Safe(t)
  {
    assert s.nextUid !in s.history.marked;
    forall w | w in t.history.seen && w.uid in t.history.marked && Untransferred(t, w) ensures t.uid == Some(w.uid) {
      assert w in s.history.seen && Untransferred(s, w);
    }
  }

  /** If the binding moves on, the identity it leaves was removed before, so its volume has left the predecessor. */
  lemma BoundKeepsSafe(s: State, t: State, request: Request, answer: Instance)
    requires Safe(s) && Base(t) && answer in s.history.seen && MayBind(s, request, answer.uid)
    requires request.Reclaim? ==> answer.spec.reclaim == Some(ReclaimRef(request.previous, request.volume))
    requires SameObjects(s.(uid := Some(answer.uid)), t)
    ensures Safe(t)
  {
    assert VersionInv(s, answer);
    forall w | w in t.history.seen && w.uid in t.history.marked && Untransferred(t, w) ensures t.uid == Some(w.uid) {
      assert VersionInv(s, w) && Untransferred(s, w);
      assert s.uid == Some(w.uid);
      if answer.uid != w.uid {
        assert false;
      }
    }
  }

  /** The object that gets the marker is the one its operation bound, or the bound one was removed before. */
  lemma ApproveKeepsSafe(s: State, c: nat, lost: bool)
    requires Safe(s) && At(s, c, Approving) && Row(s, c).request.Reclaim? && s.claims[c].answer.Some?
    requires Approvable(s, c) && s.instance.value.marker.None? && Base(DoApprove(s, c, lost))
    ensures Safe(DoApprove(s, c, lost))
  {
    var t := DoApprove(s, c, lost);
    var op := s.claims[c].operation;
    var current := s.instance.value;
    ClaimFacts(s, c);
    InstanceFacts(s);
    BoundFacts(s, op);
    var owner := s.history.boundBy[op];
    forall w | w in t.history.seen && w.uid in t.history.marked && Untransferred(t, w) ensures t.uid == Some(w.uid) {
      if w.uid == current.uid {
        assert Untransferred(s, current);
        if owner.uid != current.uid {
          assert false;
        }
      } else {
        assert false;
      }
    }
  }

  lemma BoundFacts(s: State, op: nat)
    requires Base(s) && op in s.history.boundBy
    ensures op < |s.operations| && s.history.boundBy[op] in s.history.seen && VersionInv(s, s.history.boundBy[op])
    ensures s.uid.Some? && s.history.boundBy[op].uid <= s.uid.value
    ensures s.operations[op].request.Provisions() ==> s.history.boundBy[op].spec == s.operations[op].request.desired
    ensures s.instance.Some? ==> s.uid.value <= s.instance.value.uid
  {
  }

  lemma WriteKeepsSafe(s: State, c: nat, lost: bool)
    requires Safe(s) && MayWork(s, c, Write(lost)) && Base(DoWrite(s, c, lost))
    ensures Safe(DoWrite(s, c, lost))
  {
    hide Base, Departed, Covered;
    var t := DoWrite(s, c, lost);
    var request := Row(s, c).request;
    var op := s.claims[c].operation;
    ClaimFacts(s, c);
    if s.instance.None? && request.Provisions() {
      CreatedKeepsSafe(s, t, Instance(s.nextUid, 1, op, request.desired, None, false, false, None));
    } else if request.Edits() && s.instance.Some? && !s.instance.value.deleting && s.instance.value.operation != op &&
              Expects(request, s.instance.value) {
      VersionKeepsSafe(s, t, Edited(s.instance.value, request, op));
    } else {
      SameObjectsSafe(s, t);
    }
  }

  lemma BindKeepsSafe(s: State, c: nat)
    requires Safe(s) && MayWork(s, c, Bind) && Base(DoBind(s, c))
    ensures Safe(DoBind(s, c))
  {
    hide Base, Departed, Covered;
    ClaimFacts(s, c);
    var answer := s.claims[c].answer.value;
    if Held(s, c) && MayBind(s, Row(s, c).request, answer.uid) {
      BoundKeepsSafe(s, DoBind(s, c), Row(s, c).request, answer);
    } else {
      SameObjectsSafe(s, DoBind(s, c));
    }
  }

  /** The object goes at once, and its volume does not wait for it: it has none to take over, or has it already. */
  lemma VanishedKeepsSafe(s: State)
    requires Safe(s) && s.instance.Some? && Base(s.(instance := None))
    requires
      var i := s.instance.value;
      i.spec.reclaim.Some? && s.volume.Some? && s.volume.value.uid == i.spec.reclaim.value.volume ==> i.uid <= s.volume.value.owner
    ensures Safe(s.(instance := None))
  {
    var t := s.(instance := None);
    InstanceFacts(s);
    forall v | v in t.history.seen && v.spec.reclaim.Some? && t.volume.Some? && t.volume.value.uid == v.spec.reclaim.value.volume
      ensures v.uid <= t.volume.value.owner
    {
      assert VersionInv(s, v);
    }
    forall v | v in t.history.seen ensures !Untransferred(t, v) { assert VersionInv(s, v); }
  }

  lemma IssueDeleteKeepsSafe(s: State, c: nat)
    requires Safe(s) && MayWork(s, c, IssueDelete) && !Exposed(s, c) && Base(DoIssueDelete(s, c))
    ensures Safe(DoIssueDelete(s, c))
  {
    hide Base, Departed, Covered;
    if s.instance.Some? && s.instance.value.uid == Row(s, c).request.uid && !s.instance.value.finalizer {
      VanishedKeepsBase(s);
      VanishedKeepsSafe(s);
      SameObjectsSafe(s.(instance := None), DoIssueDelete(s, c));
    } else if s.instance.Some? && s.instance.value.uid == Row(s, c).request.uid && !s.instance.value.deleting {
      var v := s.instance.value;
      VersionKeepsSafe(s, DoIssueDelete(s, c), v.(deleting := true, generation := v.generation + 1));
    } else {
      SameObjectsSafe(s, DoIssueDelete(s, c));
    }
  }

  /** An exposed deletion leaves a removed object whose volume is still to be had from its predecessor. */
  lemma ExposedBreaksSafe(s: State, c: nat)
    requires Base(s) && MayWork(s, c, IssueDelete) && Exposed(s, c)
    ensures !Departed(DoIssueDelete(s, c))
  {
    InstanceFacts(s);
    var t := DoIssueDelete(s, c);
    assert s.instance.value in t.history.seen && Gone(t, s.instance.value.uid);
  }

  /** The deletions that keep transfers safe are exactly the ones that expose no volume. */
  lemma SafeUnlessExposed(s: State, c: nat)
    requires Safe(s) && MayWork(s, c, IssueDelete)
    ensures Safe(DoIssueDelete(s, c)) <==> !Exposed(s, c)
  {
    hide Base, Departed, Covered;
    IssueDeleteKeepsBase(s, c);
    if Exposed(s, c) { ExposedBreaksSafe(s, c); } else { IssueDeleteKeepsSafe(s, c); }
  }

  lemma SettledKeepsSafe(s: State, c: nat, action: Action)
    requires Safe(s) && MayWork(s, c, action) && Base(DoWork(s, c, action))
    requires !action.Write? && !action.Bind? && !action.Approve? && !action.IssueDelete?
    ensures Safe(DoWork(s, c, action))
  {
    hide Base, Departed, Covered;
    if action.IssueVolumeDelete? {
      VolumeMarkedKeepsSafe(s, DoWork(s, c, action));
    } else {
      SameObjectsSafe(s, DoWork(s, c, action));
    }
  }

  /** Marking the volume for deletion, or the volume disappearing, leaves its identity and owner alone. */
  lemma VolumeMarkedKeepsSafe(s: State, t: State)
    requires Safe(s) && Base(t) && SameObjects(s.(volume := t.volume), t)
    requires t.volume.Some? ==> s.volume.Some? && t.volume.value.uid == s.volume.value.uid && t.volume.value.owner == s.volume.value.owner
    ensures Safe(t)
  {
    forall v | v in t.history.seen && v.uid in t.history.marked && Untransferred(t, v) ensures t.uid == Some(v.uid) {
      assert Untransferred(s, v);
    }
  }

  /** A successor of the new owner can only have been created after the new owner was removed, and then the volume had left. */
  lemma TransferLeavesNone(s: State, read: Instance, v: Instance)
    requires Safe(s) && CanTransfer(s, read) && v in s.history.seen
    ensures !Untransferred(DoTransfer(s, read), v)
  {
    assert VersionInv(s, read) && VersionInv(s, v);
    if Untransferred(DoTransfer(s, read), v) {
      assert false;
    }
  }

  lemma TransferKeepsSafe(s: State, read: Instance)
    requires Safe(s) && CanTransfer(s, read) && Base(DoTransfer(s, read))
    ensures Safe(DoTransfer(s, read))
  {
    var t := DoTransfer(s, read);
    assert VersionInv(s, read);
    forall v | v in s.history.seen ensures !Untransferred(t, v) {
      TransferLeavesNone(s, read, v);
    }
  }

  lemma ReleaseKeepsSafe(s: State)
    requires Safe(s) && CanRelease(s) && Base(s.(instance := None))
    ensures Safe(s.(instance := None))
  {
    var t := s.(instance := None);
    forall v | v in t.history.seen && v.uid in t.history.marked && Untransferred(t, v) ensures t.uid == Some(v.uid) {
      assert Untransferred(s, v);
    }
  }

  lemma ProvisionVolumeKeepsSafe(s: State, read: Instance)
    requires Safe(s) && CanProvisionVolume(s, read) && Base(DoProvisionVolume(s, read))
    ensures Safe(DoProvisionVolume(s, read))
  {
    forall v | v in s.history.seen ensures VersionInv(s, v) {}
  }

  lemma OperateKeepsSafe(s: State, w: OperatorWrite)
    requires Safe(s) && MayOperate(s, w)
    ensures Safe(DoOperate(s, w))
  {
    hide Base, Departed, Covered;
    OperateKeepsBase(s, w);
    match w {
      case AddFinalizer => VersionKeepsSafe(s, DoOperate(s, w), s.instance.value.(finalizer := true));
      case Transfer(read) => TransferKeepsSafe(s, read);
      case ProvisionVolume(read) => ProvisionVolumeKeepsSafe(s, read);
      case FinalizeVolume => VolumeMarkedKeepsSafe(s, DoOperate(s, w));
      case ReleaseInstance => ReleaseKeepsSafe(s);
      case Report(ready) =>
        VersionKeepsSafe(s, DoOperate(s, w),
                         s.instance.value.(ready := if ready then Some(s.instance.value.generation) else None));
      case VolumeGone => VolumeMarkedKeepsSafe(s, DoOperate(s, w));
    }
  }

  lemma WorkKeepsSafe(s: State, c: nat, action: Action)
    requires Safe(s) && MayWork(s, c, action) && Unexposed(s, Work(c, action))
    ensures Safe(DoWork(s, c, action))
  {
    hide Base, Departed, Covered, DoWrite, DoBind, DoIssueDelete;
    WorkKeepsBase(s, c, action);
    match action {
      case Write(lost) => WriteKeepsSafe(s, c, lost);
      case Bind => BindKeepsSafe(s, c);
      case Approve(lost) =>
        if Approvable(s, c) && s.instance.value.marker.None? {
          ApproveKeepsSafe(s, c, lost);
        } else {
          SameObjectsSafe(s, DoApprove(s, c, lost));
        }
      case IssueDelete => IssueDeleteKeepsSafe(s, c);
      case _ => SettledKeepsSafe(s, c, action);
    }
  }

  lemma AdmitKeepsSafe(s: State, a: Admission)
    requires Safe(s) && MayAdmit(s, a)
    ensures Safe(DoAdmit(s, a))
  {
    hide Base, Departed, Covered;
    AdmitKeepsBase(s, a);
    SameObjectsSafe(s, DoAdmit(s, a));
  }

  lemma StepKeepsSafe(s: State, step: Step)
    requires Safe(s) && Enabled(s, step) && Unexposed(s, step)
    ensures Safe(Apply(s, step))
  {
    hide Base, Departed, Covered, DoAdmit, DoWork, DoOperate;
    StepKeepsBase(s, step);
    match step {
      case Admit(a) => AdmitKeepsSafe(s, a);
      case Work(c, action) => WorkKeepsSafe(s, c, action);
      case Operate(w) => OperateKeepsSafe(s, w);
      case _ => SameObjectsSafe(s, Apply(s, step));
    }
  }

  // ----- Main results

  ghost predicate UnexposedRun(steps: seq<Step>)
    requires Run(Initial, steps)
  {
    forall i | 0 <= i < |steps| && Run(Initial, steps[..i]) :: Unexposed(After(Initial, steps[..i]), steps[i])
  }

  lemma {:induction false} RunKeepsBase(steps: seq<Step>)
    requires Run(Initial, steps)
    ensures Base(After(Initial, steps))
    decreases |steps|
  {
    if steps != [] {
      var front := steps[..|steps| - 1];
      RunKeepsBase(front);
      StepKeepsBase(After(Initial, front), steps[|steps| - 1]);
    }
  }

  lemma {:induction false} RunKeepsSafe(steps: seq<Step>)
    requires Run(Initial, steps) && UnexposedRun(steps)
    ensures Safe(After(Initial, steps))
    decreases |steps|
  {
    if steps != [] {
      var front := steps[..|steps| - 1];
      forall i | 0 <= i < |front| && Run(Initial, front[..i]) ensures Unexposed(After(Initial, front[..i]), front[i]) {
        assert front[..i] == steps[..i];
      }
      RunKeepsSafe(front);
      StepKeepsSafe(After(Initial, front), steps[|steps| - 1]);
    }
  }

  /** In every run without an exposed deletion the operator moves the retained volume to an identity only while the binding
      records that identity. */
  lemma TransferOnlyToBound(steps: seq<Step>, read: Instance)
    requires Run(Initial, steps) && UnexposedRun(steps)
    requires CanTransfer(After(Initial, steps), read)
    ensures After(Initial, steps).uid == Some(read.uid)
  {
    var s := After(Initial, steps);
    RunKeepsSafe(steps);
    assert VersionInv(s, read) && Untransferred(s, read);
  }

  /** One step changes the binding only from nothing to the object of a create, or by a reclaim that names the identity it
      leaves; the new identity is always a later one. */
  lemma BindingStep(s: State, step: Step)
    requires Base(s) && Enabled(s, step) && Apply(s, step).uid != s.uid
    ensures Apply(s, step).uid.Some?
    ensures step.Work? && step.action.Bind? && Held(s, step.c)
    ensures s.uid.None? ==> Row(s, step.c).request.Create?
    ensures s.uid.Some? ==>
      && s.uid.value < Apply(s, step).uid.value
      && Row(s, step.c).request.Reclaim? && Row(s, step.c).request.previous == s.uid.value
  {
    BindingChangesInBind(s, step);
    ClaimFacts(s, step.c);
    var answer := s.claims[step.c].answer.value;
    assert VersionInv(s, answer);
  }

  lemma BindingChangesInBind(s: State, step: Step)
    requires Enabled(s, step) && Apply(s, step).uid != s.uid
    ensures step.Work? && step.action.Bind?
  {
  }

  /** The identities a binding takes form a chain that never returns to an earlier one. */
  lemma {:induction false} BindingNeverReturns(earlier: seq<Step>, steps: seq<Step>)
    requires Run(Initial, steps) && earlier <= steps && Run(Initial, earlier)
    requires After(Initial, earlier).uid.Some?
    ensures After(Initial, steps).uid.Some?
    ensures After(Initial, earlier).uid.value <= After(Initial, steps).uid.value
    decreases |steps|
  {
    if |earlier| < |steps| {
      var front := steps[..|steps| - 1];
      assert earlier <= front;
      BindingNeverReturns(earlier, front);
      RunKeepsBase(front);
      var s := After(Initial, front);
      if After(Initial, steps).uid != s.uid {
        BindingStep(s, steps[|steps| - 1]);
      }
    } else {
      assert earlier == steps;
    }
  }
}
