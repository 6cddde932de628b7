/**
 Which instances count against a quota, and why a worker never adds one back.

 Usage follows the lifecycle and the reservation.  Every worker transaction that ends an operation
 can only lower it: what a success reserves was reserved when the operation was accepted, and an
 operation accepted for an instance that has left can no longer find its object.
 */
module Standing {
  import opened Wrappers
  import opened Protocol
  import opened Effects
  import Identity
  import Fencing
  import Deletion
  import Reservations

  predicate Left(lifecycle: Lifecycle) {
    lifecycle.Deleted? || lifecycle.Detached?
  }

  predicate Concluding(stage: Stage) {
    stage.Listing? || stage.Cleaning?
  }

  /** What the last operation says about the lifecycle while it runs. */
  predicate LastInv(s: State) {
    s.operations != [] ==>
      var row := s.operations[|s.operations| - 1];
      && (row.request.Remove? ==> s.uid == Some(row.request.uid))
      && (row.Running() && !row.request.Rotate? && !row.request.RemoveVolume? ==> !Left(s.lifecycle))
      && Reservations.CoversLast(s)
  }

  predicate ClaimInv(s: State, claim: Claim) {
    claim.operation < |s.operations| ==>
      var request := s.operations[claim.operation].request;
      && (request.Remove? ==> Deletion.RemoveStage(claim.stage) && (Concluding(claim.stage) ==> Gone(s, request.uid)))
      && (request.RemoveVolume? ==> Deletion.VolumeStage(claim.stage))
      && (request.Rotate? && Deletion.Last(s, claim.operation) && Left(s.lifecycle) ==>
            !Concluding(claim.stage) && (claim.answer.Some? ==> s.uid != Some(claim.answer.value.uid)))
  }

  predicate Whole(s: State) {
    && (s.lifecycle.Absent? ==> s.operations == [] && s.uid.None?)
    && (Left(s.lifecycle) ==> s.uid.Some? && Gone(s, s.uid.value))
    && (forall op | 0 <= op < |s.operations| && s.operations[op].request.Remove? :: s.operations[op].request.uid < s.nextUid)
  }

  predicate Inv(s: State) {
    LastInv(s) && Whole(s) && forall c | 0 <= c < |s.claims| :: ClaimInv(s, s.claims[c])
  }

  predicate Facts(s: State) {
    Identity.Base(s) && Fencing.Inv(s)
  }

  /** Claim `c` is about to report the instance as deleted, for want of a volume, although its object is there. */
  predicate Premature(s: State, c: nat)
    requires Claimed(s, c)
  {
    Held(s, c) && Row(s, c).request.RemoveVolume? && s.uid.Some? && !Gone(s, s.uid.value)
  }

  predicate Vacant(s: State, step: Step) {
    step.Work? && step.action.Succeed? && Claimed(s, step.c) ==> !Premature(s, step.c)
  }

  // ----- What a worker step does to the standing of the instance

  /** Only an end under the lease moves the lifecycle or the reservation. */
  lemma WorkStanding(s: State, c: nat, action: Action)
    requires MayWork(s, c, action)
    ensures
      var t := DoWork(s, c, action);
      (t.lifecycle != s.lifecycle || t.reserved != s.reserved) ==> Held(s, c) && (action.Succeed? || action.Fail?)
  {
  }

  lemma SucceedStanding(s: State, c: nat)
    requires MayWork(s, c, Succeed)
    ensures
      var t := DoWork(s, c, Succeed);
      var request := Row(s, c).request;
      if Held(s, c)
      then t.lifecycle == LifecycleAfter(request, s.claims[c].policy) &&
           t.reserved == (if request.Reserves() then Settle(s.reserved, request.desired.resources) else s.reserved)
      else t.lifecycle == s.lifecycle && t.reserved == s.reserved
  {
  }

  lemma FailStanding(s: State, c: nat)
    requires MayWork(s, c, Fail)
    ensures
      var t := DoWork(s, c, Fail);
      t.reserved == s.reserved &&
      t.lifecycle == if Held(s, c) && Row(s, c).request.Provisions() then Lifecycle.Failed else s.lifecycle
  {
  }

  /** After an end under the lease the operation does not run. */
  lemma EndStops(s: State, c: nat, action: Action)
    requires MayWork(s, c, action) && (action.Succeed? || action.Fail?) && Held(s, c)
    ensures
      var t := DoWork(s, c, action);
      |t.operations| == |s.operations| && !t.operations[s.claims[c].operation].Running() &&
      (action.Succeed? ==> t.operations[s.claims[c].operation].state.Succeeded?)
  {
  }

  /** No other worker action starts an operation or makes a success. */
  lemma RunningKept(s: State, c: nat, action: Action, op: nat)
    requires MayWork(s, c, action) && op < |s.operations|
    ensures |DoWork(s, c, action).operations| == |s.operations|
    ensures DoWork(s, c, action).operations[op].Running() ==> s.operations[op].Running()
    ensures s.operations[op].state.Succeeded? ==> DoWork(s, c, action).operations[op].state.Succeeded? || Held(s, c)
  {
  }

  // ----- Usage

  datatype Usage = Usage(instances: nat, storage: nat, cpu: nat, memory: nat) {
    predicate AtMost(other: Usage) {
      instances <= other.instances && storage <= other.storage && cpu <= other.cpu && memory <= other.memory
    }
  }

  function UsageOf(s: State): Usage {
    if s.lifecycle.Absent? || s.lifecycle.Deleted? then Usage(0, 0, 0, 0)
    else if s.lifecycle.Detached? then Usage(0, s.reserved.storage, 0, 0)
    else Usage(1, s.reserved.storage, s.reserved.cpu, s.reserved.memory)
  }

  /** The admissions after which the project's totals are checked again, and the one that is never checked. */
  predicate Rechecked(step: Step) {
    step.Admit? && (step.admission.AcceptCreate? || step.admission.AcceptUpdate? || step.admission.AcceptReclaim?)
  }

  predicate Unchecked(step: Step) {
    step.Admit? && step.admission.ReconcileReservation?
  }

  lemma SettleUsage(s: State, c: nat)
    requires Facts(s) && Inv(s) && MayWork(s, c, Succeed) && Held(s, c)
    ensures UsageOf(DoWork(s, c, Succeed)).AtMost(UsageOf(s))
  {
    Deletion.LeasedIsLast(s, c);
    assert ClaimInv(s, s.claims[c]);
    SucceedStanding(s, c);
    hide DoWork, Facts;
  }

  /** Only the three rechecked admissions and the reconciliation of a reservation can raise the usage of an instance. */
  lemma UsageFalls(s: State, step: Step)
    requires Facts(s) && Inv(s) && Enabled(s, step) && !Rechecked(step) && !Unchecked(step)
    ensures UsageOf(Apply(s, step)).AtMost(UsageOf(s))
  {
    if step.Work? {
      hide DoWork, Facts;
      WorkStanding(s, step.c, step.action);
      if Held(s, step.c) && step.action.Succeed? { SettleUsage(s, step.c); }
      if Held(s, step.c) && step.action.Fail? { FailUsage(s, step.c); }
    }
  }

  lemma FailUsage(s: State, c: nat)
    requires Facts(s) && Inv(s) && MayWork(s, c, Fail) && Held(s, c)
    ensures UsageOf(DoWork(s, c, Fail)).AtMost(UsageOf(s))
  {
    Deletion.LeasedIsLast(s, c);
    FailStanding(s, c);
    hide DoWork, Facts;
  }

  // ----- Every step keeps the standing

  lemma GoneKept(s: State, step: Step)
    requires Identity.Base(s) && Whole(s) && Enabled(s, step)
    ensures forall uid: Uid | uid < s.nextUid && Gone(s, uid) :: Gone(Apply(s, step), uid)
    ensures s.uid.Some? ==> s.uid.value < s.nextUid
  {
    hide Apply, Enabled;
    forall uid: Uid | uid < s.nextUid && Gone(s, uid) ensures Gone(Apply(s, step), uid) { Deletion.GoneStays(s, step, uid); }
  }

  lemma AdmitKeeps(s: State, a: Admission)
    requires Facts(s) && Inv(s) && MayAdmit(s, a)
    ensures Inv(DoAdmit(s, a))
  {
    var t := DoAdmit(s, a);
    AdmitRowEffect(s, a);
    AdmitLast(s, a);
    BindingBelow(s);
    hide Facts;
    forall c | 0 <= c < |t.claims| ensures ClaimInv(t, t.claims[c]) {
      assert ClaimInv(s, s.claims[c]);
      AdmittedClaim(s, a, s.claims[c]);
    }
  }

  lemma BindingBelow(s: State)
    requires Facts(s)
    ensures s.uid.Some? ==> s.uid.value < s.nextUid
    ensures forall c | 0 <= c < |s.claims| :: s.claims[c].operation < |s.operations|
  {
    forall c | 0 <= c < |s.claims| ensures s.claims[c].operation < |s.operations| { assert Fencing.ClaimInv(s, c); }
  }

  lemma AdmittedClaim(s: State, a: Admission, claim: Claim)
    requires MayAdmit(s, a) && ClaimInv(s, claim) && claim.operation < |s.operations|
    requires Appended(s, DoAdmit(s, a)) || SameRequests(s, DoAdmit(s, a))
    ensures ClaimInv(DoAdmit(s, a), claim)
  {
    var t := DoAdmit(s, a);
    Deletion.SameRequest(s, t, claim.operation);
    assert t.uid == s.uid && t.instance == s.instance;
    assert Left(t.lifecycle) ==> t.lifecycle == s.lifecycle;
  }

  lemma AdmitLast(s: State, a: Admission)
    requires LastInv(s) && MayAdmit(s, a)
    ensures LastInv(DoAdmit(s, a))
  {
    var t := DoAdmit(s, a);
    if a.AcceptRetry? || a.ReconcileReservation? {
      assert |t.operations| == |s.operations|;
    }
  }

  /** The rows, the lifecycle and the binding stay, and no claim moves. */
  lemma OutsideKeeps(s: State, step: Step)
    requires Facts(s) && Inv(s) && Enabled(s, step) && (step.Operate? || step.Pass?)
    ensures Inv(Apply(s, step))
  {
    var t := Apply(s, step);
    hide Facts, Apply, Enabled;
    GoneInv(s, step);
    BindingBelow(s);
    OutsideTables(s, step);
    forall c | 0 <= c < |t.claims| ensures ClaimInv(t, t.claims[c]) { assert ClaimInv(s, s.claims[c]); }
  }

  lemma OutsideTables(s: State, step: Step)
    requires Enabled(s, step) && (step.Operate? || step.Pass?)
    ensures
      var t := Apply(s, step);
      && t.operations == s.operations && t.claims == s.claims && t.uid == s.uid && t.lifecycle == s.lifecycle && t.reserved == s.reserved
      && s.nextUid <= t.nextUid
  {
  }

  lemma TakeKeeps(s: State, op: nat)
    requires Facts(s) && Inv(s) && CanTake(s, op)
    ensures Inv(DoTake(s, op))
  {
    var t := DoTake(s, op);
    BindingBelow(s);
    hide Facts;
    forall c | 0 <= c < |t.claims| ensures ClaimInv(t, t.claims[c]) {
      if c < |s.claims| { assert ClaimInv(s, s.claims[c]); }
    }
  }

  lemma WorkWhole(s: State, c: nat, action: Action)
    requires Facts(s) && Inv(s) && MayWork(s, c, action) && Vacant(s, Work(c, action))
    ensures Whole(DoWork(s, c, action))
  {
    GoneKept(s, Work(c, action));
    BindingBelow(s);
    assert ClaimInv(s, s.claims[c]);
    WorkRowEffect(s, c, action);
    WorkStanding(s, c, action);
    Deletion.WorkNext(s, c, action);
    if Held(s, c) { Deletion.LeasedIsLast(s, c); }
    if action.Bind? {
      BindWhole(s, c);
    } else {
      WorkRest(s, c, action);
      if action.Succeed? { SucceedStanding(s, c); }
      if action.Fail? { FailStanding(s, c); }
      hide DoWork, Facts;
    }
  }

  /** A binding is only taken by an operation that is not a delete, while the instance has not left. */
  lemma BindWhole(s: State, c: nat)
    requires Facts(s) && Inv(s) && MayWork(s, c, Bind)
    requires SameRequests(s, DoBind(s, c)) && s.nextUid <= DoBind(s, c).nextUid
    ensures Whole(DoBind(s, c))
    ensures Left(s.lifecycle) || (s.operations != [] && s.operations[|s.operations| - 1].request.Remove?) ==> DoBind(s, c).uid == s.uid
  {
    assert ClaimInv(s, s.claims[c]);
    Identity.ClaimFacts(s, c);
    if Held(s, c) { Deletion.LeasedIsLast(s, c); }
    hide Facts, Identity.Base;
  }

  lemma WorkLast(s: State, c: nat, action: Action)
    requires Facts(s) && Inv(s) && MayWork(s, c, action)
    ensures LastInv(DoWork(s, c, action))
  {
    WorkRowEffect(s, c, action);
    WorkStanding(s, c, action);
    if Held(s, c) { Deletion.LeasedIsLast(s, c); }
    var op := |s.operations| - 1;
    RunningKept(s, c, action, op);
    if (action.Succeed? || action.Fail?) && Held(s, c) { EndStops(s, c, action); }
    if action.Fail? { FailStanding(s, c); }
    SuccessStays(s, c, action, op);
    if action.Bind? {
      Deletion.WorkNext(s, c, action);
      BindWhole(s, c);
    } else {
      WorkRest(s, c, action);
    }
    hide DoWork, Facts;
  }

  lemma SuccessStays(s: State, c: nat, action: Action, op: nat)
    requires Facts(s) && MayWork(s, c, action) && op < |s.operations|
    ensures op < |DoWork(s, c, action).operations|
    ensures s.operations[op].state.Succeeded? ==> DoWork(s, c, action).operations[op].state.Succeeded?
  {
    hide DoWork, Identity.Base;
    Fencing.StateMoves(s, Work(c, action), op);
  }

  // ----- Claims

  /** What can happen to the claim of a rotation accepted after the instance left: it never gets hold of the bound object. */
  predicate Astray(s: State, claim: Claim) {
    !Concluding(claim.stage) && (claim.answer.Some? ==> s.uid != Some(claim.answer.value.uid))
  }

  lemma AstrayKept(s: State, c: nat, action: Action)
    requires MayWork(s, c, action) && Row(s, c).request.Rotate?
    requires s.uid.Some? && Gone(s, s.uid.value) && Astray(s, s.claims[c])
    requires forall v | s.claims[c].answer == Some(v) :: v.uid != s.uid.value
    ensures c < |DoWork(s, c, action).claims| && Astray(s, DoWork(s, c, action).claims[c])
  {
    if action.Write? { AstrayWrite(s, c, action.lost); }
  }

  lemma AstrayWrite(s: State, c: nat, lost: bool)
    requires MayWork(s, c, Write(lost)) && Row(s, c).request.Rotate?
    requires s.uid.Some? && Gone(s, s.uid.value) && Astray(s, s.claims[c])
    ensures c < |DoWrite(s, c, lost).claims| && Astray(s, DoWrite(s, c, lost).claims[c])
  {
  }

  lemma RemovalKept(s: State, c: nat, action: Action)
    requires MayWork(s, c, action) && Row(s, c).request.Remove? && ClaimInv(s, s.claims[c])
    ensures
      var t := DoWork(s, c, action);
      && c < |t.claims| && Deletion.RemoveStage(t.claims[c].stage)
      && (Concluding(t.claims[c].stage) ==> Gone(s, Row(s, c).request.uid))
  {
  }

  lemma VolumeStageKept(s: State, c: nat, action: Action)
    requires MayWork(s, c, action) && Row(s, c).request.RemoveVolume? && Deletion.VolumeStage(s.claims[c].stage)
    ensures c < |DoWork(s, c, action).claims| && Deletion.VolumeStage(DoWork(s, c, action).claims[c].stage)
  {
  }

  /** The instance is left before and after, or the operation no longer matters. */
  lemma LeftKept(s: State, c: nat, action: Action)
    requires Facts(s) && Inv(s) && MayWork(s, c, action)
    requires Left(DoWork(s, c, action).lifecycle) && s.operations[|s.operations| - 1].request.Rotate?
    ensures Left(s.lifecycle) && DoWork(s, c, action).uid == s.uid
  {
    WorkStanding(s, c, action);
    if Held(s, c) { Deletion.LeasedIsLast(s, c); }
    if action.Succeed? { SucceedStanding(s, c); }
    if action.Fail? { FailStanding(s, c); }
    if action.Bind? {
      WorkRowEffect(s, c, action);
      Deletion.WorkNext(s, c, action);
      BindWhole(s, c);
    } else {
      WorkRest(s, c, action);
    }
    hide DoWork, Facts;
  }

  lemma WorkClaim(s: State, c: nat, action: Action, d: nat)
    requires Facts(s) && Inv(s) && MayWork(s, c, action) && d < |s.claims|
    ensures d < |DoWork(s, c, action).claims| && ClaimInv(DoWork(s, c, action), DoWork(s, c, action).claims[d])
  {
    var t := DoWork(s, c, action);
    hide DoWork, Inv, LastInv;
    WorkRowEffect(s, c, action);
    WorkClaims(s, c, action);
    GoneInv(s, Work(c, action));
    OneClaim(s, d);
    OneClaim(s, c);
    var o := s.claims[d].operation;
    var request := s.operations[o].request;
    if request.Rotate? && Deletion.Last(t, o) && Left(t.lifecycle) {
      LeftKept(s, c, action);
      if d == c { AstrayKept(s, c, action); }
    } else if d == c && request.Remove? {
      RemovalKept(s, c, action);
    } else if d == c && request.RemoveVolume? {
      VolumeStageKept(s, c, action);
    }
    hide Facts;
  }

  lemma OneClaim(s: State, d: nat)
    requires Facts(s) && Inv(s) && d < |s.claims|
    ensures s.claims[d].operation < |s.operations| && ClaimInv(s, s.claims[d])
  {
    assert Fencing.ClaimInv(s, d);
  }

  lemma GoneInv(s: State, step: Step)
    requires Facts(s) && Inv(s) && Enabled(s, step)
    ensures Whole(s)
    ensures forall uid: Uid | uid < s.nextUid && Gone(s, uid) :: Gone(Apply(s, step), uid)
  {
    GoneKept(s, step);
  }

  lemma WorkKeeps(s: State, c: nat, action: Action)
    requires Facts(s) && Inv(s) && MayWork(s, c, action) && Vacant(s, Work(c, action))
    ensures Inv(DoWork(s, c, action))
  {
    var t := DoWork(s, c, action);
    WorkLast(s, c, action);
    WorkWhole(s, c, action);
    WorkRowEffect(s, c, action);
    hide DoWork, Facts, LastInv, Whole, ClaimInv;
    forall d | 0 <= d < |t.claims| ensures ClaimInv(t, t.claims[d]) { WorkClaim(s, c, action, d); }
  }

  lemma StepKeeps(s: State, step: Step)
    requires Facts(s) && Inv(s) && Enabled(s, step) && Vacant(s, step)
    ensures Inv(Apply(s, step)) && Facts(Apply(s, step))
  {
    hide Inv, Identity.Base, Fencing.Inv, DoAdmit, DoWork, DoTake;
    Identity.StepKeepsBase(s, step);
    Fencing.StepKeeps(s, step);
    match step {
      case Admit(a) => AdmitKeeps(s, a);
      case Work(c, action) => WorkKeeps(s, c, action);
      case Take(op) => TakeKeeps(s, op);
      case _ => OutsideKeeps(s, step);
    }
  }

  /** The successes that keep the standing of the instance are exactly those that are not premature. */
  lemma StandsUnlessPremature(s: State, c: nat)
    requires Facts(s) && Inv(s) && MayWork(s, c, Succeed)
    ensures Inv(DoWork(s, c, Succeed)) <==> !Premature(s, c)
  {
    hide Facts, Inv, DoWork, Whole, Premature;
    if Premature(s, c) { PrematureBreaks(s, c); } else { WorkKeeps(s, c, Succeed); }
  }

  lemma PrematureBreaks(s: State, c: nat)
    requires MayWork(s, c, Succeed) && Premature(s, c)
    ensures !Inv(DoWork(s, c, Succeed))
  {
    SucceedStanding(s, c);
    WorkRest(s, c, Succeed);
    Reservations.EndEffect(s, c, Succeed);
    hide DoWork;
  }
}
