/**
 Leases as fences.

 A claim is live while its thirty seconds have not passed and its worker has not let go of it.
 No two claims of one operation are live together, only a live claim ends an operation or moves
 the lifecycle, `Succeeded` and `Superseded` are final, and a claim taken after its operation had
 once ended never provisions anything again.
 */
module Fencing {
  import opened Wrappers
  import opened Protocol
  import opened Effects

  predicate Live(s: State, c: nat) {
    c < |s.claims| && !s.claims[c].stage.Released? && s.now < s.claims[c].until
  }

  predicate Provisioning(stage: Stage) {
    stage.Sealing? || stage.Writing? || stage.CheckingVolume?
  }

  predicate RowInv(s: State, op: nat)
    requires op < |s.operations|
  {
    var row := s.operations[op];
    && (row.lease.Some? ==>
          && (row.state.Applying? || row.state.Reconciling?)
          && row.lease.value.worker < |s.claims|
          && s.claims[row.lease.value.worker].operation == op
          && s.claims[row.lease.value.worker].until == row.lease.value.until
          && (s.claims[row.lease.value.worker].stage.Released? ==> row.lease.value.until <= s.now))
    && (op in s.history.ended ==> !row.payload && !row.state.Pending? && !row.state.Applying?)
    && (!row.Running() ==> op in s.history.ended)
  }

  predicate ClaimInv(s: State, c: nat)
    requires c < |s.claims|
  {
    var claim := s.claims[c];
    && claim.operation < |s.operations|
    && (Live(s, c) ==> s.operations[claim.operation].lease == Some(Lease(c, claim.until)))
    && (claim.late ==> !claim.payload && !Provisioning(claim.stage))
  }

  predicate Inv(s: State) {
    && (forall op | 0 <= op < |s.operations| :: RowInv(s, op))
    && (forall op | op in s.history.ended :: op < |s.operations|)
    && (forall c | 0 <= c < |s.claims| :: ClaimInv(s, c))
  }

  // ----- Preservation

  /** Neither the operation table, nor the stages of other claims, nor the clock changes. */
  lemma OwnStageInv(s: State, t: State, c: nat)
    requires Inv(s) && c < |s.claims| && t.operations == s.operations && t.now == s.now && t.history.ended == s.history.ended
    requires OwnClaimOnly(s, t, c)
    requires t.claims[c].until == s.claims[c].until && t.claims[c].late == s.claims[c].late && t.claims[c].payload == s.claims[c].payload
    requires !s.claims[c].stage.Released? && !t.claims[c].stage.Released?
    requires Provisioning(t.claims[c].stage) ==> Provisioning(s.claims[c].stage)
    ensures Inv(t)
  {
    forall op | 0 <= op < |t.operations| ensures RowInv(t, op) { assert RowInv(s, op); }
    forall d | 0 <= d < |t.claims| ensures ClaimInv(t, d) { assert ClaimInv(s, d); }
  }

  lemma StageKept(s: State, c: nat, action: Action)
    requires MayWork(s, c, action) && !Ends(action) && !action.Bind? && !action.CapturePolicy? && !Writes(action)
    ensures
      var t := DoWork(s, c, action);
      && t.operations == s.operations && t.history.ended == s.history.ended && |t.claims| == |s.claims|
      && t.claims[c].until == s.claims[c].until && t.claims[c].late == s.claims[c].late && t.claims[c].payload == s.claims[c].payload
      && !s.claims[c].stage.Released? && !t.claims[c].stage.Released?
      && (Provisioning(t.claims[c].stage) ==> Provisioning(s.claims[c].stage))
  {
    hide DoWork, MayWork;
    if Removes(action) { RemoveStageKept(s, c, action); } else { ConfigureStageKept(s, c, action); }
  }

  predicate Onward(s: State, t: State, c: nat)
    requires c < |s.claims|
  {
    && t.operations == s.operations && t.history.ended == s.history.ended && |t.claims| == |s.claims|
    && t.claims[c].until == s.claims[c].until && t.claims[c].late == s.claims[c].late && t.claims[c].payload == s.claims[c].payload
    && !s.claims[c].stage.Released? && !t.claims[c].stage.Released?
    && (Provisioning(t.claims[c].stage) ==> Provisioning(s.claims[c].stage))
  }

  lemma RemoveStageKept(s: State, c: nat, action: Action)
    requires MayWork(s, c, action) && Removes(action) && !action.CapturePolicy? && !Writes(action)
    ensures Onward(s, DoWork(s, c, action), c)
  {
  }

  lemma ConfigureStageKept(s: State, c: nat, action: Action)
    requires MayWork(s, c, action) && !Ends(action) && !Writes(action) && !Removes(action)
    ensures Onward(s, DoWork(s, c, action), c)
  {
  }

  predicate WrittenStage(s: State, t: State, c: nat)
    requires c < |s.claims|
  {
    && t.operations == s.operations && t.history.ended == s.history.ended && |t.claims| == |s.claims|
    && t.claims[c].until == s.claims[c].until && t.claims[c].late == s.claims[c].late && t.claims[c].payload == s.claims[c].payload
    && !s.claims[c].stage.Released? && !t.claims[c].stage.Released?
    && !Provisioning(t.claims[c].stage)
  }

  lemma CreateStage(s: State, c: nat, lost: bool)
    requires At(s, c, Writing) && Row(s, c).request.Provisions()
    ensures WrittenStage(s, DoCreateInstance(s, c, lost), c)
  {
  }

  lemma UpdateStage(s: State, c: nat, lost: bool)
    requires At(s, c, Writing) && Row(s, c).request.Edits()
    ensures WrittenStage(s, DoUpdateInstance(s, c, lost), c)
  {
  }

  lemma ApproveStage(s: State, c: nat, lost: bool)
    requires MayWork(s, c, Approve(lost))
    ensures WrittenStage(s, DoApprove(s, c, lost), c)
  {
  }

  lemma IssueDeleteStage(s: State, c: nat)
    requires MayWork(s, c, IssueDelete)
    ensures WrittenStage(s, DoIssueDelete(s, c), c)
  {
  }

  lemma WriteStageKept(s: State, c: nat, action: Action)
    requires MayWork(s, c, action) && Writes(action) && !action.Bind?
    ensures WrittenStage(s, DoWork(s, c, action), c)
  {
    hide WrittenStage, DoCreateInstance, DoUpdateInstance, DoApprove, DoIssueDelete;
    match action {
      case Write(lost) =>
        if Row(s, c).request.Provisions() { CreateStage(s, c, lost); } else { UpdateStage(s, c, lost); }
      case Approve(lost) => ApproveStage(s, c, lost);
      case IssueDelete => IssueDeleteStage(s, c);
    }
  }

  lemma BindKeeps(s: State, c: nat)
    requires Inv(s) && MayWork(s, c, Bind)
    ensures Inv(DoBind(s, c))
  {
    var t := DoBind(s, c);
    assert ClaimInv(s, c);
    forall op | 0 <= op < |t.operations| ensures RowInv(t, op) { assert RowInv(s, op); }
    forall d | 0 <= d < |t.claims| ensures ClaimInv(t, d) { assert ClaimInv(s, d); }
  }

  lemma CaptureKeeps(s: State, c: nat)
    requires Inv(s) && MayWork(s, c, CapturePolicy)
    ensures Inv(DoCapturePolicy(s, c))
  {
    var t := DoCapturePolicy(s, c);
    assert ClaimInv(s, c);
    forall op | 0 <= op < |t.operations| ensures RowInv(t, op) { assert RowInv(s, op); }
    forall d | 0 <= d < |t.claims| ensures ClaimInv(t, d) { assert ClaimInv(s, d); }
  }

  /** A claim whose fence is down lets go; it is not live, so nothing rests on it. */
  lemma ReleaseKeeps(s: State, c: nat)
    requires Inv(s) && Claimed(s, c) && !s.claims[c].stage.Released? && !Leased(s, c)
    ensures Inv(SetStage(s, c, Released))
  {
    var t := SetStage(s, c, Released);
    assert ClaimInv(s, c);
    forall op | 0 <= op < |t.operations| ensures RowInv(t, op) { assert RowInv(s, op); }
    forall d | 0 <= d < |t.claims| ensures ClaimInv(t, d) { assert ClaimInv(s, d); }
  }

  /** The only live claim of an operation lets go of it together with the lease. */
  lemma SurrenderKeeps(s: State, t: State, c: nat, row: Operation)
    requires Inv(s) && Claimed(s, c) && !s.claims[c].stage.Released? && Leased(s, c)
    requires t.claims == s.claims[c := s.claims[c].(stage := Released)] && t.now == s.now
    requires t.operations == s.operations[s.claims[c].operation := row] && row.lease.None?
    requires row.payload ==> Row(s, c).payload
    requires
      || (t.history.ended == s.history.ended && row.state == Row(s, c).state)
      || (t.history.ended == s.history.ended + {s.claims[c].operation} && !row.Running() && !row.payload)
    ensures Inv(t)
  {
    var o := s.claims[c].operation;
    assert ClaimInv(s, c) && RowInv(s, o);
    forall op | 0 <= op < |t.operations| ensures RowInv(t, op) { assert RowInv(s, op); }
    forall d | 0 <= d < |t.claims| ensures ClaimInv(t, d) {
      assert ClaimInv(s, d);
      if d != c && s.claims[d].operation == o { assert !Live(s, d); }
    }
  }

  lemma FinishKeeps(s: State, c: nat, state: OperationState, lifecycle: Lifecycle, reserved: Resources)
    requires Inv(s) && Claimed(s, c) && !s.claims[c].stage.Released?
    requires state.Succeeded? || state.Faulted? || state.Superseded?
    ensures Inv(Finish(s, c, state, lifecycle, reserved))
  {
    assert RowInv(s, s.claims[c].operation);
    hide Inv;
    if Leased(s, c) {
      SurrenderKeeps(s, Finish(s, c, state, lifecycle, reserved), c,
                     Row(s, c).(state := state, lease := None, payload := false));
    } else {
      ReleaseKeeps(s, c);
    }
  }

  lemma DeferKeeps(s: State, c: nat)
    requires Inv(s) && Claimed(s, c) && !s.claims[c].stage.Released?
    ensures Inv(DoDefer(s, c))
  {
    hide Inv;
    if Leased(s, c) {
      SurrenderKeeps(s, DoDefer(s, c), c, Row(s, c).(lease := None, nextAttempt := s.now + RETRY_SECONDS));
    } else {
      ReleaseKeeps(s, c);
    }
  }

  lemma EndKeeps(s: State, c: nat, action: Action)
    requires Inv(s) && MayWork(s, c, action) && Ends(action)
    ensures Inv(DoWork(s, c, action))
  {
    hide Inv, Finish, DoDefer;
    var request := Row(s, c).request;
    match action {
      case Succeed =>
        FinishKeeps(s, c, Succeeded, LifecycleAfter(request, s.claims[c].policy),
                    if request.Reserves() then Settle(s.reserved, request.desired.resources) else s.reserved);
      case Fail => FinishKeeps(s, c, Faulted, if request.Provisions() then Failed else s.lifecycle, s.reserved);
      case Supersede => FinishKeeps(s, c, Superseded, s.lifecycle, s.reserved);
      case Defer => DeferKeeps(s, c);
    }
  }

  lemma WorkKeeps(s: State, c: nat, action: Action)
    requires Inv(s) && MayWork(s, c, action)
    ensures Inv(DoWork(s, c, action))
  {
    hide Inv, DoBind, DoCapturePolicy;
    if Ends(action) { EndKeeps(s, c, action); }
    else if action.Bind? { BindKeeps(s, c); }
    else if action.CapturePolicy? { CaptureKeeps(s, c); }
    else { OtherKeeps(s, c, action); }
  }

  lemma OtherKeeps(s: State, c: nat, action: Action)
    requires Inv(s) && MayWork(s, c, action) && !Ends(action) && !action.Bind? && !action.CapturePolicy?
    ensures Inv(DoWork(s, c, action))
  {
    hide Inv, DoWork;
    WorkClaims(s, c, action);
    WorkRest(s, c, action);
    if Writes(action) { WriteStageKept(s, c, action); } else { StageKept(s, c, action); }
    OwnStageInv(s, DoWork(s, c, action), c);
  }

  /** A claim can only be taken when no other is live. */
  lemma TakeKeeps(s: State, op: nat)
    requires Inv(s) && CanTake(s, op)
    ensures Inv(DoTake(s, op))
  {
    var t := DoTake(s, op);
    assert RowInv(s, op);
    forall x | 0 <= x < |t.operations| ensures RowInv(t, x) { assert RowInv(s, x); }
    forall d | 0 <= d < |t.claims| ensures ClaimInv(t, d) { if d < |s.claims| { assert ClaimInv(s, d); } }
  }

  lemma AdmitKeeps(s: State, a: Admission)
    requires Inv(s) && MayAdmit(s, a)
    ensures Inv(DoAdmit(s, a))
  {
    hide Inv;
    var t := DoAdmit(s, a);
    AdmitRowEffect(s, a);
    assert t.claims == s.claims && t.now == s.now && t.history.ended == s.history.ended;
    if a.AcceptRetry? { RetryKeeps(s); }
    else if a.ReconcileReservation? { LaterKeeps(s, t); }
    else { AppendedKeeps(s, t); }
  }

  lemma RetryKeeps(s: State)
    requires Inv(s) && CanRetry(s)
    ensures Inv(DoRetry(s))
  {
    var t := DoRetry(s);
    forall op | 0 <= op < |t.operations| ensures RowInv(t, op) { assert RowInv(s, op); }
    forall d | 0 <= d < |t.claims| ensures ClaimInv(t, d) { assert ClaimInv(s, d) && RowInv(s, s.claims[d].operation); }
  }

  lemma AppendedKeeps(s: State, t: State)
    requires Inv(s) && Appended(s, t) && t.claims == s.claims && t.now == s.now && t.history.ended == s.history.ended
    ensures Inv(t)
  {
    forall op | 0 <= op < |t.operations| ensures RowInv(t, op) {
      if op < |s.operations| { assert RowInv(s, op) && t.operations[op] == s.operations[op]; }
    }
    forall d | 0 <= d < |t.claims| ensures ClaimInv(t, d) {
      assert ClaimInv(s, d);
      assert t.operations[s.claims[d].operation] == s.operations[s.claims[d].operation];
    }
  }

  lemma StepKeeps(s: State, step: Step)
    requires Inv(s) && Enabled(s, step)
    ensures Inv(Apply(s, step))
  {
    hide Inv, DoAdmit, DoWork, DoTake;
    match step {
      case Admit(a) => AdmitKeeps(s, a);
      case Work(c, action) => WorkKeeps(s, c, action);
      case Take(op) => TakeKeeps(s, op);
      case Pass(_) => LaterKeeps(s, Apply(s, step));
      case Operate(w) => LaterKeeps(s, Apply(s, step));
    }
  }

  lemma LaterKeeps(s: State, t: State)
    requires Inv(s) && t.operations == s.operations && t.claims == s.claims && s.now <= t.now && t.history.ended == s.history.ended
    ensures Inv(t)
  {
    forall op | 0 <= op < |t.operations| ensures RowInv(t, op) { assert RowInv(s, op); }
    forall d | 0 <= d < |t.claims| ensures ClaimInv(t, d) { assert ClaimInv(s, d); }
  }

  lemma {:induction false} RunKeeps(steps: seq<Step>)
    requires Run(Initial, steps)
    ensures Inv(After(Initial, steps))
    decreases |steps|
  {
    if steps != [] {
      var front := steps[..|steps| - 1];
      RunKeeps(front);
      StepKeeps(After(Initial, front), steps[|steps| - 1]);
    }
  }

  // ----- Main results

  /** Two claims of one operation are never live at once. */
  lemma OneLiveClaim(steps: seq<Step>, c: nat, d: nat)
    requires Run(Initial, steps)
    requires Live(After(Initial, steps), c) && Live(After(Initial, steps), d)
    requires After(Initial, steps).claims[c].operation == After(Initial, steps).claims[d].operation
    ensures c == d
  {
    RunKeeps(steps);
    var s := After(Initial, steps);
    assert ClaimInv(s, c) && ClaimInv(s, d);
  }

  predicate Final(state: OperationState) {
    state.Succeeded? || state.Superseded?
  }

  /** What a step can do to the state of an operation it finds there. */
  predicate Moves(s: State, step: Step, op: nat, before: OperationState, after: OperationState) {
    || after == before
    || (before.Pending? && after.Applying? && step == Take(op))
    || (before.Faulted? && after.Reconciling? && step == Admit(AcceptRetry) && op + 1 == |s.operations|)
    || ((before.Applying? || before.Reconciling?) && step.Work? && Live(s, step.c) && s.claims[step.c].operation == op &&
        (after.Reconciling? || after.Succeeded? || after.Faulted? || after.Superseded?))
  }

  lemma FinishMoves(s: State, c: nat, op: nat, state: OperationState, lifecycle: Lifecycle, reserved: Resources)
    requires Inv(s) && Claimed(s, c) && !s.claims[c].stage.Released? && op < |s.operations|
    ensures
      var t := Finish(s, c, state, lifecycle, reserved);
      && op < |t.operations|
      && (t.operations[op].state == s.operations[op].state ||
          (Live(s, c) && s.claims[c].operation == op && t.operations[op].state == state &&
           (s.operations[op].state.Applying? || s.operations[op].state.Reconciling?)))
      && ((t.lifecycle != s.lifecycle || t.reserved != s.reserved) ==> Live(s, c))
  {
    assert RowInv(s, s.claims[c].operation);
  }

  /** Operations move only as listed: ends and progress under a live claim, retry from a failure, nothing out of a final state. */
  lemma StateMoves(s: State, step: Step, op: nat)
    requires Inv(s) && Enabled(s, step) && op < |s.operations|
    ensures op < |Apply(s, step).operations|
    ensures Moves(s, step, op, s.operations[op].state, Apply(s, step).operations[op].state)
    ensures Final(s.operations[op].state) ==> Apply(s, step).operations[op].state == s.operations[op].state
  {
    hide Inv, DoAdmit, DoWork;
    match step {
      case Admit(a) => AdmitMoves(s, a, op);
      case Work(c, action) => WorkMoves(s, c, action, op);
      case _ =>
    }
  }

  lemma AdmitMoves(s: State, a: Admission, op: nat)
    requires MayAdmit(s, a) && op < |s.operations|
    ensures op < |DoAdmit(s, a).operations|
    ensures DoAdmit(s, a).operations[op].state == s.operations[op].state ||
            (a.AcceptRetry? && s.operations[op].state.Faulted? && DoAdmit(s, a).operations[op].state.Reconciling? && op + 1 == |s.operations|)
  {
  }

  lemma WorkMoves(s: State, c: nat, action: Action, op: nat)
    requires Inv(s) && MayWork(s, c, action) && op < |s.operations|
    ensures op < |DoWork(s, c, action).operations|
    ensures Moves(s, Work(c, action), op, s.operations[op].state, DoWork(s, c, action).operations[op].state)
    ensures DoWork(s, c, action).lifecycle != s.lifecycle || DoWork(s, c, action).reserved != s.reserved ==> Live(s, c)
  {
    hide Inv, Finish, DoDefer, DoCreateInstance, DoUpdateInstance, DoApprove, DoIssueDelete;
    WorkRowEffect(s, c, action);
    var request := Row(s, c).request;
    match action {
      case Succeed =>
        FinishMoves(s, c, op, Succeeded, LifecycleAfter(request, s.claims[c].policy),
                    if request.Reserves() then Settle(s.reserved, request.desired.resources) else s.reserved);
      case Fail => FinishMoves(s, c, op, Faulted, if request.Provisions() then Failed else s.lifecycle, s.reserved);
      case Supersede => FinishMoves(s, c, op, Superseded, s.lifecycle, s.reserved);
      case Defer => DeferMoves(s, c, op);
      case Bind => BindMoves(s, c, op);
      case _ => OtherMoves(s, c, action, op);
    }
  }

  lemma DeferMoves(s: State, c: nat, op: nat)
    requires Claimed(s, c) && op < |s.operations|
    ensures op < |DoDefer(s, c).operations| && DoDefer(s, c).operations[op].state == s.operations[op].state
    ensures DoDefer(s, c).lifecycle == s.lifecycle && DoDefer(s, c).reserved == s.reserved
  {
  }

  lemma BindMoves(s: State, c: nat, op: nat)
    requires Inv(s) && MayWork(s, c, Bind) && op < |s.operations|
    ensures op < |DoBind(s, c).operations|
    ensures DoBind(s, c).operations[op].state != s.operations[op].state ==>
              Live(s, c) && s.claims[c].operation == op && s.operations[op].state.Applying? && DoBind(s, c).operations[op].state.Reconciling?
  {
    assert RowInv(s, s.claims[c].operation);
  }

  lemma OtherMoves(s: State, c: nat, action: Action, op: nat)
    requires MayWork(s, c, action) && !Ends(action) && !action.Bind? && op < |s.operations|
    ensures op < |DoWork(s, c, action).operations| && DoWork(s, c, action).operations[op].state == s.operations[op].state
    ensures DoWork(s, c, action).lifecycle == s.lifecycle && DoWork(s, c, action).reserved == s.reserved
  {
  }

  /** Once succeeded or superseded, an operation stays so for the rest of every run. */
  lemma {:induction false} FinalStays(earlier: seq<Step>, steps: seq<Step>, op: nat)
    requires Run(Initial, steps) && earlier <= steps && Run(Initial, earlier)
    requires op < |After(Initial, earlier).operations| && Final(After(Initial, earlier).operations[op].state)
    ensures op < |After(Initial, steps).operations|
    ensures After(Initial, steps).operations[op].state == After(Initial, earlier).operations[op].state
    decreases |steps|
  {
    if |earlier| < |steps| {
      var front := steps[..|steps| - 1];
      assert earlier <= front;
      FinalStays(earlier, front, op);
      RunKeeps(front);
      StateMoves(After(Initial, front), steps[|steps| - 1], op);
    } else {
      assert earlier == steps;
    }
  }

  /** A claim taken after its operation had ended finds no sealed credentials and never creates, updates or provisions credentials. */
  lemma LateClaimsOnlyObserve(steps: seq<Step>, c: nat, action: Action)
    requires Run(Initial, steps)
    requires MayWork(After(Initial, steps), c, action) && After(Initial, steps).claims[c].late
    ensures !After(Initial, steps).claims[c].payload
    ensures !action.Write? && !action.Seal? && !action.CheckVolume?
  {
    RunKeeps(steps);
    assert ClaimInv(After(Initial, steps), c);
  }

  /** A worker changes the lifecycle or the reservation only through a live claim. */
  lemma LifecycleUnderLiveClaim(steps: seq<Step>, c: nat, action: Action)
    requires Run(Initial, steps) && MayWork(After(Initial, steps), c, action)
    requires
      var s := After(Initial, steps);
      DoWork(s, c, action).lifecycle != s.lifecycle || DoWork(s, c, action).reserved != s.reserved
    ensures Live(After(Initial, steps), c)
  {
    RunKeeps(steps);
    WorkMoves(After(Initial, steps), c, action, After(Initial, steps).claims[c].operation);
  }
}
