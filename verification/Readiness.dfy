/**
 What a success rests on.

 A create, update, rotation or reclaim succeeds only after a worker has seen the object as this
 operation wrote it, at the generation it bound, and reported ready by the operator for exactly that
 generation; a reclaim only after its object was approved.
 */
module Readiness {
  import opened Wrappers
  import opened Protocol
  import opened Effects
  import Identity
  import Fencing
  import Lineage

  /** Some worker could see this: the object of the binding as operation `op` wrote it, at generation `target`, reported ready for
      that generation, and approved where it takes over a volume. */
  predicate ReadyVersion(s: State, op: nat, target: Option<nat>, v: Instance) {
    && v in s.history.seen && v.uid in s.history.bound
    && v.operation == op && target == Some(v.generation) && v.ready == Some(v.generation)
    && (op < |s.operations| && s.operations[op].request.Reclaim? ==> v.uid in s.history.marked)
  }

  ghost predicate Witnessed(s: State, op: nat, target: Option<nat>) {
    exists v :: ReadyVersion(s, op, target, v)
  }

  predicate Concluding(stage: Stage) {
    stage.Listing? || stage.Cleaning?
  }

  ghost predicate ClaimInv(s: State, claim: Claim) {
    && claim.operation < |s.operations|
    && var request := s.operations[claim.operation].request;
       && (request.Configures() && Concluding(claim.stage) ==> Witnessed(s, claim.operation, claim.target))
       && (request.Reclaim? && claim.stage.Verifying? && claim.answer.Some? ==> claim.answer.value.uid in s.history.marked)
  }

  ghost predicate RowInv(s: State, op: nat)
    requires op < |s.operations|
  {
    var row := s.operations[op];
    && (row.state.Succeeded? && row.request.Configures() ==> Witnessed(s, op, row.target))
    && (row.lease.Some? && row.lease.value.worker < |s.claims| ==> s.claims[row.lease.value.worker].target == row.target)
  }

  ghost predicate Inv(s: State) {
    && (forall c | 0 <= c < |s.claims| :: ClaimInv(s, s.claims[c]))
    && (forall op | 0 <= op < |s.operations| :: RowInv(s, op))
  }

  predicate Facts(s: State) {
    Identity.Base(s) && Fencing.Inv(s) && Lineage.BoundInv(s)
  }

  // ----- What is seen stays seen

  predicate Later(s: State, t: State) {
    && s.history.seen <= t.history.seen && s.history.bound <= t.history.bound && s.history.marked <= t.history.marked
    && (Appended(s, t) || SameRequests(s, t))
  }

  lemma StillWitnessed(s: State, t: State, op: nat, target: Option<nat>)
    requires Later(s, t) && op < |s.operations| && Witnessed(s, op, target)
    ensures Witnessed(t, op, target)
  {
    var v :| ReadyVersion(s, op, target, v);
    assert t.operations[op].request == s.operations[op].request;
    assert ReadyVersion(t, op, target, v);
  }

  lemma StillClaim(s: State, t: State, claim: Claim)
    requires Later(s, t) && ClaimInv(s, claim)
    ensures ClaimInv(t, claim)
  {
    assert t.operations[claim.operation].request == s.operations[claim.operation].request;
    if Concluding(claim.stage) && s.operations[claim.operation].request.Configures() {
      StillWitnessed(s, t, claim.operation, claim.target);
    }
  }

  lemma WorkGrows(s: State, c: nat, action: Action)
    requires MayWork(s, c, action)
    ensures
      var t := DoWork(s, c, action);
      s.history.seen <= t.history.seen && s.history.bound <= t.history.bound && s.history.marked <= t.history.marked
  {
    hide DoWork, MayWork;
    if Removes(action) { RemovalGrows(s, c, action); }
    else if Ends(action) { EndGrows(s, c, action); }
    else { ConfigureGrows(s, c, action); }
  }

  predicate Grown(s: State, t: State) {
    s.history.seen <= t.history.seen && s.history.bound <= t.history.bound && s.history.marked <= t.history.marked
  }

  lemma RemovalGrows(s: State, c: nat, action: Action)
    requires MayWork(s, c, action) && Removes(action)
    ensures Grown(s, DoWork(s, c, action))
  {
  }

  lemma EndGrows(s: State, c: nat, action: Action)
    requires MayWork(s, c, action) && Ends(action)
    ensures Grown(s, DoWork(s, c, action))
  {
  }

  lemma ConfigureGrows(s: State, c: nat, action: Action)
    requires MayWork(s, c, action) && !Removes(action) && !Ends(action)
    ensures Grown(s, DoWork(s, c, action))
  {
  }

  lemma WorkLater(s: State, c: nat, action: Action)
    requires MayWork(s, c, action)
    ensures Later(s, DoWork(s, c, action))
  {
    hide DoWork, MayWork;
    WorkGrows(s, c, action);
    WorkRowEffect(s, c, action);
  }

  // ----- What verification does

  /** The version a claim has read is the bound object as its operation wrote it, at its target, reported ready. */
  predicate Done(s: State, c: nat)
    requires Claimed(s, c) && s.claims[c].answer.Some?
  {
    var v := s.claims[c].answer.value;
    && s.uid == Some(v.uid) && v.operation == s.claims[c].operation
    && s.claims[c].target == Some(v.generation) && v.ready == Some(v.generation)
  }

  predicate Current(s: State, c: nat)
    requires Claimed(s, c) && s.claims[c].answer.Some?
  {
    s.claims[c].target == Some(s.claims[c].answer.value.generation) && s.claims[c].answer.value.operation == s.claims[c].operation
  }

  /** A claim that verifies goes on exactly if what it has read is done; it waits exactly if only the report is missing, gives way
      exactly if the bound object was changed by another operation, and fails exactly if the binding names another object.
      Rotations and reclaims go on to revoke what is older. */
  lemma GoesOnIfDone(s: State, c: nat)
    requires MayWork(s, c, Verify)
    ensures
      var v, request, after := s.claims[c].answer.value, Row(s, c).request, DoWork(s, c, Verify).claims[c].stage;
      && (after in {Listing, Cleaning} <==> Done(s, c))
      && (after == Listing <==> Done(s, c) && (request.Rotate? || request.Reclaim?))
      && (after == Waiting <==> s.uid == Some(v.uid) && Current(s, c) && v.ready != Some(v.generation))
      && (after == Superseding <==> s.uid == Some(v.uid) && !Current(s, c))
      && (after == Failing <==> s.uid != Some(v.uid))
  {
  }

  // ----- Preservation

  /** A claim of a configuring operation comes to its conclusion only from there. */
  predicate NotConcluding(s: State, t: State, c: nat)
    requires c < |s.claims|
  {
    && |t.claims| == |s.claims|
    && (Concluding(t.claims[c].stage) ==> Concluding(s.claims[c].stage) && t.claims[c].target == s.claims[c].target)
  }

  lemma RemovesConclude(s: State, c: nat, action: Action)
    requires MayWork(s, c, action) && (Removes(action) || Ends(action)) && Row(s, c).request.Configures()
    ensures NotConcluding(s, DoWork(s, c, action), c)
    ensures !DoWork(s, c, action).claims[c].stage.Verifying?
  {
    if Ends(action) { EndsClaims(s, c, action); }
    hide DoWork;
  }

  lemma WriteConcludes(s: State, c: nat, lost: bool)
    requires MayWork(s, c, Write(lost))
    ensures NotConcluding(s, DoWrite(s, c, lost), c)
  {
    if Row(s, c).request.Provisions() { CreateConcludes(s, c, lost); } else { UpdateConcludes(s, c, lost); }
    hide DoCreateInstance, DoUpdateInstance;
  }

  lemma CreateConcludes(s: State, c: nat, lost: bool)
    requires At(s, c, Writing) && Row(s, c).request.Provisions()
    ensures NotConcluding(s, DoCreateInstance(s, c, lost), c)
  {
  }

  lemma UpdateConcludes(s: State, c: nat, lost: bool)
    requires At(s, c, Writing) && Row(s, c).request.Edits()
    ensures NotConcluding(s, DoUpdateInstance(s, c, lost), c)
  {
  }

  lemma BindConcludes(s: State, c: nat)
    requires MayWork(s, c, Bind)
    ensures NotConcluding(s, DoBind(s, c), c)
  {
  }

  lemma ApproveConcludes(s: State, c: nat, lost: bool)
    requires MayWork(s, c, Approve(lost))
    ensures NotConcluding(s, DoApprove(s, c, lost), c)
  {
  }

  lemma OthersConclude(s: State, c: nat, action: Action)
    requires MayWork(s, c, action) && !Removes(action) && !Ends(action) && !Writes(action) && !action.Verify?
    ensures NotConcluding(s, DoWork(s, c, action), c)
  {
  }

  lemma ConfiguresConclude(s: State, c: nat, action: Action)
    requires MayWork(s, c, action) && !Removes(action) && !Ends(action) && !action.Verify?
    ensures NotConcluding(s, DoWork(s, c, action), c)
  {
    hide NotConcluding, DoWrite, DoBind, DoApprove;
    match action {
      case Write(lost) => WriteConcludes(s, c, lost);
      case Bind => BindConcludes(s, c);
      case Approve(lost) => ApproveConcludes(s, c, lost);
      case _ => OthersConclude(s, c, action);
    }
  }

  /** A reclaim comes to its verification only by way of the approval. */
  lemma OnlyApproved(s: State, c: nat, action: Action)
    requires MayWork(s, c, action) && Row(s, c).request.Reclaim? && !action.Approve? && !Removes(action) && !Ends(action)
    ensures |DoWork(s, c, action).claims| == |s.claims| && !DoWork(s, c, action).claims[c].stage.Verifying?
  {
  }

  lemma ApprovedIsMarked(s: State, c: nat, lost: bool)
    requires Identity.Base(s) && MayWork(s, c, Approve(lost))
    ensures
      var t := DoApprove(s, c, lost);
      |t.claims| == |s.claims| &&
      (t.claims[c].stage.Verifying? && t.claims[c].answer.Some? ==> t.claims[c].answer.value.uid in t.history.marked)
  {
    if s.instance.Some? { Identity.InstanceFacts(s); }
    hide Identity.Base;
  }

  lemma VerifiedIsWitnessed(s: State, c: nat)
    requires Facts(s) && MayWork(s, c, Verify) && ClaimInv(s, s.claims[c])
    ensures
      var t := DoVerify(s, c);
      |t.claims| == |s.claims| &&
      (Row(s, c).request.Configures() && Concluding(t.claims[c].stage) ==> Witnessed(s, s.claims[c].operation, t.claims[c].target))
  {
    Identity.ClaimFacts(s, c);
    hide Identity.Base, Fencing.Inv, Identity.ClaimInv, Identity.RequestInv;
    assert Identity.ClaimInv(s, s.claims[c]);
    VerifySees(s, c);
    assert Done(s, c) ==> ReadyVersion(s, s.claims[c].operation, s.claims[c].target, s.claims[c].answer.value);
  }

  lemma VerifySees(s: State, c: nat)
    requires MayWork(s, c, Verify) && Identity.ClaimInv(s, s.claims[c])
    ensures s.claims[c].answer.value in s.history.seen
    ensures |DoVerify(s, c).claims| == |s.claims| && DoVerify(s, c).claims[c].target == s.claims[c].target
    ensures Concluding(DoVerify(s, c).claims[c].stage) ==> Done(s, c)
  {
  }

  lemma OwnClaim(s: State, c: nat, action: Action)
    requires Facts(s) && MayWork(s, c, action) && ClaimInv(s, s.claims[c])
    ensures |DoWork(s, c, action).claims| == |s.claims|
    ensures ClaimInv(DoWork(s, c, action), DoWork(s, c, action).claims[c])
  {
    var t := DoWork(s, c, action);
    var op := s.claims[c].operation;
    WorkLater(s, c, action);
    WorkClaims(s, c, action);
    hide DoWork, MayWork, Facts, Witnessed, Later, DoVerify, DoApprove;
    SameRequest(s, t, op);
    if s.operations[op].request.Configures() {
      if Removes(action) || Ends(action) { RemovesConclude(s, c, action); }
      else if action.Verify? { VerifiedIsWitnessed(s, c); Verifies(s, c); }
      else { ConfiguresConclude(s, c, action); }
      if Witnessed(s, op, t.claims[c].target) { StillWitnessed(s, t, op, t.claims[c].target); }
    }
    if s.operations[op].request.Reclaim? && !Removes(action) && !Ends(action) {
      if action.Approve? {
        BaseOf(s);
        ApprovedIsMarked(s, c, action.lost);
        Approves(s, c, action.lost);
      } else {
        OnlyApproved(s, c, action);
      }
    }
  }

  lemma BaseOf(s: State)
    requires Facts(s)
    ensures Identity.Base(s)
  {
  }

  lemma Verifies(s: State, c: nat)
    requires MayWork(s, c, Verify)
    ensures DoWork(s, c, Verify) == DoVerify(s, c)
  {
  }

  lemma Approves(s: State, c: nat, lost: bool)
    requires MayWork(s, c, Approve(lost))
    ensures DoWork(s, c, Approve(lost)) == DoApprove(s, c, lost)
  {
  }

  lemma SameRequest(s: State, t: State, op: nat)
    requires Later(s, t) && op < |s.operations|
    ensures op < |t.operations| && t.operations[op].request == s.operations[op].request
  {
  }

  // ----- Rows

  /** What an action does to a row: its target moves only when it is bound, with that of the claim; it succeeds only from its
      conclusion, while the claim is held; and a lease is kept or given up. */
  predicate RowMoves(s: State, t: State, c: nat, op: nat)
    requires Claimed(s, c) && op < |s.operations| && |t.operations| == |s.operations| && |t.claims| == |s.claims|
  {
    var before, after := s.operations[op], t.operations[op];
    && (after.lease == before.lease || after.lease.None?)
    && (after.target == before.target ||
        (op == s.claims[c].operation && before.lease.Some? && before.lease.value.worker == c && after.target == t.claims[c].target))
    && (t.claims[c].target == s.claims[c].target ||
        (op == s.claims[c].operation ==> after.target == t.claims[c].target))
    && (after.state.Succeeded? ==>
          || (before.state.Succeeded? && after.target == before.target)
          || (op == s.claims[c].operation && before.lease.Some? && before.lease.value.worker == c &&
              s.claims[c].stage.Cleaning? && after.target == before.target))
  }

  lemma BindRow(s: State, c: nat, op: nat)
    requires MayWork(s, c, Bind) && op < |s.operations|
    ensures |DoBind(s, c).operations| == |s.operations| && |DoBind(s, c).claims| == |s.claims|
    ensures RowMoves(s, DoBind(s, c), c, op)
  {
  }

  lemma EndRow(s: State, c: nat, action: Action, op: nat)
    requires MayWork(s, c, action) && Ends(action) && op < |s.operations|
    ensures RowsKept(s, DoWork(s, c, action)) && RowMoves(s, DoWork(s, c, action), c, op)
  {
  }

  lemma RemoveRow(s: State, c: nat, action: Action, op: nat)
    requires MayWork(s, c, action) && Removes(action) && op < |s.operations|
    ensures RowsKept(s, DoWork(s, c, action)) && RowMoves(s, DoWork(s, c, action), c, op)
  {
  }

  lemma OtherRow(s: State, c: nat, action: Action, op: nat)
    requires MayWork(s, c, action) && !Removes(action) && !Ends(action) && !action.Bind? && op < |s.operations|
    ensures RowsKept(s, DoWork(s, c, action)) && RowMoves(s, DoWork(s, c, action), c, op)
  {
  }

  lemma WorkRow(s: State, c: nat, action: Action, op: nat)
    requires MayWork(s, c, action) && op < |s.operations|
    ensures RowsKept(s, DoWork(s, c, action)) && RowMoves(s, DoWork(s, c, action), c, op)
  {
    hide RowMoves, DoBind;
    if Removes(action) { RemoveRow(s, c, action, op); }
    else if Ends(action) { EndRow(s, c, action, op); }
    else if action.Bind? {
      WorkRowEffect(s, c, action);
      BindRow(s, c, op);
    }
    else { OtherRow(s, c, action, op); }
  }

  lemma WorkedRow(s: State, c: nat, action: Action, op: nat)
    requires Fencing.Inv(s) && Inv(s) && MayWork(s, c, action) && op < |s.operations|
    ensures RowsKept(s, DoWork(s, c, action)) && RowInv(DoWork(s, c, action), op)
  {
    var t := DoWork(s, c, action);
    WorkRow(s, c, action, op);
    WorkLater(s, c, action);
    WorkClaims(s, c, action);
    assert Fencing.RowInv(s, op) && RowInv(s, op) && ClaimInv(s, s.claims[c]);
    hide DoWork, MayWork, Inv, Fencing.Inv, Witnessed, Later;
    SameRequest(s, t, op);
    if Witnessed(s, op, s.operations[op].target) { StillWitnessed(s, t, op, s.operations[op].target); }
  }

  lemma WorkKeeps(s: State, c: nat, action: Action)
    requires Facts(s) && Inv(s) && MayWork(s, c, action)
    ensures Inv(DoWork(s, c, action))
  {
    var t := DoWork(s, c, action);
    WorkLater(s, c, action);
    WorkClaims(s, c, action);
    WorkRowEffect(s, c, action);
    hide DoWork, MayWork, Later, ClaimInv, RowInv, Identity.Base, Fencing.Inv, Lineage.BoundInv;
    forall op | 0 <= op < |t.operations| ensures RowInv(t, op) { WorkedRow(s, c, action, op); }
    forall d | 0 <= d < |t.claims| ensures ClaimInv(t, t.claims[d]) {
      assert ClaimInv(s, s.claims[d]);
      if d == c { OwnClaim(s, c, action); } else { StillClaim(s, t, s.claims[d]); }
    }
  }

  lemma TakeKeeps(s: State, op: nat)
    requires Fencing.Inv(s) && Inv(s) && CanTake(s, op)
    ensures Inv(DoTake(s, op))
  {
    var t := DoTake(s, op);
    hide Witnessed;
    assert SameRequests(s, t);
    forall x | 0 <= x < |t.operations| ensures RowInv(t, x) {
      assert RowInv(s, x) && Fencing.RowInv(s, x);
      if Witnessed(s, x, s.operations[x].target) { StillWitnessed(s, t, x, s.operations[x].target); }
    }
    forall d | 0 <= d < |t.claims| ensures ClaimInv(t, t.claims[d]) {
      if d < |s.claims| {
        assert ClaimInv(s, s.claims[d]);
        StillClaim(s, t, s.claims[d]);
      }
    }
  }

  /** No claim moves, and no row gets a lease or succeeds. */
  lemma AsideKeeps(s: State, t: State)
    requires Fencing.Inv(s) && Inv(s) && Later(s, t) && t.claims == s.claims
    requires forall op | 0 <= op < |s.operations| ::
               && t.operations[op].target == s.operations[op].target
               && (t.operations[op].lease == s.operations[op].lease || t.operations[op].lease.None?)
               && (t.operations[op].state.Succeeded? ==> s.operations[op].state.Succeeded?)
    ensures Inv(t)
  {
    hide Witnessed;
    forall op | 0 <= op < |t.operations| ensures RowInv(t, op) {
      if op < |s.operations| {
        assert RowInv(s, op) && t.operations[op].request == s.operations[op].request;
        if Witnessed(s, op, s.operations[op].target) { StillWitnessed(s, t, op, s.operations[op].target); }
      }
    }
    forall d | 0 <= d < |t.claims| ensures ClaimInv(t, t.claims[d]) {
      assert ClaimInv(s, s.claims[d]);
      StillClaim(s, t, s.claims[d]);
    }
  }

  lemma AdmitKeeps(s: State, a: Admission)
    requires Fencing.Inv(s) && Inv(s) && MayAdmit(s, a)
    ensures Inv(DoAdmit(s, a))
  {
    var t := DoAdmit(s, a);
    hide Fencing.Inv, Inv;
    AdmitRowEffect(s, a);
    assert t.history == s.history;
    if a.AcceptRetry? || a.ReconcileReservation? {
    } else {
      forall op | 0 <= op < |s.operations| ensures t.operations[op] == s.operations[op] {
        assert t.operations[..|s.operations|][op] == s.operations[op];
      }
    }
    AsideKeeps(s, t);
  }

  lemma OutsideKeeps(s: State, step: Step)
    requires Fencing.Inv(s) && Inv(s) && Enabled(s, step) && (step.Operate? || step.Pass?)
    ensures Inv(Apply(s, step))
  {
    hide Fencing.Inv, Inv;
    AsideKeeps(s, Apply(s, step));
  }

  lemma StepKeeps(s: State, step: Step)
    requires Facts(s) && Inv(s) && Enabled(s, step)
    ensures Inv(Apply(s, step))
  {
    hide Inv, DoAdmit, DoWork, DoTake, DoOperate, Identity.Base, Fencing.Inv, Lineage.BoundInv;
    match step {
      case Admit(a) => AdmitKeeps(s, a);
      case Work(c, action) => WorkKeeps(s, c, action);
      case Take(op) => TakeKeeps(s, op);
      case Pass(_) => OutsideKeeps(s, step);
      case Operate(_) => OutsideKeeps(s, step);
    }
  }

  lemma FactsOf(steps: seq<Step>)
    requires Run(Initial, steps)
    ensures Facts(After(Initial, steps)) && Lineage.Inv(After(Initial, steps))
  {
    Lineage.RunKeeps(steps);
    Fencing.RunKeeps(steps);
  }

  lemma {:induction false} RunKeeps(steps: seq<Step>)
    requires Run(Initial, steps)
    ensures Inv(After(Initial, steps))
    decreases |steps|
  {
    if steps != [] {
      var front := steps[..|steps| - 1];
      RunKeeps(front);
      FactsOf(front);
      StepKeeps(After(Initial, front), steps[|steps| - 1]);
    }
  }

  // ----- Main results

  /** In every run, an operation that configures an object and has succeeded was seen to be done: there was a version of an object
      of the binding with exactly the configuration asked for, written by this operation, at the generation that was bound and
      reported ready for that generation; and a reclaimed one was approved. */
  lemma SucceededWasReady(steps: seq<Step>, op: nat)
    requires Run(Initial, steps) && op < |After(Initial, steps).operations|
    requires After(Initial, steps).operations[op].state.Succeeded? && After(Initial, steps).operations[op].request.Configures()
    ensures
      var s := After(Initial, steps);
      exists v ::
        && v in s.history.seen && v.uid in s.history.bound && v.operation == op
        && v.spec == s.operations[op].request.desired
        && s.operations[op].target == Some(v.generation) && v.ready == Some(v.generation)
        && (s.operations[op].request.Reclaim? ==> v.uid in s.history.marked)
  {
    var s := After(Initial, steps);
    RunKeeps(steps);
    FactsOf(steps);
    assert RowInv(s, op);
    var v :| ReadyVersion(s, op, s.operations[op].target, v);
    assert Lineage.Written(s, v);
  }

  /** The other way: a claim that is held and has read a version that is done brings a create or an update to its success. */
  lemma DoneSucceeds(s: State, c: nat)
    requires MayWork(s, c, Verify) && Held(s, c) && Done(s, c) && (Row(s, c).request.Create? || Row(s, c).request.Update?)
    requires s.claims[c].todo == {}
    ensures
      var t := DoWork(s, c, Verify);
      && MayWork(t, c, Succeed)
      && DoWork(t, c, Succeed).operations[s.claims[c].operation].state == Succeeded
      && DoWork(t, c, Succeed).lifecycle == Active
  {
    GoesOnIfDone(s, c);
    assert DoWork(s, c, Verify) == SetStage(s, c, Cleaning);
  }
}
