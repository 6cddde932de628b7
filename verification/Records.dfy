/**
 What an operation has on record: the version it bound, with its generation, and the policy a delete has captured.
 */
module Records {
  import opened Wrappers
  import opened Protocol
  import opened Effects
  import Fencing
  import Lineage

  /** The version a claim is about to bind was written by its operation and was not being deleted. */
  predicate ToBind(claim: Claim) {
    claim.stage.Binding? && claim.answer.Some? ==> claim.answer.value.operation == claim.operation && !claim.answer.value.deleting
  }

  predicate BoundRow(s: State, op: nat)
    requires op < |s.operations|
  {
    && (op in s.history.boundBy ==>
          && s.history.boundBy[op].operation == op && !s.history.boundBy[op].deleting
          && s.history.boundBy[op].uid in s.history.bound
          && s.operations[op].target == Some(s.history.boundBy[op].generation))
    && (s.operations[op].target.Some? ==> op in s.history.boundBy)
  }

  predicate Reading(stage: Stage) {
    stage.ReadingInstance? || stage.CapturingPolicy?
  }

  /** A claim with the lease knows the policy on record until it has captured one itself. */
  predicate PolicyRow(s: State, op: nat)
    requires op < |s.operations|
  {
    var lease := s.operations[op].lease;
    lease.Some? && lease.value.worker < |s.claims| && Reading(s.claims[lease.value.worker].stage) ==>
      s.claims[lease.value.worker].policy == s.operations[op].policy
  }

  predicate ToCapture(claim: Claim) {
    claim.stage.CapturingPolicy? && claim.answer.Some? ==> claim.policy.None? || claim.policy == Some(claim.answer.value.spec.policy)
  }

  predicate Inv(s: State) {
    && (forall c | 0 <= c < |s.claims| :: ToBind(s.claims[c]) && ToCapture(s.claims[c]))
    && (forall op | 0 <= op < |s.operations| :: BoundRow(s, op) && PolicyRow(s, op))
    && (forall op | op in s.history.boundBy :: op < |s.operations|)
  }

  // ----- The claim that acts

  predicate OwnOk(t: State, c: nat) {
    c < |t.claims| && ToBind(t.claims[c]) && ToCapture(t.claims[c])
  }

  lemma CreateOk(s: State, c: nat, lost: bool)
    requires At(s, c, Writing) && Row(s, c).request.Provisions()
    ensures OwnOk(DoCreateInstance(s, c, lost), c)
  {
  }

  lemma UpdateOk(s: State, c: nat, lost: bool)
    requires At(s, c, Writing) && Row(s, c).request.Edits()
    ensures OwnOk(DoUpdateInstance(s, c, lost), c)
  {
  }

  lemma RemoveOk(s: State, c: nat, action: Action)
    requires MayWork(s, c, action) && Removes(action)
    ensures OwnOk(DoWork(s, c, action), c)
  {
  }

  lemma EndOk(s: State, c: nat, action: Action)
    requires MayWork(s, c, action) && Ends(action)
    ensures OwnOk(DoWork(s, c, action), c)
  {
    EndsClaims(s, c, action);
    hide DoWork;
  }

  lemma ConfigureOk(s: State, c: nat, action: Action)
    requires MayWork(s, c, action) && !Removes(action) && !Ends(action) && !action.Write?
    ensures OwnOk(DoWork(s, c, action), c)
  {
  }

  lemma WorkOk(s: State, c: nat, action: Action)
    requires MayWork(s, c, action)
    ensures OwnOk(DoWork(s, c, action), c)
  {
    hide OwnOk, DoCreateInstance, DoUpdateInstance;
    if action.Write? {
      if Row(s, c).request.Provisions() { CreateOk(s, c, action.lost); } else { UpdateOk(s, c, action.lost); }
    } else {
      hide DoWork, MayWork;
      if Removes(action) { RemoveOk(s, c, action); }
      else if Ends(action) { EndOk(s, c, action); }
      else { ConfigureOk(s, c, action); }
    }
  }

  // ----- The rows

  /** Only a bind moves a target, together with the version bound; only a capture moves a policy, to that of the version read; a
      lease is kept or given up; and no claim comes to reading, or changes the policy it knows. */
  predicate RowsMove(s: State, t: State, c: nat, action: Action)
    requires Claimed(s, c)
  {
    && |t.operations| == |s.operations| && |t.claims| == |s.claims|
    && t.claims[c].policy == s.claims[c].policy
    && (Reading(t.claims[c].stage) ==> Reading(s.claims[c].stage) && !action.CapturePolicy?)
    && (forall op | 0 <= op < |s.operations| ::
          && (t.operations[op].lease == s.operations[op].lease || t.operations[op].lease.None?)
          && (t.operations[op].policy == s.operations[op].policy ||
              (&& action.CapturePolicy? && op == s.claims[c].operation && s.operations[op].lease.Some? && s.operations[op].lease.value.worker == c
               && s.claims[c].answer.Some? && t.operations[op].policy == Some(s.claims[c].answer.value.spec.policy))))
    && ((t.history.boundBy == s.history.boundBy && s.history.bound <= t.history.bound &&
         forall op | 0 <= op < |s.operations| :: t.operations[op].target == s.operations[op].target)
        || BoundNow(s, t, c, action))
  }

  predicate BoundNow(s: State, t: State, c: nat, action: Action)
    requires Claimed(s, c) && |t.operations| == |s.operations|
  {
    var o := s.claims[c].operation;
    && action.Bind? && s.claims[c].stage.Binding? && s.claims[c].answer.Some?
    && t.history.boundBy == s.history.boundBy[o := s.claims[c].answer.value]
    && t.history.bound == s.history.bound + {s.claims[c].answer.value.uid}
    && t.operations[o].target == Some(s.claims[c].answer.value.generation)
    && forall op | 0 <= op < |s.operations| && op != o :: t.operations[op].target == s.operations[op].target
  }

  lemma RemoveRows(s: State, c: nat, action: Action)
    requires MayWork(s, c, action) && Removes(action)
    ensures RowsMove(s, DoWork(s, c, action), c, action)
  {
  }

  lemma EndRows(s: State, c: nat, action: Action)
    requires MayWork(s, c, action) && Ends(action)
    ensures RowsMove(s, DoWork(s, c, action), c, action)
  {
  }

  lemma BindRows(s: State, c: nat)
    requires MayWork(s, c, Bind)
    ensures RowsMove(s, DoBind(s, c), c, Bind)
  {
  }

  lemma CreateRows(s: State, c: nat, lost: bool)
    requires At(s, c, Writing) && Row(s, c).request.Provisions()
    ensures RowsMove(s, DoCreateInstance(s, c, lost), c, Write(lost))
  {
  }

  lemma UpdateRows(s: State, c: nat, lost: bool)
    requires At(s, c, Writing) && Row(s, c).request.Edits()
    ensures RowsMove(s, DoUpdateInstance(s, c, lost), c, Write(lost))
  {
  }

  lemma ConfigureRows(s: State, c: nat, action: Action)
    requires MayWork(s, c, action) && !Removes(action) && !Ends(action) && !action.Bind? && !action.Write?
    ensures RowsMove(s, DoWork(s, c, action), c, action)
  {
  }

  lemma WorkRows(s: State, c: nat, action: Action)
    requires MayWork(s, c, action)
    ensures RowsMove(s, DoWork(s, c, action), c, action)
  {
    hide RowsMove, DoCreateInstance, DoUpdateInstance, DoBind;
    if action.Write? {
      if Row(s, c).request.Provisions() { CreateRows(s, c, action.lost); } else { UpdateRows(s, c, action.lost); }
    } else if action.Bind? { BindRows(s, c); }
    else {
      hide DoWork, MayWork;
      if Removes(action) { RemoveRows(s, c, action); }
      else if Ends(action) { EndRows(s, c, action); }
      else { ConfigureRows(s, c, action); }
    }
  }

  lemma WorkKeeps(s: State, c: nat, action: Action)
    requires Fencing.Inv(s) && Inv(s) && MayWork(s, c, action)
    ensures Inv(DoWork(s, c, action))
  {
    var t := DoWork(s, c, action);
    WorkOk(s, c, action);
    WorkRows(s, c, action);
    WorkClaims(s, c, action);
    hide DoWork, MayWork;
    assert ToBind(s.claims[c]);
    forall op | 0 <= op < |t.operations| ensures BoundRow(t, op) { assert BoundRow(s, op); }
    forall op | 0 <= op < |t.operations| ensures PolicyRow(t, op) { assert PolicyRow(s, op) && Fencing.RowInv(s, op); }
  }

  /** A captured policy agrees with what was on record. */
  lemma CapturesTheSame(s: State, c: nat, action: Action, op: nat)
    requires Fencing.Inv(s) && Inv(s) && MayWork(s, c, action) && op < |s.operations|
    ensures |DoWork(s, c, action).operations| == |s.operations|
    ensures s.operations[op].policy.Some? ==> DoWork(s, c, action).operations[op].policy == s.operations[op].policy
  {
    WorkRows(s, c, action);
    assert PolicyRow(s, op) && ToCapture(s.claims[c]);
    assert action.CapturePolicy? ==> s.claims[c].stage.CapturingPolicy?;
    hide DoWork, MayWork;
  }

  lemma TakeKeeps(s: State, op: nat)
    requires Fencing.Inv(s) && Inv(s) && CanTake(s, op)
    ensures Inv(DoTake(s, op))
  {
    var t := DoTake(s, op);
    forall x | 0 <= x < |t.operations| ensures BoundRow(t, x) && PolicyRow(t, x) {
      assert BoundRow(s, x) && PolicyRow(s, x) && Fencing.RowInv(s, x);
    }
  }

  lemma AsideKeeps(s: State, t: State)
    requires Fencing.Inv(s) && Inv(s) && t.claims == s.claims && t.history.boundBy == s.history.boundBy && s.history.bound <= t.history.bound
    requires |s.operations| <= |t.operations|
    requires forall op | 0 <= op < |s.operations| ::
               && t.operations[op].target == s.operations[op].target && t.operations[op].policy == s.operations[op].policy
               && (t.operations[op].lease == s.operations[op].lease || t.operations[op].lease.None?)
    requires forall op | |s.operations| <= op < |t.operations| :: t.operations[op].target.None? && t.operations[op].lease.None?
    ensures Inv(t)
  {
    forall x | 0 <= x < |t.operations| ensures BoundRow(t, x) && PolicyRow(t, x) {
      if x < |s.operations| { assert BoundRow(s, x) && PolicyRow(s, x); }
    }
  }

  lemma AdmitKeeps(s: State, a: Admission)
    requires Fencing.Inv(s) && Inv(s) && MayAdmit(s, a)
    ensures Inv(DoAdmit(s, a))
  {
    var t := DoAdmit(s, a);
    hide Fencing.Inv, Inv;
    AdmitRowEffect(s, a);
    if !a.AcceptRetry? && !a.ReconcileReservation? {
      forall op | 0 <= op < |s.operations| ensures t.operations[op] == s.operations[op] {
        assert t.operations[..|s.operations|][op] == s.operations[op];
      }
    }
    AsideKeeps(s, t);
  }

  lemma OutsideKeeps(s: State, step: Step)
    requires Fencing.Inv(s) && Inv(s) && Enabled(s, step) && (step.Operate? || step.Pass?)
    ensures Inv(Apply(s, step)) && Apply(s, step).operations == s.operations
  {
    hide Fencing.Inv, Inv;
    AsideKeeps(s, Apply(s, step));
  }

  lemma StepKeeps(s: State, step: Step)
    requires Fencing.Inv(s) && Inv(s) && Enabled(s, step)
    ensures Inv(Apply(s, step))
  {
    hide Inv, DoAdmit, DoWork, DoOperate, Fencing.Inv;
    match step {
      case Admit(a) => AdmitKeeps(s, a);
      case Work(c, action) => WorkKeeps(s, c, action);
      case Take(op) => TakeKeeps(s, op);
      case Pass(_) => OutsideKeeps(s, step);
      case Operate(_) => OutsideKeeps(s, step);
    }
  }

  lemma PolicyKept(s: State, step: Step, op: nat)
    requires Fencing.Inv(s) && Inv(s) && Enabled(s, step) && op < |s.operations| && s.operations[op].policy.Some?
    ensures op < |Apply(s, step).operations| && Apply(s, step).operations[op].policy == s.operations[op].policy
  {
    hide Inv, DoAdmit, DoWork, DoOperate, Fencing.Inv;
    match step {
      case Admit(a) => AdmittedPolicy(s, a, op);
      case Work(c, action) => CapturesTheSame(s, c, action, op);
      case Take(_) =>
      case Pass(_) => OutsideKeeps(s, step);
      case Operate(_) => OutsideKeeps(s, step);
    }
  }

  lemma AdmittedPolicy(s: State, a: Admission, op: nat)
    requires MayAdmit(s, a) && op < |s.operations|
    ensures op < |DoAdmit(s, a).operations| && DoAdmit(s, a).operations[op].policy == s.operations[op].policy
  {
  }

  lemma {:induction false} RunKeeps(steps: seq<Step>)
    requires Run(Initial, steps)
    ensures Inv(After(Initial, steps)) && Fencing.Inv(After(Initial, steps))
    decreases |steps|
  {
    if steps != [] {
      var front := steps[..|steps| - 1];
      RunKeeps(front);
      Fencing.StepKeeps(After(Initial, front), steps[|steps| - 1]);
      StepKeeps(After(Initial, front), steps[|steps| - 1]);
    }
  }

  // ----- Main results

  /** In every run, an operation has a target exactly if it has bound a version; and that version was written by this operation
      with just the configuration asked for, was not being deleted, and has the target as its generation. */
  lemma TargetIsBoundVersion(steps: seq<Step>, op: nat)
    requires Run(Initial, steps) && op < |After(Initial, steps).operations|
    ensures
      var s := After(Initial, steps);
      && (s.operations[op].target.Some? <==> op in s.history.boundBy)
      && (op in s.history.boundBy ==>
            var v := s.history.boundBy[op];
            && v in s.history.seen && v.uid in s.history.bound && v.operation == op
            && s.operations[op].request.Configures() && v.spec == s.operations[op].request.desired
            && !v.deleting && s.operations[op].target == Some(v.generation))
  {
    var s := After(Initial, steps);
    RunKeeps(steps);
    Lineage.RunKeeps(steps);
    assert BoundRow(s, op);
    if op in s.history.boundBy { assert Lineage.Written(s, s.history.boundBy[op]); }
  }

  /** The policy a delete has recorded is never changed again. */
  lemma {:induction false} PolicyStays(earlier: seq<Step>, steps: seq<Step>, op: nat)
    requires Run(Initial, steps) && earlier <= steps && Run(Initial, earlier)
    requires op < |After(Initial, earlier).operations| && After(Initial, earlier).operations[op].policy.Some?
    ensures op < |After(Initial, steps).operations|
    ensures After(Initial, steps).operations[op].policy == After(Initial, earlier).operations[op].policy
    decreases |steps|
  {
    if |earlier| < |steps| {
      var front := steps[..|steps| - 1];
      assert earlier <= front;
      PolicyStays(earlier, front, op);
      RunKeeps(front);
      PolicyKept(After(Initial, front), steps[|steps| - 1], op);
      hide Apply, Enabled;
    } else {
      assert earlier == steps;
    }
  }
}
