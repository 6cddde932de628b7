/** What a step can do to the custom resource, to the operation table and to the binding, whatever the step is. */
module Effects {
  import opened Wrappers
  import opened Protocol

  predicate Kept(s: State, t: State) {
    t.instance == s.instance && t.history.seen == s.history.seen
  }

  predicate Removed(s: State, t: State) {
    s.instance.Some? && t.instance.None? && t.history.seen == s.history.seen
  }

  /** A new version of the same object with the same configuration and operation annotation. */
  predicate Annotated(s: State, t: State) {
    && s.instance.Some? && t.instance.Some?
    && t.history.seen == s.history.seen + {t.instance.value}
    && t.instance.value.uid == s.instance.value.uid
    && t.instance.value.operation == s.instance.value.operation
    && t.instance.value.spec == s.instance.value.spec
    && s.instance.value.generation <= t.instance.value.generation
  }

  predicate CreatedBy(s: State, t: State, op: nat) {
    && s.instance.None? && t.instance.Some?
    && op < |s.operations| && s.operations[op].request.Provisions()
    && t.history.seen == s.history.seen + {t.instance.value}
    && t.instance.value == Instance(s.nextUid, 1, op, s.operations[op].request.desired, None, false, false, None)
    && s.nextUid < t.nextUid
  }

  predicate EditedBy(s: State, t: State, op: nat) {
    && s.instance.Some? && t.instance.Some?
    && op < |s.operations| && s.operations[op].request.Edits()
    && s.instance.value.operation != op
    && Expects(s.operations[op].request, s.instance.value)
    && t.history.seen == s.history.seen + {t.instance.value}
    && t.instance.value == Edited(s.instance.value, s.operations[op].request, op)
  }

  function Writer(s: State, step: Step): nat {
    if step.Work? && Claimed(s, step.c) then s.claims[step.c].operation else 0
  }

  lemma InstanceEffect(s: State, step: Step)
    requires Enabled(s, step)
    ensures
      var t := Apply(s, step);
      Kept(s, t) || Removed(s, t) || Annotated(s, t) || CreatedBy(s, t, Writer(s, step)) || EditedBy(s, t, Writer(s, step))
  {
    match step {
      case Work(c, action) => WorkEffect(s, c, action);
      case _ =>
    }
  }

  lemma WorkEffect(s: State, c: nat, action: Action)
    requires MayWork(s, c, action)
    ensures
      var t := DoWork(s, c, action);
      var op := s.claims[c].operation;
      Kept(s, t) || Removed(s, t) || Annotated(s, t) || CreatedBy(s, t, op) || EditedBy(s, t, op)
  {
    if action.Write? {
      WriteEffect(s, c, action.lost);
    } else if action.Approve? {
      assert Kept(s, DoApprove(s, c, action.lost)) || Annotated(s, DoApprove(s, c, action.lost));
    } else if action.IssueDelete? {
      var t := DoIssueDelete(s, c);
      assert Kept(s, t) || Removed(s, t) || Annotated(s, t);
    } else {
      assert Kept(s, DoWork(s, c, action));
    }
  }

  lemma WriteEffect(s: State, c: nat, lost: bool)
    requires MayWork(s, c, Write(lost))
    ensures
      var t := DoWrite(s, c, lost);
      Kept(s, t) || CreatedBy(s, t, s.claims[c].operation) || EditedBy(s, t, s.claims[c].operation)
  {
  }

  /** Either one operation is appended while none is running, or every request stays as it is. */
  predicate Appended(s: State, t: State) {
    && Idle(s)
    && |t.operations| == |s.operations| + 1
    && t.operations[..|s.operations|] == s.operations
    && t.operations[|s.operations|] == NewOperation(t.operations[|s.operations|].request, s.now)
  }

  predicate SameRequests(s: State, t: State) {
    && |t.operations| == |s.operations|
    && forall i | 0 <= i < |s.operations| :: t.operations[i].request == s.operations[i].request
  }

  lemma RowEffect(s: State, step: Step)
    requires Enabled(s, step)
    ensures Appended(s, Apply(s, step)) || SameRequests(s, Apply(s, step))
  {
    match step {
      case Admit(a) => AdmitRowEffect(s, a);
      case Work(c, action) => WorkRowEffect(s, c, action);
      case _ =>
    }
  }

  lemma AdmitRowEffect(s: State, a: Admission)
    requires MayAdmit(s, a)
    ensures Appended(s, DoAdmit(s, a)) || SameRequests(s, DoAdmit(s, a))
    ensures Appended(s, DoAdmit(s, a)) <==> !a.AcceptRetry? && !a.ReconcileReservation?
  {
    if !a.AcceptRetry? && !a.ReconcileReservation? {
      var t := DoAdmit(s, a);
      assert t.operations == s.operations + [NewOperation(t.operations[|s.operations|].request, s.now)];
    }
  }

  predicate Removes(action: Action) {
    action.ReadForRemove? || action.CapturePolicy? || action.IssueDelete? || action.ReadVolume? || action.ConfirmVolume? || action.IssueVolumeDelete?
  }

  predicate RowsKept(s: State, t: State) {
    SameRequests(s, t) && |t.claims| == |s.claims|
  }

  lemma RemoveRowEffect(s: State, c: nat, action: Action)
    requires MayWork(s, c, action) && Removes(action)
    ensures RowsKept(s, DoWork(s, c, action))
  {
  }

  lemma EndRowEffect(s: State, c: nat, action: Action)
    requires MayWork(s, c, action) && Ends(action)
    ensures RowsKept(s, DoWork(s, c, action))
  {
  }

  lemma ConfigureRowEffect(s: State, c: nat, action: Action)
    requires MayWork(s, c, action) && !Removes(action) && !Ends(action)
    ensures RowsKept(s, DoWork(s, c, action))
  {
  }

  lemma WorkRowEffect(s: State, c: nat, action: Action)
    requires MayWork(s, c, action)
    ensures SameRequests(s, DoWork(s, c, action))
    ensures |DoWork(s, c, action).claims| == |s.claims|
  {
    hide DoWork, MayWork;
    if Removes(action) { RemoveRowEffect(s, c, action); }
    else if Ends(action) { EndRowEffect(s, c, action); }
    else { ConfigureRowEffect(s, c, action); }
  }

  // ----- Claims: an action changes its own claim only

  predicate OwnClaimOnly(s: State, t: State, c: nat)
    requires c < |s.claims|
  {
    && |t.claims| == |s.claims|
    && t.claims[c].operation == s.claims[c].operation
    && forall d | 0 <= d < |s.claims| && d != c :: t.claims[d] == s.claims[d]
  }

  predicate Writes(action: Action) {
    action.Write? || action.Bind? || action.Approve? || action.IssueDelete?
  }

  predicate Ends(action: Action) {
    action.Succeed? || action.Fail? || action.Supersede? || action.Defer?
  }

  lemma WritesClaims(s: State, c: nat, action: Action)
    requires MayWork(s, c, action) && Writes(action)
    ensures OwnClaimOnly(s, DoWork(s, c, action), c)
  {
  }

  lemma EndsClaims(s: State, c: nat, action: Action)
    requires MayWork(s, c, action) && Ends(action)
    ensures OwnClaimOnly(s, DoWork(s, c, action), c)
    ensures DoWork(s, c, action).claims[c] == s.claims[c].(stage := Released)
    ensures DoWork(s, c, action).secrets == s.secrets
  {
  }

  lemma ReadsClaims(s: State, c: nat, action: Action)
    requires MayWork(s, c, action) && !Writes(action) && !Ends(action)
    ensures OwnClaimOnly(s, DoWork(s, c, action), c)
  {
  }

  lemma WorkClaims(s: State, c: nat, action: Action)
    requires MayWork(s, c, action)
    ensures OwnClaimOnly(s, DoWork(s, c, action), c)
  {
    hide DoWork;
    if Writes(action) { WritesClaims(s, c, action); }
    else if Ends(action) { EndsClaims(s, c, action); }
    else { ReadsClaims(s, c, action); }
  }

  lemma WorkRest(s: State, c: nat, action: Action)
    requires MayWork(s, c, action)
    ensures
      var t := DoWork(s, c, action);
      && t.credentials == s.credentials && t.now == s.now
      && (action.DropSecret? || s.secrets <= t.secrets)
      && (action.Bind? || (t.uid == s.uid && t.history.bound == s.history.bound))
  {
    hide DoWork, MayWork;
    if Removes(action) { RemoveRest(s, c, action); }
    else if Ends(action) { EndRest(s, c, action); }
    else { ConfigureRest(s, c, action); }
  }

  predicate RestKept(s: State, t: State, action: Action) {
    && t.credentials == s.credentials && t.now == s.now
    && (action.DropSecret? || s.secrets <= t.secrets)
    && (action.Bind? || (t.uid == s.uid && t.history.bound == s.history.bound))
  }

  lemma RemoveRest(s: State, c: nat, action: Action)
    requires MayWork(s, c, action) && Removes(action)
    ensures RestKept(s, DoWork(s, c, action), action)
  {
  }

  lemma EndRest(s: State, c: nat, action: Action)
    requires MayWork(s, c, action) && Ends(action)
    ensures RestKept(s, DoWork(s, c, action), action)
  {
  }

  lemma ConfigureRest(s: State, c: nat, action: Action)
    requires MayWork(s, c, action) && !Removes(action) && !Ends(action)
    ensures RestKept(s, DoWork(s, c, action), action)
  {
  }
}
