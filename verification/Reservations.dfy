/**
 The stored reservation against what the bound object asks for.

 A success settles the processor and memory reservation down to what its operation asked for,
 while claims of earlier updates may still be waiting to write.  The reservation covers the bound
 object, now and after any write that is still possible, exactly as long as no settlement falls
 short of what is there or of what such a claim would write.
 */
module Reservations {
  import opened Wrappers
  import opened Protocol
  import opened Effects
  import Identity
  import Lineage
  import Credentials
  import Fencing

  predicate Facts(s: State) {
    Credentials.Facts(s)
  }

  predicate Bound(s: State) {
    s.instance.Some? && s.uid == Some(s.instance.value.uid)
  }

  predicate Covers(s: State) {
    Bound(s) ==> s.reserved.Covers(s.instance.value.spec.resources)
  }

  /** A claim of an update, however old, whose write would go through now. */
  predicate CanWrite(s: State, d: nat) {
    && At(s, d, Writing) && Row(s, d).request.Update?
    && s.instance.Some? && !s.instance.value.deleting && s.instance.value.operation != s.claims[d].operation
    && Expects(Row(s, d).request, s.instance.value)
  }

  predicate CoversWrite(s: State, d: nat) {
    Bound(s) && CanWrite(s, d) ==> s.reserved.Covers(Row(s, d).request.desired.resources)
  }

  /** The newest operation can still be taken, resumed and succeed within the reservation. */
  predicate CoversLast(s: State) {
    s.operations != [] ==>
      var row := s.operations[|s.operations| - 1];
      row.request.Reserves() && !row.state.Succeeded? ==> s.reserved.Covers(row.request.desired.resources)
  }

  predicate Inv(s: State) {
    Covers(s) && CoversLast(s) && forall d | 0 <= d < |s.claims| :: CoversWrite(s, d)
  }

  /** The settlement claim `c` is about to commit is less than the bound object asks for, or less than what another claim
      would still make it ask for. */
  predicate Short(s: State, c: nat)
    requires Claimed(s, c)
  {
    && Held(s, c) && Row(s, c).request.Reserves() && Bound(s)
    && var settled := Settle(s.reserved, Row(s, c).request.desired.resources);
       (|| !settled.Covers(s.instance.value.spec.resources)
        || exists d | 0 <= d < |s.claims| :: CanWrite(s, d) && !settled.Covers(Row(s, d).request.desired.resources))
  }

  predicate Sufficient(s: State, step: Step) {
    step.Work? && step.action.Succeed? && Claimed(s, step.c) ==> !Short(s, step.c)
  }

  // ----- Which writes stay possible

  lemma CreateKeepsDeleting(s: State, c: nat, lost: bool)
    requires At(s, c, Writing) && Row(s, c).request.Provisions()
    ensures StillDeleting(s, DoCreateInstance(s, c, lost))
  {
  }

  lemma UpdateKeepsDeleting(s: State, c: nat, lost: bool)
    requires At(s, c, Writing) && Row(s, c).request.Edits()
    ensures StillDeleting(s, DoUpdateInstance(s, c, lost))
  {
  }

  predicate StillDeleting(s: State, t: State) {
    s.instance.Some? && s.instance.value.deleting && t.instance.Some? ==> t.instance.value.deleting
  }

  lemma WorkKeepsDeleting(s: State, c: nat, action: Action)
    requires MayWork(s, c, action)
    ensures StillDeleting(s, DoWork(s, c, action))
  {
    hide DoCreateInstance, DoUpdateInstance;
    if action.Write? && Row(s, c).request.Provisions() { CreateKeepsDeleting(s, c, action.lost); }
    if action.Write? && Row(s, c).request.Edits() { UpdateKeepsDeleting(s, c, action.lost); }
  }

  lemma KeepsDeleting(s: State, step: Step)
    requires Enabled(s, step)
    ensures StillDeleting(s, Apply(s, step))
  {
    hide DoWork, DoAdmit;
    match step {
      case Work(c, action) => WorkKeepsDeleting(s, c, action);
      case Admit(a) => AdmitKeepsObject(s, a);
      case _ =>
    }
  }

  lemma AdmitKeepsObject(s: State, a: Admission)
    requires MayAdmit(s, a)
    ensures DoAdmit(s, a).instance == s.instance && DoAdmit(s, a).claims == s.claims && DoAdmit(s, a).uid == s.uid
    ensures DoAdmit(s, a).reserved.Covers(s.reserved)
  {
  }

  /** An edit of an update is the write of a claim that could write. */
  lemma EditIsWrite(s: State, c: nat, action: Action)
    requires MayWork(s, c, action) && EditedBy(s, DoWork(s, c, action), s.claims[c].operation)
    ensures Row(s, c).request.Update? ==> CanWrite(s, c)
  {
    Deleted(s, c, action);
  }

  lemma Deleted(s: State, c: nat, action: Action)
    requires MayWork(s, c, action) && EditedBy(s, DoWork(s, c, action), s.claims[c].operation)
    ensures action.Write? && !s.instance.value.deleting
  {
    if action.Write? { EditedUndeleted(s, c, action.lost); }
  }

  lemma EditedUndeleted(s: State, c: nat, lost: bool)
    requires At(s, c, Writing) && Row(s, c).request.Configures() && EditedBy(s, DoWrite(s, c, lost), s.claims[c].operation)
    ensures !s.instance.value.deleting
  {
  }

  /** A claim of an update that could write after a step could write before it, or writes what is already there. */
  lemma WriteStays(s: State, t: State, d: nat, op: nat)
    requires Facts(s) && SameRequests(s, t) && d < |s.claims| && d < |t.claims| && StillDeleting(s, t)
    requires t.claims[d].operation == s.claims[d].operation && (t.claims[d].stage.Writing? ==> s.claims[d].stage.Writing?)
    requires Kept(s, t) || Removed(s, t) || Annotated(s, t) || CreatedBy(s, t, op) || EditedBy(s, t, op)
    requires CanWrite(t, d)
    ensures s.instance.Some? && s.instance.value.uid == t.instance.value.uid
    ensures CanWrite(s, d) || Row(s, d).request.desired == t.instance.value.spec
  {
    hide Credentials.Inv, Identity.Base;
    var request := Row(t, d).request;
    assert Claimed(s, d) && Row(s, d).request == request;
    assert Lineage.RequestInv(s, s.claims[d].operation, request);
    if CreatedBy(s, t, op) { Credentials.FreshUnexpected(s, s.claims[d].operation); }
    if s.instance.Some? { Credentials.CurrentFacts(s); }
  }

  // ----- Every sufficient step keeps it

  lemma AdmitKeeps(s: State, a: Admission)
    requires Inv(s) && Facts(s) && MayAdmit(s, a)
    ensures Inv(DoAdmit(s, a))
  {
    var t := DoAdmit(s, a);
    AdmitRowEffect(s, a);
    AdmitKeepsObject(s, a);
    AdmitKeepsLast(s, a);
    forall d | 0 <= d < |t.claims| ensures CoversWrite(t, d) {
      assert CoversWrite(s, d);
      Identity.ClaimFacts(s, d);
      assert t.operations[s.claims[d].operation].request == s.operations[s.claims[d].operation].request;
    }
  }

  lemma AdmitKeepsLast(s: State, a: Admission)
    requires CoversLast(s) && MayAdmit(s, a)
    ensures CoversLast(DoAdmit(s, a))
  {
    if a.AcceptRetry? || a.ReconcileReservation? {
      assert |DoAdmit(s, a).operations| == |s.operations|;
    }
  }

  lemma TakeKeeps(s: State, op: nat)
    requires Inv(s) && Facts(s) && CanTake(s, op)
    ensures Inv(DoTake(s, op))
  {
    Lineage.RunningIsLast(s, op);
    hide Facts, Identity.Base;
    var t := DoTake(s, op);
    forall d | 0 <= d < |t.claims| ensures CoversWrite(t, d) {
      if d < |s.claims| { assert CoversWrite(s, d); }
    }
  }

  /** The stages and the object after a worker step that neither binds nor ends anything. */
  lemma StepKeepsWrites(s: State, step: Step)
    requires Inv(s) && Facts(s) && Enabled(s, step) && !step.Admit? && !step.Take?
    requires step.Work? ==> !step.action.Bind? && !Ends(step.action)
    ensures
      var t := Apply(s, step);
      Covers(t) && |t.claims| == |s.claims| && forall d | 0 <= d < |t.claims| :: CoversWrite(t, d)
  {
    hide Facts, DoWork, DoOperate, Inv;
    var t := Apply(s, step);
    StepClaims(s, step);
    InstanceEffect(s, step);
    KeepsDeleting(s, step);
    StepKeepsCovers(s, step);
    forall d | 0 <= d < |t.claims| ensures CoversWrite(t, d) {
      if Bound(t) && CanWrite(t, d) {
        WriteStays(s, t, d, Writer(s, step));
        OneWrite(s, d);
      }
    }
  }

  lemma OneWrite(s: State, d: nat)
    requires Inv(s) && d < |s.claims|
    ensures CoversWrite(s, d) && Covers(s)
  {
  }

  /** No claim comes to the point of writing an update but by being taken. */
  lemma StepClaims(s: State, step: Step)
    requires Enabled(s, step) && !step.Admit? && !step.Take?
    requires step.Work? ==> !step.action.Bind? && !Ends(step.action)
    ensures
      var t := Apply(s, step);
      && SameRequests(s, t) && |t.claims| == |s.claims| && t.uid == s.uid && t.reserved == s.reserved
      && forall d | 0 <= d < |s.claims| ::
           t.claims[d].operation == s.claims[d].operation &&
           (CanWrite(t, d) ==> s.claims[d].stage.Writing?)
  {
    hide DoOperate, DoWork;
    if step.Work? {
      WorkRowEffect(s, step.c, step.action);
      WorkClaims(s, step.c, step.action);
      WorkRest(s, step.c, step.action);
      WorkReserved(s, step.c, step.action);
      WorkWriting(s, step.c, step.action);
    } else if step.Operate? {
      OperateTables(s, step.write);
    }
  }

  lemma OperateTables(s: State, w: OperatorWrite)
    requires MayOperate(s, w)
    ensures
      var t := DoOperate(s, w);
      t.operations == s.operations && t.claims == s.claims && t.uid == s.uid && t.reserved == s.reserved
  {
  }

  lemma WorkReserved(s: State, c: nat, action: Action)
    requires MayWork(s, c, action) && !Ends(action)
    ensures DoWork(s, c, action).reserved == s.reserved
  {
  }

  lemma WorkWriting(s: State, c: nat, action: Action)
    requires MayWork(s, c, action) && !Ends(action) && !action.Bind?
    ensures c < |DoWork(s, c, action).claims|
    ensures DoWork(s, c, action).claims[c].stage.Writing? ==> !Row(s, c).request.Update?
  {
    assert Claimed(s, c);
    hide DoWork, MayWork;
    if action.Write? { assert action == Write(action.lost); WroteNotWriting(s, c, action.lost); }
    else if Removes(action) { Credentials.NotWriting(s, c, action); }
    else { ConfiguredNotWriting(s, c, action); }
  }

  lemma ConfiguredNotWriting(s: State, c: nat, action: Action)
    requires MayWork(s, c, action) && !Ends(action) && !action.Bind? && !action.Write? && !Removes(action)
    ensures c < |DoWork(s, c, action).claims|
    ensures DoWork(s, c, action).claims[c].stage.Writing? ==> action.Seal? && Row(s, c).request.Seals()
  {
  }

  lemma WroteNotWriting(s: State, c: nat, lost: bool)
    requires MayWork(s, c, Write(lost))
    ensures c < |DoWork(s, c, Write(lost)).claims| && !DoWork(s, c, Write(lost)).claims[c].stage.Writing?
  {
    hide DoCreateInstance, DoUpdateInstance;
    if Row(s, c).request.Provisions() { Fencing.CreateStage(s, c, lost); } else { Fencing.UpdateStage(s, c, lost); }
  }

  /** A write changes what the bound object asks for only to what the reservation covers. */
  lemma StepKeepsCovers(s: State, step: Step)
    requires Inv(s) && Facts(s) && Enabled(s, step) && !step.Admit? && !step.Take?
    requires step.Work? ==> !step.action.Bind? && !Ends(step.action)
    ensures Covers(Apply(s, step))
  {
    hide Facts, DoWork, DoOperate, Inv;
    var t := Apply(s, step);
    StepClaims(s, step);
    InstanceEffect(s, step);
    if CreatedBy(s, t, Writer(s, step)) { UnboundWhenCreated(s); }
    if s.instance.Some? && t.instance.Some? { AnyCovers(s); }
    if EditedBy(s, t, Writer(s, step)) {
      EditedByWorker(s, step);
      EditIsWrite(s, step.c, step.action);
      OneWrite(s, step.c);
      if Row(s, step.c).request.Rotate? { RotationKeepsResources(s, s.claims[step.c].operation); }
    }
  }

  lemma AnyCovers(s: State)
    requires Inv(s)
    ensures Covers(s)
  {
  }

  lemma UnboundWhenCreated(s: State)
    requires Facts(s)
    ensures s.uid != Some(s.nextUid)
  {
    Credentials.FreshUnbound(s);
  }

  lemma EditedByWorker(s: State, step: Step)
    requires Enabled(s, step) && EditedBy(s, Apply(s, step), Writer(s, step)) && !step.Admit? && !step.Take?
    ensures step.Work?
  {
    hide DoWork;
  }

  lemma RotationKeepsResources(s: State, op: nat)
    requires Facts(s) && op < |s.operations| && s.operations[op].request.Rotate? && s.instance.Some?
    requires Expects(s.operations[op].request, s.instance.value)
    ensures s.operations[op].request.desired.resources == s.instance.value.spec.resources
  {
    assert Lineage.RequestInv(s, op, s.operations[op].request);
  }

  /** Operations that have succeeded stay so. */
  predicate Succeeding(s: State, t: State) {
    |t.operations| == |s.operations| &&
    forall op | 0 <= op < |s.operations| && s.operations[op].state.Succeeded? :: t.operations[op].state.Succeeded?
  }

  lemma RemoveSucceeding(s: State, c: nat, action: Action)
    requires MayWork(s, c, action) && Removes(action)
    ensures Succeeding(s, DoWork(s, c, action))
  {
  }

  lemma EndSucceeding(s: State, c: nat, action: Action)
    requires MayWork(s, c, action) && Ends(action)
    ensures Succeeding(s, DoWork(s, c, action))
  {
  }

  lemma ConfigureSucceeding(s: State, c: nat, action: Action)
    requires MayWork(s, c, action) && !Removes(action) && !Ends(action)
    ensures Succeeding(s, DoWork(s, c, action))
  {
  }

  lemma WorkSucceeding(s: State, c: nat, action: Action)
    requires MayWork(s, c, action)
    ensures Succeeding(s, DoWork(s, c, action))
  {
    hide DoWork, MayWork;
    if Removes(action) { RemoveSucceeding(s, c, action); }
    else if Ends(action) { EndSucceeding(s, c, action); }
    else { ConfigureSucceeding(s, c, action); }
  }

  /** Where the reservation is left as it is, the newest operation stays within it. */
  lemma KeepsLast(s: State, t: State)
    requires CoversLast(s) && SameRequests(s, t) && Succeeding(s, t) && t.reserved == s.reserved
    ensures CoversLast(t)
  {
  }

  lemma OtherKeeps(s: State, step: Step)
    requires Inv(s) && Facts(s) && Enabled(s, step) && !step.Admit? && !step.Take?
    requires step.Work? ==> !step.action.Bind? && !Ends(step.action)
    ensures Inv(Apply(s, step))
  {
    hide Facts, DoWork, DoOperate, Covers, CoversWrite, CoversLast;
    StepKeepsWrites(s, step);
    StepClaims(s, step);
    if step.Work? { WorkSucceeding(s, step.c, step.action); }
    if step.Operate? { OperateTables(s, step.write); }
    InvLast(s);
    KeepsLast(s, Apply(s, step));
  }

  lemma InvLast(s: State)
    requires Inv(s)
    ensures CoversLast(s)
  {
  }

  lemma BindKeeps(s: State, c: nat)
    requires Inv(s) && Facts(s) && MayWork(s, c, Bind)
    ensures Inv(DoWork(s, c, Bind))
  {
    hide CoversLast, Covers, CoversWrite, Facts;
    var t := DoWork(s, c, Bind);
    BindEffect(s, c);
    WorkRowEffect(s, c, Bind);
    WorkClaims(s, c, Bind);
    WorkSucceeding(s, c, Bind);
    KeepsLast(s, t);
    BindKeepsCovers(s, c);
    hide DoBind;
    forall d | 0 <= d < |t.claims| ensures CoversWrite(t, d) { BindKeepsWrite(s, c, d); }
  }

  lemma BindEffect(s: State, c: nat)
    requires MayWork(s, c, Bind)
    ensures
      var t := DoBind(s, c);
      && DoWork(s, c, Bind) == t && t.instance == s.instance && t.reserved == s.reserved
      && (t.uid == s.uid || t.uid == Some(s.claims[c].answer.value.uid))
      && |t.claims| == |s.claims| && !t.claims[c].stage.Writing?
  {
  }

  lemma SameWrite(s: State, t: State, d: nat)
    requires t.instance == s.instance && SameRequests(s, t) && d < |s.claims| && d < |t.claims| && t.claims[d] == s.claims[d]
    ensures CanWrite(t, d) ==> CanWrite(s, d) && Row(t, d).request == Row(s, d).request
  {
  }

  lemma BindKeepsWrite(s: State, c: nat, d: nat)
    requires Inv(s) && Facts(s) && MayWork(s, c, Bind) && d < |s.claims|
    ensures d < |DoBind(s, c).claims| && CoversWrite(DoBind(s, c), d)
  {
    OneWrite(s, d);
    hide Facts, Inv, DoBind;
    BindEffect(s, c);
    WorkRowEffect(s, c, Bind);
    WorkClaims(s, c, Bind);
    var t := DoWork(s, c, Bind);
    if d != c {
      SameWrite(s, t, d);
      if t.uid != s.uid && CanWrite(t, d) {
        NewlyBound(s, c);
        ExpectedWasBound(s, d);
      }
    }
  }

  /** An object that becomes bound carries what the newest operation asked for. */
  lemma BindKeepsCovers(s: State, c: nat)
    requires Inv(s) && Facts(s) && MayWork(s, c, Bind)
    ensures Covers(DoBind(s, c))
  {
    Identity.ClaimFacts(s, c);
    AnyCovers(s);
    InvLast(s);
    hide Inv, Credentials.Inv, Identity.Base, Lineage.Inv;
    var t := DoBind(s, c);
    BindEffect(s, c);
    if t.uid != s.uid {
      NewlyBound(s, c);
      if s.instance.Some? && t.uid == Some(s.instance.value.uid) {
        Credentials.UnboundFacts(s, s.claims[c].answer.value);
        Credentials.CurrentFacts(s);
      }
    }
  }

  lemma ExpectedWasBound(s: State, d: nat)
    requires Facts(s) && Claimed(s, d) && Row(s, d).request.Edits()
    ensures Row(s, d).request.expectedUid in s.history.bound
  {
    assert Lineage.RequestInv(s, s.claims[d].operation, Row(s, d).request);
  }

  lemma NewlyBound(s: State, c: nat)
    requires Facts(s) && MayWork(s, c, Bind) && DoBind(s, c).uid != s.uid
    ensures Held(s, c) && Credentials.Last(s, s.claims[c].operation)
    ensures Row(s, c).request.Provisions()
    ensures s.claims[c].answer.value.uid !in s.history.bound
    ensures s.claims[c].answer.value.operation == s.claims[c].operation
  {
    Identity.ClaimFacts(s, c);
    assert Identity.VersionInv(s, s.claims[c].answer.value);
  }

  /** What an end leaves: the object, the binding, every other claim, and the reservation unless it settles. */
  lemma EndEffect(s: State, c: nat, action: Action)
    requires MayWork(s, c, action) && Ends(action)
    ensures
      var t := DoWork(s, c, action);
      && t.instance == s.instance && t.uid == s.uid
      && t.claims == s.claims[c := s.claims[c].(stage := Released)]
      && t.reserved == (if action.Succeed? && Held(s, c) && Row(s, c).request.Reserves()
                        then Settle(s.reserved, Row(s, c).request.desired.resources) else s.reserved)
      && (action.Succeed? && Held(s, c) ==> t.operations[s.claims[c].operation].state.Succeeded?)
  {
  }

  lemma EndKeeps(s: State, c: nat, action: Action)
    requires Inv(s) && Facts(s) && MayWork(s, c, action) && Ends(action) && Sufficient(s, Work(c, action))
    ensures Inv(DoWork(s, c, action))
  {
    hide DoWork;
    var t := DoWork(s, c, action);
    EndEffect(s, c, action);
    WorkRowEffect(s, c, action);
    WorkSucceeding(s, c, action);
    EndKeepsLast(s, c, action);
    hide CoversLast, Facts;
    forall d | 0 <= d < |t.claims| ensures CoversWrite(t, d) {
      assert CoversWrite(s, d);
      if CanWrite(t, d) { assert CanWrite(s, d); }
    }
  }

  lemma EndKeepsLast(s: State, c: nat, action: Action)
    requires Inv(s) && Facts(s) && MayWork(s, c, action) && Ends(action)
    ensures CoversLast(DoWork(s, c, action))
  {
    hide DoWork;
    EndEffect(s, c, action);
    WorkRowEffect(s, c, action);
    WorkSucceeding(s, c, action);
    if action.Succeed? && Held(s, c) && Row(s, c).request.Reserves() {
      Lineage.RunningIsLast(s, s.claims[c].operation);
    } else {
      KeepsLast(s, DoWork(s, c, action));
    }
  }

  lemma StepKeeps(s: State, step: Step)
    requires Inv(s) && Facts(s) && Enabled(s, step) && Sufficient(s, step)
    ensures Inv(Apply(s, step))
  {
    hide Facts, Inv, DoAdmit, DoWork, DoOperate, DoTake, DoBind, Short;
    match step {
      case Admit(a) => AdmitKeeps(s, a);
      case Take(op) => TakeKeeps(s, op);
      case Work(c, action) =>
        if Ends(action) { EndKeeps(s, c, action); }
        else if action.Bind? { BindKeeps(s, c); }
        else { OtherKeeps(s, step); }
      case _ => OtherKeeps(s, step);
    }
  }

  // ----- The property and when it holds

  /** The reservation covers the bound object now and after any write that is possible now. */
  ghost predicate Secure(s: State) {
    Covers(s) && forall d | MayWork(s, d, Write(false)) :: Covers(DoWork(s, d, Write(false)))
  }

  lemma WriteCovers(s: State, d: nat)
    requires Inv(s) && Facts(s) && MayWork(s, d, Write(false))
    ensures Covers(DoWork(s, d, Write(false)))
  {
    StepKeepsCovers(s, Work(d, Write(false)));
  }

  lemma InvIsSecure(s: State)
    requires Inv(s) && Facts(s)
    ensures Secure(s)
  {
    hide Facts, Inv, DoWork;
    AnyCovers(s);
    forall d | MayWork(s, d, Write(false)) ensures Covers(DoWork(s, d, Write(false))) { WriteCovers(s, d); }
  }

  /** A settlement that falls short leaves the bound object uncovered at once, or right after the write of the claim it forgot. */
  lemma ShortIsInsecure(s: State, c: nat)
    requires MayWork(s, c, Succeed) && Short(s, c)
    ensures !Secure(DoWork(s, c, Succeed))
  {
    var t := DoWork(s, c, Succeed);
    EndEffect(s, c, Succeed);
    hide DoWork;
    if Covers(t) {
      var d :| 0 <= d < |s.claims| && CanWrite(s, d) && !t.reserved.Covers(Row(s, d).request.desired.resources);
      WorkRowEffect(s, c, Succeed);
      ForgottenWrite(t, d);
    }
  }

  lemma ForgottenWrite(t: State, d: nat)
    requires Bound(t) && CanWrite(t, d) && !t.reserved.Covers(Row(t, d).request.desired.resources)
    ensures MayWork(t, d, Write(false)) && !Covers(DoWork(t, d, Write(false)))
  {
  }

  lemma NotAdmitted(s: State, step: Step)
    requires Enabled(s, step) && !step.Admit?
    ensures SameRequests(s, Apply(s, step))
  {
    if step.Work? { WorkRowEffect(s, step.c, step.action); }
  }

  ghost predicate SufficientRun(steps: seq<Step>)
    requires Run(Initial, steps)
  {
    forall i | 0 <= i < |steps| && Run(Initial, steps[..i]) :: Sufficient(After(Initial, steps[..i]), steps[i])
  }

  /** Every state of the run is secure. */
  ghost predicate SecureRun(steps: seq<Step>)
    requires Run(Initial, steps)
  {
    forall i | 0 <= i <= |steps| && Run(Initial, steps[..i]) :: Secure(After(Initial, steps[..i]))
  }

  lemma {:induction false} RunKeeps(steps: seq<Step>)
    requires Run(Initial, steps) && SufficientRun(steps)
    ensures Inv(After(Initial, steps))
    decreases |steps|
  {
    if steps != [] {
      var front := steps[..|steps| - 1];
      forall i | 0 <= i < |front| && Run(Initial, front[..i]) ensures Sufficient(After(Initial, front[..i]), front[i]) {
        assert front[..i] == steps[..i];
      }
      RunKeeps(front);
      RunFacts(front);
      StepKeeps(After(Initial, front), steps[|steps| - 1]);
    }
  }

  lemma RunFacts(steps: seq<Step>)
    requires Run(Initial, steps)
    ensures Facts(After(Initial, steps))
  {
    Lineage.RunKeeps(steps);
    Credentials.RunKeeps(steps);
  }

  /** In every state of a run without a settlement that falls short, the stored reservation is at least what the bound object
      asks for. */
  lemma ReservationCoversBound(steps: seq<Step>)
    requires Run(Initial, steps) && SufficientRun(steps)
    ensures Covers(After(Initial, steps))
  {
    RunKeeps(steps);
  }

  lemma {:induction false} Prefix(steps: seq<Step>, i: nat)
    requires Run(Initial, steps) && i <= |steps|
    ensures Run(Initial, steps[..i])
    decreases |steps|
  {
    if i < |steps| {
      Prefix(steps[..|steps| - 1], i);
      assert steps[..|steps| - 1][..i] == steps[..i];
    } else {
      assert steps[..i] == steps;
    }
  }

  /** Exactly the runs without such a settlement are secure throughout. */
  lemma SecureUnlessShort(steps: seq<Step>)
    requires Run(Initial, steps)
    ensures SecureRun(steps) <==> SufficientRun(steps)
  {
    if SufficientRun(steps) {
      forall i | 0 <= i <= |steps| && Run(Initial, steps[..i]) ensures Secure(After(Initial, steps[..i])) {
        SufficientPrefix(steps, i);
        RunKeeps(steps[..i]);
        RunFacts(steps[..i]);
        InvIsSecure(After(Initial, steps[..i]));
      }
    }
    if SecureRun(steps) {
      forall i | 0 <= i < |steps| && Run(Initial, steps[..i]) ensures Sufficient(After(Initial, steps[..i]), steps[i]) {
        SecureStep(steps, i);
      }
    }
  }

  lemma SufficientPrefix(steps: seq<Step>, i: nat)
    requires Run(Initial, steps) && SufficientRun(steps) && i <= |steps| && Run(Initial, steps[..i])
    ensures SufficientRun(steps[..i])
  {
    forall j | 0 <= j < i && Run(Initial, steps[..i][..j]) ensures Sufficient(After(Initial, steps[..i][..j]), steps[..i][j]) {
      assert steps[..i][..j] == steps[..j];
    }
  }

  lemma SecureStep(steps: seq<Step>, i: nat)
    requires Run(Initial, steps) && SecureRun(steps) && i < |steps| && Run(Initial, steps[..i])
    ensures Sufficient(After(Initial, steps[..i]), steps[i])
  {
    hide Secure, Short;
    var s := After(Initial, steps[..i]);
    Prefix(steps, i + 1);
    assert steps[..i + 1][..i] == steps[..i];
    assert Secure(After(Initial, steps[..i + 1]));
    var step := steps[i];
    if step.Work? && step.action.Succeed? && Short(s, step.c) { ShortIsInsecure(s, step.c); }
  }
}
