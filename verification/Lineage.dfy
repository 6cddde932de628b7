/**
 How versions of the custom resource relate to the operations that wrote them.

 Every version carries exactly the configuration of the operation its annotation names, the
 generation tells two configurations of one object apart, and the credential revision an object
 refers to never goes back, also when the writer is a claim that expired long ago.
 */
module Lineage {
  import opened Wrappers
  import opened Protocol
  import opened Effects
  import Identity

  predicate Written(s: State, v: Instance) {
    && v.operation < |s.operations|
    && s.operations[v.operation].request.Configures()
    && v.spec == s.operations[v.operation].request.desired
  }

  /** `v` is an earlier version of the current object `i`. */
  predicate Precedes(v: Instance, i: Instance) {
    v.uid == i.uid ==>
      && v.generation <= i.generation
      && v.spec.secret <= i.spec.secret
      && (v.generation == i.generation ==> v.spec == i.spec)
  }

  predicate EditInv(request: Request, op: nat, i: Instance)
    requires request.Edits()
  {
    i.uid == request.expectedUid ==>
      && request.expectedGeneration <= i.generation
      && (request.expectedGeneration == i.generation ==>
            && (request.Update? ==> request.desired.secret == i.spec.secret)
            && (request.Rotate? ==> request.desired.resources == i.spec.resources && i.spec.secret < op))
  }

  predicate RequestInv(s: State, op: nat, request: Request) {
    && (request.Configures() ==> request.desired.secret <= op)
    && (request.Seals() ==> request.desired.secret == op)
    && (request.Edits() ==> request.expectedUid in s.history.bound && (s.instance.Some? ==> EditInv(request, op, s.instance.value)))
  }

  predicate UnboundInv(s: State) {
    s.instance.Some? && s.instance.value.uid !in s.history.bound ==>
      && s.instance.value.operation < |s.operations|
      && s.operations[s.instance.value.operation].request.Provisions()
      && forall v | v in s.history.seen && v.uid == s.instance.value.uid :: v.operation == s.instance.value.operation
  }

  predicate BoundInv(s: State) {
    && (forall u | u in s.history.bound :: s.uid.Some? && u <= s.uid.value)
    && (s.uid.Some? ==> s.uid.value in s.history.bound)
  }

  /** The bound object refers to the newest credentials of all versions there have been. */
  predicate NewestInv(s: State) {
    s.instance.Some? && s.uid == Some(s.instance.value.uid) ==>
      forall v | v in s.history.seen :: v.spec.secret <= s.instance.value.spec.secret
  }

  predicate Inv(s: State) {
    && (forall v | v in s.history.seen :: Written(s, v))
    && (s.instance.Some? ==> forall v | v in s.history.seen :: Precedes(v, s.instance.value))
    && (forall op | 0 <= op < |s.operations| :: RequestInv(s, op, s.operations[op].request))
    && UnboundInv(s) && BoundInv(s) && NewestInv(s)
  }

  lemma AppendedInv(s: State, t: State)
    requires Inv(s) && Identity.Base(s) && Appended(s, t) && Kept(s, t) && t.uid == s.uid && t.history.bound == s.history.bound
    requires RequestInv(s, |s.operations|, t.operations[|s.operations|].request)
    ensures Inv(t)
  {
    forall op | 0 <= op < |t.operations| ensures RequestInv(t, op, t.operations[op].request) {
      if op < |s.operations| { assert t.operations[op] == s.operations[op]; }
    }
    forall v | v in t.history.seen ensures Written(t, v) {
      assert Written(s, v) && t.operations[v.operation] == s.operations[v.operation];
    }
    assert s.instance.Some? ==> Written(s, s.instance.value);
  }

  lemma NewRequest(s: State, a: Admission)
    requires Inv(s) && Identity.Base(s) && MayAdmit(s, a) && !a.AcceptRetry? && !a.ReconcileReservation?
    ensures RequestInv(s, |s.operations|, DoAdmit(s, a).operations[|s.operations|].request)
  {
    match a {
      case AcceptUpdate(read, _) => assert Written(s, read);
      case AcceptRotate(read) =>
        assert Written(s, read);
        assert RequestInv(s, read.operation, s.operations[read.operation].request);
      case _ =>
    }
  }

  lemma AdmitKeeps(s: State, a: Admission)
    requires Inv(s) && Identity.Base(s) && MayAdmit(s, a)
    ensures Inv(DoAdmit(s, a))
  {
    var t := DoAdmit(s, a);
    AdmitRowEffect(s, a);
    if a.AcceptRetry? || a.ReconcileReservation? {
      SameRequestsInv(s, t);
    } else {
      NewRequest(s, a);
      AppendedInv(s, t);
    }
  }

  /** Nothing about the object or the binding changes. */
  lemma SameRequestsInv(s: State, t: State)
    requires Inv(s) && SameRequests(s, t) && t.uid == s.uid && t.history.bound == s.history.bound
    requires Kept(s, t) || Removed(s, t)
    ensures Inv(t)
  {
    forall op | 0 <= op < |t.operations| ensures RequestInv(t, op, t.operations[op].request) {
      assert RequestInv(s, op, s.operations[op].request);
    }
    forall v | v in t.history.seen ensures Written(t, v) { assert Written(s, v); }
  }

  lemma AnnotatedInv(s: State, t: State)
    requires Inv(s) && Identity.Base(s) && SameRequests(s, t) && t.uid == s.uid && t.history.bound == s.history.bound
    requires Annotated(s, t)
    ensures Inv(t)
  {
    var i := s.instance.value;
    Identity.InstanceFacts(s);
    forall op | 0 <= op < |t.operations| ensures RequestInv(t, op, t.operations[op].request) {
      assert RequestInv(s, op, s.operations[op].request);
    }
    forall v | v in t.history.seen ensures Written(t, v) && Precedes(v, t.instance.value) {
      assert Written(s, i);
      assert v == t.instance.value || (Written(s, v) && Precedes(v, i));
    }
  }

  lemma CreatedInv(s: State, t: State, op: nat)
    requires Inv(s) && Identity.Base(s) && SameRequests(s, t) && t.uid == s.uid && t.history.bound == s.history.bound
    requires CreatedBy(s, t, op)
    ensures Inv(t)
  {
    forall x | 0 <= x < |t.operations| ensures RequestInv(t, x, t.operations[x].request) {
      assert RequestInv(s, x, s.operations[x].request) && Identity.RequestInv(s, s.operations[x].request);
    }
    forall v | v in t.history.seen ensures Written(t, v) && Precedes(v, t.instance.value) {
      assert v == t.instance.value || (Written(s, v) && Identity.VersionInv(s, v));
    }
    assert s.uid.Some? ==> s.uid.value < s.nextUid;
  }

  lemma EditedInv(s: State, t: State, op: nat)
    requires Inv(s) && Identity.Base(s) && SameRequests(s, t) && t.uid == s.uid && t.history.bound == s.history.bound
    requires EditedBy(s, t, op)
    ensures Inv(t)
  {
    var i := s.instance.value;
    var request := s.operations[op].request;
    Identity.InstanceFacts(s);
    assert RequestInv(s, op, request);
    assert request.desired.secret >= i.spec.secret;
    forall x | 0 <= x < |t.operations| ensures RequestInv(t, x, t.operations[x].request) {
      assert RequestInv(s, x, s.operations[x].request);
    }
    forall v | v in t.history.seen ensures Written(t, v) && Precedes(v, t.instance.value) {
      assert v == t.instance.value || (Written(s, v) && Precedes(v, i));
    }
  }

  lemma BoundObjectInv(s: State, t: State, op: nat, answer: Instance)
    requires Inv(s) && Identity.Base(s) && SameRequests(s, t) && Kept(s, t)
    requires op == |s.operations| - 1 && answer in s.history.seen && MayBind(s, s.operations[op].request, answer.uid)
    requires s.operations[op].request.Provisions() ==> answer.operation == op && answer.spec == s.operations[op].request.desired
    requires t.uid == Some(answer.uid) && t.history.bound == s.history.bound + {answer.uid}
    ensures Inv(t)
  {
    assert Written(s, answer) && Identity.VersionInv(s, answer) && Identity.RequestInv(s, s.operations[op].request);
    forall x | 0 <= x < |t.operations| ensures RequestInv(t, x, t.operations[x].request) {
      assert RequestInv(s, x, s.operations[x].request);
    }
    forall v | v in t.history.seen
      ensures Written(t, v)
      ensures t.instance.Some? && t.instance.value.uid == answer.uid && s.uid != t.uid ==>
                v.spec.secret <= t.instance.value.spec.secret
    {
      assert Written(s, v) && RequestInv(s, v.operation, s.operations[v.operation].request);
      if t.instance.Some? && t.instance.value.uid == answer.uid && s.uid != t.uid {
        var i := t.instance.value;
        Identity.InstanceFacts(s);
        assert Written(s, i) && RequestInv(s, i.operation, s.operations[i.operation].request);
        assert i.uid !in s.history.bound;
      }
    }
  }

  lemma WorkKeeps(s: State, c: nat, action: Action)
    requires Inv(s) && Identity.Base(s) && MayWork(s, c, action)
    ensures Inv(DoWork(s, c, action))
  {
    hide Inv, Identity.Base, DoCreateInstance, DoUpdateInstance, DoApprove, DoIssueDelete;
    var t := DoWork(s, c, action);
    var op := s.claims[c].operation;
    WorkRowEffect(s, c, action);
    WorkEffect(s, c, action);
    if action.Bind? {
      Identity.ClaimFacts(s, c);
      var answer := s.claims[c].answer.value;
      if Held(s, c) && MayBind(s, Row(s, c).request, answer.uid) {
        RunningIsLast(s, op);
        BoundObjectInv(s, t, op, answer);
      } else {
        SameRequestsInv(s, t);
      }
    } else {
      BindingKept(s, c, action);
      if Kept(s, t) || Removed(s, t) { SameRequestsInv(s, t); }
      else if Annotated(s, t) { AnnotatedInv(s, t); }
      else if CreatedBy(s, t, op) { CreatedInv(s, t, op); }
      else { EditedInv(s, t, op); }
    }
  }

  lemma RunningIsLast(s: State, op: nat)
    requires Identity.Base(s) && op < |s.operations| && s.operations[op].Running()
    ensures op == |s.operations| - 1
  {
  }

  lemma BindingKept(s: State, c: nat, action: Action)
    requires MayWork(s, c, action) && !action.Bind?
    ensures DoWork(s, c, action).uid == s.uid && DoWork(s, c, action).history.bound == s.history.bound
  {
  }

  lemma StepKeeps(s: State, step: Step)
    requires Inv(s) && Identity.Base(s) && Enabled(s, step)
    ensures Inv(Apply(s, step))
  {
    hide Inv, Identity.Base, DoWork, DoAdmit;
    match step {
      case Admit(a) => AdmitKeeps(s, a);
      case Work(c, action) => WorkKeeps(s, c, action);
      case Operate(w) =>
        var t := Apply(s, step);
        InstanceEffect(s, step);
        if Kept(s, t) || Removed(s, t) { SameRequestsInv(s, t); } else { AnnotatedInv(s, t); }
      case Take(op) => SameRequestsInv(s, Apply(s, step));
      case Pass(_) => SameRequestsInv(s, Apply(s, step));
    }
  }

  lemma {:induction false} RunKeeps(steps: seq<Step>)
    requires Run(Initial, steps)
    ensures Inv(After(Initial, steps)) && Identity.Base(After(Initial, steps))
    decreases |steps|
  {
    if steps != [] {
      var front := steps[..|steps| - 1];
      RunKeeps(front);
      Identity.StepKeepsBase(After(Initial, front), steps[|steps| - 1]);
      StepKeeps(After(Initial, front), steps[|steps| - 1]);
    }
  }
}
