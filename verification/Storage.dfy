/**
 The storage an object asks for never shrinks, whatever updates are in flight.
 */
module Storage {
  import opened Wrappers
  import opened Protocol
  import opened Effects
  import Identity
  import Lineage

  /** No version of the current object asks for more storage than it does now. */
  predicate NoMore(s: State, v: Instance) {
    s.instance.Some? && v.uid == s.instance.value.uid ==> v.spec.resources.storage <= s.instance.value.spec.resources.storage
  }

  /** An edit that still matches the object does not ask for less. */
  predicate EditInv(s: State, request: Request) {
    request.Edits() && s.instance.Some? && Expects(request, s.instance.value) ==>
      s.instance.value.spec.resources.storage <= request.desired.resources.storage
  }

  predicate Inv(s: State) {
    && (forall v | v in s.history.seen :: NoMore(s, v))
    && (forall op | 0 <= op < |s.operations| :: EditInv(s, s.operations[op].request))
  }

  predicate Facts(s: State) {
    Identity.Base(s) && Lineage.Inv(s)
  }

  lemma SeenBelow(s: State)
    requires Facts(s) && Inv(s) && s.instance.Some?
    ensures s.instance.value in s.history.seen
    ensures forall v | v in s.history.seen :: v.uid <= s.instance.value.uid < s.nextUid
  {
    Identity.InstanceFacts(s);
    forall v | v in s.history.seen ensures v.uid <= s.instance.value.uid < s.nextUid { assert Identity.VersionInv(s, v); }
  }

  /** The object is as it was, or gone, or a version of the same object with the same configuration. */
  lemma SameConfiguration(s: State, t: State)
    requires Facts(s) && Inv(s) && SameRequests(s, t)
    requires Kept(s, t) || Removed(s, t) || Annotated(s, t)
    ensures Inv(t)
  {
    if s.instance.Some? { SeenBelow(s); }
    forall v | v in t.history.seen ensures NoMore(t, v) { assert v in s.history.seen ==> NoMore(s, v); }
    forall op | 0 <= op < |t.operations| ensures EditInv(t, t.operations[op].request) {
      assert EditInv(s, s.operations[op].request) && Lineage.RequestInv(s, op, s.operations[op].request);
    }
  }

  lemma Created(s: State, t: State, op: nat)
    requires Facts(s) && Inv(s) && SameRequests(s, t) && CreatedBy(s, t, op)
    ensures Inv(t)
  {
    forall v | v in t.history.seen ensures NoMore(t, v) { assert v in s.history.seen ==> Identity.VersionInv(s, v); }
    forall x | 0 <= x < |t.operations| ensures EditInv(t, t.operations[x].request) {
      assert Identity.RequestInv(s, s.operations[x].request) && Lineage.RequestInv(s, x, s.operations[x].request);
    }
  }

  lemma EditedMore(s: State, t: State, op: nat)
    requires Facts(s) && Inv(s) && SameRequests(s, t) && EditedBy(s, t, op)
    ensures Inv(t)
  {
    SeenBelow(s);
    assert EditInv(s, s.operations[op].request);
    forall v | v in t.history.seen ensures NoMore(t, v) { assert v in s.history.seen ==> NoMore(s, v); }
    forall x | 0 <= x < |t.operations| ensures EditInv(t, t.operations[x].request) {
      assert EditInv(s, s.operations[x].request) && Lineage.RequestInv(s, x, s.operations[x].request);
    }
  }

  lemma Admitted(s: State, a: Admission)
    requires Facts(s) && Inv(s) && MayAdmit(s, a)
    ensures Inv(DoAdmit(s, a))
  {
    var t := DoAdmit(s, a);
    AdmitRowEffect(s, a);
    assert Kept(s, t);
    if a.AcceptRetry? || a.ReconcileReservation? {
      SameConfiguration(s, t);
    } else {
      NewEdit(s, a);
      Appends(s, t);
    }
  }

  lemma Appends(s: State, t: State)
    requires Inv(s) && Appended(s, t) && Kept(s, t) && EditInv(s, t.operations[|s.operations|].request)
    ensures Inv(t)
  {
    forall v | v in t.history.seen ensures NoMore(t, v) { assert NoMore(s, v); }
    forall x | 0 <= x < |t.operations| ensures EditInv(t, t.operations[x].request) {
      if x < |s.operations| {
        assert t.operations[..|s.operations|][x] == s.operations[x];
        assert EditInv(s, s.operations[x].request);
      }
    }
  }

  lemma NewEdit(s: State, a: Admission)
    requires Facts(s) && Inv(s) && MayAdmit(s, a) && !a.AcceptRetry? && !a.ReconcileReservation?
    ensures |DoAdmit(s, a).operations| == |s.operations| + 1 && EditInv(s, DoAdmit(s, a).operations[|s.operations|].request)
  {
    if a.AcceptUpdate? && s.instance.Some? { assert Lineage.Precedes(a.read, s.instance.value); }
    if a.AcceptRotate? && s.instance.Some? { assert Lineage.Precedes(a.read, s.instance.value); }
    hide Facts;
  }

  lemma StepKeeps(s: State, step: Step)
    requires Facts(s) && Inv(s) && Enabled(s, step)
    ensures Inv(Apply(s, step))
  {
    var t := Apply(s, step);
    hide Facts, Inv, DoAdmit, DoWork, DoTake, DoOperate;
    InstanceEffect(s, step);
    RowEffect(s, step);
    if step.Admit? { Admitted(s, step.admission); }
    else {
      NotAppended(s, step);
      if CreatedBy(s, t, Writer(s, step)) { Created(s, t, Writer(s, step)); }
      else if EditedBy(s, t, Writer(s, step)) { EditedMore(s, t, Writer(s, step)); }
      else { SameConfiguration(s, t); }
    }
  }

  lemma NotAppended(s: State, step: Step)
    requires Enabled(s, step) && !step.Admit?
    ensures SameRequests(s, Apply(s, step))
  {
    if step.Work? {
      WorkRowEffect(s, step.c, step.action);
      hide DoWork;
    }
  }

  lemma {:induction false} RunKeeps(steps: seq<Step>)
    requires Run(Initial, steps)
    ensures Inv(After(Initial, steps))
    decreases |steps|
  {
    if steps != [] {
      var front := steps[..|steps| - 1];
      RunKeeps(front);
      Lineage.RunKeeps(front);
      StepKeeps(After(Initial, front), steps[|steps| - 1]);
    }
  }

  /** Along every run an object never asks for less storage than it once did, with any number of stale updates in flight. */
  lemma {:induction false} StorageNeverShrinks(earlier: seq<Step>, steps: seq<Step>)
    requires Run(Initial, steps) && earlier <= steps && Run(Initial, earlier)
    requires After(Initial, earlier).instance.Some? && After(Initial, steps).instance.Some?
    requires After(Initial, earlier).instance.value.uid == After(Initial, steps).instance.value.uid
    ensures After(Initial, earlier).instance.value.spec.resources.storage <= After(Initial, steps).instance.value.spec.resources.storage
  {
    RunKeeps(steps);
    Lineage.RunKeeps(earlier);
    Identity.InstanceFacts(After(Initial, earlier));
    SeenStays(earlier, steps);
    assert NoMore(After(Initial, steps), After(Initial, earlier).instance.value);
  }

  lemma {:induction false} SeenStays(earlier: seq<Step>, steps: seq<Step>)
    requires Run(Initial, steps) && earlier <= steps && Run(Initial, earlier)
    ensures After(Initial, earlier).history.seen <= After(Initial, steps).history.seen
    decreases |steps|
  {
    if |earlier| < |steps| {
      var front := steps[..|steps| - 1];
      assert earlier <= front;
      SeenStays(earlier, front);
      InstanceEffect(After(Initial, front), steps[|steps| - 1]);
      hide Apply, Enabled;
    } else {
      assert earlier == steps;
    }
  }

  lemma ReservedInStep(s: State, step: Step)
    requires Enabled(s, step)
    ensures s.reserved.storage <= Apply(s, step).reserved.storage
  {
    if step.Work? {
      hide MayWork;
      if Ends(step.action) { ReservedAtEnd(s, step.c, step.action); }
      else if Removes(step.action) { ReservedInRemoval(s, step.c, step.action); }
      else { ReservedOtherwise(s, step.c, step.action); }
      hide DoWork;
    }
  }

  lemma ReservedAtEnd(s: State, c: nat, action: Action)
    requires MayWork(s, c, action) && Ends(action)
    ensures s.reserved.storage <= DoWork(s, c, action).reserved.storage
  {
  }

  lemma ReservedInRemoval(s: State, c: nat, action: Action)
    requires MayWork(s, c, action) && Removes(action)
    ensures s.reserved.storage <= DoWork(s, c, action).reserved.storage
  {
  }

  lemma ReservedOtherwise(s: State, c: nat, action: Action)
    requires MayWork(s, c, action) && !Ends(action) && !Removes(action)
    ensures s.reserved.storage <= DoWork(s, c, action).reserved.storage
  {
  }

  /** Nor does the storage that is reserved. */
  lemma {:induction false} ReservedNeverShrinks(earlier: seq<Step>, steps: seq<Step>)
    requires Run(Initial, steps) && earlier <= steps && Run(Initial, earlier)
    ensures After(Initial, earlier).reserved.storage <= After(Initial, steps).reserved.storage
    decreases |steps|
  {
    if |earlier| < |steps| {
      var front := steps[..|steps| - 1];
      assert earlier <= front;
      ReservedNeverShrinks(earlier, front);
      ReservedInStep(After(Initial, front), steps[|steps| - 1]);
      hide Apply, Enabled;
    } else {
      assert earlier == steps;
    }
  }
}
