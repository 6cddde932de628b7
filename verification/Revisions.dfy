/**
 Runs in which every accepted update changes the configuration.

 There every edit moves the generation, so the claims of earlier updates are behind once a later
 operation has written, and no settlement can fall short of the reservation.
 */
module Revisions {
  import opened Wrappers
  import opened Protocol
  import opened Effects
  import Identity
  import Lineage
  import Credentials
  import opened Reservations

  /** An accepted update asks for another configuration than the one it was read against. */
  predicate Changing(step: Step) {
    step.Admit? && step.admission.AcceptUpdate? ==> step.admission.desired != step.admission.read.spec
  }

  // ----- Stale writers are behind

  predicate Behind(request: Request, op: nat, v: Instance)
    requires request.Edits()
  {
    op < v.operation && request.expectedUid == v.uid ==> request.expectedGeneration < v.generation
  }

  predicate EditInv(s: State, op: nat)
    requires op < |s.operations| && s.operations[op].request.Edits()
  {
    var request := s.operations[op].request;
    && (forall v | v in s.history.seen :: Behind(request, op, v))
    && (s.instance.Some? && Expects(request, s.instance.value) ==> request.desired != s.instance.value.spec)
  }

  predicate Order(s: State) {
    && (forall op | 0 <= op < |s.operations| && s.operations[op].request.Edits() :: EditInv(s, op))
    && (s.instance.Some? ==>
          forall v | v in s.history.seen && v.uid == s.instance.value.uid :: v.operation <= s.instance.value.operation)
  }

  /** A claim about to succeed still works for the bound object, unless a later operation was accepted. */
  predicate Placed(s: State, claim: Claim) {
    && claim.operation < |s.operations|
    && (s.operations[claim.operation].request.Configures() && (claim.stage.Listing? || claim.stage.Cleaning?) &&
        Credentials.Last(s, claim.operation) && claim.answer.Some?
        ==> s.uid == Some(claim.answer.value.uid))
  }

  predicate Placing(s: State) {
    forall c | 0 <= c < |s.claims| :: Placed(s, s.claims[c])
  }

  // ----- Order

  lemma OrderKept(s: State, t: State)
    requires Order(s) && SameRequests(s, t) && (Kept(s, t) || Removed(s, t))
    ensures Order(t)
  {
    forall op | 0 <= op < |t.operations| && t.operations[op].request.Edits() ensures EditInv(t, op) {
      assert EditInv(s, op);
    }
  }

  lemma OrderAppended(s: State, t: State)
    requires Order(s) && Facts(s) && Appended(s, t) && Kept(s, t)
    requires t.operations[|s.operations|].request.Edits() ==> EditInv(t, |s.operations|)
    ensures Order(t)
  {
    forall op | 0 <= op < |t.operations| && t.operations[op].request.Edits() ensures EditInv(t, op) {
      if op < |s.operations| { assert t.operations[op] == s.operations[op]; assert EditInv(s, op); }
    }
  }

  lemma OrderAdmitted(s: State, a: Admission)
    requires Order(s) && Facts(s) && MayAdmit(s, a) && Changing(Admit(a))
    ensures Order(DoAdmit(s, a))
  {
    hide Credentials.Inv, Identity.Base;
    var t := DoAdmit(s, a);
    AdmitRowEffect(s, a);
    if Appended(s, t) {
      forall v | v in s.history.seen ensures v.operation < |s.operations| { assert Lineage.Written(s, v); }
      if a.AcceptUpdate? || a.AcceptRotate? {
        assert Lineage.Written(s, a.read);
        assert Lineage.RequestInv(s, a.read.operation, s.operations[a.read.operation].request);
        if s.instance.Some? { assert Lineage.Precedes(a.read, s.instance.value); }
        assert EditInv(t, |s.operations|);
      }
      OrderAppended(s, t);
    } else {
      OrderKept(s, t);
    }
  }

  lemma OrderAnnotated(s: State, t: State)
    requires Order(s) && Facts(s) && SameRequests(s, t) && Annotated(s, t)
    ensures Order(t)
  {
    hide Credentials.Inv, Identity.Base;
    var i := s.instance.value;
    Identity.InstanceFacts(s);
    forall op | 0 <= op < |t.operations| && t.operations[op].request.Edits() ensures EditInv(t, op) {
      assert EditInv(s, op) && Behind(s.operations[op].request, op, i);
      assert Lineage.RequestInv(s, op, s.operations[op].request);
    }
  }

  lemma OrderCreated(s: State, t: State, op: nat)
    requires Order(s) && Facts(s) && SameRequests(s, t) && CreatedBy(s, t, op)
    ensures Order(t)
  {
    forall x | 0 <= x < |t.operations| && t.operations[x].request.Edits() ensures EditInv(t, x) {
      assert EditInv(s, x);
      Credentials.FreshUnexpected(s, x);
    }
    forall v | v in t.history.seen && v.uid == t.instance.value.uid ensures v.operation <= op {
      assert v in s.history.seen ==> Identity.VersionInv(s, v);
    }
  }

  lemma OrderEdited(s: State, t: State, op: nat)
    requires Order(s) && Facts(s) && SameRequests(s, t) && EditedBy(s, t, op)
    ensures Order(t)
  {
    hide Credentials.Inv, Identity.Base;
    var i := s.instance.value;
    Identity.InstanceFacts(s);
    assert EditInv(s, op) && Behind(s.operations[op].request, op, i);
    forall x | 0 <= x < |t.operations| && t.operations[x].request.Edits() ensures EditInv(t, x) {
      assert EditInv(s, x);
      assert Lineage.RequestInv(s, x, s.operations[x].request);
    }
  }

  lemma StepKeepsOrder(s: State, step: Step)
    requires Order(s) && Facts(s) && Enabled(s, step) && Changing(step)
    ensures Order(Apply(s, step))
  {
    hide Order, Facts, DoAdmit, DoWork, DoOperate;
    var t := Apply(s, step);
    match step {
      case Admit(a) => OrderAdmitted(s, a);
      case _ =>
        RowEffect(s, step);
        InstanceEffect(s, step);
        NotAdmitted(s, step);
        if Kept(s, t) || Removed(s, t) { OrderKept(s, t); }
        else if Annotated(s, t) { OrderAnnotated(s, t); }
        else if CreatedBy(s, t, Writer(s, step)) { OrderCreated(s, t, Writer(s, step)); }
        else { OrderEdited(s, t, Writer(s, step)); }
    }
  }

  // ----- Placement of claims

  lemma AdmitKeepsPlaced(s: State, a: Admission)
    requires Placing(s) && MayAdmit(s, a)
    ensures forall c | 0 <= c < |DoAdmit(s, a).claims| :: Placed(DoAdmit(s, a), DoAdmit(s, a).claims[c])
  {
    var t := DoAdmit(s, a);
    AdmitRowEffect(s, a);
    assert t.claims == s.claims && t.uid == s.uid;
    forall c | 0 <= c < |t.claims| ensures Placed(t, t.claims[c]) {
      assert Placed(s, s.claims[c]);
      assert t.operations[s.claims[c].operation].request == s.operations[s.claims[c].operation].request;
    }
  }

  /** A binding taken by an operation is not taken away from the object of another claim of that operation. */
  lemma BindKeepsPlaced(s: State, c: nat, d: nat)
    requires Placing(s) && Facts(s) && MayWork(s, c, Bind) && d < |s.claims|
    ensures |DoBind(s, c).claims| == |s.claims| && Placed(DoBind(s, c), DoBind(s, c).claims[d])
  {
    hide Identity.Base, Lineage.Inv;
    var t := DoBind(s, c);
    var answer := s.claims[c].answer.value;
    Identity.ClaimFacts(s, c);
    Identity.ClaimFacts(s, d);
    assert Placed(s, s.claims[d]) && Credentials.ClaimInv(s, s.claims[d]);
    if d != c && Held(s, c) && MayBind(s, Row(s, c).request, answer.uid) && t.uid != s.uid {
      Lineage.RunningIsLast(s, s.claims[c].operation);
      if s.claims[d].operation == s.claims[c].operation && Row(s, d).request.Configures() &&
         (s.claims[d].stage.Listing? || s.claims[d].stage.Cleaning?) && s.claims[d].answer.Some? {
        OwnReclaim(s, s.claims[d].answer.value, s.claims[d].operation);
        assert false;
      }
    }
  }

  lemma OwnReclaim(s: State, v: Instance, op: nat)
    requires Facts(s) && v in s.history.seen && v.operation == op
    ensures op < |s.operations| && s.operations[op].request.Configures()
    ensures s.operations[op].request.Reclaim? ==> s.operations[op].request.previous < v.uid
    ensures !s.operations[op].request.Create? ==> s.uid.Some?
  {
    assert Lineage.Written(s, v) && Identity.VersionInv(s, v) && Identity.RequestInv(s, s.operations[op].request);
  }

  lemma WorkKeepsPlaced(s: State, c: nat, action: Action)
    requires Placing(s) && Facts(s) && MayWork(s, c, action)
    ensures forall d | 0 <= d < |DoWork(s, c, action).claims| :: Placed(DoWork(s, c, action), DoWork(s, c, action).claims[d])
  {
    hide Facts, DoWork;
    var t := DoWork(s, c, action);
    WorkRowEffect(s, c, action);
    WorkClaims(s, c, action);
    WorkRest(s, c, action);
    forall d | 0 <= d < |t.claims| ensures Placed(t, t.claims[d]) {
      assert Placed(s, s.claims[d]);
      if action.Bind? {
        BoundWork(s, c);
        BindKeepsPlaced(s, c, d);
      } else if d == c {
        if Ends(action) { EndsClaims(s, c, action); }
        else { Credentials.CleaningEntry(s, c, action); VerifiedPlaced(s, c, action); }
      }
    }
  }

  lemma BoundWork(s: State, c: nat)
    requires MayWork(s, c, Bind)
    ensures DoWork(s, c, Bind) == DoBind(s, c)
  {
  }

  lemma VerifiedPlaced(s: State, c: nat, action: Action)
    requires MayWork(s, c, action)
    ensures action.Verify? && (DoWork(s, c, action).claims[c].stage.Listing? || DoWork(s, c, action).claims[c].stage.Cleaning?) ==>
              s.uid == Some(s.claims[c].answer.value.uid)
    ensures (action.ListCredentials? ==> s.claims[c].stage.Listing?) && (action.DropSecret? ==> s.claims[c].stage.Cleaning?)
  {
  }

  lemma PassPlaced(s: State, t: State)
    requires Placing(s) && SameRequests(s, t) && t.claims == s.claims && t.uid == s.uid
    ensures forall c | 0 <= c < |t.claims| :: Placed(t, t.claims[c])
  {
    forall c | 0 <= c < |t.claims| ensures Placed(t, t.claims[c]) { assert Placed(s, s.claims[c]); }
  }

  lemma TakePlaced(s: State, op: nat)
    requires Placing(s) && CanTake(s, op)
    ensures Placing(DoTake(s, op))
  {
    var t := DoTake(s, op);
    forall c | 0 <= c < |t.claims| ensures Placed(t, t.claims[c]) {
      if c < |s.claims| { assert Placed(s, s.claims[c]); }
    }
  }

  lemma StepKeepsPlaced(s: State, step: Step)
    requires Placing(s) && Facts(s) && Enabled(s, step)
    ensures Placing(Apply(s, step))
  {
    hide Facts, DoAdmit, DoWork, DoOperate, DoTake;
    match step {
      case Admit(a) => AdmitKeepsPlaced(s, a);
      case Take(op) => TakePlaced(s, op);
      case Work(c, action) => WorkKeepsPlaced(s, c, action);
      case Operate(w) => OperateTables(s, w); PassPlaced(s, Apply(s, step));
      case Pass(_) => PassPlaced(s, Apply(s, step));
    }
  }

  // ----- Settlement

  /** The bound object carries exactly the configuration that is settled, and every earlier update is behind. */
  lemma NeverShort(s: State, c: nat)
    requires Order(s) && Placing(s) && Facts(s) && MayWork(s, c, Succeed)
    ensures !Short(s, c)
  {
    var op := s.claims[c].operation;
    if Held(s, c) && Row(s, c).request.Reserves() && Bound(s) {
      var i := s.instance.value;
      Lineage.RunningIsLast(s, op);
      WrittenByLast(s, c);
      forall d | 0 <= d < |s.claims| ensures !CanWrite(s, d) {
        if CanWrite(s, d) { BehindLast(s, s.claims[d].operation, i); }
      }
    }
  }

  lemma WrittenByLast(s: State, c: nat)
    requires Order(s) && Placing(s) && Facts(s) && MayWork(s, c, Succeed) && Credentials.Last(s, s.claims[c].operation)
    requires Bound(s) && Row(s, c).request.Reserves()
    ensures s.instance.value.operation == s.claims[c].operation
    ensures s.instance.value.spec == Row(s, c).request.desired
  {
    var i := s.instance.value;
    assert Placed(s, s.claims[c]) && Credentials.ClaimInv(s, s.claims[c]);
    Identity.InstanceFacts(s);
    assert Lineage.Written(s, i);
  }

  lemma BehindLast(s: State, op: nat, i: Instance)
    requires Order(s) && Facts(s) && s.instance == Some(i) && op < |s.operations| && s.operations[op].request.Edits()
    requires Credentials.Last(s, i.operation) && op != i.operation
    ensures !Expects(s.operations[op].request, i)
  {
    Identity.InstanceFacts(s);
    assert EditInv(s, op) && Behind(s.operations[op].request, op, i);
  }

  // ----- Runs

  predicate ChangingRun(steps: seq<Step>) {
    forall i | 0 <= i < |steps| :: Changing(steps[i])
  }

  lemma {:induction false} RunKeeps(steps: seq<Step>)
    requires Run(Initial, steps) && ChangingRun(steps)
    ensures Order(After(Initial, steps)) && Placing(After(Initial, steps))
    decreases |steps|
  {
    if steps != [] {
      var front := steps[..|steps| - 1];
      RunKeeps(front);
      RunFacts(front);
      StepKeepsOrder(After(Initial, front), steps[|steps| - 1]);
      StepKeepsPlaced(After(Initial, front), steps[|steps| - 1]);
    }
  }

  /** No settlement of such a run falls short, so the reservation covers the bound object in all its states. */
  lemma ChangingRunsCover(steps: seq<Step>)
    requires Run(Initial, steps) && ChangingRun(steps)
    ensures SufficientRun(steps) && Covers(After(Initial, steps))
  {
    forall i | 0 <= i < |steps| && Run(Initial, steps[..i]) ensures Sufficient(After(Initial, steps[..i]), steps[i]) {
      var s := After(Initial, steps[..i]);
      var step := steps[i];
      Prefix(steps, i + 1);
      assert steps[..i + 1][..i] == steps[..i];
      RunKeeps(steps[..i]);
      RunFacts(steps[..i]);
      if step.Work? && step.action.Succeed? { NeverShort(s, step.c); }
    }
    ReservationCoversBound(steps);
  }
}
