/**
 Credentials revoked by a delete, against the object that comes after it.

 A delete lists all credentials there are when it lists them.  Those that are not newer than the delete
 itself nobody needs any more by then: its object is gone, and whatever follows was given new ones.
 */
module Revocations {
  import opened Wrappers
  import opened Protocol
  import opened Effects
  import Identity
  import Lineage
  import Deletion
  import opened Credentials

  /** Claim `c` of a delete is about to revoke a credential that was inserted after the delete was accepted. */
  predicate Overreaches(s: State, c: nat, secret: nat)
    requires Claimed(s, c)
  {
    !Row(s, c).request.Configures() && s.claims[c].operation < secret
  }

  predicate Restrained(s: State, step: Step) {
    step.Work? && step.action.DropSecret? && Claimed(s, step.c) ==> !Overreaches(s, step.c, step.action.secret)
  }

  // ----- The invariant

  /** Since the delete of `uid` was accepted, the binding has not gone back, and a bound object that is not `uid` refers to newer
      credentials than the delete could know. */
  predicate RowInv(s: State, r: nat)
    requires r < |s.operations| && s.operations[r].request.Remove?
  {
    var uid := s.operations[r].request.uid;
    && s.uid.Some? && uid <= s.uid.value && uid < s.nextUid
    && (s.instance.Some? && s.uid == Some(s.instance.value.uid) && s.instance.value.uid != uid ==> r < s.instance.value.spec.secret)
    && (forall x | 0 <= x < r && s.operations[x].request.Edits() :: s.operations[x].request.expectedUid <= uid)
  }

  predicate ClaimInv(s: State, claim: Claim) {
    claim.operation < |s.operations| &&
    var request := s.operations[claim.operation].request;
    && (request.Remove? ==>
          && Deletion.RemoveStage(claim.stage)
          && (claim.stage.Listing? || claim.stage.Cleaning? ==> Gone(s, request.uid)))
    && (request.RemoveVolume? ==> Deletion.VolumeStage(claim.stage) && claim.todo == {})
  }

  predicate Inv(s: State) {
    && (forall r | 0 <= r < |s.operations| && s.operations[r].request.Remove? :: RowInv(s, r))
    && (forall c | 0 <= c < |s.claims| :: ClaimInv(s, s.claims[c]))
  }

  // ----- Rows

  /** The bound object is that of before with credentials at least as new, or it carries those of the newest operation. */
  predicate Renewed(s: State, t: State) {
    t.instance.Some? && t.uid == Some(t.instance.value.uid) ==>
      || (s.instance.Some? && s.uid == t.uid && s.instance.value.uid == t.instance.value.uid &&
          s.instance.value.spec.secret <= t.instance.value.spec.secret)
      || (s.operations != [] && s.operations[|s.operations| - 1].request.Provisions() &&
          t.instance.value.spec.secret == |s.operations| - 1)
  }

  predicate Forward(s: State, t: State) {
    s.uid.Some? ==> t.uid.Some? && s.uid.value <= t.uid.value
  }

  lemma RowKept(s: State, t: State, r: nat)
    requires r < |s.operations| && s.operations[r].request.Remove? && RowInv(s, r)
    requires Appended(s, t) || SameRequests(s, t)
    requires Renewed(s, t) && Forward(s, t) && s.nextUid <= t.nextUid
    ensures r < |t.operations| && t.operations[r].request == s.operations[r].request && RowInv(t, r)
  {
    forall x | 0 <= x <= r ensures t.operations[x].request == s.operations[x].request { Deletion.SameRequest(s, t, x); }
  }

  lemma NewRow(s: State, t: State)
    requires Lineage.Inv(s) && Identity.Base(s) && s.uid.Some? && Appended(s, t)
    requires t.operations[|s.operations|].request == Remove(s.uid.value)
    requires t.uid == s.uid && t.instance == s.instance && t.nextUid == s.nextUid
    ensures RowInv(t, |s.operations|)
  {
    forall x | 0 <= x < |s.operations| && t.operations[x].request.Edits() ensures t.operations[x].request.expectedUid <= s.uid.value {
      Deletion.SameRequest(s, t, x);
      assert Lineage.RequestInv(s, x, s.operations[x].request);
    }
  }

  /** What a step does to the bound object. */
  lemma StepRenews(s: State, step: Step)
    requires Facts(s) && Enabled(s, step)
    ensures Renewed(s, Apply(s, step)) && Forward(s, Apply(s, step)) && s.nextUid <= Apply(s, step).nextUid
  {
    hide Credentials.Inv, Lineage.Inv, Identity.Base, DoWork, DoAdmit;
    var t := Apply(s, step);
    NextUidGrows(s, step);
    if t.uid != s.uid {
      Identity.BindingStep(s, step);
      Identity.BindingChangesInBind(s, step);
      BindIs(s, step.c);
      BindRenews(s, step.c);
    } else {
      InstanceEffect(s, step);
      SameBindingRenews(s, t, Writer(s, step));
    }
  }

  lemma BindIs(s: State, c: nat)
    requires MayWork(s, c, Bind)
    ensures DoWork(s, c, Bind) == DoBind(s, c)
  {
  }

  lemma NextUidGrows(s: State, step: Step)
    requires Enabled(s, step)
    ensures s.nextUid <= Apply(s, step).nextUid
  {
    if step.Work? { Deletion.WorkNext(s, step.c, step.action); }
  }

  lemma SameBindingRenews(s: State, t: State, op: nat)
    requires Facts(s) && t.uid == s.uid
    requires Kept(s, t) || Removed(s, t) || Annotated(s, t) || CreatedBy(s, t, op) || EditedBy(s, t, op)
    ensures Renewed(s, t)
  {
    if CreatedBy(s, t, op) { FreshUnbound(s); }
    if EditedBy(s, t, op) {
      Identity.InstanceFacts(s);
      assert Lineage.RequestInv(s, op, s.operations[op].request);
    }
  }

  lemma BindRenews(s: State, c: nat)
    requires Facts(s) && MayWork(s, c, Bind) && Held(s, c) && DoBind(s, c).uid != s.uid
    requires s.uid.None? ==> Row(s, c).request.Create?
    requires s.uid.Some? ==> Row(s, c).request.Reclaim? && s.uid.value < DoBind(s, c).uid.value
    ensures Renewed(s, DoBind(s, c))
  {
    var t := DoBind(s, c);
    var op := s.claims[c].operation;
    var answer := s.claims[c].answer.value;
    Identity.ClaimFacts(s, c);
    Lineage.RunningIsLast(s, op);
    assert t.instance == s.instance && t.uid == Some(answer.uid);
    assert answer.uid !in s.history.bound;
    if t.instance.Some? && t.uid == Some(t.instance.value.uid) {
      UnboundFacts(s, answer);
      CurrentFacts(s);
      assert Lineage.RequestInv(s, op, s.operations[op].request);
    }
  }

  // ----- Claims

  lemma TakenClaim(s: State, op: nat)
    requires CanTake(s, op)
    ensures ClaimInv(DoTake(s, op), DoTake(s, op).claims[|s.claims|])
  {
  }

  /** What a claim of a delete, or of a volume delete, turns into. */
  lemma RemovalClaim(s: State, c: nat, action: Action)
    requires MayWork(s, c, action) && ClaimInv(s, s.claims[c]) && Row(s, c).request.Remove?
    ensures
      var t := DoWork(s, c, action);
      && c < |t.claims| && Deletion.RemoveStage(t.claims[c].stage)
      && (t.claims[c].stage.Listing? || t.claims[c].stage.Cleaning? ==> Gone(s, Row(s, c).request.uid))
  {
  }

  lemma VolumeClaim(s: State, c: nat, action: Action)
    requires MayWork(s, c, action) && ClaimInv(s, s.claims[c]) && Row(s, c).request.RemoveVolume?
    ensures c < |DoWork(s, c, action).claims| && Deletion.VolumeStage(DoWork(s, c, action).claims[c].stage) && DoWork(s, c, action).claims[c].todo == {}
  {
  }

  /** A claim that is not touched. */
  lemma ClaimKept(s: State, step: Step, claim: Claim)
    requires Inv(s) && Enabled(s, step) && claim in s.claims
    requires Appended(s, Apply(s, step)) || SameRequests(s, Apply(s, step))
    ensures ClaimInv(Apply(s, step), claim)
  {
    var c :| 0 <= c < |s.claims| && s.claims[c] == claim;
    assert ClaimInv(s, claim);
    Deletion.SameRequest(s, Apply(s, step), claim.operation);
    var request := s.operations[claim.operation].request;
    if request.Remove? {
      assert RowInv(s, claim.operation);
      hide Apply, Enabled;
      if Gone(s, request.uid) { Deletion.GoneStays(s, step, request.uid); }
    }
  }

  lemma OwnClaim(s: State, c: nat, action: Action)
    requires Inv(s) && MayWork(s, c, action)
    ensures c < |DoWork(s, c, action).claims| && ClaimInv(DoWork(s, c, action), DoWork(s, c, action).claims[c])
  {
    assert ClaimInv(s, s.claims[c]);
    WorkRowEffect(s, c, action);
    WorkClaims(s, c, action);
    if Row(s, c).request.Remove? {
      assert RowInv(s, s.claims[c].operation);
      RemovalClaim(s, c, action);
      if Gone(s, Row(s, c).request.uid) { Deletion.GoneStays(s, Work(c, action), Row(s, c).request.uid); }
    } else if Row(s, c).request.RemoveVolume? {
      VolumeClaim(s, c, action);
    }
    hide DoWork, Inv;
  }

  lemma StepKeepsClaims(s: State, step: Step)
    requires Inv(s) && Enabled(s, step)
    ensures forall c | 0 <= c < |Apply(s, step).claims| :: ClaimInv(Apply(s, step), Apply(s, step).claims[c])
  {
    hide Inv, ClaimInv, DoWork, DoAdmit, DoTake;
    var t := Apply(s, step);
    RowEffect(s, step);
    forall c | 0 <= c < |t.claims| ensures ClaimInv(t, t.claims[c]) {
      match step {
        case Work(d, action) =>
          WorkClaims(s, d, action);
          if c == d { OwnClaim(s, d, action); } else { ClaimKept(s, step, s.claims[c]); }
        case Take(op) =>
          TakeClaims(s, op);
          if c == |s.claims| { TakenClaim(s, op); } else { ClaimKept(s, step, s.claims[c]); }
        case Admit(a) => AdmitClaims(s, a); ClaimKept(s, step, s.claims[c]);
        case _ => ClaimKept(s, step, s.claims[c]);
      }
    }
  }

  lemma TakeClaims(s: State, op: nat)
    requires CanTake(s, op)
    ensures |DoTake(s, op).claims| == |s.claims| + 1 && DoTake(s, op).claims[..|s.claims|] == s.claims
    ensures forall c | 0 <= c < |s.claims| :: DoTake(s, op).claims[c] == s.claims[c]
  {
  }

  lemma AdmitClaims(s: State, a: Admission)
    requires MayAdmit(s, a)
    ensures DoAdmit(s, a).claims == s.claims
  {
  }

  lemma StepKeepsRows(s: State, step: Step)
    requires Inv(s) && Facts(s) && Enabled(s, step)
    ensures forall r | 0 <= r < |Apply(s, step).operations| && Apply(s, step).operations[r].request.Remove? :: RowInv(Apply(s, step), r)
  {
    hide Credentials.Inv, Lineage.Inv, Identity.Base, RowInv, Renewed, Forward;
    var t := Apply(s, step);
    RowEffect(s, step);
    StepRenews(s, step);
    forall r | 0 <= r < |t.operations| && t.operations[r].request.Remove? ensures RowInv(t, r) {
      if r < |s.operations| {
        Deletion.SameRequest(s, t, r);
        RowKept(s, t, r);
      } else {
        Accepted(s, step);
        NewRow(s, t);
      }
    }
  }

  lemma Accepted(s: State, step: Step)
    requires Enabled(s, step) && Appended(s, Apply(s, step)) && Apply(s, step).operations[|s.operations|].request.Remove?
    ensures
      var t := Apply(s, step);
      s.uid.Some? && t.operations[|s.operations|].request == Remove(s.uid.value) &&
      t.uid == s.uid && t.instance == s.instance && t.nextUid == s.nextUid
  {
    if step.Work? { WorkRowEffect(s, step.c, step.action); }
  }

  lemma StepKeeps(s: State, step: Step)
    requires Inv(s) && Facts(s) && Enabled(s, step)
    ensures Inv(Apply(s, step))
  {
    StepKeepsRows(s, step);
    StepKeepsClaims(s, step);
    hide Apply, Enabled, RowInv, ClaimInv, Facts;
  }

  lemma {:induction false} RunKeeps(steps: seq<Step>)
    requires Run(Initial, steps)
    ensures Inv(After(Initial, steps)) && Facts(After(Initial, steps))
    decreases |steps|
  {
    Lineage.RunKeeps(steps);
    Credentials.RunKeeps(steps);
    if steps != [] {
      var front := steps[..|steps| - 1];
      RunKeeps(front);
      StepKeeps(After(Initial, front), steps[|steps| - 1]);
    }
  }

  // ----- What a delete may revoke

  /** A credential that is not newer than the delete is needed neither by the bound object nor by one that may still be written. */
  lemma OlderUnneeded(s: State, c: nat, secret: nat)
    requires Inv(s) && Facts(s) && MayWork(s, c, DropSecret(secret)) && !Row(s, c).request.Configures()
    requires secret <= s.claims[c].operation
    ensures !Needed(s, secret)
  {
    var r := s.claims[c].operation;
    assert ClaimInv(s, s.claims[c]) && RowInv(s, r);
    if s.instance.Some? && InUse(s, s.instance.value) { NewerInUse(s, r); }
    forall d | 0 <= d < |s.claims| && Sealed(s, s.claims[d])
      ensures s.operations[s.claims[d].operation].request.desired.secret != secret
    {
      NewerSealed(s, r, d);
    }
  }

  lemma NewerInUse(s: State, r: nat)
    requires Facts(s) && r < |s.operations| && s.operations[r].request.Remove? && RowInv(s, r) && Gone(s, s.operations[r].request.uid)
    requires s.instance.Some? && InUse(s, s.instance.value)
    ensures r < s.instance.value.spec.secret
  {
    var i := s.instance.value;
    if s.uid != Some(i.uid) {
      assert Lineage.UnboundInv(s);
      Identity.InstanceFacts(s);
      assert Lineage.Written(s, i);
      assert Lineage.RequestInv(s, i.operation, s.operations[i.operation].request);
    }
  }

  lemma NewerSealed(s: State, r: nat, d: nat)
    requires Facts(s) && r < |s.operations| && s.operations[r].request.Remove? && RowInv(s, r) && Gone(s, s.operations[r].request.uid)
    requires d < |s.claims| && Sealed(s, s.claims[d])
    ensures r < s.operations[s.claims[d].operation].request.desired.secret
  {
    var x := s.claims[d].operation;
    assert Lineage.RequestInv(s, x, s.operations[x].request);
    if !s.operations[x].request.Provisions() && x <= r {
      Identity.InstanceFacts(s);
      assert false;
    }
  }

  /** A revocation takes away something that is needed exactly if it overreaches and the credential is needed: the delete itself,
      not the state of other workers, decides for all credentials it could know. */
  lemma PresentUnlessOverreached(s: State, c: nat, secret: nat)
    requires Inv(s) && Facts(s) && Present(s) && MayWork(s, c, DropSecret(secret)) && !Row(s, c).request.Configures()
    ensures Present(DoDropSecret(s, c, secret)) <==> !(Overreaches(s, c, secret) && Needed(s, secret))
  {
    PresentUnlessNeeded(s, c, secret);
    if !Overreaches(s, c, secret) { OlderUnneeded(s, c, secret); }
  }

  // ----- Runs

  ghost predicate RestrainedRun(steps: seq<Step>)
    requires Run(Initial, steps)
  {
    forall i | 0 <= i < |steps| && Run(Initial, steps[..i]) :: Restrained(After(Initial, steps[..i]), steps[i])
  }

  lemma {:induction false} RunKeepsPresent(steps: seq<Step>)
    requires Run(Initial, steps) && RestrainedRun(steps)
    ensures Present(After(Initial, steps))
    decreases |steps|
  {
    if steps != [] {
      var front := steps[..|steps| - 1];
      forall i | 0 <= i < |front| && Run(Initial, front[..i]) ensures Restrained(After(Initial, front[..i]), front[i]) {
        assert front[..i] == steps[..i];
      }
      RunKeepsPresent(front);
      RunKeeps(front);
      RestrainedSpares(After(Initial, front), steps[|steps| - 1]);
      StepKeepsPresent(After(Initial, front), steps[|steps| - 1]);
    }
  }

  lemma RestrainedSpares(s: State, step: Step)
    requires Inv(s) && Facts(s) && Enabled(s, step) && Restrained(s, step)
    ensures Sparing(s, step)
  {
    hide Inv, Facts, Needed;
    if step.Work? && step.action.DropSecret? && !Cleanup(s, step) { OlderUnneeded(s, step.c, step.action.secret); }
  }

  /** In every run in which no delete revokes a credential that is newer than itself, the Secret the bound object refers to is
      there, in every state. */
  lemma BoundSecretExists(steps: seq<Step>)
    requires Run(Initial, steps) && RestrainedRun(steps)
    requires After(Initial, steps).instance.Some? && After(Initial, steps).uid == Some(After(Initial, steps).instance.value.uid)
    ensures After(Initial, steps).instance.value.spec.secret in After(Initial, steps).secrets
  {
    RunKeepsPresent(steps);
  }

  /** The revocation of step `i` overreaches and hits a credential that is needed. */
  predicate Hits(s: State, step: Step) {
    step.Work? && step.action.DropSecret? && Claimed(s, step.c) && Overreaches(s, step.c, step.action.secret) && Needed(s, step.action.secret)
  }

  ghost predicate PresentThroughout(steps: seq<Step>)
    requires Run(Initial, steps)
  {
    forall i | 0 <= i <= |steps| && Run(Initial, steps[..i]) :: Present(After(Initial, steps[..i]))
  }

  ghost predicate HarmlessRun(steps: seq<Step>)
    requires Run(Initial, steps)
  {
    forall i | 0 <= i < |steps| && Run(Initial, steps[..i]) :: !Hits(After(Initial, steps[..i]), steps[i])
  }

  lemma HarmlessStep(s: State, step: Step)
    requires Inv(s) && Facts(s) && Present(s) && Enabled(s, step)
    ensures Present(Apply(s, step)) <==> !Hits(s, step)
  {
    hide Inv, Facts, Needed, Present, DoWork;
    if Hits(s, step) {
      Dropped(s, step.c, step.action.secret);
      PresentUnlessOverreached(s, step.c, step.action.secret);
    } else {
      if step.Work? && step.action.DropSecret? && !Cleanup(s, step) && !Overreaches(s, step.c, step.action.secret) {
        OlderUnneeded(s, step.c, step.action.secret);
      }
      StepKeepsPresent(s, step);
    }
  }

  lemma Dropped(s: State, c: nat, secret: nat)
    requires MayWork(s, c, DropSecret(secret))
    ensures DoWork(s, c, DropSecret(secret)) == DoDropSecret(s, c, secret)
  {
  }

  /** All needed Secrets are there throughout a run if and only if no delete of the run revokes a needed credential newer than
      itself. */
  lemma {:induction false} PresentUnlessHit(steps: seq<Step>)
    requires Run(Initial, steps)
    ensures PresentThroughout(steps) <==> HarmlessRun(steps)
    decreases |steps|
  {
    if steps == [] {
      assert steps[..0] == [];
    } else {
      var n := |steps| - 1;
      var front := steps[..n];
      Extend(steps);
      hide Hits, Present, Inv, Facts, Enabled, Apply, HarmlessRun;
      PresentUnlessHit(front);
      RunKeeps(front);
      LastStep(steps);
      assert PresentThroughout(front) ==> Present(After(Initial, front)) by { assert front[..n] == front; }
      hide PresentThroughout;
      if PresentThroughout(front) { HarmlessStep(After(Initial, front), steps[n]); }
    }
  }

  lemma Extend(steps: seq<Step>)
    requires Run(Initial, steps) && steps != []
    ensures Run(Initial, steps[..|steps| - 1])
    ensures PresentThroughout(steps) <==> PresentThroughout(steps[..|steps| - 1]) && Present(After(Initial, steps))
    ensures HarmlessRun(steps) <==>
              HarmlessRun(steps[..|steps| - 1]) && !Hits(After(Initial, steps[..|steps| - 1]), steps[|steps| - 1])
  {
    hide Present, Hits, Run, After, PresentThroughout, HarmlessRun;
    FrontRuns(steps);
    ExtendPresent(steps);
    ExtendHarmless(steps);
  }

  lemma ExtendPresent(steps: seq<Step>)
    requires Run(Initial, steps) && steps != [] && Run(Initial, steps[..|steps| - 1])
    ensures PresentThroughout(steps) <==> PresentThroughout(steps[..|steps| - 1]) && Present(After(Initial, steps))
  {
    hide Present, Run, After;
    var n := |steps| - 1;
    var front := steps[..n];
    assert steps[..n + 1] == steps;
    forall i | 0 <= i <= n ensures front[..i] == steps[..i] {}
    if PresentThroughout(steps) {
      assert Present(After(Initial, steps[..n + 1]));
    }
    if PresentThroughout(front) && Present(After(Initial, steps)) {
      forall i | 0 <= i <= |steps| && Run(Initial, steps[..i]) ensures Present(After(Initial, steps[..i])) {
        if i <= n { assert front[..i] == steps[..i]; }
      }
    }
  }

  lemma ExtendHarmless(steps: seq<Step>)
    requires Run(Initial, steps) && steps != [] && Run(Initial, steps[..|steps| - 1])
    ensures HarmlessRun(steps) <==>
              HarmlessRun(steps[..|steps| - 1]) && !Hits(After(Initial, steps[..|steps| - 1]), steps[|steps| - 1])
  {
    hide Hits, Run, After;
    var n := |steps| - 1;
    var front := steps[..n];
    forall i | 0 <= i <= n ensures front[..i] == steps[..i] {}
    if HarmlessRun(front) && !Hits(After(Initial, front), steps[n]) {
      forall i | 0 <= i < |steps| && Run(Initial, steps[..i]) ensures !Hits(After(Initial, steps[..i]), steps[i]) {
        if i < n { assert front[..i] == steps[..i]; }
      }
    }
  }

  lemma LastStep(steps: seq<Step>)
    requires Run(Initial, steps) && steps != [] && Run(Initial, steps[..|steps| - 1])
    ensures
      var s := After(Initial, steps[..|steps| - 1]);
      Enabled(s, steps[|steps| - 1]) && After(Initial, steps) == Apply(s, steps[|steps| - 1])
  {
  }

  lemma FrontRuns(steps: seq<Step>)
    requires Run(Initial, steps) && steps != []
    ensures Run(Initial, steps[..|steps| - 1])
  {
  }
}
