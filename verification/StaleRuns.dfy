/**
 Runs that show where the guarantees end: concrete interleavings of stalled claims.
 */
module StaleRuns {
  import opened Wrappers
  import opened Protocol
  import opened Effects
  import opened Reservations

  ghost predicate Reached(s: State) {
    exists steps: seq<Step> | Run(Initial, steps) :: After(Initial, steps) == s
  }

  lemma Then(s: State, step: Step)
    requires Reached(s) && Enabled(s, step)
    ensures Reached(Apply(s, step))
  {
    var steps: seq<Step> :| Run(Initial, steps) && After(Initial, steps) == s;
    Extended(Initial, steps, step);
  }

  lemma Begin()
    ensures Reached(Initial)
  {
    assert Run(Initial, []) && After(Initial, []) == Initial;
  }

  // ----- A configuration edit that changes nothing

  const Small: Spec := Spec(Resources(1, 1, 1), 0, None, Retain, 0)
  const Large: Spec := Spec(Resources(1, 2, 2), 0, None, Retain, 0)
  const Plain: Instance := Newborn(Small)
  const Ready: Instance := Plain.(ready := Some(1))

  function Newborn(first: Spec): Instance {
    Instance(0, 1, 0, first, None, false, false, None)
  }

  function FirstCreate(first: Spec, state: OperationState, lease: Option<Lease>, payload: bool, target: Option<nat>): Operation {
    Operation(Create(first), state, lease, 0, payload, target, None)
  }

  function CreateClaim(stage: Stage, target: Option<nat>, answer: Option<Instance>): Claim {
    Claim(0, 30, false, true, target, None, stage, answer, None, {})
  }

  predicate Creatable(first: Spec) {
    first.secret == 0 && first.reclaim.None?
  }

  /** The claim of the create has its credentials in place and is about to write. */
  function Sealed(first: Spec): State {
    State(0, Provisioning, None, first.resources, [FirstCreate(first, Applying, Some(Lease(0, 30)), true, None)], [0],
          [CreateClaim(Writing, None, None)], None, None, {0}, 0, History({}, {}, map[], {}, {}))
  }

  lemma SealedReached(first: Spec)
    requires Creatable(first)
    ensures Reached(Sealed(first))
  {
    hide Reached;
    Begin();
    Then(Initial, Admit(AcceptCreate(first)));
    Then(DoCreate(Initial, first), Take(0));
    Then(DoTake(DoCreate(Initial, first), 0), Work(0, Seal));
    assert DoSeal(DoTake(DoCreate(Initial, first), 0), 0) == Sealed(first);
  }

  function Bound(first: Spec): State {
    Sealed(first).(
      uid := Some(0),
      operations := [FirstCreate(first, Reconciling, Some(Lease(0, 30)), true, Some(1))],
      claims := [CreateClaim(Verifying, Some(1), Some(Newborn(first)))],
      instance := Some(Newborn(first)),
      nextUid := 1,
      history := History({Newborn(first)}, {0}, map[0 := Newborn(first)], {}, {}))
  }

  lemma BoundReached(first: Spec)
    requires Creatable(first)
    ensures Reached(Bound(first))
  {
    hide Reached;
    SealedReached(first);
    Then(Sealed(first), Work(0, Write(false)));
    var s := DoCreateInstance(Sealed(first), 0, false);
    assert s.claims == [CreateClaim(Binding, None, Some(Newborn(first)))];
    Then(s, Work(0, Bind));
    assert DoBind(s, 0) == Bound(first);
  }

  /** The operation was given up before it saw the object ready, which then became ready. */
  function Created(): State {
    Bound(Small).(
      lifecycle := Failed,
      operations := [FirstCreate(Small, Faulted, None, false, Some(1))],
      claims := [CreateClaim(Released, Some(1), Some(Plain))],
      instance := Some(Ready),
      history := History({Plain, Ready}, {0}, map[0 := Plain], {}, {0}))
  }

  lemma CreatedReached()
    ensures Reached(Created())
  {
    hide Reached;
    BoundReached(Small);
    Then(Bound(Small), Work(0, Fail));
    Then(DoFail(Bound(Small), 0), Operate(Report(true)));
    assert DoReport(DoFail(Bound(Small), 0), true) == Created();
  }

  function Edit(desired: Spec, state: OperationState, lease: Option<Lease>, attempt: nat, target: Option<nat>): Operation {
    Operation(Update(desired, 0, 1), state, lease, attempt, false, target, None)
  }

  function EditClaim(op: nat, until: nat, stage: Stage, target: Option<nat>, answer: Option<Instance>): Claim {
    Claim(op, until, false, false, target, None, stage, answer, None, {})
  }

  /** An enlargement is accepted and its first claim stalls right before its write. */
  function Stalled(): State {
    Created().(
      reserved := Large.resources,
      operations := Created().operations + [Edit(Large, Applying, Some(Lease(1, 30)), 0, None)],
      claims := Created().claims + [EditClaim(1, 30, Writing, None, None)])
  }

  lemma StalledReached()
    ensures Reached(Stalled())
  {
    hide Reached;
    CreatedReached();
    Then(Created(), Admit(AcceptUpdate(Ready, Large)));
    Then(DoUpdate(Created(), Ready, Large), Take(1));
    assert DoTake(DoUpdate(Created(), Ready, Large), 1) == Stalled();
  }

  /** The next claim gives the enlargement up. */
  function GivenUp(): State {
    Stalled().(
      now := 31,
      operations := Created().operations + [Edit(Large, Faulted, None, 0, None)],
      claims := Stalled().claims + [EditClaim(1, 61, Released, None, None)],
      history := Created().history.(ended := {0, 1}))
  }

  lemma GivenUpReached()
    ensures Reached(GivenUp())
  {
    hide Reached;
    StalledReached();
    Then(Stalled(), Pass(31));
    var s := Stalled().(now := 31);
    Then(s, Take(1));
    Then(DoTake(s, 1), Work(2, Fail));
    assert DoFail(DoTake(s, 1), 2) == GivenUp();
  }

  const Renamed: Instance := Ready.(operation := 2)

  /** An update that leaves the configuration as it is has been written: the generation has not moved. */
  function Rewritten(): State {
    GivenUp().(
      operations := GivenUp().operations + [Edit(Small, Applying, Some(Lease(3, 61)), 31, None)],
      claims := GivenUp().claims + [EditClaim(2, 61, Binding, None, Some(Renamed))],
      instance := Some(Renamed),
      history := GivenUp().history.(seen := {Plain, Ready, Renamed}))
  }

  function RenameTaken(): State {
    GivenUp().(
      operations := Rewritten().operations,
      claims := GivenUp().claims + [EditClaim(2, 61, Writing, None, None)])
  }

  lemma RenameTakenReached()
    ensures Reached(RenameTaken())
  {
    hide Reached;
    GivenUpReached();
    Then(GivenUp(), Admit(AcceptUpdate(Ready, Small)));
    var s := DoUpdate(GivenUp(), Ready, Small);
    Then(s, Take(2));
    assert DoTake(s, 2) == RenameTaken();
  }

  lemma RewrittenReached()
    ensures Reached(Rewritten())
  {
    hide Reached;
    RenameTakenReached();
    Then(RenameTaken(), Work(3, Write(false)));
    assert DoUpdateInstance(RenameTaken(), 3, false) == Rewritten();
  }

  /** It succeeded, and the reservation was settled to the small configuration. */
  function Settled(): State {
    Rewritten().(
      lifecycle := Active,
      reserved := Small.resources,
      operations := GivenUp().operations + [Edit(Small, Succeeded, None, 31, Some(1))],
      claims := GivenUp().claims + [EditClaim(2, 61, Released, Some(1), Some(Renamed))],
      history := Rewritten().history.(bound := {0}, boundBy := map[0 := Plain, 2 := Renamed], ended := {0, 1, 2}))
  }

  lemma SettledReached()
    ensures Reached(Settled())
  {
    hide Reached;
    RewrittenReached();
    Then(Rewritten(), Work(3, Bind));
    var s := DoBind(Rewritten(), 3);
    Then(s, Work(3, Verify));
    Then(DoVerify(s, 3), Work(3, Succeed));
    assert DoSucceed(DoVerify(s, 3), 3) == Settled();
  }

  /** The stalled claim of the enlargement now writes: the bound object asks for more than is reserved. */
  lemma ReservationCanFallShort()
    ensures exists s ::
      && Reached(s)
      && s.instance.Some? && s.uid == Some(s.instance.value.uid)
      && !s.reserved.Covers(s.instance.value.spec.resources)
  {
    SettledReached();
    Then(Settled(), Work(1, Write(false)));
    var t := DoUpdateInstance(Settled(), 1, false);
    assert t.instance == Some(Renamed.(generation := 2, operation := 1, spec := Large));
    assert t.reserved == Small.resources;
  }

  /** What makes it possible: the claim of an older update can still write after a newer edit exactly when that edit changed
      nothing. */
  lemma StaleClaimSurvives(s: State, c: nat, d: nat)
    requires MayWork(s, c, Write(false)) && Row(s, c).request.Edits()
    requires s.instance.Some? && !s.instance.value.deleting && s.instance.value.operation != s.claims[c].operation
    requires Expects(Row(s, c).request, s.instance.value)
    requires CanWrite(s, d) && s.claims[d].operation != s.claims[c].operation
    ensures CanWrite(DoWork(s, c, Write(false)), d) <==> Row(s, c).request.desired == s.instance.value.spec
  {
    WorkRowEffect(s, c, Write(false));
    WorkClaims(s, c, Write(false));
    assert DoWork(s, c, Write(false)) == DoUpdateInstance(s, c, false);
    hide DoWork;
  }
}
