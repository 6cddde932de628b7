/**
 A run in which a worker adds an instance back to what a quota counts.

 After a failed create the volume is deleted on request although the object exists, which reports the
 instance as deleted; a rotation is still accepted for it, and its success makes it active again.
 */
module StaleVolume {
  import opened Wrappers
  import opened Protocol
  import opened StaleRuns
  import opened StaleReclaim
  import Standing

  function VolumeRow(state: OperationState, lease: Option<Lease>): Operation {
    Plan(RemoveVolume(0, 1), state, lease, 0, false, None, None)
  }

  function VolumeClaim(stage: Stage): Claim {
    Claim(1, 30, false, false, None, None, stage, None, None, {})
  }

  function Removing(): State {
    Created().(
      operations := Created().operations + [VolumeRow(Applying, Some(Lease(1, 30)))],
      claims := Created().claims + [VolumeClaim(ReadingVolume)])
  }

  lemma RemovingReached()
    ensures Reached(Removing())
  {
    hide Reached;
    CreatedReached();
    Then(Created(), Admit(AcceptRemoveVolume(1)));
    Then(DoRemoveVolume(Created(), 1), Take(1));
    assert DoTake(DoRemoveVolume(Created(), 1), 1) == Removing();
  }

  /** Reported as deleted, with its object still there. */
  function Gone(): State {
    Removing().(
      lifecycle := Deleted,
      operations := Created().operations + [VolumeRow(Succeeded, None)],
      claims := Created().claims + [VolumeClaim(Released)],
      history := Created().history.(ended := {0, 1}))
  }

  lemma GoneReached()
    ensures Reached(Gone())
  {
    hide Reached;
    RemovingReached();
    Then(Removing(), Work(1, ReadVolume));
    var s := DoReadVolume(Removing(), 1);
    Then(s, Work(1, Succeed));
    assert DoSucceed(s, 1) == Gone();
  }

  const Turned: Spec := Small.(secret := 2)
  const Fresh: Instance := Instance(0, 2, 2, Turned, None, false, false, Some(1))
  const Steady: Instance := Fresh.(ready := Some(2))

  function Turn(state: OperationState, lease: Option<Lease>, attempt: nat, target: Option<nat>): Operation {
    Plan(Rotate(Turned, 0, 1, None), state, lease, attempt, true, target, None)
  }

  function TurnClaim(until: nat, target: Option<nat>, stage: Stage, answer: Option<Instance>, todo: set<nat>): Claim {
    Claim(2, until, false, true, target, None, stage, answer, None, todo)
  }

  function Turning(): State {
    Gone().(
      operations := Gone().operations + [Turn(Applying, Some(Lease(2, 30)), 0, None)],
      credentials := [0, 2],
      claims := Gone().claims + [TurnClaim(30, None, Sealing, None, {})])
  }

  lemma TurningReached()
    ensures Reached(Turning())
  {
    hide Reached;
    GoneReached();
    Then(Gone(), Admit(AcceptRotate(StaleRuns.Ready)));
    var s := DoRotate(Gone(), StaleRuns.Ready);
    Then(s, Take(2));
    assert DoTake(s, 2) == Turning();
  }

  function Written(): State {
    Turning().(
      claims := Gone().claims + [TurnClaim(30, None, Binding, Some(Fresh), {})],
      instance := Some(Fresh),
      secrets := {0, 2},
      history := Turning().history.(seen := Turning().history.seen + {Fresh}))
  }

  lemma WrittenReached()
    ensures Reached(Written())
  {
    hide Reached;
    TurningReached();
    Then(Turning(), Work(2, Seal));
    var s := DoSeal(Turning(), 2);
    Then(s, Work(2, Write(false)));
    assert DoUpdateInstance(s, 2, false).instance == Some(Fresh);
    assert DoUpdateInstance(s, 2, false) == Written();
  }

  function Pending(): State {
    Written().(
      operations := Gone().operations + [Turn(Reconciling, None, 2, Some(2))],
      claims := Gone().claims + [TurnClaim(30, Some(2), Released, Some(Fresh), {})],
      instance := Some(Steady),
      history := Written().history.(
        seen := Written().history.seen + {Steady}, bound := {0}, boundBy := map[0 := Plain, 2 := Fresh]))
  }

  lemma PendingReached()
    ensures Reached(Pending())
  {
    hide Reached;
    WrittenReached();
    Then(Written(), Work(2, Bind));
    var s := DoBind(Written(), 2);
    Then(s, Work(2, Defer));
    var t := DoDefer(s, 2);
    Then(t, Operate(Report(true)));
    assert DoReport(t, true) == Pending();
  }

  function Observed(): State {
    Pending().(
      now := 2,
      operations := Gone().operations + [Turn(Reconciling, Some(Lease(3, 32)), 2, Some(2))],
      claims := Pending().claims + [TurnClaim(32, Some(2), Verifying, Some(Steady), {})])
  }

  lemma ObservedReached()
    ensures Reached(Observed())
  {
    hide Reached;
    PendingReached();
    Then(Pending(), Pass(2));
    var s := Pending().(now := 2);
    Then(s, Take(2));
    Then(DoTake(s, 2), Work(3, Observe));
    assert DoObserve(DoTake(s, 2), 3) == Observed();
  }

  function Cleared(todo: set<nat>): State {
    Observed().(claims := Pending().claims + [TurnClaim(32, Some(2), Cleaning, Some(Steady), todo)], secrets := todo + {2})
  }

  function Listed(): State {
    Observed().(claims := Pending().claims + [TurnClaim(32, Some(2), Listing, Some(Steady), {})])
  }

  lemma ListedReached()
    ensures Reached(Listed())
  {
    hide Reached;
    ObservedReached();
    Then(Observed(), Work(3, Verify));
    assert DoVerify(Observed(), 3) == Listed();
  }

  lemma ClearingReached()
    ensures Reached(Cleared({0}))
  {
    hide Reached;
    ListedReached();
    Then(Listed(), Work(3, ListCredentials));
    OlderOfTwo();
    assert DoList(Listed(), 3).claims[3].todo == {0};
    assert Listed().secrets == {0, 2} == {0} + {2};
    assert DoList(Listed(), 3) == Cleared({0});
  }

  lemma ClearedReached()
    ensures Reached(Cleared({}))
  {
    hide Reached;
    ClearingReached();
    Then(Cleared({0}), Work(3, DropSecret(0)));
    assert {0} + {2} - {0} == {} + {2};
    assert DoDropSecret(Cleared({0}), 3, 0).claims[3].todo == {};
    assert DoDropSecret(Cleared({0}), 3, 0) == Cleared({});
  }

  lemma OlderOfTwo()
    ensures OlderCredentials([0, 2], 2) == {0}
  {
    assert RevisionOf([0, 2], 2) == 1 by { assert [0, 2][1..] == [2]; }
  }

  /** The success of the rotation raises what the instance counts, and nothing checks the totals again. */
  lemma WorkerCanRaiseUsage()
    ensures exists s, step ::
      && Reached(s) && Enabled(s, step) && step.Work?
      && !Standing.UsageOf(Apply(s, step)).AtMost(Standing.UsageOf(s))
  {
    hide Reached;
    ClearedReached();
    var s := Cleared({});
    var step := Work(3, Succeed);
    assert Enabled(s, step);
    assert Apply(s, step).lifecycle == Active;
    assert !Standing.UsageOf(Apply(s, step)).AtMost(Standing.UsageOf(s));
  }
}
