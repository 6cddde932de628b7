/**
 A run in which a stalled delete removes the Secret of the object that came after it.

 The claim saw the old object gone and stalls before it lists the credentials; another claim finishes
 the delete, the volume is reclaimed by a new object, and then the first claim lists and deletes all.
 */
module StaleDelete {
  import opened Wrappers
  import opened Protocol
  import opened StaleRuns
  import opened StaleReclaim

  function Delayed(): State {
    LetGo().(
      now := 33,
      operations := Provisioned().operations + [Plan(Remove(0), Applying, Some(Lease(3, 63)), 2, false, None, Some(Retain))],
      claims := Marked().claims + [RemoveClaim(32, Some(Retain), Listing, None, {}), RemoveClaim(63, Some(Retain), ReadingInstance, None, {})])
  }

  lemma DelayedReached()
    ensures Reached(Delayed())
  {
    hide Reached;
    LetGoReached();
    Then(LetGo(), Work(2, ReadForRemove));
    var s := DoReadForRemove(LetGo(), 2);
    Then(s, Pass(31));
    Then(s.(now := 33), Take(1));
    assert DoTake(s.(now := 33), 1) == Delayed();
  }

  function Emptying(): State {
    Delayed().(
      claims := Marked().claims + [RemoveClaim(32, Some(Retain), Listing, None, {}), RemoveClaim(63, Some(Retain), Cleaning, None, {0})])
  }

  lemma EmptyingReached()
    ensures Reached(Emptying())
  {
    hide Reached;
    DelayedReached();
    Then(Delayed(), Work(3, ReadForRemove));
    var s := DoReadForRemove(Delayed(), 3);
    Then(s, Work(3, ListCredentials));
    assert DoList(s, 3).claims[3].todo == {0};
    assert DoList(s, 3) == Emptying();
  }

  function Finished(): State {
    Delayed().(
      lifecycle := Detached,
      operations := Provisioned().operations + [Plan(Remove(0), Succeeded, None, 2, false, None, Some(Retain))],
      claims := Marked().claims + [RemoveClaim(32, Some(Retain), Listing, None, {}), RemoveClaim(63, Some(Retain), Released, None, {})],
      secrets := {},
      history := Delayed().history.(ended := {0, 1}))
  }

  lemma FinishedReached()
    ensures Reached(Finished())
  {
    hide Reached;
    EmptyingReached();
    Then(Emptying(), Work(3, DropSecret(0)));
    var s := DoDropSecret(Emptying(), 3, 0);
    Then(s, Work(3, Succeed));
    assert DoSucceed(s, 3) == Finished();
  }

  function Recover(state: OperationState, target: Option<nat>): Operation {
    Plan(Reclaim(Retained, 0, 1), state, Some(Lease(4, 63)), 33, true, target, None)
  }

  function RecoverClaim(stage: Stage, target: Option<nat>, answer: Option<Instance>): Claim {
    Claim(2, 63, false, true, target, None, stage, answer, None, {})
  }

  function Reclaiming(): State {
    Finished().(
      lifecycle := Provisioning,
      operations := Finished().operations + [Recover(Applying, None)],
      credentials := [0, 2],
      claims := Finished().claims + [RecoverClaim(CheckingVolume, None, None)])
  }

  lemma ReclaimingReached()
    ensures Reached(Reclaiming())
  {
    hide Reached;
    FinishedReached();
    Then(Finished(), Admit(AcceptReclaim(Retained, 1)));
    Then(DoReclaim(Finished(), Retained, 1), Take(2));
    assert DoTake(DoReclaim(Finished(), Retained, 1), 2) == Reclaiming();
  }

  function Ready(): State {
    Reclaiming().(claims := Finished().claims + [RecoverClaim(Writing, None, None)], secrets := {2})
  }

  lemma ReadyReached()
    ensures Reached(Ready())
  {
    hide Reached;
    ReclaimingReached();
    Then(Reclaiming(), Work(4, CheckVolume));
    var s := DoCheckVolume(Reclaiming(), 4);
    Then(s, Work(4, Seal));
    assert DoSeal(s, 4) == Ready();
  }

  function Rebound(): State {
    Ready().(
      uid := Some(2),
      operations := Finished().operations + [Recover(Reconciling, Some(1))],
      claims := Finished().claims + [RecoverClaim(Approving, Some(1), Some(First))],
      instance := Some(First),
      nextUid := 3,
      history := Finished().history.(
        seen := Finished().history.seen + {First}, bound := {0, 2}, boundBy := map[0 := Plain, 2 := First]))
  }

  lemma ReboundReached()
    ensures Reached(Rebound())
  {
    hide Reached;
    ReadyReached();
    Then(Ready(), Work(4, Write(false)));
    var s := DoCreateInstance(Ready(), 4, false);
    assert s.claims[4] == RecoverClaim(Binding, None, Some(First));
    Then(s, Work(4, Bind));
    assert DoBind(s, 4) == Rebound();
  }

  /** The Secret of the bound object is gone. */
  lemma DeleteCanTakeLaterSecret()
    ensures exists s ::
      && Reached(s) && s.instance.Some? && s.uid == Some(s.instance.value.uid)
      && s.instance.value.spec.secret !in s.secrets
  {
    hide Reached;
    ReboundReached();
    Then(Rebound(), Work(2, ListCredentials));
    var s := DoList(Rebound(), 2);
    assert s.claims[2].todo == {0, 2} by { assert Rebound().credentials == [0, 2]; }
    Then(s, Work(2, DropSecret(2)));
    var t := DoDropSecret(s, 2, 2);
    assert t.instance == Some(First) && t.uid == Some(2) && t.secrets == {};
  }
}
