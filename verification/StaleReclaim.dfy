/**
 A run in which the operator moves the retained volume to an object the binding does not name.

 The object of a reclaim is deleted before the operator has put its finalizer on it, so it goes at
 once and its volume stays with the previous owner; a stalled create then makes a second object, and
 a stalled observation of the same operation marks it.
 */
module StaleReclaim {
  import opened Wrappers
  import opened Protocol
  import opened StaleRuns

  const Anchored: Instance := Plain.(finalizer := true)

  function Plan(request: Request, state: OperationState, lease: Option<Lease>, attempt: nat, payload: bool,
                target: Option<nat>, policy: Option<Policy>): Operation
  {
    Operation(request, state, lease, attempt, payload, target, policy)
  }

  // ----- The first object is deleted, its volume is retained

  function Fastened(first: Spec): Instance {
    Newborn(first).(finalizer := true)
  }

  /** The operation was given up after the operator had put its finalizer on the object and provisioned its volume. */
  function Founded(first: Spec): State {
    Bound(first).(
      lifecycle := Failed,
      operations := [FirstCreate(first, Faulted, None, false, Some(1))],
      claims := [CreateClaim(Released, Some(1), Some(Newborn(first)))],
      instance := Some(Fastened(first)),
      volume := Some(Volume(1, 0, false)),
      nextUid := 2,
      history := History({Newborn(first), Fastened(first)}, {0}, map[0 := Newborn(first)], {}, {0}))
  }

  lemma FoundedReached(first: Spec)
    requires Creatable(first)
    ensures Reached(Founded(first))
  {
    hide Reached;
    BoundReached(first);
    Then(Bound(first), Work(0, Fail));
    var s := DoFail(Bound(first), 0);
    Then(s, Operate(AddFinalizer));
    Then(DoAddFinalizer(s), Operate(ProvisionVolume(Fastened(first))));
    assert DoProvisionVolume(DoAddFinalizer(s), Fastened(first)) == Founded(first);
  }

  function Provisioned(): State {
    Founded(Small)
  }

  function RemoveClaim(until: nat, policy: Option<Policy>, stage: Stage, answer: Option<Instance>, todo: set<nat>): Claim {
    Claim(1, until, false, false, None, policy, stage, answer, None, todo)
  }

  function Removing(): State {
    Provisioned().(
      lifecycle := Deleting,
      operations := Provisioned().operations + [Plan(Remove(0), Applying, Some(Lease(1, 30)), 0, false, None, None)],
      claims := Provisioned().claims + [RemoveClaim(30, None, CapturingPolicy, Some(Anchored), {})])
  }

  function RemoveTaken(): State {
    Removing().(claims := Provisioned().claims + [RemoveClaim(30, None, ReadingInstance, None, {})])
  }

  lemma RemoveTakenReached()
    ensures Reached(RemoveTaken())
  {
    hide Reached;
    FoundedReached(Small);
    Then(Provisioned(), Admit(AcceptRemove));
    Then(DoRemove(Provisioned()), Take(1));
    assert DoTake(DoRemove(Provisioned()), 1) == RemoveTaken();
  }

  lemma RemovingReached()
    ensures Reached(Removing())
  {
    hide Reached;
    RemoveTakenReached();
    Then(RemoveTaken(), Work(1, ReadForRemove));
    assert DoReadForRemove(RemoveTaken(), 1) == Removing();
  }

  const Leaving: Instance := Anchored.(deleting := true, generation := 2)

  function Marked(): State {
    Removing().(
      operations := Provisioned().operations + [Plan(Remove(0), Applying, None, 2, false, None, Some(Retain))],
      claims := Provisioned().claims + [RemoveClaim(30, None, Released, Some(Anchored), {})],
      instance := Some(Leaving),
      history := Provisioned().history.(seen := {Plain, Anchored, Leaving}))
  }

  function Captured(): State {
    Removing().(
      operations := Provisioned().operations + [Plan(Remove(0), Applying, Some(Lease(1, 30)), 0, false, None, Some(Retain))],
      claims := Provisioned().claims + [RemoveClaim(30, None, IssuingDelete, Some(Anchored), {})])
  }

  lemma CapturedReached()
    ensures Reached(Captured())
  {
    hide Reached;
    RemovingReached();
    Then(Removing(), Work(1, CapturePolicy));
    assert DoCapturePolicy(Removing(), 1) == Captured();
  }

  lemma MarkedReached()
    ensures Reached(Marked())
  {
    hide Reached;
    CapturedReached();
    Then(Captured(), Work(1, IssueDelete));
    Then(DoIssueDelete(Captured(), 1), Work(1, Defer));
    assert DoDefer(DoIssueDelete(Captured(), 1), 1) == Marked();
  }

  function LetGo(): State {
    Marked().(
      now := 2,
      operations := Provisioned().operations + [Plan(Remove(0), Applying, Some(Lease(2, 32)), 2, false, None, Some(Retain))],
      claims := Marked().claims + [RemoveClaim(32, Some(Retain), ReadingInstance, None, {})],
      instance := None)
  }

  lemma LetGoReached()
    ensures Reached(LetGo())
  {
    hide Reached;
    MarkedReached();
    Then(Marked(), Operate(ReleaseInstance));
    var s := Marked().(instance := None);
    Then(s, Pass(2));
    Then(s.(now := 2), Take(1));
    assert DoTake(s.(now := 2), 1) == LetGo();
  }

  function Left(): State {
    LetGo().(
      lifecycle := Detached,
      operations := Provisioned().operations + [Plan(Remove(0), Succeeded, None, 2, false, None, Some(Retain))],
      claims := Marked().claims + [RemoveClaim(32, Some(Retain), Released, None, {})],
      secrets := {},
      history := Marked().history.(ended := {0, 1}))
  }

  function Listed(): State {
    LetGo().(claims := Marked().claims + [RemoveClaim(32, Some(Retain), Cleaning, None, {0})])
  }

  lemma ListedReached()
    ensures Reached(Listed())
  {
    hide Reached;
    LetGoReached();
    Then(LetGo(), Work(2, ReadForRemove));
    var s := DoReadForRemove(LetGo(), 2);
    Then(s, Work(2, ListCredentials));
    assert DoList(s, 2).claims[2].todo == {0};
    assert DoList(s, 2) == Listed();
  }

  lemma LeftReached()
    ensures Reached(Left())
  {
    hide Reached;
    ListedReached();
    Then(Listed(), Work(2, DropSecret(0)));
    Then(DoDropSecret(Listed(), 2, 0), Work(2, Succeed));
    assert DoSucceed(DoDropSecret(Listed(), 2, 0), 2) == Left();
  }

  // ----- The reclaim: one claim stalls before its create, the next one creates and binds

  const Retained: Spec := Spec(Resources(1, 1, 1), 2, Some(ReclaimRef(0, 1)), Retain, 0)

  function Recover(state: OperationState, lease: Option<Lease>, attempt: nat, payload: bool, target: Option<nat>): Operation {
    Plan(Reclaim(Retained, 0, 1), state, lease, attempt, payload, target, None)
  }

  function RecoverClaim(until: nat, target: Option<nat>, stage: Stage, answer: Option<Instance>): Claim {
    Claim(2, until, false, true, target, None, stage, answer, None, {})
  }

  function Stalling(): State {
    Left().(
      lifecycle := Provisioning,
      operations := Left().operations + [Recover(Applying, Some(Lease(3, 32)), 2, true, None)],
      credentials := [0, 2],
      claims := Left().claims + [RecoverClaim(32, None, Writing, None)],
      secrets := {2})
  }

  function Reclaiming(): State {
    Stalling().(claims := Left().claims + [RecoverClaim(32, None, CheckingVolume, None)], secrets := {})
  }

  lemma ReclaimingReached()
    ensures Reached(Reclaiming())
  {
    hide Reached;
    LeftReached();
    Then(Left(), Admit(AcceptReclaim(Retained, 1)));
    Then(DoReclaim(Left(), Retained, 1), Take(2));
    assert DoTake(DoReclaim(Left(), Retained, 1), 2) == Reclaiming();
  }

  lemma StallingReached()
    ensures Reached(Stalling())
  {
    hide Reached;
    ReclaimingReached();
    Then(Reclaiming(), Work(3, CheckVolume));
    var s := DoCheckVolume(Reclaiming(), 3);
    Then(s, Work(3, Seal));
    assert DoSeal(s, 3) == Stalling();
  }

  function Again(): State {
    Stalling().(
      now := 33,
      operations := Left().operations + [Recover(Applying, Some(Lease(4, 63)), 2, true, None)],
      claims := Stalling().claims + [RecoverClaim(63, None, Writing, None)])
  }

  lemma AgainReached()
    ensures Reached(Again())
  {
    hide Reached;
    StallingReached();
    Then(Stalling(), Pass(31));
    var s := Stalling().(now := 33);
    Then(s, Take(2));
    var t := DoTake(s, 2);
    assert t == Again().(claims := Stalling().claims + [RecoverClaim(63, None, CheckingVolume, None)]);
    Then(t, Work(4, CheckVolume));
    Then(DoCheckVolume(t, 4), Work(4, Seal));
    assert DoSeal(DoCheckVolume(t, 4), 4) == Again();
  }

  const First: Instance := Instance(2, 1, 2, Retained, None, false, false, None)

  function Rebound(): State {
    Again().(
      uid := Some(2),
      operations := Left().operations + [Recover(Reconciling, None, 35, true, Some(1))],
      claims := Stalling().claims + [RecoverClaim(63, Some(1), Released, Some(First))],
      instance := Some(First),
      nextUid := 3,
      history := History({Plain, Anchored, Leaving, First}, {0, 2}, map[0 := Plain, 2 := First], {}, {0, 1}))
  }

  lemma ReboundReached()
    ensures Reached(Rebound())
  {
    hide Reached;
    AgainReached();
    Then(Again(), Work(4, Write(false)));
    var s := DoCreateInstance(Again(), 4, false);
    assert s.claims[4] == RecoverClaim(63, None, Binding, Some(First));
    Then(s, Work(4, Bind));
    Then(DoBind(s, 4), Work(4, Defer));
    assert DoDefer(DoBind(s, 4), 4) == Rebound();
  }

  // ----- One claim stalls before it observes, the operation is given up, the object is deleted without a finalizer

  function Abandoned(): State {
    Rebound().(
      now := 66,
      lifecycle := Failed,
      operations := Left().operations + [Recover(Faulted, None, 35, false, Some(1))],
      claims := Rebound().claims + [RecoverClaim(65, Some(1), Observing, None), RecoverClaim(96, Some(1), Released, None)],
      history := Rebound().history.(ended := {0, 1, 2}))
  }

  function Retaken(): State {
    Rebound().(
      now := 35,
      operations := Left().operations + [Recover(Reconciling, Some(Lease(5, 65)), 35, true, Some(1))],
      claims := Rebound().claims + [RecoverClaim(65, Some(1), Observing, None)])
  }

  lemma RetakenReached()
    ensures Reached(Retaken())
  {
    hide Reached;
    ReboundReached();
    Then(Rebound(), Pass(2));
    Then(Rebound().(now := 35), Take(2));
    assert DoTake(Rebound().(now := 35), 2) == Retaken();
  }

  lemma AbandonedReached()
    ensures Reached(Abandoned())
  {
    hide Reached;
    RetakenReached();
    Then(Retaken(), Pass(31));
    var s := Retaken().(now := 66);
    Then(s, Take(2));
    Then(DoTake(s, 2), Work(6, Fail));
    assert DoFail(DoTake(s, 2), 6) == Abandoned();
  }

  function Vanishing(): State {
    Abandoned().(
      lifecycle := Deleting,
      operations := Abandoned().operations + [Plan(Remove(2), Applying, Some(Lease(7, 96)), 66, false, None, None)],
      claims := Abandoned().claims + [Claim(3, 96, false, false, None, None, CapturingPolicy, Some(First), None, {})])
  }

  function Requested(): State {
    Abandoned().(
      lifecycle := Lifecycle.Deleting,
      operations := Abandoned().operations + [Plan(Remove(2), Pending, None, 66, false, None, None)])
  }

  lemma RequestedReached()
    ensures Reached(Requested())
  {
    hide Reached;
    AbandonedReached();
    Then(Abandoned(), Admit(AcceptRemove));
    assert DoRemove(Abandoned()) == Requested();
  }

  lemma VanishingReached()
    ensures Reached(Vanishing())
  {
    hide Reached;
    RequestedReached();
    Then(Requested(), Take(3));
    Then(DoTake(Requested(), 3), Work(7, ReadForRemove));
    assert DoReadForRemove(DoTake(Requested(), 3), 7) == Vanishing();
  }

  function Vanished(): State {
    Vanishing().(
      operations := Abandoned().operations + [Plan(Remove(2), Applying, Some(Lease(7, 96)), 66, false, None, Some(Retain))],
      claims := Abandoned().claims + [Claim(3, 96, false, false, None, None, Waiting, Some(First), None, {})],
      instance := None)
  }

  lemma VanishedReached()
    ensures Reached(Vanished())
  {
    hide Reached;
    VanishingReached();
    Then(Vanishing(), Work(7, CapturePolicy));
    Then(DoCapturePolicy(Vanishing(), 7), Work(7, IssueDelete));
    assert DoIssueDelete(DoCapturePolicy(Vanishing(), 7), 7) == Vanished();
  }

  // ----- The stalled claims resume

  const Second: Instance := Instance(3, 1, 2, Retained, None, false, false, None)

  function Resumed(): State {
    Vanished().(
      claims := Vanished().claims[3 := RecoverClaim(32, None, Waiting, None)][5 := RecoverClaim(65, Some(1), Approving, Some(Second))],
      instance := Some(Second),
      nextUid := 4,
      history := Vanished().history.(seen := {Plain, Anchored, Leaving, First, Second}))
  }

  lemma ResumedReached()
    ensures Reached(Resumed())
  {
    hide Reached;
    VanishedReached();
    Then(Vanished(), Work(3, Write(true)));
    var s := DoCreateInstance(Vanished(), 3, true);
    assert s.instance == Some(Second);
    Then(s, Work(5, Observe));
    assert DoObserve(s, 5) == Resumed();
  }

  /** The volume of identity 0 is about to go to identity 3, while the binding names 2. */
  lemma TransferCanMissBinding()
    ensures exists s, read :: Reached(s) && CanTransfer(s, read) && s.uid != Some(read.uid)
  {
    ResumedReached();
    Then(Resumed(), Work(5, Approve(true)));
    var s := DoApprove(Resumed(), 5, true);
    assert s.instance == Some(Second.(marker := Some(3)));
    Then(s, Operate(AddFinalizer));
    var t := DoAddFinalizer(s);
    assert CanTransfer(t, t.instance.value) && t.uid == Some(2);
  }
}
