/**
 A run in which a delete reports the volume as deleted although it is retained.

 The policy Delete has been recorded when a stalled claim of an earlier update takes it back; the
 deletion then goes on, the operator retains the volume, and the record decides what is reported.
 */
module StalePolicy {
  import opened Wrappers
  import opened Protocol
  import opened StaleRuns
  import opened StaleReclaim

  const Passing: Spec := Small.(policy := Delete)
  const Lasting: Spec := Small.(policy := Retain)

  function Keep(state: OperationState, lease: Option<Lease>): Operation {
    Plan(Update(Lasting, 0, 1), state, lease, 0, false, None, None)
  }

  function KeepClaim(until: nat, stage: Stage): Claim {
    Claim(1, until, false, false, None, None, stage, None, None, {})
  }

  function Keeping(): State {
    Founded(Passing).(
      operations := Founded(Passing).operations + [Keep(Applying, Some(Lease(1, 30)))],
      claims := Founded(Passing).claims + [KeepClaim(30, Writing)])
  }

  lemma KeepingReached()
    ensures Reached(Keeping())
  {
    hide Reached;
    FoundedReached(Passing);
    Then(Founded(Passing), Admit(AcceptUpdate(Fastened(Passing), Lasting)));
    var s := DoUpdate(Founded(Passing), Fastened(Passing), Lasting);
    Then(s, Take(1));
    assert DoTake(s, 1) == Keeping();
  }

  function Stalled(): State {
    Keeping().(
      now := 31,
      operations := Founded(Passing).operations + [Keep(Faulted, None)],
      claims := Keeping().claims + [KeepClaim(61, Released)],
      history := Keeping().history.(ended := {0, 1}))
  }

  lemma StalledReached()
    ensures Reached(Stalled())
  {
    hide Reached;
    KeepingReached();
    Then(Keeping(), Pass(31));
    var s := Keeping().(now := 31);
    Then(s, Take(1));
    Then(DoTake(s, 1), Work(2, Fail));
    assert DoFail(DoTake(s, 1), 2) == Stalled();
  }

  function Drop(lease: Option<Lease>, attempt: nat, policy: Option<Policy>): Operation {
    Plan(Remove(0), Applying, lease, attempt, false, None, policy)
  }

  function DropClaim(until: nat, policy: Option<Policy>, stage: Stage, answer: Option<Instance>, todo: set<nat>): Claim {
    Claim(2, until, false, false, None, policy, stage, answer, None, todo)
  }

  function Dropping(): State {
    Stalled().(
      lifecycle := Deleting,
      operations := Stalled().operations + [Drop(Some(Lease(3, 61)), 31, None)],
      claims := Stalled().claims + [DropClaim(61, None, ReadingInstance, None, {})])
  }

  lemma DroppingReached()
    ensures Reached(Dropping())
  {
    hide Reached;
    StalledReached();
    Then(Stalled(), Admit(AcceptRemove));
    Then(DoRemove(Stalled()), Take(2));
    assert DoTake(DoRemove(Stalled()), 2) == Dropping();
  }

  function Recorded(): State {
    Dropping().(
      operations := Stalled().operations + [Drop(Some(Lease(3, 61)), 31, Some(Delete))],
      claims := Stalled().claims + [DropClaim(61, None, IssuingDelete, Some(Fastened(Passing)), {})])
  }

  lemma RecordedReached()
    ensures Reached(Recorded())
  {
    hide Reached;
    DroppingReached();
    Then(Dropping(), Work(3, ReadForRemove));
    var s := DoReadForRemove(Dropping(), 3);
    Then(s, Work(3, CapturePolicy));
    assert DoCapturePolicy(s, 3) == Recorded();
  }

  const Saved: Instance := Instance(0, 2, 1, Lasting, None, false, true, None)
  const Parting: Instance := Instance(0, 3, 1, Lasting, None, true, true, None)

  /** The stalled update takes the policy back. */
  function Withdrawn(): State {
    Recorded().(
      claims := Recorded().claims[1 := KeepClaim(30, Waiting)],
      instance := Some(Saved),
      history := Recorded().history.(seen := Recorded().history.seen + {Saved}))
  }

  lemma WithdrawnReached()
    ensures Reached(Withdrawn())
  {
    hide Reached;
    RecordedReached();
    Then(Recorded(), Work(1, Write(true)));
    var s := DoUpdateInstance(Recorded(), 1, true);
    assert s.instance == Some(Saved);
    assert s == Withdrawn();
  }

  function Departing(): State {
    Withdrawn().(
      operations := Stalled().operations + [Drop(None, 33, Some(Delete))],
      claims := Stalled().claims[1 := KeepClaim(30, Waiting)] + [DropClaim(61, None, Released, Some(Fastened(Passing)), {})],
      instance := Some(Parting),
      history := Withdrawn().history.(seen := Withdrawn().history.seen + {Parting}))
  }

  lemma DepartingReached()
    ensures Reached(Departing())
  {
    hide Reached;
    WithdrawnReached();
    Then(Withdrawn(), Work(3, IssueDelete));
    var s := DoIssueDelete(Withdrawn(), 3);
    Then(s, Work(3, Defer));
    assert DoDefer(s, 3) == Departing();
  }

  function Parted(): State {
    Departing().(
      now := 33,
      operations := Stalled().operations + [Drop(Some(Lease(4, 63)), 33, Some(Delete))],
      claims := Departing().claims + [DropClaim(63, Some(Delete), ReadingInstance, None, {})],
      instance := None)
  }

  lemma PartedReached()
    ensures Reached(Parted())
  {
    hide Reached;
    DepartingReached();
    Then(Departing(), Operate(ReleaseInstance));
    var s := Departing().(instance := None);
    Then(s, Pass(2));
    Then(s.(now := 33), Take(2));
    assert DoTake(s.(now := 33), 2) == Parted();
  }

  function Concluding(todo: set<nat>): State {
    Parted().(claims := Departing().claims + [DropClaim(63, Some(Delete), Cleaning, None, todo)], secrets := todo)
  }

  lemma ListedReached()
    ensures Reached(Concluding({0}))
  {
    hide Reached;
    PartedReached();
    Then(Parted(), Work(4, ReadForRemove));
    var s := DoReadForRemove(Parted(), 4);
    Then(s, Work(4, ListCredentials));
    assert DoList(s, 4).claims[4].todo == {0};
    assert DoList(s, 4) == Concluding({0});
  }

  lemma ConcludingReached()
    ensures Reached(Concluding({}))
  {
    hide Reached;
    ListedReached();
    Then(Concluding({0}), Work(4, DropSecret(0)));
    var none: set<nat> := {0} - {0};
    assert none == {};
    assert DoDropSecret(Concluding({0}), 4, 0) == Concluding({});
  }

  /** The delete is about to report the volume as deleted, and the volume is there. */
  lemma DeletedCanLeaveVolume()
    ensures exists s, c ::
      && Reached(s) && MayWork(s, c, Succeed) && Row(s, c).request.Remove?
      && Held(s, c)
      && DoWork(s, c, Succeed).lifecycle.Deleted?
      && s.volume.Some? && s.volume.value.owner == Row(s, c).request.uid && !s.volume.value.deleting
  {
    hide Reached;
    ConcludingReached();
    var s := Concluding({});
    assert MayWork(s, 4, Succeed) && Row(s, 4).request.Remove?;
    assert DoWork(s, 4, Succeed).lifecycle == Deleted;
    assert s.volume == Some(Volume(1, 0, false));
  }
}
