/**
 The control plane of one instance as it is programmed: tables and cluster objects that request
 handlers and workers update in place.  Every method is tied to the step of the state machine it
 performs, and one uninterrupted pass of a worker is shown to be a run of that machine which always
 comes to an end and always lets go of its claim.
 */
module ControlPlane {
  import opened Wrappers
  import opened Protocol
  import P = Protocol
  import Effects
  import Quotas

  /** What a claim must hold at the stage it has reached. */
  predicate Suits(request: Request, claim: Claim) {
    match claim.stage
    case CheckingVolume => request.Reclaim?
    case Sealing => request.Seals()
    case Writing => request.Configures()
    case Binding => request.Configures() && claim.answer.Some?
    case Observing => request.Configures()
    case Approving => request.Reclaim? && claim.answer.Some?
    case Verifying => request.Configures() && claim.answer.Some?
    case ReadingInstance => request.Remove?
    case CapturingPolicy => request.Remove? && claim.answer.Some?
    case IssuingDelete => request.Remove?
    case ReadingVolume => request.RemoveVolume?
    case ConfirmingVolume => request.RemoveVolume?
    case IssuingVolumeDelete => request.RemoveVolume?
    case _ => true
  }

  /** How far a claim still has to go. */
  function Rank(stage: Stage): nat {
    match stage
    case Released => 0
    case Waiting => 1
    case Failing => 1
    case Superseding => 1
    case Cleaning => 2
    case Listing => 3
    case Verifying => 4
    case Approving => 5
    case Binding => 6
    case Writing => 7
    case Observing => 7
    case Sealing => 8
    case CheckingVolume => 9
    case IssuingDelete => 4
    case CapturingPolicy => 5
    case ReadingInstance => 6
    case IssuingVolumeDelete => 4
    case ConfirmingVolume => 5
    case ReadingVolume => 6
  }

  predicate Ready(s: State, c: nat) {
    Claimed(s, c) && Suits(Row(s, c).request, s.claims[c])
  }

  predicate Chosen(claim: Claim, action: Action) {
    match claim.stage
    case CheckingVolume => action.CheckVolume? || action.Fail?
    case Sealing => action.Seal?
    case Writing => action.Write?
    case Binding => action.Bind?
    case Observing => action.Observe?
    case Approving => action.Approve?
    case Verifying => action.Verify?
    case Listing => action.ListCredentials?
    case Cleaning => if claim.todo == {} then action.Succeed? else action.DropSecret? && action.secret in claim.todo
    case Waiting => action.Defer?
    case Failing => action.Fail?
    case Superseding => action.Supersede?
    case Released => false
    case ReadingInstance => action.ReadForRemove?
    case CapturingPolicy => action.CapturePolicy?
    case IssuingDelete => action.IssueDelete?
    case ReadingVolume => action.ReadVolume?
    case ConfirmingVolume => action.ConfirmVolume?
    case IssuingVolumeDelete => action.IssueVolumeDelete? || action.Fail?
  }

  /** The action for the stage: a claim fails only where something failed or its volume is refused, and lets go for later only
      where it has to wait. */
  predicate Prompted(claim: Claim, action: Action, lost: bool, refused: bool) {
    && Chosen(claim, action)
    && (action.Fail? <==> claim.stage.Failing? || (refused && (claim.stage.CheckingVolume? || claim.stage.IssuingVolumeDelete?)))
    && (action.Defer? <==> claim.stage.Waiting?)
    && (action.Write? ==> action.lost == lost) && (action.Approve? ==> action.lost == lost)
  }

  predicate DiligentAt(s: State, steps: seq<Step>, i: nat, c: nat, lost: bool, refused: bool)
    requires i < |steps| && Run(s, steps[..i])
  {
    var t := After(s, steps[..i]);
    steps[i].Pass? || (steps[i].Work? && steps[i].c == c && c < |t.claims| && Prompted(t.claims[c], steps[i].action, lost, refused))
  }

  /** Nothing happens but that time passes and the claim does what is next. */
  ghost predicate Diligent(s: State, steps: seq<Step>, c: nat, lost: bool, refused: bool)
    requires Run(s, steps)
  {
    forall i | 0 <= i < |steps| && Run(s, steps[..i]) :: DiligentAt(s, steps, i, c, lost, refused)
  }

  lemma MoreDiligent(s: State, steps: seq<Step>, step: Step, c: nat, lost: bool, refused: bool)
    requires Run(s, steps) && Diligent(s, steps, c, lost, refused) && Run(s, steps + [step])
    requires
      var t := After(s, steps);
      step.Pass? || (step.Work? && step.c == c && c < |t.claims| && Prompted(t.claims[c], step.action, lost, refused))
    ensures Diligent(s, steps + [step], c, lost, refused)
  {
    var more := steps + [step];
    hide Run, After, Prompted;
    forall i | 0 <= i < |more| && Run(s, more[..i]) ensures DiligentAt(s, more, i, c, lost, refused) {
      if i < |steps| {
        assert more[..i] == steps[..i];
        assert DiligentAt(s, steps, i, c, lost, refused);
      } else {
        assert more[..i] == steps;
      }
    }
  }

  /** What one pass does under a gate. */
  ghost predicate Passed(s: State, steps: seq<Step>, c: nat, gate: Gate, lost: bool, refused: bool)
    requires Run(s, steps) && Claimed(s, c)
  {
    if gate.Expired? then steps == [Work(c, Fail)]
    else if gate.QuotaPending? && Row(s, c).request.Configures() then steps == [Work(c, Action.Defer)]
    else Diligent(s, steps, c, lost, refused)
  }

  lemma Possible(s: State, c: nat, action: Action)
    requires Ready(s, c) && Chosen(s.claims[c], action)
    ensures MayWork(s, c, action)
  {
  }

  predicate Advanced(s: State, t: State, c: nat)
    requires c < |s.claims|
  {
    && |t.claims| == |s.claims| && Ready(t, c) && t.claims[c].operation == s.claims[c].operation
    && (Rank(t.claims[c].stage) < Rank(s.claims[c].stage) ||
        (t.claims[c].stage == s.claims[c].stage && |t.claims[c].todo| < |s.claims[c].todo|))
  }

  lemma CreateAdvances(s: State, c: nat, lost: bool)
    requires Ready(s, c) && At(s, c, Writing) && Row(s, c).request.Provisions()
    ensures Advanced(s, DoCreateInstance(s, c, lost), c)
  {
  }

  lemma UpdateAdvances(s: State, c: nat, lost: bool)
    requires Ready(s, c) && At(s, c, Writing) && Row(s, c).request.Edits()
    ensures Advanced(s, DoUpdateInstance(s, c, lost), c)
  {
    UpdateMoves(s, c, lost);
    hide DoUpdateInstance;
  }

  lemma UpdateMoves(s: State, c: nat, lost: bool)
    requires At(s, c, Writing) && Row(s, c).request.Edits()
    ensures
      var t := DoUpdateInstance(s, c, lost);
      && t.operations == s.operations && |t.claims| == |s.claims| && t.claims[c].operation == s.claims[c].operation
      && (t.claims[c].stage.Waiting? || t.claims[c].stage.Failing? || t.claims[c].stage.Superseding? ||
          (t.claims[c].stage.Binding? && t.claims[c].answer.Some?))
  {
  }

  lemma WriteAdvances(s: State, c: nat, lost: bool)
    requires Ready(s, c) && At(s, c, Writing)
    ensures Advanced(s, DoWrite(s, c, lost), c)
  {
    hide Advanced, DoCreateInstance, DoUpdateInstance;
    if Row(s, c).request.Provisions() { CreateAdvances(s, c, lost); } else { UpdateAdvances(s, c, lost); }
  }

  lemma ApproveAdvances(s: State, c: nat, lost: bool)
    requires Ready(s, c) && At(s, c, Approving)
    ensures Advanced(s, DoApprove(s, c, lost), c)
  {
  }

  lemma DropAdvances(s: State, c: nat, secret: nat)
    requires Ready(s, c) && At(s, c, Cleaning) && secret in s.claims[c].todo
    ensures Advanced(s, DoDropSecret(s, c, secret), c)
  {
    var t := DoDropSecret(s, c, secret);
    assert |t.claims[c].todo| == |s.claims[c].todo| - 1;
  }

  lemma EndAdvances(s: State, c: nat, action: Action)
    requires Ready(s, c) && Chosen(s.claims[c], action) && (action.Succeed? || action.Fail? || action.Supersede? || action.Defer?)
    requires MayWork(s, c, action)
    ensures Advanced(s, DoWork(s, c, action), c)
  {
  }

  lemma RemoveAdvances(s: State, c: nat, action: Action)
    requires Ready(s, c) && Chosen(s.claims[c], action)
    requires action.ReadForRemove? || action.CapturePolicy? || action.IssueDelete?
    requires MayWork(s, c, action)
    ensures Advanced(s, DoWork(s, c, action), c)
  {
  }

  lemma RemoveVolumeAdvances(s: State, c: nat, action: Action)
    requires Ready(s, c) && Chosen(s.claims[c], action)
    requires action.ReadVolume? || action.ConfirmVolume? || action.IssueVolumeDelete?
    requires MayWork(s, c, action)
    ensures Advanced(s, DoWork(s, c, action), c)
  {
    if action.ReadVolume? { ReadVolumeAdvances(s, c); }
  }

  lemma ReadVolumeAdvances(s: State, c: nat)
    requires Ready(s, c) && At(s, c, ReadingVolume)
    ensures Advanced(s, DoReadVolume(s, c), c)
  {
  }

  lemma ConfigureAdvances(s: State, c: nat, action: Action)
    requires Ready(s, c) && Chosen(s.claims[c], action)
    requires action.CheckVolume? || action.Seal? || action.Bind? || action.Observe? || action.Verify? || action.ListCredentials?
    requires MayWork(s, c, action)
    ensures Advanced(s, DoWork(s, c, action), c)
  {
    hide DoBind, DoObserve, Advanced;
    if action.Bind? { BindAdvances(s, c); }
    else if action.Observe? { ObserveAdvances(s, c); }
    else { ReadAdvances(s, c, action); }
  }

  lemma BindAdvances(s: State, c: nat)
    requires Ready(s, c) && At(s, c, Binding)
    ensures Advanced(s, DoBind(s, c), c)
  {
  }

  lemma ObserveAdvances(s: State, c: nat)
    requires Ready(s, c) && At(s, c, Observing)
    ensures Advanced(s, DoObserve(s, c), c)
  {
  }

  lemma ReadAdvances(s: State, c: nat, action: Action)
    requires Ready(s, c) && Chosen(s.claims[c], action) && MayWork(s, c, action)
    requires action.CheckVolume? || action.Seal? || action.Verify? || action.ListCredentials?
    ensures Advanced(s, DoWork(s, c, action), c)
  {
  }

  /** The chosen action is possible, brings the claim closer to its end and keeps it fit for the next one. */
  lemma Progress(s: State, c: nat, action: Action)
    requires Ready(s, c) && Chosen(s.claims[c], action)
    ensures MayWork(s, c, action)
    ensures Advanced(s, DoWork(s, c, action), c)
  {
    Possible(s, c, action);
    hide Advanced, Ready, DoWrite, DoApprove, DoDropSecret;
    match action {
      case Write(lost) => WriteAdvances(s, c, lost);
      case Approve(lost) => ApproveAdvances(s, c, lost);
      case DropSecret(secret) => DropAdvances(s, c, secret);
      case Succeed => EndAdvances(s, c, action);
      case Fail => EndAdvances(s, c, action);
      case Supersede => EndAdvances(s, c, action);
      case Defer => EndAdvances(s, c, action);
      case ReadForRemove => RemoveAdvances(s, c, action);
      case CapturePolicy => RemoveAdvances(s, c, action);
      case IssueDelete => RemoveAdvances(s, c, action);
      case ReadVolume => RemoveVolumeAdvances(s, c, action);
      case ConfirmVolume => RemoveVolumeAdvances(s, c, action);
      case IssueVolumeDelete => RemoveVolumeAdvances(s, c, action);
      case _ => ConfigureAdvances(s, c, action);
    }
  }

  /** The operation of the claim has not ended. */
  predicate Underway(s: State, c: nat) {
    Claimed(s, c) && (Row(s, c).state.Applying? || Row(s, c).state.Reconciling?)
  }

  /** Until a claim lets go its operation is underway; when it lets go it holds no lease any more, whether it gave the lease back
      or the lease had run out. */
  lemma LeaseKept(s: State, c: nat, action: Action)
    requires Ready(s, c) && Chosen(s.claims[c], action) && Underway(s, c)
    requires MayWork(s, c, action)
    ensures Claimed(DoWork(s, c, action), c)
    ensures if DoWork(s, c, action).claims[c].stage.Released? then !Leased(DoWork(s, c, action), c)
            else Underway(DoWork(s, c, action), c)
  {
    hide DoWork, MayWork, Ready;
    if Effects.Ends(action) { LeaseEnds(s, c, action); }
    else if Effects.Removes(action) { RemoveStays(s, c, action); }
    else { ConfigureStays(s, c, action); }
  }

  lemma LeaseEnds(s: State, c: nat, action: Action)
    requires MayWork(s, c, action) && Effects.Ends(action) && Underway(s, c)
    ensures Claimed(DoWork(s, c, action), c)
    ensures DoWork(s, c, action).claims[c].stage.Released? && !Leased(DoWork(s, c, action), c)
  {
  }

  lemma RemoveStays(s: State, c: nat, action: Action)
    requires MayWork(s, c, action) && Effects.Removes(action) && Underway(s, c)
    ensures Staying(DoWork(s, c, action), c)
  {
  }

  lemma ConfigureStays(s: State, c: nat, action: Action)
    requires MayWork(s, c, action) && !Effects.Ends(action) && !Effects.Removes(action) && Underway(s, c)
    ensures Staying(DoWork(s, c, action), c)
  {
    hide DoCreateInstance, DoUpdateInstance, DoApprove;
    if action.Write? && Row(s, c).request.Provisions() { CreateStays(s, c, action.lost); }
    if action.Write? && Row(s, c).request.Edits() { UpdateStays(s, c, action.lost); }
    if action.Approve? { ApproveStays(s, c, action.lost); }
  }

  predicate Staying(s: State, c: nat) {
    Underway(s, c) && !s.claims[c].stage.Released?
  }

  lemma CreateStays(s: State, c: nat, lost: bool)
    requires At(s, c, Writing) && Row(s, c).request.Provisions() && Underway(s, c)
    ensures Staying(DoCreateInstance(s, c, lost), c)
  {
  }

  lemma UpdateStays(s: State, c: nat, lost: bool)
    requires At(s, c, Writing) && Row(s, c).request.Edits() && Underway(s, c)
    ensures Staying(DoUpdateInstance(s, c, lost), c)
  {
  }

  lemma ApproveStays(s: State, c: nat, lost: bool)
    requires MayWork(s, c, Approve(lost)) && Underway(s, c)
    ensures Staying(DoApprove(s, c, lost), c)
  {
  }

  /** What stands before a claimed operation: its deadline, and the project quota for everything that configures. */
  datatype Gate = Open | Expired | QuotaPending

  /** The volume as a reclaim finds it: `ready` stands for its phase and class, `storage` for the larger of its capacities. */
  datatype Retained = Retained(uid: Uid, deleting: bool, ready: bool, storage: nat)

  /** What a reclaim has read before its transaction. */
  datatype Prepared = Prepared(lifecycle: Lifecycle, uid: Option<Uid>, reserved: Resources, volume: Option<Retained>, objectExists: bool)

  predicate Eligible(read: Prepared, desired: P.Spec, volume: Uid) {
    && (read.lifecycle == Detached || read.lifecycle == Failed) && read.uid.Some?
    && read.volume.Some? && read.volume.value.uid == volume && !read.volume.value.deleting && read.volume.value.ready
    && read.volume.value.storage <= desired.resources.storage
    && !read.objectExists
  }

  datatype Handover = Transferred | Kept | Missing | Changed | Unfit | Foreign | BindingPending | InUse | InvalidIdentity

  class Plane {
    var now: nat
    var lifecycle: Lifecycle
    var uid: Option<Uid>
    var reserved: Resources
    var operations: seq<Operation>
    var credentials: seq<nat>
    var claims: seq<Claim>
    var instance: Option<Instance>
    var volume: Option<Volume>
    var secrets: set<nat>
    var nextUid: Uid
    var history: History

    /** The state of the machine the fields stand for. */
    function View(): State
      reads this
    {
      State(now, lifecycle, uid, reserved, operations, credentials, claims, instance, volume, secrets, nextUid, history)
    }

    constructor ()
      ensures View() == Initial
    {
      now, lifecycle, uid, reserved := 0, Absent, None, Resources(0, 0, 0);
      operations, credentials, claims := [], [], [];
      instance, volume, secrets, nextUid := None, None, {}, 0;
      history := History({}, {}, map[], {}, {});
    }

    // ----- Requests

    method InsertOperation(request: Request)
      modifies this`operations
      ensures View() == Accept(old(View()), request)
    {
      operations := operations + [NewOperation(request, now)];
    }

    method IsIdle() returns (idle: bool)
      ensures idle <==> Idle(View())
    {
      for i := 0 to |operations|
        invariant forall j | 0 <= j < i :: !operations[j].Running()
      {
        if operations[i].Running() { return false; }
      }
      return true;
    }

    /** What the quota counts: the other bindings of the project and this one. */
    function Counted(others: seq<Quotas.Row>): seq<Quotas.Row>
      reads this
    {
      others + [Quotas.RowOf(View())]
    }

    /** The reservation is raised to cover the request, never lowered, and then the totals are checked. */
    method ReserveResources(input: Resources, others: seq<Quotas.Row>, limits: Quotas.Limits) returns (fits: bool)
      modifies this`reserved
      ensures View() == old(View()).(reserved := old(reserved).Raise(input))
      ensures reserved.Covers(input) && reserved.Covers(old(reserved))
      ensures forall r: Resources | r.Covers(input) && r.Covers(old(reserved)) :: r.Covers(reserved)
      ensures fits <==> Quotas.Passes(limits, Counted(others))
    {
      reserved := Resources(Max(reserved.storage, input.storage), Max(reserved.cpu, input.cpu), Max(reserved.memory, input.memory));
      var verdict := Quotas.CheckQuota(limits, others + [Quotas.RowOf(View())]);
      fits := verdict.Fits?;
    }

    /** A transaction that ends with totals above the limits is rolled back. */
    method PostInstance(desired: P.Spec, others: seq<Quotas.Row>, limits: Quotas.Limits) returns (accepted: bool)
      modifies this
      ensures accepted <==>
        CanCreate(old(View()), desired) && Quotas.Passes(limits, others + [Quotas.RowOf(DoCreate(old(View()), desired))])
      ensures View() == if accepted then DoCreate(old(View()), desired) else old(View())
    {
      if |operations| != 0 || lifecycle != Absent || desired.reclaim.Some? || desired.secret != 0 { return false; }
      var before, stored := lifecycle, reserved;
      lifecycle := Provisioning;
      var fits := ReserveResources(desired.resources, others, limits);
      if !fits { lifecycle, reserved := before, stored; return false; }
      credentials := credentials + [0];
      InsertOperation(Create(desired));
      return true;
    }

    /** `read` is what the handler read from the cluster before its transaction. */
    method PutInstance(read: Instance, desired: P.Spec, others: seq<Quotas.Row>, limits: Quotas.Limits) returns (accepted: bool)
      requires read in history.seen && read.uid in history.bound
      requires desired.secret == read.spec.secret && desired.reclaim == read.spec.reclaim
      modifies this
      ensures accepted <==>
        CanUpdate(old(View()), read, desired) && Quotas.Passes(limits, others + [Quotas.RowOf(DoUpdate(old(View()), read, desired))])
      ensures View() == if accepted then DoUpdate(old(View()), read, desired) else old(View())
    {
      if read.deleting || uid.None? { return false; }
      if desired.resources.storage < read.spec.resources.storage { return false; }
      var idle := IsIdle();
      if !idle || lifecycle == Deleted || lifecycle == Detached { return false; }
      var stored := reserved;
      var fits := ReserveResources(desired.resources, others, limits);
      if !fits { reserved := stored; return false; }
      InsertOperation(Update(desired, read.uid, read.generation));
      return true;
    }

    method PostRotation(read: Instance) returns (accepted: bool)
      requires read in history.seen && read.uid in history.bound
      modifies this
      ensures accepted <==> CanEdit(old(View()), read)
      ensures View() == if accepted then DoRotate(old(View()), read) else old(View())
    {
      var idle := IsIdle();
      if read.deleting || uid.None? || !idle { return false; }
      var secret := |operations|;
      InsertOperation(Rotate(read.spec.(secret := secret), read.uid, read.generation, read.marker));
      credentials := credentials + [secret];
      return true;
    }

    /** A reclaim prepared from earlier reads of the binding, the volume and the object; the transaction compares the binding. */
    method PostReclaim(read: Prepared, desired: P.Spec, volume: Uid, others: seq<Quotas.Row>, limits: Quotas.Limits) returns (accepted: bool)
      requires read.volume.Some? ==> read.volume.value.uid < nextUid
      requires read.uid.Some? ==> desired.reclaim == Some(ReclaimRef(read.uid.value, volume))
      requires desired.secret == |operations|
      modifies this
      ensures accepted <==>
        && Eligible(read, desired, volume) && read.uid == old(uid) && read.reserved == old(reserved)
        && CanReclaim(old(View()), desired, volume)
        && Quotas.Passes(limits, others + [Quotas.RowOf(DoReclaim(old(View()), desired, volume))])
      ensures View() == if accepted then DoReclaim(old(View()), desired, volume) else old(View())
    {
      if (read.lifecycle != Detached && read.lifecycle != Failed) || read.uid.None? { return false; }
      if read.volume.None? || read.volume.value.uid != volume || read.volume.value.deleting || !read.volume.value.ready { return false; }
      if desired.resources.storage < read.volume.value.storage || desired.resources.storage < read.reserved.storage { return false; }
      if read.objectExists { return false; }
      var idle := IsIdle();
      if (lifecycle != Detached && lifecycle != Failed) || uid != read.uid || reserved != read.reserved || !idle { return false; }
      var before, stored := lifecycle, reserved;
      lifecycle := Provisioning;
      var fits := ReserveResources(desired.resources, others, limits);
      if !fits { lifecycle, reserved := before, stored; return false; }
      credentials := credentials + [desired.secret];
      InsertOperation(Reclaim(desired, uid.value, volume));
      return true;
    }

    method DeleteInstance() returns (accepted: bool)
      modifies this
      ensures accepted <==> CanRemove(old(View()))
      ensures View() == if accepted then DoRemove(old(View())) else old(View())
    {
      var idle := IsIdle();
      if uid.None? || lifecycle == Deleted || lifecycle == Detached || !idle { return false; }
      InsertOperation(Request.Remove(uid.value));
      lifecycle := Deleting;
      return true;
    }

    method DeleteVolume(volume: Uid) returns (accepted: bool)
      modifies this
      ensures accepted <==> CanRemoveVolume(old(View()))
      ensures View() == if accepted then DoRemoveVolume(old(View()), volume) else old(View())
    {
      var idle := IsIdle();
      if uid.None? || (lifecycle != Detached && lifecycle != Failed) || !idle { return false; }
      InsertOperation(Request.RemoveVolume(uid.value, volume));
      return true;
    }

    method Retry() returns (accepted: bool)
      modifies this
      ensures accepted <==> CanRetry(old(View()))
      ensures View() == if accepted then DoRetry(old(View())) else old(View())
    {
      if operations == [] { return false; }
      var op := |operations| - 1;
      var row := operations[op];
      var deleting := row.request.Remove?;
      var recovering := row.request.Provisions() && row.target.None?;
      if !row.state.Faulted? || (!deleting && !recovering && (!row.request.Configures() || row.target.None?)) { return false; }
      if !recovering && uid.None? { return false; }
      if deleting {
        if lifecycle != Deleting || uid != Some(row.request.uid) { return false; }
      } else if lifecycle == Deleting || lifecycle == Deleted || lifecycle == Detached {
        return false;
      }
      operations := operations[op := row.(state := Reconciling, lease := None, nextAttempt := now)];
      if row.request.Provisions() { lifecycle := Provisioning; }
      return true;
    }

    // ----- Worker transactions

    /** The oldest operation that is due and not leased. */
    method Due() returns (op: Option<nat>)
      ensures op.Some? ==> CanTake(View(), op.value) && forall i | 0 <= i < op.value :: !CanTake(View(), i)
      ensures op.None? ==> forall i | 0 <= i < |operations| :: !CanTake(View(), i)
    {
      for i := 0 to |operations|
        invariant forall j | 0 <= j < i :: !CanTake(View(), j)
      {
        var row := operations[i];
        if row.Running() && row.nextAttempt <= now && (row.lease.None? || row.lease.value.until < now) { return Some(i); }
      }
      return None;
    }

    method Lock(op: nat) returns (c: nat)
      requires CanTake(View(), op)
      modifies this
      ensures View() == DoTake(old(View()), op) && c == |old(claims)|
    {
      var row := operations[op];
      if row.state.Pending? { row := row.(state := Applying); }
      c := |claims|;
      row := row.(lease := Some(Lease(c, now + LEASE_SECONDS)));
      operations := operations[op := row];
      claims := claims + [Claim(op, now + LEASE_SECONDS, op in history.ended, row.payload, row.target, row.policy,
                                FirstStage(row.request, row.state), None, None, {})];
    }
  
    method Held(c: nat) returns (held: bool)
      requires Claimed(View(), c)
      ensures held <==> P.Held(View(), c)
    {
      var row := operations[claims[c].operation];
      held := row.lease.Some? && row.lease.value.worker == c && now < row.lease.value.until && (row.state.Applying? || row.state.Reconciling?);
    }

    method Move(c: nat, stage: Stage)
      requires c < |claims|
      modifies this`claims
      ensures View() == SetStage(old(View()), c, stage)
    {
      claims := claims[c := claims[c].(stage := stage)];
    }

    method Finish(c: nat, state: OperationState, lifecycle': Lifecycle, settled: Option<Resources>)
      requires Claimed(View(), c)
      modifies this
      ensures View() == P.Finish(old(View()), c, state, lifecycle',
                                 if settled.Some? then Settle(old(reserved), settled.value) else old(reserved))
    {
      hide Resources.Covers, Max, Settle;
      var held := Held(c);
      if held {
        var op := claims[c].operation;
        lifecycle := lifecycle';
        if settled.Some? { SettleResources(settled.value); }
        operations := operations[op := operations[op].(state := state, lease := None, payload := false)];
        history := history.(ended := history.ended + {op});
      }
      Move(c, Released);
    }

    /** Storage never shrinks: an earlier expansion may already exist in the volume. */
    method SettleResources(desired: Resources)
      modifies this`reserved
      ensures View() == old(View()).(reserved := Settle(old(reserved), desired))
      ensures reserved.Covers(desired) && old(reserved).storage <= reserved.storage
      ensures old(reserved).Covers(desired) ==> old(reserved).Covers(reserved)
    {
      reserved := Resources(Max(reserved.storage, desired.storage), desired.cpu, desired.memory);
    }

    method Defer(c: nat)
      requires Claimed(View(), c)
      modifies this
      ensures View() == DoDefer(old(View()), c)
    {
      var op := claims[c].operation;
      var row := operations[op];
      if row.lease.Some? && row.lease.value.worker == c && now < row.lease.value.until {
        operations := operations[op := row.(lease := None, nextAttempt := now + RETRY_SECONDS)];
      }
      Move(c, Released);
    }

    method Bind(c: nat)
      requires MayWork(View(), c, Action.Bind)
      modifies this
      ensures View() == DoBind(old(View()), c)
    {
      var op := claims[c].operation;
      var row := operations[op];
      var object' := claims[c].answer.value;
      var held := Held(c);
      if !held { Move(c, Failing); return; }
      if uid.Some? && uid.value != object'.uid && !(row.request.Reclaim? && uid.value == row.request.previous) {
        Move(c, Failing);
        return;
      }
      uid := Some(object'.uid);
      history := history.(bound := history.bound + {object'.uid}, boundBy := history.boundBy[op := object']);
      operations := operations[op := row.(state := Reconciling, target := Some(object'.generation))];
      claims := claims[c := claims[c].(stage := AfterIdentity(row.request), target := Some(object'.generation))];
    }

    // ----- Kubernetes calls

    method CreateInstance(c: nat, lost: bool)
      requires MayWork(View(), c, Write(lost)) && Row(View(), c).request.Provisions()
      modifies this
      ensures View() == DoCreateInstance(old(View()), c, lost)
    {
      var op := claims[c].operation;
      var desired := operations[op].request.desired;
      if instance.Some? {
        if instance.value.operation != op { Move(c, Failing); return; }
        if instance.value.spec != desired || instance.value.deleting { Move(c, Superseding); return; }
      } else {
        instance := Some(Instance(nextUid, 1, op, desired, None, false, false, None));
        history := history.(seen := history.seen + {instance.value});
        nextUid := nextUid + 1;
      }
      Answer(c, instance.value, lost);
    }

    method Answer(c: nat, answer: Instance, lost: bool)
      requires c < |claims|
      modifies this`claims
      ensures View() == Answered(old(View()), c, answer, lost)
    {
      if lost { Move(c, Waiting); } else { claims := claims[c := claims[c].(stage := Binding, answer := Some(answer))]; }
    }

    method UpdateInstance(c: nat, lost: bool)
      requires MayWork(View(), c, Write(lost)) && Row(View(), c).request.Edits()
      modifies this
      ensures View() == DoUpdateInstance(old(View()), c, lost)
    {
      var op := claims[c].operation;
      var request := operations[op].request;
      if instance.None? || instance.value.deleting || instance.value.uid != request.expectedUid { Move(c, Failing); return; }
      var current := instance.value;
      if current.operation == op {
        if current.spec != request.desired { Move(c, Superseding); return; }
      } else {
        if current.generation != request.expectedGeneration { Move(c, Superseding); return; }
        if current.spec != request.desired { current := current.(generation := current.generation + 1, spec := request.desired); }
        if request.Rotate? && request.marker.Some? { current := current.(marker := request.marker); }
        current := current.(operation := op);
        instance := Some(current);
        history := history.(seen := history.seen + {current});
      }
      Answer(c, current, lost);
    }

    method ApproveRetainedVolumeReclaim(c: nat, lost: bool)
      requires MayWork(View(), c, Approve(lost))
      modifies this
      ensures View() == DoApprove(old(View()), c, lost)
    {
      var op := claims[c].operation;
      var request := operations[op].request;
      var expected := claims[c].answer.value.uid;
      if request.desired.reclaim != Some(ReclaimRef(request.previous, request.volume)) { Move(c, Failing); return; }
      if instance.None? || instance.value.uid != expected || instance.value.deleting || instance.value.operation != op ||
         instance.value.spec != request.desired { Move(c, Failing); return; }
      if instance.value.marker == Some(expected) { Move(c, Verifying); return; }
      if instance.value.marker.Some? { Move(c, Failing); return; }
      instance := Some(instance.value.(marker := Some(expected)));
      history := history.(seen := history.seen + {instance.value}, marked := history.marked + {expected});
      Move(c, if lost then Waiting else Verifying);
    }

    method DeleteObject(c: nat)
      requires MayWork(View(), c, IssueDelete)
      modifies this
      ensures View() == DoIssueDelete(old(View()), c)
    {
      if instance.Some? {
        if instance.value.uid != operations[claims[c].operation].request.uid { Move(c, Failing); return; }
        if !instance.value.finalizer {
          instance := None;
        } else if !instance.value.deleting {
          instance := Some(instance.value.(deleting := true, generation := instance.value.generation + 1));
          history := history.(seen := history.seen + {instance.value});
        }
      }
      Move(c, Waiting);
    }

    method DeleteRetainedVolume(c: nat)
      requires MayWork(View(), c, IssueVolumeDelete)
      modifies this
      ensures View() == DoIssueVolumeDelete(old(View()), c)
    {
      if volume.Some? {
        if volume != claims[c].volume { Move(c, Failing); return; }
        volume := Some(volume.value.(deleting := true));
      }
      Move(c, Waiting);
    }

    // ----- The operator

    /** Taking the retained volume over for `read`, the version this reconciliation began with; `fits` stands for its class, access
        mode, phase and capacity, `used` for Pods that still refer to it. */
    method ReclaimVolume(read: Instance, fits: bool, used: bool) returns (outcome: Handover)
      requires Reconcilable(View(), read) && read.spec.reclaim.Some?
      modifies this`volume
      ensures outcome.Transferred? <==> CanTransfer(old(View()), read) && fits && !used
      ensures View() == if outcome.Transferred? then DoTransfer(old(View()), read) else old(View())
      ensures outcome.Kept? ==> volume.Some? && volume.value.owner == read.uid && read.marker == Some(read.uid)
      ensures outcome.BindingPending? ==> read.marker != Some(read.uid)
    {
      var claim := read.spec.reclaim.value;
      if claim.previous == read.uid { return InvalidIdentity; }
      if volume.None? { return Missing; }
      if volume.value.uid != claim.volume || volume.value.deleting { return Changed; }
      if !fits { return Unfit; }
      if volume.value.owner != read.uid && volume.value.owner != claim.previous { return Foreign; }
      if read.marker != Some(read.uid) { return BindingPending; }
      if volume.value.owner == read.uid { return Kept; }
      if used { return InUse; }
      volume := Some(volume.value.(owner := read.uid));
      return Transferred;
    }

    // ----- One worker pass

    method Observe(c: nat)
      requires MayWork(View(), c, Action.Observe)
      modifies this`claims
      ensures View() == DoObserve(old(View()), c)
    {
      var claim := claims[c];
      var request := operations[claim.operation].request;
      if instance.None? { Move(c, Failing); return; }
      var current := instance.value;
      if request.Provisions() && claim.target.None? {
        if current.deleting || current.operation != claim.operation || current.spec != request.desired { Move(c, Failing); return; }
        claims := claims[c := claim.(stage := Binding, answer := Some(current))];
      } else {
        claims := claims[c := claim.(stage := AfterIdentity(request), answer := Some(current))];
      }
    }

    method Verify(c: nat)
      requires MayWork(View(), c, Action.Verify)
      modifies this`claims
      ensures View() == DoVerify(old(View()), c)
    {
      var claim := claims[c];
      var object' := claim.answer.value;
      var request := operations[claim.operation].request;
      if uid != Some(object'.uid) { Move(c, Failing); return; }
      if claim.target != Some(object'.generation) || object'.operation != claim.operation { Move(c, Superseding); return; }
      if object'.ready != Some(object'.generation) { Move(c, Waiting); return; }
      Move(c, if request.Rotate? || request.Reclaim? then Listing else Cleaning);
    }

    method ListCredentials(c: nat)
      requires MayWork(View(), c, Action.ListCredentials)
      modifies this`claims
      ensures View() == DoList(old(View()), c)
    {
      var request := operations[claims[c].operation].request;
      var todo := {};
      if request.Configures() {
        if request.desired.secret in credentials {
          var revision := RevisionOf(credentials, request.desired.secret);
          todo := set i | 0 <= i < |credentials| && i < revision :: credentials[i];
        }
      } else {
        todo := set secret | secret in credentials;
      }
      claims := claims[c := claims[c].(stage := Cleaning, todo := todo)];
    }

    method Conclude(c: nat, action: Action)
      requires MayWork(View(), c, action) && (action.Succeed? || action.Fail? || action.Supersede? || action.Defer?)
      modifies this
      ensures View() == DoWork(old(View()), c, action)
    {
      var request := operations[claims[c].operation].request;
      match action {
        case Succeed =>
          Finish(c, Succeeded, LifecycleAfter(request, claims[c].policy),
                 if request.Reserves() then Some(request.desired.resources) else None);
        case Fail => Finish(c, Faulted, if request.Provisions() then Lifecycle.Failed else lifecycle, None);
        case Supersede => Finish(c, Superseded, lifecycle, None);
        case Defer => Defer(c);
      }
    }

    method Provision(c: nat, action: Action)
      requires MayWork(View(), c, action) && (action.CheckVolume? || action.Seal?)
      modifies this
      ensures View() == DoWork(old(View()), c, action)
    {
      var request := operations[claims[c].operation].request;
      if action.CheckVolume? {
        var found := volume.Some? && volume.value.owner == request.previous && volume.value.uid == request.volume && !volume.value.deleting;
        Move(c, if found then Sealing else Failing);
      } else if !claims[c].payload {
        Move(c, Failing);
      } else {
        secrets := secrets + {request.desired.secret};
        Move(c, Writing);
      }
    }

    method Remove(c: nat, action: Action)
      requires MayWork(View(), c, action) && (action.ReadForRemove? || action.CapturePolicy?)
      modifies this
      ensures View() == DoWork(old(View()), c, action)
    {
      var op := claims[c].operation;
      if action.CapturePolicy? {
        var row := operations[op];
        if row.lease.Some? && row.lease.value.worker == c && now < row.lease.value.until {
          operations := operations[op := row.(policy := Some(claims[c].answer.value.spec.policy))];
        }
        Move(c, IssuingDelete);
      } else if instance.None? {
        Move(c, Listing);
      } else if instance.value.uid != operations[op].request.uid {
        Move(c, Failing);
      } else if claims[c].policy.Some? && claims[c].policy.value != instance.value.spec.policy {
        Move(c, Failing);
      } else {
        claims := claims[c := claims[c].(stage := CapturingPolicy, answer := instance)];
      }
    }

    method RemoveVolume(c: nat, action: Action)
      requires MayWork(View(), c, action) && (action.ReadVolume? || action.ConfirmVolume?)
      modifies this`claims
      ensures View() == DoWork(old(View()), c, action)
    {
      var request := operations[claims[c].operation].request;
      if action.ConfirmVolume? {
        Move(c, if instance.Some? then Failing else IssuingVolumeDelete);
      } else if (lifecycle != Detached && lifecycle != Failed) || uid != Some(request.owner) {
        Move(c, Failing);
      } else if volume.None? {
        Move(c, Cleaning);
      } else if volume.value.owner != request.owner || volume.value.uid != request.volume {
        Move(c, Failing);
      } else {
        claims := claims[c := claims[c].(stage := ConfirmingVolume, volume := volume)];
      }
    }

    /** The next action of a claim; `lost` says whether answers to writes get lost, `refused` whether the volume is rejected for
        its class or phase, or for Pods that use it. */
    method Choose(c: nat, lost: bool, refused: bool) returns (action: Action)
      requires Ready(View(), c) && !claims[c].stage.Released?
      ensures Prompted(claims[c], action, lost, refused)
    {
      match claims[c].stage {
        case CheckingVolume => action := if refused then Fail else CheckVolume;
        case Sealing => action := Seal;
        case Writing => action := Write(lost);
        case Binding => action := Action.Bind;
        case Observing => action := Action.Observe;
        case Approving => action := Approve(lost);
        case Verifying => action := Action.Verify;
        case Listing => action := Action.ListCredentials;
        case Cleaning =>
          if claims[c].todo == {} { action := Succeed; } else { var secret :| secret in claims[c].todo; action := DropSecret(secret); }
        case Waiting => action := Action.Defer;
        case Failing => action := Fail;
        case Superseding => action := Supersede;
        case ReadingInstance => action := ReadForRemove;
        case CapturingPolicy => action := CapturePolicy;
        case IssuingDelete => action := IssueDelete;
        case ReadingVolume => action := ReadVolume;
        case ConfirmingVolume => action := ConfirmVolume;
        case IssuingVolumeDelete => action := if refused then Fail else IssueVolumeDelete;
      }
    }

    method Perform(c: nat, action: Action)
      requires MayWork(View(), c, action)
      modifies this
      ensures View() == DoWork(old(View()), c, action)
    {
      match action {
        case CheckVolume => Provision(c, action);
        case Seal => Provision(c, action);
        case Write(lost) =>
          if operations[claims[c].operation].request.Provisions() { CreateInstance(c, lost); } else { UpdateInstance(c, lost); }
        case Bind => Bind(c);
        case Observe => Observe(c);
        case Approve(lost) => ApproveRetainedVolumeReclaim(c, lost);
        case Verify => Verify(c);
        case ListCredentials => ListCredentials(c);
        case DropSecret(secret) =>
          secrets := secrets - {secret};
          claims := claims[c := claims[c].(todo := claims[c].todo - {secret})];
        case Succeed => Conclude(c, action);
        case Fail => Conclude(c, action);
        case Supersede => Conclude(c, action);
        case Defer => Conclude(c, action);
        case ReadForRemove => Remove(c, action);
        case CapturePolicy => Remove(c, action);
        case IssueDelete => DeleteObject(c);
        case ReadVolume => RemoveVolume(c, action);
        case ConfirmVolume => RemoveVolume(c, action);
        case IssueVolumeDelete => DeleteRetainedVolume(c);
      }
    }
  
    /** One pass over a claimed operation, without interruption. */
    method Execute(c: nat, gate: Gate, lost: bool, refused: bool, pauses: nat -> nat) returns (ghost steps: seq<Step>)
      requires Ready(View(), c) && Underway(View(), c) && !claims[c].stage.Released?
      modifies this
      ensures Run(old(View()), steps) && View() == After(old(View()), steps)
      ensures Claimed(View(), c) && claims[c].operation == old(claims[c].operation)
      ensures claims[c].stage.Released? && !Leased(View(), c)
      ensures Passed(old(View()), steps, c, gate, lost, refused)
    {
      steps := [];
      assert Run(View(), steps) && After(View(), steps) == View();
      hide Run, After, Suits, DoWork, MayWork, Leased, Diligent, Prompted;
      if gate.Expired? {
        EndsAtOnce(View(), c, Fail);
        Conclude(c, Fail);
        Extended(old(View()), steps, Step.Work(c, Fail));
        steps := [Step.Work(c, Fail)];
        return;
      }
      if gate.QuotaPending? && operations[claims[c].operation].request.Configures() {
        EndsAtOnce(View(), c, Action.Defer);
        Conclude(c, Action.Defer);
        Extended(old(View()), steps, Step.Work(c, Action.Defer));
        steps := [Step.Work(c, Action.Defer)];
        return;
      }
      var k := 0;
      assert Diligent(old(View()), steps, c, lost, refused) by { NoSteps(old(View()), c, lost, refused); }
      while !claims[c].stage.Released?
        invariant Run(old(View()), steps) && View() == After(old(View()), steps)
        invariant Ready(View(), c) && claims[c].operation == old(claims[c].operation)
        invariant if claims[c].stage.Released? then !Leased(View(), c) else Underway(View(), c)
        invariant Diligent(old(View()), steps, c, lost, refused)
        decreases Rank(claims[c].stage), |claims[c].todo|
      {
        steps := Advance(old(View()), steps, c, pauses(k), lost, refused);
        k := k + 1;
      }
    }

    /** Some time, and then what is next. */
    method Advance(ghost s: State, ghost steps: seq<Step>, c: nat, seconds: nat, lost: bool, refused: bool) returns (ghost more: seq<Step>)
      requires Run(s, steps) && View() == After(s, steps) && Diligent(s, steps, c, lost, refused)
      requires Ready(View(), c) && Underway(View(), c) && !claims[c].stage.Released?
      modifies this
      ensures Run(s, more) && View() == After(s, more) && Diligent(s, more, c, lost, refused)
      ensures Ready(View(), c) && claims[c].operation == old(claims[c].operation)
      ensures if claims[c].stage.Released? then !Leased(View(), c) else Underway(View(), c)
      ensures Rank(claims[c].stage) < old(Rank(claims[c].stage)) ||
              (claims[c].stage == old(claims[c].stage) && |claims[c].todo| < old(|claims[c].todo|))
    {
      hide Run, After, Suits, DoWork, MayWork, Leased, Diligent;
      more := Wait(s, steps, c, seconds, lost, refused);
      var action := Choose(c, lost, refused);
      Progress(View(), c, action);
      LeaseKept(View(), c, action);
      Extended(s, more, Step.Work(c, action));
      MoreDiligent(s, more, Step.Work(c, action), c, lost, refused);
      Perform(c, action);
      more := more + [Step.Work(c, action)];
    }

    /** Time passes. */
    method Wait(ghost s: State, ghost steps: seq<Step>, ghost c: nat, seconds: nat, ghost lost: bool, ghost refused: bool)
      returns (ghost more: seq<Step>)
      requires Run(s, steps) && View() == After(s, steps) && Diligent(s, steps, c, lost, refused)
      requires Ready(View(), c) && Underway(View(), c)
      modifies this`now
      ensures Run(s, more) && View() == After(s, more) && Diligent(s, more, c, lost, refused)
      ensures Ready(View(), c) && Underway(View(), c) && claims == old(claims)
    {
      Extended(s, steps, Pass(seconds));
      MoreDiligent(s, steps, Pass(seconds), c, lost, refused);
      more := steps + [Pass(seconds)];
      hide Run, After;
      now := now + seconds;
    }

    /** A worker takes the oldest operation that is due, works on it and has let go of it when it returns, however much time
        passes in between. */
    method Tick(gate: Gate, lost: bool, refused: bool, pauses: nat -> nat) returns (worked: bool, ghost steps: seq<Step>)
      modifies this
      ensures Run(old(View()), steps) && View() == After(old(View()), steps)
      ensures worked <==> exists op :: CanTake(old(View()), op)
      ensures if !worked then View() == old(View()) else
        && |claims| > |old(claims)| && Claimed(View(), |old(claims)|)
        && claims[|old(claims)|].stage.Released? && !Leased(View(), |old(claims)|)
        && steps != [] && steps[0].Take? && CanTake(old(View()), steps[0].op)
        && (forall op | 0 <= op < steps[0].op :: !CanTake(old(View()), op))
        && Run(DoTake(old(View()), steps[0].op), steps[1..])
        && Passed(DoTake(old(View()), steps[0].op), steps[1..], |old(claims)|, gate, lost, refused)
    {
      steps := [];
      var op := Due();
      if op.None? { return false, []; }
      ghost var s := View();
      Extended(s, [], Take(op.value));
      var c := Lock(op.value);
      FirstSuits(s, op.value);
      steps := Execute(c, gate, lost, refused, pauses);
      Joined(s, Take(op.value), steps);
      ghost var taken := steps;
      steps := [Take(op.value)] + steps;
      assert steps[1..] == taken;
      worked := true;
    }
  }

  lemma NoSteps(s: State, c: nat, lost: bool, refused: bool)
    ensures Run(s, []) && Diligent(s, [], c, lost, refused)
  {
  }

  lemma EndsAtOnce(s: State, c: nat, action: Action)
    requires Underway(s, c) && !s.claims[c].stage.Released? && (action.Fail? || action.Defer?)
    ensures MayWork(s, c, action)
    ensures
      var t := DoWork(s, c, action);
      Claimed(t, c) && t.claims[c].operation == s.claims[c].operation && t.claims[c].stage.Released? && !Leased(t, c)
  {
  }

  lemma FirstSuits(s: State, op: nat)
    requires CanTake(s, op)
    ensures
      var t := DoTake(s, op);
      var c := |s.claims|;
      Ready(t, c) && Underway(t, c) && !t.claims[c].stage.Released?
  {
  }

  lemma {:induction false} Joined(s: State, step: Step, steps: seq<Step>)
    requires Enabled(s, step) && Run(Apply(s, step), steps)
    ensures Run(s, [step] + steps) && After(s, [step] + steps) == After(Apply(s, step), steps)
    decreases |steps|
  {
    if steps == [] {
      Extended(s, [], step);
      assert [step] + steps == [] + [step];
    } else {
      var front := steps[..|steps| - 1];
      Joined(s, step, front);
      Extended(s, [step] + front, steps[|steps| - 1]);
      assert [step] + steps == ([step] + front) + [steps[|steps| - 1]];
    }
  }
}
