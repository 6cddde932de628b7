/**
 What one step takes, and what it leaves: admissions, leases, ends and operator writes, in the terms of the tables and the objects.
 */
module Causes {
  import opened Wrappers
  import opened Protocol
  import opened Effects

  // ----- Time

  /** A claim keeps every other worker away for thirty seconds, and no longer. */
  lemma AloneForThirtySeconds(s: State, op: nat, seconds: nat)
    requires CanTake(s, op)
    ensures
      var t := DoTake(s, op).(now := s.now + seconds);
      && (CanTake(t, op) <==> seconds > 30)
      && Claimed(t, |s.claims|) && (Leased(t, |s.claims|) <==> seconds < 30)
  {
  }

  /** A deferred operation is not taken up again for two seconds, and then it can be. */
  lemma AgainAfterTwoSeconds(s: State, c: nat, seconds: nat)
    requires MayWork(s, c, Defer) && Held(s, c)
    ensures CanTake(DoWork(s, c, Defer).(now := s.now + seconds), s.claims[c].operation) <==> seconds >= 2
  {
  }

  /** An operation that waits can be taken up once it is due, at once when it is new. */
  lemma NewIsDue(s: State, a: Admission)
    requires MayAdmit(s, a) && |DoAdmit(s, a).operations| == |s.operations| + 1
    ensures CanTake(DoAdmit(s, a), |s.operations|)
  {
  }

  // ----- Ends

  /** How an operation ends: only under a claim that is held, with the lifecycle and the reservation that go with it.  What was to
      stay sealed is gone, and the claim lets go in any case. */
  lemma EndsExactly(s: State, c: nat, action: Action)
    requires MayWork(s, c, action) && (action.Succeed? || action.Fail? || action.Supersede?)
    ensures
      var t, row, op := DoWork(s, c, action), Row(s, c), s.claims[c].operation;
      && t.claims == s.claims[c := s.claims[c].(stage := Released)]
      && t.instance == s.instance && t.volume == s.volume && t.secrets == s.secrets && t.uid == s.uid
      && t.credentials == s.credentials
      && (!Held(s, c) ==> t.operations == s.operations && t.lifecycle == s.lifecycle && t.reserved == s.reserved)
      && (Held(s, c) ==>
            && t.operations == s.operations[op := row.(
                 state := if action.Succeed? then Succeeded else if action.Fail? then Faulted else Superseded, lease := None, payload := false)]
            && t.lifecycle ==
                 (if action.Fail? then (if row.request.Create? || row.request.Reclaim? then Failed else s.lifecycle)
                  else if action.Supersede? then s.lifecycle
                  else if row.request.Remove? then (if s.claims[c].policy == Some(Delete) then Deleted else Detached)
                  else if row.request.RemoveVolume? then Deleted
                  else Active)
            && (if action.Succeed? && (row.request.Create? || row.request.Reclaim? || row.request.Update?)
                then && t.reserved.cpu == row.request.desired.resources.cpu
                     && t.reserved.memory == row.request.desired.resources.memory
                     && s.reserved.storage <= t.reserved.storage && row.request.desired.resources.storage <= t.reserved.storage
                     && t.reserved.storage in {s.reserved.storage, row.request.desired.resources.storage}
                else t.reserved == s.reserved))
  {
  }

  // ----- The approval of a reclaim

  /** The object is the one the claim has bound, as its reclaim wrote it, and is not being deleted. */
  predicate ToApprove(s: State, c: nat)
    requires Claimed(s, c) && Row(s, c).request.Reclaim? && s.claims[c].answer.Some?
  {
    var request := Row(s, c).request;
    && s.instance.Some? && s.instance.value.uid == s.claims[c].answer.value.uid && !s.instance.value.deleting
    && s.instance.value.operation == s.claims[c].operation && s.instance.value.spec == request.desired
    && request.desired.reclaim == Some(ReclaimRef(request.previous, request.volume))
  }

  /** A worker marks an object exactly in the approval of a reclaim, exactly if it is to be approved and has no marker yet; it goes
      on exactly if the object then carries its own identity. */
  lemma MarkedOnApproval(s: State, c: nat, lost: bool)
    requires MayWork(s, c, Approve(lost))
    ensures
      var t := DoWork(s, c, Approve(lost));
      && (t.history.marked != s.history.marked ==> ToApprove(s, c) && t.history.marked == s.history.marked + {s.instance.value.uid})
      && (ToApprove(s, c) && s.instance.value.marker.None? ==>
            && t.instance == Some(s.instance.value.(marker := Some(s.instance.value.uid)))
            && s.instance.value.uid in t.history.marked)
      && (!ToApprove(s, c) || s.instance.value.marker.Some? ==> t.instance == s.instance)
      && |t.claims| == |s.claims|
      && (t.claims[c].stage.Verifying? <==>
            && ToApprove(s, c)
            && (if s.instance.value.marker.None? then !lost else s.instance.value.marker == Some(s.instance.value.uid)))
      && (t.claims[c].stage.Failing? <==>
            !ToApprove(s, c) || (s.instance.value.marker.Some? && s.instance.value.marker != Some(s.instance.value.uid)))
  {
  }

  // ----- The object

  /** Where a claim begins: a delete by reading its object, a volume delete by reading the volume, and a configuring operation with
      its writes, but only before its object is bound or it has once ended; from then on by observing. */
  lemma BeginsExactly(s: State, op: nat)
    requires CanTake(s, op)
    ensures
      var t, row := DoTake(s, op), s.operations[op];
      && |t.claims| == |s.claims| + 1
      && var claim := t.claims[|s.claims|];
      && claim.operation == op && claim.payload == row.payload && claim.target == row.target && claim.policy == row.policy
      && claim.answer.None? && claim.todo == {}
      && (claim.stage == ReadingInstance <==> row.request.Remove?)
      && (claim.stage == ReadingVolume <==> row.request.RemoveVolume?)
      && (claim.stage == Observing <==> row.request.Configures() && row.state.Reconciling?)
      && (claim.stage == CheckingVolume <==> row.request.Reclaim? && !row.state.Reconciling?)
      && (claim.stage == Sealing <==> (row.request.Create? || row.request.Rotate?) && !row.state.Reconciling?)
      && (claim.stage == Writing <==> row.request.Update? && !row.state.Reconciling?)
      && t.operations == s.operations[op := row.(state := if row.state.Pending? then Applying else row.state, lease := t.operations[op].lease)]
  {
  }

  /** A create makes the object only where there is none; what this operation made before is recognised, unless it is being
      deleted, and what another made stops it. */
  lemma CreatesExactly(s: State, c: nat, lost: bool)
    requires MayWork(s, c, Write(lost)) && Row(s, c).request.Provisions()
    ensures
      var t, desired, op := DoWork(s, c, Write(lost)), Row(s, c).request.desired, s.claims[c].operation;
      && |t.claims| == |s.claims| && t.operations == s.operations
      && (s.instance.None? ==> t.instance == Some(Instance(s.nextUid, 1, op, desired, None, false, false, None)) && s.nextUid < t.nextUid)
      && (s.instance.Some? ==> t.instance == s.instance && t.nextUid == s.nextUid)
      && (t.claims[c].stage == Failing <==> s.instance.Some? && s.instance.value.operation != op)
      && (t.claims[c].stage == Superseding <==>
            && s.instance.Some? && s.instance.value.operation == op && (s.instance.value.spec != desired || s.instance.value.deleting))
      && (t.claims[c].stage in {Binding, Waiting} <==>
            s.instance.None? || (s.instance.value.operation == op && s.instance.value.spec == desired && !s.instance.value.deleting))
      && (t.claims[c].stage == Binding ==> !lost && t.claims[c].answer == t.instance) && (t.claims[c].stage == Waiting ==> lost)
  {
  }

  /** An update changes the object only at the identity and the generation it was accepted for; its own earlier change is
      recognised, and everything else stops it. */
  lemma UpdatesExactly(s: State, c: nat, lost: bool)
    requires MayWork(s, c, Write(lost)) && Row(s, c).request.Edits()
    ensures
      var t, request, op := DoWork(s, c, Write(lost)), Row(s, c).request, s.claims[c].operation;
      var there := s.instance.Some? && !s.instance.value.deleting && s.instance.value.uid == request.expectedUid;
      && |t.claims| == |s.claims| && t.operations == s.operations
      && (t.claims[c].stage == Failing <==> !there)
      && (t.claims[c].stage == Superseding <==>
            && there
            && (if s.instance.value.operation == op then s.instance.value.spec != request.desired
                else s.instance.value.generation != request.expectedGeneration))
      && (t.claims[c].stage == Binding ==> !lost && t.claims[c].answer == t.instance) && (t.claims[c].stage == Waiting ==> lost)
      && t.claims[c].stage in {Failing, Superseding, Binding, Waiting}
      && (if there && s.instance.value.operation != op && s.instance.value.generation == request.expectedGeneration
          then t.instance == Some(s.instance.value.(
                 generation := if s.instance.value.spec == request.desired then request.expectedGeneration else request.expectedGeneration + 1,
                 operation := op, spec := request.desired,
                 marker := if request.Rotate? && request.marker.Some? then request.marker else s.instance.value.marker))
          else t.instance == s.instance)
  {
  }

  /** A bind is made only under the lease, from nothing, to the same object again, or from the identity a reclaim names. */
  lemma BindsExactly(s: State, c: nat)
    requires MayWork(s, c, Bind)
    ensures
      var t, row, v, op := DoWork(s, c, Bind), Row(s, c), s.claims[c].answer.value, s.claims[c].operation;
      var may := Held(s, c) && (s.uid.None? || s.uid == Some(v.uid) || (row.request.Reclaim? && s.uid == Some(row.request.previous)));
      && |t.claims| == |s.claims|
      && (if may then && t.uid == Some(v.uid)
                      && t.operations == s.operations[op := row.(state := Reconciling, target := Some(v.generation))]
                      && t.claims[c].target == Some(v.generation)
                      && t.claims[c].stage == (if row.request.Reclaim? then Approving else Verifying)
          else t.uid == s.uid && t.operations == s.operations && t.claims[c].stage == Failing)
  {
  }

  /** An observation of what was bound goes on with the object as it is now; one of a create that has bound nothing yet goes on
      only with the very object that create made. */
  lemma ObservesExactly(s: State, c: nat)
    requires MayWork(s, c, Observe)
    ensures
      var t, request, claim := DoWork(s, c, Observe), Row(s, c).request, s.claims[c];
      var recovers := request.Provisions() && claim.target.None?;
      && |t.claims| == |s.claims| && t.operations == s.operations && t.instance == s.instance
      && (t.claims[c].stage == Failing <==>
            || s.instance.None?
            || (recovers && (s.instance.value.deleting || s.instance.value.operation != claim.operation || s.instance.value.spec != request.desired)))
      && (t.claims[c].stage == Binding <==>
            && s.instance.Some? && recovers && !s.instance.value.deleting
            && s.instance.value.operation == claim.operation && s.instance.value.spec == request.desired)
      && (t.claims[c].stage == Approving <==> s.instance.Some? && !recovers && request.Reclaim?)
      && (t.claims[c].stage == Verifying <==> s.instance.Some? && !recovers && !request.Reclaim?)
      && (t.claims[c].stage != Failing ==> t.claims[c].answer == s.instance)
  {
  }

  // ----- Admissions

  predicate AllEnded(s: State) {
    forall row | row in s.operations :: row.state.Succeeded? || row.state.Faulted? || row.state.Superseded?
  }

  lemma IdleMeansEnded(s: State)
    ensures Idle(s) <==> AllEnded(s)
  {
    if AllEnded(s) {
      forall i | 0 <= i < |s.operations| ensures !s.operations[i].Running() { assert s.operations[i] in s.operations; }
    }
  }

  /** What is accepted when. */
  predicate Acceptable(s: State, a: Admission) {
    match a
    case AcceptCreate(desired) => |s.operations| == 0 && s.lifecycle.Absent? && desired.reclaim.None? && desired.secret == 0
    case AcceptUpdate(read, desired) =>
      && AllEnded(s) && s.uid.Some? && s.lifecycle !in {Deleted, Detached}
      && read in s.history.seen && read.uid in s.history.bound && !read.deleting
      && desired.resources.storage >= read.spec.resources.storage
      && desired.secret == read.spec.secret && desired.reclaim == read.spec.reclaim
    case AcceptRotate(read) =>
      AllEnded(s) && s.uid.Some? && read in s.history.seen && read.uid in s.history.bound && !read.deleting
    case AcceptReclaim(desired, volume) =>
      && AllEnded(s) && s.uid.Some? && s.lifecycle in {Detached, Failed} && volume < s.nextUid
      && desired.resources.storage >= s.reserved.storage
      && desired.reclaim == Some(ReclaimRef(s.uid.value, volume)) && desired.secret == |s.operations|
    case AcceptRemove => AllEnded(s) && s.uid.Some? && s.lifecycle !in {Deleted, Detached}
    case AcceptRemoveVolume(_) => AllEnded(s) && s.uid.Some? && s.lifecycle in {Detached, Failed}
    case AcceptRetry =>
      && |s.operations| > 0
      && var row := s.operations[|s.operations| - 1];
         && row.state.Faulted?
         && (|| (row.request.Remove? && s.uid == Some(row.request.uid) && s.lifecycle.Deleting?)
             || (&& s.lifecycle !in {Deleting, Deleted, Detached}
                 && (|| ((row.request.Create? || row.request.Reclaim?) && row.target.None?)
                     || (row.request.Configures() && row.target.Some? && s.uid.Some?))))
    case ReconcileReservation(_) => AllEnded(s) && s.lifecycle in {Active, Detached}
  }

  /** The operation that is accepted, as it is asked for. */
  function Asked(s: State, a: Admission): Option<Request>
    requires Acceptable(s, a)
  {
    match a
    case AcceptCreate(desired) => Some(Create(desired))
    case AcceptUpdate(read, desired) => Some(Update(desired, read.uid, read.generation))
    case AcceptRotate(read) =>
      Some(Rotate(Spec(read.spec.resources, |s.operations|, read.spec.reclaim, read.spec.policy, read.spec.rest), read.uid, read.generation, read.marker))
    case AcceptReclaim(desired, volume) => Some(Reclaim(desired, s.uid.value, volume))
    case AcceptRemove => Some(Remove(s.uid.value))
    case AcceptRemoveVolume(volume) => Some(RemoveVolume(s.uid.value, volume))
    case AcceptRetry => None
    case ReconcileReservation(_) => None
  }

  /** A request is admitted if and only if it is acceptable, and then its operation is appended as pending, with credentials sealed
      exactly where new ones are made. */
  lemma AdmittedIfAcceptable(s: State, a: Admission)
    ensures MayAdmit(s, a) <==> Acceptable(s, a)
    ensures MayAdmit(s, a) && Asked(s, a).Some? ==>
              var request := Asked(s, a).value;
              DoAdmit(s, a).operations ==
                s.operations + [Operation(request, Pending, None, s.now, request.Create? || request.Reclaim? || request.Rotate?, None, None)]
  {
    IdleMeansEnded(s);
  }

  /** A retry takes the last operation up again where it left off, a repair only raises the reservation. */
  lemma ResumedAsItWas(s: State, a: Admission)
    requires MayAdmit(s, a) && (a.AcceptRetry? || a.ReconcileReservation?)
    ensures
      var t := DoAdmit(s, a);
      && (a.AcceptRetry? ==>
            var op := |s.operations| - 1;
            && t.operations == s.operations[op := s.operations[op].(state := Reconciling, lease := None, nextAttempt := s.now)]
            && t.lifecycle == (if s.operations[op].request.Create? || s.operations[op].request.Reclaim? then Provisioning else s.lifecycle)
            && t.reserved == s.reserved)
      && (a.ReconcileReservation? ==>
            && t.operations == s.operations && t.lifecycle == s.lifecycle
            && t.reserved.storage == Max(s.reserved.storage, a.floor.storage)
            && t.reserved.cpu == (if s.lifecycle.Active? then Max(s.reserved.cpu, a.floor.cpu) else s.reserved.cpu)
            && t.reserved.memory == if s.lifecycle.Active? then Max(s.reserved.memory, a.floor.memory) else s.reserved.memory)
  {
  }

  /** What an admission changes beside the operations. */
  lemma AdmittedChanges(s: State, a: Admission)
    requires MayAdmit(s, a) && !a.AcceptRetry? && !a.ReconcileReservation?
    ensures
      var t := DoAdmit(s, a);
      && t.lifecycle == (if a.AcceptCreate? || a.AcceptReclaim? then Provisioning else if a.AcceptRemove? then Deleting else s.lifecycle)
      && t.credentials == (if a.AcceptCreate? || a.AcceptReclaim? || a.AcceptRotate? then s.credentials + [|s.operations|] else s.credentials)
      && (if a.AcceptCreate? || a.AcceptReclaim? || a.AcceptUpdate?
          then && t.reserved.storage == Max(s.reserved.storage, a.desired.resources.storage)
               && t.reserved.cpu == Max(s.reserved.cpu, a.desired.resources.cpu)
               && t.reserved.memory == Max(s.reserved.memory, a.desired.resources.memory)
          else t.reserved == s.reserved)
      && t.instance == s.instance && t.volume == s.volume && t.secrets == s.secrets && t.uid == s.uid && t.claims == s.claims
  {
  }

  // ----- The operator

  /** The version an operator works on: one that was there, held by its finalizer, and not being deleted. */
  predicate WorkedOn(s: State, read: Instance) {
    read in s.history.seen && read.finalizer && !read.deleting
  }

  /** What the operator may write when. */
  predicate OperatorMay(s: State, w: OperatorWrite) {
    match w
    case AddFinalizer => s.instance.Some? && !s.instance.value.deleting
    case Transfer(read) =>
      && WorkedOn(s, read) && read.spec.reclaim.Some? && read.marker == Some(read.uid)
      && read.uid != read.spec.reclaim.value.previous
      && s.volume == Some(Volume(read.spec.reclaim.value.volume, read.spec.reclaim.value.previous, false))
    case ProvisionVolume(read) => WorkedOn(s, read) && s.volume.None? && s.instance.Some? && s.instance.value.uid == read.uid
    case FinalizeVolume =>
      && s.instance.Some? && s.instance.value.deleting && s.instance.value.finalizer && s.instance.value.spec.policy.Delete?
      && s.volume.Some? && s.volume.value.owner == s.instance.value.uid
    case ReleaseInstance =>
      && s.instance.Some? && s.instance.value.deleting && s.instance.value.finalizer
      && (s.volume.None? || (s.volume.value.owner == s.instance.value.uid && s.instance.value.spec.policy.Retain?))
    case Report(_) => s.instance.Some?
    case VolumeGone => s.volume.Some? && s.volume.value.deleting
  }

  /** The operator writes exactly then, and nothing but this. */
  lemma OperatorWrites(s: State, w: OperatorWrite)
    ensures MayOperate(s, w) <==> OperatorMay(s, w)
    ensures MayOperate(s, w) ==>
              var t := DoOperate(s, w);
              && t.operations == s.operations && t.claims == s.claims && t.lifecycle == s.lifecycle && t.reserved == s.reserved
              && t.uid == s.uid && t.credentials == s.credentials && t.secrets == s.secrets
              && t.instance == (match w
                   case AddFinalizer => Some(s.instance.value.(finalizer := true))
                   case ReleaseInstance => None
                   case Report(ready) => Some(s.instance.value.(ready := if ready then Some(s.instance.value.generation) else None))
                   case _ => s.instance)
              && t.volume == (match w
                   case Transfer(read) => Some(s.volume.value.(owner := read.uid))
                   case ProvisionVolume(read) => Some(Volume(s.nextUid, read.uid, false))
                   case FinalizeVolume => Some(s.volume.value.(deleting := true))
                   case VolumeGone => None
                   case _ => s.volume)
  {
  }

  // ----- Deletion of the object

  /** A worker deletes only the object its delete names: it is marked where a finalizer holds it, and else gone at once. */
  lemma DeletedByName(s: State, c: nat)
    requires MayWork(s, c, IssueDelete)
    ensures
      var t := DoWork(s, c, IssueDelete);
      && (t.instance != s.instance ==> s.instance.Some? && s.instance.value.uid == Row(s, c).request.uid)
      && (s.instance.Some? && s.instance.value.uid == Row(s, c).request.uid ==>
            && (t.instance.None? <==> !s.instance.value.finalizer)
            && (t.instance.Some? ==> t.instance.value.deleting && t.instance.value.spec == s.instance.value.spec))
      && |t.claims| == |s.claims|
      && (t.claims[c].stage.Failing? <==> s.instance.Some? && s.instance.value.uid != Row(s, c).request.uid)
      && (t.claims[c].stage.Waiting? <==> s.instance.None? || s.instance.value.uid == Row(s, c).request.uid)
  {
  }
}
