/**
 The operation worker and the retained-volume protocol of one instance, as a state machine.

 A state holds the database rows of the instance (binding, operations, credentials), its
 cluster objects (the custom resource, its volume claim, its Secrets) and, for every claim a
 worker ever took, the worker's own copy of what it claimed and read.  A step is one database
 transaction, one Kubernetes request or one operator write; nothing obliges a claim to take its
 next step, so a worker may stall anywhere and resume after its lease has run out.

 A Kubernetes read followed by a write that carries the resourceVersion read is one step: the
 write succeeds only if the object is still the one that was read.  Object identities are
 numbers handed out in increasing order.
 */
module Protocol {
  import opened Wrappers

  type Uid = nat

  // ----- Cluster objects

  datatype Resources = Resources(storage: nat, cpu: nat, memory: nat) {
    predicate Covers(other: Resources) {
      other.storage <= storage && other.cpu <= cpu && other.memory <= memory
    }

    function Raise(other: Resources): Resources {
      Resources(Max(storage, other.storage), Max(cpu, other.cpu), Max(memory, other.memory))
    }
  }

  function Max(a: nat, b: nat): nat {
    if a < b then b else a
  }

  datatype Policy = Retain | Delete

  datatype ReclaimRef = ReclaimRef(previous: Uid, volume: Uid)

  /** The fields of a desired configuration that the protocol looks at; `rest` stands for all others. */
  datatype Spec = Spec(resources: Resources, secret: nat, reclaim: Option<ReclaimRef>, policy: Policy, rest: nat)

  /** `operation` is the operation-id annotation, `marker` the reclaim-bound-uid annotation and
      `ready` the generation for which the operator last reported the desired condition. */
  datatype Instance = Instance(
    uid: Uid,
    generation: nat,
    operation: nat,
    spec: Spec,
    marker: Option<Uid>,
    deleting: bool,
    finalizer: bool,
    ready: Option<nat>)

  /** `owner` is the instance-uid label. */
  datatype Volume = Volume(uid: Uid, owner: Uid, deleting: bool)

  // ----- Database rows

  datatype Lifecycle = Absent | Provisioning | Active | Deleting | Deleted | Detached | Failed

  datatype OperationState = Pending | Applying | Reconciling | Succeeded | Faulted | Superseded

  datatype Request =
    | Create(desired: Spec)
    | Reclaim(desired: Spec, previous: Uid, volume: Uid)
    | Update(desired: Spec, expectedUid: Uid, expectedGeneration: nat)
    | Rotate(desired: Spec, expectedUid: Uid, expectedGeneration: nat, marker: Option<Uid>)
    | Remove(uid: Uid)
    | RemoveVolume(owner: Uid, volume: Uid)
  {
    predicate Provisions() { Create? || Reclaim? }

    predicate Edits() { Update? || Rotate? }

    predicate Configures() { Provisions() || Edits() }

    predicate Reserves() { Provisions() || Update? }

    predicate Seals() { Provisions() || Rotate? }
  }

  datatype Lease = Lease(worker: nat, until: nat)

  datatype Operation = Operation(
    request: Request,
    state: OperationState,
    lease: Option<Lease>,
    nextAttempt: nat,
    payload: bool,
    target: Option<nat>,
    policy: Option<Policy>)
  {
    predicate Running() { state.Pending? || state.Applying? || state.Reconciling? }
  }

  // ----- Workers

  datatype Stage =
    | CheckingVolume | Sealing | Writing | Binding | Observing | Approving | Verifying
    | Listing | Cleaning | Waiting | Failing | Superseding | Released
    | ReadingInstance | CapturingPolicy | IssuingDelete
    | ReadingVolume | ConfirmingVolume | IssuingVolumeDelete

  /** One claim of one operation: the worker's copy of the row and what it has read since. */
  datatype Claim = Claim(
    operation: nat,
    until: nat,
    late: bool,
    payload: bool,
    target: Option<nat>,
    policy: Option<Policy>,
    stage: Stage,
    answer: Option<Instance>,
    volume: Option<Volume>,
    todo: set<nat>)

  /** `seen` records every version the custom resource has had, `bound` every identity the binding
      has had, `boundBy` the object each operation bound, `marked` every identity that carried the
      reclaim marker and `ended` every operation that has been in a terminal state. */
  datatype History = History(
    seen: set<Instance>,
    bound: set<Uid>,
    boundBy: map<nat, Instance>,
    marked: set<Uid>,
    ended: set<nat>)

  datatype State = State(
    now: nat,
    lifecycle: Lifecycle,
    uid: Option<Uid>,
    reserved: Resources,
    operations: seq<Operation>,
    credentials: seq<nat>,
    claims: seq<Claim>,
    instance: Option<Instance>,
    volume: Option<Volume>,
    secrets: set<nat>,
    nextUid: Uid,
    history: History)

  const LEASE_SECONDS: nat := 30
  const RETRY_SECONDS: nat := 2

  const Initial: State :=
    State(0, Absent, None, Resources(0, 0, 0), [], [], [], None, None, {}, 0, History({}, {}, map[], {}, {}))

  // ----- Views

  predicate Idle(s: State) {
    forall i | 0 <= i < |s.operations| :: !s.operations[i].Running()
  }

  predicate Claimed(s: State, c: nat) {
    c < |s.claims| && s.claims[c].operation < |s.operations|
  }

  function Row(s: State, c: nat): Operation
    requires Claimed(s, c)
  {
    s.operations[s.claims[c].operation]
  }

  predicate At(s: State, c: nat, stage: Stage) {
    Claimed(s, c) && s.claims[c].stage == stage
  }

  /** The row still names this claim and its lease has not run out. */
  predicate Leased(s: State, c: nat)
    requires Claimed(s, c)
  {
    Row(s, c).lease.Some? && Row(s, c).lease.value.worker == c && s.now < Row(s, c).lease.value.until
  }

  /** The fence every worker transaction checks first. */
  predicate Held(s: State, c: nat)
    requires Claimed(s, c)
  {
    Leased(s, c) && (Row(s, c).state.Applying? || Row(s, c).state.Reconciling?)
  }

  predicate Gone(s: State, uid: Uid) {
    s.instance.None? || s.instance.value.uid != uid
  }

  /** Positions in the credential table are revisions: each row is inserted with the largest revision plus one. */
  function RevisionOf(rows: seq<nat>, secret: nat): nat {
    if rows == [] then 0 else if rows[0] == secret then 0 else 1 + RevisionOf(rows[1..], secret)
  }

  function OlderCredentials(rows: seq<nat>, secret: nat): set<nat> {
    if secret in rows then
      set i | 0 <= i < |rows| && i < RevisionOf(rows, secret) :: rows[i]
    else
      {}
  }

  // ----- Updates of one part of the state

  function SetClaim(s: State, c: nat, claim: Claim): State
    requires c < |s.claims|
  {
    s.(claims := s.claims[c := claim])
  }

  function SetStage(s: State, c: nat, stage: Stage): State
    requires c < |s.claims|
  {
    SetClaim(s, c, s.claims[c].(stage := stage))
  }

  function SetRow(s: State, op: nat, row: Operation): State
    requires op < |s.operations|
  {
    s.(operations := s.operations[op := row])
  }

  /** The custom resource takes the value `v`, which becomes one of its versions. */
  function SetInstance(s: State, v: Instance): State {
    s.(instance := Some(v), history := s.history.(seen := s.history.seen + {v}))
  }

  function NewOperation(request: Request, now: nat): Operation {
    Operation(request, Pending, None, now, request.Seals(), None, None)
  }

  function Accept(s: State, request: Request): State {
    s.(operations := s.operations + [NewOperation(request, s.now)])
  }

  // ----- Admission (instance-routes.ts)

  predicate CanCreate(s: State, desired: Spec) {
    s.operations == [] && s.lifecycle == Absent && desired.reclaim == None && desired.secret == 0
  }

  function DoCreate(s: State, desired: Spec): State {
    Accept(s, Create(desired)).(
      lifecycle := Provisioning,
      reserved := s.reserved.Raise(desired.resources),
      credentials := s.credentials + [|s.operations|])
  }

  predicate CanEdit(s: State, read: Instance) {
    s.uid.Some? && Idle(s) && read in s.history.seen && read.uid in s.history.bound && !read.deleting
  }

  predicate CanUpdate(s: State, read: Instance, desired: Spec) {
    && CanEdit(s, read)
    && s.lifecycle != Deleted && s.lifecycle != Detached
    && read.spec.resources.storage <= desired.resources.storage
    && desired.secret == read.spec.secret && desired.reclaim == read.spec.reclaim
  }

  function DoUpdate(s: State, read: Instance, desired: Spec): State {
    Accept(s, Update(desired, read.uid, read.generation)).(reserved := s.reserved.Raise(desired.resources))
  }

  function DoRotate(s: State, read: Instance): State {
    var secret := |s.operations|;
    Accept(s, Rotate(read.spec.(secret := secret), read.uid, read.generation, read.marker)).(
      credentials := s.credentials + [secret])
  }

  predicate CanReclaim(s: State, desired: Spec, volume: Uid) {
    && (s.lifecycle == Detached || s.lifecycle == Failed)
    && s.uid.Some? && Idle(s)
    && volume < s.nextUid
    && s.reserved.storage <= desired.resources.storage
    && desired.reclaim == Some(ReclaimRef(s.uid.value, volume))
    && desired.secret == |s.operations|
  }

  function DoReclaim(s: State, desired: Spec, volume: Uid): State
    requires s.uid.Some?
  {
    Accept(s, Reclaim(desired, s.uid.value, volume)).(
      lifecycle := Provisioning,
      reserved := s.reserved.Raise(desired.resources),
      credentials := s.credentials + [|s.operations|])
  }

  predicate CanRemove(s: State) {
    s.uid.Some? && Idle(s) && s.lifecycle != Deleted && s.lifecycle != Detached
  }

  function DoRemove(s: State): State
    requires s.uid.Some?
  {
    Accept(s, Remove(s.uid.value)).(lifecycle := Deleting)
  }

  predicate CanRemoveVolume(s: State) {
    s.uid.Some? && Idle(s) && (s.lifecycle == Detached || s.lifecycle == Failed)
  }

  function DoRemoveVolume(s: State, volume: Uid): State
    requires s.uid.Some?
  {
    Accept(s, RemoveVolume(s.uid.value, volume))
  }

  predicate CanRetry(s: State) {
    && s.operations != []
    && var row := s.operations[|s.operations| - 1];
       var recovering := row.request.Provisions() && row.target.None?;
       && row.state.Faulted?
       && (row.request.Remove? || recovering || (row.request.Configures() && row.target.Some?))
       && (recovering || s.uid.Some?)
       && (if row.request.Remove? then s.lifecycle == Deleting && s.uid == Some(row.request.uid)
           else s.lifecycle != Deleting && s.lifecycle != Deleted && s.lifecycle != Detached)
  }

  function DoRetry(s: State): State
    requires s.operations != []
  {
    var op := |s.operations| - 1;
    var row := s.operations[op];
    SetRow(s, op, row.(state := Reconciling, lease := None, nextAttempt := s.now)).(
      lifecycle := if row.request.Provisions() then Provisioning else s.lifecycle)
  }

  predicate CanReconcile(s: State) {
    Idle(s) && (s.lifecycle == Active || s.lifecycle == Detached)
  }

  function DoReconcile(s: State, floor: Resources): State {
    s.(reserved := if s.lifecycle == Detached
                   then s.reserved.(storage := Max(s.reserved.storage, floor.storage))
                   else s.reserved.Raise(floor))
  }

  // ----- Worker (worker.ts, kubernetes.ts)

  function FirstStage(request: Request, state: OperationState): Stage {
    if request.Remove? then ReadingInstance
    else if request.RemoveVolume? then ReadingVolume
    else if state.Reconciling? then Observing
    else if request.Reclaim? then CheckingVolume
    else if request.Update? then Writing
    else Sealing
  }

  predicate CanTake(s: State, op: nat) {
    && op < |s.operations|
    && s.operations[op].Running()
    && s.operations[op].nextAttempt <= s.now
    && (s.operations[op].lease.None? || s.operations[op].lease.value.until < s.now)
  }

  function DoTake(s: State, op: nat): State
    requires op < |s.operations|
  {
    var row := s.operations[op];
    var state := if row.state.Pending? then Applying else row.state;
    var until := s.now + LEASE_SECONDS;
    SetRow(s, op, row.(state := state, lease := Some(Lease(|s.claims|, until)))).(
      claims := s.claims + [Claim(op, until, op in s.history.ended, row.payload, row.target, row.policy,
                                  FirstStage(row.request, state), None, None, {})])
  }

  function DoCheckVolume(s: State, c: nat): State
    requires At(s, c, CheckingVolume) && Row(s, c).request.Reclaim?
  {
    var request := Row(s, c).request;
    if s.volume.Some? && s.volume.value.owner == request.previous && s.volume.value.uid == request.volume &&
       !s.volume.value.deleting
    then SetStage(s, c, Sealing)
    else SetStage(s, c, Failing)
  }

  function DoSeal(s: State, c: nat): State
    requires At(s, c, Sealing) && Row(s, c).request.Seals()
  {
    if s.claims[c].payload then
      SetStage(s, c, Writing).(secrets := s.secrets + {Row(s, c).request.desired.secret})
    else
      SetStage(s, c, Failing)
  }

  /** The worker holds the answer the API server answered with; if the answer is lost it only retries later. */
  function Answered(s: State, c: nat, answer: Instance, lost: bool): State
    requires c < |s.claims|
  {
    if lost then SetStage(s, c, Waiting)
    else SetClaim(s, c, s.claims[c].(stage := Binding, answer := Some(answer)))
  }

  function DoCreateInstance(s: State, c: nat, lost: bool): State
    requires At(s, c, Writing) && Row(s, c).request.Provisions()
  {
    var desired := Row(s, c).request.desired;
    var op := s.claims[c].operation;
    match s.instance
    case None =>
      var created := Instance(s.nextUid, 1, op, desired, None, false, false, None);
      Answered(SetInstance(s, created).(nextUid := s.nextUid + 1), c, created, lost)
    case Some(current) =>
      if current.operation != op then SetStage(s, c, Failing)
      else if current.spec != desired || current.deleting then SetStage(s, c, Superseding)
      else Answered(s, c, current, lost)
  }

  /** What a replace with the request's configuration turns `current` into: the generation moves
      only when the configuration differs, annotations are merged. */
  function Edited(current: Instance, request: Request, op: nat): Instance
    requires request.Edits()
  {
    current.(
      generation := if current.spec == request.desired then current.generation else current.generation + 1,
      operation := op,
      spec := request.desired,
      marker := if request.Rotate? && request.marker.Some? then request.marker else current.marker)
  }

  predicate Expects(request: Request, v: Instance)
    requires request.Edits()
  {
    v.uid == request.expectedUid && v.generation == request.expectedGeneration
  }

  function DoUpdateInstance(s: State, c: nat, lost: bool): State
    requires At(s, c, Writing) && Row(s, c).request.Edits()
  {
    var request := Row(s, c).request;
    var op := s.claims[c].operation;
    match s.instance
    case None => SetStage(s, c, Failing)
    case Some(current) =>
      if current.deleting || current.uid != request.expectedUid then SetStage(s, c, Failing)
      else if current.operation == op then
        if current.spec != request.desired then SetStage(s, c, Superseding) else Answered(s, c, current, lost)
      else if !Expects(request, current) then SetStage(s, c, Superseding)
      else
        var next := Edited(current, request, op);
        Answered(SetInstance(s, next), c, next, lost)
  }

  function AfterIdentity(request: Request): Stage {
    if request.Reclaim? then Approving else Verifying
  }

  predicate MayBind(s: State, request: Request, uid: Uid) {
    s.uid.None? || s.uid == Some(uid) || (request.Reclaim? && s.uid == Some(request.previous))
  }

  function DoBind(s: State, c: nat): State
    requires At(s, c, Binding) && s.claims[c].answer.Some?
  {
    var answer := s.claims[c].answer.value;
    var op := s.claims[c].operation;
    var row := Row(s, c);
    if !Held(s, c) || !MayBind(s, row.request, answer.uid) then SetStage(s, c, Failing)
    else
      SetRow(
        SetClaim(s, c, s.claims[c].(stage := AfterIdentity(row.request), target := Some(answer.generation))),
        op,
        row.(state := Reconciling, target := Some(answer.generation))).(
        uid := Some(answer.uid),
        history := s.history.(bound := s.history.bound + {answer.uid}, boundBy := s.history.boundBy[op := answer]))
  }

  predicate Recoverable(request: Request, op: nat, current: Instance)
    requires request.Provisions()
  {
    !current.deleting && current.operation == op && current.spec == request.desired
  }

  function DoObserve(s: State, c: nat): State
    requires At(s, c, Observing)
  {
    var claim := s.claims[c];
    var request := Row(s, c).request;
    match s.instance
    case None => SetStage(s, c, Failing)
    case Some(current) =>
      if request.Provisions() && claim.target.None? then
        if Recoverable(request, claim.operation, current)
        then SetClaim(s, c, claim.(stage := Binding, answer := Some(current)))
        else SetStage(s, c, Failing)
      else SetClaim(s, c, claim.(stage := AfterIdentity(request), answer := Some(current)))
  }

  predicate Approvable(s: State, c: nat)
    requires At(s, c, Approving) && Row(s, c).request.Reclaim? && s.claims[c].answer.Some?
  {
    var request := Row(s, c).request;
    && request.desired.reclaim == Some(ReclaimRef(request.previous, request.volume))
    && s.instance.Some?
    && s.instance.value.uid == s.claims[c].answer.value.uid
    && !s.instance.value.deleting
    && s.instance.value.operation == s.claims[c].operation
    && s.instance.value.spec == request.desired
    && (s.instance.value.marker.None? || s.instance.value.marker == Some(s.instance.value.uid))
  }

  function DoApprove(s: State, c: nat, lost: bool): State
    requires At(s, c, Approving) && Row(s, c).request.Reclaim? && s.claims[c].answer.Some?
  {
    if !Approvable(s, c) then SetStage(s, c, Failing)
    else if s.instance.value.marker.Some? then SetStage(s, c, Verifying)
    else
      var uid := s.instance.value.uid;
      var next := SetInstance(s, s.instance.value.(marker := Some(uid)));
      SetStage(next.(history := next.history.(marked := next.history.marked + {uid})), c,
               if lost then Waiting else Verifying)
  }

  function DoVerify(s: State, c: nat): State
    requires At(s, c, Verifying) && s.claims[c].answer.Some?
  {
    var answer := s.claims[c].answer.value;
    var claim := s.claims[c];
    if s.uid != Some(answer.uid) then SetStage(s, c, Failing)
    else if claim.target != Some(answer.generation) || answer.operation != claim.operation then
      SetStage(s, c, Superseding)
    else if answer.ready != Some(answer.generation) then SetStage(s, c, Waiting)
    else if Row(s, c).request.Rotate? || Row(s, c).request.Reclaim? then SetStage(s, c, Listing)
    else SetStage(s, c, Cleaning)
  }

  function DoList(s: State, c: nat): State
    requires At(s, c, Listing)
  {
    var request := Row(s, c).request;
    var todo :=
      if request.Configures() then OlderCredentials(s.credentials, request.desired.secret)
      else set k | k in s.credentials;
    SetClaim(s, c, s.claims[c].(stage := Cleaning, todo := todo))
  }

  function DoDropSecret(s: State, c: nat, secret: nat): State
    requires At(s, c, Cleaning)
  {
    SetClaim(s, c, s.claims[c].(todo := s.claims[c].todo - {secret})).(secrets := s.secrets - {secret})
  }

  function Settle(reserved: Resources, desired: Resources): Resources {
    desired.(storage := Max(reserved.storage, desired.storage))
  }

  /** A terminal transition; nothing happens unless the claim is still held. */
  function Finish(s: State, c: nat, state: OperationState, lifecycle: Lifecycle, reserved: Resources): State
    requires Claimed(s, c)
  {
    if !Held(s, c) then SetStage(s, c, Released)
    else
      var op := s.claims[c].operation;
      SetStage(SetRow(s, op, Row(s, c).(state := state, lease := None, payload := false)), c, Released).(
        lifecycle := lifecycle,
        reserved := reserved,
        history := s.history.(ended := s.history.ended + {op}))
  }

  function LifecycleAfter(request: Request, policy: Option<Policy>): Lifecycle {
    match request
    case Remove(_) => if policy == Some(Delete) then Deleted else Detached
    case RemoveVolume(_, _) => Deleted
    case _ => Active
  }

  function DoSucceed(s: State, c: nat): State
    requires At(s, c, Cleaning)
  {
    var request := Row(s, c).request;
    Finish(s, c, Succeeded, LifecycleAfter(request, s.claims[c].policy),
           if request.Reserves() then Settle(s.reserved, request.desired.resources) else s.reserved)
  }

  function DoFail(s: State, c: nat): State
    requires Claimed(s, c)
  {
    Finish(s, c, Faulted, if Row(s, c).request.Provisions() then Failed else s.lifecycle, s.reserved)
  }

  function DoSupersede(s: State, c: nat): State
    requires At(s, c, Superseding)
  {
    Finish(s, c, Superseded, s.lifecycle, s.reserved)
  }

  function DoDefer(s: State, c: nat): State
    requires Claimed(s, c)
  {
    if !Leased(s, c) then SetStage(s, c, Released)
    else
      SetStage(SetRow(s, s.claims[c].operation, Row(s, c).(lease := None, nextAttempt := s.now + RETRY_SECONDS)),
               c, Released)
  }

  function DoReadForRemove(s: State, c: nat): State
    requires At(s, c, ReadingInstance) && Row(s, c).request.Remove?
  {
    match s.instance
    case None => SetStage(s, c, Listing)
    case Some(current) =>
      if current.uid != Row(s, c).request.uid then SetStage(s, c, Failing)
      else if s.claims[c].policy.Some? && s.claims[c].policy != Some(current.spec.policy) then SetStage(s, c, Failing)
      else SetClaim(s, c, s.claims[c].(stage := CapturingPolicy, answer := Some(current)))
  }

  function DoCapturePolicy(s: State, c: nat): State
    requires At(s, c, CapturingPolicy) && s.claims[c].answer.Some?
  {
    var next := SetStage(s, c, IssuingDelete);
    if !Leased(s, c) then next
    else SetRow(next, s.claims[c].operation, Row(s, c).(policy := Some(s.claims[c].answer.value.spec.policy)))
  }

  /** The API server marks the object; an object without a finalizer is removed at once. */
  function DoIssueDelete(s: State, c: nat): State
    requires At(s, c, IssuingDelete) && Row(s, c).request.Remove?
  {
    match s.instance
    case None => SetStage(s, c, Waiting)
    case Some(current) =>
      if current.uid != Row(s, c).request.uid then SetStage(s, c, Failing)
      else if !current.finalizer then SetStage(s.(instance := None), c, Waiting)
      else if current.deleting then SetStage(s, c, Waiting)
      else
        SetStage(SetInstance(s, current.(deleting := true, generation := current.generation + 1)), c, Waiting)
  }

  function DoReadVolume(s: State, c: nat): State
    requires At(s, c, ReadingVolume) && Row(s, c).request.RemoveVolume?
  {
    var request := Row(s, c).request;
    if (s.lifecycle != Detached && s.lifecycle != Failed) || s.uid != Some(request.owner) then SetStage(s, c, Failing)
    else match s.volume
      case None => SetStage(s, c, Cleaning)
      case Some(volume) =>
        if volume.owner != request.owner || volume.uid != request.volume then SetStage(s, c, Failing)
        else SetClaim(s, c, s.claims[c].(stage := ConfirmingVolume, volume := Some(volume)))
  }

  function DoConfirmVolume(s: State, c: nat): State
    requires At(s, c, ConfirmingVolume)
  {
    if s.instance.Some? then SetStage(s, c, Failing) else SetStage(s, c, IssuingVolumeDelete)
  }

  /** The delete carries the identity and resourceVersion of the claim that was read. */
  function DoIssueVolumeDelete(s: State, c: nat): State
    requires At(s, c, IssuingVolumeDelete)
  {
    if s.volume.None? then SetStage(s, c, Waiting)
    else if s.volume != s.claims[c].volume then SetStage(s, c, Failing)
    else SetStage(s.(volume := Some(s.volume.value.(deleting := true))), c, Waiting)
  }

  // ----- Operator (cacheinstance.go)

  predicate CanAddFinalizer(s: State) {
    s.instance.Some? && !s.instance.value.deleting
  }

  function DoAddFinalizer(s: State): State
    requires CanAddFinalizer(s)
  {
    SetInstance(s, s.instance.value.(finalizer := true))
  }

  /** A reconcile works on the version it read when it began, which may be any earlier one. */
  predicate Reconcilable(s: State, read: Instance) {
    read in s.history.seen && read.finalizer && !read.deleting
  }

  predicate CanTransfer(s: State, read: Instance) {
    && Reconcilable(s, read)
    && read.spec.reclaim.Some?
    && read.spec.reclaim.value.previous != read.uid
    && s.volume.Some?
    && s.volume.value.uid == read.spec.reclaim.value.volume
    && !s.volume.value.deleting
    && s.volume.value.owner == read.spec.reclaim.value.previous
    && read.marker == Some(read.uid)
  }

  function DoTransfer(s: State, read: Instance): State
    requires CanTransfer(s, read)
  {
    s.(volume := Some(s.volume.value.(owner := read.uid)))
  }

  /** One reconcile of an object at a time: while it runs the object it read is not released. */
  predicate CanProvisionVolume(s: State, read: Instance) {
    Reconcilable(s, read) && s.volume.None? && s.instance.Some? && s.instance.value.uid == read.uid
  }

  function DoProvisionVolume(s: State, read: Instance): State {
    s.(volume := Some(Volume(s.nextUid, read.uid, false)), nextUid := s.nextUid + 1)
  }

  predicate Finalizing(s: State) {
    s.instance.Some? && s.instance.value.deleting && s.instance.value.finalizer
  }

  predicate CanFinalizeVolume(s: State) {
    && Finalizing(s)
    && s.volume.Some? && s.volume.value.owner == s.instance.value.uid
    && s.instance.value.spec.policy.Delete?
  }

  function DoFinalizeVolume(s: State): State
    requires CanFinalizeVolume(s)
  {
    s.(volume := Some(s.volume.value.(deleting := true)))
  }

  predicate CanRelease(s: State) {
    && Finalizing(s)
    && (s.volume.Some? ==> s.volume.value.owner == s.instance.value.uid && s.instance.value.spec.policy.Retain?)
  }

  function DoReport(s: State, ready: bool): State
    requires s.instance.Some?
  {
    SetInstance(s, s.instance.value.(ready := if ready then Some(s.instance.value.generation) else None))
  }

  // ----- The step relation

  datatype Admission =
    | AcceptCreate(desired: Spec)
    | AcceptUpdate(read: Instance, desired: Spec)
    | AcceptRotate(read: Instance)
    | AcceptReclaim(desired: Spec, volume: Uid)
    | AcceptRemove
    | AcceptRemoveVolume(volume: Uid)
    | AcceptRetry
    | ReconcileReservation(floor: Resources)

  datatype Action =
    | CheckVolume
    | Seal
    | Write(lost: bool)
    | Bind
    | Observe
    | Approve(lost: bool)
    | Verify
    | ListCredentials
    | DropSecret(secret: nat)
    | Succeed
    | Fail
    | Supersede
    | Defer
    | ReadForRemove
    | CapturePolicy
    | IssueDelete
    | ReadVolume
    | ConfirmVolume
    | IssueVolumeDelete

  datatype OperatorWrite =
    | AddFinalizer
    | Transfer(read: Instance)
    | ProvisionVolume(read: Instance)
    | FinalizeVolume
    | ReleaseInstance
    | Report(ready: bool)
    | VolumeGone

  /** Time passes, a request is admitted, a worker takes a claim, a claim does its next action, the operator writes. */
  datatype Step =
    | Pass(seconds: nat)
    | Admit(admission: Admission)
    | Take(op: nat)
    | Work(c: nat, action: Action)
    | Operate(write: OperatorWrite)

  predicate MayAdmit(s: State, a: Admission) {
    match a
    case AcceptCreate(desired) => CanCreate(s, desired)
    case AcceptUpdate(read, desired) => CanUpdate(s, read, desired)
    case AcceptRotate(read) => CanEdit(s, read)
    case AcceptReclaim(desired, volume) => CanReclaim(s, desired, volume)
    case AcceptRemove => CanRemove(s)
    case AcceptRemoveVolume(_) => CanRemoveVolume(s)
    case AcceptRetry => CanRetry(s)
    case ReconcileReservation(_) => CanReconcile(s)
  }

  function DoAdmit(s: State, a: Admission): State
    requires MayAdmit(s, a)
  {
    match a
    case AcceptCreate(desired) => DoCreate(s, desired)
    case AcceptUpdate(read, desired) => DoUpdate(s, read, desired)
    case AcceptRotate(read) => DoRotate(s, read)
    case AcceptReclaim(desired, volume) => DoReclaim(s, desired, volume)
    case AcceptRemove => DoRemove(s)
    case AcceptRemoveVolume(volume) => DoRemoveVolume(s, volume)
    case AcceptRetry => DoRetry(s)
    case ReconcileReservation(floor) => DoReconcile(s, floor)
  }

  /** The stage an action belongs to; giving up is possible at every stage. */
  predicate MayWork(s: State, c: nat, action: Action) {
    && Claimed(s, c)
    && var claim := s.claims[c];
       var request := Row(s, c).request;
       match action
       case CheckVolume => claim.stage.CheckingVolume? && request.Reclaim?
       case Seal => claim.stage.Sealing? && request.Seals()
       case Write(_) => claim.stage.Writing? && request.Configures()
       case Bind => claim.stage.Binding? && claim.answer.Some?
       case Observe => claim.stage.Observing?
       case Approve(_) => claim.stage.Approving? && request.Reclaim? && claim.answer.Some?
       case Verify => claim.stage.Verifying? && claim.answer.Some?
       case ListCredentials => claim.stage.Listing?
       case DropSecret(secret) => claim.stage.Cleaning? && secret in claim.todo
       case Succeed => claim.stage.Cleaning? && claim.todo == {}
       case Fail => !claim.stage.Released?
       case Supersede => claim.stage.Superseding?
       case Defer => !claim.stage.Released?
       case ReadForRemove => claim.stage.ReadingInstance? && request.Remove?
       case CapturePolicy => claim.stage.CapturingPolicy? && claim.answer.Some?
       case IssueDelete => claim.stage.IssuingDelete? && request.Remove?
       case ReadVolume => claim.stage.ReadingVolume? && request.RemoveVolume?
       case ConfirmVolume => claim.stage.ConfirmingVolume?
       case IssueVolumeDelete => claim.stage.IssuingVolumeDelete?
  }

  function DoWrite(s: State, c: nat, lost: bool): State
    requires At(s, c, Writing) && Row(s, c).request.Configures()
  {
    if Row(s, c).request.Provisions() then DoCreateInstance(s, c, lost) else DoUpdateInstance(s, c, lost)
  }

  function DoWork(s: State, c: nat, action: Action): State
    requires MayWork(s, c, action)
  {
    match action
    case CheckVolume => DoCheckVolume(s, c)
    case Seal => DoSeal(s, c)
    case Write(lost) => DoWrite(s, c, lost)
    case Bind => DoBind(s, c)
    case Observe => DoObserve(s, c)
    case Approve(lost) => DoApprove(s, c, lost)
    case Verify => DoVerify(s, c)
    case ListCredentials => DoList(s, c)
    case DropSecret(secret) => DoDropSecret(s, c, secret)
    case Succeed => DoSucceed(s, c)
    case Fail => DoFail(s, c)
    case Supersede => DoSupersede(s, c)
    case Defer => DoDefer(s, c)
    case ReadForRemove => DoReadForRemove(s, c)
    case CapturePolicy => DoCapturePolicy(s, c)
    case IssueDelete => DoIssueDelete(s, c)
    case ReadVolume => DoReadVolume(s, c)
    case ConfirmVolume => DoConfirmVolume(s, c)
    case IssueVolumeDelete => DoIssueVolumeDelete(s, c)
  }

  predicate MayOperate(s: State, w: OperatorWrite) {
    match w
    case AddFinalizer => CanAddFinalizer(s)
    case Transfer(read) => CanTransfer(s, read)
    case ProvisionVolume(read) => CanProvisionVolume(s, read)
    case FinalizeVolume => CanFinalizeVolume(s)
    case ReleaseInstance => CanRelease(s)
    case Report(_) => s.instance.Some?
    case VolumeGone => s.volume.Some? && s.volume.value.deleting
  }

  function DoOperate(s: State, w: OperatorWrite): State
    requires MayOperate(s, w)
  {
    match w
    case AddFinalizer => DoAddFinalizer(s)
    case Transfer(read) => DoTransfer(s, read)
    case ProvisionVolume(read) => DoProvisionVolume(s, read)
    case FinalizeVolume => DoFinalizeVolume(s)
    case ReleaseInstance => s.(instance := None)
    case Report(ready) => DoReport(s, ready)
    case VolumeGone => s.(volume := None)
  }

  predicate Enabled(s: State, step: Step) {
    match step
    case Pass(_) => true
    case Admit(a) => MayAdmit(s, a)
    case Take(op) => CanTake(s, op)
    case Work(c, action) => MayWork(s, c, action)
    case Operate(w) => MayOperate(s, w)
  }

  function Apply(s: State, step: Step): State
    requires Enabled(s, step)
  {
    match step
    case Pass(seconds) => s.(now := s.now + seconds)
    case Admit(a) => DoAdmit(s, a)
    case Take(op) => DoTake(s, op)
    case Work(c, action) => DoWork(s, c, action)
    case Operate(w) => DoOperate(s, w)
  }

  /** A run is a sequence of steps, each enabled in the state the previous ones lead to. */
  predicate Run(s: State, steps: seq<Step>)
    decreases |steps|, 0
  {
    steps == [] ||
    (Run(s, steps[..|steps| - 1]) && Enabled(After(s, steps[..|steps| - 1]), steps[|steps| - 1]))
  }

  function After(s: State, steps: seq<Step>): State
    requires Run(s, steps)
    decreases |steps|, 1
  {
    if steps == [] then s
    else Apply(After(s, steps[..|steps| - 1]), steps[|steps| - 1])
  }

  lemma Extended(s: State, steps: seq<Step>, step: Step)
    requires Run(s, steps) && Enabled(After(s, steps), step)
    ensures Run(s, steps + [step]) && After(s, steps + [step]) == Apply(After(s, steps), step)
  {
    assert (steps + [step])[..|steps|] == steps;
  }
}
