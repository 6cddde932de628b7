/**
 Image trust across deletion and reclaim, as a state machine.

 Objects come and go under one name.  The operator binds the complete image set of an object once,
 seals it in an ownerless record when the object is deleted and its volume retained, and pins that
 record by identity on the volume.  Anybody else may delete records, make new ones under any name and
 with any content, and change everything about a record but the content of a sealed one; workloads may
 be changed or get lost; and what the operator is told to use by default may be anything at any time.
 Objects from before there were bindings come with a volume and a workload of their own.
 */
module Images {
  import opened Wrappers

  type Uid = nat
  type ImageSet = map<string, string>

  datatype Policy = Retain | Delete

  datatype Binding = Binding(format: string, instance: Uid, template: string, images: ImageSet)

  datatype Status = Status(binding: Option<Binding>, rest: nat)

  datatype Reclaim = Reclaim(previous: Uid, volume: Uid)

  datatype Instance = Instance(
    uid: Uid, template: string, pinned: bool, reclaim: Option<Reclaim>, policy: Policy, deleting: bool, status: Status)

  datatype RecordName = RecordName(instance: Uid, volume: Uid) | OtherName(name: string)

  datatype Pin = Pin(name: RecordName, uid: Uid)

  datatype Volume = Volume(uid: Uid, owner: Uid, pin: Option<Pin>)

  datatype Receipt = Receipt(volume: Uid, binding: Binding)

  /** `holder` is the identity label; `receipt` is none where the content cannot be read as one. */
  datatype Record = Record(uid: Uid, immutable: bool, owned: bool, deleting: bool, holder: Uid, receipt: Option<Receipt>)

  datatype Workload = Workload(owner: Uid, images: ImageSet)

  /** What a reconcile has decided to bind and not yet written. */
  datatype Decision = Decision(instance: Uid, images: ImageSet)

  /** A record that was found to fit, to be pinned on the volume if that is still as it was read. */
  datatype Finding = Finding(volume: Volume, pin: Pin)

  /** `bound` holds every object as it was when its binding was written, `imagesOf` its images, `origin` the images of the
      object that provisioned a volume, `sealed` the content of every immutable record. */
  datatype History = History(
    bound: set<Instance>, imagesOf: map<Uid, ImageSet>, origin: map<Uid, ImageSet>, sealed: map<Uid, Option<Receipt>>)

  datatype State = State(
    instance: Option<Instance>,
    volume: Option<Volume>,
    workload: Option<Workload>,
    records: map<RecordName, Record>,
    decisions: set<Decision>,
    findings: set<Finding>,
    nextUid: Uid,
    history: History)

  const Format: string := "v1"

  const Initial: State := State(None, None, None, map[], {}, {}, 0, History({}, map[], map[], map[]))

  // ----- Checks (image_binding.go, retained_images.go)

  predicate Trusted(c: Instance, binding: Option<Binding>) {
    binding.Some? && binding.value.format == Format && binding.value.instance == c.uid && binding.value.template == c.template
  }

  predicate Matches(workload: Option<Workload>, images: ImageSet) {
    workload.Some? ==> workload.value.images == images
  }

  datatype Reason =
    | VolumeMissing | VolumeDiffers | RecordUnpinned | RecordMissing | RecordDiffers | RecordInvalid | ReceiptDiffers
    | ApprovalRequired | LegacyWorkloadMissing | RecoveryRequired
    | OwnershipRejected | BindingRejected | WorkloadDrift | LegacyApprovalRequired | InvalidConfiguration

  datatype Verdict = Rejected(reason: Reason) | Approved(images: ImageSet)

  /** The images a retained volume may be recovered with: those of the pinned record, or none. */
  function RetainedImages(s: State, c: Instance): Verdict {
    if s.volume.None? then Rejected(VolumeMissing)
    else
      var v := s.volume.value;
      if c.reclaim.None? || c.reclaim.value.previous == c.uid || c.reclaim.value.volume != v.uid ||
         (v.owner != c.reclaim.value.previous && v.owner != c.uid) then Rejected(VolumeDiffers)
      else if v.pin.None? then Rejected(RecordUnpinned)
      else if v.pin.value.name !in s.records then Rejected(RecordMissing)
      else
        var record := s.records[v.pin.value.name];
        if record.uid != v.pin.value.uid || !record.immutable || record.deleting || record.owned ||
           record.holder != c.reclaim.value.previous then Rejected(RecordDiffers)
        else if record.receipt.None? then Rejected(RecordInvalid)
        else
          var receipt := record.receipt.value;
          if receipt.volume != c.reclaim.value.volume || receipt.binding.instance != c.reclaim.value.previous ||
             receipt.binding.template != c.template || receipt.binding.format != Format
          then Rejected(ReceiptDiffers)
          else Approved(receipt.binding.images)
  }

  /** What an object without a binding may be bound to; `defaults` is what the operator is configured with, if it is complete. */
  function FirstImages(s: State, c: Instance, defaults: Option<ImageSet>): Verdict {
    if c.reclaim.Some? then RetainedImages(s, c)
    else if defaults.None? then Rejected(ApprovalRequired)
    else if s.workload.None? && !c.pinned then Rejected(LegacyWorkloadMissing)
    else if s.workload.None? && s.volume.Some? then Rejected(RecoveryRequired)
    else Approved(defaults.value)
  }

  function Resolve(s: State, c: Instance, defaults: Option<ImageSet>): Verdict {
    if s.workload.Some? && s.workload.value.owner != c.uid then Rejected(OwnershipRejected)
    else if c.status.binding.Some? then
      if !Trusted(c, c.status.binding) then Rejected(BindingRejected)
      else if !Matches(s.workload, c.status.binding.value.images) then Rejected(WorkloadDrift)
      else Approved(c.status.binding.value.images)
    else
      var first := FirstImages(s, c, defaults);
      if first.Rejected? then first
      else if !Matches(s.workload, first.images) then Rejected(LegacyApprovalRequired)
      else first
  }

  // ----- Steps

  datatype Step =
    | Create(template: string, pinned: bool, reclaim: Option<Reclaim>, policy: Policy)
    | Inherit(template: string, policy: Policy, images: ImageSet)
    | Decide(defaults: Option<ImageSet>)
    | Persist(decision: Decision)
    | Provision(read: Instance)
    | Transfer(read: Instance)
    | Report(stale: Status)
    | MarkDeleted
    | WriteRecord(read: Instance)
    | CheckRecord(read: Instance)
    | PinRecord(finding: Finding)
    | Release
    | VolumeGone
    | WorkloadGone
    | Drift(workload: Workload)
    | Redeploy(read: Instance)
    | RecordGone(name: RecordName)
    | Forge(name: RecordName, record: Record)
    | Tamper(name: RecordName, record: Record)

  function ReceiptFor(c: Instance, v: Volume): Receipt
    requires c.status.binding.Some?
  {
    Receipt(v.uid, c.status.binding.value)
  }

  /** A record can be kept for an object and its volume.  The operator may work with any version it has read since the binding. */
  predicate Retainable(s: State, read: Instance) {
    && read in s.history.bound && read.policy.Retain? && s.volume.Some? && s.volume.value.owner == read.uid
    && Trusted(read, read.status.binding) && Matches(s.workload, read.status.binding.value.images)
  }

  predicate RecordFits(s: State, c: Instance, v: Volume)
    requires c.status.binding.Some?
  {
    RecordName(c.uid, v.uid) in s.records &&
    var record := s.records[RecordName(c.uid, v.uid)];
    record.immutable && !record.owned && !record.deleting && record.holder == c.uid && record.receipt == Some(ReceiptFor(c, v))
  }

  predicate Enabled(s: State, step: Step) {
    match step
    case Create(_, _, reclaim, _) => s.instance.None?
    case Inherit(_, _, _) => s.instance.None? && s.volume.None?
    case Decide(defaults) =>
      s.instance.Some? && !s.instance.value.deleting && s.instance.value.status.binding.None? && Resolve(s, s.instance.value, defaults).Approved?
    case Persist(decision) =>
      decision in s.decisions && s.instance.Some? && s.instance.value.uid == decision.instance && s.instance.value.status.binding.None?
    case Provision(read) => read in s.history.bound && read.uid in s.history.imagesOf && s.volume.None?
    case Transfer(read) =>
      && read in s.history.bound && read.uid in s.history.imagesOf && read.reclaim.Some? && s.volume.Some?
      && s.volume.value.uid == read.reclaim.value.volume && s.volume.value.owner == read.reclaim.value.previous
    case Report(_) => s.instance.Some?
    case MarkDeleted => s.instance.Some?
    case WriteRecord(read) => Retainable(s, read) && RecordName(read.uid, s.volume.value.uid) !in s.records
    case CheckRecord(read) => Retainable(s, read) && RecordFits(s, read, s.volume.value)
    case PinRecord(finding) => finding in s.findings && s.volume == Some(finding.volume)
    case Release => s.instance.Some? && s.instance.value.deleting
    case VolumeGone => s.volume.Some?
    case WorkloadGone => s.workload.Some?
    case Drift(_) => s.workload.Some?
    case Redeploy(read) =>
      && read in s.history.bound && read.uid in s.history.imagesOf && s.workload.None?
      && s.volume.Some? && s.volume.value.owner == read.uid
    case RecordGone(name) => name in s.records
    case Forge(name, record) => name !in s.records && record.uid == s.nextUid
    case Tamper(name, record) =>
      && name in s.records && record.uid == s.records[name].uid
      && (s.records[name].immutable ==> record.immutable && record.receipt == s.records[name].receipt)
  }

  function Sealing(history: History, record: Record): History {
    if record.immutable then history.(sealed := history.sealed[record.uid := record.receipt]) else history
  }

  function WithStatus(s: State, status: Status): State
    requires s.instance.Some?
  {
    s.(instance := Some(s.instance.value.(status := status)))
  }

  /** The first binding of an object that has had its volume since before there were bindings. */
  predicate Adopts(s: State, c: Instance) {
    s.volume.Some? && s.volume.value.owner == c.uid && s.volume.value.uid !in s.history.origin
  }

  function Bound(c: Instance, images: ImageSet): Binding {
    Binding(Format, c.uid, c.template, images)
  }

  /** A status is replaced by a stale one, but for the binding the object has now. */
  function Reported(current: Status, stale: Status): Status {
    stale.(binding := current.binding)
  }

  function Apply(s: State, step: Step): State
    requires Enabled(s, step)
  {
    match step
    case Create(template, pinned, reclaim, policy) =>
      s.(instance := Some(Instance(s.nextUid, template, pinned, reclaim, policy, false, Status(None, 0))), nextUid := s.nextUid + 1)
    case Inherit(template, policy, images) =>
      s.(instance := Some(Instance(s.nextUid, template, false, None, policy, false, Status(None, 0))),
         volume := Some(Volume(s.nextUid + 1, s.nextUid, None)),
         workload := Some(Workload(s.nextUid, images)),
         nextUid := s.nextUid + 2)
    case Decide(defaults) =>
      s.(decisions := s.decisions + {Decision(s.instance.value.uid, Resolve(s, s.instance.value, defaults).images)})
    case Persist(decision) =>
      var c := s.instance.value;
      var next := WithStatus(s, c.status.(binding := Some(Bound(c, decision.images))));
      next.(history := s.history.(
              bound := s.history.bound + {next.instance.value},
              imagesOf := s.history.imagesOf[c.uid := decision.images],
              origin := if Adopts(s, c) then s.history.origin[s.volume.value.uid := decision.images] else s.history.origin))
    case Provision(read) =>
      var images := s.history.imagesOf[read.uid];
      s.(volume := Some(Volume(s.nextUid, read.uid, None)),
         workload := Some(Workload(read.uid, images)),
         nextUid := s.nextUid + 1,
         history := s.history.(origin := s.history.origin[s.nextUid := images]))
    case Transfer(read) =>
      s.(volume := Some(s.volume.value.(owner := read.uid)), workload := Some(Workload(read.uid, s.history.imagesOf[read.uid])))
    case Report(stale) => WithStatus(s, Reported(s.instance.value.status, stale))
    case MarkDeleted => s.(instance := Some(s.instance.value.(deleting := true)))
    case WriteRecord(read) =>
      var record := Record(s.nextUid, true, false, false, read.uid, Some(ReceiptFor(read, s.volume.value)));
      s.(records := s.records[RecordName(read.uid, s.volume.value.uid) := record],
         nextUid := s.nextUid + 1, history := Sealing(s.history, record))
    case CheckRecord(read) =>
      var name := RecordName(read.uid, s.volume.value.uid);
      s.(findings := s.findings + {Finding(s.volume.value, Pin(name, s.records[name].uid))})
    case PinRecord(finding) => s.(volume := Some(s.volume.value.(pin := Some(finding.pin))))
    case Release => s.(instance := None)
    case VolumeGone => s.(volume := None)
    case WorkloadGone => s.(workload := None)
    case Drift(workload) => s.(workload := Some(workload))
    case Redeploy(read) => s.(workload := Some(Workload(read.uid, s.history.imagesOf[read.uid])))
    case RecordGone(name) => s.(records := s.records - {name})
    case Forge(name, record) =>
      s.(records := s.records[name := record], nextUid := s.nextUid + 1, history := Sealing(s.history, record))
    case Tamper(name, record) => s.(records := s.records[name := record], history := Sealing(s.history, record))
  }

  predicate Run(steps: seq<Step>)
    decreases |steps|, 0
  {
    steps == [] || (Run(steps[..|steps| - 1]) && Enabled(After(steps[..|steps| - 1]), steps[|steps| - 1]))
  }

  function After(steps: seq<Step>): State
    requires Run(steps)
    decreases |steps|, 1
  {
    if steps == [] then Initial else Apply(After(steps[..|steps| - 1]), steps[|steps| - 1])
  }

  // ----- The invariant

  /** What is bound, or is about to be, under a reclaim is what the volume began with. */
  predicate Follows(s: State, c: Instance, images: ImageSet) {
    c.reclaim.Some? ==> c.reclaim.value.volume in s.history.origin && s.history.origin[c.reclaim.value.volume] == images
  }

  predicate InstanceInv(s: State) {
    s.instance.Some? ==>
      && s.instance.value.uid < s.nextUid
      && (s.instance.value.status.binding.Some? ==>
            && s.instance.value.uid in s.history.imagesOf
            && s.history.imagesOf[s.instance.value.uid] == s.instance.value.status.binding.value.images
            && Follows(s, s.instance.value, s.instance.value.status.binding.value.images))
      && (s.instance.value.status.binding.None? ==> s.instance.value.uid !in s.history.imagesOf)
      && (forall d | d in s.decisions && d.instance == s.instance.value.uid :: Follows(s, s.instance.value, d.images))
  }

  predicate BoundInv(s: State) {
    forall c | c in s.history.bound ::
      && c.status.binding.Some? && c.uid in s.history.imagesOf && s.history.imagesOf[c.uid] == c.status.binding.value.images
      && Follows(s, c, c.status.binding.value.images)
  }

  /** What is pinned, or is about to be, is a sealed record with the images the volume began with. */
  predicate Genuine(s: State, pin: Pin, volume: Uid) {
    && volume in s.history.origin && pin.uid in s.history.sealed && s.history.sealed[pin.uid].Some?
    && s.history.sealed[pin.uid].value.binding.images == s.history.origin[volume]
  }

  /** A volume is that of an object bound to the images it began with, or still waits for the first binding of its object. */
  predicate VolumeInv(s: State) {
    s.volume.Some? ==>
      && s.volume.value.uid < s.nextUid && s.volume.value.owner < s.nextUid
      && (if s.volume.value.uid in s.history.origin
          then s.volume.value.owner in s.history.imagesOf &&
               s.history.imagesOf[s.volume.value.owner] == s.history.origin[s.volume.value.uid]
          else s.volume.value.owner !in s.history.imagesOf)
      && (s.volume.value.pin.Some? ==> Genuine(s, s.volume.value.pin.value, s.volume.value.uid))
  }

  /** Sealed records are as they were sealed, and no identity is that of two records. */
  predicate RecordsInv(records: map<RecordName, Record>, sealed: map<Uid, Option<Receipt>>, nextUid: Uid) {
    && (forall n | n in records :: records[n].uid < nextUid)
    && (forall n | n in records && records[n].immutable :: records[n].uid in sealed && sealed[records[n].uid] == records[n].receipt)
    && (forall n | n in records && !records[n].immutable :: records[n].uid !in sealed)
    && (forall n, m | n in records && m in records && records[n].uid == records[m].uid :: n == m)
    && (forall u | u in sealed :: u < nextUid)
  }

  predicate Inv(s: State) {
    && InstanceInv(s) && BoundInv(s) && VolumeInv(s)
    && (forall f | f in s.findings :: Genuine(s, f.pin, f.volume.uid))
    && RecordsInv(s.records, s.history.sealed, s.nextUid)
    && (forall u | u in s.history.imagesOf :: u < s.nextUid)
    && (forall u | u in s.history.origin :: u < s.nextUid)
    && (forall d | d in s.decisions :: d.instance < s.nextUid)
  }

  /** A recovery uses the images the volume began with, or is rejected, whatever the defaults and whatever was done to the records. */
  lemma RecoveryIsOriginalOrRejected(s: State, c: Instance, defaults: Option<ImageSet>)
    requires Inv(s) && c.reclaim.Some? && c.status.binding.None?
    ensures Resolve(s, c, defaults).Rejected? || Follows(s, c, Resolve(s, c, defaults).images)
  {
  }

  // ----- Every step keeps it

  lemma DecideKeeps(s: State, defaults: Option<ImageSet>)
    requires Inv(s) && Enabled(s, Decide(defaults))
    ensures Inv(Apply(s, Decide(defaults)))
  {
    if s.instance.value.reclaim.Some? { RecoveryIsOriginalOrRejected(s, s.instance.value, defaults); }
  }

  lemma PersistKeeps(s: State, decision: Decision)
    requires Inv(s) && Enabled(s, Persist(decision))
    ensures Inv(Apply(s, Persist(decision)))
  {
    hide RecordsInv;
  }

  lemma ProvisionKeeps(s: State, read: Instance)
    requires Inv(s) && Enabled(s, Provision(read))
    ensures Inv(Apply(s, Provision(read)))
  {
  }

  lemma TransferKeeps(s: State, read: Instance)
    requires Inv(s) && Enabled(s, Transfer(read))
    ensures Inv(Apply(s, Transfer(read)))
  {
  }

  lemma VolumeStepKeeps(s: State, step: Step)
    requires Inv(s) && Enabled(s, step) && (step.VolumeGone? || step.WorkloadGone? || step.Drift? || step.Redeploy?)
    ensures Inv(Apply(s, step))
  {
  }

  lemma InstanceStepKeeps(s: State, step: Step)
    requires Inv(s) && Enabled(s, step) && (step.Create? || step.Inherit? || step.Report? || step.MarkDeleted? || step.Release?)
    ensures Inv(Apply(s, step))
  {
  }

  /** A record is put under a name, with an identity that is new or that of the unsealed record there. */
  lemma PutKeeps(s: State, name: RecordName, record: Record, next: Uid)
    requires Inv(s) && record.uid < next && s.nextUid <= next
    requires
      || (name !in s.records && record.uid == s.nextUid)
      || (&& name in s.records && record.uid == s.records[name].uid
          && (s.records[name].immutable ==> record.immutable && record.receipt == s.records[name].receipt))
    ensures Inv(s.(records := s.records[name := record], nextUid := next, history := Sealing(s.history, record)))
  {
  }

  lemma TamperKeeps(s: State, name: RecordName, record: Record)
    requires Inv(s) && Enabled(s, Tamper(name, record))
    ensures Inv(Apply(s, Tamper(name, record)))
  {
    assert s.records[name].uid < s.nextUid;
    hide Inv;
    PutKeeps(s, name, record, s.nextUid);
  }

  lemma RecordStepKeeps(s: State, step: Step)
    requires Inv(s) && Enabled(s, step) && (step.WriteRecord? || step.RecordGone? || step.Forge? || step.Tamper?)
    ensures Inv(Apply(s, step))
  {
    match step {
      case WriteRecord(_) =>
        var record := Record(s.nextUid, true, false, false, step.read.uid, Some(ReceiptFor(step.read, s.volume.value)));
        PutKeeps(s, RecordName(step.read.uid, s.volume.value.uid), record, s.nextUid + 1);
      case Forge(name, record) => PutKeeps(s, name, record, s.nextUid + 1);
      case Tamper(name, record) => TamperKeeps(s, name, record);
      case RecordGone(_) =>
    }
  }

  lemma CheckKeeps(s: State, read: Instance)
    requires Inv(s) && Enabled(s, CheckRecord(read))
    ensures Inv(Apply(s, CheckRecord(read)))
  {
    var v := s.volume.value;
    assert s.history.imagesOf[v.owner] == s.history.origin[v.uid];
    assert Genuine(s, Pin(RecordName(read.uid, v.uid), s.records[RecordName(read.uid, v.uid)].uid), v.uid);
  }

  lemma PinKeeps(s: State, finding: Finding)
    requires Inv(s) && Enabled(s, PinRecord(finding))
    ensures Inv(Apply(s, PinRecord(finding)))
  {
  }

  lemma StepKeeps(s: State, step: Step)
    requires Inv(s) && Enabled(s, step)
    ensures Inv(Apply(s, step))
  {
    hide Inv, Apply, Enabled;
    match step {
      case Decide(defaults) => DecideKeeps(s, defaults);
      case Persist(decision) => PersistKeeps(s, decision);
      case CheckRecord(read) => CheckKeeps(s, read);
      case PinRecord(finding) => PinKeeps(s, finding);
      case Provision(read) => ProvisionKeeps(s, read);
      case Transfer(read) => TransferKeeps(s, read);
      case VolumeGone => VolumeStepKeeps(s, step);
      case WorkloadGone => VolumeStepKeeps(s, step);
      case Drift(_) => VolumeStepKeeps(s, step);
      case Redeploy(_) => VolumeStepKeeps(s, step);
      case Inherit(_, _, _) => InstanceStepKeeps(s, step);
      case Create(_, _, _, _) => InstanceStepKeeps(s, step);
      case Report(_) => InstanceStepKeeps(s, step);
      case MarkDeleted => InstanceStepKeeps(s, step);
      case Release => InstanceStepKeeps(s, step);
      case _ => RecordStepKeeps(s, step);
    }
  }

  lemma {:induction false} RunKeeps(steps: seq<Step>)
    requires Run(steps)
    ensures Inv(After(steps))
    decreases |steps|
  {
    if steps != [] {
      RunKeeps(steps[..|steps| - 1]);
      StepKeeps(After(steps[..|steps| - 1]), steps[|steps| - 1]);
    }
  }

  // ----- Main results

  /** A binding is written once: no step, not even a stale status report, alters or clears it while the object lives. */
  lemma BindingIsWriteOnce(s: State, step: Step)
    requires Enabled(s, step) && s.instance.Some? && s.instance.value.status.binding.Some?
    requires s.instance.value.uid < s.nextUid
    ensures
      var t := Apply(s, step);
      t.instance.Some? && t.instance.value.uid == s.instance.value.uid ==> t.instance.value.status.binding == s.instance.value.status.binding
  {
  }

  /** Neither what an object was bound to nor what a volume began with is ever rewritten. */
  lemma HistoryGrows(s: State, step: Step)
    requires Inv(s) && Enabled(s, step)
    ensures forall u | u in s.history.imagesOf :: u in Apply(s, step).history.imagesOf && Apply(s, step).history.imagesOf[u] == s.history.imagesOf[u]
    ensures forall v | v in s.history.origin :: v in Apply(s, step).history.origin && Apply(s, step).history.origin[v] == s.history.origin[v]
  {
  }

  lemma {:induction false} HistoryStays(earlier: seq<Step>, steps: seq<Step>)
    requires Run(steps) && earlier <= steps && Run(earlier)
    ensures forall u | u in After(earlier).history.imagesOf ::
              u in After(steps).history.imagesOf && After(steps).history.imagesOf[u] == After(earlier).history.imagesOf[u]
    ensures forall v | v in After(earlier).history.origin ::
              v in After(steps).history.origin && After(steps).history.origin[v] == After(earlier).history.origin[v]
    decreases |steps|
  {
    if |earlier| < |steps| {
      var front := steps[..|steps| - 1];
      assert earlier <= front;
      HistoryStays(earlier, front);
      RunKeeps(front);
      HistoryGrows(After(front), steps[|steps| - 1]);
    } else {
      assert earlier == steps;
    }
  }

  /** The owner of a volume is bound to what the volume began with from the moment that is settled, and stays the owner until then. */
  lemma {:induction false} OwnerFollows(earlier: seq<Step>, steps: seq<Step>)
    requires Run(steps) && earlier <= steps && Run(earlier) && After(earlier).volume.Some?
    ensures
      var v, a := After(earlier).volume.value.uid, After(earlier).volume.value.owner;
      var t := After(steps);
      && (v in t.history.origin ==> a in t.history.imagesOf && t.history.imagesOf[a] == t.history.origin[v])
      && (v !in t.history.origin && t.volume.Some? && t.volume.value.uid == v ==> t.volume.value.owner == a)
      && v < t.nextUid
    decreases |steps|
  {
    RunKeeps(earlier);
    if |earlier| < |steps| {
      var front := steps[..|steps| - 1];
      assert earlier <= front;
      OwnerFollows(earlier, front);
      RunKeeps(front);
      OwnerStep(After(front), steps[|steps| - 1], After(earlier).volume.value.uid, After(earlier).volume.value.owner);
    } else {
      assert earlier == steps;
    }
  }

  lemma OwnerStep(s: State, step: Step, v: Uid, a: Uid)
    requires Inv(s) && Enabled(s, step) && v < s.nextUid
    requires v in s.history.origin ==> a in s.history.imagesOf && s.history.imagesOf[a] == s.history.origin[v]
    requires v !in s.history.origin && s.volume.Some? && s.volume.value.uid == v ==> s.volume.value.owner == a
    ensures
      var t := Apply(s, step);
      && (v in t.history.origin ==> a in t.history.imagesOf && t.history.imagesOf[a] == t.history.origin[v])
      && (v !in t.history.origin && t.volume.Some? && t.volume.value.uid == v ==> t.volume.value.owner == a)
      && v < t.nextUid
  {
    HistoryGrows(s, step);
  }

  /** Along any chain of deletions and reclaims all objects that ever owned one volume are bound to the same images, once the
      volume's first object is bound. */
  lemma ChainKeepsImages(earlier: seq<Step>, steps: seq<Step>)
    requires Run(steps) && earlier <= steps && Run(earlier)
    requires After(earlier).volume.Some? && After(steps).volume.Some? && After(earlier).volume.value.uid == After(steps).volume.value.uid
    ensures
      var first, last := After(earlier).volume.value.owner, After(steps).volume.value.owner;
      var images := After(steps).history.imagesOf;
      && (last in images ==> first in images && images[first] == images[last])
      && (After(earlier).volume.value.uid in After(earlier).history.origin ==> last in images)
      && (last !in images ==> first == last)
  {
    RunKeeps(steps);
    HistoryStays(earlier, steps);
    OwnerFollows(earlier, steps);
  }

  /** An object that reclaims a volume is bound to the images the volume began with, before it owns it and ever after. */
  lemma BoundReclaimFollows(steps: seq<Step>)
    requires Run(steps) && After(steps).instance.Some?
    requires After(steps).instance.value.reclaim.Some? && After(steps).instance.value.status.binding.Some?
    ensures
      var s := After(steps);
      var v := s.instance.value.reclaim.value.volume;
      v in s.history.origin && s.instance.value.status.binding.value.images == s.history.origin[v]
  {
    RunKeeps(steps);
  }
}
