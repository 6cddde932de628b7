/** The operator's image decisions as they run, each tied to a step of the image trust machine. */
module ImageOperator {
  import opened Wrappers
  import opened Images
  import opened Approvals

  datatype Container = Container(name: string, image: string)

  /** The first `n` containers can be told apart: none is unnamed, and a name comes again only after it stood for no image. */
  predicate Distinguishable(containers: seq<Container>, n: nat)
    requires n <= |containers|
  {
    && (forall i | 0 <= i < n :: containers[i].name != "")
    && (forall i, j | 0 <= i < j < n && containers[i].name == containers[j].name :: containers[i].image == "")
  }

  predicate Last(containers: seq<Container>, n: nat, i: nat)
    requires i < n <= |containers|
  {
    forall j | i < j < n :: containers[j].name != containers[i].name
  }

  /** `images` gives every container's name its image, that of the last one where several share it. */
  predicate ImagesOf(containers: seq<Container>, n: nat, images: ImageSet)
    requires n <= |containers|
  {
    && (forall name | name in images :: exists i | 0 <= i < n :: containers[i].name == name)
    && (forall i | 0 <= i < n :: containers[i].name in images)
    && (forall i | 0 <= i < n && Last(containers, n, i) :: images[containers[i].name] == containers[i].image)
  }

  /** No name that has been given an image comes again. */
  predicate Settled(containers: seq<Container>, n: nat, images: ImageSet)
    requires n <= |containers| && forall i | 0 <= i < n :: containers[i].name in images
  {
    && (forall i | 0 <= i < n && containers[i].image != "" :: images[containers[i].name] == containers[i].image)
    && (forall name | name in images && images[name] != "" :: exists i | 0 <= i < n :: containers[i] == Container(name, images[name]))
  }

  lemma MoreDistinguishable(containers: seq<Container>, i: nat, images: ImageSet)
    requires i < |containers| && Distinguishable(containers, i) && (forall j | 0 <= j < i :: containers[j].name in images)
    requires forall j | 0 <= j < i && containers[j].image != "" :: images[containers[j].name] == containers[j].image
    requires containers[i].name != "" && (containers[i].name in images ==> images[containers[i].name] == "")
    ensures Distinguishable(containers, i + 1)
  {
  }

  lemma MoreImages(containers: seq<Container>, i: nat, images: ImageSet)
    requires i < |containers| && ImagesOf(containers, i, images)
    ensures ImagesOf(containers, i + 1, images[containers[i].name := containers[i].image])
  {
    var next := images[containers[i].name := containers[i].image];
    forall name | name in next ensures exists j | 0 <= j < i + 1 :: containers[j].name == name {
      if name == containers[i].name { assert containers[i].name == name; }
    }
    forall k | 0 <= k < i + 1 && Last(containers, i + 1, k) ensures next[containers[k].name] == containers[k].image {
      if k < i { assert containers[i].name != containers[k].name && Last(containers, i, k); }
    }
  }

  lemma MoreSettled(containers: seq<Container>, i: nat, images: ImageSet)
    requires i < |containers| && (forall j | 0 <= j < i :: containers[j].name in images) && Settled(containers, i, images)
    requires containers[i].name in images ==> images[containers[i].name] == ""
    ensures Settled(containers, i + 1, images[containers[i].name := containers[i].image])
  {
    var next := images[containers[i].name := containers[i].image];
    forall name | name in next && next[name] != "" ensures exists j | 0 <= j < i + 1 :: containers[j] == Container(name, next[name]) {
      if name == containers[i].name { assert containers[i] == Container(name, next[name]); }
    }
  }

  lemma OneMore(containers: seq<Container>, i: nat, images: ImageSet)
    requires i < |containers| && Distinguishable(containers, i) && ImagesOf(containers, i, images) && Settled(containers, i, images)
    requires containers[i].name != "" && (containers[i].name in images ==> images[containers[i].name] == "")
    ensures Distinguishable(containers, i + 1)
    ensures ImagesOf(containers, i + 1, images[containers[i].name := containers[i].image])
    ensures Settled(containers, i + 1, images[containers[i].name := containers[i].image])
  {
    MoreDistinguishable(containers, i, images);
    hide Distinguishable;
    MoreSettled(containers, i, images);
    hide Settled;
    MoreImages(containers, i, images);
  }

  method PodImages(initContainers: nat, containers: seq<Container>) returns (images: Option<ImageSet>)
    ensures images.Some? <==> initContainers == 0 && Distinguishable(containers, |containers|)
    ensures images.Some? ==> ImagesOf(containers, |containers|, images.value)
  {
    hide ImagesOf, Settled, Distinguishable;
    if initContainers != 0 { return None; }
    var found: ImageSet := map[];
    Nothing(containers);
    for i := 0 to |containers|
      invariant Distinguishable(containers, i) && ImagesOf(containers, i, found)
      invariant (forall j | 0 <= j < i :: containers[j].name in found) && Settled(containers, i, found)
    {
      if containers[i].name == "" || (containers[i].name in found && found[containers[i].name] != "") {
        Confused(containers, i, found);
        return None;
      }
      OneMore(containers, i, found);
      found := found[containers[i].name := containers[i].image];
    }
    return Some(found);
  }

  /** A name's image is that of its last container, so there is only one such map. */
  lemma ImagesUnique(containers: seq<Container>, a: ImageSet, b: ImageSet)
    requires ImagesOf(containers, |containers|, a) && ImagesOf(containers, |containers|, b)
    ensures a == b
  {
    forall name | name in a ensures name in b && a[name] == b[name] {
      var i :| 0 <= i < |containers| && containers[i].name == name;
      var k := LastOf(containers, i);
    }
    forall name | name in b ensures name in a {
      var i :| 0 <= i < |containers| && containers[i].name == name;
    }
  }

  ghost function LastOf(containers: seq<Container>, i: nat): (k: nat)
    requires i < |containers|
    ensures i <= k < |containers| && containers[k].name == containers[i].name && Last(containers, |containers|, k)
    decreases |containers| - i
  {
    if Last(containers, |containers|, i) then i
    else
      var j: nat :| i < j < |containers| && containers[j].name == containers[i].name;
      LastOf(containers, j)
  }

  // ----- Running Pods

  /** Whose Pod it is: of another owner, of an owner with the workload's identity, or of exactly the workload that exists. */
  datatype Control = Other | SameIdentity | Exact

  /** `identity` is the one it is labelled with, `placed` says that its other labels are the object's, `mounts` that it uses
      the object's volume. */
  datatype Pod = Pod(identity: Option<Uid>, placed: bool, control: Control, mounts: bool, initContainers: nat, containers: seq<Container>)

  predicate Concerns(c: Instance, running: bool, p: Pod) {
    p.identity == Some(c.uid) || (running && !p.control.Other?) || p.mounts
  }

  predicate Runs(p: Pod, images: ImageSet) {
    p.initContainers == 0 && Distinguishable(p.containers, |p.containers|) && ImagesOf(p.containers, |p.containers|, images)
  }

  function PodIssue(c: Instance, running: bool, p: Pod, images: ImageSet): Option<Reason> {
    if !Concerns(c, running, p) then None
    else if !running || !p.control.Exact? || p.identity != Some(c.uid) || !p.placed then Some(OwnershipRejected)
    else if !Runs(p, images) then Some(if c.status.binding.None? then LegacyApprovalRequired else WorkloadDrift)
    else None
  }

  function PodsIssue(c: Instance, running: bool, pods: seq<Pod>, images: ImageSet): Option<Reason> {
    if pods == [] then None
    else
      var first := PodIssue(c, running, pods[0], images);
      if first.Some? then first else PodsIssue(c, running, pods[1..], images)
  }

  method VerifyWorkloadPods(c: Instance, running: bool, pods: seq<Pod>, images: ImageSet) returns (reason: Option<Reason>)
    ensures reason == PodsIssue(c, running, pods, images)
  {
    hide Distinguishable, ImagesOf;
    for i := 0 to |pods|
      invariant PodsIssue(c, running, pods, images) == PodsIssue(c, running, pods[i..], images)
    {
      var p := pods[i];
      assert pods[i..][0] == p && pods[i..][1..] == pods[i + 1..];
      if p.identity != Some(c.uid) && !(running && !p.control.Other?) && !p.mounts { continue; }
      if !running || !p.control.Exact? || p.identity != Some(c.uid) || !p.placed { return Some(OwnershipRejected); }
      var actual := PodImages(p.initContainers, p.containers);
      if actual.Some? && ImagesOf(p.containers, |p.containers|, images) {
        ImagesUnique(p.containers, actual.value, images);
      }
      if actual != Some(images) { return Some(if c.status.binding.None? then LegacyApprovalRequired else WorkloadDrift); }
    }
    return None;
  }

  /** The whole decision: the binding, then the running Pods, and for a first binding the rendered configuration. */
  function Cleared(s: State, c: Instance, defaults: Option<ImageSet>, pods: seq<Pod>, renders: bool): Verdict {
    var verdict := Resolve(s, c, defaults);
    if verdict.Rejected? then verdict
    else
      var issue := PodsIssue(c, s.workload.Some?, pods, verdict.images);
      if issue.Some? then Rejected(issue.value)
      else if c.status.binding.None? && !renders then Rejected(InvalidConfiguration)
      else verdict
  }

  predicate OnlyOwnPods(c: Instance, running: bool, pods: seq<Pod>, images: ImageSet) {
    forall p | p in pods && (p.identity == Some(c.uid) || p.mounts || (running && p.control != Other)) ::
      running && p.control.Exact? && p.identity == Some(c.uid) && p.placed && Runs(p, images)
  }

  lemma {:induction false} NoPodIssue(c: Instance, running: bool, pods: seq<Pod>, images: ImageSet)
    ensures PodsIssue(c, running, pods, images).None? <==> OnlyOwnPods(c, running, pods, images)
  {
    hide Runs;
    if pods != [] {
      NoPodIssue(c, running, pods[1..], images);
      assert pods == [pods[0]] + pods[1..];
    }
  }

  /** Images are approved exactly if they are warranted, nothing else than exactly these images runs for the object or on its
      volume, and a first binding renders. */
  lemma ApprovedPodsRun(s: State, c: Instance, defaults: Option<ImageSet>, pods: seq<Pod>, renders: bool, images: ImageSet)
    ensures Cleared(s, c, defaults, pods, renders) == Approved(images) <==>
            Warranted(s, c, defaults, images) && OnlyOwnPods(c, s.workload.Some?, pods, images) &&
            (c.status.binding.Some? || renders)
  {
    hide Resolve, OnlyOwnPods, PodsIssue, Warranted;
    ApprovedIfWarranted(s, c, defaults, images);
    NoPodIssue(c, s.workload.Some?, pods, images);
  }

  lemma Nothing(containers: seq<Container>)
    ensures Distinguishable(containers, 0) && ImagesOf(containers, 0, map[]) && Settled(containers, 0, map[])
  {
  }

  lemma Confused(containers: seq<Container>, i: nat, images: ImageSet)
    requires i < |containers| && (forall j | 0 <= j < i :: containers[j].name in images) && Settled(containers, i, images)
    requires containers[i].name == "" || (containers[i].name in images && images[containers[i].name] != "")
    ensures !Distinguishable(containers, |containers|)
  {
    if containers[i].name != "" {
      var j :| 0 <= j < i && containers[j] == Container(containers[i].name, images[containers[i].name]);
      assert containers[j].name == containers[i].name && containers[j].image != "";
    }
  }

  class Operator {
    var instance: Option<Instance>
    var volume: Option<Volume>
    var workload: Option<Workload>
    var records: map<RecordName, Record>
    var decisions: set<Decision>
    var findings: set<Finding>
    var nextUid: Uid
    var history: History

    function View(): State
      reads this
    {
      State(instance, volume, workload, records, decisions, findings, nextUid, history)
    }

    /** The image set of the record pinned on the volume, after every check of its identity. */
    method RetainedImageAdapter(c: Instance) returns (verdict: Verdict)
      ensures verdict == RetainedImages(View(), c)
    {
      if volume.None? { return Rejected(VolumeMissing); }
      var pvc := volume.value;
      if c.reclaim.None? || c.reclaim.value.previous == c.uid || c.reclaim.value.volume != pvc.uid { return Rejected(VolumeDiffers); }
      if pvc.owner != c.reclaim.value.previous && pvc.owner != c.uid { return Rejected(VolumeDiffers); }
      if pvc.pin.None? { return Rejected(RecordUnpinned); }
      if pvc.pin.value.name !in records { return Rejected(RecordMissing); }
      var record := records[pvc.pin.value.name];
      var intact := record.uid == pvc.pin.value.uid && record.immutable && !record.deleting && !record.owned;
      if !intact || record.holder != c.reclaim.value.previous { return Rejected(RecordDiffers); }
      if record.receipt.None? { return Rejected(RecordInvalid); }
      var receipt := record.receipt.value;
      if receipt.volume != c.reclaim.value.volume || receipt.binding.instance != c.reclaim.value.previous ||
         receipt.binding.template != c.template || receipt.binding.format != Format {
        return Rejected(ReceiptDiffers);
      }
      return Approved(receipt.binding.images);
    }

    /** What the object may run with: its own binding, or for an object without one the images it is now to be bound to.  `pods`
        are those of the namespace, `renders` says whether the configuration can be rendered. */
    method ResolveImageBinding(defaults: Option<ImageSet>, pods: seq<Pod>, renders: bool) returns (verdict: Verdict)
      requires instance.Some? && !instance.value.deleting
      modifies this`decisions
      ensures verdict == Cleared(old(View()), instance.value, defaults, pods, renders)
      ensures forall images :: verdict == Approved(images) <==>
                Warranted(old(View()), instance.value, defaults, images) && OnlyOwnPods(instance.value, workload.Some?, pods, images) &&
                (instance.value.status.binding.Some? || renders)
      ensures instance.value.status.binding.None? && verdict.Approved? ==>
                Enabled(old(View()), Decide(defaults)) && View() == Apply(old(View()), Decide(defaults))
      ensures instance.value.status.binding.Some? || verdict.Rejected? ==> View() == old(View())
    {
      hide PodsIssue, Warranted, OnlyOwnPods;
      var c := instance.value;
      forall images { ApprovedPodsRun(View(), c, defaults, pods, renders, images); }
      if workload.Some? && workload.value.owner != c.uid { return Rejected(OwnershipRejected); }
      var issue;
      if c.status.binding.Some? {
        if !Trusted(c, c.status.binding) { return Rejected(BindingRejected); }
        var images := c.status.binding.value.images;
        if workload.Some? && workload.value.images != images { return Rejected(WorkloadDrift); }
        issue := VerifyWorkloadPods(c, workload.Some?, pods, images);
        return if issue.Some? then Rejected(issue.value) else Approved(images);
      }
      if c.reclaim.Some? {
        verdict := RetainedImageAdapter(c);
        if verdict.Rejected? { return; }
      } else {
        if defaults.None? { return Rejected(ApprovalRequired); }
        if workload.None? {
          if !c.pinned { return Rejected(LegacyWorkloadMissing); }
          if volume.Some? { return Rejected(RecoveryRequired); }
        }
        verdict := Approved(defaults.value);
      }
      if workload.Some? && workload.value.images != verdict.images { return Rejected(LegacyApprovalRequired); }
      issue := VerifyWorkloadPods(c, workload.Some?, pods, verdict.images);
      if issue.Some? { return Rejected(issue.value); }
      if !renders { return Rejected(InvalidConfiguration); }
      decisions := decisions + {Decision(c.uid, verdict.images)};
    }

    /** A status goes out as it was computed, except for the binding, which stays what it has become. */
    method Report(stale: Status)
      requires instance.Some?
      modifies this`instance
      ensures View() == Apply(old(View()), Step.Report(stale))
      ensures instance.value.status.binding == old(instance).value.status.binding
    {
      var current := stale;
      current := current.(binding := instance.value.status.binding);
      instance := Some(instance.value.(status := current));
    }

    /** Keeping the images of an object that leaves its volume behind; without a trustworthy record the volume is kept all the same. */
    method RetainImages(read: Instance) returns (pinned: bool)
      requires read in history.bound && read.policy.Retain? && volume.Some? && volume.value.owner == read.uid
      modifies this
      ensures volume.Some? && volume.value.uid == old(volume).value.uid && volume.value.owner == read.uid
      ensures !pinned ==> volume == old(volume)
      ensures pinned <==>
        && Retainable(old(View()), read)
        && (RecordName(read.uid, old(volume).value.uid) in old(records) ==> RecordFits(old(View()), read, old(volume).value))
      ensures pinned ==> Retainable(old(View()), read) && volume.value.pin.Some? &&
                         var name := RecordName(read.uid, volume.value.uid);
                         volume.value.pin.value.name == name && name in records && volume.value.pin.value.uid == records[name].uid &&
                         RecordFits(View(), read, volume.value)
      ensures instance == old(instance) && workload == old(workload) && decisions == old(decisions)
      ensures forall name | name in records && name !in old(records) ::
                pinned && name == RecordName(read.uid, volume.value.uid) && records[name].uid == old(nextUid)
      ensures forall name | name in old(records) :: name in records && records[name] == old(records)[name]
    {
      if !Trusted(read, read.status.binding) || (workload.Some? && workload.value.images != read.status.binding.value.images) {
        return false;
      }
      var name := RecordName(read.uid, volume.value.uid);
      if name !in records {
        var record := Record(nextUid, true, false, false, read.uid, Some(ReceiptFor(read, volume.value)));
        records := records[name := record];
        nextUid := nextUid + 1;
        history := Sealing(history, record);
      }
      var record := records[name];
      var fits := record.immutable && !record.owned && !record.deleting && record.holder == read.uid;
      if !fits || record.receipt != Some(ReceiptFor(read, volume.value)) { return false; }
      findings := findings + {Finding(volume.value, Pin(name, record.uid))};
      volume := Some(volume.value.(pin := Some(Pin(name, record.uid))));
      return true;
    }
  }
}
