/**
 What an approval of images rests on, said without the order in which the operator checks it.
 */
module Approvals {
  import opened Wrappers
  import opened Images

  /** Whatever runs for the object is its own and runs exactly these images. */
  predicate RunsOnly(s: State, c: Instance, images: ImageSet) {
    s.workload.Some? ==> s.workload.value == Workload(c.uid, images)
  }

  /** The object's own binding was written for it and its template in the format the operator knows. */
  predicate OwnBinding(c: Instance, images: ImageSet) {
    c.status.binding == Some(Binding("v1", c.uid, c.template, images))
  }

  /** The volume that is claimed is still with the identity it is claimed from, or already with the object, and its pin leads to
      an unaltered sealed record of that identity, that volume, this template and these images. */
  predicate Intact(s: State, c: Instance, images: ImageSet) {
    && c.reclaim.Some? && c.reclaim.value.previous != c.uid
    && s.volume.Some? && s.volume.value.uid == c.reclaim.value.volume && s.volume.value.owner in {c.reclaim.value.previous, c.uid}
    && s.volume.value.pin.Some? && s.volume.value.pin.value.name in s.records
    && s.records[s.volume.value.pin.value.name] ==
         Record(s.volume.value.pin.value.uid, true, false, false, c.reclaim.value.previous,
                Some(Receipt(c.reclaim.value.volume, Binding("v1", c.reclaim.value.previous, c.template, images))))
  }

  /** Nothing is there yet that today's images could be wrong for: a new object without workload and volume, or an object whose
      workload runs exactly these images already. */
  predicate Fresh(s: State, c: Instance) {
    s.workload.Some? || (c.pinned && s.volume.None?)
  }

  predicate Warranted(s: State, c: Instance, defaults: Option<ImageSet>, images: ImageSet) {
    && RunsOnly(s, c, images)
    && (if c.status.binding.Some? then OwnBinding(c, images)
        else if c.reclaim.Some? then Intact(s, c, images)
        else defaults == Some(images) && Fresh(s, c))
  }

  /** Images are approved if and only if that is so. */
  lemma ApprovedIfWarranted(s: State, c: Instance, defaults: Option<ImageSet>, images: ImageSet)
    ensures Resolve(s, c, defaults) == Approved(images) <==> Warranted(s, c, defaults, images)
  {
    if c.status.binding.None? && c.reclaim.Some? { RetainedIfIntact(s, c, images); }
    hide RetainedImages, Intact;
    if c.status.binding.Some? { assert c.status.binding.value.format == Format <==> c.status.binding.value.format == "v1"; }
  }

  lemma RetainedIfIntact(s: State, c: Instance, images: ImageSet)
    requires c.reclaim.Some?
    ensures RetainedImages(s, c) == Approved(images) <==> Intact(s, c, images)
  {
  }

  /** Why a first binding without a reclaim is refused, where nothing of somebody else's runs. */
  lemma FirstRefusals(s: State, c: Instance, defaults: Option<ImageSet>)
    requires c.status.binding.None? && c.reclaim.None? && (s.workload.Some? ==> s.workload.value.owner == c.uid)
    ensures Resolve(s, c, defaults) == Rejected(ApprovalRequired) <==> defaults.None?
    ensures Resolve(s, c, defaults) == Rejected(LegacyWorkloadMissing) <==> defaults.Some? && s.workload.None? && !c.pinned
    ensures Resolve(s, c, defaults) == Rejected(RecoveryRequired) <==>
              defaults.Some? && s.workload.None? && c.pinned && s.volume.Some?
    ensures Resolve(s, c, defaults) == Rejected(LegacyApprovalRequired) <==>
              defaults.Some? && s.workload.Some? && s.workload.value.images != defaults.value
  {
  }

  /** An image set is kept for a volume only if the object that leaves it behind is its owner, keeps it by policy, was bound for
      itself and its template, and nothing else than these images ran. */
  lemma KeptIfTrusted(s: State, read: Instance)
    ensures Retainable(s, read) <==>
      && read in s.history.bound && read.policy == Retain && s.volume.Some? && s.volume.value.owner == read.uid
      && read.status.binding.Some? && OwnBinding(read, read.status.binding.value.images)
      && (s.workload.None? || s.workload.value.images == read.status.binding.value.images)
  {
  }

  /** What was retained can be recovered: with the record of an object pinned on its volume, an object that reclaims the volume
      under the same template is approved for exactly the images of the first, whatever today's defaults are. */
  lemma RetainedIsRecovered(s: State, read: Instance, c: Instance, defaults: Option<ImageSet>)
    requires Retainable(s, read) && RecordFits(s, read, s.volume.value) && s.workload.None?
    requires
      var name := RecordName(read.uid, s.volume.value.uid);
      s.volume.value.pin == Some(Pin(name, s.records[name].uid))
    requires c.reclaim == Some(Reclaim(read.uid, s.volume.value.uid)) && c.status.binding.None?
    requires c.uid != read.uid && c.template == read.template
    ensures Resolve(s, c, defaults) == Approved(read.status.binding.value.images)
  {
    ApprovedIfWarranted(s, c, defaults, read.status.binding.value.images);
  }

  // ----- Runs

  /** What an object is from its creation on. */
  predicate SameObject(a: Instance, b: Instance) {
    a.uid == b.uid && a.template == b.template && a.pinned == b.pinned && a.reclaim == b.reclaim && a.policy == b.policy
  }

  /** Step `i` of the run decides for the unbound object, and at that moment the images are warranted. */
  predicate DecidedAt(steps: seq<Step>, i: nat, c: Instance, images: ImageSet)
    requires Run(steps) && i < |steps|
  {
    && Run(steps[..i]) && steps[i].Decide?
    && var s := After(steps[..i]);
       && s.instance.Some? && SameObject(s.instance.value, c) && s.instance.value.status.binding.None?
       && Warranted(s, s.instance.value, steps[i].defaults, images)
  }

  ghost predicate Decided(steps: seq<Step>, c: Instance, images: ImageSet)
    requires Run(steps)
  {
    exists i | 0 <= i < |steps| :: DecidedAt(steps, i, c, images)
  }

  ghost predicate Justified(steps: seq<Step>)
    requires Run(steps)
  {
    var s := After(steps);
    && (forall c | c in s.history.bound :: c.status.binding.Some? && Decided(steps, c, c.status.binding.value.images))
    && (s.instance.Some? ==>
          forall d | d in s.decisions && d.instance == s.instance.value.uid :: Decided(steps, s.instance.value, d.images))
  }

  lemma DecidedLater(steps: seq<Step>, c: Instance, c': Instance, images: ImageSet)
    requires Run(steps) && steps != [] && Run(steps[..|steps| - 1]) && Decided(steps[..|steps| - 1], c, images) && SameObject(c, c')
    ensures Decided(steps, c', images)
  {
    var front := steps[..|steps| - 1];
    var i :| 0 <= i < |front| && DecidedAt(front, i, c, images);
    assert front[..i] == steps[..i];
    hide After, Run, Warranted;
    assert DecidedAt(steps, i, c', images);
  }

  /** A step binds only the object that is there, to what was decided for it. */
  lemma BoundInStep(s: State, step: Step, c: Instance)
    requires Enabled(s, step) && c in Apply(s, step).history.bound && c !in s.history.bound
    ensures
      && step.Persist? && step.decision in s.decisions && c.status.binding.Some? && c.status.binding.value.images == step.decision.images
      && s.instance.Some? && s.instance.value.uid == step.decision.instance && SameObject(s.instance.value, c)
  {
  }

  /** What is decided for the object that is there was decided for it before, or is decided now. */
  lemma DecidedInStep(s: State, step: Step, d: Decision)
    requires Inv(s) && Enabled(s, step) && d in Apply(s, step).decisions
    requires Apply(s, step).instance.Some? && Apply(s, step).instance.value.uid == d.instance
    ensures s.instance.Some? && SameObject(s.instance.value, Apply(s, step).instance.value)
    ensures d !in s.decisions ==>
              step.Decide? && s.instance.value.status.binding.None? && Resolve(s, s.instance.value, step.defaults) == Approved(d.images)
  {
    hide Resolve, InstanceInv, BoundInv, VolumeInv, RecordsInv;
  }

  /** Every object that was ever bound was bound to images that were warranted when that was decided. */
  lemma {:induction false} BoundWasWarranted(steps: seq<Step>)
    requires Run(steps)
    ensures Justified(steps)
    decreases |steps|
  {
    if steps != [] {
      var n := |steps| - 1;
      var front := steps[..n];
      BoundWasWarranted(front);
      RunKeeps(front);
      hide Inv, Decided;
      forall c | c in After(steps).history.bound
        ensures c.status.binding.Some? && Decided(steps, c, c.status.binding.value.images)
      {
        BoundAfter(steps, c);
      }
      forall d | After(steps).instance.Some? && d in After(steps).decisions && d.instance == After(steps).instance.value.uid
        ensures Decided(steps, After(steps).instance.value, d.images)
      {
        DecidedAfter(steps, d);
      }
    }
  }

  lemma BoundAfter(steps: seq<Step>, c: Instance)
    requires Run(steps) && steps != [] && Justified(steps[..|steps| - 1]) && c in After(steps).history.bound
    ensures c.status.binding.Some? && Decided(steps, c, c.status.binding.value.images)
  {
    var front := steps[..|steps| - 1];
    var s := After(front);
    hide Decided, Apply, Enabled;
    if c in s.history.bound {
      DecidedLater(steps, c, c, c.status.binding.value.images);
    } else {
      BoundInStep(s, steps[|front|], c);
      DecidedLater(steps, s.instance.value, c, c.status.binding.value.images);
    }
  }

  lemma DecidedAfter(steps: seq<Step>, d: Decision)
    requires Run(steps) && steps != [] && Justified(steps[..|steps| - 1]) && Inv(After(steps[..|steps| - 1]))
    requires After(steps).instance.Some? && d in After(steps).decisions && d.instance == After(steps).instance.value.uid
    ensures Decided(steps, After(steps).instance.value, d.images)
  {
    var n := |steps| - 1;
    var front := steps[..n];
    var s := After(front);
    hide Apply, Enabled, Inv, Warranted, Resolve;
    DecidedInStep(s, steps[n], d);
    if d in s.decisions {
      DecidedLater(steps, s.instance.value, After(steps).instance.value, d.images);
    } else {
      ApprovedIfWarranted(s, s.instance.value, steps[n].defaults, d.images);
      assert DecidedAt(steps, n, After(steps).instance.value, d.images);
    }
  }
}
