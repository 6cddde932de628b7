/**
 Taking an instance down: access first, then the workload, then the volume, then the finalizers.

 One pass of the operator looks at what is there and does the first thing that is left to do; between
 passes Pods stop and a volume that was marked goes away.
 */
module Finalizer {
  import opened Wrappers

  type Uid = nat

  datatype Policy = Retain | Delete | Unsupported

  datatype Workload = Workload(owner: Uid, replicas: Option<nat>)

  datatype Volume = Volume(owner: Uid, deleting: bool)

  /** Routes, monitors and services by the identity each is labelled with; `pods` are the Pods labelled with this instance. */
  datatype State = State(
    uid: Uid,
    policy: Policy,
    finalizer: bool,
    gatewayFinalizer: bool,
    monitoringFinalizer: bool,
    routes: seq<Uid>,
    monitors: seq<Uid>,
    services: seq<Uid>,
    workload: Option<Workload>,
    pods: set<nat>,
    volume: Option<Volume>)

  datatype Outcome = Released | Again | Conflict

  /** The leading objects that belong to the instance are deleted; one that does not stops the pass. */
  function Foreign(objects: seq<Uid>, uid: Uid): seq<Uid> {
    if objects != [] && objects[0] == uid then Foreign(objects[1..], uid) else objects
  }

  predicate Stopped(s: State) {
    s.workload.None? || s.workload.value.replicas == Some(0)
  }

  // ----- The passes, from the last stage to the first

  function VolumePass(s: State): (State, Outcome) {
    if s.volume.Some? && s.volume.value.owner != s.uid then (s, Conflict)
    else if s.volume.Some? && s.policy.Delete? then (s.(volume := Some(s.volume.value.(deleting := true))), Again)
    else if s.volume.Some? && s.policy.Unsupported? then (s, Conflict)
    else (s.(finalizer := false, gatewayFinalizer := false, monitoringFinalizer := false), Released)
  }

  function WorkloadPass(s: State): (State, Outcome) {
    if s.workload.Some? && s.workload.value.owner != s.uid then (s, Conflict)
    else if !Stopped(s) then (s.(workload := Some(s.workload.value.(replicas := Some(0)))), Again)
    else if s.pods != {} then (s, Again)
    else VolumePass(s)
  }

  function ServicePass(s: State): (State, Outcome) {
    var left := s.(services := Foreign(s.services, s.uid));
    if left.services != [] then (left, Conflict) else WorkloadPass(left)
  }

  function MonitorPass(s: State): (State, Outcome) {
    if !s.monitoringFinalizer then ServicePass(s)
    else
      var left := s.(monitors := Foreign(s.monitors, s.uid));
      if left.monitors != [] then (left, Conflict)
      else if s.monitors != [] then (left, Again)
      else ServicePass(left)
  }

  function RoutePass(s: State): (State, Outcome) {
    if !s.gatewayFinalizer then MonitorPass(s)
    else
      var left := s.(routes := Foreign(s.routes, s.uid));
      if left.routes != [] then (left, Conflict)
      else if s.routes != [] then (left, Again)
      else MonitorPass(left)
  }

  function Pass(s: State): (State, Outcome) {
    if !s.finalizer then (s, Released) else RoutePass(s)
  }

  // ----- What happens beside the operator

  datatype Event = PodStops(pod: nat) | PodStarts(pod: nat) | VolumeGoes

  predicate Possible(s: State, e: Event) {
    match e
    case PodStops(pod) => pod in s.pods
    case PodStarts(pod) => pod !in s.pods && !Stopped(s)
    case VolumeGoes => s.volume.Some? && s.volume.value.deleting && s.pods == {}
  }

  function Happen(s: State, e: Event): State
    requires Possible(s, e)
  {
    match e
    case PodStops(pod) => s.(pods := s.pods - {pod})
    case PodStarts(pod) => s.(pods := s.pods + {pod})
    case VolumeGoes => s.(volume := None)
  }

  datatype Step = Reconcile | Beside(event: Event)

  predicate Enabled(s: State, step: Step) {
    step.Beside? ==> Possible(s, step.event)
  }

  function Next(s: State, step: Step): State
    requires Enabled(s, step)
  {
    if step.Reconcile? then Pass(s).0 else Happen(s, step.event)
  }

  predicate Run(s: State, steps: seq<Step>)
    decreases |steps|, 0
  {
    steps == [] || (Run(s, steps[..|steps| - 1]) && Enabled(After(s, steps[..|steps| - 1]), steps[|steps| - 1]))
  }

  function After(s: State, steps: seq<Step>): State
    requires Run(s, steps)
    decreases |steps|, 1
  {
    if steps == [] then s else Next(After(s, steps[..|steps| - 1]), steps[|steps| - 1])
  }

  // ----- Safety

  lemma {:induction false} OwnOnly(objects: seq<Uid>, uid: Uid)
    ensures Foreign(objects, uid) == [] <==> forall i | 0 <= i < |objects| :: objects[i] == uid
    ensures |Foreign(objects, uid)| <= |objects|
    ensures Foreign(objects, uid) != [] ==> Foreign(objects, uid)[0] != uid && Foreign(objects, uid)[0] in objects
  {
    if objects != [] && objects[0] == uid {
      OwnOnly(objects[1..], uid);
      assert forall i | 1 <= i < |objects| :: objects[i] == objects[1..][i - 1];
    }
  }

  /** What has to hold before the volume is touched or the finalizers go. */
  predicate Down(s: State) {
    s.services == [] && Stopped(s) && s.pods == {} && (s.gatewayFinalizer ==> s.routes == []) && (s.monitoringFinalizer ==> s.monitors == [])
  }

  /** A pass asks for the deletion of the volume only if it is the instance's own, is to be deleted, and nothing runs or reads it
      any more; under any other policy it leaves the volume alone. */
  lemma VolumeDeletedLast(s: State)
    requires Pass(s).0.volume != s.volume
    ensures
      && s.volume.Some? && s.volume.value.owner == s.uid && s.policy.Delete?
      && Stopped(s) && s.pods == {} && Down(Pass(s).0)
      && Pass(s).0.volume == Some(Volume(s.uid, true)) && Pass(s).1.Again?
  {
  }

  /** A pass lets the object go only when everything is down and its volume is gone or stays behind by policy. */
  lemma ReleasedLast(s: State)
    requires s.finalizer && !Pass(s).0.finalizer
    ensures
      && Stopped(s) && s.pods == {} && Pass(s).0.services == []
      && (s.gatewayFinalizer ==> Pass(s).0.routes == []) && (s.monitoringFinalizer ==> Pass(s).0.monitors == [])
      && Pass(s).0.volume == s.volume && (s.volume.Some? ==> s.volume.value.owner == s.uid && s.policy.Retain?)
      && Pass(s).1.Released? && !Pass(s).0.gatewayFinalizer && !Pass(s).0.monitoringFinalizer
  {
  }

  /** Under Retain no run ever marks or loses the volume. */
  lemma {:induction false} RetainKeepsVolume(s: State, steps: seq<Step>)
    requires Run(s, steps) && s.policy.Retain? && s.volume.Some? && !s.volume.value.deleting
    ensures After(s, steps).volume == s.volume && After(s, steps).policy == s.policy
    decreases |steps|
  {
    if steps != [] {
      var front := steps[..|steps| - 1];
      RetainKeepsVolume(s, front);
      var t := After(s, front);
      if steps[|steps| - 1].Reconcile? && Pass(t).0.volume != t.volume { VolumeDeletedLast(t); }
      PassKeeps(t);
    }
  }

  lemma PassKeeps(s: State)
    ensures Pass(s).0.uid == s.uid && Pass(s).0.policy == s.policy && Pass(s).0.pods == s.pods
    ensures Stopped(s) ==> Stopped(Pass(s).0)
    ensures s.services == [] ==> Pass(s).0.services == []
  {
  }

  /** The volume is on its way out, or gone, although it was there: it was the instance's own, and nothing runs any more. */
  predicate Disposed(s: State, t: State) {
    && s.volume.Some? && s.volume.value.owner == s.uid && s.policy.Delete?
    && Stopped(t) && t.pods == {} && t.services == []
    && (t.volume.None? || t.volume == Some(Volume(s.uid, true)))
  }

  /** In every run a volume stays as it is until it is disposed of, which happens to an own volume under Delete and only after
      services, workload and Pods are gone; none of them comes back. */
  lemma {:induction false} DisposedOnlyWhenDown(s: State, steps: seq<Step>)
    requires Run(s, steps) && s.volume.Some? && !s.volume.value.deleting
    ensures After(s, steps).uid == s.uid && After(s, steps).policy == s.policy
    ensures After(s, steps).volume == s.volume || Disposed(s, After(s, steps))
    decreases |steps|
  {
    if steps != [] {
      var front := steps[..|steps| - 1];
      DisposedOnlyWhenDown(s, front);
      var t := After(s, front);
      PassKeeps(t);
      if Pass(t).0.volume != t.volume { VolumeDeletedLast(t); }
    }
  }

  /** In every run the object has gone only when services, routes, monitors, workload and Pods had, none of which comes back, and
      a volume that is there then is its own and stays behind by policy. */
  lemma {:induction false} ReleasedOnlyWhenDown(s: State, steps: seq<Step>)
    requires Run(s, steps) && s.finalizer
    ensures
      var t := After(s, steps);
      && t.uid == s.uid && t.policy == s.policy
      && (t.finalizer ==> t.gatewayFinalizer == s.gatewayFinalizer && t.monitoringFinalizer == s.monitoringFinalizer)
      && (!t.finalizer ==>
            && !t.gatewayFinalizer && !t.monitoringFinalizer
            && Stopped(t) && t.pods == {} && t.services == []
            && (s.gatewayFinalizer ==> t.routes == []) && (s.monitoringFinalizer ==> t.monitors == [])
            && (t.volume.Some? ==> t.volume.value.owner == s.uid && s.policy.Retain?))
    decreases |steps|
  {
    if steps != [] {
      var front := steps[..|steps| - 1];
      ReleasedOnlyWhenDown(s, front);
      var t := After(s, front);
      PassKeeps(t);
      PassLeaves(t);
      if t.finalizer && !Pass(t).0.finalizer { ReleasedLast(t); }
    }
  }

  lemma PassLeaves(s: State)
    ensures Pass(s).0.finalizer ==>
              Pass(s).0.gatewayFinalizer == s.gatewayFinalizer && Pass(s).0.monitoringFinalizer == s.monitoringFinalizer
    ensures !s.finalizer ==> Pass(s).0 == s
  {
  }

  /** What is deleted are the own objects in front, up to the first that is not. */
  lemma {:induction false} OwnInFront(objects: seq<Uid>, uid: Uid) returns (n: nat)
    ensures n <= |objects| && Foreign(objects, uid) == objects[n..]
    ensures (forall i | 0 <= i < n :: objects[i] == uid) && (n < |objects| ==> objects[n] != uid)
  {
    n := 0;
    if objects != [] && objects[0] == uid {
      var m := OwnInFront(objects[1..], uid);
      n := m + 1;
    }
  }

  lemma {:induction false} ForeignKeeps(objects: seq<Uid>, uid: Uid, other: Uid)
    requires other != uid
    ensures multiset(Foreign(objects, uid))[other] == multiset(objects)[other]
  {
    if objects != [] && objects[0] == uid {
      ForeignKeeps(objects[1..], uid, other);
      assert objects == [objects[0]] + objects[1..];
    }
  }

  /** Everything that belongs to somebody else. */
  predicate OthersAsBefore(s: State, t: State, other: Uid) {
    && multiset(t.routes)[other] == multiset(s.routes)[other]
    && multiset(t.monitors)[other] == multiset(s.monitors)[other]
    && multiset(t.services)[other] == multiset(s.services)[other]
    && (s.workload.Some? && s.workload.value.owner == other ==> t.workload == s.workload)
    && (s.volume.Some? && s.volume.value.owner == other && !s.volume.value.deleting ==> t.volume == s.volume)
  }

  /** What a pass leaves of everything is what was there, without own objects in front, or with an own workload stopped or an own
      volume marked. */
  predicate Pruned(s: State, t: State) {
    && (t.routes == s.routes || t.routes == Foreign(s.routes, s.uid))
    && (t.monitors == s.monitors || t.monitors == Foreign(s.monitors, s.uid))
    && (t.services == s.services || t.services == Foreign(s.services, s.uid))
    && (t.workload == s.workload || (s.workload.Some? && s.workload.value.owner == s.uid))
    && (t.volume == s.volume || (s.volume.Some? && s.volume.value.owner == s.uid))
  }

  lemma PassPrunes(s: State)
    ensures Pruned(s, Pass(s).0)
  {
    hide Foreign;
  }

  lemma PassSpares(s: State, other: Uid)
    requires other != s.uid
    ensures OthersAsBefore(s, Pass(s).0, other)
  {
    PassPrunes(s);
    hide Pass, Foreign;
    ForeignKeeps(s.routes, s.uid, other);
    ForeignKeeps(s.monitors, s.uid, other);
    ForeignKeeps(s.services, s.uid, other);
  }

  lemma BesideSpares(s: State, step: Step, other: Uid)
    requires Enabled(s, step) && OthersAsBefore(s, Pass(s).0, other)
    ensures OthersAsBefore(s, Next(s, step), other)
  {
    hide Pass;
  }

  lemma OthersLater(s: State, t: State, u: State, other: Uid)
    requires OthersAsBefore(s, t, other) && OthersAsBefore(t, u, other)
    ensures OthersAsBefore(s, u, other)
  {
  }

  /** In no run does the operator remove, stop or mark what belongs to another instance. */
  lemma {:induction false} OthersStay(s: State, steps: seq<Step>, other: Uid)
    requires Run(s, steps) && other != s.uid
    ensures OthersAsBefore(s, After(s, steps), other) && After(s, steps).uid == s.uid
    decreases |steps|
  {
    if steps != [] {
      var front := steps[..|steps| - 1];
      OthersStay(s, front, other);
      var t := After(s, front);
      PassKeeps(t);
      PassSpares(t, other);
      hide Pass, OthersAsBefore;
      assert OthersAsBefore(t, After(s, steps), other) by { BesideSpares(t, steps[|steps| - 1], other); }
      OthersLater(s, t, After(s, steps), other);
    }
  }

  /** One pass goes in order: monitors only once the routes are gone, services only once the monitors are, the workload only once
      the services are, which it stops and leaves in place, and the volume only once the workload and its Pods are down. */
  lemma InOrder(s: State)
    ensures
      var t := Pass(s).0;
      && (t.monitors != s.monitors ==> (s.gatewayFinalizer ==> s.routes == []))
      && (t.services != s.services ==> (s.gatewayFinalizer ==> s.routes == []) && (s.monitoringFinalizer ==> s.monitors == []))
      && (t.workload != s.workload ==>
            && (s.gatewayFinalizer ==> s.routes == []) && (s.monitoringFinalizer ==> s.monitors == []) && t.services == []
            && s.workload.Some? && t.workload == Some(s.workload.value.(replicas := Some(0))))
      && (t.volume != s.volume ==> Down(s.(services := t.services)))
  {
  }

  // ----- Progress

  /** Nothing under the instance's names belongs to another, and the policy is one the operator knows. */
  predicate Undisputed(s: State) {
    && (s.gatewayFinalizer ==> forall i | 0 <= i < |s.routes| :: s.routes[i] == s.uid)
    && (s.monitoringFinalizer ==> forall i | 0 <= i < |s.monitors| :: s.monitors[i] == s.uid)
    && (forall i | 0 <= i < |s.services| :: s.services[i] == s.uid)
    && (s.workload.Some? ==> s.workload.value.owner == s.uid)
    && (s.volume.Some? ==> s.volume.value.owner == s.uid)
    && !s.policy.Unsupported?
  }

  function One(b: bool): nat {
    if b then 1 else 0
  }

  function VolumeRank(v: Option<Volume>): nat {
    if v.None? then 0 else if v.value.deleting then 1 else 2
  }

  datatype Measure = Measure(routes: nat, monitors: nat, services: nat, running: nat, pods: nat, volume: nat, finalizer: nat) {
    /** The lexicographic order. */
    predicate Below(m: Measure) {
      || routes < m.routes
      || (routes == m.routes && (|| monitors < m.monitors
      || (monitors == m.monitors && (|| services < m.services
      || (services == m.services && (|| running < m.running
      || (running == m.running && (|| pods < m.pods
      || (pods == m.pods && (|| volume < m.volume
      || (volume == m.volume && finalizer < m.finalizer)))))))))))
    }
  }

  function MeasureOf(s: State): Measure {
    Measure(if s.gatewayFinalizer then |s.routes| else 0, if s.monitoringFinalizer then |s.monitors| else 0, |s.services|,
            One(!Stopped(s)), if Stopped(s) then |s.pods| else 0, VolumeRank(s.volume), One(s.finalizer))
  }

  /** The pass has nothing to do but wait for Pods to stop or for the volume to go. */
  predicate Waiting(s: State) {
    s.finalizer && Pass(s).0 == s
  }

  /** Without a dispute a pass never conflicts and, unless it waits, brings the end nearer. */
  lemma PassProgresses(s: State)
    requires Undisputed(s) && s.finalizer
    ensures Undisputed(Pass(s).0) && !Pass(s).1.Conflict?
    ensures Waiting(s) || MeasureOf(Pass(s).0).Below(MeasureOf(s))
    ensures Waiting(s) ==> Stopped(s)
    ensures Waiting(s) ==> s.pods != {} || (s.volume.Some? && s.volume.value.deleting)
  {
    OwnOnly(s.routes, s.uid);
    OwnOnly(s.monitors, s.uid);
    hide Foreign, Measure.Below, MeasureOf;
    ServiceProgresses(s);
    if s.gatewayFinalizer && s.routes != [] { FewerRoutes(s); }
    else if s.monitoringFinalizer && s.monitors != [] { FewerMonitors(s); }
    else {
      assert s.gatewayFinalizer ==> s.(routes := Foreign(s.routes, s.uid)) == s;
      assert s.monitoringFinalizer ==> s.(monitors := Foreign(s.monitors, s.uid)) == s;
    }
  }

  lemma FewerRoutes(s: State)
    requires s.gatewayFinalizer && s.routes != []
    ensures MeasureOf(s.(routes := [])).Below(MeasureOf(s))
  {
  }

  lemma FewerMonitors(s: State)
    requires s.monitoringFinalizer && s.monitors != []
    ensures MeasureOf(s.(monitors := [])).Below(MeasureOf(s))
  {
  }

  /** The same for the later stages, which every pass reaches once the earlier ones are done. */
  lemma ServiceProgresses(s: State)
    requires Undisputed(s) && s.finalizer
    ensures Undisputed(ServicePass(s).0) && !ServicePass(s).1.Conflict?
    ensures (ServicePass(s).0 == s && Stopped(s) && (s.pods != {} || (s.volume.Some? && s.volume.value.deleting))) ||
            (ServicePass(s).0 != s && MeasureOf(ServicePass(s).0).Below(MeasureOf(s)))
  {
    OwnOnly(s.services, s.uid);
  }

  /** What happens beside the operator never takes it further away, and brings it nearer once the workload is stopped. */
  lemma EventProgresses(s: State, e: Event)
    requires Undisputed(s) && Possible(s, e)
    ensures Undisputed(Happen(s, e))
    ensures MeasureOf(Happen(s, e)) == MeasureOf(s) || MeasureOf(Happen(s, e)).Below(MeasureOf(s))
    ensures Stopped(s) ==> !e.PodStarts? && MeasureOf(Happen(s, e)).Below(MeasureOf(s))
  {
    match e {
      case PodStops(pod) => assert |s.pods - {pod}| == |s.pods| - 1;
      case _ =>
    }
  }

  /** A waiting pass always has an event to wait for. */
  lemma WaitingEnds(s: State) returns (e: Event)
    requires Undisputed(s) && Waiting(s)
    ensures Possible(s, e) && !e.PodStarts?
  {
    PassProgresses(s);
    if s.pods != {} {
      var pod :| pod in s.pods;
      e := PodStops(pod);
    } else {
      e := VolumeGoes;
    }
  }

  // ----- Endless runs

  /** An endless run from `i` on: states and the steps between them. */
  ghost predicate Endless(state: nat -> State, step: nat -> Step, i: nat) {
    forall k | k >= i :: Enabled(state(k), step(k)) && state(k + 1) == Next(state(k), step(k))
  }

  /** The operator passes again and again, and what a waiting pass waits for goes on happening. */
  ghost predicate Fair(state: nat -> State, step: nat -> Step, i: nat) {
    && (forall k: nat | k >= i :: PassLater(step, k))
    && (forall k: nat | k >= i && Waiting(state(k)) :: EventLater(step, k))
  }

  ghost predicate PassLater(step: nat -> Step, k: nat) {
    exists j: nat :: j >= k && step(j).Reconcile?
  }

  ghost predicate EventLater(step: nat -> Step, k: nat) {
    exists j: nat :: j >= k && step(j).Beside?
  }

  lemma Later(state: nat -> State, step: nat -> Step, i: nat, n: nat)
    requires i <= n && Endless(state, step, i) && Fair(state, step, i)
    ensures Endless(state, step, n) && Fair(state, step, n)
  {
  }

  lemma StepProgresses(s: State, step: Step)
    requires Undisputed(s) && s.finalizer && Enabled(s, step)
    ensures Undisputed(Next(s, step))
    ensures MeasureOf(Next(s, step)) == MeasureOf(s) || MeasureOf(Next(s, step)).Below(MeasureOf(s))
  {
    if step.Reconcile? { PassProgresses(s); } else { EventProgresses(s, step.event); }
  }

  lemma BelowTransitive(a: Measure, b: Measure, c: Measure)
    requires a.Below(b) && (b == c || b.Below(c))
    ensures a.Below(c)
  {
  }

  /** Along the run the measure never rises while the finalizer is there. */
  lemma {:induction false} Descends(state: nat -> State, step: nat -> Step, i: nat, j: nat)
    requires i <= j && Endless(state, step, i) && Undisputed(state(i)) && forall k | i <= k < j :: state(k).finalizer
    ensures Undisputed(state(j))
    ensures MeasureOf(state(j)) == MeasureOf(state(i)) || MeasureOf(state(j)).Below(MeasureOf(state(i)))
    decreases j - i
  {
    if i < j {
      hide Undisputed, Measure.Below, MeasureOf;
      Descends(state, step, i, j - 1);
      StepProgresses(state(j - 1), step(j - 1));
      if MeasureOf(state(j)).Below(MeasureOf(state(j - 1))) {
        BelowTransitive(MeasureOf(state(j)), MeasureOf(state(j - 1)), MeasureOf(state(i)));
      }
    }
  }

  /** From some point of a fair run on the measure is lower, or the finalizer is gone. */
  lemma Falls(state: nat -> State, step: nat -> Step, i: nat) returns (n: nat)
    requires Endless(state, step, i) && Fair(state, step, i) && Undisputed(state(i))
    ensures n >= i && Undisputed(state(n))
    ensures (exists k | i <= k <= n :: !state(k).finalizer) || MeasureOf(state(n)).Below(MeasureOf(state(i)))
  {
    hide Undisputed, Measure.Below, MeasureOf, Waiting;
    assert PassLater(step, i);
    var j: nat :| j >= i && step(j).Reconcile?;
    if m :| i <= m <= j && !state(m).finalizer {
      n := Ended(state, step, i, m);
      return;
    }
    Descends(state, step, i, j);
    PassProgresses(state(j));
    if !Waiting(state(j)) {
      BelowTransitive(MeasureOf(state(j + 1)), MeasureOf(state(j)), MeasureOf(state(i)));
      return j + 1;
    }
    assert EventLater(step, j);
    var k: nat :| k >= j && step(k).Beside?;
    if m :| i <= m <= k && !state(m).finalizer {
      n := Ended(state, step, i, m);
      return;
    }
    Descends(state, step, j, k);
    Descends(state, step, i, k);
    StepProgresses(state(k), step(k));
    if MeasureOf(state(k)).Below(MeasureOf(state(j))) {
      BelowTransitive(MeasureOf(state(k)), MeasureOf(state(j)), MeasureOf(state(i)));
      return k;
    }
    SameStopped(state(j), state(k));
    EventProgresses(state(k), step(k).event);
    BelowTransitive(MeasureOf(state(k + 1)), MeasureOf(state(k)), MeasureOf(state(i)));
    return k + 1;
  }

  /** The first state without the finalizer. */
  lemma {:induction false} Ended(state: nat -> State, step: nat -> Step, i: nat, m: nat) returns (n: nat)
    requires i <= m && Endless(state, step, i) && Undisputed(state(i)) && !state(m).finalizer
    ensures n >= i && Undisputed(state(n)) && !state(n).finalizer
    decreases m - i
  {
    if !state(i).finalizer { return i; }
    StepProgresses(state(i), step(i));
    hide Undisputed;
    n := Ended(state, step, i + 1, m);
  }

  lemma SameStopped(s: State, t: State)
    requires MeasureOf(s) == MeasureOf(t)
    ensures Stopped(s) <==> Stopped(t)
  {
  }

  /** Every fair run from an undisputed state comes to the point where the finalizers are gone. */
  lemma {:induction false} FairRunsFinish(state: nat -> State, step: nat -> Step, i: nat) returns (n: nat)
    requires Endless(state, step, i) && Fair(state, step, i) && Undisputed(state(i))
    ensures n >= i && !state(n).finalizer
    decreases
      MeasureOf(state(i)).routes, MeasureOf(state(i)).monitors, MeasureOf(state(i)).services, MeasureOf(state(i)).running,
      MeasureOf(state(i)).pods, MeasureOf(state(i)).volume, MeasureOf(state(i)).finalizer
  {
    hide Undisputed, MeasureOf, Waiting;
    n := Falls(state, step, i);
    if k :| i <= k <= n && !state(k).finalizer {
      n := k;
    } else {
      Later(state, step, i, n);
      n := FairRunsFinish(state, step, n);
    }
  }

  /** And there are such ends: passes, and the events they wait for, lead from every undisputed state to it. */
  lemma {:induction false} FinalizesEventually(s: State) returns (steps: seq<Step>)
    requires Undisputed(s)
    ensures Run(s, steps) && !After(s, steps).finalizer
    decreases
      MeasureOf(s).routes, MeasureOf(s).monitors, MeasureOf(s).services, MeasureOf(s).running,
      MeasureOf(s).pods, MeasureOf(s).volume, MeasureOf(s).finalizer
  {
    if !s.finalizer { return []; }
    PassProgresses(s);
    var step := Reconcile;
    if Waiting(s) {
      var e := WaitingEnds(s);
      step := Beside(e);
      EventProgresses(s, e);
    }
    var rest := FinalizesEventually(Next(s, step));
    Joined(s, step, rest);
    steps := [step] + rest;
  }

  lemma {:induction false} Joined(s: State, step: Step, steps: seq<Step>)
    requires Enabled(s, step) && Run(Next(s, step), steps)
    ensures Run(s, [step] + steps) && After(s, [step] + steps) == After(Next(s, step), steps)
    decreases |steps|
  {
    if steps == [] {
      assert ([step] + steps)[..0] == [];
      assert Run(s, []);
    } else {
      var front := steps[..|steps| - 1];
      Joined(s, step, front);
      assert ([step] + steps)[..|steps|] == [step] + front;
    }
  }

  // ----- The pass as it runs

  class Operator {
    var state: State

    /** Deletes what belongs to the instance, in order, and stops at the first object that does not. */
    method RemoveOwned(objects: seq<Uid>) returns (left: seq<Uid>, pending: bool)
      ensures left == Foreign(objects, state.uid) && (pending <==> left != objects)
    {
      left, pending := objects, false;
      while left != [] && left[0] == state.uid
        invariant Foreign(left, state.uid) == Foreign(objects, state.uid)
        invariant |left| <= |objects| && (pending <==> |left| < |objects|) && (!pending ==> left == objects)
        decreases |left|
      {
        left, pending := left[1..], true;
      }
    }

    method Finalize() returns (outcome: Outcome)
      modifies this
      ensures (state, outcome) == Pass(old(state))
    {
      if !state.finalizer { return Released; }
      if state.gatewayFinalizer {
        var left, pending := RemoveOwned(state.routes);
        state := state.(routes := left);
        if left != [] { return Conflict; }
        if pending { return Again; }
      }
      if state.monitoringFinalizer {
        var left, pending := RemoveOwned(state.monitors);
        state := state.(monitors := left);
        if left != [] { return Conflict; }
        if pending { return Again; }
      }
      var left, _ := RemoveOwned(state.services);
      state := state.(services := left);
      if left != [] { return Conflict; }
      if state.workload.Some? {
        var w := state.workload.value;
        if w.owner != state.uid { return Conflict; }
        if w.replicas != Some(0) {
          state := state.(workload := Some(w.(replicas := Some(0))));
          return Again;
        }
      }
      if state.pods != {} { return Again; }
      if state.volume.Some? {
        var v := state.volume.value;
        if v.owner != state.uid { return Conflict; }
        match state.policy {
          case Delete =>
            state := state.(volume := Some(v.(deleting := true)));
            return Again;
          case Unsupported => return Conflict;
          case Retain =>
        }
      }
      state := state.(finalizer := false, gatewayFinalizer := false, monitoringFinalizer := false);
      return Released;
    }
  }
}
