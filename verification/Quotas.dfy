/**
 Project quotas over the reservations of all instances.

 Admission raises a reservation and checks the totals in the same transaction; settlement, deletion,
 failure and retry never check.  The main result is that they need not: as long as no instance is
 reported as deleted while its object is there, nothing but the reconciliation of a reservation,
 which an administrator asks for, takes a total above its limit.
 */
module Quotas {
  import opened Wrappers
  import opened Protocol
  import opened Standing
  import opened Sums

  datatype Key = Instances | StorageGiB | CpuMillis | MemoryMiB

  const Keys: seq<Key> := [Instances, StorageGiB, CpuMillis, MemoryMiB]

  datatype Limits = Limits(instances: Option<nat>, storage: Option<nat>, cpu: Option<nat>, memory: Option<nat>) {
    function Of(key: Key): Option<nat> {
      match key
      case Instances => instances
      case StorageGiB => storage
      case CpuMillis => cpu
      case MemoryMiB => memory
    }
  }

  /** A binding as the quota reads it; a reservation of a binding older than the quota is unknown. */
  datatype Row = Row(lifecycle: Lifecycle, storage: Option<nat>, cpu: Option<nat>, memory: Option<nat>)

  function Known(amount: Option<nat>): nat {
    if amount.Some? then amount.value else 0
  }

  /** What one binding adds to a total. */
  function Share(row: Row, key: Key): nat {
    match key
    case Instances => if Left(row.lifecycle) then 0 else 1
    case StorageGiB => if row.lifecycle.Deleted? then 0 else Known(row.storage)
    case CpuMillis => if Left(row.lifecycle) then 0 else Known(row.cpu)
    case MemoryMiB => if Left(row.lifecycle) then 0 else Known(row.memory)
  }

  predicate Unknown(row: Row) {
    !row.lifecycle.Deleted? && (row.storage.None? || (!row.lifecycle.Detached? && (row.cpu.None? || row.memory.None?)))
  }

  function Total(rows: seq<Row>, key: Key): nat {
    if rows == [] then 0 else Total(rows[..|rows| - 1], key) + Share(rows[|rows| - 1], key)
  }

  function Unresolved(rows: seq<Row>): nat {
    if rows == [] then 0 else Unresolved(rows[..|rows| - 1]) + (if Unknown(rows[|rows| - 1]) then 1 else 0)
  }

  predicate Within(limits: Limits, rows: seq<Row>, key: Key) {
    limits.Of(key).Some? ==> Total(rows, key) <= limits.Of(key).value
  }

  /** No limit is exceeded, and no limit is set beside a reservation nobody knows. */
  predicate Passes(limits: Limits, rows: seq<Row>) {
    (forall key: Key :: Within(limits, rows, key)) &&
    ((forall key: Key :: limits.Of(key).None?) || forall i | 0 <= i < |rows| :: !Unknown(rows[i]))
  }

  datatype Verdict = Fits | UnresolvedReservations | Exceeded(key: Key)

  lemma {:induction false} ResolvedAll(rows: seq<Row>)
    ensures Unresolved(rows) == 0 <==> forall i | 0 <= i < |rows| :: !Unknown(rows[i])
    decreases |rows|
  {
    if rows != [] {
      ResolvedAll(rows[..|rows| - 1]);
      assert forall i | 0 <= i < |rows| - 1 :: rows[i] == rows[..|rows| - 1][i];
    }
  }

  lemma AllKeys(key: Key) returns (j: nat)
    ensures j < |Keys| && Keys[j] == key
  {
    j := match key case Instances => 0 case StorageGiB => 1 case CpuMillis => 2 case MemoryMiB => 3;
    assert Keys[0] == Instances && Keys[1] == StorageGiB && Keys[2] == CpuMillis && Keys[3] == MemoryMiB;
  }

  lemma SomeUnknown(rows: seq<Row>)
    ensures (exists i | 0 <= i < |rows| :: Unknown(rows[i])) <==>
              exists row | row in rows ::
                && row.lifecycle != Deleted
                && (row.storage.None? || (row.lifecycle != Detached && (row.cpu.None? || row.memory.None?)))
  {
    if i :| 0 <= i < |rows| && Unknown(rows[i]) { assert rows[i] in rows; }
  }

  lemma SomeLimit(limits: Limits)
    ensures (exists key: Key :: limits.Of(key).Some?) <==>
              limits.instances.Some? || limits.storage.Some? || limits.cpu.Some? || limits.memory.Some?
  {
    assert limits.Of(Instances) == limits.instances && limits.Of(StorageGiB) == limits.storage;
    assert limits.Of(CpuMillis) == limits.cpu && limits.Of(MemoryMiB) == limits.memory;
  }

  method CheckQuota(limits: Limits, rows: seq<Row>) returns (verdict: Verdict)
    ensures verdict.Fits? <==> Passes(limits, rows)
    ensures verdict.Exceeded? ==> !Within(limits, rows, verdict.key)
    ensures verdict.UnresolvedReservations? <==>
              (exists key: Key :: limits.Of(key).Some?) && exists i | 0 <= i < |rows| :: Unknown(rows[i])
    ensures verdict.UnresolvedReservations? <==>
              && (limits.instances.Some? || limits.storage.Some? || limits.cpu.Some? || limits.memory.Some?)
              && exists row | row in rows ::
                   && row.lifecycle != Deleted
                   && (row.storage.None? || (row.lifecycle != Detached && (row.cpu.None? || row.memory.None?)))
    ensures verdict.Exceeded? ==>
              limits.Of(verdict.key).Some? && Total(rows, verdict.key) > limits.Of(verdict.key).value
    ensures verdict.Exceeded? ==> exists i | 0 <= i < |Keys| :: Keys[i] == verdict.key && forall j | 0 <= j < i :: Within(limits, rows, Keys[j])
  {
    ResolvedAll(rows);
    SomeUnknown(rows);
    SomeLimit(limits);
    var limited := false;
    for i := 0 to |Keys|
      invariant limited <==> exists j | 0 <= j < i :: limits.Of(Keys[j]).Some?
    {
      limited := limited || limits.Of(Keys[i]).Some?;
    }
    forall key: Key | limits.Of(key).Some? ensures limited { var j := AllKeys(key); }
    if Unresolved(rows) != 0 && limited { return UnresolvedReservations; }
    for i := 0 to |Keys|
      invariant forall j | 0 <= j < i :: Within(limits, rows, Keys[j])
    {
      if limits.Of(Keys[i]).Some? && Total(rows, Keys[i]) > limits.Of(Keys[i]).value {
        assert !Within(limits, rows, Keys[i]);
        return Exceeded(Keys[i]);
      }
    }
    forall key: Key ensures Within(limits, rows, key) { var j := AllKeys(key); }
    return Fits;
  }

  // ----- What is counted

  /** The rows of bindings that are neither deleted nor detached. */
  function Staying(rows: seq<Row>): set<nat> {
    set i: nat | i < |rows| && rows[i].lifecycle != Deleted && rows[i].lifecycle != Detached
  }

  /** The amounts that are known, by row. */
  function StorageOf(rows: seq<Row>): map<nat, nat> {
    map i: nat | i < |rows| && rows[i].lifecycle != Deleted && rows[i].storage.Some? :: rows[i].storage.value
  }

  function CpuOf(rows: seq<Row>): map<nat, nat> {
    map i: nat | i < |rows| && i in Staying(rows) && rows[i].cpu.Some? :: rows[i].cpu.value
  }

  function MemoryOf(rows: seq<Row>): map<nat, nat> {
    map i: nat | i < |rows| && i in Staying(rows) && rows[i].memory.Some? :: rows[i].memory.value
  }

  lemma SumMore(m: map<nat, nat>, n: map<nat, nat>, k: nat, amount: Option<nat>)
    requires k !in m && n == if amount.Some? then m[k := amount.value] else m
    ensures Sum(n) == Sum(m) + Known(amount)
  {
    if amount.Some? {
      SumWithout(n, k);
      assert n - {k} == m;
    }
  }

  /** Instances that have not left are counted once each; storage is counted once for every binding that is not deleted, processor
      and memory once for every one that has not left, and an unknown amount not at all. */
  lemma {:induction false} TotalsCount(rows: seq<Row>)
    ensures Total(rows, Instances) == |Staying(rows)|
    ensures Total(rows, StorageGiB) == Sum(StorageOf(rows))
    ensures Total(rows, CpuMillis) == Sum(CpuOf(rows))
    ensures Total(rows, MemoryMiB) == Sum(MemoryOf(rows))
    decreases |rows|
  {
    if rows == [] {
      assert StorageOf(rows) == map[] && CpuOf(rows) == map[] && MemoryOf(rows) == map[];
    } else {
      var n := |rows| - 1;
      var front, last := rows[..n], rows[n];
      TotalsCount(front);
      var stays := last.lifecycle != Deleted && last.lifecycle != Detached;
      StayingMore(rows);
      hide Staying, StorageOf, CpuOf, MemoryOf, Sum;
      SumMore(StorageOf(front), StorageOf(rows), n, if last.lifecycle != Deleted then last.storage else None);
      SumMore(CpuOf(front), CpuOf(rows), n, if stays then last.cpu else None);
      SumMore(MemoryOf(front), MemoryOf(rows), n, if stays then last.memory else None);
    }
  }

  lemma StayingMore(rows: seq<Row>)
    requires rows != []
    ensures
      var n := |rows| - 1;
      var front, last := rows[..n], rows[n];
      var stays := last.lifecycle != Deleted && last.lifecycle != Detached;
      && |Staying(rows)| == |Staying(front)| + (if stays then 1 else 0)
      && n !in StorageOf(front) && n !in CpuOf(front) && n !in MemoryOf(front)
      && StorageOf(rows) ==
           (if last.lifecycle != Deleted && last.storage.Some? then StorageOf(front)[n := last.storage.value] else StorageOf(front))
      && CpuOf(rows) == (if stays && last.cpu.Some? then CpuOf(front)[n := last.cpu.value] else CpuOf(front))
      && MemoryOf(rows) == (if stays && last.memory.Some? then MemoryOf(front)[n := last.memory.value] else MemoryOf(front))
  {
    StayingSet(rows);
    StorageMap(rows);
    hide StorageOf;
    ComputeMaps(rows);
    hide CpuOf, MemoryOf, Staying;
  }

  lemma StayingSet(rows: seq<Row>)
    requires rows != []
    ensures
      var n := |rows| - 1;
      var stays := rows[n].lifecycle != Deleted && rows[n].lifecycle != Detached;
      && n !in Staying(rows[..n]) && Staying(rows) == (if stays then Staying(rows[..n]) + {n} else Staying(rows[..n]))
  {
  }

  lemma StorageMap(rows: seq<Row>)
    requires rows != []
    ensures
      var n := |rows| - 1;
      var front, last := rows[..n], rows[n];
      && n !in StorageOf(front)
      && StorageOf(rows) ==
           (if last.lifecycle != Deleted && last.storage.Some? then StorageOf(front)[n := last.storage.value] else StorageOf(front))
  {
  }

  lemma ComputeMaps(rows: seq<Row>)
    requires rows != []
    ensures
      var n := |rows| - 1;
      var front, last := rows[..n], rows[n];
      var stays := last.lifecycle != Deleted && last.lifecycle != Detached;
      && n !in CpuOf(front) && n !in MemoryOf(front)
      && CpuOf(rows) == (if stays && last.cpu.Some? then CpuOf(front)[n := last.cpu.value] else CpuOf(front))
      && MemoryOf(rows) == (if stays && last.memory.Some? then MemoryOf(front)[n := last.memory.value] else MemoryOf(front))
  {
    StayingSet(rows);
    hide Staying;
  }

  // ----- A project

  datatype Project = Project(instances: seq<State>, limits: Limits)

  const NewProject: Project := Project([], Limits(None, None, None, None))

  /** The binding of an instance; before its creation is accepted it has none, which counts like one that is deleted. */
  function RowOf(s: State): Row {
    Row(if s.lifecycle.Absent? then Deleted else s.lifecycle, Some(s.reserved.storage), Some(s.reserved.cpu), Some(s.reserved.memory))
  }

  function Rows(p: Project): (rows: seq<Row>)
    ensures |rows| == |p.instances| && forall i | 0 <= i < |rows| :: rows[i] == RowOf(p.instances[i])
  {
    seq(|p.instances|, i requires 0 <= i < |p.instances| => RowOf(p.instances[i]))
  }

  datatype ProjectStep =
    | Join
    | SetLimits(limits: Limits)
    | On(instance: nat, step: Step)

  function Next(p: Project, step: ProjectStep): Project
    requires step.On? ==> step.instance < |p.instances| && Enabled(p.instances[step.instance], step.step)
  {
    match step
    case Join => p.(instances := p.instances + [Initial])
    case SetLimits(limits) => p.(limits := limits)
    case On(i, s) => p.(instances := p.instances[i := Apply(p.instances[i], s)])
  }

  /** A request that raises a reservation, or new limits, are committed only if the totals then pass. */
  predicate Allowed(p: Project, step: ProjectStep) {
    match step
    case Join => true
    case SetLimits(limits) => Passes(limits, Rows(p))
    case On(i, s) =>
      && i < |p.instances| && Enabled(p.instances[i], s) && Vacant(p.instances[i], s)
      && (Rechecked(s) ==> Passes(p.limits, Rows(Next(p, step))))
  }

  predicate Inv(p: Project) {
    forall i | 0 <= i < |p.instances| :: Standing.Inv(p.instances[i]) && Facts(p.instances[i])
  }

  predicate Reconciles(step: ProjectStep) {
    step.On? && Unchecked(step.step)
  }

  lemma {:induction false} TotalUpdate(rows: seq<Row>, i: nat, row: Row, key: Key)
    requires i < |rows|
    ensures Total(rows[i := row], key) + Share(rows[i], key) == Total(rows, key) + Share(row, key)
    decreases |rows|
  {
    var front := rows[..|rows| - 1];
    if i < |front| {
      TotalUpdate(front, i, row, key);
      assert rows[i := row][..|rows| - 1] == front[i := row];
    } else {
      assert rows[i := row][..|rows| - 1] == front;
    }
  }

  lemma JoinTotal(p: Project, key: Key)
    ensures Total(Rows(Next(p, Join)), key) == Total(Rows(p), key)
  {
    assert Rows(Next(p, Join))[..|p.instances|] == Rows(p);
  }

  /** Whatever a step does to the totals, it leaves each within its limit or does not raise it. */
  lemma TotalsHeld(p: Project, step: ProjectStep, key: Key)
    requires Inv(p) && Allowed(p, step) && !Reconciles(step)
    ensures Within(Next(p, step).limits, Rows(Next(p, step)), key) || Total(Rows(Next(p, step)), key) <= Total(Rows(p), key)
  {
    match step {
      case Join => JoinTotal(p, key);
      case SetLimits(_) => assert Rows(Next(p, step)) == Rows(p);
      case On(i, s) =>
        if !Rechecked(s) {
          var t := Apply(p.instances[i], s);
          UsageFalls(p.instances[i], s);
          hide Standing.Inv, Facts, Enabled, Apply;
          assert Rows(Next(p, step)) == Rows(p)[i := RowOf(t)];
          TotalUpdate(Rows(p), i, RowOf(t), key);
          ShareOfUsage(p.instances[i], t, key);
        }
    }
  }

  /** A binding adds to the totals exactly what its instance counts. */
  lemma ShareIsUsage(s: State)
    ensures Share(RowOf(s), Instances) == UsageOf(s).instances && Share(RowOf(s), StorageGiB) == UsageOf(s).storage
    ensures Share(RowOf(s), CpuMillis) == UsageOf(s).cpu && Share(RowOf(s), MemoryMiB) == UsageOf(s).memory
  {
  }

  lemma ShareOfUsage(s: State, t: State, key: Key)
    requires UsageOf(t).AtMost(UsageOf(s))
    ensures Share(RowOf(t), key) <= Share(RowOf(s), key)
  {
    ShareIsUsage(s);
    ShareIsUsage(t);
  }

  lemma StepKeeps(p: Project, step: ProjectStep)
    requires Inv(p) && Allowed(p, step)
    ensures Inv(Next(p, step))
  {
    if step.On? { Standing.StepKeeps(p.instances[step.instance], step.step); }
    if step.Join? { Starts(); }
    hide Standing.Inv, Facts, Enabled, Apply;
  }

  lemma Starts()
    ensures Standing.Inv(Initial) && Facts(Initial)
  {
  }

  // ----- Runs

  predicate ProjectRun(steps: seq<ProjectStep>)
    decreases |steps|, 0
  {
    steps == [] ||
    (ProjectRun(steps[..|steps| - 1]) && Allowed(Reached(steps[..|steps| - 1]), steps[|steps| - 1]))
  }

  function Reached(steps: seq<ProjectStep>): Project
    requires ProjectRun(steps)
    decreases |steps|, 1
  {
    if steps == [] then NewProject
    else Next(Reached(steps[..|steps| - 1]), steps[|steps| - 1])
  }

  lemma {:induction false} RunKeeps(steps: seq<ProjectStep>)
    requires ProjectRun(steps)
    ensures Inv(Reached(steps))
    decreases |steps|
  {
    if steps != [] {
      RunKeeps(steps[..|steps| - 1]);
      StepKeeps(Reached(steps[..|steps| - 1]), steps[|steps| - 1]);
    }
  }

  /** In any run, a step that takes a total above its limit is the reconciliation of a reservation. */
  lemma OnlyReconciliationExceeds(steps: seq<ProjectStep>, step: ProjectStep, key: Key)
    requires ProjectRun(steps) && Allowed(Reached(steps), step)
    requires Within(Reached(steps).limits, Rows(Reached(steps)), key)
    requires !Within(Next(Reached(steps), step).limits, Rows(Next(Reached(steps), step)), key)
    ensures Reconciles(step)
  {
    RunKeeps(steps);
    if !Reconciles(step) { TotalsHeld(Reached(steps), step, key); }
  }

  /** Without reconciliations every total stays within its limit, for all instances and all interleavings of their steps. */
  lemma {:induction false} QuotaHolds(steps: seq<ProjectStep>, key: Key)
    requires ProjectRun(steps) && forall i | 0 <= i < |steps| :: !Reconciles(steps[i])
    ensures Within(Reached(steps).limits, Rows(Reached(steps)), key)
    decreases |steps|
  {
    if steps != [] {
      var front := steps[..|steps| - 1];
      QuotaHolds(front, key);
      RunKeeps(front);
      TotalsHeld(Reached(front), steps[|steps| - 1], key);
    }
  }
}
