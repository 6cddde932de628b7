/**
 What a project reported as Healthy looks like: nothing is there that is not accounted for, and what
 is there asks for no more than the quota counts, in exact arithmetic.
 */
module Soundness {
  import opened Wrappers
  import opened Quantities
  import opened Inventory
  import Quotas

  // ----- No issue at all

  lemma {:induction false} NoTracked(project: string, bindings: seq<Binding>, r: Resources)
    requires TrackedIssues(project, bindings, r) == [] && BusyCount(bindings) == 0
    ensures forall k | 0 <= k < |bindings| :: !bindings[k].busy && IssuesOf(project, bindings[k], r) == []
    decreases |bindings|
  {
    if bindings != [] {
      var front := bindings[..|bindings| - 1];
      assert |TrackedIssues(project, bindings, r)| == |TrackedIssues(project, front, r)| + |IssuesOf(project, bindings[|bindings| - 1], r)|;
      NoTracked(project, front, r);
      assert forall k | 0 <= k < |front| :: front[k] == bindings[k];
    }
  }

  lemma {:induction false} NoUntrackedInstance(instances: seq<Observed>, names: set<string>)
    requires UntrackedInstances(instances, names) == []
    ensures forall i | 0 <= i < |instances| :: instances[i].name in names
    decreases |instances|
  {
    if instances != [] {
      var front := instances[..|instances| - 1];
      assert |UntrackedInstances(instances, names)| ==
             |UntrackedInstances(front, names)| + (if instances[|instances| - 1].name in names then 0 else 1);
      NoUntrackedInstance(front, names);
      assert forall i | 0 <= i < |front| :: front[i] == instances[i];
    }
  }

  lemma {:induction false} NoUntrackedClaim(claims: seq<Claim>, names: set<string>)
    requires UntrackedClaims(claims, names) == []
    ensures forall i | 0 <= i < |claims| :: claims[i].name in names
    decreases |claims|
  {
    if claims != [] {
      var front := claims[..|claims| - 1];
      assert |UntrackedClaims(claims, names)| ==
             |UntrackedClaims(front, names)| + (if claims[|claims| - 1].name in names then 0 else 1);
      NoUntrackedClaim(front, names);
      assert forall i | 0 <= i < |front| :: front[i] == claims[i];
    }
  }

  predicate IsHealthy(project: string, bindings: seq<Binding>, r: Resources) {
    ReportOf(AllIssues(project, bindings, r), BusyCount(bindings)).health.Healthy?
  }

  lemma NothingWrong(project: string, bindings: seq<Binding>, r: Resources)
    requires IsHealthy(project, bindings, r)
    ensures forall k | 0 <= k < |bindings| :: !bindings[k].busy && IssuesOf(project, bindings[k], r) == []
    ensures forall i | 0 <= i < |r.instances| :: r.instances[i].name in Names(bindings)
    ensures forall i | 0 <= i < |r.claims| :: r.claims[i].name in ClaimNames(bindings)
  {
    hide IssuesOf;
    assert |AllIssues(project, bindings, r)| == |TrackedIssues(project, bindings, r)| +
           |UntrackedInstances(r.instances, Names(bindings))| + |UntrackedClaims(r.claims, ClaimNames(bindings))|;
    NoTracked(project, bindings, r);
    NoUntrackedInstance(r.instances, Names(bindings));
    NoUntrackedClaim(r.claims, ClaimNames(bindings));
  }

  // ----- One binding without issues

  ghost function Unit(unit: string): (v: real)
    requires PlatformUnit(unit)
    ensures v > 0.0
  {
    OneUnit(unit);
    Units(1, unit);
    Rational("1" + unit).value.Value()
  }

  /** The number a quantity stands for; one that is absent asks for nothing. */
  ghost function Amount(value: Option<string>): real {
    if value.Some? && Rational(value.value).Some? then Rational(value.value).value.Value() else 0.0
  }

  lemma {:induction false} PresentHas(values: seq<Option<string>>, j: nat)
    requires j < |values| && values[j].Some?
    ensures values[j].value in Present(values)
  {
    if j > 0 {
      PresentHas(values[1..], j - 1);
      assert values[1..][j - 1] == values[j];
    }
  }

  /** A reservation without issue covers every value it was compared with. */
  lemma ReservationCovers(actual: seq<Option<string>>, reserved: Option<nat>, unit: string, j: nat)
    requires PlatformUnit(unit) && ReservationIssue(actual, reserved, unit).None? && j < |actual|
    ensures reserved.Some? && Amount(actual[j]) <= Worth(reserved.value, Unit(unit))
    ensures actual[j].Some? ==> Rational(actual[j].value).Some?
  {
    hide Rational, Decimal, Present, Fraction.Value, PlatformUnit, Unit;
    if actual[j].Some? {
      PresentHas(actual, j);
      Unexceeded(actual[j].value, reserved.value, unit);
    } else {
      WorthPositive(reserved.value, Unit(unit));
    }
  }

  lemma Unexceeded(actual: string, reserved: nat, unit: string)
    requires PlatformUnit(unit) && Exceeds(actual, Decimal(reserved) + unit) == Some(false)
    ensures Rational(actual).Some? && Rational(actual).value.Value() <= Worth(reserved, Unit(unit))
  {
    hide Rational, Decimal, Exceeds, Fraction.Value, PlatformUnit, Unit;
    ShortEnough(actual, reserved, unit);
    UnitIs(unit);
    UnitsAreMultiples(reserved, unit);
    ExceedsIsExact(actual, Decimal(reserved) + unit);
  }

  lemma UnitIs(unit: string)
    requires PlatformUnit(unit)
    ensures Rational("1" + unit).Some? && Unit(unit) == Rational("1" + unit).value.Value()
  {
    hide Rational, Fraction.Value;
    OneUnit(unit);
  }

  lemma ShortEnough(actual: string, reserved: nat, unit: string)
    requires Exceeds(actual, Decimal(reserved) + unit).Some?
    ensures |Decimal(reserved)| + |unit| <= MaxLength
  {
  }

  lemma NotedMore(codes: seq<(Code, Kind)>, code: Option<Code>, kind: Kind)
    ensures Noted(codes, code, kind) == [] <==> codes == [] && code.None?
  {
  }

  lemma NoCodes(project: string, b: Binding, r: Resources)
    requires !b.busy && IssuesOf(project, b, r) == []
    ensures InstanceCodes(project, b, FindInstance(r.instances, b.name)) == []
    ensures ClaimCodes(project, b, FindClaim(r.claims, ClaimName(b.name))) == []
  {
    hide InstanceCodes, ClaimCodes, FindInstance, FindClaim;
  }

  /** Nothing is wrong with an instance only if it is the bound one, not on its way out, and covered. */
  lemma SoundInstance(project: string, b: Binding, o: Observed)
    requires InstanceCodes(project, b, Some(o)) == []
    ensures Countable(project, b, o) && !o.deleting && b.version == Some(o.spec.version) && b.template == o.spec.template
    ensures b.expected.Some? ==> b.expected.value == o.spec
    ensures ReservationIssue([Some(o.spec.storage)], b.storage, "Gi").None?
    ensures ReservationIssue(o.spec.cpu, b.cpu, "m").None?
    ensures ReservationIssue(o.spec.memory, b.memory, "Mi").None?
  {
    hide ReservationIssue;
    var identity := Noted([], IdentityIssue(project, b, o), CacheInstance);
    NotedMore([], IdentityIssue(project, b, o), CacheInstance);
    var storage := Noted(identity, ReservationIssue([Some(o.spec.storage)], b.storage, "Gi"), CacheInstance);
    var cpu := Noted(storage, ReservationIssue(o.spec.cpu, b.cpu, "m"), CacheInstance);
    if Countable(project, b, o) {
      NotedMore(identity, ReservationIssue([Some(o.spec.storage)], b.storage, "Gi"), CacheInstance);
      NotedMore(storage, ReservationIssue(o.spec.cpu, b.cpu, "m"), CacheInstance);
      NotedMore(cpu, ReservationIssue(o.spec.memory, b.memory, "Mi"), CacheInstance);
    }
  }

  lemma SoundClaim(project: string, b: Binding, c: Claim)
    requires ClaimCodes(project, b, Some(c)) == []
    ensures OwnedClaim(project, b, c) && !b.lifecycle.Deleted? && !c.deleting && c.phase == "Bound"
    ensures ReservationIssue([c.request, c.capacity], b.storage, "Gi").None?
  {
    hide ReservationIssue;
    var phase := if c.phase == "Bound" then [] else [(VolumeNotBound, VolumeClaim)];
    NotedMore(phase, ReservationIssue([c.request, c.capacity], b.storage, "Gi"), VolumeClaim);
  }

  // ----- Everything is matched

  ghost predicate Matched(project: string, bindings: seq<Binding>, o: Observed, k: nat) {
    k < |bindings| && bindings[k].name == o.name && InstanceCodes(project, bindings[k], Some(o)) == []
  }

  ghost predicate MatchedClaim(project: string, bindings: seq<Binding>, c: Claim, k: nat) {
    k < |bindings| && ClaimName(bindings[k].name) == c.name && ClaimCodes(project, bindings[k], Some(c)) == []
  }

  lemma FindOne(instances: seq<Observed>, i: nat)
    requires i < |instances| && forall a, b | 0 <= a < b < |instances| :: instances[a].name != instances[b].name
    ensures FindInstance(instances, instances[i].name) == Some(instances[i])
  {
    FindInstanceAt(instances, instances[i].name);
  }

  lemma FindOneClaim(claims: seq<Claim>, i: nat)
    requires i < |claims| && forall a, b | 0 <= a < b < |claims| :: claims[a].name != claims[b].name
    ensures FindClaim(claims, claims[i].name) == Some(claims[i])
  {
    FindClaimAt(claims, claims[i].name);
  }

  lemma MatchInstance(project: string, bindings: seq<Binding>, r: Resources, i: nat) returns (k: nat)
    requires Distinct(r) && IsHealthy(project, bindings, r) && i < |r.instances|
    ensures Matched(project, bindings, r.instances[i], k)
  {
    NothingWrong(project, bindings, r);
    hide IsHealthy, IssuesOf, InstanceCodes, FindInstance;
    assert r.instances[i].name in Names(bindings);
    var b :| b in bindings && b.name == r.instances[i].name;
    k :| 0 <= k < |bindings| && bindings[k] == b;
    FindOne(r.instances, i);
    NoCodes(project, b, r);
  }

  lemma MatchClaim(project: string, bindings: seq<Binding>, r: Resources, i: nat) returns (k: nat)
    requires Distinct(r) && IsHealthy(project, bindings, r) && i < |r.claims|
    ensures MatchedClaim(project, bindings, r.claims[i], k)
  {
    NothingWrong(project, bindings, r);
    hide IsHealthy, IssuesOf, ClaimCodes, FindClaim;
    assert r.claims[i].name in ClaimNames(bindings);
    var b :| b in bindings && ClaimName(b.name) == r.claims[i].name;
    k :| 0 <= k < |bindings| && bindings[k] == b;
    FindOneClaim(r.claims, i);
    NoCodes(project, b, r);
  }

  /** In a healthy project every instance is that of exactly one binding, which has not left and expects just this object. */
  lemma HealthyInstance(project: string, bindings: seq<Binding>, r: Resources, i: nat) returns (k: nat)
    requires Distinct(r) && DistinctBindings(bindings) && IsHealthy(project, bindings, r) && i < |r.instances|
    ensures k < |bindings| && Countable(project, bindings[k], r.instances[i]) && !r.instances[i].deleting
    ensures bindings[k].expected.Some? ==> bindings[k].expected.value == r.instances[i].spec
    ensures forall j | 0 <= j < |bindings| :: bindings[j].name == r.instances[i].name <==> j == k
  {
    k := MatchInstance(project, bindings, r, i);
    SoundInstance(project, bindings[k], r.instances[i]);
    hide IsHealthy, InstanceCodes;
  }

  /** And every volume is that of exactly one binding that is not deleted. */
  lemma HealthyClaim(project: string, bindings: seq<Binding>, r: Resources, i: nat) returns (k: nat)
    requires Distinct(r) && DistinctBindings(bindings) && IsHealthy(project, bindings, r) && i < |r.claims|
    ensures k < |bindings| && OwnedClaim(project, bindings[k], r.claims[i]) && !bindings[k].lifecycle.Deleted?
    ensures !r.claims[i].deleting && r.claims[i].phase == "Bound"
    ensures forall j | 0 <= j < |bindings| :: ClaimName(bindings[j].name) == r.claims[i].name <==> j == k
  {
    k := MatchClaim(project, bindings, r, i);
    SoundClaim(project, bindings[k], r.claims[i]);
    hide IsHealthy, ClaimCodes;
    forall j | 0 <= j < |bindings| && ClaimName(bindings[j].name) == r.claims[i].name ensures j == k {
      SameClaimName(bindings[j].name, bindings[k].name);
    }
  }

  // ----- Sums

  datatype Item = Item(name: string, amount: real)

  ghost function Load(items: seq<Item>): real {
    if items == [] then 0.0 else Load(items[..|items| - 1]) + items[|items| - 1].amount
  }

  ghost function Capacity(caps: seq<real>): real {
    if caps == [] then 0.0 else Capacity(caps[..|caps| - 1]) + caps[|caps| - 1]
  }

  lemma {:induction false} CapacityUpdate(caps: seq<real>, k: nat, c: real)
    requires k < |caps|
    ensures Capacity(caps[k := c]) == Capacity(caps) - caps[k] + c
    decreases |caps|
  {
    var front := caps[..|caps| - 1];
    if k < |front| {
      CapacityUpdate(front, k, c);
      assert caps[k := c][..|caps| - 1] == front[k := c];
    } else {
      assert caps[k := c][..|caps| - 1] == front;
    }
  }

  lemma {:induction false} CapacityPositive(caps: seq<real>)
    requires forall k | 0 <= k < |caps| :: caps[k] >= 0.0
    ensures Capacity(caps) >= 0.0
    decreases |caps|
  {
    if caps != [] { CapacityPositive(caps[..|caps| - 1]); }
  }

  ghost predicate Carried(item: Item, names: seq<string>, caps: seq<real>)
    requires |names| == |caps|
  {
    exists k | 0 <= k < |names| :: names[k] == item.name && item.amount <= caps[k]
  }

  /** If every item, under its own name, stays below the capacity of that name, all of them stay below all capacities. */
  lemma {:induction false} LoadWithin(items: seq<Item>, names: seq<string>, caps: seq<real>)
    requires |names| == |caps| && forall k | 0 <= k < |caps| :: caps[k] >= 0.0
    requires forall i, j | 0 <= i < j < |items| :: items[i].name != items[j].name
    requires forall i | 0 <= i < |items| :: Carried(items[i], names, caps)
    ensures Load(items) <= Capacity(caps)
    decreases |items|
  {
    if items == [] {
      CapacityPositive(caps);
    } else {
      var last := items[|items| - 1];
      var front := items[..|items| - 1];
      var k :| 0 <= k < |names| && names[k] == last.name && last.amount <= caps[k];
      var rest := caps[k := 0.0];
      CapacityUpdate(caps, k, 0.0);
      forall i | 0 <= i < |front| ensures Carried(front[i], names, rest) {
        assert items[i].name != last.name && Carried(items[i], names, caps);
        var j :| 0 <= j < |names| && names[j] == items[i].name && items[i].amount <= caps[j];
        assert rest[j] == caps[j];
      }
      LoadWithin(front, names, rest);
    }
  }

  // ----- The quota's totals

  function RowOf(b: Binding): Quotas.Row {
    Quotas.Row(b.lifecycle, b.storage, b.cpu, b.memory)
  }

  function RowsOf(bindings: seq<Binding>): (rows: seq<Quotas.Row>)
    ensures |rows| == |bindings| && forall i | 0 <= i < |rows| :: rows[i] == RowOf(bindings[i])
  {
    seq(|bindings|, i requires 0 <= i < |bindings| => RowOf(bindings[i]))
  }

  function BindingNames(bindings: seq<Binding>): (names: seq<string>)
    ensures |names| == |bindings| && forall i | 0 <= i < |names| :: names[i] == bindings[i].name
  {
    seq(|bindings|, i requires 0 <= i < |bindings| => bindings[i].name)
  }

  /** An amount of whole units. */
  ghost function Worth(n: nat, unit: real): real {
    n as real * unit
  }

  lemma WorthPositive(n: nat, unit: real)
    requires unit > 0.0
    ensures Worth(n, unit) >= 0.0
  {
  }

  ghost function Caps(rows: seq<Quotas.Row>, key: Quotas.Key, unit: real): (caps: seq<real>)
    ensures |caps| == |rows| && forall i | 0 <= i < |rows| :: caps[i] == Worth(Quotas.Share(rows[i], key), unit)
  {
    seq(|rows|, i requires 0 <= i < |rows| => Worth(Quotas.Share(rows[i], key), unit))
  }

  lemma {:induction false} CapsTotal(rows: seq<Quotas.Row>, key: Quotas.Key, unit: real)
    ensures Capacity(Caps(rows, key, unit)) == Worth(Quotas.Total(rows, key), unit)
    decreases |rows|
  {
    Distribute(0, 0, unit);
    hide Quotas.Share, Worth;
    if rows != [] {
      var front := rows[..|rows| - 1];
      CapsTotal(front, key, unit);
      assert Caps(rows, key, unit)[..|rows| - 1] == Caps(front, key, unit);
      Distribute(Quotas.Total(front, key), Quotas.Share(rows[|rows| - 1], key), unit);
    }
  }

  lemma Distribute(a: nat, b: nat, unit: real)
    ensures Worth(a + b, unit) == Worth(a, unit) + Worth(b, unit)
    ensures Worth(0, unit) == 0.0
  {
    assert (a + b) as real == a as real + b as real;
  }

  function UnitOf(key: Quotas.Key): (unit: string)
    requires !key.Instances?
    ensures PlatformUnit(unit)
  {
    match key
    case StorageGiB => "Gi"
    case CpuMillis => "m"
    case MemoryMiB => "Mi"
  }

  /** What an instance asks for under a key: its request at position 0, its limit at position 1. */
  function Asked(o: Observed, key: Quotas.Key, j: nat): Option<string> {
    match key
    case CpuMillis => if j < |o.spec.cpu| then o.spec.cpu[j] else None
    case MemoryMiB => if j < |o.spec.memory| then o.spec.memory[j] else None
    case _ => None
  }

  ghost function Loads(instances: seq<Observed>, key: Quotas.Key, j: nat): (items: seq<Item>)
    ensures |items| == |instances|
    ensures forall i | 0 <= i < |items| :: items[i] == Item(instances[i].name, Amount(Asked(instances[i], key, j)))
  {
    seq(|instances|, i requires 0 <= i < |instances| => Item(instances[i].name, Amount(Asked(instances[i], key, j))))
  }

  ghost function ClaimLoads(claims: seq<Claim>): (items: seq<Item>)
    ensures |items| == |claims| && forall i | 0 <= i < |items| :: items[i] == Item(claims[i].name, Amount(claims[i].request))
  {
    seq(|claims|, i requires 0 <= i < |claims| => Item(claims[i].name, Amount(claims[i].request)))
  }

  lemma CapsPositive(rows: seq<Quotas.Row>, key: Quotas.Key, unit: real)
    requires unit > 0.0
    ensures forall k | 0 <= k < |rows| :: Caps(rows, key, unit)[k] >= 0.0
  {
    forall k | 0 <= k < |rows| ensures Caps(rows, key, unit)[k] >= 0.0 { WorthPositive(Quotas.Share(rows[k], key), unit); }
  }

  lemma AskedCovered(project: string, b: Binding, o: Observed, key: Quotas.Key, j: nat)
    requires key.CpuMillis? || key.MemoryMiB?
    requires InstanceCodes(project, b, Some(o)) == []
    ensures Amount(Asked(o, key, j)) <= Worth(Quotas.Share(RowOf(b), key), Unit(UnitOf(key)))
  {
    SoundInstance(project, b, o);
    hide InstanceCodes, ReservationIssue, Amount, Unit, PlatformUnit, Rational, Worth;
    var actual := if key.CpuMillis? then o.spec.cpu else o.spec.memory;
    if j < |actual| {
      ReservationCovers(actual, if key.CpuMillis? then b.cpu else b.memory, UnitOf(key), j);
    } else {
      AbsentAsksNothing();
      WorthPositive(Quotas.Share(RowOf(b), key), Unit(UnitOf(key)));
    }
  }

  lemma AbsentAsksNothing()
    ensures Amount(None) == 0.0
  {
  }

  /** In a healthy project the processor and memory requests of all instances, and their limits, are at most the totals of the quota. */
  lemma HealthyCompute(project: string, bindings: seq<Binding>, r: Resources, key: Quotas.Key, j: nat)
    requires Distinct(r) && DistinctBindings(bindings) && IsHealthy(project, bindings, r)
    requires key.CpuMillis? || key.MemoryMiB?
    ensures Load(Loads(r.instances, key, j)) <= Worth(Quotas.Total(RowsOf(bindings), key), Unit(UnitOf(key)))
  {
    hide IsHealthy, Amount, Quotas.Share, InstanceCodes, Unit, PlatformUnit, Rational, Worth, Load, Capacity, Quotas.Total, DistinctBindings;
    var unit := Unit(UnitOf(key));
    var rows, names := RowsOf(bindings), BindingNames(bindings);
    var caps := Caps(rows, key, unit);
    CapsTotal(rows, key, unit);
    CapsPositive(rows, key, unit);
    var items := Loads(r.instances, key, j);
    forall i | 0 <= i < |items| ensures Carried(items[i], names, caps) {
      var k := MatchInstance(project, bindings, r, i);
      AskedCovered(project, bindings[k], r.instances[i], key, j);
      assert names[k] == items[i].name && items[i].amount <= caps[k];
    }
    LoadWithin(items, names, caps);
  }

  lemma RequestCovered(project: string, b: Binding, c: Claim)
    requires ClaimCodes(project, b, Some(c)) == []
    ensures Amount(c.request) <= Worth(Quotas.Share(RowOf(b), Quotas.StorageGiB), Unit("Gi"))
  {
    SoundClaim(project, b, c);
    hide ClaimCodes, ReservationIssue, Amount, Unit, Rational, Worth;
    ReservationCovers([c.request, c.capacity], b.storage, "Gi", 0);
  }

  /** In a healthy project the storage requests of all volumes are at most the storage total of the quota. */
  lemma HealthyStorage(project: string, bindings: seq<Binding>, r: Resources)
    requires Distinct(r) && DistinctBindings(bindings) && IsHealthy(project, bindings, r)
    ensures Load(ClaimLoads(r.claims)) <= Worth(Quotas.Total(RowsOf(bindings), Quotas.StorageGiB), Unit("Gi"))
  {
    hide IsHealthy, Amount, Quotas.Share, ClaimCodes, Unit, Rational, Worth, Load, Capacity, Quotas.Total, DistinctBindings;
    var unit := Unit("Gi");
    var rows := RowsOf(bindings);
    var names := seq(|bindings|, i requires 0 <= i < |bindings| => ClaimName(bindings[i].name));
    var caps := Caps(rows, Quotas.StorageGiB, unit);
    CapsTotal(rows, Quotas.StorageGiB, unit);
    CapsPositive(rows, Quotas.StorageGiB, unit);
    var items := ClaimLoads(r.claims);
    forall i | 0 <= i < |items| ensures Carried(items[i], names, caps) {
      var k := MatchClaim(project, bindings, r, i);
      RequestCovered(project, bindings[k], r.claims[i]);
      assert names[k] == items[i].name && items[i].amount <= caps[k];
    }
    LoadWithin(items, names, caps);
  }
}
