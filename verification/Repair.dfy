/**
 Raising the reservation of one binding to what is observed.

 The floor is computed only when nothing but the reservation is wrong; raised to it, the binding has
 no issue left on the same observation, whatever else there is to report about the project.
 */
module Repair {
  import opened Wrappers
  import opened Quantities
  import opened Inventory
  import Findings
  import Soundness

  datatype Floor = Floor(storage: nat, cpu: nat, memory: nat)

  function Max(a: nat, b: nat): nat {
    if a < b then b else a
  }

  /** All values have to be there; the result covers each of them. */
  function MaxCeil(values: seq<Option<string>>, unit: string): Option<nat> {
    if values == [] then Some(0)
    else if values[0].None? || values[0].value == "" then None
    else
      var first, rest := Ceil(values[0].value, unit), MaxCeil(values[1..], unit);
      if first.None? || rest.None? then None else Some(Max(first.value, rest.value))
  }

  predicate Repairable(code: Code) {
    code.ResourceReservationUnknown? || code.ResourceReservationInsufficient?
  }

  /** The issues the comparison lists for this binding, out of at most two hundred it lists. */
  predicate OnlyReservation(project: string, b: Binding, r: Resources) {
    var issues := Capped(AllIssues(project, [b], r));
    forall i | 0 <= i < |issues| && issues[i].instance == Some(b.id) :: Repairable(issues[i].code)
  }

  /** Unlike the comparison, which indexes by name, the floor takes the first object of a name. */
  function FirstInstance(instances: seq<Observed>, name: string): Option<Observed> {
    if instances == [] then None
    else if instances[0].name == name then Some(instances[0])
    else FirstInstance(instances[1..], name)
  }

  function FirstClaim(claims: seq<Claim>, name: string): Option<Claim> {
    if claims == [] then None
    else if claims[0].name == name then Some(claims[0])
    else FirstClaim(claims[1..], name)
  }

  /** Where names are distinct, first and last are the same. */
  lemma {:induction false} FirstIsFound(instances: seq<Observed>, name: string)
    requires forall i, j | 0 <= i < j < |instances| :: instances[i].name != instances[j].name
    ensures FirstInstance(instances, name) == FindInstance(instances, name)
  {
    if |instances| > 1 {
      var first, last := instances[0], instances[|instances| - 1];
      assert instances[1..][..|instances| - 2] == instances[..|instances| - 1][1..];
      FirstIsFound(instances[1..], name);
      FirstIsFound(instances[..|instances| - 1], name);
      FirstIsFound(instances[1..|instances| - 1], name);
    }
  }

  lemma {:induction false} FirstClaimIsFound(claims: seq<Claim>, name: string)
    requires forall i, j | 0 <= i < j < |claims| :: claims[i].name != claims[j].name
    ensures FirstClaim(claims, name) == FindClaim(claims, name)
  {
    if |claims| > 1 {
      assert claims[1..][..|claims| - 2] == claims[..|claims| - 1][1..];
      FirstClaimIsFound(claims[1..], name);
      FirstClaimIsFound(claims[..|claims| - 1], name);
      FirstClaimIsFound(claims[1..|claims| - 1], name);
    }
  }

  function ReservationFloor(project: string, b: Binding, r: Resources): Option<Floor> {
    if b.busy || !(b.lifecycle.Active? || b.lifecycle.Detached?) then None
    else if !OnlyReservation(project, b, r) then None
    else
      var o, c := FirstInstance(r.instances, b.name), FirstClaim(r.claims, ClaimName(b.name));
      if c.None? || (b.lifecycle.Active? && o.None?) || (b.lifecycle.Detached? && o.Some?) then None
      else
        var volume := [c.value.request, c.value.capacity];
        if o.None? then
          var storage := MaxCeil(volume, "1Gi");
          if storage.None? then None else Some(Floor(storage.value, 0, 0))
        else
          var storage := MaxCeil(volume + [Some(o.value.spec.storage)], "1Gi");
          var cpu, memory := MaxCeil(o.value.spec.cpu, "1m"), MaxCeil(o.value.spec.memory, "1Mi");
          if storage.None? || cpu.None? || memory.None? then None
          else Some(Floor(storage.value, cpu.value, memory.value))
  }

  function Known(amount: Option<nat>): nat {
    if amount.Some? then amount.value else 0
  }

  /** What the reconciliation stores: storage always, processor and memory unless the instance is detached. */
  function Raised(b: Binding, f: Floor): Binding {
    b.(storage := Some(Max(Known(b.storage), f.storage)),
       cpu := if b.lifecycle.Detached? then b.cpu else Some(Max(Known(b.cpu), f.cpu)),
       memory := if b.lifecycle.Detached? then b.memory else Some(Max(Known(b.memory), f.memory)))
  }

  // ----- The cap never hides this binding's issues

  predicate AllRepairable(codes: seq<(Code, Kind)>) {
    forall i | 0 <= i < |codes| :: Repairable(codes[i].0)
  }

  lemma FewCodes(project: string, b: Binding, o: Option<Observed>, c: Option<Claim>)
    ensures |InstanceCodes(project, b, o) + ClaimCodes(project, b, c)| <= 6
  {
    hide ReservationIssue, IdentityIssue, OwnedClaim, Countable;
  }

  /** Every issue of the binding is among the two hundred that are listed. */
  lemma CapHidesNothing(project: string, b: Binding, r: Resources, i: nat)
    requires i < |IssuesOf(project, b, r)|
    ensures i < |Capped(AllIssues(project, [b], r))| && Capped(AllIssues(project, [b], r))[i] == IssuesOf(project, b, r)[i]
    ensures IssuesOf(project, b, r)[i].instance == Some(b.id)
  {
    hide FindInstance, FindClaim, UntrackedInstances, UntrackedClaims, InstanceCodes, ClaimCodes;
    FewCodes(project, b, FindInstance(r.instances, b.name), FindClaim(r.claims, ClaimName(b.name)));
    One(project, b, r);
    assert AllIssues(project, [b], r)[i] == IssuesOf(project, b, r)[i];
  }

  lemma Uncapped(project: string, b: Binding, r: Resources)
    requires !b.busy && OnlyReservation(project, b, r)
    ensures AllRepairable(InstanceCodes(project, b, FindInstance(r.instances, b.name)))
    ensures AllRepairable(ClaimCodes(project, b, FindClaim(r.claims, ClaimName(b.name))))
  {
    var o, c := FindInstance(r.instances, b.name), FindClaim(r.claims, ClaimName(b.name));
    hide InstanceCodes, ClaimCodes, FindInstance, FindClaim, AllIssues, Capped;
    var first, second := InstanceCodes(project, b, o), ClaimCodes(project, b, c);
    var codes := first + second;
    forall i | 0 <= i < |codes| ensures Repairable(codes[i].0) {
      assert IssuesOf(project, b, r)[i] == AsIssue(b, codes[i]);
      CapHidesNothing(project, b, r, i);
    }
    forall i | 0 <= i < |first| ensures Repairable(first[i].0) { assert first[i] == codes[i]; }
    forall i | 0 <= i < |second| ensures Repairable(second[i].0) { assert second[i] == codes[|first| + i]; }
  }

  lemma One(project: string, b: Binding, r: Resources)
    ensures TrackedIssues(project, [b], r) == IssuesOf(project, b, r)
  {
    hide IssuesOf;
    assert [b][..0] == [];
    assert TrackedIssues(project, [b][..0], r) == [];
    assert TrackedIssues(project, [b], r) == TrackedIssues(project, [b][..0], r) + IssuesOf(project, b, r);
  }

  // ----- A raised reservation covers what it was raised to

  lemma {:induction false} DecimalLength(n: nat, k: nat)
    requires k > 0 && n < Pow(10, k)
    ensures |Decimal(n)| <= k
    decreases k
  {
    if n >= 10 {
      assert n / 10 < Pow(10, k - 1);
      DecimalLength(n / 10, k - 1);
    }
  }

  lemma PlatformLength(n: nat)
    requires n <= MaxUnits
    ensures |Decimal(n)| <= 10
  {
    assert Pow(10, 10) == 10000000000;
    DecimalLength(n, 10);
  }

  lemma {:induction false} CeilAt(values: seq<Option<string>>, unit: string, j: nat)
    requires MaxCeil(values, unit).Some? && j < |values|
    ensures values[j].Some? && Ceil(values[j].value, unit).Some? && Ceil(values[j].value, unit).value <= MaxCeil(values, unit).value
    decreases j
  {
    hide Ceil;
    if j > 0 { CeilAt(values[1..], unit, j - 1); }
  }

  lemma {:induction false} CeilBound(values: seq<Option<string>>, unit: string)
    requires MaxCeil(values, unit).Some?
    ensures MaxCeil(values, unit).value <= MaxUnits
  {
    if values != [] { CeilBound(values[1..], unit); }
  }

  lemma {:induction false} PresentIs(values: seq<Option<string>>, v: string)
    requires v in Present(values)
    ensures Some(v) in values
  {
    if values[0] != Some(v) {
      PresentIs(values[1..], v);
      assert forall x | x in values[1..] :: x in values;
    }
  }

  /** No value of the comparison exceeds the raised number. */
  lemma Covered(actual: seq<Option<string>>, reserved: Option<nat>, f: nat, unit: string)
    requires PlatformUnit(unit) && f <= MaxUnits
    requires forall j | 0 <= j < |actual| :: actual[j].Some? ==> Ceil(actual[j].value, "1" + unit).Some? && Ceil(actual[j].value, "1" + unit).value <= f
    requires ReservationIssue(actual, reserved, unit) != Some(ResourceQuantityInvalid)
    ensures ReservationIssue(actual, Some(Max(Known(reserved), f)), unit).None?
  {
    hide Ceil, Exceeds, Decimal, PlatformUnit;
    var m := Max(Known(reserved), f);
    PlatformLength(f);
    UnitLength(unit);
    forall i | 0 <= i < |Present(actual)| ensures Exceeds(Present(actual)[i], Decimal(m) + unit) == Some(false) {
      var v := Present(actual)[i];
      PresentIs(actual, v);
      var j :| 0 <= j < |actual| && actual[j] == Some(v);
      if m != f { Soundness.ShortEnough(v, reserved.value, unit); }
      CoveredIsNotExceeded(v, unit, m);
    }
  }

  lemma Spelled()
    ensures "1" + "Gi" == "1Gi" && "1" + "m" == "1m" && "1" + "Mi" == "1Mi"
  {
  }

  lemma UnitLength(unit: string)
    requires PlatformUnit(unit)
    ensures |unit| <= 2
  {
  }

  // ----- The fixpoint

  lemma NotedRepairable(codes: seq<(Code, Kind)>, code: Option<Code>, kind: Kind)
    requires AllRepairable(Noted(codes, code, kind))
    ensures AllRepairable(codes)
    ensures code.Some? ==> Repairable(code.value)
  {
    var after := Noted(codes, code, kind);
    assert forall i | 0 <= i < |codes| :: after[i] == codes[i];
    if code.Some? {
      assert (code.value, kind) in after;
      var i :| 0 <= i < |after| && after[i] == (code.value, kind);
    }
  }

  lemma InstanceParts(project: string, b: Binding, o: Observed)
    requires AllRepairable(InstanceCodes(project, b, Some(o)))
    ensures IdentityIssue(project, b, o).None? && Countable(project, b, o)
    ensures ReservationIssue([Some(o.spec.storage)], b.storage, "Gi") != Some(ResourceQuantityInvalid)
    ensures ReservationIssue(o.spec.cpu, b.cpu, "m") != Some(ResourceQuantityInvalid)
    ensures ReservationIssue(o.spec.memory, b.memory, "Mi") != Some(ResourceQuantityInvalid)
  {
    hide ReservationIssue, AllRepairable;
    var identity := Noted([], IdentityIssue(project, b, o), CacheInstance);
    var storage := Noted(identity, ReservationIssue([Some(o.spec.storage)], b.storage, "Gi"), CacheInstance);
    var cpu := Noted(storage, ReservationIssue(o.spec.cpu, b.cpu, "m"), CacheInstance);
    if Countable(project, b, o) {
      NotedRepairable(cpu, ReservationIssue(o.spec.memory, b.memory, "Mi"), CacheInstance);
      NotedRepairable(storage, ReservationIssue(o.spec.cpu, b.cpu, "m"), CacheInstance);
      NotedRepairable(identity, ReservationIssue([Some(o.spec.storage)], b.storage, "Gi"), CacheInstance);
    }
    NotedRepairable([], IdentityIssue(project, b, o), CacheInstance);
  }

  lemma ClaimParts(project: string, b: Binding, c: Claim)
    requires AllRepairable(ClaimCodes(project, b, Some(c)))
    ensures OwnedClaim(project, b, c) && !b.lifecycle.Deleted? && !c.deleting && c.phase == "Bound"
    ensures ReservationIssue([c.request, c.capacity], b.storage, "Gi") != Some(ResourceQuantityInvalid)
  {
    hide ReservationIssue;
    var phase := if c.phase == "Bound" then [] else [(VolumeNotBound, VolumeClaim)];
    if OwnedClaim(project, b, c) && !b.lifecycle.Deleted? && !c.deleting {
      NotedRepairable(phase, ReservationIssue([c.request, c.capacity], b.storage, "Gi"), VolumeClaim);
    }
    assert forall code: (Code, Kind) :: [code][0] == code;
  }

  lemma CoveredClaim(project: string, b: Binding, c: Claim, f: Floor)
    requires AllRepairable(ClaimCodes(project, b, Some(c))) && f.storage <= MaxUnits
    requires forall v | v in [c.request, c.capacity] :: v.Some? && Ceil(v.value, "1Gi").Some? && Ceil(v.value, "1Gi").value <= f.storage
    ensures ClaimCodes(project, Raised(b, f), Some(c)) == []
  {
    hide ReservationIssue, Ceil, AllRepairable;
    ClaimParts(project, b, c);
    Spelled();
    Covered([c.request, c.capacity], b.storage, f.storage, "Gi");
  }

  lemma CoveredInstance(project: string, b: Binding, o: Observed, f: Floor)
    requires AllRepairable(InstanceCodes(project, b, Some(o))) && b.lifecycle.Active?
    requires Ceil(o.spec.storage, "1Gi").Some? && Ceil(o.spec.storage, "1Gi").value <= f.storage <= MaxUnits
    requires MaxCeil(o.spec.cpu, "1m") == Some(f.cpu) && MaxCeil(o.spec.memory, "1Mi") == Some(f.memory)
    ensures InstanceCodes(project, Raised(b, f), Some(o)) == []
  {
    hide Ceil, MaxCeil, ReservationIssue, AllRepairable;
    InstanceParts(project, b, o);
    Spelled();
    CeilBound(o.spec.cpu, "1m");
    CeilBound(o.spec.memory, "1Mi");
    forall j | 0 <= j < |o.spec.cpu|
      ensures o.spec.cpu[j].Some? && Ceil(o.spec.cpu[j].value, "1m").Some? && Ceil(o.spec.cpu[j].value, "1m").value <= f.cpu
    {
      CeilAt(o.spec.cpu, "1m", j);
    }
    forall j | 0 <= j < |o.spec.memory|
      ensures o.spec.memory[j].Some? && Ceil(o.spec.memory[j].value, "1Mi").Some? && Ceil(o.spec.memory[j].value, "1Mi").value <= f.memory
    {
      CeilAt(o.spec.memory, "1Mi", j);
    }
    Covered([Some(o.spec.storage)], b.storage, f.storage, "Gi");
    Covered(o.spec.cpu, b.cpu, f.cpu, "m");
    Covered(o.spec.memory, b.memory, f.memory, "Mi");
    assert IdentityIssue(project, Raised(b, f), o).None? && Countable(project, Raised(b, f), o);
  }

  lemma FloorParts(project: string, b: Binding, r: Resources)
    requires Distinct(r) && ReservationFloor(project, b, r).Some?
    ensures !b.busy && (b.lifecycle.Active? || b.lifecycle.Detached?) && OnlyReservation(project, b, r)
    ensures FindClaim(r.claims, ClaimName(b.name)).Some?
    ensures FindInstance(r.instances, b.name).Some? <==> b.lifecycle.Active?
    ensures
      var f := ReservationFloor(project, b, r).value;
      var c := FindClaim(r.claims, ClaimName(b.name)).value;
      var o := FindInstance(r.instances, b.name);
      && MaxCeil([c.request, c.capacity] + (if o.Some? then [Some(o.value.spec.storage)] else []), "1Gi") == Some(f.storage)
      && (o.Some? ==> MaxCeil(o.value.spec.cpu, "1m") == Some(f.cpu) && MaxCeil(o.value.spec.memory, "1Mi") == Some(f.memory))
  {
    FirstIsFound(r.instances, b.name);
    FirstClaimIsFound(r.claims, ClaimName(b.name));
    hide OnlyReservation, FindInstance, FindClaim, FirstInstance, FirstClaim, MaxCeil;
    var c := FindClaim(r.claims, ClaimName(b.name)).value;
    assert [c.request, c.capacity] + [] == [c.request, c.capacity];
  }

  /** Raised to the floor, the binding has no issue left on the same observation. */
  lemma RepairLeavesNoIssue(project: string, b: Binding, r: Resources)
    requires Distinct(r) && ReservationFloor(project, b, r).Some?
    ensures IssuesOf(project, Raised(b, ReservationFloor(project, b, r).value), r) == []
  {
    FloorParts(project, b, r);
    Uncapped(project, b, r);
    hide ReservationFloor, OnlyReservation, FindInstance, FindClaim, MaxCeil, Ceil, AllRepairable, InstanceCodes, ClaimCodes;
    var f := ReservationFloor(project, b, r).value;
    var o, c := FindInstance(r.instances, b.name), FindClaim(r.claims, ClaimName(b.name));
    var values := [c.value.request, c.value.capacity] + (if o.Some? then [Some(o.value.spec.storage)] else []);
    CeilBound(values, "1Gi");
    CeilAt(values, "1Gi", 0);
    CeilAt(values, "1Gi", 1);
    assert values[0] == c.value.request && values[1] == c.value.capacity;
    CoveredClaim(project, b, c.value, f);
    if o.Some? {
      CeilAt(values, "1Gi", 2);
      assert values[2] == Some(o.value.spec.storage);
      CoveredInstance(project, b, o.value, f);
    } else {
      LeftWithout(project, Raised(b, f));
    }
  }

  lemma LeftWithout(project: string, b: Binding)
    requires b.lifecycle.Detached?
    ensures InstanceCodes(project, b, None) == []
  {
  }

  /** The issues of the tracked bindings carry their identifiers. */
  lemma {:induction false} TrackedNamed(project: string, bindings: seq<Binding>, r: Resources, issue: Issue)
    requires issue in TrackedIssues(project, bindings, r)
    ensures exists k | 0 <= k < |bindings| :: issue in IssuesOf(project, bindings[k], r) && issue.instance == Some(bindings[k].id)
    decreases |bindings|
  {
    var last, front := bindings[|bindings| - 1], bindings[..|bindings| - 1];
    hide InstanceCodes, ClaimCodes, FindInstance, FindClaim;
    if issue in IssuesOf(project, last, r) {
      var i :| 0 <= i < |IssuesOf(project, last, r)| && IssuesOf(project, last, r)[i] == issue;
      CapHidesNothing(project, last, r, i);
    } else {
      TrackedNamed(project, front, r, issue);
      var k :| 0 <= k < |front| && issue in IssuesOf(project, front[k], r) && issue.instance == Some(front[k].id);
      assert bindings[k] == front[k];
    }
  }

  /** Among all bindings of the project the comparison finds nothing for the raised one any more. */
  lemma RepairIsFixpoint(project: string, bindings: seq<Binding>, k: nat, r: Resources, issue: Issue)
    requires k < |bindings| && forall i | 0 <= i < |bindings| && i != k :: bindings[i].id != bindings[k].id
    requires Distinct(r) && ReservationFloor(project, bindings[k], r).Some?
    requires issue in AllIssues(project, bindings[k := Raised(bindings[k], ReservationFloor(project, bindings[k], r).value)], r)
    ensures issue.instance != Some(bindings[k].id)
  {
    var raised := bindings[k := Raised(bindings[k], ReservationFloor(project, bindings[k], r).value)];
    RepairLeavesNoIssue(project, bindings[k], r);
    RaisedKeepsId(bindings[k], ReservationFloor(project, bindings[k], r).value);
    hide ReservationFloor, IssuesOf, Raised, TrackedIssues;
    if issue in TrackedIssues(project, raised, r) {
      TrackedNamed(project, raised, r, issue);
      var j :| 0 <= j < |raised| && issue in IssuesOf(project, raised[j], r) && issue.instance == Some(raised[j].id);
      if j != k { assert raised[j] == bindings[j]; }
    } else {
      UntrackedAnonymous(r.instances, r.claims, Names(raised), ClaimNames(raised), issue);
    }
  }

  lemma RaisedKeepsId(b: Binding, f: Floor)
    ensures Raised(b, f).id == b.id && Raised(b, f).name == b.name && Raised(b, f).busy == b.busy
  {
  }

  lemma {:induction false} UntrackedAnonymous(instances: seq<Observed>, claims: seq<Claim>, names: set<string>, claimNames: set<string>, issue: Issue)
    requires issue in UntrackedInstances(instances, names) + UntrackedClaims(claims, claimNames)
    ensures issue.instance.None?
    decreases |instances| + |claims|
  {
    if issue in UntrackedInstances(instances, names) {
      if instances[|instances| - 1].name in names || issue != UntrackedInstances(instances, names)[|UntrackedInstances(instances, names)| - 1] {
        UntrackedAnonymous(instances[..|instances| - 1], [], names, claimNames, issue);
      }
    } else if claims[|claims| - 1].name in claimNames || issue != UntrackedClaims(claims, claimNames)[|UntrackedClaims(claims, claimNames)| - 1] {
      UntrackedAnonymous([], claims[..|claims| - 1], names, claimNames, issue);
    }
  }

  // ----- When there is a floor, and that it is the least

  /** All values are there and come to a whole number of units the platform can count. */
  predicate Measurable(values: seq<Option<string>>, unit: string) {
    forall v | v in values :: v.Some? && v.value != "" && Ceil(v.value, unit).Some?
  }

  lemma {:induction false} MeasuredIfMeasurable(values: seq<Option<string>>, unit: string)
    ensures MaxCeil(values, unit).Some? <==> Measurable(values, unit)
  {
    hide Ceil;
    if values != [] {
      MeasuredIfMeasurable(values[1..], unit);
      assert values == [values[0]] + values[1..];
    }
  }

  /** None of the values comes to more than `m` units. */
  predicate NoneAbove(values: seq<Option<string>>, unit: string, m: nat) {
    forall v | v in values && v.Some? && Ceil(v.value, unit).Some? :: Ceil(v.value, unit).value <= m
  }

  /** The largest of the numbers is the least number none of them is above. */
  lemma {:induction false} LargestIsLeast(values: seq<Option<string>>, unit: string, m: nat)
    requires MaxCeil(values, unit).Some?
    ensures MaxCeil(values, unit).value <= m <==> NoneAbove(values, unit, m)
  {
    hide Ceil;
    if values != [] {
      LargestIsLeast(values[1..], unit, m);
      assert values == [values[0]] + values[1..];
    }
  }

  /** Nothing is wrong with the binding but what is reserved. */
  ghost predicate OnlyShort(project: string, b: Binding, o: Option<Observed>, c: Option<Claim>) {
    forall code: Code | Findings.ObjectFinding(project, b, o, code) || Findings.VolumeFinding(project, b, c, code) ::
      code == ResourceReservationUnknown || code == ResourceReservationInsufficient
  }

  ghost predicate OnlyCodes(codes: seq<(Code, Kind)>, kind: Kind) {
    forall code | (code, kind) in codes :: Repairable(code)
  }

  lemma OnlyShortIs(project: string, b: Binding, r: Resources)
    requires !b.busy
    ensures
      var o, c := FindInstance(r.instances, b.name), FindClaim(r.claims, ClaimName(b.name));
      OnlyReservation(project, b, r) <==> OnlyShort(project, b, o, c)
  {
    var o, c := FindInstance(r.instances, b.name), FindClaim(r.claims, ClaimName(b.name));
    ShortMeansCodes(project, b, o, c);
    InstanceOnce(project, b, o);
    ClaimOnce(project, b, c);
    hide InstanceCodes, ClaimCodes, FindInstance, FindClaim, OnlyReservation, OnlyShort, AllOf, NoRepeats, OnlyCodes;
    if OnlyReservation(project, b, r) {
      Uncapped(project, b, r);
      RepairableCodes(InstanceCodes(project, b, o), CacheInstance);
      RepairableCodes(ClaimCodes(project, b, c), VolumeClaim);
    }
    if OnlyShort(project, b, o, c) {
      CodesRepairable(InstanceCodes(project, b, o), CacheInstance);
      CodesRepairable(ClaimCodes(project, b, c), VolumeClaim);
      ListedOnly(project, b, r);
    }
  }

  lemma ShortMeansCodes(project: string, b: Binding, o: Option<Observed>, c: Option<Claim>)
    ensures OnlyShort(project, b, o, c) <==> OnlyCodes(InstanceCodes(project, b, o), CacheInstance) && OnlyCodes(ClaimCodes(project, b, c), VolumeClaim)
  {
    forall code: Code
      ensures (code, CacheInstance) in InstanceCodes(project, b, o) <==> Findings.ObjectFinding(project, b, o, code)
      ensures (code, VolumeClaim) in ClaimCodes(project, b, c) <==> Findings.VolumeFinding(project, b, c, code)
    {
      Findings.ObjectFound(project, b, o, code);
      Findings.VolumeFound(project, b, c, code);
    }
    hide InstanceCodes, ClaimCodes, Findings.ObjectFinding, Findings.VolumeFinding;
  }

  lemma RepairableCodes(codes: seq<(Code, Kind)>, kind: Kind)
    requires AllRepairable(codes)
    ensures OnlyCodes(codes, kind)
  {
  }

  lemma CodesRepairable(codes: seq<(Code, Kind)>, kind: Kind)
    requires OnlyCodes(codes, kind) && AllOf(codes, kind)
    ensures AllRepairable(codes)
  {
    forall i | 0 <= i < |codes| ensures Repairable(codes[i].0) { assert (codes[i].0, kind) == codes[i] && codes[i] in codes; }
  }

  lemma ListedOnly(project: string, b: Binding, r: Resources)
    requires !b.busy
    requires AllRepairable(InstanceCodes(project, b, FindInstance(r.instances, b.name)))
    requires AllRepairable(ClaimCodes(project, b, FindClaim(r.claims, ClaimName(b.name))))
    ensures OnlyReservation(project, b, r)
  {
    var o, c := FindInstance(r.instances, b.name), FindClaim(r.claims, ClaimName(b.name));
    hide InstanceCodes, ClaimCodes, FindInstance, FindClaim, UntrackedInstances, UntrackedClaims, Capped;
    One(project, b, r);
    var mine, all := IssuesOf(project, b, r), AllIssues(project, [b], r);
    var first, second := InstanceCodes(project, b, o), ClaimCodes(project, b, c);
    MineRepairable(b, first, second, mine);
    Listed(all);
    forall i | 0 <= i < |Capped(all)| && Capped(all)[i].instance == Some(b.id) ensures Repairable(Capped(all)[i].code) {
      if i < |mine| {
        assert all[i] == mine[i];
      } else {
        assert all[i] == (UntrackedInstances(r.instances, Names([b])) + UntrackedClaims(r.claims, ClaimNames([b])))[i - |mine|];
        UntrackedAnonymous(r.instances, r.claims, Names([b]), ClaimNames([b]), all[i]);
      }
    }
  }

  lemma Listed(all: seq<Issue>)
    ensures |Capped(all)| <= |all| && forall i | 0 <= i < |Capped(all)| :: Capped(all)[i] == all[i]
  {
  }

  lemma MineRepairable(b: Binding, first: seq<(Code, Kind)>, second: seq<(Code, Kind)>, mine: seq<Issue>)
    requires AllRepairable(first) && AllRepairable(second) && |mine| == |first + second|
    requires forall i | 0 <= i < |mine| :: mine[i] == AsIssue(b, (first + second)[i])
    ensures forall i | 0 <= i < |mine| :: Repairable(mine[i].code)
  {
    forall i | 0 <= i < |mine| ensures Repairable(mine[i].code) {
      if i < |first| { assert (first + second)[i] == first[i]; } else { assert (first + second)[i] == second[i - |first|]; }
    }
  }

  /** There is a floor if and only if the binding is at rest and active or detached, nothing else is wrong with it, its volume is
      there, its object is there exactly if it is active, and every quantity of both can be counted. */
  lemma FloorIffMeasurable(project: string, b: Binding, r: Resources)
    requires Distinct(r)
    ensures
      var o, c := FindInstance(r.instances, b.name), FindClaim(r.claims, b.name + "-data");
      ReservationFloor(project, b, r).Some? <==>
        && !b.busy && (b.lifecycle.Active? || b.lifecycle.Detached?) && OnlyShort(project, b, o, c)
        && c.Some? && (o.Some? <==> b.lifecycle.Active?)
        && Measurable([c.value.request, c.value.capacity], "1Gi")
        && (o.Some? ==>
              && Measurable([Some(o.value.spec.storage)], "1Gi")
              && Measurable(o.value.spec.cpu, "1m") && Measurable(o.value.spec.memory, "1Mi"))
  {
    var o, c := FindInstance(r.instances, b.name), FindClaim(r.claims, b.name + "-data");
    FirstIsFound(r.instances, b.name);
    FirstClaimIsFound(r.claims, ClaimName(b.name));
    if !b.busy { OnlyShortIs(project, b, r); }
    hide OnlyReservation, OnlyShort, FindInstance, FindClaim, FirstInstance, FirstClaim, MaxCeil, Measurable;
    if c.Some? {
      var volume := [c.value.request, c.value.capacity];
      MeasuredIfMeasurable(volume, "1Gi");
      if o.Some? {
        MeasuredIfMeasurable(volume + [Some(o.value.spec.storage)], "1Gi");
        BothMeasurable(volume, [Some(o.value.spec.storage)]);
        MeasuredIfMeasurable(o.value.spec.cpu, "1m");
        MeasuredIfMeasurable(o.value.spec.memory, "1Mi");
      }
    }
  }

  lemma BothMeasurable(a: seq<Option<string>>, b: seq<Option<string>>)
    ensures Measurable(a + b, "1Gi") <==> Measurable(a, "1Gi") && Measurable(b, "1Gi")
  {
    assert forall v :: v in a + b <==> v in a || v in b;
  }

  /** The floor is the least that covers every quantity there is. */
  lemma FloorIsLeast(project: string, b: Binding, r: Resources, m: nat)
    requires Distinct(r) && ReservationFloor(project, b, r).Some?
    ensures FindClaim(r.claims, b.name + "-data").Some?
    ensures
      var o, c := FindInstance(r.instances, b.name), FindClaim(r.claims, b.name + "-data").value;
      var f := ReservationFloor(project, b, r).value;
      var storage := [c.request, c.capacity] + (if o.Some? then [Some(o.value.spec.storage)] else []);
      && (f.storage <= m <==> NoneAbove(storage, "1Gi", m))
      && (o.Some? ==> (f.cpu <= m <==> NoneAbove(o.value.spec.cpu, "1m", m)))
      && (o.Some? ==> (f.memory <= m <==> NoneAbove(o.value.spec.memory, "1Mi", m)))
  {
    FloorParts(project, b, r);
    hide ReservationFloor, OnlyReservation, FindInstance, FindClaim, MaxCeil, NoneAbove;
    var o, c := FindInstance(r.instances, b.name), FindClaim(r.claims, b.name + "-data").value;
    LargestIsLeast([c.request, c.capacity] + (if o.Some? then [Some(o.value.spec.storage)] else []), "1Gi", m);
    if o.Some? {
      LargestIsLeast(o.value.spec.cpu, "1m", m);
      LargestIsLeast(o.value.spec.memory, "1Mi", m);
    }
  }

  /** Raising takes each amount to the larger of the two and nothing else, and leaves a detached instance without processor and
      memory as it was. */
  lemma RaisedExactly(b: Binding, f: Floor)
    ensures
      var a := Raised(b, f);
      && a == b.(storage := a.storage, cpu := a.cpu, memory := a.memory)
      && a.storage.Some? && f.storage <= a.storage.value && (a.storage == b.storage || a.storage == Some(f.storage))
      && (b.storage.Some? ==> b.storage.value <= a.storage.value)
      && (if b.lifecycle.Detached? then a.cpu == b.cpu && a.memory == b.memory
          else && a.cpu.Some? && f.cpu <= a.cpu.value && (a.cpu == b.cpu || a.cpu == Some(f.cpu))
               && a.memory.Some? && f.memory <= a.memory.value && (a.memory == b.memory || a.memory == Some(f.memory)))
  {
  }
}
