/**
 The inventory of a project: every binding against the objects observed in its namespace.
 */
module Inventory {
  import opened Wrappers
  import opened Quantities
  import P = Protocol
  import Standing

  datatype Labels = Labels(project: Option<string>, instance: Option<string>, uid: Option<string>, managed: bool)

  /** `rest` stands for all other fields of the configuration. */
  datatype InstanceSpec = InstanceSpec(
    project: string,
    instance: string,
    template: string,
    version: string,
    storage: string,
    cpu: seq<Option<string>>,
    memory: seq<Option<string>>,
    rest: nat)

  datatype Observed = Observed(name: string, uid: string, labels: Labels, deleting: bool, spec: InstanceSpec)

  datatype Owner = Owner(uid: string, kind: string, name: string)

  datatype Claim = Claim(
    name: string,
    labels: Labels,
    owners: seq<Owner>,
    deleting: bool,
    phase: string,
    request: Option<string>,
    capacity: Option<string>)

  datatype Binding = Binding(
    id: string,
    name: string,
    uid: Option<string>,
    lifecycle: P.Lifecycle,
    template: string,
    version: Option<string>,
    storage: Option<nat>,
    cpu: Option<nat>,
    memory: Option<nat>,
    busy: bool,
    expected: Option<InstanceSpec>)

  datatype Resources = Resources(instances: seq<Observed>, claims: seq<Claim>)

  datatype Kind = CacheInstance | VolumeClaim

  datatype Code =
    | InstanceIdentityConflict | InstanceOwnershipConflict | UnexpectedInstance | UnexpectedInstanceDeletion
    | TemplateIdentityConflict | TemplateVersionUnknown | ConfigurationDrift
    | ResourceReservationUnknown | ResourceReservationInsufficient | ResourceQuantityInvalid
    | MissingInstance | ProvisioningIncomplete
    | VolumeOwnershipConflict | ResidualVolume | VolumeDeletionInProgress | VolumeNotBound
    | MissingRetainedVolume | MissingVolume
    | UntrackedInstance | UntrackedVolume

  datatype Issue = Issue(code: Code, kind: Kind, name: string, instance: Option<string>)

  datatype Health = Drift | InProgress | Healthy

  datatype Report = Report(health: Health, issues: seq<Issue>, count: nat, truncated: bool, busy: nat)

  const MaxIssues: nat := 200

  function ClaimName(name: string): string {
    name + "-data"
  }

  // ----- What is wrong with one binding

  predicate SameIdentity(project: string, b: Binding, o: Observed) {
    o.spec.project == project && o.spec.instance == b.id && b.uid == Some(o.uid)
  }

  predicate SameLabels(project: string, b: Binding, labels: Labels) {
    labels.project == Some(project) && labels.instance == Some(b.id) && labels.managed
  }

  function IdentityIssue(project: string, b: Binding, o: Observed): Option<Code> {
    if !SameIdentity(project, b, o) then Some(InstanceIdentityConflict)
    else if !SameLabels(project, b, o.labels) then Some(InstanceOwnershipConflict)
    else if Standing.Left(b.lifecycle) then Some(UnexpectedInstance)
    else if o.deleting then Some(UnexpectedInstanceDeletion)
    else if o.spec.template != b.template || (b.version.Some? && o.spec.version != b.version.value) then Some(TemplateIdentityConflict)
    else if b.version.None? then Some(TemplateVersionUnknown)
    else if b.expected.Some? && o.spec != b.expected.value then Some(ConfigurationDrift)
    else None
  }

  predicate Countable(project: string, b: Binding, o: Observed) {
    !Standing.Left(b.lifecycle) && SameIdentity(project, b, o) && SameLabels(project, b, o.labels)
  }

  function Present(values: seq<Option<string>>): seq<string> {
    if values == [] then []
    else if values[0].None? then Present(values[1..])
    else [values[0].value] + Present(values[1..])
  }

  /** All values are looked at before the verdict, so that a malformed one is never hidden by one that is too large. */
  function ReservationIssue(actual: seq<Option<string>>, reserved: Option<nat>, unit: string): Option<Code> {
    if reserved.None? then Some(ResourceReservationUnknown)
    else
      var limit := Decimal(reserved.value) + unit;
      var values := Present(actual);
      if exists i | 0 <= i < |values| :: Exceeds(values[i], limit).None? then Some(ResourceQuantityInvalid)
      else if exists i | 0 <= i < |values| :: Exceeds(values[i], limit) == Some(true) then Some(ResourceReservationInsufficient)
      else None
  }

  predicate OwnedClaim(project: string, b: Binding, c: Claim) {
    && b.uid.Some? && SameLabels(project, b, c.labels) && c.labels.uid == b.uid
    && (forall i | 0 <= i < |c.owners| :: c.owners[i] == Owner(b.uid.value, "CacheInstance", b.name))
    && (b.lifecycle.Detached? ==> c.owners == [])
  }

  /** An issue is reported once for each kind. */
  function Noted(codes: seq<(Code, Kind)>, code: Option<Code>, kind: Kind): seq<(Code, Kind)> {
    if code.None? || (code.value, kind) in codes then codes else codes + [(code.value, kind)]
  }

  function InstanceCodes(project: string, b: Binding, o: Option<Observed>): seq<(Code, Kind)> {
    if o.None? then
      if Standing.Left(b.lifecycle) then [] else [(if b.lifecycle.Active? then MissingInstance else ProvisioningIncomplete, CacheInstance)]
    else
      var identity := Noted([], IdentityIssue(project, b, o.value), CacheInstance);
      if !Countable(project, b, o.value) then identity
      else
        var spec := o.value.spec;
        var storage := Noted(identity, ReservationIssue([Some(spec.storage)], b.storage, "Gi"), CacheInstance);
        var cpu := Noted(storage, ReservationIssue(spec.cpu, b.cpu, "m"), CacheInstance);
        Noted(cpu, ReservationIssue(spec.memory, b.memory, "Mi"), CacheInstance)
  }

  function ClaimCodes(project: string, b: Binding, c: Option<Claim>): seq<(Code, Kind)> {
    if c.None? then
      if b.lifecycle.Detached? then [(MissingRetainedVolume, VolumeClaim)]
      else if b.lifecycle.Active? then [(MissingVolume, VolumeClaim)]
      else []
    else if !OwnedClaim(project, b, c.value) then [(VolumeOwnershipConflict, VolumeClaim)]
    else if b.lifecycle.Deleted? then [(ResidualVolume, VolumeClaim)]
    else if c.value.deleting then [(VolumeDeletionInProgress, VolumeClaim)]
    else
      var phase := if c.value.phase == "Bound" then [] else [(VolumeNotBound, VolumeClaim)];
      Noted(phase, ReservationIssue([c.value.request, c.value.capacity], b.storage, "Gi"), VolumeClaim)
  }

  function AsIssue(b: Binding, code: (Code, Kind)): Issue {
    Issue(code.0, code.1, if code.1.VolumeClaim? then ClaimName(b.name) else b.name, Some(b.id))
  }

  function BindingIssues(project: string, b: Binding, o: Option<Observed>, c: Option<Claim>): (issues: seq<Issue>)
    ensures |issues| == |InstanceCodes(project, b, o) + ClaimCodes(project, b, c)|
  {
    var codes := InstanceCodes(project, b, o) + ClaimCodes(project, b, c);
    seq(|codes|, i requires 0 <= i < |codes| => AsIssue(b, codes[i]))
  }

  // ----- What is wrong with the project

  function FindInstance(instances: seq<Observed>, name: string): Option<Observed> {
    if instances == [] then None
    else if instances[|instances| - 1].name == name then Some(instances[|instances| - 1])
    else FindInstance(instances[..|instances| - 1], name)
  }

  function FindClaim(claims: seq<Claim>, name: string): Option<Claim> {
    if claims == [] then None
    else if claims[|claims| - 1].name == name then Some(claims[|claims| - 1])
    else FindClaim(claims[..|claims| - 1], name)
  }

  function IssuesOf(project: string, b: Binding, r: Resources): seq<Issue> {
    if b.busy then [] else BindingIssues(project, b, FindInstance(r.instances, b.name), FindClaim(r.claims, ClaimName(b.name)))
  }

  function TrackedIssues(project: string, bindings: seq<Binding>, r: Resources): seq<Issue> {
    if bindings == [] then []
    else TrackedIssues(project, bindings[..|bindings| - 1], r) + IssuesOf(project, bindings[|bindings| - 1], r)
  }

  function Names(bindings: seq<Binding>): set<string> {
    set b | b in bindings :: b.name
  }

  function ClaimNames(bindings: seq<Binding>): set<string> {
    set b | b in bindings :: ClaimName(b.name)
  }

  function UntrackedInstances(instances: seq<Observed>, names: set<string>): seq<Issue> {
    if instances == [] then []
    else
      var last := instances[|instances| - 1];
      UntrackedInstances(instances[..|instances| - 1], names) +
      (if last.name in names then [] else [Issue(UntrackedInstance, CacheInstance, last.name, None)])
  }

  function UntrackedClaims(claims: seq<Claim>, names: set<string>): seq<Issue> {
    if claims == [] then []
    else
      var last := claims[|claims| - 1];
      UntrackedClaims(claims[..|claims| - 1], names) +
      (if last.name in names then [] else [Issue(UntrackedVolume, VolumeClaim, last.name, None)])
  }

  function AllIssues(project: string, bindings: seq<Binding>, r: Resources): seq<Issue> {
    TrackedIssues(project, bindings, r) + UntrackedInstances(r.instances, Names(bindings)) + UntrackedClaims(r.claims, ClaimNames(bindings))
  }

  function BusyCount(bindings: seq<Binding>): nat {
    if bindings == [] then 0 else BusyCount(bindings[..|bindings| - 1]) + (if bindings[|bindings| - 1].busy then 1 else 0)
  }

  function Capped(issues: seq<Issue>): seq<Issue> {
    if |issues| <= MaxIssues then issues else issues[..MaxIssues]
  }

  function ReportOf(issues: seq<Issue>, busy: nat): Report {
    Report(if issues != [] then Drift else if busy > 0 then InProgress else Healthy,
           Capped(issues), |issues|, |issues| > MaxIssues, busy)
  }

  /** Names are unique in a namespace. */
  predicate Distinct(r: Resources) {
    && (forall i, j | 0 <= i < j < |r.instances| :: r.instances[i].name != r.instances[j].name)
    && (forall i, j | 0 <= i < j < |r.claims| :: r.claims[i].name != r.claims[j].name)
  }

  predicate DistinctBindings(bindings: seq<Binding>) {
    forall i, j | 0 <= i < j < |bindings| :: bindings[i].name != bindings[j].name
  }

  // ----- The comparison as it runs

  lemma {:induction false} FindInstanceAt(instances: seq<Observed>, name: string)
    ensures FindInstance(instances, name).Some? ==>
              exists i | 0 <= i < |instances| :: instances[i] == FindInstance(instances, name).value && instances[i].name == name
    ensures FindInstance(instances, name).None? ==> forall i | 0 <= i < |instances| :: instances[i].name != name
  {
    if instances != [] && instances[|instances| - 1].name != name {
      FindInstanceAt(instances[..|instances| - 1], name);
    }
  }

  lemma {:induction false} FindClaimAt(claims: seq<Claim>, name: string)
    ensures FindClaim(claims, name).Some? ==>
              exists i | 0 <= i < |claims| :: claims[i] == FindClaim(claims, name).value && claims[i].name == name
    ensures FindClaim(claims, name).None? ==> forall i | 0 <= i < |claims| :: claims[i].name != name
  {
    if claims != [] && claims[|claims| - 1].name != name {
      FindClaimAt(claims[..|claims| - 1], name);
    }
  }

  ghost predicate Indexes(m: map<string, Observed>, instances: seq<Observed>) {
    forall n: string :: FindInstance(instances, n) == if n in m then Some(m[n]) else None
  }

  ghost predicate IndexesClaims(m: map<string, Claim>, claims: seq<Claim>) {
    forall n: string :: FindClaim(claims, n) == if n in m then Some(m[n]) else None
  }

  method ByName(instances: seq<Observed>) returns (m: map<string, Observed>)
    ensures Indexes(m, instances)
  {
    m := map[];
    for i := 0 to |instances|
      invariant Indexes(m, instances[..i])
    {
      m := m[instances[i].name := instances[i]];
      assert instances[..i + 1][..i] == instances[..i];
    }
    assert instances[..|instances|] == instances;
  }

  method ClaimsByName(claims: seq<Claim>) returns (m: map<string, Claim>)
    ensures IndexesClaims(m, claims)
  {
    m := map[];
    for i := 0 to |claims|
      invariant IndexesClaims(m, claims[..i])
    {
      m := m[claims[i].name := claims[i]];
      assert claims[..i + 1][..i] == claims[..i];
    }
    assert claims[..|claims|] == claims;
  }

  method CheckReservation(actual: seq<Option<string>>, reserved: Option<nat>, unit: string) returns (code: Option<Code>)
    ensures code == ReservationIssue(actual, reserved, unit)
  {
    hide Exceeds, Decimal, Present;
    if reserved.None? { return Some(ResourceReservationUnknown); }
    var limit := Decimal(reserved.value) + unit;
    var values := Present(actual);
    var exceeded := false;
    for i := 0 to |values|
      invariant exceeded <==> exists j | 0 <= j < i :: Exceeds(values[j], limit) == Some(true)
      invariant forall j | 0 <= j < i :: Exceeds(values[j], limit).Some?
    {
      var verdict := Exceeds(values[i], limit);
      if verdict.None? { return Some(ResourceQuantityInvalid); }
      exceeded := exceeded || verdict.value;
    }
    return if exceeded then Some(ResourceReservationInsufficient) else None;
  }

  predicate NoRepeats(codes: seq<(Code, Kind)>) {
    forall i, j | 0 <= i < j < |codes| :: codes[i] != codes[j]
  }

  predicate AllOf(codes: seq<(Code, Kind)>, kind: Kind) {
    forall i | 0 <= i < |codes| :: codes[i].1 == kind
  }

  lemma NotedOnce(codes: seq<(Code, Kind)>, code: Option<Code>, kind: Kind)
    requires NoRepeats(codes) && AllOf(codes, kind)
    ensures NoRepeats(Noted(codes, code, kind)) && AllOf(Noted(codes, code, kind), kind)
  {
  }

  lemma InstanceOnce(project: string, b: Binding, o: Option<Observed>)
    ensures NoRepeats(InstanceCodes(project, b, o)) && AllOf(InstanceCodes(project, b, o), CacheInstance)
  {
    hide ReservationIssue, IdentityIssue, Noted, NoRepeats, AllOf, Countable;
    if o.Some? {
      var spec := o.value.spec;
      assert NoRepeats([]) && AllOf([], CacheInstance) by { NothingTwice(); }
      NotedOnce([], IdentityIssue(project, b, o.value), CacheInstance);
      var identity := Noted([], IdentityIssue(project, b, o.value), CacheInstance);
      NotedOnce(identity, ReservationIssue([Some(spec.storage)], b.storage, "Gi"), CacheInstance);
      var storage := Noted(identity, ReservationIssue([Some(spec.storage)], b.storage, "Gi"), CacheInstance);
      NotedOnce(storage, ReservationIssue(spec.cpu, b.cpu, "m"), CacheInstance);
      NotedOnce(Noted(storage, ReservationIssue(spec.cpu, b.cpu, "m"), CacheInstance), ReservationIssue(spec.memory, b.memory, "Mi"), CacheInstance);
    } else {
      ShortOnce(InstanceCodes(project, b, o), CacheInstance);
    }
  }

  lemma NothingTwice()
    ensures NoRepeats([]) && AllOf([], CacheInstance)
  {
  }

  lemma ShortOnce(codes: seq<(Code, Kind)>, kind: Kind)
    requires |codes| <= 1 && (codes != [] ==> codes[0].1 == kind)
    ensures NoRepeats(codes) && AllOf(codes, kind)
  {
  }

  lemma ClaimOnce(project: string, b: Binding, c: Option<Claim>)
    ensures NoRepeats(ClaimCodes(project, b, c)) && AllOf(ClaimCodes(project, b, c), VolumeClaim)
  {
    hide ReservationIssue, Noted, OwnedClaim;
    if c.Some? {
      var phase := if c.value.phase == "Bound" then [] else [(VolumeNotBound, VolumeClaim)];
      NotedOnce(phase, ReservationIssue([c.value.request, c.value.capacity], b.storage, "Gi"), VolumeClaim);
    }
  }

  /** No code comes twice for the object, or twice for the volume. */
  lemma EachOnce(project: string, b: Binding, o: Option<Observed>, c: Option<Claim>)
    ensures NoRepeats(InstanceCodes(project, b, o) + ClaimCodes(project, b, c))
  {
    InstanceOnce(project, b, o);
    ClaimOnce(project, b, c);
    hide InstanceCodes, ClaimCodes;
  }

  /** What one binding reports: each code once for the object and once for the volume. */
  method CompareBinding(project: string, b: Binding, o: Option<Observed>, c: Option<Claim>) returns (codes: seq<(Code, Kind)>)
    ensures codes == InstanceCodes(project, b, o) + ClaimCodes(project, b, c)
    ensures forall i, j | 0 <= i < j < |codes| :: codes[i] != codes[j]
  {
    EachOnce(project, b, o, c);
    var found: seq<(Code, Kind)> := [];
    if o.Some? {
      found := Noted(found, IdentityIssue(project, b, o.value), CacheInstance);
      if Countable(project, b, o.value) {
        var storage := CheckReservation([Some(o.value.spec.storage)], b.storage, "Gi");
        found := Noted(found, storage, CacheInstance);
        var cpu := CheckReservation(o.value.spec.cpu, b.cpu, "m");
        found := Noted(found, cpu, CacheInstance);
        var memory := CheckReservation(o.value.spec.memory, b.memory, "Mi");
        found := Noted(found, memory, CacheInstance);
      }
    } else if !Standing.Left(b.lifecycle) {
      found := [(if b.lifecycle.Active? then MissingInstance else ProvisioningIncomplete, CacheInstance)];
    }
    codes := found;
    if c.Some? {
      if !OwnedClaim(project, b, c.value) { codes := codes + [(VolumeOwnershipConflict, VolumeClaim)]; }
      else if b.lifecycle.Deleted? { codes := codes + [(ResidualVolume, VolumeClaim)]; }
      else if c.value.deleting { codes := codes + [(VolumeDeletionInProgress, VolumeClaim)]; }
      else {
        var reserved := CheckReservation([c.value.request, c.value.capacity], b.storage, "Gi");
        var phase := if c.value.phase == "Bound" then [] else [(VolumeNotBound, VolumeClaim)];
        codes := codes + Noted(phase, reserved, VolumeClaim);
      }
    } else if b.lifecycle.Detached? {
      codes := codes + [(MissingRetainedVolume, VolumeClaim)];
    } else if b.lifecycle.Active? {
      codes := codes + [(MissingVolume, VolumeClaim)];
    }
  }

  lemma CappedMore(all: seq<Issue>, issue: Issue)
    ensures Capped(all + [issue]) == if |Capped(all)| < MaxIssues then Capped(all) + [issue] else Capped(all)
  {
  }

  lemma CappedCount(all: seq<Issue>)
    ensures |Capped(all)| == if |all| <= MaxIssues then |all| else MaxIssues
  {
  }

  lemma LookupFresh(bindings: seq<Binding>, k: nat, name: string)
    requires DistinctBindings(bindings) && k < |bindings| && name == bindings[k].name
    ensures name !in Names(bindings[..k]) && ClaimName(name) !in ClaimNames(bindings[..k])
    ensures Names(bindings[..k + 1]) == Names(bindings[..k]) + {name}
    ensures ClaimNames(bindings[..k + 1]) == ClaimNames(bindings[..k]) + {ClaimName(name)}
  {
    assert bindings[..k + 1] == bindings[..k] + [bindings[k]];
    forall b | b in bindings[..k] ensures b.name != name && ClaimName(b.name) != ClaimName(name) {
      var i :| 0 <= i < k && bindings[i] == b;
      SameClaimName(b.name, name);
    }
  }

  lemma SameClaimName(a: string, b: string)
    ensures ClaimName(a) == ClaimName(b) ==> a == b
  {
    assert ClaimName(a)[..|ClaimName(a)| - 5] == a;
    assert ClaimName(b)[..|ClaimName(b)| - 5] == b;
  }

  /** Matched objects leave the maps; what is left at the end is nobody's. */
  method CompareInventory(project: string, bindings: seq<Binding>, r: Resources) returns (report: Report)
    requires Distinct(r) && DistinctBindings(bindings)
    ensures report == ReportOf(AllIssues(project, bindings, r), BusyCount(bindings))
  {
    hide Indexes, IndexesClaims, Names, ClaimNames, BindingIssues, UntrackedInstances, UntrackedClaims, FindInstance, FindClaim, Capped, DistinctBindings, TrackedIssues, BusyCount;
    var issues: seq<Issue>, count, busy := [], 0, 0;
    var instances := ByName(r.instances);
    var claims := ClaimsByName(r.claims);
    ghost var everyone, everything := instances, claims;
    NoNames(everyone, everything);
    CappedCount([]);
    NoBindings(project, r);
    for k := 0 to |bindings|
      invariant instances == everyone - Names(bindings[..k]) && claims == everything - ClaimNames(bindings[..k])
      invariant issues == Capped(TrackedIssues(project, bindings[..k], r)) && count == |TrackedIssues(project, bindings[..k], r)|
      invariant busy == BusyCount(bindings[..k])
    {
      var b := bindings[k];
      LookupFresh(bindings, k, b.name);
      OneMore(project, bindings, k, r);
      Lookup(r, everyone, everything, Names(bindings[..k]), ClaimNames(bindings[..k]), b.name);
      var o := if b.name in instances then Some(instances[b.name]) else None;
      var c := if ClaimName(b.name) in claims then Some(claims[ClaimName(b.name)]) else None;
      instances := instances - {b.name};
      claims := claims - {ClaimName(b.name)};
      if b.busy {
        busy := busy + 1;
      } else {
        issues, count := AddBinding(project, b, o, c, TrackedIssues(project, bindings[..k], r), issues, count);
      }
    }
    assert bindings[..|bindings|] == bindings;
    issues, count := AddInstances(r.instances, instances, everyone, Names(bindings), TrackedIssues(project, bindings, r), issues, count);
    ghost var found := TrackedIssues(project, bindings, r) + UntrackedInstances(r.instances, Names(bindings));
    issues, count := AddClaims(r.claims, claims, everything, ClaimNames(bindings), found, issues, count);
    CappedCount(AllIssues(project, bindings, r));
    report := Report.Report(if count > 0 then Drift else if busy > 0 then InProgress else Healthy, issues, count, count > |issues|, busy);
  }

  lemma NoBindings(project: string, r: Resources)
    ensures TrackedIssues(project, [], r) == [] && BusyCount([]) == 0
  {
  }

  lemma OneMore(project: string, bindings: seq<Binding>, k: nat, r: Resources)
    requires k < |bindings|
    ensures TrackedIssues(project, bindings[..k + 1], r) == TrackedIssues(project, bindings[..k], r) + IssuesOf(project, bindings[k], r)
    ensures bindings[k].busy ==> TrackedIssues(project, bindings[..k + 1], r) == TrackedIssues(project, bindings[..k], r)
    ensures BusyCount(bindings[..k + 1]) == BusyCount(bindings[..k]) + (if bindings[k].busy then 1 else 0)
  {
    assert bindings[..k + 1][..k] == bindings[..k];
  }

  lemma NoNames(m: map<string, Observed>, w: map<string, Claim>)
    ensures m - Names([]) == m && w - ClaimNames([]) == w
  {
  }

  lemma Lookup(r: Resources, everyone: map<string, Observed>, everything: map<string, Claim>, names: set<string>, claimNames: set<string>, name: string)
    requires Indexes(everyone, r.instances) && IndexesClaims(everything, r.claims) && name !in names && ClaimName(name) !in claimNames
    ensures FindInstance(r.instances, name) == if name in everyone - names then Some((everyone - names)[name]) else None
    ensures FindClaim(r.claims, ClaimName(name)) ==
              if ClaimName(name) in everything - claimNames then Some((everything - claimNames)[ClaimName(name)]) else None
  {
  }

  method AddBinding(project: string, b: Binding, o: Option<Observed>, c: Option<Claim>, ghost before: seq<Issue>, issues': seq<Issue>, count': nat)
    returns (issues: seq<Issue>, count: nat)
    requires issues' == Capped(before) && count' == |before|
    ensures issues == Capped(before + BindingIssues(project, b, o, c)) && count == |before + BindingIssues(project, b, o, c)|
  {
    hide InstanceCodes, ClaimCodes;
    issues, count := issues', count';
    ghost var all := before;
    var codes := CompareBinding(project, b, o, c);
    ghost var mine := BindingIssues(project, b, o, c);
    for i := 0 to |codes|
      invariant all == before + mine[..i]
      invariant issues == Capped(all) && count == |all|
    {
      var issue := AsIssue(b, codes[i]);
      assert mine[..i + 1] == mine[..i] + [issue];
      CappedMore(all, issue);
      if |issues| < MaxIssues { issues := issues + [issue]; }
      count := count + 1;
      all := all + [issue];
    }
    assert mine[..|codes|] == mine;
  }

  method AddInstances(instances: seq<Observed>, left: map<string, Observed>, ghost everyone: map<string, Observed>, ghost names: set<string>,
                      ghost before: seq<Issue>, issues': seq<Issue>, count': nat)
    returns (issues: seq<Issue>, count: nat)
    requires Indexes(everyone, instances) && left == everyone - names && issues' == Capped(before) && count' == |before|
    ensures issues == Capped(before + UntrackedInstances(instances, names)) && count == |before + UntrackedInstances(instances, names)|
  {
    hide Capped, FindInstance;
    issues, count := issues', count';
    ghost var all := before;
    assert before + [] == before;
    for i := 0 to |instances|
      invariant all == before + UntrackedInstances(instances[..i], names)
      invariant issues == Capped(all) && count == |all|
    {
      assert instances[..i + 1][..i] == instances[..i];
      Listed(instances, i);
      if instances[i].name in left {
        var issue := Issue(UntrackedInstance, CacheInstance, instances[i].name, None);
        CappedMore(all, issue);
        if |issues| < MaxIssues { issues := issues + [issue]; }
        count := count + 1;
        all := all + [issue];
      }
    }
    assert instances[..|instances|] == instances;
  }

  method AddClaims(claims: seq<Claim>, left: map<string, Claim>, ghost everything: map<string, Claim>, ghost names: set<string>,
                   ghost before: seq<Issue>, issues': seq<Issue>, count': nat)
    returns (issues: seq<Issue>, count: nat)
    requires IndexesClaims(everything, claims) && left == everything - names && issues' == Capped(before) && count' == |before|
    ensures issues == Capped(before + UntrackedClaims(claims, names)) && count == |before + UntrackedClaims(claims, names)|
  {
    hide Capped, FindClaim;
    issues, count := issues', count';
    ghost var all := before;
    assert before + [] == before;
    for i := 0 to |claims|
      invariant all == before + UntrackedClaims(claims[..i], names)
      invariant issues == Capped(all) && count == |all|
    {
      assert claims[..i + 1][..i] == claims[..i];
      ListedClaim(claims, i);
      if claims[i].name in left {
        var issue := Issue(UntrackedVolume, VolumeClaim, claims[i].name, None);
        CappedMore(all, issue);
        if |issues| < MaxIssues { issues := issues + [issue]; }
        count := count + 1;
        all := all + [issue];
      }
    }
    assert claims[..|claims|] == claims;
  }

  lemma Listed(instances: seq<Observed>, i: nat)
    requires i < |instances|
    ensures FindInstance(instances, instances[i].name).Some?
  {
    FindInstanceAt(instances, instances[i].name);
  }

  lemma ListedClaim(claims: seq<Claim>, i: nat)
    requires i < |claims|
    ensures FindClaim(claims, claims[i].name).Some?
  {
    FindClaimAt(claims, claims[i].name);
  }
}
