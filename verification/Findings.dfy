/**
 When exactly the inventory reports what, finding by finding.
 */
module Findings {
  import opened Wrappers
  import opened Quantities
  import opened Inventory

  // ----- Quantities against a reservation

  predicate Unreadable(actual: seq<Option<string>>, reserved: nat, unit: string) {
    exists i | 0 <= i < |actual| :: actual[i].Some? && Exceeds(actual[i].value, Decimal(reserved) + unit).None?
  }

  predicate TooLarge(actual: seq<Option<string>>, reserved: nat, unit: string) {
    exists i | 0 <= i < |actual| :: actual[i].Some? && Exceeds(actual[i].value, Decimal(reserved) + unit) == Some(true)
  }

  /** What is wrong with some quantities: nothing is reserved, one of them cannot be read, or all can and one is too large. */
  predicate Amiss(actual: seq<Option<string>>, reserved: Option<nat>, unit: string, code: Code) {
    || (code.ResourceReservationUnknown? && reserved.None?)
    || (code.ResourceQuantityInvalid? && reserved.Some? && Unreadable(actual, reserved.value, unit))
    || (code.ResourceReservationInsufficient? && reserved.Some? && !Unreadable(actual, reserved.value, unit) &&
        TooLarge(actual, reserved.value, unit))
  }

  lemma {:induction false} PresentAre(actual: seq<Option<string>>)
    ensures forall v :: v in Present(actual) <==> Some(v) in actual
  {
    if actual != [] {
      PresentAre(actual[1..]);
      assert actual == [actual[0]] + actual[1..];
    }
  }

  lemma ReservationFound(actual: seq<Option<string>>, reserved: Option<nat>, unit: string, code: Code)
    ensures ReservationIssue(actual, reserved, unit) == Some(code) <==> Amiss(actual, reserved, unit, code)
  {
    PresentAre(actual);
    hide Exceeds, Decimal;
    if reserved.Some? {
      var limit, values := Decimal(reserved.value) + unit, Present(actual);
      forall i | 0 <= i < |values| ensures Some(values[i]) in actual { assert values[i] in values; }
      forall i | 0 <= i < |actual| && actual[i].Some? ensures actual[i].value in values { assert Some(actual[i].value) in actual; }
    }
  }

  // ----- The object

  predicate Same(project: string, b: Binding, o: Observed) {
    o.spec.project == project && o.spec.instance == b.id && b.uid == Some(o.uid)
  }

  predicate Labelled(project: string, b: Binding, labels: Labels) {
    labels.project == Some(project) && labels.instance == Some(b.id) && labels.managed
  }

  predicate Gone(b: Binding) {
    b.lifecycle.Deleted? || b.lifecycle.Detached?
  }

  predicate Templated(b: Binding, o: Observed) {
    o.spec.template == b.template && (b.version.Some? ==> o.spec.version == b.version.value)
  }

  predicate WrongObject(project: string, b: Binding, o: Observed, code: Code) {
    var known := Same(project, b, o) && Labelled(project, b, o.labels);
    var stays := known && !Gone(b) && !o.deleting;
    || (code.InstanceIdentityConflict? && !Same(project, b, o))
    || (code.InstanceOwnershipConflict? && Same(project, b, o) && !Labelled(project, b, o.labels))
    || (code.UnexpectedInstance? && known && Gone(b))
    || (code.UnexpectedInstanceDeletion? && known && !Gone(b) && o.deleting)
    || (code.TemplateIdentityConflict? && stays && !Templated(b, o))
    || (code.TemplateVersionUnknown? && stays && Templated(b, o) && b.version.None?)
    || (code.ConfigurationDrift? && stays && Templated(b, o) && b.version.Some? && b.expected.Some? && o.spec != b.expected.value)
    || (known && !Gone(b) &&
        (|| Amiss([Some(o.spec.storage)], b.storage, "Gi", code)
         || Amiss(o.spec.cpu, b.cpu, "m", code)
         || Amiss(o.spec.memory, b.memory, "Mi", code)))
  }

  predicate ObjectFinding(project: string, b: Binding, o: Option<Observed>, code: Code) {
    if o.Some? then WrongObject(project, b, o.value, code)
    else
      || (code.MissingInstance? && b.lifecycle.Active?)
      || (code.ProvisioningIncomplete? && !b.lifecycle.Active? && !Gone(b))
  }

  // ----- The volume

  predicate Owned(project: string, b: Binding, c: Claim) {
    && b.uid.Some? && Labelled(project, b, c.labels) && c.labels.uid == b.uid
    && (forall owner | owner in c.owners :: owner.uid == b.uid.value && owner.kind == "CacheInstance" && owner.name == b.name)
    && (b.lifecycle.Detached? ==> |c.owners| == 0)
  }

  predicate VolumeFinding(project: string, b: Binding, c: Option<Claim>, code: Code) {
    if c.None? then
      || (code.MissingRetainedVolume? && b.lifecycle.Detached?)
      || (code.MissingVolume? && b.lifecycle.Active?)
    else
      var v := c.value;
      var kept := Owned(project, b, v) && !b.lifecycle.Deleted? && !v.deleting;
      || (code.VolumeOwnershipConflict? && !Owned(project, b, v))
      || (code.ResidualVolume? && Owned(project, b, v) && b.lifecycle.Deleted?)
      || (code.VolumeDeletionInProgress? && Owned(project, b, v) && !b.lifecycle.Deleted? && v.deleting)
      || (code.VolumeNotBound? && kept && v.phase != "Bound")
      || (kept && Amiss([v.request, v.capacity], b.storage, "Gi", code))
  }

  lemma NotedIs(codes: seq<(Code, Kind)>, code: Option<Code>, kind: Kind)
    ensures forall c: Code, k: Kind ::
              (c, k) in Noted(codes, code, kind) <==> (c, k) in codes || (code == Some(c) && k == kind)
  {
  }

  lemma IdentityFound(project: string, b: Binding, o: Observed, code: Code)
    ensures WrongObject(project, b, o, code) <==>
              (|| IdentityIssue(project, b, o) == Some(code)
               || (Countable(project, b, o) &&
                   (|| Amiss([Some(o.spec.storage)], b.storage, "Gi", code)
                    || Amiss(o.spec.cpu, b.cpu, "m", code)
                    || Amiss(o.spec.memory, b.memory, "Mi", code))))
  {
    hide Unreadable, TooLarge;
  }

  /** A code is reported for the object exactly if that is what is wrong with it. */
  lemma ObjectFound(project: string, b: Binding, o: Option<Observed>, code: Code)
    ensures (code, CacheInstance) in InstanceCodes(project, b, o) <==> ObjectFinding(project, b, o, code)
  {
    hide ReservationIssue, IdentityIssue, Noted, Amiss, WrongObject, Countable;
    if o.Some? {
      var spec := o.value.spec;
      IdentityFound(project, b, o.value, code);
      var identity := Noted([], IdentityIssue(project, b, o.value), CacheInstance);
      NotedIs([], IdentityIssue(project, b, o.value), CacheInstance);
      var storage := Noted(identity, ReservationIssue([Some(spec.storage)], b.storage, "Gi"), CacheInstance);
      NotedIs(identity, ReservationIssue([Some(spec.storage)], b.storage, "Gi"), CacheInstance);
      var cpu := Noted(storage, ReservationIssue(spec.cpu, b.cpu, "m"), CacheInstance);
      NotedIs(storage, ReservationIssue(spec.cpu, b.cpu, "m"), CacheInstance);
      NotedIs(cpu, ReservationIssue(spec.memory, b.memory, "Mi"), CacheInstance);
      ReservationFound([Some(spec.storage)], b.storage, "Gi", code);
      ReservationFound(spec.cpu, b.cpu, "m", code);
      ReservationFound(spec.memory, b.memory, "Mi", code);
    }
  }

  /** A code is reported for the volume exactly if that is what is wrong with it. */
  lemma VolumeFound(project: string, b: Binding, c: Option<Claim>, code: Code)
    ensures (code, VolumeClaim) in ClaimCodes(project, b, c) <==> VolumeFinding(project, b, c, code)
  {
    hide ReservationIssue, Noted, Unreadable, TooLarge;
    if c.Some? {
      var v := c.value;
      OwnedIs(project, b, v);
      hide Owned, OwnedClaim;
      var phase := if v.phase == "Bound" then [] else [(VolumeNotBound, VolumeClaim)];
      NotedIs(phase, ReservationIssue([v.request, v.capacity], b.storage, "Gi"), VolumeClaim);
      ReservationFound([v.request, v.capacity], b.storage, "Gi", code);
    }
  }

  lemma OwnedIs(project: string, b: Binding, c: Claim)
    ensures OwnedClaim(project, b, c) <==> Owned(project, b, c)
  {
    if Owned(project, b, c) {
      forall i | 0 <= i < |c.owners| ensures c.owners[i] == Owner(b.uid.value, "CacheInstance", b.name) { assert c.owners[i] in c.owners; }
    }
  }

  // ----- The project

  /** An issue of one binding at rest, about its object or its volume, found by name. */
  predicate Concerning(project: string, b: Binding, r: Resources, issue: Issue) {
    && !b.busy && issue.instance == Some(b.id)
    && (if issue.kind.CacheInstance?
        then issue.name == b.name && ObjectFinding(project, b, FindInstance(r.instances, b.name), issue.code)
        else issue.name == b.name + "-data" && VolumeFinding(project, b, FindClaim(r.claims, b.name + "-data"), issue.code))
  }

  /** An object or a volume that no binding names. */
  ghost predicate Stray(bindings: seq<Binding>, r: Resources, issue: Issue) {
    && issue.instance.None?
    && (|| (&& issue.code.UntrackedInstance? && issue.kind.CacheInstance?
            && (exists o | o in r.instances :: o.name == issue.name) && (forall b | b in bindings :: b.name != issue.name))
        || (&& issue.code.UntrackedVolume? && issue.kind.VolumeClaim?
            && (exists c | c in r.claims :: c.name == issue.name) && (forall b | b in bindings :: b.name + "-data" != issue.name)))
  }

  ghost predicate Explained(project: string, bindings: seq<Binding>, r: Resources, issue: Issue) {
    (exists b | b in bindings :: Concerning(project, b, r, issue)) || Stray(bindings, r, issue)
  }

  lemma IssueOfBinding(project: string, b: Binding, r: Resources, issue: Issue)
    ensures issue in IssuesOf(project, b, r) <==> Concerning(project, b, r, issue)
  {
    var o, c := FindInstance(r.instances, b.name), FindClaim(r.claims, b.name + "-data");
    ObjectFound(project, b, o, issue.code);
    VolumeFound(project, b, c, issue.code);
    InstanceOnce(project, b, o);
    ClaimOnce(project, b, c);
    var first, second := InstanceCodes(project, b, o), ClaimCodes(project, b, c);
    hide ObjectFinding, VolumeFinding, InstanceCodes, ClaimCodes, FindInstance, FindClaim, AllOf, NoRepeats;
    if !b.busy {
      OneOfTwo(first, second, (issue.code, issue.kind));
      AsIssues(b, first + second, IssuesOf(project, b, r), issue);
    }
  }

  lemma OneOfTwo(first: seq<(Code, Kind)>, second: seq<(Code, Kind)>, code: (Code, Kind))
    requires AllOf(first, CacheInstance) && AllOf(second, VolumeClaim)
    ensures code in first + second <==> code in if code.1.CacheInstance? then first else second
  {
  }

  lemma AsIssues(b: Binding, codes: seq<(Code, Kind)>, issues: seq<Issue>, issue: Issue)
    requires |issues| == |codes| && forall i | 0 <= i < |codes| :: issues[i] == AsIssue(b, codes[i])
    ensures issue in issues <==>
              && (issue.code, issue.kind) in codes && issue.instance == Some(b.id)
              && issue.name == if issue.kind.VolumeClaim? then b.name + "-data" else b.name
  {
    var code := (issue.code, issue.kind);
    if issue in issues {
      var i :| 0 <= i < |issues| && issues[i] == issue;
      assert codes[i] == code;
    }
    if code in codes && issue.instance == Some(b.id) && issue.name == (if issue.kind.VolumeClaim? then b.name + "-data" else b.name) {
      var i :| 0 <= i < |codes| && codes[i] == code;
      assert issues[i] == issue;
    }
  }

  lemma {:induction false} IssueOfSome(project: string, bindings: seq<Binding>, r: Resources, issue: Issue)
    ensures issue in TrackedIssues(project, bindings, r) <==> exists b | b in bindings :: Concerning(project, b, r, issue)
    decreases |bindings|
  {
    hide Concerning, IssuesOf;
    if bindings != [] {
      var front, last := bindings[..|bindings| - 1], bindings[|bindings| - 1];
      assert bindings == front + [last];
      IssueOfSome(project, front, r, issue);
      IssueOfBinding(project, last, r, issue);
    }
  }

  lemma {:induction false} StrayObject(instances: seq<Observed>, names: set<string>, issue: Issue)
    ensures issue in UntrackedInstances(instances, names) <==>
              issue == Issue(UntrackedInstance, CacheInstance, issue.name, None) && issue.name !in names &&
              exists o | o in instances :: o.name == issue.name
    decreases |instances|
  {
    if instances != [] {
      var front, last := instances[..|instances| - 1], instances[|instances| - 1];
      assert instances == front + [last];
      StrayObject(front, names, issue);
    }
  }

  lemma {:induction false} StrayVolume(claims: seq<Claim>, names: set<string>, issue: Issue)
    ensures issue in UntrackedClaims(claims, names) <==>
              issue == Issue(UntrackedVolume, VolumeClaim, issue.name, None) && issue.name !in names &&
              exists c | c in claims :: c.name == issue.name
    decreases |claims|
  {
    if claims != [] {
      var front, last := claims[..|claims| - 1], claims[|claims| - 1];
      assert claims == front + [last];
      StrayVolume(front, names, issue);
    }
  }

  /** An issue is found if and only if it is explained: by what is wrong with a binding's object or volume, or as nobody's. */
  lemma FoundIfExplained(project: string, bindings: seq<Binding>, r: Resources, issue: Issue)
    ensures issue in AllIssues(project, bindings, r) <==> Explained(project, bindings, r, issue)
  {
    IssueOfSome(project, bindings, r, issue);
    StrayObject(r.instances, Names(bindings), issue);
    StrayVolume(r.claims, ClaimNames(bindings), issue);
    StrayNames(bindings, issue.name);
    hide Concerning, TrackedIssues, UntrackedInstances, UntrackedClaims, Names, ClaimNames;
    var t, u, v := TrackedIssues(project, bindings, r), UntrackedInstances(r.instances, Names(bindings)), UntrackedClaims(r.claims, ClaimNames(bindings));
    assert issue in t + u + v <==> issue in t || issue in u || issue in v;
  }

  lemma StrayNames(bindings: seq<Binding>, name: string)
    ensures name in Names(bindings) <==> exists b | b in bindings :: b.name == name
    ensures name in ClaimNames(bindings) <==> exists b | b in bindings :: b.name + "-data" == name
  {
  }

  lemma {:induction false} BusyAre(bindings: seq<Binding>)
    ensures BusyCount(bindings) == |set i | 0 <= i < |bindings| && bindings[i].busy|
    decreases |bindings|
  {
    if bindings != [] {
      var n := |bindings| - 1;
      var front := bindings[..n];
      BusyAre(front);
      var before, all := set i | 0 <= i < n && front[i].busy, set i | 0 <= i < |bindings| && bindings[i].busy;
      assert all == if bindings[n].busy then before + {n} else before;
    }
  }

  /** The verdict on a project in terms of what there is to find. */
  lemma VerdictExplained(project: string, bindings: seq<Binding>, r: Resources, report: Report)
    requires report == ReportOf(AllIssues(project, bindings, r), BusyCount(bindings))
    ensures report.health.Drift? <==> exists issue :: Explained(project, bindings, r, issue)
    ensures report.health.InProgress? <==>
              (forall issue :: !Explained(project, bindings, r, issue)) && exists b | b in bindings :: b.busy
    ensures report.health.Healthy? <==>
              (forall issue :: !Explained(project, bindings, r, issue)) && forall b | b in bindings :: !b.busy
  {
    hide Explained, AllIssues, BusyCount, Capped;
    NothingExplained(project, bindings, r);
    BusyAre(bindings);
    SomeBusy(bindings);
  }

  lemma NothingExplained(project: string, bindings: seq<Binding>, r: Resources)
    ensures AllIssues(project, bindings, r) == [] <==> forall issue :: !Explained(project, bindings, r, issue)
  {
    hide Explained, AllIssues;
    var all := AllIssues(project, bindings, r);
    if all != [] {
      assert all[0] in all;
      FoundIfExplained(project, bindings, r, all[0]);
    } else {
      forall issue ensures !Explained(project, bindings, r, issue) { FoundIfExplained(project, bindings, r, issue); }
    }
  }

  /** The list and the counters: at most two hundred issues, all of them explained, and everything there is as long as it is not
      more. */
  lemma ListExplained(project: string, bindings: seq<Binding>, r: Resources, report: Report, issue: Issue)
    requires report == ReportOf(AllIssues(project, bindings, r), BusyCount(bindings))
    ensures issue in report.issues ==> Explained(project, bindings, r, issue)
    ensures report.count <= 200 && Explained(project, bindings, r, issue) ==> issue in report.issues
    ensures |report.issues| == if report.count <= 200 then report.count else 200
    ensures report.truncated <==> report.count > 200
    ensures report.busy == |set i | 0 <= i < |bindings| && bindings[i].busy|
  {
    hide Explained, AllIssues, BusyCount, Capped;
    FoundIfExplained(project, bindings, r, issue);
    Listed(AllIssues(project, bindings, r));
    BusyAre(bindings);
  }

  lemma Listed(all: seq<Issue>)
    ensures forall issue | issue in Capped(all) :: issue in all
    ensures |all| <= 200 ==> Capped(all) == all
    ensures |all| > 200 ==> |Capped(all)| == 200
  {
  }

  lemma SomeBusy(bindings: seq<Binding>)
    ensures |set i | 0 <= i < |bindings| && bindings[i].busy| > 0 <==> exists b | b in bindings :: b.busy
  {
    var busy := set i | 0 <= i < |bindings| && bindings[i].busy;
    if b :| b in bindings && b.busy {
      var i :| 0 <= i < |bindings| && bindings[i] == b;
      assert i in busy;
    }
    if busy != {} { var i :| i in busy; assert bindings[i] in bindings; }
  }
}
