/**
 Credential cleanup after a rotation or a reclaim.

 Whatever claims are stalled and whenever they resume, no cleanup deletes the Secret the bound
 object refers to.  What a delete revokes is looked at in `Revocations`.
 */
module Credentials {
  import opened Wrappers
  import opened Protocol
  import opened Effects
  import Identity
  import Lineage

  // ----- Revisions as they are handed out

  datatype Credential = Credential(secret: nat, revision: nat)

  function Largest(table: seq<Credential>): nat {
    if table == [] then 0
    else
      var front := Largest(table[..|table| - 1]);
      if front < table[|table| - 1].revision then table[|table| - 1].revision else front
  }

  /** A new credential takes the largest revision plus one. */
  function Insert(table: seq<Credential>, secret: nat): seq<Credential> {
    table + [Credential(secret, Largest(table) + 1)]
  }

  function Inserted(secrets: seq<nat>): seq<Credential> {
    if secrets == [] then [] else Insert(Inserted(secrets[..|secrets| - 1]), secrets[|secrets| - 1])
  }

  /** Whatever is inserted, the revisions of the table are the positions of its rows, counted from one. */
  lemma {:induction false} RevisionsArePositions(secrets: seq<nat>)
    ensures |Inserted(secrets)| == |secrets| && Largest(Inserted(secrets)) == |secrets|
    ensures forall i | 0 <= i < |secrets| :: Inserted(secrets)[i] == Credential(secrets[i], i + 1)
    decreases |secrets|
  {
    if secrets != [] {
      var front := secrets[..|secrets| - 1];
      RevisionsArePositions(front);
      assert Inserted(secrets)[..|secrets| - 1] == Inserted(front);
    }
  }

  /** The credentials with a smaller revision than that of `secret`, as the cleanup selects them. */
  function SmallerRevisions(table: seq<Credential>, secret: nat): set<nat> {
    set i, j | 0 <= i < |table| && 0 <= j < |table| && table[j].secret == secret && table[i].revision < table[j].revision :: table[i].secret
  }

  /** The selection by revision is the selection by position. */
  lemma SelectionByRevision(secrets: seq<nat>, secret: nat)
    requires Ascending(secrets)
    ensures SmallerRevisions(Inserted(secrets), secret) == OlderCredentials(secrets, secret)
  {
    var table := Inserted(secrets);
    RevisionsArePositions(secrets);
    forall k ensures k in SmallerRevisions(table, secret) <==> k in OlderCredentials(secrets, secret) {
      OlderIsSmaller(secrets, secret, k);
      if k in SmallerRevisions(table, secret) {
        var i, j :| 0 <= i < |table| && 0 <= j < |table| && table[j].secret == secret && table[i].revision < table[j].revision && table[i].secret == k;
        assert secrets[i] == k && secrets[j] == secret;
      }
      if k in OlderCredentials(secrets, secret) {
        var i :| 0 <= i < |secrets| && secrets[i] == k;
        var j :| 0 <= j < |secrets| && secrets[j] == secret;
        assert table[i].secret == k && table[j].secret == secret && table[i].revision < table[j].revision;
      }
    }
  }

  predicate Ascending(rows: seq<nat>) {
    forall i, j | 0 <= i < j < |rows| :: rows[i] < rows[j]
  }

  lemma {:induction false} RevisionIsPosition(rows: seq<nat>, i: nat)
    requires Ascending(rows) && i < |rows|
    ensures RevisionOf(rows, rows[i]) == i
  {
    if i > 0 {
      assert rows[1..][i - 1] == rows[i];
      RevisionIsPosition(rows[1..], i - 1);
    }
  }

  /** A credential with a smaller revision is one that an earlier operation introduced. */
  lemma OlderIsSmaller(rows: seq<nat>, secret: nat, k: nat)
    requires Ascending(rows)
    ensures k in OlderCredentials(rows, secret) <==> secret in rows && k in rows && k < secret
  {
    if secret in rows {
      var j :| 0 <= j < |rows| && rows[j] == secret;
      RevisionIsPosition(rows, j);
    }
  }

  // ----- The invariant

  predicate RowsInv(s: State) {
    Ascending(s.credentials) && forall k | k in s.credentials :: k < |s.operations|
  }

  /** A configuring claim only lists credentials older than its own, and only after it saw its configuration in place. */
  predicate ClaimInv(s: State, claim: Claim) {
    claim.operation < |s.operations| && s.operations[claim.operation].request.Configures() &&
    (claim.stage.Listing? || claim.stage.Cleaning?) ==>
      && (forall k | k in claim.todo :: k < s.operations[claim.operation].request.desired.secret)
      && claim.answer.Some?
      && claim.answer.value in s.history.seen
      && claim.answer.value.operation == claim.operation
  }

  predicate TodoInv(claim: Claim) {
    !claim.stage.Cleaning? && !claim.stage.Released? ==> claim.todo == {}
  }

  predicate Inv(s: State) {
    RowsInv(s) && forall c | 0 <= c < |s.claims| :: ClaimInv(s, s.claims[c]) && TodoInv(s.claims[c])
  }

  lemma AdmitKeeps(s: State, a: Admission)
    requires Inv(s) && Identity.Base(s) && MayAdmit(s, a)
    ensures Inv(DoAdmit(s, a))
  {
    var t := DoAdmit(s, a);
    AdmitRowEffect(s, a);
    assert t.claims == s.claims && t.history.seen == s.history.seen;
    assert RowsInv(t) by { AdmittedRows(s, a); }
    forall c | 0 <= c < |t.claims| ensures ClaimInv(t, t.claims[c]) && TodoInv(t.claims[c]) {
      Identity.ClaimFacts(s, c);
      assert ClaimInv(s, s.claims[c]) && TodoInv(s.claims[c]);
      assert t.operations[s.claims[c].operation].request == s.operations[s.claims[c].operation].request;
    }
  }

  lemma AdmittedRows(s: State, a: Admission)
    requires RowsInv(s) && MayAdmit(s, a)
    ensures RowsInv(DoAdmit(s, a))
  {
    var t := DoAdmit(s, a);
    AdmitRowEffect(s, a);
    if t.credentials != s.credentials {
      assert t.credentials == s.credentials + [|s.operations|];
      assert |t.operations| == |s.operations| + 1;
      assert forall i | 0 <= i < |s.credentials| :: s.credentials[i] in s.credentials;
    }
  }

  lemma OwnClaim(s: State, c: nat, action: Action)
    requires Inv(s) && Identity.Base(s) && MayWork(s, c, action)
    ensures |DoWork(s, c, action).claims| == |s.claims|
    ensures ClaimInv(DoWork(s, c, action), DoWork(s, c, action).claims[c]) && TodoInv(DoWork(s, c, action).claims[c])
  {
    hide Identity.Base, DoWork, Inv;
    var t := DoWork(s, c, action);
    WorkClaims(s, c, action);
    WorkRowEffect(s, c, action);
    WorkEffect(s, c, action);
    Own(s, c);
    if Ends(action) {
      EndsClaims(s, c, action);
    } else {
      CleaningEntry(s, c, action);
      if action.ListCredentials? && Row(s, c).request.Configures() {
        assert t == DoList(s, c) by { Listed(s, c); }
        forall k | k in OlderCredentials(s.credentials, Row(s, c).request.desired.secret)
          ensures k < Row(s, c).request.desired.secret
        {
          Rows(s);
          OlderIsSmaller(s.credentials, Row(s, c).request.desired.secret, k);
        }
      }
    }
  }

  lemma Rows(s: State)
    requires Inv(s)
    ensures RowsInv(s)
  {
  }

  lemma Own(s: State, c: nat)
    requires Inv(s) && Identity.Base(s) && c < |s.claims|
    ensures ClaimInv(s, s.claims[c]) && TodoInv(s.claims[c]) && Identity.ClaimInv(s, s.claims[c])
  {
    Identity.ClaimFacts(s, c);
  }

  lemma Listed(s: State, c: nat)
    requires MayWork(s, c, ListCredentials)
    ensures DoWork(s, c, ListCredentials) == DoList(s, c)
  {
  }

  /** The only ways into listing and cleaning, and the only list that is filled. */
  lemma CleaningEntry(s: State, c: nat, action: Action)
    requires MayWork(s, c, action) && !Ends(action)
    ensures
      var claim := DoWork(s, c, action).claims[c];
      && (claim.stage.Listing? || claim.stage.Cleaning? ==>
            || (action.Verify? && s.claims[c].answer.value.operation == s.claims[c].operation && claim.answer == s.claims[c].answer
                && claim.todo == s.claims[c].todo && !s.claims[c].stage.Cleaning?)
            || (action.ListCredentials? && claim.answer == s.claims[c].answer)
            || (action.DropSecret? && claim.answer == s.claims[c].answer && claim.todo <= s.claims[c].todo)
            || !Row(s, c).request.Configures())
      && (claim.todo != s.claims[c].todo ==> claim.stage.Cleaning?)
      && (s.claims[c].stage.Cleaning? ==> claim.stage.Cleaning?)
  {
    if action.Verify? || action.ListCredentials? || action.DropSecret? {
    } else {
      NotCleaning(s, c, action);
    }
  }

  lemma NotCleaning(s: State, c: nat, action: Action)
    requires MayWork(s, c, action) && !Ends(action)
    requires !action.Verify? && !action.ListCredentials? && !action.DropSecret?
    ensures
      var claim := DoWork(s, c, action).claims[c];
      && (claim.stage.Listing? || claim.stage.Cleaning? ==> !Row(s, c).request.Configures())
      && claim.todo == s.claims[c].todo && !s.claims[c].stage.Cleaning?
  {
    if Writes(action) { WritingIsNotCleaning(s, c, action); }
  }

  lemma WritingIsNotCleaning(s: State, c: nat, action: Action)
    requires MayWork(s, c, action) && Writes(action)
    ensures
      var claim := DoWork(s, c, action).claims[c];
      !claim.stage.Listing? && !claim.stage.Cleaning? && claim.todo == s.claims[c].todo
  {
    hide DoWrite;
    match action {
      case Write(lost) => WroteIsNotCleaning(s, c, lost);
      case Bind =>
      case Approve(_) =>
      case IssueDelete =>
    }
  }

  lemma WroteIsNotCleaning(s: State, c: nat, lost: bool)
    requires MayWork(s, c, Write(lost))
    ensures
      var claim := DoWrite(s, c, lost).claims[c];
      !claim.stage.Listing? && !claim.stage.Cleaning? && claim.todo == s.claims[c].todo
  {
    hide DoCreateInstance, DoUpdateInstance;
    if Row(s, c).request.Provisions() { CreatedIsNotCleaning(s, c, lost); } else { UpdatedIsNotCleaning(s, c, lost); }
  }

  lemma CreatedIsNotCleaning(s: State, c: nat, lost: bool)
    requires At(s, c, Writing) && Row(s, c).request.Provisions()
    ensures
      var claim := DoCreateInstance(s, c, lost).claims[c];
      !claim.stage.Listing? && !claim.stage.Cleaning? && claim.todo == s.claims[c].todo
  {
  }

  lemma UpdatedIsNotCleaning(s: State, c: nat, lost: bool)
    requires At(s, c, Writing) && Row(s, c).request.Edits()
    ensures
      var claim := DoUpdateInstance(s, c, lost).claims[c];
      !claim.stage.Listing? && !claim.stage.Cleaning? && claim.todo == s.claims[c].todo
  {
  }

  lemma WorkKeeps(s: State, c: nat, action: Action)
    requires Inv(s) && Identity.Base(s) && MayWork(s, c, action)
    ensures Inv(DoWork(s, c, action))
  {
    hide DoWork, Identity.Base;
    var t := DoWork(s, c, action);
    WorkRowEffect(s, c, action);
    OwnClaim(s, c, action);
    WorkClaims(s, c, action);
    WorkRest(s, c, action);
    WorkEffect(s, c, action);
    forall d | 0 <= d < |t.claims| ensures ClaimInv(t, t.claims[d]) && TodoInv(t.claims[d]) {
      if d != c { assert ClaimInv(s, s.claims[d]) && TodoInv(s.claims[d]); }
    }
  }

  lemma StepKeeps(s: State, step: Step)
    requires Inv(s) && Identity.Base(s) && Enabled(s, step)
    ensures Inv(Apply(s, step))
  {
    hide DoWork, DoAdmit, Identity.Base;
    match step {
      case Admit(a) => AdmitKeeps(s, a);
      case Work(c, action) => WorkKeeps(s, c, action);
      case Operate(w) =>
        var t := Apply(s, step);
        forall d | 0 <= d < |t.claims| ensures ClaimInv(t, t.claims[d]) && TodoInv(t.claims[d]) {
          assert ClaimInv(s, s.claims[d]) && TodoInv(s.claims[d]);
        }
      case Take(op) => TakeKeeps(s, op);
      case Pass(_) =>
    }
  }

  lemma TakeKeeps(s: State, op: nat)
    requires Inv(s) && CanTake(s, op)
    ensures Inv(DoTake(s, op))
  {
    var t := DoTake(s, op);
    forall d | 0 <= d < |t.claims| ensures ClaimInv(t, t.claims[d]) && TodoInv(t.claims[d]) {
      if d < |s.claims| { assert ClaimInv(s, s.claims[d]) && TodoInv(s.claims[d]); }
    }
  }

  lemma {:induction false} RunKeeps(steps: seq<Step>)
    requires Run(Initial, steps)
    ensures Inv(After(Initial, steps))
    decreases |steps|
  {
    if steps != [] {
      var front := steps[..|steps| - 1];
      RunKeeps(front);
      Identity.RunKeepsBase(front);
      StepKeeps(After(Initial, front), steps[|steps| - 1]);
    }
  }

  // ----- Main results

  /** A drop by a claim of a deletion works on every credential row and is not covered. */
  predicate Cleanup(s: State, step: Step) {
    && step.Work? && step.action.DropSecret?
    && Claimed(s, step.c)
    && Row(s, step.c).request.Configures()
  }

  lemma CleanupSparesNewest(s: State, step: Step)
    requires Inv(s) && Lineage.Inv(s) && Enabled(s, step) && Cleanup(s, step)
    requires s.instance.Some? && s.uid == Some(s.instance.value.uid)
    ensures step.action.secret < s.instance.value.spec.secret
  {
    var claim := s.claims[step.c];
    assert ClaimInv(s, claim);
    assert Lineage.Written(s, claim.answer.value);
  }

  /** No cleanup, however late, deletes the Secret that the bound object refers to. */
  lemma CleanupSparesBound(steps: seq<Step>, step: Step)
    requires Run(Initial, steps) && Enabled(After(Initial, steps), step) && Cleanup(After(Initial, steps), step)
    requires After(Initial, steps).instance.Some? && After(Initial, steps).uid == Some(After(Initial, steps).instance.value.uid)
    ensures After(Initial, steps).instance.value.spec.secret != step.action.secret
  {
    RunKeeps(steps);
    Lineage.RunKeeps(steps);
    CleanupSparesNewest(After(Initial, steps), step);
  }

  // ----- The Secret of the bound object exists

  predicate Last(s: State, op: nat) {
    op + 1 == |s.operations|
  }

  /** The object is bound, or may still be bound by the operation that created it. */
  predicate InUse(s: State, i: Instance) {
    s.uid == Some(i.uid) || (i.uid !in s.history.bound && Last(s, i.operation))
  }

  /** The claim has put its Secret in place and may still write an object that refers to it. */
  predicate Sealed(s: State, claim: Claim) {
    claim.operation < |s.operations| &&
    var request := s.operations[claim.operation].request;
    claim.stage.Writing? && request.Seals() &&
    (if request.Provisions() then Last(s, claim.operation) else s.instance.Some? && Expects(request, s.instance.value))
  }

  predicate SealedInv(s: State, claim: Claim) {
    claim.operation < |s.operations| && (Sealed(s, claim) ==> s.operations[claim.operation].request.desired.secret in s.secrets)
  }

  /** The Secret is that of an object in use, or of one that may still be written. */
  predicate Needed(s: State, secret: nat) {
    || (s.instance.Some? && InUse(s, s.instance.value) && s.instance.value.spec.secret == secret)
    || exists d | 0 <= d < |s.claims| :: Sealed(s, s.claims[d]) && s.operations[s.claims[d].operation].request.desired.secret == secret
  }

  predicate Present(s: State) {
    && (s.instance.Some? && InUse(s, s.instance.value) ==> s.instance.value.spec.secret in s.secrets)
    && forall c | 0 <= c < |s.claims| :: SealedInv(s, s.claims[c])
  }

  /** A delete operation does not delete a Secret that is needed. */
  predicate Sparing(s: State, step: Step) {
    step.Work? && step.action.DropSecret? && !Cleanup(s, step) ==> !Needed(s, step.action.secret)
  }

  predicate Facts(s: State) {
    Inv(s) && Lineage.Inv(s) && Identity.Base(s)
  }

  lemma CurrentFacts(s: State)
    requires Facts(s) && s.instance.Some?
    ensures Lineage.Written(s, s.instance.value) && s.instance.value.spec.secret <= s.instance.value.operation
    ensures s.instance.value.uid in s.history.bound ==> s.uid == Some(s.instance.value.uid)
  {
    var i := s.instance.value;
    Identity.InstanceFacts(s);
    assert Lineage.Written(s, i);
    assert Lineage.RequestInv(s, i.operation, s.operations[i.operation].request);
  }

  /** What a write needs: the version it makes refers to a Secret that exists. */
  lemma WriteKeepsPresent(s: State, c: nat, lost: bool)
    requires Facts(s) && Present(s) && MayWork(s, c, Write(lost))
    ensures Present(DoWrite(s, c, lost))
  {
    hide DoWrite, Identity.Base, Inv;
    var t := DoWrite(s, c, lost);
    var op := s.claims[c].operation;
    var request := Row(s, c).request;
    WriteEffect(s, c, lost);
    WriteClaims(s, c, lost);
    assert SealedInv(s, s.claims[c]);
    assert Lineage.RequestInv(s, op, request);
    if s.instance.Some? { CurrentFacts(s); }
    if EditedBy(s, t, op) {
      forall d | 0 <= d < |t.claims| ensures SealedInv(t, t.claims[d]) {
        assert SealedInv(s, s.claims[d]);
        var r := s.operations[s.claims[d].operation].request;
        assert Lineage.RequestInv(s, s.claims[d].operation, r);
      }
    } else {
      forall d | 0 <= d < |t.claims| ensures SealedInv(t, t.claims[d]) {
        assert SealedInv(s, s.claims[d]);
        var r := s.operations[s.claims[d].operation].request;
        if CreatedBy(s, t, op) && r.Edits() { FreshUnexpected(s, s.claims[d].operation); }
      }
    }
    if CreatedBy(s, t, op) { FreshUnbound(s); }
  }

  lemma FreshUnexpected(s: State, op: nat)
    requires Identity.Base(s) && op < |s.operations| && s.operations[op].request.Edits()
    ensures s.operations[op].request.expectedUid < s.nextUid
  {
    assert Identity.RequestInv(s, s.operations[op].request);
  }

  lemma FreshUnbound(s: State)
    requires Identity.Base(s)
    ensures s.uid != Some(s.nextUid)
  {
  }

  lemma WriteClaims(s: State, c: nat, lost: bool)
    requires MayWork(s, c, Write(lost))
    ensures
      var t := DoWrite(s, c, lost);
      && |t.claims| == |s.claims| && t.operations == s.operations && t.secrets == s.secrets
      && t.uid == s.uid && t.history.bound == s.history.bound
      && !t.claims[c].stage.Writing? && t.claims[c].operation == s.claims[c].operation
      && forall d | 0 <= d < |s.claims| && d != c :: t.claims[d] == s.claims[d]
  {
  }

  lemma DropKeepsPresent(s: State, c: nat, secret: nat)
    requires Facts(s) && Present(s) && MayWork(s, c, DropSecret(secret)) && Row(s, c).request.Configures()
    ensures Present(DoDropSecret(s, c, secret))
  {
    var t := DoDropSecret(s, c, secret);
    var claim := s.claims[c];
    assert ClaimInv(s, claim) && Lineage.Written(s, claim.answer.value);
    var own := claim.answer.value.spec.secret;
    assert Lineage.RequestInv(s, claim.operation, Row(s, c).request);
    assert secret < own <= claim.operation;
    if s.instance.Some? {
      CurrentFacts(s);
      var i := s.instance.value;
      assert Lineage.RequestInv(s, i.operation, s.operations[i.operation].request);
    }
    forall d | 0 <= d < |t.claims| ensures SealedInv(t, t.claims[d]) {
      assert SealedInv(s, s.claims[d]);
      var op := s.claims[d].operation;
      assert Lineage.RequestInv(s, op, s.operations[op].request);
    }
  }

  /** The deletions by a delete operation that leave every needed Secret in place are exactly those of Secrets nobody needs. */
  lemma PresentUnlessNeeded(s: State, c: nat, secret: nat)
    requires Present(s) && MayWork(s, c, DropSecret(secret))
    ensures Present(DoDropSecret(s, c, secret)) <==> !Needed(s, secret)
  {
    var t := DoDropSecret(s, c, secret);
    forall d | 0 <= d < |s.claims| ensures Sealed(t, t.claims[d]) == Sealed(s, s.claims[d]) {}
    if Needed(s, secret) {
      if !(s.instance.Some? && InUse(s, s.instance.value) && s.instance.value.spec.secret == secret) {
        var d :| 0 <= d < |s.claims| && Sealed(s, s.claims[d]) && s.operations[s.claims[d].operation].request.desired.secret == secret;
        assert !SealedInv(t, t.claims[d]);
      }
    } else {
      forall d | 0 <= d < |t.claims| ensures SealedInv(t, t.claims[d]) { assert SealedInv(s, s.claims[d]); }
    }
  }

  /** The binding is taken only by the operation that created the object, while no other has been accepted. */
  lemma BindKeepsPresent(s: State, c: nat)
    requires Facts(s) && Present(s) && MayWork(s, c, Bind)
    ensures Present(DoBind(s, c))
  {
    hide Inv, Lineage.Inv, Identity.Base;
    var t := DoBind(s, c);
    var op := s.claims[c].operation;
    Identity.ClaimFacts(s, c);
    assert t.instance == s.instance && t.secrets == s.secrets;
    if s.instance.Some? && InUse(t, s.instance.value) && !InUse(s, s.instance.value) {
      CurrentFacts(s);
      Lineage.RunningIsLast(s, op);
      UnboundFacts(s, s.claims[c].answer.value);
      assert false;
    }
    forall d | 0 <= d < |t.claims| ensures SealedInv(t, t.claims[d]) { assert SealedInv(s, s.claims[d]); }
  }

  lemma UnboundFacts(s: State, answer: Instance)
    requires Facts(s) && s.instance.Some? && answer in s.history.seen && answer.uid == s.instance.value.uid
    ensures answer.uid !in s.history.bound ==> answer.operation == s.instance.value.operation
  {
  }

  predicate Plain(action: Action) {
    !action.Write? && !action.DropSecret? && !action.Bind?
  }

  lemma PlainStage(s: State, c: nat, action: Action)
    requires MayWork(s, c, action) && Plain(action)
    ensures |DoWork(s, c, action).claims| == |s.claims|
    ensures DoWork(s, c, action).claims[c].stage.Writing? ==>
      action.Seal? && Row(s, c).request.desired.secret in DoWork(s, c, action).secrets
  {
    hide DoWork, MayWork;
    if Removes(action) || Ends(action) { NotWriting(s, c, action); } else { PlainWriting(s, c, action); }
  }

  lemma NotWriting(s: State, c: nat, action: Action)
    requires MayWork(s, c, action) && (Removes(action) || Ends(action))
    ensures |DoWork(s, c, action).claims| == |s.claims| && !DoWork(s, c, action).claims[c].stage.Writing?
  {
  }

  lemma PlainWriting(s: State, c: nat, action: Action)
    requires MayWork(s, c, action) && Plain(action) && !Removes(action) && !Ends(action)
    ensures |DoWork(s, c, action).claims| == |s.claims|
    ensures DoWork(s, c, action).claims[c].stage.Writing? ==>
      action.Seal? && Row(s, c).request.desired.secret in DoWork(s, c, action).secrets
  {
  }

  lemma PlainKeepsPresent(s: State, t: State)
    requires Present(s) && SameRequests(s, t) && |s.claims| <= |t.claims| && s.secrets <= t.secrets
    requires Kept(s, t) || Removed(s, t) || Annotated(s, t)
    requires Lineage.Inv(s) && t.uid == s.uid && t.history.bound == s.history.bound
    requires forall d | 0 <= d < |t.claims| && (d >= |s.claims| || t.claims[d] != s.claims[d]) ::
               && t.claims[d].operation < |t.operations|
               && (t.claims[d].stage.Writing? ==>
                     t.operations[t.claims[d].operation].request.Seals() ==>
                       || t.operations[t.claims[d].operation].request.desired.secret in t.secrets
                       || (d < |s.claims| && s.claims[d].stage.Writing? && s.claims[d].operation == t.claims[d].operation))
    ensures Present(t)
  {
    forall d | 0 <= d < |t.claims| ensures SealedInv(t, t.claims[d]) {
      if d < |s.claims| { assert SealedInv(s, s.claims[d]); }
      var op := t.claims[d].operation;
      if op < |s.operations| { assert Lineage.RequestInv(s, op, s.operations[op].request); }
    }
  }

  lemma AdmitKeepsPresent(s: State, a: Admission)
    requires Facts(s) && Present(s) && MayAdmit(s, a)
    ensures Present(DoAdmit(s, a))
  {
    var t := DoAdmit(s, a);
    AdmitRowEffect(s, a);
    assert t.claims == s.claims && t.instance == s.instance && t.secrets == s.secrets && t.uid == s.uid && t.history.bound == s.history.bound;
    if s.instance.Some? { CurrentFacts(s); }
    forall d | 0 <= d < |t.claims| ensures SealedInv(t, t.claims[d]) {
      assert SealedInv(s, s.claims[d]);
    }
  }

  lemma StepKeepsPresent(s: State, step: Step)
    requires Facts(s) && Present(s) && Enabled(s, step) && Sparing(s, step)
    ensures Present(Apply(s, step))
  {
    hide Inv, Lineage.Inv, Identity.Base, DoAdmit, DoWork, Present;
    var t := Apply(s, step);
    match step {
      case Admit(a) => AdmitKeepsPresent(s, a);
      case Work(c, action) => WorkKeepsPresent(s, c, action);
      case Operate(w) => InstanceEffect(s, step); PlainKeepsPresent(s, t);
      case Take(op) => PlainKeepsPresent(s, t);
      case Pass(_) => PlainKeepsPresent(s, t);
    }
  }

  lemma WorkKeepsPresent(s: State, c: nat, action: Action)
    requires Facts(s) && Present(s) && MayWork(s, c, action) && Sparing(s, Work(c, action))
    ensures Present(DoWork(s, c, action))
  {
    hide Inv, Lineage.Inv, Identity.Base, Present;
    match action {
      case Write(lost) => WriteKeepsPresent(s, c, lost);
      case DropSecret(secret) =>
        if Row(s, c).request.Configures() { DropKeepsPresent(s, c, secret); } else { PresentUnlessNeeded(s, c, secret); }
      case Bind => BindKeepsPresent(s, c);
      case _ => PlainWorkKeepsPresent(s, c, action);
    }
  }

  lemma PlainWorkKeepsPresent(s: State, c: nat, action: Action)
    requires Facts(s) && Present(s) && MayWork(s, c, action) && Plain(action)
    ensures Present(DoWork(s, c, action))
  {
    hide Inv, Lineage.Inv, Identity.Base, Present, DoWork;
    PlainStage(s, c, action);
    WorkClaims(s, c, action);
    WorkRest(s, c, action);
    WorkRowEffect(s, c, action);
    WorkEffect(s, c, action);
    PlainEffect(s, c, action);
    PlainKeepsPresent(s, DoWork(s, c, action));
  }

  lemma PlainEffect(s: State, c: nat, action: Action)
    requires MayWork(s, c, action) && Plain(action)
    ensures Kept(s, DoWork(s, c, action)) || Removed(s, DoWork(s, c, action)) || Annotated(s, DoWork(s, c, action))
  {
    if action.Approve? || action.IssueDelete? {
      assert !EditedBy(s, DoWork(s, c, action), s.claims[c].operation);
      WorkEffect(s, c, action);
    }
  }
}
