/**
 What lies behind an action: for each thing a worker may do to the cluster, what it has seen and done before in the same claim.
 */
module Evidence {
  import opened Wrappers
  import opened Protocol
  import opened Effects
  import Identity
  import Deletion
  import Lineage

  // ----- When a claim goes on to a stage

  /** The volume a reclaim asks for is there, still with the identity it is to be taken from, and not on its way out. */
  predicate VolumeToTake(s: State, request: Request)
    requires request.Reclaim?
  {
    s.volume == Some(Volume(request.volume, request.previous, false))
  }

  /** The volume named by a deletion is there, of an instance that is detached or has failed and is still bound as it was. */
  predicate VolumeToDelete(s: State, request: Request)
    requires request.RemoveVolume?
  {
    && (s.lifecycle == Detached || s.lifecycle == Failed) && s.uid == Some(request.owner)
    && s.volume.Some? && s.volume.value.owner == request.owner && s.volume.value.uid == request.volume
  }

  predicate NoVolume(s: State, request: Request)
    requires request.RemoveVolume?
  {
    (s.lifecycle == Detached || s.lifecycle == Failed) && s.uid == Some(request.owner) && s.volume.None?
  }

  /** The object of a deletion is there, with the policy that was recorded if one was. */
  predicate ObjectToDelete(s: State, request: Request, recorded: Option<Policy>)
    requires request.Remove?
  {
    && s.instance.Some? && s.instance.value.uid == request.uid
    && (recorded.None? || recorded == Some(s.instance.value.spec.policy))
  }

  lemma CheckGoesOn(s: State, c: nat)
    requires MayWork(s, c, CheckVolume)
    ensures
      var t := DoWork(s, c, CheckVolume);
      && |t.claims| == |s.claims|
      && t.claims[c].stage == if VolumeToTake(s, Row(s, c).request) then Sealing else Failing
  {
  }

  lemma SealGoesOn(s: State, c: nat)
    requires MayWork(s, c, Seal)
    ensures
      var t := DoWork(s, c, Seal);
      && |t.claims| == |s.claims|
      && t.claims[c].stage == (if s.claims[c].payload then Writing else Failing)
      && t.secrets == if s.claims[c].payload then s.secrets + {Row(s, c).request.desired.secret} else s.secrets
  {
  }

  lemma ReadVolumeGoesOn(s: State, c: nat)
    requires MayWork(s, c, ReadVolume)
    ensures
      var t, request := DoWork(s, c, ReadVolume), Row(s, c).request;
      && |t.claims| == |s.claims|
      && t.claims[c].stage == (if VolumeToDelete(s, request) then ConfirmingVolume else if NoVolume(s, request) then Cleaning else Failing)
      && (VolumeToDelete(s, request) ==> t.claims[c].volume == s.volume)
  {
  }

  lemma ConfirmGoesOn(s: State, c: nat)
    requires MayWork(s, c, ConfirmVolume)
    ensures
      var t := DoWork(s, c, ConfirmVolume);
      && |t.claims| == |s.claims| && t.claims[c].volume == s.claims[c].volume
      && t.claims[c].stage == if s.instance.None? then IssuingVolumeDelete else Failing
  {
  }

  lemma ReadGoesOn(s: State, c: nat)
    requires MayWork(s, c, ReadForRemove)
    ensures
      var t, claim := DoWork(s, c, ReadForRemove), s.claims[c];
      && |t.claims| == |s.claims|
      && t.claims[c].stage == (if s.instance.None? then Listing
                               else if ObjectToDelete(s, Row(s, c).request, claim.policy) then CapturingPolicy else Failing)
      && (t.claims[c].stage.CapturingPolicy? ==> t.claims[c].answer == s.instance)
      && t.claims[c].policy == claim.policy
  {
  }

  /** What has to be revoked: for a delete everything there is, otherwise what was inserted before the new credential. */
  lemma ListGoesOn(s: State, c: nat)
    requires MayWork(s, c, ListCredentials)
    ensures
      var t, request := DoWork(s, c, ListCredentials), Row(s, c).request;
      && |t.claims| == |s.claims| && t.claims[c].stage == Cleaning
      && (!request.Configures() ==> forall x :: x in t.claims[c].todo <==> x in s.credentials)
      && (request.Configures() ==>
            forall i | 0 <= i < |s.credentials| && request.desired.secret in s.credentials[i + 1..] && request.desired.secret !in s.credentials[..i + 1] ::
              s.credentials[i] in t.claims[c].todo)
  {
    var request := Row(s, c).request;
    if request.Configures() {
      forall i | 0 <= i < |s.credentials| && request.desired.secret in s.credentials[i + 1..] && request.desired.secret !in s.credentials[..i + 1]
        ensures s.credentials[i] in OlderCredentials(s.credentials, request.desired.secret)
      {
        RevisionBehind(s.credentials, request.desired.secret, i);
      }
    }
  }

  lemma {:induction false} RevisionBehind(rows: seq<nat>, secret: nat, i: nat)
    requires i < |rows| && secret in rows[i + 1..] && secret !in rows[..i + 1]
    ensures i < RevisionOf(rows, secret)
  {
    assert rows[0] in rows[..i + 1];
    if i > 0 {
      assert rows[1..][i..] == rows[i + 1..];
      assert rows[1..][..i] == rows[..i + 1][1..];
      RevisionBehind(rows[1..], secret, i - 1);
    }
  }

  // ----- What a run shows

  /** Something that was the case at the moment a claim took a step. */
  datatype Fact =
    | VolumeWasThere(request: Request)
    | CredentialsWereAtHand
    | VolumeWasRead(request: Request, volume: Volume)
    | ObjectWasAbsent
    | VolumeWasGone(request: Request)
    | ObjectWasRead(version: Instance)
    | Revoked(secret: nat)

  predicate Shows(s: State, step: Step, c: nat, fact: Fact) {
    && step.Work? && step.c == c
    && match fact
       case VolumeWasThere(request) => step.action.CheckVolume? && request.Reclaim? && VolumeToTake(s, request)
       case CredentialsWereAtHand => step.action.Seal? && c < |s.claims| && s.claims[c].payload
       case VolumeWasRead(request, volume) =>
         step.action.ReadVolume? && request.RemoveVolume? && VolumeToDelete(s, request) && s.volume == Some(volume)
       case ObjectWasAbsent => step.action.ConfirmVolume? && s.instance.None?
       case VolumeWasGone(request) => step.action.ReadVolume? && request.RemoveVolume? && NoVolume(s, request)
       case ObjectWasRead(version) => step.action.ReadForRemove? && s.instance == Some(version)
       case Revoked(secret) => step.action == DropSecret(secret)
  }

  predicate ShownAt(steps: seq<Step>, j: nat, c: nat, fact: Fact)
    requires j < |steps|
  {
    Run(Initial, steps[..j]) && Shows(After(Initial, steps[..j]), steps[j], c, fact)
  }

  ghost predicate Shown(steps: seq<Step>, c: nat, fact: Fact) {
    exists j | 0 <= j < |steps| :: ShownAt(steps, j, c, fact)
  }

  lemma ShownLater(steps: seq<Step>, c: nat, fact: Fact)
    requires steps != [] && Shown(steps[..|steps| - 1], c, fact)
    ensures Shown(steps, c, fact)
  {
    var front := steps[..|steps| - 1];
    var j :| 0 <= j < |front| && ShownAt(front, j, c, fact);
    assert front[..j] == steps[..j];
    hide Shows, Run, After;
    assert ShownAt(steps, j, c, fact);
  }

  lemma ShownNow(steps: seq<Step>, c: nat, fact: Fact)
    requires steps != [] && Run(Initial, steps[..|steps| - 1])
    requires Shows(After(Initial, steps[..|steps| - 1]), steps[|steps| - 1], c, fact)
    ensures Shown(steps, c, fact)
  {
    hide Shows, Run, After;
    assert ShownAt(steps, |steps| - 1, c, fact);
  }

  /** The credential at position `i` was inserted before the first row of `secret`. */
  predicate Older(credentials: seq<nat>, secret: nat, i: nat)
    requires i < |credentials|
  {
    secret in credentials[i + 1..] && secret !in credentials[..i + 1]
  }

  /** Where a claim is tells what it has seen. */
  ghost predicate Backed(steps: seq<Step>, s: State, c: nat)
    requires Claimed(s, c)
  {
    var claim, request := s.claims[c], Row(s, c).request;
    && (request.RemoveVolume? ==> Deletion.VolumeStage(claim.stage))
    && (request.Remove? ==> Deletion.RemoveStage(claim.stage))
    && (request.Reclaim? && (claim.stage.Sealing? || claim.stage.Writing?) ==> Shown(steps, c, VolumeWasThere(request)))
    && (request.Seals() && claim.stage.Writing? ==> Shown(steps, c, CredentialsWereAtHand))
    && (claim.stage.ConfirmingVolume? || claim.stage.IssuingVolumeDelete? ==>
          request.RemoveVolume? && claim.volume.Some? && Shown(steps, c, VolumeWasRead(request, claim.volume.value)))
    && (claim.stage.IssuingVolumeDelete? ==> Shown(steps, c, ObjectWasAbsent))
    && (request.RemoveVolume? && claim.stage.Cleaning? ==> Shown(steps, c, VolumeWasGone(request)))
    && (claim.stage.CapturingPolicy? && claim.answer.Some? ==>
          request.Remove? && claim.answer.value.uid == request.uid && Shown(steps, c, ObjectWasRead(claim.answer.value)))
  }

  ghost predicate AllBacked(steps: seq<Step>)
    requires Run(Initial, steps)
  {
    var s := After(Initial, steps);
    forall c | 0 <= c < |s.claims| :: Claimed(s, c) && Backed(steps, s, c)
  }

  /** Nothing about the claim has changed. */
  lemma StillBacked(steps: seq<Step>, s: State, t: State, c: nat)
    requires steps != [] && Claimed(s, c) && Backed(steps[..|steps| - 1], s, c)
    requires c < |t.claims| && t.claims[c] == s.claims[c] && (Appended(s, t) || SameRequests(s, t))
    ensures Claimed(t, c) && Backed(steps, t, c)
  {
    var front := steps[..|steps| - 1];
    assert t.operations[t.claims[c].operation].request == Row(s, c).request;
    forall fact | Shown(front, c, fact) ensures Shown(steps, c, fact) { ShownLater(steps, c, fact); }
    hide Shown;
  }

  // ----- Every step keeps it

  predicate Special(stage: Stage) {
    stage.Sealing? || stage.Writing? || stage.ConfirmingVolume? || stage.IssuingVolumeDelete? || stage.CapturingPolicy?
  }

  /** The actions that show something. */
  predicate Telling(action: Action) {
    action.CheckVolume? || action.Seal? || action.ReadVolume? || action.ConfirmVolume? || action.ReadForRemove?
  }

  /** The other actions lead to no special stage, and a deletion of a volume on to its end only. */
  predicate Plain(s: State, t: State, c: nat)
    requires Claimed(s, c)
  {
    && |t.claims| == |s.claims| && t.claims[c].operation == s.claims[c].operation
    && !Special(t.claims[c].stage)
    && (Row(s, c).request.RemoveVolume? && Deletion.VolumeStage(s.claims[c].stage) ==>
          Deletion.VolumeStage(t.claims[c].stage) && (t.claims[c].stage.Cleaning? ==> s.claims[c].stage.Cleaning?))
    && (Row(s, c).request.Remove? && Deletion.RemoveStage(s.claims[c].stage) ==> Deletion.RemoveStage(t.claims[c].stage))
  }

  lemma CreatePlain(s: State, c: nat, lost: bool)
    requires At(s, c, Writing) && Row(s, c).request.Provisions()
    ensures Plain(s, DoCreateInstance(s, c, lost), c)
  {
  }

  lemma UpdatePlain(s: State, c: nat, lost: bool)
    requires At(s, c, Writing) && Row(s, c).request.Edits()
    ensures Plain(s, DoUpdateInstance(s, c, lost), c)
  {
  }

  lemma EndPlain(s: State, c: nat, action: Action)
    requires MayWork(s, c, action) && Ends(action)
    ensures Plain(s, DoWork(s, c, action), c)
  {
    EndsClaims(s, c, action);
    hide DoWork;
  }

  lemma RemovePlain(s: State, c: nat, action: Action)
    requires MayWork(s, c, action) && Removes(action) && !Telling(action)
    ensures Plain(s, DoWork(s, c, action), c)
  {
  }

  lemma ConfigurePlain(s: State, c: nat, action: Action)
    requires MayWork(s, c, action) && !Removes(action) && !Ends(action) && !Telling(action) && !action.Write?
    ensures Plain(s, DoWork(s, c, action), c)
  {
  }

  lemma WorkPlain(s: State, c: nat, action: Action)
    requires MayWork(s, c, action) && !Telling(action)
    ensures Plain(s, DoWork(s, c, action), c)
  {
    hide Plain, DoCreateInstance, DoUpdateInstance;
    if action.Write? {
      if Row(s, c).request.Provisions() { CreatePlain(s, c, action.lost); } else { UpdatePlain(s, c, action.lost); }
    } else {
      hide DoWork, MayWork;
      if Ends(action) { EndPlain(s, c, action); }
      else if Removes(action) { RemovePlain(s, c, action); }
      else { ConfigurePlain(s, c, action); }
    }
  }

  lemma TellingClaim(s: State, c: nat, action: Action)
    requires MayWork(s, c, action) && Telling(action)
    ensures
      var t := DoWork(s, c, action);
      && |t.claims| == |s.claims| && t.claims[c].operation == s.claims[c].operation
      && t.operations == s.operations
  {
  }

  lemma OwnBacked(steps: seq<Step>, s: State, c: nat, action: Action)
    requires steps != [] && Run(Initial, steps[..|steps| - 1]) && s == After(Initial, steps[..|steps| - 1])
    requires steps[|steps| - 1] == Work(c, action) && MayWork(s, c, action) && Backed(steps[..|steps| - 1], s, c)
    ensures Claimed(DoWork(s, c, action), c) && Backed(steps, DoWork(s, c, action), c)
  {
    var front, t := steps[..|steps| - 1], DoWork(s, c, action);
    forall fact | Shown(front, c, fact) ensures Shown(steps, c, fact) { ShownLater(steps, c, fact); }
    forall fact | Shows(s, Work(c, action), c, fact) ensures Shown(steps, c, fact) { ShownNow(steps, c, fact); }
    WorkRowEffect(s, c, action);
    var op := s.claims[c].operation;
    assert t.operations[op].request == s.operations[op].request;
    hide Shown, Run, After, DoWork;
    if Telling(action) {
      TellingBacked(steps, s, c, action);
    } else {
      WorkPlain(s, c, action);
    }
  }

  lemma TellingBacked(steps: seq<Step>, s: State, c: nat, action: Action)
    requires steps != [] && MayWork(s, c, action) && Telling(action) && Backed(steps[..|steps| - 1], s, c)
    requires forall fact | Shown(steps[..|steps| - 1], c, fact) :: Shown(steps, c, fact)
    requires forall fact | Shows(s, Work(c, action), c, fact) :: Shown(steps, c, fact)
    ensures Claimed(DoWork(s, c, action), c) && Backed(steps, DoWork(s, c, action), c)
  {
    TellingClaim(s, c, action);
    hide Shown, DoWork, VolumeToTake, VolumeToDelete, NoVolume;
    var request, step := Row(s, c).request, Work(c, action);
    match action {
      case CheckVolume =>
        CheckGoesOn(s, c);
        assert VolumeToTake(s, request) ==> Shows(s, step, c, VolumeWasThere(request));
      case Seal =>
        SealGoesOn(s, c);
        assert s.claims[c].payload ==> Shows(s, step, c, CredentialsWereAtHand);
      case ReadVolume =>
        ReadVolumeGoesOn(s, c);
        VolumeFound(s, request);
        assert VolumeToDelete(s, request) ==> Shows(s, step, c, VolumeWasRead(request, s.volume.value));
        assert NoVolume(s, request) ==> Shows(s, step, c, VolumeWasGone(request));
      case ConfirmVolume =>
        ConfirmGoesOn(s, c);
        assert s.instance.None? ==> Shows(s, step, c, ObjectWasAbsent);
      case ReadForRemove =>
        ReadGoesOn(s, c);
        assert s.instance.Some? ==> Shows(s, step, c, ObjectWasRead(s.instance.value));
    }
  }

  lemma VolumeFound(s: State, request: Request)
    requires request.RemoveVolume?
    ensures VolumeToDelete(s, request) ==> s.volume.Some?
  {
  }

  lemma TakenBacked(steps: seq<Step>, s: State, op: nat)
    requires CanTake(s, op)
    ensures var t := DoTake(s, op); Claimed(t, |s.claims|) && Backed(steps, t, |s.claims|)
  {
    hide Shown;
  }

  lemma OthersKept(s: State, step: Step, d: nat)
    requires Enabled(s, step) && d < |s.claims| && (step.Work? ==> step.c != d)
    ensures d < |Apply(s, step).claims| && Apply(s, step).claims[d] == s.claims[d]
  {
    if step.Work? {
      WorkClaims(s, step.c, step.action);
      hide DoWork;
    }
  }

  lemma NewClaims(s: State, step: Step)
    requires Enabled(s, step)
    ensures step.Take? || |Apply(s, step).claims| == |s.claims|
    ensures step.Take? ==> |Apply(s, step).claims| == |s.claims| + 1
  {
    if step.Work? {
      WorkClaims(s, step.c, step.action);
      hide DoWork;
    }
  }

  lemma {:induction false} RunBacks(steps: seq<Step>)
    requires Run(Initial, steps)
    ensures AllBacked(steps)
    decreases |steps|
  {
    if steps != [] {
      var front, step := steps[..|steps| - 1], steps[|steps| - 1];
      RunBacks(front);
      var s, t := After(Initial, front), After(Initial, steps);
      RowEffect(s, step);
      NewClaims(s, step);
      hide Run, After, Backed, Apply, Enabled;
      forall c | 0 <= c < |t.claims| ensures Claimed(t, c) && Backed(steps, t, c) {
        if step.Work? && step.c == c {
          Unfold(s, step);
          OwnBacked(steps, s, c, step.action);
        } else if c < |s.claims| {
          OthersKept(s, step, c);
          StillBacked(steps, s, t, c);
        } else {
          Unfold(s, step);
          TakenBacked(steps, s, step.op);
        }
      }
    }
  }

  lemma Unfold(s: State, step: Step)
    requires Enabled(s, step)
    ensures step.Work? ==> MayWork(s, step.c, step.action) && Apply(s, step) == DoWork(s, step.c, step.action)
    ensures step.Take? ==> CanTake(s, step.op) && Apply(s, step) == DoTake(s, step.op)
  {
  }

  // ----- Revocation

  /** What a claim at its conclusion still has to revoke, it has on its list; everything else it has revoked. */
  ghost predicate Revoking(steps: seq<Step>, s: State, c: nat)
    requires Claimed(s, c)
  {
    var claim, request := s.claims[c], Row(s, c).request;
    claim.stage.Cleaning? ==>
      && (request.Rotate? || request.Reclaim? ==>
            forall i | 0 <= i < |s.credentials| && Older(s.credentials, request.desired.secret, i) ::
              s.credentials[i] in claim.todo || Shown(steps, c, Revoked(s.credentials[i])))
      && (request.Remove? ==>
            forall i | 0 <= i < |s.credentials| && s.credentials[i] < claim.operation ::
              s.credentials[i] in claim.todo || Shown(steps, c, Revoked(s.credentials[i])))
  }

  /** Credentials are only appended, with the position of the operation accepted with them. */
  lemma CredentialsGrow(s: State, step: Step)
    requires Enabled(s, step)
    ensures Apply(s, step).credentials == s.credentials || Apply(s, step).credentials == s.credentials + [|s.operations|]
  {
    if step.Work? {
      WorkRest(s, step.c, step.action);
      hide DoWork;
    }
  }

  lemma StillRevoking(steps: seq<Step>, s: State, t: State, c: nat)
    requires steps != [] && Claimed(s, c) && Revoking(steps[..|steps| - 1], s, c) && Lineage.RequestInv(s, s.claims[c].operation, Row(s, c).request)
    requires c < |t.claims| && t.claims[c] == s.claims[c] && (Appended(s, t) || SameRequests(s, t))
    requires t.credentials == s.credentials || t.credentials == s.credentials + [|s.operations|]
    ensures Claimed(t, c) && Revoking(steps, t, c)
  {
    var front, request := steps[..|steps| - 1], Row(s, c).request;
    assert t.operations[t.claims[c].operation].request == request;
    forall fact | Shown(front, c, fact) ensures Shown(steps, c, fact) { ShownLater(steps, c, fact); }
    hide Shown;
    if request.Configures() {
      forall i | 0 <= i < |t.credentials| && Older(t.credentials, request.desired.secret, i)
        ensures i < |s.credentials| && Older(s.credentials, request.desired.secret, i)
      {
        OlderBefore(s.credentials, t.credentials, |s.operations|, request.desired.secret, i);
      }
    }
  }

  lemma OlderBefore(before: seq<nat>, after: seq<nat>, new': nat, secret: nat, i: nat)
    requires after == before || after == before + [new']
    requires secret != new' && i < |after| && Older(after, secret, i)
    ensures i < |before| && Older(before, secret, i)
  {
    if i < |before| {
      assert after[i + 1..] == before[i + 1..] || after[i + 1..] == before[i + 1..] + [new'];
      assert after[..i + 1] == before[..i + 1];
    }
  }

  /** How a claim gets to, or stays at, its conclusion. */
  lemma CleaningFrom(s: State, c: nat, action: Action)
    requires MayWork(s, c, action) && |DoWork(s, c, action).claims| == |s.claims| && DoWork(s, c, action).claims[c].stage.Cleaning?
    ensures
      || action.ListCredentials? || action.DropSecret? || action.ReadVolume?
      || (action.Verify? && !Row(s, c).request.Rotate? && !Row(s, c).request.Reclaim?)
    ensures action.DropSecret? ==> s.claims[c].stage.Cleaning? && DoWork(s, c, action).claims[c].todo == s.claims[c].todo - {action.secret}
  {
    hide DoWork;
    if Ends(action) { EndsClaims(s, c, action); }
    else if Writes(action) { WriteNotCleaning(s, c, action); }
    else if Removes(action) { if !action.ReadVolume? { RemoveNotCleaning(s, c, action); } }
    else { OtherCleaning(s, c, action); }
  }

  lemma WriteNotCleaning(s: State, c: nat, action: Action)
    requires MayWork(s, c, action) && Writes(action)
    ensures |DoWork(s, c, action).claims| == |s.claims| && !DoWork(s, c, action).claims[c].stage.Cleaning?
  {
    hide DoCreateInstance, DoUpdateInstance, DoApprove;
    if action.Write? {
      if Row(s, c).request.Provisions() { CreateNotCleaning(s, c, action.lost); } else { UpdateNotCleaning(s, c, action.lost); }
    } else if action.Approve? { ApproveNotCleaning(s, c, action.lost); }
  }

  lemma RemoveNotCleaning(s: State, c: nat, action: Action)
    requires MayWork(s, c, action) && Removes(action) && !action.ReadVolume?
    ensures |DoWork(s, c, action).claims| == |s.claims| && !DoWork(s, c, action).claims[c].stage.Cleaning?
  {
  }

  lemma OtherCleaning(s: State, c: nat, action: Action)
    requires MayWork(s, c, action) && !Ends(action) && !Writes(action) && !Removes(action)
    requires |DoWork(s, c, action).claims| == |s.claims| && DoWork(s, c, action).claims[c].stage.Cleaning?
    ensures
      || action.ListCredentials? || action.DropSecret?
      || (action.Verify? && !Row(s, c).request.Rotate? && !Row(s, c).request.Reclaim?)
    ensures action.DropSecret? ==> s.claims[c].stage.Cleaning? && DoWork(s, c, action).claims[c].todo == s.claims[c].todo - {action.secret}
  {
  }

  lemma CreateNotCleaning(s: State, c: nat, lost: bool)
    requires At(s, c, Writing) && Row(s, c).request.Provisions()
    ensures |DoCreateInstance(s, c, lost).claims| == |s.claims| && !DoCreateInstance(s, c, lost).claims[c].stage.Cleaning?
  {
  }

  lemma UpdateNotCleaning(s: State, c: nat, lost: bool)
    requires At(s, c, Writing) && Row(s, c).request.Edits()
    ensures |DoUpdateInstance(s, c, lost).claims| == |s.claims| && !DoUpdateInstance(s, c, lost).claims[c].stage.Cleaning?
  {
  }

  lemma ApproveNotCleaning(s: State, c: nat, lost: bool)
    requires MayWork(s, c, Approve(lost))
    ensures |DoApprove(s, c, lost).claims| == |s.claims| && !DoApprove(s, c, lost).claims[c].stage.Cleaning?
  {
  }

  lemma OwnRevoking(steps: seq<Step>, s: State, c: nat, action: Action)
    requires steps != [] && Run(Initial, steps[..|steps| - 1]) && s == After(Initial, steps[..|steps| - 1])
    requires steps[|steps| - 1] == Work(c, action) && MayWork(s, c, action)
    requires Revoking(steps[..|steps| - 1], s, c) && Backed(steps[..|steps| - 1], s, c)
    ensures Claimed(DoWork(s, c, action), c) && Revoking(steps, DoWork(s, c, action), c)
  {
    var front, t := steps[..|steps| - 1], DoWork(s, c, action);
    var request := Row(s, c).request;
    forall fact | Shown(front, c, fact) ensures Shown(steps, c, fact) { ShownLater(steps, c, fact); }
    if action.DropSecret? { ShownNow(steps, c, Revoked(action.secret)); }
    WorkRowEffect(s, c, action);
    WorkClaims(s, c, action);
    WorkRest(s, c, action);
    assert t.operations[s.claims[c].operation].request == request;
    hide Shown, Run, After, DoWork;
    if t.claims[c].stage.Cleaning? {
      CleaningFrom(s, c, action);
      if action.ListCredentials? {
        ListGoesOn(s, c);
      }
    }
  }

  ghost predicate AllRevoking(steps: seq<Step>)
    requires Run(Initial, steps)
  {
    var s := After(Initial, steps);
    forall c | 0 <= c < |s.claims| :: Claimed(s, c) && Revoking(steps, s, c)
  }

  lemma {:induction false} RunRevokes(steps: seq<Step>)
    requires Run(Initial, steps)
    ensures AllRevoking(steps)
    decreases |steps|
  {
    if steps != [] {
      var front, step := steps[..|steps| - 1], steps[|steps| - 1];
      RunRevokes(front);
      RunBacks(front);
      Lineage.RunKeeps(front);
      var s, t := After(Initial, front), After(Initial, steps);
      RowEffect(s, step);
      NewClaims(s, step);
      CredentialsGrow(s, step);
      hide Run, After, Revoking, Backed, Apply, Enabled, Identity.Base;
      forall c | 0 <= c < |t.claims| ensures Claimed(t, c) && Revoking(steps, t, c) {
        if step.Work? && step.c == c {
          Unfold(s, step);
          OwnRevoking(steps, s, c, step.action);
        } else if c < |s.claims| {
          OthersKept(s, step, c);
          assert Lineage.RequestInv(s, s.claims[c].operation, Row(s, c).request);
          StillRevoking(steps, s, t, c);
        } else {
          Unfold(s, step);
          TakenRevoking(steps, s, step.op);
        }
      }
    }
  }

  lemma TakenRevoking(steps: seq<Step>, s: State, op: nat)
    requires CanTake(s, op)
    ensures var t := DoTake(s, op); Claimed(t, |s.claims|) && Revoking(steps, t, |s.claims|)
  {
  }

  // ----- Main results

  /** A worker writes a version of the object only on evidence: a create or a reclaim only where none is there, an update or a
      rotation only on the version it was accepted for, which is not being deleted; new credentials were at hand and sealed
      before; and a reclaim has seen its volume, still with the earlier identity and not on its way out. */
  lemma WrittenOnEvidence(steps: seq<Step>, c: nat, lost: bool)
    requires Run(Initial, steps) && MayWork(After(Initial, steps), c, Write(lost))
    requires DoWork(After(Initial, steps), c, Write(lost)).instance != After(Initial, steps).instance
    ensures
      var s := After(Initial, steps);
      var request := Row(s, c).request;
      && (request.Create? || request.Reclaim? ==> s.instance.None?)
      && (request.Update? || request.Rotate? ==>
            && s.instance.Some? && !s.instance.value.deleting
            && s.instance.value.uid == request.expectedUid && s.instance.value.generation == request.expectedGeneration)
      && (!request.Update? ==> Shown(steps, c, CredentialsWereAtHand))
      && (request.Reclaim? ==> Shown(steps, c, VolumeWasThere(request)))
  {
    RunBacks(steps);
    var s := After(Initial, steps);
    assert Backed(steps, s, c);
    hide Run, After, Shown;
    WriteNeeds(s, c, lost);
  }

  lemma WriteNeeds(s: State, c: nat, lost: bool)
    requires MayWork(s, c, Write(lost)) && DoWork(s, c, Write(lost)).instance != s.instance
    ensures Row(s, c).request.Provisions() ==> s.instance.None?
    ensures Row(s, c).request.Edits() ==> s.instance.Some? && !s.instance.value.deleting && Expects(Row(s, c).request, s.instance.value)
  {
  }

  /** A worker marks a volume as deleted only if in the same claim it has read just this volume, under the identity and with the
      binding it was asked for, and after that has found no object. */
  lemma VolumeDeletedOnEvidence(steps: seq<Step>, c: nat, action: Action)
    requires Run(Initial, steps) && MayWork(After(Initial, steps), c, action)
    requires DoWork(After(Initial, steps), c, action).volume != After(Initial, steps).volume
    ensures
      var s := After(Initial, steps);
      && Row(s, c).request.RemoveVolume? && s.volume.Some?
      && DoWork(s, c, action).volume == Some(s.volume.value.(deleting := true))
      && Shown(steps, c, VolumeWasRead(Row(s, c).request, s.volume.value)) && Shown(steps, c, ObjectWasAbsent)
  {
    RunBacks(steps);
    var s := After(Initial, steps);
    assert Backed(steps, s, c);
    hide Run, After, Shown;
    VolumeWrite(s, c, action);
  }

  lemma VolumeWrite(s: State, c: nat, action: Action)
    requires MayWork(s, c, action) && DoWork(s, c, action).volume != s.volume
    ensures action.IssueVolumeDelete? && s.volume.Some? && s.volume == s.claims[c].volume
    ensures DoWork(s, c, action).volume == Some(s.volume.value.(deleting := true))
  {
    hide MayWork;
    if Removes(action) { VolumeRemoval(s, c, action); }
    else if Ends(action) { VolumeEnd(s, c, action); }
    else { VolumeConfigure(s, c, action); }
  }

  lemma VolumeRemoval(s: State, c: nat, action: Action)
    requires MayWork(s, c, action) && Removes(action) && DoWork(s, c, action).volume != s.volume
    ensures action.IssueVolumeDelete? && s.volume.Some? && s.volume == s.claims[c].volume
    ensures DoWork(s, c, action).volume == Some(s.volume.value.(deleting := true))
  {
  }

  lemma VolumeEnd(s: State, c: nat, action: Action)
    requires MayWork(s, c, action) && Ends(action)
    ensures DoWork(s, c, action).volume == s.volume
  {
  }

  lemma VolumeConfigure(s: State, c: nat, action: Action)
    requires MayWork(s, c, action) && !Removes(action) && !Ends(action)
    ensures DoWork(s, c, action).volume == s.volume
  {
  }

  /** The deletion of a volume succeeds only after the worker has found it gone, with the binding it was asked for. */
  lemma VolumeReportedGone(steps: seq<Step>, c: nat)
    requires Run(Initial, steps) && MayWork(After(Initial, steps), c, Succeed) && Row(After(Initial, steps), c).request.RemoveVolume?
    ensures Shown(steps, c, VolumeWasGone(Row(After(Initial, steps), c).request))
  {
    RunBacks(steps);
    assert Backed(steps, After(Initial, steps), c);
  }

  /** The policy a delete records is that of a version of its own object which the same claim has read. */
  lemma PolicyOnEvidence(steps: seq<Step>, c: nat)
    requires Run(Initial, steps) && MayWork(After(Initial, steps), c, CapturePolicy)
    ensures
      var s := After(Initial, steps);
      var v, request := s.claims[c].answer.value, Row(s, c).request;
      && request.Remove? && v.uid == request.uid && Shown(steps, c, ObjectWasRead(v))
      && (Leased(s, c) ==> Row(DoWork(s, c, CapturePolicy), c).policy == Some(v.spec.policy))
      && (!Leased(s, c) ==> DoWork(s, c, CapturePolicy).operations == s.operations)
  {
    RunBacks(steps);
    assert Backed(steps, After(Initial, steps), c);
    hide Run, After, Shown;
  }

  /** A rotation or a reclaim succeeds only after its claim has revoked every credential that was inserted before the new one, a
      delete only after its claim has revoked every credential that was there when it was accepted. */
  lemma RevokedBeforeSuccess(steps: seq<Step>, c: nat, i: nat)
    requires Run(Initial, steps) && MayWork(After(Initial, steps), c, Succeed) && i < |After(Initial, steps).credentials|
    requires
      var s := After(Initial, steps);
      var request := Row(s, c).request;
      || ((request.Rotate? || request.Reclaim?) && Older(s.credentials, request.desired.secret, i))
      || (request.Remove? && s.credentials[i] < s.claims[c].operation)
    ensures Shown(steps, c, Revoked(After(Initial, steps).credentials[i]))
  {
    RunRevokes(steps);
    assert Revoking(steps, After(Initial, steps), c);
  }
}
