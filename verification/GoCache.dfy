/**
 The Go cache server: an index in memory, a byte account and a directory, kept in step through
 uploads, replacement, eviction, failing file operations, crashes and restarts.

 `log` records every state the directory has been in, one for each file operation, together with
 the artifacts committed at that moment; a crash is a cut at any of them.
 */
module GoCache {
  import opened Wrappers
  import opened Envelope
  import opened Sums
  import opened Directory
  import opened Recency

  datatype Artifact = Artifact(meta: Metadata, accessed: int)

  datatype Snapshot = Snapshot(files: Files, stored: map<string, Stored>)

  function AccessTimes(entries: map<string, Artifact>): map<string, int> {
    map k | k in entries :: entries[k].accessed
  }

  /** The order of eviction is that of the last accesses. */
  lemma TimesAreAccesses(entries: map<string, Artifact>, key: string)
    ensures key in AccessTimes(entries) <==> key in entries
    ensures key in entries ==> AccessTimes(entries)[key] == entries[key].accessed
  {
  }

  datatype Outcome = Done | CapacityExceeded | StorageFailed

  ghost function WithoutFiles(env: Env, d: Files, victims: seq<string>): Files {
    d - (set k | k in victims :: Entry(env.hash(k)))
  }

  /** There is room for `incoming` more bytes and, when one is added, for one more entry. */
  predicate Room(limits: Limits, used: int, count: int, incoming: int, adding: bool) {
    used <= limits.maxTotal - incoming && (count < MaxEntries || (!adding && count <= MaxEntries))
  }

  /** The index, the account and the directory agree. */
  ghost predicate Agree(env: Env, limits: Limits, files: Files, entries: map<string, Artifact>, used: int, stored: map<string, Stored>) {
    && Represents(env, files, stored) && Clean(env, limits.maxEntry, files)
    && entries.Keys == stored.Keys
    && (forall k | k in entries :: entries[k].meta == stored[k].meta)
    && used == EntryBytes(files)
  }

  lemma RemovedAgree(env: Env, limits: Limits, files: Files, entries: map<string, Artifact>, used: int, stored: map<string, Stored>, key: string)
    requires Lawful(env) && Agree(env, limits, files, entries, used, stored) && key in entries
    ensures Agree(env, limits, files - {Entry(env.hash(key))}, entries - {key}, used - (entries[key].meta.size + HeaderSize), stored - {key})
    ensures |entries - {key}| == |entries| - 1
    ensures entries[key].meta.size >= 0
  {
    hide Represents, Acceptable, EntryBytes, Lawful, Sizes, Sum;
    Dropped(env, files, stored, key);
    StoredMeta(env, files, stored, key);
    SizeWithout(entries, key);
  }

  /** A directory state that holds no more than `bytes` bytes of artifacts and `count` of them, all recoverable. */
  ghost predicate Recoverable(env: Env, limits: Limits, s: Snapshot, bytes: int, count: int) {
    && Represents(env, s.files, s.stored) && Clean(env, limits.maxEntry, s.files)
    && EntryBytes(s.files) <= bytes && |s.stored| <= count
  }

  lemma AgreeRecoverable(env: Env, limits: Limits, files: Files, entries: map<string, Artifact>, used: int, stored: map<string, Stored>)
    requires Agree(env, limits, files, entries, used, stored)
    ensures |entries| == |stored| && Recoverable(env, limits, Snapshot(files, stored), used, |entries|)
  {
    hide Represents, Clean, EntryBytes;
    assert |entries.Keys| == |entries| && |stored.Keys| == |stored|;
  }

  lemma WithoutOneFile(env: Env, d: Files, victims: seq<string>, k: string)
    ensures WithoutFiles(env, d, victims + [k]) == WithoutFiles(env, d, victims) - {Entry(env.hash(k))}
  {
    assert forall x | x in victims + [k] :: x in victims || x == k;
    assert forall x | x in victims :: x in victims + [k];
    assert k in victims + [k];
  }

  lemma StoredMeta(env: Env, d: Files, m: map<string, Stored>, k: string)
    requires Represents(env, d, m) && k in m
    ensures m[k].meta.size == |m[k].body| && m[k].meta.key == k
  {
  }

  /** A header and a body of the largest size, and one byte more when a body was longer than announced. */
  function StagingLimit(limits: Limits, excess: bool): int {
    HeaderSize + limits.maxEntry + (if excess then 1 else 0)
  }

  /** A crash in this state loses nothing that is committed, and the disk holds what it is planned for. */
  ghost predicate Sane(env: Env, limits: Limits, excess: bool, s: Snapshot) {
    Restartable(env, limits, s.files, s.stored) && DiskUse(s.files) <= limits.maxTotal + StagingLimit(limits, excess)
  }

  /** Which file operations of one request fail: making the staging file, writing it after so many bytes of the body, syncing
      it, the rename, the sync of the directory afterwards, opening, stamping, and the removal of artifacts. */
  datatype Faults = Faults(
    create: bool, write: Option<nat>, sync: bool, rename: bool, directory: bool, open: bool, touch: bool, removing: set<string>)

  const NoFaults: Faults := Faults(false, None, false, false, false, false, false, {})

  /** What a PUT says about its body; an uncompressed size that is no number is none. */
  datatype Announced = Announced(
    contentLength: int,
    once: bool,
    outputId: string,
    md5: string,
    digest: string,
    compression: string,
    uncompressedSize: Option<int>,
    contentEncoding: bool)

  function MetadataOf(key: string, h: Announced, now: int): Metadata
    requires h.uncompressedSize.Some?
  {
    Metadata(key, h.contentLength, h.digest, h.md5, h.outputId, h.compression, h.uncompressedSize.value, now)
  }

  predicate Announceable(limits: Limits, key: string, h: Announced, now: int) {
    && 0 <= h.contentLength <= limits.maxEntry && h.once && h.uncompressedSize.Some? && !h.contentEncoding
    && h.uncompressedSize.value <= limits.maxEntry && ValidMetadata(MetadataOf(key, h, now))
  }

  /** The announced body is too large, or with proper metadata the content it unpacks to. */
  predicate TooLarge(limits: Limits, key: string, h: Announced, now: int) {
    && 0 <= h.contentLength
    && (|| h.contentLength > limits.maxEntry
        || (h.once && h.uncompressedSize.Some? && ValidMetadata(MetadataOf(key, h, now)) && h.uncompressedSize.value > limits.maxEntry))
  }

  /** An upload without any fault of the storage is staged exactly if this holds. */
  ghost predicate Accepted(env: Env, limits: Limits, key: string, h: Announced, body: seq<byte>, now: int) {
    && Announceable(limits, key, h, now) && Fits(env, MetadataOf(key, h, now))
    && |body| == h.contentLength && h.digest == env.sha256(body) && h.md5 == env.md5(body)
  }

  /** The staging file holds the whole envelope of `a` with this body, fit to be published. */
  ghost predicate Staged(env: Env, limits: Limits, files: Files, slot: Option<nat>, a: Artifact, body: seq<byte>) {
    && slot.Some? && Upload(slot.value) in files
    && Read(env, files[Upload(slot.value)].content) == Some(Stored(a.meta, body))
    && a.meta.size <= limits.maxEntry && a.meta.uncompressedSize <= limits.maxEntry
  }

  /** `index` has the artifacts of `d`, each last used when its file was last changed. */
  ghost predicate Indexes(env: Env, d: Files, index: map<string, Artifact>) {
    && (forall k | k in index ::
          && Entry(env.hash(k)) in d && index[k].accessed == d[Entry(env.hash(k))].modified
          && Read(env, d[Entry(env.hash(k))].content).Some? && Read(env, d[Entry(env.hash(k))].content).value.meta == index[k].meta)
    && (forall n | n in d && n.Entry? :: exists k :: k in index && n == Entry(env.hash(k)))
  }

  ghost predicate Timed(env: Env, d: Files, index: map<string, Artifact>) {
    forall k | k in index :: Entry(env.hash(k)) in d && index[k].accessed == d[Entry(env.hash(k))].modified
  }

  lemma TimedIndexes(env: Env, limits: Limits, d: Files, index: map<string, Artifact>, used: int, stored: map<string, Stored>)
    requires Timed(env, d, index) && Agree(env, limits, Entries(d), index, used, stored)
    ensures Indexes(env, d, index)
  {
    hide Read;
    forall n | n in d && n.Entry? ensures exists k :: k in index && n == Entry(env.hash(k)) {
      assert n in Entries(d);
      var k := Read(env, d[n].content).value.meta.key;
      assert k in index;
    }
    forall k | k in index ensures Read(env, d[Entry(env.hash(k))].content) == Some(stored[k]) { assert Entry(env.hash(k)) in Entries(d); }
  }

  const ChunkSize: nat := 32768

  /** A GET of this key at this time. */
  datatype Request = Request(key: string, now: int, faults: Faults)

  datatype Answer = Answer(status: int, response: Option<Stored>)

  /** What a GET has to answer while these artifacts are committed. */
  ghost function AnswerTo(q: Request, stored: map<string, Stored>): Answer {
    if q.key !in stored then Answer(404, None)
    else if q.faults.open then Answer(503, None)
    else Answer(200, Some(stored[q.key]))
  }

  ghost predicate Answered(requests: seq<Request>, answers: seq<Answer>, stored: map<string, Stored>) {
    |answers| == |requests| && forall i | 0 <= i < |answers| :: answers[i] == AnswerTo(requests[i], stored)
  }

  /** The batches that were served, each of them with what is committed. */
  ghost predicate AllAnswered(batches: seq<seq<Request>>, answers: seq<seq<Answer>>, stored: map<string, Stored>) {
    |answers| <= |batches| && forall k | 0 <= k < |answers| :: Answered(batches[k], answers[k], stored)
  }

  function Touch(d: Files, n: FileName, now: int): Files {
    if n in d then d[n := d[n].(modified := now)] else d
  }

  /** The same files, except for the times of artifacts where there were reads. */
  ghost predicate Restamped(d: Files, d': Files, served: bool) {
    && d'.Keys == d.Keys
    && forall n | n in d :: d'[n].content == d[n].content && (n.Upload? || !served ==> d'[n] == d[n])
  }

  /** `log'` goes on from `log` with states in which these artifacts are committed. */
  ghost predicate Extended(log: seq<Snapshot>, log': seq<Snapshot>, stored: map<string, Stored>) {
    log <= log' && forall i | |log| <= i < |log'| :: log'[i].stored == stored
  }

  lemma ExtendedTwice(log: seq<Snapshot>, log': seq<Snapshot>, log'': seq<Snapshot>, stored: map<string, Stored>)
    requires Extended(log, log', stored) && Extended(log', log'', stored)
    ensures Extended(log, log'', stored)
  {
  }

  lemma ExtendedBy(log: seq<Snapshot>, s: Snapshot, stored: map<string, Stored>)
    ensures Extended(log, log, stored)
    ensures s.stored == stored ==> Extended(log, log + [s], stored)
  {
  }

  lemma RestampedTwice(d: Files, d': Files, d'': Files, first: bool, second: bool)
    requires Restamped(d, d', first) && Restamped(d', d'', second)
    ensures Restamped(d, d'', first || second) && Restamped(d, d'', true)
  {
  }

  lemma RestampedTouch(d: Files, n: FileName, now: int)
    ensures Restamped(d, d, false) && Restamped(d, d, true)
    ensures n.Entry? ==> Restamped(d, Touch(d, n, now), true)
  {
  }

  lemma RestampedUpload(d: Files, d': Files, served: bool, n: FileName)
    requires Restamped(d, d', served) && n.Upload?
    ensures n in d <==> n in d'
    ensures n in d ==> d'[n] == d[n]
    ensures Restamped(d - {n}, d' - {n}, served)
  {
  }

  lemma NoneAnswered(batches: seq<seq<Request>>, stored: map<string, Stored>)
    ensures AllAnswered(batches, [], stored)
  {
  }

  lemma AnsweredMore(batches: seq<seq<Request>>, answers: seq<seq<Answer>>, batch: seq<Answer>, stored: map<string, Stored>)
    requires AllAnswered(batches, answers, stored) && |answers| < |batches| && Answered(batches[|answers|], batch, stored)
    ensures AllAnswered(batches, answers + [batch], stored)
  {
  }

  class Server {
    const env: Env
    const limits: Limits
    var files: Files
    var entries: map<string, Artifact>
    var used: int
    var slot: Option<nat>
    ghost var stored: map<string, Stored>
    ghost var latest: map<string, Stored>
    ghost var log: seq<Snapshot>
    ghost var excess: bool

    constructor (env: Env, limits: Limits, files: Files)
      ensures this.env == env && this.limits == limits && this.files == files
      ensures entries == map[] && used == 0 && slot.None? && stored == map[] && latest == map[] && log == [] && !excess
    {
      this.env, this.limits, this.files := env, limits, files;
      entries, used, slot := map[], 0, None;
      stored, latest, log, excess := map[], map[], [], false;
    }

    ghost predicate Indexed()
      reads this
    {
      && Lawful(env) && limits.Valid()
      && Agree(env, limits, files, entries, used, stored)
      && (forall k | k in stored :: k in latest && latest[k] == stored[k])
    }

    ghost predicate Valid()
      reads this
    {
      && Indexed()
      && used <= limits.maxTotal && |entries| <= MaxEntries
      && OneUpload(files, slot, StagingLimit(limits, excess))
      && forall i | 0 <= i < |log| :: Sane(env, limits, excess, log[i])
    }

    /** Taking one artifact out of the directory and of the index. */
    method Remove(key: string, fails: bool) returns (ok: bool)
      requires Indexed() && key in entries
      modifies this`files, this`entries, this`used, this`stored
      ensures Indexed()
      ensures ok <==> !fails
      ensures ok ==> files == old(files) - {Entry(env.hash(key))} && entries == old(entries) - {key} && stored == old(stored) - {key} &&
                     used < old(used) && |entries| == |old(entries)| - 1
      ensures !ok ==> files == old(files) && entries == old(entries) && stored == old(stored) && used == old(used)
    {
      hide Agree, Lawful, Limits.Valid, EntryBytes, Sum;
      if fails { return false; }
      RemovedAgree(env, limits, files, entries, used, stored, key);
      files := files - {Entry(env.hash(key))};
      used := used - (entries[key].meta.size + HeaderSize);
      entries := entries - {key};
      stored := stored - {key};
      return true;
    }

    /** Giving up the oldest artifacts, except the one under `keep`, until there is room. */
    method EvictLocked(incoming: nat, keep: string, adding: bool, removing: set<string>)
      returns (outcome: Outcome, ghost order: seq<string>, ghost n: nat, ghost steps: seq<Snapshot>)
      requires Indexed()
      modifies this`files, this`entries, this`used, this`stored
      ensures Indexed()
      ensures Ordered(AccessTimes(old(entries)), order)
      ensures forall k :: k in order <==> k in old(entries) && k != keep
      ensures n <= |order|
      ensures LeastRecent(AccessTimes(old(entries)), keep, order[..n])
      ensures files == WithoutFiles(env, old(files), order[..n])
      ensures entries == Without(old(entries), order[..n]) && stored == Without(old(stored), order[..n])
      ensures forall m | 0 <= m < n :: Crowded(env, limits, old(files), old(entries), order[..m], incoming, adding)
      ensures outcome.Done? ==> Room(limits, used, |entries|, incoming, adding)
      ensures outcome.CapacityExceeded? ==> n == |order| && used > limits.maxTotal - incoming
      ensures outcome.StorageFailed? ==> n < |order| && order[n] in removing
      ensures forall i | 0 <= i < n :: order[i] !in removing
      ensures used <= old(used) && |entries| <= |old(entries)|
      ensures |steps| == n
      ensures forall i | 0 <= i < n ::
                GivenUp(env, limits, old(files), old(stored), order[..i + 1], steps[i], old(used), |old(entries)|)
    {
      hide Agree, Lawful, Limits.Valid, EntryBytes, Sum, Ordered, Recoverable, WithoutFiles, Without, LeastRecent;
      var accessed := AccessTimes(entries);
      var queue := Sort(accessed, entries.Keys - {keep});
      forall m: nat | m <= |queue| ensures LeastRecent(accessed, keep, queue[..m]) { OrderedLeastRecent(accessed, keep, queue, m); }
      order, n, steps := queue, 0, [];
      AgreeRecoverable(env, limits, files, entries, used, stored);
      var i := 0;
      NoVictims(env, files);
      NobodyGone(entries);
      NobodyGone(stored);
      while i < |queue|
        invariant 0 <= i <= |queue| && n == i == |steps|
        invariant Indexed()
        invariant files == WithoutFiles(env, old(files), queue[..i])
        invariant entries == Without(old(entries), queue[..i]) && stored == Without(old(stored), queue[..i])
        invariant used <= old(used) && |entries| <= |old(entries)|
        invariant forall j | 0 <= j < i :: queue[j] !in removing
        invariant forall m | 0 <= m < i :: Crowded(env, limits, old(files), old(entries), queue[..m], incoming, adding)
        invariant forall j | 0 <= j < i ::
                    GivenUp(env, limits, old(files), old(stored), queue[..j + 1], steps[j], old(used), |old(entries)|)
      {
        AgreeUsed(env, limits, files, entries, used, stored);
        if Room(limits, used, |entries|, incoming, adding) { return Done, order, n, steps; }
        assert Crowded(env, limits, old(files), old(entries), queue[..i], incoming, adding);
        hide Crowded;
        StillThere(accessed, old(entries), queue, i);
        var ok := Remove(queue[i], queue[i] in removing);
        if !ok { return StorageFailed, order, n, steps; }
        OneVictim(env, old(files), old(entries), old(stored), queue, i);
        OneStep(env, limits, old(files), old(stored), queue[..i + 1], files, entries, used, stored, old(used), |old(entries)|);
        hide GivenUp;
        steps := steps + [Snapshot(files, stored)];
        i, n := i + 1, i + 1;
      }
      if used > limits.maxTotal - incoming { return CapacityExceeded, order, n, steps; }
      assert queue[..i] == queue;
      AllGone(old(entries), queue, keep);
      AtMostOne(entries, keep);
      return Done, order, n, steps;
    }

    /** Indexing every complete artifact and removing what interrupted uploads have left. */
    method Load(failing: set<FileName>) returns (ok: bool, ghost faulted: bool, ghost crashes: seq<Files>)
      requires Lawful(env) && limits.Valid()
      requires entries == map[] && used == 0 && stored == map[]
      modifies this`files, this`entries, this`used, this`stored
      ensures !faulted ==> (ok <==> Clean(env, limits.maxEntry, old(files)))
      ensures faulted ==> exists n | n in old(files) :: n in failing
      ensures ok ==> !faulted && files == Entries(old(files)) && Agree(env, limits, files, entries, used, stored)
      ensures ok ==> Timed(env, old(files), entries)
      ensures forall i | 0 <= i < |crashes| :: Tidied(old(files), crashes[i])
    {
      hide Acceptable, Agree, Lawful, Entries, Loaded;
      faulted, crashes := false, [];
      var rest := files.Keys;
      NothingLoaded(env, limits, files);
      while rest != {}
        invariant rest <= old(files).Keys && !faulted
        invariant Tidied(old(files), files) && forall n | n in files && n.Upload? :: n in rest
        invariant forall n | n in old(files) && n !in rest :: n.Upload? || Acceptable(env, limits.maxEntry, n, old(files)[n].content)
        invariant Agree(env, limits, Loaded(old(files), rest), entries, used, stored) && Timed(env, old(files), entries)
        invariant forall i | 0 <= i < |crashes| :: Tidied(old(files), crashes[i])
        decreases |rest|
      {
        var n :| n in rest;
        if n in failing { return false, true, crashes; }
        if n.Upload? {
          files := files - {n};
          crashes := crashes + [files];
          LoadNone(old(files), rest, n);
        } else {
          var file := files[n];
          if !Acceptable(env, limits.maxEntry, n, file.content) { return false, false, crashes; }
          var a := Meta(env, limits.maxEntry, n, file.content);
          LoadOne(env, limits, old(files), rest, n, entries, used, stored, file.modified);
          assert n == Entry(env.hash(a.key)) by { NamedByKey(env, limits.maxEntry, n, file.content); }
          entries := entries[a.key := Artifact(a, file.modified)];
          used := used + a.size + HeaderSize;
          stored := stored[a.key := Read(env, file.content).value];
        }
        rest := rest - {n};
      }
      AllLoaded(env, limits.maxEntry, old(files), files);
      return true, false, crashes;
    }

    /** What a starting process does with the directory it finds. */
    method Recover(failing: set<FileName>, removing: set<string>)
      returns (ok: bool, ghost faulted: bool, ghost crashes: seq<Files>, ghost index: map<string, Artifact>, ghost victims: seq<string>)
      requires Lawful(env)
      requires entries == map[] && used == 0 && slot.None? && stored == map[] && latest == map[] && log == [] && !excess
      modifies this
      ensures limits.Valid() && !faulted ==> (ok <==> Clean(env, limits.maxEntry, old(files)))
      ensures failing == {} && removing == {} ==> !faulted
      ensures ok ==> slot.None?
      ensures ok ==> Valid()
      ensures ok ==> Indexes(env, old(files), index) && entries == Without(index, victims) && LeastRecent(AccessTimes(index), "", victims)
      ensures forall m | limits.Valid() && Restartable(env, limits, old(files), m) ::
                && (ok ==> stored == m && files == Entries(old(files)))
                && forall i | 0 <= i < |crashes| :: Restartable(env, limits, crashes[i], m)
    {
      hide Agree, Clean, Lawful, EntryBytes, Entries, Restartable, Sane, Tidied, Sum, WithoutFiles, Without, GivenUp, Crowded, Ordered, Represents, Indexes, Timed, LeastRecent;
      faulted, crashes, index, victims := false, [], map[], [];
      if !limits.Valid() { return false, false, [], map[], []; }
      ok, faulted, crashes := Load(failing);
      ghost var d := old(files);
      forall m, i | Restartable(env, limits, d, m) && 0 <= i < |crashes| ensures Restartable(env, limits, crashes[i], m) {
        TidiedRestartable(env, limits, d, crashes[i], m);
      }
      if !ok { return; }
      latest := stored;
      ghost var found := stored;
      index := entries;
      TimedIndexes(env, limits, d, entries, used, stored);
      forall m | Restartable(env, limits, d, m)
        ensures stored == m && !Crowded(env, limits, files, entries, [], 0, false)
      {
        Undisturbed(env, limits, d, entries, used, stored, m);
      }
      var outcome, order, n, steps := EvictLocked(0, "", false, removing);
      victims := order[..n];
      if n == 0 { NoVictims(env, Entries(d)); NobodyGone(index); NobodyGone(found); }
      assert order[..0] == [];
      assert n > 0 ==> Crowded(env, limits, Entries(d), index, [], 0, false);
      assert n == 0 ==> files == Entries(d) && stored == found;
      if outcome.StorageFailed? { return false, true, crashes, index, victims; }
      if outcome.CapacityExceeded? {
        assert order[..n] == order;
        AllGone(index, order, "");
        NothingLeft(env, limits, files, entries, used, stored);
      }
      assert OneUpload(files, None, StagingLimit(limits, false)) by { NoUploads(env, d, order[..n]); }
      SaneState(env, limits, files, entries, used, stored, None, false);
      slot, excess := None, false;
      log := [Snapshot(files, stored)];
      return true, false, crashes, index, victims;
    }

    /** Reading one artifact; a hit moves it to the end of the order. */
    method Get(key: string, now: int, faults: Faults) returns (status: int, response: Option<Stored>)
      requires Valid()
      modifies this`files, this`entries, this`log
      ensures Valid()
      ensures status == if key !in old(entries) then 404 else if faults.open then 503 else 200
      ensures status == 200 ==> key in latest && response == Some(latest[key])
      ensures status != 200 ==> response.None?
      ensures Answer(status, response) == AnswerTo(Request(key, now, faults), stored)
      ensures entries == if status == 200 then old(entries)[key := old(entries)[key].(accessed := now)] else old(entries)
      ensures Extended(old(log), log, stored)
      ensures files == if status == 200 && !faults.touch then Touch(old(files), Entry(env.hash(key)), now) else old(files)
    {
      hide Agree, Lawful, Sane, Read;
      AgreeMeta(env, limits, files, entries, used, stored);
      if key !in entries { return 404, None; }
      var a := entries[key];
      StoredFile(env, limits, files, entries, used, stored, key);
      if faults.open { return 503, None; }
      var name := Entry(env.hash(key));
      var current := Read(env, files[name].content);
      if current.None? || current.value.meta != a.meta { return 503, None; }
      Accessed(env, limits, files, entries, used, stored, key, now);
      entries := entries[key := a.(accessed := now)];
      if !faults.touch {
        Touched(env, limits, files, entries, used, stored, key, now);
        files := files[name := files[name].(modified := now)];
        SaneState(env, limits, files, entries, used, stored, slot, excess);
        log := log + [Snapshot(files, stored)];
      }
      return 200, current;
    }

    /** A sequence of reads: each is answered with what is committed. */
    method ReadAll(requests: seq<Request>) returns (answers: seq<Answer>)
      requires Valid()
      modifies this`files, this`entries, this`log
      ensures Valid()
      ensures Answered(requests, answers, stored)
      ensures Restamped(old(files), files, requests != [])
      ensures entries.Keys == old(entries).Keys
      ensures Extended(old(log), log, stored)
    {
      hide Server.Valid, AnswerTo, Restamped, Extended, Touch;
      answers := [];
      RestampedTouch(files, Upload(0), 0);
      ExtendedBy(log, Snapshot(files, stored), stored);
      for i := 0 to |requests|
        invariant Valid() && |answers| == i
        invariant forall j | 0 <= j < i :: answers[j] == AnswerTo(requests[j], stored)
        invariant Restamped(old(files), files, i > 0)
        invariant entries.Keys == old(entries).Keys
        invariant Extended(old(log), log, stored)
      {
        ghost var d, before := files, log;
        var q := requests[i];
        var status, response := Get(q.key, q.now, q.faults);
        RestampedTouch(d, Entry(env.hash(q.key)), q.now);
        RestampedTwice(old(files), d, files, i > 0, files != d);
        ExtendedTwice(old(log), before, log, stored);
        answers := answers + [Answer(status, response)];
      }
    }

    // ----- The one staging file

    method WriteStaging(content: seq<byte>, now: int)
      requires Valid() && slot.Some? && |content| <= StagingLimit(limits, excess)
      modifies this`files, this`log
      ensures Valid()
      ensures files == old(files)[Upload(slot.value) := File(content, now)]
      ensures log == old(log) + [Snapshot(files, stored)] && Extended(old(log), log, stored)
    {
      hide Agree, Lawful, Sane;
      Staging(env, limits, files, entries, used, stored, Upload(slot.value), File(content, now));
      files := files[Upload(slot.value) := File(content, now)];
      SaneState(env, limits, files, entries, used, stored, slot, excess);
      log := log + [Snapshot(files, stored)];
    }

    method DropStaging()
      requires Valid() && slot.Some?
      modifies this`files, this`log, this`slot
      ensures Valid() && slot.None?
      ensures files == old(files) - {Upload(old(slot).value)}
      ensures log == old(log) + [Snapshot(files, stored)] && Extended(old(log), log, stored)
    {
      hide Agree, Lawful, Sane;
      Unstaging(env, limits, files, entries, used, stored, Upload(slot.value));
      files := files - {Upload(slot.value)};
      slot := None;
      SaneState(env, limits, files, entries, used, stored, slot, excess);
      log := log + [Snapshot(files, stored)];
    }

    method CheckHeaders(key: string, h: Announced, now: int) returns (status: int)
      ensures status in {200, 400, 411, 413}
      ensures status == 200 <==> Announceable(limits, key, h, now)
      ensures status == 411 <==> h.contentLength < 0
      ensures status == 413 <==> TooLarge(limits, key, h, now)
    {
      if h.contentLength < 0 { return 411; }
      if h.contentLength > limits.maxEntry { return 413; }
      if !h.once || h.uncompressedSize.None? || !ValidMetadata(MetadataOf(key, h, now)) { return 400; }
      if h.uncompressedSize.value > limits.maxEntry { return 413; }
      if h.contentEncoding { return 400; }
      return 200;
    }

    /** Receiving an upload into the staging file, without the lock: between any two chunks a batch of reads may be served. */
    method Stage(key: string, h: Announced, body: seq<byte>, id: nat, now: int, faults: Faults, between: seq<seq<Request>>)
      returns (status: int, artifact: Option<Artifact>, answers: seq<seq<Answer>>, ghost faulted: bool)
      requires Valid() && slot.None? && ValidKey(key)
      modifies this`files, this`entries, this`log, this`slot, this`excess
      ensures Valid()
      ensures AllAnswered(between, answers, stored) && entries.Keys == old(entries).Keys
      ensures artifact.None? ==> slot.None? && Restamped(old(files), files, between != []) && status != 200
      ensures artifact.Some? ==>
        && status == 200 && h.uncompressedSize.Some? && artifact.value.meta == MetadataOf(key, h, now) && slot == Some(id)
        && Staged(env, limits, files, slot, artifact.value, body) && Restamped(old(files), files - {Upload(id)}, between != [])
      ensures !faulted ==> (artifact.Some? <==> Accepted(env, limits, key, h, body, now))
      ensures status in {200, 400, 411, 413, 503}
      ensures status == 411 <==> h.contentLength < 0
      ensures status == 413 <==> TooLarge(limits, key, h, now)
      ensures status == 503 ==> faulted
      ensures faulted ==> artifact.None? && (faults.create || faults.write.Some? || faults.sync)
      ensures old(excess) ==> excess
      ensures excess ==> old(excess) || |body| > h.contentLength
      ensures Extended(old(log), log, stored)
    {
      Facts();
      hide Server.Valid, Read, Fits, ValidMetadata, Staged, Announceable, TooLarge, Restamped, Extended, AllAnswered, Lawful;
      RestampedTouch(files, Upload(id), 0);
      NoneAnswered(between, stored);
      ExtendedBy(log, Snapshot(files, stored), stored);
      status := CheckHeaders(key, h, now);
      answers := [];
      if status != 200 { return status, None, [], false; }
      UnfoldAnnounceable(limits, key, h, now);
      var meta := MetadataOf(key, h, now);
      if faults.create { return 503, None, [], true; }
      var taken := if |body| > h.contentLength then body[..h.contentLength + 1] else body;
      Open(id, |body| > h.contentLength);
      status, answers, faulted := Fill(meta, taken, now, faults, between);
      artifact := if status == 200 then Some(Artifact(meta, now)) else None;
    }

    /** Writing the body, checking it and writing the header block in front of it. */
    method Fill(meta: Metadata, taken: seq<byte>, now: int, faults: Faults, between: seq<seq<Request>>)
      returns (status: int, answers: seq<seq<Answer>>, ghost faulted: bool)
      requires Valid() && slot.Some? && Upload(slot.value) !in files
      requires ValidMetadata(meta) && meta.size <= limits.maxEntry && meta.uncompressedSize <= limits.maxEntry
      requires HeaderSize + |taken| <= StagingLimit(limits, excess)
      modifies this`files, this`entries, this`log, this`slot
      ensures Valid()
      ensures AllAnswered(between, answers, stored) && entries.Keys == old(entries).Keys
      ensures faulted ==> faults.write.Some? || faults.sync
      ensures status == 200 ==> !faulted && slot == old(slot) && Staged(env, limits, files, slot, Artifact(meta, now), taken) &&
                                Restamped(old(files), files - {Upload(slot.value)}, between != [])
      ensures status != 200 ==> slot.None? && Restamped(old(files), files, between != [])
      ensures !faulted ==> (status == 200 <==>
                |taken| == meta.size && meta.digest == env.sha256(taken) && meta.md5 == env.md5(taken) && Fits(env, meta))
      ensures status in {200, 400, 503} && (status == 503 ==> faulted)
      ensures Extended(old(log), log, stored)
    {
      hide Server.Valid, Fits, ValidMetadata, Staged, Restamped, Extended, AllAnswered;
      ghost var d, n, before := files, Upload(slot.value), log;
      Begin(now);
      assert files - {n} == d;
      ghost var begun := log;
      var ok;
      ok, answers := Receive(taken, now, faults.write, between);
      ExtendedTwice(before, begun, log, stored);
      ghost var received, after := files, log;
      if ok {
        status, faulted := Check(meta, taken, now, faults.sync);
      } else {
        DropStaging();
        status, faulted := 400, true;
      }
      ExtendedTwice(before, after, log, stored);
      assert files - {n} == received - {n};
      assert status != 200 ==> files - {n} == files;
    }

    /** Size and digests decide whether the header block is written. */
    method Check(meta: Metadata, taken: seq<byte>, now: int, fails: bool) returns (status: int, ghost faulted: bool)
      requires Valid() && slot.Some? && HeaderSize + |taken| <= StagingLimit(limits, excess)
      requires ValidMetadata(meta) && meta.size <= limits.maxEntry && meta.uncompressedSize <= limits.maxEntry
      modifies this`files, this`log, this`slot
      ensures Valid() && files - {Upload(old(slot).value)} == old(files) - {Upload(old(slot).value)}
      ensures status == 200 ==> !faulted && slot == old(slot) && Staged(env, limits, files, slot, Artifact(meta, now), taken)
      ensures status != 200 ==> slot.None? && Upload(old(slot).value) !in files
      ensures !faulted ==> (status == 200 <==>
                |taken| == meta.size && meta.digest == env.sha256(taken) && meta.md5 == env.md5(taken) && Fits(env, meta))
      ensures status in {200, 400, 503} && (status == 503 ==> faulted)
      ensures faulted ==> fails
      ensures Extended(old(log), log, stored)
    {
      hide Server.Valid, Fits, ValidMetadata, Staged, Extended;
      if |taken| != meta.size || meta.digest != env.sha256(taken) || meta.md5 != env.md5(taken) {
        DropStaging();
        return 400, false;
      }
      status, faulted := Head(meta, taken, now, fails);
    }

    lemma Facts()
      requires Valid()
      ensures Lawful(env) && limits.maxEntry >= 0
      ensures slot.None? ==> forall n | n in files :: !n.Upload?
    {
    }

    /** The staging file is made, and room for the header block is left in it. */
    method Begin(now: int)
      requires Valid() && slot.Some?
      modifies this`files, this`log
      ensures Valid() && files == old(files)[Upload(slot.value) := File(Zeros(HeaderSize), now)]
      ensures Extended(old(log), log, stored)
    {
      hide Server.Valid, Extended, Zeros, Lawful;
      Facts();
      ghost var before := log;
      WriteStaging([], now);
      ghost var made := log;
      WriteStaging(Zeros(HeaderSize), now);
      ExtendedTwice(before, made, log, stored);
    }

    /** The header block goes in front of a body that has passed its checks. */
    method Head(meta: Metadata, taken: seq<byte>, now: int, fails: bool) returns (status: int, ghost faulted: bool)
      requires Valid() && slot.Some? && HeaderSize + |taken| <= StagingLimit(limits, excess)
      requires ValidMetadata(meta) && meta.size == |taken| <= limits.maxEntry && meta.uncompressedSize <= limits.maxEntry
      requires meta.digest == env.sha256(taken)
      modifies this`files, this`log, this`slot
      ensures Valid() && files - {Upload(old(slot).value)} == old(files) - {Upload(old(slot).value)}
      ensures status == 200 ==> !faulted && slot == old(slot) && Staged(env, limits, files, slot, Artifact(meta, now), taken)
      ensures status != 200 ==> slot.None? && Upload(old(slot).value) !in files
      ensures !faulted ==> (status == 200 <==> Fits(env, meta))
      ensures status in {200, 400, 503} && (status == 503 ==> faulted)
      ensures faulted ==> fails
      ensures Extended(old(log), log, stored)
    {
      hide Agree, Sane, Read, Fits, ValidMetadata, Staged, OneUpload;
      Encoded(env, meta);
      if |env.encode(meta)| > HeaderSize - LengthSize { DropStaging(); return 400, false; }
      if fails { DropStaging(); return 503, true; }
      var header := FillHeader(env, meta);
      WriteStaging(header[..] + taken, now);
      StagedWhole(env, limits, files, slot, Artifact(meta, now), taken);
      return 200, false;
    }

    /** The slot is taken; a longer body than announced will be read one byte too far. */
    method Open(id: nat, longer: bool)
      requires Valid() && slot.None?
      modifies this`slot, this`excess
      ensures Valid() && slot == Some(id) && excess == (old(excess) || longer)
    {
      hide Agree;
      slot, excess := Some(id), excess || longer;
    }

    /** Writing the body chunk by chunk; each time the lock is free for reads. */
    method Receive(taken: seq<byte>, now: int, fails: Option<nat>, between: seq<seq<Request>>)
      returns (ok: bool, answers: seq<seq<Answer>>)
      requires Valid() && slot.Some? && HeaderSize + |taken| <= StagingLimit(limits, excess)
      requires Upload(slot.value) in files && files[Upload(slot.value)].content == Zeros(HeaderSize)
      modifies this`files, this`entries, this`log
      ensures Valid() && Upload(slot.value) in files
      ensures Restamped(old(files) - {Upload(slot.value)}, files - {Upload(slot.value)}, between != [])
      ensures AllAnswered(between, answers, stored) && entries.Keys == old(entries).Keys
      ensures !ok ==> fails.Some?
      ensures Extended(old(log), log, stored)
    {
      hide Server.Valid, AllAnswered, Restamped, Extended;
      answers := [];
      ghost var n := Upload(slot.value);
      NoneAnswered(between, stored);
      RestampedTouch(files - {n}, n, 0);
      ExtendedBy(log, Snapshot(files, stored), stored);
      var i := 0;
      while i < |taken|
        invariant 0 <= i <= |taken|
        invariant Valid() && n in files && files[n].content == Zeros(HeaderSize) + taken[..i]
        invariant Restamped(old(files) - {n}, files - {n}, between != [])
        invariant AllAnswered(between, answers, stored) && entries.Keys == old(entries).Keys
        invariant Extended(old(log), log, stored)
      {
        ghost var d, before := files, log;
        answers := ReadBatch(between, answers);
        RestampedTwice(old(files) - {n}, d - {n}, files - {n}, between != [], between != []);
        ExtendedTwice(old(log), before, log, stored);
        if fails.Some? && fails.value <= i { return false, answers; }
        d, before := files, log;
        var next := if |taken| - i < ChunkSize then |taken| else i + ChunkSize;
        assert taken[..i] + taken[i..next] == taken[..next];
        WriteStaging(files[Upload(slot.value)].content + taken[i..next], now);
        assert files[n].content == Zeros(HeaderSize) + taken[..next];
        assert files - {n} == d - {n};
        ExtendedTwice(old(log), before, log, stored);
        i := next;
      }
      return true, answers;
    }

    /** Serving the next batch of reads, if there is one. */
    method ReadBatch(between: seq<seq<Request>>, answers: seq<seq<Answer>>) returns (more: seq<seq<Answer>>)
      requires Valid() && slot.Some? && Upload(slot.value) in files && AllAnswered(between, answers, stored)
      modifies this`files, this`entries, this`log
      ensures Valid() && Upload(slot.value) in files && files[Upload(slot.value)] == old(files)[Upload(slot.value)]
      ensures Restamped(old(files) - {Upload(slot.value)}, files - {Upload(slot.value)}, between != [])
      ensures AllAnswered(between, more, stored) && entries.Keys == old(entries).Keys
      ensures Extended(old(log), log, stored)
    {
      hide Server.Valid, Answered, Restamped, Extended;
      ghost var n := Upload(slot.value);
      if |answers| == |between| {
        RestampedTouch(files - {n}, n, 0);
          ExtendedBy(log, Snapshot(files, stored), stored);
        return answers;
      }
      var batch := ReadAll(between[|answers|]);
      AnsweredMore(between, answers, batch, stored);
      RestampedUpload(old(files), files, between[|answers|] != [], n);
      RestampedTwice(old(files) - {n}, files - {n}, files - {n}, between[|answers|] != [], false);
      return answers + [batch];
    }

    /** Making room for a staged artifact without giving up the one it replaces; this never fails for want of capacity. */
    method MakeRoom(a: Artifact, ghost body: seq<byte>, removing: set<string>) returns (ok: bool, ghost victims: seq<string>)
      requires Valid() && Staged(env, limits, files, slot, a, body)
      modifies this`files, this`entries, this`used, this`stored, this`log
      ensures Valid() && Staged(env, limits, files, slot, a, body)
      ensures a.meta.key !in victims && LeastRecent(AccessTimes(old(entries)), a.meta.key, victims)
      ensures stored == Without(old(stored), victims) && entries == Without(old(entries), victims)
      ensures ok ==> Room(limits, used, |entries|, Growth(entries, a), a.meta.key !in entries)
      ensures !ok ==> exists k | k in entries :: k in removing
      ensures old(log) <= log && forall i | |old(log)| <= i < |log| :: Reduced(old(stored), a.meta.key, log[i].stored)
    {
      hide Agree, Sane, Lawful, Read, Without, WithoutFiles, GivenUp, Crowded, Ordered, Staged, OneUpload, LeastRecent;
      var key := a.meta.key;
      ghost var limit := StagingLimit(limits, excess);
      var incoming := Growth(entries, a);
      var adding := key !in entries;
      var outcome, order, n, steps := EvictLocked(if incoming < 0 then 0 else incoming, key, adding, removing);
      victims := order[..n];
      assert key !in victims;
      KeptUpload(env, limits, old(files), victims, slot, a, body, limit);
      KeptKey(old(entries), victims, key);
      forall i | 0 <= i < n
        ensures Sane(env, limits, excess, steps[i]) && Reduced(old(stored), key, steps[i].stored)
      {
        assert key !in order[..i + 1];
        GivenUpSane(env, limits, old(files), old(stored), order[..i + 1], steps[i], old(used), |old(entries)|, slot, excess, key);
      }
      log := log + steps;
      if outcome.StorageFailed? {
        assert order[n] in order;
        StillThere(AccessTimes(old(entries)), old(entries), order, n);
      }
      if outcome.CapacityExceeded? {
        assert order[..n] == order;
        AllGone(old(entries), order, key);
        KeptBytes(env, limits, files, entries, used, stored, key);
        SizePositive(env, limits, files, slot, a, body);
        assert false;
      }
      ok := outcome.Done?;
    }

    /** The rename: from one moment to the next the new envelope is the committed one. */
    method Publish(a: Artifact, ghost body: seq<byte>)
      requires Valid() && Staged(env, limits, files, slot, a, body)
      requires Room(limits, used, |entries|, Growth(entries, a), a.meta.key !in entries)
      modifies this`files, this`entries, this`used, this`slot, this`stored, this`latest, this`log
      ensures Valid() && slot.None?
      ensures stored == old(stored)[a.meta.key := Stored(a.meta, body)] && latest == old(latest)[a.meta.key := Stored(a.meta, body)]
      ensures entries == old(entries)[a.meta.key := a]
      ensures log == old(log) + [Snapshot(files, stored)]
    {
      hide Agree, Sane, Lawful, Read, Staged, OneUpload;
      var key := a.meta.key;
      var name := Entry(env.hash(key));
      StagedSize(env, limits, files, slot, a, body);
      PublishedAgree(env, limits, files, entries, used, stored, slot.value, a, body);
      NoneStaged(files, slot, name, StagingLimit(limits, excess));
      var renamed := (files - {Upload(slot.value)})[name := files[Upload(slot.value)]];
      var account := used;
      if key in entries { account := account - (entries[key].meta.size + HeaderSize); }
      account := account + a.meta.size + HeaderSize;
      assert account == used + Growth(entries, a);
      hide Growth;
      ghost var committed := stored[key := Stored(a.meta, body)];
      SaneState(env, limits, renamed, entries[key := a], account, committed, None, excess);
      files, used, entries, slot := renamed, account, entries[key := a], None;
      stored, latest := committed, latest[key := Stored(a.meta, body)];
      log := log + [Snapshot(files, stored)];
    }

    /** Publishing a staged artifact under the lock: room is made, the file renamed, the index follows.  The answer says nothing
        about the rename where the directory cannot be synced afterwards. */
    method Commit(a: Artifact, ghost body: seq<byte>, faults: Faults)
      returns (status: int, ghost published: bool, ghost victims: seq<string>)
      requires Valid() && Staged(env, limits, files, slot, a, body)
      modifies this`files, this`entries, this`used, this`slot, this`stored, this`latest, this`log
      ensures Valid() && slot.None?
      ensures a.meta.key !in victims && LeastRecent(AccessTimes(old(entries)), a.meta.key, victims)
      ensures
        var rest := Without(old(stored), victims);
        stored == if published then rest[a.meta.key := Stored(a.meta, body)] else rest
      ensures latest == if published then old(latest)[a.meta.key := Stored(a.meta, body)] else old(latest)
      ensures published ==> a.meta.key in entries && entries[a.meta.key] == a
      ensures status == if published && !faults.directory then 200 else 503
      ensures !published ==> faults.rename || exists k | k in Without(old(entries), victims) :: k in faults.removing
      ensures faults.rename ==> !published
      ensures old(log) <= log && forall i | |old(log)| <= i < |log| ::
                Reduced(old(stored), a.meta.key, log[i].stored) || (published && log[i].stored == stored)
    {
      hide Agree, Sane, Lawful, Read, Without, Staged, Reduced, OneUpload, LeastRecent;
      var ok, gone := MakeRoom(a, body, faults.removing);
      victims := gone;
      ReducedBy(old(stored), victims, a.meta.key);
      if !ok || faults.rename {
        SlotTaken(env, limits, files, slot, a, body);
        DropStaging();
        return 503, false, victims;
      }
      Publish(a, body);
      return if faults.directory then 503 else 200, true, victims;
    }

    /** A whole PUT among reads: `between` while the body comes in, `waiting` until the lock is taken. */
    method Put(key: string, h: Announced, body: seq<byte>, id: nat, now: int, faults: Faults,
               between: seq<seq<Request>>, waiting: seq<Request>)
      returns (status: int, answers: seq<seq<Answer>>, late: seq<Answer>,
               ghost published: bool, ghost victims: seq<string>, ghost faulted: bool)
      requires Valid() && slot.None? && ValidKey(key)
      modifies this
      ensures Valid() && slot.None?
      ensures AllAnswered(between, answers, old(stored)) && Answered(waiting, late, old(stored))
      ensures published ==> h.uncompressedSize.Some?
      ensures key !in victims
      ensures
        var rest := Without(old(stored), victims);
        stored == if published then rest[key := Stored(MetadataOf(key, h, now), body)] else rest
      ensures latest == if published then old(latest)[key := Stored(MetadataOf(key, h, now), body)] else old(latest)
      ensures status == 200 <==> published && !faults.directory
      ensures status in {200, 400, 411, 413, 503}
      ensures status == 411 <==> h.contentLength < 0
      ensures status == 413 <==> TooLarge(limits, key, h, now)
      ensures status == 503 ==> faulted || (published && faults.directory)
      ensures !faulted ==> (published <==> Accepted(env, limits, key, h, body, now))
      ensures faulted ==> !published && faults != NoFaults
      ensures old(log) <= log && forall i | |old(log)| <= i < |log| ::
                Reduced(old(stored), key, log[i].stored) || (published && log[i].stored == stored)
    {
      hide Server.Valid, Without, Staged, Reduced, Accepted, TooLarge, AllAnswered, Answered, Restamped, Extended, LeastRecent;
      ghost var m, before := stored, log;
      Untouched(m, key);
      var artifact;
      status, artifact, answers, faulted := Stage(key, h, body, id, now, faults, between);
      ghost var d, staged := files, log;
      late := ReadAll(waiting);
      ExtendedTwice(before, staged, log, m);
      published, victims := false, [];
      if artifact.Some? {
        StagedStill(env, limits, d, files, waiting != [], slot, artifact.value, body);
        ghost var read := log;
        status, published, victims := Commit(artifact.value, body, faults);
        faulted := !published;
        ExtendedReduced(before, read, m, key);
      } else {
        ExtendedReduced(before, log, m, key);
      }
    }
  }

  /** A PUT whose last step fails answers 503 although its artifact is there to be read; so does every PUT that would have been
      accepted if only the directory could be synced. */
  method PublishedButRefused(env: Env, limits: Limits, key: string, h: Announced, body: seq<byte>, now: int)
    returns (status: int, read: int, response: Option<Stored>)
    requires Lawful(env) && limits.Valid() && ValidKey(key) && Accepted(env, limits, key, h, body, now)
    ensures status == 503 && read == 200 && response.Some? && response.value.body == body
  {
    hide Agree, Lawful, Accepted, Staged, Clean, Sane, OneUpload, Without, Represents, EntryBytes, Read;
    var server := new Server(env, limits, map[]);
    EmptyDirectory(env, limits);
    ghost var faulted, crashes, published, victims;
    var ok;
    ghost var index, victims';
    ok, faulted, crashes, index, victims' := server.Recover({}, {});
    var staged, artifact;
    ghost var answers;
    staged, artifact, answers, faulted := server.Stage(key, h, body, 0, now, NoFaults, []);
    status, published, victims := server.Commit(artifact.value, body, NoFaults.(directory := true));
    read, response := server.Get(key, now, NoFaults);
  }

  lemma EmptyDirectory(env: Env, limits: Limits)
    ensures Clean(env, limits.maxEntry, map[])
  {
  }

  /** A new process on the directory a crash has left behind. */
  method Restart(env: Env, limits: Limits, crashed: Files, ghost committed: map<string, Stored>, failing: set<FileName>, removing: set<string>)
    returns (server: Server, ok: bool, ghost faulted: bool)
    requires Lawful(env) && limits.Valid() && Restartable(env, limits, crashed, committed)
    ensures fresh(server) && server.env == env && server.limits == limits
    ensures !faulted ==> ok
    ensures failing == {} && removing == {} ==> !faulted
    ensures ok ==> server.Valid() && server.stored == committed && server.files == Entries(crashed)
  {
    server := new Server(env, limits, crashed);
    ghost var crashes, index, victims;
    ok, faulted, crashes, index, victims := server.Recover(failing, removing);
  }

  /** Between two requests: the account is the sum over the index, the artifact files are those of the index, and the disk
      holds at most the budget and one upload. */
  lemma Balanced(server: Server)
    requires server.Valid()
    ensures server.used == Sum(Sizes(server.stored)) <= server.limits.maxTotal && |server.entries| <= 10000
    ensures server.entries.Keys == server.stored.Keys
    ensures forall k | k in server.stored ::
              && server.stored[k].meta.key == k && server.stored[k].meta.size == |server.stored[k].body| <= server.limits.maxEntry
              && server.stored[k].meta.uncompressedSize <= server.limits.maxEntry
    ensures forall n :: n in server.files && n.Entry? <==> exists k :: k in server.entries && n == Entry(server.env.hash(k))
    ensures DiskUse(server.files) <= server.limits.maxTotal + StagingLimit(server.limits, server.excess)
  {
    BytesOfArtifacts(server.env, server.files, server.stored);
    SaneState(server.env, server.limits, server.files, server.entries, server.used, server.stored, server.slot, server.excess);
    hide Sum, DiskUse, Read;
    forall n | n in server.files && n.Entry? ensures exists k :: k in server.entries && n == Entry(server.env.hash(k)) {
      var k := Read(server.env, server.files[n].content).value.meta.key;
      assert k in server.entries && n == Entry(server.env.hash(k));
    }
  }

  /** What the account grows by when `a` takes its place. */
  function Growth(entries: map<string, Artifact>, a: Artifact): int {
    a.meta.size + HeaderSize - (if a.meta.key in entries then entries[a.meta.key].meta.size + HeaderSize else 0)
  }

  /** Some artifacts are gone, but not the one under `key`. */
  ghost predicate Reduced(m: map<string, Stored>, key: string, m': map<string, Stored>) {
    (forall k | k in m' :: k in m && m'[k] == m[k]) && (key in m ==> key in m')
  }

  lemma ReducedBy(m: map<string, Stored>, victims: seq<string>, key: string)
    requires key !in victims
    ensures Reduced(m, key, Without(m, victims))
  {
  }

  lemma Untouched(m: map<string, Stored>, key: string)
    ensures Reduced(m, key, m) && Without(m, []) == m
  {
    NobodyGone(m);
  }

  lemma StagedStill(env: Env, limits: Limits, d: Files, d': Files, served: bool, slot: Option<nat>, a: Artifact, body: seq<byte>)
    requires Staged(env, limits, d, slot, a, body) && Restamped(d, d', served)
    ensures Staged(env, limits, d', slot, a, body)
  {
    hide Read, Restamped;
    RestampedUpload(d, d', served, Upload(slot.value));
  }

  lemma ExtendedReduced(log: seq<Snapshot>, log': seq<Snapshot>, m: map<string, Stored>, key: string)
    requires Extended(log, log', m)
    ensures log <= log' && forall i | |log| <= i < |log'| :: Reduced(m, key, log'[i].stored)
  {
  }

  lemma SlotTaken(env: Env, limits: Limits, files: Files, slot: Option<nat>, a: Artifact, body: seq<byte>)
    requires Staged(env, limits, files, slot, a, body)
    ensures slot.Some?
  {
  }

  lemma SizePositive(env: Env, limits: Limits, files: Files, slot: Option<nat>, a: Artifact, body: seq<byte>)
    requires Staged(env, limits, files, slot, a, body)
    ensures 0 <= a.meta.size <= limits.maxEntry
  {
  }

  lemma KeptUpload(env: Env, limits: Limits, files: Files, victims: seq<string>, slot: Option<nat>, a: Artifact, body: seq<byte>, size: int)
    requires Staged(env, limits, files, slot, a, body) && OneUpload(files, slot, size)
    ensures Staged(env, limits, WithoutFiles(env, files, victims), slot, a, body)
    ensures OneUpload(WithoutFiles(env, files, victims), slot, size)
  {
    hide Read;
  }

  lemma GivenUpSane(env: Env, limits: Limits, files: Files, stored: map<string, Stored>, victims: seq<string>, s: Snapshot, bytes: int, count: int,
                    slot: Option<nat>, excess: bool, key: string)
    requires GivenUp(env, limits, files, stored, victims, s, bytes, count) && limits.Valid()
    requires bytes <= limits.maxTotal && count <= MaxEntries && OneUpload(files, slot, StagingLimit(limits, excess)) && key !in victims
    ensures Sane(env, limits, excess, s) && Reduced(stored, key, s.stored)
  {
    hide Represents, EntryBytes, DiskUse, Clean, Reduced, Without;
    ReducedBy(stored, victims, key);
    KeptUploads(env, files, victims, slot, StagingLimit(limits, excess));
    hide WithoutFiles, OneUpload;
    UseSplit(env, limits, s.files, if slot.Some? then slot.value else 0, StagingLimit(limits, excess));
  }

  lemma KeptUploads(env: Env, files: Files, victims: seq<string>, slot: Option<nat>, size: int)
    requires OneUpload(files, slot, size)
    ensures OneUpload(WithoutFiles(env, files, victims), slot, size)
    ensures OneUpload(WithoutFiles(env, files, victims), Some(if slot.Some? then slot.value else 0), size)
  {
  }

  /** With only one artifact left the account is its size. */
  lemma KeptBytes(env: Env, limits: Limits, files: Files, entries: map<string, Artifact>, used: int, stored: map<string, Stored>, key: string)
    requires Lawful(env) && Agree(env, limits, files, entries, used, stored) && forall k | k in entries :: k == key
    ensures used == if key in entries then entries[key].meta.size + HeaderSize else 0
    ensures key in entries ==> entries[key].meta.size >= 0
  {
    BytesOfArtifacts(env, files, stored);
    if key in entries {
      StoredMeta(env, files, stored, key);
      WithoutStored(stored, key);
      assert stored - {key} == map[];
    } else {
      assert stored == map[];
    }
  }

  lemma PublishedAgree(env: Env, limits: Limits, files: Files, entries: map<string, Artifact>, used: int, stored: map<string, Stored>,
                       id: nat, a: Artifact, body: seq<byte>)
    requires Lawful(env) && Agree(env, limits, files, entries, used, stored) && a.meta.size == |body|
    requires Upload(id) in files && Read(env, files[Upload(id)].content) == Some(Stored(a.meta, body))
    requires Acceptable(env, limits.maxEntry, Entry(env.hash(a.meta.key)), files[Upload(id)].content)
    ensures
      var files' := (files - {Upload(id)})[Entry(env.hash(a.meta.key)) := files[Upload(id)]];
      Agree(env, limits, files', entries[a.meta.key := a], used + Growth(entries, a), stored[a.meta.key := Stored(a.meta, body)])
    ensures |entries[a.meta.key := a]| == if a.meta.key in entries then |entries| else |entries| + 1
  {
    hide Read, Represents, EntryBytes, Sizes, Lawful, Clean, Acceptable, Growth;
    PublishedClean(env, limits, files, id, Entry(env.hash(a.meta.key)));
    PublishedBytes(env, limits, files, entries, used, stored, id, a, body);
    SizeWith(entries, a.meta.key, a);
  }

  lemma PublishedClean(env: Env, limits: Limits, files: Files, id: nat, n: FileName)
    requires Clean(env, limits.maxEntry, files) && Upload(id) in files && Acceptable(env, limits.maxEntry, n, files[Upload(id)].content)
    ensures Clean(env, limits.maxEntry, (files - {Upload(id)})[n := files[Upload(id)]])
  {
    hide Acceptable;
  }

  lemma PublishedBytes(env: Env, limits: Limits, files: Files, entries: map<string, Artifact>, used: int, stored: map<string, Stored>,
                       id: nat, a: Artifact, body: seq<byte>)
    requires Lawful(env) && Agree(env, limits, files, entries, used, stored) && a.meta.size == |body|
    requires Upload(id) in files && Read(env, files[Upload(id)].content) == Some(Stored(a.meta, body))
    ensures
      var files' := (files - {Upload(id)})[Entry(env.hash(a.meta.key)) := files[Upload(id)]];
      Represents(env, files', stored[a.meta.key := Stored(a.meta, body)]) && used + Growth(entries, a) == EntryBytes(files')
  {
    hide Read, Represents, EntryBytes, Sizes, Lawful, Clean;
    Published(env, files, stored, id, Stored(a.meta, body));
    if a.meta.key in entries { StoredMeta(env, files, stored, a.meta.key); }
  }

  lemma NoneStaged(files: Files, slot: Option<nat>, name: FileName, size: int)
    requires slot.Some? && OneUpload(files, slot, size) && Upload(slot.value) in files && name.Entry?
    ensures OneUpload((files - {Upload(slot.value)})[name := files[Upload(slot.value)]], None, size)
  {
  }

  lemma StagedSize(env: Env, limits: Limits, files: Files, slot: Option<nat>, a: Artifact, body: seq<byte>)
    requires Staged(env, limits, files, slot, a, body)
    ensures slot.Some? && Upload(slot.value) in files && Read(env, files[Upload(slot.value)].content) == Some(Stored(a.meta, body))
    ensures a.meta.size == |body|
    ensures Acceptable(env, limits.maxEntry, Entry(env.hash(a.meta.key)), files[Upload(slot.value)].content)
  {
  }

  lemma UnfoldAnnounceable(limits: Limits, key: string, h: Announced, now: int)
    requires Announceable(limits, key, h, now)
    ensures h.uncompressedSize.Some? && 0 <= h.contentLength <= limits.maxEntry && h.uncompressedSize.value <= limits.maxEntry
    ensures ValidMetadata(MetadataOf(key, h, now))
  {
  }

  lemma Encoded(env: Env, m: Metadata)
    requires Lawful(env) && ValidMetadata(m)
    ensures Fits(env, m) <==> |env.encode(m)| <= HeaderSize - LengthSize
  {
  }

  lemma StagedWhole(env: Env, limits: Limits, files: Files, slot: Option<nat>, a: Artifact, body: seq<byte>)
    requires Lawful(env) && ValidMetadata(a.meta) && Fits(env, a.meta) && a.meta.size == |body| && a.meta.digest == env.sha256(body)
    requires a.meta.size <= limits.maxEntry && a.meta.uncompressedSize <= limits.maxEntry
    requires slot.Some? && Upload(slot.value) in files && files[Upload(slot.value)].content == Header(env, a.meta) + body
    ensures Staged(env, limits, files, slot, a, body)
  {
    RoundTrip(env, Stored(a.meta, body));
  }

  lemma Staging(env: Env, limits: Limits, files: Files, entries: map<string, Artifact>, used: int, stored: map<string, Stored>, n: FileName, file: File)
    requires Agree(env, limits, files, entries, used, stored) && n.Upload?
    ensures Agree(env, limits, files[n := file], entries, used, stored)
  {
    hide Read, Acceptable, Sum;
    assert Entries(files[n := file]) == Entries(files);
  }

  lemma Unstaging(env: Env, limits: Limits, files: Files, entries: map<string, Artifact>, used: int, stored: map<string, Stored>, n: FileName)
    requires Agree(env, limits, files, entries, used, stored) && n.Upload?
    ensures Agree(env, limits, files - {n}, entries, used, stored)
  {
    hide Read, Acceptable, Sum;
    assert Entries(files - {n}) == Entries(files);
  }

  lemma AgreeMeta(env: Env, limits: Limits, files: Files, entries: map<string, Artifact>, used: int, stored: map<string, Stored>)
    requires Agree(env, limits, files, entries, used, stored)
    ensures entries.Keys == stored.Keys && forall k | k in entries :: entries[k].meta == stored[k].meta
  {
  }

  lemma StoredFile(env: Env, limits: Limits, files: Files, entries: map<string, Artifact>, used: int, stored: map<string, Stored>, key: string)
    requires Agree(env, limits, files, entries, used, stored) && key in entries
    ensures Entry(env.hash(key)) in files && Read(env, files[Entry(env.hash(key))].content) == Some(stored[key])
  {
  }

  lemma Accessed(env: Env, limits: Limits, files: Files, entries: map<string, Artifact>, used: int, stored: map<string, Stored>, key: string, now: int)
    requires Agree(env, limits, files, entries, used, stored) && key in entries
    ensures Agree(env, limits, files, entries[key := entries[key].(accessed := now)], used, stored)
    ensures |entries[key := entries[key].(accessed := now)]| == |entries|
  {
    hide Represents, Clean, EntryBytes;
    SizeWith(entries, key, entries[key].(accessed := now));
  }

  /** Changing the times of files changes nothing else. */
  lemma SameContents(env: Env, d: Files, d': Files, m: map<string, Stored>)
    requires d'.Keys == d.Keys && forall n | n in d :: d'[n].content == d[n].content
    ensures Represents(env, d, m) ==> Represents(env, d', m)
    ensures EntryBytes(d') == EntryBytes(d)
    ensures forall maxEntry: int :: Clean(env, maxEntry, d) ==> Clean(env, maxEntry, d')
  {
    hide Read, Acceptable, Sum;
    assert Lengths(Entries(d')) == Lengths(Entries(d));
  }

  lemma Touched(env: Env, limits: Limits, files: Files, entries: map<string, Artifact>, used: int, stored: map<string, Stored>, key: string, now: int)
    requires Agree(env, limits, files, entries, used, stored) && key in entries
    ensures Entry(env.hash(key)) in files
    ensures Agree(env, limits, files[Entry(env.hash(key)) := files[Entry(env.hash(key))].(modified := now)], entries, used, stored)
  {
    StoredFile(env, limits, files, entries, used, stored, key);
    hide Represents, Clean, EntryBytes;
    var n := Entry(env.hash(key));
    SameContents(env, files, files[n := files[n].(modified := now)], stored);
  }

  lemma NoUploads(env: Env, d: Files, victims: seq<string>)
    ensures forall n | n in WithoutFiles(env, Entries(d), victims) :: n.Entry?
  {
  }

  lemma KeysValid(env: Env, d: Files, m: map<string, Stored>)
    requires Represents(env, d, m)
    ensures forall k | k in m :: k != ""
  {
    forall k | k in m ensures k != "" { assert ValidKey(m[k].meta.key); }
  }

  lemma NothingLeft(env: Env, limits: Limits, files: Files, entries: map<string, Artifact>, used: int, stored: map<string, Stored>)
    requires Lawful(env) && Agree(env, limits, files, entries, used, stored) && forall k | k in entries :: k == ""
    ensures used == 0 && |entries| == 0
  {
    KeysValid(env, files, stored);
    assert entries == map[] && stored == map[];
    BytesOfArtifacts(env, files, stored);
  }

  lemma SaneState(env: Env, limits: Limits, files: Files, entries: map<string, Artifact>, used: int, stored: map<string, Stored>,
                  slot: Option<nat>, excess: bool)
    requires Agree(env, limits, files, entries, used, stored) && limits.Valid()
    requires used <= limits.maxTotal && |entries| <= MaxEntries && OneUpload(files, slot, StagingLimit(limits, excess))
    ensures Sane(env, limits, excess, Snapshot(files, stored))
  {
    AgreeRecoverable(env, limits, files, entries, used, stored);
    hide Agree, Represents, EntryBytes, DiskUse, Clean;
    SomeSlot(files, slot, StagingLimit(limits, excess));
    hide OneUpload;
    UseSplit(env, limits, files, if slot.Some? then slot.value else 0, StagingLimit(limits, excess));
  }

  lemma SomeSlot(files: Files, slot: Option<nat>, size: int)
    requires OneUpload(files, slot, size)
    ensures OneUpload(files, Some(if slot.Some? then slot.value else 0), size)
  {
  }

  lemma TidiedRestartable(env: Env, limits: Limits, d: Files, d': Files, m: map<string, Stored>)
    requires Restartable(env, limits, d, m) && Tidied(d, d')
    ensures Restartable(env, limits, d', m)
  {
    hide Read, Acceptable, Sum;
    assert Entries(d') == Entries(d);
  }

  /** Nothing has to be given up of what was within the limits before. */
  lemma Undisturbed(env: Env, limits: Limits, d: Files, entries: map<string, Artifact>, used: int, stored: map<string, Stored>, m: map<string, Stored>)
    requires Restartable(env, limits, d, m)
    requires Agree(env, limits, Entries(d), entries, used, stored)
    ensures stored == m && !Crowded(env, limits, Entries(d), entries, [], 0, false)
  {
    hide Represents, Clean, EntryBytes;
    EntriesRepresent(env, d, m);
    RepresentsUnique(env, Entries(d), stored, m);
    NoVictims(env, Entries(d));
    NobodyGone(entries);
    AgreeRecoverable(env, limits, Entries(d), entries, used, stored);
  }

  lemma EntriesRepresent(env: Env, d: Files, m: map<string, Stored>)
    requires Represents(env, d, m)
    ensures Represents(env, Entries(d), m) && EntryBytes(Entries(d)) == EntryBytes(d)
  {
    hide Read;
    assert Entries(Entries(d)) == Entries(d);
  }

  /** `d'` lacks at most some files of uploads. */
  ghost predicate Tidied(d: Files, d': Files) {
    (forall n | n in d' :: n in d && d'[n] == d[n]) && (forall n | n in d && !n.Upload? :: n in d')
  }

  ghost function Loaded(d: Files, rest: set<FileName>): Files {
    map n | n in d && n.Entry? && n !in rest :: d[n]
  }

  lemma NothingLoaded(env: Env, limits: Limits, d: Files)
    ensures Agree(env, limits, Loaded(d, d.Keys), map[], 0, map[])
  {
    assert Loaded(d, d.Keys) == map[];
    assert Lengths(Entries(map[])) == map[];
  }

  lemma LoadNone(d: Files, rest: set<FileName>, n: FileName)
    requires n.Upload?
    ensures Loaded(d, rest - {n}) == Loaded(d, rest)
  {
  }

  lemma AllLoaded(env: Env, maxEntry: int, d: Files, d': Files)
    requires Tidied(d, d') && (forall n | n in d' :: !n.Upload?)
    requires forall n | n in d :: n.Upload? || Acceptable(env, maxEntry, n, d[n].content)
    ensures d' == Entries(d) == Loaded(d, {})
  {
    forall n | n in d' ensures n.Entry? { assert Acceptable(env, maxEntry, n, d[n].content); }
  }

  function Meta(env: Env, maxEntry: int, n: FileName, content: seq<byte>): (m: Metadata)
    requires Acceptable(env, maxEntry, n, content)
    ensures Read(env, content).Some? && m == Read(env, content).value.meta
  {
    Read(env, content).value.meta
  }

  lemma NamedByKey(env: Env, maxEntry: int, n: FileName, content: seq<byte>)
    requires Acceptable(env, maxEntry, n, content)
    ensures n == Entry(env.hash(Meta(env, maxEntry, n, content).key))
  {
  }

  lemma LoadOne(env: Env, limits: Limits, d: Files, rest: set<FileName>, n: FileName,
                entries: map<string, Artifact>, used: int, stored: map<string, Stored>, modified: int)
    requires Lawful(env) && n in d && n in rest && Acceptable(env, limits.maxEntry, n, d[n].content)
    requires Agree(env, limits, Loaded(d, rest), entries, used, stored)
    ensures
      var s := Read(env, d[n].content).value;
      Agree(env, limits, Loaded(d, rest - {n}), entries[s.meta.key := Artifact(s.meta, modified)], used + s.meta.size + HeaderSize, stored[s.meta.key := s])
  {
    var s := Read(env, d[n].content).value;
    hide Read, Agree, Loaded;
    LoadedMore(d, rest, n);
    ReadLength(env, d[n].content);
    MetaSize(env, d[n].content);
    AddedAgree(env, limits, Loaded(d, rest), n, d[n], entries, used, stored, s, modified);
  }

  lemma LoadedMore(d: Files, rest: set<FileName>, n: FileName)
    requires n in d && n in rest && n.Entry?
    ensures n !in Loaded(d, rest) && Loaded(d, rest - {n}) == Loaded(d, rest)[n := d[n]]
  {
  }

  lemma AddedAgree(env: Env, limits: Limits, d: Files, n: FileName, file: File,
                   entries: map<string, Artifact>, used: int, stored: map<string, Stored>, s: Stored, modified: int)
    requires Lawful(env) && n !in d && n == Entry(env.hash(s.meta.key)) && Acceptable(env, limits.maxEntry, n, file.content)
    requires Read(env, file.content) == Some(s) && |file.content| == HeaderSize + |s.body| && s.meta.size == |s.body|
    requires Agree(env, limits, d, entries, used, stored)
    ensures Agree(env, limits, d[n := file], entries[s.meta.key := Artifact(s.meta, modified)], used + s.meta.size + HeaderSize,
                  stored[s.meta.key := s])
  {
    hide Read, EntryBytes, Acceptable;
    WithEntry(d, n, file);
  }

  lemma MetaSize(env: Env, content: seq<byte>)
    requires Read(env, content).Some?
    ensures Read(env, content).value.meta.size == |Read(env, content).value.body|
  {
  }

  /** With these victims gone there was still no room. */
  ghost predicate Crowded(env: Env, limits: Limits, files: Files, entries: map<string, Artifact>, victims: seq<string>, incoming: int, adding: bool) {
    !Room(limits, EntryBytes(WithoutFiles(env, files, victims)), |Without(entries, victims)|, incoming, adding)
  }

  /** `s` is the directory with exactly these victims gone. */
  ghost predicate GivenUp(env: Env, limits: Limits, files: Files, stored: map<string, Stored>, victims: seq<string>, s: Snapshot, bytes: int, count: int) {
    s == Snapshot(WithoutFiles(env, files, victims), Without(stored, victims)) && Recoverable(env, limits, s, bytes, count)
  }

  lemma NoVictims(env: Env, d: Files)
    ensures WithoutFiles(env, d, []) == d
  {
  }

  lemma AgreeUsed(env: Env, limits: Limits, files: Files, entries: map<string, Artifact>, used: int, stored: map<string, Stored>)
    requires Agree(env, limits, files, entries, used, stored)
    ensures used == EntryBytes(files)
  {
  }

  lemma OneVictim<V, W>(env: Env, d: Files, m: map<string, V>, w: map<string, W>, queue: seq<string>, i: nat)
    requires i < |queue|
    ensures WithoutFiles(env, d, queue[..i + 1]) == WithoutFiles(env, d, queue[..i]) - {Entry(env.hash(queue[i]))}
    ensures Without(m, queue[..i + 1]) == Without(m, queue[..i]) - {queue[i]}
    ensures Without(w, queue[..i + 1]) == Without(w, queue[..i]) - {queue[i]}
  {
    assert queue[..i + 1] == queue[..i] + [queue[i]];
    WithoutOne(m, queue[..i], queue[i]);
    WithoutOne(w, queue[..i], queue[i]);
    WithoutOneFile(env, d, queue[..i], queue[i]);
  }

  lemma OneStep(env: Env, limits: Limits, d: Files, m: map<string, Stored>, victims: seq<string>,
                files: Files, entries: map<string, Artifact>, used: int, stored: map<string, Stored>, bytes: int, count: int)
    requires Agree(env, limits, files, entries, used, stored)
    requires files == WithoutFiles(env, d, victims) && stored == Without(m, victims) && used <= bytes && |entries| <= count
    ensures GivenUp(env, limits, d, m, victims, Snapshot(files, stored), bytes, count)
  {
    AgreeRecoverable(env, limits, files, entries, used, stored);
    RecoverableMore(env, limits, Snapshot(files, stored), used, |entries|, bytes, count);
  }

  lemma RecoverableMore(env: Env, limits: Limits, s: Snapshot, bytes: int, count: int, bytes': int, count': int)
    requires Recoverable(env, limits, s, bytes, count) && bytes <= bytes' && count <= count'
    ensures Recoverable(env, limits, s, bytes', count')
  {
  }

}
