/**
 The directory of the Go cache: what it may contain, what it stands for and how its size follows
 the removal and the publication of one artifact.
 */
module Directory {
  import opened Wrappers
  import opened Envelope
  import opened Sums

  /** Artifacts are named by the digest of their key, files of running uploads by a number. */
  datatype FileName = Entry(hash: string) | Upload(id: nat) | Other(name: string)

  datatype File = File(content: seq<byte>, modified: int)

  type Files = map<FileName, File>

  const MaxEntries: nat := 10000

  datatype Limits = Limits(maxEntry: int, maxTotal: int) {
    predicate Valid() {
      0 < maxEntry <= maxTotal - HeaderSize
    }
  }

  predicate Acceptable(env: Env, maxEntry: int, name: FileName, content: seq<byte>) {
    var s := Read(env, content);
    && s.Some? && name == Entry(env.hash(s.value.meta.key))
    && s.value.meta.size <= maxEntry && s.value.meta.uncompressedSize <= maxEntry
  }

  ghost predicate Clean(env: Env, maxEntry: int, d: Files) {
    forall n | n in d :: n.Upload? || Acceptable(env, maxEntry, n, d[n].content)
  }

  /** The artifacts in the directory are exactly those of `m`, complete and under their own names. */
  ghost predicate Represents(env: Env, d: Files, m: map<string, Stored>) {
    && (forall k | k in m :: m[k].meta.key == k && Entry(env.hash(k)) in d && Read(env, d[Entry(env.hash(k))].content) == Some(m[k]))
    && (forall n | n in d && n.Entry? ::
          var s := Read(env, d[n].content);
          s.Some? && s.value.meta.key in m && n == Entry(env.hash(s.value.meta.key)))
  }

  ghost function Entries(d: Files): Files {
    map n | n in d && n.Entry? :: d[n]
  }

  ghost function Lengths(d: Files): map<FileName, nat> {
    map n | n in d :: |d[n].content|
  }

  ghost function Sizes(m: map<string, Stored>): map<string, nat> {
    map k | k in m :: HeaderSize + |m[k].body|
  }

  ghost function EntryBytes(d: Files): nat {
    Sum(Lengths(Entries(d)))
  }

  ghost function DiskUse(d: Files): nat {
    Sum(Lengths(d))
  }

  /** A process that starts on this directory recovers all of `m` and gives nothing up. */
  ghost predicate Restartable(env: Env, limits: Limits, d: Files, m: map<string, Stored>) {
    && Represents(env, d, m) && Clean(env, limits.maxEntry, d)
    && EntryBytes(d) <= limits.maxTotal && |m| <= MaxEntries
  }

  /** No upload but the one in its slot has a file, and that file is at most `size` long. */
  predicate OneUpload(d: Files, slot: Option<nat>, size: int) {
    forall n | n in d && n.Upload? :: slot == Some(n.id) && |d[n].content| <= size
  }

  // ----- What a directory stands for is unique

  lemma RepresentsUnique(env: Env, d: Files, m: map<string, Stored>, m': map<string, Stored>)
    requires Represents(env, d, m) && Represents(env, d, m')
    ensures m == m'
  {
    forall k ensures k in m <==> k in m' {
      if k in m { assert Entry(env.hash(k)) in d; }
      if k in m' { assert Entry(env.hash(k)) in d; }
    }
  }

  /** The bytes of the artifact files are the bodies and one header for each. */
  lemma {:induction false} BytesOfArtifacts(env: Env, d: Files, m: map<string, Stored>)
    requires Lawful(env) && Represents(env, d, m)
    ensures EntryBytes(d) == Sum(Sizes(m))
    decreases |m|
  {
    if k :| k in m {
      Dropped(env, d, m, k);
      BytesOfArtifacts(env, d - {Entry(env.hash(k))}, m - {k});
    } else {
      assert Lengths(Entries(d)) == map[] && Sizes(m) == map[];
    }
  }

  // ----- Removing one artifact

  lemma WithoutEntry(d: Files, n: FileName)
    requires n in d && n.Entry?
    ensures EntryBytes(d) == EntryBytes(d - {n}) + |d[n].content|
  {
    SumWithout(Lengths(Entries(d)), n);
    assert Lengths(Entries(d)) - {n} == Lengths(Entries(d - {n}));
  }

  lemma WithoutStored(m: map<string, Stored>, k: string)
    requires k in m
    ensures Sum(Sizes(m)) == Sum(Sizes(m - {k})) + HeaderSize + |m[k].body|
    ensures |m - {k}| == |m| - 1
  {
    SumWithout(Sizes(m), k);
    assert Sizes(m) - {k} == Sizes(m - {k});
    SizeWithout(m, k);
  }

  lemma ReadLength(env: Env, content: seq<byte>)
    requires Read(env, content).Some?
    ensures |content| == HeaderSize + |Read(env, content).value.body|
  {
  }

  lemma Dropped(env: Env, d: Files, m: map<string, Stored>, k: string)
    requires Lawful(env) && Represents(env, d, m) && k in m
    ensures Represents(env, d - {Entry(env.hash(k))}, m - {k})
    ensures EntryBytes(d) == EntryBytes(d - {Entry(env.hash(k))}) + HeaderSize + |m[k].body|
    ensures Sum(Sizes(m)) == Sum(Sizes(m - {k})) + HeaderSize + |m[k].body|
    ensures |m - {k}| == |m| - 1
  {
    hide Read, EntryBytes, Sizes, Sum;
    var n := Entry(env.hash(k));
    WithoutEntry(d, n);
    ReadLength(env, d[n].content);
    WithoutStored(m, k);
    DroppedRepresents(env, d, m, k);
    hide Represents, Lawful;
  }

  lemma DroppedRepresents(env: Env, d: Files, m: map<string, Stored>, k: string)
    requires Lawful(env) && Represents(env, d, m) && k in m
    ensures Represents(env, d - {Entry(env.hash(k))}, m - {k})
  {
    hide Read;
  }

  // ----- Publishing one artifact

  lemma PublishedRepresents(env: Env, d: Files, m: map<string, Stored>, id: nat, s: Stored)
    requires Lawful(env) && Represents(env, d, m) && Upload(id) in d && Read(env, d[Upload(id)].content) == Some(s)
    ensures Represents(env, (d - {Upload(id)})[Entry(env.hash(s.meta.key)) := d[Upload(id)]], m[s.meta.key := s])
  {
    hide Read;
    var k := s.meta.key;
    var n := Entry(env.hash(k));
    var d' := (d - {Upload(id)})[n := d[Upload(id)]];
    forall x | x in d' && x.Entry?
      ensures var t := Read(env, d'[x].content); t.Some? && t.value.meta.key in m[k := s] && x == Entry(env.hash(t.value.meta.key))
    {
      if x != n { assert x in d; }
    }
  }

  lemma WithEntry(d: Files, n: FileName, file: File)
    requires n.Entry?
    ensures EntryBytes(d[n := file]) == EntryBytes(d) + |file.content| - (if n in d then |d[n].content| else 0)
  {
    WithoutEntry(d[n := file], n);
    assert d[n := file] - {n} == d - {n};
    if n in d { WithoutEntry(d, n); } else { assert d - {n} == d; }
  }

  lemma WithStored(m: map<string, Stored>, k: string, s: Stored)
    ensures Sum(Sizes(m[k := s])) == Sum(Sizes(m)) + HeaderSize + |s.body| - (if k in m then HeaderSize + |m[k].body| else 0)
    ensures |m[k := s]| == if k in m then |m| else |m| + 1
  {
    SizeWith(m, k, s);
    WithoutStored(m[k := s], k);
    assert m[k := s] - {k} == m - {k};
    if k in m { WithoutStored(m, k); } else { assert m - {k} == m; }
  }

  lemma WithoutUpload(d: Files, n: FileName)
    requires n.Upload?
    ensures EntryBytes(d - {n}) == EntryBytes(d)
  {
    assert Entries(d - {n}) == Entries(d);
  }

  lemma Published(env: Env, d: Files, m: map<string, Stored>, id: nat, s: Stored)
    requires Lawful(env) && Represents(env, d, m) && Upload(id) in d && Read(env, d[Upload(id)].content) == Some(s)
    ensures
      var n := Entry(env.hash(s.meta.key));
      var d' := (d - {Upload(id)})[n := d[Upload(id)]];
      var previous := if s.meta.key in m then HeaderSize + |m[s.meta.key].body| else 0;
      && Represents(env, d', m[s.meta.key := s])
      && EntryBytes(d') == EntryBytes(d) + HeaderSize + |s.body| - previous
      && Sum(Sizes(m[s.meta.key := s])) == Sum(Sizes(m)) + HeaderSize + |s.body| - previous
      && |m[s.meta.key := s]| == if s.meta.key in m then |m| else |m| + 1
  {
    hide Read, EntryBytes, Sizes;
    var k := s.meta.key;
    var n := Entry(env.hash(k));
    PublishedRepresents(env, d, m, id, s);
    WithoutUpload(d, Upload(id));
    WithEntry(d - {Upload(id)}, n, d[Upload(id)]);
    ReadLength(env, d[Upload(id)].content);
    WithStored(m, k, s);
    assert n in d <==> k in m;
    if k in m { ReadLength(env, d[n].content); }
  }

  // ----- The whole directory

  lemma LengthsSplit(d: Files, n: FileName)
    requires n.Upload? && forall m | m in d :: m == n || m.Entry?
    ensures if n in d then n in Lengths(d) && Lengths(d)[n] == |d[n].content| && Lengths(d) - {n} == Lengths(Entries(d))
            else Entries(d) == d
  {
  }

  lemma NoOthers(env: Env, limits: Limits, d: Files)
    requires Clean(env, limits.maxEntry, d)
    ensures forall n | n in d :: n.Upload? || n.Entry?
  {
    forall n | n in d && !n.Upload? ensures n.Entry? { assert Acceptable(env, limits.maxEntry, n, d[n].content); }
  }

  lemma UseSplit(env: Env, limits: Limits, d: Files, id: nat, size: nat)
    requires Clean(env, limits.maxEntry, d) && OneUpload(d, Some(id), size)
    ensures DiskUse(d) <= EntryBytes(d) + size
  {
    NoOthers(env, limits, d);
    hide Clean, Acceptable, Sum, Lengths, Entries;
    var n := Upload(id);
    LengthsSplit(d, n);
    if n in d { SumWithout(Lengths(d), n); }
  }
}
