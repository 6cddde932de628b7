/**
 The Gradle cache server: opaque archives under names that are written once, a byte account and an
 order of last access, through failing file operations, files that vanish and half-done evictions.

 The ghost counters follow every byte that ever entered the account.
 */
module GradleCache {
  import opened Wrappers
  import opened Sums
  import opened Recency

  datatype File<Body> = File(body: Body, size: nat, modified: int)

  datatype Entry = Entry(size: nat, accessed: int)

  const PersistSeconds: int := 60

  predicate HexDigit(c: char) {
    '0' <= c <= '9' || 'a' <= c <= 'f'
  }

  predicate ValidKey(key: string) {
    (|key| == 32 || |key| == 64) && forall i | 0 <= i < |key| :: HexDigit(key[i])
  }

  /** Names of files that are archives: thirty-two or sixty-four hexadecimal digits in lower case. */
  lemma KeyIsHex(key: string)
    ensures ValidKey(key) <==> |key| in {32, 64} && forall c | c in key :: c in "0123456789abcdef"
  {
    forall c | c in key ensures HexDigit(c) <==> c in "0123456789abcdef" { DigitIs(c); }
    hide HexDigit;
    if ValidKey(key) { assert forall c | c in key :: HexDigit(c); }
    if forall c | c in key :: c in "0123456789abcdef" { assert forall i | 0 <= i < |key| :: key[i] in key; }
  }

  lemma DigitIs(c: char)
    ensures HexDigit(c) <==> c in "0123456789abcdef"
  {
  }

  function AccessTimes(entries: map<string, Entry>): map<string, int> {
    map k | k in entries :: entries[k].accessed
  }

  /** The order of eviction is that of the last accesses. */
  lemma TimesAreAccesses(entries: map<string, Entry>, key: string)
    ensures key in AccessTimes(entries) <==> key in entries
    ensures key in entries ==> AccessTimes(entries)[key] == entries[key].accessed
  {
  }

  ghost function Sizes(entries: map<string, Entry>): map<string, nat> {
    map k | k in entries :: entries[k].size
  }

  ghost function Bytes(entries: map<string, Entry>): nat {
    Sum(Sizes(entries))
  }

  lemma BytesWithout(entries: map<string, Entry>, key: string)
    requires key in entries
    ensures Bytes(entries) == Bytes(entries - {key}) + entries[key].size
  {
    SumWithout(Sizes(entries), key);
    assert Sizes(entries) - {key} == Sizes(entries - {key});
  }

  lemma BytesWith(entries: map<string, Entry>, key: string, e: Entry)
    ensures Bytes(entries[key := e]) == Bytes(entries) + e.size - (if key in entries then entries[key].size else 0)
  {
    BytesWithout(entries[key := e], key);
    assert entries[key := e] - {key} == entries - {key};
    if key in entries { BytesWithout(entries, key); } else { assert entries - {key} == entries; }
  }

  lemma BytesOfOne(entries: map<string, Entry>, key: string)
    requires forall k | k in entries :: k == key
    ensures Bytes(entries) == if key in entries then entries[key].size else 0
  {
    assert Sizes(map[]) == map[];
    if key in entries {
      BytesWithout(entries, key);
      assert entries - {key} == map[];
    } else {
      assert entries == map[];
    }
  }

  /** Which file operations of one request fail; a file that is not there is never a failed removal. */
  datatype Faults = Faults(create: bool, sync: bool, link: bool, open: bool, touch: bool, reading: set<string>, removing: set<string>)

  const NoFaults: Faults := Faults(false, false, false, false, false, {}, {})

  /** What a starting process finds: every file named by a key. */
  function OnDisk<Body>(files: map<string, File<Body>>): map<string, Entry> {
    map k | k in files && ValidKey(k) :: Entry(files[k].size, files[k].modified)
  }

  ghost predicate FullOrder(entries: map<string, Entry>, protected: string, order: seq<string>) {
    Ordered(AccessTimes(entries), order) && forall k :: k in order <==> k in entries && k != protected
  }

  /** The victims come first in the order of all unprotected entries, and each of them was still too much. */
  ghost predicate Oldest(entries: map<string, Entry>, protected: string, budget: int, victims: seq<string>) {
    && (victims == [] || exists order :: FullOrder(entries, protected, order) && victims <= order)
    && forall m | 0 <= m < |victims| :: Bytes(Without(entries, victims[..m])) > budget
  }

  /** The bytes of the victims. */
  ghost function BytesOf(entries: map<string, Entry>, victims: seq<string>): (n: nat)
  {
    BytesWithin(entries, victims);
    Bytes(entries) - Bytes(Without(entries, victims))
  }

  lemma {:induction false} BytesWithin(entries: map<string, Entry>, victims: seq<string>)
    ensures Bytes(Without(entries, victims)) <= Bytes(entries)
    decreases |victims|
  {
    NobodyGone(entries);
    if victims == [] {
    } else {
      var front, k := victims[..|victims| - 1], victims[|victims| - 1];
      BytesWithin(entries, front);
      WithoutOne(entries, front, k);
      assert victims == front + [k];
      if k in Without(entries, front) { BytesWithout(Without(entries, front), k); }
      else { assert Without(entries, front) - {k} == Without(entries, front); }
    }
  }

  /** Where the bytes of the account came from and went to. */
  datatype Ledger = Ledger(scanned: nat, inserted: nat, evicted: nat, missing: nat, rolledBack: nat) {
    ghost predicate Balances(used: int) {
      scanned + inserted == used + evicted + missing + rolledBack
    }
  }

  /** `written` is what the index was told to hold; a file under an indexed name never holds anything else. */
  ghost predicate Intact<Body(!new)>(files: map<string, File<Body>>, entries: map<string, Entry>, written: map<string, Body>, clock: int) {
    forall k | k in entries ::
      && k in written && entries[k].accessed <= clock
      && (k in files ==> files[k].body == written[k] && files[k].size == entries[k].size && files[k].modified <= entries[k].accessed)
  }

  lemma IntactWithout<Body(!new)>(files: map<string, File<Body>>, entries: map<string, Entry>, written: map<string, Body>, clock: int, k: string)
    requires Intact(files, entries, written, clock)
    ensures Intact(files - {k}, entries - {k}, written, clock)
    ensures Intact(files, entries - {k}, written, clock)
    ensures Intact(files - {k}, entries, written, clock)
  {
  }

  lemma IntactScanned<Body(!new)>(files: map<string, File<Body>>, entries: map<string, Entry>, written: map<string, Body>, clock: int, k: string)
    requires Intact(files, entries, written, clock) && k in files && files[k].modified <= clock
    ensures Intact(files, entries[k := Entry(files[k].size, files[k].modified)], written[k := files[k].body], clock)
  {
  }

  class Server<Body(==, !new)> {
    const maxEntry: int
    const maxTotal: int
    var files: map<string, File<Body>>
    var entries: map<string, Entry>
    var used: int
    ghost var written: map<string, Body>
    ghost var ledger: Ledger
    var clock: int

    constructor (maxEntry: int, maxTotal: int, files: map<string, File<Body>>)
      ensures this.maxEntry == maxEntry && this.maxTotal == maxTotal && this.files == files
      ensures entries == map[] && used == 0 && written == map[] && ledger == Ledger(0, 0, 0, 0, 0)
    {
      this.maxEntry, this.maxTotal, this.files := maxEntry, maxTotal, files;
      entries, used, written, ledger := map[], 0, map[], Ledger(0, 0, 0, 0, 0);
    }

    ghost predicate Accounted()
      reads this
    {
      && 0 < maxEntry <= maxTotal
      && used == Bytes(entries)
      && ledger.Balances(used)
      && Intact(files, entries, written, clock)
    }

    ghost predicate Valid()
      reads this
    {
      Accounted() && used <= maxTotal
    }

    /** One archive is removed and counted as evicted; a file that is already missing is no failure. */
    method Drop(key: string)
      requires Accounted() && key in entries
      modifies this`files, this`entries, this`used, this`ledger
      ensures Accounted() && entries == old(entries) - {key} && files == old(files) - {key}
      ensures used == old(used) - old(entries)[key].size
      ensures ledger == old(ledger).(evicted := old(ledger).evicted + old(used) - used)
    {
      hide Bytes, Intact;
      BytesWithout(entries, key);
      IntactWithout(files, entries, written, clock, key);
      files := files - {key};
      ledger := ledger.(evicted := ledger.evicted + entries[key].size);
      used := used - entries[key].size;
      entries := entries - {key};
    }

    method Index(key: string)
      requires Accounted() && key !in entries && key in files && files[key].modified <= clock
      modifies this`entries, this`used, this`written, this`ledger
      ensures Accounted() && entries == old(entries)[key := Entry(files[key].size, files[key].modified)]
      ensures written == old(written)[key := files[key].body]
      ensures used == old(used) + files[key].size
      ensures ledger == old(ledger).(scanned := old(ledger).scanned + files[key].size)
    {
      hide Bytes, Intact;
      var e := Entry(files[key].size, files[key].modified);
      BytesWith(entries, key, e);
      IntactScanned(files, entries, written, clock, key);
      entries := entries[key := e];
      used := used + e.size;
      written := written[key := files[key].body];
      ledger := ledger.(scanned := ledger.scanned + e.size);
    }

    /** The least recently used archives go, except the protected one, until the account is within the budget. */
    method EvictLocked(protected: string, removing: set<string>) returns (ok: bool, ghost victims: seq<string>)
      requires Accounted()
      modifies this`files, this`entries, this`used, this`ledger
      ensures Accounted()
      ensures protected !in victims && Oldest(old(entries), protected, maxTotal, victims)
      ensures LeastRecent(AccessTimes(old(entries)), protected, victims)
      ensures forall k | k in victims :: k in old(entries) && !(k in removing && k in old(files))
      ensures entries == Without(old(entries), victims) && files == Without(old(files), victims)
      ensures ok <==> used <= maxTotal
      ensures !ok ==> (exists k :: k in entries && k in files && k in removing && k != protected) || forall k | k in entries :: k == protected
      ensures ledger == old(ledger).(evicted := old(ledger).evicted + BytesOf(old(entries), victims))
    {
      hide Bytes, Ordered, Without, Intact, Ledger.Balances, BytesOf, Oldest, AllOver, AllRemovable, LeastRecent, AccessTimes;
      victims := [];
      NobodyGone(entries);
      NobodyGone(files);
      NothingOf(entries);
      NoneOver(entries, files, maxTotal, removing, protected);
      NoneRecent(AccessTimes(entries), protected);
      if used <= maxTotal { return true, []; }
      AccessKeys(entries);
      var queue := Sort(AccessTimes(entries), entries.Keys - {protected});
      var i := EvictQueue(queue, removing);
      victims := queue[..i];
      Prefixes(old(entries), old(files), protected, maxTotal, removing, queue, i);
      OrderedLeastRecent(AccessTimes(old(entries)), protected, queue, i);
      ok := used <= maxTotal;
      if i == |queue| {
        assert queue[..i] == queue;
        AllGone(old(entries), queue, protected);
      }
    }

    /** In order, one after the other, until the account is within the budget or a file cannot be removed. */
    method EvictQueue(queue: seq<string>, removing: set<string>) returns (i: nat)
      requires Accounted() && Ordered(AccessTimes(entries), queue) && forall k | k in queue :: k in entries
      modifies this`files, this`entries, this`used, this`ledger
      ensures i <= |queue| && Accounted()
      ensures entries == Without(old(entries), queue[..i]) && files == Without(old(files), queue[..i])
      ensures ledger == old(ledger).(evicted := old(ledger).evicted + BytesOf(old(entries), queue[..i]))
      ensures AllOver(old(entries), maxTotal, queue, i) && AllRemovable(old(entries), old(files), removing, queue, i)
      ensures used <= maxTotal || i == |queue| || (queue[i] in entries && queue[i] in files && queue[i] in removing)
    {
      hide Bytes, Ordered, Without, Intact, Ledger.Balances, BytesOf, AllOver, AllRemovable, AccessTimes;
      NobodyGone(entries);
      NobodyGone(files);
      NothingOf(entries);
      AllOverStart(entries, files, maxTotal, removing, queue);
      i := 0;
      assert queue[..0] == [];
      while i < |queue| && used > maxTotal
        invariant 0 <= i <= |queue| && Accounted()
        invariant entries == Without(old(entries), queue[..i]) && files == Without(old(files), queue[..i])
        invariant ledger == old(ledger).(evicted := old(ledger).evicted + BytesOf(old(entries), queue[..i]))
        invariant AllOver(old(entries), maxTotal, queue, i) && AllRemovable(old(entries), old(files), removing, queue, i)
      {
        assert queue[i] in queue;
        StillThere(AccessTimes(old(entries)), old(entries), queue, i);
        StillThereFile(AccessTimes(old(entries)), old(files), queue, i);
        if queue[i] in removing && queue[i] in files { break; }
        OneMoreOver(old(entries), old(files), maxTotal, removing, queue, i);
        OneMoreOf(old(entries), queue, i);
        OneGone(old(entries), old(files), queue, i);
        Drop(queue[i]);
        i := i + 1;
      }
    }

    /** The index of a starting process: all keys on disk, less the oldest where they are more than the budget; other names are
        left alone. */
    method Scan(now: int, faults: Faults) returns (ok: bool, ghost victims: seq<string>)
      requires entries == map[] && used == 0 && written == map[] && ledger == Ledger(0, 0, 0, 0, 0)
      requires forall k | k in files :: files[k].modified <= now
      modifies this
      ensures 0 < maxEntry <= maxTotal && (forall k | k in OnDisk(old(files)) :: k !in faults.reading && k !in faults.removing) ==> ok
      ensures ok ==> 0 < maxEntry <= maxTotal && forall k | k in OnDisk(old(files)) :: k !in faults.reading
      ensures ok ==> Valid() && clock == now
      ensures ok ==> entries == Without(OnDisk(old(files)), victims) && files == Without(old(files), victims)
      ensures ok ==> Oldest(OnDisk(old(files)), "", maxTotal, victims) && LeastRecent(AccessTimes(OnDisk(old(files))), "", victims)
      ensures ok ==> ledger == Ledger(Bytes(OnDisk(old(files))), 0, BytesOf(OnDisk(old(files)), victims), 0, 0)
      ensures ok && Bytes(OnDisk(old(files))) <= maxTotal ==> victims == []
      ensures ok ==> forall k | k in entries :: k in written && k in files && written[k] == files[k].body
    {
      hide Bytes, Without, Ordered, Intact, ValidKey, BytesOf, OnDisk, Oldest, LeastRecent;
      victims := [];
      if !(0 < maxEntry <= maxTotal) { return false, []; }
      ok := IndexAll(now, faults.reading);
      if !ok { return false, []; }
      ghost var found := entries;
      ok, victims := EvictLocked("", faults.removing);
      Kept(found, victims);
      Kept(old(files), victims);
      OnDiskKeys(old(files));
      NoneNeeded(found, "", maxTotal, victims);
      if forall k | k in entries :: k == "" { BytesOfOne(entries, ""); }
    }

    method IndexAll(now: int, reading: set<string>) returns (ok: bool)
      requires entries == map[] && used == 0 && written == map[] && ledger == Ledger(0, 0, 0, 0, 0) && 0 < maxEntry <= maxTotal
      requires forall k | k in files :: files[k].modified <= now
      modifies this`entries, this`used, this`written, this`ledger, this`clock
      ensures ok <==> forall k | k in OnDisk(files) :: k !in reading
      ensures ok ==> Accounted() && clock == now && entries == OnDisk(files) && ledger == Ledger(Bytes(entries), 0, 0, 0, 0)
      ensures ok ==> forall k | k in entries :: k in written && written[k] == files[k].body
    {
      assert Intact(files, map[], written, now);
      hide Bytes, Intact, ValidKey;
      clock := now;
      BytesOfOne(map[], "");
      var rest := files.Keys;
      while rest != {}
        invariant rest <= files.Keys
        invariant Accounted() && clock == now && ledger == Ledger(used, 0, 0, 0, 0)
        invariant forall k :: k in entries <==> k in files && k !in rest && ValidKey(k)
        invariant forall k | k in entries :: entries[k] == Entry(files[k].size, files[k].modified) && k !in reading
        invariant forall k | k in entries :: k in written && written[k] == files[k].body
        decreases |rest|
      {
        var k :| k in rest;
        if ValidKey(k) {
          if k in reading { return false; }
          Index(k);
        }
        rest := rest - {k};
      }
      return true;
    }

    /** Reading one archive.  Its access time reaches the disk only when a minute has passed since the access before. */
    method Get(key: string, now: int, faults: Faults) returns (status: int, response: Option<Body>)
      requires Valid() && clock <= now
      modifies this`files, this`entries, this`used, this`ledger, this`clock
      ensures Valid() && clock == now
      ensures status == if key !in old(entries) || key !in old(files) then 404 else if faults.open then 503 else 200
      ensures response == if status == 200 then Some(written[key]) else None
      ensures status == 200 ==> key in written
      ensures entries == if status == 200 then old(entries)[key := old(entries)[key].(accessed := now)]
                         else if status == 404 then old(entries) - {key} else old(entries)
      ensures ledger == if status == 404 && key in old(entries) then old(ledger).(missing := old(ledger).missing + old(entries)[key].size)
                        else old(ledger)
      ensures files == if status == 200 && now - old(entries)[key].accessed >= PersistSeconds && !faults.touch
                       then old(files)[key := old(files)[key].(modified := now)] else old(files)
      ensures status == 200 ==> old(files)[key].modified <= old(entries)[key].accessed
    {
      hide Bytes, Intact;
      IntactLater(files, entries, written, clock, now);
      clock := now;
      if key !in entries { return 404, None; }
      var value := entries[key];
      IntactAt(files, entries, written, clock, key);
      if key !in files {
        BytesWithout(entries, key);
        IntactWithout(files, entries, written, clock, key);
        entries := entries - {key};
        used := used - value.size;
        ledger := ledger.(missing := ledger.missing + value.size);
        return 404, None;
      }
      if faults.open { return 503, None; }
      response := Some(files[key].body);
      BytesWith(entries, key, Entry(value.size, now));
      IntactTouched(files, entries, written, clock, key);
      entries := entries[key := Entry(value.size, now)];
      if now - value.accessed >= PersistSeconds && !faults.touch {
        files := files[key := files[key].(modified := now)];
      }
      return 200, response;
    }

    /** The answer to an upload before it is linked under its name; 201 if it may be. */
    function Verdict(contentLength: int, size: nat, interrupted: bool, present: bool, faults: Faults): int {
      if contentLength > maxEntry then 413
      else if faults.create then 503
      else if interrupted then 400
      else if size > maxEntry then 413
      else if faults.sync then 503
      else if present then 409
      else if faults.link then 503
      else 201
    }

    /** Storing a new archive; what is already stored is never replaced, and a failure leaves no trace in the account.  `orphaned`
        says that the archive's file is left behind without an entry. */
    method Put(key: string, contentLength: int, body: Body, size: nat, interrupted: bool, now: int, faults: Faults)
      returns (status: int, ghost victims: seq<string>, ghost orphaned: bool)
      requires Valid() && clock <= now
      modifies this
      ensures Valid() && clock == now
      ensures status in {201, 400, 409, 413, 503}
      ensures status == 413 <==> contentLength > maxEntry || (size > maxEntry && !interrupted && !faults.create)
      ensures status == 400 <==> interrupted && contentLength <= maxEntry && !faults.create
      ensures status == 409 <==>
        && (key in old(entries) || key in old(files))
        && contentLength <= maxEntry && size <= maxEntry && !interrupted && !faults.create && !faults.sync
      ensures status == 201 <==>
        && key !in old(entries) && key !in old(files)
        && contentLength <= maxEntry && size <= maxEntry && !interrupted && !faults.create && !faults.sync && !faults.link
        && Bytes(Without(old(entries), victims)) + size <= maxTotal
      ensures LeastRecent(AccessTimes(old(entries)), key, victims)
      ensures
        var verdict := Verdict(contentLength, size, interrupted, key in old(entries) || key in old(files), faults);
        && (verdict != 201 ==> status == verdict && victims == [] && files == old(files) && ledger == old(ledger) && !orphaned)
        && (verdict == 201 ==> status == 201 || status == 503)
        && (verdict == 201 && (forall k | k in old(entries) :: k !in faults.removing) ==> status == 201)
        && (verdict == 201 ==> Oldest(old(entries)[key := Entry(size, now)], key, maxTotal, victims))
        && (verdict == 201 ==> ledger == Settled(old(ledger), old(entries), victims, size, status))
      ensures key !in victims && forall k | k in victims :: k in old(entries) && !(k in faults.removing && k in old(files))
      ensures entries == if status == 201 then Without(old(entries), victims)[key := Entry(size, now)] else Without(old(entries), victims)
      ensures files == if status == 201 || orphaned then Without(old(files), victims)[key := File(body, size, now)]
                       else Without(old(files), victims)
      ensures orphaned <==> key in files && key !in entries && key !in old(files)
      ensures orphaned <==>
        && Verdict(contentLength, size, interrupted, key in old(entries) || key in old(files), faults) == 201
        && status == 503 && key in faults.removing
      ensures forall k | k in old(written) && k in old(entries) && k in entries :: k in written && written[k] == old(written)[k]
      ensures status == 201 ==> key in written && written[key] == body
    {
      hide Bytes, Intact, Without, Ordered, Oldest, BytesOf, Settled, LeastRecent;
      NobodyGone(entries);
      NobodyGone(files);
      NoneRecent(AccessTimes(entries), key);
      IntactLater(files, entries, written, clock, now);
      clock := now;
      status := Verdict(contentLength, size, interrupted, key in entries || key in files, faults);
      if status != 201 { return status, [], false; }
      status, victims, orphaned := Insert(key, body, size, faults);
    }

    /** The archive is linked under its name and accounted for; if no room can be made for it, it goes again. */
    method Insert(key: string, body: Body, size: nat, faults: Faults) returns (status: int, ghost victims: seq<string>, ghost orphaned: bool)
      requires Valid() && size <= maxEntry && key !in entries && key !in files
      modifies this`files, this`entries, this`used, this`written, this`ledger
      ensures Valid() && key !in victims
      ensures status == 201 || status == 503
      ensures (forall k | k in old(entries) :: k !in faults.removing) ==> status == 201
      ensures forall k | k in victims :: k in old(entries) && !(k in faults.removing && k in old(files))
      ensures Oldest(old(entries)[key := Entry(size, clock)], key, maxTotal, victims)
      ensures LeastRecent(AccessTimes(old(entries)), key, victims)
      ensures status == 201 <==> Bytes(Without(old(entries), victims)) + size <= maxTotal
      ensures entries == if status == 201 then Without(old(entries), victims)[key := Entry(size, clock)] else Without(old(entries), victims)
      ensures files == if status == 201 || orphaned then Without(old(files), victims)[key := File(body, size, clock)]
                       else Without(old(files), victims)
      ensures orphaned <==> status == 503 && key in faults.removing
      ensures orphaned <==> key in files && key !in entries
      ensures written == old(written)[key := body]
      ensures ledger == Settled(old(ledger), old(entries), victims, size, status)
    {
      hide Bytes, Intact, Without, Ordered, Oldest, BytesOf, LeastRecent;
      Add(key, body, size);
      var ok;
      ok, victims := EvictLocked(key, faults.removing);
      InsertedTimes(old(entries), key, Entry(size, clock), victims);
      BytesWith(Without(old(entries), victims), key, Entry(size, clock));
      AddedKept(old(entries), victims, key, Entry(size, clock));
      AddedKept(old(files), victims, key, File(body, size, clock));
      AddedBytes(old(entries), victims, key, Entry(size, clock));
      Kept(old(entries), victims);
      if forall k | k in entries :: k == key { BytesOfOne(entries, key); }
      if ok { return 201, victims, false; }
      orphaned := key in faults.removing;
      RollBack(key, key in faults.removing);
      return 503, victims, orphaned;
    }

    method Add(key: string, body: Body, size: nat)
      requires Accounted() && key !in entries
      modifies this`files, this`entries, this`used, this`written, this`ledger
      ensures Accounted() && used == old(used) + size
      ensures files == old(files)[key := File(body, size, clock)] && entries == old(entries)[key := Entry(size, clock)]
      ensures written == old(written)[key := body]
      ensures ledger == old(ledger).(inserted := old(ledger).inserted + size)
    {
      hide Bytes, Intact;
      BytesWith(entries, key, Entry(size, clock));
      IntactInserted(files, entries, written, clock, key, body, size);
      files := files[key := File(body, size, clock)];
      entries := entries[key := Entry(size, clock)];
      written := written[key := body];
      used := used + size;
      ledger := ledger.(inserted := ledger.inserted + size);
    }

    /** Undoing an insert; the file stays behind if its removal fails. */
    method RollBack(key: string, fails: bool)
      requires Accounted() && key in entries
      modifies this`files, this`entries, this`used, this`ledger
      ensures Accounted() && used == old(used) - old(entries)[key].size
      ensures files == if fails then old(files) else old(files) - {key}
      ensures entries == old(entries) - {key}
      ensures ledger == old(ledger).(rolledBack := old(ledger).rolledBack + old(entries)[key].size)
    {
      hide Bytes, Intact;
      var size := entries[key].size;
      BytesWithout(entries, key);
      IntactWithout(files, entries, written, clock, key);
      if !fails { files := files - {key}; }
      used := used - size;
      entries := entries - {key};
      ledger := ledger.(rolledBack := ledger.rolledBack + size);
    }

    /** A sequence of requests, without anything happening to the files beside them. */
    method Serve(requests: seq<Request<Body>>, ghost key: string) returns (statuses: seq<int>)
      requires Valid() && Timely(clock, requests)
      requires key in files && key !in entries
      modifies this
      ensures Valid() && key in files && key !in entries
      ensures |statuses| == |requests|
      ensures forall i | 0 <= i < |requests| && requests[i].key == key ::
                statuses[i] == if requests[i].Read? then 404
                               else Verdict(requests[i].contentLength, requests[i].size, requests[i].interrupted, true, requests[i].faults)
    {
      hide Intact, Bytes, Without, Oldest, Settled, Ledger.Balances;
      statuses := [];
      for i := 0 to |requests|
        invariant Valid() && key in files && key !in entries && |statuses| == i
        invariant clock <= if i < |requests| then requests[i].at else clock
        invariant forall j | 0 <= j < i && requests[j].key == key ::
                    statuses[j] == if requests[j].Read? then 404
                                   else Verdict(requests[j].contentLength, requests[j].size, requests[j].interrupted, true, requests[j].faults)
      {
        var r := requests[i];
        var status;
        if r.Read? {
          var response;
          status, response := Get(r.key, r.at, r.faults);
        } else {
          ghost var index, disk := entries, files;
          ghost var victims, orphaned;
          status, victims, orphaned := Put(r.key, r.contentLength, r.body, r.size, r.interrupted, r.at, r.faults);
          Kept(index, victims);
          Kept(disk, victims);
        }
        statuses := statuses + [status];
      }
    }

    /** Reading one archive again and again. */
    method ReadAll(key: string, times: seq<int>) returns (statuses: seq<int>)
      requires Valid() && key in entries && key in files && Rising(clock, times)
      modifies this`files, this`entries, this`used, this`ledger, this`clock
      ensures Valid() && key in entries && key in files
      ensures |statuses| == |times| && forall i | 0 <= i < |times| :: statuses[i] == 200
      ensures files == old(files)[key := old(files)[key].(modified := Persisted(old(entries)[key].accessed, old(files)[key].modified, times))]
    {
      hide Intact, Bytes, Ledger.Balances;
      statuses := [];
      assert files == files[key := files[key].(modified := files[key].modified)];
      ghost var accessed, modified := entries[key].accessed, files[key].modified;
      assert times[..0] == [];
      for i := 0 to |times|
        invariant Valid() && key in entries && key in files && |statuses| == i && forall j | 0 <= j < i :: statuses[j] == 200
        invariant clock <= if i < |times| then times[i] else clock
        invariant entries[key].accessed == LastOf(accessed, times[..i])
        invariant files == old(files)[key := old(files)[key].(modified := Persisted(accessed, modified, times[..i]))]
      {
        assert times[..i + 1][..i] == times[..i];
        var status, _ := Get(key, times[i], NoFaults);
        statuses := statuses + [status];
      }
      assert times[..|times|] == times;
    }
  }

  // ----- Sequences of requests

  datatype Request<Body> =
    | Read(key: string, at: int, faults: Faults)
    | Write(key: string, at: int, faults: Faults, contentLength: int, body: Body, size: nat, interrupted: bool)

  predicate Timely<Body>(clock: int, requests: seq<Request<Body>>) {
    && (requests != [] ==> clock <= requests[0].at)
    && forall i | 0 <= i < |requests| - 1 :: requests[i].at <= requests[i + 1].at
  }

  predicate Rising(clock: int, times: seq<int>) {
    && (times != [] ==> clock <= times[0])
    && forall i | 0 <= i < |times| - 1 :: times[i] <= times[i + 1]
  }

  function LastOf(accessed: int, times: seq<int>): int {
    if times == [] then accessed else times[|times| - 1]
  }

  /** The time of the file after accesses at these times: each is persisted if the access before it is a minute old. */
  function Persisted(accessed: int, modified: int, times: seq<int>): int {
    if times == [] then modified
    else
      var front := times[..|times| - 1];
      if times[|times| - 1] - LastOf(accessed, front) >= PersistSeconds then times[|times| - 1] else Persisted(accessed, modified, front)
  }

  /** Access number `i` comes a minute or more after the one before. */
  predicate Gap(accessed: int, times: seq<int>, i: nat)
    requires i < |times|
  {
    times[i] - (if i == 0 then accessed else times[i - 1]) >= PersistSeconds
  }

  /** Reading moves the time of the file exactly if some access comes a minute or more after the one before. */
  lemma {:induction false} TimeMovesOverGaps(accessed: int, modified: int, times: seq<int>)
    requires modified <= accessed && Rising(accessed, times)
    ensures Persisted(accessed, modified, times) != modified <==> exists i | 0 <= i < |times| :: Gap(accessed, times, i)
    ensures modified <= Persisted(accessed, modified, times) <= LastOf(accessed, times)
    decreases |times|
  {
    if times != [] {
      var n := |times| - 1;
      var front := times[..n];
      TimeMovesOverGaps(accessed, modified, front);
      assert Gap(accessed, times, n) <==> times[n] - LastOf(accessed, front) >= PersistSeconds;
      assert forall i | 0 <= i < n :: Gap(accessed, front, i) == Gap(accessed, times, i);
    }
  }

  /** Every so many seconds, for as long as one likes. */
  function Every(seconds: nat, n: nat): (times: seq<int>)
    ensures |times| == n && forall i | 0 <= i < n :: times[i] == seconds * (i + 1)
  {
    seq(n, i => seconds * (i + 1))
  }

  /** An archive read every so many seconds is never stamped, however long this goes on, if and only if they are less than
      sixty. */
  lemma NeverStamped(seconds: nat, n: nat)
    requires n > 0
    ensures Rising(0, Every(seconds, n)) && (Persisted(0, 0, Every(seconds, n)) == 0 <==> seconds < 60)
  {
    var times := Every(seconds, n);
    forall i | 0 <= i < n ensures Gap(0, times, i) <==> seconds >= PersistSeconds {
      assert seconds * (i + 1) - seconds * i == seconds;
    }
    forall i | 0 <= i < n - 1 ensures times[i] <= times[i + 1] { assert seconds * (i + 2) == seconds * (i + 1) + seconds; }
    TimeMovesOverGaps(0, 0, times);
    assert Gap(0, times, 0) <==> seconds >= PersistSeconds;
  }

  function Repeat(c: char): (key: string)
    requires HexDigit(c)
    ensures ValidKey(key) && |key| == 32 && key[0] == c
  {
    seq(32, _ => c)
  }

  lemma OneOnDisk<Body>(key: string, file: File<Body>)
    requires ValidKey(key)
    ensures OnDisk(map[key := file]) == map[key := Entry(file.size, file.modified)]
    ensures Bytes(OnDisk(map[key := file])) == file.size
  {
    BytesOfOne(map[key := Entry(file.size, file.modified)], key);
  }

  lemma Stuck(old': string, new': string, e: Entry, f: Entry, victims: seq<string>)
    requires old' != new' && old' !in victims
    ensures Bytes(Without(map[old' := e], victims)[new' := f]) == e.size + f.size
  {
    hide Bytes;
    assert Without(map[old' := e], victims) == map[old' := e];
    BytesOfOne(map[old' := e], old');
    BytesWith(map[old' := e], new', f);
  }

  /** A full cache whose removals fail: the new archive cannot stay in the index and its file cannot go. */
  method OrphanWitness() returns (stored: int, read: int, again: int)
    ensures stored == 503 && read == 404 && again == 409
  {
    var old', new' := Repeat('a'), Repeat('b');
    var disk := map[old' := File(0, 1, 0)];
    var server := new Server<int>(1, 1, disk);
    ghost var victims, orphaned;
    var ok;
    ok, victims := server.Scan(0, NoFaults);
    OneOnDisk(old', disk[old']);
    NobodyGone(OnDisk(disk));
    NobodyGone(disk);
    var faults := NoFaults.(removing := {old', new'});
    stored, victims, orphaned := server.Put(new', 1, 1, 1, false, 1, faults);
    Stuck(old', new', Entry(1, 0), Entry(1, 1), victims);
    var response;
    read, response := server.Get(new', 2, NoFaults);
    again, victims, orphaned := server.Put(new', 1, 2, 1, false, 3, NoFaults);
  }

  lemma AccessKeys(entries: map<string, Entry>)
    ensures AccessTimes(entries).Keys == entries.Keys
  {
  }

  lemma NoneRecent(accessed: map<string, int>, keep: string)
    ensures LeastRecent(accessed, keep, [])
  {
  }

  lemma InsertedTimes(entries: map<string, Entry>, key: string, e: Entry, victims: seq<string>)
    requires LeastRecent(AccessTimes(entries[key := e]), key, victims) && key !in victims
    ensures LeastRecent(AccessTimes(entries), key, victims)
  {
    assert AccessTimes(entries[key := e]) == AccessTimes(entries)[key := e.accessed];
    LeastRecentWith(AccessTimes(entries), key, e.accessed, victims);
  }

  lemma NothingOf(entries: map<string, Entry>)
    ensures BytesOf(entries, []) == 0
  {
    NobodyGone(entries);
  }

  lemma OneMoreOf(entries: map<string, Entry>, queue: seq<string>, i: nat)
    requires i < |queue| && queue[i] in Without(entries, queue[..i])
    ensures queue[..i + 1] == queue[..i] + [queue[i]]
    ensures queue[i] in entries && Without(entries, queue[..i])[queue[i]] == entries[queue[i]]
    ensures BytesOf(entries, queue[..i + 1]) == BytesOf(entries, queue[..i]) + entries[queue[i]].size
  {
    hide Bytes;
    assert queue[..i + 1] == queue[..i] + [queue[i]];
    WithoutOne(entries, queue[..i], queue[i]);
    BytesWithout(Without(entries, queue[..i]), queue[i]);
  }

  lemma OneGone<V, W>(m: map<string, V>, w: map<string, W>, queue: seq<string>, i: nat)
    requires i < |queue|
    ensures Without(m, queue[..i + 1]) == Without(m, queue[..i]) - {queue[i]}
    ensures Without(w, queue[..i + 1]) == Without(w, queue[..i]) - {queue[i]}
  {
    assert queue[..i + 1] == queue[..i] + [queue[i]];
    WithoutOne(m, queue[..i], queue[i]);
    WithoutOne(w, queue[..i], queue[i]);
  }

  lemma StillThereFile<V>(accessed: map<string, int>, m: map<string, V>, queue: seq<string>, i: nat)
    requires Ordered(accessed, queue) && i < |queue|
    ensures queue[i] in Without(m, queue[..i]) <==> queue[i] in m
  {
    if queue[i] in m { StillThere(accessed, m, queue, i); }
  }

  /** At each of the first `i` victims there was still too much. */
  ghost predicate AllOver(entries: map<string, Entry>, budget: int, queue: seq<string>, i: nat)
    requires i <= |queue|
  {
    forall m | 0 <= m < i :: Bytes(Without(entries, queue[..m])) > budget
  }

  ghost predicate AllRemovable<Body>(entries: map<string, Entry>, files: map<string, File<Body>>, removing: set<string>, queue: seq<string>, i: nat)
    requires i <= |queue|
  {
    forall m | 0 <= m < i :: queue[m] in entries && !(queue[m] in removing && queue[m] in files)
  }

  lemma NoneOver<Body>(entries: map<string, Entry>, files: map<string, File<Body>>, budget: int, removing: set<string>, protected: string)
    ensures Oldest(entries, protected, budget, [])
  {
  }

  lemma AllOverStart<Body>(entries: map<string, Entry>, files: map<string, File<Body>>, budget: int, removing: set<string>, queue: seq<string>)
    ensures AllOver(entries, budget, queue, 0) && AllRemovable(entries, files, removing, queue, 0)
  {
  }

  lemma OneMoreOver<Body>(entries: map<string, Entry>, files: map<string, File<Body>>, budget: int, removing: set<string>, queue: seq<string>, i: nat)
    requires i < |queue| && AllOver(entries, budget, queue, i) && AllRemovable(entries, files, removing, queue, i)
    requires Bytes(Without(entries, queue[..i])) > budget && queue[i] in entries && !(queue[i] in removing && queue[i] in files)
    ensures AllOver(entries, budget, queue, i + 1) && AllRemovable(entries, files, removing, queue, i + 1)
  {
    hide Bytes, Without;
  }

  lemma Prefixes<Body>(entries: map<string, Entry>, files: map<string, File<Body>>, protected: string, budget: int, removing: set<string>,
                       queue: seq<string>, i: nat)
    requires FullOrder(entries, protected, queue) && i <= |queue|
    requires AllOver(entries, budget, queue, i) && AllRemovable(entries, files, removing, queue, i)
    ensures Oldest(entries, protected, budget, queue[..i]) && protected !in queue[..i]
    ensures forall k | k in queue[..i] :: k in entries && !(k in removing && k in files)
  {
    assert forall k | k in queue[..i] :: k in queue;
    hide Bytes, FullOrder;
    assert queue[..i] <= queue;
    forall m | 0 <= m < |queue[..i]| ensures Bytes(Without(entries, queue[..i][..m])) > budget { assert queue[..i][..m] == queue[..m]; }
  }

  /** Within the budget there are no victims. */
  lemma NoneNeeded(entries: map<string, Entry>, protected: string, budget: int, victims: seq<string>)
    requires Oldest(entries, protected, budget, victims)
    ensures Bytes(entries) <= budget ==> victims == []
  {
    hide Bytes;
    NobodyGone(entries);
    assert victims[..0] == [];
  }

  lemma OnDiskKeys<Body>(files: map<string, File<Body>>)
    ensures "" !in OnDisk(files) && forall k | k in OnDisk(files) :: k in files
  {
  }

  /** The ledger after an insert: what came in, what it displaced, and what went again if it failed. */
  ghost function Settled(before: Ledger, entries: map<string, Entry>, victims: seq<string>, size: nat, status: int): Ledger {
    before.(inserted := before.inserted + size,
            evicted := before.evicted + BytesOf(entries, victims),
            rolledBack := before.rolledBack + (if status == 201 then 0 else size))
  }

  lemma AddedBytes(entries: map<string, Entry>, victims: seq<string>, key: string, e: Entry)
    requires key !in entries && key !in victims
    ensures BytesOf(entries[key := e], victims) == BytesOf(entries, victims)
  {
    hide Bytes;
    AddedKept(entries, victims, key, e);
    BytesWith(entries, key, e);
    BytesWith(Without(entries, victims), key, e);
    Kept(entries, victims);
  }

  lemma AddedKept<V>(m: map<string, V>, victims: seq<string>, key: string, v: V)
    requires key !in m && key !in victims
    ensures Without(m[key := v], victims) == Without(m, victims)[key := v]
    ensures Without(m, victims)[key := v] - {key} == Without(m, victims) == Without(m, victims) - {key}
  {
  }

  lemma IntactLater<Body(!new)>(files: map<string, File<Body>>, entries: map<string, Entry>, written: map<string, Body>, clock: int, now: int)
    requires Intact(files, entries, written, clock) && clock <= now
    ensures Intact(files, entries, written, now)
  {
  }

  lemma IntactAt<Body(!new)>(files: map<string, File<Body>>, entries: map<string, Entry>, written: map<string, Body>, clock: int, key: string)
    requires Intact(files, entries, written, clock) && key in entries
    ensures key in written
    ensures key in files ==> files[key].body == written[key] && files[key].modified <= entries[key].accessed
  {
  }

  lemma IntactTouched<Body(!new)>(files: map<string, File<Body>>, entries: map<string, Entry>, written: map<string, Body>, clock: int, key: string)
    requires Intact(files, entries, written, clock) && key in entries && key in files
    ensures Intact(files, entries[key := Entry(entries[key].size, clock)], written, clock)
    ensures Intact(files[key := files[key].(modified := clock)], entries[key := Entry(entries[key].size, clock)], written, clock)
  {
  }

  lemma IntactInserted<Body(!new)>(files: map<string, File<Body>>, entries: map<string, Entry>, written: map<string, Body>, clock: int,
                                   key: string, body: Body, size: nat)
    requires Intact(files, entries, written, clock) && key !in entries
    ensures Intact(files[key := File(body, size, clock)], entries[key := Entry(size, clock)], written[key := body], clock)
  {
  }

  lemma Kept<V>(m: map<string, V>, victims: seq<string>)
    ensures forall k :: k in Without(m, victims) <==> k in m && k !in victims
    ensures forall k | k in Without(m, victims) :: Without(m, victims)[k] == m[k]
  {
  }
}
