/** Thread-aware account locks: a table of per-account lock counts, shown to stand for the multiset
    of outstanding holds, with a write hold keeping every hold on its account on one thread. */
module AccountLocks {
  import opened Basics
  import opened ThreadSets
  import opened Messages

  // ---- What the table stands for ----

  datatype LockKind = Read | Write

  /** One lock on `account`, taken for a transaction queued on `thread`. */
  datatype Hold = Hold(account: Pubkey, thread: nat, kind: LockKind)

  ghost predicate Exclusive(h: multiset<Hold>) {
    forall a: Pubkey, t: nat, u: nat, k: LockKind ::
      Hold(a, t, Write) in h && Hold(a, u, k) in h ==> t == u
  }

  /** `thread` may take a lock of kind `kind` on `a`: no other thread is in its way. */
  ghost predicate MayLock(h: multiset<Hold>, a: Pubkey, kind: LockKind, thread: nat) {
    && (forall u: nat :: Hold(a, u, Write) in h ==> u == thread)
    && (kind == Write ==> forall u: nat :: Hold(a, u, Read) in h ==> u == thread)
  }

  ghost predicate MayLockAll(h: multiset<Hold>, keys: seq<Pubkey>, kind: LockKind, thread: nat) {
    forall a :: a in keys ==> MayLock(h, a, kind, thread)
  }

  ghost function KeyHolds(keys: seq<Pubkey>, kind: LockKind, thread: nat): multiset<Hold> {
    if keys == [] then multiset{}
    else multiset{Hold(keys[0], thread, kind)} + KeyHolds(keys[1..], kind, thread)
  }

  /** The holds a transaction with these keys takes when it is placed on `thread`. */
  ghost function LockHolds(writeKeys: seq<Pubkey>, readKeys: seq<Pubkey>, thread: nat): multiset<Hold> {
    KeyHolds(writeKeys, Write, thread) + KeyHolds(readKeys, Read, thread)
  }

  /** The threads that could take these locks and keep mutual exclusion. */
  ghost function CanLock(h: multiset<Hold>, writeKeys: seq<Pubkey>, readKeys: seq<Pubkey>, n: nat): set<nat> {
    set t | t in Below(n) && Exclusive(h + LockHolds(writeKeys, readKeys, t))
  }

  // ---- The table ----

  datatype AccountWriteLocks = AccountWriteLocks(threadId: nat, lockCount: nat)

  datatype AccountReadLocks = AccountReadLocks(threadSet: ThreadSet, lockCounts: seq<nat>)

  datatype LockEntry = LockEntry(writeLocks: Option<AccountWriteLocks>, readLocks: Option<AccountReadLocks>) {
    predicate IsVacant() {
      writeLocks.None? && readLocks.None?
    }
  }

  type LockTable = map<Pubkey, LockEntry>

  /** The entry of `a`, created vacant if it is missing. */
  function EntryOf(table: LockTable, a: Pubkey): LockEntry {
    if a in table then table[a] else LockEntry(None, None)
  }

  ghost predicate WriteMatches(w: Option<AccountWriteLocks>, h: multiset<Hold>, a: Pubkey, n: nat) {
    match w
    case None => forall t: nat :: Hold(a, t, Write) !in h
    case Some(locks) =>
      && locks.threadId < n
      && 0 < locks.lockCount == h[Hold(a, locks.threadId, Write)]
      && forall t: nat :: Hold(a, t, Write) in h ==> t == locks.threadId
  }

  ghost predicate ReadMatches(r: Option<AccountReadLocks>, h: multiset<Hold>, a: Pubkey, n: nat) {
    match r
    case None => forall t: nat :: Hold(a, t, Read) !in h
    case Some(locks) =>
      && |locks.lockCounts| == MAX_THREADS
      && locks.threadSet.Threads() != {}
      && locks.threadSet.Threads() <= Below(n)
      && (forall t: nat :: t in locks.threadSet.Threads() <==> Hold(a, t, Read) in h)
      && (forall t: nat :: t < MAX_THREADS ==> locks.lockCounts[t] == h[Hold(a, t, Read)])
  }

  ghost predicate EntryMatches(e: LockEntry, h: multiset<Hold>, a: Pubkey, n: nat) {
    WriteMatches(e.writeLocks, h, a, n) && ReadMatches(e.readLocks, h, a, n)
  }

  /** The table stands for exactly the holds `h`: counts are multiplicities, a bit is set where
      its count is positive, and an account has an entry iff something is held on it. */
  ghost predicate Represents(table: LockTable, h: multiset<Hold>, n: nat) {
    && n <= MAX_THREADS
    && Exclusive(h)
    && (forall a :: a in table ==> !table[a].IsVacant())
    && (forall a :: EntryMatches(EntryOf(table, a), h, a, n))
  }

  lemma EntryIffHeld(table: LockTable, h: multiset<Hold>, n: nat, a: Pubkey)
    requires Represents(table, h, n)
    ensures a in table <==> exists t: nat, k: LockKind :: Hold(a, t, k) in h
  {
    var e := EntryOf(table, a);
    assert EntryMatches(e, h, a, n);
    if a in table {
      assert !table[a].IsVacant();
      if e.writeLocks.Some? {
        assert Hold(a, e.writeLocks.value.threadId, Write) in h;
      } else {
        var t :| t in e.readLocks.value.threadSet.Threads();
        assert Hold(a, t, Read) in h;
      }
    } else {
      forall t: nat, k: LockKind ensures Hold(a, t, k) !in h {
        match k case Read => case Write =>
      }
    }
  }

  /** With nothing held the table is empty. */
  lemma EmptyTable(table: LockTable, n: nat)
    requires Represents(table, multiset{}, n)
    ensures table == map[]
  {
    forall a ensures a !in table { EntryIffHeld(table, multiset{}, n, a); }
  }

  // ---- One account at a time ----

  /** Stores a changed entry; an entry left vacant is removed. */
  function Store(table: LockTable, a: Pubkey, e: LockEntry): (r: LockTable)
    ensures forall b :: EntryOf(r, b) == if b == a then e else EntryOf(table, b)
    ensures (forall b :: b in table ==> !table[b].IsVacant()) ==> forall b :: b in r ==> !r[b].IsVacant()
  {
    if e.IsVacant() then table - {a} else table[a := e]
  }

  predicate CanWriteLock(e: LockEntry, t: nat) {
    && (e.readLocks.Some? ==> e.readLocks.value.threadSet.OnlyOneContained() == Some(t))
    && (e.writeLocks.Some? ==> e.writeLocks.value.threadId == t)
  }

  function WriteLocked(e: LockEntry, t: nat): LockEntry
    requires CanWriteLock(e, t)
  {
    e.(writeLocks := Some(AccountWriteLocks(t, if e.writeLocks.Some? then e.writeLocks.value.lockCount + 1 else 1)))
  }

  predicate CanWriteUnlock(e: LockEntry, t: nat) {
    e.writeLocks.Some? && e.writeLocks.value.threadId == t && e.writeLocks.value.lockCount > 0
  }

  function WriteUnlocked(e: LockEntry, t: nat): LockEntry
    requires CanWriteUnlock(e, t)
  {
    var count := e.writeLocks.value.lockCount - 1;
    e.(writeLocks := if count == 0 then None else Some(AccountWriteLocks(t, count)))
  }

  predicate CanReadLock(e: LockEntry, t: nat) {
    && t < MAX_THREADS
    && (e.writeLocks.Some? ==> e.writeLocks.value.threadId == t)
    && (e.readLocks.Some? ==> |e.readLocks.value.lockCounts| == MAX_THREADS)
  }

  function ReadLocked(e: LockEntry, t: nat): LockEntry
    requires CanReadLock(e, t)
  {
    match e.readLocks
    case Some(r) =>
      e.(readLocks := Some(AccountReadLocks(r.threadSet.Insert(t), r.lockCounts[t := r.lockCounts[t] + 1])))
    case None =>
      e.(readLocks := Some(AccountReadLocks(RawThreadSet.Only(t), OneCount(t))))
  }

  function OneCount(t: nat): (counts: seq<nat>)
    ensures |counts| == MAX_THREADS && forall i :: 0 <= i < MAX_THREADS ==> counts[i] == if i == t then 1 else 0
  {
    seq(MAX_THREADS, i => if i == t then 1 else 0)
  }

  predicate CanReadUnlock(e: LockEntry, t: nat) {
    && t < MAX_THREADS
    && e.readLocks.Some?
    && |e.readLocks.value.lockCounts| == MAX_THREADS
    && e.readLocks.value.threadSet.Contains(t)
    && e.readLocks.value.lockCounts[t] > 0
  }

  function ReadUnlocked(e: LockEntry, t: nat): LockEntry
    requires CanReadUnlock(e, t)
  {
    var r := e.readLocks.value;
    var counts := r.lockCounts[t := r.lockCounts[t] - 1];
    if counts[t] > 0 then e.(readLocks := Some(AccountReadLocks(r.threadSet, counts)))
    else if r.threadSet.Remove(t).IsEmpty() then e.(readLocks := None)
    else e.(readLocks := Some(AccountReadLocks(r.threadSet.Remove(t), counts)))
  }

  /** Changing the multiplicity of holds on one account leaves the entries of the others right. */
  lemma OtherEntries(table: LockTable, table': LockTable, h: multiset<Hold>, h': multiset<Hold>, n: nat, a: Pubkey)
    requires Represents(table, h, n)
    requires forall b :: b != a ==> EntryOf(table', b) == EntryOf(table, b)
    requires forall x: Hold :: x.account != a ==> h'[x] == h[x]
    ensures forall b :: b != a ==> EntryMatches(EntryOf(table', b), h', b, n)
  {
    forall b | b != a ensures EntryMatches(EntryOf(table', b), h', b, n) {
      assert EntryMatches(EntryOf(table, b), h, b, n);
    }
  }

  lemma AddKeepsExclusive(h: multiset<Hold>, a: Pubkey, kind: LockKind, t: nat)
    requires Exclusive(h) && MayLock(h, a, kind, t)
    ensures Exclusive(h + multiset{Hold(a, t, kind)})
  {
    var h' := h + multiset{Hold(a, t, kind)};
    forall b: Pubkey, u: nat, v: nat, k: LockKind | Hold(b, u, Write) in h' && Hold(b, v, k) in h'
      ensures u == v
    {
      if b == a && Hold(b, u, Write) in h && Hold(b, v, k) !in h {
        assert kind == k && v == t;
      } else if b == a && Hold(b, u, Write) !in h && Hold(b, v, k) in h {
        match k case Read => case Write =>
      }
    }
  }

  lemma WriteLockRepresents(table: LockTable, h: multiset<Hold>, n: nat, a: Pubkey, t: nat)
    requires Represents(table, h, n) && t < n && MayLock(h, a, Write, t)
    ensures CanWriteLock(EntryOf(table, a), t)
    ensures Represents(Store(table, a, WriteLocked(EntryOf(table, a), t)), h + multiset{Hold(a, t, Write)}, n)
  {
    var e := EntryOf(table, a);
    assert EntryMatches(e, h, a, n);
    WriteLockedMatches(e, h, a, n, t);
    AddKeepsExclusive(h, a, Write, t);
    OtherEntries(table, Store(table, a, WriteLocked(e, t)), h, h + multiset{Hold(a, t, Write)}, n, a);
  }

  lemma WriteLockedMatches(e: LockEntry, h: multiset<Hold>, a: Pubkey, n: nat, t: nat)
    requires EntryMatches(e, h, a, n) && t < n <= MAX_THREADS && MayLock(h, a, Write, t)
    ensures CanWriteLock(e, t)
    ensures EntryMatches(WriteLocked(e, t), h + multiset{Hold(a, t, Write)}, a, n)
  {
    if e.readLocks.Some? {
      assert e.readLocks.value.threadSet.Threads() == {t};
    }
  }

  lemma WriteUnlockRepresents(table: LockTable, h: multiset<Hold>, n: nat, a: Pubkey, t: nat)
    requires Represents(table, h, n) && Hold(a, t, Write) in h
    ensures CanWriteUnlock(EntryOf(table, a), t)
    ensures Represents(Store(table, a, WriteUnlocked(EntryOf(table, a), t)), h - multiset{Hold(a, t, Write)}, n)
  {
    var e := EntryOf(table, a);
    assert EntryMatches(e, h, a, n);
    var table' := Store(table, a, WriteUnlocked(e, t));
    var h' := h - multiset{Hold(a, t, Write)};
    OtherEntries(table, table', h, h', n, a);
    assert EntryMatches(EntryOf(table', a), h', a, n);
  }

  lemma ReadLockRepresents(table: LockTable, h: multiset<Hold>, n: nat, a: Pubkey, t: nat)
    requires Represents(table, h, n) && t < n && MayLock(h, a, Read, t)
    ensures CanReadLock(EntryOf(table, a), t)
    ensures Represents(Store(table, a, ReadLocked(EntryOf(table, a), t)), h + multiset{Hold(a, t, Read)}, n)
  {
    var e := EntryOf(table, a);
    assert EntryMatches(e, h, a, n);
    var table' := Store(table, a, ReadLocked(e, t));
    var h' := h + multiset{Hold(a, t, Read)};
    AddKeepsExclusive(h, a, Read, t);
    OtherEntries(table, table', h, h', n, a);
    ReadLockedMatches(e, h, a, n, t);
  }

  /** The multiplicity of the read holds on `a` after adding one. */
  lemma ReadAdded(h: multiset<Hold>, a: Pubkey, t: nat, u: nat)
    ensures var h' := h + multiset{Hold(a, t, Read)};
      && h'[Hold(a, u, Read)] == h[Hold(a, u, Read)] + (if u == t then 1 else 0)
      && h'[Hold(a, u, Write)] == h[Hold(a, u, Write)]
  {}

  lemma ReadTaken(h: multiset<Hold>, a: Pubkey, t: nat, u: nat)
    requires Hold(a, t, Read) in h
    ensures var h' := h - multiset{Hold(a, t, Read)};
      && h'[Hold(a, u, Read)] == h[Hold(a, u, Read)] - (if u == t then 1 else 0)
      && h'[Hold(a, u, Write)] == h[Hold(a, u, Write)]
  {}

  /** The write locks of an entry are right as long as the multiplicity of the write holds stays. */
  lemma WriteMatchesStill(w: Option<AccountWriteLocks>, h: multiset<Hold>, h': multiset<Hold>, a: Pubkey, n: nat)
    requires WriteMatches(w, h, a, n) && forall u: nat :: h'[Hold(a, u, Write)] == h[Hold(a, u, Write)]
    ensures WriteMatches(w, h', a, n)
  {
    forall u: nat ensures Hold(a, u, Write) in h' <==> Hold(a, u, Write) in h {
      assert h'[Hold(a, u, Write)] == h[Hold(a, u, Write)];
    }
  }

  lemma ReadLockedMatches(e: LockEntry, h: multiset<Hold>, a: Pubkey, n: nat, t: nat)
    requires EntryMatches(e, h, a, n) && t < n <= MAX_THREADS && MayLock(h, a, Read, t)
    ensures CanReadLock(e, t)
    ensures EntryMatches(ReadLocked(e, t), h + multiset{Hold(a, t, Read)}, a, n)
  {
    var h' := h + multiset{Hold(a, t, Read)};
    forall u: nat
      ensures h'[Hold(a, u, Read)] == h[Hold(a, u, Read)] + (if u == t then 1 else 0)
      ensures h'[Hold(a, u, Write)] == h[Hold(a, u, Write)]
    {
      ReadAdded(h, a, t, u);
    }
    WriteMatchesStill(e.writeLocks, h, h', a, n);
    ReadMatchesMore(e.readLocks, h, h', a, n, t);
    assert ReadLocked(e, t).writeLocks == e.writeLocks;
  }

  /** One read lock more on `t`. */
  lemma ReadMatchesMore(r: Option<AccountReadLocks>, h: multiset<Hold>, h': multiset<Hold>, a: Pubkey, n: nat, t: nat)
    requires ReadMatches(r, h, a, n) && t < n <= MAX_THREADS
    requires forall u: nat :: h'[Hold(a, u, Read)] == h[Hold(a, u, Read)] + (if u == t then 1 else 0)
    ensures CanReadLock(LockEntry(None, r), t)
    ensures ReadMatches(ReadLocked(LockEntry(None, r), t).readLocks, h', a, n)
  {
    forall u: nat ensures Hold(a, u, Read) in h' <==> u == t || Hold(a, u, Read) in h {
      assert h'[Hold(a, u, Read)] == h[Hold(a, u, Read)] + (if u == t then 1 else 0);
    }
  }

  lemma ReadUnlockRepresents(table: LockTable, h: multiset<Hold>, n: nat, a: Pubkey, t: nat)
    requires Represents(table, h, n) && Hold(a, t, Read) in h
    ensures CanReadUnlock(EntryOf(table, a), t)
    ensures Represents(Store(table, a, ReadUnlocked(EntryOf(table, a), t)), h - multiset{Hold(a, t, Read)}, n)
  {
    var e := EntryOf(table, a);
    assert EntryMatches(e, h, a, n);
    ReadUnlockedMatches(e, h, a, n, t);
    OtherEntries(table, Store(table, a, ReadUnlocked(e, t)), h, h - multiset{Hold(a, t, Read)}, n, a);
  }

  lemma ReadUnlockedMatches(e: LockEntry, h: multiset<Hold>, a: Pubkey, n: nat, t: nat)
    requires EntryMatches(e, h, a, n) && n <= MAX_THREADS && Hold(a, t, Read) in h
    ensures CanReadUnlock(e, t)
    ensures EntryMatches(ReadUnlocked(e, t), h - multiset{Hold(a, t, Read)}, a, n)
  {
    var h' := h - multiset{Hold(a, t, Read)};
    assert t in e.readLocks.value.threadSet.Threads();
    forall u: nat
      ensures h'[Hold(a, u, Read)] == h[Hold(a, u, Read)] - (if u == t then 1 else 0)
      ensures h'[Hold(a, u, Write)] == h[Hold(a, u, Write)]
    {
      ReadTaken(h, a, t, u);
    }
    WriteMatchesStill(e.writeLocks, h, h', a, n);
    ReadMatchesLess(e.readLocks.value, h, h', a, n, t);
    assert ReadUnlocked(e, t).writeLocks == e.writeLocks;
  }

  /** One read lock less on `t`. */
  lemma ReadMatchesLess(r: AccountReadLocks, h: multiset<Hold>, h': multiset<Hold>, a: Pubkey, n: nat, t: nat)
    requires ReadMatches(Some(r), h, a, n) && n <= MAX_THREADS && t in r.threadSet.Threads()
    requires forall u: nat :: h'[Hold(a, u, Read)] == h[Hold(a, u, Read)] - (if u == t then 1 else 0)
    ensures CanReadUnlock(LockEntry(None, Some(r)), t)
    ensures ReadMatches(ReadUnlocked(LockEntry(None, Some(r)), t).readLocks, h', a, n)
  {
    forall u: nat ensures Hold(a, u, Read) in h' <==> Hold(a, u, Read) in h && (u == t ==> r.lockCounts[t] > 1) {
      assert h'[Hold(a, u, Read)] == h[Hold(a, u, Read)] - (if u == t then 1 else 0);
    }
    if r.lockCounts[t] == 1 && r.threadSet.Remove(t).IsEmpty() {
      forall u: nat ensures Hold(a, u, Read) !in h' {
        assert u !in r.threadSet.Remove(t).Threads();
      }
    }
  }

  // ---- Which threads may lock ----

  /** The threads an access of the given kind can be scheduled on when all others are reads. */
  function BesideReaders(readers: ThreadSet, n: nat, write: bool): ThreadSet
    requires n <= MAX_THREADS
  {
    if write then
      match readers.OnlyOneContained()
      case Some(t) => OneThread(readers); RawThreadSet.Only(t)
      case None => RawThreadSet.NoThreads()
    else RawThreadSet.Any(n)
  }

  /** The threads an access of the given kind to `a` can be scheduled on. */
  function SchedulableThreads(table: LockTable, n: nat, a: Pubkey, write: bool): ThreadSet
    requires n <= MAX_THREADS
    requires a in table && table[a].writeLocks.Some? ==> table[a].writeLocks.value.threadId < MAX_THREADS
    requires a in table && table[a].writeLocks.Some? && table[a].readLocks.Some? ==>
      table[a].readLocks.value.threadSet.OnlyOneContained() == Some(table[a].writeLocks.value.threadId)
    requires a in table ==> !table[a].IsVacant()
  {
    if a !in table then RawThreadSet.Any(n)
    else match table[a]
      case LockEntry(None, Some(r)) => BesideReaders(r.threadSet, n, write)
      case LockEntry(Some(w), None) => RawThreadSet.Only(w.threadId)
      case LockEntry(Some(w), Some(r)) => r.threadSet
  }

  lemma OneThread(s: ThreadSet)
    requires s.OnlyOneContained().Some?
    ensures s.OnlyOneContained().value < MAX_THREADS
  {
    assert s.OnlyOneContained().value in s.Threads();
  }

  lemma MixedEntry(e: LockEntry, h: multiset<Hold>, a: Pubkey, n: nat)
    requires EntryMatches(e, h, a, n) && Exclusive(h) && n <= MAX_THREADS
    requires e.writeLocks.Some? && e.readLocks.Some?
    ensures e.readLocks.value.threadSet.Threads() == {e.writeLocks.value.threadId}
    ensures e.readLocks.value.threadSet.OnlyOneContained() == Some(e.writeLocks.value.threadId)
  {
    var w, s := e.writeLocks.value.threadId, e.readLocks.value.threadSet;
    assert Hold(a, w, Write) in h;
    forall t | t in s.Threads() ensures t == w { assert Hold(a, t, Read) in h; }
    var t :| t in s.Threads();
    assert s.Threads() == {w};
  }

  /** The threads that may take a lock on `a`. */
  ghost function FreeThreads(h: multiset<Hold>, a: Pubkey, kind: LockKind, n: nat): set<nat> {
    set t | t in Below(n) && MayLock(h, a, kind, t)
  }

  lemma FreeIfWritten(h: multiset<Hold>, a: Pubkey, kind: LockKind, n: nat, w: nat)
    requires Exclusive(h) && Hold(a, w, Write) in h && w < n
    ensures FreeThreads(h, a, kind, n) == {w}
  {
    forall t: nat ensures MayLock(h, a, kind, t) <==> t == w {}
  }

  lemma FreeIfNotWritten(h: multiset<Hold>, a: Pubkey, n: nat)
    requires forall t: nat :: Hold(a, t, Write) !in h
    ensures FreeThreads(h, a, Read, n) == Below(n)
    ensures (forall t: nat :: Hold(a, t, Read) !in h) ==> FreeThreads(h, a, Write, n) == Below(n)
  {}

  lemma FreeIfRead(h: multiset<Hold>, a: Pubkey, n: nat, s: set<nat>)
    requires forall t: nat :: Hold(a, t, Write) !in h
    requires s != {} && s <= Below(n) && forall t: nat :: t in s <==> Hold(a, t, Read) in h
    ensures forall t :: s == {t} ==> FreeThreads(h, a, Write, n) == {t}
    ensures (forall t :: s != {t}) ==> FreeThreads(h, a, Write, n) == {}
  {
    forall t: nat ensures MayLock(h, a, Write, t) <==> s == {t} {
      if MayLock(h, a, Write, t) {
        var u :| u in s;
        assert forall v :: v in s ==> v == t;
      }
    }
  }

  lemma BesideReadersIs(readers: ThreadSet, h: multiset<Hold>, a: Pubkey, n: nat, write: bool)
    requires n <= MAX_THREADS && forall t: nat :: Hold(a, t, Write) !in h
    requires readers.Threads() != {} && readers.Threads() <= Below(n)
    requires forall t: nat :: t in readers.Threads() <==> Hold(a, t, Read) in h
    ensures BesideReaders(readers, n, write).Threads() == FreeThreads(h, a, if write then Write else Read, n)
  {
    if write { FreeIfRead(h, a, n, readers.Threads()); } else { FreeIfNotWritten(h, a, n); }
  }

  /** The set offered is exactly the threads that may take the lock; the internal assertion of the
      mixed case holds and the vacant case is unreachable. */
  lemma SchedulableIsMayLock(table: LockTable, h: multiset<Hold>, n: nat, a: Pubkey, write: bool)
    requires Represents(table, h, n)
    ensures SchedulableThreads.requires(table, n, a, write)
    ensures SchedulableThreads(table, n, a, write).Threads() == FreeThreads(h, a, if write then Write else Read, n)
  {
    var e := EntryOf(table, a);
    assert EntryMatches(e, h, a, n);
    if e.writeLocks.Some? {
      FreeIfWritten(h, a, if write then Write else Read, n, e.writeLocks.value.threadId);
      if e.readLocks.Some? { MixedEntry(e, h, a, n); }
    } else if e.readLocks.Some? {
      BesideReadersIs(e.readLocks.value.threadSet, h, a, n, write);
    } else {
      FreeIfNotWritten(h, a, n);
    }
  }

  /** The threads of `base` that may take every one of these locks. */
  ghost function FreeForAll(h: multiset<Hold>, keys: seq<Pubkey>, kind: LockKind, n: nat, base: set<nat>): set<nat> {
    if keys == [] then base
    else FreeForAll(h, keys[..|keys| - 1], kind, n, base) * FreeThreads(h, keys[|keys| - 1], kind, n)
  }

  lemma FreeForAllNext(h: multiset<Hold>, keys: seq<Pubkey>, kind: LockKind, n: nat, base: set<nat>, i: nat)
    requires i < |keys|
    ensures FreeForAll(h, keys[..i + 1], kind, n, base) ==
      FreeForAll(h, keys[..i], kind, n, base) * FreeThreads(h, keys[i], kind, n)
  {
    assert keys[..i + 1][..i] == keys[..i] && keys[..i + 1][i] == keys[i];
  }

  lemma {:induction false} FreeForAllShrinks(h: multiset<Hold>, keys: seq<Pubkey>, kind: LockKind, n: nat,
                                             base: set<nat>, i: nat)
    requires i <= |keys|
    ensures FreeForAll(h, keys, kind, n, base) <= FreeForAll(h, keys[..i], kind, n, base)
    decreases |keys| - i
  {
    if i == |keys| {
      assert keys[..i] == keys;
    } else {
      FreeForAllNext(h, keys, kind, n, base, i);
      FreeForAllShrinks(h, keys, kind, n, base, i + 1);
    }
  }

  lemma {:induction false} FreeForAllIs(h: multiset<Hold>, keys: seq<Pubkey>, kind: LockKind, n: nat, base: set<nat>,
                                        t: nat)
    requires base <= Below(n)
    ensures t in FreeForAll(h, keys, kind, n, base) <==> t in base && MayLockAll(h, keys, kind, t)
  {
    if keys != [] {
      var init, last := keys[..|keys| - 1], keys[|keys| - 1];
      FreeForAllIs(h, init, kind, n, base, t);
      assert keys == init + [last];
      assert MayLockAll(h, keys, kind, t) <==> MayLockAll(h, init, kind, t) && MayLock(h, last, kind, t);
    }
  }

  /** The threads every one of the accounts can be locked on. */
  ghost function Offered(h: multiset<Hold>, writeKeys: seq<Pubkey>, readKeys: seq<Pubkey>, n: nat): set<nat> {
    FreeForAll(h, readKeys, Read, n, FreeForAll(h, writeKeys, Write, n, Below(n)))
  }

  lemma OfferedIsCanLock(h: multiset<Hold>, writeKeys: seq<Pubkey>, readKeys: seq<Pubkey>, n: nat)
    requires Exclusive(h)
    ensures Offered(h, writeKeys, readKeys, n) == CanLock(h, writeKeys, readKeys, n)
  {
    var writable := FreeForAll(h, writeKeys, Write, n, Below(n));
    forall t: nat ensures t in writable <==> t in Below(n) && MayLockAll(h, writeKeys, Write, t) {
      FreeForAllIs(h, writeKeys, Write, n, Below(n), t);
    }
    forall t: nat ensures t in Offered(h, writeKeys, readKeys, n) <==> t in CanLock(h, writeKeys, readKeys, n) {
      FreeForAllIs(h, readKeys, Read, n, writable, t);
      MayLockIsExclusion(h, writeKeys, readKeys, t);
    }
  }

  /** Locks already on `t` are in nobody's way on `t`. */
  lemma {:induction false} KeyHoldsOnThread(keys: seq<Pubkey>, kind: LockKind, t: nat)
    ensures forall x :: x in KeyHolds(keys, kind, t) <==> x.thread == t && x.kind == kind && x.account in keys
  {
    if keys != [] {
      KeyHoldsOnThread(keys[1..], kind, t);
    }
  }

  /** A thread may take all the locks of a transaction iff doing so keeps mutual exclusion. */
  lemma MayLockIsExclusion(h: multiset<Hold>, writeKeys: seq<Pubkey>, readKeys: seq<Pubkey>, t: nat)
    requires Exclusive(h)
    ensures MayLockAll(h, writeKeys, Write, t) && MayLockAll(h, readKeys, Read, t)
      <==> Exclusive(h + LockHolds(writeKeys, readKeys, t))
  {
    KeyHoldsOnThread(writeKeys, Write, t);
    KeyHoldsOnThread(readKeys, Read, t);
    var h' := h + LockHolds(writeKeys, readKeys, t);
    assert forall x :: x in h' <==>
      x in h || (x.thread == t && x.account in if x.kind == Write then writeKeys else readKeys);
    if Exclusive(h') {
      forall a | a in writeKeys ensures MayLock(h, a, Write, t) {
        assert Hold(a, t, Write) in h';
      }
      forall a | a in readKeys ensures MayLock(h, a, Read, t) {
        assert Hold(a, t, Read) in h';
      }
    }
    if MayLockAll(h, writeKeys, Write, t) && MayLockAll(h, readKeys, Read, t) {
      forall a: Pubkey, u: nat, v: nat, k: LockKind | Hold(a, u, Write) in h' && Hold(a, v, k) in h'
        ensures u == v
      {
        if Hold(a, u, Write) in h && Hold(a, v, k) !in h {
          assert MayLock(h, a, k, t);
        } else if Hold(a, u, Write) !in h && Hold(a, v, k) in h {
          assert MayLock(h, a, Write, t);
          match k case Read => case Write =>
        }
      }
    }
  }

  lemma {:induction false} KeyHoldsConcat(xs: seq<Pubkey>, ys: seq<Pubkey>, kind: LockKind, t: nat)
    ensures KeyHolds(xs + ys, kind, t) == KeyHolds(xs, kind, t) + KeyHolds(ys, kind, t)
  {
    if xs == [] {
      assert xs + ys == ys;
    } else {
      assert (xs + ys)[1..] == xs[1..] + ys;
      KeyHoldsConcat(xs[1..], ys, kind, t);
    }
  }

  lemma KeyHoldsNext(keys: seq<Pubkey>, i: nat, kind: LockKind, t: nat)
    requires i < |keys|
    ensures KeyHolds(keys[..i + 1], kind, t) == KeyHolds(keys[..i], kind, t) + multiset{Hold(keys[i], t, kind)}
  {
    assert keys[..i + 1] == keys[..i] + [keys[i]];
    KeyHoldsConcat(keys[..i], [keys[i]], kind, t);
    assert KeyHolds([keys[i]], kind, t) == multiset{Hold(keys[i], t, kind)} + KeyHolds([], kind, t);
  }

  lemma PrefixHeld(keys: seq<Pubkey>, i: nat, kind: LockKind, t: nat)
    requires i <= |keys|
    ensures KeyHolds(keys[..i], kind, t) <= KeyHolds(keys, kind, t)
  {
    KeyHoldsConcat(keys[..i], keys[i..], kind, t);
    assert keys == keys[..i] + keys[i..];
  }

  lemma UnlockStep(h: multiset<Hold>, keys: seq<Pubkey>, i: nat, kind: LockKind, t: nat)
    requires i < |keys| && KeyHolds(keys, kind, t) <= h
    ensures Hold(keys[i], t, kind) in h - KeyHolds(keys[..i], kind, t)
    ensures h - KeyHolds(keys[..i], kind, t) - multiset{Hold(keys[i], t, kind)} == h - KeyHolds(keys[..i + 1], kind, t)
  {
    KeyHoldsNext(keys, i, kind, t);
    PrefixHeld(keys, i + 1, kind, t);
    MinusStep(h, KeyHolds(keys[..i], kind, t), Hold(keys[i], t, kind));
  }

  lemma MinusStep(h: multiset<Hold>, taken: multiset<Hold>, x: Hold)
    requires taken + multiset{x} <= h
    ensures x in h - taken && h - taken - multiset{x} == h - (taken + multiset{x})
  {
    assert (taken + multiset{x})[x] == taken[x] + 1;
  }

  /** A lock added on `t` leaves `t` free to take what it could take before. */
  lemma MayLockKept(h: multiset<Hold>, keys: seq<Pubkey>, kind: LockKind, t: nat, added: Hold)
    requires MayLockAll(h, keys, kind, t) && added.thread == t
    ensures MayLockAll(h + multiset{added}, keys, kind, t)
  {
    forall a | a in keys ensures MayLock(h + multiset{added}, a, kind, t) {
      assert MayLock(h, a, kind, t);
    }
  }

  class ThreadAwareAccountLocks {
    const numThreads: nat
    var locks: LockTable
    ghost var holds: multiset<Hold>

    ghost predicate Valid()
      reads this
    {
      numThreads > 0 && Represents(locks, holds, numThreads)
    }

    constructor (numThreads: nat)
      requires 0 < numThreads <= MAX_THREADS
      ensures Valid() && holds == multiset{} && this.numThreads == numThreads && locks == map[]
    {
      this.numThreads := numThreads;
      locks := map[];
      holds := multiset{};
    }

    /** Locks the accounts on a thread chosen by `selector` among all the allowed threads that can
        take them, or returns `None` exactly when no allowed thread could do so and keep mutual
        exclusion. */
    method TryLockAccounts(writeKeys: seq<Pubkey>, readKeys: seq<Pubkey>, allowed: ThreadSet,
                           selector: ThreadSet --> nat)
      returns (r: Option<nat>)
      requires Valid()
      requires forall s: ThreadSet :: s.Threads() != {} && s.Threads() <= Below(numThreads) ==>
        selector.requires(s) && selector(s) in s.Threads()
      modifies this
      ensures Valid()
      ensures r.None? <==> CanLock(old(holds), writeKeys, readKeys, numThreads) * allowed.Threads() == {}
      ensures r.None? ==> locks == old(locks) && holds == old(holds)
      ensures r.Some? ==>
        && r.value in CanLock(old(holds), writeKeys, readKeys, numThreads) * allowed.Threads()
        && holds == old(holds) + LockHolds(writeKeys, readKeys, r.value)
      ensures r.Some? ==> exists s: ThreadSet ::
        && s.Threads() == CanLock(old(holds), writeKeys, readKeys, numThreads) * allowed.Threads()
        && selector.requires(s) && r.value == selector(s)
    {
      OfferedIsCanLock(holds, writeKeys, readKeys, numThreads);
      var offered := AccountsSchedulableThreads(writeKeys, readKeys);
      if offered.None? {
        return None;
      }
      var schedulable := offered.value.And(allowed);
      if schedulable.IsEmpty() {
        return None;
      }
      var thread := selector(schedulable);
      assert thread in schedulable.Threads();
      MayLockIsExclusion(holds, writeKeys, readKeys, thread);
      LockAccounts(writeKeys, readKeys, thread);
      r := Some(thread);
    }

    /** The threads every one of these accounts can be locked on, or `None` when there are none. */
    method AccountsSchedulableThreads(writeKeys: seq<Pubkey>, readKeys: seq<Pubkey>) returns (r: Option<ThreadSet>)
      requires Valid()
      ensures r.Some? ==> r.value.Threads() == Offered(holds, writeKeys, readKeys, numThreads)
      ensures r.None? ==> Offered(holds, writeKeys, readKeys, numThreads) == {}
    {
      r := NarrowThreads(RawThreadSet.Any(numThreads), writeKeys, true);
      if r.Some? {
        r := NarrowThreads(r.value, readKeys, false);
      } else {
        FreeForAllShrinks(holds, readKeys, Read, numThreads, {}, 0);
      }
    }

    /** Intersects `schedulable` with the threads of each key in turn, giving up once it is empty. */
    method NarrowThreads(schedulable: ThreadSet, keys: seq<Pubkey>, write: bool) returns (r: Option<ThreadSet>)
      requires Valid()
      ensures r.Some? ==>
        r.value.Threads() == FreeForAll(holds, keys, if write then Write else Read, numThreads, schedulable.Threads())
      ensures r.None? ==>
        FreeForAll(holds, keys, if write then Write else Read, numThreads, schedulable.Threads()) == {}
    {
      var narrowed := schedulable;
      ghost var kind := if write then Write else Read;
      for i := 0 to |keys|
        invariant narrowed.Threads() == FreeForAll(holds, keys[..i], kind, numThreads, schedulable.Threads())
      {
        SchedulableIsMayLock(locks, holds, numThreads, keys[i], write);
        FreeForAllNext(holds, keys, kind, numThreads, schedulable.Threads(), i);
        var offered := SchedulableThreads(locks, numThreads, keys[i], write);
        narrowed := narrowed.And(offered);
        if narrowed.IsEmpty() {
          FreeForAllShrinks(holds, keys, kind, numThreads, schedulable.Threads(), i + 1);
          return None;
        }
      }
      assert keys[..|keys|] == keys;
      r := Some(narrowed);
    }

    method LockAccounts(writeKeys: seq<Pubkey>, readKeys: seq<Pubkey>, thread: nat)
      requires Valid() && thread < numThreads
      requires MayLockAll(holds, writeKeys, Write, thread) && MayLockAll(holds, readKeys, Read, thread)
      modifies this
      ensures Valid() && holds == old(holds) + LockHolds(writeKeys, readKeys, thread)
    {
      for i := 0 to |writeKeys|
        invariant Valid() && holds == old(holds) + KeyHolds(writeKeys[..i], Write, thread)
        invariant MayLockAll(holds, writeKeys, Write, thread) && MayLockAll(holds, readKeys, Read, thread)
      {
        KeyHoldsNext(writeKeys, i, Write, thread);
        MayLockKept(holds, writeKeys, Write, thread, Hold(writeKeys[i], thread, Write));
        MayLockKept(holds, readKeys, Read, thread, Hold(writeKeys[i], thread, Write));
        WriteLockAccount(writeKeys[i], thread);
      }
      assert writeKeys[..|writeKeys|] == writeKeys;
      ReadLockAccounts(readKeys, thread);
    }

    method ReadLockAccounts(readKeys: seq<Pubkey>, thread: nat)
      requires Valid() && thread < numThreads && MayLockAll(holds, readKeys, Read, thread)
      modifies this
      ensures Valid() && holds == old(holds) + KeyHolds(readKeys, Read, thread)
    {
      for i := 0 to |readKeys|
        invariant Valid() && holds == old(holds) + KeyHolds(readKeys[..i], Read, thread)
        invariant MayLockAll(holds, readKeys, Read, thread)
      {
        KeyHoldsNext(readKeys, i, Read, thread);
        MayLockKept(holds, readKeys, Read, thread, Hold(readKeys[i], thread, Read));
        ReadLockAccount(readKeys[i], thread);
      }
      assert readKeys[..|readKeys|] == readKeys;
    }

    /** Releases the locks of a transaction; every one of them must be held. */
    method UnlockAccounts(writeKeys: seq<Pubkey>, readKeys: seq<Pubkey>, thread: nat)
      requires Valid() && LockHolds(writeKeys, readKeys, thread) <= holds
      modifies this
      ensures Valid() && holds == old(holds) - LockHolds(writeKeys, readKeys, thread)
    {
      WriteUnlockAccounts(writeKeys, thread);
      ReadUnlockAccounts(readKeys, thread);
    }

    method WriteUnlockAccounts(writeKeys: seq<Pubkey>, thread: nat)
      requires Valid() && KeyHolds(writeKeys, Write, thread) <= holds
      modifies this
      ensures Valid() && holds == old(holds) - KeyHolds(writeKeys, Write, thread)
    {
      for i := 0 to |writeKeys|
        invariant Valid() && holds == old(holds) - KeyHolds(writeKeys[..i], Write, thread)
      {
        UnlockStep(old(holds), writeKeys, i, Write, thread);
        WriteUnlockAccount(writeKeys[i], thread);
      }
      assert writeKeys[..|writeKeys|] == writeKeys;
    }

    method ReadUnlockAccounts(readKeys: seq<Pubkey>, thread: nat)
      requires Valid() && KeyHolds(readKeys, Read, thread) <= holds
      modifies this
      ensures Valid() && holds == old(holds) - KeyHolds(readKeys, Read, thread)
    {
      for i := 0 to |readKeys|
        invariant Valid() && holds == old(holds) - KeyHolds(readKeys[..i], Read, thread)
      {
        UnlockStep(old(holds), readKeys, i, Read, thread);
        ReadUnlockAccount(readKeys[i], thread);
      }
      assert readKeys[..|readKeys|] == readKeys;
    }

    /** Panics unless every lock on the account is on `thread`. */
    method WriteLockAccount(account: Pubkey, thread: nat)
      requires Valid() && thread < numThreads && MayLock(holds, account, Write, thread)
      modifies this
      ensures Valid() && holds == old(holds) + multiset{Hold(account, thread, Write)}
    {
      WriteLockRepresents(locks, holds, numThreads, account, thread);
      var entry := EntryOf(locks, account);
      if entry.readLocks.Some? {
        assert entry.readLocks.value.threadSet.OnlyOneContained() == Some(thread);
      }
      if entry.writeLocks.Some? {
        assert entry.writeLocks.value.threadId == thread;
        entry := entry.(writeLocks := Some(entry.writeLocks.value.(lockCount := entry.writeLocks.value.lockCount + 1)));
      } else {
        entry := entry.(writeLocks := Some(AccountWriteLocks(thread, 1)));
      }
      locks := locks[account := entry];
      holds := holds + multiset{Hold(account, thread, Write)};
    }

    /** Panics unless the account is locked for writing on `thread`. */
    method WriteUnlockAccount(account: Pubkey, thread: nat)
      requires Valid() && Hold(account, thread, Write) in holds
      modifies this
      ensures Valid() && holds == old(holds) - multiset{Hold(account, thread, Write)}
    {
      WriteUnlockRepresents(locks, holds, numThreads, account, thread);
      assert account in locks && locks[account].writeLocks.Some?;
      var entry := locks[account];
      var writeLocks := entry.writeLocks.value;
      assert writeLocks.threadId == thread;
      writeLocks := writeLocks.(lockCount := writeLocks.lockCount - 1);
      if writeLocks.lockCount == 0 {
        entry := entry.(writeLocks := None);
        if entry.readLocks.None? {
          locks := locks - {account};
        } else {
          locks := locks[account := entry];
        }
      } else {
        locks := locks[account := entry.(writeLocks := Some(writeLocks))];
      }
      holds := holds - multiset{Hold(account, thread, Write)};
    }

    /** Panics if the account is locked for writing on another thread. */
    method ReadLockAccount(account: Pubkey, thread: nat)
      requires Valid() && thread < numThreads && MayLock(holds, account, Read, thread)
      modifies this
      ensures Valid() && holds == old(holds) + multiset{Hold(account, thread, Read)}
    {
      ReadLockRepresents(locks, holds, numThreads, account, thread);
      var entry := CountReader(EntryOf(locks, account), thread);
      assert locks[account := entry] == Store(locks, account, entry);
      locks := locks[account := entry];
      holds := holds + multiset{Hold(account, thread, Read)};
    }

    /** The entry with one more read lock of `thread`. */
    static method CountReader(before: LockEntry, thread: nat) returns (entry: LockEntry)
      requires CanReadLock(before, thread)
      ensures entry == ReadLocked(before, thread)
    {
      if before.writeLocks.Some? {
        assert before.writeLocks.value.threadId == thread;
      }
      match before.readLocks {
        case Some(r) =>
          var counts := r.lockCounts[thread := r.lockCounts[thread] + 1];
          entry := before.(readLocks := Some(AccountReadLocks(r.threadSet.Insert(thread), counts)));
        case None =>
          entry := before.(readLocks := Some(AccountReadLocks(RawThreadSet.Only(thread), OneCount(thread))));
      }
    }

    /** Panics unless the account is locked for reading on `thread`. */
    method ReadUnlockAccount(account: Pubkey, thread: nat)
      requires Valid() && Hold(account, thread, Read) in holds
      modifies this
      ensures Valid() && holds == old(holds) - multiset{Hold(account, thread, Read)}
    {
      ReadUnlockRepresents(locks, holds, numThreads, account, thread);
      assert account in locks && locks[account].readLocks.Some?;
      var entry := locks[account];
      var readLocks := entry.readLocks.value;
      assert readLocks.threadSet.Contains(thread);
      readLocks := readLocks.(lockCounts := readLocks.lockCounts[thread := readLocks.lockCounts[thread] - 1]);
      if readLocks.lockCounts[thread] == 0 {
        readLocks := readLocks.(threadSet := readLocks.threadSet.Remove(thread));
        if readLocks.threadSet.IsEmpty() {
          entry := entry.(readLocks := None);
          if entry.writeLocks.None? {
            locks := locks - {account};
          } else {
            locks := locks[account := entry];
          }
        } else {
          locks := locks[account := entry.(readLocks := Some(readLocks))];
        }
      } else {
        locks := locks[account := entry.(readLocks := Some(readLocks))];
      }
      holds := holds - multiset{Hold(account, thread, Read)};
    }
  }
}
