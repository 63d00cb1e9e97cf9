/**
 The records of one service's log, kept in an active file with rotated backups.
 What the files hold is always the newest part of one append-only list.
 */
module LogFiles {
  datatype Stream = Stdout | Stderr | System

  /** One record.  `bytes` is the length of its encoded line. */
  datatype Record = Record(number: nat, stream: Stream, time: int, message: string, bytes: nat)

  datatype Options = Options(maxSize: nat, maxBackups: nat, ringCapacity: nat)

  /** Options after the defaults have been filled in. */
  predicate Normal(o: Options) {
    o.maxSize > 0 && o.ringCapacity > 0
  }

  /** Files by index: 0 is the active file, i the i-th backup. */
  type Files = map<nat, seq<Record>>

  // ------------------------------------------------------------------ sequences

  /** The last `n` elements, or all if there are fewer. */
  function Last<T>(s: seq<T>, n: nat): seq<T> {
    if |s| <= n then s else s[|s| - n..]
  }

  ghost predicate Suffix<T>(s: seq<T>, all: seq<T>) {
    |s| <= |all| && s == all[|all| - |s|..]
  }

  function Max(a: nat, b: nat): nat {
    if a < b then b else a
  }

  function Min(a: nat, b: nat): nat {
    if a < b then a else b
  }

  lemma SuffixOfSuffix<T>(a: seq<T>, b: seq<T>, all: seq<T>)
    requires Suffix(a, b) && Suffix(b, all)
    ensures Suffix(a, all)
  {
  }

  lemma LastIsSuffix<T>(s: seq<T>, n: nat)
    ensures Suffix(Last(s, n), s) && |Last(s, n)| == Min(n, |s|)
  {
  }

  /** Suffixes of the same list are determined by their length. */
  lemma SuffixByLength<T>(a: seq<T>, b: seq<T>, all: seq<T>)
    requires Suffix(a, all) && Suffix(b, all) && |a| == |b|
    ensures a == b
  {
  }

  lemma SuffixGrows<T>(s: seq<T>, all: seq<T>, x: T)
    requires Suffix(s, all)
    ensures Suffix(s + [x], all + [x])
  {
  }

  // ----------------------------------------------------------------------- files

  function File(files: Files, i: nat): seq<Record> {
    if i in files then files[i] else []
  }

  function Size(file: seq<Record>): nat {
    if file == [] then 0 else file[0].bytes + Size(file[1..])
  }

  lemma {:induction false} SizeSnoc(file: seq<Record>, r: Record)
    ensures Size(file + [r]) == Size(file) + r.bytes
  {
    if file == [] {
      assert [r][1..] == [];
      assert Size([r]) == r.bytes + Size([]);
    } else {
      assert (file + [r])[1..] == file[1..] + [r];
      SizeSnoc(file[1..], r);
    }
  }

  /** Backups up to index `n`, oldest first, and the active file. */
  function Joined(files: Files, n: nat): seq<Record>
  {
    if n == 0 then File(files, 0) else File(files, n) + Joined(files, n - 1)
  }

  /** What the files hold without the oldest of `n` backups. */
  function WithoutOldest(files: Files, n: nat): seq<Record> {
    if n == 0 then [] else Joined(files, n - 1)
  }

  /** Where file `k` comes from when the backups above `hole` have moved up by one. */
  function Source(k: nat, hole: nat, maxBackups: nat): nat {
    if hole < k <= maxBackups then k - 1 else k
  }

  /** Every file above `hole` has moved up by one, the oldest backup is gone and
      there is no file `hole`.  A finished rotation has its hole at 0. */
  ghost predicate Shifted(before: Files, after: Files, hole: nat, maxBackups: nat) {
    forall k: nat ::
      && (k in after <==> k != hole && Source(k, hole, maxBackups) in before)
      && (k in after ==> after[k] == before[Source(k, hole, maxBackups)])
  }

  function Renamed(files: Files, i: nat, j: nat): Files {
    if i in files then (files - {i})[j := files[i]] else files
  }

  lemma RemovingMakesHole(before: Files, maxBackups: nat)
    ensures Shifted(before, before - {maxBackups}, maxBackups, maxBackups)
  {
  }

  /** Renaming backup `i` into the hole above it moves the hole to `i`. */
  lemma HoleMoves(before: Files, now: Files, next: Files, i: nat, maxBackups: nat)
    requires i < maxBackups && Shifted(before, now, i + 1, maxBackups) && next == Renamed(now, i, i + 1)
    ensures Shifted(before, next, i, maxBackups)
  {
  }

  lemma {:induction false} ShiftJoins(before: Files, after: Files, maxBackups: nat, n: nat)
    requires Shifted(before, after, 0, maxBackups) && n <= maxBackups
    ensures Joined(after, n) == if n == 0 then [] else Joined(before, n - 1)
  {
    hide Shifted, File;
    FileAfterShift(before, after, maxBackups, n);
    if n > 0 {
      ShiftJoins(before, after, maxBackups, n - 1);
    }
  }

  /** Appending to the active file appends to what is retained. */
  lemma {:induction false} WriteJoins(files: Files, n: nat, r: Record)
    ensures Joined(files[0 := File(files, 0) + [r]], n) == Joined(files, n) + [r]
  {
    if n > 0 {
      WriteJoins(files, n - 1, r);
    }
  }

  lemma {:induction false} NewerFilesAreSuffix(files: Files, k: nat, n: nat)
    requires k <= n
    ensures Suffix(Joined(files, k), Joined(files, n))
    decreases n
  {
    if k < n {
      NewerFilesAreSuffix(files, k, n - 1);
      SuffixOfSuffix(Joined(files, k), Joined(files, n - 1), Joined(files, n));
    }
  }

  /** Every file is within the limit or holds a single record. */
  ghost predicate Bounded(files: Files, maxBackups: nat, maxSize: nat) {
    forall i: nat | i <= maxBackups :: Size(File(files, i)) <= maxSize || |File(files, i)| == 1
  }

  /** Record k of the log carries number k + 1. */
  ghost predicate Numbered(all: seq<Record>) {
    forall k | 0 <= k < |all| :: all[k].number == k + 1
  }

  /** The files hold the newest part of the log without a gap, no file is over the
      limit unless it is a single record, and records are numbered in order. */
  ghost predicate Retains(files: Files, all: seq<Record>, o: Options) {
    && Suffix(Joined(files, o.maxBackups), all)
    && Bounded(files, o.maxBackups, o.maxSize)
    && Numbered(all)
  }

  /** What every operation keeps: the newest record is also in the active file, so
      reopening finds the last number. */
  ghost predicate Sound(files: Files, all: seq<Record>, o: Options) {
    Retains(files, all, o) && (all != [] ==> File(files, 0) != [])
  }

  lemma {:induction false} NoFilesJoin(n: nat)
    ensures Joined(map[], n) == []
  {
    if n > 0 {
      NoFilesJoin(n - 1);
    }
  }

  lemma EmptyLogIsSound(o: Options)
    ensures Sound(map[], [], o)
  {
    NoFilesJoin(o.maxBackups);
  }

  /** Creating an empty active file changes nothing. */
  lemma {:induction false} OpenJoins(files: Files, n: nat)
    ensures Joined(files[0 := File(files, 0)], n) == Joined(files, n)
  {
    if n > 0 {
      OpenJoins(files, n - 1);
    }
  }

  lemma {:induction false} RetainedEndsInActiveFile(files: Files, n: nat)
    ensures Suffix(File(files, 0), Joined(files, n))
  {
    NewerFilesAreSuffix(files, 0, n);
  }

  /** The files after `r` was appended to the active one. */
  function Written(files: Files, r: Record): Files {
    files[0 := File(files, 0) + [r]]
  }

  /** Appending a record that fits, or that goes into an empty file, is sound. */
  lemma WriteIsSound(files: Files, all: seq<Record>, o: Options, r: Record)
    requires Retains(files, all, o) && r.number == |all| + 1
    requires Size(File(files, 0)) + r.bytes <= o.maxSize || File(files, 0) == []
    ensures Sound(Written(files, r), all + [r], o)
  {
    var next := Written(files, r);
    WriteJoins(files, o.maxBackups, r);
    SuffixGrows(Joined(files, o.maxBackups), all, r);
    SizeSnoc(File(files, 0), r);
    forall i: nat | i <= o.maxBackups
      ensures Size(File(next, i)) <= o.maxSize || |File(next, i)| == 1
    {
      assert i > 0 ==> File(next, i) == File(files, i);
    }
  }

  lemma FileAfterShift(before: Files, after: Files, maxBackups: nat, k: nat)
    requires Shifted(before, after, 0, maxBackups) && k <= maxBackups
    ensures File(after, k) == if k == 0 then [] else File(before, k - 1)
  {
  }

  /** Rotating drops the oldest backup and leaves room for the next record. */
  lemma RotateRetains(files: Files, rotated: Files, all: seq<Record>, o: Options)
    requires Retains(files, all, o) && Shifted(files, rotated, 0, o.maxBackups)
    ensures Retains(rotated, all, o) && File(rotated, 0) == []
  {
    hide Shifted;
    var n := o.maxBackups;
    FileAfterShift(files, rotated, n, 0);
    ShiftJoins(files, rotated, n, n);
    if n > 0 {
      NewerFilesAreSuffix(files, n - 1, n);
      SuffixOfSuffix(Joined(files, n - 1), Joined(files, n), all);
    }
    forall i: nat | i <= n
      ensures Size(File(rotated, i)) <= o.maxSize || |File(rotated, i)| == 1
    {
      FileAfterShift(files, rotated, n, i);
    }
  }

  /** Opening the active file creates it if it is not there. */
  lemma OpenRetains(files: Files, all: seq<Record>, o: Options)
    requires Retains(files, all, o)
    ensures Retains(files[0 := File(files, 0)], all, o)
  {
    var reopened := files[0 := File(files, 0)];
    OpenJoins(files, o.maxBackups);
    forall i: nat | i <= o.maxBackups
      ensures Size(File(reopened, i)) <= o.maxSize || |File(reopened, i)| == 1
    {
      assert File(reopened, i) == File(files, i);
    }
  }

  /** The directory of one service's log files.  `all` is every record appended to
      it, by any daemon. */
  class Disk {
    var files: Files
    ghost var all: seq<Record>

    constructor ()
      ensures files == map[] && all == []
      ensures forall o :: Sound(files, all, o)
    {
      files, all := map[], [];
      new;
      forall o ensures Sound(files, all, o) {
        EmptyLogIsSound(o);
      }
    }

    method Remove(i: nat)
      modifies this`files
      ensures files == old(files) - {i}
    {
      files := files - {i};
    }

    /** Fails silently when there is nothing to rename. */
    method Rename(i: nat, j: nat)
      requires i != j
      modifies this`files
      ensures files == Renamed(old(files), i, j)
    {
      if i in files {
        files := (files - {i})[j := files[i]];
      }
    }

    /** Opens the active file for appending. */
    method Open()
      modifies this`files
      ensures files == old(files)[0 := File(old(files), 0)]
    {
      files := files[0 := if 0 in files then files[0] else []];
    }

    method RotateFiles(maxBackups: nat)
      modifies this`files
      ensures Shifted(old(files), files, 0, maxBackups)
    {
      hide Shifted, Renamed;
      RemovingMakesHole(files, maxBackups);
      if maxBackups == 0 {
        Remove(0);
        return;
      }
      Remove(maxBackups);
      var i := maxBackups - 1;
      while i >= 1
        invariant 0 <= i < maxBackups
        invariant Shifted(old(files), files, i + 1, maxBackups)
      {
        ghost var before := files;
        Rename(i, i + 1);
        HoleMoves(old(files), before, files, i, maxBackups);
        i := i - 1;
      }
      ghost var before := files;
      Rename(0, 1);
      HoleMoves(old(files), before, files, 0, maxBackups);
    }
  }
}
