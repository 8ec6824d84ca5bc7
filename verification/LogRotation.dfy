/** The rotating diagnostics log (electron/diagnostics.ts): what is kept, and how much. */
module LogRotation {
  import opened Basics

  type Byte = b: int | 0 <= b < 256

  /** One formatted event, as the bytes appended to the file. */
  type Entry = seq<Byte>

  /** A log file, as the entries appended to it. */
  type File = seq<Entry>

  function Bytes(f: File): nat {
    if f == [] then 0 else Bytes(f[..|f| - 1]) + |f[|f| - 1]|
  }

  /** The directory: file 0 is the live log, file i is `.i`. */
  type Directory = map<nat, File>

  /** Where the file at place `i` comes from when the backups move up one place; the one at `keep` is
      dropped, later ones are not touched. */
  function Source(i: nat, keep: nat): int {
    if i <= keep then i - 1 else i
  }

  function Rotated(files: Directory, keep: nat): Directory {
    (map i: nat | i <= keep && Source(i, keep) in files :: files[Source(i, keep)])
    + (map i | i in files && i > keep :: files[i])
  }

  /** Appending creates the live log when there is none. */
  function Appended(files: Directory, entry: Entry): Directory {
    files[0 := (if 0 in files then files[0] else []) + [entry]]
  }

  /** What one write does to the directory. */
  function Written(files: Directory, maxBytes: int, keep: nat, entry: Entry): Directory {
    var size := if 0 in files then Bytes(files[0]) else 0;
    Appended(if size > 0 && size + |entry| > maxBytes then Rotated(files, keep) else files, entry)
  }

  function At(files: Directory, i: int): Option<File> {
    if i in files then Some(files[i]) else None
  }

  function Renamed(files: Directory, from: nat, to: nat): Directory {
    if from in files then files[to := files[from]] - {from} else files
  }

  class Disk {
    var files: Directory

    method Rename(from: nat, to: nat)
      modifies this
      ensures files == Renamed(old(files), from, to)
    {
      if from in files {
        files := files[to := files[from]] - {from};
      }
    }

    constructor (files: Directory)
      ensures this.files == files
    {
      this.files := files;
    }
  }

  class DiagnosticsLog {
    const disk: Disk
    const maxBytes: int
    const keep: nat
    const broken: bool
    var size: nat

    /** The counter is the size of the live file. */
    ghost predicate Valid()
      reads this, disk
    {
      keep >= 1 && size == if 0 in disk.files then Bytes(disk.files[0]) else 0
    }

    /** `usable` is whether the directory could be made and the live file measured. */
    constructor (disk: Disk, usable: bool, maxBytes: int, keep: int)
      ensures usable ==> Valid()
      ensures this.disk == disk && this.maxBytes == maxBytes && this.broken == !usable
      ensures this.keep == if keep < 1 then 1 else keep
    {
      this.disk, this.maxBytes, broken := disk, maxBytes, !usable;
      this.keep := if keep < 1 then 1 else keep;
      size := if 0 in disk.files then Bytes(disk.files[0]) else 0;
    }

    method Write(entry: Entry)
      requires !broken ==> Valid()
      modifies `size, disk
      ensures !broken ==> Valid() && disk.files == Written(old(disk.files), maxBytes, keep, entry)
      ensures broken ==> disk.files == old(disk.files)
    {
      if broken {
        return;
      }
      if size > 0 && size + |entry| > maxBytes {
        Rotate();
      }
      var live := if 0 in disk.files then disk.files[0] else [];
      BytesSnoc(live, entry);
      assert Bytes([]) == 0;
      hide Bytes;
      disk.files := disk.files[0 := live + [entry]];
      size := size + |entry|;
    }

    method Rotate()
      requires Valid()
      modifies `size, disk
      ensures Valid() && size == 0 && disk.files == Rotated(old(disk.files), keep)
    {
      if keep in disk.files {
        disk.files := disk.files - {keep};
      }
      var i := keep - 1;
      while i >= 1
        invariant 0 <= i < keep
        invariant Shifted(old(disk.files), disk.files, i, keep)
      {
        ShiftOne(old(disk.files), disk.files, i, keep);
        disk.Rename(i, i + 1);
        i := i - 1;
      }
      ShiftLast(old(disk.files), disk.files, keep);
      disk.Rename(0, 1);
      size := 0;
    }
  }

  /** Part-way through a rotation: backups above `i` have moved, the others have not, and place `i + 1`
      is free. */
  ghost predicate Shifted(before: Directory, files: Directory, i: nat, keep: nat) {
    forall j: nat ::
        At(files, j) == if j <= i then At(before, j) else if j == i + 1 then None else At(before, Source(j, keep))
  }

  lemma ShiftOne(before: Directory, files: Directory, i: nat, keep: nat)
    requires Shifted(before, files, i, keep) && 1 <= i < keep
    ensures Shifted(before, Renamed(files, i, i + 1), i - 1, keep)
  {
    var after := Renamed(files, i, i + 1);
    forall j: nat
      ensures At(after, j) == if j <= i - 1 then At(before, j) else if j == i then None else At(before, Source(j, keep))
    {
      assert At(files, j) == if j <= i then At(before, j) else if j == i + 1 then None else At(before, Source(j, keep));
      assert At(files, i) == At(before, i);
    }
  }

  lemma ShiftLast(before: Directory, files: Directory, keep: nat)
    requires Shifted(before, files, 0, keep) && keep >= 1
    ensures Renamed(files, 0, 1) == Rotated(before, keep)
  {
    var after, rotated := Renamed(files, 0, 1), Rotated(before, keep);
    forall j: nat ensures At(after, j) == At(rotated, j) {
      assert At(files, j) == if j == 0 then At(before, j) else if j == 1 then None else At(before, Source(j, keep));
      assert At(files, 0) == At(before, 0);
    }
    SameDirectory(after, rotated);
  }

  lemma SameDirectory(a: Directory, b: Directory)
    requires forall j: nat :: At(a, j) == At(b, j)
    ensures a == b
  {
    forall j: nat ensures j in a <==> j in b {
      assert At(a, j) == At(b, j);
    }
    forall j: nat | j in a ensures a[j] == b[j] {
      assert At(a, j) == At(b, j);
    }
  }

  // --- Whole runs --------------------------------------------------------------------

  /** The directory after writing `entries` into an empty one. Restarting the app in between changes
      nothing: the constructor measures the live file again. */
  function Kept(entries: seq<Entry>, maxBytes: int, keep: nat): Directory {
    if entries == [] then map[]
    else Written(Kept(entries[..|entries| - 1], maxBytes, keep), maxBytes, keep, entries[|entries| - 1])
  }

  /** Reading log.n, …, log.1 and the live log one after another. */
  function Reading(files: Directory, n: nat): File {
    (if n in files then files[n] else []) + if n == 0 then [] else Reading(files, n - 1)
  }

  // The same run as a list of files, the live one first.

  function AsDirectory(gens: seq<File>): Directory {
    map i: nat | i < |gens| :: gens[i]
  }

  function Push(gens: seq<File>, maxBytes: int, keep: nat, entry: Entry): seq<File> {
    if gens == [] then [[entry]]
    else if Bytes(gens[0]) > 0 && Bytes(gens[0]) + |entry| > maxBytes then
      [[entry]] + if |gens| > keep then gens[..keep] else gens
    else [gens[0] + [entry]] + gens[1..]
  }

  function Generations(entries: seq<Entry>, maxBytes: int, keep: nat): seq<File> {
    if entries == [] then []
    else Push(Generations(entries[..|entries| - 1], maxBytes, keep), maxBytes, keep, entries[|entries| - 1])
  }

  function ReadAll(gens: seq<File>): File {
    if gens == [] then [] else ReadAll(gens[1..]) + gens[0]
  }

  lemma PushIsWritten(gens: seq<File>, maxBytes: int, keep: nat, entry: Entry)
    requires |gens| <= keep + 1 && keep >= 1
    ensures Written(AsDirectory(gens), maxBytes, keep, entry) == AsDirectory(Push(gens, maxBytes, keep, entry))
  {
    hide Bytes;
    var files := AsDirectory(gens);
    if gens != [] && Bytes(gens[0]) > 0 && Bytes(gens[0]) + |entry| > maxBytes {
      var moved := Rotated(files, keep);
      var rest := if |gens| > keep then gens[..keep] else gens;
      forall j: nat ensures At(Appended(moved, entry), j) == At(AsDirectory([[entry]] + rest), j) {
        assert At(moved, j) == At(files, Source(j, keep));
        assert [] + [entry] == [entry];
      }
      SameDirectory(Appended(moved, entry), AsDirectory([[entry]] + rest));
    } else {
      var live := if gens == [] then [] else gens[0];
      var older := if gens == [] then [] else gens[1..];
      assert [] + [entry] == [entry];
      forall j: nat ensures At(Appended(files, entry), j) == At(AsDirectory([live + [entry]] + older), j) {
      }
      SameDirectory(Appended(files, entry), AsDirectory([live + [entry]] + older));
      assert Push(gens, maxBytes, keep, entry) == [live + [entry]] + older;
    }
  }

  lemma {:induction false} ReadingIsReadAll(gens: seq<File>, n: nat)
    requires |gens| <= n + 1
    ensures Reading(AsDirectory(gens), n) == ReadAll(gens)
    decreases n
  {
    if |gens| == n + 1 {
      ReadAllOldest(gens);
      if n > 0 {
        ReadingSame(AsDirectory(gens), AsDirectory(gens[..n]), n - 1);
        ReadingIsReadAll(gens[..n], n - 1);
        assert Reading(AsDirectory(gens), n) == gens[n] + Reading(AsDirectory(gens), n - 1);
        hide Reading, ReadAll;
      } else {
        assert gens[0] + [] == [] + gens[0];
        assert gens[..0] == [];
      }
    } else if n > 0 {
      ReadingIsReadAll(gens, n - 1);
      assert [] + ReadAll(gens) == ReadAll(gens);
    } else {
      assert gens == [] && ReadAll([]) == [] && [] + [] == ReadAll([]);
    }
  }

  lemma {:induction false} ReadingSame(a: Directory, b: Directory, n: nat)
    requires forall i: nat :: i <= n ==> (i in a <==> i in b) && (i in a ==> a[i] == b[i])
    ensures Reading(a, n) == Reading(b, n)
  {
    if n > 0 {
      ReadingSame(a, b, n - 1);
    }
  }

  lemma {:induction false} ReadAllOldest(gens: seq<File>)
    requires gens != []
    ensures ReadAll(gens) == gens[|gens| - 1] + ReadAll(gens[..|gens| - 1])
  {
    if |gens| == 1 {
      assert [] + gens[0] == gens[0] + [];
      assert gens[1..] == [] && gens[..0] == [];
    } else {
      ReadAllOldest(gens[1..]);
      assert ReadAll(gens) == (gens[|gens| - 1] + ReadAll(gens[1..][..|gens| - 2])) + gens[0];
      assert gens[1..][..|gens| - 2] == gens[..|gens| - 1][1..];
    }
  }

  // --- Sizes -------------------------------------------------------------------------

  lemma BytesSnoc(f: File, e: Entry)
    ensures Bytes(f + [e]) == Bytes(f) + |e|
  {
    assert (f + [e])[..|f|] == f;
  }

  lemma {:induction false} BytesConcat(f: File, g: File)
    ensures Bytes(f + g) == Bytes(f) + Bytes(g)
  {
    if g == [] {
      assert f + g == f;
    } else {
      BytesConcat(f, g[..|g| - 1]);
      assert (f + g)[..|f + g| - 1] == f + g[..|g| - 1];
    }
  }

  lemma BytesFirst(f: File)
    requires f != []
    ensures Bytes(f) >= |f[0]|
  {
    BytesSnoc([], f[0]);
    BytesConcat([] + [f[0]], f[1..]);
    assert f == [f[0]] + f[1..];
  }

  // --- What every write keeps --------------------------------------------------------

  /** The older file was closed because the newer one's first entry did not fit any more. */
  predicate Overfull(older: File, newer: File, maxBytes: int) {
    newer != [] && Bytes(older) + |newer[0]| > maxBytes
  }

  predicate WithinLimit(f: File, maxBytes: int) {
    f != [] && (|f| >= 2 ==> Bytes(f) <= maxBytes)
  }

  ghost predicate Shape(gens: seq<File>, maxBytes: int, keep: nat) {
    && |gens| <= keep + 1
    && (forall i :: 0 <= i < |gens| ==> WithinLimit(gens[i], maxBytes))
    && (forall i :: 0 < i < |gens| ==> Overfull(gens[i], gens[i - 1], maxBytes))
    // No file is empty on disk.
    && (forall i :: 0 <= i < |gens| ==> Bytes(gens[i]) > 0)
  }

  lemma PushKeepsShape(gens: seq<File>, maxBytes: int, keep: nat, entry: Entry)
    requires Shape(gens, maxBytes, keep) && keep >= 1 && entry != []
    ensures Shape(Push(gens, maxBytes, keep, entry), maxBytes, keep)
  {
    BytesSnoc([], entry);
    assert Bytes([]) == 0 && [] + [entry] == [entry];
    hide Bytes;
    if gens == [] {
      assert WithinLimit([entry], maxBytes);
    } else if Bytes(gens[0]) + |entry| > maxBytes {
      OpeningKeepsShape(gens, if |gens| > keep then gens[..keep] else gens, maxBytes, keep, entry);
    } else {
      GrowingKeepsShape(gens, maxBytes, keep, entry);
    }
  }

  lemma OpeningKeepsShape(gens: seq<File>, left: seq<File>, maxBytes: int, keep: nat, entry: Entry)
    requires Shape(gens, maxBytes, keep) && gens != [] && entry != [] && Bytes([entry]) == |entry|
    requires left <= gens && |left| <= keep && Bytes(gens[0]) + |entry| > maxBytes
    ensures Shape([[entry]] + left, maxBytes, keep)
  {
    hide Bytes;
    var pushed := [[entry]] + left;
    assert WithinLimit(pushed[0], maxBytes);
    forall i | 0 < i < |pushed|
      ensures WithinLimit(pushed[i], maxBytes) && Overfull(pushed[i], pushed[i - 1], maxBytes) && Bytes(pushed[i]) > 0
    {
      assert pushed[i] == gens[i - 1] && WithinLimit(gens[i - 1], maxBytes) && Bytes(gens[i - 1]) > 0;
      if i > 1 {
        assert pushed[i - 1] == gens[i - 2] && Overfull(gens[i - 1], gens[i - 2], maxBytes);
      }
    }
  }

  lemma GrowingKeepsShape(gens: seq<File>, maxBytes: int, keep: nat, entry: Entry)
    requires Shape(gens, maxBytes, keep) && gens != [] && Bytes(gens[0]) + |entry| <= maxBytes
    ensures Shape([gens[0] + [entry]] + gens[1..], maxBytes, keep)
  {
    BytesSnoc(gens[0], entry);
    hide Bytes;
    var pushed := [gens[0] + [entry]] + gens[1..];
    assert WithinLimit(gens[0], maxBytes) && WithinLimit(pushed[0], maxBytes) && Bytes(pushed[0]) > 0;
    forall i | 0 < i < |pushed|
      ensures WithinLimit(pushed[i], maxBytes) && Overfull(pushed[i], pushed[i - 1], maxBytes) && Bytes(pushed[i]) > 0
    {
      assert pushed[i] == gens[i] && WithinLimit(gens[i], maxBytes) && Bytes(gens[i]) > 0;
      assert Overfull(gens[i], gens[i - 1], maxBytes) && pushed[i - 1][0] == gens[i - 1][0];
    }
  }

  /** Some prefix has been dropped, and this is exactly the rest. */
  predicate IsSuffix(tail: File, all: File) {
    |tail| <= |all| && all[|all| - |tail|..] == tail
  }

  /** A write loses the oldest file or nothing, and then adds its entry at the end. */
  lemma PushReads(gens: seq<File>, maxBytes: int, keep: nat, entry: Entry) returns (dropped: File, rest: File)
    requires |gens| <= keep + 1 && keep >= 1
    ensures ReadAll(gens) == dropped + rest
    ensures ReadAll(Push(gens, maxBytes, keep, entry)) == rest + [entry]
    ensures dropped != [] ==> |gens| == |Push(gens, maxBytes, keep, entry)| == keep + 1
    ensures |gens| <= |Push(gens, maxBytes, keep, entry)|
  {
    dropped, rest := [], ReadAll(gens);
    assert [] + ReadAll(gens) == ReadAll(gens);
    if gens == [] {
      assert [[entry]][1..] == [];
    } else if Bytes(gens[0]) > 0 && Bytes(gens[0]) + |entry| > maxBytes {
      var left := if |gens| > keep then gens[..keep] else gens;
      assert ([[entry]] + left)[1..] == left;
      if |gens| > keep {
        ReadAllOldest(gens);
        dropped, rest := gens[keep], ReadAll(gens[..keep]);
      }
    } else {
      assert ([gens[0] + [entry]] + gens[1..])[1..] == gens[1..];
      assert (ReadAll(gens[1..]) + gens[0]) + [entry] == ReadAll(gens[1..]) + (gens[0] + [entry]);
    }
  }

  /** Everything a run keeps, in one place. */
  ghost predicate Account(entries: seq<Entry>, maxBytes: int, keep: nat) {
    var gens := Generations(entries, maxBytes, keep);
    && Shape(gens, maxBytes, keep)
    && Kept(entries, maxBytes, keep) == AsDirectory(gens)
    && IsSuffix(ReadAll(gens), entries)
    && (ReadAll(gens) != entries ==> |gens| == keep + 1)
  }

  lemma {:induction false} KeepsAccount(entries: seq<Entry>, maxBytes: int, keep: nat)
    requires keep >= 1 && forall i :: 0 <= i < |entries| ==> entries[i] != []
    ensures Account(entries, maxBytes, keep)
  {
    hide Push, Written, Shape;
    if entries == [] {
      NothingWritten(maxBytes, keep);
    } else {
      var before, e := entries[..|entries| - 1], entries[|entries| - 1];
      KeepsAccount(before, maxBytes, keep);
      var gens := Generations(before, maxBytes, keep);
      ShapeCap(gens, maxBytes, keep);
      PushKeepsShape(gens, maxBytes, keep, e);
      PushIsWritten(gens, maxBytes, keep, e);
      var dropped, rest := PushReads(gens, maxBytes, keep, e);
      assert entries == before + [e];
      SuffixSnoc(dropped, rest, before, e);
      ShapeCap(Push(gens, maxBytes, keep, e), maxBytes, keep);
    }
  }

  lemma NothingWritten(maxBytes: int, keep: nat)
    ensures Account([], maxBytes, keep)
  {
  }

  lemma ShapeCap(gens: seq<File>, maxBytes: int, keep: nat)
    requires Shape(gens, maxBytes, keep)
    ensures |gens| <= keep + 1
  {
  }

  lemma SuffixSnoc(dropped: File, rest: File, before: File, e: Entry)
    requires IsSuffix(dropped + rest, before)
    ensures IsSuffix(rest + [e], before + [e])
    ensures dropped == [] && dropped + rest == before ==> rest + [e] == before + [e]
  {
    var start := |before| - |dropped + rest|;
    assert before == before[..start] + (dropped + rest);
    assert before + [e] == (before[..start] + dropped) + (rest + [e]);
  }

  /** From an empty directory, reading log.keep, …, log.1 and the live log gives a contiguous suffix of
      everything written, and a file over the limit holds a single entry. */
  lemma LogIsASuffix(entries: seq<Entry>, maxBytes: int, keep: nat)
    requires keep >= 1 && forall i :: 0 <= i < |entries| ==> entries[i] != []
    ensures var files := Kept(entries, maxBytes, keep);
            && IsSuffix(Reading(files, keep), entries)
            && (forall i :: i in files ==> i <= keep)
            && forall i :: i in files && |files[i]| >= 2 ==> Bytes(files[i]) <= maxBytes
  {
    KeepsAccount(entries, maxBytes, keep);
    var gens := Generations(entries, maxBytes, keep);
    ReadingIsReadAll(gens, keep);
    assert forall i: nat :: i < |gens| ==> WithinLimit(gens[i], maxBytes);
  }

  lemma NoFileIsEmpty(entries: seq<Entry>, maxBytes: int, keep: nat, i: nat)
    requires keep >= 1 && forall i :: 0 <= i < |entries| ==> entries[i] != []
    requires i in Kept(entries, maxBytes, keep)
    ensures Kept(entries, maxBytes, keep)[i] != []
  {
    KeepsAccount(entries, maxBytes, keep);
    assert WithinLimit(Generations(entries, maxBytes, keep)[i], maxBytes);
  }

  /** Files in pairs: each older file together with the next newer one holds more than one limit. */
  lemma {:induction false} PairsOverflow(gens: seq<File>, maxBytes: int, keep: nat, p: nat)
    requires Shape(gens, maxBytes, keep) && 2 * p <= |gens|
    ensures p > 0 ==> Bytes(ReadAll(gens)) > p * maxBytes
    decreases p
  {
    if p > 0 {
      var newer, older, rest := gens[0], gens[1], gens[2..];
      assert Overfull(older, newer, maxBytes);
      BytesFirst(newer);
      assert gens[1..][1..] == rest;
      BytesConcat(ReadAll(rest) + older, newer);
      BytesConcat(ReadAll(rest), older);
      forall i | 0 < i < |rest| ensures Overfull(rest[i], rest[i - 1], maxBytes) {
        assert Overfull(gens[i + 2], gens[i + 1], maxBytes);
      }
      PairsOverflow(rest, maxBytes, keep, p - 1);
      assert (p - 1) * maxBytes + maxBytes == p * maxBytes;
    }
  }

  /** Once anything has been thrown away, more than half the configured space of the newest log is
      still there after every write. */
  lemma EnoughIsKept(entries: seq<Entry>, maxBytes: int, keep: nat)
    requires keep >= 1 && forall i :: 0 <= i < |entries| ==> entries[i] != []
    requires Reading(Kept(entries, maxBytes, keep), keep) != entries
    ensures Bytes(Reading(Kept(entries, maxBytes, keep), keep)) > ((keep + 1) / 2) * maxBytes
  {
    KeepsAccount(entries, maxBytes, keep);
    var gens := Generations(entries, maxBytes, keep);
    ReadingIsReadAll(gens, keep);
    PairsOverflow(gens, maxBytes, keep, (keep + 1) / 2);
  }
}
