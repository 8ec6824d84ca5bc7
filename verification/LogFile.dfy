/** The log on disk, end to end (electron/diagnostics.ts): events are formatted, encoded as UTF-8 (RFC 3629,
    section 3), appended and rotated; what the files hold reads back as the newest of them. */
module LogFile {
  import opened Basics
  import opened Framing
  import opened LogFormat
  import R = LogRotation

  // --- UTF-8 -------------------------------------------------------------------------

  function EncodeChar(c: char): (bytes: seq<R.Byte>)
    ensures 1 <= |bytes| <= 4
  {
    var n := c as int;
    if n < 0x80 then [n]
    else if n < 0x800 then [0xC0 + n / 64, 0x80 + n % 64]
    else if n < 0x10000 then [0xE0 + n / 64 / 64, 0x80 + n / 64 % 64, 0x80 + n % 64]
    else [0xF0 + n / 64 / 64 / 64, 0x80 + n / 64 / 64 % 64, 0x80 + n / 64 % 64, 0x80 + n % 64]
  }

  function Encode(s: string): seq<R.Byte> {
    if s == "" then [] else EncodeChar(s[0]) + Encode(s[1..])
  }

  predicate IsScalar(n: int) {
    0 <= n < 0xD800 || 0xE000 <= n < 0x110000
  }

  /** A continuation byte adds its six bits. */
  function Continued(n: int, b: R.Byte): int {
    n * 64 + (b as int - 0x80)
  }

  /** The number at the front, and the bytes it took. */
  function CodePoint(b: seq<R.Byte>): (int, nat)
    requires b != []
  {
    var first := b[0] as int;
    if first < 0x80 then (first, 1)
    else if 0xC0 <= first < 0xE0 && |b| >= 2 then (Continued(first - 0xC0, b[1]), 2)
    else if 0xE0 <= first < 0xF0 && |b| >= 3 then (Continued(Continued(first - 0xE0, b[1]), b[2]), 3)
    else if 0xF0 <= first && |b| >= 4 then (Continued(Continued(Continued(first - 0xF0, b[1]), b[2]), b[3]), 4)
    else (-1, 1)
  }

  function DecodeFirst(b: seq<R.Byte>): Option<(char, nat)>
    requires b != []
  {
    var (n, size) := CodePoint(b);
    if IsScalar(n) then Some((n as char, size)) else None
  }

  function Decode(b: seq<R.Byte>): Option<string>
    decreases |b|
  {
    if b == [] then Some("")
    else
      match DecodeFirst(b)
      case None => None
      case Some((c, n)) =>
        if n > |b| || n == 0 then None
        else
          var rest := Decode(b[n..]);
          if rest.Some? then Some([c] + rest.value) else None
  }

  lemma CharReadsBack(c: char, rest: seq<R.Byte>)
    ensures DecodeFirst(EncodeChar(c) + rest) == Some((c, |EncodeChar(c)|))
  {
    var n := c as int;
    var m := n / 64;
    var k := m / 64;
    assert n == m * 64 + n % 64 && m == k * 64 + m % 64 && k == (k / 64) * 64 + k % 64;
  }

  lemma {:induction false} TextReadsBack(s: string)
    ensures Decode(Encode(s)) == Some(s)
  {
    if s != "" {
      hide EncodeChar, DecodeFirst;
      var first, rest := EncodeChar(s[0]), Encode(s[1..]);
      CharReadsBack(s[0], rest);
      TextReadsBack(s[1..]);
      assert (first + rest)[|first|..] == rest;
      assert [s[0]] + s[1..] == s;
    }
  }

  lemma EncodeHead(c: char, s: string)
    ensures Encode([c] + s) == EncodeChar(c) + Encode(s)
  {
    hide EncodeChar;
    assert ([c] + s)[0] == c && ([c] + s)[1..] == s;
  }

  lemma {:induction false} EncodeConcat(s: string, t: string)
    ensures Encode(s + t) == Encode(s) + Encode(t)
  {
    if s == "" {
      assert s + t == t;
      assert Encode("") == [];
    } else {
      hide EncodeChar, Encode;
      assert s == [s[0]] + s[1..] && s + t == [s[0]] + (s[1..] + t);
      EncodeHead(s[0], s[1..]);
      EncodeHead(s[0], s[1..] + t);
      EncodeConcat(s[1..], t);
      assert EncodeChar(s[0]) + (Encode(s[1..]) + Encode(t)) == (EncodeChar(s[0]) + Encode(s[1..])) + Encode(t);
    }
  }

  // --- Events on disk ----------------------------------------------------------------

  /** What each event appends. */
  function Entries(events: seq<Event>): (entries: seq<R.Entry>)
    ensures |entries| == |events|
  {
    if events == [] then [] else [Encode(FormatLogLine(events[0]))] + Entries(events[1..])
  }

  /** A file as its bytes, one entry after another. */
  function Flat(f: R.File): seq<R.Byte> {
    if f == [] then [] else f[0] + Flat(f[1..])
  }

  /** A log viewer: decode the bytes and parse the lines. */
  function ReadLog(bytes: seq<R.Byte>): Option<seq<Parsed>> {
    var text := Decode(bytes);
    if text.Some? then ParseLog(text.value) else None
  }

  /** The bytes are read, and each record is of its event. */
  ghost predicate ReadsAs(bytes: seq<R.Byte>, events: seq<Event>) {
    var ps := ReadLog(bytes);
    ps.Some? && AreRecordsOf(ps.value, events)
  }

  lemma {:induction false} EntriesAt(events: seq<Event>, i: nat)
    requires i < |events|
    ensures Entries(events)[i] == Encode(FormatLogLine(events[i])) && Entries(events)[i] != []
  {
    hide FormatLogLine;
    if i > 0 {
      EntriesAt(events[1..], i - 1);
    } else {
      LineIsNotEmpty(events[0]);
    }
  }

  lemma LineIsNotEmpty(e: Event)
    ensures FormatLogLine(e) != "" && Encode(FormatLogLine(e)) != []
  {
    hide Header, FormatDetail, EncodeChar;
    var line := FormatLogLine(e);
    assert '\n' in Header(e) + "\n";
  }

  lemma EntriesSlice(events: seq<Event>, a: nat, b: nat)
    requires a <= b <= |events|
    ensures Entries(events)[a..b] == Entries(events[a..b])
  {
    hide Entries, FormatLogLine;
    forall i | 0 <= i < b - a ensures Entries(events)[a..b][i] == Entries(events[a..b])[i] {
      EntriesAt(events, a + i);
      EntriesAt(events[a..b], i);
    }
  }

  lemma {:induction false} EntriesText(events: seq<Event>)
    ensures Flat(Entries(events)) == Encode(FormatLog(events))
  {
    if events != [] {
      hide FormatLogLine;
      EntriesText(events[1..]);
      EncodeConcat(FormatLogLine(events[0]), FormatLog(events[1..]));
      assert Entries(events)[1..] == Entries(events[1..]);
    }
  }

  lemma {:induction false} FlatSize(f: R.File)
    ensures |Flat(f)| == R.Bytes(f)
  {
    if f != [] {
      FlatSize(f[1..]);
      R.BytesConcat([f[0]], f[1..]);
      R.BytesSnoc([], f[0]);
      assert [f[0]] + f[1..] == f && [] + [f[0]] == [f[0]];
    }
  }

  /** Each file is one stretch of what is read from all of them. */
  lemma {:induction false} FileIsAStretch(files: R.Directory, n: nat, i: nat) returns (a: nat)
    requires i <= n && i in files
    ensures a + |files[i]| <= |R.Reading(files, n)| && R.Reading(files, n)[a..a + |files[i]|] == files[i]
  {
    if i == n {
      a := 0;
    } else {
      var inner := FileIsAStretch(files, n - 1, i);
      a := inner + if n in files then |files[n]| else 0;
    }
  }

  /** Any stretch of the entries reads back as its events, and begins with a header. */
  lemma StretchReadsBack(events: seq<Event>, a: nat, b: nat)
    requires a <= b <= |events| && forall i :: 0 <= i < |events| ==> Printable(events[i])
    ensures var bytes := Flat(Entries(events)[a..b]);
            && Decode(bytes) == Some(FormatLog(events[a..b]))
            && ReadsAs(bytes, events[a..b])
    ensures var lines := Cut(FormatLog(events[a..b])).0; lines != [] ==> !IsDetail(lines[0])
  {
    hide Entries, Flat, Encode, Decode, Printable, ParseLog, AreRecordsOf, FormatLog, IsDetail, Cut;
    EntriesSlice(events, a, b);
    EntriesText(events[a..b]);
    TextReadsBack(FormatLog(events[a..b]));
    LogParses(events[a..b]);
    LogReadsBack(events[a..b]);
  }

  lemma NoEntryIsEmpty(events: seq<Event>)
    ensures forall i :: 0 <= i < |events| ==> Entries(events)[i] != []
  {
    hide Entries;
    forall i | 0 <= i < |events| ensures Entries(events)[i] != [] {
      EntriesAt(events, i);
    }
  }

  function Kept(events: seq<Event>, maxBytes: int, keep: nat): R.Directory {
    R.Kept(Entries(events), maxBytes, keep)
  }

  function Reading(events: seq<Event>, maxBytes: int, keep: nat): R.File {
    R.Reading(Kept(events, maxBytes, keep), keep)
  }

  lemma ReadingIsATail(events: seq<Event>, maxBytes: int, keep: nat)
    requires keep >= 1
    ensures var kept := Reading(events, maxBytes, keep);
            && |kept| <= |events| && kept == Entries(events)[|events| - |kept|..|events|]
  {
    hide Entries, R.Kept, R.Reading;
    NoEntryIsEmpty(events);
    R.LogIsASuffix(Entries(events), maxBytes, keep);
  }

  lemma EnoughBytes(events: seq<Event>, maxBytes: int, keep: nat)
    requires keep >= 1 && |Reading(events, maxBytes, keep)| < |events|
    ensures |Flat(Reading(events, maxBytes, keep))| > ((keep + 1) / 2) * maxBytes
  {
    hide Entries, Flat, R.Kept, R.Reading;
    NoEntryIsEmpty(events);
    R.EnoughIsKept(Entries(events), maxBytes, keep);
    FlatSize(Reading(events, maxBytes, keep));
  }

  /** Whatever is written into an empty directory: reading log.keep, …, log.1 and the live log gives back
      the newest events, in order, with every field and detail, and nothing else; and if any are missing,
      more than half the configured space of newer ones is there. */
  lemma LogOnDiskReadsBack(events: seq<Event>, maxBytes: int, keep: nat)
    requires keep >= 1 && forall i :: 0 <= i < |events| ==> Printable(events[i])
    ensures var kept := Reading(events, maxBytes, keep);
            && |kept| <= |events| && ReadsAs(Flat(kept), events[|events| - |kept|..])
            && (|kept| < |events| ==> |Flat(kept)| > ((keep + 1) / 2) * maxBytes)
  {
    hide Entries, Flat, ReadsAs, Printable, Reading;
    ReadingIsATail(events, maxBytes, keep);
    var lost := |events| - |Reading(events, maxBytes, keep)|;
    assert events[lost..|events|] == events[lost..];
    StretchReadsBack(events, lost, |events|);
    if lost > 0 {
      EnoughBytes(events, maxBytes, keep);
    }
  }

  lemma FileIsAStretchOfEvents(events: seq<Event>, maxBytes: int, keep: nat, i: nat) returns (a: nat, b: nat)
    requires keep >= 1 && i in Kept(events, maxBytes, keep)
    ensures a < b <= |events| && Kept(events, maxBytes, keep)[i] == Entries(events)[a..b]
  {
    hide Entries, R.Kept, R.Reading;
    NoEntryIsEmpty(events);
    var files := Kept(events, maxBytes, keep);
    R.LogIsASuffix(Entries(events), maxBytes, keep);
    ReadingIsATail(events, maxBytes, keep);
    var kept := Reading(events, maxBytes, keep);
    var at := FileIsAStretch(files, keep, i);
    R.NoFileIsEmpty(Entries(events), maxBytes, keep, i);
    a := |events| - |kept| + at;
    b := a + |files[i]|;
    assert files[i] == kept[at..at + |files[i]|] == Entries(events)[a..b];
  }

  /** And each file on its own, rotated or live, begins with a header line and reads back as a contiguous
      stretch of the events: no event is cut in two by a rotation. */
  lemma EveryFileReadsBack(events: seq<Event>, maxBytes: int, keep: nat, i: nat) returns (a: nat, b: nat)
    requires keep >= 1 && forall i :: 0 <= i < |events| ==> Printable(events[i])
    requires i in Kept(events, maxBytes, keep)
    ensures var bytes := Flat(Kept(events, maxBytes, keep)[i]);
            && a < b <= |events| && ReadsAs(bytes, events[a..b])
            && Decode(bytes) == Some(FormatLog(events[a..b]))
    ensures var lines := Cut(FormatLog(events[a..b])).0;
            lines != [] && lines[0] == Header(events[a]) && !IsDetail(lines[0])
  {
    a, b := FileIsAStretchOfEvents(events, maxBytes, keep, i);
    hide Entries, Flat, ReadsAs, Decode, Kept, Printable, IsDetail, Cut, Header, FormatLogLine;
    StretchReadsBack(events, a, b);
    var e, rest := events[a..b][0], FormatLog(events[a..b][1..]);
    OneHeaderLine(e, rest);
    assert FormatLog(events[a..b]) == FormatLogLine(e) + rest;
  }
}
