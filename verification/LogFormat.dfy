/** The text of the diagnostics log (electron/diagnostics.ts) and a parser that undoes it: no field
    value and no detail text can forge a field, a line or an event. */
module LogFormat {
  import opened Basics
  import opened Framing
  import opened Texts
  import opened LogDetail

  datatype Level = Info | Warn | Error

  /** One event to log. Every value is given as its text: numbers, booleans, `null` and `undefined`
      print as tokens, anything else as its string or its JSON. */
  datatype Event = Event(at: string, level: Level, name: string, fields: seq<(string, string)>, detail: string)

  /** What can be read back: the detail as the lines that were kept. */
  datatype Parsed = Parsed(at: string, level: Level, name: string, fields: seq<(string, string)>, detail: seq<string>)

  predicate IsTokenChar(c: char) {
    '0' <= c <= '9' || 'a' <= c <= 'z' || 'A' <= c <= 'Z' || c in "_.:/@+-"
  }

  predicate IsToken(s: string) {
    s != "" && forall i :: 0 <= i < |s| ==> IsTokenChar(s[i])
  }

  // --- JSON strings ------------------------------------------------------------------

  function HexDigit(n: nat): char
    requires n < 16
  {
    "0123456789abcdef"[n]
  }

  function HexValue(c: char): Option<nat> {
    if '0' <= c <= '9' then Some((c - '0') as nat)
    else if 'a' <= c <= 'f' then Some((c - 'a') as nat + 10)
    else if 'A' <= c <= 'F' then Some((c - 'A') as nat + 10)
    else None
  }

  /** How `JSON.stringify` writes one character of a string. */
  function Escape(c: char): string {
    if c == '"' then "\\\""
    else if c == '\\' then "\\\\"
    else if c == '\U{8}' then "\\b"
    else if c == '\U{C}' then "\\f"
    else if c == '\n' then "\\n"
    else if c == '\r' then "\\r"
    else if c == '\t' then "\\t"
    else if c < ' ' then "\\u00" + [HexDigit(c as nat / 16), HexDigit(c as nat % 16)]
    else [c]
  }

  function EscapeAll(s: string): string {
    if s == "" then "" else Escape(s[0]) + EscapeAll(s[1..])
  }

  function JsonQuote(s: string): string {
    "\"" + EscapeAll(s) + "\""
  }

  /** One escaped or plain character off the front, and how long it was written. */
  function Unescape(s: string): Option<(char, nat)>
    requires s != ""
  {
    if s[0] != '\\' then Some((s[0], 1))
    else if |s| < 2 then None
    else if s[1] == '"' || s[1] == '\\' || s[1] == '/' then Some((s[1], 2))
    else if s[1] == 'b' then Some(('\U{8}', 2))
    else if s[1] == 'f' then Some(('\U{C}', 2))
    else if s[1] == 'n' then Some(('\n', 2))
    else if s[1] == 'r' then Some(('\r', 2))
    else if s[1] == 't' then Some(('\t', 2))
    else if s[1] == 'u' && |s| >= 6 then
      var a, b, c, d := HexValue(s[2]), HexValue(s[3]), HexValue(s[4]), HexValue(s[5]);
      if a.None? || b.None? || c.None? || d.None? then None
      else
        var n := ((a.value * 16 + b.value) * 16 + c.value) * 16 + d.value;
        if 0 <= n < 0xD800 then Some((n as char, 6)) else None
    else None
  }

  /** What follows an opening quote: the text up to the closing one, and the rest. */
  function ReadQuoted(s: string): Option<(string, string)>
    decreases |s|
  {
    if s == "" then None
    else if s[0] == '"' then Some(("", s[1..]))
    else
      match Unescape(s)
      case None => None
      case Some((c, n)) =>
        if n > |s| || n == 0 then None
        else
          match ReadQuoted(s[n..])
          case None => None
          case Some((text, rest)) => Some(([c] + text, rest))
  }

  lemma EscapeUndone(c: char, rest: string)
    ensures Escape(c) != "" && Escape(c)[0] != '"' && '\n' !in Escape(c)
    ensures Unescape(Escape(c) + rest) == Some((c, |Escape(c)|))
  {
    if c < ' ' && c !in "\U{8}\U{C}\n\r\t" {
      var n := c as nat;
      assert n < 32;
      assert HexValue(HexDigit(n / 16)) == Some(n / 16) && HexValue(HexDigit(n % 16)) == Some(n % 16);
      assert HexValue('0') == Some(0);
    }
  }

  lemma {:induction false} QuotedReadsBack(text: string, rest: string)
    ensures ReadQuoted(EscapeAll(text) + "\"" + rest) == Some((text, rest))
    ensures '\n' !in EscapeAll(text)
  {
    hide Escape, Unescape;
    var s := EscapeAll(text) + "\"" + rest;
    if text == "" {
      assert s == "\"" + rest && s[1..] == rest;
    } else {
      QuotedReadsBack(text[1..], rest);
      var e := Escape(text[0]);
      var more := EscapeAll(text[1..]) + "\"" + rest;
      assert s == e + more;
      EscapeUndone(text[0], more);
      assert s[|e|..] == more;
      assert [text[0]] + text[1..] == text;
    }
  }

  // --- Printing ----------------------------------------------------------------------

  function FormatValue(text: string): string {
    if IsToken(text) then text else JsonQuote(text)
  }

  function FormatFields(fields: seq<(string, string)>): string {
    if fields == [] then ""
    else " " + fields[0].0 + "=" + FormatValue(fields[0].1) + FormatFields(fields[1..])
  }

  /** `level.padEnd(5)`. */
  function LevelText(level: Level): string {
    match level
    case Info => "INFO "
    case Warn => "WARN "
    case Error => "ERROR"
  }

  function Header(e: Event): string {
    e.at + " " + LevelText(e.level) + " " + e.name + FormatFields(e.fields)
  }

  const MARGIN := "  | "

  function FormatDetail(lines: seq<string>): string {
    if lines == [] then "" else MARGIN + lines[0] + "\n" + FormatDetail(lines[1..])
  }

  function FormatLogLine(e: Event): (s: string)
    ensures s != ""
  {
    Header(e) + "\n" + FormatDetail(DetailLines(e.detail))
  }

  lemma {:induction false} FieldsSnoc(fields: seq<(string, string)>, f: (string, string))
    ensures FormatFields(fields + [f]) == FormatFields(fields) + (" " + f.0 + "=" + FormatValue(f.1))
  {
    hide FormatValue;
    if fields == [] {
      assert fields + [f] == [f] && [f][1..] == [];
    } else {
      FieldsSnoc(fields[1..], f);
      assert (fields + [f])[1..] == fields[1..] + [f];
      var first := " " + fields[0].0 + "=" + FormatValue(fields[0].1);
      assert FormatFields(fields + [f]) == first + FormatFields(fields[1..] + [f]);
    }
  }

  lemma {:induction false} DetailSnoc(lines: seq<string>, line: string)
    ensures FormatDetail(lines + [line]) == FormatDetail(lines) + (MARGIN + line + "\n")
  {
    if lines == [] {
      assert lines + [line] == [line] && [line][1..] == [];
    } else {
      DetailSnoc(lines[1..], line);
      assert (lines + [line])[0] == lines[0] && (lines + [line])[1..] == lines[1..] + [line];
      var head := MARGIN + lines[0] + "\n";
      assert head + (FormatDetail(lines[1..]) + (MARGIN + line + "\n"))
          == (head + FormatDetail(lines[1..])) + (MARGIN + line + "\n");
    }
  }

  /** The printer as the source runs it: one loop over the fields, one over the detail's lines. */
  method PrintLogLine(e: Event) returns (line: string)
    ensures line == FormatLogLine(e)
    ensures exists lines :: Show(lines, e.detail) && line == Header(e) + "\n" + FormatDetail(lines)
  {
    DetailIsShown(e.detail);
    hide DetailLines, FormatValue, Show;
    line := e.at + " " + LevelText(e.level) + " " + e.name;
    ghost var head := line;
    for i := 0 to |e.fields|
      invariant line == head + FormatFields(e.fields[..i])
    {
      FieldsSnoc(e.fields[..i], e.fields[i]);
      assert e.fields[..i + 1] == e.fields[..i] + [e.fields[i]];
      line := line + (" " + e.fields[i].0 + "=" + FormatValue(e.fields[i].1));
    }
    assert e.fields[..|e.fields|] == e.fields;
    line := line + "\n";
    head := line;
    var lines := DetailLines(e.detail);
    for i := 0 to |lines|
      invariant line == head + FormatDetail(lines[..i])
    {
      DetailSnoc(lines[..i], lines[i]);
      assert lines[..i + 1] == lines[..i] + [lines[i]];
      line := line + (MARGIN + lines[i] + "\n");
    }
    assert lines[..|lines|] == lines;
  }

  function FormatLog(events: seq<Event>): string {
    if events == [] then "" else FormatLogLine(events[0]) + FormatLog(events[1..])
  }

  // --- Parsing -----------------------------------------------------------------------

  /** A value off the front: quoted, or bare up to the next space. */
  function ReadValue(value: string): Option<(string, string)> {
    if value != "" && value[0] == '"' then ReadQuoted(value[1..])
    else Some((value[..IndexOf(value, ' ')], value[IndexOf(value, ' ')..]))
  }

  function ParseFields(s: string): Option<seq<(string, string)>>
    decreases |s|
  {
    if s == "" then Some([])
    else if s[0] != ' ' then None
    else
      var eq := IndexOf(s[1..], '=');
      if eq == |s| - 1 then None
      else
        var key, value := s[1..eq + 1], s[eq + 2..];
        match ReadValue(value)
        case None => None
        case Some((text, rest)) =>
          if |rest| >= |s| then None
          else
            match ParseFields(rest)
            case None => None
            case Some(fields) => Some([(key, text)] + fields)
  }

  function ParseLevel(s: string): Option<Level> {
    if s == "INFO " then Some(Info) else if s == "WARN " then Some(Warn) else if s == "ERROR" then Some(Error) else None
  }

  function ParseHeader(line: string): Option<Parsed> {
    var i := IndexOf(line, ' ');
    if |line| < i + 7 then None
    else
      var level, rest := ParseLevel(line[i + 1..i + 6]), line[i + 7..];
      var j := IndexOf(rest, ' ');
      var fields := ParseFields(rest[j..]);
      if level.None? || fields.None? then None
      else Some(Parsed(line[..i], level.value, rest[..j], fields.value, []))
  }

  predicate IsDetail(line: string) {
    StartsWith(line, MARGIN)
  }

  /** How many of the lines belong to the event before them. */
  function DetailCount(lines: seq<string>): (n: nat)
    ensures n <= |lines|
  {
    if lines == [] || !IsDetail(lines[0]) then 0 else 1 + DetailCount(lines[1..])
  }

  function StripMargins(lines: seq<string>): seq<string> {
    if lines == [] then [] else [if |lines[0]| >= 4 then lines[0][4..] else ""] + StripMargins(lines[1..])
  }

  function ParseLines(lines: seq<string>): Option<seq<Parsed>>
    decreases |lines|
  {
    if lines == [] then Some([])
    else
      var n := DetailCount(lines[1..]);
      match ParseHeader(lines[0])
      case None => None
      case Some(p) =>
        match ParseLines(lines[1 + n..])
        case None => None
        case Some(rest) => Some([p.(detail := StripMargins(lines[1..1 + n]))] + rest)
  }

  /** A whole log file; a last line without its line end is not an event yet. */
  function ParseLog(text: string): Option<seq<Parsed>> {
    ParseLines(Cut(text).0)
  }

  // --- Round trips -------------------------------------------------------------------

  /** Event names, keys and the ISO time are plain tokens; values and details are anything at all. */
  predicate Printable(e: Event) {
    IsToken(e.at) && IsToken(e.name) && forall i :: 0 <= i < |e.fields| ==> IsToken(e.fields[i].0)
  }

  function Readable(e: Event): Parsed {
    Parsed(e.at, e.level, e.name, e.fields, DetailLines(e.detail))
  }

  lemma IndexAt(before: string, c: char, after: string)
    requires c !in before
    ensures IndexOf(before + [c] + after, c) == |before|
    ensures IndexOf(before, c) == |before|
  {
    var s := before + [c] + after;
    var i := IndexOf(s, c);
    assert s[|before|] == c && s[..|before|] == before;
    assert i <= |before|;
  }

  lemma TokensAreTame(s: string)
    requires IsToken(s)
    ensures s != "" && ' ' !in s && '\n' !in s && '=' !in s && s[0] != '"' && s[0] != ' '
  {
  }

  lemma ValueIsTame(text: string)
    ensures '\n' !in FormatValue(text)
  {
    if !IsToken(text) {
      QuotedReadsBack(text, "");
    }
  }

  lemma OneFieldReadsBack(key: string, text: string, tail: string, fields: seq<(string, string)>)
    requires IsToken(key) && ParseFields(tail) == Some(fields) && (tail != "" ==> tail[0] == ' ')
    ensures ParseFields(" " + key + "=" + FormatValue(text) + tail) == Some([(key, text)] + fields)
  {
    hide FormatValue, ReadValue, IndexOf, IsToken;
    var value := FormatValue(text) + tail;
    var s := " " + key + "=" + value;
    assert s == " " + key + "=" + FormatValue(text) + tail;
    TokensAreTame(key);
    assert s[1..] == key + ['='] + value;
    IndexAt(key, '=', value);
    assert s[1..|key| + 1] == key && s[|key| + 2..] == value;
    ValueReadsBack(text, tail);
  }

  lemma {:induction false} FieldsReadBack(fields: seq<(string, string)>)
    requires forall i :: 0 <= i < |fields| ==> IsToken(fields[i].0)
    ensures ParseFields(FormatFields(fields)) == Some(fields)
    ensures '\n' !in FormatFields(fields)
    ensures fields != [] ==> FormatFields(fields) != "" && FormatFields(fields)[0] == ' '
  {
    hide ParseFields, FormatValue, IsToken;
    if fields == [] {
      NoFields();
    } else {
      var key, text, tail := fields[0].0, fields[0].1, FormatFields(fields[1..]);
      FieldsReadBack(fields[1..]);
      TokensAreTame(key);
      ValueIsTame(text);
      OneFieldReadsBack(key, text, tail, fields[1..]);
      assert [(key, text)] + fields[1..] == fields;
    }
  }

  lemma NoFields()
    ensures ParseFields("") == Some([])
  {
  }

  /** A token ends at the first space after it, or with the text. */
  lemma TokenEnds(token: string, tail: string)
    requires ' ' !in token && (tail != "" ==> tail[0] == ' ')
    ensures IndexOf(token + tail, ' ') == |token|
    ensures (token + tail)[..|token|] == token && (token + tail)[|token|..] == tail
  {
    hide IndexOf;
    if tail == "" {
      IndexAt(token, ' ', "");
      assert token + tail == token;
    } else {
      IndexAt(token, ' ', tail[1..]);
      assert token + tail == token + [' '] + tail[1..];
    }
  }

  lemma ValueReadsBack(text: string, tail: string)
    requires tail != "" ==> tail[0] == ' '
    ensures ReadValue(FormatValue(text) + tail) == Some((text, tail))
  {
    hide IsToken, EscapeAll, ReadQuoted;
    var value := FormatValue(text) + tail;
    if IsToken(text) {
      TokensAreTame(text);
      TokenEnds(text, tail);
      assert value[0] == text[0];
    } else {
      QuotedReadsBack(text, tail);
      assert value[1..] == EscapeAll(text) + "\"" + tail;
      assert value[0] == '"';
    }
  }

  lemma HeaderReadsBack(e: Event)
    requires Printable(e)
    ensures ParseHeader(Header(e)) == Some(Readable(e).(detail := []))
  {
    hide ParseFields, FormatFields, DetailLines, IndexOf, ParseLevel, LevelText;
    var tail := FormatFields(e.fields);
    TokensAreTame(e.at);
    TokensAreTame(e.name);
    FieldsReadBack(e.fields);
    NoFieldsPrinted();
    TokenEnds(e.name, tail);
    HeaderSplits(e.at, e.level, e.name + tail);
    assert Header(e) == e.at + " " + LevelText(e.level) + " " + (e.name + tail);
  }

  lemma HeaderSplits(at: string, level: Level, rest: string)
    requires ' ' !in at
    ensures var line := at + " " + LevelText(level) + " " + rest;
            && IndexOf(line, ' ') == |at| && |line| == |at| + 7 + |rest|
            && line[..|at|] == at && ParseLevel(line[|at| + 1..|at| + 6]) == Some(level) && line[|at| + 7..] == rest
  {
    var line := at + " " + LevelText(level) + " " + rest;
    var after := LevelText(level) + " " + rest;
    IndexAt(at, ' ', after);
    assert line == at + [' '] + after;
    assert line[|at| + 1..] == after;
    assert after[..5] == LevelText(level) && after[6..] == rest;
    assert line[|at| + 1..|at| + 6] == after[..5] && line[|at| + 7..] == after[6..];
  }

  lemma NoFieldsPrinted()
    ensures FormatFields([]) == ""
  {
  }

  lemma HeaderIsTame(e: Event)
    requires Printable(e)
    ensures '\n' !in Header(e) && !IsDetail(Header(e))
  {
    hide FormatFields, IsToken;
    TokensAreTame(e.at);
    TokensAreTame(e.name);
    FieldsReadBack(e.fields);
    assert Header(e)[0] == e.at[0];
    assert MARGIN[0] == ' ';
  }

  lemma DetailLinesAreTame(detail: string)
    ensures forall i :: 0 <= i < |DetailLines(detail)| ==> '\n' !in DetailLines(detail)[i]
  {
    DetailIsShown(detail);
  }

  function Margined(lines: seq<string>): seq<string> {
    if lines == [] then [] else [MARGIN + lines[0]] + Margined(lines[1..])
  }

  lemma {:induction false} DetailCuts(lines: seq<string>, rest: string)
    requires forall i :: 0 <= i < |lines| ==> '\n' !in lines[i]
    ensures Cut(FormatDetail(lines) + rest) == (Margined(lines) + Cut(rest).0, Cut(rest).1)
  {
    hide Cut;
    if lines == [] {
      assert FormatDetail(lines) + rest == rest;
      assert Margined(lines) + Cut(rest).0 == Cut(rest).0;
    } else {
      DetailCuts(lines[1..], rest);
      var more := FormatDetail(lines[1..]) + rest;
      assert FormatDetail(lines) + rest == (MARGIN + lines[0]) + "\n" + more;
      CutOneLine(MARGIN + lines[0], more);
      assert [MARGIN + lines[0]] + (Margined(lines[1..]) + Cut(rest).0)
          == ([MARGIN + lines[0]] + Margined(lines[1..])) + Cut(rest).0;
    }
  }

  lemma {:induction false} MarginsStrip(lines: seq<string>)
    ensures |Margined(lines)| == |lines| && StripMargins(Margined(lines)) == lines
    ensures forall i :: 0 <= i < |lines| ==> IsDetail(Margined(lines)[i])
  {
    if lines != [] {
      MarginsStrip(lines[1..]);
      var first := MARGIN + lines[0];
      assert first[4..] == lines[0] && first[..4] == MARGIN;
      assert Margined(lines)[1..] == Margined(lines[1..]);
      assert [lines[0]] + lines[1..] == lines;
    }
  }

  lemma {:induction false} DetailsCounted(details: seq<string>, others: seq<string>)
    requires forall i :: 0 <= i < |details| ==> IsDetail(details[i])
    requires others != [] ==> !IsDetail(others[0])
    ensures DetailCount(details + others) == |details|
  {
    hide IsDetail;
    if details == [] {
      assert details + others == others;
    } else {
      DetailsCounted(details[1..], others);
      assert (details + others)[1..] == details[1..] + others;
    }
  }

  /** One event is one header line, and every other line it prints starts with the margin. */
  lemma OneHeaderLine(e: Event, rest: string)
    requires Printable(e)
    ensures Cut(FormatLogLine(e) + rest)
            == ([Header(e)] + (Margined(DetailLines(e.detail)) + Cut(rest).0), Cut(rest).1)
    ensures !IsDetail(Header(e))
    ensures forall i :: 0 <= i < |Margined(DetailLines(e.detail))| ==> IsDetail(Margined(DetailLines(e.detail))[i])
  {
    hide Header, DetailLines, IsDetail, FormatDetail, Margined, Printable, Cut;
    HeaderIsTame(e);
    DetailLinesAreTame(e.detail);
    var lines := DetailLines(e.detail);
    DetailCuts(lines, rest);
    assert FormatLogLine(e) + rest == Header(e) + "\n" + (FormatDetail(lines) + rest);
    CutOneLine(Header(e), FormatDetail(lines) + rest);
    MarginsStrip(lines);
  }

  function ReadableAll(events: seq<Event>): seq<Parsed> {
    if events == [] then [] else [Readable(events[0])] + ReadableAll(events[1..])
  }

  /** The parser takes one event's lines off the front and goes on with the rest. */
  lemma ParsesOneEvent(e: Event, others: seq<string>)
    requires Printable(e) && (others != [] ==> !IsDetail(others[0]))
    ensures var p := ParseLines([Header(e)] + (Margined(DetailLines(e.detail)) + others));
            p == if ParseLines(others).None? then None else Some([Readable(e)] + ParseLines(others).value)
  {
    hide Header, DetailLines, IsDetail, ParseHeader, Margined, StripMargins, Printable, DetailCount;
    var details := Margined(DetailLines(e.detail));
    var lines := [Header(e)] + (details + others);
    HeaderReadsBack(e);
    MarginsStrip(DetailLines(e.detail));
    DetailsCounted(details, others);
    var n := |details|;
    assert lines[0] == Header(e) && lines[1..] == details + others;
    assert lines[1..1 + n] == details && lines[1 + n..] == others;
  }

  lemma {:induction false} LogParses(events: seq<Event>)
    requires forall i :: 0 <= i < |events| ==> Printable(events[i])
    ensures ParseLog(FormatLog(events)) == Some(ReadableAll(events))
    ensures var (lines, tail) := Cut(FormatLog(events));
            tail == "" && (lines != [] ==> !IsDetail(lines[0]))
  {
    hide FormatLogLine, Header, IsDetail, ParseLines, Printable, Cut, Readable, Margined, DetailLines;
    if events == [] {
      CutNoNewline("");
      NothingParsed();
    } else {
      var e, rest := events[0], FormatLog(events[1..]);
      LogParses(events[1..]);
      OneHeaderLine(e, rest);
      ParsesOneEvent(e, Cut(rest).0);
    }
  }

  lemma NothingParsed()
    ensures ParseLines([]) == Some([])
  {
  }

  /** What was read is what was written: time, level, name, every field, and a detail that shows the one
      given. */
  ghost predicate IsRecordOf(p: Parsed, e: Event) {
    p.at == e.at && p.level == e.level && p.name == e.name && p.fields == e.fields && Show(p.detail, e.detail)
  }

  ghost predicate AreRecordsOf(ps: seq<Parsed>, events: seq<Event>) {
    |ps| == |events| && forall i :: 0 <= i < |ps| ==> IsRecordOf(ps[i], events[i])
  }

  lemma {:induction false} ReadableAllAreRecords(events: seq<Event>)
    ensures AreRecordsOf(ReadableAll(events), events)
  {
    hide DetailLines, Show;
    if events != [] {
      ReadableAllAreRecords(events[1..]);
      DetailIsShown(events[0].detail);
    }
  }

  /** A whole log file reads back as the list of events written, whatever their values and details. */
  lemma LogReadsBack(events: seq<Event>)
    requires forall i :: 0 <= i < |events| ==> Printable(events[i])
    ensures var ps := ParseLog(FormatLog(events)); ps.Some? && AreRecordsOf(ps.value, events)
  {
    LogParses(events);
    hide ParseLog, FormatLog, AreRecordsOf, ReadableAll, Printable;
    ReadableAllAreRecords(events);
  }
}
