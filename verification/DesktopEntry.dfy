/** The Exec value of the launcher the AppImage installs (electron/desktopIntegration.ts), and how the
    Desktop Entry Specification, section "The Exec key", reads it back. */
module DesktopEntry {
  import opened Basics

  /** `s.replace(/c/g, with)` for a single character. */
  function ReplaceAll(s: string, c: char, with: string): string {
    if s == "" then "" else (if s[0] == c then with else [s[0]]) + ReplaceAll(s[1..], c, with)
  }

  /** The five replacements in the order the source makes them. */
  function Escaped(path: string): string {
    var a := ReplaceAll(path, '\\', "\\\\");
    var b := ReplaceAll(a, '"', "\\\"");
    var c := ReplaceAll(b, '`', "\\`");
    var d := ReplaceAll(c, '$', "\\$");
    ReplaceAll(d, '%', "%%")
  }

  function ExecToken(path: string): string {
    "\"" + Escaped(path) + "\""
  }

  /** Characters a backslash may stand before inside a quoted argument. */
  predicate IsReserved(c: char) {
    c == '"' || c == '`' || c == '$' || c == '\\'
  }

  /** What one character of the path is written as. */
  function EscapedChar(c: char): string {
    if IsReserved(c) then ['\\', c] else if c == '%' then "%%" else [c]
  }

  function EscapedEach(path: string): string {
    if path == "" then "" else EscapedChar(path[0]) + EscapedEach(path[1..])
  }

  lemma {:induction false} ReplaceConcat(s: string, t: string, c: char, with: string)
    ensures ReplaceAll(s + t, c, with) == ReplaceAll(s, c, with) + ReplaceAll(t, c, with)
  {
    if s == "" {
      assert s + t == t;
    } else {
      ReplaceConcat(s[1..], t, c, with);
      assert (s + t)[1..] == s[1..] + t;
      var head := if s[0] == c then with else [s[0]];
      assert head + (ReplaceAll(s[1..], c, with) + ReplaceAll(t, c, with))
          == (head + ReplaceAll(s[1..], c, with)) + ReplaceAll(t, c, with);
    }
  }

  lemma ReplaceOne(x: char, c: char, with: string)
    ensures ReplaceAll([x], c, with) == if x == c then with else [x]
  {
    assert [x][1..] == [];
  }

  lemma ReplaceTwo(x: char, y: char, c: char, with: string)
    requires x != c && y != c
    ensures ReplaceAll([x, y], c, with) == [x, y]
  {
    assert [x, y] == [x] + [y];
    ReplaceConcat([x], [y], c, with);
    ReplaceOne(x, c, with);
    ReplaceOne(y, c, with);
  }

  lemma EscapedConcat(s: string, t: string)
    ensures Escaped(s + t) == Escaped(s) + Escaped(t)
  {
    hide ReplaceAll;
    ReplaceConcat(s, t, '\\', "\\\\");
    var a, a' := ReplaceAll(s, '\\', "\\\\"), ReplaceAll(t, '\\', "\\\\");
    ReplaceConcat(a, a', '"', "\\\"");
    var b, b' := ReplaceAll(a, '"', "\\\""), ReplaceAll(a', '"', "\\\"");
    ReplaceConcat(b, b', '`', "\\`");
    var c, c' := ReplaceAll(b, '`', "\\`"), ReplaceAll(b', '`', "\\`");
    ReplaceConcat(c, c', '$', "\\$");
    var d, d' := ReplaceAll(c, '$', "\\$"), ReplaceAll(c', '$', "\\$");
    ReplaceConcat(d, d', '%', "%%");
  }

  lemma EscapedOne(x: char)
    ensures Escaped([x]) == EscapedChar(x)
  {
    hide ReplaceAll;
    ReplaceOne(x, '\\', "\\\\");
    ReplaceOne(x, '"', "\\\"");
    ReplaceOne(x, '`', "\\`");
    ReplaceOne(x, '$', "\\$");
    ReplaceOne(x, '%', "%%");
    if IsReserved(x) {
      assert "\\\\" == ['\\', '\\'] && "\\\"" == ['\\', '"'] && "\\`" == ['\\', '`'] && "\\$" == ['\\', '$'];
      if x != '"' { ReplaceTwo('\\', x, '"', "\\\""); }
      if x != '`' { ReplaceTwo('\\', x, '`', "\\`"); }
      if x != '$' { ReplaceTwo('\\', x, '$', "\\$"); }
      ReplaceTwo('\\', x, '%', "%%");
    }
  }

  /** One after another, the five replacements are one substitution made character by character: none
      rewrites what another wrote. */
  lemma {:induction false} ReplacementsDoNotInterfere(path: string)
    ensures Escaped(path) == EscapedEach(path)
  {
    if path == "" {
      NothingEscaped();
    } else {
      hide Escaped;
      ReplacementsDoNotInterfere(path[1..]);
      assert path == [path[0]] + path[1..];
      EscapedConcat([path[0]], path[1..]);
      EscapedOne(path[0]);
    }
  }

  lemma NothingEscaped()
    ensures Escaped("") == ""
  {
  }

  /** The inside of a quoted argument, up to its closing quote, which must end the value. Reserved
      characters need a backslash, and a percent sign that is not doubled would be a field code. */
  function ReadQuoted(s: string): Option<string>
    decreases |s|
  {
    if s == "" then None
    else if s[0] == '"' then if |s| == 1 then Some("") else None
    else if s[0] == '\\' then
      if |s| < 2 || !IsReserved(s[1]) then None else Then(s[1], ReadQuoted(s[2..]))
    else if s[0] == '%' then
      if |s| < 2 || s[1] != '%' then None else Then('%', ReadQuoted(s[2..]))
    else if IsReserved(s[0]) then None
    else Then(s[0], ReadQuoted(s[1..]))
  }

  function Then(c: char, rest: Option<string>): Option<string> {
    if rest.Some? then Some([c] + rest.value) else None
  }

  /** A value that is one quoted argument. */
  function ReadExec(value: string): Option<string> {
    if value == "" || value[0] != '"' then None else ReadQuoted(value[1..])
  }

  lemma {:induction false} EachReadsBack(path: string)
    ensures ReadQuoted(EscapedEach(path) + "\"") == Some(path)
  {
    if path != "" {
      hide ReadQuoted, EscapedChar;
      EachReadsBack(path[1..]);
      var rest := EscapedEach(path[1..]) + "\"";
      assert EscapedEach(path) + "\"" == EscapedChar(path[0]) + rest;
      OneReadsBack(path[0], rest);
      assert [path[0]] + path[1..] == path;
    }
  }

  lemma OneReadsBack(c: char, rest: string)
    ensures ReadQuoted(EscapedChar(c) + rest) == Then(c, ReadQuoted(rest))
  {
    var s := EscapedChar(c) + rest;
    assert s[|EscapedChar(c)|..] == rest;
  }

  /** For every path, the launcher is told exactly that path. */
  lemma ExecTokenReadsBack(path: string)
    ensures ReadExec(ExecToken(path)) == Some(path)
  {
    ReplacementsDoNotInterfere(path);
    EachReadsBack(path);
    assert ExecToken(path)[1..] == EscapedEach(path) + "\"";
  }
}
