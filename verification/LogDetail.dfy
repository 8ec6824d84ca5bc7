/** How a multi-line detail, a JavaScript stack say, is cut into printed lines (electron/diagnostics.ts). */
module LogDetail {
  import opened Texts
  import opened Framing

  function WithoutReturns(s: string): string {
    if s == "" then "" else (if s[0] == '\r' then "" else [s[0]]) + WithoutReturns(s[1..])
  }

  /** The length of what `/^(\s*\n)+/` matches: the leading white space, up to its last line end. */
  function BlankStart(s: string): (n: nat)
    ensures n <= |s|
  {
    if s == "" || !IsSpace(s[0]) then 0
    else
      var n := BlankStart(s[1..]);
      if n > 0 then n + 1 else if s[0] == '\n' then 1 else 0
  }

  /** The lines a detail is printed as; an empty detail prints none. */
  function DetailLines(detail: string): seq<string> {
    if detail == "" then []
    else
      var plain := WithoutReturns(detail);
      var (lines, last) := Cut(TrimEnd(plain[BlankStart(plain)..]));
      lines + [last]
  }

  // --- What the lines show -----------------------------------------------------------

  /** Lines joined by line ends. */
  function Joined(lines: seq<string>): string {
    if lines == [] then "" else if |lines| == 1 then lines[0] else lines[0] + "\n" + Joined(lines[1..])
  }

  /** The characters of a text that can be seen. */
  function Seen(s: string): string {
    if s == "" then "" else (if IsSpace(s[0]) then "" else [s[0]]) + Seen(s[1..])
  }

  predicate IsBlank(s: string) {
    forall i :: 0 <= i < |s| ==> IsSpace(s[i])
  }

  /** `shown` is `text` but for blank lines before it and white space after it. */
  ghost predicate IsBodyOf(shown: string, text: string) {
    exists i, j ::
      && 0 <= i <= j <= |text| && text[i..j] == shown
      && IsBlank(text[..i]) && (i > 0 ==> text[i - 1] == '\n') && IsBlank(text[j..])
  }

  /** The lines show a detail: none for an empty one; otherwise every visible character, in order, and
      without carriage returns in it the detail itself, but for blank lines before and white space after.
      They do not begin with a blank line and the last of them does not end in white space. */
  ghost predicate Show(lines: seq<string>, detail: string) {
    && (lines == [] <==> detail == "")
    && (forall i :: 0 <= i < |lines| ==> '\n' !in lines[i] && '\r' !in lines[i])
    && Seen(Joined(lines)) == Seen(detail)
    && ('\r' !in detail ==> IsBodyOf(Joined(lines), detail))
    && (|lines| > 1 ==> !IsBlank(lines[0]))
    && (Joined(lines) != "" ==> !IsSpace(Joined(lines)[|Joined(lines)| - 1]))
  }

  lemma {:induction false} JoinedSnoc(lines: seq<string>, last: string, first: string)
    ensures Joined([first] + (lines + [last])) == first + "\n" + Joined(lines + [last])
  {
    assert ([first] + (lines + [last]))[1..] == lines + [last];
  }

  lemma {:induction false} CutJoins(s: string)
    ensures Joined(Cut(s).0 + [Cut(s).1]) == s
    decreases |s|
  {
    hide Cut;
    CutStep(s);
    var i := IndexOf(s, '\n');
    if i < |s| {
      var rest := s[i + 1..];
      CutJoins(rest);
      JoinedSnoc(Cut(rest).0, Cut(rest).1, s[..i]);
      assert [s[..i]] + (Cut(rest).0 + [Cut(rest).1]) == ([s[..i]] + Cut(rest).0) + [Cut(rest).1];
      assert s == s[..i] + "\n" + rest;
    } else {
      assert [] + [s] == [s];
    }
  }

  lemma {:induction false} CutLinesHold(s: string, c: char)
    requires c !in s || c == '\n'
    ensures forall i :: 0 <= i < |Cut(s).0| ==> '\n' !in Cut(s).0[i] && c !in Cut(s).0[i]
    ensures '\n' !in Cut(s).1 && c !in Cut(s).1
    decreases |s|
  {
    hide Cut;
    CutStep(s);
    var i := IndexOf(s, '\n');
    if i < |s| {
      CutLinesHold(s[i + 1..], c);
    }
  }

  lemma {:induction false} NoReturnsLeft(s: string)
    ensures '\r' !in WithoutReturns(s)
    ensures '\r' !in s ==> WithoutReturns(s) == s
  {
    if s != "" {
      NoReturnsLeft(s[1..]);
      assert s == [s[0]] + s[1..];
    }
  }

  lemma SeenHead(c: char, s: string)
    ensures Seen([c] + s) == (if IsSpace(c) then "" else [c]) + Seen(s)
  {
    assert ([c] + s)[0] == c && ([c] + s)[1..] == s;
  }

  lemma {:induction false} ReturnsAreUnseen(s: string)
    ensures Seen(WithoutReturns(s)) == Seen(s)
  {
    if s != "" {
      hide Seen;
      ReturnsAreUnseen(s[1..]);
      SeenHead(s[0], s[1..]);
      SeenHead(s[0], WithoutReturns(s[1..]));
      assert s == [s[0]] + s[1..];
      assert "" + WithoutReturns(s[1..]) == WithoutReturns(s[1..]) && "" + Seen(s[1..]) == Seen(s[1..]);
    } else {
      assert WithoutReturns(s) == s;
    }
  }

  lemma {:induction false} SeenConcat(s: string, t: string)
    ensures Seen(s + t) == Seen(s) + Seen(t)
  {
    if s == "" {
      assert s + t == t && Seen(s) == "";
    } else {
      hide Seen;
      SeenConcat(s[1..], t);
      assert s == [s[0]] + s[1..] && s + t == [s[0]] + (s[1..] + t);
      SeenHead(s[0], s[1..]);
      SeenHead(s[0], s[1..] + t);
      var head := if IsSpace(s[0]) then "" else [s[0]];
      assert head + (Seen(s[1..]) + Seen(t)) == (head + Seen(s[1..])) + Seen(t);
    }
  }

  lemma {:induction false} BlankIsUnseen(s: string)
    requires IsBlank(s)
    ensures Seen(s) == ""
  {
    if s != "" {
      assert IsBlank(s[1..]);
      BlankIsUnseen(s[1..]);
    }
  }

  /** What is dropped at the front is whole blank lines. */
  lemma {:induction false} BlankStartIsBlank(s: string)
    ensures var n := BlankStart(s); IsBlank(s[..n]) && (n > 0 ==> s[n - 1] == '\n')
  {
    if s != "" && IsSpace(s[0]) {
      BlankStartIsBlank(s[1..]);
      var m := BlankStart(s[1..]);
      assert s[..m + 1] == [s[0]] + s[1..][..m];
    }
  }

  /** And every one of them: a line end with nothing but white space before it is among what is dropped. */
  lemma {:induction false} NoBlankLineIsLeft(s: string, k: nat)
    requires k < |s| && s[k] == '\n' && IsBlank(s[..k])
    ensures k < BlankStart(s)
  {
    if k > 0 {
      assert s[..k][0] == s[0];
      assert s[1..][..k - 1] == s[..k][1..];
      NoBlankLineIsLeft(s[1..], k - 1);
    }
  }

  /** Trimming the end drops white space and leaves none there. */
  lemma {:induction false} TrimEndIsPrefix(s: string)
    ensures TrimEnd(s) <= s && IsBlank(s[|TrimEnd(s)|..])
    ensures TrimEnd(s) != "" ==> !IsSpace(TrimEnd(s)[|TrimEnd(s)| - 1])
  {
    if s != "" && IsSpace(s[|s| - 1]) {
      TrimEndIsPrefix(s[..|s| - 1]);
      var n := |TrimEnd(s)|;
      assert s[n..] == s[..|s| - 1][n..] + [s[|s| - 1]];
    }
  }

  lemma BodyIsSeen(shown: string, text: string)
    requires IsBodyOf(shown, text)
    ensures Seen(shown) == Seen(text)
  {
    var i, j :| && 0 <= i <= j <= |text| && text[i..j] == shown
                && IsBlank(text[..i]) && (i > 0 ==> text[i - 1] == '\n') && IsBlank(text[j..]);
    assert text == text[..i] + (shown + text[j..]);
    SeenConcat(text[..i], shown + text[j..]);
    SeenConcat(shown, text[j..]);
    BlankIsUnseen(text[..i]);
    BlankIsUnseen(text[j..]);
    assert "" + (Seen(shown) + "") == Seen(shown);
  }

  /** The body that is cut into lines. */
  function Body(plain: string): string {
    TrimEnd(plain[BlankStart(plain)..])
  }

  lemma BodyIsBody(plain: string)
    ensures IsBodyOf(Body(plain), plain)
    ensures Body(plain) != "" ==> !IsSpace(Body(plain)[|Body(plain)| - 1])
  {
    var n, body := BlankStart(plain), Body(plain);
    BlankStartIsBlank(plain);
    TrimEndIsPrefix(plain[n..]);
    hide BlankStart, TrimEnd, IsBlank;
    assert plain[n..n + |body|] == body && plain[n + |body|..] == plain[n..][|body|..];
  }

  lemma LeftHasNoBlankLine(plain: string, k: nat)
    requires BlankStart(plain) + k < |plain| && plain[BlankStart(plain) + k] == '\n'
    ensures !IsBlank(plain[BlankStart(plain)..][..k])
  {
    var n := BlankStart(plain);
    BlankStartIsBlank(plain);
    hide BlankStart, IsBlank;
    if IsBlank(plain[n..][..k]) {
      BlankConcat(plain[..n], plain[n..][..k]);
      assert plain[..n + k] == plain[..n] + plain[n..][..k];
      NoBlankLineIsLeft(plain, n + k);
    }
  }

  lemma BlankConcat(s: string, t: string)
    requires IsBlank(s) && IsBlank(t)
    ensures IsBlank(s + t)
  {
  }

  /** The first of several lines of a body is not blank. */
  lemma FirstLineIsNotBlank(plain: string)
    requires Cut(Body(plain)).0 != []
    ensures !IsBlank(Cut(Body(plain)).0[0])
  {
    var n, body := BlankStart(plain), Body(plain);
    var k := IndexOf(body, '\n');
    CutStep(body);
    TrimEndIsPrefix(plain[n..]);
    hide TrimEnd, Cut, BlankStart, IsBlank, IndexOf;
    assert plain[n..][..k] == body[..k] && plain[n + k] == body[k];
    LeftHasNoBlankLine(plain, k);
  }

  /** For every detail, the printed lines show it. */
  lemma DetailIsShown(detail: string)
    ensures Show(DetailLines(detail), detail)
  {
    if detail == "" {
      assert Seen("") == "" && Joined([]) == "" && detail[0..0] == "";
      assert IsBodyOf("", detail);
    } else {
      hide Show;
      LinesShow(detail);
    }
  }

  /** All lines of a text, the unfinished one last. */
  function AllLines(s: string): (lines: seq<string>)
    ensures lines != []
  {
    Cut(s).0 + [Cut(s).1]
  }

  lemma AllLinesHold(s: string)
    requires '\r' !in s
    ensures forall i :: 0 <= i < |AllLines(s)| ==> '\n' !in AllLines(s)[i] && '\r' !in AllLines(s)[i]
    ensures Joined(AllLines(s)) == s
  {
    CutLinesHold(s, '\r');
    CutJoins(s);
    hide Cut, Joined;
  }

  lemma FirstOfManyIsNotBlank(plain: string)
    ensures |AllLines(Body(plain))| > 1 ==> !IsBlank(AllLines(Body(plain))[0])
  {
    if Cut(Body(plain)).0 != [] {
      FirstLineIsNotBlank(plain);
    }
    hide Body, Cut, IsBlank;
  }

  lemma LinesShow(detail: string)
    requires detail != ""
    ensures Show(DetailLines(detail), detail)
  {
    var plain := WithoutReturns(detail);
    var body := Body(plain);
    assert DetailLines(detail) == AllLines(body);
    hide DetailLines, WithoutReturns, Body, AllLines, Seen, Joined, IsBlank, IsBodyOf;
    NoReturnsLeft(detail);
    ReturnsAreUnseen(detail);
    BodyIsBody(plain);
    BodyIsSeen(body, plain);
    BodyHasNoReturns(plain);
    AllLinesHold(body);
    FirstOfManyIsNotBlank(plain);
  }

  lemma BodyHasNoReturns(plain: string)
    requires '\r' !in plain
    ensures '\r' !in Body(plain)
  {
    TrimEndIsPrefix(plain[BlankStart(plain)..]);
  }

  lemma BlankPrefix(s: string, i: nat)
    requires i <= |s| && IsBlank(s[..i])
    ensures i > 0 ==> IsSpace(s[0])
  {
    assert i > 0 ==> s[..i][0] == s[0];
  }

  lemma BlankSuffix(s: string, j: nat)
    requires j <= |s| && IsBlank(s[j..])
    ensures j < |s| ==> IsSpace(s[|s| - 1])
  {
    assert j < |s| ==> s[j..][|s| - 1 - j] == s[|s| - 1];
  }

  /** In particular a detail that neither begins nor ends in white space and has no carriage return is
      shown as it is. */
  lemma PlainDetailIsItself(lines: seq<string>, detail: string)
    requires Show(lines, detail) && detail != "" && '\r' !in detail
    requires !IsSpace(detail[0]) && !IsSpace(detail[|detail| - 1])
    ensures Joined(lines) == detail
  {
    var shown := Joined(lines);
    var i, j :| && 0 <= i <= j <= |detail| && detail[i..j] == shown
                && IsBlank(detail[..i]) && (i > 0 ==> detail[i - 1] == '\n') && IsBlank(detail[j..]);
    BlankPrefix(detail, i);
    BlankSuffix(detail, j);
  }
}
