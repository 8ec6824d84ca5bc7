/** White space and URLs as several files of the desktop layer clean them up. */
module Texts {

  /** What JavaScript's `trim` and `\s` treat as white space, line ends included. */
  predicate IsSpace(c: char) {
    || '\t' <= c <= '\r' || c == ' ' || c == '\U{A0}' || c == '\U{1680}' || '\U{2000}' <= c <= '\U{200A}'
    || c == '\U{2028}' || c == '\U{2029}' || c == '\U{202F}' || c == '\U{205F}' || c == '\U{3000}' || c == '\U{FEFF}'
  }

  function TrimStart(s: string): string {
    if s != "" && IsSpace(s[0]) then TrimStart(s[1..]) else s
  }

  function TrimEnd(s: string): string {
    if s != "" && IsSpace(s[|s| - 1]) then TrimEnd(s[..|s| - 1]) else s
  }

  function Trim(s: string): string {
    TrimEnd(TrimStart(s))
  }

  /** `replace(/\/+$/, '')`. */
  function StripSlashes(s: string): string {
    if s != "" && s[|s| - 1] == '/' then StripSlashes(s[..|s| - 1]) else s
  }

  function StripEnd(s: string): string {
    if s != "" && (s[|s| - 1] == '/' || IsSpace(s[|s| - 1])) then StripEnd(s[..|s| - 1]) else s
  }

  /** A URL up to surrounding blanks and trailing slashes, in whatever order those come. */
  function BareUrl(s: string): string {
    StripEnd(TrimStart(s))
  }

  lemma {:induction false} TrimEndIsBare(s: string)
    ensures StripEnd(TrimEnd(s)) == StripEnd(s)
  {
    if s != "" && IsSpace(s[|s| - 1]) {
      TrimEndIsBare(s[..|s| - 1]);
    }
  }

  lemma {:induction false} TrimStartSnoc(s: string, c: char)
    requires !IsSpace(c)
    ensures TrimStart(s + [c]) == TrimStart(s) + [c]
  {
    if s != "" && IsSpace(s[0]) {
      assert (s + [c])[1..] == s[1..] + [c];
      TrimStartSnoc(s[1..], c);
    } else if s == "" {
      assert s + [c] == [c] && TrimStart([c]) == [c];
    }
  }

  lemma {:induction false} TrimStartThenStrip(s: string)
    ensures StripEnd(TrimStart(StripSlashes(s))) == StripEnd(TrimStart(s))
  {
    if s != "" && s[|s| - 1] == '/' {
      var t := s[..|s| - 1];
      assert s == t + ['/'];
      TrimStartSnoc(t, '/');
      TrimStartThenStrip(t);
      assert TrimStart(s)[..|TrimStart(s)| - 1] == TrimStart(t);
    }
  }

  lemma {:induction false} TrimStartDone(s: string)
    ensures TrimStart(s) == "" || !IsSpace(TrimStart(s)[0])
  {
    if s != "" && IsSpace(s[0]) {
      TrimStartDone(s[1..]);
    }
  }

  lemma {:induction false} TrimEndKeepsHead(s: string)
    requires s == "" || !IsSpace(s[0])
    ensures TrimEnd(s) == "" <==> s == ""
    ensures s != "" ==> TrimEnd(s)[0] == s[0]
  {
    if s != "" && IsSpace(s[|s| - 1]) {
      TrimEndKeepsHead(s[..|s| - 1]);
    }
  }

  lemma {:induction false} TrimEndDone(s: string)
    ensures TrimEnd(TrimEnd(s)) == TrimEnd(s)
  {
    if s != "" && IsSpace(s[|s| - 1]) {
      TrimEndDone(s[..|s| - 1]);
    }
  }

  lemma TrimTwice(s: string)
    ensures Trim(Trim(s)) == Trim(s) && TrimStart(Trim(s)) == Trim(s)
  {
    TrimStartDone(s);
    TrimEndKeepsHead(TrimStart(s));
    TrimEndDone(TrimStart(s));
  }

  /** Neither clean-up changes which bare URL a text stands for. */
  lemma CleaningKeepsTheUrl(s: string)
    ensures BareUrl(Trim(s)) == BareUrl(s)
    ensures BareUrl(StripSlashes(s)) == BareUrl(s)
  {
    TrimTwice(s);
    TrimEndIsBare(TrimStart(s));
    TrimStartThenStrip(s);
  }

  lemma {:induction false} StripSlashesLength(s: string)
    ensures |StripSlashes(s)| <= |s|
  {
    if s != "" && s[|s| - 1] == '/' {
      StripSlashesLength(s[..|s| - 1]);
    }
  }

  lemma {:induction false} TrimEndLength(s: string)
    ensures |TrimEnd(s)| <= |s|
  {
    if s != "" && IsSpace(s[|s| - 1]) {
      TrimEndLength(s[..|s| - 1]);
    }
  }

  lemma {:induction false} StripSlashesDone(s: string)
    ensures StripSlashes(s) <= s && StripSlashes(StripSlashes(s)) == StripSlashes(s)
  {
    if s != "" && s[|s| - 1] == '/' {
      StripSlashesDone(s[..|s| - 1]);
    }
  }

  predicate EndsInBlank(s: string) {
    s != "" && IsSpace(s[|s| - 1])
  }

  /** Cleaning a URL a second time changes it exactly when the first cleaning took slashes off a blank. */
  lemma CleanedTwice(u: string)
    ensures var w := StripSlashes(Trim(u));
            && (StripSlashes(Trim(w)) == w <==> !EndsInBlank(w))
            && StripSlashes(w) == w && |Trim(w)| <= |w| && (w != "" ==> Trim(w) != "")
  {
    var w := StripSlashes(Trim(u));
    StripSlashesDone(Trim(u));
    TrimStartDone(u);
    TrimTwice(u);
    TrimEndLength(w);
    if w != "" {
      TrimEndKeepsHead(TrimStart(u));
      TrimEndKeepsHead(w);
    }
    assert TrimStart(w) == w;
    if EndsInBlank(w) {
      TrimEndLength(w[..|w| - 1]);
      StripSlashesLength(Trim(w));
    }
  }

  lemma {:induction false} TrimStartLength(s: string)
    ensures |TrimStart(s)| <= |s|
  {
    if s != "" && IsSpace(s[0]) {
      TrimStartLength(s[1..]);
    }
  }

  lemma TrimIsShorter(s: string)
    ensures |Trim(s)| <= |s|
  {
    TrimStartLength(s);
    TrimEndLength(TrimStart(s));
  }

  lemma CleanedLength(u: string)
    ensures |StripSlashes(Trim(u))| <= |u|
  {
    TrimStartLength(u);
    TrimEndLength(TrimStart(u));
    StripSlashesLength(Trim(u));
  }
}
