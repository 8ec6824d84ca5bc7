/** Newline framing over arbitrary chunks: the stdin loop of the phantombot host
    (electron/phantombot/host.ts). */
module Framing {
  import opened Texts

  /** Where `c` first occurs, or the length. */
  function IndexOf(s: string, c: char): (i: nat)
    ensures i <= |s| && (i < |s| ==> s[i] == c) && c !in s[..i]
  {
    if s == "" || s[0] == c then 0
    else
      assert s[..1 + IndexOf(s[1..], c)] == [s[0]] + s[1..][..IndexOf(s[1..], c)];
      1 + IndexOf(s[1..], c)
  }

  /** A text as its finished lines and the tail that is not one yet. */
  function Cut(text: string): (seq<string>, string)
    decreases |text|
  {
    var i := IndexOf(text, '\n');
    if i == |text| then ([], text)
    else
      var (lines, tail) := Cut(text[i + 1..]);
      ([text[..i]] + lines, tail)
  }

  /** The lines worth handing on: trimmed, blank ones dropped. */
  function Handed(lines: seq<string>): seq<string> {
    if lines == [] then []
    else
      var line, rest := Trim(lines[0]), Handed(lines[1..]);
      if line == "" then rest else [line] + rest
  }

  function Concat(chunks: seq<string>): string {
    if chunks == [] then "" else chunks[0] + Concat(chunks[1..])
  }

  lemma {:induction false} HandedAppend(a: seq<string>, b: seq<string>)
    ensures Handed(a + b) == Handed(a) + Handed(b)
  {
    hide Trim;
    if a == [] {
      assert a + b == b;
    } else {
      HandedAppend(a[1..], b);
      assert (a + b)[1..] == a[1..] + b && (a + b)[0] == a[0];
      var line := Trim(a[0]);
      assert ([line] + Handed(a[1..])) + Handed(b) == [line] + (Handed(a[1..]) + Handed(b));
    }
  }

  lemma NothingHanded()
    ensures Handed([]) == []
  {
  }

  lemma OneHanded(line: string)
    ensures Handed([line]) == if Trim(line) == "" then [] else [Trim(line)]
  {
    NothingHanded();
  }

  lemma CutNoNewline(s: string)
    requires '\n' !in s
    ensures Cut(s) == ([], s)
  {
    assert IndexOf(s, '\n') == |s|;
  }

  lemma CutOneLine(line: string, rest: string)
    requires '\n' !in line
    ensures Cut(line + "\n" + rest) == ([line] + Cut(rest).0, Cut(rest).1)
  {
    var text := line + "\n" + rest;
    var i := IndexOf(text, '\n');
    assert text[|line|] == '\n' && text[..|line|] == line;
    assert i == |line|;
    assert text[|line| + 1..] == rest;
  }

  lemma {:induction false} CutTail(s: string)
    ensures '\n' !in Cut(s).1
    decreases |s|
  {
    var i := IndexOf(s, '\n');
    if i < |s| {
      CutTail(s[i + 1..]);
    } else {
      assert s[..i] == s;
    }
  }

  /** One line off the front. */
  lemma CutStep(s: string)
    ensures var i := IndexOf(s, '\n');
            if i < |s| then Cut(s) == ([s[..i]] + Cut(s[i + 1..]).0, Cut(s[i + 1..]).1) else Cut(s) == ([], s)
  {
  }

  /** Cutting can stop anywhere and go on from the tail. */
  lemma {:induction false} CutAppend(a: string, b: string)
    ensures Cut(a + b) == (Cut(a).0 + Cut(Cut(a).1 + b).0, Cut(Cut(a).1 + b).1)
    decreases |a|
  {
    hide Cut, IndexOf;
    var i := IndexOf(a, '\n');
    if i == |a| {
      CutStep(a);
      assert [] + Cut(a + b).0 == Cut(a + b).0;
    } else {
      var line, rest := a[..i], a[i + 1..];
      assert a == line + "\n" + rest;
      CutOneLine(line, rest);
      CutOneLine(line, rest + b);
      assert a + b == line + "\n" + (rest + b);
      CutAppend(rest, b);
      assert [line] + (Cut(rest).0 + Cut(Cut(rest).1 + b).0) == ([line] + Cut(rest).0) + Cut(Cut(rest).1 + b).0;
    }
  }

  /** The host's stdin: a buffer fed one chunk at a time. */
  class LineReader {
    var buffer: string

    constructor ()
      ensures buffer == ""
    {
      buffer := "";
    }

    /** The lines one chunk completes, in order, and the buffer it leaves. */
    method Feed(chunk: string) returns (lines: seq<string>)
      modifies this
      ensures lines == Handed(Cut(old(buffer) + chunk).0) && buffer == Cut(old(buffer) + chunk).1
    {
      hide Cut, IndexOf, Trim, Handed;
      lines := [];
      buffer := buffer + chunk;
      NothingHanded();
      ghost var text := buffer;
      ghost var raw: seq<string> := [];
      var newline := IndexOf(buffer, '\n');
      assert Cut(text).0 == raw + Cut(text).0;
      while newline < |buffer|
        invariant newline == IndexOf(buffer, '\n')
        invariant Cut(text).0 == raw + Cut(buffer).0 && Cut(text).1 == Cut(buffer).1
        invariant lines == Handed(raw)
        decreases |buffer|
      {
        var line := Trim(buffer[..newline]);
        CutStep(buffer);
        HandedAppend(raw, [buffer[..newline]]);
        OneHanded(buffer[..newline]);
        assert raw + Cut(buffer).0 == (raw + [buffer[..newline]]) + Cut(buffer[newline + 1..]).0;
        raw := raw + [buffer[..newline]];
        buffer := buffer[newline + 1..];
        if line != "" {
          lines := lines + [line];
        }
        newline := IndexOf(buffer, '\n');
      }
      CutStep(buffer);
      assert Cut(text).0 == raw;
    }

    /** However the input is split into chunks, the lines handed on are the non-blank trimmed lines
        of the whole, and what stays in the buffer is its unfinished tail. */
    method FeedAll(chunks: seq<string>) returns (lines: seq<string>)
      requires '\n' !in buffer
      modifies this
      ensures lines == Handed(Cut(old(buffer) + Concat(chunks)).0)
      ensures buffer == Cut(old(buffer) + Concat(chunks)).1
    {
      lines := [];
      CutNoNewline(buffer);
      ghost var start := buffer;
      assert start + Concat(chunks[..0]) == start;
      for i := 0 to |chunks|
        invariant lines == Handed(Cut(start + Concat(chunks[..i])).0)
        invariant buffer == Cut(start + Concat(chunks[..i])).1
      {
        ghost var seen := start + Concat(chunks[..i]);
        ConcatSnoc(chunks, i);
        assert start + Concat(chunks[..i + 1]) == seen + chunks[i];
        CutAppend(seen, chunks[i]);
        HandedAppend(Cut(seen).0, Cut(Cut(seen).1 + chunks[i]).0);
        var more := Feed(chunks[i]);
        lines := lines + more;
      }
      assert chunks[..|chunks|] == chunks;
    }
  }

  lemma {:induction false} ConcatSnoc(chunks: seq<string>, i: nat)
    requires i < |chunks|
    ensures Concat(chunks[..i + 1]) == Concat(chunks[..i]) + chunks[i]
  {
    if i == 0 {
      assert chunks[..1] == [chunks[0]];
    } else {
      ConcatSnoc(chunks[1..], i - 1);
      assert chunks[..i + 1][1..] == chunks[1..][..i] && chunks[..i][1..] == chunks[1..][..i - 1];
    }
  }

  /** The lines and the tail that chunks leave, one chunk after another. */
  function Delivered(buffer: string, chunks: seq<string>): (seq<string>, string)
    decreases |chunks|
  {
    if chunks == [] then ([], buffer)
    else
      var (raw, tail) := Cut(buffer + chunks[0]);
      var (lines, last) := Delivered(tail, chunks[1..]);
      (Handed(raw) + lines, last)
  }

  /** Framing does not depend on the chunking. */
  lemma {:induction false} ChunkingDoesNotMatter(buffer: string, chunks: seq<string>)
    requires '\n' !in buffer
    ensures Delivered(buffer, chunks) == (Handed(Cut(buffer + Concat(chunks)).0), Cut(buffer + Concat(chunks)).1)
    decreases |chunks|
  {
    hide Cut, IndexOf, Trim, Handed;
    NothingHanded();
    if chunks == [] {
      CutNoNewline(buffer);
      assert buffer + Concat(chunks) == buffer;
    } else {
      var seen, rest := buffer + chunks[0], Concat(chunks[1..]);
      CutTail(seen);
      ChunkingDoesNotMatter(Cut(seen).1, chunks[1..]);
      CutAppend(seen, rest);
      HandedAppend(Cut(seen).0, Cut(Cut(seen).1 + rest).0);
      assert Cut(buffer + Concat(chunks)) == Cut(seen + rest) by {
        assert buffer + Concat(chunks) == seen + rest;
      }
    }
  }

  // --- Writing lines -----------------------------------------------------------------

  function Lines(texts: seq<string>): string {
    if texts == [] then "" else texts[0] + "\n" + Lines(texts[1..])
  }

  /** Encodings a line may carry: one line each, nothing to trim, never blank. */
  predicate IsLineText(s: string) {
    s != "" && '\n' !in s && Trim(s) == s
  }

  lemma {:induction false} HandedAsWritten(texts: seq<string>)
    requires forall i :: 0 <= i < |texts| ==> IsLineText(texts[i])
    ensures Handed(texts) == texts
  {
    if texts != [] {
      HandedAsWritten(texts[1..]);
      assert IsLineText(texts[0]);
    }
  }

  /** A read that got past the first newline got past the first text. */
  lemma FirstLineRead(first: string, others: string, seen: string, rest: string)
    requires '\n' !in first && '\n' in seen && seen + rest == first + "\n" + others
    ensures |first| < |seen| && seen[..|first| + 1] == first + "\n"
    ensures seen[|first| + 1..] + rest == others
  {
    var whole := first + "\n" + others;
    assert whole[..|seen|] == seen && whole[..|first|] == first && whole[..|first| + 1] == first + "\n";
    assert whole[|first| + 1..] == others;
    assert (seen + rest)[|first| + 1..] == seen[|first| + 1..] + rest;
  }

  /** Reading any prefix of written lines gives whole texts, in order, and leaves exactly the rest. */
  lemma {:induction false} PrefixOfLines(texts: seq<string>, seen: string, rest: string)
    requires forall i :: 0 <= i < |texts| ==> IsLineText(texts[i])
    requires seen + rest == Lines(texts)
    ensures var (raw, tail) := Cut(seen);
            && |raw| <= |texts| && raw == texts[..|raw|]
            && tail + rest == Lines(texts[|raw|..])
    decreases |texts|
  {
    hide Cut, IndexOf, Trim;
    if '\n' !in seen {
      CutNoNewline(seen);
      assert texts[0..] == texts && texts[..0] == [];
    } else {
      assert |Lines(texts)| >= |seen| > 0;
      var first := texts[0];
      assert IsLineText(first) && seen + rest == first + "\n" + Lines(texts[1..]);
      FirstLineRead(first, Lines(texts[1..]), seen, rest);
      var more := seen[|first| + 1..];
      assert seen == first + "\n" + more;
      CutOneLine(first, more);
      PrefixOfLines(texts[1..], more, rest);
      var n := |Cut(more).0|;
      assert texts[..n + 1] == [first] + texts[1..][..n];
      assert texts[1..][n..] == texts[n + 1..];
    }
  }

  /** So the reader recovers exactly what the writer wrote. */
  lemma LinesRoundTrip(texts: seq<string>, chunks: seq<string>)
    requires forall i :: 0 <= i < |texts| ==> IsLineText(texts[i])
    requires Concat(chunks) == Lines(texts)
    ensures Delivered("", chunks) == (texts, "")
  {
    ChunkingDoesNotMatter("", chunks);
    assert "" + Concat(chunks) == Lines(texts);
    AllLinesCut(texts);
    HandedAsWritten(texts);
  }

  lemma {:induction false} AllLinesCut(texts: seq<string>)
    requires forall i :: 0 <= i < |texts| ==> IsLineText(texts[i])
    ensures Cut(Lines(texts)) == (texts, "")
  {
    if texts == [] {
      CutNoNewline("");
    } else {
      AllLinesCut(texts[1..]);
      CutOneLine(texts[0], Lines(texts[1..]));
      assert Lines(texts) == texts[0] + "\n" + Lines(texts[1..]);
      assert [texts[0]] + texts[1..] == texts;
    }
  }
}
