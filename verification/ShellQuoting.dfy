/** The shell text the Linux update helper is handed (electron/updateRestart.ts), and a shell's own way
    of taking it apart: the token recognition and quote removal of the POSIX.1-2017 Shell Command
    Language, sections 2.2.1 (escape character), 2.2.2 (single quotes) and 2.3. */
module ShellQuoting {
  import opened Basics
  import opened Framing
  import LocalAccess

  // --- What the program writes -------------------------------------------------------

  /** Every quote becomes `'\''`: close, an escaped quote, open again. */
  function EscapeQuotes(s: string): string {
    if s == "" then "" else (if s[0] == '\'' then "'\\''" else [s[0]]) + EscapeQuotes(s[1..])
  }

  function ShellQuote(arg: string): string {
    "'" + EscapeQuotes(arg) + "'"
  }

  datatype PackageType = Deb | Rpm

  /** The first usable package manager on PATH and the flags it gets before the package. */
  function Manager(kind: PackageType, found: set<string>): Option<seq<string>> {
    match kind
    case Deb =>
      if "dpkg" in found then Some(["dpkg", "-i"])
      else if "apt" in found then
        Some(["apt", "install", "-y", "--allow-unauthenticated", "--allow-downgrades", "--allow-change-held-packages"])
      else None
    case Rpm =>
      if "zypper" in found then
        Some(["zypper", "--non-interactive", "--no-refresh", "install", "--allow-unsigned-rpm", "-f"])
      else if "dnf" in found then Some(["dnf", "install", "--nogpgcheck", "-y"])
      else if "yum" in found then Some(["yum", "install", "--nogpgcheck", "-y"])
      else if "rpm" in found then Some(["rpm", "-Uvh", "--replacepkgs", "--replacefiles", "--nodeps"])
      else None
  }

  /** Words, each followed by one space. */
  function Spaced(words: seq<string>): string {
    if words == [] then "" else words[0] + " " + Spaced(words[1..])
  }

  /** dpkg alone gets the configure step that completes a half-done install. */
  function InstallShellCommand(kind: PackageType, path: string, found: set<string>): Option<string> {
    var manager := Manager(kind, found);
    if manager.None? then None
    else if kind == Deb && "dpkg" in found then
      Some(Spaced(manager.value) + ShellQuote(path) + " || " + Spaced(["apt-get", "install", "-f"]) + "-y")
    else Some(Spaced(manager.value) + ShellQuote(path))
  }

  datatype HelperLaunch = HelperLaunch(pid: nat, agent: string, exePath: string, logPath: string,
      installCommand: string)

  function HelperArgs(launch: HelperLaunch): seq<string> {
    [LocalAccess.Decimal(launch.pid), launch.agent, launch.exePath, launch.logPath, launch.installCommand,
     "bash -c " + ShellQuote(launch.installCommand)]
  }

  // --- How a shell reads it ----------------------------------------------------------

  datatype Token = Word(text: string) | Operator(text: string)

  predicate IsBlank(c: char) {
    c == ' ' || c == '\t'
  }

  predicate IsOperatorChar(c: char) {
    c in "|&;<>()\n"
  }

  /** Characters that would start an expansion, a double quote, a comment or an assignment. Text that
      has one of them unquoted is outside this reading of the language. */
  predicate IsActive(c: char) {
    c in "\"$`*?[#~=%!{}"
  }

  predicate IsPlain(c: char) {
    !IsBlank(c) && !IsOperatorChar(c) && !IsActive(c) && c != '\'' && c != '\\'
  }

  function OperatorLength(s: string): nat
    requires s != ""
  {
    if |s| >= 3 && s[..3] == "<<-" then 3
    else if |s| >= 2 && s[..2] in {"&&", "||", ";;", "<<", ">>", "<&", ">&", "<>", ">|"} then 2
    else 1
  }

  /** The word in progress, if any, as a token. */
  function Flush(word: Option<string>): seq<Token> {
    if word.Some? then [Word(word.value)] else []
  }

  function Grow(word: Option<string>, text: string): Option<string> {
    if word.Some? then Some(word.value + text) else Some(text)
  }

  function Prepend(tokens: seq<Token>, rest: Option<seq<Token>>): Option<seq<Token>> {
    if rest.Some? then Some(tokens + rest.value) else None
  }

  /** Words and operators, with quotes removed. A quoted part makes a word even when it is empty. */
  function Split(s: string, word: Option<string>): Option<seq<Token>>
    decreases |s|
  {
    if s == "" then Some(Flush(word))
    else if s[0] == '\'' then
      var close := IndexOf(s[1..], '\'');
      if close == |s| - 1 then None else Split(s[close + 2..], Grow(word, s[1..close + 1]))
    else if s[0] == '\\' then
      if |s| == 1 then None
      else if s[1] == '\n' then Split(s[2..], word)
      else Split(s[2..], Grow(word, [s[1]]))
    else if IsBlank(s[0]) then Prepend(Flush(word), Split(s[1..], None))
    else if IsOperatorChar(s[0]) then
      var n := OperatorLength(s);
      Prepend(Flush(word) + [Operator(s[..n])], Split(s[n..], None))
    else if IsActive(s[0]) then None
    else Split(s[1..], Grow(word, [s[0]]))
  }

  function SplitWords(s: string): Option<seq<Token>> {
    Split(s, None)
  }

  // --- Quoting is undone -------------------------------------------------------------

  lemma EscapeHead(a: string, b: string)
    requires '\'' !in a
    ensures EscapeQuotes(a + b) == a + EscapeQuotes(b)
  {
    if a == "" {
      assert a + b == b;
    } else {
      EscapeHead(a[1..], b);
      assert (a + b)[1..] == a[1..] + b && (a + b)[0] == a[0];
      assert [a[0]] + (a[1..] + EscapeQuotes(b)) == a + EscapeQuotes(b);
    }
  }

  lemma FirstQuote(text: string, rest: string)
    requires '\'' !in text
    ensures IndexOf(text + "'" + rest, '\'') == |text|
  {
    var s := text + "'" + rest;
    assert s[|text|] == '\'' && s[..|text|] == text;
    assert IndexOf(s, '\'') <= |text|;
  }

  /** A closed single-quoted stretch adds its text to the word. */
  lemma QuotedStretch(text: string, rest: string, word: Option<string>)
    requires '\'' !in text
    ensures Split("'" + text + "'" + rest, word) == Split(rest, Grow(word, text))
  {
    var s := "'" + text + "'" + rest;
    assert s[1..] == text + "'" + rest;
    FirstQuote(text, rest);
    assert s[1..|text| + 1] == text && s[|text| + 2..] == rest;
  }

  lemma EscapedCharacter(c: char, rest: string, word: Option<string>)
    requires c != '\n'
    ensures Split(['\\', c] + rest, word) == Split(rest, Grow(word, [c]))
  {
    assert (['\\', c] + rest)[2..] == rest;
  }

  lemma GrowTwice(word: Option<string>, a: string, b: string)
    ensures Grow(Grow(word, a), b) == Grow(word, a + b)
  {
    if word.Some? {
      assert (word.value + a) + b == word.value + (a + b);
    }
  }

  lemma EscapedAtQuote(a: string, b: string)
    requires '\'' !in a
    ensures EscapeQuotes(a + "'" + b) == a + "'\\''" + EscapeQuotes(b)
  {
    EscapeHead(a, "'" + b);
    assert a + "'" + b == a + ("'" + b);
    assert ("'" + b)[1..] == b;
  }

  /** Whatever an argument contains, its quoted form adds exactly that argument to the word. */
  lemma {:induction false} QuotedArgument(arg: string, rest: string, word: Option<string>)
    ensures Split(ShellQuote(arg) + rest, word) == Split(rest, Grow(word, arg))
    decreases |arg|
  {
    hide Split, EscapeQuotes, Grow;
    var i := IndexOf(arg, '\'');
    if i == |arg| {
      assert arg[..i] == arg;
      NothingToEscape(arg);
      QuotedStretch(arg, rest, word);
    } else {
      var a, b := arg[..i], arg[i + 1..];
      assert arg == a + "'" + b;
      EscapedAtQuote(a, b);
      var tail := ['\\', '\''] + (ShellQuote(b) + rest);
      assert ShellQuote(arg) + rest == "'" + a + "'" + tail;
      QuotedStretch(a, tail, word);
      EscapedCharacter('\'', ShellQuote(b) + rest, Grow(word, a));
      QuotedArgument(b, rest, Grow(Grow(word, a), "'"));
      GrowTwice(word, a, "'");
      GrowTwice(word, a + "'", b);
    }
  }

  lemma NothingToEscape(a: string)
    requires '\'' !in a
    ensures EscapeQuotes(a) == a
  {
    EscapeHead(a, "");
    assert a + "" == a;
  }

  /** A word of plain characters reads as itself. */
  lemma {:induction false} PlainStretch(text: string, rest: string, word: Option<string>)
    requires text != "" && forall i :: 0 <= i < |text| ==> IsPlain(text[i])
    ensures Split(text + rest, word) == Split(rest, Grow(word, text))
  {
    var s := text + rest;
    assert IsPlain(text[0]) && s[0] == text[0];
    if |text| == 1 {
      assert s[1..] == rest && text == [text[0]];
    } else {
      assert s[1..] == text[1..] + rest;
      PlainStretch(text[1..], rest, Grow(word, [text[0]]));
      GrowTwice(word, [text[0]], text[1..]);
      assert [text[0]] + text[1..] == text;
    }
  }

  function AsWords(words: seq<string>): seq<Token> {
    if words == [] then [] else [Word(words[0])] + AsWords(words[1..])
  }

  predicate ArePlain(words: seq<string>) {
    forall i :: 0 <= i < |words| ==> words[i] != "" && forall j :: 0 <= j < |words[i]| ==> IsPlain(words[i][j])
  }

  lemma {:induction false} SpacedWords(words: seq<string>, rest: string)
    requires ArePlain(words)
    ensures Split(Spaced(words) + rest, None) == Prepend(AsWords(words), Split(rest, None))
  {
    if words == [] {
      assert Spaced(words) + rest == rest;
      if Split(rest, None).Some? {
        assert [] + Split(rest, None).value == Split(rest, None).value;
      }
    } else {
      var more := Spaced(words[1..]) + rest;
      assert Spaced(words) + rest == words[0] + (" " + more);
      PlainStretch(words[0], " " + more, None);
      assert (" " + more)[1..] == more;
      SpacedWords(words[1..], rest);
      if Split(rest, None).Some? {
        assert [Word(words[0])] + (AsWords(words[1..]) + Split(rest, None).value)
            == ([Word(words[0])] + AsWords(words[1..])) + Split(rest, None).value;
      }
    }
  }

  /** Words and then one quoted argument: the argument comes back as one word, unchanged. */
  lemma WordsThenArgument(words: seq<string>, arg: string)
    requires ArePlain(words)
    ensures SplitWords(Spaced(words) + ShellQuote(arg)) == Some(AsWords(words) + [Word(arg)])
  {
    SpacedWords(words, ShellQuote(arg));
    QuotedArgument(arg, "", None);
    assert ShellQuote(arg) + "" == ShellQuote(arg);
  }

  /** The helper's last argument is `bash`, `-c` and the install command, whatever that command is. */
  lemma HelperArgumentSplits(launch: HelperLaunch)
    ensures SplitWords(HelperArgs(launch)[5]) == Some([Word("bash"), Word("-c"), Word(launch.installCommand)])
  {
    var words := ["bash", "-c"];
    assert words[1..][1..] == [];
    assert Spaced(words) == "bash -c ";
    WordsThenArgument(words, launch.installCommand);
    assert AsWords(words) + [Word(launch.installCommand)] == [Word("bash"), Word("-c"), Word(launch.installCommand)];
  }

  /** What the helper runs, by its agent: the agents that take words get the fifth argument as one word, those that
      take a command line split the sixth themselves. */
  function HelperRuns(args: seq<string>): Option<seq<Token>>
    requires |args| == 6
  {
    if args[1] in {"none", "pkexec"} then Some([Word("bash"), Word("-c"), Word(args[4])])
    else if args[1] in {"kdesudo", "gksudo", "beesu"} then SplitWords(args[5])
    else None
  }

  /** Whatever agent obtains root, the same words are run; the helper waits for the app's own process and starts
      the app's own executable. */
  lemma EveryAgentRunsTheSame(launch: HelperLaunch)
    requires launch.agent in {"none", "pkexec", "kdesudo", "gksudo", "beesu"}
    ensures HelperRuns(HelperArgs(launch)) == Some([Word("bash"), Word("-c"), Word(launch.installCommand)])
    ensures var args := HelperArgs(launch);
            args[0] == LocalAccess.Decimal(launch.pid) && args[2] == launch.exePath && args[3] == launch.logPath
  {
    HelperArgumentSplits(launch);
    hide SplitWords;
  }

  // --- The install command -----------------------------------------------------------

  predicate IsFlagText(s: string) {
    s != "" && forall i :: 0 <= i < |s| ==> 'a' <= s[i] <= 'z' || 'A' <= s[i] <= 'Z' || s[i] == '-'
  }

  lemma FlagsArePlain(words: seq<string>)
    requires forall i :: 0 <= i < |words| ==> IsFlagText(words[i])
    ensures ArePlain(words)
  {
  }

  lemma DebFlags()
    ensures IsFlagText("dpkg") && IsFlagText("-i") && IsFlagText("apt") && IsFlagText("install") && IsFlagText("-y")
    ensures IsFlagText("--allow-unauthenticated") && IsFlagText("--allow-downgrades")
    ensures IsFlagText("--allow-change-held-packages")
  {
  }

  lemma DebManagersArePlain(found: set<string>)
    requires Manager(Deb, found).Some?
    ensures ArePlain(Manager(Deb, found).value)
  {
    DebFlags();
    hide IsFlagText, ArePlain;
    FlagsArePlain(Manager(Deb, found).value);
  }

  lemma ZypperIsPlain()
    ensures ArePlain(["zypper", "--non-interactive", "--no-refresh", "install", "--allow-unsigned-rpm", "-f"])
  {
    assert IsFlagText("zypper") && IsFlagText("--non-interactive") && IsFlagText("--no-refresh");
    assert IsFlagText("install") && IsFlagText("--allow-unsigned-rpm") && IsFlagText("-f");
    FlagsArePlain(["zypper", "--non-interactive", "--no-refresh", "install", "--allow-unsigned-rpm", "-f"]);
  }

  lemma DnfAndYumArePlain()
    ensures ArePlain(["dnf", "install", "--nogpgcheck", "-y"]) && ArePlain(["yum", "install", "--nogpgcheck", "-y"])
  {
    assert IsFlagText("dnf") && IsFlagText("yum") && IsFlagText("install") && IsFlagText("--nogpgcheck")
        && IsFlagText("-y");
    FlagsArePlain(["dnf", "install", "--nogpgcheck", "-y"]);
    FlagsArePlain(["yum", "install", "--nogpgcheck", "-y"]);
  }

  lemma RpmIsPlain()
    ensures ArePlain(["rpm", "-Uvh", "--replacepkgs", "--replacefiles", "--nodeps"])
  {
    assert IsFlagText("rpm") && IsFlagText("-Uvh") && IsFlagText("--nodeps");
    assert IsFlagText("--replacepkgs") && IsFlagText("--replacefiles");
    FlagsArePlain(["rpm", "-Uvh", "--replacepkgs", "--replacefiles", "--nodeps"]);
  }

  lemma RpmManagersArePlain(found: set<string>)
    requires Manager(Rpm, found).Some?
    ensures ArePlain(Manager(Rpm, found).value)
  {
    hide ArePlain;
    ZypperIsPlain();
    DnfAndYumArePlain();
    RpmIsPlain();
  }

  const FALLBACK := [Operator("||"), Word("apt-get"), Word("install"), Word("-f"), Word("-y")]

  /** The command's words: the manager and its flags, the package path as one word, and for dpkg the
      configure step after an OR. */
  function InstallTokens(kind: PackageType, path: string, found: set<string>): seq<Token>
    requires Manager(kind, found).Some?
  {
    AsWords(Manager(kind, found).value) + [Word(path)] + if kind == Deb && "dpkg" in found then FALLBACK else []
  }

  lemma BlankSkipped(rest: string)
    ensures Split(" " + rest, None) == Split(rest, None)
  {
    assert (" " + rest)[1..] == rest;
    if Split(rest, None).Some? {
      assert [] + Split(rest, None).value == Split(rest, None).value;
    }
  }

  lemma OrRead(rest: string, word: Option<string>)
    ensures Split("||" + rest, word) == Prepend(Flush(word) + [Operator("||")], Split(rest, None))
  {
    assert ("||" + rest)[..2] == "||" && ("||" + rest)[2..] == rest;
    assert |rest| >= 1 ==> ("||" + rest)[..3] != "<<-" by {
      assert ("||" + rest)[0] == '|';
    }
  }

  lemma WordEnds(word: string, rest: string)
    ensures Split(" " + rest, Some(word)) == Prepend([Word(word)], Split(rest, None))
  {
    assert (" " + rest)[1..] == rest;
  }

  lemma LastWord(word: string)
    requires ArePlain([word])
    ensures Split(word, None) == Some([Word(word)])
  {
    assert [word][0] == word;
    PlainStretch(word, "", None);
    assert word + "" == word;
  }

  lemma FallbackSplits(word: string)
    ensures Split(" || " + Spaced(["apt-get", "install", "-f"]) + "-y", Some(word)) == Some([Word(word)] + FALLBACK)
  {
    hide Split, ArePlain, Spaced;
    var words := ["apt-get", "install", "-f"];
    FallbackIsPlain();
    var rest := Spaced(words) + "-y";
    LastWord("-y");
    SpacedWords(words, "-y");
    FallbackWords();
    BlankSkipped(rest);
    OrRead(" " + rest, None);
    WordEnds(word, "||" + (" " + rest));
    assert " || " + Spaced(words) + "-y" == " " + ("||" + (" " + rest));
    assert [Word(word)] + ([] + [Operator("||")] + (AsWords(words) + [Word("-y")])) == [Word(word)] + FALLBACK;
  }

  lemma FallbackIsPlain()
    ensures ArePlain(["apt-get", "install", "-f"]) && ArePlain(["-y"])
  {
    assert IsFlagText("apt-get") && IsFlagText("install") && IsFlagText("-f") && IsFlagText("-y");
    FlagsArePlain(["apt-get", "install", "-f"]);
    FlagsArePlain(["-y"]);
  }

  lemma FallbackWords()
    ensures AsWords(["apt-get", "install", "-f"]) == [Word("apt-get"), Word("install"), Word("-f")]
  {
    var words := ["apt-get", "install", "-f"];
    assert words[1..] == ["install", "-f"] && words[1..][1..] == ["-f"] && words[1..][1..][1..] == [];
  }

  /** For every package path, a shell takes the install command apart into exactly the words meant. */
  lemma InstallCommandSplits(kind: PackageType, path: string, found: set<string>)
    requires Manager(kind, found).Some?
    ensures SplitWords(InstallShellCommand(kind, path, found).value) == Some(InstallTokens(kind, path, found))
  {
    hide Split, Manager, ArePlain, ShellQuote, Spaced;
    var words := Manager(kind, found).value;
    if kind == Deb { DebManagersArePlain(found); } else { RpmManagersArePlain(found); }
    if kind == Deb && "dpkg" in found {
      var rest := " || " + Spaced(["apt-get", "install", "-f"]) + "-y";
      SpacedWords(words, ShellQuote(path) + rest);
      QuotedArgument(path, rest, None);
      FallbackSplits(path);
      assert AsWords(words) + ([Word(path)] + FALLBACK) == AsWords(words) + [Word(path)] + FALLBACK;
      assert InstallShellCommand(kind, path, found).value == Spaced(words) + (ShellQuote(path) + rest);
    } else {
      WordsThenArgument(words, path);
      assert AsWords(words) + [Word(path)] + [] == AsWords(words) + [Word(path)];
    }
  }

  /** The nested level: the helper's argument gives back the install command, and that command gives
      back the path as one word. */
  lemma NestedQuotingRoundTrip(launch: HelperLaunch, kind: PackageType, path: string, found: set<string>)
    requires InstallShellCommand(kind, path, found) == Some(launch.installCommand)
    ensures SplitWords(HelperArgs(launch)[5]) == Some([Word("bash"), Word("-c"), Word(launch.installCommand)])
    ensures SplitWords(launch.installCommand) == Some(InstallTokens(kind, path, found))
    ensures InstallTokens(kind, path, found)[|Manager(kind, found).value|] == Word(path)
  {
    HelperArgumentSplits(launch);
    InstallCommandSplits(kind, path, found);
    AsWordsSize(Manager(kind, found).value);
  }

  lemma {:induction false} AsWordsSize(words: seq<string>)
    ensures |AsWords(words)| == |words|
  {
    if words != [] {
      AsWordsSize(words[1..]);
    }
  }

  /** The managers that may install a package of that kind, in the order they are looked for. */
  function Priority(kind: PackageType): seq<string> {
    match kind
    case Deb => ["dpkg", "apt"]
    case Rpm => ["zypper", "dnf", "yum", "rpm"]
  }

  predicate IsFirstFound(kind: PackageType, found: set<string>, i: nat) {
    && i < |Priority(kind)| && Priority(kind)[i] in found
    && forall j :: 0 <= j < i ==> Priority(kind)[j] !in found
  }

  /** There is a command exactly if some manager is found, and it is for the first of them. */
  lemma ManagerIsTheFirstFound(kind: PackageType, path: string, found: set<string>)
    ensures InstallShellCommand(kind, path, found).None? <==>
            forall i :: 0 <= i < |Priority(kind)| ==> Priority(kind)[i] !in found
    ensures forall i: nat :: IsFirstFound(kind, found, i) ==>
              Manager(kind, found).Some? && Manager(kind, found).value[0] == Priority(kind)[i]
  {
    hide ShellQuote, Spaced;
    if kind == Deb {
      assert Priority(kind)[0] == "dpkg" && Priority(kind)[1] == "apt";
    } else {
      assert Priority(kind)[0] == "zypper" && Priority(kind)[1] == "dnf";
      assert Priority(kind)[2] == "yum" && Priority(kind)[3] == "rpm";
    }
  }
}
