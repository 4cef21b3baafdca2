/**
 * Quoting for the boot script, against the quoting rules of the shell that runs it (POSIX.1-2017,
 * Shell Command Language, sections 2.2.1 to 2.2.3) and of the file the script writes.
 */
module ShellQuoting {
  import opened Prelude
  import opened GoStrings
  import opened Lines

  /** strings.ReplaceAll for a one-character pattern. */
  function ReplaceAll(s: string, old_: char, new_: string): string {
    if s == "" then ""
    else (if s[0] == old_ then new_ else [s[0]]) + ReplaceAll(s[1..], old_, new_)
  }

  /** shellSingleQuote. */
  function Quote(s: string): string {
    "'" + ReplaceAll(s, '\'', "'\\''") + "'"
  }

  /** validateShellSafe: none of the characters that are read again inside double quotes. */
  predicate ShellSafe(s: string) {
    '\"' !in s && '$' !in s && '`' !in s && '\\' !in s
  }

  /* ---------------------------------------------------------------- the shell's reading */

  type Env = map<string, string>

  /** Unquoted, a word ends at a blank, a newline or an operator character. */
  predicate EndsWord(c: char) {
    c in " \t\n|&;<>()"
  }

  /** Characters whose unquoted meaning (expansions, patterns) is not modelled. */
  predicate Unmodelled(c: char) {
    c in "$`*?[#~!{}"
  }

  predicate NameChar(c: char) {
    'a' <= c <= 'z' || 'A' <= c <= 'Z' || '0' <= c <= '9' || c == '_'
  }

  /** The longest parameter name a text starts with. */
  function NamePrefix(s: string): (n: string)
    ensures |n| <= |s|
  {
    if s == "" || !NameChar(s[0]) then "" else [s[0]] + NamePrefix(s[1..])
  }

  /** A word read so far, and the input left; None where the script would be an error or unmodelled. */
  type Reading = Option<(string, string)>

  function After(read: string, rest: Reading): Reading {
    if rest.None? then None else Some((read + rest.value.0, rest.value.1))
  }

  datatype Quoting = Unquoted | Single | Double

  /** Read the rest of a word and remove its quoting. */
  function Word(env: Env, q: Quoting, s: string): Reading
    decreases |s|
  {
    match q
    case Unquoted =>
      if s == "" || EndsWord(s[0]) then Some(("", s))
      else if s[0] == '\'' then Word(env, Single, s[1..])
      else if s[0] == '\"' then Word(env, Double, s[1..])
      else if s[0] == '\\' then
        if |s| < 2 then None
        else if s[1] == '\n' then Word(env, Unquoted, s[2..])
        else After([s[1]], Word(env, Unquoted, s[2..]))
      else if Unmodelled(s[0]) then None
      else After([s[0]], Word(env, Unquoted, s[1..]))
    case Single =>
      if s == "" then None
      else if s[0] == '\'' then Word(env, Unquoted, s[1..])
      else After([s[0]], Word(env, Single, s[1..]))
    case Double =>
      if s == "" then None
      else if s[0] == '\"' then Word(env, Unquoted, s[1..])
      else if s[0] == '`' then None
      else if s[0] == '$' then
        var name := NamePrefix(s[1..]);
        if name == "" then None
        else After(if name in env then env[name] else "", Word(env, Double, s[1 + |name|..]))
      else if s[0] == '\\' then
        if |s| < 2 then None
        else if s[1] == '\n' then Word(env, Double, s[2..])
        else if s[1] in "$`\"\\" then After([s[1]], Word(env, Double, s[2..]))
        else After("\\", Word(env, Double, s[1..]))
      else After([s[0]], Word(env, Double, s[1..]))
  }

  predicate EndOfWord(rest: string) {
    rest == "" || EndsWord(rest[0])
  }

  /* ---------------------------------------------------------------------- quoting laws */

  /** Inside the quotes, the escaped text reads as the text. */
  lemma {:induction false} QuotedBody(env: Env, s: string, rest: string)
    requires EndOfWord(rest)
    ensures Word(env, Single, ReplaceAll(s, '\'', "'\\''") + "'" + rest) == Some((s, rest))
    decreases |s|
  {
    if s == "" {
      assert ("" + "'" + rest)[1..] == rest;
    } else {
      var tail := ReplaceAll(s[1..], '\'', "'\\''") + "'" + rest;
      QuotedBody(env, s[1..], rest);
      assert [s[0]] + s[1..] == s;
      EscapedHead(env, s, rest, tail);
    }
  }

  /** The first character of an escaped text reads as itself. */
  lemma EscapedHead(env: Env, s: string, rest: string, tail: string)
    requires s != "" && tail == ReplaceAll(s[1..], '\'', "'\\''") + "'" + rest
    ensures Word(env, Single, ReplaceAll(s, '\'', "'\\''") + "'" + rest) == After([s[0]], Word(env, Single, tail))
  {
    var body := ReplaceAll(s, '\'', "'\\''");
    if s[0] == '\'' {
      EscapedQuote(env, tail);
      assert body + "'" + rest == "'\\''" + tail;
    } else {
      assert body + "'" + rest == [s[0]] + tail;
      assert ([s[0]] + tail)[1..] == tail;
    }
  }

  /** The idiom '\'' inside single quotes leaves them, reads one quote and enters them again. */
  lemma EscapedQuote(env: Env, tail: string)
    ensures Word(env, Single, "'\\''" + tail) == After("'", Word(env, Single, tail))
  {
    var s := "'\\''" + tail;
    assert s[1..] == "\\''" + tail;
    assert ("\\''" + tail)[2..] == "'" + tail;
    assert ("'" + tail)[1..] == tail;
    assert Word(env, Unquoted, "'" + tail) == Word(env, Single, tail);
    assert Word(env, Unquoted, "\\''" + tail) == After("'", Word(env, Unquoted, "'" + tail));
  }

  /** The shell reads a quoted text as one word, and that word is the text, whatever it contains. */
  lemma QuoteRoundTrip(env: Env, s: string, rest: string)
    requires EndOfWord(rest)
    ensures Word(env, Unquoted, Quote(s) + rest) == Some((s, rest))
  {
    QuotedBody(env, s, rest);
    assert (Quote(s) + rest)[1..] == ReplaceAll(s, '\'', "'\\''") + "'" + rest;
  }

  /** Quoting adds no line break. */
  lemma {:induction false} ReplaceAddsNoNewline(s: string)
    requires '\n' !in s
    ensures '\n' !in ReplaceAll(s, '\'', "'\\''")
  {
    if s != "" {
      ReplaceAddsNoNewline(s[1..]);
    }
  }

  lemma QuoteAddsNoNewline(s: string)
    requires '\n' !in s
    ensures '\n' !in Quote(s)
  {
    ReplaceAddsNoNewline(s);
  }

  /** Inside double quotes a text without special characters reads as itself. */
  lemma {:induction false} PlainText(env: Env, p: string, rest: string)
    requires ShellSafe(p)
    ensures Word(env, Double, p + rest) == After(p, Word(env, Double, rest))
    decreases |p|
  {
    if p == "" {
      assert "" + rest == rest;
      if Word(env, Double, rest).Some? {
        assert "" + Word(env, Double, rest).value.0 == Word(env, Double, rest).value.0;
      }
    } else {
      PlainText(env, p[1..], rest);
      assert (p + rest)[1..] == p[1..] + rest;
      assert [p[0]] + p[1..] == p;
      var r := Word(env, Double, rest);
      if r.Some? {
        assert [p[0]] + (p[1..] + r.value.0) == p + r.value.0;
      }
    }
  }

  lemma {:induction false} NameReads(name: string, rest: string)
    requires forall i :: 0 <= i < |name| ==> NameChar(name[i])
    requires rest == "" || !NameChar(rest[0])
    ensures NamePrefix(name + rest) == name
  {
    if name == "" {
      assert "" + rest == rest;
    } else {
      NameReads(name[1..], rest);
      assert (name + rest)[1..] == name[1..] + rest;
      assert [name[0]] + name[1..] == name;
    }
  }

  /** A parameter in double quotes is replaced by its value, which is not read again. */
  lemma Parameter(env: Env, name: string, rest: string)
    requires name != "" && forall i :: 0 <= i < |name| ==> NameChar(name[i])
    requires rest == "" || !NameChar(rest[0])
    ensures Word(env, Double, "$" + name + rest)
         == After(if name in env then env[name] else "", Word(env, Double, rest))
  {
    var s := "$" + name + rest;
    assert s[1..] == name + rest;
    NameReads(name, rest);
    assert s[1 + |name|..] == rest;
  }

  /** The value of an assignment whose right-hand side is one word. */
  function Value(env: Env, rhs: string): Option<string> {
    var w := Word(env, Unquoted, rhs);
    if w.Some? && w.value.1 == "" then Some(w.value.0) else None
  }

  /* ----------------------------------------------------------- double-quoted templates */

  /** What the boot script puts between double quotes: plain text, parameters, escaped quotes. */
  datatype Piece = Text(text: string) | Param(name: string) | EscapedDouble

  function Show(p: Piece): string {
    match p
    case Text(text) => text
    case Param(name) => "$" + name
    case EscapedDouble => "\\\""
  }

  /** The pieces and the closing quote. */
  function ShowAll(ps: seq<Piece>): string {
    if ps == [] then "\"" else Show(ps[0]) + ShowAll(ps[1..])
  }

  function DoubleQuoted(ps: seq<Piece>): string {
    "\"" + ShowAll(ps)
  }

  function Means(env: Env, p: Piece): string {
    match p
    case Text(text) => text
    case Param(name) => if name in env then env[name] else ""
    case EscapedDouble => "\""
  }

  function Meaning(env: Env, ps: seq<Piece>): string {
    if ps == [] then "" else Means(env, ps[0]) + Meaning(env, ps[1..])
  }

  predicate Name(n: string) {
    n != "" && forall i :: 0 <= i < |n| ==> NameChar(n[i])
  }

  /** Texts are free of special characters, and a parameter's name ends where it should. */
  predicate Fine(ps: seq<Piece>) {
    ps == [] ||
    (&& (ps[0].Text? ==> ShellSafe(ps[0].text))
     && (ps[0].Param? ==>
           Name(ps[0].name) && (|ps| > 1 && ps[1].Text? ==> ps[1].text != "" && !NameChar(ps[1].text[0])))
     && Fine(ps[1..]))
  }

  /** What is left to read after the first piece does not continue a parameter's name. */
  lemma FirstCharOfNext(ps: seq<Piece>, rest: string)
    requires ps != [] && ps[0].Text? ==> ps[0].text != "" && !NameChar(ps[0].text[0])
    ensures ShowAll(ps) + rest != "" && !NameChar((ShowAll(ps) + rest)[0])
  {
  }

  lemma EscapedReads(env: Env, rest: string)
    ensures Word(env, Double, "\\\"" + rest) == After("\"", Word(env, Double, rest))
  {
    var s := "\\\"" + rest;
    assert s[2..] == rest;
  }

  lemma PieceReads(env: Env, ps: seq<Piece>, rest: string)
    requires ps != [] && Fine(ps)
    ensures Word(env, Double, ShowAll(ps) + rest)
         == After(Means(env, ps[0]), Word(env, Double, ShowAll(ps[1..]) + rest))
  {
    var tail := ShowAll(ps[1..]) + rest;
    assert ShowAll(ps) + rest == Show(ps[0]) + tail;
    match ps[0] {
      case Text(text) => PlainText(env, text, tail);
      case Param(name) =>
        FirstCharOfNext(ps[1..], rest);
        Parameter(env, name, tail);
      case EscapedDouble => EscapedReads(env, tail);
    }
  }

  /** The shell reads the pieces as they are meant, up to the closing quote. */
  lemma {:induction false} PiecesRead(env: Env, ps: seq<Piece>, rest: string)
    requires Fine(ps) && EndOfWord(rest)
    ensures Word(env, Double, ShowAll(ps) + rest) == Some((Meaning(env, ps), rest))
    decreases |ps|
  {
    if ps == [] {
      assert ("\"" + rest)[1..] == rest;
    } else {
      PiecesRead(env, ps[1..], rest);
      PieceReads(env, ps, rest);
    }
  }

  lemma DoubleQuotedReads(env: Env, ps: seq<Piece>)
    requires Fine(ps)
    ensures Value(env, DoubleQuoted(ps)) == Some(Meaning(env, ps))
  {
    PiecesRead(env, ps, "");
    assert DoubleQuoted(ps)[1..] == ShowAll(ps) + "";
  }

  /* ------------------------------------------------------------------- the boot script */

  /** The names and texts in the script's kubelet lines. */
  datatype Script = Script(labelsVar: string, extraVar: string, base: string, flag: string, key: string) {
    const emptyTest := [Param(labelsVar)]
    const withLabels := [Param(extraVar), Text(flag), Param(labelsVar)]
    const echoed := [Text(key), EscapedDouble, Param(extraVar), EscapedDouble]

    predicate Sound() {
      && Name(labelsVar) && Name(extraVar) && labelsVar != extraVar
      && ShellSafe(base) && ShellSafe(flag) && ShellSafe(key)
      && '\n' !in base && '\n' !in flag && '\n' !in key
      && flag != "" && !NameChar(flag[0])
    }

    function Args(labels: string): string {
      if labels == "" then base else base + (flag + labels)
    }
  }

  /** A line without its leading blanks. */
  function TrimBlanks(line: string): string {
    if line != "" && line[0] == ' ' then TrimBlanks(line[1..]) else line
  }

  /** The line is an assignment to the variable. */
  predicate AssignsTo(line: string, name: string) {
    HasPrefix(TrimBlanks(line), name + "=")
  }

  predicate SameVariable(a: Env, b: Env, name: string) {
    (name in a <==> name in b) && (name in a ==> a[name] == b[name])
  }

  /** Variables before, between and after some lines of which only assignments to `name` change it. */
  predicate Traces(envs: seq<Env>, lines: seq<string>, name: string) {
    && |envs| == |lines| + 1
    && forall i :: 0 <= i < |lines| && !AssignsTo(lines[i], name) ==> SameVariable(envs[i], envs[i + 1], name)
  }

  lemma {:induction false} Untouched(envs: seq<Env>, lines: seq<string>, name: string)
    requires Traces(envs, lines, name) && forall i :: 0 <= i < |lines| ==> !AssignsTo(lines[i], name)
    ensures SameVariable(envs[0], envs[|lines|], name)
    decreases |lines|
  {
    if lines != [] {
      var last := |lines| - 1;
      Untouched(envs[..|lines|], lines[..last], name);
      assert SameVariable(envs[last], envs[|lines|], name);
    }
  }

  /** What `echo` prints; with a backslash in it, that would depend on the shell. */
  function Echo(argument: string): Option<string> {
    if '\\' in argument then None else Some(argument + "\n")
  }

  /** The kinds of commands in the script's kubelet lines; words and tests are script text. */
  datatype Command =
    | Assign(name: string, word: string)
    | AssignIfNonEmpty(test: string, name: string, word: string)
    | EchoTo(word: string, path: string)

  function Written(c: Command): seq<string> {
    match c
    case Assign(name, word) => [name + "=" + word]
    case AssignIfNonEmpty(test, name, word) => ["if [ -n " + test + " ]; then", "  " + name + "=" + word, "fi"]
    case EchoTo(word, path) => ["echo " + word + " > " + path]
  }

  /** The shell's variables and the files written so far. */
  datatype Machine = Machine(env: Env, files: map<string, string>)

  function Assigned(m: Machine, name: string, word: string): Option<Machine> {
    var value := Value(m.env, word);
    if value.None? then None else Some(m.(env := m.env[name := value.value]))
  }

  function Run(m: Machine, c: Command): Option<Machine> {
    match c
    case Assign(name, word) => Assigned(m, name, word)
    case AssignIfNonEmpty(test, name, word) =>
      var tested := Value(m.env, test);
      if tested.None? then None
      else if tested.value == "" then Some(m)
      else Assigned(m, name, word)
    case EchoTo(word, path) =>
      var argument := Value(m.env, word);
      var text := if argument.None? then None else Echo(argument.value);
      if text.None? then None else Some(m.(files := m.files[path := text.value]))
  }

  function RunAll(m: Machine, cs: seq<Command>): Option<Machine>
    decreases |cs|
  {
    if cs == [] then Some(m)
    else
      var next := Run(m, cs[0]);
      if next.None? then None else RunAll(next.value, cs[1..])
  }

  const DEFAULTS := "/etc/default/kubelet"

  /** The commands that compute the kubelet's arguments, and how the script writes them. */
  function KubeletCommands(sh: Script): seq<Command> {
    [Assign(sh.extraVar, DoubleQuoted([Text(sh.base)])),
     AssignIfNonEmpty(DoubleQuoted(sh.emptyTest), sh.extraVar, DoubleQuoted(sh.withLabels)),
     EchoTo(DoubleQuoted(sh.echoed), DEFAULTS)]
  }

  function KubeletLines(sh: Script): seq<string> {
    var cs := KubeletCommands(sh);
    Written(cs[0]) + Written(cs[1]) + [""] + Written(cs[2])
  }

  /** The defaults file after the kubelet commands, started with any variables and files. */
  function DefaultsFile(sh: Script, m: Machine): Option<string> {
    var done := RunAll(m, KubeletCommands(sh));
    if done.Some? && DEFAULTS in done.value.files then Some(done.value.files[DEFAULTS]) else None
  }

  /** Reading the file back: the value assigned in its only line. */
  function ReadDefaults(sh: Script, file: string): Option<string> {
    var line := LinesOf(file)[0];
    if LinesOf(file)[1..] == [""] && |sh.key| <= |line| && line[..|sh.key|] == sh.key
    then Value(map[], line[|sh.key|..])
    else None
  }

  lemma MeaningOne(env: Env, p: Piece)
    ensures Meaning(env, [p]) == Means(env, p)
  {
    assert Meaning(env, []) == "";
  }

  lemma WithLabelsReads(sh: Script, env: Env)
    requires sh.Sound() && sh.labelsVar in env && sh.extraVar in env
    ensures Value(env, DoubleQuoted(sh.withLabels)) == Some(env[sh.extraVar] + (sh.flag + env[sh.labelsVar]))
  {
    var ps := sh.withLabels;
    assert ps[1..] == [Text(sh.flag), Param(sh.labelsVar)] && ps[1..][1..] == [Param(sh.labelsVar)];
    MeaningOne(env, Param(sh.labelsVar));
    assert Fine(ps[1..][1..]) && Fine(ps[1..]);
    DoubleQuotedReads(env, ps);
    assert Meaning(env, ps) == env[sh.extraVar] + (sh.flag + env[sh.labelsVar]);
  }

  lemma EchoReads(sh: Script, env: Env)
    requires sh.Sound() && sh.extraVar in env
    ensures Value(env, DoubleQuoted(sh.echoed)) == Some(sh.key + ("\"" + (env[sh.extraVar] + "\"")))
  {
    var ps := sh.echoed;
    var two := [Param(sh.extraVar), EscapedDouble];
    assert ps[1..] == [EscapedDouble] + two && ps[1..][1..] == two && two[1..] == [EscapedDouble];
    MeaningOne(env, EscapedDouble);
    assert Fine(two[1..]) && Fine(two) && Fine(ps[1..]);
    DoubleQuotedReads(env, ps);
    assert Meaning(env, two) == env[sh.extraVar] + "\"";
  }

  lemma RunThree(m: Machine, a: Command, b: Command, c: Command)
    ensures RunAll(m, [a, b, c]) ==
            var m1 := Run(m, a);
            var m2 := if m1.None? then None else Run(m1.value, b);
            if m2.None? then None else Run(m2.value, c)
  {
    assert [a, b, c][1..] == [b, c] && [b, c][1..] == [c] && [c][1..] == [];
    forall x: Machine
      ensures RunAll(x, [c]) == Run(x, c)
      ensures RunAll(x, [b, c]) == (if Run(x, b).None? then None else RunAll(Run(x, b).value, [c]))
    {
    }
  }

  /** The first two commands leave the kubelet's flags in their variable. */
  lemma FlagsComputed(sh: Script, m: Machine, labels: string)
    requires sh.Sound() && sh.labelsVar in m.env && m.env[sh.labelsVar] == labels
    ensures var m1 := m.(env := m.env[sh.extraVar := sh.base]);
            var m2 := m1.(env := m1.env[sh.extraVar := sh.Args(labels)]);
            Run(m, KubeletCommands(sh)[0]) == Some(m1) && Run(m1, KubeletCommands(sh)[1]) == Some(m2)
  {
    MeaningOne(m.env, Text(sh.base));
    DoubleQuotedReads(m.env, [Text(sh.base)]);
    var env := m.env[sh.extraVar := sh.base];
    MeaningOne(env, Param(sh.labelsVar));
    DoubleQuotedReads(env, sh.emptyTest);
    WithLabelsReads(sh, env);
    if labels == "" {
      assert env[sh.extraVar := sh.base] == env;
    }
  }

  /** The file the script writes when the labels variable holds text without special characters. */
  lemma ScriptWrites(sh: Script, m: Machine, labels: string)
    requires sh.Sound() && ShellSafe(labels) && sh.labelsVar in m.env && m.env[sh.labelsVar] == labels
    ensures DefaultsFile(sh, m) == Some(sh.key + ("\"" + (sh.Args(labels) + "\"")) + "\n")
  {
    var cs := KubeletCommands(sh);
    RunThree(m, cs[0], cs[1], cs[2]);
    FlagsComputed(sh, m, labels);
    EchoReads(sh, m.env[sh.extraVar := sh.base][sh.extraVar := sh.Args(labels)]);
  }

  lemma QuotedTextReads(text: string)
    requires ShellSafe(text)
    ensures Value(map[], "\"" + (text + "\"")) == Some(text)
  {
    var ps := [Text(text)];
    assert ShowAll(ps[1..]) == "\"";
    MeaningOne(map[], Text(text));
    DoubleQuotedReads(map[], ps);
  }

  /**
   * Label bytes survive both readings: the shell's, of the quoted assignment (with any variables set)
   * and of the kubelet commands (with any other variables and files), and that of the file they
   * write. For labels that pass the two validations, the flags in the file carry the same bytes.
   */
  lemma LabelsReachKubelet(sh: Script, before: Env, labels: string, m: Machine)
    requires sh.Sound() && ShellSafe(labels) && '\n' !in labels
    requires sh.labelsVar in m.env && m.env[sh.labelsVar] == labels
    ensures Value(before, Quote(labels)) == Some(labels)
    ensures DefaultsFile(sh, m).Some? && ReadDefaults(sh, DefaultsFile(sh, m).value) == Some(sh.Args(labels))
  {
    QuoteRoundTrip(before, labels, "");
    assert Quote(labels) + "" == Quote(labels);
    ScriptWrites(sh, m, labels);
    WrittenFileReads(sh, labels);
  }

  lemma WrittenFileReads(sh: Script, labels: string)
    requires sh.Sound() && ShellSafe(labels) && '\n' !in labels
    ensures ReadDefaults(sh, sh.key + ("\"" + (sh.Args(labels) + "\"")) + "\n") == Some(sh.Args(labels))
  {
    var args := sh.Args(labels);
    var quoted := "\"" + (args + "\"");
    var line := sh.key + quoted;
    SplitNoSep(line, '\n');
    SplitAtSep(line, "", '\n');
    assert line + ['\n'] + "" == line + "\n";
    assert LinesOf(line + "\n") == [line] + [""];
    assert line[|sh.key|..] == quoted && line[..|sh.key|] == sh.key;
    QuotedTextReads(args);
  }

  /** The script's own names and texts. */
  const BASE := "--cloud-provider=external"
  const FLAG := " --node-labels="
  const KEY := "KUBELET_EXTRA_ARGS="
  const BOOT := Script("NODE_LABELS", "KUBELET_EXTRA", BASE, FLAG, KEY)

  /** The kubelet lines as they stand in the script. */
  lemma KubeletText(sh: Script)
    ensures |KubeletLines(sh)| == 6
    ensures KubeletLines(sh)[0] == sh.extraVar + "=" + ("\"" + (sh.base + "\""))
    ensures KubeletLines(sh)[1] == "if [ -n " + ("\"" + (("$" + sh.labelsVar) + "\"")) + " ]; then"
    ensures KubeletLines(sh)[2] ==
              "  " + sh.extraVar + "=" + ("\"" + (("$" + sh.extraVar) + (sh.flag + (("$" + sh.labelsVar) + "\""))))
    ensures KubeletLines(sh)[3] == "fi" && KubeletLines(sh)[4] == ""
    ensures KubeletLines(sh)[5] ==
              "echo " + ("\"" + (sh.key + ("\\\"" + (("$" + sh.extraVar) + ("\\\"" + "\""))))) + " > " + DEFAULTS
  {
    QuotedOne(Text(sh.base));
    QuotedOne(Param(sh.labelsVar));
    QuotedLabels(sh);
    QuotedEcho(sh);
  }

  lemma QuotedOne(p: Piece)
    ensures DoubleQuoted([p]) == "\"" + (Show(p) + "\"")
  {
    assert [p][1..] == [] && ShowAll([]) == "\"";
  }

  lemma ShowAllCons(p: Piece, rest: seq<Piece>)
    ensures ShowAll([p] + rest) == Show(p) + ShowAll(rest)
  {
    assert ([p] + rest)[1..] == rest;
  }

  lemma QuotedLabels(sh: Script)
    ensures DoubleQuoted(sh.withLabels) == "\"" + (("$" + sh.extraVar) + (sh.flag + (("$" + sh.labelsVar) + "\"")))
  {
    ShowAllCons(Param(sh.labelsVar), []);
    ShowAllCons(Text(sh.flag), [Param(sh.labelsVar)] + []);
    ShowAllCons(Param(sh.extraVar), [Text(sh.flag)] + ([Param(sh.labelsVar)] + []));
    assert sh.withLabels == [Param(sh.extraVar)] + ([Text(sh.flag)] + ([Param(sh.labelsVar)] + []));
  }

  lemma QuotedEcho(sh: Script)
    ensures DoubleQuoted(sh.echoed) == "\"" + (sh.key + ("\\\"" + (("$" + sh.extraVar) + ("\\\"" + "\""))))
  {
    ShowAllCons(EscapedDouble, []);
    ShowAllCons(Param(sh.extraVar), [EscapedDouble] + []);
    ShowAllCons(EscapedDouble, [Param(sh.extraVar)] + ([EscapedDouble] + []));
    ShowAllCons(Text(sh.key), [EscapedDouble] + ([Param(sh.extraVar)] + ([EscapedDouble] + [])));
    assert sh.echoed == [Text(sh.key)] + ([EscapedDouble] + ([Param(sh.extraVar)] + ([EscapedDouble] + [])));
  }

  lemma BootNamesSound()
    ensures Name(BOOT.labelsVar) && Name(BOOT.extraVar) && BOOT.labelsVar != BOOT.extraVar
  {
    assert |BOOT.labelsVar| == 11 && |BOOT.extraVar| == 13;
  }

  lemma BaseSound()
    ensures ShellSafe(BASE) && '\n' !in BASE
  {
    assert forall i :: 0 <= i < |BASE| ==> NameChar(BASE[i]) || BASE[i] == '-' || BASE[i] == '=';
  }

  lemma FlagSound()
    ensures ShellSafe(FLAG) && '\n' !in FLAG && FLAG != "" && !NameChar(FLAG[0])
  {
    assert FLAG[0] == ' ';
    assert forall i :: 0 <= i < |FLAG| ==> NameChar(FLAG[i]) || FLAG[i] == '-' || FLAG[i] == '=' || FLAG[i] == ' ';
  }

  lemma KeySound()
    ensures ShellSafe(KEY) && '\n' !in KEY
  {
    assert forall i :: 0 <= i < |KEY| ==> NameChar(KEY[i]) || KEY[i] == '=';
  }

  lemma BootSound()
    ensures BOOT.Sound()
  {
    BootNamesSound();
    BaseSound();
    FlagSound();
    KeySound();
  }
}
