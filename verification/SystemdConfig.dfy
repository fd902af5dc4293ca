/** From the variables a service is configured with, through its unit file, to the environment of its command. */
module SystemdConfig {
  import opened Basics
  import opened PythonText
  import opened SystemdUnit
  import opened SystemdScript
  import opened SystemdNewline
  import opened SystemdAgree

  // ---- the lines the generator writes, as a reader of the file sees them ----

  function EnvironmentLine(name: string, value: string): string {
    ENVIRONMENT + "\"" + (name + "=" + value) + "\"\n"
  }

  function EnvironmentLines(names: seq<string>, vars: map<string, string>): seq<string>
    requires forall n :: n in names ==> n in vars
  {
    seq(|names|, i requires 0 <= i < |names| => EnvironmentLine(names[i], vars[names[i]]))
  }

  function CommandLine(command: string): string {
    EXEC_START + command + "\n"
  }

  /** The other lines of a unit file: blank, or opening with another word. */
  predicate Quiet(line: string) {
    line == "\n" || (line != "" && line[0] != 'E' && !IsSpace(line[0]))
  }

  ghost predicate AllQuiet(lines: seq<string>) {
    forall i :: 0 <= i < |lines| ==> Quiet(lines[i])
  }

  function UnitFile(before: seq<string>, names: seq<string>, vars: map<string, string>, command: string,
      after: seq<string>): seq<string>
    requires forall n :: n in names ==> n in vars
  {
    before + EnvironmentLines(names, vars) + ["\n"] + [CommandLine(command)] + after
  }

  // ---- what one line says ----

  lemma StripInner(s: string)
    requires s != "" && !IsSpace(s[0]) && !IsSpace(s[|s| - 1])
    ensures Strip(s, IsSpace) == s && Strip(s + "\n", IsSpace) == s
  {
    assert (s + "\n")[..|s|] == s;
  }

  lemma {:induction false} FirstEqualsIn(name: string, value: string)
    ensures FirstEquals(name + "=" + value) == FirstEquals(name)
  {
    if name != "" && name[0] != '=' {
      FirstEqualsIn(name[1..], value);
      assert (name + "=" + value)[1..] == name[1..] + "=" + value;
    }
  }

  lemma QuotedText(name: string, value: string)
    ensures var q := "\"" + (name + "=" + value) + "\"";
      Strip(EnvironmentLine(name, value), IsSpace) == ENVIRONMENT + q && Strip(q, IsSpace) == q
      && Unquote(q) == name + "=" + value
  {
    var q := "\"" + (name + "=" + value) + "\"";
    assert EnvironmentLine(name, value) == (ENVIRONMENT + q) + "\n";
    StripInner(ENVIRONMENT + q);
    StripInner(q);
  }

  lemma Assigned(name: string, value: string)
    ensures var s := name + "=" + value; var i := FirstEquals(name);
      i < |s| && Assignment(EnvironmentLine(name, value)) == Some((s[..i], s[i + 1..]))
  {
    var q := "\"" + (name + "=" + value) + "\"";
    QuotedText(name, value);
    assert (ENVIRONMENT + q)[|ENVIRONMENT|..] == q;
    FirstEqualsIn(name, value);
  }

  /** An environment line gives back its name and value, whatever they are, unless the name holds an equals sign. */
  lemma EnvironmentReadsBack(name: string, value: string)
    ensures Assignment(EnvironmentLine(name, value)) == Some((name, value)) <==> '=' !in name
  {
    Assigned(name, value);
    var s, i := name + "=" + value, FirstEquals(name);
    if '=' !in name {
      assert i == |name| && s[..i] == name && s[i + 1..] == value;
    } else {
      assert i < |name| && |s[..i]| == i;
    }
  }

  lemma EnvironmentReads(u: Unit, name: string, value: string)
    requires '=' !in name
    ensures ReadLine(u, EnvironmentLine(name, value)) == SetVar(u, name, value)
  {
    EnvironmentReadsBack(name, value);
  }

  lemma CommandReads(u: Unit, command: string)
    ensures ReadLine(u, CommandLine(command)) == u.(execStart := Some(Strip(command, IsSpace)))
  {
    var l := CommandLine(command);
    StripTail(EXEC_START, command + "\n");
    assert l == EXEC_START + (command + "\n");
    StripTwice(command);
    var stripped := Strip(l, IsSpace);
    assert stripped[|EXEC_START|..] == StripRight(command + "\n", IsSpace);
    if ENVIRONMENT <= stripped {
      NotBoth(stripped);
    }
  }

  lemma {:induction false} StripRightTail(head: string, tail: string)
    requires head != "" && !IsSpace(head[0]) && !IsSpace(head[|head| - 1])
    ensures StripRight(head + tail, IsSpace) == head + StripRight(tail, IsSpace)
  {
    if tail == "" {
      assert head + tail == head;
    } else if IsSpace(tail[|tail| - 1]) {
      StripRightTail(head, tail[..|tail| - 1]);
      assert (head + tail)[..|head + tail| - 1] == head + tail[..|tail| - 1];
    }
  }

  lemma StripTail(head: string, tail: string)
    requires head != "" && !IsSpace(head[0]) && !IsSpace(head[|head| - 1])
    ensures Strip(head + tail, IsSpace) == head + StripRight(tail, IsSpace)
  {
    StripRightTail(head, tail);
  }

  /** Blanks at the right end do not change what strip leaves. */
  lemma {:induction false} StripTwice(s: string)
    ensures Strip(StripRight(s + "\n", IsSpace), IsSpace) == Strip(s, IsSpace)
  {
    assert (s + "\n")[..|s|] == s;
    StripRightStrip(s);
  }

  lemma {:induction false} StripRightStrip(s: string)
    ensures Strip(StripRight(s, IsSpace), IsSpace) == Strip(s, IsSpace)
    decreases |s|
  {
    if s != "" && IsSpace(s[|s| - 1]) {
      StripRightStrip(s[..|s| - 1]);
      LastBlank(s[..|s| - 1], s[|s| - 1]);
      assert s[..|s| - 1] + [s[|s| - 1]] == s;
    }
  }

  lemma {:induction false} LastBlank(s: string, c: char)
    requires IsSpace(c)
    ensures Strip(s + [c], IsSpace) == Strip(s, IsSpace)
  {
    if s == "" {
      assert s + [c] == [c] && [c][1..] == "";
    } else if IsSpace(s[0]) {
      LastBlank(s[1..], c);
      assert (s + [c])[1..] == s[1..] + [c];
    } else {
      assert (s + [c])[..|s|] == s;
    }
  }

  lemma {:induction false} StripRightKeepsHead(s: string)
    requires s != "" && !IsSpace(s[0])
    ensures StripRight(s, IsSpace) != "" && StripRight(s, IsSpace)[0] == s[0]
  {
    if IsSpace(s[|s| - 1]) {
      StripRightKeepsHead(s[..|s| - 1]);
    }
  }

  lemma QuietReads(u: Unit, line: string)
    requires Quiet(line)
    ensures ReadLine(u, line) == u
  {
    if line == "\n" {
      assert IsSpace(line[0]) && line[1..] == "";
      assert StripLeft(line, IsSpace) == "";
      assert Strip(line, IsSpace) == "";
    } else {
      StripRightKeepsHead(line);
      assert ENVIRONMENT[0] == 'E' && EXEC_START[0] == 'E';
    }
  }

  // ---- lines written by hand ----

  predicate Blank(s: string) {
    forall i :: 0 <= i < |s| ==> IsSpace(s[i])
  }

  /** No blank at either end. */
  predicate Trim(s: string) {
    s != "" ==> !IsSpace(s[0]) && !IsSpace(s[|s| - 1])
  }

  lemma {:induction false} StripLeftBlank(blanks: string, s: string)
    requires Blank(blanks)
    ensures StripLeft(blanks + s, IsSpace) == StripLeft(s, IsSpace)
  {
    if blanks == "" {
      assert blanks + s == s;
    } else {
      StripLeftBlank(blanks[1..], s);
      assert (blanks + s)[1..] == blanks[1..] + s;
    }
  }

  lemma {:induction false} StripRightBlank(s: string, blanks: string)
    requires Blank(blanks)
    ensures StripRight(s + blanks, IsSpace) == StripRight(s, IsSpace)
  {
    if blanks == "" {
      assert s + blanks == s;
    } else {
      StripRightBlank(s, blanks[..|blanks| - 1]);
      assert (s + blanks)[..|s + blanks| - 1] == s + blanks[..|blanks| - 1];
    }
  }

  /** strip() takes the blanks at both ends and nothing else. */
  lemma StripBlanks(before: string, s: string, after: string)
    requires Blank(before) && Blank(after) && Trim(s)
    ensures Strip(before + s + after, IsSpace) == s
  {
    Regroup(before, s, after);
    StripLeftBlank(before, s + after);
    if s == "" {
      assert s + after == after && after + "" == after;
      StripLeftBlank(after, "");
    } else {
      assert StripLeft(s + after, IsSpace) == s + after;
      StripRightBlank(s, after);
    }
  }

  lemma KeyThenText(key: string, inner: string, text: string, after: string)
    requires Blank(inner) && Blank(after) && Trim(text) && key != "" && Trim(key)
    ensures var l := StripRight(key + inner + text + after, IsSpace);
      key <= l && Strip(l[|key|..], IsSpace) == text
  {
    var tail := inner + text + after;
    Regroup(key + inner, text, after);
    Regroup(key, inner, text + after);
    Regroup(inner, text, after);
    StripRightTail(key, tail);
    assert (key + StripRight(tail, IsSpace))[|key|..] == StripRight(tail, IsSpace);
    StripRightStrip(tail);
    StripBlanks(inner, text, after);
  }

  /** A key, blanks wherever they are allowed, and the text the reader takes from it. */
  lemma KeyedLine(before: string, key: string, inner: string, text: string, after: string)
    requires Blank(before) && Blank(inner) && Blank(after) && Trim(text) && key != "" && Trim(key)
    ensures var l := Strip(before + (key + inner + text + after), IsSpace);
      key <= l && Strip(l[|key|..], IsSpace) == text
  {
    var line := key + inner + text + after;
    StripLeftBlank(before, line);
    assert line[0] == key[0];
    KeyThenText(key, inner, text, after);
  }

  /** The pair of quotes that encloses the text, if one does. */
  predicate IsQuoted(s: string) {
    |s| > 1 && s[0] == '"' && s[|s| - 1] == '"'
  }

  lemma SplitAtEquals(name: string, value: string)
    requires '=' !in name
    ensures var s := name + "=" + value; var i := FirstEquals(s);
      i < |s| && s[..i] == name && s[i + 1..] == value
  {
    FirstEqualsIn(name, value);
    assert FirstEquals(name) == |name|;
  }

  /** An assignment without quotes, with blanks wherever they are allowed. */
  lemma UnquotedReads(before: string, inner: string, name: string, value: string, after: string)
    requires Blank(before) && Blank(inner) && Blank(after) && '=' !in name
    requires Trim(name + "=" + value) && !IsQuoted(name + "=" + value)
    ensures Assignment(before + ("Environment=" + inner + (name + "=" + value) + after)) == Some((name, value))
  {
    var s := name + "=" + value;
    KeyedLine(before, "Environment=", inner, s, after);
    SplitAtEquals(name, value);
    assert s[|name|] == '=' && Unquote(s) == s;
  }

  /** One in quotes, which keep the blanks inside them. */
  lemma QuotedReads(before: string, inner: string, name: string, value: string, after: string)
    requires Blank(before) && Blank(inner) && Blank(after) && '=' !in name
    ensures Assignment(before + ("Environment=" + inner + ("\"" + (name + "=" + value) + "\"") + after))
         == Some((name, value))
  {
    var q := "\"" + (name + "=" + value) + "\"";
    KeyedLine(before, "Environment=", inner, q, after);
    SplitAtEquals(name, value);
    assert q[0] == '"' && q[|q| - 1] == '"' && q[1..|q| - 1] == name + "=" + value;
  }

  /** A line that assigns nothing because it holds no equals sign behind its key. */
  lemma NoEqualsReads(u: Unit, before: string, inner: string, text: string, after: string)
    requires Blank(before) && Blank(inner) && Blank(after) && Trim(text) && '=' !in text
    ensures ReadLine(u, before + ("Environment=" + inner + text + after)) == u
  {
    var line := before + ("Environment=" + inner + text + after);
    KeyedLine(before, "Environment=", inner, text, after);
    forall i | 0 <= i < |Unquote(text)| ensures Unquote(text)[i] != '=' {
      assert Unquote(text)[i] in text;
    }
    assert FirstEquals(Unquote(text)) == |Unquote(text)|;
    NotBoth(Strip(line, IsSpace));
  }

  /** The command, with blanks wherever they are allowed. */
  lemma CommandLineReads(u: Unit, before: string, inner: string, command: string, after: string)
    requires Blank(before) && Blank(inner) && Blank(after) && Trim(command)
    ensures ReadLine(u, before + ("ExecStart=" + inner + command + after)) == u.(execStart := Some(command))
  {
    var line := before + ("ExecStart=" + inner + command + after);
    KeyedLine(before, "ExecStart=", inner, command, after);
    if ENVIRONMENT <= Strip(line, IsSpace) {
      NotBoth(Strip(line, IsSpace));
    }
  }

  /** Any other line is passed over. */
  lemma OtherLineReads(u: Unit, before: string, text: string, after: string)
    requires Blank(before) && Blank(after) && Trim(text) && !("Environment=" <= text) && !("ExecStart=" <= text)
    ensures ReadLine(u, before + text + after) == u
  {
    StripBlanks(before, text, after);
  }

  lemma ReadLinesAppend(lines: seq<string>, line: string)
    ensures ReadLines(lines + [line]) == ReadLine(ReadLines(lines), line)
  {
    DropLast(lines, line);
  }

  /** Whatever comes later, the variables read so far keep their places. */
  lemma {:induction false} NamesKeepPlace(lines: seq<string>, more: seq<string>)
    ensures ReadLines(lines).names <= ReadLines(lines + more).names
  {
    if more == [] {
      assert lines + more == lines;
    } else {
      var init, last := more[..|more| - 1], more[|more| - 1];
      NamesKeepPlace(lines, init);
      assert lines + more == (lines + init) + [last];
      ReadLinesAppend(lines + init, last);
    }
  }

  // ---- what the whole file says ----

  lemma QuietLineRead(lines: seq<string>, line: string)
    requires Quiet(line)
    ensures ReadLines(lines + [line]) == ReadLines(lines)
  {
    ReadLinesAppend(lines, line);
    QuietReads(ReadLines(lines), line);
  }

  lemma {:induction false} QuietLinesRead(lines: seq<string>, quiet: seq<string>)
    requires AllQuiet(quiet)
    ensures ReadLines(lines + quiet) == ReadLines(lines)
  {
    if quiet == [] {
      assert lines + quiet == lines;
    } else {
      var init, last := quiet[..|quiet| - 1], quiet[|quiet| - 1];
      QuietLinesRead(lines, init);
      assert lines + quiet == (lines + init) + [last];
      QuietLineRead(lines + init, last);
    }
  }

  lemma EnvironmentLinesLast(names: seq<string>, vars: map<string, string>)
    requires names != [] && forall n :: n in names ==> n in vars
    ensures var last := names[|names| - 1];
      EnvironmentLines(names, vars)
        == EnvironmentLines(names[..|names| - 1], vars) + [EnvironmentLine(last, vars[last])]
  {
  }

  function Restrict<K, V>(env: map<K, V>, names: seq<K>): map<K, V>
    requires forall n :: n in names ==> n in env
  {
    map n | n in names :: env[n]
  }

  lemma RestrictLast<K, V>(vars: map<K, V>, init: seq<K>, last: K)
    requires last in vars && forall n :: n in init ==> n in vars
    ensures Restrict(vars, init + [last]) == Restrict(vars, init)[last := vars[last]]
  {
  }

  lemma {:induction false} EnvironmentLinesRead(lines: seq<string>, names: seq<string>, vars: map<string, string>)
    requires ReadLines(lines) == EMPTY && NoDup(names)
    requires forall n :: n in names ==> n in vars && '=' !in n
    ensures ReadLines(lines + EnvironmentLines(names, vars)) == Unit(names, Restrict(vars, names), None)
  {
    if names == [] {
      assert lines + EnvironmentLines(names, vars) == lines;
    } else {
      var init, last := names[..|names| - 1], names[|names| - 1];
      assert names == init + [last];
      EnvironmentLinesRead(lines, init, vars);
      var line := EnvironmentLine(last, vars[last]);
      EnvironmentLinesLast(names, vars);
      Regroup(lines, EnvironmentLines(init, vars), [line]);
      ReadLinesAppend(lines + EnvironmentLines(init, vars), line);
      EnvironmentReads(Unit(init, Restrict(vars, init), None), last, vars[last]);
      RestrictLast(vars, init, last);
    }
  }

  /** Reading a generated unit file gives back the variables, in order, and the command. */
  lemma UnitReadsBack(before: seq<string>, names: seq<string>, vars: map<string, string>, command: string,
      after: seq<string>)
    requires NoDup(names) && (forall n :: n in names <==> n in vars) && AllQuiet(before) && AllQuiet(after)
    requires forall n :: n in names ==> '=' !in n
    ensures ReadLines(UnitFile(before, names, vars, command, after)) == Unit(names, vars, Some(Strip(command, IsSpace)))
  {
    var a := before;
    var b := a + EnvironmentLines(names, vars);
    var c := b + ["\n"];
    var d := c + [CommandLine(command)];
    assert [] + before == before;
    QuietLinesRead([], before);
    EnvironmentLinesRead(a, names, vars);
    assert Restrict(vars, names) == vars;
    QuietLinesRead(b, ["\n"]);
    ReadLinesAppend(c, CommandLine(command));
    CommandReads(Unit(names, vars, None), command);
    QuietLinesRead(d, after);
  }

  /** The generated file gives back its variables exactly when no name holds an equals sign. */
  lemma UnitReadsBackIff(before: seq<string>, names: seq<string>, vars: map<string, string>, command: string,
      after: seq<string>)
    requires NoDup(names) && (forall n :: n in names <==> n in vars) && AllQuiet(before) && AllQuiet(after)
    ensures ReadLines(UnitFile(before, names, vars, command, after)).env == vars
            <==> forall n :: n in names ==> '=' !in n
  {
    if forall n :: n in names ==> '=' !in n {
      UnitReadsBack(before, names, vars, command, after);
    } else {
      NamesAreKeys(UnitFile(before, names, vars, command, after));
    }
  }

  lemma StrippedEndsNoLine(command: string)
    ensures !EndsLine(Strip(command, IsSpace))
  {
    StripRightEnds(StripLeft(command, IsSpace));
  }

  /** The generated unit, as the two programs read it. */
  function Configured(names: seq<string>, vars: map<string, string>, command: string): Unit {
    Unit(names, vars, Some(Strip(command, IsSpace)))
  }

  /**
   From configuration to command: where the shell lets a script assign every name and has no other value of its own
   for it, the script does what `sh -c` does with the command in the overlaid environment, and the configured values
   are there.
   */
  lemma VariablesArrive(before: seq<string>, names: seq<string>, vars: map<string, string>, command: string,
      after: seq<string>, service: string, file: string, env: map<string, string>, sh: Sh)
    requires NoDup(names) && (forall n :: n in names <==> n in vars) && AllQuiet(before) && AllQuiet(after)
    requires forall n :: n in names ==> Assignable(n, sh.kept) && (n in sh.own ==> sh.own[n] == vars[n])
    requires '\n' !in service && '\n' !in file
    requires Strip(command, IsSpace) != "" && !Dangling(Strip(command, IsSpace))
    ensures var u := ReadLines(UnitFile(before, names, vars, command, after));
      && u == Configured(names, vars, command) && Valid(u) && Script(u, service, file).Some?
      && SameLaunch(ScriptRun(u, service, file, env, sh), DirectRun(u, env, sh))
    ensures forall n :: n in vars ==> Started(env + vars, sh)[n] == vars[n]
  {
    var u := Configured(names, vars, command);
    assert !IsNameChar('=');
    UnitReadsBack(before, names, vars, command, after);
    StrippedEndsNoLine(command);
    Arrive(u, service, file, env, sh);
  }

  lemma Arrive(u: Unit, service: string, file: string, env: map<string, string>, sh: Sh)
    requires Valid(u) && Script(u, service, file).Some? && '\n' !in service && '\n' !in file
    requires forall n :: n in u.names ==> Assignable(n, sh.kept) && (n in sh.own ==> sh.own[n] == u.env[n])
    requires !EndsLine(u.execStart.value) && !Dangling(u.execStart.value)
    ensures SameLaunch(ScriptRun(u, service, file, env, sh), DirectRun(u, env, sh))
  {
    RunsCompare(u, service, file, env, sh);
    AlikeAgrees(u, env, sh, Bound(u.execStart.value, sh.kept));
  }

  lemma Differ(before: seq<string>, name: string, value: string, command: string, after: seq<string>, service: string,
      file: string, sh: Sh)
    requires AllQuiet(before) && AllQuiet(after) && '\n' !in service && '\n' !in file && IsShell(sh) && ValidName(name)
    requires Strip(command, IsSpace) != "" && !Dangling(Strip(command, IsSpace))
    requires !EndsAlike(name, value, sh, Bound(Strip(command, IsSpace), sh.kept))
    ensures var u := ReadLines(UnitFile(before, [name], map[name := value], command, after));
      u == Configured([name], map[name := value], command) && Valid(u) && Script(u, service, file).Some?
      && !AlwaysAgrees(u, service, file, sh)
  {
    var u := Configured([name], map[name := value], command);
    assert !IsNameChar('=');
    UnitReadsBack(before, [name], map[name := value], command, after);
    StrippedEndsNoLine(command);
    assert name in u.env && u.env[name] == value;
    UnitEqualsRun(u, service, file, sh);
  }

  /** A configured UID does not arrive through the script where the shell keeps that name to itself, as bash does. */
  lemma ReadOnlyNameIsLost(before: seq<string>, command: string, after: seq<string>, service: string, file: string,
      sh: Sh)
    requires AllQuiet(before) && AllQuiet(after) && '\n' !in service && '\n' !in file && IsShell(sh)
    requires Strip(command, IsSpace) != "" && !Dangling(Strip(command, IsSpace))
    requires BASH_READ_ONLY <= sh.kept && "UID" !in sh.own
    ensures var u := ReadLines(UnitFile(before, ["UID"], map["UID" := "4242"], command, after));
      u == Configured(["UID"], map["UID" := "4242"], command) && Valid(u) && Script(u, service, file).Some?
      && !AlwaysAgrees(u, service, file, sh)
  {
    assert "UID" in BASH_READ_ONLY;
    Differ(before, "UID", "4242", command, after, service, file, sh);
  }

  /** A configured IFS does not arrive through the direct run: the shell sets its own when it starts. */
  lemma ResetNameIsLost(before: seq<string>, command: string, after: seq<string>, service: string, file: string, sh: Sh)
    requires AllQuiet(before) && AllQuiet(after) && '\n' !in service && '\n' !in file && IsShell(sh)
    requires Strip(command, IsSpace) != "" && !Dangling(Strip(command, IsSpace))
    requires "IFS" in sh.own && sh.own["IFS"] == STANDARD_IFS && "IFS" !in sh.kept
    requires "IFS" !in Bound(Strip(command, IsSpace), sh.kept)
    ensures var u := ReadLines(UnitFile(before, ["IFS"], map["IFS" := ","], command, after));
      u == Configured(["IFS"], map["IFS" := ","], command) && Valid(u) && Script(u, service, file).Some?
      && !AlwaysAgrees(u, service, file, sh)
  {
    assert STANDARD_IFS[0] == ' ' && ","[0] == ',';
    Differ(before, "IFS", ",", command, after, service, file, sh);
  }
}
