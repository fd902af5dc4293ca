/**
 The generated script against the direct run: the script's shell starts first and sets the variables then, the
 direct run hands them to the shell that starts.
 */
module SystemdAgree {
  import opened PythonText
  import opened SystemdUnit
  import opened SystemdScript
  import opened SystemdNewline

  /** Section 2.5.3: the shell sets IFS when it is invoked, whatever its environment says. */
  const STANDARD_IFS := " \t\n"

  /**
   How a shell treats variables: those it gives a value when it starts without them, those it sets itself whatever it
   starts with, and the names it keeps to itself (an attempt to assign them fails).
   */
  datatype Sh = Sh(defaults: map<string, string>, own: map<string, string>, kept: set<string>)

  predicate IsShell(sh: Sh) {
    forall n :: n in sh.defaults.Keys + sh.own.Keys ==> ValidName(n)
  }

  /** The environment once the shell has started. */
  function Started(env: map<string, string>, sh: Sh): map<string, string> {
    (sh.defaults + env) + sh.own
  }

  // ---- what a text binds does not depend on where it starts ----

  function Bound(s: string, kept: set<string>): map<string, string> {
    Shell(s, map[], kept).env
  }

  lemma {:induction false} ShellAdds(s: string, env: map<string, string>, kept: set<string>)
    ensures Shell(s, env, kept) == Launch(env + Bound(s, kept), Shell(s, map[], kept).command)
    decreases |s|
  {
    if s != "" {
      if s[0] == '\n' {
        ShellAdds(s[1..], env, kept);
      } else if s[0] == '#' {
        ShellAdds(SkipComment(s[1..]), env, kept);
      } else {
        match ReadExport(s)
        case None =>
        case Some(b) =>
          ShellAdds(b.rest, Bind(env, b.name, b.value, kept), kept);
          ShellAdds(b.rest, Bind(map[], b.name, b.value, kept), kept);
      }
    }
  }

  /** A shell binds only names it lets a script assign, and forgets no variable. */
  lemma {:induction false} ShellBindsNames(s: string, env: map<string, string>, kept: set<string>)
    ensures forall n :: n in env ==> n in Shell(s, env, kept).env
    ensures forall n :: n in Shell(s, env, kept).env ==> n in env || Assignable(n, kept)
    decreases |s|
  {
    if s != "" {
      if s[0] == '\n' {
        ShellBindsNames(s[1..], env, kept);
      } else if s[0] == '#' {
        ShellBindsNames(SkipComment(s[1..]), env, kept);
      } else {
        match ReadExport(s)
        case None =>
        case Some(b) => ShellBindsNames(b.rest, Bind(env, b.name, b.value, kept), kept);
      }
    }
  }

  // ---- the two programs ----

  /** A name the shell takes and lets a script assign. */
  predicate Assignable(name: string, kept: set<string>) {
    ValidName(name) && name !in kept
  }

  /** The same environment, and for the shell the same command. */
  predicate SameLaunch(a: Launch, b: Launch) {
    a.env == b.env && Seen(a.command) == Seen(b.command)
  }

  function ScriptRun(u: Unit, service: string, file: string, env: map<string, string>, sh: Sh): Launch
    requires Valid(u) && Script(u, service, file).Some?
  {
    Shell(Script(u, service, file).value, Started(env, sh), sh.kept)
  }

  function DirectRun(u: Unit, env: map<string, string>, sh: Sh): Launch
    requires RunService(u, env).Some?
  {
    var l := RunService(u, env).value;
    Shell(l.command, Started(l.env, sh), sh.kept)
  }

  ghost predicate AlwaysAgrees(u: Unit, service: string, file: string, sh: Sh)
    requires Valid(u) && Script(u, service, file).Some?
  {
    forall env :: SameLaunch(ScriptRun(u, service, file, env, sh), DirectRun(u, env, sh))
  }

  /**
   The variable ends up alike in both: either the script can set it, and the shell of the direct run does not replace it
   by a value of its own (or the command sets it anyway); or nobody but the shell can set it, and the shell does.
   */
  predicate EndsAlike(name: string, value: string, sh: Sh, bound: map<string, string>) {
    if Assignable(name, sh.kept) then name in bound || name !in sh.own || sh.own[name] == value else name in sh.own
  }

  ghost predicate AllEndAlike(u: Unit, sh: Sh, bound: map<string, string>) {
    forall n :: n in u.env ==> EndsAlike(n, u.env[n], sh, bound)
  }

  /** Laying the variables over the environment after the shell's own, or before. */
  function After(u: Unit, env: map<string, string>, sh: Sh, bound: map<string, string>): map<string, string>
    requires forall n :: n in u.names ==> n in u.env
  {
    (Started(env, sh) + Settable(u.names, u.env, sh.kept)) + bound
  }

  function Before(u: Unit, env: map<string, string>, sh: Sh, bound: map<string, string>): map<string, string> {
    Started(env + u.env, sh) + bound
  }

  ghost predicate Binds(bound: map<string, string>, kept: set<string>) {
    forall n :: n in bound ==> Assignable(n, kept)
  }

  lemma LaidAlike<K, V>(env: map<K, V>, defaults: map<K, V>, own: map<K, V>, vars: map<K, V>,
      settable: map<K, V>, bound: map<K, V>)
    requires settable.Keys <= vars.Keys && forall n :: n in settable ==> settable[n] == vars[n]
    requires forall n :: n in vars ==>
               if n in settable then n in bound || n !in own || own[n] == vars[n] else n in own
    ensures (((defaults + env) + own) + settable) + bound == ((defaults + (env + vars)) + own) + bound
  {
  }

  lemma AlikeAgrees(u: Unit, env: map<string, string>, sh: Sh, bound: map<string, string>)
    requires Valid(u) && ValidNames(u.names) && AllEndAlike(u, sh, bound)
    ensures After(u, env, sh, bound) == Before(u, env, sh, bound)
  {
    var settable := Settable(u.names, u.env, sh.kept);
    forall n | n in u.env
      ensures if n in settable then n in bound || n !in sh.own || sh.own[n] == u.env[n] else n in sh.own
    {
      assert n in u.names && EndsAlike(n, u.env[n], sh, bound);
    }
    LaidAlike(env, sh.defaults, sh.own, u.env, settable, bound);
  }

  /** A variable that does not end up alike shows in some starting environment. */
  lemma UnlikeDiffers(u: Unit, sh: Sh, bound: map<string, string>, n: string) returns (env: map<string, string>)
    requires Valid(u) && Binds(bound, sh.kept) && n in u.env && ValidName(n)
    requires !EndsAlike(n, u.env[n], sh, bound)
    ensures After(u, env, sh, bound) != Before(u, env, sh, bound)
  {
    env := map[n := u.env[n] + "x"];
    var a, b := After(u, env, sh, bound), Before(u, env, sh, bound);
    assert n in u.names && n in a && n in b;
    if n in sh.kept {
      assert n !in bound && a[n] == env[n] && b[n] == u.env[n];
      assert |env[n]| == |u.env[n]| + 1;
    } else {
      assert a[n] == u.env[n] && b[n] == sh.own[n];
    }
  }

  /** Where the file names only what a shell takes for names, the two runs compare as these environments do. */
  lemma RunsCompare(u: Unit, service: string, file: string, env: map<string, string>, sh: Sh)
    requires Valid(u) && ValidNames(u.names) && '\n' !in service && '\n' !in file && Script(u, service, file).Some?
    requires !EndsLine(u.execStart.value)
    ensures var command := u.execStart.value; var bound := Bound(command, sh.kept);
      var a, b := ScriptRun(u, service, file, env, sh), DirectRun(u, env, sh);
      && (!Dangling(command) ==>
            (SameLaunch(a, b) <==> After(u, env, sh, bound) == Before(u, env, sh, bound)))
      && (Dangling(command) && Shell(command, map[], sh.kept).command != "" ==> !SameLaunch(a, b))
  {
    var command := u.execStart.value;
    var laid := Started(env, sh) + Settable(u.names, u.env, sh.kept);
    ScriptSets(u, service, file, Started(env, sh), sh.kept);
    ShellThenNewline(command, laid, sh.kept);
    ShellAdds(command, laid, sh.kept);
    ShellAdds(command, Started(env + u.env, sh), sh.kept);
  }

  /** What is no shell name is missing in the script's environment. */
  lemma OneNameMissing(u: Unit, service: string, file: string, sh: Sh, bad: string)
    requires Valid(u) && Script(u, service, file).Some? && IsShell(sh) && bad in u.env && !ValidName(bad)
    ensures !AlwaysAgrees(u, service, file, sh)
  {
    var l := RunService(u, map[]).value;
    ShellBindsNames(Script(u, service, file).value, Started(map[], sh), sh.kept);
    ShellBindsNames(l.command, Started(l.env, sh), sh.kept);
    assert !SameLaunch(ScriptRun(u, service, file, map[], sh), DirectRun(u, map[], sh));
  }

  lemma CommandHasNoNewlineEnd(lines: seq<string>)
    ensures var c := ReadLines(lines).execStart; c.Some? && c.value != "" ==> !IsSpace(c.value[|c.value| - 1])
  {
    var c := ReadLines(lines).execStart;
    if c.Some? {
      LastCommandWins(lines, c.value);
      var i: nat :| LastSome(Commands(lines), i, c.value);
      CommandsAt(lines, i);
      var l := Strip(lines[i], IsSpace);
      StripRightEnds(StripLeft(l[|EXEC_START|..], IsSpace));
    }
  }

  lemma {:induction false} CommandsAt(lines: seq<string>, i: nat)
    requires i < |Commands(lines)|
    ensures |Commands(lines)| == |lines| && Commands(lines)[i] == Command(lines[i])
  {
    CommandsLength(lines);
    if i < |lines| - 1 {
      CommandsLength(lines[..|lines| - 1]);
      CommandsAt(lines[..|lines| - 1], i);
    } else {
      CommandsLength(lines[..|lines| - 1]);
    }
  }

  lemma {:induction false} CommandsLength(lines: seq<string>)
    ensures |Commands(lines)| == |lines|
  {
    if lines != [] {
      CommandsLength(lines[..|lines| - 1]);
    }
  }

  lemma {:induction false} StripRightEnds(s: string)
    ensures var r := StripRight(s, IsSpace); r != "" ==> !IsSpace(r[|r| - 1])
  {
    if s != "" && IsSpace(s[|s| - 1]) {
      StripRightEnds(s[..|s| - 1]);
    }
  }

  /** The command amounts to more than exports and comments, or ends as a whole command does. */
  predicate IsTelling(command: string, kept: set<string>) {
    Shell(command, map[], kept).command != "" || !Dangling(command)
  }

  lemma {:induction false} BoundIsAssignable(s: string, kept: set<string>)
    ensures Binds(Bound(s, kept), kept)
  {
    ShellBindsNames(s, map[], kept);
  }

  /**
   For every unit file and every shell: the two programs refuse the same files; and otherwise the script does what the
   direct run does, from every starting environment, exactly when each variable ends up alike and the command
   does not end in a backslash that a newline would join to it.  (Only of commands that are nothing but exports and
   comments and end in such a backslash nothing is said.)
   */
  lemma ScriptEqualsRun(lines: seq<string>, service: string, file: string, sh: Sh)
    requires '\n' !in service && '\n' !in file && IsShell(sh)
    ensures var u := ReadLines(lines);
      && Valid(u)
      && (forall env :: Script(u, service, file).None? == RunService(u, env).None?)
      && (Script(u, service, file).Some? && IsTelling(u.execStart.value, sh.kept) ==>
            (AlwaysAgrees(u, service, file, sh)
             <==> AllEndAlike(u, sh, Bound(u.execStart.value, sh.kept)) && !Dangling(u.execStart.value)))
  {
    var u := ReadLines(lines);
    NamesAreKeys(lines);
    if Script(u, service, file).Some? && IsTelling(u.execStart.value, sh.kept) {
      CommandHasNoNewlineEnd(lines);
      UnitEqualsRun(u, service, file, sh);
    }
  }

  lemma UnitEqualsRun(u: Unit, service: string, file: string, sh: Sh)
    requires Valid(u) && '\n' !in service && '\n' !in file && IsShell(sh)
    requires Script(u, service, file).Some? && !EndsLine(u.execStart.value)
    requires IsTelling(u.execStart.value, sh.kept)
    ensures AlwaysAgrees(u, service, file, sh)
       <==> AllEndAlike(u, sh, Bound(u.execStart.value, sh.kept)) && !Dangling(u.execStart.value)
  {
    var command := u.execStart.value;
    var bound := Bound(command, sh.kept);
    BoundIsAssignable(command, sh.kept);
    if bad :| bad in u.env && !ValidName(bad) {
      OneNameMissing(u, service, file, sh, bad);
      assert !EndsAlike(bad, u.env[bad], sh, bound);
    } else if Dangling(command) {
      RunsCompare(u, service, file, map[], sh);
      assert !SameLaunch(ScriptRun(u, service, file, map[], sh), DirectRun(u, map[], sh));
    } else if AllEndAlike(u, sh, bound) {
      forall env ensures SameLaunch(ScriptRun(u, service, file, env, sh), DirectRun(u, env, sh)) {
        RunsCompare(u, service, file, env, sh);
        AlikeAgrees(u, env, sh, bound);
      }
    } else {
      var n :| n in u.env && !EndsAlike(n, u.env[n], sh, bound);
      var env := UnlikeDiffers(u, sh, bound, n);
      RunsCompare(u, service, file, env, sh);
      assert !SameLaunch(ScriptRun(u, service, file, env, sh), DirectRun(u, env, sh));
    }
  }
}
