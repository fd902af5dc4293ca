/**
 Running a service from its unit file: the environment lines are read into a dictionary, which is either
 laid over the environment directly or written out as a shell script of export lines.
 */
module SystemdUnit {
  import opened Basics
  import opened PythonText

  /** A dictionary with its insertion order, and the last ExecStart value. */
  datatype Unit = Unit(names: seq<string>, env: map<string, string>, execStart: Option<string>)

  const EMPTY := Unit([], map[], None)

  function SetVar(u: Unit, name: string, value: string): Unit {
    u.(names := if name in u.env then u.names else u.names + [name], env := u.env[name := value])
  }

  function Unquote(s: string): string {
    if |s| > 1 && s[0] == '"' && s[|s| - 1] == '"' then s[1..|s| - 1]
    else if s == "\"" then ""
    else s
  }

  function FirstEquals(s: string): (i: nat)
    ensures i <= |s| && (i < |s| ==> s[i] == '=') && forall j :: 0 <= j < i ==> s[j] != '='
  {
    if s == "" || s[0] == '=' then 0 else 1 + FirstEquals(s[1..])
  }

  const ENVIRONMENT := "Environment="
  const EXEC_START := "ExecStart="

  /** The assignment an Environment line makes, if it makes one. */
  function Assignment(line: string): Option<(string, string)> {
    var l := Strip(line, IsSpace);
    if ENVIRONMENT <= l then
      var s := Unquote(Strip(l[|ENVIRONMENT|..], IsSpace));
      var i := FirstEquals(s);
      if i < |s| then Some((s[..i], s[i + 1..])) else None
    else None
  }

  function Command(line: string): Option<string> {
    var l := Strip(line, IsSpace);
    if EXEC_START <= l then Some(Strip(l[|EXEC_START|..], IsSpace)) else None
  }

  function ReadLine(u: Unit, line: string): Unit {
    match Assignment(line)
    case Some(a) => SetVar(u, a.0, a.1)
    case None => if Command(line).Some? then u.(execStart := Command(line)) else u
  }

  function ReadLines(lines: seq<string>): Unit {
    if lines == [] then EMPTY else ReadLine(ReadLines(lines[..|lines| - 1]), lines[|lines| - 1])
  }

  lemma ReadLinesStep(lines: seq<string>, i: nat)
    requires i < |lines|
    ensures ReadLines(lines[..i + 1]) == ReadLine(ReadLines(lines[..i]), lines[i])
  {
    TakeOneMore(lines, i);
    DropLast(lines[..i], lines[i]);
  }

  lemma DropLast<T>(xs: seq<T>, x: T)
    ensures (xs + [x])[..|xs + [x]| - 1] == xs && (xs + [x])[|xs + [x]| - 1] == x
  {
  }

  method ReadOne(u: Unit, rawLine: string) returns (r: Unit)
    ensures r == ReadLine(u, rawLine)
  {
    r := u;
    var line := Strip(rawLine, IsSpace);
    if ENVIRONMENT <= line {
      NotBoth(line);
      var envStr := Strip(line[|ENVIRONMENT|..], IsSpace);
      envStr := Unquote(envStr);
      var eq := FirstEquals(envStr);
      if eq < |envStr| {
        r := SetVar(r, envStr[..eq], envStr[eq + 1..]);
      }
    } else if EXEC_START <= line {
      r := r.(execStart := Some(Strip(line[|EXEC_START|..], IsSpace)));
    }
  }

  lemma NotBoth(line: string)
    requires ENVIRONMENT <= line
    ensures !(EXEC_START <= line)
  {
    assert line[1] == 'n' && EXEC_START[1] == 'x';
  }

  /** The loop both programs share. */
  method ParseUnit(lines: seq<string>) returns (u: Unit)
    ensures u == ReadLines(lines)
  {
    u := EMPTY;
    for i := 0 to |lines|
      invariant u == ReadLines(lines[..i])
    {
      ReadLinesStep(lines, i);
      u := ReadOne(u, lines[i]);
    }
    assert lines[..|lines|] == lines;
  }

  function Assignments(lines: seq<string>): seq<Option<(string, string)>> {
    if lines == [] then [] else Assignments(lines[..|lines| - 1]) + [Assignment(lines[|lines| - 1])]
  }

  /** Step i binds k to v, and no later step binds k again. */
  ghost predicate BindsLast<K(!new), V(!new)>(steps: seq<Option<(K, V)>>, i: nat, k: K, v: V) {
    && i < |steps| && steps[i] == Some((k, v))
    && (forall j :: i < j < |steps| && steps[j].Some? ==> steps[j].value.0 != k)
  }

  ghost predicate LastBinds<K(!new), V(!new)>(steps: seq<Option<(K, V)>>, k: K, v: V) {
    exists i :: BindsLast(steps, i, k, v)
  }

  lemma LastBindsStep<K(!new), V(!new)>(steps: seq<Option<(K, V)>>, a: Option<(K, V)>, k: K, v: V)
    ensures LastBinds(steps + [a], k, v)
       <==> if a.Some? && a.value.0 == k then a.value.1 == v else LastBinds(steps, k, v)
  {
    var more := steps + [a];
    if a.Some? && a.value.0 == k {
      assert more[|steps|] == a;
      assert a.value.1 == v ==> BindsLast(more, |steps|, k, v);
    } else {
      if i :| BindsLast(steps, i, k, v) {
        assert BindsLast(more, i, k, v);
      }
      if i :| BindsLast(more, i, k, v) {
        assert forall j :: 0 <= j < |steps| ==> more[j] == steps[j];
        assert BindsLast(steps, i, k, v);
      }
    }
  }

  /** The dictionary holds, for each name, the value of the last line that assigns it. */
  lemma {:induction false} LastLineWins(lines: seq<string>, name: string, value: string)
    ensures name in ReadLines(lines).env && ReadLines(lines).env[name] == value
       <==> LastBinds(Assignments(lines), name, value)
  {
    if lines != [] {
      var init, last := lines[..|lines| - 1], lines[|lines| - 1];
      LastLineWins(init, name, value);
      LastBindsStep(Assignments(init), Assignment(last), name, value);
    }
  }

  function Commands(lines: seq<string>): seq<Option<string>> {
    if lines == [] then [] else Commands(lines[..|lines| - 1]) + [Command(lines[|lines| - 1])]
  }

  /** Step i gives x, and no later step gives anything. */
  ghost predicate LastSome<T(!new)>(steps: seq<Option<T>>, i: nat, x: T) {
    && i < |steps| && steps[i] == Some(x)
    && (forall j :: i < j < |steps| ==> steps[j].None?)
  }

  lemma LastSomeStep<T(!new)>(steps: seq<Option<T>>, a: Option<T>, x: T)
    ensures (exists i :: LastSome(steps + [a], i, x))
            <==> if a.Some? then a == Some(x) else exists i :: LastSome(steps, i, x)
  {
    var more := steps + [a];
    if a.Some? {
      assert more[|steps|] == a;
      assert a == Some(x) ==> LastSome(more, |steps|, x);
    } else {
      if i :| LastSome(steps, i, x) {
        assert LastSome(more, i, x);
      }
      if i :| LastSome(more, i, x) {
        assert more[|steps|] == a;
        assert forall j :: 0 <= j < |steps| ==> more[j] == steps[j];
        assert LastSome(steps, i, x);
      }
    }
  }

  lemma {:induction false} CommandStep(lines: seq<string>)
    requires lines != []
    ensures var u := ReadLines(lines[..|lines| - 1]);
      ReadLines(lines).execStart
        == if Command(lines[|lines| - 1]).Some? then Command(lines[|lines| - 1]) else u.execStart
  {
    if Assignment(lines[|lines| - 1]).Some? {
      NotBoth(Strip(lines[|lines| - 1], IsSpace));
    }
  }

  /** The command is the one of the last line that names one. */
  lemma {:induction false} LastCommandWins(lines: seq<string>, c: string)
    ensures ReadLines(lines).execStart == Some(c) <==> exists i :: LastSome(Commands(lines), i, c)
  {
    if lines != [] {
      var init, last := lines[..|lines| - 1], lines[|lines| - 1];
      LastCommandWins(init, c);
      CommandStep(lines);
      LastSomeStep(Commands(init), Command(last), c);
      assert Commands(lines) == Commands(init) + [Command(last)];
    }
  }

  /** Each name of the dictionary is listed once, and none holds an equals sign. */
  lemma {:induction false} NamesAreKeys(lines: seq<string>)
    ensures var u := ReadLines(lines); NoDup(u.names) && forall n :: n in u.names <==> n in u.env
    ensures forall n :: n in ReadLines(lines).names ==> '=' !in n
  {
    if lines != [] {
      var u := ReadLines(lines[..|lines| - 1]);
      NamesAreKeys(lines[..|lines| - 1]);
      match Assignment(lines[|lines| - 1]) {
        case None =>
        case Some(a) =>
          if a.0 !in u.env {
            NoDupAppend(u.names, a.0);
          }
      }
    }
  }
}
