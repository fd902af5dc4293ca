/**
 The script puts a newline behind its command, `sh -c` gets the command without one.  Whether that makes a
 difference depends on how the command ends.
 */
module SystemdNewline {
  import opened Basics
  import opened SystemdUnit
  import opened SystemdScript

  /** What the shell is reading. */
  datatype Mode = Bare | Single | Double | Remark

  /** Characters after which a word may start: blanks, newlines and operators (section 2.3). */
  predicate IsBreak(c: char) {
    c in " \t\n;&|()<>"
  }

  /** The text ends in a backslash that quotes nothing and is not quoted itself. */
  predicate Dangles(s: string, mode: Mode, atStart: bool)
    decreases |s|
  {
    if s == "" then false
    else
      match mode
      case Single => Dangles(s[1..], if s[0] == '\'' then Bare else Single, false)
      case Double =>
        if s[0] == '\\' then |s| > 1 && Dangles(s[2..], Double, false)
        else Dangles(s[1..], if s[0] == '"' then Bare else Double, false)
      case Remark => Dangles(s[1..], if s[0] == '\n' then Bare else Remark, true)
      case Bare =>
        if s[0] == '\\' then |s| == 1 || Dangles(s[2..], Bare, atStart && s[1] == '\n')
        else if s[0] == '\'' then Dangles(s[1..], Single, false)
        else if s[0] == '"' then Dangles(s[1..], Double, false)
        else if s[0] == '#' && atStart then Dangles(s[1..], Remark, false)
        else Dangles(s[1..], Bare, IsBreak(s[0]))
  }

  predicate Dangling(text: string) {
    Dangles(text, Bare, true)
  }

  /** The text as the shell takes it: a newline ends it, but a backslash in front of that vanishes along with it. */
  function Seen(text: string): string {
    if text == "" || text[|text| - 1] != '\n' then text
    else
      var line := text[..|text| - 1];
      if Dangling(line) then line[..|line| - 1] else line
  }

  predicate EndsLine(s: string) {
    s != "" && s[|s| - 1] == '\n'
  }

  // ---- words ----

  /** Of a text that goes on after the word, the rest starts a new line, and ends as the text does. */
  ghost predicate GoesOn(s: string, rest: string, dangles: bool) {
    && rest != "" && rest[0] == '\n' && s != "" && rest[|rest| - 1] == s[|s| - 1]
    && Dangling(rest) == dangles
  }

  /** What a newline more at the end of the text does to its first word. */
  ghost predicate OneMoreLeft(s: string, dangles: bool, a: Option<Word>, b: Option<Word>) {
    && a.Some? == b.Some?
    && (b.Some? && b.value.rest == "" && !dangles ==> a.value == Word(b.value.value, "\n"))
    && (b.Some? && b.value.rest != "" ==>
          a.value == Word(b.value.value, b.value.rest + "\n") && GoesOn(s, b.value.rest, dangles))
  }

  lemma LeftFromTail(s: string, k: nat, c: char, dangles: bool, a: Option<Word>, b: Option<Word>)
    requires k <= |s| && OneMoreLeft(s[k..], dangles, a, b)
    ensures OneMoreLeft(s, dangles, a, b) && OneMoreLeft(s, dangles, Prepend(c, a), Prepend(c, b))
  {
  }

  function ModeOf(quoted: bool): Mode {
    if quoted then Single else Bare
  }

  lemma {:induction false} WordThenNewline(s: string, quoted: bool)
    ensures OneMoreLeft(s, Dangles(s, ModeOf(quoted), false), ReadWord(s + "\n", quoted), ReadWord(s, quoted))
    decreases |s|
  {
    var dangles := Dangles(s, ModeOf(quoted), false);
    if s == "" {
      assert s + "\n" == "\n" && "\n"[1..] == "";
    } else if !quoted && s[0] == '\n' {
      assert Dangling(s) == dangles;
    } else if !quoted && s == "\\" {
      assert (s + "\n")[2..] == "" && (s + "\n")[1] == '\n';
    } else if !quoted && s[0] == '\\' {
      WordThenNewline(s[2..], false);
      assert (s + "\n")[2..] == s[2..] + "\n" && (s + "\n")[1] == s[1];
      LeftFromTail(s, 2, s[1], dangles, ReadWord(s[2..] + "\n", false), ReadWord(s[2..], false));
    } else if quoted || s[0] == '\'' || Ordinary(s[0]) {
      var next := if s[0] == '\'' then !quoted else quoted;
      WordThenNewline(s[1..], next);
      assert (s + "\n")[1..] == s[1..] + "\n";
      LeftFromTail(s, 1, s[0], dangles, ReadWord(s[1..] + "\n", next), ReadWord(s[1..], next));
    }
  }

  // ---- lines ----

  predicate Unquoted(p: string) {
    forall i :: 0 <= i < |p| ==> p[i] != '\\' && p[i] != '\'' && p[i] != '"' && p[i] != '#'
  }

  /** Plain text before it does not change how a text ends. */
  lemma {:induction false} AfterPlain(p: string, t: string, atStart: bool)
    requires p != "" && Unquoted(p)
    ensures Dangles(p + t, Bare, atStart) == Dangles(t, Bare, IsBreak(p[|p| - 1]))
  {
    assert (p + t)[0] == p[0] && (p + t)[1..] == p[1..] + t;
    if |p| > 1 {
      AfterPlain(p[1..], t, IsBreak(p[0]));
    } else {
      assert p[1..] + t == t;
    }
  }

  lemma {:induction false} FirstEqualsThenNewline(t: string)
    ensures FirstEquals(t + "\n") == if FirstEquals(t) < |t| then FirstEquals(t) else |t| + 1
  {
    if t == "" {
      assert "\n"[1..] == "";
      assert t + "\n" == "\n";
    } else if t[0] != '=' {
      FirstEqualsThenNewline(t[1..]);
      assert (t + "\n")[1..] == t[1..] + "\n";
    }
  }

  lemma ExportPrefix(s: string)
    ensures EXPORT <= s + "\n" <==> EXPORT <= s
  {
    if EXPORT <= s + "\n" {
      assert EXPORT[|EXPORT| - 1] == ' ';
    }
  }

  lemma PrefixKept(t: string, i: nat)
    requires i < |t|
    ensures (t + "\n")[..i] == t[..i] && (t + "\n")[i + 1..] == t[i + 1..] + "\n"
  {
  }

  /** What a newline more at the end of the text does to its first assignment. */
  ghost predicate SameBinding(s: string, dangles: bool, a: Option<Binding>, b: Option<Binding>) {
    && a.Some? == b.Some?
    && (b.Some? && b.value.rest == "" && !dangles ==> a.value == b.value.(rest := "\n"))
    && (b.Some? && b.value.rest != "" ==>
          a.value == b.value.(rest := b.value.rest + "\n") && GoesOn(s, b.value.rest, dangles))
  }

  lemma AssignedAlike(s: string, k: nat, dangles: bool, name: string, a: Option<Word>, b: Option<Word>)
    requires k <= |s| && OneMoreLeft(s[k..], dangles, a, b)
    ensures SameBinding(s, dangles, Assigned(name, a), Assigned(name, b))
  {
  }

  lemma AfterName(t: string, i: nat)
    requires i < |t| && t[i] == '=' && ValidName(t[..i])
    ensures Dangles(t, Bare, true) == Dangles(t[i + 1..], Bare, false)
  {
    var p := t[..i + 1];
    assert forall j :: 0 <= j < i ==> IsNameChar(t[..i][j]) && p[j] == t[..i][j];
    AfterPlain(p, t[i + 1..], true);
    assert t == p + t[i + 1..];
  }

  lemma AfterExport(t: string)
    ensures Dangling(EXPORT + t) == Dangles(t, Bare, true)
  {
    AfterPlain(EXPORT, t, true);
  }

  lemma {:induction false} AssignmentThenNewline(t: string)
    ensures SameBinding(t, Dangles(t, Bare, true), ReadAssignment(t + "\n"), ReadAssignment(t))
  {
    var i := FirstEquals(t);
    FirstEqualsThenNewline(t);
    if i < |t| {
      var w := t[i + 1..];
      PrefixKept(t, i);
      if ValidName(t[..i]) {
        WordThenNewline(w, false);
        AfterName(t, i);
        AssignedAlike(t, i + 1, Dangles(t, Bare, true), t[..i], ReadWord(w + "\n", false), ReadWord(w, false));
      }
    }
  }

  lemma BindingFromTail(s: string, k: nat, dangles: bool, a: Option<Binding>, b: Option<Binding>)
    requires k <= |s| && SameBinding(s[k..], dangles, a, b)
    ensures SameBinding(s, dangles, a, b)
  {
  }

  lemma {:induction false} ExportThenNewline(s: string)
    ensures SameBinding(s, Dangling(s), ReadExport(s + "\n"), ReadExport(s))
  {
    ExportPrefix(s);
    if EXPORT <= s {
      var t := s[|EXPORT|..];
      assert s == EXPORT + t;
      assert (s + "\n")[|EXPORT|..] == t + "\n";
      AfterExport(t);
      AssignmentThenNewline(t);
      BindingFromTail(s, |EXPORT|, Dangling(s), ReadAssignment(t + "\n"), ReadAssignment(t));
    }
  }

  lemma {:induction false} SkipThenNewline(s: string)
    ensures SkipComment(s + "\n") == SkipComment(s) + "\n"
    ensures Dangling(SkipComment(s)) == Dangles(s, Remark, false)
    ensures EndsLine(SkipComment(s)) ==> EndsLine(s)
  {
    if s == "" {
      assert s + "\n" == "\n";
    } else if s[0] != '\n' {
      SkipThenNewline(s[1..]);
      assert (s + "\n")[1..] == s[1..] + "\n";
      assert s[1..] != "" ==> Dangles(s[1..], Remark, true) == Dangles(s[1..], Remark, false);
    }
  }

  // ---- whole texts ----

  lemma SeenWithNewline(s: string)
    ensures !EndsLine(s) && !Dangling(s) ==> Seen(s + "\n") == Seen(s)
    ensures !EndsLine(s) && Dangling(s) ==> Seen(s + "\n") != Seen(s)
  {
    assert (s + "\n")[..|s|] == s;
  }

  /**
   The newline at the end of the script makes no difference to a command that does not end in such a backslash; to one
   that does, it does, if the shell comes to run anything but comments and exports.
   */
  lemma {:induction false} ShellThenNewline(s: string, env: map<string, string>, kept: set<string>)
    requires !EndsLine(s)
    ensures var a, b := Shell(s + "\n", env, kept), Shell(s, env, kept);
      && (!Dangling(s) ==> a.env == b.env && Seen(a.command) == Seen(b.command))
      && (Dangling(s) && b.command != "" ==> Seen(a.command) != Seen(b.command))
    decreases |s|, 1
  {
    if s == "" {
      assert s + "\n" == "\n" && "\n"[1..] == "";
    } else if s[0] == '\n' {
      assert (s + "\n")[1..] == s[1..] + "\n";
      ShellThenNewline(s[1..], env, kept);
    } else if s[0] == '#' {
      assert (s + "\n")[1..] == s[1..] + "\n";
      SkipThenNewline(s[1..]);
      ShellThenNewline(SkipComment(s[1..]), env, kept);
    } else {
      assert (s + "\n")[0] == s[0];
      ExportThenNewline(s);
      ExportCase(s, env, kept);
    }
  }

  lemma {:induction false} ExportCase(s: string, env: map<string, string>, kept: set<string>)
    requires s != "" && !EndsLine(s) && s[0] != '\n' && s[0] != '#'
    requires SameBinding(s, Dangling(s), ReadExport(s + "\n"), ReadExport(s))
    ensures var a, b := Shell(s + "\n", env, kept), Shell(s, env, kept);
      && (!Dangling(s) ==> a.env == b.env && Seen(a.command) == Seen(b.command))
      && (Dangling(s) && b.command != "" ==> Seen(a.command) != Seen(b.command))
    decreases |s|, 0
  {
    assert (s + "\n")[0] == s[0];
    match ReadExport(s) {
      case None => SeenWithNewline(s);
      case Some(b) =>
        var next := Bind(env, b.name, b.value, kept);
        if b.rest != "" {
          ShellThenNewline(b.rest, next, kept);
        } else if !Dangling(s) {
          assert "\n"[1..] == "";
        }
    }
  }
}
