/**
 The generated runner script, read back under the quoting rules of the POSIX.1-2017 Shell Command Language
 (section 2.2.1 escape character, section 2.2.2 single quotes, section 2.3 comments), against the program that
 lays the same variables over its own environment.
 */
module SystemdScript {
  import opened Basics
  import opened SystemdUnit

  // ---- the printer ----

  function EscapeChar(c: char): string {
    if c == '\'' then "'\\''" else [c]
  }

  /** Every single quote becomes: close, escaped quote, open. */
  function Escape(v: string): string {
    if v == "" then "" else EscapeChar(v[0]) + Escape(v[1..])
  }

  function ExportLine(name: string, value: string): string {
    "export " + name + "='" + Escape(value) + "'\n"
  }

  function Exports(names: seq<string>, env: map<string, string>): string
    requires forall n :: n in names ==> n in env
  {
    if names == [] then "" else ExportLine(names[0], env[names[0]]) + Exports(names[1..], env)
  }

  function Comment(text: string): string {
    "#" + text + "\n"
  }

  function Title(service: string): string {
    " Generated runner script for " + service + " service"
  }

  function Origin(file: string): string {
    " Source service file: " + file
  }

  function Header(service: string, file: string): string {
    Comment("!/bin/bash") + Comment(Title(service)) + Comment(Origin(file)) + "\n"
  }

  function Footer(command: string): string {
    "\n" + (Comment(" Execute service command") + (command + "\n"))
  }

  ghost predicate Valid(u: Unit) {
    NoDup(u.names) && forall n :: n in u.names <==> n in u.env
  }

  /** Without a command nothing is written. */
  function Script(u: Unit, service: string, file: string): Option<string>
    requires forall n :: n in u.names ==> n in u.env
  {
    if u.execStart.None? || u.execStart.value == "" then None
    else Some(Header(service, file) + Exports(u.names, u.env) + Footer(u.execStart.value))
  }

  method WriteScript(u: Unit, service: string, file: string) returns (text: Option<string>)
    requires Valid(u)
    ensures text == Script(u, service, file)
  {
    if u.execStart.None? || u.execStart.value == "" {
      return None;
    }
    var out := Comment("!/bin/bash");
    out := out + Comment(Title(service));
    out := out + Comment(Origin(file));
    out := out + "\n";
    for i := 0 to |u.names|
      invariant out + Exports(u.names[i..], u.env) == Header(service, file) + Exports(u.names, u.env)
    {
      var line := ExportLine(u.names[i], u.env[u.names[i]]);
      assert u.names[i..][1..] == u.names[i + 1..];
      Regroup(out, line, Exports(u.names[i + 1..], u.env));
      out := out + line;
    }
    assert out == Header(service, file) + Exports(u.names, u.env);
    out := out + Footer(u.execStart.value);
    text := Some(out);
  }

  // ---- the program that runs the service directly ----

  datatype Launch = Launch(env: map<string, string>, command: string)

  function RunService(u: Unit, environ: map<string, string>): Option<Launch> {
    if u.execStart.None? || u.execStart.value == "" then None
    else Some(Launch(environ + u.env, u.execStart.value))
  }

  // ---- the shell ----

  /** Characters that stand for themselves outside quotes. */
  predicate Ordinary(c: char) {
    IsNameChar(c) || c in "-./:,+@^]{}!"
  }

  predicate IsNameStart(c: char) {
    'a' <= c <= 'z' || 'A' <= c <= 'Z' || c == '_'
  }

  predicate IsNameChar(c: char) {
    IsNameStart(c) || '0' <= c <= '9'
  }

  /** Section 3.235 of the Base Definitions: what a shell accepts as the name of a variable. */
  predicate ValidName(s: string) {
    s != "" && IsNameStart(s[0]) && forall i :: 0 <= i < |s| ==> IsNameChar(s[i])
  }

  /** A word's value and the text that follows it. */
  datatype Word = Word(value: string, rest: string)

  function Prepend(c: char, w: Option<Word>): Option<Word> {
    if w.None? then None else Some(Word([c] + w.value.value, w.value.rest))
  }

  /**
   Reads one word up to the end of its line; quoted says whether s starts inside single quotes.
   Words with any other special character are not modelled, and neither are unclosed quotes.
   */
  function ReadWord(s: string, quoted: bool): (w: Option<Word>)
    ensures w.Some? ==> |w.value.rest| <= |s|
  {
    if quoted then
      if s == "" then None
      else if s[0] == '\'' then ReadWord(s[1..], false)
      else Prepend(s[0], ReadWord(s[1..], true))
    else if s == "" || s[0] == '\n' then Some(Word("", s))
    else if s[0] == '\'' then ReadWord(s[1..], true)
    else if s[0] == '\\' then
      if |s| == 1 then Some(Word("\\", ""))
      else if s[1] == '\n' then ReadWord(s[2..], false)
      else Prepend(s[1], ReadWord(s[2..], false))
    else if Ordinary(s[0]) then Prepend(s[0], ReadWord(s[1..], false))
    else None
  }

  const EXPORT := "export "

  datatype Binding = Binding(name: string, value: string, rest: string)

  /** The assignment of an export command at the start of s. */
  function ReadExport(s: string): (b: Option<Binding>)
    ensures b.Some? ==> ValidName(b.value.name) && |b.value.rest| < |s|
  {
    if EXPORT <= s then ReadAssignment(s[|EXPORT|..]) else None
  }

  function ReadAssignment(t: string): (b: Option<Binding>)
    ensures b.Some? ==> ValidName(b.value.name) && |b.value.rest| <= |t|
  {
    var i := FirstEquals(t);
    if i == |t| || !ValidName(t[..i]) then None else Assigned(t[..i], ReadWord(t[i + 1..], false))
  }

  function Assigned(name: string, w: Option<Word>): Option<Binding> {
    if w.None? then None else Some(Binding(name, w.value.value, w.value.rest))
  }

  function SkipComment(s: string): (r: string)
    ensures |r| <= |s|
  {
    if s == "" || s[0] == '\n' then s else SkipComment(s[1..])
  }

  /** The variables the Bash Reference Manual (section 5.2, "Bash Variables") calls read-only. */
  const BASH_READ_ONLY: set<string> := {"BASHOPTS", "BASH_VERSINFO", "EUID", "PPID", "SHELLOPTS", "UID"}

  function Bind(env: map<string, string>, name: string, value: string, kept: set<string>): map<string, string> {
    if name in kept then env else env[name := value]
  }

  /**
   Runs comments, blank lines and exports; stops in front of the first command of any other kind.  The shell keeps
   some names to itself: assigning one of them fails, and the script goes on.
   */
  function Shell(s: string, env: map<string, string>, kept: set<string>): Launch
    decreases |s|
  {
    if s == "" then Launch(env, s)
    else if s[0] == '\n' then Shell(s[1..], env, kept)
    else if s[0] == '#' then Shell(SkipComment(s[1..]), env, kept)
    else
      match ReadExport(s)
      case None => Launch(env, s)
      case Some(b) => Shell(b.rest, Bind(env, b.name, b.value, kept), kept)
  }

  // ---- quoting is undone ----

  lemma QuoteReadsBack(tail: string)
    ensures ReadWord("'\\''" + tail, true) == Prepend('\'', ReadWord(tail, true))
  {
    var s := "'\\''" + tail;
    assert s[1..] == "\\''" + tail;
    assert s[1..][2..] == "'" + tail;
    assert s[1..][2..][1..] == tail;
    assert ReadWord(s[1..][2..], false) == ReadWord(tail, true);
    assert ReadWord(s[1..], false) == Prepend('\'', ReadWord(tail, true));
  }

  lemma PlainReadsBack(c: char, tail: string)
    requires c != '\''
    ensures ReadWord([c] + tail, true) == Prepend(c, ReadWord(tail, true))
  {
    assert ([c] + tail)[1..] == tail;
  }

  lemma EndReadsBack(tail: string)
    ensures ReadWord("'\n" + tail, true) == Some(Word("", "\n" + tail))
  {
    assert ("'\n" + tail)[1..] == "\n" + tail;
  }

  lemma {:induction false} QuotedReadsBack(v: string, end: string, tail: string)
    requires end == "'\n" + tail
    ensures ReadWord(Escape(v) + end, true) == Some(Word(v, "\n" + tail))
  {
    if v == "" {
      assert Escape(v) + end == end;
      EndReadsBack(tail);
    } else {
      QuotedReadsBack(v[1..], end, tail);
      var more := Escape(v[1..]) + end;
      Regroup(EscapeChar(v[0]), Escape(v[1..]), end);
      if v[0] == '\'' {
        QuoteReadsBack(more);
      } else {
        PlainReadsBack(v[0], more);
      }
      assert [v[0]] + v[1..] == v;
    }
  }

  lemma {:induction false} FirstEqualsAfter(name: string, rest: string)
    requires '=' !in name
    ensures FirstEquals(name + "=" + rest) == |name|
  {
    if name != "" {
      FirstEqualsAfter(name[1..], rest);
      assert (name + "=" + rest)[1..] == name[1..] + "=" + rest;
    }
  }

  lemma ExportTakesWord(name: string, word: string)
    requires ValidName(name)
    ensures var w := ReadWord(word, false);
      ReadExport(EXPORT + (name + "=" + word)) == Assigned(name, w)
  {
    var t := name + "=" + word;
    assert (EXPORT + t)[|EXPORT|..] == t;
    FirstEqualsAfter(name, word);
    assert t[..|name|] == name && t[|name| + 1..] == word;
  }

  lemma ExportReadsBack(name: string, value: string, rest: string)
    requires ValidName(name)
    ensures ReadExport(ExportLine(name, value) + rest) == Some(Binding(name, value, "\n" + rest))
  {
    var quoted := Escape(value) + ("'\n" + rest);
    ExportText(name, Escape(value), rest);
    ExportTakesWord(name, "'" + quoted);
    assert ("'" + quoted)[1..] == quoted;
    QuotedReadsBack(value, "'\n" + rest, rest);
  }

  lemma ExportText(name: string, text: string, rest: string)
    ensures "export " + name + "='" + text + "'\n" + rest == EXPORT + (name + "=" + ("'" + (text + ("'\n" + rest))))
  {
    assert name + "='" == name + "=" + "'";
    Flatten("export ", name, "='", text, "'\n", rest);
    Flatten("export ", name, "=", "'", text, "'\n" + rest);
  }

  lemma Flatten<T>(a: seq<T>, b: seq<T>, c: seq<T>, d: seq<T>, e: seq<T>, f: seq<T>)
    ensures a + b + c + d + e + f == a + (b + (c + (d + (e + f))))
  {
    Regroup(a + b + c + d, e, f);
    Regroup(a + b + c, d, e + f);
    Regroup(a + b, c, d + (e + f));
    Regroup(a, b, c + (d + (e + f)));
  }

  lemma ExportRuns(name: string, value: string, rest: string, env: map<string, string>, kept: set<string>)
    requires ValidName(name)
    ensures Shell(ExportLine(name, value) + rest, env, kept) == Shell(rest, Bind(env, name, value, kept), kept)
  {
    ExportReadsBack(name, value, rest);
    assert (ExportLine(name, value) + rest)[0] == 'e';
    assert ("\n" + rest)[1..] == rest;
  }

  ghost predicate ValidNames(names: seq<string>) {
    forall n :: n in names ==> ValidName(n)
  }

  /** What a script can set of these variables. */
  function Settable(names: seq<string>, vars: map<string, string>, kept: set<string>): map<string, string>
    requires forall n :: n in names ==> n in vars
  {
    map n | n in names && n !in kept :: vars[n]
  }

  lemma SettableFirst(names: seq<string>, vars: map<string, string>, kept: set<string>, env: map<string, string>)
    requires names != [] && forall n :: n in names ==> n in vars
    ensures Bind(env, names[0], vars[names[0]], kept) + Settable(names[1..], vars, kept)
         == env + Settable(names, vars, kept)
  {
    assert forall n :: n in names <==> n == names[0] || n in names[1..];
  }

  lemma {:induction false} ExportsRun(names: seq<string>, vars: map<string, string>, tail: string,
      env: map<string, string>, kept: set<string>)
    requires (forall n :: n in names ==> n in vars) && ValidNames(names)
    ensures Shell(Exports(names, vars) + tail, env, kept) == Shell(tail, env + Settable(names, vars, kept), kept)
  {
    if names == [] {
      assert Exports(names, vars) + tail == tail;
      assert env + Settable(names, vars, kept) == env;
    } else {
      var rest := Exports(names[1..], vars);
      Regroup(ExportLine(names[0], vars[names[0]]), rest, tail);
      ExportRuns(names[0], vars[names[0]], rest + tail, env, kept);
      ExportsRun(names[1..], vars, tail, Bind(env, names[0], vars[names[0]], kept), kept);
      SettableFirst(names, vars, kept, env);
    }
  }

  // ---- comments ----

  lemma {:induction false} SkipsLine(c: string, rest: string)
    requires '\n' !in c
    ensures SkipComment(c + "\n" + rest) == "\n" + rest
  {
    if c == "" {
      assert c + "\n" + rest == "\n" + rest;
    } else {
      SkipsLine(c[1..], rest);
      assert (c + "\n" + rest)[1..] == c[1..] + "\n" + rest;
    }
  }

  lemma CommentRuns(c: string, rest: string, env: map<string, string>, kept: set<string>)
    requires '\n' !in c
    ensures Shell(Comment(c) + rest, env, kept) == Shell(rest, env, kept)
  {
    SkipsLine(c, rest);
    assert (Comment(c) + rest)[1..] == c + "\n" + rest;
    assert ("\n" + rest)[1..] == rest;
  }

  lemma CommentsRun(a: string, b: string, c: string, rest: string, env: map<string, string>, kept: set<string>)
    requires '\n' !in a && '\n' !in b && '\n' !in c
    ensures Shell(Comment(a) + (Comment(b) + (Comment(c) + rest)), env, kept) == Shell(rest, env, kept)
  {
    CommentRuns(a, Comment(b) + (Comment(c) + rest), env, kept);
    CommentRuns(b, Comment(c) + rest, env, kept);
    CommentRuns(c, rest, env, kept);
  }

  lemma RegroupFour<T>(a: seq<T>, b: seq<T>, c: seq<T>, d: seq<T>, e: seq<T>)
    ensures (a + b + c + d) + e == a + (b + (c + (d + e)))
  {
    Regroup(a + b + c, d, e);
    Regroup(a + b, c, d + e);
    Regroup(a, b, c + (d + e));
  }

  lemma HeaderRuns(service: string, file: string, rest: string, env: map<string, string>, kept: set<string>)
    requires '\n' !in service && '\n' !in file
    ensures Shell(Header(service, file) + rest, env, kept) == Shell(rest, env, kept)
  {
    var a, b, c := Comment("!/bin/bash"), Comment(Title(service)), Comment(Origin(file));
    RegroupFour(a, b, c, "\n", rest);
    CommentsRun("!/bin/bash", Title(service), Origin(file), "\n" + rest, env, kept);
    assert ("\n" + rest)[1..] == rest;
  }

  lemma FooterRuns(command: string, env: map<string, string>, kept: set<string>)
    ensures Shell(Footer(command), env, kept) == Shell(command + "\n", env, kept)
  {
    var c := " Execute service command";
    assert Footer(command)[1..] == Comment(c) + (command + "\n");
    CommentRuns(c, command + "\n", env, kept);
  }

  /** The script sets what it can of its variables and comes to its command line. */
  lemma ScriptSets(u: Unit, service: string, file: string, env: map<string, string>, kept: set<string>)
    requires Valid(u) && ValidNames(u.names) && '\n' !in service && '\n' !in file
    requires Script(u, service, file).Some?
    ensures Shell(Script(u, service, file).value, env, kept)
         == Shell(u.execStart.value + "\n", env + Settable(u.names, u.env, kept), kept)
  {
    var exports, footer := Exports(u.names, u.env), Footer(u.execStart.value);
    Regroup(Header(service, file), exports, footer);
    HeaderRuns(service, file, exports + footer, env, kept);
    ExportsRun(u.names, u.env, footer, env, kept);
    FooterRuns(u.execStart.value, env + Settable(u.names, u.env, kept), kept);
  }

  /** The system runs the script with bash. */
  lemma ScriptOpens(u: Unit, service: string, file: string)
    requires Valid(u) && Script(u, service, file).Some?
    ensures "#!/bin/bash\n" <= Script(u, service, file).value
  {
    var bash, more := "#!/bin/bash\n", Comment(Title(service)) + Comment(Origin(file)) + "\n";
    assert Comment("!/bin/bash") == bash;
    Regroup(bash, Comment(Title(service)), Comment(Origin(file)));
    Regroup(bash, Comment(Title(service)) + Comment(Origin(file)), "\n");
    PrefixStays(bash, more, Exports(u.names, u.env), Footer(u.execStart.value));
  }

  lemma PrefixStays(a: string, b: string, c: string, d: string)
    ensures a <= ((a + b) + c) + d
  {
  }
}
