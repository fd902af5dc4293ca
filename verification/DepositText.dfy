/** The pure string work of bin_pub/obt.net.msg.deposit.py: one-line fields, slugs, stream records. */
module DepositText {
  import opened Basics
  import opened PythonText

  predicate NotAlnum(c: char) {
    !('a' <= c <= 'z' || 'A' <= c <= 'Z' || '0' <= c <= '9')
  }

  predicate IsDash(c: char) {
    c == '-'
  }

  function LowerChar(c: char): char {
    if 'A' <= c <= 'Z' then (c as int + 32) as char else c
  }

  function Lower(s: string): (r: string)
    ensures |r| == |s| && forall i :: 0 <= i < |s| ==> r[i] == LowerChar(s[i])
  {
    if s == "" then "" else [LowerChar(s[0])] + Lower(s[1..])
  }

  function Or(text: Option<string>, default: string): string {
    if text.None? || text.value == "" then default else text.value
  }

  /** Replaces every maximal run of bad characters by one separator. */
  function Squeeze(s: string, bad: char -> bool, sep: char, inRun: bool): string {
    if s == "" then ""
    else if bad(s[0]) then (if inRun then "" else [sep]) + Squeeze(s[1..], bad, sep, true)
    else [s[0]] + Squeeze(s[1..], bad, sep, false)
  }

  function TabsToSpaces(s: string): (r: string)
    ensures |r| == |s| && forall i :: 0 <= i < |s| ==> r[i] == if s[i] == '\t' then ' ' else s[i]
  {
    if s == "" then "" else [if s[0] == '\t' then ' ' else s[0]] + TabsToSpaces(s[1..])
  }

  /** A single line for the stream field and the header. */
  function OneLine(text: Option<string>): string {
    Strip(Squeeze(TabsToSpaces(Or(text, "")), IsSpace, ' ', false), IsSpace)
  }

  const SLUG_MAX: nat := 48

  function Slugify(text: Option<string>, default: string): string {
    var s := Strip(Squeeze(Lower(Strip(Or(text, ""), IsSpace)), NotAlnum, '-', false), IsDash);
    var cut := Strip(if |s| > SLUG_MAX then s[..SLUG_MAX] else s, IsDash);
    if cut == "" then default else cut
  }

  // ---- what they return ----

  /** Bad characters occur only as single separators. */
  ghost predicate Spaced(s: string, bad: char -> bool, sep: char) {
    && (forall i :: 0 <= i < |s| && bad(s[i]) ==> s[i] == sep)
    && (forall i :: 0 < i < |s| ==> !(bad(s[i - 1]) && bad(s[i])))
  }

  /** ... and not at either end. */
  ghost predicate Clean(s: string, bad: char -> bool, sep: char) {
    Spaced(s, bad, sep) && (s != "" ==> !bad(s[0]) && !bad(s[|s| - 1]))
  }

  lemma {:induction false} SqueezeSpaced(s: string, bad: char -> bool, sep: char, inRun: bool)
    requires bad(sep)
    ensures var r := Squeeze(s, bad, sep, inRun);
      Spaced(r, bad, sep) && (inRun && r != "" ==> !bad(r[0])) && forall c :: c in r ==> c == sep || c in s
  {
    if s != "" {
      SqueezeSpaced(s[1..], bad, sep, bad(s[0]));
      var t := Squeeze(s[1..], bad, sep, bad(s[0]));
      var r := Squeeze(s, bad, sep, inRun);
      assert r == t || r == [sep] + t || r == [s[0]] + t;
      forall i | 0 < i < |r| ensures !(bad(r[i - 1]) && bad(r[i])) {
        assert r != t ==> r[i] == t[i - 1] && (i > 1 ==> r[i - 1] == t[i - 2]);
      }
    }
  }

  lemma {:induction false} StripLeftClean(s: string, drop: char -> bool, bad: char -> bool, sep: char)
    requires Spaced(s, bad, sep) && forall c :: c in s ==> (drop(c) <==> bad(c))
    ensures var r := StripLeft(s, drop);
      && Spaced(r, bad, sep) && (r != "" ==> !bad(r[0])) && |r| <= |s|
      && forall c :: c in r ==> c in s
  {
    if s != "" && drop(s[0]) {
      StripLeftClean(s[1..], drop, bad, sep);
    }
  }

  lemma {:induction false} StripRightClean(s: string, drop: char -> bool, bad: char -> bool, sep: char)
    requires Spaced(s, bad, sep) && (forall c :: c in s ==> (drop(c) <==> bad(c))) && (s != "" ==> !bad(s[0]))
    ensures var r := StripRight(s, drop);
      Clean(r, bad, sep) && |r| <= |s| && forall c :: c in r ==> c in s
  {
    if s != "" && drop(s[|s| - 1]) {
      StripRightClean(s[..|s| - 1], drop, bad, sep);
    }
  }

  lemma StripClean(s: string, drop: char -> bool, bad: char -> bool, sep: char)
    requires Spaced(s, bad, sep) && forall c :: c in s ==> (drop(c) <==> bad(c))
    ensures var r := Strip(s, drop); Clean(r, bad, sep) && |r| <= |s| && forall c :: c in r ==> c in s
  {
    StripLeftClean(s, drop, bad, sep);
    StripRightClean(StripLeft(s, drop), drop, bad, sep);
  }

  /** A clean string is left alone. */
  lemma {:induction false} SqueezeClean(s: string, bad: char -> bool, sep: char, inRun: bool)
    requires Spaced(s, bad, sep) && (inRun && s != "" ==> !bad(s[0]))
    ensures Squeeze(s, bad, sep, inRun) == s
  {
    if s != "" {
      SqueezeClean(s[1..], bad, sep, bad(s[0]));
    }
  }

  /** One-line text: no whitespace but single inner spaces; and doing it twice changes nothing. */
  lemma OneLineIsClean(text: Option<string>)
    ensures var r := OneLine(text); Clean(r, IsSpace, ' ') && OneLine(Some(r)) == r
  {
    var t := TabsToSpaces(Or(text, ""));
    SqueezeSpaced(t, IsSpace, ' ', false);
    StripClean(Squeeze(t, IsSpace, ' ', false), IsSpace, IsSpace, ' ');
    CleanIsOneLine(OneLine(text));
  }

  lemma CleanIsOneLine(r: string)
    requires Clean(r, IsSpace, ' ')
    ensures OneLine(Some(r)) == r
  {
    forall i | 0 <= i < |r| ensures r[i] != '\t' {
      assert IsSpace(r[i]) ==> r[i] == ' ';
    }
    assert TabsToSpaces(r) == r;
    SqueezeClean(r, IsSpace, ' ', false);
    if r != "" {
      assert StripLeft(r, IsSpace) == r;
    }
  }

  lemma NoTabOrNewline(text: Option<string>)
    ensures '\t' !in OneLine(text) && '\n' !in OneLine(text) && '\r' !in OneLine(text)
  {
    OneLineIsClean(text);
    var r := OneLine(text);
    forall i | 0 <= i < |r| ensures r[i] != '\t' && r[i] != '\n' && r[i] != '\r' {
      assert IsSpace(r[i]) ==> r[i] == ' ';
    }
  }

  predicate SlugChar(c: char) {
    'a' <= c <= 'z' || '0' <= c <= '9' || c == '-'
  }

  lemma SlugParts(text: Option<string>)
    ensures var s := Strip(Squeeze(Lower(Strip(Or(text, ""), IsSpace)), NotAlnum, '-', false), IsDash);
      Clean(s, NotAlnum, '-') && forall c :: c in s ==> SlugChar(c)
  {
    var low := Lower(Strip(Or(text, ""), IsSpace));
    var q := Squeeze(low, NotAlnum, '-', false);
    SqueezeSpaced(low, NotAlnum, '-', false);
    forall c | c in q ensures SlugChar(c) {
      var i :| 0 <= i < |q| && q[i] == c;
      assert NotAlnum(q[i]) ==> q[i] == '-';
      if c != '-' {
        var j :| 0 <= j < |low| && low[j] == c;
      }
    }
    StripClean(q, IsDash, NotAlnum, '-');
  }

  /** A slug is short, made of lower-case letters, digits and single inner dashes, or it is the default. */
  lemma SlugIsClean(text: Option<string>, default: string)
    ensures var r := Slugify(text, default);
      r == default || (Clean(r, NotAlnum, '-') && r != "" && |r| <= SLUG_MAX && forall c :: c in r ==> SlugChar(c))
  {
    SlugParts(text);
    var s := Strip(Squeeze(Lower(Strip(Or(text, ""), IsSpace)), NotAlnum, '-', false), IsDash);
    var cut := if |s| > SLUG_MAX then s[..SLUG_MAX] else s;
    assert forall c :: c in cut ==> c in s;
    StripClean(cut, IsDash, NotAlnum, '-');
  }

  /** A slug is its own slug: no letter or digit is lost. */
  lemma SlugStays(r: string, default: string)
    requires r != "" && |r| <= 48 && r[0] != '-' && r[|r| - 1] != '-'
    requires forall i :: 0 <= i < |r| ==> SlugChar(r[i]) && (i > 0 && r[i] == '-' ==> r[i - 1] != '-')
    ensures Slugify(Some(r), default) == r
  {
    assert Clean(r, NotAlnum, '-');
    assert !IsSpace(r[0]) && !IsSpace(r[|r| - 1]);
    assert StripLeft(r, IsSpace) == r && Strip(r, IsSpace) == r;
    forall i | 0 <= i < |r| ensures LowerChar(r[i]) == r[i] {
      assert r[i] in r;
    }
    assert Lower(r) == r;
    SqueezeClean(r, NotAlnum, '-', false);
    assert !IsDash(r[0]) && !IsDash(r[|r| - 1]);
    assert StripLeft(r, IsDash) == r && Strip(r, IsDash) == r;
  }

  // ---- word by word ----

  /** The maximal runs of good characters. */
  function Words(s: string, bad: char -> bool): (ws: seq<string>)
    ensures s != "" && !bad(s[0]) ==> ws != []
  {
    if s == "" then []
    else
      var ws := Words(s[1..], bad);
      if bad(s[0]) then ws
      else if |s| > 1 && !bad(s[1]) then [[s[0]] + ws[0]] + ws[1..]
      else [[s[0]]] + ws
  }

  function Join(ws: seq<string>, sep: char): string {
    if ws == [] then "" else if |ws| == 1 then ws[0] else ws[0] + [sep] + Join(ws[1..], sep)
  }

  lemma JoinFirst(c: char, ws: seq<string>, sep: char)
    requires ws != []
    ensures Join([[c] + ws[0]] + ws[1..], sep) == [c] + Join(ws, sep)
  {
    if |ws| > 1 {
      var more := [[c] + ws[0]] + ws[1..];
      assert more[1..] == ws[1..];
      assert ([c] + ws[0]) + [sep] + Join(ws[1..], sep) == [c] + (ws[0] + [sep] + Join(ws[1..], sep));
    }
  }

  lemma {:induction false} WordsCons(c: char, s: string, bad: char -> bool)
    ensures Words([c] + s, bad)
         == if bad(c) then Words(s, bad)
            else if s != "" && !bad(s[0]) then [[c] + Words(s, bad)[0]] + Words(s, bad)[1..]
            else [[c]] + Words(s, bad)
  {
    assert ([c] + s)[1..] == s;
  }

  lemma JoinNext(w: string, ws: seq<string>, sep: char)
    requires ws != []
    ensures Join([w] + ws, sep) == w + [sep] + Join(ws, sep)
  {
    assert ([w] + ws)[1..] == ws;
  }

  /** A clean string is its words with one separator between them. */
  lemma {:induction false} CleanIsJoined(r: string, bad: char -> bool, sep: char)
    requires bad(sep) && Clean(r, bad, sep)
    ensures r == Join(Words(r, bad), sep)
  {
    if |r| == 1 {
      assert r == [r[0]] + "";
      WordsCons(r[0], "", bad);
    } else if r != "" {
      var c, t := r[0], r[1..];
      assert r == [c] + t;
      WordsCons(c, t, bad);
      if bad(t[0]) {
        var u := t[1..];
        assert t == [sep] + u && u != "" && u[0] == r[2] && !bad(u[0]);
        WordsCons(sep, u, bad);
        CleanIsJoined(u, bad, sep);
        JoinNext([c], Words(u, bad), sep);
        Regroup([c], [sep], u);
      } else {
        CleanIsJoined(t, bad, sep);
        JoinFirst(c, Words(t, bad), sep);
      }
    }
  }

  lemma {:induction false} SqueezeFirst(s: string, bad: char -> bool, sep: char)
    requires s != "" && bad(sep)
    ensures var t := Squeeze(s, bad, sep, false); t != "" && (bad(t[0]) <==> bad(s[0]))
  {
  }

  lemma {:induction false} SqueezeKeepsWords(s: string, bad: char -> bool, sep: char, inRun: bool)
    requires bad(sep)
    ensures Words(Squeeze(s, bad, sep, inRun), bad) == Words(s, bad)
  {
    if s != "" {
      var c, rest := s[0], s[1..];
      var t := Squeeze(rest, bad, sep, bad(c));
      SqueezeKeepsWords(rest, bad, sep, bad(c));
      assert s == [c] + rest;
      WordsCons(c, rest, bad);
      if bad(c) {
        WordsCons(sep, t, bad);
        assert "" + t == t;
      } else {
        WordsCons(c, t, bad);
        if rest != "" {
          SqueezeFirst(rest, bad, sep);
        }
      }
    }
  }

  lemma {:induction false} StripLeftKeepsWords(s: string, drop: char -> bool, bad: char -> bool)
    requires forall c :: c in s && drop(c) ==> bad(c)
    ensures Words(StripLeft(s, drop), bad) == Words(s, bad)
  {
    if s != "" && drop(s[0]) {
      StripLeftKeepsWords(s[1..], drop, bad);
    }
  }

  lemma {:induction false} BadAtEnd(s: string, c: char, bad: char -> bool)
    requires bad(c)
    ensures Words(s + [c], bad) == Words(s, bad)
  {
    if s == "" {
      assert s + [c] == [c] && [c][1..] == "";
    } else {
      BadAtEnd(s[1..], c, bad);
      assert (s + [c])[1..] == s[1..] + [c];
    }
  }

  lemma {:induction false} StripRightKeepsWords(s: string, drop: char -> bool, bad: char -> bool)
    requires forall c :: c in s && drop(c) ==> bad(c)
    ensures Words(StripRight(s, drop), bad) == Words(s, bad)
  {
    if s != "" && drop(s[|s| - 1]) {
      StripRightKeepsWords(s[..|s| - 1], drop, bad);
      BadAtEnd(s[..|s| - 1], s[|s| - 1], bad);
      assert s[..|s| - 1] + [s[|s| - 1]] == s;
    }
  }

  lemma {:induction false} StripLeftHas(s: string, drop: char -> bool)
    ensures forall c :: c in StripLeft(s, drop) ==> c in s
  {
    if s != "" && drop(s[0]) {
      StripLeftHas(s[1..], drop);
    }
  }

  lemma StripKeepsWords(s: string, drop: char -> bool, bad: char -> bool)
    requires forall c :: c in s && drop(c) ==> bad(c)
    ensures Words(Strip(s, drop), bad) == Words(s, bad)
  {
    StripLeftKeepsWords(s, drop, bad);
    StripLeftHas(s, drop);
    StripRightKeepsWords(StripLeft(s, drop), drop, bad);
  }

  lemma {:induction false} TabsKeepWords(s: string)
    ensures Words(TabsToSpaces(s), IsSpace) == Words(s, IsSpace)
  {
    if s != "" {
      TabsKeepWords(s[1..]);
      assert TabsToSpaces(s)[1..] == TabsToSpaces(s[1..]);
    }
  }

  /** One-line text is the words of the text with single spaces between them. */
  lemma OneLineIsJoined(text: Option<string>)
    ensures OneLine(text) == Join(Words(Or(text, ""), IsSpace), ' ')
  {
    var t := TabsToSpaces(Or(text, ""));
    OneLineIsClean(text);
    TabsKeepWords(Or(text, ""));
    SqueezeKeepsWords(t, IsSpace, ' ', false);
    StripKeepsWords(Squeeze(t, IsSpace, ' ', false), IsSpace, IsSpace);
    CleanIsJoined(OneLine(text), IsSpace, ' ');
  }

  lemma {:induction false} LowerStripLeft(s: string)
    ensures Words(Lower(StripLeft(s, IsSpace)), NotAlnum) == Words(Lower(s), NotAlnum)
  {
    if s != "" && IsSpace(s[0]) {
      LowerStripLeft(s[1..]);
      assert Lower(s)[1..] == Lower(s[1..]);
    }
  }

  lemma {:induction false} LowerAtEnd(s: string, c: char)
    requires IsSpace(c)
    ensures Words(Lower(s + [c]), NotAlnum) == Words(Lower(s), NotAlnum)
  {
    BadAtEnd(Lower(s), c, NotAlnum);
    assert Lower(s + [c]) == Lower(s) + [c];
  }

  lemma {:induction false} LowerStripRight(s: string)
    ensures Words(Lower(StripRight(s, IsSpace)), NotAlnum) == Words(Lower(s), NotAlnum)
  {
    if s != "" && IsSpace(s[|s| - 1]) {
      var init := s[..|s| - 1];
      LowerStripRight(init);
      LowerAtEnd(init, s[|s| - 1]);
      assert init + [s[|s| - 1]] == s;
    }
  }

  /** All letters and digits of the text, in lower case, with single dashes where others stood between them. */
  lemma SlugBeforeCut(text: Option<string>)
    ensures Strip(Squeeze(Lower(Strip(Or(text, ""), IsSpace)), NotAlnum, '-', false), IsDash)
         == Join(Words(Lower(Or(text, "")), NotAlnum), '-')
  {
    var x := Or(text, "");
    var low := Lower(Strip(x, IsSpace));
    var q := Squeeze(low, NotAlnum, '-', false);
    SlugParts(text);
    LowerStripLeft(x);
    LowerStripRight(StripLeft(x, IsSpace));
    SqueezeKeepsWords(low, NotAlnum, '-', false);
    StripKeepsWords(q, IsDash, NotAlnum);
    CleanIsJoined(Strip(q, IsDash), NotAlnum, '-');
  }

  lemma StripNothing(s: string, drop: char -> bool)
    requires s != "" ==> !drop(s[0]) && !drop(s[|s| - 1])
    ensures Strip(s, drop) == s
  {
  }

  lemma StripOneRight(s: string, drop: char -> bool)
    requires |s| >= 2 && !drop(s[0]) && !drop(s[|s| - 2]) && drop(s[|s| - 1])
    ensures Strip(s, drop) == s[..|s| - 1]
  {
    assert StripLeft(s, drop) == s;
    assert StripRight(s[..|s| - 1], drop) == s[..|s| - 1];
  }

  /** A slug is the words of the text joined by dashes, cut at 48 characters, or at 47 if a dash would come last. */
  lemma SlugIsJoined(text: Option<string>, default: string)
    ensures var s := Join(Words(Lower(Or(text, "")), NotAlnum), '-');
      Slugify(text, default)
        == if s == "" then default else if |s| <= 48 then s else if s[47] == '-' then s[..47] else s[..48]
  {
    var s := Join(Words(Lower(Or(text, "")), NotAlnum), '-');
    SlugParts(text);
    SlugBeforeCut(text);
    if |s| <= 48 {
      StripNothing(s, IsDash);
    } else if s[47] == '-' {
      assert NotAlnum(s[47]) && !NotAlnum(s[46]);
      StripOneRight(s[..48], IsDash);
      assert s[..48][..47] == s[..47];
    } else {
      StripNothing(s[..48], IsDash);
    }
  }

  // ---- stream records ----

  function Record(ts: string, sender: string, subject: string, path: string): string {
    ts + "\t" + (sender + "\t" + (subject + "\t" + path))
  }

  /** A record reads back as its four fields, and as four fields only, exactly when ts and path hold no tab. */
  lemma RecordFields(ts: string, sender: Option<string>, subject: Option<string>, path: string)
    ensures var s, t := OneLine(sender), OneLine(subject);
      Split(Record(ts, s, t, path), '\t') == [ts, s, t, path] <==> '\t' !in ts && '\t' !in path
  {
    var s, t := OneLine(sender), OneLine(subject);
    var record := Record(ts, s, t, path);
    NoTabOrNewline(sender);
    NoTabOrNewline(subject);
    if '\t' !in ts && '\t' !in path {
      SplitPlain(path, '\t');
      SplitFirst(t, '\t', path);
      SplitFirst(s, '\t', t + "\t" + path);
      SplitFirst(ts, '\t', s + "\t" + (t + "\t" + path));
    } else {
      SplitLength(record, '\t');
      SplitLength(ts, '\t');
      SplitLength(path, '\t');
      TabsInRecord(ts, s, t, path);
    }
  }

  lemma TabsInRecord(ts: string, s: string, t: string, path: string)
    ensures Count(Record(ts, s, t, path), '\t') >= 3 + Count(ts, '\t') + Count(path, '\t')
  {
    CountConcat(ts + "\t", s + "\t" + (t + "\t" + path), '\t');
    CountConcat(ts, "\t", '\t');
    CountConcat(s + "\t", t + "\t" + path, '\t');
    CountConcat(s, "\t", '\t');
    CountConcat(t + "\t", path, '\t');
    CountConcat(t, "\t", '\t');
    assert Count("\t", '\t') == 1;
  }

  /** The stream file read back: each terminated line, split at its tabs. */
  function ReadStream(content: string): seq<seq<string>> {
    Rows(Split(content, '\n'))
  }

  function Rows(lines: seq<string>): seq<seq<string>> {
    if |lines| <= 1 then [] else [Split(lines[0], '\t')] + Rows(lines[1..])
  }

  predicate Terminated(content: string) {
    content == "" || content[|content| - 1] == '\n'
  }

  /** The pieces after one more character in front. */
  function Lead(c: char, parts: seq<string>): seq<string>
    requires parts != []
  {
    if c == '\n' then [""] + parts else [[c] + parts[0]] + parts[1..]
  }

  lemma {:induction false} SplitCons(c: char, s: string)
    ensures Split([c] + s, '\n') == Lead(c, Split(s, '\n'))
  {
    assert ([c] + s)[1..] == s;
  }

  lemma LeadLast(c: char, rest: seq<string>, tail: seq<string>)
    requires rest != [] && tail != [] && rest[|rest| - 1] == "" && (c == '\n' || |rest| >= 2)
    ensures var p := Lead(c, rest);
      |p| >= 2 && p[|p| - 1] == "" && p[..|p| - 1] + tail == Lead(c, rest[..|rest| - 1] + tail)
  {
    var p, init := Lead(c, rest), rest[..|rest| - 1];
    if c == '\n' {
      assert p[..|p| - 1] == [""] + init;
      Regroup([""], init, tail);
    } else {
      var head := [[c] + rest[0]];
      assert p[..|p| - 1] == head + init[1..];
      assert (init + tail)[0] == rest[0] && (init + tail)[1..] == init[1..] + tail;
      Regroup(head, init[1..], tail);
    }
  }

  lemma {:induction false} SplitTerminated(a: string, b: string)
    requires Terminated(a)
    ensures var p := Split(a, '\n');
      p[|p| - 1] == "" && (a != "" ==> |p| >= 2) && Split(a + b, '\n') == p[..|p| - 1] + Split(b, '\n')
  {
    if a == "" {
      assert a + b == b;
    } else {
      var c, rest := a[0], a[1..];
      SplitTerminated(rest, b);
      SplitCons(c, rest);
      SplitCons(c, rest + b);
      assert [c] + rest == a && [c] + (rest + b) == a + b;
      LeadLast(c, Split(rest, '\n'), Split(b, '\n'));
    }
  }

  lemma {:induction false} RowsAppend(p: seq<string>, line: string)
    ensures Rows(p + [line, ""]) == Rows(p + [""]) + [Split(line, '\t')]
  {
    if p == [] {
      assert [line, ""][1..] == [""];
    } else {
      assert (p + [line, ""])[1..] == p[1..] + [line, ""];
      assert (p + [""])[1..] == p[1..] + [""];
      RowsAppend(p[1..], line);
    }
  }

  /** Appending a record to a well-formed stream adds that record and changes no other. */
  lemma {:induction false} StreamAppend(content: string, line: string)
    requires Terminated(content) && '\n' !in line
    ensures Terminated(content + line + "\n")
    ensures ReadStream(content + line + "\n") == ReadStream(content) + [Split(line, '\t')]
  {
    LineSplit(line);
    SplitTerminated(content, line + "\n");
    var p := Split(content, '\n');
    var lead := p[..|p| - 1];
    assert content + (line + "\n") == content + line + "\n";
    RowsAppend(lead, line);
    assert p == lead + [""];
  }

  lemma LineSplit(line: string)
    requires '\n' !in line
    ensures Split(line + "\n", '\n') == [line, ""]
  {
    SplitFirst(line, '\n', "");
    assert line + "\n" + "" == line + "\n";
  }
}
