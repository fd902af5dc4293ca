/** What a reader of the inbox gets back: from a message file its fields and payload, from a file name its parts. */
module DepositRead {
  import opened Basics
  import opened PythonText
  import opened DepositText
  import opened Deposit

  // ---- the message file ----

  /** Everything before the first line break, or all of it. */
  function Line(s: string): (line: string)
    ensures '\n' !in line && line <= s
  {
    if s == "" || s[0] == '\n' then "" else [s[0]] + Line(s[1..])
  }

  /** Everything behind the first line break. */
  function AfterLine(s: string): string {
    var n := |Line(s)|;
    if n < |s| then s[n + 1..] else ""
  }

  lemma {:induction false} FirstLine(line: string, rest: string)
    requires '\n' !in line
    ensures Line(line + "\n" + rest) == line && AfterLine(line + "\n" + rest) == rest
  {
    var s := line + "\n" + rest;
    LineUpTo(line, rest);
    assert s[|line| + 1..] == rest;
  }

  lemma {:induction false} LineUpTo(line: string, rest: string)
    requires '\n' !in line
    ensures Line(line + "\n" + rest) == line
  {
    if line != "" {
      assert line == [line[0]] + line[1..] && line[0] in line;
      LineUpTo(line[1..], rest);
      assert (line + "\n" + rest)[1..] == line[1..] + "\n" + rest;
    }
  }

  /** A message as its reader sees it. */
  datatype Read = Read(sender: string, subject: string, ts: string, payload: string)

  /** The value of a labelled line. */
  function Field(key: string, line: string): Option<string> {
    if key <= line then Some(line[|key|..]) else None
  }

  /** Front matter between two lines of dashes, three labelled lines in order; all that follows is the payload. */
  function ReadMessage(file: string): Option<Read> {
    var one, two := AfterLine(file), AfterLine(AfterLine(file));
    var three, four := AfterLine(two), AfterLine(AfterLine(two));
    var sender, subject, ts := Field("from: ", Line(one)), Field("subject: ", Line(two)), Field("ts: ", Line(three));
    if Line(file) == "---" && Line(four) == "---" && sender.Some? && subject.Some? && ts.Some?
    then Some(Read(sender.value, subject.value, ts.value, AfterLine(four))) else None
  }

  /** Text that ends its last line. */
  function Ended(payload: string): string {
    if payload == "" || payload[|payload| - 1] == '\n' then payload else payload + "\n"
  }

  /** One more labelled line is split off the text in front of a line break. */
  lemma LineSplitsOff(before: string, key: string, value: string, rest: string)
    ensures (before + ("\n" + key) + value) + ("\n" + rest) == before + ("\n" + ((key + value) + "\n" + rest))
  {
    var s, t := (before + ("\n" + key) + value) + ("\n" + rest), before + ("\n" + ((key + value) + "\n" + rest));
    Regroup(before, "\n" + key, value);
    Regroup("\n", key, value);
    Regroup(before, "\n" + (key + value), "\n" + rest);
    Regroup("\n", key + value, "\n" + rest);
    Regroup(key + value, "\n", rest);
  }

  lemma FrontMatter(a: string, b: string, c: string, p: string)
    ensures "---\nfrom: " + a + "\nsubject: " + b + "\nts: " + c + "\n---\n" + p
         == "---" + "\n" + (("from: " + a) + "\n" + (("subject: " + b) + "\n"
              + (("ts: " + c) + "\n" + ("---" + "\n" + p))))
  {
    var five := "---" + "\n" + p;
    var four := ("ts: " + c) + "\n" + five;
    var three := ("subject: " + b) + "\n" + four;
    var h1 := "---\nfrom: " + a;
    var h2 := h1 + "\nsubject: " + b;
    var h3 := h2 + "\nts: " + c;
    assert "\nsubject: " == "\n" + "subject: " && "\nts: " == "\n" + "ts: ";
    assert h3 + "\n---\n" + p == h3 + ("\n" + five) by {
      Regroup(h3, "\n---\n", p);
      assert "\n---\n" == "\n" + ("---" + "\n");
      Regroup("\n", "---" + "\n", p);
    }
    LineSplitsOff(h2, "ts: ", c, five);
    LineSplitsOff(h1, "subject: ", b, four);
    FirstTwoLines(a, three);
  }

  lemma FirstTwoLines(a: string, rest: string)
    ensures ("---\nfrom: " + a) + ("\n" + rest) == "---" + "\n" + (("from: " + a) + "\n" + rest)
  {
    assert "---\nfrom: " == ("---" + "\n") + "from: ";
    Regroup("---" + "\n", "from: ", a);
    Regroup("---" + "\n", "from: " + a, "\n" + rest);
    Regroup("from: " + a, "\n", rest);
  }

  lemma BodyLines(j: Job)
    ensures Body(j) == "---" + "\n" + (("from: " + Sender(j)) + "\n" + (("subject: " + Subject(j)) + "\n"
                     + (("ts: " + Stamp(j)) + "\n" + ("---" + "\n" + Ended(j.message.payload)))))
  {
    var head := "---\nfrom: " + Sender(j) + "\nsubject: " + Subject(j) + "\nts: " + Stamp(j) + "\n---\n";
    FrontMatter(Sender(j), Subject(j), Stamp(j), Ended(j.message.payload));
    NewlineAtEnd(head, j.message.payload);
    assert head[|head| - 1] == '\n';
  }

  lemma NewlineAtEnd(head: string, payload: string)
    requires head != "" && head[|head| - 1] == '\n'
    ensures WithNewline(head + payload) == head + Ended(payload)
  {
    if payload == "" {
      assert head + payload == head;
    } else {
      Regroup(head, payload, "\n");
    }
  }

  lemma FieldLine(key: string, value: string)
    requires '\n' !in key && '\n' !in value
    ensures '\n' !in key + value && Field(key, key + value) == Some(value)
  {
  }

  /** What the sender, subject and time stamp of a message come to. */
  function Fields(j: Job): Read {
    var sender := Join(Words(Or(j.message.sender, ""), IsSpace), ' ');
    Read(if sender == "" then "unknown" else sender, Join(Words(Or(j.message.subject, ""), IsSpace), ' '),
      if j.message.ts.Some? && j.message.ts.value != "" then j.message.ts.value else j.now, Ended(j.message.payload))
  }

  lemma FieldsAre(j: Job)
    ensures Fields(j) == Read(Sender(j), Subject(j), Stamp(j), Ended(j.message.payload))
    ensures SlugText(j) == Or(j.message.slug, Subject(j))
  {
    OneLineIsJoined(j.message.sender);
    OneLineIsJoined(j.message.subject);
  }

  /** The text the last part of the file name is made of: the slug given, or else the subject. */
  function SlugText(j: Job): string {
    if j.message.slug.Some? && j.message.slug.value != "" then j.message.slug.value else Fields(j).subject
  }

  /**
   The message file reads back, exactly when the time stamp is one line: sender and subject word by word, the time stamp
   that was given (or else the clock's), and the payload with its last line ended.
   */
  lemma MessageReadsBack(j: Job)
    ensures ReadMessage(Body(j)) == Some(Fields(j)) <==> '\n' !in Fields(j).ts
  {
    FieldsAre(j);
    if '\n' !in Stamp(j) {
      PlainReadsBack(j);
    }
  }

  lemma PlainReadsBack(j: Job)
    requires '\n' !in Stamp(j)
    ensures ReadMessage(Body(j)) == Some(Read(Sender(j), Subject(j), Stamp(j), Ended(j.message.payload)))
  {
    var five := "---" + "\n" + Ended(j.message.payload);
    var four := ("ts: " + Stamp(j)) + "\n" + five;
    var three := ("subject: " + Subject(j)) + "\n" + four;
    var two := ("from: " + Sender(j)) + "\n" + three;
    NoTabOrNewline(j.message.sender);
    NoTabOrNewline(j.message.subject);
    FieldLine("from: ", Sender(j));
    FieldLine("subject: ", Subject(j));
    FieldLine("ts: ", Stamp(j));
    BodyLines(j);
    FirstLine("---", two);
    FirstLine("from: " + Sender(j), three);
    FirstLine("subject: " + Subject(j), four);
    FirstLine("ts: " + Stamp(j), five);
    FirstLine("---", Ended(j.message.payload));
  }

  // ---- the file name ----

  /** What stands behind the last c. */
  function AfterLast(s: string, c: char): (r: string)
    ensures |r| <= |s|
  {
    if s == "" || s[|s| - 1] == c then "" else AfterLast(s[..|s| - 1], c) + [s[|s| - 1]]
  }

  lemma {:induction false} LastPart(a: string, c: char, b: string)
    requires c !in b
    ensures AfterLast(a + [c] + b, c) == b
  {
    if b == "" {
      assert a + [c] + b == a + [c];
    } else {
      var init, x := b[..|b| - 1], b[|b| - 1];
      assert b == init + [x] && x in b;
      LastPart(a, c, init);
      assert (a + [c] + b)[..|a + [c] + b| - 1] == a + [c] + init;
    }
  }

  /** The parts of <stamp>__from-<sender>__<slug>, taken from its end. */
  function ReadBase(base: string): (parts: (string, string, string)) {
    var slug := AfterLast(base, '_');
    var rest := if |base| >= |slug| + 2 then base[..|base| - |slug| - 2] else "";
    var from := AfterLast(rest, '_');
    (if |rest| >= |from| + 2 then rest[..|rest| - |from| - 2] else "", from, slug)
  }

  lemma SlugHasNoUnderscore(text: Option<string>, default: string)
    requires '_' !in default
    ensures '_' !in Slugify(text, default)
  {
    SlugIsClean(text, default);
  }

  lemma NameParts(stamp: string, sender: string, slug: string)
    requires '_' !in sender && '_' !in slug
    ensures ReadBase(stamp + "__from-" + sender + "__" + slug) == (stamp, "from-" + sender, slug)
  {
    var from, base := "from-" + sender, stamp + "__from-" + sender + "__" + slug;
    var rest := stamp + "__" + from;
    assert stamp + "__from-" + sender == rest by {
      assert "__from-" == "__" + "from-";
      Regroup(stamp, "__", "from-");
      Regroup(stamp + "__", "from-", sender);
    }
    TwoUnderscores(rest, slug);
    TwoUnderscores(stamp, from);
  }

  lemma TwoUnderscores(a: string, b: string)
    requires '_' !in b
    ensures AfterLast(a + "__" + b, '_') == b && (a + "__" + b)[..|a|] == a
  {
    assert "__" == "_" + ['_'];
    Regroup(a, "_", ['_']);
    LastPart(a + "_", '_', b);
    FrontPart(a, "__", b);
  }

  lemma FrontPart(a: string, b: string, c: string)
    ensures (a + b + c)[..|a|] == a
  {
  }

  /** Time stamp, sender and slug can be read off the file name, whatever they are. */
  lemma BaseReadsBack(j: Job)
    ensures ReadBase(Base(j))
         == (Fields(j).ts, "from-" + Slugify(Some(Fields(j).sender), "unknown"), Slugify(Some(SlugText(j)), "msg"))
  {
    FieldsAre(j);
    SlugHasNoUnderscore(Some(Sender(j)), "unknown");
    SlugHasNoUnderscore(Some(Or(j.message.slug, Subject(j))), "msg");
    NameParts(Stamp(j), Slugify(Some(Sender(j)), "unknown"), Slugify(Some(Or(j.message.slug, Subject(j))), "msg"));
  }

  /** d is n in decimal: digits only, and no leading zero. */
  predicate IsNumber(d: string, n: int) {
    && d != "" && (|d| > 1 ==> d[0] != '0') && (forall i :: 0 <= i < |d| ==> '0' <= d[i] <= '9')
    && DecimalValue(d) == n
  }

  lemma {:induction false} DecimalIsNumber(n: nat)
    ensures IsNumber(Decimal(n), n) && (n > 0 ==> Decimal(n)[0] != '0')
  {
    if n >= 10 {
      DecimalIsNumber(n / 10);
      assert Decimal(n)[..|Decimal(n)| - 1] == Decimal(n / 10);
    } else {
      assert Decimal(n)[..0] == "";
    }
  }

  lemma {:induction false} DigitsCount(d: string)
    requires forall i :: 0 <= i < |d| ==> '0' <= d[i] <= '9'
    ensures DecimalValue(d) >= 0 && (d != "" && d[0] != '0' ==> DecimalValue(d) > 0)
  {
    if d != "" {
      DigitsCount(d[..|d| - 1]);
    }
  }

  lemma {:induction false} NumberIsDecimal(d: string, n: nat)
    requires IsNumber(d, n)
    ensures d == Decimal(n)
  {
    var init, last := d[..|d| - 1], d[|d| - 1];
    DigitsCount(init);
    if init == "" {
      assert d == [last];
    } else {
      assert n == 10 * DecimalValue(init) + (last as int - '0' as int);
      NumberIsDecimal(init, n / 10);
      assert d == init + [last];
    }
  }

  /** The name is numbered n, and all before it, the plain one included, are taken. */
  ghost predicate FirstFreeNumber(files: Files, base: string, dest: string, n: nat) {
    && n >= 2 && dest !in files && (exists d :: IsNumber(d, n) && dest == base + "-" + d + ".md")
    && forall m, d :: 2 <= m < n && IsNumber(d, m) ==> base + "-" + d + ".md" in files
  }

  /** The name of a deposit: the plain one if it is free, and otherwise the first free one numbered from two on. */
  lemma FirstFreeName(files: Files, base: string, k: nat)
    requires IsFirstFree(files, base, k)
    ensures var dest := Candidate(base, k);
      if base + ".md" !in files then dest == base + ".md" else FirstFreeNumber(files, base, dest, k)
  {
    assert Candidate(base, 1) == base + ".md";
    if base + ".md" !in files {
      assert k == 1;
    } else {
      DecimalIsNumber(k);
      forall m, d | 2 <= m < k && IsNumber(d, m) ensures base + "-" + d + ".md" in files {
        NumberIsDecimal(d, m);
        assert Candidate(base, m) in files;
      }
    }
  }
}
