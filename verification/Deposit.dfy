/** Depositing messages one after another: names, collision loop, publish, stream record. */
module Deposit {
  import opened Basics
  import opened PythonText
  import opened DepositText

  /** The inbox: file names and contents. */
  type Files = map<string, string>

  datatype Message = Message(
    sender: Option<string>, subject: Option<string>, payload: string, ts: Option<string>, slug: Option<string>)

  /** A message together with the time stamp the clock shows when it is deposited. */
  datatype Job = Job(message: Message, now: string)

  function Sender(j: Job): string {
    Or(Some(OneLine(j.message.sender)), "unknown")
  }

  function Subject(j: Job): string {
    OneLine(j.message.subject)
  }

  function Stamp(j: Job): string {
    Or(j.message.ts, j.now)
  }

  function Base(j: Job): string {
    Stamp(j) + "__from-" + Slugify(Some(Sender(j)), "unknown")
    + "__" + Slugify(Some(Or(j.message.slug, Subject(j))), "msg")
  }

  function WithNewline(s: string): string {
    if s == "" || s[|s| - 1] != '\n' then s + "\n" else s
  }

  function Body(j: Job): string {
    WithNewline(
      "---\nfrom: " + Sender(j) + "\nsubject: " + Subject(j) + "\nts: " + Stamp(j) + "\n---\n" + j.message.payload)
  }

  // ---- file names ----

  function Digit(d: nat): char
    requires d < 10
  {
    ('0' as int + d) as char
  }

  function Decimal(n: nat): string {
    if n < 10 then [Digit(n)] else Decimal(n / 10) + [Digit(n % 10)]
  }

  function DecimalValue(s: string): int {
    if s == "" then 0 else 10 * DecimalValue(s[..|s| - 1]) + (s[|s| - 1] as int - '0' as int)
  }

  lemma {:induction false} DecimalReadsBack(n: nat)
    ensures DecimalValue(Decimal(n)) == n
  {
    if n >= 10 {
      DecimalReadsBack(n / 10);
      assert Decimal(n)[..|Decimal(n)| - 1] == Decimal(n / 10);
    }
  }

  /** The k-th name the collision loop tries; the first has no number, the second is numbered 2. */
  function Candidate(base: string, k: nat): string {
    if k <= 1 then base + ".md" else base + "-" + Decimal(k) + ".md"
  }

  lemma CandidatesDiffer(base: string, j: nat, k: nat)
    requires 1 <= j < k
    ensures Candidate(base, j) != Candidate(base, k)
  {
    if Candidate(base, j) == Candidate(base, k) {
      var d := Candidate(base, k)[|base| + 1..|Candidate(base, k)| - 3];
      assert d == Decimal(k);
      assert j > 1 ==> d == Decimal(j);
      DecimalReadsBack(j);
      DecimalReadsBack(k);
    }
  }

  predicate IsMessageName(name: string) {
    |name| >= 3 && name[|name| - 3..] == ".md"
  }

  /** What mkstemp may return: the prefix, then letters, digits and underscores. */
  predicate IsTempName(name: string) {
    ".obtnet_msg_" <= name && !IsMessageName(name)
  }

  lemma CandidateIsMessageName(base: string, k: nat)
    ensures IsMessageName(Candidate(base, k))
  {
  }

  ghost predicate IsFirstFree(files: Files, base: string, k: nat) {
    k >= 1 && Candidate(base, k) !in files && forall j :: 1 <= j < k ==> Candidate(base, j) in files
  }

  /** A finite inbox cannot hold all candidates. */
  lemma TakenBound(files: Files, base: string, k: nat)
    requires forall j :: 1 <= j <= k ==> Candidate(base, j) in files
    ensures k <= |files|
  {
    var names := seq(k, i requires 0 <= i => Candidate(base, i + 1));
    forall i, j | 0 <= i < j < k ensures names[i] != names[j] {
      CandidatesDiffer(base, i + 1, j + 1);
    }
    NoDupBound(names, files.Keys);
  }

  function RecordOf(dir: string, j: Job, name: string): string {
    Record(Stamp(j), Sender(j), Subject(j), dir + "/" + name)
  }

  function Bodies(jobs: seq<Job>): seq<string> {
    seq(|jobs|, i requires 0 <= i < |jobs| => Body(jobs[i]))
  }

  lemma BodiesAppend(jobs: seq<Job>, i: nat)
    requires i < |jobs|
    ensures Bodies(jobs[..i + 1]) == Bodies(jobs[..i]) + [Body(jobs[i])]
  {
  }

  /** Each new file holds the whole body it was created for, and nothing that was there before has changed. */
  ghost predicate Conserved<N(!new), B>(before: map<N, B>, files: map<N, B>, names: seq<N>, bodies: seq<B>) {
    && |names| == |bodies| && NoDup(names) && |files| == |before| + |names|
    && (forall f :: f in files <==> f in before || f in names)
    && (forall f :: f in before ==> f !in names && f in files && files[f] == before[f])
    && (forall i :: 0 <= i < |names| ==> names[i] in files && files[names[i]] == bodies[i])
  }

  lemma ConservedStep<N(!new), B>(before: map<N, B>, files: map<N, B>, names: seq<N>, bodies: seq<B>, name: N, body: B)
    requires Conserved(before, files, names, bodies) && name !in files
    ensures Conserved(before, files[name := body], names + [name], bodies + [body])
  {
    NoDupAppend(names, name);
    OneMoreKey(files, name, body);
  }

  lemma OneMoreKey<N, B>(files: map<N, B>, name: N, body: B)
    requires name !in files
    ensures |files[name := body]| == |files| + 1
  {
    var after := files[name := body];
    assert after.Keys == files.Keys + {name};
    assert |after| == |after.Keys| && |files| == |files.Keys|;
  }

  lemma CandidatesAreMessageNames(base: string)
    ensures forall k: nat :: IsMessageName(Candidate(base, k))
  {
    forall k: nat ensures IsMessageName(Candidate(base, k)) {
      CandidateIsMessageName(base, k);
    }
  }

  ghost predicate AllPlain(dir: string, jobs: seq<Job>) {
    PlainText(dir) && forall i :: 0 <= i < |jobs| ==> PlainText(Stamp(jobs[i]))
  }

  predicate PlainText(s: string) {
    '\t' !in s && '\n' !in s
  }

  /** The four fields of each record, in order. */
  function Fields(dir: string, jobs: seq<Job>, names: seq<string>): seq<seq<string>>
    requires |jobs| == |names|
  {
    if jobs == [] then []
    else
      var last := |jobs| - 1;
      Fields(dir, jobs[..last], names[..last])
      + [[Stamp(jobs[last]), Sender(jobs[last]), Subject(jobs[last]), dir + "/" + names[last]]]
  }

  lemma FieldsAppend(dir: string, jobs: seq<Job>, names: seq<string>, j: Job, name: string)
    requires |jobs| == |names|
    ensures Fields(dir, jobs + [j], names + [name])
         == Fields(dir, jobs, names) + [[Stamp(j), Sender(j), Subject(j), dir + "/" + name]]
  {
    assert (jobs + [j])[..|jobs|] == jobs && (names + [name])[..|jobs|] == names;
  }

  lemma SlugIsPlain(text: Option<string>, default: string)
    requires PlainText(default)
    ensures PlainText(Slugify(text, default))
  {
    SlugIsClean(text, default);
  }

  lemma {:induction false} DecimalIsPlain(n: nat)
    ensures PlainText(Decimal(n))
  {
    if n >= 10 {
      DecimalIsPlain(n / 10);
    }
  }

  lemma PlainConcat(a: string, b: string)
    requires PlainText(a) && PlainText(b)
    ensures PlainText(a + b)
  {
  }

  lemma BaseIsPlain(j: Job)
    requires PlainText(Stamp(j))
    ensures PlainText(Base(j))
  {
    var one, two := Slugify(Some(Sender(j)), "unknown"), Slugify(Some(Or(j.message.slug, Subject(j))), "msg");
    SlugIsPlain(Some(Sender(j)), "unknown");
    SlugIsPlain(Some(Or(j.message.slug, Subject(j))), "msg");
    PlainConcat(Stamp(j), "__from-");
    PlainConcat(Stamp(j) + "__from-", one);
    PlainConcat(Stamp(j) + "__from-" + one, "__");
    PlainConcat(Stamp(j) + "__from-" + one + "__", two);
  }

  lemma CandidateIsPlain(j: Job, k: nat)
    requires PlainText(Stamp(j))
    ensures PlainText(Candidate(Base(j), k))
  {
    BaseIsPlain(j);
    DecimalIsPlain(k);
    PlainConcat(Base(j), ".md");
    PlainConcat(Base(j), "-");
    PlainConcat(Base(j) + "-", Decimal(k));
    PlainConcat(Base(j) + "-" + Decimal(k), ".md");
  }

  lemma UnknownIsOneLine()
    ensures OneLine(Some("unknown")) == "unknown"
  {
    var u := "unknown";
    assert forall i :: 0 <= i < |u| ==> !IsSpace(u[i]);
    CleanIsOneLine(u);
  }

  /** Sender() keeps the one-line form: it is one already, and so is the default. */
  lemma SenderIsOneLine(j: Job)
    ensures OneLine(Some(Sender(j))) == Sender(j)
  {
    if OneLine(j.message.sender) == "" {
      UnknownIsOneLine();
    } else {
      OneLineIsClean(j.message.sender);
    }
  }

  lemma PathIsPlain(dir: string, name: string)
    requires PlainText(dir) && PlainText(name)
    ensures PlainText(dir + "/" + name)
  {
    PlainConcat(dir, "/");
    PlainConcat(dir + "/", name);
  }

  lemma RecordIsOneLine(ts: string, sender: string, subject: string, path: string)
    requires '\n' !in ts && '\n' !in sender && '\n' !in subject && '\n' !in path
    ensures '\n' !in Record(ts, sender, subject, path)
  {
    var c := subject + "\t" + path;
    var b := sender + "\t" + c;
    assert '\n' !in c;
    assert '\n' !in b;
  }

  lemma RecordRow(dir: string, j: Job, name: string)
    requires PlainText(Stamp(j)) && PlainText(dir) && PlainText(name)
    ensures Split(RecordOf(dir, j, name), '\t') == [Stamp(j), Sender(j), Subject(j), dir + "/" + name]
    ensures '\n' !in RecordOf(dir, j, name)
  {
    var path := dir + "/" + name;
    PathIsPlain(dir, name);
    SenderIsOneLine(j);
    NoTabOrNewline(Some(Sender(j)));
    NoTabOrNewline(j.message.subject);
    OneLineIsClean(j.message.subject);
    RecordFields(Stamp(j), Some(Sender(j)), Some(Subject(j)), path);
    RecordIsOneLine(Stamp(j), Sender(j), Subject(j), path);
  }

  lemma DepositRecord(dir: string, j: Job, k: nat, stream: string)
    requires Terminated(stream)
    ensures var name := Candidate(Base(j), k);
      var after := stream + RecordOf(dir, j, name) + "\n";
      && Terminated(after)
      && (PlainText(Stamp(j)) && PlainText(dir) ==>
            ReadStream(after) == ReadStream(stream) + [[Stamp(j), Sender(j), Subject(j), dir + "/" + name]])
  {
    var name := Candidate(Base(j), k);
    if PlainText(Stamp(j)) && PlainText(dir) {
      CandidateIsPlain(j, k);
      RecordRow(dir, j, name);
      StreamAppend(stream, RecordOf(dir, j, name));
    }
  }

  class Inbox {
    const dir: string
    var files: Files
    var stream: string

    constructor (dir: string)
      ensures this.dir == dir && files == map[] && stream == ""
    {
      this.dir, files, stream := dir, map[], "";
    }

    method FreeName(base: string) returns (dest: string)
      ensures exists k :: IsFirstFree(files, base, k) && dest == Candidate(base, k)
    {
      dest := base + ".md";
      var n := 2;
      while dest in files
        invariant n >= 2 && dest == Candidate(base, n - 1)
        invariant forall j :: 1 <= j < n - 1 ==> Candidate(base, j) in files
        decreases |files| + 2 - n
      {
        TakenBound(files, base, n - 1);
        dest := base + "-" + Decimal(n) + ".md";
        n := n + 1;
      }
      assert IsFirstFree(files, base, n - 1);
    }

    /** The body goes to a temporary file, which then replaces whatever is called dest. */
    method WriteAndPublish(dest: string, tmp: string, body: string)
      requires tmp !in files && tmp != dest
      modifies this`files
      ensures files == old(files)[dest := body]
    {
      files := files[tmp := ""];
      files := files[tmp := body];
      var published := files[tmp];
      files := (files - {tmp})[dest := published];
    }

    /** tmp is the name mkstemp picked for the temporary file. */
    method Deposit(job: Job, tmp: string) returns (dest: string)
      requires IsTempName(tmp) && tmp !in files
      modifies this`files, this`stream
      ensures exists k :: IsFirstFree(old(files), Base(job), k) && dest == Candidate(Base(job), k)
      ensures files == old(files)[dest := Body(job)]
      ensures stream == old(stream) + RecordOf(dir, job, dest) + "\n"
    {
      dest := FreeName(Base(job));
      CandidatesAreMessageNames(Base(job));
      WriteAndPublish(dest, tmp, Body(job));
      stream := stream + RecordOf(dir, job, dest) + "\n";
    }

    /** Deposits one after another. */
    method DepositAll(jobs: seq<Job>, temps: seq<string>) returns (names: seq<string>)
      requires |temps| == |jobs| && forall i :: 0 <= i < |temps| ==> IsTempName(temps[i]) && temps[i] !in files
      requires Terminated(stream)
      modifies this`files, this`stream
      ensures |names| == |jobs| && Conserved(old(files), files, names, Bodies(jobs))
      ensures AllPlain(dir, jobs) ==> ReadStream(stream) == ReadStream(old(stream)) + Fields(dir, jobs, names)
    {
      names := [];
      for i := 0 to |jobs|
        invariant |names| == i && Terminated(stream)
        invariant Conserved(old(files), files, names, Bodies(jobs[..i]))
        invariant forall f :: f in names ==> IsMessageName(f)
        invariant AllPlain(dir, jobs) ==> ReadStream(stream) == ReadStream(old(stream)) + Fields(dir, jobs[..i], names)
      {
        var name := DepositNext(old(files), jobs, i, temps[i], names, ReadStream(old(stream)));
        names := names + [name];
      }
      assert jobs[..|jobs|] == jobs;
    }

    method DepositNext(ghost filesBefore: Files, jobs: seq<Job>, i: nat, tmp: string,
                       ghost names: seq<string>, ghost rowsBefore: seq<seq<string>>)
        returns (name: string)
      requires i < |jobs| && |names| == i && IsTempName(tmp) && tmp !in filesBefore && Terminated(stream)
      requires Conserved(filesBefore, files, names, Bodies(jobs[..i])) && forall f :: f in names ==> IsMessageName(f)
      requires AllPlain(dir, jobs) ==> ReadStream(stream) == rowsBefore + Fields(dir, jobs[..i], names)
      modifies this`files, this`stream
      ensures Conserved(filesBefore, files, names + [name], Bodies(jobs[..i + 1]))
      ensures IsMessageName(name) && Terminated(stream)
      ensures AllPlain(dir, jobs) ==> ReadStream(stream) == rowsBefore + Fields(dir, jobs[..i + 1], names + [name])
    {
      ghost var j, here, streamBefore := jobs[i], files, stream;
      name := Deposit(jobs[i], tmp);
      ghost var k :| IsFirstFree(here, Base(j), k) && name == Candidate(Base(j), k);
      ConservedStep(filesBefore, here, names, Bodies(jobs[..i]), name, Body(j));
      BodiesAppend(jobs, i);
      CandidateIsMessageName(Base(j), k);
      DepositRecord(dir, j, k, streamBefore);
      FieldsAppend(dir, jobs[..i], names, j, name);
      TakeOneMore(jobs, i);
      Regroup(rowsBefore, Fields(dir, jobs[..i], names), [[Stamp(j), Sender(j), Subject(j), dir + "/" + name]]);
    }
  }
}
