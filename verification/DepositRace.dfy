/**
 The collision guard looks before it publishes, so two depositors can still hit the same name.  Whether they
 can is decided by the inbox they start from.
 */
module DepositRace {
  import opened Basics
  import opened Deposit
  import opened Depositors

  ghost predicate Reachable(jobs: seq<Job>, start: World, w: World)
    requires |start.pcs| == |jobs|
  {
    exists steps :: Allowed(jobs, start, steps) && Exec(jobs, start, steps) == w
  }

  /** A publish that replaces a message file which is there already. */
  ghost predicate Overwrites(w: World, i: nat) {
    Enabled(w, Publish(i)) && w.pcs[i].dest in w.files
  }

  ghost predicate CanOverwrite(jobs: seq<Job>, start: World)
    requires |start.pcs| == |jobs|
  {
    exists w, i :: Reachable(jobs, start, w) && Overwrites(w, i)
  }

  lemma {:induction false} ExecOneMore(jobs: seq<Job>, start: World, steps: seq<Step>, step: Step)
    requires |start.pcs| == |jobs| && Allowed(jobs, start, steps) && Enabled(Exec(jobs, start, steps), step)
    requires |Exec(jobs, start, steps).pcs| == |jobs|
    ensures Allowed(jobs, start, steps + [step])
    ensures Exec(jobs, start, steps + [step]) == Apply(jobs, Exec(jobs, start, steps), step)
    decreases |steps|
  {
    var longer := steps + [step];
    if steps == [] {
      assert longer[1..] == [];
    } else {
      assert longer[0] == steps[0] && longer[1..] == steps[1..] + [step];
      ExecOneMore(jobs, Apply(jobs, start, steps[0]), steps[1..], step);
    }
  }

  lemma ReachOneMore(jobs: seq<Job>, start: World, w: World, step: Step)
    requires |start.pcs| == |jobs| && Reachable(jobs, start, w) && |w.pcs| == |jobs| && Enabled(w, step)
    ensures Reachable(jobs, start, Apply(jobs, w, step))
  {
    var steps :| Allowed(jobs, start, steps) && Exec(jobs, start, steps) == w;
    ExecOneMore(jobs, start, steps, step);
  }

  // ---- first choices ----

  ghost function FreeFrom(files: Files, base: string, k: nat): (r: nat)
    requires k >= 1 && forall j :: 1 <= j < k ==> Candidate(base, j) in files
    ensures IsFirstFree(files, base, r)
    decreases |files| + 1 - k
  {
    TakenBound(files, base, k - 1);
    if Candidate(base, k) in files then
      TakenBound(files, base, k);
      FreeFrom(files, base, k + 1)
    else k
  }

  ghost function FirstNumber(files: Files, base: string): (r: nat)
    ensures IsFirstFree(files, base, r)
  {
    FreeFrom(files, base, 1)
  }

  /** The name each depositor would take if it were alone. */
  ghost function FirstNames(files: Files, jobs: seq<Job>): (names: seq<string>)
    ensures |names| == |jobs|
  {
    seq(|jobs|, i requires 0 <= i < |jobs| => Candidate(Base(jobs[i]), FirstNumber(files, Base(jobs[i]))))
  }

  /** Each depositor's base, the number of its first free name, and that name. */
  ghost predicate Choices(init: Files, bases: seq<string>, first: seq<nat>, names: seq<string>) {
    && |bases| == |first| == |names|
    && forall i :: 0 <= i < |names| ==>
         IsFirstFree(init, bases[i], first[i]) && names[i] == Candidate(bases[i], first[i])
  }

  ghost predicate AreBases(jobs: seq<Job>, bases: seq<string>) {
    |bases| == |jobs| && forall i :: 0 <= i < |jobs| ==> bases[i] == Base(jobs[i])
  }

  lemma FirstChoices(init: Files, jobs: seq<Job>) returns (bases: seq<string>, first: seq<nat>)
    ensures AreBases(jobs, bases) && Choices(init, bases, first, FirstNames(init, jobs))
  {
    bases := seq(|jobs|, i requires 0 <= i < |jobs| => Base(jobs[i]));
    first := seq(|jobs|, i requires 0 <= i < |jobs| => FirstNumber(init, Base(jobs[i])));
  }

  // ---- different first choices: never ----

  predicate HasChosen(pc: Pc) {
    pc.Chosen? || pc.Writing? || pc.Written?
  }

  predicate HasPublished(pc: Pc) {
    pc.Published? || pc.Recorded?
  }

  predicate UnderWay(pc: Pc) {
    pc.Probing? || HasChosen(pc)
  }

  /** A depositor on course has tried nothing beyond its first free name, and has chosen nothing else. */
  ghost predicate OnCourse(first: nat, name: string, pc: Pc) {
    && (pc.Probing? ==> 1 <= pc.k <= first)
    && (HasChosen(pc) || HasPublished(pc) ==> pc.dest == name)
  }

  /** The message is new, and one of those that are no longer under way has published it. */
  ghost predicate IsNews(names: seq<string>, pcs: seq<Pc>, f: string)
    requires |names| == |pcs|
  {
    exists j :: 0 <= j < |names| && f == names[j] && !UnderWay(pcs[j])
  }

  /** What the files may hold in such a race: the old messages, and of the first choices only their own messages. */
  ghost predicate FilesOnCourse(init: Files, bodies: seq<string>, names: seq<string>, files: Files, pcs: seq<Pc>) {
    && |names| == |pcs| == |bodies|
    && KeepsMessages(init, files)
    && (forall f :: f in files && IsMessageName(f) ==> f in init || IsNews(names, pcs, f))
    && (forall i :: 0 <= i < |names| && names[i] in files ==> files[names[i]] == bodies[i])
    && (forall i :: 0 <= i < |names| && HasPublished(pcs[i]) ==> names[i] in files)
  }

  ghost predicate RaceState(init: Files, bodies: seq<string>, first: seq<nat>, names: seq<string>, w: World) {
    && FilesOnCourse(init, bodies, names, w.files, w.pcs)
    && |first| == |names| && forall i :: 0 <= i < |names| ==> OnCourse(first[i], names[i], w.pcs[i])
  }

  ghost predicate AllNew(init: Files, names: seq<string>) {
    NoDup(names) && forall i :: 0 <= i < |names| ==> names[i] !in init && IsMessageName(names[i])
  }

  /** While a depositor is under way nobody has taken its first choice. */
  lemma StillFree(init: Files, bodies: seq<string>, first: seq<nat>, names: seq<string>, w: World, i: nat)
    requires RaceState(init, bodies, first, names, w) && AllNew(init, names) && i < |names| && UnderWay(w.pcs[i])
    ensures names[i] !in w.files
  {
  }

  ghost predicate SameMessages(before: Files, after: Files) {
    forall f :: IsMessageName(f) ==> (f in after <==> f in before) && (f in before ==> after[f] == before[f])
  }

  /** A step of depositor i that leaves the messages alone. */
  lemma RaceStep(init: Files, bodies: seq<string>, first: seq<nat>, names: seq<string>, w: World, i: nat, t: World)
    requires RaceState(init, bodies, first, names, w) && AllNew(init, names) && i < |names|
    requires SameMessages(w.files, t.files) && |t.pcs| == |w.pcs| && t.pcs == w.pcs[i := t.pcs[i]]
    requires OnCourse(first[i], names[i], t.pcs[i])
    requires UnderWay(t.pcs[i]) ==> UnderWay(w.pcs[i])
    requires HasPublished(t.pcs[i]) ==> HasPublished(w.pcs[i])
    ensures RaceState(init, bodies, first, names, t)
  {
    forall f | f in t.files && IsMessageName(f) && f !in init ensures IsNews(names, t.pcs, f) {
      assert IsNews(names, w.pcs, f);
      var j :| 0 <= j < |names| && f == names[j] && !UnderWay(w.pcs[j]);
      assert !UnderWay(t.pcs[j]);
    }
  }

  /** A probe goes on at names that were taken from the start, and stops at the first one that was not. */
  lemma ProbeStaysOnCourse(init: Files, bases: seq<string>, first: seq<nat>, names: seq<string>, files: Files,
      i: nat, k: nat)
    requires Choices(init, bases, first, names) && i < |names| && 1 <= k <= first[i]
    requires KeepsMessages(init, files) && names[i] !in files
    ensures Candidate(bases[i], k) in files <==> k < first[i]
    ensures k == first[i] ==> Candidate(bases[i], k) == names[i]
  {
    CandidateIsMessageName(bases[i], k);
  }

  lemma ProbeMoves(jobs: seq<Job>, bases: seq<string>, w: World, i: nat)
    requires |w.pcs| == |jobs| && AreBases(jobs, bases) && Enabled(w, Probe(i))
    ensures var t := Apply(jobs, w, Probe(i)); var name := Candidate(bases[i], w.pcs[i].k);
      && t.files == w.files
      && t.pcs == w.pcs[i := if name in w.files then Probing(w.pcs[i].k + 1) else Chosen(name)]
  {
  }

  lemma ProbeRace(init: Files, jobs: seq<Job>, bases: seq<string>, first: seq<nat>, names: seq<string>, w: World,
      i: nat)
    requires |w.pcs| == |jobs| && RaceState(init, Bodies(jobs), first, names, w) && Enabled(w, Probe(i))
    requires AreBases(jobs, bases) && Choices(init, bases, first, names) && AllNew(init, names)
    ensures RaceState(init, Bodies(jobs), first, names, Apply(jobs, w, Probe(i)))
  {
    assert OnCourse(first[i], names[i], w.pcs[i]);
    StillFree(init, Bodies(jobs), first, names, w, i);
    ProbeMoves(jobs, bases, w, i);
    ProbeStaysOnCourse(init, bases, first, names, w.files, i, w.pcs[i].k);
    RaceStep(init, Bodies(jobs), first, names, w, i, Apply(jobs, w, Probe(i)));
  }

  /** A step that leaves the messages alone, and takes its depositor nowhere new. */
  ghost predicate Quiet(w: World, i: nat, t: World)
    requires i < |w.pcs|
  {
    && SameMessages(w.files, t.files) && |t.pcs| == |w.pcs| && t.pcs == w.pcs[i := t.pcs[i]]
    && !t.pcs[i].Probing?
    && (HasChosen(t.pcs[i]) ==> HasChosen(w.pcs[i]) && t.pcs[i].dest == w.pcs[i].dest)
    && (HasPublished(t.pcs[i]) ==> HasPublished(w.pcs[i]) && t.pcs[i].dest == w.pcs[i].dest)
  }

  lemma TempIsNoMessage(files: Files, tmp: string, content: string)
    requires IsTempName(tmp)
    ensures SameMessages(files, files[tmp := content]) && SameMessages(files, files - {tmp})
  {
  }

  lemma MakeTempIsQuiet(jobs: seq<Job>, w: World, i: nat, tmp: string)
    requires Ready(jobs, w, MakeTemp(i, tmp))
    ensures Quiet(w, i, Apply(jobs, w, MakeTemp(i, tmp)))
  {
    TempIsNoMessage(w.files, tmp, "");
  }

  lemma WritePartIsQuiet(jobs: seq<Job>, w: World, i: nat, part: string)
    requires Ready(jobs, w, WritePart(i, part))
    ensures Quiet(w, i, Apply(jobs, w, WritePart(i, part)))
  {
    TempIsNoMessage(w.files, w.pcs[i].tmp, part);
  }

  lemma FinishWriteIsQuiet(jobs: seq<Job>, w: World, i: nat)
    requires Ready(jobs, w, FinishWrite(i))
    ensures Quiet(w, i, Apply(jobs, w, FinishWrite(i)))
  {
    TempIsNoMessage(w.files, w.pcs[i].tmp, Body(jobs[i]));
  }

  lemma AppendIsQuiet(jobs: seq<Job>, w: World, i: nat)
    requires Ready(jobs, w, Append(i))
    ensures Quiet(w, i, Apply(jobs, w, Append(i)))
  {
  }

  lemma FailIsQuiet(jobs: seq<Job>, w: World, i: nat)
    requires Ready(jobs, w, Fail(i))
    ensures Quiet(w, i, Apply(jobs, w, Fail(i)))
  {
    TempIsNoMessage(w.files, w.pcs[i].tmp, "");
  }

  lemma CrashIsQuiet(jobs: seq<Job>, w: World, i: nat)
    requires Ready(jobs, w, Crash(i))
    ensures Quiet(w, i, Apply(jobs, w, Crash(i)))
  {
  }

  lemma StepIsQuiet(jobs: seq<Job>, w: World, step: Step)
    requires Ready(jobs, w, step) && !step.Probe? && !step.Publish?
    ensures Quiet(w, step.i, Apply(jobs, w, step))
  {
    match step
    case MakeTemp(i, tmp) => MakeTempIsQuiet(jobs, w, i, tmp);
    case WritePart(i, part) => WritePartIsQuiet(jobs, w, i, part);
    case FinishWrite(i) => FinishWriteIsQuiet(jobs, w, i);
    case Append(i) => AppendIsQuiet(jobs, w, i);
    case Fail(i) => FailIsQuiet(jobs, w, i);
    case Crash(i) => CrashIsQuiet(jobs, w, i);
  }

  lemma PublishMoves(jobs: seq<Job>, w: World, i: nat)
    requires Ready(jobs, w, Publish(i))
    ensures var t := Apply(jobs, w, Publish(i)); var dest := w.pcs[i].dest;
      && t.pcs == w.pcs[i := Published(dest)] && dest in t.files && t.files[dest] == Body(jobs[i])
      && (forall f :: IsMessageName(f) && f != dest ==> (f in t.files <==> f in w.files))
      && (forall f :: IsMessageName(f) && f != dest && f in w.files ==> t.files[f] == w.files[f])
  {
  }

  lemma PublishRace(init: Files, jobs: seq<Job>, first: seq<nat>, names: seq<string>, w: World, i: nat)
    requires Inv(init, jobs, w) && RaceState(init, Bodies(jobs), first, names, w) && AllNew(init, names)
    requires Enabled(w, Publish(i))
    ensures RaceState(init, Bodies(jobs), first, names, Apply(jobs, w, Publish(i))) && !Overwrites(w, i)
  {
    var t := Apply(jobs, w, Publish(i));
    assert OnCourse(first[i], names[i], w.pcs[i]);
    StillFree(init, Bodies(jobs), first, names, w, i);
    assert Ready(jobs, w, Publish(i));
    PublishMoves(jobs, w, i);
    PublishedOnCourse(init, Bodies(jobs), names, w, i, t);
  }

  lemma PublishedOnCourse(init: Files, bodies: seq<string>, names: seq<string>, w: World, i: nat, t: World)
    requires FilesOnCourse(init, bodies, names, w.files, w.pcs) && AllNew(init, names)
    requires i < |names| && t.pcs == w.pcs[i := Published(names[i])]
    requires names[i] in t.files && t.files[names[i]] == bodies[i]
    requires forall f :: IsMessageName(f) && f != names[i] ==> (f in t.files <==> f in w.files)
    requires forall f :: IsMessageName(f) && f != names[i] && f in w.files ==> t.files[f] == w.files[f]
    ensures FilesOnCourse(init, bodies, names, t.files, t.pcs)
  {
    forall f | f in t.files && IsMessageName(f) && f !in init ensures IsNews(names, t.pcs, f) {
      if f == names[i] {
        assert !UnderWay(t.pcs[i]);
      } else {
        var j :| 0 <= j < |names| && f == names[j] && !UnderWay(w.pcs[j]);
        assert !UnderWay(t.pcs[j]);
      }
    }
  }

  lemma ApplyRace(init: Files, jobs: seq<Job>, bases: seq<string>, first: seq<nat>, names: seq<string>, w: World,
      step: Step)
    requires Inv(init, jobs, w) && RaceState(init, Bodies(jobs), first, names, w) && Enabled(w, step)
    requires AreBases(jobs, bases) && Choices(init, bases, first, names) && AllNew(init, names)
    ensures RaceState(init, Bodies(jobs), first, names, Apply(jobs, w, step))
  {
    if step.Probe? {
      ProbeRace(init, jobs, bases, first, names, w, step.i);
    } else if step.Publish? {
      PublishRace(init, jobs, first, names, w, step.i);
    } else {
      assert OnCourse(first[step.i], names[step.i], w.pcs[step.i]);
      assert Ready(jobs, w, step);
      StepIsQuiet(jobs, w, step);
      RaceStep(init, Bodies(jobs), first, names, w, step.i, Apply(jobs, w, step));
    }
  }

  lemma {:induction false} RaceExec(init: Files, jobs: seq<Job>, bases: seq<string>, first: seq<nat>,
      names: seq<string>, w: World, steps: seq<Step>)
    requires Inv(init, jobs, w) && RaceState(init, Bodies(jobs), first, names, w) && Allowed(jobs, w, steps)
    requires AreBases(jobs, bases) && Choices(init, bases, first, names) && AllNew(init, names)
    ensures Inv(init, jobs, Exec(jobs, w, steps)) && RaceState(init, Bodies(jobs), first, names, Exec(jobs, w, steps))
    decreases |steps|
  {
    if steps != [] {
      Depositors.ApplyKeeps(init, jobs, w, steps[0]);
      ApplyRace(init, jobs, bases, first, names, w, steps[0]);
      RaceExec(init, jobs, bases, first, names, Apply(jobs, w, steps[0]), steps[1..]);
    }
  }

  lemma ChoicesAreNew(init: Files, bases: seq<string>, first: seq<nat>, names: seq<string>)
    requires Choices(init, bases, first, names) && NoDup(names)
    ensures AllNew(init, names)
  {
    forall i | 0 <= i < |names| ensures IsMessageName(names[i]) {
      CandidateIsMessageName(bases[i], first[i]);
    }
  }

  lemma StartsOnCourse(init: Files, stream: seq<Row>, jobs: seq<Job>, bases: seq<string>, first: seq<nat>,
      names: seq<string>)
    requires |names| == |jobs| && Choices(init, bases, first, names) && AllNew(init, names)
    ensures RaceState(init, Bodies(jobs), first, names, Begin(init, stream, jobs))
  {
  }

  lemma ReachedOnCourse(init: Files, stream: seq<Row>, jobs: seq<Job>, w: World) returns (first: seq<nat>)
    requires (forall r :: r in stream ==> IsMessageName(r.name) && r.name in init) && NoDup(FirstNames(init, jobs))
    requires Reachable(jobs, Begin(init, stream, jobs), w)
    ensures Inv(init, jobs, w) && AllNew(init, FirstNames(init, jobs))
    ensures RaceState(init, Bodies(jobs), first, FirstNames(init, jobs), w)
  {
    var start, names := Begin(init, stream, jobs), FirstNames(init, jobs);
    var bases;
    bases, first := FirstChoices(init, jobs);
    ChoicesAreNew(init, bases, first, names);
    BeginInv(init, stream, jobs);
    StartsOnCourse(init, stream, jobs, bases, first, names);
    var steps :| Allowed(jobs, start, steps) && Exec(jobs, start, steps) == w;
    RaceExec(init, jobs, bases, first, names, start, steps);
  }

  lemma NeverOverwrites(init: Files, stream: seq<Row>, jobs: seq<Job>)
    requires forall r :: r in stream ==> IsMessageName(r.name) && r.name in init
    requires NoDup(FirstNames(init, jobs))
    ensures !CanOverwrite(jobs, Begin(init, stream, jobs))
  {
    if w, i :| Reachable(jobs, Begin(init, stream, jobs), w) && Overwrites(w, i) {
      var first := ReachedOnCourse(init, stream, jobs, w);
      PublishRace(init, jobs, first, FirstNames(init, jobs), w, i);
    }
  }

  // ---- the same first choice: it can happen ----

  function TempName(k: nat): string {
    ".obtnet_msg_" + Decimal(k)
  }

  lemma TempNamesDiffer(j: nat, k: nat)
    requires j != k
    ensures TempName(j) != TempName(k)
  {
    DecimalReadsBack(j);
    DecimalReadsBack(k);
    assert TempName(j)[|".obtnet_msg_"|..] == Decimal(j) && TempName(k)[|".obtnet_msg_"|..] == Decimal(k);
  }

  lemma TempNameIsTemp(k: nat)
    ensures IsTempName(TempName(k))
  {
    var name, d := TempName(k), Decimal(k);
    assert name[|name| - 1] == d[|d| - 1] != 'd';
    assert ".md"[2] == 'd';
  }

  /** mkstemp finds a name: a finite inbox cannot hold them all. */
  lemma FreshTemp(files: Files) returns (tmp: string)
    ensures IsTempName(tmp) && tmp !in files
  {
    var names := seq(|files| + 1, i requires 0 <= i => TempName(i));
    forall i, j | 0 <= i < j < |names| ensures names[i] != names[j] {
      TempNamesDiffer(i, j);
    }
    assert |files.Keys| == |files|;
    if forall n :: n in names ==> n in files.Keys {
      NoDupBound(names, files.Keys);
    }
    tmp :| tmp in names && tmp !in files;
    var k :| 0 <= k < |names| && names[k] == tmp;
    TempNameIsTemp(k);
  }

  lemma {:induction false} ProbeUntil(jobs: seq<Job>, start: World, w: World, i: nat, k: nat) returns (t: World)
    requires |start.pcs| == |jobs| == |w.pcs| && i < |jobs| && Reachable(jobs, start, w)
    requires w.pcs[i].Probing? && 1 <= w.pcs[i].k <= k && IsFirstFree(w.files, Base(jobs[i]), k)
    ensures Reachable(jobs, start, t) && t == w.(pcs := w.pcs[i := Chosen(Candidate(Base(jobs[i]), k))])
    decreases k - w.pcs[i].k
  {
    var next := Apply(jobs, w, Probe(i));
    ReachOneMore(jobs, start, w, Probe(i));
    if w.pcs[i].k == k {
      t := next;
    } else {
      t := ProbeUntil(jobs, start, next, i, k);
    }
  }

  lemma WriteAll(jobs: seq<Job>, start: World, w: World, i: nat, tmp: string) returns (t: World)
    requires |start.pcs| == |jobs| == |w.pcs| && i < |jobs| && Reachable(jobs, start, w)
    requires w.pcs[i].Chosen? && IsTempName(tmp) && tmp !in w.files
    ensures Reachable(jobs, start, t)
    ensures t == World(w.files[tmp := Body(jobs[i])], w.stream, w.pcs[i := Written(w.pcs[i].dest, tmp)])
  {
    ReachOneMore(jobs, start, w, MakeTemp(i, tmp));
    var v := Apply(jobs, w, MakeTemp(i, tmp));
    ReachOneMore(jobs, start, v, FinishWrite(i));
    t := Apply(jobs, v, FinishWrite(i));
    SetTwice(w.files, tmp, "", Body(jobs[i]));
    PutTwice(w.pcs, i, Writing(w.pcs[i].dest, tmp), Written(w.pcs[i].dest, tmp));
  }

  lemma BothChosen(init: Files, stream: seq<Row>, jobs: seq<Job>, i: nat, j: nat) returns (w: World)
    requires i < j < |jobs|
    ensures Reachable(jobs, Begin(init, stream, jobs), w) && w.files == init && |w.pcs| == |jobs|
    ensures w.pcs[i] == Chosen(FirstNames(init, jobs)[i]) && w.pcs[j] == Chosen(FirstNames(init, jobs)[j])
  {
    var start := Begin(init, stream, jobs);
    assert Allowed(jobs, start, []) && Exec(jobs, start, []) == start;
    w := ProbeUntil(jobs, start, start, i, FirstNumber(init, Base(jobs[i])));
    w := ProbeUntil(jobs, start, w, j, FirstNumber(init, Base(jobs[j])));
  }

  /** Both have written their whole message to files of their own, and are about to publish under the same name. */
  ghost predicate AboutToClash(jobs: seq<Job>, w: World, i: nat, j: nat, dest: string, one: string, two: string) {
    && i < j < |jobs| == |w.pcs| && IsMessageName(dest) && IsTempName(one) && IsTempName(two) && one != two
    && w.pcs[i] == Written(dest, one) && w.pcs[j] == Written(dest, two)
    && one in w.files && two in w.files && w.files[two] == Body(jobs[j])
  }

  lemma BothWritten(jobs: seq<Job>, start: World, v: World, i: nat, j: nat, dest: string)
      returns (w: World, one: string, two: string)
    requires |start.pcs| == |jobs| && Reachable(jobs, start, v) && i < j < |jobs| == |v.pcs| && IsMessageName(dest)
    requires v.pcs[i] == Chosen(dest) && v.pcs[j] == Chosen(dest)
    ensures Reachable(jobs, start, w) && AboutToClash(jobs, w, i, j, dest, one, two)
  {
    one := FreshTemp(v.files);
    var u := WriteAll(jobs, start, v, i, one);
    two := FreshTemp(u.files);
    w := WriteAll(jobs, start, u, j, two);
  }

  lemma Clash(init: Files, stream: seq<Row>, jobs: seq<Job>, i: nat, j: nat)
      returns (w: World, dest: string, one: string, two: string)
    requires i < j < |jobs| && FirstNames(init, jobs)[i] == FirstNames(init, jobs)[j]
    ensures Reachable(jobs, Begin(init, stream, jobs), w) && AboutToClash(jobs, w, i, j, dest, one, two)
  {
    dest := FirstNames(init, jobs)[i];
    CandidateIsMessageName(Base(jobs[i]), FirstNumber(init, Base(jobs[i])));
    var v := BothChosen(init, stream, jobs, i, j);
    w, one, two := BothWritten(jobs, Begin(init, stream, jobs), v, i, j, dest);
  }

  lemma FirstPublish(jobs: seq<Job>, w: World, i: nat, j: nat, dest: string, one: string, two: string)
    requires AboutToClash(jobs, w, i, j, dest, one, two)
    ensures Enabled(w, Publish(i))
    ensures var t := Apply(jobs, w, Publish(i));
      t.pcs == w.pcs[i := Published(dest)] && dest in t.files && two in t.files && t.files[two] == w.files[two]
  {
  }

  lemma ClashOverwrites(jobs: seq<Job>, w: World, i: nat, j: nat, dest: string, one: string, two: string)
    requires AboutToClash(jobs, w, i, j, dest, one, two)
    ensures Enabled(w, Publish(i)) && Overwrites(Apply(jobs, w, Publish(i)), j)
  {
    FirstPublish(jobs, w, i, j, dest, one, two);
  }

  lemma SameChoiceOverwrites(init: Files, stream: seq<Row>, jobs: seq<Job>, i: nat, j: nat)
    requires i < j < |jobs| && FirstNames(init, jobs)[i] == FirstNames(init, jobs)[j]
    ensures CanOverwrite(jobs, Begin(init, stream, jobs))
  {
    var start := Begin(init, stream, jobs);
    var w, dest, one, two := Clash(init, stream, jobs, i, j);
    ClashOverwrites(jobs, w, i, j, dest, one, two);
    ReachOneMore(jobs, start, w, Publish(i));
  }

  /**
   Any number of depositors that start together can overwrite one another's messages exactly when two of them have
   the same first free name.
   */
  lemma OverwriteIffSameFirstChoice(init: Files, stream: seq<Row>, jobs: seq<Job>)
    requires forall r :: r in stream ==> IsMessageName(r.name) && r.name in init
    ensures CanOverwrite(jobs, Begin(init, stream, jobs))
       <==> exists i, j :: 0 <= i < j < |jobs| && FirstNames(init, jobs)[i] == FirstNames(init, jobs)[j]
  {
    if i, j :| 0 <= i < j < |jobs| && FirstNames(init, jobs)[i] == FirstNames(init, jobs)[j] {
      SameChoiceOverwrites(init, stream, jobs, i, j);
    } else {
      NeverOverwrites(init, stream, jobs);
    }
  }

  // ---- what a depositor finds under the name it returned ----

  ghost predicate HoldsOwn(jobs: seq<Job>, w: World, i: nat)
    requires i < |jobs| == |w.pcs|
  {
    w.pcs[i].Recorded? ==> w.pcs[i].dest in w.files && w.files[w.pcs[i].dest] == Body(jobs[i])
  }

  /** Whenever a deposit has completed, its file is there with its own message in it. */
  ghost predicate AllHoldOwn(jobs: seq<Job>, start: World)
    requires |start.pcs| == |jobs|
  {
    forall w, i :: Reachable(jobs, start, w) && 0 <= i < |jobs| == |w.pcs| ==> HoldsOwn(jobs, w, i)
  }

  lemma SecondPublish(jobs: seq<Job>, v: World, i: nat, j: nat, dest: string, two: string)
    requires i < j < |jobs| == |v.pcs| && v.pcs[i] == Recorded(dest) && v.pcs[j] == Written(dest, two)
    requires two in v.files && v.files[two] == Body(jobs[j]) && Body(jobs[i]) != Body(jobs[j])
    ensures Enabled(v, Publish(j)) && |Apply(jobs, v, Publish(j)).pcs| == |jobs|
    ensures !HoldsOwn(jobs, Apply(jobs, v, Publish(j)), i)
  {
    var t := Apply(jobs, v, Publish(j));
    assert t.pcs[i] == Recorded(dest) && t.files[dest] == Body(jobs[j]);
  }

  lemma SameChoiceLosesMessage(init: Files, stream: seq<Row>, jobs: seq<Job>, i: nat, j: nat)
    requires i < j < |jobs| && FirstNames(init, jobs)[i] == FirstNames(init, jobs)[j] && Body(jobs[i]) != Body(jobs[j])
    ensures !AllHoldOwn(jobs, Begin(init, stream, jobs))
  {
    var start := Begin(init, stream, jobs);
    var w, dest, one, two := Clash(init, stream, jobs, i, j);
    FirstPublish(jobs, w, i, j, dest, one, two);
    ReachOneMore(jobs, start, w, Publish(i));
    var u := Apply(jobs, w, Publish(i));
    ReachOneMore(jobs, start, u, Append(i));
    var v := Apply(jobs, u, Append(i));
    SecondPublish(jobs, v, i, j, dest, two);
    ReachOneMore(jobs, start, v, Publish(j));
  }

  lemma OnCourseHoldsOwn(init: Files, jobs: seq<Job>, first: seq<nat>, names: seq<string>, w: World, i: nat)
    requires RaceState(init, Bodies(jobs), first, names, w) && i < |jobs| == |w.pcs|
    ensures HoldsOwn(jobs, w, i)
  {
    assert OnCourse(first[i], names[i], w.pcs[i]);
  }

  /** Deposits of different messages all keep their own exactly when no two of them have the same first free name. */
  lemma OwnMessageIffDifferentFirstChoices(init: Files, stream: seq<Row>, jobs: seq<Job>)
    requires forall r :: r in stream ==> IsMessageName(r.name) && r.name in init
    requires NoDup(Bodies(jobs))
    ensures AllHoldOwn(jobs, Begin(init, stream, jobs)) <==> NoDup(FirstNames(init, jobs))
  {
    var start, names := Begin(init, stream, jobs), FirstNames(init, jobs);
    if NoDup(names) {
      forall w, i | Reachable(jobs, start, w) && 0 <= i < |jobs| == |w.pcs| ensures HoldsOwn(jobs, w, i) {
        var first := ReachedOnCourse(init, stream, jobs, w);
        OnCourseHoldsOwn(init, jobs, first, names, w, i);
      }
    } else {
      var i, j :| 0 <= i < j < |names| && names[i] == names[j];
      assert Bodies(jobs)[i] != Bodies(jobs)[j];
      SameChoiceLosesMessage(init, stream, jobs, i, j);
    }
  }
}
