/** Several depositors working on one inbox at the same time, any of which may fail or crash between two steps. */
module Depositors {
  import opened Deposit

  datatype Row = Row(ts: string, sender: string, subject: string, name: string)

  /** The record a deposit leaves of its file. */
  function RowFor(j: Job, name: string): Row {
    Row(Stamp(j), Sender(j), Subject(j), name)
  }

  /** How far one depositor has come. */
  datatype Pc =
    | Probing(k: nat)
    | Chosen(dest: string)
    | Writing(dest: string, tmp: string)
    | Written(dest: string, tmp: string)
    | Published(dest: string)
    | Recorded(dest: string)
    | Gone

  datatype World = World(files: Files, stream: seq<Row>, pcs: seq<Pc>)

  datatype Step =
    | Probe(i: nat)
    | MakeTemp(i: nat, tmp: string)
    | WritePart(i: nat, part: string)
    | FinishWrite(i: nat)
    | Publish(i: nat)
    | Append(i: nat)
    | Fail(i: nat)
    | Crash(i: nat)

  ghost function Begin(init: Files, stream: seq<Row>, jobs: seq<Job>): World {
    World(init, stream, seq(|jobs|, i => Probing(1)))
  }

  ghost predicate Enabled(w: World, step: Step) {
    step.i < |w.pcs| &&
    match step
    case Probe(i) => w.pcs[i].Probing?
    case MakeTemp(i, tmp) => w.pcs[i].Chosen? && IsTempName(tmp) && tmp !in w.files
    case WritePart(i, part) => w.pcs[i].Writing?
    case FinishWrite(i) => w.pcs[i].Writing?
    case Publish(i) => w.pcs[i].Written? && w.pcs[i].tmp in w.files
    case Append(i) => w.pcs[i].Published?
    case Fail(i) => w.pcs[i].Writing? || w.pcs[i].Written?
    case Crash(i) => true
  }

  ghost function Apply(jobs: seq<Job>, w: World, step: Step): World
    requires |w.pcs| == |jobs| && Enabled(w, step)
  {
    var i := step.i;
    var j, pc := jobs[i], w.pcs[i];
    match step
    case Probe(_) =>
      var name := Candidate(Base(j), pc.k);
      w.(pcs := w.pcs[i := if name in w.files then Probing(pc.k + 1) else Chosen(name)])
    case MakeTemp(_, tmp) => w.(files := w.files[tmp := ""], pcs := w.pcs[i := Writing(pc.dest, tmp)])
    case WritePart(_, part) => w.(files := w.files[pc.tmp := part])
    case FinishWrite(_) => w.(files := w.files[pc.tmp := Body(j)], pcs := w.pcs[i := Written(pc.dest, pc.tmp)])
    case Publish(_) =>
      w.(files := (w.files - {pc.tmp})[pc.dest := w.files[pc.tmp]], pcs := w.pcs[i := Published(pc.dest)])
    case Append(_) => w.(stream := w.stream + [RowFor(j, pc.dest)], pcs := w.pcs[i := Recorded(pc.dest)])
    case Fail(_) => w.(files := w.files - {pc.tmp}, pcs := w.pcs[i := Gone])
    case Crash(_) => w.(pcs := w.pcs[i := Gone])
  }

  ghost predicate Allowed(jobs: seq<Job>, w: World, steps: seq<Step>)
    requires |w.pcs| == |jobs|
    decreases |steps|
  {
    steps == [] || (Enabled(w, steps[0]) && Allowed(jobs, Apply(jobs, w, steps[0]), steps[1..]))
  }

  ghost function Exec(jobs: seq<Job>, w: World, steps: seq<Step>): World
    requires |w.pcs| == |jobs| && Allowed(jobs, w, steps)
    decreases |steps|
  {
    if steps == [] then w else Exec(jobs, Apply(jobs, w, steps[0]), steps[1..])
  }

  // ---- what every step keeps ----

  predicate HasTemp(pc: Pc) {
    pc.Writing? || pc.Written?
  }

  /** The deposit may use this name: it is one its collision loop tries. */
  ghost predicate AsksFor(j: Job, name: string) {
    IsMessageName(name) && exists k :: name == Candidate(Base(j), k)
  }

  ghost predicate PcOk(files: Files, j: Job, pc: Pc) {
    match pc
    case Probing(k) => k >= 1
    case Chosen(dest) => AsksFor(j, dest)
    case Writing(dest, tmp) => AsksFor(j, dest) && IsTempName(tmp) && tmp in files
    case Written(dest, tmp) => AsksFor(j, dest) && IsTempName(tmp) && tmp in files && files[tmp] == Body(j)
    case Published(dest) => AsksFor(j, dest) && dest in files
    case Recorded(dest) => AsksFor(j, dest) && dest in files
    case Gone => true
  }

  ghost predicate IsDeposit(j: Job, name: string, content: string) {
    AsksFor(j, name) && content == Body(j)
  }

  /** A message that was there at the start, or the whole body of a deposit that may use this name. */
  ghost predicate WholeMessage(init: Files, jobs: seq<Job>, name: string, content: string) {
    (name in init && init[name] == content) || exists i :: 0 <= i < |jobs| && IsDeposit(jobs[i], name, content)
  }

  ghost predicate Inv(init: Files, jobs: seq<Job>, w: World) {
    && |w.pcs| == |jobs|
    && (forall i :: 0 <= i < |jobs| ==> PcOk(w.files, jobs[i], w.pcs[i]))
    && (forall i, j :: 0 <= i < j < |jobs| && HasTemp(w.pcs[i]) && HasTemp(w.pcs[j]) ==> w.pcs[i].tmp != w.pcs[j].tmp)
    && (forall f :: f in w.files && IsMessageName(f) ==> WholeMessage(init, jobs, f, w.files[f]))
    && (forall r :: r in w.stream ==> IsMessageName(r.name) && r.name in w.files)
  }

  /** Message files never go away. */
  ghost predicate KeepsMessages(before: Files, after: Files) {
    forall f :: f in before && IsMessageName(f) ==> f in after
  }

  lemma BeginInv(init: Files, stream: seq<Row>, jobs: seq<Job>)
    requires forall r :: r in stream ==> IsMessageName(r.name) && r.name in init
    ensures Inv(init, jobs, Begin(init, stream, jobs))
  {
  }

  /** A depositor whose temporary file is not touched keeps its standing. */
  lemma OthersOk(before: Files, after: Files, j: Job, pc: Pc)
    requires PcOk(before, j, pc) && KeepsMessages(before, after)
    requires HasTemp(pc) ==> pc.tmp in after && after[pc.tmp] == before[pc.tmp]
    ensures PcOk(after, j, pc)
  {
  }

  /** What a step of depositor i must respect. */
  ghost predicate Careful(jobs: seq<Job>, w: World, i: nat, t: World)
    requires i < |jobs| == |w.pcs|
  {
    && |t.pcs| == |w.pcs| && t.pcs == w.pcs[i := t.pcs[i]]
    && KeepsMessages(w.files, t.files)
    && PcOk(t.files, jobs[i], t.pcs[i])
    && (forall f :: f in w.files && IsTempName(f) && !(HasTemp(w.pcs[i]) && f == w.pcs[i].tmp) ==>
          f in t.files && t.files[f] == w.files[f])
    && (HasTemp(t.pcs[i]) ==> (HasTemp(w.pcs[i]) && t.pcs[i].tmp == w.pcs[i].tmp) || t.pcs[i].tmp !in w.files)
    && (forall f :: f in t.files && IsMessageName(f) ==>
          (f in w.files && t.files[f] == w.files[f]) || IsDeposit(jobs[i], f, t.files[f]))
    && (forall r :: r in t.stream ==> r in w.stream || (IsMessageName(r.name) && r.name in w.files))
  }

  lemma CarefulPcs(init: Files, jobs: seq<Job>, w: World, i: nat, t: World)
    requires Inv(init, jobs, w) && i < |jobs| && Careful(jobs, w, i, t)
    ensures forall j :: 0 <= j < |jobs| ==> PcOk(t.files, jobs[j], t.pcs[j])
    ensures forall a, b :: 0 <= a < b < |jobs| && HasTemp(t.pcs[a]) && HasTemp(t.pcs[b]) ==>
              t.pcs[a].tmp != t.pcs[b].tmp
  {
    forall j | 0 <= j < |jobs| ensures PcOk(t.files, jobs[j], t.pcs[j]) {
      assert PcOk(w.files, jobs[j], w.pcs[j]);
      if j != i {
        OthersOk(w.files, t.files, jobs[j], w.pcs[j]);
      }
    }
    forall a, b | 0 <= a < b < |jobs| && HasTemp(t.pcs[a]) && HasTemp(t.pcs[b]) ensures t.pcs[a].tmp != t.pcs[b].tmp {
      assert PcOk(w.files, jobs[a], w.pcs[a]) && PcOk(w.files, jobs[b], w.pcs[b]);
    }
  }

  lemma CarefulKeeps(init: Files, jobs: seq<Job>, w: World, i: nat, t: World)
    requires Inv(init, jobs, w) && i < |jobs| && Careful(jobs, w, i, t)
    ensures Inv(init, jobs, t)
  {
    CarefulPcs(init, jobs, w, i, t);
    forall f | f in t.files && IsMessageName(f) ensures WholeMessage(init, jobs, f, t.files[f]) {
      assert f in w.files ==> WholeMessage(init, jobs, f, w.files[f]);
    }
  }

  /** Only the depositor's own counter has moved. */
  lemma OnlyPcMoves(jobs: seq<Job>, w: World, i: nat, pc: Pc)
    requires |w.pcs| == |jobs| && i < |jobs| && PcOk(w.files, jobs[i], pc) && !HasTemp(pc)
    ensures Careful(jobs, w, i, w.(pcs := w.pcs[i := pc]))
  {
  }

  ghost predicate Ready(jobs: seq<Job>, w: World, step: Step) {
    |w.pcs| == |jobs| && Enabled(w, step) && PcOk(w.files, jobs[step.i], w.pcs[step.i])
  }

  lemma {:induction false} ProbeIsCareful(jobs: seq<Job>, w: World, i: nat)
    requires Ready(jobs, w, Probe(i))
    ensures Careful(jobs, w, i, Apply(jobs, w, Probe(i)))
  {
    CandidateIsMessageName(Base(jobs[i]), w.pcs[i].k);
    OnlyPcMoves(jobs, w, i, Apply(jobs, w, Probe(i)).pcs[i]);
  }

  lemma OneFileChanges(before: Files, tmp: string, content: string)
    requires IsTempName(tmp)
    ensures var after := before[tmp := content];
      && KeepsMessages(before, after)
      && (forall f :: f in before && f != tmp ==> f in after && after[f] == before[f])
      && (forall f :: f in after && IsMessageName(f) ==> f in before && after[f] == before[f])
  {
  }

  /** Only the depositor's own temporary file changes. */
  lemma TempChanges(jobs: seq<Job>, w: World, i: nat, tmp: string, content: string, next: Pc)
    requires |w.pcs| == |jobs| && i < |jobs| && PcOk(w.files, jobs[i], w.pcs[i]) && IsTempName(tmp)
    requires HasTemp(next) && next.tmp == tmp && PcOk(w.files[tmp := content], jobs[i], next)
    requires (HasTemp(w.pcs[i]) && w.pcs[i].tmp == tmp) || tmp !in w.files
    ensures Careful(jobs, w, i, World(w.files[tmp := content], w.stream, w.pcs[i := next]))
  {
    OneFileChanges(w.files, tmp, content);
  }

  lemma MakeTempIsCareful(jobs: seq<Job>, w: World, i: nat, tmp: string)
    requires Ready(jobs, w, MakeTemp(i, tmp))
    ensures Careful(jobs, w, i, Apply(jobs, w, MakeTemp(i, tmp)))
  {
    TempChanges(jobs, w, i, tmp, "", Writing(w.pcs[i].dest, tmp));
  }

  lemma WritePartIsCareful(jobs: seq<Job>, w: World, i: nat, part: string)
    requires Ready(jobs, w, WritePart(i, part))
    ensures Careful(jobs, w, i, Apply(jobs, w, WritePart(i, part)))
  {
    TempChanges(jobs, w, i, w.pcs[i].tmp, part, w.pcs[i]);
    assert w.pcs[i := w.pcs[i]] == w.pcs;
  }

  lemma FinishIsCareful(jobs: seq<Job>, w: World, i: nat)
    requires Ready(jobs, w, FinishWrite(i))
    ensures Careful(jobs, w, i, Apply(jobs, w, FinishWrite(i)))
  {
    TempChanges(jobs, w, i, w.pcs[i].tmp, Body(jobs[i]), Written(w.pcs[i].dest, w.pcs[i].tmp));
  }

  lemma OneFileMoves(before: Files, tmp: string, dest: string, content: string)
    requires IsTempName(tmp) && IsMessageName(dest)
    ensures var after := (before - {tmp})[dest := content];
      && KeepsMessages(before, after)
      && (forall f :: f in before && IsTempName(f) && f != tmp ==> f in after && after[f] == before[f])
      && (forall f :: f in after && f != dest ==> f in before && after[f] == before[f])
      && after[dest] == content
  {
  }

  /** Depositor i's temporary file becomes a message. */
  lemma FilePublished(jobs: seq<Job>, w: World, i: nat, dest: string, tmp: string, content: string, t: World)
    requires |w.pcs| == |jobs| && i < |jobs| && HasTemp(w.pcs[i]) && w.pcs[i].tmp == tmp && IsTempName(tmp)
    requires IsDeposit(jobs[i], dest, content)
    requires t == World((w.files - {tmp})[dest := content], w.stream, w.pcs[i := Published(dest)])
    ensures Careful(jobs, w, i, t)
  {
    OneFileMoves(w.files, tmp, dest, content);
  }

  lemma PublishIsCareful(jobs: seq<Job>, w: World, i: nat)
    requires Ready(jobs, w, Publish(i))
    ensures Careful(jobs, w, i, Apply(jobs, w, Publish(i)))
  {
    var dest, tmp := w.pcs[i].dest, w.pcs[i].tmp;
    FilePublished(jobs, w, i, dest, tmp, w.files[tmp], Apply(jobs, w, Publish(i)));
  }

  /** Depositor i moves on, and a message that is there is recorded. */
  lemma RecordMoves(jobs: seq<Job>, w: World, i: nat, pc: Pc, r: Row, t: World)
    requires |w.pcs| == |jobs| && i < |jobs| && PcOk(w.files, jobs[i], pc) && !HasTemp(pc)
    requires IsMessageName(r.name) && r.name in w.files
    requires t == World(w.files, w.stream + [r], w.pcs[i := pc])
    ensures Careful(jobs, w, i, t)
  {
  }

  lemma AppendIsCareful(jobs: seq<Job>, w: World, i: nat)
    requires Ready(jobs, w, Append(i))
    ensures Careful(jobs, w, i, Apply(jobs, w, Append(i)))
  {
    var dest := w.pcs[i].dest;
    RecordMoves(jobs, w, i, Recorded(dest), RowFor(jobs[i], dest), Apply(jobs, w, Append(i)));
  }

  lemma FailIsCareful(jobs: seq<Job>, w: World, i: nat)
    requires Ready(jobs, w, Fail(i))
    ensures Careful(jobs, w, i, Apply(jobs, w, Fail(i)))
  {
  }

  lemma CrashIsCareful(jobs: seq<Job>, w: World, i: nat)
    requires Ready(jobs, w, Crash(i))
    ensures Careful(jobs, w, i, Apply(jobs, w, Crash(i)))
  {
    OnlyPcMoves(jobs, w, i, Gone);
  }

  lemma StepIsCareful(init: Files, jobs: seq<Job>, w: World, step: Step)
    requires Inv(init, jobs, w) && Enabled(w, step)
    ensures Careful(jobs, w, step.i, Apply(jobs, w, step))
  {
    assert Ready(jobs, w, step);
    match step {
      case Probe(i) => ProbeIsCareful(jobs, w, i);
      case MakeTemp(i, tmp) => MakeTempIsCareful(jobs, w, i, tmp);
      case WritePart(i, part) => WritePartIsCareful(jobs, w, i, part);
      case FinishWrite(i) => FinishIsCareful(jobs, w, i);
      case Publish(i) => PublishIsCareful(jobs, w, i);
      case Append(i) => AppendIsCareful(jobs, w, i);
      case Fail(i) => FailIsCareful(jobs, w, i);
      case Crash(i) => CrashIsCareful(jobs, w, i);
    }
  }

  lemma ApplyKeeps(init: Files, jobs: seq<Job>, w: World, step: Step)
    requires Inv(init, jobs, w) && Enabled(w, step)
    ensures Inv(init, jobs, Apply(jobs, w, step)) && KeepsMessages(w.files, Apply(jobs, w, step).files)
  {
    StepIsCareful(init, jobs, w, step);
    CarefulKeeps(init, jobs, w, step.i, Apply(jobs, w, step));
  }

  lemma {:induction false} ExecKeeps(init: Files, jobs: seq<Job>, w: World, steps: seq<Step>)
    requires Inv(init, jobs, w) && Allowed(jobs, w, steps)
    ensures Inv(init, jobs, Exec(jobs, w, steps)) && KeepsMessages(w.files, Exec(jobs, w, steps).files)
    decreases |steps|
  {
    if steps != [] {
      ApplyKeeps(init, jobs, w, steps[0]);
      ExecKeeps(init, jobs, Apply(jobs, w, steps[0]), steps[1..]);
    }
  }

  // ---- what the records say ----

  ghost predicate IsRecordOf(jobs: seq<Job>, r: Row) {
    exists i :: 0 <= i < |jobs| && AsksFor(jobs[i], r.name)
      && r.ts == Stamp(jobs[i]) && r.sender == Sender(jobs[i]) && r.subject == Subject(jobs[i])
  }

  lemma StreamGrows(init: Files, jobs: seq<Job>, w: World, step: Step)
    requires Inv(init, jobs, w) && Enabled(w, step)
    ensures forall r :: r in Apply(jobs, w, step).stream ==> r in w.stream || IsRecordOf(jobs, r)
  {
    assert PcOk(w.files, jobs[step.i], w.pcs[step.i]);
    if step.Append? {
      assert IsRecordOf(jobs, RowFor(jobs[step.i], w.pcs[step.i].dest));
    }
  }

  lemma {:induction false} RecordsAreTrue(init: Files, jobs: seq<Job>, w: World, steps: seq<Step>)
    requires Inv(init, jobs, w) && Allowed(jobs, w, steps)
    ensures forall r :: r in Exec(jobs, w, steps).stream ==> r in w.stream || IsRecordOf(jobs, r)
    decreases |steps|
  {
    if steps != [] {
      StreamGrows(init, jobs, w, steps[0]);
      ApplyKeeps(init, jobs, w, steps[0]);
      RecordsAreTrue(init, jobs, Apply(jobs, w, steps[0]), steps[1..]);
    }
  }

  /**
   Whatever the interleaving and wherever depositors crash: each record in the stream names a file in the inbox, and
   holds the fields of a deposit that may use that name; and each message file is whole, and its deposit's own.
   */
  lemma StreamNeverAhead(init: Files, stream: seq<Row>, jobs: seq<Job>, steps: seq<Step>)
    requires forall r :: r in stream ==> IsMessageName(r.name) && r.name in init
    requires Allowed(jobs, Begin(init, stream, jobs), steps)
    ensures var w := Exec(jobs, Begin(init, stream, jobs), steps);
      && (forall r :: r in w.stream ==> r.name in w.files && (r in stream || IsRecordOf(jobs, r)))
      && (forall f :: f in w.files && IsMessageName(f) ==> WholeMessage(init, jobs, f, w.files[f]))
      && (forall f :: f in init && IsMessageName(f) ==> f in w.files)
  {
    BeginInv(init, stream, jobs);
    ExecKeeps(init, jobs, Begin(init, stream, jobs), steps);
    RecordsAreTrue(init, jobs, Begin(init, stream, jobs), steps);
  }

  // ---- order of the records, and what is left behind ----

  /** The stream only grows at its end. */
  lemma {:induction false} RecordsKeepOrder(jobs: seq<Job>, w: World, steps: seq<Step>)
    requires |w.pcs| == |jobs| && Allowed(jobs, w, steps)
    ensures w.stream <= Exec(jobs, w, steps).stream
    decreases |steps|
  {
    if steps != [] {
      RecordsKeepOrder(jobs, Apply(jobs, w, steps[0]), steps[1..]);
    }
  }

  ghost predicate Owned(w: World, f: string) {
    exists i :: 0 <= i < |w.pcs| && HasTemp(w.pcs[i]) && w.pcs[i].tmp == f
  }

  /** Every file was there before, is a message, or is the temporary file of somebody still writing. */
  ghost predicate NoLitter(init: Files, w: World) {
    forall f :: f in w.files ==> f in init || IsMessageName(f) || Owned(w, f)
  }

  lemma StillOwned(w: World, i: nat, t: World, f: string)
    requires i < |w.pcs| && |t.pcs| == |w.pcs| && t.pcs == w.pcs[i := t.pcs[i]] && Owned(w, f)
    requires HasTemp(w.pcs[i]) && w.pcs[i].tmp == f ==> HasTemp(t.pcs[i]) && t.pcs[i].tmp == f
    ensures Owned(t, f)
  {
    var j :| 0 <= j < |w.pcs| && HasTemp(w.pcs[j]) && w.pcs[j].tmp == f;
    assert HasTemp(t.pcs[j]) && t.pcs[j].tmp == f;
  }

  /** Files come only as messages or as the depositor's own temporary file, which goes when he is done with it. */
  ghost predicate Tidy(w: World, i: nat, t: World)
    requires i < |w.pcs|
  {
    && |t.pcs| == |w.pcs| && t.pcs == w.pcs[i := t.pcs[i]]
    && (forall f :: f in t.files ==> f in w.files || IsMessageName(f) || (HasTemp(t.pcs[i]) && t.pcs[i].tmp == f))
    && (HasTemp(w.pcs[i]) && !HasTemp(t.pcs[i]) && !IsMessageName(w.pcs[i].tmp) ==> w.pcs[i].tmp !in t.files)
    && (HasTemp(w.pcs[i]) && HasTemp(t.pcs[i]) ==> w.pcs[i].tmp == t.pcs[i].tmp)
  }

  lemma ProbeIsTidy(jobs: seq<Job>, w: World, i: nat)
    requires Ready(jobs, w, Probe(i))
    ensures Tidy(w, i, Apply(jobs, w, Probe(i)))
  {
  }

  lemma MakeTempIsTidy(jobs: seq<Job>, w: World, i: nat, tmp: string)
    requires Ready(jobs, w, MakeTemp(i, tmp))
    ensures Tidy(w, i, Apply(jobs, w, MakeTemp(i, tmp)))
  {
  }

  lemma WritePartIsTidy(jobs: seq<Job>, w: World, i: nat, part: string)
    requires Ready(jobs, w, WritePart(i, part))
    ensures Tidy(w, i, Apply(jobs, w, WritePart(i, part)))
  {
  }

  lemma FinishWriteIsTidy(jobs: seq<Job>, w: World, i: nat)
    requires Ready(jobs, w, FinishWrite(i))
    ensures Tidy(w, i, Apply(jobs, w, FinishWrite(i)))
  {
  }

  lemma PublishIsTidy(jobs: seq<Job>, w: World, i: nat)
    requires Ready(jobs, w, Publish(i))
    ensures Tidy(w, i, Apply(jobs, w, Publish(i)))
  {
  }

  lemma AppendIsTidy(jobs: seq<Job>, w: World, i: nat)
    requires Ready(jobs, w, Append(i))
    ensures Tidy(w, i, Apply(jobs, w, Append(i)))
  {
  }

  lemma FailIsTidy(jobs: seq<Job>, w: World, i: nat)
    requires Ready(jobs, w, Fail(i))
    ensures Tidy(w, i, Apply(jobs, w, Fail(i)))
  {
  }

  lemma StepIsTidy(jobs: seq<Job>, w: World, step: Step)
    requires Ready(jobs, w, step) && !step.Crash?
    ensures Tidy(w, step.i, Apply(jobs, w, step))
  {
    match step
    case Probe(i) => ProbeIsTidy(jobs, w, i);
    case MakeTemp(i, tmp) => MakeTempIsTidy(jobs, w, i, tmp);
    case WritePart(i, part) => WritePartIsTidy(jobs, w, i, part);
    case FinishWrite(i) => FinishWriteIsTidy(jobs, w, i);
    case Publish(i) => PublishIsTidy(jobs, w, i);
    case Append(i) => AppendIsTidy(jobs, w, i);
    case Fail(i) => FailIsTidy(jobs, w, i);
  }

  lemma {:induction false} StepLeavesNoLitter(init: Files, jobs: seq<Job>, w: World, step: Step)
    requires Inv(init, jobs, w) && NoLitter(init, w) && Enabled(w, step) && !step.Crash?
    ensures NoLitter(init, Apply(jobs, w, step))
  {
    var i, t := step.i, Apply(jobs, w, step);
    assert Ready(jobs, w, step);
    StepIsTidy(jobs, w, step);
    forall f | f in t.files && f !in init && !IsMessageName(f) ensures Owned(t, f) {
      if f in w.files {
        StillOwned(w, i, t, f);
      } else {
        assert HasTemp(t.pcs[i]) && t.pcs[i].tmp == f;
      }
    }
  }

  lemma {:induction false} ExecLeavesNoLitter(init: Files, jobs: seq<Job>, w: World, steps: seq<Step>)
    requires Inv(init, jobs, w) && NoLitter(init, w) && Allowed(jobs, w, steps)
    requires forall k :: 0 <= k < |steps| ==> !steps[k].Crash?
    ensures NoLitter(init, Exec(jobs, w, steps))
    decreases |steps|
  {
    if steps != [] {
      ApplyKeeps(init, jobs, w, steps[0]);
      StepLeavesNoLitter(init, jobs, w, steps[0]);
      ExecLeavesNoLitter(init, jobs, Apply(jobs, w, steps[0]), steps[1..]);
    }
  }

  /** Where nobody crashes, deposits that have ended, failed ones included, leave only messages behind. */
  lemma OnlyMessagesRemain(init: Files, stream: seq<Row>, jobs: seq<Job>, steps: seq<Step>, f: string)
    requires forall r :: r in stream ==> IsMessageName(r.name) && r.name in init
    requires Allowed(jobs, Begin(init, stream, jobs), steps) && forall k :: 0 <= k < |steps| ==> !steps[k].Crash?
    requires forall i :: 0 <= i < |jobs| && i < |Exec(jobs, Begin(init, stream, jobs), steps).pcs| ==>
               !HasTemp(Exec(jobs, Begin(init, stream, jobs), steps).pcs[i])
    requires f in Exec(jobs, Begin(init, stream, jobs), steps).files
    ensures f in init || IsMessageName(f)
  {
    BeginInv(init, stream, jobs);
    ExecKeeps(init, jobs, Begin(init, stream, jobs), steps);
    ExecLeavesNoLitter(init, jobs, Begin(init, stream, jobs), steps);
  }
}
