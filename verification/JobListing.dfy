/** The directory of runs: how a run enters it, and how the log viewer lists it and picks the latest run. */
module JobListing {
  import opened Basics
  import opened JobId

  datatype Kind = Directory | Link(target: string) | File

  type Entries = map<string, Kind>

  predicate IsDirectory(entries: Entries, name: string) {
    name in entries && entries[name].Directory?
  }

  /** A directory, or a link to one. */
  predicate Resolves(entries: Entries, name: string) {
    IsDirectory(entries, name) || (name in entries && entries[name].Link? && IsDirectory(entries, entries[name].target))
  }

  ghost predicate Ascending(names: seq<string>) {
    forall i, j :: 0 <= i < j < |names| ==> LexLess(names[i], names[j])
  }

  function Insert(x: string, names: seq<string>): seq<string> {
    if names == [] || LexLess(x, names[0]) then [x] + names else [names[0]] + Insert(x, names[1..])
  }

  /** list.sort on the names. */
  function SortNames(names: seq<string>): seq<string> {
    if names == [] then [] else Insert(names[0], SortNames(names[1..]))
  }

  lemma {:induction false} InsertHolds(x: string, names: seq<string>, n: string)
    ensures n in Insert(x, names) <==> n == x || n in names
  {
    if names != [] && !LexLess(x, names[0]) {
      InsertHolds(x, names[1..], n);
      assert names == [names[0]] + names[1..];
    }
  }

  lemma {:induction false} SortHolds(names: seq<string>, n: string)
    ensures n in SortNames(names) <==> n in names
  {
    if names != [] {
      SortHolds(names[1..], n);
      InsertHolds(names[0], SortNames(names[1..]), n);
      assert names == [names[0]] + names[1..];
    }
  }

  lemma ConsAscending(x: string, names: seq<string>)
    requires Ascending(names) && forall n :: n in names ==> LexLess(x, n)
    ensures Ascending([x] + names)
  {
  }

  lemma {:induction false} InsertAscending(x: string, names: seq<string>)
    requires Ascending(names) && x !in names
    ensures Ascending(Insert(x, names))
  {
    if names != [] {
      if LexLess(x, names[0]) {
        forall n | n in names ensures LexLess(x, n) {
          if n != names[0] {
            LexTransitive(x, names[0], n);
          }
        }
        ConsAscending(x, names);
      } else {
        InsertAscending(x, names[1..]);
        LexTotal(x, names[0]);
        forall n | n in Insert(x, names[1..]) ensures LexLess(names[0], n) {
          InsertHolds(x, names[1..], n);
        }
        ConsAscending(names[0], Insert(x, names[1..]));
      }
    }
  }

  lemma {:induction false} SortAscending(names: seq<string>)
    requires NoDup(names)
    ensures Ascending(SortNames(names))
  {
    if names != [] {
      SortAscending(names[1..]);
      SortHolds(names[1..], names[0]);
      InsertAscending(names[0], SortNames(names[1..]));
    }
  }

  const LATEST := "latest"

  /** The run the link points to, if there is one. */
  function Linked(entries: Entries): Option<string> {
    if LATEST in entries && entries[LATEST].Link? && IsDirectory(entries, entries[LATEST].target)
    then Some(entries[LATEST].target) else None
  }

  /** No directory is named later. */
  ghost predicate IsLast(entries: Entries, name: string) {
    IsDirectory(entries, name) && forall n :: IsDirectory(entries, n) && n != name ==> LexLess(n, name)
  }

  /** The link aside, the directory of the run is there now, and nothing else has changed. */
  ghost predicate OneMore(before: Entries, after: Entries, t: nat) {
    && (forall n :: n in before && n != LATEST ==> n in after && after[n] == before[n])
    && (forall n :: n in after && n != LATEST ==> n in before || n == IdOf(t))
    && IdOf(t) in after && (IdOf(t) !in before ==> after[IdOf(t)] == Directory)
  }

  lemma LatestIsNoId(t: nat)
    ensures IdOf(t) != LATEST
  {
    JobIdReadsBack(t);
    assert LATEST[0] == 'l';
  }

  class LogRoot {
    var entries: Entries

    constructor ()
      ensures entries == map[]
    {
      entries := map[];
    }

    /**
     Starting a run: its directory may exist already, but not as something else. Refreshing the link may fail
     at either of its two steps, which is then ignored.
     */
    method StartRun(t: nat, canUnlink: bool, canLink: bool) returns (ok: bool)
      modifies this
      ensures ok <==> IdOf(t) !in old(entries) || Resolves(old(entries), IdOf(t))
      ensures !ok ==> entries == old(entries)
      ensures ok ==> OneMore(old(entries), entries, t)
      ensures ok && !canUnlink && LATEST in old(entries) ==>
                LATEST in entries && entries[LATEST] == old(entries)[LATEST]
      ensures ok && (canUnlink || LATEST !in old(entries)) ==>
                if canLink then LATEST in entries && entries[LATEST] == Link(IdOf(t)) else LATEST !in entries
    {
      var jobid := IdOf(t);
      LatestIsNoId(t);
      if jobid !in entries {
        entries := entries[jobid := Directory];
      } else if !Resolves(entries, jobid) {
        return false;
      }
      ok := true;
      if LATEST in entries {
        if !canUnlink {
          return;
        }
        entries := entries - {LATEST};
      }
      if canLink {
        entries := entries[LATEST := Link(jobid)];
      }
    }

    /** order is the order in which iterdir happens to return the entries. */
    method ListJobIds(order: seq<string>) returns (names: seq<string>)
      requires NoDup(order) && forall n :: n in order <==> n in entries
      ensures Ascending(names) && forall n :: n in names <==> IsDirectory(entries, n)
    {
      names := [];
      for i := 0 to |order|
        invariant NoDup(names)
        invariant forall n :: n in names <==> n in order[..i] && IsDirectory(entries, n)
      {
        TakeOneMore(order, i);
        if entries[order[i]].Directory? {
          assert order[i] !in order[..i];
          NoDupAppend(names, order[i]);
          names := names + [order[i]];
        }
      }
      assert order[..|order|] == order;
      SortAscending(names);
      forall n ensures n in SortNames(names) <==> n in names {
        SortHolds(names, n);
      }
      names := SortNames(names);
    }

    method LatestJobId(order: seq<string>) returns (name: Option<string>)
      requires NoDup(order) && forall n :: n in order <==> n in entries
      ensures Linked(entries).Some? ==> name == Linked(entries)
      ensures LATEST in entries && entries[LATEST].Link? && IsDirectory(entries, entries[LATEST].target) ==>
                name == Some(entries[LATEST].target)
      ensures Linked(entries).None? && name.Some? ==> IsLast(entries, name.value)
      ensures if name.Some? then IsDirectory(entries, name.value) else forall n :: !IsDirectory(entries, n)
    {
      if LATEST in entries && entries[LATEST].Link? {
        var target := entries[LATEST].target;
        if target in entries && entries[target].Directory? {
          return Some(target);
        }
      }
      var jobs := ListJobIds(order);
      name := if jobs == [] then None else Some(jobs[|jobs| - 1]);
      if jobs != [] {
        assert jobs[|jobs| - 1] in jobs;
      }
    }
  }

  // ---- the listing and time ----

  /** The directories are those of the runs started at the given times. */
  ghost predicate RunsAt(entries: Entries, times: seq<nat>) {
    && (forall i :: 0 <= i < |times| ==> times[i] < LIMIT && IsDirectory(entries, IdOf(times[i])))
    && (forall n :: IsDirectory(entries, n) ==> exists i :: 0 <= i < |times| && n == IdOf(times[i]))
  }

  /** A listing of runs is a listing by time, oldest first. */
  lemma ListingIsByTime(entries: Entries, times: seq<nat>, names: seq<string>, i: nat, j: nat)
    requires RunsAt(entries, times) && Ascending(names) && (forall n :: n in names <==> IsDirectory(entries, n))
    requires i < j < |names|
    ensures IsHex(names[i]) && IsHex(names[j]) && HexValue(names[i]) < HexValue(names[j])
    ensures HexValue(names[i]) in times && HexValue(names[j]) in times
  {
    assert names[i] in names && names[j] in names;
    var a :| 0 <= a < |times| && names[i] == IdOf(times[a]);
    var b :| 0 <= b < |times| && names[j] == IdOf(times[b]);
    JobIdReadsBack(times[a]);
    JobIdReadsBack(times[b]);
    JobIdsInOrder(times[a], times[b]);
  }

  ghost predicate IsNewest(times: seq<nat>, t: nat) {
    t in times && forall i :: 0 <= i < |times| ==> times[i] <= t
  }

  /** The last name of the listing is the id of the newest run, and conversely. */
  lemma LastIsNewest(entries: Entries, times: seq<nat>, t: nat)
    requires RunsAt(entries, times) && t in times
    ensures IsLast(entries, IdOf(t)) <==> IsNewest(times, t)
  {
    if IsLast(entries, IdOf(t)) {
      forall i | 0 <= i < |times| ensures times[i] <= t {
        JobIdsInOrder(times[i], t);
      }
    }
    if IsNewest(times, t) {
      forall n | IsDirectory(entries, n) && n != IdOf(t) ensures LexLess(n, IdOf(t)) {
        var i :| 0 <= i < |times| && n == IdOf(times[i]);
        JobIdsInOrder(times[i], t);
      }
    }
  }

  /**
   Where the last refresh of the link went through, the link and the listing agree exactly when no earlier run
   has a later time.
   */
  lemma LinkAndListingAgree(entries: Entries, times: seq<nat>)
    requires RunsAt(entries, times) && times != [] && Linked(entries) == Some(IdOf(times[|times| - 1]))
    ensures IsLast(entries, Linked(entries).value) <==> forall i :: 0 <= i < |times| ==> times[i] <= times[|times| - 1]
  {
    LastIsNewest(entries, times, times[|times| - 1]);
  }

  ghost predicate OnlyDirectories(entries: Entries) {
    forall n :: n in entries && !IsDirectory(entries, n) ==> n == LATEST && entries[n].Link?
  }

  /** Only the link and the new directory have changed. */
  lemma OneMoreDirectory(before: Entries, after: Entries, t: nat)
    requires OnlyDirectories(before) && OneMore(before, after, t)
    requires LATEST in after ==> after[LATEST].Link?
    ensures OnlyDirectories(after)
    ensures forall n :: IsDirectory(after, n) <==> n != LATEST && (IsDirectory(before, n) || n == IdOf(t))
  {
    LatestIsNoId(t);
  }

  /** Among directories only, no run is refused. */
  lemma MayStart(entries: Entries, t: nat)
    requires OnlyDirectories(entries)
    ensures IdOf(t) !in entries || Resolves(entries, IdOf(t))
  {
    LatestIsNoId(t);
  }

  lemma StartedOneMore(before: Entries, after: Entries, times: seq<nat>, t: nat)
    requires RunsAt(before, times) && OnlyDirectories(before) && t < LIMIT && OneMore(before, after, t)
    requires LATEST in after ==> after[LATEST].Link?
    ensures RunsAt(after, times + [t]) && OnlyDirectories(after)
  {
    var all := times + [t];
    OneMoreDirectory(before, after, t);
    forall i | 0 <= i < |all| ensures all[i] < LIMIT && IsDirectory(after, IdOf(all[i])) {
      LatestIsNoId(all[i]);
    }
    forall n | IsDirectory(after, n) ensures exists i :: 0 <= i < |all| && n == IdOf(all[i]) {
      if n == IdOf(t) {
        assert all[|times|] == t;
      } else {
        var i :| 0 <= i < |times| && n == IdOf(times[i]);
        assert all[i] == times[i];
      }
    }
  }

  /** Starting runs one after another, from an empty directory: none is refused, whichever link refreshes fail. */
  method StartRuns(times: seq<nat>, canUnlink: seq<bool>, canLink: seq<bool>) returns (root: LogRoot)
    requires |canUnlink| == |times| && |canLink| == |times|
    requires forall i :: 0 <= i < |times| ==> times[i] < LIMIT
    ensures RunsAt(root.entries, times)
    ensures times != [] && canUnlink[|times| - 1] && canLink[|times| - 1] ==>
              Linked(root.entries) == Some(IdOf(times[|times| - 1]))
  {
    root := new LogRoot();
    for i := 0 to |times|
      invariant fresh(root) && RunsAt(root.entries, times[..i]) && OnlyDirectories(root.entries)
      invariant i > 0 && canUnlink[i - 1] && canLink[i - 1] ==> Linked(root.entries) == Some(IdOf(times[i - 1]))
    {
      TakeOneMore(times, i);
      ghost var before := root.entries;
      MayStart(before, times[i]);
      var ok := root.StartRun(times[i], canUnlink[i], canLink[i]);
      StartedOneMore(before, root.entries, times[..i], times[i]);
      assert times[..i + 1][i] == times[i];
    }
    assert times[..|times|] == times;
  }
}
