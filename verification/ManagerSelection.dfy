/** What one step of the parsing loop does to one file, spelled out: which files are
    queued and in which order, what a listing removes, and what is recorded. */
module ManagerSelection {
  import opened Sequences
  import opened StableSort
  import opened Manager
  import opened ManagerProofs

  // ---- Which files are queued -----------------------------------------------------

  /** Late enough to be parsed again: never finished, or the interval has passed, or - if
      files are ordered by modification time - modified since. */
  predicate DueAgain(finish: Option<int>, now: int, interval: int, mode: SortMode, f: Path) {
    || finish.None?
    || now - finish.value >= interval
    || (mode.ByModifiedTime? && mode.mtimes(f) > finish.value)
  }

  /** A refill queues exactly the listed files that are not in progress, have not run just
      as often as the limit says, and are due again. */
  lemma PrepareQueuesExactly(m: ManagerState, now: int, mode: SortMode, f: Path)
    requires Structured(m) && Enabled(m, Prepare(now, mode))
    ensures f in PrepareQueue(m, now, mode).queue
            <==> && f in m.filePaths && f !in m.processors
                 && (f in m.stats ==> m.stats[f].runCount != m.maxRuns)
                 && DueAgain(if f in m.stats then m.stats[f].lastFinish else None, now, m.interval, mode, f)
  {
    hide Minus;
    hide Candidates;
    hide Structured;
    StructuredListing(m);
    CandidatesDistinct(m.filePaths, mode);
    hide NoDup;
    assert f in Candidates(m.filePaths, mode) <==> f in Elements(Candidates(m.filePaths, mode));
    assert f in m.filePaths <==> f in Elements(m.filePaths);
    PrepareTouches(m, now, mode, f);
    assert f in ToQueue(m, now, mode) <==> f in Candidates(m.filePaths, mode) && f !in Excluded(m, now, mode);
  }

  lemma StructuredListing(m: ManagerState)
    requires Structured(m)
    ensures NoDup(m.filePaths)
  {
  }

  /** New files get blank stats, the others keep theirs. */
  lemma PrepareKeepsStats(m: ManagerState, now: int, mode: SortMode, f: Path)
    ensures var n := PrepareQueue(m, now, mode);
            && (f in m.stats ==> f in n.stats && n.stats[f] == m.stats[f])
            && (f !in m.stats && f in n.stats ==>
                  && n.stats[f].runCount == 0 && n.stats[f].lastFinish.None?
                  && n.stats[f].numDags == 0 && n.stats[f].importErrors == 0)
  {
  }

  // ---- In which order ---------------------------------------------------------------

  /** Where in the listing the candidate at a place comes from. */
  lemma CandidatePlace(paths: seq<Path>, mtimes: Path -> int, p: nat) returns (i: nat)
    requires NoDup(paths) && p < |Candidates(paths, ByModifiedTime(mtimes))|
    ensures i < |paths| && Candidates(paths, ByModifiedTime(mtimes))[p] == paths[i]
    ensures Place(MtimeRanks(paths, mtimes), i) == p
  {
    hide Place;
    var ranks, files := MtimeRanks(paths, mtimes), Candidates(paths, ByModifiedTime(mtimes));
    CandidatesDistinct(paths, ByModifiedTime(mtimes));
    assert files[p] in Elements(files);
    i :| 0 <= i < |paths| && paths[i] == files[p];
    SortPlaces(ranks, i);
    assert ranks[i].item == paths[i];
    assert files[Place(ranks, i)] == files[p];
  }

  /** In modified_time mode the latest modified come first, and files modified at the same
      time stay in the order of the listing. */
  lemma LatestFirst(m: ManagerState, now: int, mtimes: Path -> int, x: nat, y: nat) returns (i: nat, j: nat)
    requires NoDup(m.filePaths) && m.queue == [] && x < y < |PrepareQueue(m, now, ByModifiedTime(mtimes)).queue|
    ensures var q := PrepareQueue(m, now, ByModifiedTime(mtimes)).queue;
            && i < |m.filePaths| && j < |m.filePaths| && m.filePaths[i] == q[x] && m.filePaths[j] == q[y]
            && mtimes(q[x]) >= mtimes(q[y]) && (mtimes(q[x]) == mtimes(q[y]) ==> i < j)
  {
    hide PrepareQueue;
    hide Minus;
    hide Candidates;
    hide NoDup;
    hide Place;
    var mode := ByModifiedTime(mtimes);
    var ranks := MtimeRanks(m.filePaths, mtimes);
    PrepareTouches(m, now, mode, "");
    var p, r := MinusKeepsOrder(Candidates(m.filePaths, mode), Excluded(m, now, mode), x, y);
    i := CandidatePlace(m.filePaths, mtimes, p);
    j := CandidatePlace(m.filePaths, mtimes, r);
    assert ranks[i].rank == -mtimes(m.filePaths[i]) && ranks[j].rank == -mtimes(m.filePaths[j]);
    if i < j {
      PlacesDiffer(ranks, i, j);
    } else if j < i {
      PlacesDiffer(ranks, j, i);
    }
  }

  // ---- Listings, starts and finishes ------------------------------------------------

  /** A listing keeps of the queue exactly what it names, stops exactly the processors of
      files it does not name, and drops their stats and no others. */
  lemma RefreshExactly(m: ManagerState, paths: seq<Path>, f: Path)
    ensures var n := SetFilePaths(m, paths);
            && n.filePaths == paths
            && (f in n.queue <==> f in m.queue && f in paths)
            && (f in n.processors <==> f in m.processors && f in paths)
            && (f in n.processors ==> n.processors[f] == m.processors[f])
            && (f in n.stats <==> f in m.stats && !(f in m.processors && f !in paths))
            && (f in n.stats ==> n.stats[f] == m.stats[f])
            && n.waitables == m.waitables && n.callbacks == m.callbacks
  {
  }

  /** What is left of the queue keeps its order. */
  lemma RefreshKeepsOrder(m: ManagerState, paths: seq<Path>, x: nat, y: nat) returns (p: nat, q: nat)
    requires x < y < |SetFilePaths(m, paths).queue|
    ensures p < q < |m.queue|
    ensures m.queue[p] == SetFilePaths(m, paths).queue[x] && m.queue[q] == SetFilePaths(m, paths).queue[y]
  {
    p, q := MinusKeepsOrder(m.queue, Elements(m.queue) - Elements(paths), x, y);
  }

  /** A finished processor leaves the number of dags and import errors it reported, or none
      and -1 if it has no result, with the time, its duration and one run more. */
  lemma CollectRecords(m: ManagerState, h: nat, now: int, result: Option<(int, int)>, f: Path)
    requires Structured(m) && f in m.processors && m.processors[f].handle == h
    ensures var n := Collect(m, h, now, result);
            && f in n.stats && f !in n.processors && h !in n.waitables
            && n.stats[f].lastFinish == Some(now) && n.stats[f].lastDuration == Some(now - m.processors[f].startTime)
            && n.stats[f].runCount == (if f in m.stats then m.stats[f].runCount else 0) + 1
            && (result.Some? ==> (n.stats[f].numDags, n.stats[f].importErrors) == result.value)
            && (result.None? ==> n.stats[f].numDags == 0 && n.stats[f].importErrors == -1)
            && (forall g | g != f :: g in n.stats <==> g in m.stats)
            && (forall g | g != f && g in m.stats :: n.stats[g] == m.stats[g])
            && (forall g | g != f :: g in n.processors <==> g in m.processors)
  {
    hide NoDup;
    assert m.waitables[h] == m.processors[f] && m.processors[f].path == f;
  }

  /** A processor started now says so. */
  lemma StartRecords(m: ManagerState, now: int)
    requires m.queue != [] && m.queue[0] !in m.processors
    ensures var n, f := StartNext(m, now), m.queue[0];
            && f in n.processors && n.processors[f].startTime == now && n.processors[f].path == f
            && n.processors[f].callbacks == Pending(m.callbacks, f) && f !in n.callbacks
            && n.queue == m.queue[1..] && n.stats == m.stats
  {
  }

  /** A callback's file is the first to be started next, once, ahead of the others. */
  lemma CallbackFirst(m: ManagerState, r: Request)
    ensures var n := AddCallback(m, r);
            && n.queue != [] && n.queue[0] == r.path && r.path !in n.queue[1..]
            && (forall f | f != r.path :: f in n.queue <==> f in m.queue)
            && r.path in n.callbacks && n.callbacks[r.path] == Pending(m.callbacks, r.path) + [r]
  {
    assert AddCallback(m, r).queue[1..] == Minus(m.queue, {r.path});
  }

  /** The limit is not reported as reached exactly if there is none, a file is short of
      it, or the loop is. */
  lemma NotReachedWhen(m: ManagerState)
    ensures !MaxRunsReached(m)
            <==> m.maxRuns == -1 || m.numRun < m.maxRuns || exists f :: f in m.stats && m.stats[f].runCount < m.maxRuns
  {
  }
}
