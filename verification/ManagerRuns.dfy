/** Runs of the parsing loop that fall outside the conditions of the theorems in
    `ManagerProofs`: each starts from a new manager and shows what then happens. */
module ManagerRuns {
  import opened Sequences
  import opened StableSort
  import opened Manager
  import opened ManagerProofs

  const FILE: Path := "f"
  const OTHER: Path := "g"
  const REQUEST := Request(FILE, "")
  const BY_NAME := InOrder([FILE])

  /** One step more. */
  lemma Then(m: ManagerState, actions: seq<ManagerAction>, n: ManagerState, a: ManagerAction)
    returns (longer: seq<ManagerAction>, o: ManagerState)
    requires Reaches(m, actions, n) && Enabled(n, a)
    ensures longer == actions + [a] && o == Step(n, a) && Reaches(m, longer, o)
  {
    ReachesOneMore(m, actions, n, a);
    longer, o := actions + [a], Step(n, a);
  }

  /** A listing of one file, which is not in progress and not at the limit, is queued. */
  lemma QueuesFile(m: ManagerState)
    requires m.filePaths == [FILE] && m.queue == [] && FILE !in m.processors
    requires FILE !in m.stats || (m.stats[FILE].runCount != m.maxRuns && !RecentlyProcessed(m, FILE, m.clock, BY_NAME))
    ensures var n := PrepareQueue(m, m.clock, BY_NAME);
            && n.queue == [FILE] && n.clock == m.clock && FILE in n.stats && FILE !in n.seenMtime
            && n.stats[FILE] == (if FILE in m.stats then m.stats[FILE] else NEW_STAT)
            && (m.stats.Keys <= {FILE} ==> n.stats.Keys == {FILE})
            && n == m.(queue := n.queue, stats := n.stats, seenMtime := n.seenMtime)
  {
    assert FILE !in Excluded(m, m.clock, BY_NAME);
    assert [FILE][1..] == [];
    assert Minus([FILE][1..], Excluded(m, m.clock, BY_NAME)) == [];
    assert ToQueue(m, m.clock, BY_NAME) == [FILE];
  }

  /** A listing that names all queued files, while nothing is in progress. */
  lemma Relists(m: ManagerState, paths: seq<Path>)
    requires m.processors == map[] && forall f | f in m.queue :: f in paths
    ensures SetFilePaths(m, paths) == m.(filePaths := paths)
  {
    assert Elements(m.queue) - Elements(paths) == {};
    MinusDisjoint(m.queue, {});
    assert Vanished(m, paths) == {};
    assert m.stats - {} == m.stats && m.processors - {} == m.processors;
  }

  /** The one file vanishes while it is in progress. */
  lemma Vanishes(m: ManagerState)
    requires m.processors.Keys == {FILE} && m.stats.Keys == {FILE} && m.queue == []
    ensures SetFilePaths(m, []) == m.(filePaths := [], processors := map[], stats := map[])
  {
    assert Vanished(m, []) == {FILE};
    assert m.stats - {FILE} == map[] && m.processors - {FILE} == map[];
  }

  /** A first listing and a first queue. */
  lemma FirstQueue(maxRuns: int, interval: int) returns (actions: seq<ManagerAction>, n: ManagerState)
    ensures Reaches(Fresh(1, maxRuns, interval, 0), actions, n)
    ensures n.filePaths == [FILE] && n.queue == [FILE] && n.stats == map[FILE := NEW_STAT] && FILE !in n.seenMtime
    ensures n == Fresh(1, maxRuns, interval, 0).(filePaths := n.filePaths, queue := n.queue, stats := n.stats,
                                                 seenMtime := n.seenMtime)
  {
    hide PrepareQueue;
    hide SetFilePaths;
    var m := Fresh(1, maxRuns, interval, 0);
    var empty: seq<ManagerAction> := [];
    Relists(m, [FILE]);
    actions, n := Then(m, empty, m, Refresh([FILE]));
    QueuesFile(n);
    actions, n := Then(m, actions, n, Prepare(0, BY_NAME));
    assert n.stats == map[FILE := NEW_STAT];
  }

  ghost function Running(handle: nat): Processor {
    Processor(FILE, handle, 0, [])
  }

  /** The file is in progress for the first time. */
  lemma FirstStart(maxRuns: int, interval: int) returns (actions: seq<ManagerAction>, n: ManagerState)
    ensures Reaches(Fresh(1, maxRuns, interval, 0), actions, n)
    ensures n.filePaths == [FILE] && n.queue == [] && n.stats == map[FILE := NEW_STAT] && FILE !in n.seenMtime
    ensures n.processors == map[FILE := Running(0)] && n.waitables == map[0 := Running(0)] && n.nextHandle == 1
    ensures n.clock == 0 && !n.crashed && n.parallelism == 1 && n.maxRuns == maxRuns && n.interval == interval
    ensures n.callbacks == map[] && n.numRun == 0
  {
    actions, n := FirstQueue(maxRuns, interval);
    actions, n := Then(Fresh(1, maxRuns, interval, 0), actions, n, Start(0));
  }

  /** It has run once and nothing is in progress. */
  lemma FirstRun(maxRuns: int, interval: int) returns (actions: seq<ManagerAction>, n: ManagerState)
    ensures Reaches(Fresh(1, maxRuns, interval, 0), actions, n)
    ensures n.filePaths == [FILE] && n.queue == [] && n.processors == map[] && n.waitables == map[]
    ensures RunCount(n, FILE) == 1 && LastFinish(n, FILE) == Some(0) && FILE in n.stats && FILE !in n.seenMtime
    ensures n.clock == 0 && !n.crashed && n.parallelism == 1 && n.maxRuns == maxRuns && n.interval == interval
  {
    actions, n := FirstStart(maxRuns, interval);
    actions, n := Then(Fresh(1, maxRuns, interval, 0), actions, n, Ready(0, 0, None));
  }

  /** A callback right after a run: its processor starts at once. */
  lemma CallbackRestarts(maxRuns: int, interval: int) returns (actions: seq<ManagerAction>, n: ManagerState, h: nat)
    ensures Reaches(Fresh(1, maxRuns, interval, 0), actions, n)
    ensures n.filePaths == [FILE] && n.queue == [] && RunCount(n, FILE) == 1 && LastFinish(n, FILE) == Some(0)
    ensures n.clock == 0 && !n.crashed && n.maxRuns == maxRuns && n.interval == interval
    ensures n.processors.Keys == {FILE} && n.processors[FILE].path == FILE
    ensures h in n.waitables && n.waitables[h] == n.processors[FILE]
    ensures n.starts != []
    ensures var s := n.starts[|n.starts| - 1];
            s.time == 0 && s.lastFinish == Some(0) && s.mtime == None
  {
    var m := Fresh(1, maxRuns, interval, 0);
    actions, n := FirstRun(maxRuns, interval);
    assert Minus(n.queue, {FILE}) == [];
    actions, n := Then(m, actions, n, Callback(REQUEST));
    assert n.queue == [FILE];
    h := n.nextHandle;
    actions, n := Then(m, actions, n, Start(0));
  }

  /** An untimely callback can start a file before the interval is over. */
  lemma CallbackStartsEarly() returns (actions: seq<ManagerAction>, n: ManagerState)
    ensures Reaches(Fresh(1, -1, 30, 0), actions, n) && !StartsLateEnough(n)
  {
    hide Reaches;
    var h;
    actions, n, h := CallbackRestarts(-1, 30);
    var s := n.starts[|n.starts| - 1];
    assert s in n.starts && !LateEnough(n.interval, s.time, s.lastFinish, s.mtime);
  }

  // ---- Past the limit -----------------------------------------------------------

  /** The limit is not reported as reached in any state of the run. */
  ghost predicate NeverReported(m: ManagerState, actions: seq<ManagerAction>)
    decreases |actions|
  {
    !MaxRunsReached(m) &&
    (actions == [] || (Enabled(m, actions[0]) && NeverReported(Step(m, actions[0]), actions[1..])))
  }

  lemma {:induction false} ReportedLater(m: ManagerState, actions: seq<ManagerAction>, n: ManagerState,
                                         a: ManagerAction)
    requires NeverReported(m, actions) && Reaches(m, actions, n) && Enabled(n, a) && !MaxRunsReached(Step(n, a))
    ensures NeverReported(m, actions + [a])
    decreases |actions|
  {
    hide MaxRunsReached;
    hide Step;
    if actions == [] {
      assert [a][1..] == [];
    } else {
      ReportedLater(Step(m, actions[0]), actions[1..], n, a);
      assert (actions + [a])[1..] == actions[1..] + [a];
    }
  }

  /** One step more, after which the limit is not reported either. */
  lemma ThenOn(m: ManagerState, actions: seq<ManagerAction>, n: ManagerState, a: ManagerAction)
    returns (longer: seq<ManagerAction>, o: ManagerState)
    requires Reaches(m, actions, n) && NeverReported(m, actions) && Enabled(n, a) && !MaxRunsReached(Step(n, a))
    ensures longer == actions + [a] && o == Step(n, a) && Reaches(m, longer, o) && NeverReported(m, longer)
  {
    ReportedLater(m, actions, n, a);
    longer, o := Then(m, actions, n, a);
  }

  /** What a step leaves alone that none of these runs changes. */
  ghost predicate SameRest(m: ManagerState, n: ManagerState) {
    && n.parallelism == m.parallelism && n.maxRuns == m.maxRuns && n.interval == m.interval && n.clock == m.clock
    && n.numRun == m.numRun && n.filePaths == m.filePaths && n.crashed == m.crashed
  }

  lemma StartFacts(m: ManagerState)
    requires m.queue != [] && m.queue[0] !in m.processors
    ensures var n := StartNext(m, m.clock);
            var p := Processor(m.queue[0], m.nextHandle, m.clock, Pending(m.callbacks, m.queue[0]));
            && SameRest(m, n) && n.queue == m.queue[1..] && n.stats == m.stats && n.nextHandle == m.nextHandle + 1
            && n.processors == m.processors[m.queue[0] := p] && n.waitables == m.waitables[m.nextHandle := p]
  {
  }

  lemma CollectFacts(m: ManagerState, h: nat)
    requires h in m.waitables && m.waitables[h].path in m.processors
             && m.processors[m.waitables[h].path] == m.waitables[h]
    ensures var n, f := Collect(m, h, m.clock, None), m.waitables[h].path;
            && SameRest(m, n) && n.queue == m.queue && n.nextHandle == m.nextHandle
            && n.processors == m.processors - {f} && n.waitables == m.waitables - {h}
            && RunCount(n, f) == RunCount(m, f) + 1 && LastFinish(n, f) == Some(m.clock)
            && n.stats.Keys == m.stats.Keys + {f}
            && forall g | g != f && g in m.stats :: n.stats[g] == m.stats[g]
  {
  }

  lemma CallbackFacts(m: ManagerState, r: Request)
    requires r.path !in m.queue
    ensures var n := AddCallback(m, r);
            && SameRest(m, n) && n.queue == [r.path] + m.queue && n.stats == m.stats && n.nextHandle == m.nextHandle
            && n.processors == m.processors && n.waitables == m.waitables
  {
    MinusDisjoint(m.queue, {r.path});
  }

  const BOTH := InOrder([FILE, OTHER])

  lemma TwoNames()
    ensures FILE != OTHER
  {
    assert FILE[0] != OTHER[0];
  }

  lemma PrepareFacts(m: ManagerState, files: seq<Path>)
    requires m.queue == [] && ToQueue(m, m.clock, BOTH) == files
    ensures var n := PrepareQueue(m, m.clock, BOTH);
            && SameRest(m, n) && n.queue == files && n.nextHandle == m.nextHandle
            && n.processors == m.processors && n.waitables == m.waitables
            && n.stats.Keys == m.stats.Keys + Elements(files)
            && (forall f | f in m.stats :: n.stats[f] == m.stats[f])
            && (forall f | f in files && f !in m.stats :: n.stats[f] == NEW_STAT)
  {
    assert m.queue + files == files;
  }

  /** A second file with stats and no run keeps the limit from being reported. */
  lemma HeldBack(m: ManagerState)
    requires m.maxRuns == 1 && OTHER in m.stats && m.stats[OTHER].runCount == 0
    ensures !MaxRunsReached(m)
  {
  }

  /** Two files and two slots: both are in progress for the first time. */
  lemma BothStarted() returns (actions: seq<ManagerAction>, n: ManagerState)
    ensures Reaches(Fresh(2, 1, 0, 0), actions, n) && NeverReported(Fresh(2, 1, 0, 0), actions)
    ensures n.queue == [] && n.stats == map[FILE := NEW_STAT, OTHER := NEW_STAT] && n.nextHandle == 2
    ensures FILE in n.processors && 0 in n.waitables && n.waitables[0] == n.processors[FILE]
    ensures n.processors.Keys == {FILE, OTHER} && n.processors[FILE].path == FILE
    ensures SameRest(Fresh(2, 1, 0, 0).(filePaths := [FILE, OTHER]), n)
  {
    hide Reaches;
    hide NeverReported;
    hide SetFilePaths;
    hide PrepareQueue;
    hide StartNext;
    TwoNames();
    var m := Fresh(2, 1, 0, 0);
    actions, n := BothQueued();
    StartFacts(n);
    HeldBack(StartNext(n, 0));
    actions, n := ThenOn(m, actions, n, Start(0));
    StartFacts(n);
    HeldBack(StartNext(n, 0));
    actions, n := ThenOn(m, actions, n, Start(0));
  }

  lemma BothListed() returns (actions: seq<ManagerAction>, n: ManagerState)
    ensures Reaches(Fresh(2, 1, 0, 0), actions, n) && NeverReported(Fresh(2, 1, 0, 0), actions)
    ensures n == Fresh(2, 1, 0, 0).(filePaths := [FILE, OTHER])
  {
    hide SetFilePaths;
    TwoNames();
    var m := Fresh(2, 1, 0, 0);
    var empty: seq<ManagerAction> := [];
    assert Reaches(m, empty, m) && NeverReported(m, empty);
    hide Reaches;
    hide NeverReported;
    Relists(m, [FILE, OTHER]);
    actions, n := ThenOn(m, empty, m, Refresh([FILE, OTHER]));
  }

  /** Two new files are both to be queued. */
  lemma NothingExcluded()
    ensures ToQueue(Fresh(2, 1, 0, 0).(filePaths := [FILE, OTHER]), 0, BOTH) == [FILE, OTHER]
  {
    var m := Fresh(2, 1, 0, 0).(filePaths := [FILE, OTHER]);
    assert Excluded(m, 0, BOTH) == {};
    MinusDisjoint([FILE, OTHER], {});
  }

  lemma BothQueued() returns (actions: seq<ManagerAction>, n: ManagerState)
    ensures Reaches(Fresh(2, 1, 0, 0), actions, n) && NeverReported(Fresh(2, 1, 0, 0), actions)
    ensures n.queue == [FILE, OTHER] && n.stats == map[FILE := NEW_STAT, OTHER := NEW_STAT] && n.nextHandle == 0
    ensures n.processors == map[] && n.waitables == map[] && SameRest(Fresh(2, 1, 0, 0).(filePaths := [FILE, OTHER]), n)
  {
    hide PrepareQueue;
    hide ToQueue;
    hide Reaches;
    hide NeverReported;
    hide MaxRunsReached;
    actions, n := BothListed();
    NothingExcluded();
    PrepareFacts(n, [FILE, OTHER]);
    HeldBack(PrepareQueue(n, 0, BOTH));
    actions, n := ThenOn(Fresh(2, 1, 0, 0), actions, n, Prepare(0, BOTH));
    assert n.stats.Keys == {FILE, OTHER};
  }

  /** The first file has run once and a callback for it has come in. */
  lemma AskedAgain() returns (actions: seq<ManagerAction>, n: ManagerState)
    ensures Reaches(Fresh(2, 1, 0, 0), actions, n) && NeverReported(Fresh(2, 1, 0, 0), actions)
    ensures n.queue == [FILE] && n.processors.Keys == {OTHER} && RunCount(n, FILE) == 1 && n.nextHandle == 2
    ensures n.stats.Keys == {FILE, OTHER} && n.stats[OTHER] == NEW_STAT
    ensures SameRest(Fresh(2, 1, 0, 0).(filePaths := [FILE, OTHER]), n)
  {
    hide Reaches;
    hide NeverReported;
    hide AddCallback;
    hide Collect;
    TwoNames();
    var m := Fresh(2, 1, 0, 0);
    actions, n := BothStarted();
    CollectFacts(n, 0);
    HeldBack(Collect(n, 0, 0, None));
    actions, n := ThenOn(m, actions, n, Ready(0, 0, None));
    CallbackFacts(n, REQUEST);
    HeldBack(AddCallback(n, REQUEST));
    actions, n := ThenOn(m, actions, n, Callback(REQUEST));
  }

  /** ... and has been run. */
  lemma RunsTwice() returns (actions: seq<ManagerAction>, n: ManagerState)
    ensures Reaches(Fresh(2, 1, 0, 0), actions, n) && NeverReported(Fresh(2, 1, 0, 0), actions)
    ensures n.queue == [] && n.processors.Keys == {OTHER} && RunCount(n, FILE) == 2
    ensures n.stats.Keys == {FILE, OTHER} && n.stats[OTHER] == NEW_STAT && n.filePaths == [FILE, OTHER]
    ensures n.clock == 0 && n.interval == 0 && n.maxRuns == 1 && !n.crashed && LastFinish(n, FILE) == Some(0)
  {
    hide Reaches;
    hide NeverReported;
    hide StartNext;
    hide Collect;
    TwoNames();
    var m := Fresh(2, 1, 0, 0);
    actions, n := AskedAgain();
    StartFacts(n);
    HeldBack(StartNext(n, 0));
    actions, n := ThenOn(m, actions, n, Start(0));
    HeldBack(n.(numRun := n.numRun + 1));
    actions, n := ThenOn(m, actions, n, NextLoop);
    CollectFacts(n, 2);
    HeldBack(Collect(n, 2, 0, None));
    actions, n := ThenOn(m, actions, n, Ready(2, 0, None));
  }

  /** A callback takes a file past the limit while another file has still to run, so
      the loop goes on, and then the limit no longer stops the first: it is queued
      again. */
  lemma CallbackOvershoots() returns (actions: seq<ManagerAction>, n: ManagerState)
    ensures Reaches(Fresh(2, 1, 0, 0), actions, n) && NeverReported(Fresh(2, 1, 0, 0), actions)
    ensures RunCount(n, FILE) == 2 && n.queue == [FILE]
  {
    hide Reaches;
    hide NeverReported;
    hide PrepareQueue;
    TwoNames();
    actions, n := RunsTwice();
    var gone := Excluded(n, 0, BOTH);
    assert OTHER in gone && FILE !in gone;
    assert [FILE, OTHER][1..] == [OTHER] && [OTHER][1..] == [];
    assert Minus([OTHER], gone) == [];
    assert ToQueue(n, 0, BOTH) == [FILE];
    PrepareFacts(n, [FILE]);
    HeldBack(PrepareQueue(n, 0, BOTH));
    actions, n := ThenOn(Fresh(2, 1, 0, 0), actions, n, Prepare(0, BOTH));
  }

  /** A second file is listed while the first is still queued. */
  lemma SecondListing() returns (actions: seq<ManagerAction>, n: ManagerState)
    ensures Reaches(Fresh(1, 1, 0, 0), actions, n)
    ensures n.filePaths == [FILE, OTHER] && n.queue == [FILE] && n.stats == map[FILE := NEW_STAT]
    ensures n.processors == map[] && n.waitables == map[] && n.nextHandle == 0 && n.clock == 0 && n.callbacks == map[]
    ensures !n.crashed && n.parallelism == 1 && n.maxRuns == 1
  {
    hide Reaches;
    hide SetFilePaths;
    actions, n := FirstQueue(1, 0);
    assert FILE[0] != OTHER[0];
    Relists(n, [FILE, OTHER]);
    actions, n := Then(Fresh(1, 1, 0, 0), actions, n, Refresh([FILE, OTHER]));
  }

  /** A file listed while the queue is not empty may have no stats yet when the limit
      is reported as reached, so it was never processed. */
  lemma LimitReachedTooSoon() returns (actions: seq<ManagerAction>, n: ManagerState)
    ensures Reaches(Fresh(1, 1, 0, 0), actions, n) && MaxRunsReached(n)
    ensures OTHER in n.filePaths && OTHER !in n.stats
  {
    hide Reaches;
    hide StartNext;
    hide Collect;
    TwoNames();
    var m := Fresh(1, 1, 0, 0);
    actions, n := SecondListing();
    StartFacts(n);
    actions, n := Then(m, actions, n, Start(0));
    actions, n := Then(m, actions, n, NextLoop);
    CollectFacts(n, 0);
    actions, n := Then(m, actions, n, Ready(0, 0, None));
  }

  /** Callbacks for a file at the limit and for one without stats: the limit is reported
      as reached while the first is queued and the second in progress. */
  lemma LimitReachedWhileQueued() returns (actions: seq<ManagerAction>, n: ManagerState)
    ensures Reaches(Fresh(1, 1, 0, 0), actions, n) && MaxRunsReached(n)
    ensures n.queue == [FILE] && OTHER in n.processors && OTHER !in n.stats
  {
    hide Reaches;
    hide StartNext;
    hide AddCallback;
    TwoNames();
    var m := Fresh(1, 1, 0, 0);
    actions, n := FirstRunAlone();
    CallbackFacts(n, REQUEST);
    actions, n := Then(m, actions, n, Callback(REQUEST));
    CallbackFacts(n, Request(OTHER, ""));
    actions, n := Then(m, actions, n, Callback(Request(OTHER, "")));
    StartFacts(n);
    actions, n := Then(m, actions, n, Start(0));
    actions, n := Then(m, actions, n, NextLoop);
  }

  lemma FirstRunAlone() returns (actions: seq<ManagerAction>, n: ManagerState)
    ensures Reaches(Fresh(1, 1, 0, 0), actions, n) && n.stats.Keys == {FILE} && RunCount(n, FILE) == 1
    ensures n.queue == [] && n.processors == map[] && SameRest(Fresh(1, 1, 0, 0).(filePaths := [FILE]), n)
  {
    hide Reaches;
    hide Collect;
    actions, n := FirstStart(1, 0);
    CollectFacts(n, 0);
    actions, n := Then(Fresh(1, 1, 0, 0), actions, n, Ready(0, 0, None));
  }

  /** A file that vanishes in progress and comes back is queued again beside its old
      waitable. */
  lemma ComesBack() returns (actions: seq<ManagerAction>, n: ManagerState)
    ensures Reaches(Fresh(1, -1, 0, 0), actions, n)
    ensures n.queue == [FILE] && n.processors == map[] && n.waitables == map[0 := Running(0)] && n.nextHandle == 1
    ensures n.clock == 0 && n.callbacks == map[] && !n.crashed && n.parallelism == 1
  {
    hide Reaches;
    hide SetFilePaths;
    hide PrepareQueue;
    var m := Fresh(1, -1, 0, 0);
    actions, n := FirstStart(-1, 0);
    Vanishes(n);
    actions, n := Then(m, actions, n, Refresh([]));
    Relists(n, [FILE]);
    actions, n := Then(m, actions, n, Refresh([FILE]));
    QueuesFile(n);
    actions, n := Then(m, actions, n, Prepare(0, BY_NAME));
  }

  /** ... and started again, and when the old handle is ready the loop ends in an
      exception although the new processor is registered. */
  lemma StaleHandleCrashes() returns (actions: seq<ManagerAction>, n: ManagerState)
    ensures Reaches(Fresh(1, -1, 0, 0), actions, n) && n.crashed
    ensures FILE in n.processors && n.processors[FILE].handle == 1
  {
    hide Reaches;
    actions, n := ComesBack();
    actions, n := Then(Fresh(1, -1, 0, 0), actions, n, Start(0));
    assert n.waitables[0] == Running(0) && n.processors[FILE] == Running(1);
    actions, n := Then(Fresh(1, -1, 0, 0), actions, n, Ready(0, 0, None));
  }
}
