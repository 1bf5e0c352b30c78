/** DagFileProcessorManager as an object (airflow/dag_processing/manager.py): the
    parsing loop and the operations it calls update the fields in place. Every
    call is a run of the steps in `Manager`, so what holds of every run holds of
    the loop. */
module ManagerObject {
  import opened Sequences
  import opened Manager
  import opened ManagerProofs

  /** A finished process: its handle, the time since the last clock reading, its result. */
  datatype Exit = Exit(handle: nat, elapsed: nat, result: Option<(int, int)>)

  datatype Sorting = Modified(mtimes: Path -> int) | Shuffled(shuffle: seq<Path> -> seq<Path>)

  /** What the agent may have sent: nothing, a word to go on, a callback request, one of
      the two signals that end the loop, or something else, which raises. */
  datatype Signal = Silent | RunOnce | Deliver(request: Request) | Terminate | EndManager | Invalid

  /** What one round of the loop meets: a signal from the agent, processes that
      are ready, a new directory listing if one is due, zombie callbacks, the
      ordering of the files, processes that finish before the round ends, and what
      comes of those that sync mode waits for. */
  datatype Round = Round(
    signal: Signal, ready: seq<Exit>, listing: Option<seq<Path>>, zombies: seq<Request>,
    sorting: Sorting, elapsed: nat -> nat, finished: seq<Exit>, awaited: nat -> (nat, Option<(int, int)>))

  ghost predicate Sensible(r: Round) {
    && (r.listing.Some? ==> NoDup(r.listing.value))
    && (r.sorting.Shuffled? ==> forall s :: multiset(r.sorting.shuffle(s)) == multiset(s))
  }

  /** What a step takes in from outside, its time left out; starting processors and
      refilling the queue are the manager's own doing. */
  ghost function Input(a: ManagerAction): seq<ManagerAction> {
    match a
    case Start(_) => []
    case Prepare(_, _) => []
    case Ready(handle, _, result) => [Ready(handle, 0, result)]
    case _ => [a]
  }

  ghost function Inputs(actions: seq<ManagerAction>): seq<ManagerAction> {
    if actions == [] then []
    else Inputs(actions[..|actions| - 1]) + Input(actions[|actions| - 1])
  }

  lemma InputsPush(actions: seq<ManagerAction>, a: ManagerAction)
    ensures Inputs(actions + [a]) == Inputs(actions) + Input(a)
  {
    assert (actions + [a])[..|actions|] == actions;
  }

  ghost function Asked(requests: seq<Request>): seq<ManagerAction> {
    seq(|requests|, i requires 0 <= i < |requests| => Callback(requests[i]))
  }

  ghost function Exited(exits: seq<Exit>): seq<ManagerAction> {
    seq(|exits|, i requires 0 <= i < |exits| => Ready(exits[i].handle, 0, exits[i].result))
  }

  ghost function Listed(listing: Option<seq<Path>>): seq<ManagerAction> {
    if listing.Some? then [Refresh(listing.value)] else []
  }

  function Requested(signal: Signal): seq<Request> {
    if signal.Deliver? then [signal.request] else []
  }

  predicate Halts(r: Round) {
    r.signal.Terminate? || r.signal.EndManager? || r.signal.Invalid?
  }

  /** In sync mode a round in which nothing is ready is passed over. */
  predicate Idle(r: Round, asyncMode: bool) {
    !asyncMode && r.signal.Silent? && r.ready == []
  }

  ghost function TakenIn(r: Round): seq<ManagerAction> {
    Asked(Requested(r.signal)) + Exited(r.ready) + Listed(r.listing) + Asked(r.zombies)
  }

  /** All that one round meets, in the order in which it is dealt with, `last` being
      what it collects at its end; a round that begins with a signal to end, or has
      nothing ready in sync mode, deals with nothing. */
  ghost function RoundInputs(r: Round, asyncMode: bool, last: seq<Exit>): seq<ManagerAction> {
    if Halts(r) || Idle(r, asyncMode) then [] else TakenIn(r) + [NextLoop] + Exited(last)
  }

  ghost function RoundsInputs(rounds: seq<Round>, asyncMode: bool, lasts: seq<seq<Exit>>): seq<ManagerAction>
    requires |lasts| == |rounds|
  {
    if rounds == [] then []
    else
      var n := |rounds| - 1;
      RoundsInputs(rounds[..n], asyncMode, lasts[..n]) + RoundInputs(rounds[n], asyncMode, lasts[n])
  }

  lemma RoundsPush(rounds: seq<Round>, asyncMode: bool, lasts: seq<seq<Exit>>, r: Round, last: seq<Exit>)
    requires |lasts| == |rounds|
    ensures RoundsInputs(rounds + [r], asyncMode, lasts + [last])
            == RoundsInputs(rounds, asyncMode, lasts) + RoundInputs(r, asyncMode, last)
  {
    assert (rounds + [r])[..|rounds|] == rounds && (lasts + [last])[..|lasts|] == lasts;
  }

  /** No processor has the handle of one of these exits. */
  ghost predicate NoneLeft(processors: map<Path, Processor>, exits: seq<Exit>) {
    forall f, i | f in processors && 0 <= i < |exits| :: processors[f].handle != exits[i].handle
  }

  lemma CollectKeepsOthers(m: ManagerState, h: nat, now: int, result: Option<(int, int)>, f: Path)
    requires Registered(m.processors, m.waitables, m.nextHandle)
    requires !Collect(m, h, now, result).crashed && f in Collect(m, h, now, result).processors
    ensures f in m.processors && Collect(m, h, now, result).processors[f] == m.processors[f]
    ensures m.processors[f].handle != h
  {
    hide FinishedStat;
    hide RunCount;
  }

  lemma CollectedIsGone(m: ManagerState, exits: seq<Exit>, e: Exit, now: int)
    requires Structured(m) && NoneLeft(m.processors, exits) && !Collect(m, e.handle, now, e.result).crashed
    ensures NoneLeft(Collect(m, e.handle, now, e.result).processors, exits + [e])
  {
    hide Collect;
    hide Registered;
    hide NoDup;
    var n := Collect(m, e.handle, now, e.result);
    forall f | f in n.processors
      ensures f in m.processors && n.processors[f] == m.processors[f] && n.processors[f].handle != e.handle
    {
      CollectKeepsOthers(m, e.handle, now, e.result, f);
    }
  }

  /** What the end of a round collects ends with what the round found ready, and in
      async mode is no more than that. */
  ghost predicate CollectedAt(r: Round, asyncMode: bool, last: seq<Exit>) {
    && |last| >= |r.finished| && last[|last| - |r.finished|..] == r.finished
    && (asyncMode ==> last == r.finished)
  }

  lemma NobodyLeft(processors: map<Path, Processor>, exits: seq<Exit>)
    requires NoneLeft(processors, exits)
    requires forall f | f in processors :: exists i :: 0 <= i < |exits| && exits[i].handle == processors[f].handle
    ensures processors == map[]
  {
  }

  /** The deletion loop with `todo` still to come: what is kept, the stats left,
      and whether some file had none. */
  ghost predicate Sifting(was: map<Path, Processor>, stats: map<Path, FileStat>, todo: set<Path>, paths: seq<Path>,
                          kept: map<Path, Processor>, left: map<Path, FileStat>, missing: bool) {
    var dropped := was.Keys - todo - Elements(paths);
    kept == was - dropped && left == stats - dropped && missing == !(dropped <= stats.Keys)
  }

  lemma SiftOne(was: map<Path, Processor>, stats: map<Path, FileStat>, todo: set<Path>, paths: seq<Path>,
                kept: map<Path, Processor>, left: map<Path, FileStat>, missing: bool, f: Path)
    requires Sifting(was, stats, todo, paths, kept, left, missing) && f in todo && todo <= was.Keys
    ensures Sifting(was, stats, todo - {f}, paths, if f in paths then kept else kept - {f},
                    if f in paths then left else left - {f}, missing || (f !in paths && f !in left))
  {
    assert was.Keys - (todo - {f}) - Elements(paths)
        == (was.Keys - todo - Elements(paths)) + (if f in paths then {} else {f});
  }

  lemma SiftStart(was: map<Path, Processor>, stats: map<Path, FileStat>, paths: seq<Path>)
    ensures Sifting(was, stats, was.Keys, paths, was, stats, false)
  {
  }

  lemma KeptOverRun(m: ManagerState, actions: seq<ManagerAction>, n: ManagerState)
    requires Reaches(m, actions, n) && Structured(m) && forall f :: CallbacksKept(m, f)
    ensures Structured(n) && forall f :: CallbacksKept(n, f)
  {
    hide Reaches;
    hide Structured;
    RunStructured(m, actions, n);
    forall f ensures CallbacksKept(n, f) {
      RunKeepsCallbacks(m, actions, n, f);
    }
  }

  function ModeOf(sorting: Sorting, filePaths: seq<Path>): SortMode {
    match sorting
    case Modified(mtimes) => ByModifiedTime(mtimes)
    case Shuffled(shuffle) => InOrder(shuffle(filePaths))
  }

  class DagFileProcessorManager {
    const parallelism: int
    const maxRuns: int
    const interval: int
    var filePaths: seq<Path>
    var queue: seq<Path>
    var processors: map<Path, Processor>
    var waitables: map<nat, Processor>
    var stats: map<Path, FileStat>
    var callbacks: map<Path, seq<Request>>
    var numRun: nat
    var nextHandle: nat
    var clock: int
    var crashed: bool
    ghost var seenMtime: map<Path, int>
    ghost var received: map<Path, seq<Request>>
    ghost var starts: seq<StartRecord>

    ghost function Snapshot(): ManagerState
      reads this
    {
      ManagerState(parallelism, maxRuns, interval, filePaths, queue, processors, waitables, stats, callbacks,
                   numRun, nextHandle, clock, crashed, seenMtime, received, starts)
    }

    constructor (parallelism: int, maxRuns: int, interval: int, clock: int)
      ensures Snapshot() == Fresh(parallelism, maxRuns, interval, clock)
    {
      this.parallelism, this.maxRuns, this.interval, this.clock := parallelism, maxRuns, interval, clock;
      filePaths, queue, processors, waitables, stats, callbacks := [], [], map[], map[], map[], map[];
      numRun, nextHandle, crashed := 0, 0, false;
      seenMtime, received, starts := map[], map[], [];
    }

    method AddCallbackToQueue(r: Request)
      modifies this
      ensures Snapshot() == AddCallback(old(Snapshot()), r) && crashed == old(crashed)
    {
      received := received[r.path := Pending(received, r.path) + [r]];
      callbacks := callbacks[r.path := (if r.path in callbacks then callbacks[r.path] else []) + [r]];
      if r.path in queue {
        queue := Minus(queue, {r.path});
      } else {
        MinusDisjoint(queue, {r.path});
      }
      queue := [r.path] + queue;
    }

    method UpdateFilePaths(paths: seq<Path>)
      modifies this
      ensures Snapshot() == SetFilePaths(old(Snapshot()), paths)
    {
      filePaths := paths;
      queue := Minus(queue, Elements(queue) - Elements(paths));
      StopVanished(paths);
    }

    /** The loop over the processors: those of deleted files go, with their stats. */
    method StopVanished(paths: seq<Path>)
      modifies `processors, `stats, `crashed
      ensures var gone := old(processors).Keys - Elements(paths);
              && processors == old(processors) - gone && stats == old(stats) - gone
              && crashed == (old(crashed) || !(gone <= old(stats).Keys))
    {
      var kept, missing := StopEach(paths);
      processors := kept;
      if missing {
        crashed := true;
      }
    }

    method StopEach(paths: seq<Path>) returns (kept: map<Path, Processor>, missing: bool)
      modifies `stats
      ensures Sifting(processors, old(stats), {}, paths, kept, stats, missing)
    {
      hide Sifting;
      var todo := processors.Keys;
      kept, missing := processors, false;
      SiftStart(processors, stats, paths);
      while todo != {}
        invariant todo <= processors.Keys && Sifting(processors, old(stats), todo, paths, kept, stats, missing)
        decreases |todo|
      {
        var f :| f in todo;
        SiftOne(processors, old(stats), todo, paths, kept, stats, missing, f);
        todo := todo - {f};
        if f !in paths {
          kept := kept - {f};
          missing := missing || f !in stats;
          stats := stats - {f};
        }
      }
    }

    /** One ready handle. */
    method CollectOne(e: Exit)
      modifies `clock, `crashed, `stats, `waitables, `processors
      ensures Snapshot() == Collect(old(Snapshot()), e.handle, old(clock) + e.elapsed, e.result)
      ensures processors.Keys <= old(processors).Keys
      ensures forall f | f in processors :: processors[f] == old(processors)[f]
    {
      hide Finished;
      clock := clock + e.elapsed;
      if e.handle in waitables {
        Finish(e.handle, e.result);
      }
    }

    /** Reading the result of a stopped processor raises, which nothing catches. */
    method Finish(handle: nat, result: Option<(int, int)>)
      requires handle in waitables
      modifies `crashed, `stats, `waitables, `processors
      ensures Snapshot() == Finished(old(Snapshot()), handle, result)
      ensures processors.Keys <= old(processors).Keys
      ensures forall f | f in processors :: processors[f] == old(processors)[f]
    {
      var p := waitables[handle];
      if p.path !in processors || processors[p.path] != p {
        crashed := true;
        return;
      }
      var runs := if p.path in stats then stats[p.path].runCount else 0;
      var (dags, errors) := if result.Some? then result.value else (0, -1);
      stats := stats[p.path := FileStat(dags, errors, Some(clock), Some(clock - p.startTime), runs + 1)];
      waitables := waitables - {handle};
      processors := processors - {p.path};
    }

    method CollectReady(exits: seq<Exit>, ghost from: ManagerState, ghost before: seq<ManagerAction>)
      returns (ghost actions: seq<ManagerAction>)
      requires !crashed && Structured(Snapshot()) && Reaches(from, before, Snapshot())
      modifies this
      ensures Reaches(from, actions, Snapshot())
      ensures crashed || Inputs(actions) == Inputs(before) + Exited(exits)
      ensures crashed || NoneLeft(processors, exits)
      ensures queue == old(queue) && processors.Keys <= old(processors).Keys
      ensures forall f | f in processors :: processors[f] == old(processors)[f]
    {
      hide Reaches;
      hide Inputs;
      hide Structured;
      hide Collect;
      actions := before;
      for i := 0 to |exits|
        invariant !crashed && Structured(Snapshot()) && Reaches(from, actions, Snapshot())
        invariant Inputs(actions) == Inputs(before) + Exited(exits[..i])
        invariant NoneLeft(processors, exits[..i])
        invariant queue == old(queue) && processors.Keys <= old(processors).Keys
        invariant forall f | f in processors :: processors[f] == old(processors)[f]
      {
        ghost var e, m, now := exits[i], Snapshot(), clock + exits[i].elapsed;
        ghost var a := Ready(e.handle, now, e.result);
        ReachesOneMore(from, actions, m, a);
        InputsPush(actions, a);
        CollectStructured(m, e.handle, now, e.result);
        assert Exited(exits[..i + 1]) == Exited(exits[..i]) + Input(a);
        CollectOne(exits[i]);
        actions := actions + [a];
        if crashed {
          return;
        }
        CollectedIsGone(m, exits[..i], e, now);
        assert exits[..i + 1] == exits[..i] + [e];
      }
      assert exits[..|exits|] == exits;
    }

    /** `wait_until_finished`: in sync mode every processor is done before the results
        are collected. */
    method WaitForAll(awaited: nat -> (nat, Option<(int, int)>)) returns (exits: seq<Exit>)
      ensures forall f | f in processors :: exists i :: 0 <= i < |exits| && exits[i].handle == processors[f].handle
    {
      exits := [];
      var todo := processors.Keys;
      while todo != {}
        invariant todo <= processors.Keys
        invariant forall f | f in processors && f !in todo ::
                    exists i :: 0 <= i < |exits| && exits[i].handle == processors[f].handle
        decreases |todo|
      {
        var f :| f in todo;
        var h := processors[f].handle;
        ghost var was := exits;
        exits := exits + [Exit(h, awaited(h).0, awaited(h).1)];
        assert exits[|was|].handle == h && forall i :: 0 <= i < |was| ==> exits[i] == was[i];
        todo := todo - {f};
      }
    }

    /** One round of the start loop. */
    method StartOne(elapsed: nat)
      requires queue != []
      modifies this
      ensures Snapshot() == StartNext(old(Snapshot()), old(clock) + elapsed)
      ensures crashed == old(crashed) && |queue| < old(|queue|)
    {
      hide Launched;
      clock := clock + elapsed;
      var f := queue[0];
      queue := queue[1..];
      if f !in processors {
        Register(f);
      }
    }

    method Register(f: Path)
      modifies `callbacks, `processors, `waitables, `nextHandle, `starts
      ensures Snapshot() == Launched(old(Snapshot()), f)
    {
      hide LastFinish;
      starts := Launched(Snapshot(), f).starts;
      var p := Processor(f, nextHandle, clock, if f in callbacks then callbacks[f] else []);
      callbacks := callbacks - {f};
      processors := processors[f := p];
      waitables := waitables[nextHandle := p];
      nextHandle := nextHandle + 1;
    }

    method StartNewProcesses(elapsed: nat -> nat, ghost from: ManagerState, ghost before: seq<ManagerAction>)
      returns (ghost actions: seq<ManagerAction>)
      requires !crashed && Reaches(from, before, Snapshot())
      modifies this
      ensures !crashed && Reaches(from, actions, Snapshot()) && !SlotFree(Snapshot())
      ensures queue == [] || |processors| >= parallelism
      ensures Inputs(actions) == Inputs(before)
    {
      hide Reaches;
      hide StartNext;
      hide Inputs;
      actions := before;
      while parallelism - |processors| > 0 && queue != []
        invariant !crashed && Reaches(from, actions, Snapshot()) && Inputs(actions) == Inputs(before)
        decreases |queue|
      {
        ghost var a := Start(clock + elapsed(|queue|));
        InputsPush(actions, a);
        ReachesOneMore(from, actions, Snapshot(), a);
        StartOne(elapsed(|queue|));
        actions := actions + [a];
      }
    }

    /** The loop that singles out the files processed too recently. */
    method FindRecent(now: int, mode: SortMode) returns (recent: set<Path>)
      ensures recent == set f | f in filePaths && RecentlyProcessed(Snapshot(), f, now, mode)
    {
      recent := {};
      for i := 0 to |filePaths|
        invariant recent == set f | f in filePaths[..i] && RecentlyProcessed(Snapshot(), f, now, mode)
      {
        var f := filePaths[i];
        assert filePaths[..i + 1] == filePaths[..i] + [f];
        var finish := if f in stats then stats[f].lastFinish else None;
        if finish.Some? && now - finish.value < interval && !(mode.ByModifiedTime? && mode.mtimes(f) > finish.value) {
          recent := recent + {f};
        }
      }
      assert filePaths[..|filePaths|] == filePaths;
    }

    method SelectFiles(now: int, mode: SortMode) returns (files: seq<Path>)
      ensures files == ToQueue(Snapshot(), now, mode)
    {
      var recent := FindRecent(now, mode);
      var atLimit := set f | f in stats && stats[f].runCount == maxRuns;
      assert Excluded(Snapshot(), now, mode) == processors.Keys + recent + atLimit;
      files := Minus(Candidates(filePaths, mode), processors.Keys + recent + atLimit);
    }

    method PrepareFilePathQueue(now: int, mode: SortMode)
      modifies this
      ensures Snapshot() == PrepareQueue(old(Snapshot()), now, mode)
      ensures crashed == old(crashed)
    {
      hide ToQueue;
      var files := SelectFiles(now, mode);
      AddStats(files);
      seenMtime := if mode.ByModifiedTime? then seenMtime + (map f | f in files :: mode.mtimes(f))
                   else seenMtime - Elements(files);
      queue := queue + files;
      clock := now;
    }

    method AddStats(files: seq<Path>)
      modifies `stats
      ensures stats == (map f | f in files :: NEW_STAT) + old(stats)
    {
      for i := 0 to |files|
        invariant stats == (map f | f in files[..i] :: NEW_STAT) + old(stats)
      {
        assert files[..i + 1] == files[..i] + [files[i]];
        if files[i] !in stats {
          stats := stats[files[i] := FileStat(0, 0, None, None, 0)];
        }
      }
      assert files[..|files|] == files;
    }

    method CheckMaxRuns() returns (reached: bool)
      ensures reached == MaxRunsReached(Snapshot())
    {
      if maxRuns == -1 {
        return false;
      }
      var todo := stats.Keys;
      while todo != {}
        invariant todo <= stats.Keys
        invariant forall f | f in stats && f !in todo :: stats[f].runCount >= maxRuns
        decreases |todo|
      {
        var f :| f in todo;
        if stats[f].runCount < maxRuns {
          return false;
        }
        todo := todo - {f};
      }
      reached := numRun >= maxRuns;
    }

    method AddCallbacks(requests: seq<Request>, ghost from: ManagerState, ghost before: seq<ManagerAction>)
      returns (ghost actions: seq<ManagerAction>)
      requires !crashed && Reaches(from, before, Snapshot())
      modifies this
      ensures !crashed && Reaches(from, actions, Snapshot()) && Inputs(actions) == Inputs(before) + Asked(requests)
    {
      hide Reaches;
      hide Inputs;
      hide AddCallback;
      actions := before;
      for i := 0 to |requests|
        invariant !crashed && Reaches(from, actions, Snapshot())
        invariant Inputs(actions) == Inputs(before) + Asked(requests[..i])
      {
        InputsPush(actions, Callback(requests[i]));
        assert Asked(requests[..i + 1]) == Asked(requests[..i]) + [Callback(requests[i])];
        ReachesOneMore(from, actions, Snapshot(), Callback(requests[i]));
        AddCallbackToQueue(requests[i]);
        actions := actions + [Callback(requests[i])];
      }
      assert requests[..|requests|] == requests;
    }

    method RefillQueue(sorting: Sorting, elapsed: nat, ghost from: ManagerState, ghost before: seq<ManagerAction>)
      returns (ghost actions: seq<ManagerAction>)
      requires !crashed && Reaches(from, before, Snapshot())
      requires sorting.Shuffled? ==> forall s :: multiset(sorting.shuffle(s)) == multiset(s)
      modifies this
      ensures !crashed && Reaches(from, actions, Snapshot()) && Inputs(actions) == Inputs(before)
      ensures Snapshot() == if old(queue) != [] then old(Snapshot())
                            else PrepareQueue(old(Snapshot()), old(clock) + elapsed, ModeOf(sorting, old(filePaths)))
    {
      hide Reaches;
      hide PrepareQueue;
      hide Inputs;
      actions := before;
      if queue == [] {
        var mode := ModeOf(sorting, filePaths);
        ghost var a := Prepare(clock + elapsed, mode);
        ReachesOneMore(from, actions, Snapshot(), a);
        InputsPush(actions, a);
        PrepareFilePathQueue(clock + elapsed, mode);
        actions := actions + [a];
      }
    }

    method Relist(listing: Option<seq<Path>>, ghost from: ManagerState, ghost before: seq<ManagerAction>)
      returns (ghost actions: seq<ManagerAction>)
      requires !crashed && Reaches(from, before, Snapshot())
      requires listing.Some? ==> NoDup(listing.value)
      modifies this
      ensures Reaches(from, actions, Snapshot()) && Inputs(actions) == Inputs(before) + Listed(listing)
    {
      hide Reaches;
      hide Inputs;
      hide SetFilePaths;
      hide NoDup;
      actions := before;
      if listing.Some? {
        ghost var a := Refresh(listing.value);
        ReachesOneMore(from, actions, Snapshot(), a);
        InputsPush(actions, a);
        UpdateFilePaths(listing.value);
        actions := actions + [a];
      }
    }

    /** Takes in what has happened since the last round. */
    method TakeIn(r: Round, ghost from: ManagerState, ghost before: seq<ManagerAction>)
      returns (ghost actions: seq<ManagerAction>)
      requires !crashed && Sensible(r) && Structured(from) && Reaches(from, before, Snapshot())
      modifies this
      ensures Reaches(from, actions, Snapshot())
      ensures crashed || Inputs(actions) == Inputs(before) + TakenIn(r)
    {
      hide Reaches;
      hide Inputs;
      hide Asked;
      hide Exited;
      hide Structured;
      actions := AddCallbacks(Requested(r.signal), from, before);
      RunStructured(from, actions, Snapshot());
      actions := CollectReady(r.ready, from, actions);
      if crashed {
        return;
      }
      actions := Relist(r.listing, from, actions);
      if crashed {
        return;
      }
      actions := AddCallbacks(r.zombies, from, actions);
    }

    /** The end of a round. In sync mode everything in progress is waited for and then
        found, besides whatever else is ready, such as a process that was stopped. */
    method CollectLast(r: Round, asyncMode: bool, ghost from: ManagerState, ghost before: seq<ManagerAction>)
      returns (ghost actions: seq<ManagerAction>, ghost last: seq<Exit>)
      requires !crashed && Structured(from) && Reaches(from, before, Snapshot())
      modifies this
      ensures Reaches(from, actions, Snapshot())
      ensures crashed || Inputs(actions) == Inputs(before) + Exited(last)
      ensures CollectedAt(r, asyncMode, last) && (!asyncMode ==> crashed || processors == map[])
      ensures queue == old(queue) && processors.Keys <= old(processors).Keys
    {
      hide Reaches;
      hide Inputs;
      hide Exited;
      hide Structured;
      hide NoneLeft;
      var exits := r.finished;
      if !asyncMode {
        var waited := WaitForAll(r.awaited);
        exits := waited + r.finished;
        assert forall i :: 0 <= i < |waited| ==> exits[i] == waited[i];
        assert exits[|waited|..] == r.finished;
      }
      last := exits;
      RunStructured(from, before, Snapshot());
      actions := CollectReady(exits, from, before);
      if !crashed && !asyncMode {
        NobodyLeft(processors, exits);
      }
    }

    /** One round of `_run_parsing_loop`. All its inputs are dealt with, and at
        `filled`, when it has started what it could, no slot is free for a queued file;
        in sync mode nothing is in progress at the end. */
    method RunRound(r: Round, asyncMode: bool, ghost from: ManagerState, ghost before: seq<ManagerAction>)
      returns (ghost actions: seq<ManagerAction>, ghost filled: ManagerState, ghost last: seq<Exit>, stop: bool)
      requires !crashed && Sensible(r) && Structured(from) && Reaches(from, before, Snapshot())
      modifies this
      ensures Reaches(from, actions, Snapshot())
      ensures crashed || Inputs(actions) == Inputs(before) + RoundInputs(r, asyncMode, last)
      ensures Halts(r) || Idle(r, asyncMode) ==> Snapshot() == old(Snapshot())
      ensures !(crashed || Halts(r) || Idle(r, asyncMode)) ==>
                && !SlotFree(filled) && queue == filled.queue && processors.Keys <= filled.processors.Keys
                && CollectedAt(r, asyncMode, last) && (!asyncMode ==> processors == map[])
      ensures stop <==> crashed || Halts(r) || (!Idle(r, asyncMode) && MaxRunsReached(Snapshot()))
    {
      hide Reaches;
      hide Inputs;
      hide MaxRunsReached;
      hide SlotFree;
      hide TakenIn;
      hide Exited;
      hide PrepareQueue;
      hide Structured;
      filled, last := Snapshot(), [];
      if Halts(r) || Idle(r, asyncMode) {
        return before, filled, last, Halts(r);
      }
      actions := TakeIn(r, from, before);
      if crashed {
        return actions, filled, last, true;
      }
      actions := RefillQueue(r.sorting, r.elapsed(0), from, actions);
      actions := StartNewProcesses(r.elapsed, from, actions);
      filled := Snapshot();
      ReachesOneMore(from, actions, Snapshot(), NextLoop);
      InputsPush(actions, NextLoop);
      numRun := numRun + 1;
      actions := actions + [NextLoop];
      actions, last := CollectLast(r, asyncMode, from, actions);
      if crashed {
        return actions, filled, last, true;
      }
      stop := CheckMaxRuns();
    }

    /** Before the loop: the first listing, the first queue, and in async mode the
        first processors. */
    method StartUp(r: Round, asyncMode: bool) returns (ghost actions: seq<ManagerAction>)
      requires !crashed && queue == [] && Sensible(r)
      modifies this
      ensures Reaches(old(Snapshot()), actions, Snapshot())
      ensures crashed || Inputs(actions) == Listed(r.listing)
      ensures crashed || (asyncMode ==> !SlotFree(Snapshot()))
    {
      ghost var from := Snapshot();
      actions := Relist(r.listing, from, []);
      if crashed {
        return;
      }
      hide Reaches;
      hide SlotFree;
      hide PrepareQueue;
      actions := RefillQueue(r.sorting, r.elapsed(0), from, actions);
      if asyncMode {
        actions := StartNewProcesses(r.elapsed, from, actions);
      }
    }

    /** The parsing loop: whatever it meets, all it does is a run of the steps that
        takes in every round met so far, and it stops exactly on an exception, on a
        signal to end, or after a round that reaches the run limit. The structure
        holds when it stops, and no callback was lost. */
    method RunParsingLoop(first: Round, asyncMode: bool, rounds: seq<Round>)
      returns (ghost actions: seq<ManagerAction>, ghost lasts: seq<seq<Exit>>, done: nat, stopped: bool)
      requires !crashed && queue == [] && Sensible(first) && forall r | r in rounds :: Sensible(r)
      requires Structured(Snapshot()) && forall f :: CallbacksKept(Snapshot(), f)
      modifies this
      ensures Reaches(old(Snapshot()), actions, Snapshot())
      ensures done <= |rounds| && (done < |rounds| ==> stopped) && |lasts| == done
      ensures crashed || Inputs(actions) == Listed(first.listing) + RoundsInputs(rounds[..done], asyncMode, lasts)
      ensures stopped <==> crashed || (done > 0 && EndsWith(rounds[done - 1], asyncMode, Snapshot()))
      ensures Structured(Snapshot()) && forall f :: CallbacksKept(Snapshot(), f)
    {
      hide Structured;
      hide CallbacksKept;
      hide Reaches;
      hide Inputs;
      hide RoundInputs;
      hide RoundsInputs;
      hide Sensible;
      ghost var from := Snapshot();
      actions := StartUp(first, asyncMode);
      NoRounds(asyncMode);
      done, stopped, lasts := 0, crashed, [];
      while done < |rounds| && !stopped
        invariant done <= |rounds| && |lasts| == done && Reaches(from, actions, Snapshot())
        invariant crashed || Inputs(actions) == Listed(first.listing) + RoundsInputs(rounds[..done], asyncMode, lasts)
        invariant stopped <==> crashed || (done > 0 && EndsWith(rounds[done - 1], asyncMode, Snapshot()))
      {
        var r := rounds[done];
        ghost var filled, last;
        actions, filled, last, stopped := RunRound(r, asyncMode, from, actions);
        RoundsPush(rounds[..done], asyncMode, lasts, r, last);
        assert rounds[..done + 1] == rounds[..done] + [r];
        done, lasts := done + 1, lasts + [last];
      }
      KeptOverRun(from, actions, Snapshot());
    }
  }

  /** The loop ends with this round: on its signal, or because the limit is reached. */
  ghost predicate EndsWith(r: Round, asyncMode: bool, m: ManagerState) {
    Halts(r) || (!Idle(r, asyncMode) && MaxRunsReached(m))
  }

  lemma NoRounds(asyncMode: bool)
    ensures RoundsInputs([], asyncMode, []) == []
  {
  }
}
