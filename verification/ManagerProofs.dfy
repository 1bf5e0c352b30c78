/** What DagFileProcessorManager keeps over every run of its parsing loop. */
module ManagerProofs {
  import opened Sequences
  import opened StableSort
  import opened Manager

  // ---- Structure: every run -------------------------------------------------------

  ghost predicate WithinSlots(processors: map<Path, Processor>, parallelism: int) {
    |processors| <= if parallelism < 0 then 0 else parallelism
  }

  /** Each processor is registered under its path and to be found under its
      handle; handles are never reused. */
  ghost predicate Registered(processors: map<Path, Processor>, waitables: map<nat, Processor>, nextHandle: nat) {
    && (forall f | f in processors ::
          && processors[f].path == f && processors[f].handle in waitables
          && waitables[processors[f].handle] == processors[f])
    && (forall h | h in waitables :: waitables[h].handle == h && h < nextHandle)
  }

  /** At most `parallelism` processors, one per path, each to be found under its
      handle; no path queued twice. */
  ghost predicate Structured(m: ManagerState) {
    && WithinSlots(m.processors, m.parallelism)
    && NoDup(m.queue) && NoDup(m.filePaths)
    && Registered(m.processors, m.waitables, m.nextHandle)
  }

  lemma CandidatesDistinct(paths: seq<Path>, mode: SortMode)
    requires NoDup(paths) && (mode.InOrder? ==> multiset(mode.order) == multiset(paths))
    ensures NoDup(Candidates(paths, mode)) && Elements(Candidates(paths, mode)) == Elements(paths)
  {
    if mode.ByModifiedTime? {
      SortKeepsItems(MtimeRanks(paths, mode.mtimes));
    }
    NoDupPermutes(Candidates(paths, mode), paths);
  }

  lemma RefreshStructured(m: ManagerState, paths: seq<Path>)
    requires Structured(m) && NoDup(paths)
    ensures Structured(SetFilePaths(m, paths))
  {
    FewerSlots(m.processors, m.parallelism, Vanished(m, paths));
  }

  lemma FewerSlots(processors: map<Path, Processor>, parallelism: int, gone: set<Path>)
    requires WithinSlots(processors, parallelism)
    ensures WithinSlots(processors - gone, parallelism)
  {
    assert processors.Keys == (processors - gone).Keys + processors.Keys * gone;
    assert |processors.Keys| == |(processors - gone).Keys| + |processors.Keys * gone|;
  }

  lemma MoreSlots(processors: map<Path, Processor>, parallelism: int, p: Processor)
    requires p.path !in processors && parallelism - |processors| > 0
    ensures WithinSlots(processors[p.path := p], parallelism)
  {
    assert processors[p.path := p].Keys == processors.Keys + {p.path};
    assert |processors[p.path := p].Keys| == |processors.Keys| + 1;
  }

  lemma UnregisterKeeps(processors: map<Path, Processor>, waitables: map<nat, Processor>, nextHandle: nat, h: nat)
    requires Registered(processors, waitables, nextHandle) && h in waitables
    ensures Registered(processors - {waitables[h].path}, waitables - {h}, nextHandle)
  {
    var fewer := processors - {waitables[h].path};
    forall f | f in fewer ensures fewer[f].handle != h {
      assert processors[f].path == f;
    }
  }

  lemma RegisterKeeps(processors: map<Path, Processor>, waitables: map<nat, Processor>, nextHandle: nat, p: Processor)
    requires Registered(processors, waitables, nextHandle) && p.handle == nextHandle
    ensures Registered(processors[p.path := p], waitables[nextHandle := p], nextHandle + 1)
  {
  }

  lemma CollectStructured(m: ManagerState, h: nat, now: int, result: Option<(int, int)>)
    requires Structured(m)
    ensures Structured(Collect(m, h, now, result))
  {
    hide Registered;
    hide WithinSlots;
    hide NoDup;
    if h in m.waitables {
      FewerSlots(m.processors, m.parallelism, {m.waitables[h].path});
      UnregisterKeeps(m.processors, m.waitables, m.nextHandle, h);
    }
  }

  lemma TailNoDup<T>(s: seq<T>)
    requires NoDup(s) && s != []
    ensures NoDup(s[1..]) && s[0] !in s[1..]
  {
  }

  lemma StartStructured(m: ManagerState, now: int)
    requires Structured(m) && SlotFree(m)
    ensures Structured(StartNext(m, now))
  {
    hide Registered;
    hide WithinSlots;
    hide NoDup;
    hide Pending;
    hide LastFinish;
    TailNoDup(m.queue);
    var f := m.queue[0];
    if f !in m.processors {
      var p := Processor(f, m.nextHandle, now, Pending(m.callbacks, f));
      MoreSlots(m.processors, m.parallelism, p);
      RegisterKeeps(m.processors, m.waitables, m.nextHandle, p);
    }
  }

  lemma PrepareStructured(m: ManagerState, now: int, mode: SortMode)
    requires Structured(m) && Enabled(m, Prepare(now, mode))
    ensures Structured(PrepareQueue(m, now, mode))
  {
    hide Registered;
    hide WithinSlots;
    hide Candidates;
    hide Excluded;
    hide NoDup;
    CandidatesDistinct(m.filePaths, mode);
    assert [] + ToQueue(m, now, mode) == ToQueue(m, now, mode);
  }

  lemma StepStructured(m: ManagerState, a: ManagerAction)
    requires Structured(m) && Enabled(m, a)
    ensures Structured(Step(m, a))
  {
    match a
    case Callback(r) =>
    case Refresh(paths) => RefreshStructured(m, paths);
    case Ready(h, now, result) => CollectStructured(m, h, now, result);
    case Start(now) => StartStructured(m, now);
    case Prepare(now, mode) => PrepareStructured(m, now, mode);
    case NextLoop =>
  }

  /** The structure holds after every run, callbacks and deletions included. */
  lemma {:induction false} RunStructured(m: ManagerState, actions: seq<ManagerAction>, n: ManagerState)
    requires Structured(m) && Reaches(m, actions, n)
    ensures Structured(n)
    decreases |actions|
  {
    hide Structured;
    if actions != [] {
      StepStructured(m, actions[0]);
      RunStructured(Step(m, actions[0]), actions[1..], n);
    }
  }

  // ---- The two indexes ------------------------------------------------------------

  /** Every waitable is the processor registered for its path. */
  ghost predicate IndexesAgree(m: ManagerState) {
    forall h | h in m.waitables ::
      m.waitables[h].path in m.processors && m.processors[m.waitables[h].path] == m.waitables[h]
  }

  /** A refresh keeps the indexes in agreement exactly if no file vanishes while it
      is in progress. */
  lemma RefreshAgreesIff(m: ManagerState, paths: seq<Path>)
    requires Structured(m) && IndexesAgree(m)
    ensures IndexesAgree(SetFilePaths(m, paths)) <==> Vanished(m, paths) == {}
  {
    hide NoDup;
    hide WithinSlots;
    hide Minus;
    var n := SetFilePaths(m, paths);
    if Vanished(m, paths) == {} {
      assert n.processors == m.processors;
    } else {
      var f :| f in Vanished(m, paths);
      assert m.waitables[m.processors[f].handle].path == f && f !in n.processors;
    }
  }

  lemma StepAgrees(m: ManagerState, a: ManagerAction)
    requires Structured(m) && IndexesAgree(m) && Enabled(m, a) && KeepsInProgress(m, a)
    ensures IndexesAgree(Step(m, a)) && !Step(m, a).crashed
  {
    if a.Refresh? {
      RefreshAgreesIff(m, a.paths);
    }
  }

  /** Some waitable is not the processor registered for its path. */
  ghost predicate Stale(m: ManagerState, h: nat) {
    h in m.waitables && (m.waitables[h].path !in m.processors || m.processors[m.waitables[h].path] != m.waitables[h])
  }

  lemma CollectStaysStale(m: ManagerState, h: nat, now: int, result: Option<(int, int)>, x: nat)
    requires Registered(m.processors, m.waitables, m.nextHandle) && Stale(m, h)
    ensures Stale(Collect(m, x, now, result), h)
  {
  }

  lemma StartStaysStale(m: ManagerState, h: nat, now: int)
    requires Registered(m.processors, m.waitables, m.nextHandle) && Stale(m, h) && m.queue != []
    ensures Stale(StartNext(m, now), h)
  {
  }

  lemma RefreshStaysStale(m: ManagerState, h: nat, paths: seq<Path>, now: int, mode: SortMode)
    ensures Stale(m, h) ==> Stale(SetFilePaths(m, paths), h) && Stale(PrepareQueue(m, now, mode), h)
  {
  }

  /** A stale waitable is never mended: it stays until collecting it raises. */
  lemma StepStaysStale(m: ManagerState, a: ManagerAction, h: nat)
    requires Structured(m) && Enabled(m, a) && Stale(m, h)
    ensures Stale(Step(m, a), h)
  {
    hide SetFilePaths;
    hide Collect;
    hide StartNext;
    hide PrepareQueue;
    match a
    case Refresh(paths) => RefreshStaysStale(m, h, paths, 0, InOrder([]));
    case Ready(x, now, result) => CollectStaysStale(m, h, now, result, x);
    case Start(now) => StartStaysStale(m, h, now);
    case Prepare(now, mode) => RefreshStaysStale(m, h, [], now, mode);
    case _ =>
  }

  lemma {:induction false} RunStaysStale(m: ManagerState, actions: seq<ManagerAction>, n: ManagerState, h: nat)
    requires Structured(m) && Stale(m, h) && Reaches(m, actions, n)
    ensures Stale(n, h)
    decreases |actions|
  {
    hide Structured;
    hide Stale;
    hide Step;
    if actions != [] {
      StepStructured(m, actions[0]);
      StepStaysStale(m, actions[0], h);
      RunStaysStale(Step(m, actions[0]), actions[1..], n, h);
    }
  }

  /** A file that vanishes in progress leaves a stale waitable. */
  lemma VanishingLeavesStale(m: ManagerState, a: ManagerAction) returns (h: nat)
    requires Structured(m) && Enabled(m, a) && !KeepsInProgress(m, a)
    ensures Stale(Step(m, a), h)
  {
    var f :| f in Vanished(m, a.paths);
    h := m.processors[f].handle;
    assert m.waitables[h].path == f;
  }

  /** After every run the two indexes agree and nothing has raised, exactly if no
      file vanished in progress on the way. They then name the same processors. */
  lemma {:induction false} RunAgreesIff(m: ManagerState, actions: seq<ManagerAction>, n: ManagerState)
    requires Structured(m) && IndexesAgree(m) && !m.crashed && Reaches(m, actions, n)
    ensures IndexesAgree(n) && !n.crashed <==> Undisturbed(m, actions)
    ensures IndexesAgree(n) ==> n.waitables.Values == n.processors.Values && |n.waitables| == |n.processors|
    decreases |actions|
  {
    hide Structured;
    hide Step;
    hide KeepsInProgress;
    if actions == [] {
      AgreeingIndexes(n);
    } else {
      var a, o := actions[0], Step(m, actions[0]);
      StepStructured(m, a);
      if KeepsInProgress(m, a) {
        StepAgrees(m, a);
        RunAgreesIff(o, actions[1..], n);
      } else {
        var h := VanishingLeavesStale(m, a);
        RunStaysStale(o, actions[1..], n, h);
        assert Stale(n, h);
      }
    }
  }

  lemma AgreeingIndexes(m: ManagerState)
    requires Structured(m) && IndexesAgree(m)
    ensures m.waitables.Values == m.processors.Values && |m.waitables| == |m.processors|
  {
    forall p | p in m.waitables.Values ensures p in m.processors.Values {
      var h :| h in m.waitables && m.waitables[h] == p;
      assert m.processors[p.path] == p;
    }
    forall p | p in m.processors.Values ensures p in m.waitables.Values {
      var f :| f in m.processors && m.processors[f] == p;
      assert m.waitables[p.handle] == p;
    }
    SameSize(m.waitables.Keys, m.processors);
  }

  lemma SameSize(handles: set<nat>, processors: map<Path, Processor>)
    requires forall f | f in processors :: processors[f].path == f && processors[f].handle in handles
    requires forall h | h in handles :: exists f :: f in processors && processors[f].handle == h
    requires forall f, g | f in processors && g in processors && processors[f].handle == processors[g].handle :: f == g
    ensures |handles| == |processors|
    decreases |processors|
  {
    if processors.Keys == {} {
      assert handles == {};
    } else {
      var f :| f in processors;
      var h := processors[f].handle;
      assert (processors - {f}).Keys == processors.Keys - {f};
      forall x | x in handles - {h} ensures exists g :: g in processors - {f} && (processors - {f})[g].handle == x {
        var g :| g in processors && processors[g].handle == x;
        assert g in processors - {f};
      }
      SameSize(handles - {h}, processors - {f});
    }
  }

  /** What goes wrong otherwise: the waitable of a file that vanished in progress
      is still there, and collecting it raises. */
  lemma VanishedFileCrashes(m: ManagerState, paths: seq<Path>, f: Path, now: int, result: Option<(int, int)>)
    requires Structured(m) && f in Vanished(m, paths)
    ensures m.processors[f].handle in SetFilePaths(m, paths).waitables
    ensures Collect(SetFilePaths(m, paths), m.processors[f].handle, now, result).crashed
  {
    assert m.waitables[m.processors[f].handle].path == f;
  }

  // ---- Callbacks: every run -------------------------------------------------------

  /** The callbacks handed to processors of `f`, in start order. */
  ghost function Handed(starts: seq<StartRecord>, f: Path): seq<Request> {
    if starts == [] then []
    else Handed(starts[..|starts| - 1], f)
         + if starts[|starts| - 1].path == f then starts[|starts| - 1].callbacks else []
  }

  ghost predicate CallbacksKept(m: ManagerState, f: Path) {
    Kept(Pending(m.received, f), Handed(m.starts, f), Pending(m.callbacks, f))
  }

  ghost predicate Kept(received: seq<Request>, handed: seq<Request>, pending: seq<Request>) {
    received == handed + pending
  }

  lemma HandedOver(starts: seq<StartRecord>, s: StartRecord, f: Path)
    ensures Handed(starts + [s], f) == Handed(starts, f) + if s.path == f then s.callbacks else []
  {
    assert (starts + [s])[..|starts|] == starts;
  }

  /** A start hands over all that is pending for its own file. */
  lemma StartHands(m: ManagerState, now: int, f: Path)
    requires m.queue != [] && m.queue[0] !in m.processors
    ensures var n := StartNext(m, now);
            if f == m.queue[0]
            then Handed(n.starts, f) == Handed(m.starts, f) + Pending(m.callbacks, f) && Pending(n.callbacks, f) == []
            else Handed(n.starts, f) == Handed(m.starts, f) + [] && Pending(n.callbacks, f) == Pending(m.callbacks, f)
  {
    hide Handed;
    var n := StartNext(m, now);
    HandedOver(m.starts, n.starts[|m.starts|], f);
  }

  lemma StartFrame(m: ManagerState, now: int)
    requires m.queue != []
    ensures StartNext(m, now).received == m.received && SameSettings(m, StartNext(m, now))
    ensures m.queue[0] in m.processors ==>
              StartNext(m, now).starts == m.starts && StartNext(m, now).callbacks == m.callbacks
  {
  }

  lemma StartKeepsCallbacks(m: ManagerState, now: int, f: Path)
    requires CallbacksKept(m, f) && m.queue != []
    ensures CallbacksKept(StartNext(m, now), f)
  {
    hide StartNext;
    hide Pending;
    hide Handed;
    StartFrame(m, now);
    if m.queue[0] !in m.processors {
      StartHands(m, now, f);
    }
  }

  lemma AddKeepsCallbacks(m: ManagerState, r: Request, f: Path)
    requires CallbacksKept(m, f)
    ensures CallbacksKept(AddCallback(m, r), f)
  {
    hide Handed;
    if r.path == f {
      assert Handed(m.starts, f) + (Pending(m.callbacks, f) + [r])
          == Handed(m.starts, f) + Pending(m.callbacks, f) + [r];
    }
  }

  ghost predicate SameSettings(m: ManagerState, n: ManagerState) {
    n.maxRuns == m.maxRuns && n.interval == m.interval && n.parallelism == m.parallelism
  }

  ghost predicate SameHistory(m: ManagerState, n: ManagerState) {
    n.callbacks == m.callbacks && n.received == m.received && n.starts == m.starts
  }

  lemma RefreshFrame(m: ManagerState, paths: seq<Path>)
    ensures SameHistory(m, SetFilePaths(m, paths)) && SameSettings(m, SetFilePaths(m, paths))
  {
  }

  lemma CollectFrame(m: ManagerState, h: nat, now: int, result: Option<(int, int)>)
    ensures SameHistory(m, Collect(m, h, now, result)) && SameSettings(m, Collect(m, h, now, result))
  {
  }

  lemma PrepareFrame(m: ManagerState, now: int, mode: SortMode)
    ensures SameHistory(m, PrepareQueue(m, now, mode)) && SameSettings(m, PrepareQueue(m, now, mode))
  {
  }

  lemma StepFrame(m: ManagerState, a: ManagerAction)
    requires Enabled(m, a) && !a.Callback? && !a.Start?
    ensures SameHistory(m, Step(m, a))
  {
    hide SetFilePaths;
    hide Collect;
    hide PrepareQueue;
    match a
    case Refresh(paths) => RefreshFrame(m, paths);
    case Ready(h, now, result) => CollectFrame(m, h, now, result);
    case Prepare(now, mode) => PrepareFrame(m, now, mode);
    case NextLoop =>
  }

  lemma StepKeepsCallbacks(m: ManagerState, a: ManagerAction, f: Path)
    requires CallbacksKept(m, f) && Enabled(m, a)
    ensures CallbacksKept(Step(m, a), f)
  {
    hide Kept;
    hide Handed;
    hide Pending;
    match a
    case Callback(r) => AddKeepsCallbacks(m, r, f);
    case Start(now) => StartKeepsCallbacks(m, now, f);
    case _ => StepFrame(m, a);
  }

  /** No callback request is lost, duplicated or reordered: over every run and for
      every file, what was received is what processors were given, batch by batch
      in start order, followed by what is still pending. */
  lemma {:induction false} RunKeepsCallbacks(m: ManagerState, actions: seq<ManagerAction>, n: ManagerState, f: Path)
    requires CallbacksKept(m, f) && Reaches(m, actions, n)
    ensures Pending(n.received, f) == Handed(n.starts, f) + Pending(n.callbacks, f)
    decreases |actions|
  {
    hide Step;
    if actions != [] {
      StepKeepsCallbacks(m, actions[0], f);
      RunKeepsCallbacks(Step(m, actions[0]), actions[1..], n, f);
    }
  }

  /** Kept is not the same as served: a request for a file that is in progress is
      left pending when the start loop skips its path, which is then queued no more. */
  lemma SkippedCallbackWaits(m: ManagerState, r: Request, now: int)
    requires Structured(m) && r.path in m.processors
    ensures var n := StartNext(AddCallback(m, r), now);
            r in Pending(n.callbacks, r.path) && r.path !in n.queue
  {
    var q := AddCallback(m, r).queue;
    assert q[1..] == Minus(m.queue, {r.path});
    assert Pending(AddCallback(m, r).callbacks, r.path) == Pending(m.callbacks, r.path) + [r];
  }

  // ---- The run limit ----------------------------------------------------------

  function One(b: bool): nat { if b then 1 else 0 }

  /** Runs so far, plus one if queued, plus one if in progress. */
  ghost function Committed(m: ManagerState, f: Path): nat {
    RunCount(m, f) + One(f in m.queue) + One(f in m.processors)
  }

  /** The bound. */
  ghost predicate WithinLimit(m: ManagerState, f: Path) {
    Committed(m, f) <= m.maxRuns
  }

  /** A file that is queued or in progress has stats. */
  ghost predicate Tracked(m: ManagerState, f: Path) {
    f in m.queue || f in m.processors ==> f in m.stats
  }

  /** One more run of `f` stays within the limit. */
  ghost predicate HasRoom(m: ManagerState, f: Path) {
    RunCount(m, f) + One(f in m.processors) < m.maxRuns
  }

  /** Only files out of progress and not at the limit are queued. */
  lemma QueuesOnly(m: ManagerState, now: int, mode: SortMode, f: Path)
    ensures f in ToQueue(m, now, mode) ==>
              f !in m.processors && (f in m.stats ==> m.stats[f].runCount != m.maxRuns)
  {
    hide Candidates;
    hide RecentlyProcessed;
    assert f in ToQueue(m, now, mode) ==> f !in Excluded(m, now, mode);
  }

  lemma PrepareTouches(m: ManagerState, now: int, mode: SortMode, f: Path)
    ensures var n := PrepareQueue(m, now, mode);
            && n.processors == m.processors && n.maxRuns == m.maxRuns && RunCount(n, f) == RunCount(m, f)
            && (m.queue == [] ==> n.queue == ToQueue(m, now, mode))
  {
    hide ToQueue;
    assert [] + ToQueue(m, now, mode) == ToQueue(m, now, mode);
  }

  lemma PrepareWithinLimit(m: ManagerState, now: int, mode: SortMode, f: Path)
    requires WithinLimit(m, f) && m.maxRuns >= 1 && m.queue == []
    ensures WithinLimit(PrepareQueue(m, now, mode), f)
  {
    hide PrepareQueue;
    hide ToQueue;
    PrepareTouches(m, now, mode, f);
    QueuesOnly(m, now, mode, f);
  }

  lemma PrepareTracks(m: ManagerState, now: int, mode: SortMode, f: Path)
    ensures Tracked(m, f) ==> Tracked(PrepareQueue(m, now, mode), f)
  {
  }

  /** Collecting leaves `f` alone, or finishes it. */
  lemma CollectTouches(m: ManagerState, h: nat, now: int, result: Option<(int, int)>, f: Path)
    ensures var n := Collect(m, h, now, result);
            && n.queue == m.queue && n.interval == m.interval && n.maxRuns == m.maxRuns
            && n.seenMtime == m.seenMtime && n.clock == now
            && (|| (&& (f in n.processors <==> f in m.processors) && (f in n.stats <==> f in m.stats)
                    && RunCount(n, f) == RunCount(m, f) && LastFinish(n, f) == LastFinish(m, f))
                || (&& f in m.processors && f !in n.processors && f in n.stats
                    && RunCount(n, f) == RunCount(m, f) + 1 && LastFinish(n, f) == Some(now)))
  {
  }

  lemma CollectWithinLimit(m: ManagerState, h: nat, now: int, result: Option<(int, int)>, f: Path)
    ensures WithinLimit(m, f) ==> WithinLimit(Collect(m, h, now, result), f)
    ensures Tracked(m, f) ==> Tracked(Collect(m, h, now, result), f)
  {
    hide Collect;
    CollectTouches(m, h, now, result, f);
  }

  /** Starting leaves `f` alone, or moves it from the queue, in progress or not. */
  lemma StartTouches(m: ManagerState, now: int, f: Path)
    requires NoDup(m.queue) && m.queue != []
    ensures var n := StartNext(m, now);
            && n.stats == m.stats && n.maxRuns == m.maxRuns
            && (if f == m.queue[0] then f in m.queue && f !in n.queue && f in n.processors
                else (f in n.queue <==> f in m.queue) && (f in n.processors <==> f in m.processors))
  {
    TailNoDup(m.queue);
    assert m.queue == [m.queue[0]] + m.queue[1..];
  }

  lemma StartWithinLimit(m: ManagerState, now: int, f: Path)
    requires NoDup(m.queue) && m.queue != []
    ensures WithinLimit(m, f) ==> WithinLimit(StartNext(m, now), f)
    ensures Tracked(m, f) ==> Tracked(StartNext(m, now), f)
  {
    hide StartNext;
    hide NoDup;
    StartTouches(m, now, f);
  }

  /** A callback keeps the bound exactly if its file has room for one run more,
      whether it is in progress or not, and leaves it tracked exactly if it has stats. */
  lemma CallbackWithinLimitIff(m: ManagerState, r: Request, f: Path)
    ensures WithinLimit(m, f) ==> (WithinLimit(AddCallback(m, r), f) <==> (r.path == f ==> HasRoom(m, f)))
    ensures Tracked(m, f) ==> (Tracked(AddCallback(m, r), f) <==> (r.path == f ==> f in m.stats))
  {
    assert r.path in AddCallback(m, r).queue;
  }

  ghost predicate Asks(a: ManagerAction, f: Path) {
    a.Callback? && a.request.path == f
  }

  /** A step keeps the bound exactly if it is no callback for a file without room,
      and keeps a file tracked exactly if it is no callback for one without stats. */
  lemma StepWithinLimit(m: ManagerState, a: ManagerAction, f: Path)
    requires Structured(m) && m.maxRuns >= 1 && Enabled(m, a)
    ensures WithinLimit(m, f) ==> (WithinLimit(Step(m, a), f) <==> (Asks(a, f) ==> HasRoom(m, f)))
    ensures Tracked(m, f) ==> (Tracked(Step(m, a), f) <==> (Asks(a, f) ==> f in m.stats))
  {
    hide WithinLimit;
    hide Tracked;
    match a
    case Callback(r) => CallbackWithinLimitIff(m, r, f);
    case Refresh(paths) => RefreshWithinLimit(m, paths, f);
    case Ready(h, now, result) => CollectWithinLimit(m, h, now, result, f);
    case Start(now) => StartWithinLimit(m, now, f);
    case Prepare(now, mode) =>
      if WithinLimit(m, f) { PrepareWithinLimit(m, now, mode, f); }
      PrepareTracks(m, now, mode, f);
    case NextLoop =>
      SameFile(m, Step(m, a), f);
  }

  /** What the bound and the interval look at. */
  lemma SameFile(m: ManagerState, n: ManagerState, f: Path)
    ensures n == m.(numRun := n.numRun) ==>
              && (WithinLimit(n, f) <==> WithinLimit(m, f)) && (Tracked(n, f) <==> Tracked(m, f))
              && (Eligible(n, f) <==> Eligible(m, f))
  {
  }

  /** A deletion keeps the bound even if the file is in progress. */
  lemma RefreshWithinLimit(m: ManagerState, paths: seq<Path>, f: Path)
    ensures WithinLimit(m, f) ==> WithinLimit(SetFilePaths(m, paths), f)
    ensures Tracked(m, f) ==> Tracked(SetFilePaths(m, paths), f)
  {
  }

  lemma StepKeepsSettings(m: ManagerState, a: ManagerAction)
    requires Enabled(m, a)
    ensures SameSettings(m, Step(m, a))
  {
    hide SetFilePaths;
    hide Collect;
    hide StartNext;
    hide PrepareQueue;
    match a
    case Callback(r) =>
    case Refresh(paths) => RefreshFrame(m, paths);
    case Ready(h, now, result) => CollectFrame(m, h, now, result);
    case Start(now) => StartFrame(m, now);
    case Prepare(now, mode) => PrepareFrame(m, now, mode);
    case NextLoop =>
  }

  /** Every callback for `f` in the run comes when it has room. */
  ghost predicate RequestsFit(m: ManagerState, actions: seq<ManagerAction>, f: Path)
    decreases |actions|
  {
    actions == [] ||
    (&& Enabled(m, actions[0]) && (Asks(actions[0], f) ==> HasRoom(m, f))
     && RequestsFit(Step(m, actions[0]), actions[1..], f))
  }

  /** The bound holds for `f` in every state the run passes through. */
  ghost predicate WithinLimitThroughout(m: ManagerState, actions: seq<ManagerAction>, f: Path)
    decreases |actions|
  {
    WithinLimit(m, f) &&
    (actions == [] || (Enabled(m, actions[0]) && WithinLimitThroughout(Step(m, actions[0]), actions[1..], f)))
  }

  /** With a run limit of at least one, whatever files are deleted: a run commits a
      file to at most that many runs in every state it passes through, exactly if
      every callback for that file comes when it has room. */
  lemma {:induction false} RunWithinLimit(m: ManagerState, actions: seq<ManagerAction>, n: ManagerState, f: Path)
    requires Structured(m) && m.maxRuns >= 1 && WithinLimit(m, f) && Reaches(m, actions, n)
    ensures WithinLimitThroughout(m, actions, f) <==> RequestsFit(m, actions, f)
    ensures RequestsFit(m, actions, f) ==> WithinLimit(n, f)
    decreases |actions|
  {
    hide Structured;
    hide WithinLimit;
    hide Tracked;
    hide HasRoom;
    hide Asks;
    hide Step;
    if actions != [] {
      var a, o := actions[0], Step(m, actions[0]);
      StepStructured(m, a);
      StepKeepsSettings(m, a);
      StepWithinLimit(m, a, f);
      if Asks(a, f) ==> HasRoom(m, f) {
        RunWithinLimit(o, actions[1..], n, f);
      }
    }
  }

  /** Every callback for `f` in the run comes when it has stats. */
  ghost predicate RequestsKnown(m: ManagerState, actions: seq<ManagerAction>, f: Path)
    decreases |actions|
  {
    actions == [] ||
    (&& Enabled(m, actions[0]) && (Asks(actions[0], f) ==> f in m.stats)
     && RequestsKnown(Step(m, actions[0]), actions[1..], f))
  }

  lemma {:induction false} RunTracks(m: ManagerState, actions: seq<ManagerAction>, n: ManagerState, f: Path)
    requires Structured(m) && m.maxRuns >= 1 && Tracked(m, f) && Reaches(m, actions, n)
    requires RequestsKnown(m, actions, f)
    ensures Tracked(n, f)
    decreases |actions|
  {
    hide Structured;
    hide WithinLimit;
    hide Tracked;
    hide Asks;
    hide Step;
    if actions != [] {
      StepStructured(m, actions[0]);
      StepKeepsSettings(m, actions[0]);
      StepWithinLimit(m, actions[0], f);
      RunTracks(Step(m, actions[0]), actions[1..], n, f);
    }
  }

  lemma {:induction false} RunKeepsSettings(m: ManagerState, actions: seq<ManagerAction>, n: ManagerState)
    requires Reaches(m, actions, n)
    ensures SameSettings(m, n)
    decreases |actions|
  {
    hide Step;
    if actions != [] {
      StepKeepsSettings(m, actions[0]);
      RunKeepsSettings(Step(m, actions[0]), actions[1..], n);
    }
  }

  /** When the manager reports the limit as reached, and every callback came for a
      file with stats and with room, nothing is queued or in progress and every file
      with stats ran exactly that often. All the files listed did exactly if they
      all have stats. */
  lemma LimitReachedMeansDone(parallelism: int, maxRuns: int, interval: int, clock: int,
                              actions: seq<ManagerAction>, n: ManagerState)
    requires maxRuns >= 1
    requires Reaches(Fresh(parallelism, maxRuns, interval, clock), actions, n)
    requires forall f :: RequestsFit(Fresh(parallelism, maxRuns, interval, clock), actions, f)
    requires forall f :: RequestsKnown(Fresh(parallelism, maxRuns, interval, clock), actions, f)
    requires MaxRunsReached(n)
    ensures n.queue == [] && n.processors == map[]
    ensures forall f | f in n.stats :: n.stats[f].runCount == maxRuns
    ensures (forall f | f in n.filePaths :: RunCount(n, f) == maxRuns) <==> Elements(n.filePaths) <= n.stats.Keys
  {
    hide Reaches;
    hide RequestsFit;
    hide RequestsKnown;
    var m := Fresh(parallelism, maxRuns, interval, clock);
    RunKeepsSettings(m, actions, n);
    forall f ensures WithinLimit(n, f) && Tracked(n, f) {
      RunWithinLimit(m, actions, n, f);
      RunTracks(m, actions, n, f);
    }
    LimitReachedDoneIff(n);
  }

  /** Nothing is queued or in progress and every file with stats ran exactly to the limit. */
  ghost predicate Done(m: ManagerState) {
    m.queue == [] && m.processors == map[] && forall f | f in m.stats :: m.stats[f].runCount == m.maxRuns
  }

  /** When the limit is reported as reached, all is done exactly if every file is within
      the limit and tracked. */
  lemma LimitReachedDoneIff(m: ManagerState)
    requires m.maxRuns >= 1 && MaxRunsReached(m)
    ensures Done(m) <==> forall f :: WithinLimit(m, f) && Tracked(m, f)
  {
    if forall f :: WithinLimit(m, f) && Tracked(m, f) {
      forall f | f in m.stats ensures m.stats[f].runCount == m.maxRuns { assert WithinLimit(m, f); }
      forall f ensures f !in m.processors { NothingCommitted(m, f); }
      if m.queue != [] {
        NothingCommitted(m, m.queue[0]);
        assert false;
      }
    }
  }

  lemma NothingCommitted(m: ManagerState, f: Path)
    requires WithinLimit(m, f) && Tracked(m, f) && MaxRunsReached(m)
    ensures f !in m.queue && f !in m.processors
  {
  }

  /** Once a file is past the limit the limit no longer holds it back: only
      equality is compared. */
  lemma LimitMissesOvershoot(m: ManagerState, f: Path, now: int, mode: SortMode)
    requires Structured(m) && (mode.InOrder? ==> multiset(mode.order) == multiset(m.filePaths))
    requires f in m.filePaths && f !in m.processors && !RecentlyProcessed(m, f, now, mode)
    requires RunCount(m, f) > m.maxRuns
    ensures f in PrepareQueue(m, now, mode).queue
  {
    CandidatesDistinct(m.filePaths, mode);
    assert f in Elements(m.filePaths);
    assert f in Candidates(m.filePaths, mode);
    assert f !in Excluded(m, now, mode);
  }

  // ---- The re-parse interval -----------------------------------------------------------

  /** `time` is late enough for a start, given the last finish and the modification
      time seen when the file was queued. */
  predicate LateEnough(interval: int, time: int, finish: Option<int>, mtime: Option<int>) {
    finish.Some? ==> time - finish.value >= interval || (mtime.Some? && mtime.value > finish.value)
  }

  ghost function SeenMtime(m: ManagerState, f: Path): Option<int> {
    if f in m.seenMtime then Some(m.seenMtime[f]) else None
  }

  /** Starting `f` as soon as it can be will be late enough: it is late enough now,
      or it is in progress and the interval does not ask for any wait. */
  ghost predicate Timely(m: ManagerState, f: Path) {
    if f in m.processors then m.interval <= 0
    else LateEnough(m.interval, m.clock, LastFinish(m, f), SeenMtime(m, f))
  }

  /** A queued file may be started. */
  ghost predicate Eligible(m: ManagerState, f: Path) {
    f in m.queue ==> Timely(m, f)
  }

  ghost predicate StartsLateEnough(m: ManagerState) {
    forall s | s in m.starts :: LateEnough(m.interval, s.time, s.lastFinish, s.mtime)
  }

  lemma PrepareEligible(m: ManagerState, now: int, mode: SortMode, f: Path)
    requires m.queue == []
    requires forall g | g in Candidates(m.filePaths, mode) :: g in m.filePaths
    ensures Eligible(PrepareQueue(m, now, mode), f)
  {
    var files, n := ToQueue(m, now, mode), PrepareQueue(m, now, mode);
    assert m.queue + files == files;
    if f in files {
      assert f !in Excluded(m, now, mode);
      assert !RecentlyProcessed(m, f, now, mode);
      assert LastFinish(n, f) == LastFinish(m, f);
      if mode.ByModifiedTime? { assert SeenMtime(n, f) == Some(mode.mtimes(f)); }
    }
  }

  lemma CollectEligible(m: ManagerState, h: nat, now: int, result: Option<(int, int)>, f: Path)
    requires Eligible(m, f) && now >= m.clock
    ensures Eligible(Collect(m, h, now, result), f)
  {
    hide Collect;
    CollectTouches(m, h, now, result, f);
  }

  /** A callback leaves its file eligible exactly if it is timely. */
  lemma CallbackEligibleIff(m: ManagerState, r: Request, f: Path)
    requires Eligible(m, f)
    ensures Eligible(AddCallback(m, r), f) <==> (r.path == f ==> Timely(m, f))
  {
    assert r.path in AddCallback(m, r).queue;
  }

  ghost predicate StepTimely(m: ManagerState, a: ManagerAction, f: Path) {
    Asks(a, f) ==> Timely(m, f)
  }

  lemma StartEligible(m: ManagerState, now: int, f: Path)
    requires NoDup(m.queue) && m.queue != [] && Eligible(m, f) && now >= m.clock
    ensures Eligible(StartNext(m, now), f)
  {
    TailNoDup(m.queue);
    assert m.queue == [m.queue[0]] + m.queue[1..];
  }

  lemma StartLateEnough(m: ManagerState, now: int)
    requires m.queue != [] && Eligible(m, m.queue[0]) && now >= m.clock && StartsLateEnough(m)
    ensures StartsLateEnough(StartNext(m, now))
  {
    assert m.queue[0] in m.queue;
  }

  /** A step leaves a queued file eligible exactly if it is no untimely request for it. */
  lemma StepEligible(m: ManagerState, a: ManagerAction, f: Path)
    requires Structured(m) && Eligible(m, f) && Enabled(m, a)
    ensures Eligible(Step(m, a), f) <==> StepTimely(m, a, f)
  {
    hide Eligible;
    match a
    case Callback(r) => CallbackEligibleIff(m, r, f);
    case Refresh(paths) => RefreshEligible(m, paths, f);
    case Ready(h, now, result) => CollectEligible(m, h, now, result, f);
    case Start(now) => StartEligible(m, now, f);
    case Prepare(now, mode) =>
      CandidatesDistinct(m.filePaths, mode);
      forall g | g in Candidates(m.filePaths, mode) ensures g in m.filePaths {
        assert g in Elements(m.filePaths);
      }
      PrepareEligible(m, now, mode, f);
    case NextLoop => SameFile(m, Step(m, a), f);
  }

  /** A deletion keeps a queued file eligible even if some file is in progress. */
  lemma RefreshEligible(m: ManagerState, paths: seq<Path>, f: Path)
    ensures Eligible(m, f) ==> Eligible(SetFilePaths(m, paths), f)
  {
  }

  lemma StepStartsLateEnough(m: ManagerState, a: ManagerAction)
    requires StartsLateEnough(m) && Enabled(m, a)
    requires a.Start? ==> Eligible(m, m.queue[0])
    ensures StartsLateEnough(Step(m, a)) && Step(m, a).interval == m.interval
  {
    hide Eligible;
    StepKeepsSettings(m, a);
    if a.Start? {
      StartLateEnough(m, a.now);
    } else if !a.Callback? {
      StepFrame(m, a);
    }
  }

  /** Every request for `f` in the run is timely when it comes in. */
  ghost predicate RequestsTimely(m: ManagerState, actions: seq<ManagerAction>, f: Path)
    decreases |actions|
  {
    actions == [] ||
    (Enabled(m, actions[0]) && StepTimely(m, actions[0], f) && RequestsTimely(Step(m, actions[0]), actions[1..], f))
  }

  ghost predicate EligibleThroughout(m: ManagerState, actions: seq<ManagerAction>, f: Path)
    decreases |actions|
  {
    Eligible(m, f) &&
    (actions == [] || (Enabled(m, actions[0]) && EligibleThroughout(Step(m, actions[0]), actions[1..], f)))
  }

  /** Over every run, deletions included: a queued file is eligible in every state
      passed through exactly if every request for it is timely. */
  lemma {:induction false} RunEligible(m: ManagerState, actions: seq<ManagerAction>, n: ManagerState, f: Path)
    requires Structured(m) && Eligible(m, f) && Reaches(m, actions, n)
    ensures EligibleThroughout(m, actions, f) <==> RequestsTimely(m, actions, f)
    decreases |actions|
  {
    hide Structured;
    hide Eligible;
    hide StepTimely;
    hide Step;
    if actions != [] {
      StepStructured(m, actions[0]);
      StepEligible(m, actions[0], f);
      if StepTimely(m, actions[0], f) {
        RunEligible(Step(m, actions[0]), actions[1..], n, f);
      }
    }
  }

  /** If every request is timely, every start of a processor comes at least the
      interval after that file's last recorded finish, unless the file was queued
      in modified_time mode with a modification time after that finish - whatever
      happened between queueing and starting, deletions included. */
  lemma {:induction false} EveryStartLateEnough(m: ManagerState, actions: seq<ManagerAction>, n: ManagerState)
    requires Structured(m) && (forall f :: Eligible(m, f)) && StartsLateEnough(m)
    requires Reaches(m, actions, n) && forall f :: RequestsTimely(m, actions, f)
    ensures StartsLateEnough(n) && n.interval == m.interval
    decreases |actions|
  {
    hide Structured;
    hide Eligible;
    hide StartsLateEnough;
    hide StepTimely;
    if actions != [] {
      var a, o := actions[0], Step(m, actions[0]);
      StepStructured(m, a);
      forall f ensures Eligible(o, f) && RequestsTimely(o, actions[1..], f) {
        assert RequestsTimely(m, actions, f);
        StepEligible(m, a, f);
      }
      StepStartsLateEnough(m, a);
      EveryStartLateEnough(o, actions[1..], n);
    }
  }

  /** A file that never ran is queued whatever the limit says, so the bound is
      kept exactly if the limit is at least one. */
  lemma NewFileNeedsALimit(m: ManagerState, f: Path, now: int, mode: SortMode)
    requires Structured(m) && Enabled(m, Prepare(now, mode))
    requires f in m.filePaths && f !in m.processors && f !in m.stats
    ensures f in PrepareQueue(m, now, mode).queue
    ensures WithinLimit(PrepareQueue(m, now, mode), f) <==> m.maxRuns >= 1
  {
    hide Minus;
    hide Candidates;
    CandidatesDistinct(m.filePaths, mode);
    hide NoDup;
    assert f in Elements(m.filePaths);
    assert f in Candidates(m.filePaths, mode) && f !in Excluded(m, now, mode);
    assert m.queue + ToQueue(m, now, mode) == ToQueue(m, now, mode);
    assert RunCount(PrepareQueue(m, now, mode), f) == 0;
  }

  /** The manager starts in a state from which all of the above follows. */
  lemma FreshIsSound(parallelism: int, maxRuns: int, interval: int, clock: int, f: Path)
    ensures var m := Fresh(parallelism, maxRuns, interval, clock);
            && Structured(m) && IndexesAgree(m) && CallbacksKept(m, f)
            && Eligible(m, f) && StartsLateEnough(m) && (maxRuns >= 0 ==> WithinLimit(m, f)) && Tracked(m, f)
  {
  }

  lemma {:induction false} ReachesConcat(m: ManagerState, first: seq<ManagerAction>, n: ManagerState,
                                         second: seq<ManagerAction>, o: ManagerState)
    requires Reaches(m, first, n) && Reaches(n, second, o)
    ensures Reaches(m, first + second, o)
    decreases |first|
  {
    hide Step;
    hide Enabled;
    if first == [] {
      assert first + second == second;
    } else {
      ReachesConcat(Step(m, first[0]), first[1..], n, second, o);
      assert (first + second)[1..] == first[1..] + second;
    }
  }

  lemma ReachesOneMore(m: ManagerState, actions: seq<ManagerAction>, n: ManagerState, a: ManagerAction)
    requires Reaches(m, actions, n) && Enabled(n, a)
    ensures Reaches(m, actions + [a], Step(n, a))
  {
    assert [a][1..] == [];
    assert Reaches(Step(n, a), [], Step(n, a));
    ReachesConcat(m, actions, n, [a], Step(n, a));
  }
}
