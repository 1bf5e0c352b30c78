/** The state of DagFileProcessorManager and the steps of its parsing loop
    (airflow/dag_processing/manager.py). Clock readings, directory listings,
    modification times, finished processes and callback requests are inputs. */
module Manager {
  import opened Sequences
  import opened StableSort

  type Path = string

  datatype Request = Request(path: Path, payload: string)

  /** `handle` is the waitable handle of the process, never reused. */
  datatype Processor = Processor(path: Path, handle: nat, startTime: int, callbacks: seq<Request>)

  datatype FileStat = FileStat(
    numDags: int, importErrors: int, lastFinish: Option<int>, lastDuration: Option<int>, runCount: nat)

  /** One start of a processor: what the file's stats said at that moment, and the
      modification time seen when the file was queued, in modified_time mode. */
  datatype StartRecord = StartRecord(
    path: Path, time: int, lastFinish: Option<int>, mtime: Option<int>, callbacks: seq<Request>)

  /** `crashed` marks an exception that ended the loop. The last three fields are history. */
  datatype ManagerState = ManagerState(
    parallelism: int,
    maxRuns: int,
    interval: int,
    filePaths: seq<Path>,
    queue: seq<Path>,
    processors: map<Path, Processor>,
    waitables: map<nat, Processor>,
    stats: map<Path, FileStat>,
    callbacks: map<Path, seq<Request>>,
    numRun: nat,
    nextHandle: nat,
    clock: int,
    crashed: bool,
    seenMtime: map<Path, int>,
    received: map<Path, seq<Request>>,
    starts: seq<StartRecord>)

  function Fresh(parallelism: int, maxRuns: int, interval: int, clock: int): ManagerState {
    ManagerState(parallelism, maxRuns, interval, [], [], map[], map[], map[], map[], 0, 0, clock, false,
                 map[], map[], [])
  }

  function RunCount(m: ManagerState, f: Path): nat {
    if f in m.stats then m.stats[f].runCount else 0
  }

  function LastFinish(m: ManagerState, f: Path): Option<int> {
    if f in m.stats then m.stats[f].lastFinish else None
  }

  function Pending(callbacks: map<Path, seq<Request>>, f: Path): seq<Request> {
    if f in callbacks then callbacks[f] else []
  }

  // ---- Steps ------------------------------------------------------------------

  /** Callbacks go first: the file moves to the front of the queue. */
  function AddCallback(m: ManagerState, r: Request): ManagerState {
    m.(callbacks := m.callbacks[r.path := Pending(m.callbacks, r.path) + [r]],
       queue := [r.path] + Minus(m.queue, {r.path}),
       received := m.received[r.path := Pending(m.received, r.path) + [r]])
  }

  function Vanished(m: ManagerState, paths: seq<Path>): set<Path> {
    m.processors.Keys - Elements(paths)
  }

  /** Processors of deleted files are stopped, but their waitables stay; a file
      that never got stats raises. */
  function SetFilePaths(m: ManagerState, paths: seq<Path>): ManagerState {
    var gone := Vanished(m, paths);
    m.(filePaths := paths,
       queue := Minus(m.queue, Elements(m.queue) - Elements(paths)),
       processors := m.processors - gone,
       stats := m.stats - gone,
       crashed := m.crashed || !(gone <= m.stats.Keys))
  }

  function FinishedStat(runs: nat, p: Processor, now: int, result: Option<(int, int)>): FileStat {
    FileStat(if result.Some? then result.value.0 else 0, if result.Some? then result.value.1 else -1,
             Some(now), Some(now - p.startTime), runs + 1)
  }

  /** The processor under `handle` is done: record the result, then pop both
      indexes. A processor that is no longer the registered one of its path was
      stopped when its file vanished; that closed the channel its result is read
      from, so reading the result raises (and the second pop may miss as well). */
  function Finished(m: ManagerState, handle: nat, result: Option<(int, int)>): ManagerState
    requires handle in m.waitables
  {
    var p := m.waitables[handle];
    if p.path !in m.processors || m.processors[p.path] != p then m.(crashed := true)
    else
      m.(stats := m.stats[p.path := FinishedStat(RunCount(m, p.path), p, m.clock, result)],
         waitables := m.waitables - {handle}, processors := m.processors - {p.path})
  }

  /** A ready handle. */
  function Collect(m: ManagerState, handle: nat, now: int, result: Option<(int, int)>): ManagerState {
    var n := m.(clock := now);
    if handle !in m.waitables then n else Finished(n, handle, result)
  }

  predicate SlotFree(m: ManagerState) {
    m.parallelism - |m.processors| > 0 && m.queue != []
  }

  /** A processor is started for `f`, now, and takes over its pending callbacks. */
  function Launched(m: ManagerState, f: Path): ManagerState {
    var p := Processor(f, m.nextHandle, m.clock, Pending(m.callbacks, f));
    m.(callbacks := m.callbacks - {f}, processors := m.processors[f := p],
       waitables := m.waitables[m.nextHandle := p], nextHandle := m.nextHandle + 1,
       starts := m.starts + [StartRecord(f, m.clock, LastFinish(m, f),
                                         if f in m.seenMtime then Some(m.seenMtime[f]) else None, p.callbacks)])
  }

  /** One round of the start loop: a file already in progress is skipped, and its
      callbacks stay pending. */
  function StartNext(m: ManagerState, now: int): ManagerState
    requires m.queue != []
  {
    var f, n := m.queue[0], m.(queue := m.queue[1..], clock := now);
    if f in m.processors then n else Launched(n, f)
  }

  /** How the candidate files are ordered: by modification time, latest first, or
      by name or by a seeded shuffle, of which only the resulting order matters. */
  datatype SortMode = ByModifiedTime(mtimes: Path -> int) | InOrder(order: seq<Path>)

  function MtimeRanks(paths: seq<Path>, mtimes: Path -> int): (r: seq<Ranked<Path>>)
    ensures |r| == |paths| && Items(r) == paths
  {
    seq(|paths|, i requires 0 <= i < |paths| => Ranked(-mtimes(paths[i]), paths[i]))
  }

  function Candidates(paths: seq<Path>, mode: SortMode): seq<Path> {
    match mode
    case ByModifiedTime(mtimes) => Items(Sort(MtimeRanks(paths, mtimes)))
    case InOrder(order) => order
  }

  /** Processed within the interval, and not modified since if that is looked at. */
  predicate RecentlyProcessed(m: ManagerState, f: Path, now: int, mode: SortMode) {
    var finish := LastFinish(m, f);
    finish.Some? && now - finish.value < m.interval
    && !(mode.ByModifiedTime? && mode.mtimes(f) > finish.value)
  }

  function Excluded(m: ManagerState, now: int, mode: SortMode): set<Path> {
    m.processors.Keys
    + (set f | f in m.filePaths && RecentlyProcessed(m, f, now, mode))
    + (set f | f in m.stats && m.stats[f].runCount == m.maxRuns)
  }

  const NEW_STAT := FileStat(0, 0, None, None, 0)

  function ToQueue(m: ManagerState, now: int, mode: SortMode): seq<Path> {
    Minus(Candidates(m.filePaths, mode), Excluded(m, now, mode))
  }

  function PrepareQueue(m: ManagerState, now: int, mode: SortMode): ManagerState {
    var files := ToQueue(m, now, mode);
    m.(clock := now, queue := m.queue + files,
       stats := (map f | f in files :: NEW_STAT) + m.stats,
       seenMtime := if mode.ByModifiedTime? then m.seenMtime + (map f | f in files :: mode.mtimes(f))
                    else m.seenMtime - Elements(files))
  }

  function MaxRunsReached(m: ManagerState): bool {
    && m.maxRuns != -1
    && (forall f | f in m.stats :: m.stats[f].runCount >= m.maxRuns)
    && m.numRun >= m.maxRuns
  }

  // ---- Runs -------------------------------------------------------------------

  datatype ManagerAction =
    | Callback(request: Request)
    | Refresh(paths: seq<Path>)
    | Ready(handle: nat, now: int, result: Option<(int, int)>)
    | Start(now: int)
    | Prepare(now: int, mode: SortMode)
    | NextLoop

  /** The clock does not go back, a listing names each file once, the queue is
      only refilled when it is empty, and nothing happens after a crash. */
  ghost predicate Enabled(m: ManagerState, a: ManagerAction) {
    && !m.crashed
    && match a
       case Callback(_) => true
       case Refresh(paths) => NoDup(paths)
       case Ready(_, now, _) => now >= m.clock
       case Start(now) => now >= m.clock && SlotFree(m)
       case Prepare(now, mode) =>
         now >= m.clock && m.queue == [] && (mode.InOrder? ==> multiset(mode.order) == multiset(m.filePaths))
       case NextLoop => true
  }

  ghost function Step(m: ManagerState, a: ManagerAction): ManagerState
    requires Enabled(m, a)
  {
    match a
    case Callback(r) => AddCallback(m, r)
    case Refresh(paths) => SetFilePaths(m, paths)
    case Ready(handle, now, result) => Collect(m, handle, now, result)
    case Start(now) => StartNext(m, now)
    case Prepare(now, mode) => PrepareQueue(m, now, mode)
    case NextLoop => m.(numRun := m.numRun + 1)
  }

  ghost predicate Reaches(m: ManagerState, actions: seq<ManagerAction>, n: ManagerState)
    decreases |actions|
  {
    if actions == [] then m == n
    else Enabled(m, actions[0]) && Reaches(Step(m, actions[0]), actions[1..], n)
  }

  /** No file is deleted from the listing while it is being processed. */
  ghost predicate KeepsInProgress(m: ManagerState, a: ManagerAction) {
    a.Refresh? ==> Vanished(m, a.paths) == {}
  }

  ghost predicate Undisturbed(m: ManagerState, actions: seq<ManagerAction>)
    decreases |actions|
  {
    actions == [] ||
    (Enabled(m, actions[0]) && KeepsInProgress(m, actions[0]) && Undisturbed(Step(m, actions[0]), actions[1..]))
  }
}
