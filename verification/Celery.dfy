/** The state of CeleryExecutor and what each of its operations does to it
    (airflow/executors/celery_executor.py). The broker's answers, the result
    backend's answers and the clock are inputs. */
module Celery {
  import opened Sequences
  import opened OrderedMaps
  import opened Executor

  type TaskId = string

  datatype Status =
    | StatusSuccess | StatusFailure | StatusRevoked | StatusStarted | StatusPending
    | StatusOther(name: string)

  /** What sending one task comes to: `apply_async` times out, raises something
      else, returns nothing, or returns a result with its present state. */
  datatype SendOutcome =
    | SendTimedOut
    | SendRaised
    | SendNothing
    | Sent(id: TaskId, status: Status, info: string)

  /** How an operation ended: normally, or with an exception that escaped. */
  datatype Raised = NoError | KeyError | TypeError

  /** The observable history of one key. `vanished` counts sends that returned
      nothing, `merged` publications of a key that was already running,
      `reaccepted` acceptances while a terminal event was still buffered, `doubled`
      adoptions of a key that was still queued, `unknown` state changes while the
      key was not running; the multisets hold the terminal events recorded,
      returned by a flush, and overwritten before any flush. */
  datatype Ledger = Ledger(
    accepted: nat, reaccepted: nat, doubled: nat, finished: nat, vanished: nat, merged: nat, published: nat,
    unknown: nat,
    recorded: multiset<Event>, returned: multiset<Event>, overwritten: multiset<Event>)

  const BLANK := Ledger(0, 0, 0, 0, 0, 0, 0, 0, multiset{}, multiset{}, multiset{})

  datatype CeleryState = CeleryState(
    base: ExecutorState,
    tasks: OrderedMap<TaskInstanceKey, TaskId>,
    timeouts: OrderedMap<TaskInstanceKey, int>,
    retries: map<TaskInstanceKey, int>,
    maxRetries: int,
    adoptionTimeout: int,
    raised: Raised,
    history: map<TaskInstanceKey, Ledger>)

  function Initial(parallelism: int, maxRetries: int, adoptionTimeout: int): CeleryState {
    CeleryState(Executor.Empty(parallelism), OrderedMap([], map[]), OrderedMap([], map[]), map[],
                maxRetries, adoptionTimeout, NoError, map[])
  }

  predicate Terminal(e: Event) {
    e.state.Success? || e.state.Failed?
  }

  predicate HoldsTerminal(s: ExecutorState, k: TaskInstanceKey) {
    k in s.events && Terminal(s.events[k])
  }

  function LedgerOf(c: CeleryState, k: TaskInstanceKey): Ledger {
    if k in c.history then c.history[k] else BLANK
  }

  function Log(c: CeleryState, k: TaskInstanceKey, l: Ledger): CeleryState {
    c.(history := c.history[k := l])
  }

  function Accept(c: CeleryState, k: TaskInstanceKey): CeleryState {
    var l := LedgerOf(c, k);
    Log(c, k, l.(accepted := l.accepted + 1,
                 reaccepted := l.reaccepted + (if HoldsTerminal(c.base, k) then 1 else 0),
                 doubled := l.doubled + if c.base.queued.Has(k) then 1 else 0))
  }

  function Vanish(c: CeleryState, k: TaskInstanceKey): CeleryState {
    var l := LedgerOf(c, k);
    Log(c, k, l.(vanished := l.vanished + 1))
  }

  function Merge(c: CeleryState, k: TaskInstanceKey): CeleryState {
    var l := LedgerOf(c, k);
    Log(c, k, l.(merged := l.merged + 1))
  }

  function Conclude(c: CeleryState, k: TaskInstanceKey, known: bool): CeleryState {
    var l := LedgerOf(c, k);
    Log(c, k, if known then l.(finished := l.finished + 1) else l.(unknown := l.unknown + 1))
  }

  /** `event_buffer[k] = e`. */
  function SetEvent(c: CeleryState, k: TaskInstanceKey, e: Event): CeleryState {
    var l := LedgerOf(c, k);
    var gone := if HoldsTerminal(c.base, k) then multiset{c.base.events[k]} else multiset{};
    var added := if Terminal(e) then multiset{e} else multiset{};
    Log(c.(base := c.base.(events := c.base.events[k := e])), k,
        l.(overwritten := l.overwritten + gone, recorded := l.recorded + added))
  }

  /** `change_state`, which Celery extends to its two own maps. */
  function Finish(c: CeleryState, k: TaskInstanceKey, e: Event): CeleryState {
    var d := SetEvent(c, k, e);
    Conclude(d.(base := d.base.(running := c.base.running - {k}),
                tasks := c.tasks.Remove(k), timeouts := c.timeouts.Remove(k)),
             k, k in c.base.running)
  }

  function UpdateTaskState(c: CeleryState, k: TaskInstanceKey, status: Status, info: string): CeleryState {
    match status
    case StatusSuccess => Finish(c, k, Event(Success, info))
    case StatusFailure => Finish(c, k, Event(Failed, info))
    case StatusRevoked => Finish(c, k, Event(Failed, info))
    case StatusStarted => c.(timeouts := c.timeouts.Remove(k))
    case StatusPending => c
    case StatusOther(_) => c
  }

  function QueueTask(c: CeleryState, k: TaskInstanceKey, t: QueuedTask): CeleryState {
    if Known(c.base, k) then c
    else Accept(c, k).(base := QueueCommand(c.base, k, t))
  }

  // ---- Publishing -----------------------------------------------------------

  /** A key picked for sending for the first time starts at try one. */
  function MarkTries(retries: map<TaskInstanceKey, int>, keys: seq<TaskInstanceKey>): map<TaskInstanceKey, int> {
    map k | k in retries.Keys + Elements(keys) :: if k in retries then retries[k] else 1
  }

  /** A task that left the queue because its send succeeded. */
  function Launch(c: CeleryState, k: TaskInstanceKey, sent: SendOutcome): CeleryState
    requires sent.Sent?
  {
    var d := if k in c.base.running then Merge(c, k) else c;
    var e := d.(base := d.base.(running := d.base.running + {k}), tasks := d.tasks.Put(k, sent.id));
    UpdateTaskState(SetEvent(e, k, Event(Executor.Queued, sent.id)), k, sent.status, sent.info)
  }

  function Publish(c: CeleryState, k: TaskInstanceKey): CeleryState {
    var l := LedgerOf(c, k);
    Log(c, k, l.(published := l.published + 1))
  }

  function Dequeue(c: CeleryState, k: TaskInstanceKey): CeleryState {
    c.(base := c.base.(queued := c.base.queued.Remove(k)), retries := c.retries - {k})
  }

  /** What becomes of a task that has left the queue. */
  function Settle(c: CeleryState, k: TaskInstanceKey, o: SendOutcome): CeleryState {
    match o
    case SendTimedOut => Conclude(SetEvent(c, k, Event(Failed, "")), k, true)
    case SendRaised => Conclude(SetEvent(c, k, Event(Failed, "")), k, true)
    case SendNothing => Vanish(c, k)
    case Sent(_, _, _) => Launch(c, k, o)
  }

  predicate Retries(c: CeleryState, k: TaskInstanceKey, o: SendOutcome) {
    o.SendTimedOut? && k in c.retries && c.retries[k] <= c.maxRetries
  }

  /** One send and what `_process_tasks` makes of it. */
  function ProcessOne(c: CeleryState, k: TaskInstanceKey, o: SendOutcome): CeleryState {
    var p := Publish(c, k);
    if Retries(c, k, o) then p.(retries := c.retries[k := c.retries[k] + 1])
    else if !c.base.queued.Has(k) || k !in c.retries then p.(raised := KeyError)
    else Settle(Dequeue(p, k), k, o)
  }

  function ProcessAll(c: CeleryState, keys: seq<TaskInstanceKey>, send: TaskInstanceKey -> SendOutcome): CeleryState
    decreases |keys|
  {
    if keys == [] || !c.raised.NoError? then c
    else ProcessAll(ProcessOne(c, keys[0], send(keys[0])), keys[1..], send)
  }

  function TriggerSends(c: CeleryState, slots: int, send: TaskInstanceKey -> SendOutcome): CeleryState {
    var keys := Selected(c.base.queued, slots);
    ProcessAll(c.(raised := NoError, retries := MarkTries(c.retries, keys)), keys, send)
  }

  // ---- Fetching states ------------------------------------------------------

  type Answers = map<TaskId, (Status, string)>

  /** A key-value or database backend answers for every id it stores; the
      multiprocessing fetcher leaves out the ids whose query raised. */
  datatype Backend = Stored(results: Answers) | Polled(replies: Answers)

  function GetMany(b: Backend, ids: set<TaskId>): Answers {
    match b
    case Stored(results) =>
      map id | id in ids :: if id in results then results[id] else (StatusPending, "")
    case Polled(replies) =>
      map id | id in ids && id in replies :: replies[id]
  }

  /** The update loop over a snapshot of the tasks; a missing id raises. */
  function UpdateAll(c: CeleryState, keys: seq<TaskInstanceKey>, ids: map<TaskInstanceKey, TaskId>,
                     answers: Answers): CeleryState
    decreases |keys|
  {
    if keys == [] then c
    else if keys[0] !in ids || ids[keys[0]] !in answers then c.(raised := TypeError)
    else
      var (status, info) := answers[ids[keys[0]]];
      UpdateAll(UpdateTaskState(c, keys[0], status, info), keys[1..], ids, answers)
  }

  /** The stalled-task scan: it stops at the first deadline in the future. */
  function ScanStalled(order: seq<TaskInstanceKey>, deadlines: map<TaskInstanceKey, int>,
                       now: int): (r: seq<TaskInstanceKey>)
    ensures r <= order
  {
    if order == [] || order[0] !in deadlines || deadlines[order[0]] > now then []
    else [order[0]] + ScanStalled(order[1..], deadlines, now)
  }

  function FailAll(c: CeleryState, keys: seq<TaskInstanceKey>): CeleryState
    decreases |keys|
  {
    if keys == [] then c else FailAll(Finish(c, keys[0], Event(Failed, "")), keys[1..])
  }

  function CheckStalled(c: CeleryState, now: int): CeleryState {
    FailAll(c, ScanStalled(c.timeouts.order, c.timeouts.values, now))
  }

  function SyncStates(c: CeleryState, b: Backend, now: int): CeleryState {
    var start := c.(raised := NoError);
    if c.tasks.order == [] then start
    else
      var d := UpdateAll(start, c.tasks.order, c.tasks.values, GetMany(b, c.tasks.values.Values));
      if d.raised.NoError? then CheckStalled(d, now) else d
  }

  // ---- Adoption -------------------------------------------------------------

  datatype TaskInstance =
    TaskInstance(key: TaskInstanceKey, externalId: Option<TaskId>, queuedAt: int)

  /** `celery_tasks`: the last instance with an id wins. */
  function ById(tis: seq<TaskInstance>): map<TaskId, TaskInstance> {
    if tis == [] then map[]
    else
      var last := tis[|tis| - 1];
      var rest := ById(tis[..|tis| - 1]);
      if last.externalId.Some? then rest[last.externalId.value := last] else rest
  }

  function WithoutId(tis: seq<TaskInstance>): seq<TaskInstance> {
    if tis == [] then []
    else (if tis[0].externalId.None? then [tis[0]] else []) + WithoutId(tis[1..])
  }

  /** Enters an adopted key in the three dictionaries. */
  function Enrol(c: CeleryState, k: TaskInstanceKey, id: TaskId, deadline: int): CeleryState {
    c.(timeouts := c.timeouts.Put(k, deadline), tasks := c.tasks.Put(k, id),
       base := c.base.(running := c.base.running + {k}))
  }

  function AdoptOne(c: CeleryState, ti: TaskInstance, id: TaskId, status: Status, info: string): CeleryState {
    var d := if ti.key in c.base.running then c else Accept(c, ti.key);
    UpdateTaskState(Enrol(d, ti.key, id, ti.queuedAt + c.adoptionTimeout), ti.key, status, info)
  }

  /** `order` is the order in which the answers are iterated over. */
  function AdoptAll(c: CeleryState, order: seq<TaskId>, answers: Answers, known: map<TaskId, TaskInstance>): CeleryState
    decreases |order|
  {
    if order == [] then c
    else if order[0] !in answers || order[0] !in known then AdoptAll(c, order[1..], answers, known)
    else
      var (status, info) := answers[order[0]];
      AdoptAll(AdoptOne(c, known[order[0]], order[0], status, info), order[1..], answers, known)
  }

  function TryAdopt(c: CeleryState, tis: seq<TaskInstance>, b: Backend, order: seq<TaskId>): CeleryState {
    var known := ById(tis);
    AdoptAll(c.(raised := NoError), order, GetMany(b, known.Keys), known)
  }

  /** What adoption hands back to the scheduler for clearing. */
  function NotAdopted(tis: seq<TaskInstance>): seq<TaskInstance> {
    if ById(tis) == map[] then tis else WithoutId(tis)
  }

  // ---- Flushing and runs ----------------------------------------------------

  /** The history after `out` has been returned by a flush. */
  function LogReturned(c: CeleryState, out: map<TaskInstanceKey, Event>): map<TaskInstanceKey, Ledger> {
    map k | k in c.history.Keys + out.Keys ::
      var l := LedgerOf(c, k);
      if k in out && Terminal(out[k]) then l.(returned := l.returned + multiset{out[k]}) else l
  }

  function FlushEvents(c: CeleryState, dagIds: Option<set<string>>): CeleryState {
    c.(base := Flush(c.base, dagIds), raised := NoError,
       history := LogReturned(c, Flushed(c.base, dagIds)))
  }

  datatype CeleryAction =
    | Queueing(key: TaskInstanceKey, task: QueuedTask)
    | Sending(slots: int, send: TaskInstanceKey -> SendOutcome)
    | Syncing(backend: Backend, now: int)
    | Adopting(tis: seq<TaskInstance>, backend: Backend, order: seq<TaskId>)
    | Flushing(dagIds: Option<set<string>>)

  function Do(c: CeleryState, a: CeleryAction): CeleryState {
    match a
    case Queueing(k, t) => QueueTask(c, k, t)
    case Sending(slots, send) => TriggerSends(c, slots, send)
    case Syncing(b, now) => SyncStates(c, b, now)
    case Adopting(tis, b, order) => TryAdopt(c, tis, b, order)
    case Flushing(dagIds) => FlushEvents(c, dagIds)
  }

  /** A heartbeat is a trigger round for the open slots followed by a sync. */
  function CeleryRun(c: CeleryState, actions: seq<CeleryAction>): CeleryState
    decreases |actions|
  {
    if actions == [] then c else CeleryRun(Do(c, actions[0]), actions[1..])
  }
}
