/** LocalExecutor with limited parallelism (airflow/executors/local_executor.py):
    the executor process, N worker processes, a FIFO task queue with `join` and
    `task_done` accounting, a result queue, and one poison pill per worker.
    Every step of every process interleaves freely. */
module LocalLimited {
  import opened Sequences
  import opened OrderedMaps
  import opened Executor
  import opened LocalWork

  /** Where a worker is in its loop: waiting in `get`, holding an item, done
      running it, result already put but `task_done` still owed, or gone. */
  datatype Worker = Idle | Fetched(item: Item) | Ran(result: Result) | Reported | Exited

  /** Where the executor is: `end` sends the pills, joins, then syncs once more. */
  datatype Phase = Accepting | SendingPills(sent: nat) | Joining | FinalSync | Ended

  /** The last five fields are history: what was submitted to the queue, run by a
      worker, put in the result queue, turned into a state change (in that order), and
      refused. */
  datatype State = State(
    base: ExecutorState,
    phase: Phase,
    tasks: seq<Item>,
    unfinished: int,
    workers: seq<Worker>,
    results: seq<Result>,
    submitted: multiset<TaskInstanceKey>,
    executed: multiset<Result>,
    reported: multiset<Result>,
    changed: seq<Result>,
    rejected: set<TaskInstanceKey>)

  ghost function Start(base: ExecutorState, parallelism: nat): State {
    State(base, Accepting, [], 0, seq(parallelism, _ => Idle), [],
          multiset{}, multiset{}, multiset{}, [], {})
  }

  datatype Action =
    | Enqueue(key: TaskInstanceKey, task: QueuedTask)
    | Trigger(key: TaskInstanceKey)
    | Sync
    | BeginEnd
    | SendPill
    | BeginJoin
    | JoinReturns
    | Finish
    | Fetch(worker: nat)
    | Execute(worker: nat, ok: bool)
    | Report(worker: nat)
    | TaskDone(worker: nat)

  predicate WorkerStep(a: Action) {
    a.Fetch? || a.Execute? || a.Report? || a.TaskDone?
  }

  ghost predicate Enabled(s: State, a: Action) {
    match a
    case Enqueue(_, _) => s.phase.Accepting?
    case Trigger(k) => s.phase.Accepting? && s.base.queued.Has(k)
    case Sync => (s.phase.Accepting? || s.phase.FinalSync?) && s.results != []
    case BeginEnd => s.phase.Accepting?
    case SendPill => s.phase.SendingPills? && s.phase.sent < |s.workers|
    case BeginJoin => s.phase.SendingPills? && s.phase.sent >= |s.workers|
    case JoinReturns => s.phase.Joining? && s.unfinished == 0
    case Finish => s.phase.FinalSync? && s.results == []
    case Fetch(i) => i < |s.workers| && s.workers[i].Idle? && s.tasks != []
    case Execute(i, _) => i < |s.workers| && s.workers[i].Fetched? && s.workers[i].item.Work?
    case Report(i) => i < |s.workers| && s.workers[i].Ran?
    case TaskDone(i) =>
      i < |s.workers| && (s.workers[i].Reported? || s.workers[i] == Fetched(PoisonPill))
  }

  /** An invalid command raises after the key left the queue for the running set. */
  ghost function Submit(s: State, k: TaskInstanceKey): State
    requires s.base.queued.Has(k)
  {
    var command := s.base.queued.values[k].command;
    var taken := s.(base := Take(s.base, k));
    if ValidCommand(command) then
      taken.(tasks := s.tasks + [Work(k, command)], unfinished := s.unfinished + 1,
             submitted := s.submitted + multiset{k})
    else
      taken.(rejected := s.rejected + {k})
  }

  ghost function Apply(s: State, a: Action): State
    requires Enabled(s, a)
  {
    match a
    case Enqueue(k, t) => s.(base := QueueCommand(s.base, k, t))
    case Trigger(k) => Submit(s, k)
    case Sync =>
      var r := s.results[0];
      s.(base := ChangeState(s.base, r.key, ResultEvent(r)), results := s.results[1..],
         changed := s.changed + [r])
    case BeginEnd => s.(phase := SendingPills(0))
    case SendPill =>
      s.(phase := SendingPills(s.phase.sent + 1), tasks := s.tasks + [PoisonPill],
         unfinished := s.unfinished + 1)
    case BeginJoin => s.(phase := Joining)
    case JoinReturns => s.(phase := FinalSync)
    case Finish => s.(phase := Ended)
    case Fetch(i) => s.(workers := s.workers[i := Fetched(s.tasks[0])], tasks := s.tasks[1..])
    case Execute(i, ok) =>
      var r := Result(s.workers[i].item.key, ok);
      s.(workers := s.workers[i := Ran(r)], executed := s.executed + multiset{r})
    case Report(i) =>
      var r := s.workers[i].result;
      s.(workers := s.workers[i := Reported], results := s.results + [r],
         reported := s.reported + multiset{r})
    case TaskDone(i) =>
      s.(workers := s.workers[i := if s.workers[i].Reported? then Idle else Exited],
         unfinished := s.unfinished - 1)
  }

  /** `actions` is an interleaving that leads from `s` to `t`. */
  ghost predicate Reaches(s: State, actions: seq<Action>, t: State)
    decreases |actions|
  {
    if actions == [] then s == t
    else Enabled(s, actions[0]) && Reaches(Apply(s, actions[0]), actions[1..], t)
  }

  // ---- What the counts count ------------------------------------------------

  function Busy(): Worker -> nat { (w: Worker) => if w.Idle? || w.Exited? then 0 else 1 }
  function TookPill(): Worker -> nat { (w: Worker) => if w.Exited? || w == Fetched(PoisonPill) then 1 else 0 }
  function IsPill(): Item -> nat { (i: Item) => if i.PoisonPill? then 1 else 0 }
  function WorkOf(k: TaskInstanceKey): Item -> nat { (i: Item) => if i.Work? && i.key == k then 1 else 0 }
  function FetchedOf(k: TaskInstanceKey): Worker -> nat {
    (w: Worker) => if w.Fetched? && w.item.Work? && w.item.key == k then 1 else 0
  }
  function RanOf(k: TaskInstanceKey): Worker -> nat { (w: Worker) => if w.Ran? && w.result.key == k then 1 else 0 }
  function RanAs(r: Result): Worker -> nat { (w: Worker) => if w == Ran(r) then 1 else 0 }

  ghost function PillsSent(s: State): nat {
    match s.phase
    case Accepting => 0
    case SendingPills(n) => n
    case _ => |s.workers|
  }

  // ---- Invariants -----------------------------------------------------------

  /** Queue accounting and pills: an unfinished item is queued or held by a
      worker, every pill sent is queued or taken, commands precede pills, and no
      command is left once a pill has been taken. */
  ghost predicate Control(s: State) {
    && s.unfinished == |s.tasks| + Sum(s.workers, Busy())
    && PillsSent(s) <= |s.workers|
    && Sum(s.tasks, IsPill()) + Sum(s.workers, TookPill()) == PillsSent(s)
    && (forall i, j :: 0 <= i < j < |s.tasks| ==> s.tasks[i].PoisonPill? ==> s.tasks[j].PoisonPill?)
    && (Sum(s.workers, TookPill()) > 0 ==> forall i :: 0 <= i < |s.tasks| ==> s.tasks[i].PoisonPill?)
    && (s.phase.FinalSync? || s.phase.Ended? ==> s.unfinished == 0)
    && (s.phase.Ended? ==> s.results == [])
  }

  /** Copies of `k` between the queue and its state change. */
  ghost function InFlight(s: State, k: TaskInstanceKey): nat {
    Sum(s.tasks, WorkOf(k)) + Sum(s.workers, FetchedOf(k)) + Sum(s.workers, RanOf(k)) + Sum(s.results, ResultOf(k))
  }

  ghost predicate KeyLedger(s: State, k: TaskInstanceKey) {
    && InFlight(s, k) == (if k in s.base.running && k !in s.rejected then 1 else 0)
    && (k in s.rejected ==> k in s.base.running)
    && (s.base.queued.Has(k) ==> k !in s.base.running)
    && s.submitted[k] == Sum(s.tasks, WorkOf(k)) + Sum(s.workers, FetchedOf(k))
                         + s.executed[Result(k, true)] + s.executed[Result(k, false)]
  }

  ghost predicate ResultLedger(s: State, r: Result) {
    && s.executed[r] == Sum(s.workers, RanAs(r)) + s.reported[r]
    && s.reported[r] == Sum(s.results, Is(r)) + multiset(s.changed)[r]
  }

  ghost predicate Inv(s: State) {
    && Control(s)
    && (forall k :: KeyLedger(s, k))
    && (forall r :: ResultLedger(s, r))
  }

  lemma StartInv(base: ExecutorState, parallelism: nat)
    requires base.queued.values.Keys !! base.running && base.running == {}
    ensures Inv(Start(base, parallelism))
  {
    var s := Start(base, parallelism);
    SumZero(s.workers, Busy());
    SumZero(s.workers, TookPill());
    forall k ensures KeyLedger(s, k) {
      SumZero(s.workers, FetchedOf(k));
      SumZero(s.workers, RanOf(k));
    }
    forall r ensures ResultLedger(s, r) {
      SumZero(s.workers, RanAs(r));
    }
  }

  lemma WorkerKeepsControl(s: State, a: Action)
    requires Control(s) && Enabled(s, a) && WorkerStep(a)
    ensures Control(Apply(s, a))
  {
    hide Sum;
    var t := Apply(s, a);
    SumUpdate(s.workers, a.worker, t.workers[a.worker], Busy());
    SumUpdate(s.workers, a.worker, t.workers[a.worker], TookPill());
    if s.phase.Ended? {
      SumZero(s.workers, Busy());
    }
    if a.Fetch? {
      SumHead(s.tasks, IsPill());
      assert forall i :: 0 <= i < |t.tasks| ==> t.tasks[i] == s.tasks[i + 1];
    }
  }

  lemma ExecutorKeepsControl(s: State, a: Action)
    requires Control(s) && Enabled(s, a) && !WorkerStep(a)
    ensures Control(Apply(s, a))
  {
    hide Sum;
    match a
    case Trigger(k) =>
      var command := s.base.queued.values[k].command;
      SumPush(s.tasks, Work(k, command), IsPill());
      SumZero(s.tasks, IsPill());
    case SendPill =>
      SumPush(s.tasks, PoisonPill, IsPill());
    case _ =>
  }

  lemma WorkerKeepsKey(s: State, a: Action, k: TaskInstanceKey)
    requires KeyLedger(s, k) && Enabled(s, a) && WorkerStep(a)
    ensures KeyLedger(Apply(s, a), k)
  {
    hide Sum;
    var t := Apply(s, a);
    SumUpdate(s.workers, a.worker, t.workers[a.worker], FetchedOf(k));
    SumUpdate(s.workers, a.worker, t.workers[a.worker], RanOf(k));
    if a.Report? {
      SumPush(s.results, s.workers[a.worker].result, ResultOf(k));
    } else if a.Fetch? {
      SumHead(s.tasks, WorkOf(k));
    }
  }

  lemma TriggerKeepsKey(s: State, x: TaskInstanceKey, k: TaskInstanceKey)
    requires s.base.queued.Has(x) && KeyLedger(s, k) && KeyLedger(s, x)
    ensures KeyLedger(Submit(s, x), k)
  {
    hide Sum;
    hide Minus;
    SumPush(s.tasks, Work(x, s.base.queued.values[x].command), WorkOf(k));
  }

  lemma ExecutorKeepsKey(s: State, a: Action, k: TaskInstanceKey)
    requires Enabled(s, a) && !WorkerStep(a) && !a.Trigger? && KeyLedger(s, k)
    ensures KeyLedger(Apply(s, a), k)
  {
    hide Sum;
    match a
    case SendPill =>
      SumPush(s.tasks, PoisonPill, WorkOf(k));
    case Sync =>
      SumHead(s.results, ResultOf(k));
    case _ =>
  }

  lemma WorkerKeepsResult(s: State, a: Action, r: Result)
    requires Enabled(s, a) && WorkerStep(a) && ResultLedger(s, r)
    ensures ResultLedger(Apply(s, a), r)
  {
    hide Sum;
    SumUpdate(s.workers, a.worker, Apply(s, a).workers[a.worker], RanAs(r));
    if a.Report? {
      SumPush(s.results, s.workers[a.worker].result, Is(r));
    }
  }

  lemma ExecutorKeepsResult(s: State, a: Action, r: Result)
    requires Enabled(s, a) && !WorkerStep(a) && ResultLedger(s, r)
    ensures ResultLedger(Apply(s, a), r)
  {
    hide Sum;
    if a.Sync? {
      SumHead(s.results, Is(r));
    }
  }

  lemma StepKeepsInv(s: State, a: Action)
    requires Inv(s) && Enabled(s, a)
    ensures Inv(Apply(s, a))
  {
    if WorkerStep(a) { WorkerKeepsControl(s, a); } else { ExecutorKeepsControl(s, a); }
    forall k ensures KeyLedger(Apply(s, a), k) {
      if WorkerStep(a) {
        WorkerKeepsKey(s, a, k);
      } else if a.Trigger? {
        TriggerKeepsKey(s, a.key, k);
      } else {
        ExecutorKeepsKey(s, a, k);
      }
    }
    forall r ensures ResultLedger(Apply(s, a), r) {
      if WorkerStep(a) { WorkerKeepsResult(s, a, r); } else { ExecutorKeepsResult(s, a, r); }
    }
  }

  /** The invariants hold after every interleaving. */
  lemma {:induction false} RunKeepsInv(s: State, actions: seq<Action>, t: State)
    requires Inv(s) && Reaches(s, actions, t)
    ensures Inv(t) && |t.workers| == |s.workers|
    decreases |actions|
  {
    if actions != [] {
      StepKeepsInv(s, actions[0]);
      RunKeepsInv(Apply(s, actions[0]), actions[1..], t);
    }
  }

  // ---- Exactly once ---------------------------------------------------------

  /** Once `end` has returned, every submission was executed once, produced one
      result and one state change with the state its worker computed; every
      worker took exactly one pill; and the running set holds precisely the keys
      whose command was refused, so it is empty exactly if none was. */
  lemma EndedDeliversOnce(base: ExecutorState, parallelism: nat, actions: seq<Action>, s: State)
    requires base.running == {}
    requires Reaches(Start(base, parallelism), actions, s) && s.phase.Ended?
    ensures s.executed == s.reported == multiset(s.changed)
    ensures forall k :: s.submitted[k] == s.executed[Result(k, true)] + s.executed[Result(k, false)]
    ensures s.base.running == s.rejected
    ensures s.tasks == [] && s.results == [] && s.unfinished == 0
    ensures |s.workers| == parallelism && forall i :: 0 <= i < |s.workers| ==> s.workers[i].Exited?
  {
    hide Reaches;
    hide Sum;
    StartInv(base, parallelism);
    RunKeepsInv(Start(base, parallelism), actions, s);
    EndedIsEmpty(s);
  }

  lemma StepTells(s: State, a: Action, before: map<TaskInstanceKey, Event>, k: TaskInstanceKey)
    requires Enabled(s, a) && Told(before, s.base.events, s.changed, k)
    ensures Told(before, Apply(s, a).base.events, Apply(s, a).changed, k)
  {
    if a.Sync? {
      assert (s.changed + [s.results[0]])[..|s.changed|] == s.changed;
    }
  }

  /** In every interleaving the buffer says of each key what its last state change was. */
  lemma {:induction false} RunTells(s: State, actions: seq<Action>, t: State, before: map<TaskInstanceKey, Event>,
                                    k: TaskInstanceKey)
    requires Reaches(s, actions, t) && Told(before, s.base.events, s.changed, k)
    ensures Told(before, t.base.events, t.changed, k)
    decreases |actions|
  {
    hide Told;
    hide Apply;
    if actions != [] {
      StepTells(s, actions[0], before, k);
      RunTells(Apply(s, actions[0]), actions[1..], t, before, k);
    }
  }

  /** Once `end` has returned, in every interleaving: the event of a key never submitted
      is what it was; that of a key submitted is SUCCESS or FAILED as the last run of it
      came out, so for one submitted once SUCCESS exactly if its worker succeeded. */
  lemma EndedReports(base: ExecutorState, parallelism: nat, actions: seq<Action>, s: State, k: TaskInstanceKey)
    requires base.running == {}
    requires Reaches(Start(base, parallelism), actions, s) && s.phase.Ended?
    ensures Told(base.events, s.base.events, s.changed, k)
    ensures s.submitted[k] == 0 ==> (k in s.base.events <==> k in base.events)
    ensures s.submitted[k] == 0 && k in base.events ==> s.base.events[k] == base.events[k]
    ensures s.submitted[k] > 0 ==>
              k in s.base.events && (s.base.events[k].state.Success? || s.base.events[k].state.Failed?)
    ensures s.submitted[k] == 1 ==> (s.base.events[k].state.Success? <==> s.executed[Result(k, true)] == 1)
    ensures s.submitted[k] == 1 ==> (s.base.events[k].state.Failed? <==> s.executed[Result(k, false)] == 1)
  {
    hide Reaches;
    EndedDeliversOnce(base, parallelism, actions, s);
    RunTells(Start(base, parallelism), actions, s, base.events, k);
    LastResultIn(s.changed, k);
    var last := LastResult(s.changed, k);
    assert forall r :: r in s.changed <==> multiset(s.changed)[r] > 0;
  }

  lemma EndedIsEmpty(s: State)
    requires Inv(s) && s.phase.Ended?
    ensures s.executed == s.reported == multiset(s.changed)
    ensures forall k :: s.submitted[k] == s.executed[Result(k, true)] + s.executed[Result(k, false)]
    ensures s.base.running == s.rejected
    ensures s.tasks == [] && s.results == [] && s.unfinished == 0
    ensures forall i :: 0 <= i < |s.workers| ==> s.workers[i].Exited?
  {
    SumZero(s.workers, Busy());
    SumFull(s.workers, TookPill());
    forall r ensures s.executed[r] == s.reported[r] == multiset(s.changed)[r] {
      assert ResultLedger(s, r);
      SumZero(s.workers, RanAs(r));
    }
    forall k ensures k in s.base.running <==> k in s.rejected
      ensures s.submitted[k] == s.executed[Result(k, true)] + s.executed[Result(k, false)]
    {
      assert KeyLedger(s, k);
      SumZero(s.workers, FetchedOf(k));
      SumZero(s.workers, RanOf(k));
    }
  }
}
