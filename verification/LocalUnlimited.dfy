/** LocalExecutor with unlimited parallelism (airflow/executors/local_executor.py):
    one process per command and a counter, `workers_active`, in place of the task
    queue. `end` spins on `sync` until the counter is down to zero. */
module LocalUnlimited {
  import opened Sequences
  import opened OrderedMaps
  import opened Executor
  import opened LocalWork

  /** A process that has not yet put its result. */
  datatype Process = Launched(key: TaskInstanceKey) | Computed(result: Result)

  datatype Stage = Open | Draining | Closed

  datatype Pool = Pool(
    base: ExecutorState,
    stage: Stage,
    workersUsed: nat,
    workersActive: int,
    processes: seq<Process>,
    results: seq<Result>,
    submitted: multiset<TaskInstanceKey>,
    executed: multiset<Result>,
    changed: seq<Result>,
    rejected: set<TaskInstanceKey>)

  ghost function Opened(base: ExecutorState): Pool {
    Pool(base, Open, 0, 0, [], [], multiset{}, multiset{}, [], {})
  }

  datatype Move =
    | QueueUp(key: TaskInstanceKey, task: QueuedTask)
    | Launch(key: TaskInstanceKey)
    | Compute(process: nat, ok: bool)
    | PutResult(process: nat)
    | ReadResult
    | CallEnd
    | Return

  ghost predicate Can(p: Pool, m: Move) {
    match m
    case QueueUp(_, _) => p.stage.Open?
    case Launch(k) => p.stage.Open? && p.base.queued.Has(k)
    case Compute(i, _) => i < |p.processes| && p.processes[i].Launched?
    case PutResult(i) => i < |p.processes| && p.processes[i].Computed?
    case ReadResult => !p.stage.Closed? && p.results != []
    case CallEnd => p.stage.Open?
    case Return => p.stage.Draining? && p.workersActive <= 0
  }

  ghost function Spawn(p: Pool, k: TaskInstanceKey): Pool
    requires p.base.queued.Has(k)
  {
    var taken := p.(base := Take(p.base, k));
    if ValidCommand(p.base.queued.values[k].command) then
      taken.(workersUsed := p.workersUsed + 1, workersActive := p.workersActive + 1,
             processes := p.processes + [Launched(k)], submitted := p.submitted + multiset{k})
    else
      taken.(rejected := p.rejected + {k})
  }

  ghost function Make(p: Pool, m: Move): Pool
    requires Can(p, m)
  {
    match m
    case QueueUp(k, t) => p.(base := QueueCommand(p.base, k, t))
    case Launch(k) => Spawn(p, k)
    case Compute(i, ok) =>
      var r := Result(p.processes[i].key, ok);
      p.(processes := p.processes[i := Computed(r)], executed := p.executed + multiset{r})
    case PutResult(i) =>
      p.(processes := p.processes[..i] + p.processes[i + 1..], results := p.results + [p.processes[i].result])
    case ReadResult =>
      var r := p.results[0];
      p.(base := ChangeState(p.base, r.key, ResultEvent(r)), results := p.results[1..],
         workersActive := p.workersActive - 1, changed := p.changed + [r])
    case CallEnd => p.(stage := Draining)
    case Return => p.(stage := Closed)
  }

  ghost predicate Leads(p: Pool, moves: seq<Move>, q: Pool)
    decreases |moves|
  {
    if moves == [] then p == q
    else Can(p, moves[0]) && Leads(Make(p, moves[0]), moves[1..], q)
  }

  function LaunchedOf(k: TaskInstanceKey): Process -> nat {
    (x: Process) => if x.Launched? && x.key == k then 1 else 0
  }
  function ComputedOf(k: TaskInstanceKey): Process -> nat {
    (x: Process) => if x.Computed? && x.result.key == k then 1 else 0
  }
  function ComputedAs(r: Result): Process -> nat { (x: Process) => if x == Computed(r) then 1 else 0 }

  /** The counter counts the processes that have not reported plus the unread results. */
  ghost predicate Counter(p: Pool) {
    && p.workersActive == |p.processes| + |p.results|
    && p.workersUsed == |p.submitted|
    && (p.stage.Closed? ==> p.workersActive == 0)
  }

  ghost predicate KeyAccount(p: Pool, k: TaskInstanceKey) {
    && Sum(p.processes, LaunchedOf(k)) + Sum(p.processes, ComputedOf(k)) + Sum(p.results, ResultOf(k))
       == (if k in p.base.running && k !in p.rejected then 1 else 0)
    && (k in p.rejected ==> k in p.base.running)
    && (p.base.queued.Has(k) ==> k !in p.base.running)
    && p.submitted[k] == Sum(p.processes, LaunchedOf(k)) + p.executed[Result(k, true)] + p.executed[Result(k, false)]
  }

  ghost predicate ResultAccount(p: Pool, r: Result) {
    p.executed[r] == Sum(p.processes, ComputedAs(r)) + Sum(p.results, Is(r)) + multiset(p.changed)[r]
  }

  ghost predicate PoolInv(p: Pool) {
    && Counter(p)
    && (forall k :: KeyAccount(p, k))
    && (forall r :: ResultAccount(p, r))
  }

  lemma LaunchKeepsKey(p: Pool, x: TaskInstanceKey, k: TaskInstanceKey)
    requires Can(p, Launch(x)) && KeyAccount(p, k) && KeyAccount(p, x)
    ensures KeyAccount(Make(p, Launch(x)), k)
  {
    hide Sum;
    SumPush(p.processes, Launched(x), LaunchedOf(k));
    SumPush(p.processes, Launched(x), ComputedOf(k));
  }

  lemma MoveKeepsKey(p: Pool, m: Move, k: TaskInstanceKey)
    requires Can(p, m) && !m.Launch? && KeyAccount(p, k)
    ensures KeyAccount(Make(p, m), k)
  {
    hide Sum;
    match m
    case Compute(i, ok) =>
      SumUpdate(p.processes, i, Make(p, m).processes[i], LaunchedOf(k));
      SumUpdate(p.processes, i, Make(p, m).processes[i], ComputedOf(k));
    case PutResult(i) =>
      SumRemove(p.processes, i, LaunchedOf(k));
      SumRemove(p.processes, i, ComputedOf(k));
      SumPush(p.results, p.processes[i].result, ResultOf(k));
    case ReadResult =>
      SumHead(p.results, ResultOf(k));
    case _ =>
  }

  lemma MoveKeepsResult(p: Pool, m: Move, r: Result)
    requires Can(p, m) && ResultAccount(p, r)
    ensures ResultAccount(Make(p, m), r)
  {
    hide Sum;
    match m
    case Launch(x) =>
      SumPush(p.processes, Launched(x), ComputedAs(r));
    case Compute(i, ok) =>
      SumUpdate(p.processes, i, Make(p, m).processes[i], ComputedAs(r));
    case PutResult(i) =>
      SumRemove(p.processes, i, ComputedAs(r));
      SumPush(p.results, p.processes[i].result, Is(r));
    case ReadResult =>
      SumHead(p.results, Is(r));
    case _ =>
  }

  lemma MoveKeepsInv(p: Pool, m: Move)
    requires PoolInv(p) && Can(p, m)
    ensures PoolInv(Make(p, m))
  {
    forall k ensures KeyAccount(Make(p, m), k) {
      if m.Launch? { LaunchKeepsKey(p, m.key, k); } else { MoveKeepsKey(p, m, k); }
    }
    forall r ensures ResultAccount(Make(p, m), r) { MoveKeepsResult(p, m, r); }
  }

  lemma {:induction false} MovesKeepInv(p: Pool, moves: seq<Move>, q: Pool)
    requires PoolInv(p) && Leads(p, moves, q)
    ensures PoolInv(q)
    decreases |moves|
  {
    if moves != [] {
      MoveKeepsInv(p, moves[0]);
      MovesKeepInv(Make(p, moves[0]), moves[1..], q);
    }
  }

  /** Once `end` has returned, in every interleaving: no process or result is
      left, every submission was executed once and changed state once, one
      process was used for each, and only refused keys are still running. */
  lemma ClosedDeliversOnce(base: ExecutorState, moves: seq<Move>, p: Pool)
    requires base.running == {}
    requires Leads(Opened(base), moves, p) && p.stage.Closed?
    ensures p.processes == [] && p.results == [] && p.workersActive == 0
    ensures p.executed == multiset(p.changed) && p.workersUsed == |p.submitted|
    ensures forall k :: p.submitted[k] == p.executed[Result(k, true)] + p.executed[Result(k, false)]
    ensures p.base.running == p.rejected
  {
    MovesKeepInv(Opened(base), moves, p);
    forall r ensures p.executed[r] == multiset(p.changed)[r] { assert ResultAccount(p, r); }
    forall k ensures k in p.base.running <==> k in p.rejected
      ensures p.submitted[k] == p.executed[Result(k, true)] + p.executed[Result(k, false)]
    {
      assert KeyAccount(p, k);
    }
  }

  lemma MoveTells(p: Pool, m: Move, before: map<TaskInstanceKey, Event>, k: TaskInstanceKey)
    requires Can(p, m) && Told(before, p.base.events, p.changed, k)
    ensures Told(before, Make(p, m).base.events, Make(p, m).changed, k)
  {
    if m.ReadResult? {
      assert (p.changed + [p.results[0]])[..|p.changed|] == p.changed;
    }
  }

  lemma {:induction false} MovesTell(p: Pool, moves: seq<Move>, q: Pool, before: map<TaskInstanceKey, Event>,
                                     k: TaskInstanceKey)
    requires Leads(p, moves, q) && Told(before, p.base.events, p.changed, k)
    ensures Told(before, q.base.events, q.changed, k)
    decreases |moves|
  {
    hide Told;
    hide Make;
    if moves != [] {
      MoveTells(p, moves[0], before, k);
      MovesTell(Make(p, moves[0]), moves[1..], q, before, k);
    }
  }

  /** Once `end` has returned, the buffer says of each key what became of it. */
  lemma ClosedReports(base: ExecutorState, moves: seq<Move>, p: Pool, k: TaskInstanceKey)
    requires base.running == {}
    requires Leads(Opened(base), moves, p) && p.stage.Closed?
    ensures Told(base.events, p.base.events, p.changed, k)
    ensures p.submitted[k] == 0 ==> (k in p.base.events <==> k in base.events)
    ensures p.submitted[k] == 0 && k in base.events ==> p.base.events[k] == base.events[k]
    ensures p.submitted[k] > 0 ==>
              k in p.base.events && (p.base.events[k].state.Success? || p.base.events[k].state.Failed?)
    ensures p.submitted[k] == 1 ==> (p.base.events[k].state.Success? <==> p.executed[Result(k, true)] == 1)
    ensures p.submitted[k] == 1 ==> (p.base.events[k].state.Failed? <==> p.executed[Result(k, false)] == 1)
  {
    hide Leads;
    ClosedDeliversOnce(base, moves, p);
    MovesTell(Opened(base), moves, p, base.events, k);
    LastResultIn(p.changed, k);
    assert forall r :: r in p.changed <==> multiset(p.changed)[r] > 0;
  }

  /** The move hands over a command that is refused. */
  ghost predicate Refuses(p: Pool, m: Move) {
    m.Launch? && p.base.queued.Has(m.key) && !ValidCommand(p.base.queued.values[m.key].command)
  }

  ghost predicate RefusesNone(p: Pool, moves: seq<Move>)
    decreases |moves|
  {
    moves == [] || (Can(p, moves[0]) && !Refuses(p, moves[0]) && RefusesNone(Make(p, moves[0]), moves[1..]))
  }

  lemma MoveRefuses(p: Pool, m: Move)
    requires Can(p, m)
    ensures Make(p, m).rejected == if Refuses(p, m) then p.rejected + {m.key} else p.rejected
  {
  }

  lemma {:induction false} RefusedIff(p: Pool, moves: seq<Move>, q: Pool)
    requires Leads(p, moves, q)
    ensures p.rejected <= q.rejected
    ensures p.rejected == {} ==> (q.rejected == {} <==> RefusesNone(p, moves))
    decreases |moves|
  {
    hide Make;
    if moves != [] {
      MoveRefuses(p, moves[0]);
      RefusedIff(Make(p, moves[0]), moves[1..], q);
      if Refuses(p, moves[0]) {
        assert moves[0].key in q.rejected;
      }
    }
  }

  /** Once `end` has returned the running set is empty exactly if no command handed
      over was refused. */
  lemma ClosedEmptyIff(base: ExecutorState, moves: seq<Move>, p: Pool)
    requires base.running == {}
    requires Leads(Opened(base), moves, p) && p.stage.Closed?
    ensures p.base.running == {} <==> RefusesNone(Opened(base), moves)
  {
    ClosedDeliversOnce(base, moves, p);
    RefusedIff(Opened(base), moves, p);
  }

  /** ... in particular if every command queued at the start or later begins as it should. */
  lemma {:induction false} ValidCommandsPass(p: Pool, moves: seq<Move>, q: Pool)
    requires Leads(p, moves, q) && QueuedValid(p.base)
    requires forall m | m in moves && m.QueueUp? :: ValidCommand(m.task.command)
    ensures RefusesNone(p, moves)
    decreases |moves|
  {
    hide ValidCommand;
    if moves != [] {
      assert moves[0] in moves && forall m | m in moves[1..] :: m in moves;
      ValidCommandsPass(Make(p, moves[0]), moves[1..], q);
    }
  }

  /** An invalid command leaves its key in the running set for good. */
  lemma RefusedKeyStays(base: ExecutorState, k: TaskInstanceKey, t: QueuedTask) returns (moves: seq<Move>, p: Pool)
    requires base.running == {} && !base.queued.Has(k) && !ValidCommand(t.command)
    ensures Leads(Opened(base), moves, p) && p.stage.Closed? && k in p.base.running
  {
    hide ValidCommand;
    var start := Opened(base);
    var queued := Make(start, QueueUp(k, t));
    var refused := Make(queued, Launch(k));
    var ending := Make(refused, CallEnd);
    p := Make(ending, Return);
    moves := [QueueUp(k, t), Launch(k), CallEnd, Return];
    assert moves[1..] == [Launch(k), CallEnd, Return];
    assert moves[1..][1..] == [CallEnd, Return];
    assert moves[1..][1..][1..] == [Return];
    assert moves[1..][1..][1..][1..] == [];
    assert Leads(p, [], p);
    assert Leads(ending, [Return], p);
    assert Leads(refused, [CallEnd, Return], p);
    assert Leads(queued, [Launch(k), CallEnd, Return], p);
  }

  function ProcessWeight(): Process -> nat { (x: Process) => if x.Launched? then 3 else 2 }

  ghost function Remaining(p: Pool): nat {
    Sum(p.processes, ProcessWeight()) + |p.results| + if p.stage.Closed? then 0 else 1
  }

  /** Draining: every move makes progress, some move is possible until `end`
      returns, and `end` returns exactly when everything has been read. */
  lemma {:induction false} DrainTerminates(p: Pool, moves: seq<Move>, q: Pool)
    requires PoolInv(p) && !p.stage.Open? && Leads(p, moves, q)
    ensures |moves| + Remaining(q) <= Remaining(p)
    ensures q.stage.Closed? <==> forall m :: !Can(q, m)
    ensures Can(q, Return) <==> q.stage.Draining? && q.processes == [] && q.results == []
    decreases |moves|
  {
    if moves != [] {
      var m := moves[0];
      match m {
        case Compute(i, _) => SumUpdate(p.processes, i, Make(p, m).processes[i], ProcessWeight());
        case PutResult(i) => SumRemove(p.processes, i, ProcessWeight());
        case _ =>
      }
      MoveKeepsInv(p, m);
      DrainTerminates(Make(p, m), moves[1..], q);
    } else if q.stage.Draining? {
      if q.results != [] {
        assert Can(q, ReadResult);
      } else if q.processes != [] {
        assert Can(q, if q.processes[0].Launched? then Compute(0, true) else PutResult(0));
      } else {
        assert Can(q, Return);
      }
    }
  }
}
