/** What LocalExecutor's processes exchange, and its sequential loops: a worker
    emptying the task queue up to its poison pill, and the executor draining the
    result queue (airflow/executors/local_executor.py). */
module LocalWork {
  import opened Sequences
  import opened Executor

  datatype Item = Work(key: TaskInstanceKey, command: Command) | PoisonPill

  /** `ok` tells SUCCESS from FAILED. */
  datatype Result = Result(key: TaskInstanceKey, ok: bool)

  predicate ValidCommand(c: Command) {
    |c| >= 3 && c[..3] == ["airflow", "tasks", "run"]
  }

  /** Every queued command is one that `validate_command` lets through. */
  ghost predicate QueuedValid(base: ExecutorState) {
    forall k | k in base.queued.values :: ValidCommand(base.queued.values[k].command)
  }

  function ResultEvent(r: Result): Event {
    Event(if r.ok then Success else Failed, "")
  }

  function ResultOf(k: TaskInstanceKey): Result -> nat { (r: Result) => if r.key == k then 1 else 0 }
  function Is(r: Result): Result -> nat { (x: Result) => if x == r then 1 else 0 }

  /** The state changes of a batch of results, oldest first. */
  function ApplyResults(s: ExecutorState, results: seq<Result>): ExecutorState
    decreases |results|
  {
    if results == [] then s
    else ApplyResults(ChangeState(s, results[0].key, ResultEvent(results[0])), results[1..])
  }

  /** The state that the last result for `k` reports, if there is one. */
  function LastResult(results: seq<Result>, k: TaskInstanceKey): Option<bool> {
    if results == [] then None
    else if results[|results| - 1].key == k then Some(results[|results| - 1].ok)
    else LastResult(results[..|results| - 1], k)
  }

  /** What the buffer says of `k` after these state changes: SUCCESS or FAILED as its
      last result, or what it said before if there is none. */
  ghost predicate Told(before: map<TaskInstanceKey, Event>, after: map<TaskInstanceKey, Event>,
                       results: seq<Result>, k: TaskInstanceKey) {
    var last := LastResult(results, k);
    if last.Some? then k in after && after[k] == Event(if last.value then Success else Failed, "")
    else (k in after <==> k in before) && (k in after ==> after[k] == before[k])
  }

  lemma {:induction false} LastResultFrom(r: Result, rest: seq<Result>, k: TaskInstanceKey)
    ensures LastResult([r] + rest, k)
            == if LastResult(rest, k).Some? then LastResult(rest, k) else if r.key == k then Some(r.ok) else None
    decreases |rest|
  {
    if rest != [] {
      var init := rest[..|rest| - 1];
      LastResultFrom(r, init, k);
      assert ([r] + rest)[..|rest|] == [r] + init;
    } else {
      assert [r] + rest == [r] && [r][..0] == [];
    }
  }

  lemma {:induction false} LastResultIn(results: seq<Result>, k: TaskInstanceKey)
    ensures LastResult(results, k).Some? ==> Result(k, LastResult(results, k).value) in results
    ensures LastResult(results, k).None? ==> forall r | r in results :: r.key != k
  {
    if results != [] {
      LastResultIn(results[..|results| - 1], k);
      assert results == results[..|results| - 1] + [results[|results| - 1]];
    }
  }

  /** After a batch of results each key that has one is out of the running set and has
      the state of its last one in the buffer; nothing else moves. */
  lemma {:induction false} ResultsTold(s: ExecutorState, results: seq<Result>, k: TaskInstanceKey)
    ensures Told(s.events, ApplyResults(s, results).events, results, k)
    ensures k in ApplyResults(s, results).running <==> k in s.running && LastResult(results, k).None?
    ensures ApplyResults(s, results).queued == s.queued
    decreases |results|
  {
    if results != [] {
      ResultsTold(ChangeState(s, results[0].key, ResultEvent(results[0])), results[1..], k);
      LastResultFrom(results[0], results[1..], k);
      assert [results[0]] + results[1..] == results;
    }
  }

  /** The commands let through, word by word. */
  lemma ValidCommandWords(c: Command)
    ensures ValidCommand(c) <==> |c| >= 3 && c[0] == "airflow" && c[1] == "tasks" && c[2] == "run"
  {
    if |c| >= 3 {
      assert c[..3] == [c[0], c[1], c[2]];
    }
  }

  datatype WorkerQueues = WorkerQueues(tasks: seq<Item>, unfinished: int, results: seq<Result>)

  /** A worker's loop up to and including its poison pill. */
  function WorkerLoop(q: WorkerQueues, run: (TaskInstanceKey, Command) -> bool): WorkerQueues
    requires PoisonPill in q.tasks
    decreases |q.tasks|
  {
    var item := q.tasks[0];
    if item.PoisonPill? then
      WorkerQueues(q.tasks[1..], q.unfinished - 1, q.results)
    else
      var result := Result(item.key, run(item.key, item.command));
      WorkerLoop(WorkerQueues(q.tasks[1..], q.unfinished - 1, q.results + [result]), run)
  }

  /** The loop turns the commands before the first pill into results, one for
      one and in order, owes nothing to `join` for what it took, and touches
      nothing behind the pill. */
  lemma {:induction false} WorkerLoopDelivers(q: WorkerQueues, run: (TaskInstanceKey, Command) -> bool, n: nat)
    requires n < |q.tasks| && q.tasks[n].PoisonPill?
    requires forall i :: 0 <= i < n ==> q.tasks[i].Work?
    ensures var w := WorkerLoop(q, run);
            && w.tasks == q.tasks[n + 1..]
            && w.unfinished == q.unfinished - (n + 1)
            && |w.results| == |q.results| + n && w.results[..|q.results|] == q.results
            && (forall i :: 0 <= i < n ==>
                 w.results[|q.results| + i] == Result(q.tasks[i].key, run(q.tasks[i].key, q.tasks[i].command)))
    decreases n
  {
    if n > 0 {
      var item := q.tasks[0];
      var result := Result(item.key, run(item.key, item.command));
      var next := WorkerQueues(q.tasks[1..], q.unfinished - 1, q.results + [result]);
      WorkerLoopDelivers(next, run, n - 1);
      var w := WorkerLoop(next, run);
      assert w.results[..|q.results|] == q.results && w.results[|q.results|] == result by {
        assert w.results[..|q.results| + 1] == q.results + [result];
      }
      forall i | 0 <= i < n
        ensures w.results[|q.results| + i] == Result(q.tasks[i].key, run(q.tasks[i].key, q.tasks[i].command))
      {
        if i > 0 { assert next.tasks[i - 1] == q.tasks[i]; }
      }
    }
  }

  class LocalExecutor {
    const parallelism: int
    var tasks: seq<Item>
    var unfinished: int
    var results: seq<Result>
    var running: set<TaskInstanceKey>
    var events: map<TaskInstanceKey, Event>
    var workersUsed: int
    var workersActive: int

    ghost function Queues(): WorkerQueues
      reads this
    {
      WorkerQueues(tasks, unfinished, results)
    }

    /** The part of the executor base state that a state change touches. */
    ghost function Base(s: ExecutorState): ExecutorState
      reads this
    {
      s.(running := running, events := events)
    }

    constructor (parallelism: int)
      ensures this.parallelism == parallelism && Queues() == WorkerQueues([], 0, [])
      ensures running == {} && events == map[] && workersUsed == workersActive == 0
    {
      this.parallelism := parallelism;
      tasks, unfinished, results := [], 0, [];
      running, events, workersUsed, workersActive := {}, map[], 0, 0;
    }

    /** Refuses an invalid command; otherwise queues it for a worker or, with
        unlimited parallelism, starts a process for it. */
    method ExecuteAsync(k: TaskInstanceKey, command: Command) returns (accepted: bool)
      modifies `tasks, `unfinished, `workersUsed, `workersActive
      ensures accepted == ValidCommand(command)
      ensures tasks == if accepted && parallelism != 0 then old(tasks) + [Work(k, command)] else old(tasks)
      ensures unfinished - |tasks| == old(unfinished) - |old(tasks)|
      ensures workersActive - old(workersActive) == workersUsed - old(workersUsed)
              == if accepted && parallelism == 0 then 1 else 0
    {
      accepted := |command| >= 3 && command[..3] == ["airflow", "tasks", "run"];
      if accepted && parallelism == 0 {
        workersUsed := workersUsed + 1;
        workersActive := workersActive + 1;
      } else if accepted {
        tasks, unfinished := tasks + [Work(k, command)], unfinished + 1;
      }
    }

    /** `QueuedLocalWorker.do_work`; `get` blocks on an empty queue, so the loop
        returns only if a pill is there to be found. */
    method DoWork(run: (TaskInstanceKey, Command) -> bool)
      requires PoisonPill in tasks
      modifies `tasks, `unfinished, `results
      ensures Queues() == WorkerLoop(old(Queues()), run)
    {
      ghost var was := Queues();
      while true
        invariant PoisonPill in tasks
        invariant WorkerLoop(Queues(), run) == WorkerLoop(was, run)
        decreases |tasks|
      {
        var item := tasks[0];
        tasks := tasks[1..];
        if item.PoisonPill? {
          unfinished := unfinished - 1;
          break;
        }
        results := results + [Result(item.key, run(item.key, item.command))];
        unfinished := unfinished - 1;
      }
    }

    /** The first loop of `end`: a pill for every worker, behind all the commands. */
    method SendPills(workers: nat)
      modifies `tasks, `unfinished
      ensures tasks == old(tasks) + seq(workers, _ => PoisonPill)
      ensures unfinished - |tasks| == old(unfinished) - |old(tasks)|
    {
      for i := 0 to workers
        invariant tasks == old(tasks) + seq(i, _ => PoisonPill)
        invariant unfinished - |tasks| == old(unfinished) - |old(tasks)|
      {
        tasks, unfinished := tasks + [PoisonPill], unfinished + 1;
      }
    }

    /** Drains the result queue; the counter is only used without a task queue. */
    method Sync(ghost s: ExecutorState)
      modifies `results, `running, `events, `workersActive
      ensures results == [] && Base(s) == ApplyResults(old(Base(s)), old(results))
      ensures forall k :: Told(old(events), events, old(results), k)
      ensures forall k :: k in running <==> k in old(running) && LastResult(old(results), k).None?
      ensures workersActive == old(workersActive) - if parallelism == 0 then |old(results)| else 0
    {
      ghost var was := Base(s);
      while results != []
        invariant ApplyResults(Base(s), results) == ApplyResults(was, old(results))
        invariant workersActive == old(workersActive) - if parallelism == 0 then |old(results)| - |results| else 0
        invariant |results| <= |old(results)|
        decreases |results|
      {
        var r := results[0];
        results := results[1..];
        running := running - {r.key};
        events := events[r.key := Event(if r.ok then Success else Failed, "")];
        if parallelism == 0 {
          workersActive := workersActive - 1;
        }
      }
      forall k
        ensures Told(old(events), events, old(results), k)
        ensures k in running <==> k in old(running) && LastResult(old(results), k).None?
      {
        ResultsTold(was, old(results), k);
      }
    }
  }
}
