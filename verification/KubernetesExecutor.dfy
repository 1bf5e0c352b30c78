/** KubernetesExecutor and AirflowKubernetesScheduler as one object
    (airflow/executors/kubernetes_executor.py): the drain loops over the watcher,
    result and task queues, the flushes of `end` and `terminate`, and adoption. */
module KubernetesObject {
  import opened Sequences
  import opened OrderedMaps
  import opened Executor
  import opened KubernetesQueues

  /** What the watcher process saw; the annotations may not name a key. */
  datatype WatchTask =
    WatchTask(key: Option<TaskInstanceKey>, state: TaskState, podId: string, namespace: string, version: int,
              failures: Option<nat>)

  function ToPending(t: WatchTask): Pending
    requires t.key.Some?
  {
    Pending(PodResult(t.key.value, t.state, t.podId, t.namespace, t.version), t.failures)
  }

  /** How many watcher tasks a sync gets through: it stops after one it cannot key. */
  function Readable(ts: seq<WatchTask>): (n: nat)
    ensures n <= |ts|
  {
    if ts == [] || ts[0].key.None? then 0 else 1 + Readable(ts[1..])
  }

  function Forwarded(ts: seq<WatchTask>): (r: seq<Pending>)
    ensures |r| == Readable(ts)
  {
    if ts == [] || ts[0].key.None? then [] else [ToPending(ts[0])] + Forwarded(ts[1..])
  }

  /** `end` applies each queued result once and ignores one that raises. */
  function AppliedAtEnd(cfg: Config, q: seq<Pending>): seq<PodResult> {
    if q == [] then []
    else (if Raises(cfg, q[0]) then [] else [q[0].result]) + AppliedAtEnd(cfg, q[1..])
  }

  /** When deleting the pod of a result can raise at all, and does. */
  lemma RaisesWhen(cfg: Config, p: Pending)
    ensures Raises(cfg, p)
            <==> && p.failures != Some(0) && p.result.state != Running && cfg.deleteWorkerPods
                 && (p.result.state != Failed || cfg.deleteOnFailure)
  {
  }

  lemma {:induction false} AppliedAtEndPush(cfg: Config, q: seq<Pending>, p: Pending)
    ensures AppliedAtEnd(cfg, q + [p]) == AppliedAtEnd(cfg, q) + if Raises(cfg, p) then [] else [p.result]
  {
    if q == [] {
      assert q + [p] == [p] && [p][1..] == [];
    } else {
      AppliedAtEndPush(cfg, q[1..], p);
      assert (q + [p])[1..] == q[1..] + [p];
    }
  }

  /** The state that the last queued result for `k` that does not raise gives it. */
  function LastUnraised(cfg: Config, q: seq<Pending>, k: TaskInstanceKey): Option<TaskState> {
    if q == [] then None
    else
      var p := q[|q| - 1];
      if p.result.key == k && !Raises(cfg, p) then Some(p.result.state) else LastUnraised(cfg, q[..|q| - 1], k)
  }

  /** `end` applies exactly the results that do not raise, in the order of the queue. */
  lemma {:induction false} AppliedAtEndExactly(cfg: Config, q: seq<Pending>, k: TaskInstanceKey)
    ensures LastState(AppliedAtEnd(cfg, q), k) == LastUnraised(cfg, q, k)
    ensures forall r :: r in AppliedAtEnd(cfg, q) <==> exists p :: p in q && p.result == r && !Raises(cfg, p)
  {
    if q != [] {
      var init, p := q[..|q| - 1], q[|q| - 1];
      AppliedAtEndExactly(cfg, init, k);
      AppliedAtEndPush(cfg, init, p);
      assert q == init + [p];
      assert forall x :: x in q <==> x in init || x == p;
      if !Raises(cfg, p) {
        assert (AppliedAtEnd(cfg, init) + [p.result])[..|AppliedAtEnd(cfg, init)|] == AppliedAtEnd(cfg, init);
      } else {
        assert AppliedAtEnd(cfg, q) == AppliedAtEnd(cfg, init);
      }
    }
  }

  /** After the flush a key is running exactly if it was and every queued result for it
      that does not raise says RUNNING; its event is the state of the last such result. */
  ghost predicate EndApplied(cfg: Config, q: seq<Pending>, before: ExecutorState, after: ExecutorState,
                             k: TaskInstanceKey) {
    && (k in after.running
        <==> && k in before.running
             && forall p | p in q && p.result.key == k && !Raises(cfg, p) :: p.result.state == Running)
    && var last := LastUnraised(cfg, q, k);
       if last.Some? then k in after.events && after.events[k] == Event(last.value, "")
       else (k in after.events <==> k in before.events) && (k in after.events ==> after.events[k] == before.events[k])
  }

  lemma EndApplies(cfg: Config, q: seq<Pending>, s: ExecutorState, k: TaskInstanceKey)
    ensures EndApplied(cfg, q, s, ApplyAll(s, AppliedAtEnd(cfg, q)), k)
  {
    AppliedAtEndExactly(cfg, q, k);
    ResultsApplied(s, AppliedAtEnd(cfg, q), k);
    forall p | p in q && !Raises(cfg, p) ensures p.result in AppliedAtEnd(cfg, q) {
    }
  }

  /** What is forwarded, field by field: everything up to the first task without a key. */
  lemma {:induction false} ForwardedExactly(ts: seq<WatchTask>)
    ensures Readable(ts) < |ts| ==> ts[Readable(ts)].key.None?
    ensures forall i :: 0 <= i < Readable(ts) ==>
              && ts[i].key == Some(Forwarded(ts)[i].result.key) && Forwarded(ts)[i].result.state == ts[i].state
              && Forwarded(ts)[i].result.podId == ts[i].podId && Forwarded(ts)[i].result.namespace == ts[i].namespace
              && Forwarded(ts)[i].result.version == ts[i].version && Forwarded(ts)[i].failures == ts[i].failures
  {
    if ts != [] && ts[0].key.Some? {
      ForwardedExactly(ts[1..]);
      forall i | 0 < i < Readable(ts) ensures Forwarded(ts)[i] == Forwarded(ts[1..])[i - 1] && ts[i] == ts[1..][i - 1] {
      }
    }
  }

  /** One round of the drain loop leaves the outcome as it was. */
  lemma DrainStep(cfg: Config, q: seq<Pending>, s: ExecutorState)
    requires q != [] && Finite(cfg, q)
    ensures Finite(cfg, NextQueue(cfg, q))
    ensures Raises(cfg, q[0]) ==> Drained(cfg, NextQueue(cfg, q)) == Drained(cfg, q) && Drained(cfg, q) != []
    ensures !Raises(cfg, q[0]) ==>
              && Drained(cfg, q) == [q[0].result] + Drained(cfg, NextQueue(cfg, q))
              && ApplyAll(ApplyResult(s, q[0].result), Drained(cfg, NextQueue(cfg, q))) == ApplyAll(s, Drained(cfg, q))
  {
    AttemptsFall(cfg, q);
    DrainedOnce(cfg, q);
    var rest := Drained(cfg, NextQueue(cfg, q));
    assert ([q[0].result] + rest)[1..] == rest && [] + rest == rest;
  }

  class KubernetesExecutor {
    const cfg: Config
    const parallelism: int
    const jobId: string
    var queued: OrderedMap<TaskInstanceKey, QueuedTask>
    var running: set<TaskInstanceKey>
    var events: map<TaskInstanceKey, Event>
    var taskQueue: JoinableQueue<Job>
    var resultQueue: JoinableQueue<Pending>
    var watcherQueue: JoinableQueue<WatchTask>

    ghost function Base(): ExecutorState
      reads this
    {
      ExecutorState(parallelism, queued, running, events)
    }

    /** Between operations nobody holds an item. */
    ghost predicate Valid()
      reads this
    {
      taskQueue.Accounted(0) && resultQueue.Accounted(0) && watcherQueue.Accounted(0)
    }

    constructor (cfg: Config, parallelism: int, jobId: string)
      ensures Valid() && Base() == Executor.Empty(parallelism)
      ensures taskQueue.items == [] && resultQueue.items == [] && watcherQueue.items == []
    {
      this.cfg, this.parallelism, this.jobId := cfg, parallelism, jobId;
      queued, running, events := OrderedMap([], map[]), {}, map[];
      taskQueue, resultQueue := JoinableQueue([], 0), JoinableQueue([], 0);
      watcherQueue := JoinableQueue([], 0);
    }

    /** An executor_config that does not parse fails the task; otherwise it is queued. */
    method ExecuteAsync(job: Job, configValid: bool)
      requires Valid()
      modifies `running, `events, `taskQueue
      ensures Valid()
      ensures !configValid ==> taskQueue == old(taskQueue)
                               && Base() == ChangeState(old(Base()), job.key,
                                                        Event(Failed, "Invalid executor_config passed"))
      ensures configValid ==> taskQueue == old(taskQueue).Put(job)
                              && Base() == old(Base()).(events := old(events)[job.key := Event(Executor.Queued, jobId)])
    {
      if !configValid {
        running := running - {job.key};
        events := events[job.key := Event(Failed, "Invalid executor_config passed")];
      } else {
        events := events[job.key := Event(Executor.Queued, jobId)];
        taskQueue := taskQueue.Put(job);
      }
    }

    method SetState(r: PodResult)
      modifies `running, `events
      ensures Base() == ApplyResult(old(Base()), r)
    {
      if !r.state.Running? {
        running := running - {r.key};
      }
      events := events[r.key := Event(r.state, "")];
    }

    /** `AirflowKubernetesScheduler.sync`: forwards watcher tasks as results. */
    method ForwardWatched() returns (raised: bool, ghost steps: seq<QueueStep<WatchTask>>)
      requires Valid()
      modifies `watcherQueue, `resultQueue
      ensures Valid() && LeadsTo(old(watcherQueue), steps, watcherQueue)
      ensures resultQueue.items == old(resultQueue).items + Forwarded(old(watcherQueue).items)
      ensures raised <==> Readable(old(watcherQueue).items) < |old(watcherQueue).items|
      ensures watcherQueue.items
              == if raised then old(watcherQueue).items[Readable(old(watcherQueue).items) + 1..] else []
    {
      ghost var was := watcherQueue.items;
      ghost var n := 0;
      steps := [];
      NoStep(watcherQueue);
      hide LeadsTo;
      while watcherQueue.items != []
        invariant Valid() && n <= |was| && watcherQueue.items == was[n..]
        invariant LeadsTo(old(watcherQueue), steps, watcherQueue)
        invariant Readable(was) == n + Readable(was[n..])
        invariant resultQueue.items + Forwarded(was[n..]) == old(resultQueue).items + Forwarded(was)
        decreases |watcherQueue.items|
      {
        steps := RoundIsRun(old(watcherQueue), steps, watcherQueue, None);
        var task := watcherQueue.items[0];
        watcherQueue := watcherQueue.Get();
        assert watcherQueue.Accounted(1) && was[n..][1..] == was[n + 1..];
        if task.key.None? {
          watcherQueue := watcherQueue.TaskDone();
          assert was[n..][0].key.None?;
          return true, steps;
        }
        resultQueue := resultQueue.Put(ToPending(task));
        watcherQueue := watcherQueue.TaskDone();
        n := n + 1;
      }
      raised := false;
    }

    /** One round of the result loop. */
    method DrainOne()
      requires Valid() && resultQueue.items != []
      modifies `resultQueue, `running, `events
      ensures Valid()
      ensures var p := old(resultQueue).items[0];
              && resultQueue == AfterRound(old(resultQueue), if Raises(cfg, p) then Some(Retried(p)) else None)
              && resultQueue.items == NextQueue(cfg, old(resultQueue).items)
              && Base() == if Raises(cfg, p) then old(Base()) else ApplyResult(old(Base()), p.result)
    {
      var p := resultQueue.items[0];
      resultQueue := resultQueue.Get();
      assert resultQueue.Accounted(1);
      if Raises(cfg, p) {
        resultQueue := resultQueue.Put(Retried(p));
      } else {
        SetState(p.result);
      }
      assert resultQueue.Accounted(1);
      resultQueue := resultQueue.TaskDone();
    }

    /** The result loop of `sync`: a result that raises is put back before
        `task_done`, so the count never reaches zero while it waits. The loop ends
        exactly if every result fails only finitely often (`DrainEndsIff`). */
    method DrainResults() returns (lastVersion: Option<int>, ghost steps: seq<QueueStep<Pending>>)
      requires Valid() && Finite(cfg, resultQueue.items)
      modifies `resultQueue, `running, `events
      ensures Valid() && resultQueue.items == []
      ensures LeadsTo(old(resultQueue), steps, resultQueue)
      ensures Base() == ApplyAll(old(Base()), Drained(cfg, old(resultQueue).items))
      ensures forall k ::
                k in running
                <==> && k in old(running)
                     && forall p | p in old(resultQueue).items && p.result.key == k :: p.result.state == Running
      ensures forall k :: Applied(old(Base()), Base(), Drained(cfg, old(resultQueue).items), k)
      ensures var done := Drained(cfg, old(resultQueue).items);
              lastVersion == if done == [] then None else Some(done[|done| - 1].version)
    {
      steps := [];
      NoStep(resultQueue);
      hide LeadsTo;
      hide Attempts;
      hide Drained;
      hide Finite;
      hide Raises;
      hide AfterRound;
      hide ApplyResult;
      hide Applied;
      ghost var was, goal := Drained(cfg, resultQueue.items), ApplyAll(Base(), Drained(cfg, resultQueue.items));
      ghost var done := [];
      lastVersion := None;
      while resultQueue.items != []
        invariant Valid() && Finite(cfg, resultQueue.items)
        invariant LeadsTo(old(resultQueue), steps, resultQueue)
        invariant ApplyAll(Base(), Drained(cfg, resultQueue.items)) == goal
        invariant done + Drained(cfg, resultQueue.items) == was
        invariant resultQueue.items == [] ==>
                    lastVersion == if done == [] then None else Some(done[|done| - 1].version)
        decreases Attempts(cfg, resultQueue.items)
      {
        var p := resultQueue.items[0];
        AttemptsFall(cfg, resultQueue.items);
        DrainStep(cfg, resultQueue.items, Base());
        steps := RoundIsRun(old(resultQueue), steps, resultQueue,
                            if Raises(cfg, p) then Some(Retried(p)) else None);
        if !Raises(cfg, p) {
          done := done + [p.result];
        }
        lastVersion := Some(p.result.version);
        DrainOne();
      }
      assert Drained(cfg, []) == [] by { DrainedOnce(cfg, []); }
      forall k
        ensures k in running
                <==> && k in old(running)
                     && forall p | p in old(resultQueue).items && p.result.key == k :: p.result.state == Running
        ensures Applied(old(Base()), Base(), was, k)
      {
        DrainApplies(cfg, old(resultQueue).items, old(Base()), k);
      }
    }

    /** The batch loop of `sync` over new tasks. */
    method LaunchBatch(run: nat -> RunOutcome)
      returns (launched: seq<Job>, raised: bool, ghost steps: seq<QueueStep<Job>>, ghost taken: seq<Job>)
      requires Valid()
      modifies `taskQueue, `running, `events
      ensures Valid() && LeadsTo(old(taskQueue), steps, taskQueue)
      ensures var n := if cfg.batchSize < 0 then 0 else cfg.batchSize;
              var b := RunBatch(Batched(old(Base()), old(taskQueue).items, [], [], []), n, 0, run);
              && Base() == b.base && taskQueue.items == b.tasks && launched == b.launched
              && (raised <==> b.dropped != [])
              && BatchDoes(Batched(old(Base()), old(taskQueue).items, [], [], []), n, 0, run, taken, b)
    {
      hide BatchDoes;
      launched, raised, steps := [], false, [];
      NoStep(taskQueue);
      hide LeadsTo;
      var n := if cfg.batchSize < 0 then 0 else cfg.batchSize;
      ghost var b := Batched(Base(), taskQueue.items, [], [], []);
      ghost var goal := RunBatch(b, n, 0, run);
      taken := BatchByOutcomes(b, n, 0, run);
      for i := 0 to n
        invariant Valid() && !raised && b.dropped == []
        invariant LeadsTo(old(taskQueue), steps, taskQueue)
        invariant Base() == b.base && taskQueue.items == b.tasks && launched == b.launched
        invariant RunBatch(b, n - i, i, run) == goal
      {
        if taskQueue.items == [] {
          break;
        }
        b := RunOne(b, run(i));
        var job := taskQueue.items[0];
        steps := RoundIsRun(old(taskQueue), steps, taskQueue, if run(i).ApiError? then Some(job) else None);
        taskQueue := taskQueue.Get();
        match run(i) {
          case PodLaunched =>
            launched := launched + [job];
          case BadRequest =>
            running := running - {job.key};
            events := events[job.key := Event(Failed, "BadRequest")];
          case ApiError =>
            taskQueue := taskQueue.Put(job);
          case Crash =>
            taskQueue := taskQueue.TaskDone();
            raised := true;
            return;
        }
        taskQueue := taskQueue.TaskDone();
      }
    }

    /** `end` and the scheduler's `terminate`: every queue is emptied and every
        `join` that follows returns at once. */
    method End()
      requires Valid()
      modifies `taskQueue, `resultQueue, `watcherQueue, `running, `events
      ensures taskQueue.items == [] && taskQueue.JoinReturns()
      ensures resultQueue.items == [] && resultQueue.JoinReturns()
      ensures watcherQueue.items == [] && watcherQueue.JoinReturns()
      ensures Base() == ApplyAll(old(Base()), AppliedAtEnd(cfg, old(resultQueue).items))
      ensures forall k :: EndApplied(cfg, old(resultQueue).items, old(Base()), Base(), k)
    {
      hide EndApplied;
      ghost var tasks := FlushTasks();
      ghost var results := FlushResults();
      // Both joins come here: neither blocks.
      assert taskQueue.JoinReturns() && resultQueue.JoinReturns();
      ghost var watched := FlushWatcher();
    }

    method FlushTasks() returns (ghost steps: seq<QueueStep<Job>>)
      requires Valid()
      modifies `taskQueue
      ensures Valid() && taskQueue.items == [] && LeadsTo(old(taskQueue), steps, taskQueue)
    {
      steps := [];
      NoStep(taskQueue);
      hide LeadsTo;
      while taskQueue.items != []
        invariant Valid() && LeadsTo(old(taskQueue), steps, taskQueue)
        decreases |taskQueue.items|
      {
        steps := RoundIsRun(old(taskQueue), steps, taskQueue, None);
        taskQueue := taskQueue.Get();
        taskQueue := taskQueue.TaskDone();
      }
    }

    method FlushWatcher() returns (ghost steps: seq<QueueStep<WatchTask>>)
      requires Valid()
      modifies `watcherQueue
      ensures Valid() && watcherQueue.items == [] && LeadsTo(old(watcherQueue), steps, watcherQueue)
    {
      steps := [];
      NoStep(watcherQueue);
      hide LeadsTo;
      while watcherQueue.items != []
        invariant Valid() && LeadsTo(old(watcherQueue), steps, watcherQueue)
        decreases |watcherQueue.items|
      {
        steps := RoundIsRun(old(watcherQueue), steps, watcherQueue, None);
        watcherQueue := watcherQueue.Get();
        watcherQueue := watcherQueue.TaskDone();
      }
    }

    method FlushResults() returns (ghost steps: seq<QueueStep<Pending>>)
      requires Valid()
      modifies `resultQueue, `running, `events
      ensures Valid() && resultQueue.items == [] && LeadsTo(old(resultQueue), steps, resultQueue)
      ensures Base() == ApplyAll(old(Base()), AppliedAtEnd(cfg, old(resultQueue).items))
      ensures forall k :: EndApplied(cfg, old(resultQueue).items, old(Base()), Base(), k)
    {
      steps := [];
      NoStep(resultQueue);
      hide LeadsTo;
      hide EndApplied;
      ghost var goal := ApplyAll(Base(), AppliedAtEnd(cfg, resultQueue.items));
      while resultQueue.items != []
        invariant Valid() && LeadsTo(old(resultQueue), steps, resultQueue)
        invariant ApplyAll(Base(), AppliedAtEnd(cfg, resultQueue.items)) == goal
        decreases |resultQueue.items|
      {
        steps := RoundIsRun(old(resultQueue), steps, resultQueue, None);
        var p := resultQueue.items[0];
        ghost var rest := AppliedAtEnd(cfg, resultQueue.items[1..]);
        assert ([p.result] + rest)[1..] == rest && [] + rest == rest;
        resultQueue := resultQueue.Get();
        if !Raises(cfg, p) {
          SetState(p.result);
        }
        resultQueue := resultQueue.TaskDone();
      }
      forall k ensures EndApplied(cfg, old(resultQueue).items, old(Base()), Base(), k) {
        EndApplies(cfg, old(resultQueue).items, old(Base()), k);
      }
    }

    /** `pods` lists, one after another, the pods of every scheduler job asked for. */
    method AdoptInstances(tis: seq<Instance>, pods: seq<Pod>) returns (toFlush: seq<Instance>, raised: bool)
      modifies `running
      ensures var a := AdoptPods(StartAdoption(old(running), tis), pods);
              && running == a.running && raised == a.raised
              && (!raised ==> toFlush == ToFlush(tis, a))
    {
      var waiting := Awaiting(tis);
      ghost var a := StartAdoption(running, tis);
      ghost var goal := AdoptPods(a, pods);
      toFlush, raised := [], false;
      for i := 0 to |pods|
        invariant running == a.running && waiting == a.waiting && !a.raised && !raised
        invariant AdoptPods(a, pods[i..]) == goal
      {
        a := AdoptPod(a, pods[i]);
        assert pods[i..][1..] == pods[i + 1..];
        if pods[i].key.None? {
          RaisedStays(a, pods[i + 1..]);
          raised := true;
          return;
        }
        var k := pods[i].key.value;
        if waiting.Has(k) && pods[i].patched {
          waiting := waiting.Remove(k);
          running := running + {k};
        }
      }
      toFlush := Jobless(tis) + ValuesInOrder(waiting);
    }
  }

  lemma {:induction false} RaisedStays(a: Adoption, pods: seq<Pod>)
    requires a.raised
    ensures AdoptPods(a, pods) == a
    decreases |pods|
  {
    if pods != [] { RaisedStays(a, pods[1..]); }
  }
}
