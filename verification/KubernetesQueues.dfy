/** The queues of KubernetesExecutor and its scheduler
    (airflow/executors/kubernetes_executor.py): join/task_done accounting, the
    result-drain loop that re-queues on failure, the task batch, and adoption. */
module KubernetesQueues {
  import opened Sequences
  import opened OrderedMaps
  import opened StableSort
  import opened Executor

  /** A queue with `task_done` accounting; `join` returns once `unfinished` is zero. */
  datatype JoinableQueue<T> = JoinableQueue(items: seq<T>, unfinished: int) {
    function Put(x: T): JoinableQueue<T> { JoinableQueue(items + [x], unfinished + 1) }

    function Get(): JoinableQueue<T>
      requires items != []
    {
      JoinableQueue(items[1..], unfinished)
    }

    function TaskDone(): JoinableQueue<T> { JoinableQueue(items, unfinished - 1) }

    predicate JoinReturns() { unfinished == 0 }

    /** An unfinished item is queued or in somebody's hand. */
    predicate Accounted(inHand: nat) { unfinished == |items| + inHand }
  }

  // ---- Accounting over every interleaving -------------------------------------

  /** Steps on one queue: another process puts, this one takes an item, puts the
      item it holds back, or reports an item done. */
  datatype QueueStep<T> = PutNew(x: T) | TakeOne | PutBack(x: T) | ReportDone

  datatype Handled<T> = Handled(queue: JoinableQueue<T>, inHand: nat)

  ghost predicate CanStep<T>(h: Handled<T>, step: QueueStep<T>) {
    match step
    case PutNew(_) => true
    case TakeOne => h.queue.items != []
    case PutBack(_) => h.inHand > 0
    case ReportDone => h.inHand > 0
  }

  ghost function StepQueue<T>(h: Handled<T>, step: QueueStep<T>): Handled<T>
    requires CanStep(h, step)
  {
    match step
    case PutNew(x) => Handled(h.queue.Put(x), h.inHand)
    case TakeOne => Handled(h.queue.Get(), h.inHand + 1)
    case PutBack(x) => Handled(h.queue.Put(x), h.inHand)
    case ReportDone => Handled(h.queue.TaskDone(), h.inHand - 1)
  }

  ghost predicate QueueRun<T>(h: Handled<T>, steps: seq<QueueStep<T>>, g: Handled<T>)
    decreases |steps|
  {
    if steps == [] then h == g
    else CanStep(h, steps[0]) && QueueRun(StepQueue(h, steps[0]), steps[1..], g)
  }

  /** Whatever is put, taken, put back and reported in whatever order, `join`
      returns exactly if no item is queued and none is in hand - in particular
      never while an item that was put back is waiting. */
  lemma {:induction false} JoinWaitsForAll<T>(h: Handled<T>, steps: seq<QueueStep<T>>, g: Handled<T>)
    requires h.queue.Accounted(h.inHand) && QueueRun(h, steps, g)
    ensures g.queue.Accounted(g.inHand)
    ensures g.queue.JoinReturns() <==> g.queue.items == [] && g.inHand == 0
    decreases |steps|
  {
    if steps != [] {
      JoinWaitsForAll(StepQueue(h, steps[0]), steps[1..], g);
    }
  }

  lemma {:induction false} QueueRunPush<T>(h: Handled<T>, steps: seq<QueueStep<T>>, g: Handled<T>, step: QueueStep<T>)
    requires QueueRun(h, steps, g) && CanStep(g, step)
    ensures QueueRun(h, steps + [step], StepQueue(g, step))
    decreases |steps|
  {
    if steps == [] {
      assert [step][1..] == [];
    } else {
      QueueRunPush(StepQueue(h, steps[0]), steps[1..], g, step);
      assert (steps + [step])[1..] == steps[1..] + [step];
    }
  }

  /** The queue after one round of a loop: an item is taken, perhaps something is put
      back for it, and it is reported done. */
  function AfterRound<T>(q: JoinableQueue<T>, back: Option<T>): JoinableQueue<T>
    requires q.items != []
  {
    (if back.Some? then q.Get().Put(back.value) else q.Get()).TaskDone()
  }

  /** The steps lead from one queue to the other, with nothing in hand at either end. */
  ghost predicate LeadsTo<T>(before: JoinableQueue<T>, steps: seq<QueueStep<T>>, after: JoinableQueue<T>) {
    QueueRun(Handled(before, 0), steps, Handled(after, 0))
  }

  lemma NoStep<T>(q: JoinableQueue<T>)
    ensures LeadsTo(q, [], q)
  {
  }

  /** Such a round is a run of three steps or two. */
  lemma RoundIsRun<T>(before: JoinableQueue<T>, steps: seq<QueueStep<T>>, q: JoinableQueue<T>, back: Option<T>)
    returns (longer: seq<QueueStep<T>>)
    requires LeadsTo(before, steps, q) && q.items != []
    ensures LeadsTo(before, longer, AfterRound(q, back))
  {
    hide QueueRun;
    var h := Handled(before, 0);
    QueueRunPush(h, steps, Handled(q, 0), TakeOne);
    longer := steps + [TakeOne];
    var taken := Handled(q.Get(), 1);
    if back.Some? {
      QueueRunPush(h, longer, taken, PutBack(back.value));
      longer := longer + [PutBack(back.value)];
      taken := Handled(q.Get().Put(back.value), 1);
    }
    QueueRunPush(h, longer, taken, ReportDone);
    longer := longer + [ReportDone];
  }

  // ---- Results ------------------------------------------------------------------

  datatype Config = Config(deleteWorkerPods: bool, deleteOnFailure: bool, batchSize: int)

  datatype PodResult = PodResult(key: TaskInstanceKey, state: TaskState, podId: string, namespace: string, version: int)

  /** A queued result and how many more times deleting its pod is going to raise;
      `None` if it raises every time. */
  datatype Pending = Pending(result: PodResult, failures: Option<nat>)

  predicate DeletesPod(cfg: Config, state: TaskState) {
    !state.Running? && cfg.deleteWorkerPods && (!state.Failed? || cfg.deleteOnFailure)
  }

  /** Only the deletion can raise. */
  function Failures(cfg: Config, p: Pending): Option<nat> {
    if DeletesPod(cfg, p.result.state) then p.failures else Some(0)
  }

  predicate Raises(cfg: Config, p: Pending) {
    Failures(cfg, p) != Some(0)
  }

  /** Every result fails only finitely often. */
  ghost predicate Finite(cfg: Config, q: seq<Pending>) {
    forall p | p in q :: Failures(cfg, p).Some?
  }

  function ApplyResult(s: ExecutorState, r: PodResult): ExecutorState {
    s.(running := if r.state.Running? then s.running else s.running - {r.key},
       events := s.events[r.key := Event(r.state, "")])
  }

  function ApplyAll(s: ExecutorState, rs: seq<PodResult>): ExecutorState
    decreases |rs|
  {
    if rs == [] then s else ApplyAll(ApplyResult(s, rs[0]), rs[1..])
  }

  /** The state that the last of these results gives `k`, if one is for it. */
  function LastState(rs: seq<PodResult>, k: TaskInstanceKey): Option<TaskState> {
    if rs == [] then None
    else if rs[|rs| - 1].key == k then Some(rs[|rs| - 1].state)
    else LastState(rs[..|rs| - 1], k)
  }

  lemma {:induction false} LastStateFrom(r: PodResult, rest: seq<PodResult>, k: TaskInstanceKey)
    ensures LastState([r] + rest, k)
            == if LastState(rest, k).Some? then LastState(rest, k) else if r.key == k then Some(r.state) else None
    decreases |rest|
  {
    if rest != [] {
      var init := rest[..|rest| - 1];
      LastStateFrom(r, init, k);
      assert ([r] + rest)[..|rest|] == [r] + init;
    } else {
      assert [r] + rest == [r] && [r][..0] == [];
    }
  }

  /** What `k` is like after these results: still running exactly if it was and every
      result for it says RUNNING; its event the state of the last one for it. */
  ghost predicate Applied(before: ExecutorState, after: ExecutorState, rs: seq<PodResult>, k: TaskInstanceKey) {
    && (k in after.running <==> k in before.running && forall r | r in rs && r.key == k :: r.state == Running)
    && var last := LastState(rs, k);
       if last.Some? then k in after.events && after.events[k] == Event(last.value, "")
       else (k in after.events <==> k in before.events) && (k in after.events ==> after.events[k] == before.events[k])
  }

  lemma {:induction false} ResultsApplied(s: ExecutorState, rs: seq<PodResult>, k: TaskInstanceKey)
    ensures Applied(s, ApplyAll(s, rs), rs, k)
    ensures ApplyAll(s, rs).queued == s.queued
    decreases |rs|
  {
    if rs != [] {
      ResultsApplied(ApplyResult(s, rs[0]), rs[1..], k);
      LastStateFrom(rs[0], rs[1..], k);
      assert rs == [rs[0]] + rs[1..];
      assert forall r :: r in rs <==> r == rs[0] || r in rs[1..];
    }
  }

  function Count(cfg: Config, p: Pending): nat {
    if Failures(cfg, p).Some? then Failures(cfg, p).value else 0
  }

  function PendingWeight(cfg: Config): Pending -> nat { (p: Pending) => 1 + Count(cfg, p) }

  /** Attempts the drain loop is going to make: the termination measure. */
  ghost function Attempts(cfg: Config, q: seq<Pending>): nat { Sum(q, PendingWeight(cfg)) }

  function Retried(p: Pending): Pending
    requires p.failures != Some(0)
  {
    if p.failures.None? then p else p.(failures := Some(p.failures.value - 1))
  }

  /** The queue after one round: a result whose application raises goes to the back. */
  function NextQueue(cfg: Config, q: seq<Pending>): seq<Pending>
    requires q != []
  {
    if Raises(cfg, q[0]) then q[1..] + [Retried(q[0])] else q[1..]
  }

  lemma AttemptsFall(cfg: Config, q: seq<Pending>)
    requires q != [] && Finite(cfg, q)
    ensures Finite(cfg, NextQueue(cfg, q)) && Attempts(cfg, NextQueue(cfg, q)) + 1 == Attempts(cfg, q)
  {
    assert q[0] in q;
    if Raises(cfg, q[0]) {
      SumPush(q[1..], Retried(q[0]), PendingWeight(cfg));
    }
  }

  /** The order in which the drain loop applies the results. */
  ghost function Drained(cfg: Config, q: seq<Pending>): seq<PodResult>
    requires Finite(cfg, q)
    decreases Attempts(cfg, q)
  {
    if q == [] then []
    else
      AttemptsFall(cfg, q);
      (if Raises(cfg, q[0]) then [] else [q[0].result]) + Drained(cfg, NextQueue(cfg, q))
  }

  ghost function ByFailures(cfg: Config, q: seq<Pending>): (r: seq<Ranked<PodResult>>)
    ensures |r| == |q|
  {
    seq(|q|, i requires 0 <= i < |q| => Ranked(Count(cfg, q[i]), q[i].result))
  }

  /** The drain loop applies the results in the order of how often each is going
      to fail, first come first served among equals. */
  lemma {:induction false} DrainedInFailureOrder(cfg: Config, q: seq<Pending>)
    requires Finite(cfg, q)
    ensures Drained(cfg, q) == Items(Sort(ByFailures(cfg, q)))
    decreases Attempts(cfg, q)
  {
    if q != [] {
      AttemptsFall(cfg, q);
      assert q[0] in q;
      var x, rest := q[0], q[1..];
      var head := Ranked(Count(cfg, x), x.result);
      assert ByFailures(cfg, q) == [head] + ByFailures(cfg, rest);
      DrainedInFailureOrder(cfg, NextQueue(cfg, q));
      if !Raises(cfg, x) {
        LeastComesFirst(head, ByFailures(cfg, rest));
      } else {
        RotationKeepsOrder(head, ByFailures(cfg, rest));
        assert ByFailures(cfg, rest + [Retried(x)]) == ByFailures(cfg, rest) + [Ranked(head.rank - 1, head.item)];
      }
    }
  }

  function Results(q: seq<Pending>): (r: seq<PodResult>)
    ensures |r| == |q|
  {
    seq(|q|, i requires 0 <= i < |q| => q[i].result)
  }

  /** Every queued result is applied exactly once, however often it fails first. */
  lemma DrainedOnce(cfg: Config, q: seq<Pending>)
    requires Finite(cfg, q)
    ensures multiset(Drained(cfg, q)) == multiset(Results(q))
    ensures |Drained(cfg, q)| == |q|
  {
    DrainedInFailureOrder(cfg, q);
    SortKeepsItems(ByFailures(cfg, q));
    assert Items(ByFailures(cfg, q)) == Results(q);
  }

  /** After the drain a key is running exactly if it was and every queued result for it
      says RUNNING, however often results fail; its event is the state of the one that
      was applied last. */
  lemma DrainApplies(cfg: Config, q: seq<Pending>, s: ExecutorState, k: TaskInstanceKey)
    requires Finite(cfg, q)
    ensures var t := ApplyAll(s, Drained(cfg, q));
            && (k in t.running
                <==> k in s.running && forall p | p in q && p.result.key == k :: p.result.state == Running)
            && Applied(s, t, Drained(cfg, q), k)
  {
    DrainedOnce(cfg, q);
    ResultsApplied(s, Drained(cfg, q), k);
    forall r ensures r in Drained(cfg, q) <==> exists p :: p in q && p.result == r {
      assert r in Drained(cfg, q) <==> r in multiset(Drained(cfg, q));
      assert r in Results(q) <==> r in multiset(Results(q));
      if r in Results(q) {
        var i :| 0 <= i < |q| && Results(q)[i] == r;
        assert q[i] in q && q[i].result == r;
      }
      if p :| p in q && p.result == r {
        var i :| 0 <= i < |q| && q[i] == p;
        assert Results(q)[i] == r;
      }
    }
    forall p | p in q ensures p.result in Drained(cfg, q) {
    }
  }

  /** The drain loop with what it has applied so far. */
  datatype Draining = Draining(queue: seq<Pending>, applied: seq<PodResult>)

  /** The loop after `n` rounds, or where it ended before that. */
  ghost function AfterRounds(cfg: Config, d: Draining, n: nat): Draining
    decreases n
  {
    if n == 0 || d.queue == [] then d
    else
      AfterRounds(cfg, Draining(NextQueue(cfg, d.queue),
                                d.applied + if Raises(cfg, d.queue[0]) then [] else [d.queue[0].result]), n - 1)
  }

  /** A result that raises every time never leaves the queue, whatever the others do. */
  lemma {:induction false} StuckResultStays(cfg: Config, d: Draining, n: nat, p: Pending)
    requires p in d.queue && Failures(cfg, p).None?
    ensures p in AfterRounds(cfg, d, n).queue
    decreases n
  {
    if n > 0 {
      assert d.queue == [d.queue[0]] + d.queue[1..];
      var one := if Raises(cfg, d.queue[0]) then [] else [d.queue[0].result];
      StuckResultStays(cfg, Draining(NextQueue(cfg, d.queue), d.applied + one), n - 1, p);
    }
  }

  lemma {:induction false} FiniteFailuresEnd(cfg: Config, d: Draining)
    requires Finite(cfg, d.queue)
    ensures AfterRounds(cfg, d, Attempts(cfg, d.queue)) == Draining([], d.applied + Drained(cfg, d.queue))
    decreases Attempts(cfg, d.queue)
  {
    if d.queue != [] {
      AttemptsFall(cfg, d.queue);
      var one := if Raises(cfg, d.queue[0]) then [] else [d.queue[0].result];
      FiniteFailuresEnd(cfg, Draining(NextQueue(cfg, d.queue), d.applied + one));
      var rest := Drained(cfg, NextQueue(cfg, d.queue));
      assert d.applied + one + rest == d.applied + (one + rest);
    }
  }

  /** The loop ends exactly if every result fails only finitely often, and then after
      one round per attempt. */
  lemma DrainEndsIff(cfg: Config, q: seq<Pending>)
    ensures (exists n: nat :: AfterRounds(cfg, Draining(q, []), n).queue == []) <==> Finite(cfg, q)
    ensures Finite(cfg, q) ==> AfterRounds(cfg, Draining(q, []), Attempts(cfg, q)) == Draining([], Drained(cfg, q))
  {
    if Finite(cfg, q) {
      FiniteFailuresEnd(cfg, Draining(q, []));
      assert [] + Drained(cfg, q) == Drained(cfg, q);
    } else {
      var p :| p in q && Failures(cfg, p).None?;
      forall n: nat ensures AfterRounds(cfg, Draining(q, []), n).queue != [] {
        StuckResultStays(cfg, Draining(q, []), n, p);
      }
    }
  }

  // ---- The batch of new tasks -----------------------------------------------------

  datatype Job = Job(key: TaskInstanceKey, command: Command, podTemplate: Option<string>)

  /** `run_next` launches the pod, is refused as a bad request, meets another API
      error, or raises something else, which escapes. */
  datatype RunOutcome = PodLaunched | BadRequest | ApiError | Crash

  datatype Batched = Batched(
    base: ExecutorState, tasks: seq<Job>, launched: seq<Job>, refused: seq<Job>, dropped: seq<Job>)

  /** One attempt at the head of the queue. */
  function RunOne(b: Batched, o: RunOutcome): Batched
    requires b.tasks != []
  {
    var job, rest := b.tasks[0], b.tasks[1..];
    match o
    case PodLaunched => b.(tasks := rest, launched := b.launched + [job])
    case BadRequest =>
      b.(tasks := rest, refused := b.refused + [job],
         base := ChangeState(b.base, job.key, Event(Failed, "BadRequest")))
    case ApiError => b.(tasks := rest + [job])
    case Crash => b.(tasks := rest, dropped := b.dropped + [job])
  }

  /** Up to `n` attempts; attempt `i` has outcome `run(i)`. */
  function RunBatch(b: Batched, n: nat, i: nat, run: nat -> RunOutcome): Batched
    decreases n
  {
    if n == 0 || b.tasks == [] then b
    else if run(i).Crash? then RunOne(b, run(i))
    else RunBatch(RunOne(b, run(i)), n - 1, i + 1, run)
  }

  ghost function AllJobs(b: Batched): multiset<Job> {
    multiset(b.tasks) + multiset(b.launched) + multiset(b.refused) + multiset(b.dropped)
  }

  lemma RunOneConserves(b: Batched, o: RunOutcome)
    requires b.tasks != []
    ensures AllJobs(RunOne(b, o)) == AllJobs(b)
  {
    assert b.tasks == [b.tasks[0]] + b.tasks[1..];
  }

  /** No task is lost or launched twice: each is launched, refused and marked
      failed, still queued, or was in hand when an exception escaped; and a batch
      takes at most `n` of them off the queue. */
  lemma {:induction false} BatchConserves(b: Batched, n: nat, i: nat, run: nat -> RunOutcome)
    ensures AllJobs(RunBatch(b, n, i, run)) == AllJobs(b)
    ensures |RunBatch(b, n, i, run).tasks| + n >= |b.tasks|
    ensures b.dropped == [] ==> |RunBatch(b, n, i, run).dropped| <= 1
    decreases n
  {
    hide AllJobs;
    if n > 0 && b.tasks != [] {
      RunOneConserves(b, run(i));
      if !run(i).Crash? {
        BatchConserves(RunOne(b, run(i)), n - 1, i + 1, run);
      }
    }
  }

  /** The jobs among those attempted whose attempt came out as `o`; attempt `j` of them
      is attempt `i + j` of the batch. */
  function Chosen(taken: seq<Job>, i: nat, run: nat -> RunOutcome, o: RunOutcome): seq<Job> {
    if taken == [] then []
    else (if run(i) == o then [taken[0]] else []) + Chosen(taken[1..], i + 1, run, o)
  }

  ghost predicate Refused(taken: seq<Job>, i: nat, run: nat -> RunOutcome, k: TaskInstanceKey) {
    exists job :: job in Chosen(taken, i, run, BadRequest) && job.key == k
  }

  /** The queue first in first out: jobs that met an API error have joined its end. */
  ghost predicate TakesInOrder(b: Batched, i: nat, run: nat -> RunOutcome, taken: seq<Job>, after: Batched) {
    var stream := b.tasks + Chosen(taken, i, run, ApiError);
    |taken| <= |stream| && taken == stream[..|taken|] && after.tasks == stream[|taken|..]
  }

  /** The keys of bad requests are failed and no longer running; nothing else changes. */
  ghost predicate FailsRefused(b: Batched, i: nat, run: nat -> RunOutcome, taken: seq<Job>, after: Batched) {
    && after.base.queued == b.base.queued
    && (forall k :: k in after.base.running <==> k in b.base.running && !Refused(taken, i, run, k))
    && (forall k | Refused(taken, i, run, k) ::
          k in after.base.events && after.base.events[k] == Event(Failed, "BadRequest"))
    && (forall k | !Refused(taken, i, run, k) ::
          && (k in after.base.events <==> k in b.base.events)
          && (k in after.base.events ==> after.base.events[k] == b.base.events[k]))
  }

  ghost predicate EndsInCrash(i: nat, run: nat -> RunOutcome, taken: seq<Job>) {
    taken != [] && run(i + |taken| - 1).Crash?
  }

  /** Only the last attempt can have escaped with an exception that is no API error;
      otherwise the batch ends after `n` attempts or with an empty queue. */
  ghost predicate EndsWhen(b: Batched, n: nat, i: nat, run: nat -> RunOutcome, taken: seq<Job>, after: Batched) {
    && |taken| <= n
    && after.dropped == b.dropped + Chosen(taken, i, run, Crash)
    && Chosen(taken, i, run, Crash) == (if EndsInCrash(i, run, taken) then [taken[|taken| - 1]] else [])
    && (|taken| == n || after.tasks == [] || EndsInCrash(i, run, taken))
  }

  /** What a batch does, by the outcomes of its attempts. */
  ghost predicate BatchDoes(b: Batched, n: nat, i: nat, run: nat -> RunOutcome, taken: seq<Job>, after: Batched) {
    && TakesInOrder(b, i, run, taken, after)
    && after.launched == b.launched + Chosen(taken, i, run, PodLaunched)
    && FailsRefused(b, i, run, taken, after)
    && EndsWhen(b, n, i, run, taken, after)
  }

  lemma NothingTaken(b: Batched, n: nat, i: nat, run: nat -> RunOutcome)
    requires n == 0 || b.tasks == []
    ensures BatchDoes(b, n, i, run, [], b)
  {
    assert Chosen([], i, run, ApiError) == [] && Chosen([], i, run, PodLaunched) == [];
    assert Chosen([], i, run, Crash) == [] && Chosen([], i, run, BadRequest) == [];
    assert b.tasks + [] == b.tasks && b.launched + [] == b.launched && b.dropped + [] == b.dropped;
  }

  lemma ChosenFirst(job: Job, rest: seq<Job>, i: nat, run: nat -> RunOutcome, o: RunOutcome)
    ensures Chosen([job] + rest, i, run, o) == (if run(i) == o then [job] else []) + Chosen(rest, i + 1, run, o)
  {
    assert ([job] + rest)[1..] == rest;
  }

  lemma RefusedFirst(job: Job, rest: seq<Job>, i: nat, run: nat -> RunOutcome, k: TaskInstanceKey)
    ensures Refused([job] + rest, i, run, k)
            <==> (run(i).BadRequest? && job.key == k) || Refused(rest, i + 1, run, k)
  {
    ChosenFirst(job, rest, i, run, BadRequest);
    if run(i).BadRequest? && job.key == k {
      assert job in Chosen([job] + rest, i, run, BadRequest);
    }
    if Refused(rest, i + 1, run, k) {
      var x :| x in Chosen(rest, i + 1, run, BadRequest) && x.key == k;
      assert x in Chosen([job] + rest, i, run, BadRequest);
    }
  }

  /** The queue side of one attempt more in front. */
  lemma QueueFirst(b: Batched, i: nat, run: nat -> RunOutcome, rest: seq<Job>)
    requires b.tasks != []
    ensures var job, c := b.tasks[0], RunOne(b, run(i));
            var later, stream := c.tasks + Chosen(rest, i + 1, run, ApiError),
                                 b.tasks + Chosen([job] + rest, i, run, ApiError);
            stream == [job] + later
  {
    ChosenFirst(b.tasks[0], rest, i, run, ApiError);
  }

  lemma RefusesFirst(b: Batched, i: nat, run: nat -> RunOutcome, rest: seq<Job>, after: Batched)
    requires b.tasks != []
    requires FailsRefused(RunOne(b, run(i)), i + 1, run, rest, after)
    ensures FailsRefused(b, i, run, [b.tasks[0]] + rest, after)
  {
    hide Refused;
    var job := b.tasks[0];
    forall k
      ensures Refused([job] + rest, i, run, k) <==> (run(i).BadRequest? && job.key == k) || Refused(rest, i + 1, run, k)
    {
      RefusedFirst(job, rest, i, run, k);
    }
  }

  lemma EndsFirst(b: Batched, n: nat, i: nat, run: nat -> RunOutcome, rest: seq<Job>, after: Batched)
    requires b.tasks != [] && n > 0 && (run(i).Crash? ==> rest == [])
    requires run(i).Crash? ==> after == RunOne(b, run(i))
    requires !run(i).Crash? ==> EndsWhen(RunOne(b, run(i)), n - 1, i + 1, run, rest, after)
    ensures EndsWhen(b, n, i, run, [b.tasks[0]] + rest, after)
  {
    hide Chosen;
    ChosenFirst(b.tasks[0], rest, i, run, Crash);
    NoneChosen(i + 1, run);
    var taken := [b.tasks[0]] + rest;
    if rest != [] {
      assert taken[|taken| - 1] == rest[|rest| - 1];
      assert EndsInCrash(i, run, taken) <==> EndsInCrash(i + 1, run, rest);
    }
  }

  lemma OneMoreFirst(b: Batched, n: nat, i: nat, run: nat -> RunOutcome, rest: seq<Job>, after: Batched)
    requires b.tasks != [] && n > 0 && (run(i).Crash? ==> rest == [] && after == RunOne(b, run(i)))
    requires !run(i).Crash? ==> BatchDoes(RunOne(b, run(i)), n - 1, i + 1, run, rest, after)
    ensures BatchDoes(b, n, i, run, [b.tasks[0]] + rest, after)
  {
    hide Chosen;
    hide Refused;
    hide EndsWhen;
    hide FailsRefused;
    var job, c := b.tasks[0], RunOne(b, run(i));
    QueueFirst(b, i, run, rest);
    ChosenFirst(job, rest, i, run, PodLaunched);
    NoneChosen(i + 1, run);
    if run(i).Crash? {
      RefusesNothing(c, i + 1, run);
    }
    RefusesFirst(b, i, run, rest, after);
    EndsFirst(b, n, i, run, rest, after);
    assert b.launched + (if run(i) == PodLaunched then [job] else []) == c.launched;
  }

  lemma RefusesNothing(b: Batched, i: nat, run: nat -> RunOutcome)
    ensures FailsRefused(b, i, run, [], b)
  {
    NoneChosen(i, run);
  }

  lemma NoneChosen(i: nat, run: nat -> RunOutcome)
    ensures forall o :: Chosen([], i, run, o) == []
    ensures forall k :: !Refused([], i, run, k)
  {
  }

  /** Every batch does that. */
  lemma {:induction false} BatchByOutcomes(b: Batched, n: nat, i: nat, run: nat -> RunOutcome)
    returns (taken: seq<Job>)
    ensures BatchDoes(b, n, i, run, taken, RunBatch(b, n, i, run))
    decreases n
  {
    hide BatchDoes;
    if n == 0 || b.tasks == [] {
      taken := [];
      NothingTaken(b, n, i, run);
    } else {
      var rest := [];
      if !run(i).Crash? {
        rest := BatchByOutcomes(RunOne(b, run(i)), n - 1, i + 1, run);
      }
      OneMoreFirst(b, n, i, run, rest, RunBatch(b, n, i, run));
      taken := [b.tasks[0]] + rest;
    }
  }

  // ---- Adoption of orphaned pods ----------------------------------------------------

  datatype Instance = Instance(key: TaskInstanceKey, queuedByJob: Option<int>)

  /** A launched pod; its annotations may name no key, and patching it may fail. */
  datatype Pod = Pod(key: Option<TaskInstanceKey>, patched: bool)

  predicate HasJob(ti: Instance) {
    ti.queuedByJob.Some? && ti.queuedByJob.value != 0
  }

  /** `pod_ids`: a dictionary by key of the instances with a job. */
  function Awaiting(tis: seq<Instance>): OrderedMap<TaskInstanceKey, Instance> {
    if tis == [] then OrderedMap([], map[])
    else
      var last := tis[|tis| - 1];
      var rest := Awaiting(tis[..|tis| - 1]);
      if HasJob(last) then rest.Put(last.key, last) else rest
  }

  function Jobless(tis: seq<Instance>): seq<Instance> {
    if tis == [] then []
    else (if HasJob(tis[0]) then [] else [tis[0]]) + Jobless(tis[1..])
  }

  datatype Adoption = Adoption(
    running: set<TaskInstanceKey>, waiting: OrderedMap<TaskInstanceKey, Instance>,
    adopted: seq<TaskInstanceKey>, raised: bool)

  function AdoptPod(a: Adoption, pod: Pod): Adoption {
    if a.raised then a
    else if pod.key.None? then a.(raised := true)
    else if !a.waiting.Has(pod.key.value) || !pod.patched then a
    else
      var k := pod.key.value;
      a.(waiting := a.waiting.Remove(k), running := a.running + {k}, adopted := a.adopted + [k])
  }

  function AdoptPods(a: Adoption, pods: seq<Pod>): Adoption
    decreases |pods|
  {
    if pods == [] then a else AdoptPods(AdoptPod(a, pods[0]), pods[1..])
  }

  function StartAdoption(running: set<TaskInstanceKey>, tis: seq<Instance>): Adoption {
    Adoption(running, Awaiting(tis), [], false)
  }

  function ValuesInOrder(m: OrderedMap<TaskInstanceKey, Instance>): seq<Instance> {
    seq(|m.order|, i requires 0 <= i < |m.order| =>
      if m.order[i] in m.values then m.values[m.order[i]] else Instance(m.order[i], None))
  }

  /** What goes back to the scheduler: instances without a job, then those not adopted. */
  function ToFlush(tis: seq<Instance>, a: Adoption): seq<Instance> {
    Jobless(tis) + ValuesInOrder(a.waiting)
  }

  /** The keys that were awaited are, at every moment, split between those still
      waiting and those adopted, each of which was adopted once. */
  ghost predicate Split(a: Adoption, before: set<TaskInstanceKey>, awaited: map<TaskInstanceKey, Instance>) {
    && a.waiting.Valid() && NoDup(a.adopted)
    && a.waiting.values.Keys + Elements(a.adopted) == awaited.Keys
    && a.waiting.values.Keys !! Elements(a.adopted)
    && (forall k | k in a.waiting.values :: a.waiting.values[k] == awaited[k])
    && a.running == before + Elements(a.adopted)
  }

  lemma AdoptPodSplits(a: Adoption, pod: Pod, before: set<TaskInstanceKey>, awaited: map<TaskInstanceKey, Instance>)
    requires Split(a, before, awaited)
    ensures Split(AdoptPod(a, pod), before, awaited)
  {
    if pod.key.Some? && a.waiting.Has(pod.key.value) && pod.patched && !a.raised {
      var k := pod.key.value;
      a.waiting.RemoveValid(k);
      var b := AdoptPod(a, pod);
      assert Elements(b.adopted) == Elements(a.adopted) + {k};
      assert k !in Elements(a.adopted);
    }
  }

  lemma {:induction false} AdoptPodsSplit(a: Adoption, pods: seq<Pod>, before: set<TaskInstanceKey>,
                                          awaited: map<TaskInstanceKey, Instance>)
    requires Split(a, before, awaited)
    ensures Split(AdoptPods(a, pods), before, awaited)
    decreases |pods|
  {
    hide Split;
    if pods != [] {
      AdoptPodSplits(a, pods[0], before, awaited);
      AdoptPodsSplit(AdoptPod(a, pods[0]), pods[1..], before, awaited);
    }
  }

  lemma {:induction false} AwaitingValid(tis: seq<Instance>)
    ensures Awaiting(tis).Valid()
    ensures forall k | k in Awaiting(tis).values ::
              Awaiting(tis).values[k] in tis && HasJob(Awaiting(tis).values[k]) && Awaiting(tis).values[k].key == k
    ensures forall ti | ti in tis && HasJob(ti) :: ti.key in Awaiting(tis).values
  {
    if tis != [] {
      var last, rest := tis[|tis| - 1], tis[..|tis| - 1];
      AwaitingValid(rest);
      assert tis == rest + [last];
      Awaiting(rest).PutValid(last.key, last);
    }
  }

  lemma {:induction false} JoblessExactly(tis: seq<Instance>, ti: Instance)
    ensures ti in Jobless(tis) <==> ti in tis && !HasJob(ti)
  {
    if tis != [] {
      JoblessExactly(tis[1..], ti);
      assert tis == [tis[0]] + tis[1..];
    }
  }

  /** Adoption partitions its input: for instances with distinct keys, any pods
      and any patch failures, each instance is either handed back or its key was
      adopted into the running set, never both; nothing else enters the running
      set, and no key is adopted twice even if several pods carry it. */
  lemma AdoptionPartitions(running: set<TaskInstanceKey>, tis: seq<Instance>, pods: seq<Pod>)
    requires forall i, j :: 0 <= i < j < |tis| ==> tis[i].key != tis[j].key
    ensures var a := AdoptPods(StartAdoption(running, tis), pods);
            && (forall ti | ti in tis :: ti in ToFlush(tis, a) <==> ti.key !in a.adopted)
            && (forall ti | ti in ToFlush(tis, a) :: ti in tis)
            && (forall ti | ti in tis && (ti.queuedByJob.None? || ti.queuedByJob.value == 0) :: ti in ToFlush(tis, a))
            && a.running == running + Elements(a.adopted)
            && NoDup(a.adopted) && NoDup(ToFlush(tis, a))
            && (forall k | k in a.adopted :: exists ti :: ti in tis && ti.key == k)
  {
    var awaited := Awaiting(tis).values;
    var start := StartAdoption(running, tis);
    AwaitingValid(tis);
    assert Elements(start.adopted) == {};
    AdoptPodsSplit(start, pods, running, awaited);
    var a := AdoptPods(start, pods);
    forall k | k in a.adopted ensures exists ti :: ti in tis && ti.key == k {
      assert k in Elements(a.adopted);
      assert awaited[k] in tis;
    }
    FlushedOnce(tis, a, running);
    forall ti | ti in tis && (ti.queuedByJob.None? || ti.queuedByJob.value == 0) ensures ti in ToFlush(tis, a) {
      JoblessExactly(tis, ti);
    }
    forall ti | ti in ToFlush(tis, a) ensures ti in tis { FlushedExactly(tis, a, running, ti); }
    forall ti | ti in tis ensures ti in ToFlush(tis, a) <==> ti.key !in a.adopted {
      FlushedExactly(tis, a, running, ti);
      assert ti.key in a.adopted <==> ti.key in Elements(a.adopted);
      if ti.key in awaited { SameKeySame(tis, ti, awaited[ti.key]); }
    }
  }

  /** Some pod carries `k` and can be patched, and no pod before it lacks a key. */
  ghost predicate Carried(pods: seq<Pod>, k: TaskInstanceKey) {
    pods != [] && pods[0].key.Some?
    && ((pods[0].key.value == k && pods[0].patched) || Carried(pods[1..], k))
  }

  /** A key is adopted exactly if it is awaited and carried. */
  lemma {:induction false} AdoptedIff(a: Adoption, pods: seq<Pod>, k: TaskInstanceKey)
    ensures k in AdoptPods(a, pods).adopted
            <==> k in a.adopted || (!a.raised && a.waiting.Has(k) && Carried(pods, k))
    decreases |pods|
  {
    if pods != [] {
      AdoptedIff(AdoptPod(a, pods[0]), pods[1..], k);
    }
  }

  /** Adoption does not look at the queue: the running set stays disjoint from it exactly
      if no queued key has an instance with a job and a pod that can be patched. The keys
      that are new in the running set are those adopted that were not running before. */
  lemma AdoptionKeepsApart(running: set<TaskInstanceKey>, queued: set<TaskInstanceKey>, tis: seq<Instance>,
                           pods: seq<Pod>)
    requires running !! queued
    ensures var a := AdoptPods(StartAdoption(running, tis), pods);
            && (a.running !! queued
                <==> forall ti | ti in tis && HasJob(ti) && ti.key in queued :: !Carried(pods, ti.key))
            && a.running - running == Elements(a.adopted) - running
  {
    var start := StartAdoption(running, tis);
    var a := AdoptPods(start, pods);
    AwaitingValid(tis);
    assert Elements(start.adopted) == {};
    AdoptPodsSplit(start, pods, running, start.waiting.values);
    forall k ensures k in Elements(a.adopted) <==> k in start.waiting.values && Carried(pods, k) {
      AdoptedIff(start, pods, k);
    }
    if a.running !! queued {
      forall ti | ti in tis && HasJob(ti) && ti.key in queued ensures !Carried(pods, ti.key) {
        assert ti.key !in Elements(a.adopted);
      }
    } else {
      var k :| k in a.running && k in queued;
      assert k in Elements(a.adopted);
      assert start.waiting.values[k] in tis && Carried(pods, k);
    }
  }

  lemma {:induction false} JoblessDistinct(tis: seq<Instance>)
    requires forall i, j :: 0 <= i < j < |tis| ==> tis[i].key != tis[j].key
    ensures NoDup(Jobless(tis))
  {
    if tis != [] {
      JoblessDistinct(tis[1..]);
      var rest := Jobless(tis[1..]);
      forall i | 0 <= i < |rest| ensures rest[i] != tis[0] {
        JoblessExactly(tis[1..], rest[i]);
        assert rest[i] in rest;
        var j :| 0 <= j < |tis[1..]| && tis[1..][j] == rest[i];
        assert tis[j + 1].key != tis[0].key;
      }
    }
  }

  /** No instance is handed back twice. */
  lemma {:induction false} FlushedOnce(tis: seq<Instance>, a: Adoption, before: set<TaskInstanceKey>)
    requires forall i, j :: 0 <= i < j < |tis| ==> tis[i].key != tis[j].key
    requires Split(a, before, Awaiting(tis).values)
    ensures NoDup(ToFlush(tis, a))
  {
    JoblessDistinct(tis);
    WaitingDistinct(tis, a, before);
    var first, second := Jobless(tis), ValuesInOrder(a.waiting);
    forall x | x in first ensures x !in second {
      JoblessExactly(tis, x);
    }
    NoDupConcat(first, second);
  }

  lemma {:induction false} WaitingDistinct(tis: seq<Instance>, a: Adoption, before: set<TaskInstanceKey>)
    requires Split(a, before, Awaiting(tis).values)
    ensures NoDup(ValuesInOrder(a.waiting)) && forall x | x in ValuesInOrder(a.waiting) :: HasJob(x)
  {
    AwaitingValid(tis);
    var values := ValuesInOrder(a.waiting);
    forall i | 0 <= i < |values| ensures values[i].key == a.waiting.order[i] && HasJob(values[i]) {
      assert a.waiting.order[i] in Elements(a.waiting.order);
    }
  }

  lemma SameKeySame(tis: seq<Instance>, a: Instance, b: Instance)
    requires forall i, j :: 0 <= i < j < |tis| ==> tis[i].key != tis[j].key
    requires a in tis && b in tis && a.key == b.key
    ensures a == b
  {
    var i :| 0 <= i < |tis| && tis[i] == a;
    var j :| 0 <= j < |tis| && tis[j] == b;
  }

  lemma FlushedExactly(tis: seq<Instance>, a: Adoption, before: set<TaskInstanceKey>, ti: Instance)
    requires Split(a, before, Awaiting(tis).values)
    ensures ti in ToFlush(tis, a)
            <==> (ti in tis && !HasJob(ti)) || (ti.key in a.waiting.values && Awaiting(tis).values[ti.key] == ti)
    ensures ti in ToFlush(tis, a) ==> ti in tis
  {
    AwaitingValid(tis);
    JoblessExactly(tis, ti);
    var values := ValuesInOrder(a.waiting);
    assert forall i :: 0 <= i < |a.waiting.order| ==> a.waiting.order[i] in Elements(a.waiting.order);
    if ti.key in a.waiting.values && Awaiting(tis).values[ti.key] == ti {
      assert ti.key in Elements(a.waiting.order);
      var i :| 0 <= i < |a.waiting.order| && a.waiting.order[i] == ti.key;
      assert values[i] == ti;
    }
  }
}
