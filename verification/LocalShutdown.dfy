/** Shutting down LocalExecutor with limited parallelism
    (airflow/executors/local_executor.py): no deadlock, termination, what refused
    commands leave behind, and the sequential loops as runs of the protocol in
    `LocalLimited`. */
module LocalShutdown {
  import opened Sequences
  import opened OrderedMaps
  import Executor
  import opened LocalWork
  import opened LocalLimited

  // ---- Shutdown -------------------------------------------------------------

  function ItemWeight(): Item -> nat { (_: Item) => 5 }
  function ResultWeight(): Result -> nat { (_: Result) => 1 }
  function WorkerWeight(): Worker -> nat {
    (w: Worker) => match w
      case Idle => 0
      case Fetched(_) => 4
      case Ran(_) => 3
      case Reported => 1
      case Exited => 0
  }

  ghost function PhaseRank(p: Phase): nat {
    match p
    case Accepting => 4
    case SendingPills(_) => 3
    case Joining => 2
    case FinalSync => 1
    case Ended => 0
  }

  /** What is left to do: pills to send, queued and held items, unread results. */
  ghost function Measure(s: State): nat {
    var unsent := if PillsSent(s) <= |s.workers| then |s.workers| - PillsSent(s) else 0;
    6 * unsent + Sum(s.tasks, ItemWeight()) + Sum(s.workers, WorkerWeight())
    + Sum(s.results, ResultWeight()) + PhaseRank(s.phase)
  }

  lemma ShutdownStepShrinks(s: State, a: Action)
    requires Control(s) && !s.phase.Accepting? && Enabled(s, a)
    ensures Measure(Apply(s, a)) < Measure(s) && !Apply(s, a).phase.Accepting?
  {
    hide Sum;
    var t := Apply(s, a);
    if a.Sync? {
      SumHead(s.results, ResultWeight());
    } else if WorkerStep(a) {
      SumUpdate(s.workers, a.worker, t.workers[a.worker], WorkerWeight());
      if a.Report? {
        SumPush(s.results, s.workers[a.worker].result, ResultWeight());
      } else if a.Fetch? {
        SumHead(s.tasks, ItemWeight());
      }
    } else if a.SendPill? {
      SumPush(s.tasks, PoisonPill, ItemWeight());
    }
  }

  /** In every reachable state in which `join` waits there are exactly as many
      workers still to take a pill as pills still queued, and no command is queued
      behind a pill. */
  lemma PillsMatchWorkers(base: Executor.ExecutorState, parallelism: nat, actions: seq<Action>, s: State)
    requires base.running == {}
    requires Reaches(Start(base, parallelism), actions, s) && s.phase.Joining?
    ensures parallelism - Sum(s.workers, TookPill()) == Sum(s.tasks, IsPill())
    ensures forall i, j :: 0 <= i < j < |s.tasks| && s.tasks[j].Work? ==> s.tasks[i].Work?
  {
    StartInv(base, parallelism);
    RunKeepsInv(Start(base, parallelism), actions, s);
  }

  /** No deadlock: after `end` is called, some process can always take a step
      until `end` has returned. */
  lemma ShutdownNeverStuck(s: State) returns (a: Action)
    requires Control(s) && !s.phase.Accepting? && !s.phase.Ended?
    requires s.workers != [] || s.tasks == []
    ensures Enabled(s, a)
  {
    if s.phase.SendingPills? {
      a := if s.phase.sent < |s.workers| then SendPill else BeginJoin;
    } else if s.phase.FinalSync? {
      a := if s.results == [] then Finish else Sync;
    } else if s.unfinished == 0 {
      a := JoinReturns;
    } else {
      SumZero(s.workers, Busy());
      if i :| 0 <= i < |s.workers| && Busy()(s.workers[i]) != 0 {
        var w := s.workers[i];
        a := if w.Ran? then Report(i) else if w.Fetched? && w.item.Work? then Execute(i, true) else TaskDone(i);
      } else {
        var i := IdleWorkerLeft(s);
        a := Fetch(i);
      }
    }
  }

  lemma IdleWorkerLeft(s: State) returns (i: nat)
    requires Control(s) && s.phase.Joining? && s.tasks != [] && s.workers != []
    requires forall j :: 0 <= j < |s.workers| ==> Busy()(s.workers[j]) == 0
    ensures i < |s.workers| && s.workers[i].Idle?
  {
    SumFull(s.workers, TookPill());
    SumZero(s.tasks, IsPill());
    if Sum(s.workers, TookPill()) == |s.workers| {
      assert false;
    }
    i :| 0 <= i < |s.workers| && TookPill()(s.workers[i]) != 1;
  }

  /** Shutdown terminates: the measure bounds the length of every interleaving,
      and one can only stop for good once `end` has returned. */
  lemma {:induction false} ShutdownTerminates(s: State, actions: seq<Action>, t: State)
    requires Inv(s) && !s.phase.Accepting? && (s.workers != [] || s.tasks == [])
    requires Reaches(s, actions, t)
    ensures |actions| + Measure(t) <= Measure(s)
    ensures (forall a :: !Enabled(t, a)) ==> t.phase.Ended?
    ensures t.phase.Ended? ==> forall a :: !Enabled(t, a)
    decreases |actions|
  {
    if actions != [] {
      ShutdownStepShrinks(s, actions[0]);
      StepKeepsInv(s, actions[0]);
      ShutdownTerminates(Apply(s, actions[0]), actions[1..], t);
    } else if t.phase.Ended? {
      SumZero(t.workers, Busy());
      forall a ensures !Enabled(t, a) {
        if WorkerStep(a) && a.worker < |t.workers| {
          assert Busy()(t.workers[a.worker]) == 0;
        }
      }
    } else {
      var a := ShutdownNeverStuck(t);
    }
  }

  /** ... and a run to completion exists from every state of the shutdown. */
  lemma ShutdownCompletes(s: State) returns (actions: seq<Action>, t: State)
    requires Inv(s) && !s.phase.Accepting? && (s.workers != [] || s.tasks == [])
    ensures Reaches(s, actions, t) && t.phase.Ended?
    decreases Measure(s)
  {
    if s.phase.Ended? {
      actions, t := [], s;
    } else {
      var a := ShutdownNeverStuck(s);
      StepKeepsInv(s, a);
      ShutdownStepShrinks(s, a);
      actions, t := ShutdownCompletes(Apply(s, a));
      assert ([a] + actions)[1..] == actions;
      actions := [a] + actions;
    }
  }

  // ---- Refused commands -------------------------------------------------------

  /** The step hands over a command that is refused. */
  ghost predicate Refuses(s: State, a: Action) {
    a.Trigger? && s.base.queued.Has(a.key) && !ValidCommand(s.base.queued.values[a.key].command)
  }

  ghost predicate RefusesNone(s: State, actions: seq<Action>)
    decreases |actions|
  {
    actions == [] ||
    (Enabled(s, actions[0]) && !Refuses(s, actions[0]) && RefusesNone(Apply(s, actions[0]), actions[1..]))
  }

  lemma StepRefuses(s: State, a: Action)
    requires Enabled(s, a)
    ensures Apply(s, a).rejected == if Refuses(s, a) then s.rejected + {a.key} else s.rejected
  {
  }

  lemma {:induction false} RefusedIff(s: State, actions: seq<Action>, t: State)
    requires Reaches(s, actions, t)
    ensures s.rejected <= t.rejected
    ensures s.rejected == {} ==> (t.rejected == {} <==> RefusesNone(s, actions))
    decreases |actions|
  {
    hide Apply;
    if actions != [] {
      StepRefuses(s, actions[0]);
      RefusedIff(Apply(s, actions[0]), actions[1..], t);
      if Refuses(s, actions[0]) {
        assert actions[0].key in t.rejected;
      }
    }
  }

  /** Once `end` has returned the running set is empty exactly if no command handed
      over was refused. */
  lemma EndedEmptyIff(base: Executor.ExecutorState, parallelism: nat, actions: seq<Action>, s: State)
    requires base.running == {}
    requires Reaches(Start(base, parallelism), actions, s) && s.phase.Ended?
    ensures s.base.running == {} <==> RefusesNone(Start(base, parallelism), actions)
  {
    EndedDeliversOnce(base, parallelism, actions, s);
    RefusedIff(Start(base, parallelism), actions, s);
  }

  /** ... in particular if every command queued at the start or later begins as it should. */
  lemma {:induction false} ValidCommandsPass(s: State, actions: seq<Action>, t: State)
    requires Reaches(s, actions, t) && QueuedValid(s.base)
    requires forall a | a in actions && a.Enqueue? :: ValidCommand(a.task.command)
    ensures RefusesNone(s, actions)
    decreases |actions|
  {
    hide ValidCommand;
    if actions != [] {
      assert actions[0] in actions && forall a | a in actions[1..] :: a in actions;
      ValidCommandsPass(Apply(s, actions[0]), actions[1..], t);
    }
  }

  /** An invalid command leaves its key in the running set for good: from any base
      and with any number of workers there is such a run to the end. */
  lemma RefusedKeyStays(base: Executor.ExecutorState, parallelism: nat, k: Executor.TaskInstanceKey,
                        t: Executor.QueuedTask)
    returns (actions: seq<Action>, s: State)
    requires base.running == {} && !base.queued.Has(k) && !ValidCommand(t.command)
    ensures Reaches(Start(base, parallelism), actions, s) && s.phase.Ended? && k in s.base.running
  {
    var start := Start(base, parallelism);
    StartInv(base, parallelism);
    var queued := Apply(start, Enqueue(k, t));
    var refused := Apply(queued, Trigger(k));
    StepKeepsInv(start, Enqueue(k, t));
    StepKeepsInv(queued, Trigger(k));
    StepKeepsInv(refused, BeginEnd);
    hide Inv;
    hide Reaches;
    var ending := Apply(refused, BeginEnd);
    actions, s := ShutdownCompletes(ending);
    ReachesStep(refused, BeginEnd, actions, s);
    ReachesStep(queued, Trigger(k), [BeginEnd] + actions, s);
    ReachesStep(start, Enqueue(k, t), [Trigger(k)] + ([BeginEnd] + actions), s);
    RefusedIff(ending, actions, s);
    assert k in ending.rejected;
    actions := [Enqueue(k, t)] + ([Trigger(k)] + ([BeginEnd] + actions));
    EndedDeliversOnce(base, parallelism, actions, s);
  }

  // ---- The loops as runs ----------------------------------------------------

  lemma {:induction false} ReachesConcat(s: State, first: seq<Action>, t: State, second: seq<Action>, u: State)
    requires Reaches(s, first, t) && Reaches(t, second, u)
    ensures Reaches(s, first + second, u)
    decreases |first|
  {
    if first == [] {
      assert first + second == second;
    } else {
      ReachesConcat(Apply(s, first[0]), first[1..], t, second, u);
      assert (first + second)[1..] == first[1..] + second;
    }
  }

  lemma ReachesStep(s: State, a: Action, actions: seq<Action>, t: State)
    requires Enabled(s, a) && Reaches(Apply(s, a), actions, t)
    ensures Reaches(s, [a] + actions, t)
  {
    assert ([a] + actions)[1..] == actions;
  }

  lemma TwoSteps(s: State, a: Action, b: Action)
    requires Enabled(s, a) && Enabled(Apply(s, a), b)
    ensures Reaches(s, [a, b], Apply(Apply(s, a), b))
  {
    var t := Apply(Apply(s, a), b);
    assert Reaches(t, [], t);
    ReachesStep(Apply(s, a), b, [], t);
    assert [b] + [] == [b];
    ReachesStep(s, a, [b], t);
    assert [a] + [b] == [a, b];
  }

  /** One round of a worker that finds a command in front of it. */
  lemma WorkerRoundIsRun(s: State, i: nat, ok: bool) returns (actions: seq<Action>, t: State)
    requires i < |s.workers| && s.workers[i].Idle? && s.tasks != [] && s.tasks[0].Work?
    ensures Reaches(s, actions, t)
    ensures t.tasks == s.tasks[1..] && t.unfinished == s.unfinished - 1
    ensures t.results == s.results + [Result(s.tasks[0].key, ok)] && t.workers == s.workers
  {
    var ran := Apply(Apply(s, Fetch(i)), Execute(i, ok));
    t := Apply(Apply(ran, Report(i)), TaskDone(i));
    TwoSteps(s, Fetch(i), Execute(i, ok));
    TwoSteps(ran, Report(i), TaskDone(i));
    ReachesConcat(s, [Fetch(i), Execute(i, ok)], ran, [Report(i), TaskDone(i)], t);
    actions := [Fetch(i), Execute(i, ok)] + [Report(i), TaskDone(i)];
  }

  /** The worker loop is a run of the protocol: a worker left alone with the
      queue takes it to the state its loop computes, and has then exited. */
  lemma WorkerLoopIsRun(s: State, i: nat, run: (Executor.TaskInstanceKey, Executor.Command) -> bool)
    returns (actions: seq<Action>, t: State)
    requires i < |s.workers| && s.workers[i].Idle? && PoisonPill in s.tasks
    ensures Reaches(s, actions, t)
    ensures WorkerQueues(t.tasks, t.unfinished, t.results)
            == WorkerLoop(WorkerQueues(s.tasks, s.unfinished, s.results), run)
    ensures t.workers == s.workers[i := Exited]
    decreases |s.tasks|
  {
    if s.tasks[0].PoisonPill? {
      TwoSteps(s, Fetch(i), TaskDone(i));
      actions, t := [Fetch(i), TaskDone(i)], Apply(Apply(s, Fetch(i)), TaskDone(i));
    } else {
      var round, idle := WorkerRoundIsRun(s, i, run(s.tasks[0].key, s.tasks[0].command));
      actions, t := WorkerLoopIsRun(idle, i, run);
      ReachesConcat(s, round, idle, actions, t);
      actions := round + actions;
    }
  }

  /** Draining the result queue is a run of `Sync` steps. */
  lemma SyncLoopIsRun(s: State) returns (actions: seq<Action>, t: State)
    requires s.phase.Accepting? || s.phase.FinalSync?
    ensures Reaches(s, actions, t) && |actions| == |s.results|
    ensures t.results == [] && t.base == ApplyResults(s.base, s.results)
    decreases |s.results|
  {
    if s.results == [] {
      actions, t := [], s;
    } else {
      actions, t := SyncLoopIsRun(Apply(s, Sync));
      assert ([Sync] + actions)[1..] == actions;
      actions := [Sync] + actions;
    }
  }
}
