/** CeleryExecutor as an object (airflow/executors/celery_executor.py): its loops
    update the dictionaries in place, and do what `Celery` says. */
module CeleryObject {
  import opened Sequences
  import opened OrderedMaps
  import opened Executor
  import opened Celery
  import opened CeleryScan
  import opened CeleryProofs

  /** `_prepare_state_and_info_by_task_dict`: an id without a stored result is pending. */
  method PrepareStates(ids: set<TaskId>, results: Answers) returns (answers: Answers)
    ensures answers == GetMany(Stored(results), ids)
  {
    answers := map[];
    var todo := ids;
    while todo != {}
      invariant todo <= ids && answers == GetMany(Stored(results), ids - todo)
      decreases |todo|
    {
      var id :| id in todo;
      answers := answers[id := if id in results then results[id] else (StatusPending, "")];
      todo := todo - {id};
    }
    assert ids - {} == ids;
  }

  /** The multiprocessing fetcher: an id whose query raised is logged and left out. */
  method PollStates(ids: set<TaskId>, replies: Answers) returns (answers: Answers)
    ensures answers == GetMany(Polled(replies), ids)
  {
    answers := map[];
    var todo := ids;
    while todo != {}
      invariant todo <= ids && answers == GetMany(Polled(replies), ids - todo)
      decreases |todo|
    {
      var id :| id in todo;
      if id in replies {
        answers := answers[id := replies[id]];
      }
      todo := todo - {id};
    }
    assert ids - {} == ids;
  }

  method FetchStates(b: Backend, ids: set<TaskId>) returns (answers: Answers)
    ensures answers == GetMany(b, ids)
  {
    match b
    case Stored(results) => answers := PrepareStates(ids, results);
    case Polled(replies) => answers := PollStates(ids, replies);
  }

  /** The first loop of adoption: instances with a Celery id, by id, and the others. */
  method SplitInstances(tis: seq<TaskInstance>) returns (known: map<TaskId, TaskInstance>, others: seq<TaskInstance>)
    ensures known == ById(tis) && others == WithoutId(tis)
  {
    known, others := map[], [];
    for i := 0 to |tis|
      invariant known == ById(tis[..i])
      invariant others + WithoutId(tis[i..]) == WithoutId(tis)
    {
      assert tis[..i + 1][..i] == tis[..i] && tis[i..][1..] == tis[i + 1..];
      if tis[i].externalId.Some? {
        known := known[tis[i].externalId.value := tis[i]];
      } else {
        others := others + [tis[i]];
      }
    }
    assert tis[..|tis|] == tis;
  }

  lemma {:induction false} AdoptNone(c: CeleryState, order: seq<TaskId>, answers: Answers)
    ensures AdoptAll(c, order, answers, map[]) == c
    decreases |order|
  {
    if order != [] {
      AdoptNone(c, order[1..], answers);
    }
  }

  /** Every key is accounted for and the insertion orders are well formed. */
  ghost predicate AllSound(c: CeleryState) {
    Ordered(c) && forall k :: Sound(c, k)
  }

  lemma DoKeepsAll(c: CeleryState, a: CeleryAction)
    ensures AllSound(c) ==> AllSound(Do(c, a))
    ensures Ordered(c) && a.Sending? ==> Do(c, a).raised.NoError?
  {
    hide Ordered;
    hide Sound;
    if AllSound(c) {
      DoOrdered(c, a);
      forall k ensures Sound(Do(c, a), k) {
        DoKeeps(c, a, k);
      }
    }
    if Ordered(c) && a.Sending? {
      TriggerNeverRaises(c, a.slots, a.send);
    }
  }

  class CeleryExecutor {
    const parallelism: int
    const maxRetries: int
    const adoptionTimeout: int
    const syncParallelism: nat
    var queued: OrderedMap<TaskInstanceKey, QueuedTask>
    var running: set<TaskInstanceKey>
    var events: map<TaskInstanceKey, Event>
    var tasks: OrderedMap<TaskInstanceKey, TaskId>
    var timeouts: OrderedMap<TaskInstanceKey, int>
    var retries: map<TaskInstanceKey, int>
    var raised: Raised
    ghost var history: map<TaskInstanceKey, Ledger>

    ghost function Snapshot(): CeleryState
      reads this
    {
      CeleryState(ExecutorState(parallelism, queued, running, events), tasks, timeouts, retries,
                  maxRetries, adoptionTimeout, raised, history)
    }

    constructor (parallelism: int, maxRetries: int, adoptionTimeout: int, syncParallelism: nat)
      requires syncParallelism >= 1
      ensures Snapshot() == Initial(parallelism, maxRetries, adoptionTimeout) && AllSound(Snapshot())
    {
      this.parallelism, this.maxRetries, this.adoptionTimeout := parallelism, maxRetries, adoptionTimeout;
      this.syncParallelism := syncParallelism;
      queued, running, events := OrderedMap([], map[]), {}, map[];
      tasks, timeouts, retries := OrderedMap([], map[]), OrderedMap([], map[]), map[];
      raised, history := NoError, map[];
    }

    method SetState(k: TaskInstanceKey, e: Event)
      modifies this
      ensures Snapshot() == Finish(old(Snapshot()), k, e)
    {
      hide Minus;
      hide LedgerOf;
      history := Finish(Snapshot(), k, e).history;
      running := running - {k};
      events := events[k := e];
      tasks := tasks.Remove(k);
      timeouts := timeouts.Remove(k);
    }

    method UpdateState(k: TaskInstanceKey, status: Status, info: string)
      modifies this
      ensures Snapshot() == UpdateTaskState(old(Snapshot()), k, status, info)
    {
      if status == StatusSuccess {
        SetState(k, Event(Success, info));
      } else if status == StatusFailure || status == StatusRevoked {
        SetState(k, Event(Failed, info));
      } else if status == StatusStarted {
        timeouts := timeouts.Remove(k);
      }
    }

    /** The send succeeded: the task runs, and may already have finished. */
    method Start(k: TaskInstanceKey, sent: SendOutcome)
      requires sent.Sent?
      modifies this
      ensures Snapshot() == Launch(old(Snapshot()), k, sent)
    {
      ghost var was := Snapshot();
      ghost var merged := if k in running then Merge(was, k) else was;
      history := SetEvent(merged, k, Event(Executor.Queued, sent.id)).history;
      running := running + {k};
      tasks := tasks.Put(k, sent.id);
      events := events[k := Event(Executor.Queued, sent.id)];
      UpdateState(k, sent.status, sent.info);
    }

    /** One round of the loop over the send results. */
    method ProcessResult(k: TaskInstanceKey, o: SendOutcome)
      modifies this
      ensures Snapshot() == ProcessOne(old(Snapshot()), k, o)
    {
      hide Settle;
      history := Publish(Snapshot(), k).history;
      if o.SendTimedOut? && k in retries && retries[k] <= maxRetries {
        retries := retries[k := retries[k] + 1];
        return;
      }
      if k !in queued.values || k !in retries {
        raised := KeyError;
        return;
      }
      queued := queued.Remove(k);
      retries := retries - {k};
      SettleTask(k, o);
    }

    method SettleTask(k: TaskInstanceKey, o: SendOutcome)
      modifies this
      ensures Snapshot() == Settle(old(Snapshot()), k, o)
    {
      hide Launch;
      match o
      case Sent(_, _, _) =>
        Start(k, o);
      case SendNothing =>
        history := Vanish(Snapshot(), k).history;
      case _ =>
        history := Settle(Snapshot(), k, o).history;
        events := events[k := Event(Failed, "")];
    }

    method Trigger(slots: int, send: TaskInstanceKey -> SendOutcome)
      requires syncParallelism >= 1
      modifies this
      ensures Snapshot() == TriggerSends(old(Snapshot()), slots, send)
      ensures AllSound(old(Snapshot())) ==> AllSound(Snapshot()) && raised.NoError?
    {
      hide Sound;
      DoKeepsAll(Snapshot(), Sending(slots, send));
      raised := NoError;
      var keys := Selected(queued, slots);
      ghost var marked := Snapshot().(retries := MarkTries(retries, keys));
      MarkAll(keys);
      assert Snapshot() == marked;
      var results := SendTasks(keys, syncParallelism, send);
      for i := 0 to |results|
        invariant raised.NoError?
        invariant ProcessAll(Snapshot(), keys[i..], send) == ProcessAll(marked, keys, send)
      {
        assert results[i] == (keys[i], send(keys[i]));
        assert keys[i..][1..] == keys[i + 1..];
        ProcessResult(results[i].0, results[i].1);
        if !raised.NoError? {
          return;
        }
      }
    }

    method MarkAll(keys: seq<TaskInstanceKey>)
      modifies `retries
      ensures retries == MarkTries(old(retries), keys)
    {
      for i := 0 to |keys|
        invariant retries == MarkTries(old(retries), keys[..i])
      {
        assert keys[..i + 1] == keys[..i] + [keys[i]];
        if keys[i] !in retries {
          retries := retries[keys[i] := 1];
        }
      }
      assert keys[..|keys|] == keys;
    }

    method UpdateAllStates(b: Backend)
      modifies this
      ensures Snapshot() == UpdateAll(old(Snapshot()), old(tasks).order, old(tasks).values,
                                      GetMany(b, old(tasks).values.Values))
    {
      ghost var was := Snapshot();
      var keys, ids := tasks.order, tasks.values;
      var answers := FetchStates(b, ids.Values);
      for i := 0 to |keys|
        invariant UpdateAll(Snapshot(), keys[i..], ids, answers) == UpdateAll(was, keys, ids, answers)
      {
        assert keys[i..][1..] == keys[i + 1..];
        if keys[i] !in ids || ids[keys[i]] !in answers {
          raised := TypeError;
          return;
        }
        var (status, info) := answers[ids[keys[i]]];
        UpdateState(keys[i], status, info);
      }
    }

    /** The loop over the timeouts, which breaks at the first future deadline. */
    method FindStalled(now: int) returns (stalled: seq<TaskInstanceKey>)
      ensures stalled == ScanStalled(timeouts.order, timeouts.values, now)
    {
      stalled := [];
      var order, i := timeouts.order, 0;
      while i < |order| && order[i] in timeouts.values && timeouts.values[order[i]] <= now
        invariant 0 <= i <= |order|
        invariant stalled + ScanStalled(order[i..], timeouts.values, now) == ScanStalled(order, timeouts.values, now)
      {
        assert order[i..][1..] == order[i + 1..];
        stalled := stalled + [order[i]];
        i := i + 1;
      }
    }

    method CheckForStalled(now: int)
      modifies this
      ensures Snapshot() == CheckStalled(old(Snapshot()), now)
    {
      ghost var was := Snapshot();
      var stalled := FindStalled(now);
      for i := 0 to |stalled|
        invariant FailAll(Snapshot(), stalled[i..]) == FailAll(was, stalled)
      {
        assert stalled[i..][1..] == stalled[i + 1..];
        SetState(stalled[i], Event(Failed, ""));
      }
    }

    method Sync(b: Backend, now: int)
      modifies this
      ensures Snapshot() == SyncStates(old(Snapshot()), b, now)
      ensures AllSound(old(Snapshot())) ==> AllSound(Snapshot())
    {
      hide AllSound;
      DoKeepsAll(Snapshot(), Syncing(b, now));
      raised := NoError;
      if tasks.order == [] {
        return;
      }
      UpdateAllStates(b);
      if raised.NoError? {
        CheckForStalled(now);
      }
    }

    method Adopt(ti: TaskInstance, id: TaskId, status: Status, info: string)
      modifies this
      ensures Snapshot() == AdoptOne(old(Snapshot()), ti, id, status, info)
    {
      hide UpdateTaskState;
      if ti.key !in running {
        history := Accept(Snapshot(), ti.key).history;
      }
      timeouts := timeouts.Put(ti.key, ti.queuedAt + adoptionTimeout);
      tasks := tasks.Put(ti.key, id);
      running := running + {ti.key};
      UpdateState(ti.key, status, info);
    }

    method AdoptInstances(tis: seq<TaskInstance>, b: Backend, order: seq<TaskId>)
      returns (notAdopted: seq<TaskInstance>)
      modifies this
      ensures Snapshot() == TryAdopt(old(Snapshot()), tis, b, order)
      ensures notAdopted == NotAdopted(tis)
      ensures AllSound(old(Snapshot())) ==> AllSound(Snapshot())
    {
      hide AllSound;
      DoKeepsAll(Snapshot(), Adopting(tis, b, order));
      raised := NoError;
      ghost var was := Snapshot();
      var known, others := SplitInstances(tis);
      if known == map[] {
        AdoptNone(was, order, GetMany(b, {}));
        return tis;
      }
      var answers := FetchStates(b, known.Keys);
      for i := 0 to |order|
        invariant AdoptAll(Snapshot(), order[i..], answers, known) == AdoptAll(was, order, answers, known)
      {
        assert order[i..][1..] == order[i + 1..];
        if order[i] in answers && order[i] in known {
          var (status, info) := answers[order[i]];
          Adopt(known[order[i]], order[i], status, info);
        }
      }
      notAdopted := others;
    }
  }
}
