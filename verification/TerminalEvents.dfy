/** When CeleryExecutor can lose a terminal event: which acceptances of a key, with
    everything that can follow them, overwrite an event before it is flushed. */
module TerminalEvents {
  import opened Sequences
  import opened OrderedMaps
  import opened StableSort
  import opened Executor
  import opened Celery
  import opened CeleryProofs
  import opened CeleryTheorems
  import opened CeleryAdoption
  import opened CeleryRuns

  /** The step may accept `k`. */
  ghost predicate Accepts(a: CeleryAction, k: TaskInstanceKey) {
    (a.Queueing? && a.key == k) || (a.Adopting? && exists ti :: ti in a.tis && ti.key == k)
  }

  ghost predicate AcceptsNot(actions: seq<CeleryAction>, k: TaskInstanceKey) {
    forall a | a in actions :: !Accepts(a, k)
  }

  /** A round for all queued tasks picks each of them. */
  lemma AllPicked(c: CeleryState, k: TaskInstanceKey)
    requires Ordered(c) && c.base.queued.Has(k)
    ensures k in Selected(c.base.queued, |c.base.queued.order|)
  {
    var q := c.base.queued;
    ByPriorityPermutes(q);
    assert Selected(q, |q.order|) == ByPriority(q);
    assert k in Elements(ByPriority(q));
  }

  ghost predicate Lost(c: CeleryState, k: TaskInstanceKey) {
    LedgerOf(c, k).overwritten != multiset{}
  }

  lemma SendOverwrites(c: CeleryState, k: TaskInstanceKey)
    requires c.base.queued.Has(k) && k in c.retries && HoldsTerminal(c.base, k)
    ensures LedgerOf(ProcessOne(c, k, SendRaised), k).overwritten != multiset{}
  {
    var d := ProcessOne(c, k, SendRaised);
    assert c.base.events[k] in LedgerOf(d, k).overwritten;
  }

  /** Sending a queued key whose terminal event is still buffered loses that event. */
  lemma SendingLoses(c: CeleryState, k: TaskInstanceKey)
    requires Ordered(c) && c.base.queued.Has(k) && HoldsTerminal(c.base, k)
    ensures Lost(TriggerSends(c, |c.base.queued.order|, _ => SendRaised), k)
  {
    hide ProcessAll;
    hide ProcessOne;
    hide Selected;
    hide NoDup;
    var slots := |c.base.queued.order|;
    var keys := Selected(c.base.queued, slots);
    var m := Marked(c, keys);
    AllPicked(c, k);
    RoundReady(c, slots);
    var before := ProcessAllAt(m, keys, _ => SendRaised, k);
    var v := ViewOf(m, k);
    assert v == ViewOf(before, k) && v.event == Some(c.base.events[k]) && v.tries.Some?;
    SendOverwrites(before, k);
    assert ViewOf(TriggerSends(c, slots, _ => SendRaised), k).ledger
        == ViewOf(ProcessOne(before, k, SendRaised), k).ledger;
  }

  /** No terminal event of the key was overwritten, it is not queued and running at
      once, and while one is buffered it is neither. */
  ghost predicate CalmView(v: View) {
    && v.ledger.overwritten == multiset{} && !(v.queued && v.running)
    && (v.event.Some? && Terminal(v.event.value) ==> !v.queued && !v.running)
  }

  ghost predicate Calm(c: CeleryState, k: TaskInstanceKey) {
    CalmView(ViewOf(c, k))
  }

  lemma FinishCalm(c: CeleryState, k: TaskInstanceKey, e: Event)
    requires Calm(c, k) && k in c.base.running && Terminal(e)
    ensures Calm(Finish(c, k, e), k)
  {
  }

  lemma UpdateCalm(c: CeleryState, x: TaskInstanceKey, status: Status, info: string, k: TaskInstanceKey)
    requires Calm(c, k) && (x == k ==> k in c.base.running)
    ensures Calm(UpdateTaskState(c, x, status, info), k)
  {
    if x != k {
      hide UpdateTaskState;
      UpdateFrame(c, x, status, info, k);
    } else if Finishes(status) {
      hide Finish;
      FinishCalm(c, k, Event(Success, info));
      FinishCalm(c, k, Event(Failed, info));
    }
  }

  lemma LaunchCalm(c: CeleryState, k: TaskInstanceKey, o: SendOutcome)
    requires o.Sent? && !c.base.queued.Has(k) && !HoldsTerminal(c.base, k) && k !in c.base.running && !Lost(c, k)
    ensures Calm(Launch(c, k, o), k)
  {
    hide UpdateTaskState;
    var e := c.(base := c.base.(running := c.base.running + {k}), tasks := c.tasks.Put(k, o.id));
    UpdateCalm(SetEvent(e, k, Event(Executor.Queued, o.id)), k, o.status, o.info, k);
  }

  lemma ProcessCalm(c: CeleryState, k: TaskInstanceKey, o: SendOutcome)
    requires c.base.queued.Has(k) && k in c.retries && Calm(c, k)
    ensures Calm(ProcessOne(c, k, o), k)
  {
    hide Launch;
    if o.Sent? {
      LaunchCalm(Dequeue(Publish(c, k), k), k, o);
    }
  }

  lemma SendingCalm(c: CeleryState, slots: int, send: TaskInstanceKey -> SendOutcome, k: TaskInstanceKey)
    requires Ordered(c) && Calm(c, k)
    ensures Calm(TriggerSends(c, slots, send), k)
  {
    hide ProcessAll;
    hide ProcessOne;
    hide Selected;
    hide NoDup;
    var keys := Selected(c.base.queued, slots);
    var m := Marked(c, keys);
    RoundReady(c, slots);
    assert CalmView(ViewOf(m, k));
    if k in keys {
      var before := ProcessAllAt(m, keys, send, k);
      var v := ViewOf(before, k);
      assert v.queued && v.tries.Some?;
      ProcessCalm(before, k, send(k));
    } else {
      ProcessAllFrame(m, keys, send, k);
    }
  }

  lemma {:induction false} UpdateAllCalm(c: CeleryState, keys: seq<TaskInstanceKey>, ids: map<TaskInstanceKey, TaskId>,
                                         answers: Answers, k: TaskInstanceKey)
    requires Calm(c, k) && NoDup(keys) && (k in keys ==> k in c.base.running)
    ensures Calm(UpdateAll(c, keys, ids, answers), k)
    decreases |keys|
  {
    hide CalmView;
    hide UpdateTaskState;
    if keys != [] {
      if keys[0] in ids && ids[keys[0]] in answers {
        var (status, info) := answers[ids[keys[0]]];
        var d := UpdateTaskState(c, keys[0], status, info);
        UpdateCalm(c, keys[0], status, info, k);
        if keys[0] != k {
          UpdateFrame(c, keys[0], status, info, k);
          assert ViewOf(d, k).running == ViewOf(c, k).running;
        }
        UpdateAllCalm(d, keys[1..], ids, answers, k);
      } else {
        assert ViewOf(c.(raised := TypeError), k) == ViewOf(c, k);
      }
    }
  }

  lemma {:induction false} FailAllCalm(c: CeleryState, keys: seq<TaskInstanceKey>, k: TaskInstanceKey)
    requires Calm(c, k) && NoDup(keys) && (k in keys ==> k in c.base.running)
    ensures Calm(FailAll(c, keys), k)
    decreases |keys|
  {
    hide CalmView;
    if keys != [] {
      var d := UpdateTaskState(c, keys[0], StatusFailure, "");
      UpdateCalm(c, keys[0], StatusFailure, "", k);
      if keys[0] != k {
        UpdateFrame(c, keys[0], StatusFailure, "", k);
        assert ViewOf(d, k).running == ViewOf(c, k).running;
      }
      FailAllCalm(d, keys[1..], k);
    }
  }

  lemma SyncCalm(c: CeleryState, b: Backend, now: int, k: TaskInstanceKey)
    requires Ordered(c) && Sound(c, k) && Calm(c, k)
    ensures Calm(SyncStates(c, b, now), k)
  {
    hide Sound;
    hide CalmView;
    hide UpdateAll;
    hide FailAll;
    var start := c.(raised := NoError);
    SameView(c, start, k);
    assert ViewOf(start, k) == ViewOf(c, k);
    if c.tasks.order != [] {
      var answers := GetMany(b, c.tasks.values.Values);
      RunningInOrder(c, k);
      UpdateAllCalm(start, c.tasks.order, c.tasks.values, answers, k);
      UpdateAllKeeps(start, c.tasks.order, c.tasks.values, answers, k);
      UpdateAllOrdered(start, c.tasks.order, c.tasks.values, answers);
      var d := UpdateAll(start, c.tasks.order, c.tasks.values, answers);
      RunningInOrder(d, k);
      FailAllCalm(d, ScanStalled(d.timeouts.order, d.timeouts.values, now), k);
    }
  }

  lemma StepKeepsCalm(c: CeleryState, a: CeleryAction, k: TaskInstanceKey)
    requires Ordered(c) && Sound(c, k) && Calm(c, k) && !Accepts(a, k)
    ensures Calm(Do(c, a), k)
  {
    hide Sound;
    hide TriggerSends;
    hide SyncStates;
    hide AdoptAll;
    match a
    case Queueing(x, t) => assert ViewOf(Do(c, a), k) == ViewOf(c, k);
    case Sending(slots, send) => SendingCalm(c, slots, send, k);
    case Syncing(b, now) => SyncCalm(c, b, now, k);
    case Adopting(tis, b, order) =>
      var known := ById(tis);
      forall id | id in known ensures known[id].key != k { ByIdSound(tis, id); }
      AdoptAllFrame(c.(raised := NoError), order, GetMany(b, known.Keys), known, k);
      assert ViewOf(Do(c, a), k) == ViewOf(c, k);
    case Flushing(dagIds) => FlushCalm(c, dagIds, k);
  }

  lemma FlushCalm(c: CeleryState, dagIds: Option<set<string>>, k: TaskInstanceKey)
    ensures Calm(c, k) ==> Calm(FlushEvents(c, dagIds), k)
  {
    var v, w := ViewOf(c, k), ViewOf(FlushEvents(c, dagIds), k);
    assert w.event.None? || w.event == v.event;
  }

  lemma {:induction false} RunKeepsCalm(c: CeleryState, actions: seq<CeleryAction>, k: TaskInstanceKey)
    requires Ordered(c) && Sound(c, k) && Calm(c, k) && AcceptsNot(actions, k)
    ensures Calm(CeleryRun(c, actions), k)
    decreases |actions|
  {
    hide Ordered;
    hide Sound;
    hide Calm;
    hide Do;
    hide Accepts;
    if actions != [] {
      assert actions[0] in actions && forall a | a in actions[1..] :: a in actions;
      DoOrdered(c, actions[0]);
      DoKeeps(c, actions[0], k);
      StepKeepsCalm(c, actions[0], k);
      RunKeepsCalm(Do(c, actions[0]), actions[1..], k);
    }
  }

  /** Some continuation without a further acceptance loses a terminal event of `k`. */
  ghost predicate MayLose(c: CeleryState, k: TaskInstanceKey) {
    exists actions :: AcceptsNot(actions, k) && Lost(CeleryRun(c, actions), k)
  }

  lemma CalmNeverLoses(c: CeleryState, k: TaskInstanceKey)
    requires Ordered(c) && Sound(c, k) && Calm(c, k)
    ensures !MayLose(c, k)
  {
    hide Sound;
    hide Ordered;
    hide AcceptsNot;
    hide CeleryRun;
    forall actions | AcceptsNot(actions, k) ensures !Lost(CeleryRun(c, actions), k) {
      RunKeepsCalm(c, actions, k);
    }
  }

  lemma LosesInOne(c: CeleryState, a: CeleryAction, k: TaskInstanceKey)
    requires !Accepts(a, k) && Lost(Do(c, a), k)
    ensures MayLose(c, k)
  {
    hide Do;
    hide Lost;
    NoRun(Do(c, a));
    assert [a][1..] == [] && CeleryRun(c, [a]) == Do(c, a);
    assert AcceptsNot([a], k);
  }

  /** Queueing a key that is not known: unless one was lost before, a terminal event of
      it may be lost exactly if one is buffered at that moment. */
  lemma QueueingLosesIff(c: CeleryState, k: TaskInstanceKey, t: QueuedTask)
    requires Ordered(c) && Sound(c, k) && !Known(c.base, k) && !Lost(c, k)
    ensures MayLose(QueueTask(c, k, t), k) <==> HoldsTerminal(c.base, k)
  {
    hide Sound;
    hide MayLose;
    var d := QueueTask(c, k, t);
    DoOrdered(c, Queueing(k, t));
    if HoldsTerminal(c.base, k) {
      QueuedTerminalLoses(d, k);
    } else {
      DoKeeps(c, Queueing(k, t), k);
      CalmNeverLoses(d, k);
    }
  }

  /** Overwritten stays overwritten. */
  lemma FinishStaysLost(c: CeleryState, k: TaskInstanceKey, e: Event)
    ensures Lost(c, k) ==> Lost(Finish(c, k, e), k)
  {
    if v :| v in LedgerOf(c, k).overwritten {
      assert v in LedgerOf(SetEvent(c, k, e), k).overwritten;
      assert LedgerOf(Finish(c, k, e), k).overwritten == LedgerOf(SetEvent(c, k, e), k).overwritten;
    }
  }

  lemma UpdateStaysLost(c: CeleryState, x: TaskInstanceKey, status: Status, info: string, k: TaskInstanceKey)
    ensures Lost(c, k) ==> Lost(UpdateTaskState(c, x, status, info), k)
  {
    if x != k {
      hide UpdateTaskState;
      UpdateFrame(c, x, status, info, k);
      assert ViewOf(UpdateTaskState(c, x, status, info), k).ledger == ViewOf(c, k).ledger;
    } else {
      hide Finish;
      FinishStaysLost(c, k, Event(Success, info));
      FinishStaysLost(c, k, Event(Failed, info));
    }
  }

  lemma FinishOverwrites(c: CeleryState, k: TaskInstanceKey, e: Event)
    ensures HoldsTerminal(c.base, k) ==> Lost(Finish(c, k, e), k)
  {
    if HoldsTerminal(c.base, k) {
      assert c.base.events[k] in LedgerOf(SetEvent(c, k, e), k).overwritten;
      assert LedgerOf(Finish(c, k, e), k).overwritten == LedgerOf(SetEvent(c, k, e), k).overwritten;
    }
  }

  lemma FinishLoses(c: CeleryState, k: TaskInstanceKey, status: Status, info: string)
    ensures HoldsTerminal(c.base, k) && Finishes(status) ==> Lost(UpdateTaskState(c, k, status, info), k)
  {
    hide Finish;
    FinishOverwrites(c, k, Event(Success, info));
    FinishOverwrites(c, k, Event(Failed, info));
  }

  /** A sync in which every task has failed. */
  ghost function AllFailed(c: CeleryState): Backend {
    Stored(map id | id in c.tasks.values.Values :: (StatusFailure, ""))
  }

  /** What adopting a key leaves: its buffered event lost at once, or still there with
      the key running. */
  lemma AdoptedHolds(c: CeleryState, ti: TaskInstance, id: TaskId, status: Status, info: string)
    ensures var d := AdoptOne(c, ti, id, status, info);
            HoldsTerminal(c.base, ti.key) ==> Lost(d, ti.key) || (d.tasks.Has(ti.key) && HoldsTerminal(d.base, ti.key))
  {
    hide UpdateTaskState;
    var k := ti.key;
    var d := Enrol(if k in c.base.running then c else Accept(c, k), k, id, ti.queuedAt + c.adoptionTimeout);
    FinishLoses(d, k, status, info);
    UnfinishedKeeps(d, k, status, info);
  }

  lemma UnfinishedKeeps(c: CeleryState, k: TaskInstanceKey, status: Status, info: string)
    ensures var d := UpdateTaskState(c, k, status, info);
            !Finishes(status) ==> d.tasks == c.tasks && d.base == c.base
  {
  }

  lemma AdoptionCalm(c: CeleryState, ti: TaskInstance, id: TaskId, status: Status, info: string)
    requires !c.base.queued.Has(ti.key) && !HoldsTerminal(c.base, ti.key) && !Lost(c, ti.key)
    ensures Calm(AdoptOne(c, ti, id, status, info), ti.key)
  {
    hide UpdateTaskState;
    var d := Enrol(if ti.key in c.base.running then c else Accept(c, ti.key), ti.key, id,
                   ti.queuedAt + c.adoptionTimeout);
    UpdateCalm(d, ti.key, status, info, ti.key);
  }

  lemma UpdateStaysTerminal(c: CeleryState, x: TaskInstanceKey, status: Status, info: string, k: TaskInstanceKey)
    ensures HoldsTerminal(c.base, k) || (x == k && Finishes(status))
            ==> HoldsTerminal(UpdateTaskState(c, x, status, info).base, k)
  {
  }

  /** If every task is reported as failed, each leaves a terminal event, and one that was
      still buffered for it is lost. */
  lemma {:induction false} FailuresTell(c: CeleryState, keys: seq<TaskInstanceKey>, ids: map<TaskInstanceKey, TaskId>,
                                        answers: Answers, k: TaskInstanceKey)
    requires forall x | x in keys :: x in ids && ids[x] in answers && answers[ids[x]] == (StatusFailure, "")
    ensures var d := UpdateAll(c, keys, ids, answers);
            && (k in keys || HoldsTerminal(c.base, k) ==> HoldsTerminal(d.base, k))
            && (Lost(c, k) || (k in keys && HoldsTerminal(c.base, k)) ==> Lost(d, k))
    decreases |keys|
  {
    hide UpdateTaskState;
    hide Lost;
    hide HoldsTerminal;
    if keys != [] {
      var x := keys[0];
      assert x in keys && forall y | y in keys[1..] :: y in keys;
      UpdateStaysTerminal(c, x, StatusFailure, "", k);
      UpdateStaysLost(c, x, StatusFailure, "", k);
      FinishLoses(c, k, StatusFailure, "");
      FailuresTell(UpdateTaskState(c, x, StatusFailure, ""), keys[1..], ids, answers, k);
    }
  }

  lemma {:induction false} FailAllStays(c: CeleryState, keys: seq<TaskInstanceKey>, k: TaskInstanceKey)
    ensures HoldsTerminal(c.base, k) ==> HoldsTerminal(FailAll(c, keys).base, k)
    ensures Lost(c, k) ==> Lost(FailAll(c, keys), k)
    decreases |keys|
  {
    hide HoldsTerminal;
    hide Lost;
    if keys != [] {
      UpdateStaysTerminal(c, keys[0], StatusFailure, "", k);
      UpdateStaysLost(c, keys[0], StatusFailure, "", k);
      FailAllStays(Finish(c, keys[0], Event(Failed, "")), keys[1..], k);
    }
  }

  lemma SyncTells(c: CeleryState, k: TaskInstanceKey, now: int)
    requires Ordered(c) && c.tasks.Has(k)
    ensures var d := SyncStates(c, AllFailed(c), now);
            HoldsTerminal(d.base, k) && (HoldsTerminal(c.base, k) ==> Lost(d, k))
  {
    hide UpdateAll;
    hide FailAll;
    hide Lost;
    hide HoldsTerminal;
    var b, start := AllFailed(c), c.(raised := NoError);
    var answers := GetMany(b, c.tasks.values.Values);
    assert forall x :: x in c.tasks.order <==> x in Elements(c.tasks.order);
    assert k in c.tasks.order;
    FailuresTell(start, c.tasks.order, c.tasks.values, answers, k);
    var d := UpdateAll(start, c.tasks.order, c.tasks.values, answers);
    FailAllStays(d, ScanStalled(d.timeouts.order, d.timeouts.values, now), k);
  }

  /** What adopting a queued key leaves: still queued, and running or finished. */
  lemma AdoptedQueued(c: CeleryState, ti: TaskInstance, id: TaskId, status: Status, info: string)
    ensures var d := AdoptOne(c, ti, id, status, info);
            && d.base.queued == c.base.queued
            && (if Finishes(status) then HoldsTerminal(d.base, ti.key) else d.tasks.Has(ti.key))
  {
    hide UpdateTaskState;
    var k := ti.key;
    var d := Enrol(if k in c.base.running then c else Accept(c, k), k, id, ti.queuedAt + c.adoptionTimeout);
    UpdateSame(d, k, status, info, k);
    UpdateStaysTerminal(d, k, status, info, k);
    UnfinishedKeeps(d, k, status, info);
  }

  /** What one more step may lose was in danger before it. */
  lemma LosesLater(c: CeleryState, a: CeleryAction, k: TaskInstanceKey, actions: seq<CeleryAction>)
    requires !Accepts(a, k) && AcceptsNot(actions, k)
    ensures Lost(CeleryRun(Do(c, a), actions), k) ==> MayLose(c, k)
  {
    hide Do;
    hide Lost;
    hide Accepts;
    assert ([a] + actions)[1..] == actions;
    assert CeleryRun(c, [a] + actions) == CeleryRun(Do(c, a), actions);
    assert AcceptsNot([a] + actions, k);
  }

  lemma QueuedTerminalLoses(c: CeleryState, k: TaskInstanceKey)
    requires Ordered(c) && c.base.queued.Has(k) && HoldsTerminal(c.base, k)
    ensures MayLose(c, k)
  {
    hide MayLose;
    SendingLoses(c, k);
    LosesInOne(c, Sending(|c.base.queued.order|, _ => SendRaised), k);
  }

  /** The adopted task finishes, then the queued copy is sent and overwrites its event. */
  lemma AdoptingQueuedLoses(c: CeleryState, ti: TaskInstance, id: TaskId, status: Status, info: string)
    requires Ordered(c) && c.base.queued.Has(ti.key)
    ensures MayLose(AdoptOne(c, ti, id, status, info), ti.key)
  {
    hide Ordered;
    hide AdoptOne;
    hide HoldsTerminal;
    hide SyncStates;
    hide CeleryRun;
    hide Lost;
    var d, k := AdoptOne(c, ti, id, status, info), ti.key;
    AdoptOrdered(c, ti, id, status, info);
    AdoptedQueued(c, ti, id, status, info);
    if Finishes(status) {
      QueuedTerminalLoses(d, k);
    } else {
      var sync := Syncing(AllFailed(d), 0);
      SyncTells(d, k, 0);
      SyncSame(d, AllFailed(d), 0, k);
      SyncOrdered(d, AllFailed(d), 0);
      QueuedTerminalLoses(Do(d, sync), k);
      var actions :| AcceptsNot(actions, k) && Lost(CeleryRun(Do(d, sync), actions), k);
      LosesLater(d, sync, k, actions);
    }
  }

  /** Adopting a key: unless one was lost before, a terminal event of it may be lost
      exactly if one is buffered at that moment or the key is still queued. */
  lemma AdoptingLosesIff(c: CeleryState, ti: TaskInstance, id: TaskId, status: Status, info: string)
    requires Ordered(c) && Sound(c, ti.key) && !Lost(c, ti.key)
    ensures MayLose(AdoptOne(c, ti, id, status, info), ti.key)
            <==> HoldsTerminal(c.base, ti.key) || c.base.queued.Has(ti.key)
  {
    hide Sound;
    hide Ordered;
    hide AdoptOne;
    hide MayLose;
    var d, k := AdoptOne(c, ti, id, status, info), ti.key;
    AdoptOrdered(c, ti, id, status, info);
    if c.base.queued.Has(k) {
      AdoptingQueuedLoses(c, ti, id, status, info);
    } else if HoldsTerminal(c.base, k) {
      AdoptedHolds(c, ti, id, status, info);
      if Lost(d, k) {
        LostAlready(d, k);
      } else {
        SyncTells(d, k, 0);
        LosesInOne(d, Syncing(AllFailed(d), 0), k);
      }
    } else {
      AdoptKeeps(c, ti, id, status, info, k);
      AdoptionCalm(c, ti, id, status, info);
      CalmNeverLoses(d, k);
    }
  }

  lemma LostAlready(c: CeleryState, k: TaskInstanceKey)
    ensures Lost(c, k) ==> MayLose(c, k)
  {
    var nothing: seq<CeleryAction> := [];
    assert AcceptsNot(nothing, k) && CeleryRun(c, nothing) == c;
  }

  // ---- Runs outside the conditions ------------------------------------------------

  lemma {:induction false} RunPush(c: CeleryState, actions: seq<CeleryAction>, a: CeleryAction)
    ensures CeleryRun(c, actions + [a]) == Do(CeleryRun(c, actions), a)
    decreases |actions|
  {
    hide Do;
    if actions == [] {
      assert [a][1..] == [] && actions + [a] == [a];
    } else {
      RunPush(Do(c, actions[0]), actions[1..], a);
      assert (actions + [a])[1..] == actions[1..] + [a];
    }
  }

  function Succeed(): TaskInstanceKey -> SendOutcome {
    (_: TaskInstanceKey) => Sent("a", StatusSuccess, "")
  }

  lemma SuccessBuffered(c: CeleryState, k: TaskInstanceKey)
    requires c.base.queued.Has(k) && k in c.retries
    ensures var v := ViewOf(ProcessOne(c, k, Sent("a", StatusSuccess, "")), k);
            !v.queued && !v.running && v.event == Some(Event(Success, ""))
  {
  }

  /** A task that is sent and has already succeeded leaves its event in the buffer. */
  lemma SucceedsAtOnce(c: CeleryState, k: TaskInstanceKey)
    requires Ordered(c) && c.base.queued.Has(k)
    ensures var d := TriggerSends(c, |c.base.queued.order|, Succeed());
            HoldsTerminal(d.base, k) && !Known(d.base, k)
  {
    hide ProcessAll;
    hide ProcessOne;
    hide Selected;
    hide NoDup;
    var slots := |c.base.queued.order|;
    var keys := Selected(c.base.queued, slots);
    AllPicked(c, k);
    RoundReady(c, slots);
    var before := ProcessAllAt(Marked(c, keys), keys, Succeed(), k);
    var v := ViewOf(Marked(c, keys), k);
    assert v == ViewOf(before, k) && v.queued && v.tries.Some?;
    SuccessBuffered(before, k);
    var w := ViewOf(TriggerSends(c, slots, Succeed()), k);
    assert w == ViewOf(ProcessOne(before, k, Sent("a", StatusSuccess, "")), k);
  }

  /** A key that is queued, succeeds, and is queued and sent again before any flush: the
      first event is lost. */
  lemma EventCanBeLost(parallelism: int, maxRetries: int, adoptionTimeout: int, k: TaskInstanceKey, t: QueuedTask)
    returns (actions: seq<CeleryAction>)
    ensures Lost(Reached(parallelism, maxRetries, adoptionTimeout, actions), k)
    ensures forall a | a in actions :: a.Queueing? || a.Sending?
  {
    hide TriggerSends;
    hide CeleryRun;
    hide Lost;
    var start := Initial(parallelism, maxRetries, adoptionTimeout);
    InitialSound(parallelism, maxRetries, adoptionTimeout, k);
    NoRun(start);
    RunPush(start, [], Queueing(k, t));
    var c := Do(start, Queueing(k, t));
    DoOrdered(start, Queueing(k, t));
    var first := Sending(|c.base.queued.order|, Succeed());
    SucceedsAtOnce(c, k);
    DoOrdered(c, first);
    RunPush(start, [] + [Queueing(k, t)], first);
    var d := Do(c, first);
    RunPush(start, [] + [Queueing(k, t)] + [first], Queueing(k, t));
    var e := Do(d, Queueing(k, t));
    DoOrdered(d, Queueing(k, t));
    var second := Sending(|e.base.queued.order|, _ => SendRaised);
    SendingLoses(e, k);
    RunPush(start, [] + [Queueing(k, t)] + [first] + [Queueing(k, t)], second);
    actions := [] + [Queueing(k, t)] + [first] + [Queueing(k, t)] + [second];
  }

  lemma NoRun(c: CeleryState)
    ensures CeleryRun(c, []) == c
  {
  }
}
