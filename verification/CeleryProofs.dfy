/** What CeleryExecutor keeps over every run: its collections agree, every
    accepted task instance is accounted for, every terminal event is flushed
    once, and publishing is retried a bounded number of times. */
module CeleryProofs {
  import opened Sequences
  import opened OrderedMaps
  import opened Executor
  import opened Celery

  function Indicator(b: bool): nat { if b then 1 else 0 }

  /** Sends allowed to one task: the first plus the configured retries. */
  function Cap(c: CeleryState): int {
    if c.maxRetries < 0 then 1 else c.maxRetries + 1
  }

  ghost predicate Ordered(c: CeleryState) {
    c.base.queued.Valid() && c.tasks.Valid() && c.timeouts.Valid()
  }

  /** The four collections agree on `k`, and no state change missed it. */
  ghost predicate Agrees(c: CeleryState, k: TaskInstanceKey) {
    && (c.tasks.Has(k) <==> k in c.base.running)
    && (c.timeouts.Has(k) ==> k in c.base.running)
    && (k in c.retries ==> c.base.queued.Has(k) && 1 <= c.retries[k] <= Cap(c))
    && LedgerOf(c, k).unknown == 0
  }

  /** Every acceptance of `k` is finished, vanished, merged, queued or running. */
  ghost predicate Conserved(c: CeleryState, k: TaskInstanceKey) {
    var l := LedgerOf(c, k);
    l.accepted == l.finished + l.vanished + l.merged + Indicator(c.base.queued.Has(k)) + Indicator(k in c.base.running)
  }

  ghost function Buffered(c: CeleryState, k: TaskInstanceKey): multiset<Event> {
    if HoldsTerminal(c.base, k) then multiset{c.base.events[k]} else multiset{}
  }

  /** Every terminal event recorded for `k` was returned by a flush, is still
      buffered, or was overwritten, and there is one for each terminal transition. */
  ghost predicate Delivered(c: CeleryState, k: TaskInstanceKey) {
    var l := LedgerOf(c, k);
    l.recorded == l.returned + l.overwritten + Buffered(c, k) && |l.recorded| == l.finished
  }

  /** As long as `k` is not accepted while it is queued or its terminal event is
      still buffered, it is never both queued and running, nothing is overwritten,
      and a buffered terminal event means it is neither queued nor running. */
  ghost predicate Unspoilt(c: CeleryState, k: TaskInstanceKey) {
    var l := LedgerOf(c, k);
    && (l.doubled == 0 ==> l.merged == 0 && !(c.base.queued.Has(k) && k in c.base.running))
    && (l.doubled == 0 && l.reaccepted == 0 ==>
         l.overwritten == multiset{} && (HoldsTerminal(c.base, k) ==> !Known(c.base, k)))
  }

  ghost predicate Sound(c: CeleryState, k: TaskInstanceKey) {
    Agrees(c, k) && Conserved(c, k) && Delivered(c, k) && Unspoilt(c, k)
  }

  // ---- An operation on another key changes nothing about this one ------------

  /** All that the state says about `k`. */
  datatype View = View(
    queued: bool, running: bool, task: Option<TaskId>, timeout: Option<int>, tries: Option<int>,
    event: Option<Event>, ledger: Ledger, maxRetries: int)

  ghost function ViewOf(c: CeleryState, k: TaskInstanceKey): View {
    View(c.base.queued.Has(k), k in c.base.running,
         if c.tasks.Has(k) then Some(c.tasks.values[k]) else None,
         if c.timeouts.Has(k) then Some(c.timeouts.values[k]) else None,
         if k in c.retries then Some(c.retries[k]) else None,
         if k in c.base.events then Some(c.base.events[k]) else None,
         LedgerOf(c, k), c.maxRetries)
  }

  lemma SameView(c: CeleryState, d: CeleryState, k: TaskInstanceKey)
    requires Sound(c, k) && ViewOf(d, k) == ViewOf(c, k)
    ensures Sound(d, k)
  {
    assert Buffered(d, k) == Buffered(c, k);
  }

  lemma UpdateFrame(c: CeleryState, x: TaskInstanceKey, status: Status, info: string, k: TaskInstanceKey)
    ensures x != k ==> ViewOf(UpdateTaskState(c, x, status, info), k) == ViewOf(c, k)
  {
  }

  lemma LaunchFrame(c: CeleryState, x: TaskInstanceKey, o: SendOutcome, k: TaskInstanceKey)
    requires o.Sent? && x != k
    ensures ViewOf(Launch(c, x, o), k) == ViewOf(c, k)
  {
    var d := if x in c.base.running then Merge(c, x) else c;
    var e := d.(base := d.base.(running := d.base.running + {x}), tasks := d.tasks.Put(x, o.id));
    var f := SetEvent(e, x, Event(Executor.Queued, o.id));
    assert ViewOf(f, k) == ViewOf(c, k);
    UpdateFrame(f, x, o.status, o.info, k);
  }

  lemma SettleFrame(c: CeleryState, x: TaskInstanceKey, o: SendOutcome, k: TaskInstanceKey)
    ensures x != k ==> ViewOf(Settle(c, x, o), k) == ViewOf(c, k)
  {
    if o.Sent? && x != k { LaunchFrame(c, x, o, k); }
  }

  lemma DequeueFrame(c: CeleryState, x: TaskInstanceKey, k: TaskInstanceKey)
    ensures x != k ==> ViewOf(Publish(c, x), k) == ViewOf(c, k) && ViewOf(Dequeue(c, x), k) == ViewOf(c, k)
  {
  }

  lemma ProcessFrame(c: CeleryState, x: TaskInstanceKey, o: SendOutcome, k: TaskInstanceKey)
    ensures x != k ==> ViewOf(ProcessOne(c, x, o), k) == ViewOf(c, k)
  {
    var p := Publish(c, x);
    DequeueFrame(c, x, k);
    if !Retries(c, x, o) && c.base.queued.Has(x) && x in c.retries {
      DequeueFrame(p, x, k);
      SettleFrame(Dequeue(p, x), x, o, k);
    }
  }

  lemma EnrolFrame(c: CeleryState, x: TaskInstanceKey, id: TaskId, deadline: int, k: TaskInstanceKey)
    ensures x != k ==> ViewOf(Accept(c, x), k) == ViewOf(c, k)
    ensures x != k ==> ViewOf(Enrol(c, x, id, deadline), k) == ViewOf(c, k)
  {
  }

  lemma AdoptFrame(c: CeleryState, ti: TaskInstance, id: TaskId, status: Status, info: string, k: TaskInstanceKey)
    ensures ti.key != k ==> ViewOf(AdoptOne(c, ti, id, status, info), k) == ViewOf(c, k)
  {
    hide ViewOf;
    hide Accept;
    hide Enrol;
    hide UpdateTaskState;
    var d := if ti.key in c.base.running then c else Accept(c, ti.key);
    var deadline := ti.queuedAt + c.adoptionTimeout;
    EnrolFrame(c, ti.key, id, deadline, k);
    EnrolFrame(d, ti.key, id, deadline, k);
    UpdateFrame(Enrol(d, ti.key, id, deadline), ti.key, status, info, k);
  }

  // ---- An operation on the key itself ----------------------------------------

  lemma SetEventDelivers(c: CeleryState, k: TaskInstanceKey, v: Event)
    requires LedgerOf(c, k).recorded == LedgerOf(c, k).returned + LedgerOf(c, k).overwritten + Buffered(c, k)
    ensures var l, d := LedgerOf(c, k), SetEvent(c, k, v);
            var m := LedgerOf(d, k);
            && m.recorded == m.returned + m.overwritten + Buffered(d, k)
            && |m.recorded| == |l.recorded| + Indicator(Terminal(v))
  {
    var l, d := LedgerOf(c, k), SetEvent(c, k, v);
    var m := LedgerOf(d, k);
    var added := if Terminal(v) then multiset{v} else multiset{};
    assert Buffered(d, k) == added;
    assert m.recorded == l.returned + l.overwritten + Buffered(c, k) + added;
    assert m.overwritten == l.overwritten + Buffered(c, k);
  }

  lemma FinishKeeps(c: CeleryState, k: TaskInstanceKey, v: Event)
    requires Sound(c, k) && Terminal(v) && k in c.base.running
    ensures Sound(Finish(c, k, v), k)
  {
    SetEventDelivers(c, k, v);
    var d := Finish(c, k, v);
    assert Buffered(d, k) == Buffered(SetEvent(c, k, v), k);
    assert Agrees(d, k) && Conserved(d, k);
    assert Unspoilt(d, k);
  }

  lemma UpdateKeeps(c: CeleryState, x: TaskInstanceKey, status: Status, info: string, k: TaskInstanceKey)
    requires Sound(c, k) && (x == k ==> k in c.base.running)
    ensures Sound(UpdateTaskState(c, x, status, info), k)
  {
    if x != k {
      UpdateFrame(c, x, status, info, k);
      SameView(c, UpdateTaskState(c, x, status, info), k);
    } else if status.StatusSuccess? {
      FinishKeeps(c, k, Event(Success, info));
    } else if status.StatusFailure? || status.StatusRevoked? {
      FinishKeeps(c, k, Event(Failed, info));
    } else if status.StatusStarted? {
      assert Buffered(UpdateTaskState(c, k, status, info), k) == Buffered(c, k);
    }
  }

  /** `k` has just left the queue, so one acceptance is still unaccounted for. */
  ghost predicate Leaving(c: CeleryState, k: TaskInstanceKey) {
    var l := LedgerOf(c, k);
    && Agrees(c, k) && Delivered(c, k) && !c.base.queued.Has(k)
    && l.accepted == l.finished + l.vanished + l.merged + 1 + Indicator(k in c.base.running)
    && (l.doubled == 0 ==> l.merged == 0 && k !in c.base.running)
    && (l.doubled == 0 && l.reaccepted == 0 ==> l.overwritten == multiset{} && !HoldsTerminal(c.base, k))
  }

  lemma LaunchKeeps(c: CeleryState, k: TaskInstanceKey, o: SendOutcome)
    requires o.Sent? && Leaving(c, k)
    ensures Sound(Launch(c, k, o), k)
  {
    var d := if k in c.base.running then Merge(c, k) else c;
    var e := d.(base := d.base.(running := d.base.running + {k}), tasks := d.tasks.Put(k, o.id));
    var v := Event(Executor.Queued, o.id);
    var f := SetEvent(e, k, v);
    assert Buffered(e, k) == Buffered(c, k);
    SetEventDelivers(e, k, v);
    assert Agrees(f, k) && Conserved(f, k);
    assert Unspoilt(f, k);
    UpdateKeeps(f, k, o.status, o.info, k);
  }

  lemma SettleKeeps(c: CeleryState, k: TaskInstanceKey, o: SendOutcome)
    requires Leaving(c, k)
    ensures Sound(Settle(c, k, o), k)
  {
    var d := Settle(c, k, o);
    if o.Sent? {
      LaunchKeeps(c, k, o);
    } else if o.SendNothing? {
      assert Buffered(d, k) == Buffered(c, k);
    } else {
      var v := Event(Failed, "");
      SetEventDelivers(c, k, v);
      assert Buffered(d, k) == Buffered(SetEvent(c, k, v), k);
    }
  }

  lemma ProcessKeeps(c: CeleryState, k: TaskInstanceKey, o: SendOutcome)
    requires Sound(c, k) && c.base.queued.Has(k) && k in c.retries
    ensures Sound(ProcessOne(c, k, o), k)
  {
    var p := Publish(c, k);
    assert Buffered(p, k) == Buffered(c, k);
    if Retries(c, k, o) {
      assert Buffered(ProcessOne(c, k, o), k) == Buffered(c, k);
    } else {
      var d := Dequeue(p, k);
      assert Buffered(d, k) == Buffered(c, k);
      assert Leaving(d, k);
      SettleKeeps(d, k, o);
    }
  }

  lemma AcceptKeeps(c: CeleryState, k: TaskInstanceKey)
    requires Sound(c, k) && k !in c.base.running
    ensures var d := Accept(c, k);
            var l := LedgerOf(d, k);
            && Agrees(d, k) && Delivered(d, k)
            && l.accepted == l.finished + l.vanished + l.merged + 1 + Indicator(c.base.queued.Has(k))
            && (l.doubled == 0 ==> l.merged == 0 && !c.base.queued.Has(k))
            && (l.doubled == 0 && l.reaccepted == 0 ==> l.overwritten == multiset{} && !HoldsTerminal(d.base, k))
  {
    assert Buffered(Accept(c, k), k) == Buffered(c, k);
  }

  lemma EnrolKeeps(c: CeleryState, k: TaskInstanceKey, id: TaskId, deadline: int)
    requires Sound(c, k)
    ensures Sound(Enrol(if k in c.base.running then c else Accept(c, k), k, id, deadline), k)
  {
    var d := if k in c.base.running then c else Accept(c, k);
    if k !in c.base.running { AcceptKeeps(c, k); }
    var f := Enrol(d, k, id, deadline);
    assert Buffered(f, k) == Buffered(d, k);
    assert Agrees(f, k) && Delivered(f, k);
    assert Conserved(f, k) && Unspoilt(f, k);
  }

  lemma AdoptKeeps(c: CeleryState, ti: TaskInstance, id: TaskId, status: Status, info: string, k: TaskInstanceKey)
    requires Sound(c, k)
    ensures Sound(AdoptOne(c, ti, id, status, info), k)
  {
    hide Sound;
    hide UpdateTaskState;
    if ti.key != k {
      AdoptFrame(c, ti, id, status, info, k);
      SameView(c, AdoptOne(c, ti, id, status, info), k);
    } else {
      EnrolKeeps(c, k, id, ti.queuedAt + c.adoptionTimeout);
      var d := if k in c.base.running then c else Accept(c, k);
      UpdateKeeps(Enrol(d, k, id, ti.queuedAt + c.adoptionTimeout), k, status, info, k);
    }
  }

  lemma QueueKeeps(c: CeleryState, x: TaskInstanceKey, t: QueuedTask, k: TaskInstanceKey)
    requires Sound(c, k)
    ensures Sound(QueueTask(c, x, t), k)
  {
    if x != k {
      SameView(c, QueueTask(c, x, t), k);
    } else if !Known(c.base, k) {
      AcceptKeeps(c, k);
      assert Buffered(QueueTask(c, k, t), k) == Buffered(Accept(c, k), k);
    }
  }

  lemma FlushKeeps(c: CeleryState, dagIds: Option<set<string>>, k: TaskInstanceKey)
    requires Sound(c, k)
    ensures Sound(FlushEvents(c, dagIds), k)
  {
    var d := FlushEvents(c, dagIds);
    var out := Flushed(c.base, dagIds);
    if k in out {
      assert Buffered(d, k) == multiset{};
      assert k !in d.base.events;
      if Terminal(out[k]) {
        assert LedgerOf(d, k).returned == LedgerOf(c, k).returned + Buffered(c, k);
      }
    } else {
      SameView(c, d, k);
    }
  }

  // ---- The loops --------------------------------------------------------------

  lemma {:induction false} ProcessAllKeeps(c: CeleryState, keys: seq<TaskInstanceKey>,
                                           send: TaskInstanceKey -> SendOutcome, k: TaskInstanceKey)
    requires Sound(c, k) && NoDup(keys)
    requires k in keys ==> c.base.queued.Has(k) && k in c.retries
    ensures Sound(ProcessAll(c, keys, send), k)
    decreases |keys|
  {
    if keys != [] && c.raised.NoError? {
      var x := keys[0];
      var d := ProcessOne(c, x, send(x));
      if x == k {
        ProcessKeeps(c, k, send(x));
      } else {
        ProcessFrame(c, x, send(x), k);
        SameView(c, d, k);
      }
      ProcessAllKeeps(d, keys[1..], send, k);
    }
  }

  lemma SettleNeverRaises(c: CeleryState, x: TaskInstanceKey, o: SendOutcome)
    ensures Settle(c, x, o).raised == c.raised
  {
  }

  lemma ProcessNeverRaises(c: CeleryState, x: TaskInstanceKey, o: SendOutcome)
    requires c.base.queued.Has(x) && x in c.retries
    ensures ProcessOne(c, x, o).raised == c.raised
  {
    hide Settle;
    SettleNeverRaises(Dequeue(Publish(c, x), x), x, o);
  }

  /** The unguarded pops find their keys: sending never raises KeyError. */
  lemma {:induction false} ProcessAllNeverRaises(c: CeleryState, keys: seq<TaskInstanceKey>,
                                                 send: TaskInstanceKey -> SendOutcome)
    requires NoDup(keys) && c.raised.NoError?
    requires forall x | x in keys :: c.base.queued.Has(x) && x in c.retries
    ensures ProcessAll(c, keys, send).raised.NoError?
    decreases |keys|
  {
    if keys != [] {
      var d := ProcessOne(c, keys[0], send(keys[0]));
      ProcessNeverRaises(c, keys[0], send(keys[0]));
      assert keys[0] in keys;
      forall x | x in keys[1..] ensures d.base.queued.Has(x) && x in d.retries {
        assert x != keys[0];
        ProcessFrame(c, keys[0], send(keys[0]), x);
      }
      ProcessAllNeverRaises(d, keys[1..], send);
    }
  }

  lemma {:induction false} UpdateAllKeeps(c: CeleryState, keys: seq<TaskInstanceKey>,
                                          ids: map<TaskInstanceKey, TaskId>, answers: Answers, k: TaskInstanceKey)
    requires Sound(c, k) && NoDup(keys)
    requires k in keys ==> k in c.base.running
    ensures Sound(UpdateAll(c, keys, ids, answers), k)
    decreases |keys|
  {
    if keys != [] {
      if keys[0] in ids && ids[keys[0]] in answers {
        var (status, info) := answers[ids[keys[0]]];
        UpdateKeeps(c, keys[0], status, info, k);
        if keys[0] != k { UpdateFrame(c, keys[0], status, info, k); }
        UpdateAllKeeps(UpdateTaskState(c, keys[0], status, info), keys[1..], ids, answers, k);
      } else {
        SameView(c, c.(raised := TypeError), k);
      }
    }
  }

  lemma {:induction false} FailAllKeeps(c: CeleryState, keys: seq<TaskInstanceKey>, k: TaskInstanceKey)
    requires Sound(c, k) && NoDup(keys)
    requires k in keys ==> k in c.base.running
    ensures Sound(FailAll(c, keys), k)
    decreases |keys|
  {
    hide Sound;
    if keys != [] {
      var x := keys[0];
      var d := UpdateTaskState(c, x, StatusFailure, "");
      UpdateKeeps(c, x, StatusFailure, "", k);
      if x != k { UpdateFrame(c, x, StatusFailure, "", k); }
      FailAllKeeps(d, keys[1..], k);
    }
  }

  lemma {:induction false} AdoptAllKeeps(c: CeleryState, order: seq<TaskId>, answers: Answers,
                                         known: map<TaskId, TaskInstance>, k: TaskInstanceKey)
    requires Sound(c, k)
    ensures Sound(AdoptAll(c, order, answers, known), k)
    decreases |order|
  {
    if order != [] {
      if order[0] in answers && order[0] in known {
        var (status, info) := answers[order[0]];
        AdoptKeeps(c, known[order[0]], order[0], status, info, k);
        AdoptAllKeeps(AdoptOne(c, known[order[0]], order[0], status, info), order[1..], answers, known, k);
      } else {
        AdoptAllKeeps(c, order[1..], answers, known, k);
      }
    }
  }

  // ---- Insertion orders stay well formed ---------------------------------------

  lemma UpdateOrdered(c: CeleryState, x: TaskInstanceKey, status: Status, info: string)
    requires Ordered(c)
    ensures Ordered(UpdateTaskState(c, x, status, info))
  {
    c.tasks.RemoveValid(x);
    c.timeouts.RemoveValid(x);
  }

  lemma LaunchOrdered(c: CeleryState, x: TaskInstanceKey, o: SendOutcome)
    requires Ordered(c) && o.Sent?
    ensures Ordered(Launch(c, x, o))
  {
    hide UpdateTaskState;
    c.tasks.PutValid(x, o.id);
    var d := if x in c.base.running then Merge(c, x) else c;
    var e := d.(base := d.base.(running := d.base.running + {x}), tasks := d.tasks.Put(x, o.id));
    UpdateOrdered(SetEvent(e, x, Event(Executor.Queued, o.id)), x, o.status, o.info);
  }

  lemma DequeueOrdered(c: CeleryState, x: TaskInstanceKey)
    requires Ordered(c)
    ensures Ordered(Dequeue(c, x))
  {
    c.base.queued.RemoveValid(x);
  }

  lemma SettleOrdered(c: CeleryState, x: TaskInstanceKey, o: SendOutcome)
    requires Ordered(c)
    ensures Ordered(Settle(c, x, o))
  {
    hide Launch;
    if o.Sent? { LaunchOrdered(c, x, o); }
  }

  lemma ProcessOrdered(c: CeleryState, x: TaskInstanceKey, o: SendOutcome)
    requires Ordered(c)
    ensures Ordered(ProcessOne(c, x, o))
  {
    hide Settle;
    hide Dequeue;
    DequeueOrdered(Publish(c, x), x);
    SettleOrdered(Dequeue(Publish(c, x), x), x, o);
  }

  lemma EnrolOrdered(c: CeleryState, k: TaskInstanceKey, id: TaskId, deadline: int)
    requires Ordered(c)
    ensures Ordered(Enrol(c, k, id, deadline))
  {
    c.timeouts.PutValid(k, deadline);
    c.tasks.PutValid(k, id);
  }

  lemma AdoptOrdered(c: CeleryState, ti: TaskInstance, id: TaskId, status: Status, info: string)
    requires Ordered(c)
    ensures Ordered(AdoptOne(c, ti, id, status, info))
  {
    hide UpdateTaskState;
    hide Enrol;
    var d := if ti.key in c.base.running then c else Accept(c, ti.key);
    var deadline := ti.queuedAt + c.adoptionTimeout;
    EnrolOrdered(d, ti.key, id, deadline);
    UpdateOrdered(Enrol(d, ti.key, id, deadline), ti.key, status, info);
  }

  lemma {:induction false} ProcessAllOrdered(c: CeleryState, keys: seq<TaskInstanceKey>,
                                             send: TaskInstanceKey -> SendOutcome)
    requires Ordered(c)
    ensures Ordered(ProcessAll(c, keys, send))
    decreases |keys|
  {
    hide Ordered;
    hide ProcessOne;
    if keys != [] && c.raised.NoError? {
      ProcessOrdered(c, keys[0], send(keys[0]));
      ProcessAllOrdered(ProcessOne(c, keys[0], send(keys[0])), keys[1..], send);
    }
  }

  lemma {:induction false} UpdateAllOrdered(c: CeleryState, keys: seq<TaskInstanceKey>,
                                            ids: map<TaskInstanceKey, TaskId>, answers: Answers)
    requires Ordered(c)
    ensures Ordered(UpdateAll(c, keys, ids, answers))
    decreases |keys|
  {
    hide UpdateTaskState;
    if keys != [] && keys[0] in ids && ids[keys[0]] in answers {
      var (status, info) := answers[ids[keys[0]]];
      UpdateOrdered(c, keys[0], status, info);
      UpdateAllOrdered(UpdateTaskState(c, keys[0], status, info), keys[1..], ids, answers);
    }
  }

  lemma {:induction false} FailAllOrdered(c: CeleryState, keys: seq<TaskInstanceKey>)
    requires Ordered(c)
    ensures Ordered(FailAll(c, keys))
    decreases |keys|
  {
    if keys != [] {
      UpdateOrdered(c, keys[0], StatusFailure, "");
      FailAllOrdered(Finish(c, keys[0], Event(Failed, "")), keys[1..]);
    }
  }

  lemma {:induction false} AdoptAllOrdered(c: CeleryState, order: seq<TaskId>, answers: Answers,
                                           known: map<TaskId, TaskInstance>)
    requires Ordered(c)
    ensures Ordered(AdoptAll(c, order, answers, known))
    decreases |order|
  {
    hide Ordered;
    hide AdoptOne;
    if order != [] {
      if order[0] in answers && order[0] in known {
        var (status, info) := answers[order[0]];
        AdoptOrdered(c, known[order[0]], order[0], status, info);
        AdoptAllOrdered(AdoptOne(c, known[order[0]], order[0], status, info), order[1..], answers, known);
      } else {
        AdoptAllOrdered(c, order[1..], answers, known);
      }
    }
  }

  // ---- Whole operations ---------------------------------------------------------

  function Marked(c: CeleryState, keys: seq<TaskInstanceKey>): CeleryState {
    c.(raised := NoError, retries := MarkTries(c.retries, keys))
  }

  lemma MarkKeeps(c: CeleryState, keys: seq<TaskInstanceKey>, k: TaskInstanceKey)
    requires Sound(c, k) && (k in keys ==> c.base.queued.Has(k))
    ensures Sound(Marked(c, keys), k)
    ensures k in keys ==> k in Marked(c, keys).retries
  {
    var d := Marked(c, keys);
    assert k in keys <==> k in Elements(keys);
    assert Buffered(d, k) == Buffered(c, k);
    assert LedgerOf(d, k) == LedgerOf(c, k);
  }

  lemma TriggerKeepsKey(c: CeleryState, slots: int, send: TaskInstanceKey -> SendOutcome, k: TaskInstanceKey)
    requires Ordered(c) && Sound(c, k)
    ensures Sound(TriggerSends(c, slots, send), k)
  {
    hide ProcessAll;
    hide Sound;
    var keys := Selected(c.base.queued, slots);
    SelectedDistinct(c.base.queued, slots);
    assert k in keys <==> k in Elements(keys);
    MarkKeeps(c, keys, k);
    ProcessAllKeeps(Marked(c, keys), keys, send, k);
  }

  /** Triggering never raises, whatever the broker answers. */
  lemma TriggerNeverRaises(c: CeleryState, slots: int, send: TaskInstanceKey -> SendOutcome)
    requires Ordered(c)
    ensures TriggerSends(c, slots, send).raised.NoError? && Ordered(TriggerSends(c, slots, send))
  {
    var keys := Selected(c.base.queued, slots);
    SelectedDistinct(c.base.queued, slots);
    assert forall x | x in keys :: x in Elements(keys);
    ProcessAllNeverRaises(Marked(c, keys), keys, send);
    ProcessAllOrdered(Marked(c, keys), keys, send);
  }

  lemma SyncKeepsKey(c: CeleryState, b: Backend, now: int, k: TaskInstanceKey)
    requires Ordered(c) && Sound(c, k)
    ensures Sound(SyncStates(c, b, now), k)
  {
    hide Sound;
    hide UpdateAll;
    hide FailAll;
    var start := c.(raised := NoError);
    SameView(c, start, k);
    if c.tasks.order != [] {
      var answers := GetMany(b, c.tasks.values.Values);
      RunningInOrder(c, k);
      UpdateAllKeeps(start, c.tasks.order, c.tasks.values, answers, k);
      var d := UpdateAll(start, c.tasks.order, c.tasks.values, answers);
      if d.raised.NoError? {
        UpdateAllOrdered(start, c.tasks.order, c.tasks.values, answers);
        RunningInOrder(d, k);
        FailAllKeeps(d, ScanStalled(d.timeouts.order, d.timeouts.values, now), k);
      }
    }
  }

  lemma RunningInOrder(c: CeleryState, k: TaskInstanceKey)
    requires Ordered(c) && Sound(c, k)
    ensures k in c.tasks.order ==> k in c.base.running
    ensures k in c.timeouts.order ==> k in c.base.running
  {
    assert k in c.tasks.order <==> k in Elements(c.tasks.order);
    assert k in c.timeouts.order <==> k in Elements(c.timeouts.order);
  }

  lemma SyncOrdered(c: CeleryState, b: Backend, now: int)
    requires Ordered(c)
    ensures Ordered(SyncStates(c, b, now))
  {
    var start := c.(raised := NoError);
    var answers := GetMany(b, c.tasks.values.Values);
    UpdateAllOrdered(start, c.tasks.order, c.tasks.values, answers);
    var d := UpdateAll(start, c.tasks.order, c.tasks.values, answers);
    FailAllOrdered(d, ScanStalled(d.timeouts.order, d.timeouts.values, now));
  }

  lemma DoKeeps(c: CeleryState, a: CeleryAction, k: TaskInstanceKey)
    requires Ordered(c) && Sound(c, k)
    ensures Sound(Do(c, a), k)
  {
    hide Sound;
    match a
    case Queueing(x, t) => QueueKeeps(c, x, t, k);
    case Sending(slots, send) => TriggerKeepsKey(c, slots, send, k);
    case Syncing(b, now) => SyncKeepsKey(c, b, now, k);
    case Adopting(tis, b, order) =>
      SameView(c, c.(raised := NoError), k);
      AdoptAllKeeps(c.(raised := NoError), order, GetMany(b, ById(tis).Keys), ById(tis), k);
    case Flushing(dagIds) => FlushKeeps(c, dagIds, k);
  }

  lemma DoOrdered(c: CeleryState, a: CeleryAction)
    requires Ordered(c)
    ensures Ordered(Do(c, a))
  {
    match a
    case Queueing(x, t) => c.base.queued.PutValid(x, t);
    case Sending(slots, send) => TriggerNeverRaises(c, slots, send);
    case Syncing(b, now) => SyncOrdered(c, b, now);
    case Adopting(tis, b, order) =>
      AdoptAllOrdered(c.(raised := NoError), order, GetMany(b, ById(tis).Keys), ById(tis));
    case Flushing(dagIds) =>
  }

  lemma {:induction false} RunKeeps(c: CeleryState, actions: seq<CeleryAction>, k: TaskInstanceKey)
    requires Ordered(c) && Sound(c, k)
    ensures Ordered(CeleryRun(c, actions)) && Sound(CeleryRun(c, actions), k)
    decreases |actions|
  {
    hide Sound;
    hide Ordered;
    hide Do;
    if actions != [] {
      DoKeeps(c, actions[0], k);
      DoOrdered(c, actions[0]);
      RunKeeps(Do(c, actions[0]), actions[1..], k);
    }
  }
}
