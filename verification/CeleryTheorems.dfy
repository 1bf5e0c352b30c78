/** The guarantees of CeleryExecutor over every run, from the empty executor on. */
module CeleryTheorems {
  import opened Sequences
  import opened OrderedMaps
  import opened Executor
  import opened Celery
  import opened CeleryProofs

  lemma InitialSound(parallelism: int, maxRetries: int, adoptionTimeout: int, k: TaskInstanceKey)
    ensures Ordered(Initial(parallelism, maxRetries, adoptionTimeout))
    ensures Sound(Initial(parallelism, maxRetries, adoptionTimeout), k)
  {
  }

  ghost function Reached(parallelism: int, maxRetries: int, adoptionTimeout: int,
                         actions: seq<CeleryAction>): CeleryState {
    CeleryRun(Initial(parallelism, maxRetries, adoptionTimeout), actions)
  }

  lemma ReachedSound(parallelism: int, maxRetries: int, adoptionTimeout: int, actions: seq<CeleryAction>,
                     k: TaskInstanceKey)
    ensures Ordered(Reached(parallelism, maxRetries, adoptionTimeout, actions))
    ensures Sound(Reached(parallelism, maxRetries, adoptionTimeout, actions), k)
  {
    hide Sound;
    hide Ordered;
    InitialSound(parallelism, maxRetries, adoptionTimeout, k);
    RunKeeps(Initial(parallelism, maxRetries, adoptionTimeout), actions, k);
  }

  /** The collections agree in every reachable state; no state change ever met an
      unknown key; and a sync that returns early for want of tasks has no adopted
      task to miss. A key that was never adopted while queued is not both queued
      and running. */
  lemma CollectionsAgree(parallelism: int, maxRetries: int, adoptionTimeout: int, actions: seq<CeleryAction>)
    ensures var c := Reached(parallelism, maxRetries, adoptionTimeout, actions);
            && c.tasks.values.Keys == c.base.running
            && c.timeouts.values.Keys <= c.base.running
            && c.retries.Keys <= c.base.queued.values.Keys
            && (c.tasks.order == [] ==> c.timeouts.order == [])
            && (forall k :: LedgerOf(c, k).unknown == 0)
            && (forall k | k in c.retries :: 1 <= c.retries[k] <= Cap(c))
            && (forall k | k in c.base.queued.values && k in c.base.running :: LedgerOf(c, k).doubled > 0)
  {
    hide CeleryRun;
    hide Sound;
    hide Ordered;
    var c := Reached(parallelism, maxRetries, adoptionTimeout, actions);
    forall k ensures Sound(c, k) {
      ReachedSound(parallelism, maxRetries, adoptionTimeout, actions, k);
    }
    ReachedSound(parallelism, maxRetries, adoptionTimeout, actions, TaskInstanceKey("", "", 0, 0));
    SoundTogether(c);
  }

  lemma SoundTogether(c: CeleryState)
    requires Ordered(c) && forall k :: Sound(c, k)
    ensures c.tasks.values.Keys == c.base.running
    ensures c.timeouts.values.Keys <= c.base.running
    ensures c.retries.Keys <= c.base.queued.values.Keys
    ensures c.tasks.order == [] ==> c.timeouts.order == []
    ensures forall k :: LedgerOf(c, k).unknown == 0
    ensures forall k | k in c.retries :: 1 <= c.retries[k] <= Cap(c)
    ensures forall k | k in c.base.queued.values && k in c.base.running :: LedgerOf(c, k).doubled > 0
  {
    forall k | k in c.retries ensures k in c.base.queued.values && 1 <= c.retries[k] <= Cap(c) { assert Sound(c, k); }
    forall k | k in c.timeouts.values ensures k in c.base.running { assert Sound(c, k); }
    forall k ensures k in c.tasks.values <==> k in c.base.running { assert Sound(c, k); }
    forall k ensures LedgerOf(c, k).unknown == 0 { assert Sound(c, k); }
    forall k | k in c.base.queued.values && k in c.base.running ensures LedgerOf(c, k).doubled > 0 {
      assert Sound(c, k);
    }
    if c.timeouts.order != [] {
      var k := c.timeouts.order[0];
      assert k in Elements(c.timeouts.order);
      assert k in Elements(c.tasks.order);
    }
  }

  /** Conservation: each acceptance of a key (queueing it, or adopting it while it
      was not running) is matched by a terminal transition, a send that returned
      nothing, or the key being queued or running now - for every key that was
      never adopted while it was still queued. */
  lemma InstancesConserved(parallelism: int, maxRetries: int, adoptionTimeout: int, actions: seq<CeleryAction>,
                           k: TaskInstanceKey)
    ensures var c := Reached(parallelism, maxRetries, adoptionTimeout, actions);
            var l := LedgerOf(c, k);
            && l.accepted == l.finished + l.vanished + l.merged
                             + Indicator(c.base.queued.Has(k)) + Indicator(k in c.base.running)
            && (l.doubled == 0 ==> l.accepted == l.finished + l.vanished + Indicator(Known(c.base, k)))
  {
    ReachedSound(parallelism, maxRetries, adoptionTimeout, actions, k);
  }

  /** Each terminal transition recorded one terminal event, and full and per-dag
      flushes have returned it exactly once unless it is still in the buffer -
      for every key that was not accepted again before its event was flushed. */
  lemma TerminalEventsOnce(parallelism: int, maxRetries: int, adoptionTimeout: int, actions: seq<CeleryAction>,
                           k: TaskInstanceKey)
    ensures var c := Reached(parallelism, maxRetries, adoptionTimeout, actions);
            var l := LedgerOf(c, k);
            && |l.recorded| == l.finished
            && l.recorded == l.returned + l.overwritten + Buffered(c, k)
            && (l.doubled == 0 && l.reaccepted == 0 ==> l.recorded == l.returned + Buffered(c, k))
  {
    ReachedSound(parallelism, maxRetries, adoptionTimeout, actions, k);
    var c := Reached(parallelism, maxRetries, adoptionTimeout, actions);
    var l := LedgerOf(c, k);
    assert l.returned + multiset{} == l.returned;
  }

  // ---- Exceptions -----------------------------------------------------------

  ghost predicate AllAnswered(c: CeleryState, b: Backend) {
    forall k | k in c.tasks.values :: c.tasks.values[k] in GetMany(b, c.tasks.values.Values)
  }

  lemma {:induction false} UpdateAllRaises(c: CeleryState, keys: seq<TaskInstanceKey>,
                                           ids: map<TaskInstanceKey, TaskId>, answers: Answers)
    requires c.raised.NoError?
    ensures UpdateAll(c, keys, ids, answers).raised
            == if forall k | k in keys :: k in ids && ids[k] in answers then NoError else TypeError
    decreases |keys|
  {
    if keys != [] {
      var x := keys[0];
      assert x in keys && keys == [x] + keys[1..];
      assert forall k :: k in keys <==> k == x || k in keys[1..];
      if x in ids && ids[x] in answers {
        var (status, info) := answers[ids[x]];
        UpdateAllRaises(UpdateTaskState(c, x, status, info), keys[1..], ids, answers);
      }
    }
  }

  lemma {:induction false} FailAllRaises(c: CeleryState, keys: seq<TaskInstanceKey>)
    ensures FailAll(c, keys).raised == c.raised
    decreases |keys|
  {
    if keys != [] { FailAllRaises(Finish(c, keys[0], Event(Failed, "")), keys[1..]); }
  }

  lemma {:induction false} AdoptAllRaises(c: CeleryState, order: seq<TaskId>, answers: Answers,
                                          known: map<TaskId, TaskInstance>)
    ensures AdoptAll(c, order, answers, known).raised == c.raised
    decreases |order|
  {
    if order != [] {
      if order[0] in answers && order[0] in known {
        var (status, info) := answers[order[0]];
        AdoptAllRaises(AdoptOne(c, known[order[0]], order[0], status, info), order[1..], answers, known);
      } else {
        AdoptAllRaises(c, order[1..], answers, known);
      }
    }
  }

  /** A sync raises exactly when the backend left out some task, which a
      key-value or database backend never does. */
  lemma SyncRaisesExactly(c: CeleryState, b: Backend, now: int)
    requires Ordered(c)
    ensures SyncStates(c, b, now).raised == if AllAnswered(c, b) then NoError else TypeError
    ensures b.Stored? ==> AllAnswered(c, b)
  {
    hide UpdateAll;
    hide FailAll;
    var start := c.(raised := NoError);
    var answers := GetMany(b, c.tasks.values.Values);
    assert forall k :: k in c.tasks.order <==> k in Elements(c.tasks.order);
    UpdateAllRaises(start, c.tasks.order, c.tasks.values, answers);
    var d := UpdateAll(start, c.tasks.order, c.tasks.values, answers);
    FailAllRaises(d, ScanStalled(d.timeouts.order, d.timeouts.values, now));
  }

  /** No operation of any run ends in a KeyError. */
  lemma {:induction false} NeverKeyError(c: CeleryState, actions: seq<CeleryAction>)
    requires Ordered(c) && !c.raised.KeyError?
    ensures !CeleryRun(c, actions).raised.KeyError?
    decreases |actions|
  {
    hide Ordered;
    if actions != [] {
      DoOrdered(c, actions[0]);
      match actions[0] {
        case Sending(slots, send) => TriggerNeverRaises(c, slots, send);
        case Syncing(b, now) => SyncRaisesExactly(c, b, now);
        case Adopting(tis, b, order) =>
          AdoptAllRaises(c.(raised := NoError), order, GetMany(b, ById(tis).Keys), ById(tis));
        case _ =>
      }
      NeverKeyError(Do(c, actions[0]), actions[1..]);
    }
  }

  // ---- Bounded publishing ---------------------------------------------------

  /** Sends of the queued task `k` that have timed out so far. */
  ghost function Attempts(c: CeleryState, k: TaskInstanceKey): int {
    if k in c.retries then c.retries[k] - 1 else 0
  }

  ghost predicate Picks(c: CeleryState, a: CeleryAction, k: TaskInstanceKey) {
    a.Sending? && k in Selected(c.base.queued, a.slots)
  }

  /** What publishing looks at and counts: the queue, the tries, the sends so far. */
  ghost predicate SamePublishing(c: CeleryState, d: CeleryState, k: TaskInstanceKey) {
    && d.base.queued == c.base.queued && d.retries == c.retries && d.maxRetries == c.maxRetries
    && LedgerOf(d, k).published == LedgerOf(c, k).published
    && LedgerOf(d, k).merged == LedgerOf(c, k).merged
  }

  lemma FinishSame(c: CeleryState, x: TaskInstanceKey, e: Event, k: TaskInstanceKey)
    ensures SamePublishing(c, Finish(c, x, e), k)
  {
  }

  lemma UpdateSame(c: CeleryState, x: TaskInstanceKey, status: Status, info: string, k: TaskInstanceKey)
    ensures SamePublishing(c, UpdateTaskState(c, x, status, info), k)
  {
    hide Finish;
    FinishSame(c, x, Event(Success, info), k);
    FinishSame(c, x, Event(Failed, info), k);
  }

  lemma {:induction false} UpdateAllSame(c: CeleryState, keys: seq<TaskInstanceKey>,
                                         ids: map<TaskInstanceKey, TaskId>, answers: Answers, k: TaskInstanceKey)
    ensures SamePublishing(c, UpdateAll(c, keys, ids, answers), k)
    decreases |keys|
  {
    hide UpdateTaskState;
    if keys != [] && keys[0] in ids && ids[keys[0]] in answers {
      var (status, info) := answers[ids[keys[0]]];
      UpdateSame(c, keys[0], status, info, k);
      UpdateAllSame(UpdateTaskState(c, keys[0], status, info), keys[1..], ids, answers, k);
    }
  }

  lemma {:induction false} FailAllSame(c: CeleryState, keys: seq<TaskInstanceKey>, k: TaskInstanceKey)
    ensures SamePublishing(c, FailAll(c, keys), k)
    decreases |keys|
  {
    if keys != [] {
      UpdateSame(c, keys[0], StatusFailure, "", k);
      FailAllSame(Finish(c, keys[0], Event(Failed, "")), keys[1..], k);
    }
  }

  lemma AdoptSame(c: CeleryState, ti: TaskInstance, id: TaskId, status: Status, info: string, k: TaskInstanceKey)
    ensures SamePublishing(c, AdoptOne(c, ti, id, status, info), k)
  {
    hide UpdateTaskState;
    var d := if ti.key in c.base.running then c else Accept(c, ti.key);
    UpdateSame(Enrol(d, ti.key, id, ti.queuedAt + c.adoptionTimeout), ti.key, status, info, k);
  }

  lemma {:induction false} AdoptAllSame(c: CeleryState, order: seq<TaskId>, answers: Answers,
                                        known: map<TaskId, TaskInstance>, k: TaskInstanceKey)
    ensures SamePublishing(c, AdoptAll(c, order, answers, known), k)
    decreases |order|
  {
    hide AdoptOne;
    if order != [] {
      if order[0] in answers && order[0] in known {
        var (status, info) := answers[order[0]];
        AdoptSame(c, known[order[0]], order[0], status, info, k);
        AdoptAllSame(AdoptOne(c, known[order[0]], order[0], status, info), order[1..], answers, known, k);
      } else {
        AdoptAllSame(c, order[1..], answers, known, k);
      }
    }
  }

  lemma {:induction false} ProcessAllFrame(c: CeleryState, keys: seq<TaskInstanceKey>,
                                           send: TaskInstanceKey -> SendOutcome, k: TaskInstanceKey)
    requires k !in keys
    ensures ViewOf(ProcessAll(c, keys, send), k) == ViewOf(c, k)
    decreases |keys|
  {
    hide ProcessOne;
    if keys != [] && c.raised.NoError? {
      ProcessFrame(c, keys[0], send(keys[0]), k);
      ProcessAllFrame(ProcessOne(c, keys[0], send(keys[0])), keys[1..], send, k);
    }
  }

  /** Within one round only its own send matters to a key. */
  lemma {:induction false} ProcessAllAt(c: CeleryState, keys: seq<TaskInstanceKey>,
                                        send: TaskInstanceKey -> SendOutcome, k: TaskInstanceKey)
    returns (before: CeleryState)
    requires NoDup(keys) && k in keys && c.raised.NoError?
    requires forall x | x in keys :: c.base.queued.Has(x) && x in c.retries
    ensures ViewOf(before, k) == ViewOf(c, k)
    ensures ViewOf(ProcessAll(c, keys, send), k) == ViewOf(ProcessOne(before, k, send(k)), k)
    decreases |keys|
  {
    hide ProcessOne;
    hide ViewOf;
    var d := ProcessOne(c, keys[0], send(keys[0]));
    if keys[0] == k {
      before := c;
      ProcessAllFrame(d, keys[1..], send, k);
    } else {
      RoundGoesOn(c, keys, send);
      ProcessFrame(c, keys[0], send(keys[0]), k);
      before := ProcessAllAt(d, keys[1..], send, k);
    }
  }

  lemma RoundGoesOn(c: CeleryState, keys: seq<TaskInstanceKey>, send: TaskInstanceKey -> SendOutcome)
    requires NoDup(keys) && keys != [] && c.raised.NoError?
    requires forall x | x in keys :: c.base.queued.Has(x) && x in c.retries
    ensures var d := ProcessOne(c, keys[0], send(keys[0]));
            d.raised.NoError? && forall x | x in keys[1..] :: d.base.queued.Has(x) && x in d.retries
  {
    hide ProcessOne;
    ProcessNeverRaises(c, keys[0], send(keys[0]));
    forall x | x in keys[1..]
      ensures ProcessOne(c, keys[0], send(keys[0])).base.queued.Has(x)
              && x in ProcessOne(c, keys[0], send(keys[0])).retries
    {
      ProcessFrame(c, keys[0], send(keys[0]), x);
    }
  }

  /** What one timed-out send does to its task. */
  lemma TimedOutSend(c: CeleryState, k: TaskInstanceKey)
    requires c.base.queued.Has(k) && k in c.retries
    ensures var v := ViewOf(ProcessOne(c, k, SendTimedOut), k);
            && v.maxRetries == c.maxRetries
            && v.ledger.published == LedgerOf(c, k).published + 1
            && (c.retries[k] <= c.maxRetries ==> v.queued && v.tries == Some(c.retries[k] + 1))
            && (c.retries[k] > c.maxRetries ==>
                 !v.queued && v.event == Some(Event(Failed, "")) && v.ledger.finished == LedgerOf(c, k).finished + 1)
  {
  }

  lemma SyncSame(c: CeleryState, b: Backend, now: int, k: TaskInstanceKey)
    ensures SamePublishing(c, SyncStates(c, b, now), k)
  {
    hide UpdateAll;
    hide FailAll;
    var start := c.(raised := NoError);
    var answers := GetMany(b, c.tasks.values.Values);
    UpdateAllSame(start, c.tasks.order, c.tasks.values, answers, k);
    var d := UpdateAll(start, c.tasks.order, c.tasks.values, answers);
    FailAllSame(d, ScanStalled(d.timeouts.order, d.timeouts.values, now), k);
  }

  /** `k` is still queued, `n` of its sends have timed out, `p` were made in all. */
  ghost predicate StillQueued(c: CeleryState, k: TaskInstanceKey, n: int, p: int) {
    c.base.queued.Has(k) && Attempts(c, k) == n && LedgerOf(c, k).published == p
  }

  lemma OtherSending(c: CeleryState, slots: int, send: TaskInstanceKey -> SendOutcome, k: TaskInstanceKey)
    requires c.base.queued.Has(k) && k !in Selected(c.base.queued, slots)
    ensures StillQueued(TriggerSends(c, slots, send), k, Attempts(c, k), LedgerOf(c, k).published)
    ensures TriggerSends(c, slots, send).maxRetries == c.maxRetries
  {
    hide ProcessAll;
    hide Selected;
    var keys := Selected(c.base.queued, slots);
    assert k in keys <==> k in Elements(keys);
    ProcessAllFrame(Marked(c, keys), keys, send, k);
    var v, w := ViewOf(Marked(c, keys), k), ViewOf(TriggerSends(c, slots, send), k);
    assert w == v && (v.tries.Some? <==> k in c.retries);
  }

  /** A step that does not send `k` leaves its tries alone. */
  lemma OtherStep(c: CeleryState, a: CeleryAction, k: TaskInstanceKey)
    requires Ordered(c) && c.base.queued.Has(k) && !Picks(c, a, k)
    ensures StillQueued(Do(c, a), k, Attempts(c, k), LedgerOf(c, k).published)
    ensures Do(c, a).maxRetries == c.maxRetries
  {
    hide TriggerSends;
    hide SyncStates;
    hide AdoptAll;
    match a
    case Queueing(x, t) =>
    case Sending(slots, send) => OtherSending(c, slots, send, k);
    case Syncing(b, now) => SyncSame(c, b, now, k);
    case Adopting(tis, b, order) =>
      AdoptAllSame(c.(raised := NoError), order, GetMany(b, ById(tis).Keys), ById(tis), k);
    case Flushing(dagIds) =>
  }

  /** A step that sends `k` and times out uses up one of its tries; the last one
      takes the task out of the queue as FAILED. */
  lemma TimedOutStep(c: CeleryState, slots: int, send: TaskInstanceKey -> SendOutcome, k: TaskInstanceKey)
    requires Ordered(c) && Sound(c, k) && k in Selected(c.base.queued, slots) && send(k).SendTimedOut?
    ensures var d, n, p := TriggerSends(c, slots, send), Attempts(c, k), LedgerOf(c, k).published;
            && d.maxRetries == c.maxRetries
            && LedgerOf(d, k).published == p + 1
            && (n + 1 < Cap(c) ==> StillQueued(d, k, n + 1, p + 1))
            && (n + 1 == Cap(c) ==>
                 !d.base.queued.Has(k) && k in d.base.events && d.base.events[k] == Event(Failed, "")
                 && LedgerOf(d, k).finished == LedgerOf(c, k).finished + 1)
            && n + 1 <= Cap(c)
  {
    hide ProcessAll;
    hide ProcessOne;
    hide Sound;
    hide Selected;
    var keys := Selected(c.base.queued, slots);
    RoundStarts(c, slots, k);
    var before := ProcessAllAt(Marked(c, keys), keys, send, k);
    TimedOutSend(before, k);
    var v := ViewOf(TriggerSends(c, slots, send), k);
    assert v == ViewOf(ProcessOne(before, k, SendTimedOut), k);
    assert v.tries.Some? ==> Attempts(TriggerSends(c, slots, send), k) == v.tries.value - 1;
  }

  lemma RoundStarts(c: CeleryState, slots: int, k: TaskInstanceKey)
    requires Ordered(c) && Sound(c, k) && k in Selected(c.base.queued, slots)
    ensures var keys := Selected(c.base.queued, slots);
            var m := Marked(c, keys);
            && NoDup(keys)
            && (forall x | x in keys :: m.base.queued.Has(x) && x in m.retries)
            && 1 <= m.retries[k] == Attempts(c, k) + 1 <= Cap(c)
            && LedgerOf(m, k) == LedgerOf(c, k)
  {
    var keys := Selected(c.base.queued, slots);
    SelectedDistinct(c.base.queued, slots);
    assert forall x :: x in keys <==> x in Elements(keys);
  }

  lemma RoundReady(c: CeleryState, slots: int)
    requires Ordered(c)
    ensures var keys := Selected(c.base.queued, slots);
            var m := Marked(c, keys);
            NoDup(keys) && forall x | x in keys :: m.base.queued.Has(x) && x in m.retries
  {
    var keys := Selected(c.base.queued, slots);
    SelectedDistinct(c.base.queued, slots);
    assert forall x :: x in keys <==> x in Elements(keys);
  }

  lemma DoKeepsLimit(c: CeleryState, a: CeleryAction)
    requires Ordered(c)
    ensures Do(c, a).maxRetries == c.maxRetries
  {
    var k := TaskInstanceKey("", "", 0, 0);
    match a
    case Sending(slots, send) =>
      hide ProcessAll;
      hide ProcessOne;
      var keys := Selected(c.base.queued, slots);
      SelectedDistinct(c.base.queued, slots);
      assert forall x :: x in keys <==> x in Elements(keys);
      ProcessAllLimit(Marked(c, keys), keys, send);
    case Syncing(b, now) =>
      SyncSame(c, b, now, k);
    case Adopting(tis, b, order) =>
      AdoptAllSame(c.(raised := NoError), order, GetMany(b, ById(tis).Keys), ById(tis), k);
    case _ =>
  }

  lemma {:induction false} ProcessAllLimit(c: CeleryState, keys: seq<TaskInstanceKey>,
                                           send: TaskInstanceKey -> SendOutcome)
    ensures ProcessAll(c, keys, send).maxRetries == c.maxRetries
    decreases |keys|
  {
    hide ProcessOne;
    if keys != [] && c.raised.NoError? {
      var other := TaskInstanceKey(keys[0].dagId, keys[0].taskId, keys[0].executionDate, keys[0].tryNumber + 1);
      ProcessFrame(c, keys[0], send(keys[0]), other);
      ProcessAllLimit(ProcessOne(c, keys[0], send(keys[0])), keys[1..], send);
    }
  }

  /** One step in the life of a queued task whose sends time out. */
  lemma TimeoutStepCases(c: CeleryState, a: CeleryAction, k: TaskInstanceKey)
    requires Ordered(c) && Sound(c, k) && c.base.queued.Has(k)
    requires Picks(c, a, k) ==> a.send(k).SendTimedOut?
    ensures var e := Do(c, a);
            var sends := LedgerOf(e, k).published - LedgerOf(c, k).published;
            && sends == Indicator(Picks(c, a, k))
            && (e.base.queued.Has(k) ==> Attempts(e, k) == Attempts(c, k) + sends)
            && (!e.base.queued.Has(k) ==> Attempts(c, k) + sends == Cap(c) && LeftAsFailed(e, k))
  {
    hide Sound;
    hide Ordered;
    if Picks(c, a, k) {
      hide TriggerSends;
      TimedOutStep(c, a.slots, a.send, k);
    } else {
      hide Do;
      OtherStep(c, a, k);
    }
  }

  ghost predicate LeftAsFailed(c: CeleryState, k: TaskInstanceKey) {
    !c.base.queued.Has(k) && k in c.base.events && c.base.events[k] == Event(Failed, "")
  }

  /** The run lasts at most until `k` leaves the queue, and every send of `k` in it
      times out. */
  ghost predicate WaitsInVain(c: CeleryState, actions: seq<CeleryAction>, k: TaskInstanceKey)
    decreases |actions|
  {
    actions == [] ||
    (&& c.base.queued.Has(k) && (Picks(c, actions[0], k) ==> actions[0].send(k).SendTimedOut?)
     && WaitsInVain(Do(c, actions[0]), actions[1..], k))
  }

  /** How many rounds of the run send `k`. */
  ghost function Rounds(c: CeleryState, actions: seq<CeleryAction>, k: TaskInstanceKey): nat
    decreases |actions|
  {
    if actions == [] then 0
    else Indicator(Picks(c, actions[0], k)) + Rounds(Do(c, actions[0]), actions[1..], k)
  }

  /** A queued task whose sends all time out is published once in every round that
      picks it, never more often than its tries allow, and it leaves the queue
      exactly with the last send they allow, as FAILED. For a task that was never
      sent before, those are exactly its limit plus one. */
  lemma {:induction false} PublishedExactly(c: CeleryState, actions: seq<CeleryAction>, k: TaskInstanceKey)
    requires Ordered(c) && Sound(c, k) && c.base.queued.Has(k) && WaitsInVain(c, actions, k)
    ensures var d := CeleryRun(c, actions);
            var sends := LedgerOf(d, k).published - LedgerOf(c, k).published;
            && sends == Rounds(c, actions, k)
            && Attempts(c, k) + sends <= Cap(c)
            && (d.base.queued.Has(k) <==> Attempts(c, k) + sends < Cap(c))
            && (!d.base.queued.Has(k) ==> LeftAsFailed(d, k))
            && (k !in c.retries ==> (!d.base.queued.Has(k) <==> sends == Cap(c)))
    decreases |actions|
  {
    assert 0 <= Attempts(c, k) < Cap(c);
    hide Sound;
    hide Ordered;
    hide LedgerOf;
    hide Selected;
    hide Do;
    hide LeftAsFailed;
    if actions != [] {
      var a, e := actions[0], Do(c, actions[0]);
      DoOrdered(c, a);
      DoKeeps(c, a, k);
      DoKeepsLimit(c, a);
      TimeoutStepCases(c, a, k);
      if e.base.queued.Has(k) {
        PublishedExactly(e, actions[1..], k);
      } else {
        assert actions[1..] == [];
      }
    }
  }
}
