/** Where conservation and disjointness in CeleryExecutor stop being exact: publishing
    a key that is running already, and adopting one that is still queued. */
module CeleryRuns {
  import opened Sequences
  import opened OrderedMaps
  import opened StableSort
  import opened Executor
  import opened Celery
  import opened CeleryProofs
  import opened CeleryTheorems
  import opened CeleryAdoption

  // ---- Conservation -------------------------------------------------------------

  /** The step publishes `k` although it is running already. */
  ghost predicate PublishesRunning(c: CeleryState, a: CeleryAction, k: TaskInstanceKey) {
    Picks(c, a, k) && k in c.base.running && a.send(k).Sent?
  }

  lemma LaunchMerges(c: CeleryState, k: TaskInstanceKey, o: SendOutcome)
    requires o.Sent?
    ensures LedgerOf(Launch(c, k, o), k).merged == LedgerOf(c, k).merged + Indicator(k in c.base.running)
  {
    hide UpdateTaskState;
    var d := if k in c.base.running then Merge(c, k) else c;
    var e := d.(base := d.base.(running := d.base.running + {k}), tasks := d.tasks.Put(k, o.id));
    UpdateSame(SetEvent(e, k, Event(Executor.Queued, o.id)), k, o.status, o.info, k);
  }

  lemma ProcessMerges(c: CeleryState, k: TaskInstanceKey, o: SendOutcome)
    requires c.base.queued.Has(k) && k in c.retries
    ensures LedgerOf(ProcessOne(c, k, o), k).merged
            == LedgerOf(c, k).merged + Indicator(k in c.base.running && o.Sent?)
  {
    hide Launch;
    if o.Sent? {
      LaunchMerges(Dequeue(Publish(c, k), k), k, o);
    }
  }

  /** What one trigger round does to the ledger of one key. */
  lemma SendingMerges(c: CeleryState, slots: int, send: TaskInstanceKey -> SendOutcome, k: TaskInstanceKey)
    requires Ordered(c)
    ensures var d := TriggerSends(c, slots, send);
            LedgerOf(d, k).merged
            == LedgerOf(c, k).merged + Indicator(PublishesRunning(c, Sending(slots, send), k))
  {
    hide ProcessAll;
    hide ProcessOne;
    hide Selected;
    hide NoDup;
    var keys := Selected(c.base.queued, slots);
    var m := Marked(c, keys);
    RoundReady(c, slots);
    if k in keys {
      var before := ProcessAllAt(m, keys, send, k);
      var v := ViewOf(m, k);
      assert v == ViewOf(before, k) && v.queued && v.tries.Some? && (v.running <==> k in c.base.running);
      ProcessMerges(before, k, send(k));
    } else {
      ProcessAllFrame(m, keys, send, k);
    }
  }

  lemma StepMerges(c: CeleryState, a: CeleryAction, k: TaskInstanceKey)
    requires Ordered(c)
    ensures LedgerOf(Do(c, a), k).merged == LedgerOf(c, k).merged + Indicator(PublishesRunning(c, a, k))
  {
    hide TriggerSends;
    hide SyncStates;
    hide AdoptAll;
    match a
    case Sending(slots, send) => SendingMerges(c, slots, send, k);
    case Syncing(b, now) => SyncSame(c, b, now, k);
    case Adopting(tis, b, order) =>
      AdoptAllSame(c.(raised := NoError), order, GetMany(b, ById(tis).Keys), ById(tis), k);
    case _ =>
  }

  ghost predicate NeverPublishesRunning(c: CeleryState, actions: seq<CeleryAction>, k: TaskInstanceKey)
    decreases |actions|
  {
    actions == [] ||
    (!PublishesRunning(c, actions[0], k) && NeverPublishesRunning(Do(c, actions[0]), actions[1..], k))
  }

  lemma {:induction false} MergedIff(c: CeleryState, actions: seq<CeleryAction>, k: TaskInstanceKey)
    requires Ordered(c)
    ensures LedgerOf(CeleryRun(c, actions), k).merged >= LedgerOf(c, k).merged
    ensures LedgerOf(CeleryRun(c, actions), k).merged == LedgerOf(c, k).merged
            <==> NeverPublishesRunning(c, actions, k)
    decreases |actions|
  {
    hide Ordered;
    hide LedgerOf;
    hide Do;
    hide PublishesRunning;
    if actions != [] {
      DoOrdered(c, actions[0]);
      StepMerges(c, actions[0], k);
      MergedIff(Do(c, actions[0]), actions[1..], k);
    }
  }

  /** Acceptances equal terminal transitions, plus sends that returned nothing, plus
      one if the key is queued or running now - exactly if no send of the run published
      the key while it was running, and it is not both queued and running now. */
  lemma ConservedIff(parallelism: int, maxRetries: int, adoptionTimeout: int, actions: seq<CeleryAction>,
                     k: TaskInstanceKey)
    ensures var c := Reached(parallelism, maxRetries, adoptionTimeout, actions);
            var l := LedgerOf(c, k);
            l.accepted == l.finished + l.vanished + Indicator(Known(c.base, k))
            <==> && NeverPublishesRunning(Initial(parallelism, maxRetries, adoptionTimeout), actions, k)
                 && !(c.base.queued.Has(k) && k in c.base.running)
  {
    hide CeleryRun;
    hide NeverPublishesRunning;
    InitialSound(parallelism, maxRetries, adoptionTimeout, k);
    InstancesConserved(parallelism, maxRetries, adoptionTimeout, actions, k);
    MergedIff(Initial(parallelism, maxRetries, adoptionTimeout), actions, k);
  }

  // ---- Queued and running ---------------------------------------------------------

  predicate Finishes(status: Status) {
    status.StatusSuccess? || status.StatusFailure? || status.StatusRevoked?
  }

  ghost predicate Apart(c: CeleryState, k: TaskInstanceKey) {
    !(c.base.queued.Has(k) && k in c.base.running)
  }

  /** The state reported for `k` by the last of the answers that concern it. */
  ghost function LastStatus(order: seq<TaskId>, answers: Answers, known: map<TaskId, TaskInstance>,
                            k: TaskInstanceKey): Option<Status>
  {
    if order == [] then None
    else
      var later := LastStatus(order[1..], answers, known, k);
      if later.Some? then later
      else if order[0] in answers && order[0] in known && known[order[0]].key == k then Some(answers[order[0]].0)
      else None
  }

  lemma AdoptOneRuns(c: CeleryState, ti: TaskInstance, id: TaskId, status: Status, info: string)
    ensures ti.key in AdoptOne(c, ti, id, status, info).base.running <==> !Finishes(status)
  {
  }

  /** After adoption a key runs exactly if the last answer about it does not finish it,
      or there is none and it was running. */
  lemma {:induction false} AdoptAllRuns(c: CeleryState, order: seq<TaskId>, answers: Answers,
                                        known: map<TaskId, TaskInstance>, k: TaskInstanceKey)
    ensures var last := LastStatus(order, answers, known, k);
            k in AdoptAll(c, order, answers, known).base.running
            <==> if last.Some? then !Finishes(last.value) else k in c.base.running
    decreases |order|
  {
    hide AdoptOne;
    hide Finishes;
    if order != [] {
      if order[0] in answers && order[0] in known {
        var (status, info) := answers[order[0]];
        var ti := known[order[0]];
        AdoptAllRuns(AdoptOne(c, ti, order[0], status, info), order[1..], answers, known, k);
        if ti.key == k {
          AdoptOneRuns(c, ti, order[0], status, info);
        } else {
          AdoptFrame(c, ti, order[0], status, info, k);
          assert ViewOf(AdoptOne(c, ti, order[0], status, info), k).running == ViewOf(c, k).running;
        }
      } else {
        AdoptAllRuns(c, order[1..], answers, known, k);
      }
    }
  }

  /** The step adopts `k` while it is queued, and its task has not finished. */
  ghost predicate AdoptsQueued(c: CeleryState, a: CeleryAction, k: TaskInstanceKey) {
    && a.Adopting? && c.base.queued.Has(k)
    && var last := LastStatus(a.order, GetMany(a.backend, ById(a.tis).Keys), ById(a.tis), k);
       last.Some? && !Finishes(last.value)
  }

  lemma {:induction false} UpdateAllRunsNoMore(c: CeleryState, keys: seq<TaskInstanceKey>,
                                               ids: map<TaskInstanceKey, TaskId>, answers: Answers)
    ensures UpdateAll(c, keys, ids, answers).base.running <= c.base.running
    decreases |keys|
  {
    if keys != [] && keys[0] in ids && ids[keys[0]] in answers {
      var (status, info) := answers[ids[keys[0]]];
      UpdateAllRunsNoMore(UpdateTaskState(c, keys[0], status, info), keys[1..], ids, answers);
    }
  }

  lemma {:induction false} FailAllRunsNoMore(c: CeleryState, keys: seq<TaskInstanceKey>)
    ensures FailAll(c, keys).base.running <= c.base.running
    decreases |keys|
  {
    if keys != [] {
      FailAllRunsNoMore(Finish(c, keys[0], Event(Failed, "")), keys[1..]);
    }
  }

  lemma SyncRunsNoMore(c: CeleryState, b: Backend, now: int)
    ensures SyncStates(c, b, now).base.running <= c.base.running
  {
    hide UpdateAll;
    hide FailAll;
    var start := c.(raised := NoError);
    var answers := GetMany(b, c.tasks.values.Values);
    UpdateAllRunsNoMore(start, c.tasks.order, c.tasks.values, answers);
    var d := UpdateAll(start, c.tasks.order, c.tasks.values, answers);
    FailAllRunsNoMore(d, ScanStalled(d.timeouts.order, d.timeouts.values, now));
  }

  lemma SendingApart(c: CeleryState, slots: int, send: TaskInstanceKey -> SendOutcome, k: TaskInstanceKey)
    requires Ordered(c) && Apart(c, k)
    ensures Apart(TriggerSends(c, slots, send), k)
  {
    hide ProcessAll;
    hide ProcessOne;
    hide Selected;
    hide NoDup;
    var keys := Selected(c.base.queued, slots);
    var m := Marked(c, keys);
    RoundReady(c, slots);
    var d := TriggerSends(c, slots, send);
    if k in keys {
      var before := ProcessAllAt(m, keys, send, k);
      var v := ViewOf(before, k);
      assert v == ViewOf(m, k) && v.queued && !v.running && v.tries.Some?;
      ProcessApart(before, k, send(k));
      assert ViewOf(d, k) == ViewOf(ProcessOne(before, k, send(k)), k);
    } else {
      ProcessAllFrame(m, keys, send, k);
      assert ViewOf(d, k) == ViewOf(m, k);
    }
  }

  lemma ProcessApart(c: CeleryState, k: TaskInstanceKey, o: SendOutcome)
    requires c.base.queued.Has(k) && k in c.retries && k !in c.base.running
    ensures var v := ViewOf(ProcessOne(c, k, o), k);
            !(v.queued && v.running)
  {
  }

  /** A step keeps a key from being queued and running at once exactly if it does not
      adopt it, unfinished, while it is queued. */
  lemma StepApartIff(c: CeleryState, a: CeleryAction, k: TaskInstanceKey)
    requires Ordered(c) && Apart(c, k)
    ensures Apart(Do(c, a), k) <==> !AdoptsQueued(c, a, k)
  {
    hide TriggerSends;
    hide SyncStates;
    hide AdoptAll;
    hide Finishes;
    match a
    case Queueing(x, t) =>
    case Sending(slots, send) => SendingApart(c, slots, send, k);
    case Syncing(b, now) =>
      SyncSame(c, b, now, k);
      SyncRunsNoMore(c, b, now);
    case Adopting(tis, b, order) =>
      var start, answers, known := c.(raised := NoError), GetMany(b, ById(tis).Keys), ById(tis);
      AdoptAllSame(start, order, answers, known, k);
      AdoptAllRuns(start, order, answers, known, k);
    case Flushing(dagIds) =>
  }

  ghost predicate ApartThroughout(c: CeleryState, actions: seq<CeleryAction>, k: TaskInstanceKey)
    decreases |actions|
  {
    Apart(c, k) && (actions == [] || ApartThroughout(Do(c, actions[0]), actions[1..], k))
  }

  ghost predicate NeverAdoptsQueued(c: CeleryState, actions: seq<CeleryAction>, k: TaskInstanceKey)
    decreases |actions|
  {
    actions == [] || (!AdoptsQueued(c, actions[0], k) && NeverAdoptsQueued(Do(c, actions[0]), actions[1..], k))
  }

  /** Over every run a key is never queued and running at once, exactly if it is never
      adopted, unfinished, while it is queued. */
  lemma {:induction false} ApartIff(c: CeleryState, actions: seq<CeleryAction>, k: TaskInstanceKey)
    requires Ordered(c) && Apart(c, k)
    ensures ApartThroughout(c, actions, k) <==> NeverAdoptsQueued(c, actions, k)
    decreases |actions|
  {
    hide Ordered;
    hide Apart;
    hide Do;
    hide AdoptsQueued;
    if actions != [] {
      DoOrdered(c, actions[0]);
      StepApartIff(c, actions[0], k);
      if !AdoptsQueued(c, actions[0], k) {
        ApartIff(Do(c, actions[0]), actions[1..], k);
      }
    }
  }

  /** A key that is adopted while it is queued is accepted twice but known once. */
  lemma ConservationCanBreak()
    ensures var k := TaskInstanceKey("d", "t", 0, 1);
            var c := Reached(8, 3, 10, [Queueing(k, QueuedTask([], 1, None, None)),
                                        Adopting([TaskInstance(k, Some("a"), 0)], Stored(map[]), ["a"])]);
            var l := LedgerOf(c, k);
            l.accepted != l.finished + l.vanished + Indicator(Known(c.base, k))
  {
    hide AdoptAll;
    hide QueueTask;
    var k := TaskInstanceKey("d", "t", 0, 1);
    var queue := Queueing(k, QueuedTask([], 1, None, None));
    var adopt := Adopting([TaskInstance(k, Some("a"), 0)], Stored(map[]), ["a"]);
    AdoptionCanDouble();
    assert [queue, adopt][1..] == [adopt] && [adopt][1..] == [];
    ConservedIff(8, 3, 10, [queue, adopt], k);
  }
}
