/** What CeleryExecutor reports: which event a key has, and whether it runs and under
    which id, after a sync, a send or an adoption - in terms of what the backend and the
    broker said, key by key. */
module CeleryReports {
  import opened Sequences
  import opened OrderedMaps
  import opened Executor
  import opened Celery
  import opened CeleryProofs
  import opened CeleryTheorems
  import opened CeleryScan
  import opened CeleryRuns

  /** What a reported state makes of a task: SUCCESS ends it as such, FAILURE and REVOKED
      end it as FAILED, STARTED only ends its adoption timeout, and nothing else does
      anything. */
  ghost predicate Reports(before: View, after: View, status: Status, info: string) {
    match status
    case StatusSuccess => Ended(after, Event(Success, info))
    case StatusFailure => Ended(after, Event(Failed, info))
    case StatusRevoked => Ended(after, Event(Failed, info))
    case StatusStarted => GoesOn(before, after) && after.timeout.None?
    case _ => GoesOn(before, after) && after.timeout == before.timeout
  }

  ghost predicate Ended(after: View, e: Event) {
    after.event == Some(e) && !after.running && after.task.None? && after.timeout.None?
  }

  ghost predicate GoesOn(before: View, after: View) {
    after.event == before.event && after.running == before.running && after.task == before.task
  }

  lemma UpdateReports(c: CeleryState, k: TaskInstanceKey, status: Status, info: string)
    ensures Reports(ViewOf(c, k), ViewOf(UpdateTaskState(c, k, status, info), k), status, info)
  {
  }

  // ---- Sync ---------------------------------------------------------------------

  /** What the backend says about an id; a stored backend answers pending for one it does
      not hold. */
  ghost predicate Says(b: Backend, id: TaskId, status: Status, info: string) {
    match b
    case Stored(results) => if id in results then results[id] == (status, info) else status == StatusPending
    case Polled(replies) => id in replies && replies[id] == (status, info)
  }

  ghost predicate SaysAll(c: CeleryState, b: Backend) {
    b.Polled? ==> forall x | x in c.tasks.values :: c.tasks.values[x] in b.replies
  }

  lemma {:induction false} UpdateAllReports(c: CeleryState, keys: seq<TaskInstanceKey>,
                                            ids: map<TaskInstanceKey, TaskId>, answers: Answers, k: TaskInstanceKey)
    requires NoDup(keys) && forall x | x in keys :: x in ids && ids[x] in answers
    ensures var v, w := ViewOf(c, k), ViewOf(UpdateAll(c, keys, ids, answers), k);
            if k in keys then Reports(v, w, answers[ids[k]].0, answers[ids[k]].1) else w == v
    decreases |keys|
  {
    hide ViewOf;
    hide UpdateTaskState;
    hide Reports;
    if keys != [] {
      var x := keys[0];
      assert x in keys && forall y | y in keys[1..] :: y in keys;
      var (status, info) := answers[ids[x]];
      var d := UpdateTaskState(c, x, status, info);
      UpdateAllReports(d, keys[1..], ids, answers, k);
      UpdateFrame(c, x, status, info, k);
      if x == k {
        UpdateReports(c, k, status, info);
        assert k !in keys[1..];
      }
    }
  }

  lemma {:induction false} FailAllReports(c: CeleryState, keys: seq<TaskInstanceKey>, k: TaskInstanceKey)
    requires NoDup(keys)
    ensures var v, w := ViewOf(c, k), ViewOf(FailAll(c, keys), k);
            if k in keys then Ended(w, Event(Failed, "")) else w == v
    decreases |keys|
  {
    hide ViewOf;
    hide Ended;
    if keys != [] {
      var d := UpdateTaskState(c, keys[0], StatusFailure, "");
      FailAllReports(d, keys[1..], k);
      UpdateFrame(c, keys[0], StatusFailure, "", k);
      if keys[0] == k {
        UpdateReports(c, k, StatusFailure, "");
        assert k !in keys[1..];
      }
    }
  }

  lemma {:induction false} ExpiredHas(order: seq<TaskInstanceKey>, deadlines: map<TaskInstanceKey, int>, now: int,
                                      k: TaskInstanceKey)
    requires forall x | x in order :: x in deadlines
    ensures k in Expired(order, deadlines, now) <==> k in order && deadlines[k] <= now
  {
    if order != [] {
      assert order[0] in order && forall x | x in order[1..] :: x in order;
      ExpiredHas(order[1..], deadlines, now, k);
    }
  }

  /** The scan fails only overdue keys, and if the timeouts are sorted all of them. */
  lemma ScanHas(m: OrderedMap<TaskInstanceKey, int>, now: int, k: TaskInstanceKey)
    requires m.Valid()
    ensures NoDup(ScanStalled(m.order, m.values, now))
    ensures k in ScanStalled(m.order, m.values, now) ==> m.Has(k) && m.values[k] <= now
    ensures SortedByDeadline(m) ==> (k in ScanStalled(m.order, m.values, now) <==> m.Has(k) && m.values[k] <= now)
  {
    hide SortedByDeadline;
    assert forall x :: x in m.order <==> x in Elements(m.order);
    ScanFindsExpired(m.order, m.values, now);
    ScanAlwaysRightIffSorted(m);
    ExpiredHas(m.order, m.values, now, k);
  }

  lemma UpdateKeepsSorted(c: CeleryState, x: TaskInstanceKey, status: Status, info: string)
    requires c.timeouts.Valid() && SortedByDeadline(c.timeouts)
    ensures var t := UpdateTaskState(c, x, status, info).timeouts;
            t.Valid() && SortedByDeadline(t)
  {
    hide SortedByDeadline;
    RemovalKeepsSorted(c.timeouts, x);
  }

  lemma {:induction false} UpdateAllKeepsSorted(c: CeleryState, keys: seq<TaskInstanceKey>,
                                                ids: map<TaskInstanceKey, TaskId>, answers: Answers)
    requires c.timeouts.Valid() && SortedByDeadline(c.timeouts)
    ensures var t := UpdateAll(c, keys, ids, answers).timeouts;
            t.Valid() && SortedByDeadline(t)
    decreases |keys|
  {
    hide SortedByDeadline;
    hide UpdateTaskState;
    if keys != [] && keys[0] in ids && ids[keys[0]] in answers {
      var (status, info) := answers[ids[keys[0]]];
      UpdateKeepsSorted(c, keys[0], status, info);
      UpdateAllKeepsSorted(UpdateTaskState(c, keys[0], status, info), keys[1..], ids, answers);
    }
  }

  /** An adopted task that is overdue and of which the backend says nothing final. */
  ghost predicate Overdue(v: View, status: Status, now: int) {
    && v.timeout.Some? && v.timeout.value <= now
    && !(status.StatusSuccess? || status.StatusFailure? || status.StatusRevoked? || status.StatusStarted?)
  }

  /** The two stages of a sync: `u` is what the answers alone make of `k`. */
  lemma SyncStages(c: CeleryState, b: Backend, now: int, k: TaskInstanceKey, status: Status, info: string)
    returns (u: View, stalled: bool)
    requires Ordered(c) && SaysAll(c, b) && c.tasks.Has(k) && Says(b, c.tasks.values[k], status, info)
    ensures Reports(ViewOf(c, k), u, status, info)
    ensures var w := ViewOf(SyncStates(c, b, now), k);
            if stalled then Ended(w, Event(Failed, "")) else w == u
    ensures stalled ==> u.timeout.Some? && u.timeout.value <= now
    ensures SortedByDeadline(c.timeouts) && u.timeout.Some? && u.timeout.value <= now ==> stalled
  {
    hide UpdateAll;
    hide FailAll;
    hide SortedByDeadline;
    hide Ended;
    var start := c.(raised := NoError);
    var answers := GetMany(b, c.tasks.values.Values);
    assert forall x :: x in c.tasks.order <==> x in Elements(c.tasks.order);
    UpdateAllReports(start, c.tasks.order, c.tasks.values, answers, k);
    UpdateAllRaises(start, c.tasks.order, c.tasks.values, answers);
    UpdateAllOrdered(start, c.tasks.order, c.tasks.values, answers);
    var d := UpdateAll(start, c.tasks.order, c.tasks.values, answers);
    var scan := ScanStalled(d.timeouts.order, d.timeouts.values, now);
    ScanHas(d.timeouts, now, k);
    FailAllReports(d, scan, k);
    if SortedByDeadline(c.timeouts) {
      UpdateAllKeepsSorted(start, c.tasks.order, c.tasks.values, answers);
    }
    assert ViewOf(start, k) == ViewOf(c, k) && k in c.tasks.order;
    u, stalled := ViewOf(d, k), k in scan;
    assert Reports(ViewOf(c, k), u, status, answers[c.tasks.values[k]].1);
  }

  /** A sync in which every task is answered for gives every task what the backend said
      of the id stored for it. Only an overdue adopted task may be failed besides, and
      if the timeouts are sorted every such task is. */
  lemma SyncReports(c: CeleryState, b: Backend, now: int, k: TaskInstanceKey, status: Status, info: string)
    requires Ordered(c) && SaysAll(c, b) && c.tasks.Has(k) && Says(b, c.tasks.values[k], status, info)
    ensures var v, w := ViewOf(c, k), ViewOf(SyncStates(c, b, now), k);
            && (Reports(v, w, status, info) || (Overdue(v, status, now) && Ended(w, Event(Failed, ""))))
            && (SortedByDeadline(c.timeouts) && Overdue(v, status, now) ==> Ended(w, Event(Failed, "")))
  {
    hide SyncStates;
    hide SortedByDeadline;
    hide Ordered;
    hide ViewOf;
    var u, stalled := SyncStages(c, b, now, k, status, info);
  }

  /** A key that is no task of the executor is left alone by a sync, whatever it answers. */
  lemma SyncLeavesOthers(c: CeleryState, b: Backend, now: int, k: TaskInstanceKey)
    requires Ordered(c) && Sound(c, k) && SaysAll(c, b) && !c.tasks.Has(k)
    ensures ViewOf(SyncStates(c, b, now), k) == ViewOf(c, k)
  {
    hide UpdateAll;
    hide FailAll;
    hide Sound;
    var start := c.(raised := NoError);
    var answers := GetMany(b, c.tasks.values.Values);
    assert forall x :: x in c.tasks.order <==> x in Elements(c.tasks.order);
    UpdateAllReports(start, c.tasks.order, c.tasks.values, answers, k);
    UpdateAllOrdered(start, c.tasks.order, c.tasks.values, answers);
    var d := UpdateAll(start, c.tasks.order, c.tasks.values, answers);
    ScanHas(d.timeouts, now, k);
    FailAllReports(d, ScanStalled(d.timeouts.order, d.timeouts.values, now), k);
    assert ViewOf(start, k) == ViewOf(c, k) && ViewOf(d, k) == ViewOf(c, k);
    NoTaskNoTimeout(c, k);
  }

  lemma NoTaskNoTimeout(c: CeleryState, k: TaskInstanceKey)
    requires Sound(c, k) && !c.tasks.Has(k)
    ensures !c.timeouts.Has(k)
  {
  }

  // ---- Sending ------------------------------------------------------------------

  /** What a send makes of a queued task: sent, it runs under the id it was given unless
      its state says that it has finished; a timeout leaves it queued while it has tries
      left; any other exception, or the last timeout, fails it; a send that returns
      nothing drops it. */
  ghost predicate SendReports(before: View, after: View, o: SendOutcome) {
    match o
    case Sent(id, status, info) =>
      && !after.queued
      && (match status
          case StatusSuccess => Ended(after, Event(Success, info))
          case StatusFailure => Ended(after, Event(Failed, info))
          case StatusRevoked => Ended(after, Event(Failed, info))
          case _ => after.event == Some(Event(Executor.Queued, id)) && after.running && after.task == Some(id))
    case SendRaised => !after.queued && after.event == Some(Event(Failed, "")) && after.running == before.running
    case SendNothing => !after.queued && after.event == before.event && after.running == before.running
    case SendTimedOut =>
      var tries := if before.tries.Some? then before.tries.value else 1;
      if tries <= before.maxRetries then after.queued && after.event == before.event && after.tries == Some(tries + 1)
      else !after.queued && after.event == Some(Event(Failed, "")) && after.running == before.running
  }

  lemma LaunchReports(c: CeleryState, k: TaskInstanceKey, o: SendOutcome)
    requires o.Sent? && !c.base.queued.Has(k)
    ensures SendReports(ViewOf(c, k), ViewOf(Launch(c, k, o), k), o)
  {
    hide UpdateTaskState;
    var d := if k in c.base.running then Merge(c, k) else c;
    var e := d.(base := d.base.(running := d.base.running + {k}), tasks := d.tasks.Put(k, o.id));
    var f := SetEvent(e, k, Event(Executor.Queued, o.id));
    UpdateReports(f, k, o.status, o.info);
    UpdateSame(f, k, o.status, o.info, k);
  }

  lemma ProcessReports(c: CeleryState, k: TaskInstanceKey, o: SendOutcome)
    requires c.base.queued.Has(k) && k in c.retries
    ensures SendReports(ViewOf(c, k), ViewOf(ProcessOne(c, k, o), k), o)
  {
    hide Launch;
    if o.Sent? {
      LaunchReports(Dequeue(Publish(c, k), k), k, o);
    }
  }

  /** One trigger round: every task it picks fares as its own send came out, and no other
      task is touched. */
  lemma TriggerReports(c: CeleryState, slots: int, send: TaskInstanceKey -> SendOutcome, k: TaskInstanceKey)
    requires Ordered(c)
    ensures var v, w := ViewOf(c, k), ViewOf(TriggerSends(c, slots, send), k);
            if k in Selected(c.base.queued, slots) then SendReports(v, w, send(k)) else w == v
  {
    hide ProcessAll;
    hide ProcessOne;
    hide Selected;
    hide NoDup;
    hide SendReports;
    var keys := Selected(c.base.queued, slots);
    var m := Marked(c, keys);
    RoundReady(c, slots);
    assert k in keys <==> k in Elements(keys);
    if k in keys {
      var before := ProcessAllAt(m, keys, send, k);
      var v := ViewOf(before, k);
      assert v == ViewOf(m, k) && v.queued && v.tries.Some?;
      ProcessReports(before, k, send(k));
      SameButTries(ViewOf(c, k), v, ViewOf(ProcessOne(before, k, send(k)), k), send(k));
    } else {
      ProcessAllFrame(m, keys, send, k);
      assert ViewOf(m, k) == ViewOf(c, k);
    }
  }

  /** A first pick starts at try one. */
  lemma SameButTries(v: View, marked: View, w: View, o: SendOutcome)
    requires marked == v.(tries := Some(if v.tries.Some? then v.tries.value else 1)) && SendReports(marked, w, o)
    ensures SendReports(v, w, o)
  {
  }

  // ---- Adoption -----------------------------------------------------------------

  /** What adopting an instance makes of its key: it runs under the instance's id with a
      deadline counted from when it was queued, unless the backend says it has started,
      which ends the deadline, or finished. */
  ghost predicate AdoptReports(before: View, after: View, id: TaskId, status: Status, info: string, deadline: int) {
    && after.queued == before.queued
    && match status
       case StatusSuccess => Ended(after, Event(Success, info))
       case StatusFailure => Ended(after, Event(Failed, info))
       case StatusRevoked => Ended(after, Event(Failed, info))
       case StatusStarted => Runs(before, after, id, None)
       case _ => Runs(before, after, id, Some(deadline))
  }

  ghost predicate Runs(before: View, after: View, id: TaskId, timeout: Option<int>) {
    after.event == before.event && after.running && after.task == Some(id) && after.timeout == timeout
  }

  lemma AdoptOneReports(c: CeleryState, ti: TaskInstance, id: TaskId, status: Status, info: string)
    ensures AdoptReports(ViewOf(c, ti.key), ViewOf(AdoptOne(c, ti, id, status, info), ti.key), id, status, info,
                         ti.queuedAt + c.adoptionTimeout)
    ensures AdoptOne(c, ti, id, status, info).adoptionTimeout == c.adoptionTimeout
  {
  }

  /** The last answer that concerns `k`, and the last that finishes it. */
  ghost function LastId(order: seq<TaskId>, answers: Answers, known: map<TaskId, TaskInstance>, k: TaskInstanceKey,
                        finishing: bool): (r: Option<TaskId>)
    ensures r.Some? ==> r.value in answers && r.value in known && known[r.value].key == k
  {
    if order == [] then None
    else
      var later := LastId(order[1..], answers, known, k, finishing);
      if later.Some? then later
      else if order[0] in answers && order[0] in known && known[order[0]].key == k
              && (finishing ==> Finishes(answers[order[0]].0)) then Some(order[0])
      else None
  }

  /** After adoption a key has the event of the last answer that finishes it, and runs
      under the last id asked about unless that answer finishes it; a key that no answer
      concerns is untouched. */
  ghost predicate Adopted(v: View, w: View, order: seq<TaskId>, answers: Answers, known: map<TaskId, TaskInstance>,
                          k: TaskInstanceKey, adoptionTimeout: int) {
    var last, ended := LastId(order, answers, known, k, false), LastId(order, answers, known, k, true);
    && w.queued == v.queued
    && w.event == (if ended.None? then v.event
                   else Some(Event(if answers[ended.value].0.StatusSuccess? then Success else Failed,
                                   answers[ended.value].1)))
    && (last.None? ==> w == v)
    && (last.Some? ==>
          var status := answers[last.value].0;
          if Finishes(status) then !w.running && w.task.None? && w.timeout.None?
          else && w.running && w.task == Some(last.value)
               && w.timeout == if status.StatusStarted? then None
                               else Some(known[last.value].queuedAt + adoptionTimeout))
  }

  lemma {:induction false} AdoptAllReports(c: CeleryState, order: seq<TaskId>, answers: Answers,
                                           known: map<TaskId, TaskInstance>, k: TaskInstanceKey)
    ensures Adopted(ViewOf(c, k), ViewOf(AdoptAll(c, order, answers, known), k), order, answers, known, k,
                    c.adoptionTimeout)
    decreases |order|
  {
    hide ViewOf;
    hide AdoptOne;
    if order != [] {
      var id := order[0];
      if id in answers && id in known {
        var (status, info) := answers[id];
        AdoptFrame(c, known[id], id, status, info, k);
        AdoptOneReports(c, known[id], id, status, info);
        AdoptAllReports(AdoptOne(c, known[id], id, status, info), order[1..], answers, known, k);
      } else {
        AdoptAllReports(c, order[1..], answers, known, k);
      }
    }
  }

  /** Adoption as a whole. */
  lemma AdoptionReports(c: CeleryState, tis: seq<TaskInstance>, b: Backend, order: seq<TaskId>, k: TaskInstanceKey)
    ensures Adopted(ViewOf(c, k), ViewOf(TryAdopt(c, tis, b, order), k), order, GetMany(b, ById(tis).Keys), ById(tis),
                    k, c.adoptionTimeout)
    ensures forall id, status, info | id in GetMany(b, ById(tis).Keys) ::
              GetMany(b, ById(tis).Keys)[id] == (status, info) ==> Says(b, id, status, info)
  {
    hide AdoptAll;
    hide Adopted;
    assert ViewOf(c.(raised := NoError), k) == ViewOf(c, k);
    AdoptAllReports(c.(raised := NoError), order, GetMany(b, ById(tis).Keys), ById(tis), k);
  }
}
