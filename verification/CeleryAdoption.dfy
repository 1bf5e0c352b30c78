/** Which task instances CeleryExecutor takes over from a dead executor, which it
    hands back, and what adoption may do to a key that is still queued. */
module CeleryAdoption {
  import opened Sequences
  import opened OrderedMaps
  import opened Executor
  import opened Celery
  import opened CeleryProofs
  import opened CeleryTheorems

  lemma {:induction false} ByIdSound(tis: seq<TaskInstance>, id: TaskId)
    ensures id in ById(tis) ==> ById(tis)[id] in tis && ById(tis)[id].externalId == Some(id)
    ensures id !in ById(tis) ==> forall ti | ti in tis :: ti.externalId != Some(id)
  {
    if tis != [] {
      ByIdSound(tis[..|tis| - 1], id);
      assert tis == tis[..|tis| - 1] + [tis[|tis| - 1]];
    }
  }

  lemma {:induction false} HandedBack(tis: seq<TaskInstance>, ti: TaskInstance)
    ensures ti in WithoutId(tis) <==> ti in tis && ti.externalId.None?
  {
    if tis != [] {
      HandedBack(tis[1..], ti);
      assert tis == [tis[0]] + tis[1..];
    }
  }

  /** Exactly the instances without a Celery id are handed back for clearing. */
  lemma NotAdoptedExactly(tis: seq<TaskInstance>, ti: TaskInstance)
    ensures ti in NotAdopted(tis) <==> ti in tis && ti.externalId.None?
  {
    HandedBack(tis, ti);
    if ById(tis) == map[] && ti in tis && ti.externalId.Some? {
      ByIdSound(tis, ti.externalId.value);
      assert false;
    }
  }

  /** Running here, or already finished with its event waiting to be flushed. */
  ghost predicate TakenIn(c: CeleryState, k: TaskInstanceKey) {
    k in c.base.running || HoldsTerminal(c.base, k)
  }

  lemma AdoptOneTakesIn(c: CeleryState, ti: TaskInstance, id: TaskId, status: Status, info: string, k: TaskInstanceKey)
    requires TakenIn(c, k) || ti.key == k
    ensures TakenIn(AdoptOne(c, ti, id, status, info), k)
  {
    if ti.key != k { AdoptFrame(c, ti, id, status, info, k); }
  }

  lemma {:induction false} AdoptAllTakesIn(c: CeleryState, order: seq<TaskId>, answers: Answers,
                                           known: map<TaskId, TaskInstance>, k: TaskInstanceKey)
    requires TakenIn(c, k) || exists id :: id in order && id in answers && id in known && known[id].key == k
    ensures TakenIn(AdoptAll(c, order, answers, known), k)
    decreases |order|
  {
    hide AdoptOne;
    if order != [] {
      assert forall id | id in order :: id == order[0] || id in order[1..];
      if order[0] in answers && order[0] in known {
        var (status, info) := answers[order[0]];
        var d := AdoptOne(c, known[order[0]], order[0], status, info);
        if TakenIn(c, k) || known[order[0]].key == k {
          AdoptOneTakesIn(c, known[order[0]], order[0], status, info, k);
        }
        AdoptAllTakesIn(d, order[1..], answers, known, k);
      } else {
        AdoptAllTakesIn(c, order[1..], answers, known, k);
      }
    }
  }

  lemma {:induction false} AdoptAllFrame(c: CeleryState, order: seq<TaskId>, answers: Answers,
                                         known: map<TaskId, TaskInstance>, k: TaskInstanceKey)
    requires forall id | id in answers && id in known :: known[id].key != k
    ensures ViewOf(AdoptAll(c, order, answers, known), k) == ViewOf(c, k)
    decreases |order|
  {
    hide AdoptOne;
    hide ViewOf;
    if order != [] {
      if order[0] in answers && order[0] in known {
        var (status, info) := answers[order[0]];
        AdoptFrame(c, known[order[0]], order[0], status, info, k);
        AdoptAllFrame(AdoptOne(c, known[order[0]], order[0], status, info), order[1..], answers, known, k);
      } else {
        AdoptAllFrame(c, order[1..], answers, known, k);
      }
    }
  }

  /** Of several instances with the same Celery id only the last is looked at. */
  lemma {:induction false} LastIdWins(tis: seq<TaskInstance>, i: nat)
    requires i < |tis| && tis[i].externalId.Some?
    requires forall j :: i < j < |tis| ==> tis[j].externalId != tis[i].externalId
    ensures tis[i].externalId.value in ById(tis) && ById(tis)[tis[i].externalId.value] == tis[i]
    decreases |tis|
  {
    if i < |tis| - 1 {
      LastIdWins(tis[..|tis| - 1], i);
    }
  }

  /** The backend answered for an id under which an instance of `k` is known. */
  ghost predicate Answered(tis: seq<TaskInstance>, b: Backend, k: TaskInstanceKey) {
    exists id :: id in GetMany(b, ById(tis).Keys) && id in ById(tis) && ById(tis)[id].key == k
  }

  /** Whatever the instances share, a key is taken in if the backend answered for an
      id under which it is known; otherwise adoption leaves no trace of it although
      an instance with an id is never handed back. */
  lemma AdoptionFollowsAnswers(c: CeleryState, tis: seq<TaskInstance>, b: Backend, order: seq<TaskId>,
                               k: TaskInstanceKey)
    requires Elements(order) == GetMany(b, ById(tis).Keys).Keys
    ensures Answered(tis, b, k) ==> TakenIn(TryAdopt(c, tis, b, order), k)
    ensures !Answered(tis, b, k) ==> ViewOf(TryAdopt(c, tis, b, order), k) == ViewOf(c, k)
    ensures forall ti | ti in tis && ti.externalId.Some? :: ti !in NotAdopted(tis)
    ensures b.Stored? ==> (Answered(tis, b, k) <==> exists id :: id in ById(tis) && ById(tis)[id].key == k)
  {
    assert ViewOf(c.(raised := NoError), k) == ViewOf(c, k);
    hide AdoptAll;
    hide ById;
    hide ViewOf;
    var known := ById(tis);
    var answers, start := GetMany(b, known.Keys), c.(raised := NoError);
    forall ti | ti in tis && ti.externalId.Some? ensures ti !in NotAdopted(tis) {
      NotAdoptedExactly(tis, ti);
    }
    if Answered(tis, b, k) {
      var id :| id in answers && id in known && known[id].key == k;
      assert id in Elements(order);
      AdoptAllTakesIn(start, order, answers, known, k);
    } else {
      AdoptAllFrame(start, order, answers, known, k);
    }
    if b.Stored? && exists id :: id in known && known[id].key == k {
      var id :| id in known && known[id].key == k;
      assert id in answers;
    }
  }

  /** Adopting one instance leaves its key out of the queue or out of the running
      set exactly if the key was not queued or the task had already finished. */
  lemma AdoptionKeepsApart(c: CeleryState, ti: TaskInstance, id: TaskId, status: Status, info: string)
    ensures !(AdoptOne(c, ti, id, status, info).base.queued.Has(ti.key)
              && ti.key in AdoptOne(c, ti, id, status, info).base.running)
            <==> !c.base.queued.Has(ti.key)
                 || status.StatusSuccess? || status.StatusFailure? || status.StatusRevoked?
  {
  }

  /** The executor does not check: a queued key can be adopted, and is then both
      queued and running. */
  lemma AdoptionCanDouble()
    ensures var k := TaskInstanceKey("d", "t", 0, 1);
            var c := QueueTask(Initial(8, 3, 10), k, QueuedTask([], 1, None, None));
            var d := TryAdopt(c, [TaskInstance(k, Some("a"), 0)], Stored(map[]), ["a"]);
            d.base.queued.Has(k) && k in d.base.running
  {
    var k := TaskInstanceKey("d", "t", 0, 1);
    var c := QueueTask(Initial(8, 3, 10), k, QueuedTask([], 1, None, None));
    var ti := TaskInstance(k, Some("a"), 0);
    assert [ti][..0] == [];
    assert ById([ti]) == map["a" := ti];
    var answers := GetMany(Stored(map[]), {"a"});
    assert ById([ti]).Keys == {"a"};
    assert answers["a"] == (StatusPending, "");
    assert ["a"][1..] == [];
    var one := AdoptOne(c, ti, "a", StatusPending, "");
    assert AdoptAll(c, ["a"], answers, ById([ti])) == AdoptAll(one, [], answers, ById([ti])) == one;
    assert c.(raised := NoError) == c;
  }

  /** A sync can raise: the multiprocessing fetcher answers for one task, which is
      adopted, and later gets no answer for it. */
  lemma SyncCanRaise()
    ensures var k := TaskInstanceKey("d", "t", 0, 1);
            var pending := Polled(map["a" := (StatusPending, "")]);
            var c := Reached(8, 3, 10, [Adopting([TaskInstance(k, Some("a"), 0)], pending, ["a"])]);
            c.base.running == {k} && SyncStates(c, Polled(map[]), 0).raised.TypeError?
  {
    var k := TaskInstanceKey("d", "t", 0, 1);
    var start, ti := Initial(8, 3, 10), TaskInstance(k, Some("a"), 0);
    assert [ti][..0] == [];
    assert ById([ti]) == map["a" := ti];
    assert ById([ti]).Keys == {"a"};
    var pending := Polled(map["a" := (StatusPending, "")]);
    var answers := GetMany(pending, {"a"});
    assert answers["a"] == (StatusPending, "");
    var one := AdoptOne(start, ti, "a", StatusPending, "");
    assert ["a"][1..] == [];
    assert AdoptAll(start, ["a"], answers, ById([ti])) == AdoptAll(one, [], answers, ById([ti])) == one;
    var a := Adopting([ti], pending, ["a"]);
    assert Do(start, a) == one && [a][1..] == [];
    assert CeleryRun(start, [a]) == CeleryRun(one, []) == one;
    ReachedSound(8, 3, 10, [a], k);
    assert one.tasks.values == map[k := "a"];
    SyncRaisesExactly(one, Polled(map[]), 0);
  }
}
