/** The stalled-task scan and the chunked sending of CeleryExecutor
    (airflow/executors/celery_executor.py), against their plain counterparts. */
module CeleryScan {
  import opened Sequences
  import opened OrderedMaps
  import opened Executor
  import opened Celery
  import opened CeleryProofs

  // ---- The early-exit scan --------------------------------------------------

  /** Every key whose deadline has passed, in order: what a full pass would find. */
  ghost function Expired(order: seq<TaskInstanceKey>, deadlines: map<TaskInstanceKey, int>,
                         now: int): seq<TaskInstanceKey>
    requires forall k | k in order :: k in deadlines
  {
    if order == [] then []
    else (if deadlines[order[0]] <= now then [order[0]] else []) + Expired(order[1..], deadlines, now)
  }

  /** No expired deadline stands behind one that is still in the future. */
  ghost predicate ExpiredFirst(order: seq<TaskInstanceKey>, deadlines: map<TaskInstanceKey, int>, now: int)
    requires forall k | k in order :: k in deadlines
  {
    forall i, j :: 0 <= i < j < |order| && deadlines[order[j]] <= now ==> deadlines[order[i]] <= now
  }

  ghost function DeadlineAt(m: OrderedMap<TaskInstanceKey, int>, i: nat): int
    requires m.Valid() && i < |m.order|
  {
    assert m.order[i] in Elements(m.order);
    m.values[m.order[i]]
  }

  ghost predicate SortedByDeadline(m: OrderedMap<TaskInstanceKey, int>)
    requires m.Valid()
  {
    forall i, j :: 0 <= i < j < |m.order| ==> DeadlineAt(m, i) <= DeadlineAt(m, j)
  }

  lemma {:induction false} NothingExpired(order: seq<TaskInstanceKey>, deadlines: map<TaskInstanceKey, int>, now: int)
    requires forall k | k in order :: k in deadlines
    ensures Expired(order, deadlines, now) == [] <==> forall k | k in order :: deadlines[k] > now
  {
    if order != [] {
      assert order[0] in order && forall k | k in order :: k == order[0] || k in order[1..];
      NothingExpired(order[1..], deadlines, now);
    }
  }

  lemma ExpiredFirstTail(order: seq<TaskInstanceKey>, deadlines: map<TaskInstanceKey, int>, now: int)
    requires order != [] && forall k | k in order :: k in deadlines
    ensures deadlines[order[0]] <= now ==>
              (ExpiredFirst(order, deadlines, now) <==> ExpiredFirst(order[1..], deadlines, now))
    ensures deadlines[order[0]] > now ==>
              (ExpiredFirst(order, deadlines, now) <==> forall k | k in order[1..] :: deadlines[k] > now)
  {
    var rest := order[1..];
    assert forall i :: 0 <= i < |rest| ==> rest[i] == order[i + 1];
    if deadlines[order[0]] <= now {
      if ExpiredFirst(rest, deadlines, now) {
        forall i, j | 0 <= i < j < |order| && deadlines[order[j]] <= now ensures deadlines[order[i]] <= now {
          if i > 0 { assert rest[i - 1] == order[i] && rest[j - 1] == order[j]; }
        }
      }
    } else if ExpiredFirst(order, deadlines, now) {
      forall k | k in rest ensures deadlines[k] > now {
        var j :| 0 <= j < |rest| && rest[j] == k;
        assert order[j + 1] == k;
      }
    } else {
      var i, j :| 0 <= i < j < |order| && deadlines[order[j]] <= now && deadlines[order[i]] > now;
      assert rest[j - 1] == order[j] && order[j] in rest;
    }
  }

  /** The scan never selects an unexpired key, and it selects every expired one
      exactly if no expired deadline stands behind a future one. */
  lemma {:induction false} ScanFindsExpired(order: seq<TaskInstanceKey>, deadlines: map<TaskInstanceKey, int>, now: int)
    requires forall k | k in order :: k in deadlines
    ensures forall k | k in ScanStalled(order, deadlines, now) :: k in deadlines && deadlines[k] <= now
    ensures ScanStalled(order, deadlines, now) == Expired(order, deadlines, now)
            <==> ExpiredFirst(order, deadlines, now)
  {
    if order != [] {
      hide ExpiredFirst;
      assert order[0] in order;
      ExpiredFirstTail(order, deadlines, now);
      if deadlines[order[0]] > now {
        NothingExpired(order[1..], deadlines, now);
      } else {
        ScanFindsExpired(order[1..], deadlines, now);
      }
    }
  }

  /** What a full pass over the timeouts would find. */
  ghost function AllExpired(m: OrderedMap<TaskInstanceKey, int>, now: int): seq<TaskInstanceKey>
    requires m.Valid()
  {
    assert forall k | k in m.order :: k in Elements(m.order);
    Expired(m.order, m.values, now)
  }

  /** The scan is right at every moment exactly if the map is sorted by deadline. */
  lemma ScanAlwaysRightIffSorted(m: OrderedMap<TaskInstanceKey, int>)
    requires m.Valid()
    ensures SortedByDeadline(m) <==> forall now: int :: ScanStalled(m.order, m.values, now) == AllExpired(m, now)
  {
    assert forall k | k in m.order :: k in Elements(m.order);
    if SortedByDeadline(m) {
      forall now: int ensures ScanStalled(m.order, m.values, now) == AllExpired(m, now) {
        forall i, j | 0 <= i < j < |m.order| && m.values[m.order[j]] <= now ensures m.values[m.order[i]] <= now {
          assert DeadlineAt(m, i) <= DeadlineAt(m, j);
        }
        ScanFindsExpired(m.order, m.values, now);
      }
    } else {
      var i, j :| 0 <= i < j < |m.order| && DeadlineAt(m, i) > DeadlineAt(m, j);
      var now := DeadlineAt(m, j);
      ScanFindsExpired(m.order, m.values, now);
      assert ScanStalled(m.order, m.values, now) != AllExpired(m, now);
    }
  }

  /** Every removal (a finished task, a started one) keeps the map sorted. */
  lemma RemovalKeepsSorted(m: OrderedMap<TaskInstanceKey, int>, x: TaskInstanceKey)
    requires m.Valid() && SortedByDeadline(m)
    ensures m.Remove(x).Valid() && SortedByDeadline(m.Remove(x))
  {
    m.RemoveValid(x);
    var r := m.Remove(x);
    forall i, j | 0 <= i < j < |r.order| ensures DeadlineAt(r, i) <= DeadlineAt(r, j) {
      var p, q := MinusKeepsOrder(m.order, {x}, i, j);
      assert DeadlineAt(m, p) <= DeadlineAt(m, q);
    }
  }

  /** A deadline fits at place `i` between those around it. */
  ghost predicate FitsAt(m: OrderedMap<TaskInstanceKey, int>, i: nat, deadline: int)
    requires m.Valid() && i <= |m.order|
  {
    && (i > 0 ==> DeadlineAt(m, i - 1) <= deadline)
    && (i + 1 < |m.order| ==> deadline <= DeadlineAt(m, i + 1))
  }

  lemma DeadlinesAfterPut(m: OrderedMap<TaskInstanceKey, int>, x: TaskInstanceKey, deadline: int, i: nat)
    requires m.Valid() && i <= |m.order| && (if m.Has(x) then i < |m.order| && m.order[i] == x else i == |m.order|)
    ensures var r := m.Put(x, deadline);
            && r.Valid() && i < |r.order| && DeadlineAt(r, i) == deadline
            && |r.order| == (if m.Has(x) then |m.order| else |m.order| + 1)
            && forall j :: 0 <= j < |m.order| && j != i ==> DeadlineAt(r, j) == DeadlineAt(m, j)
  {
    m.PutValid(x, deadline);
    var r := m.Put(x, deadline);
    forall j | 0 <= j < |m.order| && j != i ensures DeadlineAt(r, j) == DeadlineAt(m, j) {
      assert m.order[j] in Elements(m.order);
      assert m.order[j] != x;
    }
  }

  /** Adopting a key keeps the map sorted exactly if its deadline fits at the place
      the key gets: its old place if it is there already, else the last. */
  lemma AdoptionKeepsSorted(m: OrderedMap<TaskInstanceKey, int>, x: TaskInstanceKey, deadline: int, i: nat)
    requires m.Valid() && SortedByDeadline(m)
    requires i <= |m.order| && (if m.Has(x) then i < |m.order| && m.order[i] == x else i == |m.order|)
    ensures m.Put(x, deadline).Valid()
    ensures SortedByDeadline(m.Put(x, deadline)) <==> FitsAt(m, i, deadline)
  {
    var r := m.Put(x, deadline);
    DeadlinesAfterPut(m, x, deadline, i);
    if FitsAt(m, i, deadline) {
      forall j, l | 0 <= j < l < |r.order| ensures DeadlineAt(r, j) <= DeadlineAt(r, l) {
        if l == i && j < i - 1 { assert DeadlineAt(m, j) <= DeadlineAt(m, i - 1); }
        if j == i && l > i + 1 { assert DeadlineAt(m, i + 1) <= DeadlineAt(m, l); }
        if j != i && l != i { assert DeadlineAt(m, j) <= DeadlineAt(m, l); }
      }
    } else if i > 0 && DeadlineAt(m, i - 1) > deadline {
      assert DeadlineAt(r, i - 1) > DeadlineAt(r, i);
    } else {
      assert DeadlineAt(r, i) > DeadlineAt(r, i + 1);
    }
  }

  const LATE := TaskInstance(TaskInstanceKey("d", "late", 0, 1), Some("a"), 100)
  const EARLY := TaskInstance(TaskInstanceKey("d", "early", 0, 1), Some("b"), 0)

  lemma BothKnown()
    ensures ById([LATE, EARLY]) == map["a" := LATE, "b" := EARLY]
  {
    assert [LATE, EARLY][..1] == [LATE] && [LATE][..0] == [];
    assert ById([LATE]) == map["a" := LATE];
  }

  lemma AdoptedInTurn(start: CeleryState)
    requires start == Initial(8, 3, 10)
    ensures var one := AdoptOne(start, LATE, "a", StatusPending, "");
            AdoptOne(one, EARLY, "b", StatusPending, "").timeouts
            == OrderedMap([LATE.key, EARLY.key], map[LATE.key := 110, EARLY.key := 10])
  {
    assert LATE.key.taskId[0] != EARLY.key.taskId[0];
    var one := AdoptOne(start, LATE, "a", StatusPending, "");
    assert one.timeouts == OrderedMap([LATE.key], map[LATE.key := 110]);
  }

  /** Adoption in the order the backend answers can break the order: the second
      instance adopted here is overdue, and the scan stops before it. */
  lemma AdoptionCanHideStalled()
    ensures var c := TryAdopt(Initial(8, 3, 10), [LATE, EARLY], Stored(map[]), ["a", "b"]);
            && c.timeouts.values == map[LATE.key := 110, EARLY.key := 10]
            && ScanStalled(c.timeouts.order, c.timeouts.values, 50) == []
  {
    hide ById;
    hide AdoptOne;
    BothKnown();
    var known := ById([LATE, EARLY]);
    var answers := GetMany(Stored(map[]), known.Keys);
    var start := Initial(8, 3, 10);
    AdoptedInTurn(start);
    var one := AdoptOne(start, LATE, "a", StatusPending, "");
    var two := AdoptOne(one, EARLY, "b", StatusPending, "");
    assert "a" in answers && "b" in answers;
    var order := ["a", "b"];
    assert order[1..] == ["b"] && ["b"][1..] == [];
    assert AdoptAll(start, order, answers, known) == AdoptAll(one, ["b"], answers, known);
    assert AdoptAll(one, ["b"], answers, known) == AdoptAll(two, [], answers, known) == two;
  }

  // ---- Chunked sending --------------------------------------------------------

  /** How many tasks each send process gets: the ceiling of the quotient, at least one. */
  function ChunkSize(count: nat, processes: nat): (size: nat)
    requires processes >= 1
    ensures size >= 1 && count <= size * processes
    ensures size > 1 ==> (size - 1) * processes < count
  {
    var ceiling := (count + processes - 1) / processes;
    CeilingIsTight(count, processes);
    if ceiling > 1 then ceiling else 1
  }

  lemma CeilingIsTight(count: nat, processes: nat)
    requires processes >= 1
    ensures var c := (count + processes - 1) / processes;
            c >= 0 && count <= c * processes && c * processes < count + processes
  {
    var c, r := (count + processes - 1) / processes, (count + processes - 1) % processes;
    assert count + processes - 1 == c * processes + r && 0 <= r < processes;
  }

  function Chunks<T>(s: seq<T>, size: nat): seq<seq<T>>
    requires size >= 1
    decreases |s|
  {
    if s == [] then [] else if |s| <= size then [s] else [s[..size]] + Chunks(s[size..], size)
  }

  function Flatten<T>(chunks: seq<seq<T>>): seq<T> {
    if chunks == [] then [] else chunks[0] + Flatten(chunks[1..])
  }

  lemma {:induction false} ChunksAreFew<T>(s: seq<T>, size: nat, processes: nat)
    requires size >= 1 && |s| <= size * processes
    ensures |Chunks(s, size)| <= processes && |Chunks(s, size)| <= |s|
    decreases |s|
  {
    if s != [] {
      if processes == 0 { assert false; }
      if |s| > size {
        assert |s[size..]| <= size * (processes - 1);
        ChunksAreFew(s[size..], size, processes - 1);
      }
    }
  }

  lemma {:induction false} ChunksAreExact<T>(s: seq<T>, size: nat)
    requires size >= 1
    ensures Flatten(Chunks(s, size)) == s
    ensures forall i :: 0 <= i < |Chunks(s, size)| ==> 1 <= |Chunks(s, size)[i]| <= size
    decreases |s|
  {
    if |s| > size {
      ChunksAreExact(s[size..], size);
      var rest := Chunks(s[size..], size);
      assert ([s[..size]] + rest)[1..] == rest;
      assert s == s[..size] + s[size..];
    } else if s != [] {
      assert [s][1..] == [];
    }
  }

  /** Chunking is exact: no more chunks than tasks or processes, none empty, and
      their concatenation is the list of tasks. */
  lemma ChunkingExact<T>(s: seq<T>, processes: nat)
    requires processes >= 1
    ensures var chunks := Chunks(s, ChunkSize(|s|, processes));
            && Flatten(chunks) == s
            && |chunks| <= processes && |chunks| <= |s|
            && forall i :: 0 <= i < |chunks| ==> chunks[i] != []
  {
    ChunksAreFew(s, ChunkSize(|s|, processes), processes);
    ChunksAreExact(s, ChunkSize(|s|, processes));
  }

  function SendEach(keys: seq<TaskInstanceKey>,
                    send: TaskInstanceKey -> SendOutcome): seq<(TaskInstanceKey, SendOutcome)> {
    seq(|keys|, i requires 0 <= i < |keys| => (keys[i], send(keys[i])))
  }

  /** `_send_tasks_to_celery`: one result per task, in order, whether the tasks
      are sent in this process or in chunks by a pool. */
  method SendTasks(keys: seq<TaskInstanceKey>, processes: nat, send: TaskInstanceKey -> SendOutcome)
    returns (results: seq<(TaskInstanceKey, SendOutcome)>)
    requires processes >= 1
    ensures results == SendEach(keys, send)
  {
    if |keys| == 1 || processes == 1 {
      return SendEach(keys, send);
    }
    var chunks := Chunks(keys, ChunkSize(|keys|, processes));
    ChunkingExact(keys, processes);
    results := [];
    ghost var done := [];
    for i := 0 to |chunks|
      invariant done + Flatten(chunks[i..]) == keys
      invariant results == SendEach(done, send)
    {
      done := done + chunks[i];
      results := results + SendEach(chunks[i], send);
      assert chunks[i..][1..] == chunks[i + 1..];
    }
    assert chunks[|chunks|..] == [];
    assert done == keys;
  }
}
