/** The executor base class (airflow/executors/base_executor.py): a queue of
    accepted task instances, the set of running ones, and a buffer of events.
    The state is a value, so that the executors built on it can embed it; the
    class at the end updates the same fields in place. */
module Executor {
  import opened Sequences
  import opened OrderedMaps
  import opened StableSort

  datatype TaskInstanceKey =
    TaskInstanceKey(dagId: string, taskId: string, executionDate: int, tryNumber: int)

  type Command = seq<string>

  datatype QueuedTask =
    QueuedTask(command: Command, priority: int, queue: Option<string>, executorConfig: Option<string>)

  datatype TaskState = NoState | Queued | Running | Success | Failed

  datatype Event = Event(state: TaskState, info: string)

  datatype ExecutorState = ExecutorState(
    parallelism: int,
    queued: OrderedMap<TaskInstanceKey, QueuedTask>,
    running: set<TaskInstanceKey>,
    events: map<TaskInstanceKey, Event>)

  function Empty(parallelism: int): ExecutorState {
    ExecutorState(parallelism, OrderedMap([], map[]), {}, map[])
  }

  predicate Known(s: ExecutorState, k: TaskInstanceKey) {
    s.queued.Has(k) || k in s.running
  }

  /** A key already queued or running is refused. */
  function QueueCommand(s: ExecutorState, k: TaskInstanceKey, t: QueuedTask): ExecutorState {
    if Known(s, k) then s else s.(queued := s.queued.Put(k, t))
  }

  function ChangeState(s: ExecutorState, k: TaskInstanceKey, e: Event): ExecutorState {
    s.(running := s.running - {k}, events := s.events[k := e])
  }

  /** Which buffered events a flush returns; `None` asks for all of them. */
  function Flushed(s: ExecutorState, dagIds: Option<set<string>>): map<TaskInstanceKey, Event> {
    map k | k in s.events && (dagIds.None? || k.dagId in dagIds.value) :: s.events[k]
  }

  function Flush(s: ExecutorState, dagIds: Option<set<string>>): ExecutorState {
    s.(events := s.events - Flushed(s, dagIds).Keys)
  }

  /** `kept` and `taken` divide the bindings of `m` between them. */
  ghost predicate Splits<K, V>(m: map<K, V>, kept: map<K, V>, taken: map<K, V>) {
    && kept.Keys !! taken.Keys
    && m == kept + taken
  }

  lemma SplitMoves<K, V>(m: map<K, V>, kept: map<K, V>, taken: map<K, V>, k: K)
    requires Splits(m, kept, taken) && k in kept
    ensures Splits(m, kept - {k}, taken[k := kept[k]])
  {
    assert m == (kept - {k}) + taken[k := kept[k]];
  }

  lemma FlushIsSplit(s: ExecutorState, dagIds: Option<set<string>>,
                     kept: map<TaskInstanceKey, Event>, taken: map<TaskInstanceKey, Event>)
    requires Splits(s.events, kept, taken)
    requires forall k | k in kept :: dagIds.Some? && k.dagId !in dagIds.value
    requires forall k | k in taken :: dagIds.None? || k.dagId in dagIds.value
    ensures taken == Flushed(s, dagIds) && s.(events := kept) == Flush(s, dagIds)
  {
    assert taken == Flushed(s, dagIds);
    assert kept == s.events - taken.Keys;
  }

  // ---- Priority selection ---------------------------------------------------

  function Priority(q: OrderedMap<TaskInstanceKey, QueuedTask>, k: TaskInstanceKey): int {
    if q.Has(k) then q.values[k].priority else 0
  }

  /** Queued keys in insertion order, ranked so that a higher priority comes first. */
  function Ranks(q: OrderedMap<TaskInstanceKey, QueuedTask>): (r: seq<Ranked<TaskInstanceKey>>)
    ensures |r| == |q.order| && Items(r) == q.order
  {
    seq(|q.order|, i requires 0 <= i < |q.order| => Ranked(-Priority(q, q.order[i]), q.order[i]))
  }

  function ByPriority(q: OrderedMap<TaskInstanceKey, QueuedTask>): (r: seq<TaskInstanceKey>)
    ensures |r| == |q.order|
  {
    Items(Sort(Ranks(q)))
  }

  function Batch(slots: int, queued: nat): (n: nat)
    ensures n <= queued
  {
    if slots <= 0 then 0 else if slots < queued then slots else queued
  }

  /** The keys one trigger round takes, in the order it takes them. */
  function Selected(q: OrderedMap<TaskInstanceKey, QueuedTask>, slots: int): seq<TaskInstanceKey> {
    ByPriority(q)[..Batch(slots, |q.order|)]
  }

  function TriggerTasks(s: ExecutorState, slots: int): ExecutorState {
    var taken := Elements(Selected(s.queued, slots));
    s.(queued := s.queued.RemoveAll(taken), running := s.running + taken)
  }

  /** One iteration of the trigger loop. */
  function Take(s: ExecutorState, k: TaskInstanceKey): ExecutorState {
    s.(queued := s.queued.Remove(k), running := s.running + {k})
  }

  function TakeAll(s: ExecutorState, ks: seq<TaskInstanceKey>): ExecutorState
    decreases |ks|
  {
    if ks == [] then s else TakeAll(Take(s, ks[0]), ks[1..])
  }

  lemma {:induction false} TakeAllTogether(s: ExecutorState, ks: seq<TaskInstanceKey>)
    ensures TakeAll(s, ks)
            == s.(queued := s.queued.RemoveAll(Elements(ks)), running := s.running + Elements(ks))
    decreases |ks|
  {
    if ks == [] {
      MinusDisjoint(s.queued.order, {});
      assert s.queued.values - {} == s.queued.values;
      assert Elements(ks) == {};
    } else {
      TakeAllTogether(Take(s, ks[0]), ks[1..]);
      s.queued.RemoveThenAll(ks[0], Elements(ks[1..]));
      assert Elements(ks) == {ks[0]} + Elements(ks[1..]);
      assert s.running + {ks[0]} + Elements(ks[1..]) == s.running + Elements(ks);
    }
  }

  function OpenSlots(s: ExecutorState): int {
    if s.parallelism == 0 then |s.queued.order| else s.parallelism - |s.running|
  }

  lemma ByPriorityPermutes(q: OrderedMap<TaskInstanceKey, QueuedTask>)
    requires q.Valid()
    ensures NoDup(ByPriority(q)) && Elements(ByPriority(q)) == q.values.Keys
  {
    SortKeepsItems(Ranks(q));
    NoDupPermutes(ByPriority(q), q.order);
  }

  lemma SelectedDistinct(q: OrderedMap<TaskInstanceKey, QueuedTask>, slots: int)
    requires q.Valid()
    ensures NoDup(Selected(q, slots)) && Elements(Selected(q, slots)) <= q.values.Keys
    ensures |Elements(Selected(q, slots))| == |Selected(q, slots)| == Batch(slots, |q.order|)
  {
    ByPriorityPermutes(q);
    NoDupCardinality(Selected(q, slots));
  }

  /** A trigger round takes exactly the tasks whose place in the priority order,
      counting earlier insertions first among equals, is below the batch size;
      it takes them in that order and leaves the rest in insertion order. */
  lemma TriggerTakesBest(q: OrderedMap<TaskInstanceKey, QueuedTask>, slots: int, i: nat)
    requires q.Valid() && i < |q.order|
    ensures q.order[i] in Selected(q, slots) <==> Place(Ranks(q), i) < Batch(slots, |q.order|)
    ensures Place(Ranks(q), i) < |Selected(q, slots)| ==> Selected(q, slots)[Place(Ranks(q), i)] == q.order[i]
    ensures TriggerTasks(ExecutorState(0, q, {}, map[]), slots).queued.order
            == Minus(q.order, Elements(Selected(q, slots)))
  {
    var k, p := q.order[i], Place(Ranks(q), i);
    ByPriorityPermutes(q);
    SortPlaces(Ranks(q), i);
    assert Ranks(q)[i].item == k;
    assert ByPriority(q)[p] == k;
    if k in Selected(q, slots) {
      var m :| 0 <= m < |Selected(q, slots)| && Selected(q, slots)[m] == k;
      assert ByPriority(q)[m] == k;
      assert m == p;
    }
  }

  /** Priorities decide, insertion order breaks ties. */
  lemma HigherPriorityFirst(q: OrderedMap<TaskInstanceKey, QueuedTask>, i: nat, j: nat)
    requires q.Valid() && i < j < |q.order|
    ensures Place(Ranks(q), i) < Place(Ranks(q), j)
            <==> Priority(q, q.order[i]) >= Priority(q, q.order[j])
  {
    PlacesDiffer(Ranks(q), i, j);
  }

  // ---- Runs -----------------------------------------------------------------

  datatype Action =
    | DoQueue(key: TaskInstanceKey, task: QueuedTask)
    | DoHeartbeat
    | DoChange(key: TaskInstanceKey, event: Event)
    | DoFlush(dagIds: Option<set<string>>)

  function Apply(s: ExecutorState, a: Action): ExecutorState {
    match a
    case DoQueue(k, t) => QueueCommand(s, k, t)
    case DoHeartbeat => TriggerTasks(s, OpenSlots(s))
    case DoChange(k, e) => ChangeState(s, k, e)
    case DoFlush(dagIds) => Flush(s, dagIds)
  }

  function Run(s: ExecutorState, actions: seq<Action>): ExecutorState
    decreases |actions|
  {
    if actions == [] then s else Run(Apply(s, actions[0]), actions[1..])
  }

  ghost predicate Consistent(s: ExecutorState) {
    && s.queued.Valid()
    && s.queued.values.Keys !! s.running
  }

  /** A negative parallelism leaves no slot at all. */
  ghost predicate WithinParallelism(s: ExecutorState) {
    s.parallelism != 0 ==> |s.running| <= if s.parallelism < 0 then 0 else s.parallelism
  }

  lemma TriggerKeeps(s: ExecutorState, slots: int)
    requires Consistent(s)
    ensures Consistent(TriggerTasks(s, slots))
    ensures |TriggerTasks(s, slots).running| == |s.running| + Batch(slots, |s.queued.order|)
  {
    var taken := Elements(Selected(s.queued, slots));
    SelectedDistinct(s.queued, slots);
    s.queued.RemoveAllValid(taken);
    assert taken !! s.running;
  }

  lemma AllTaken(q: OrderedMap<TaskInstanceKey, QueuedTask>, slots: int)
    requires q.Valid() && slots >= |q.order|
    ensures q.RemoveAll(Elements(Selected(q, slots))).order == []
  {
    hide Selected;
    hide Minus;
    SelectedDistinct(q, slots);
    NoDupCardinality(q.order);
    SameSizeSame(Elements(Selected(q, slots)), q.values.Keys);
    assert forall x | x in q.order :: x in Elements(q.order);
    MinusAll(q.order, q.values.Keys);
  }

  /** A heartbeat leaves no task queued while a slot is open: with no limit it triggers all
      of them, otherwise until the parallelism is used up. */
  lemma HeartbeatFills(s: ExecutorState)
    requires Consistent(s)
    ensures var t := Apply(s, DoHeartbeat);
            && (s.parallelism == 0 ==> t.queued.order == [])
            && (s.parallelism != 0 ==> t.queued.order == [] || |t.running| >= s.parallelism)
  {
    hide Selected;
    hide OrderedMap.RemoveAll;
    TriggerKeeps(s, OpenSlots(s));
    if OpenSlots(s) >= |s.queued.order| {
      AllTaken(s.queued, OpenSlots(s));
    }
  }

  lemma SameSizeSame(a: set<TaskInstanceKey>, b: set<TaskInstanceKey>)
    requires a <= b && |a| >= |b|
    ensures a == b
  {
    assert b == a + (b - a);
    assert |b| == |a| + |b - a|;
  }

  /** A command is accepted exactly if its key is neither queued nor running; it then waits
      behind all others, with its own task. */
  lemma QueueingAccepts(s: ExecutorState, k: TaskInstanceKey, t: QueuedTask)
    ensures var n := Apply(s, DoQueue(k, t));
            if k in s.queued.values || k in s.running then n == s
            else && n.queued.order == s.queued.order + [k] && n.queued.values == s.queued.values[k := t]
                 && n.running == s.running && n.events == s.events
  {
  }

  lemma ApplyKeeps(s: ExecutorState, a: Action)
    requires Consistent(s) && WithinParallelism(s)
    ensures Consistent(Apply(s, a)) && WithinParallelism(Apply(s, a))
    ensures Apply(s, a).parallelism == s.parallelism
  {
    match a
    case DoQueue(k, t) =>
      s.queued.PutValid(k, t);
    case DoHeartbeat =>
      TriggerKeeps(s, OpenSlots(s));
    case DoChange(k, e) =>
      assert s.running == (s.running - {k}) + (s.running * {k});
    case DoFlush(_) =>
  }

  /** Over every run, no key is both queued and running, and a non-zero
      parallelism bounds the running set. */
  lemma {:induction false} RunStaysConsistent(s: ExecutorState, actions: seq<Action>)
    requires Consistent(s) && WithinParallelism(s)
    ensures Consistent(Run(s, actions)) && WithinParallelism(Run(s, actions))
    ensures Run(s, actions).parallelism == s.parallelism
    decreases |actions|
  {
    if actions != [] {
      ApplyKeeps(s, actions[0]);
      RunStaysConsistent(Apply(s, actions[0]), actions[1..]);
    }
  }

  // ---- The object -----------------------------------------------------------

  const MAX_SIZE := 0x7fff_ffff_ffff_ffff

  /** The calls made are for these keys, in this order, each with its own task. */
  ghost predicate SentAre(sent: seq<(TaskInstanceKey, QueuedTask)>, keys: seq<TaskInstanceKey>,
                          tasks: map<TaskInstanceKey, QueuedTask>) {
    && |sent| == |keys|
    && forall i :: 0 <= i < |sent| ==> keys[i] in tasks && sent[i] == (keys[i], tasks[keys[i]])
  }

  /** What every operation keeps. */
  ghost predicate Sane(s: ExecutorState) {
    Consistent(s) && WithinParallelism(s)
  }

  lemma KeepsSane(s: ExecutorState, a: Action)
    ensures Sane(s) ==> Sane(Apply(s, a))
  {
    if Sane(s) { ApplyKeeps(s, a); }
  }

  class BaseExecutor {
    const parallelism: int
    var queued: OrderedMap<TaskInstanceKey, QueuedTask>
    var running: set<TaskInstanceKey>
    var events: map<TaskInstanceKey, Event>

    ghost function Snapshot(): ExecutorState
      reads this
    {
      ExecutorState(parallelism, queued, running, events)
    }

    constructor (parallelism: int)
      ensures Snapshot() == Empty(parallelism) && Consistent(Snapshot()) && WithinParallelism(Snapshot())
    {
      this.parallelism := parallelism;
      queued, running, events := OrderedMap([], map[]), {}, map[];
    }

    method AcceptCommand(k: TaskInstanceKey, t: QueuedTask)
      modifies this
      ensures Snapshot() == QueueCommand(old(Snapshot()), k, t)
      ensures Sane(old(Snapshot())) ==> Sane(Snapshot())
    {
      hide Sane;
      KeepsSane(Snapshot(), DoQueue(k, t));
      if k !in queued.values && k !in running {
        queued := queued.Put(k, t);
      }
    }

    method SetState(k: TaskInstanceKey, e: Event)
      modifies this
      ensures Snapshot() == ChangeState(old(Snapshot()), k, e)
      ensures Sane(old(Snapshot())) ==> Sane(Snapshot())
    {
      hide Sane;
      KeepsSane(Snapshot(), DoChange(k, e));
      running := running - {k};
      events := events[k := e];
    }

    /** Hands tasks to `execute_async`; `sent` records those calls in order. */
    method Trigger(slots: int) returns (sent: seq<(TaskInstanceKey, QueuedTask)>)
      requires Consistent(Snapshot())
      modifies this
      ensures Snapshot() == TriggerTasks(old(Snapshot()), slots)
      ensures SentAre(sent, Selected(old(queued), slots), old(queued).values)
    {
      hide Selected;
      hide SentAre;
      hide OrderedMap.RemoveAll;
      SelectedDistinct(queued, slots);
      var chosen := Selected(queued, slots);
      TakeAllTogether(Snapshot(), chosen);
      sent := SendAll(chosen);
    }

    method SendAll(chosen: seq<TaskInstanceKey>) returns (sent: seq<(TaskInstanceKey, QueuedTask)>)
      requires NoDup(chosen) && forall k | k in chosen :: k in queued.values
      modifies this
      ensures Snapshot() == TakeAll(old(Snapshot()), chosen)
      ensures SentAre(sent, chosen, old(queued).values)
    {
      hide Minus;
      ghost var goal := TakeAll(Snapshot(), chosen);
      sent := [];
      for i := 0 to |chosen|
        invariant SentAre(sent, chosen[..i], old(queued).values)
        invariant TakeAll(Snapshot(), chosen[i..]) == goal
        invariant forall j :: i <= j < |chosen| ==>
                    chosen[j] in queued.values && queued.values[chosen[j]] == old(queued).values[chosen[j]]
      {
        var key := chosen[i];
        sent := sent + [(key, queued.values[key])];
        queued := queued.Remove(key);  // an unguarded pop: the key is there
        running := running + {key};
        assert chosen[i..][1..] == chosen[i + 1..];
      }
      assert chosen[..|chosen|] == chosen;
    }

    method Heartbeat() returns (sent: seq<(TaskInstanceKey, QueuedTask)>)
      requires Consistent(Snapshot())
      modifies this
      ensures Snapshot() == Apply(old(Snapshot()), DoHeartbeat)
      ensures Sane(old(Snapshot())) ==> Sane(Snapshot())
      ensures SentAre(sent, Selected(old(queued), OpenSlots(old(Snapshot()))), old(queued).values)
    {
      hide TriggerTasks;
      hide Selected;
      hide SentAre;
      hide Sane;
      KeepsSane(Snapshot(), DoHeartbeat);
      var openSlots := if parallelism == 0 then |queued.order| else parallelism - |running|;
      sent := Trigger(openSlots);
    }

    /** The per-dag flush: a loop over a copy of the buffered keys. */
    method ClearEvents(dagIds: set<string>) returns (cleared: map<TaskInstanceKey, Event>)
      modifies `events
      ensures Splits(old(events), events, cleared)
      ensures forall k | k in events :: k.dagId !in dagIds
      ensures forall k | k in cleared :: k.dagId in dagIds
    {
      ghost var was := events;
      cleared := map[];
      assert Splits(was, events, cleared);
      var todo := events.Keys;
      while todo != {}
        invariant Splits(was, events, cleared)
        invariant forall k | k in todo :: k in events
        invariant forall k | k in events :: k in todo || k.dagId !in dagIds
        invariant forall k | k in cleared :: k.dagId in dagIds
        decreases |todo|
      {
        var key :| key in todo;
        todo := todo - {key};
        if key.dagId in dagIds {
          SplitMoves(was, events, cleared, key);
          cleared := cleared[key := events[key]];
          events := events - {key};
        }
      }
    }

    method GetEventBuffer(dagIds: Option<set<string>>) returns (cleared: map<TaskInstanceKey, Event>)
      modifies `events
      ensures cleared == Flushed(old(Snapshot()), dagIds)
      ensures Snapshot() == Flush(old(Snapshot()), dagIds)
    {
      if dagIds.None? {
        cleared := events;
        events := map[];
      } else {
        cleared := ClearEvents(dagIds.value);
      }
      FlushIsSplit(old(Snapshot()), dagIds, events, cleared);
    }

    method SlotsAvailable() returns (n: int)
      ensures parallelism != 0 ==> n + |running| + |queued.order| == parallelism
      ensures parallelism == 0 ==> n == MAX_SIZE
    {
      n := if parallelism != 0 then parallelism - |running| - |queued.order| else MAX_SIZE;
    }
  }
}
