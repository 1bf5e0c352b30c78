/** What one callback does to the re-parse interval, over everything that can
    happen after it. */
module ManagerCallbacks {
  import opened Sequences
  import opened Manager
  import opened ManagerProofs

  ghost predicate WithoutCallbacks(actions: seq<ManagerAction>) {
    forall a | a in actions :: !a.Callback?
  }

  lemma {:induction false} NoCallbackIsUntimely(m: ManagerState, actions: seq<ManagerAction>, n: ManagerState, f: Path)
    requires Reaches(m, actions, n) && WithoutCallbacks(actions)
    ensures RequestsTimely(m, actions, f)
    decreases |actions|
  {
    hide Step;
    if actions != [] {
      assert actions[0] in actions && forall a | a in actions[1..] :: a in actions;
      NoCallbackIsUntimely(Step(m, actions[0]), actions[1..], n, f);
    }
  }

  // ---- A timely callback does no harm -----------------------------------------

  lemma TimelyDoesNoHarm(m: ManagerState, r: Request, actions: seq<ManagerAction>, n: ManagerState)
    requires Structured(m) && !m.crashed && (forall f :: Eligible(m, f)) && StartsLateEnough(m)
    requires Timely(m, r.path) && Reaches(AddCallback(m, r), actions, n) && WithoutCallbacks(actions)
    ensures StartsLateEnough(n)
  {
    hide Structured;
    hide Eligible;
    hide Timely;
    hide Reaches;
    var c := AddCallback(m, r);
    StepStructured(m, Callback(r));
    forall f ensures Eligible(c, f) && RequestsTimely(c, actions, f) {
      CallbackEligibleIff(m, r, f);
      NoCallbackIsUntimely(c, actions, n, f);
    }
    EveryStartLateEnough(c, actions, n);
  }

  /** Without any slot nothing ever starts. */
  lemma {:induction false} NoSlotsNoStarts(m: ManagerState, actions: seq<ManagerAction>, n: ManagerState)
    requires m.parallelism <= 0 && Reaches(m, actions, n)
    ensures n.starts == m.starts && n.interval == m.interval
    decreases |actions|
  {
    if actions != [] {
      var a := actions[0];
      StepKeepsSettings(m, a);
      if !a.Callback? { StepFrame(m, a); }
      NoSlotsNoStarts(Step(m, a), actions[1..], n);
    }
  }

  // ---- An untimely one starts its file too early --------------------------------

  lemma EarlyStart(m: ManagerState, f: Path)
    requires SlotFree(m) && m.queue[0] == f && f !in m.processors
    requires !LateEnough(m.interval, m.clock, LastFinish(m, f), SeenMtime(m, f))
    ensures !StartsLateEnough(StartNext(m, m.clock))
  {
    var n := StartNext(m, m.clock);
    var s := n.starts[|m.starts|];
    assert s in n.starts && !LateEnough(n.interval, s.time, s.lastFinish, s.mtime);
  }

  /** Collecting a registered processor frees its slot and touches no other file. */
  lemma FreesSlot(m: ManagerState, g: Path, now: int)
    requires Structured(m) && g in m.processors && m.parallelism >= 1
    ensures var n := Collect(m, m.processors[g].handle, now, None);
            && n.crashed == m.crashed && n.queue == m.queue && n.clock == now
            && n.processors == m.processors - {g} && n.parallelism - |n.processors| > 0
            && n.interval == m.interval && n.seenMtime == m.seenMtime
            && LastFinish(n, g) == Some(now) && forall f | f != g :: LastFinish(n, f) == LastFinish(m, f)
  {
    hide NoDup;
    var fewer := m.processors - {g};
    assert m.processors.Keys == fewer.Keys + {g};
    assert |m.processors.Keys| == |fewer.Keys| + 1;
  }

  lemma TwoSteps(m: ManagerState, a: ManagerAction, b: ManagerAction)
    requires Enabled(m, a) && Enabled(Step(m, a), b)
    ensures Reaches(m, [a, b], Step(Step(m, a), b))
  {
    hide Step;
    var n := Step(Step(m, a), b);
    assert [a, b][1..] == [b] && [b][1..] == [];
    assert Reaches(n, [], n);
    assert Reaches(Step(m, a), [b], n);
  }

  /** Makes room by collecting `g`, then starts the file in front. */
  lemma CollectThenStart(m: ManagerState, f: Path, g: Path, now: int)
    returns (actions: seq<ManagerAction>, n: ManagerState)
    requires Structured(m) && !m.crashed && g in m.processors && m.parallelism >= 1 && now >= m.clock
    requires m.queue != [] && m.queue[0] == f && (f in m.processors ==> f == g)
    requires !LateEnough(m.interval, now, if f == g then Some(now) else LastFinish(m, f), SeenMtime(m, f))
    ensures Reaches(m, actions, n) && WithoutCallbacks(actions) && !StartsLateEnough(n)
  {
    hide Collect;
    hide StartNext;
    hide Structured;
    var collect := Ready(m.processors[g].handle, now, None);
    FreesSlot(m, g, now);
    var o := Collect(m, m.processors[g].handle, now, None);
    EarlyStart(o, f);
    TwoSteps(m, collect, Start(now));
    actions, n := [collect, Start(now)], StartNext(o, now);
  }

  /** An untimely callback can be followed, with no further callback, by a start of
      its file that comes too early. */
  lemma UntimelyStartsEarly(m: ManagerState, r: Request) returns (actions: seq<ManagerAction>, n: ManagerState)
    requires Structured(m) && !m.crashed && m.parallelism >= 1 && !Timely(m, r.path)
    ensures Reaches(AddCallback(m, r), actions, n) && WithoutCallbacks(actions) && !StartsLateEnough(n)
  {
    hide Structured;
    var c, f := AddCallback(m, r), r.path;
    StepStructured(m, Callback(r));
    assert c.queue[0] == f;
    if f in m.processors {
      var now := if f in m.seenMtime && m.seenMtime[f] > m.clock then m.seenMtime[f] else m.clock;
      actions, n := CollectThenStart(c, f, f, now);
    } else if c.parallelism - |c.processors| > 0 {
      EarlyStart(c, f);
      actions, n := [Start(c.clock)], StartNext(c, c.clock);
      assert actions[1..] == [] && Reaches(n, [], n);
    } else {
      var g :| g in c.processors.Keys;
      actions, n := CollectThenStart(c, f, g, c.clock);
    }
  }

  /** A callback is harmless - whatever follows without further callbacks, every start
      comes late enough - exactly if it is timely or nothing can start at all. */
  lemma CallbackHarmlessIff(m: ManagerState, r: Request)
    requires Structured(m) && !m.crashed && (forall f :: Eligible(m, f)) && StartsLateEnough(m)
    ensures (forall actions, n ::
               Reaches(AddCallback(m, r), actions, n) && WithoutCallbacks(actions) ==> StartsLateEnough(n))
            <==> m.parallelism <= 0 || Timely(m, r.path)
  {
    hide Structured;
    hide Eligible;
    hide LateEnough;
    hide Reaches;
    hide WithoutCallbacks;
    if m.parallelism <= 0 {
      forall actions, n | Reaches(AddCallback(m, r), actions, n) ensures StartsLateEnough(n) {
        NoSlotsNoStarts(AddCallback(m, r), actions, n);
        assert StartsLateEnough(n);
      }
    } else if Timely(m, r.path) {
      forall actions, n | Reaches(AddCallback(m, r), actions, n) && WithoutCallbacks(actions)
        ensures StartsLateEnough(n)
      {
        TimelyDoesNoHarm(m, r, actions, n);
      }
    } else {
      var actions, n := UntimelyStartsEarly(m, r);
    }
  }
}
