/** The schedule loop of `DagFileProcessor.manage_slas`
    (airflow/dag_processing/processor.py): which scheduled dates after a task's
    last success are recorded as SLA misses at a given moment. */
module SlaCheck {
  import opened Sequences

  /** `following_schedule`: the next date of the dag's timetable, if there is one. */
  type Schedule = int -> Option<int>

  ghost predicate Increasing(next: Schedule) {
    forall d: int :: next(d).Some? ==> next(d).value > d
  }

  /** What the loop yields: the dates recorded, and whether a missing date raised
      TypeError on the way. */
  datatype Checked = Checked(misses: seq<int>, raised: bool)

  /** The loop from `date` on. */
  function CheckFrom(next: Schedule, date: Option<int>, sla: int, ts: int): Checked
    requires Increasing(next)
    decreases if date.Some? && date.value < ts then ts - date.value else 0, date.Some?
  {
    if date.None? then Checked([], true)
    else if date.value >= ts then Checked([], false)
    else
      var following := next(date.value);
      if following.None? then Checked([], true)
      else
        var rest := CheckFrom(next, following, sla, ts);
        Checked((if following.value + sla < ts then [date.value] else []) + rest.misses, rest.raised)
  }

  // ---- What is recorded -------------------------------------------------------

  /** The `n`-th scheduled date after `date`. */
  ghost function Nth(next: Schedule, date: Option<int>, n: nat): Option<int>
    decreases n
  {
    if n == 0 || date.None? then date else Nth(next, next(date.value), n - 1)
  }

  /** Date `n` of the remaining schedule is due at `ts` and its SLA has passed. */
  ghost predicate Missed(next: Schedule, date: Option<int>, n: nat, sla: int, ts: int) {
    var d, e := Nth(next, date, n), Nth(next, date, n + 1);
    d.Some? && e.Some? && d.value < ts && e.value + sla < ts
  }

  lemma {:induction false} NthIncreases(next: Schedule, date: Option<int>, n: nat)
    requires Increasing(next) && date.Some? && Nth(next, date, n).Some?
    ensures Nth(next, date, n).value >= date.value + n
    decreases n
  {
    if n > 0 {
      NthIncreases(next, next(date.value), n - 1);
    }
  }

  lemma {:induction false} NthStep(next: Schedule, date: Option<int>, n: nat)
    requires date.Some?
    ensures Nth(next, date, n + 1) == if Nth(next, date, n).Some? then next(Nth(next, date, n).value) else None
    decreases n
  {
    if n == 0 {
      assert Nth(next, next(date.value), 0) == next(date.value);
    } else if next(date.value).Some? {
      NthStep(next, next(date.value), n - 1);
    } else {
      assert Nth(next, None, n) == None && Nth(next, None, n - 1) == None;
    }
  }

  /** Misses form a prefix of the schedule: an earlier date is missed if a later one is. */
  lemma MissedIsPrefix(next: Schedule, date: Option<int>, m: nat, n: nat, sla: int, ts: int)
    requires Increasing(next) && date.Some? && m <= n && Missed(next, date, n, sla, ts)
    ensures Missed(next, date, m, sla, ts)
    decreases n - m
  {
    if m < n {
      NthStep(next, date, n - 1);
      NthStep(next, date, n);
      assert Nth(next, date, n - 1).Some?;
      MissedIsPrefix(next, date, m, n - 1, sla, ts);
    }
  }

  /** The loop records exactly the dates whose SLA was missed, as the first dates
      of the remaining schedule, in order. */
  lemma {:induction false} CheckRecordsMisses(next: Schedule, date: Option<int>, sla: int, ts: int, n: nat)
    requires Increasing(next) && date.Some?
    ensures var misses := CheckFrom(next, date, sla, ts).misses;
            && (n < |misses| <==> Missed(next, date, n, sla, ts))
            && (n < |misses| ==> Nth(next, date, n) == Some(misses[n]))
    decreases if date.value < ts then ts - date.value else 0
  {
    var following := next(date.value);
    if date.value >= ts {
      if Missed(next, date, n, sla, ts) {
        NthIncreases(next, date, n);
        assert false;
      }
    } else if following.Some? {
      var late := following.value + sla < ts;
      var rest := CheckFrom(next, following, sla, ts).misses;
      assert Nth(next, following, 0) == following;
      if late {
        if n > 0 { CheckRecordsMisses(next, following, sla, ts, n - 1); }
      } else {
        CheckRecordsMisses(next, following, sla, ts, 0);
        FollowingOnTime(next, following, sla, ts);
        if Missed(next, date, n, sla, ts) {
          MissedIsPrefix(next, date, 0, n, sla, ts);
          assert false;
        }
      }
    } else {
      assert Nth(next, None, n) == None;
    }
  }

  lemma FollowingOnTime(next: Schedule, date: Option<int>, sla: int, ts: int)
    requires Increasing(next) && date.Some? && date.value + sla >= ts
    ensures !Missed(next, date, 0, sla, ts)
  {
    assert Nth(next, date, 1) == Nth(next, next(date.value), 0);
  }

  /** The schedule ends at date `n` although that date is before `ts`. */
  ghost predicate RunsOut(next: Schedule, date: Option<int>, n: nat, ts: int) {
    var d := Nth(next, date, n);
    d.Some? && d.value < ts && Nth(next, date, n + 1).None?
  }

  /** The loop raises exactly if the schedule ends before `ts`. */
  lemma {:induction false} CheckRaisesIff(next: Schedule, date: Option<int>, sla: int, ts: int)
    requires Increasing(next) && date.Some?
    ensures CheckFrom(next, date, sla, ts).raised <==> exists n: nat :: RunsOut(next, date, n, ts)
    decreases if date.value < ts then ts - date.value else 0
  {
    var following := next(date.value);
    if date.value >= ts {
      forall n: nat | RunsOut(next, date, n, ts) ensures false { NthIncreases(next, date, n); }
    } else if following.None? {
      assert Nth(next, date, 1) == Nth(next, None, 0);
      assert RunsOut(next, date, 0, ts);
    } else {
      CheckRaisesIff(next, following, sla, ts);
      if n: nat :| RunsOut(next, following, n, ts) {
        assert RunsOut(next, date, n + 1, ts);
      }
      forall n: nat | RunsOut(next, date, n, ts) ensures n > 0 && RunsOut(next, following, n - 1, ts) {
        assert Nth(next, date, 1) == Nth(next, following, 0) == following;
      }
    }
  }

  /** A later check finds the earlier misses first, then possibly more. */
  lemma MissesGrow(next: Schedule, date: Option<int>, sla: int, ts1: int, ts2: int)
    requires Increasing(next) && date.Some? && ts1 <= ts2
    ensures CheckFrom(next, date, sla, ts1).misses <= CheckFrom(next, date, sla, ts2).misses
  {
    var first, second := CheckFrom(next, date, sla, ts1).misses, CheckFrom(next, date, sla, ts2).misses;
    forall n: nat | n < |first| ensures n < |second| && first[n] == second[n] {
      CheckRecordsMisses(next, date, sla, ts1, n);
      CheckRecordsMisses(next, date, sla, ts2, n);
    }
    CheckRecordsMisses(next, date, sla, ts1, |second|);
    CheckRecordsMisses(next, date, sla, ts2, |second|);
  }

  // ---- All the tasks of a dag -----------------------------------------------------

  /** A task's SLA: absent, a number of seconds, or not a timedelta at all. */
  datatype Sla = NoSla | Within(seconds: int) | WrongType

  /** The latest successful instance of a task. */
  datatype LastRun = LastRun(taskId: string, date: int, sla: Sla)

  /** The SlaMiss table: key to the timestamp of the check that wrote it last. */
  type Table = map<(string, int), int>

  /** A zero timedelta counts as no SLA. */
  predicate Skips(r: LastRun) {
    r.sla.NoSla? || r.sla == Within(0)
  }

  function CheckTask(next: Schedule, r: LastRun, ts: int): Checked
    requires Increasing(next)
  {
    if Skips(r) then Checked([], false)
    else if r.sla.WrongType? then Checked([], true)
    else CheckFrom(next, next(r.date), r.sla.seconds, ts)
  }

  function KeysOf(taskId: string, dates: seq<int>): set<(string, int)> {
    set d | d in dates :: (taskId, d)
  }

  /** The keys one check writes, up to the first task that raises. */
  function Written(next: Schedule, runs: seq<LastRun>, ts: int): set<(string, int)>
    requires Increasing(next)
  {
    if runs == [] then {}
    else
      var c := CheckTask(next, runs[0], ts);
      KeysOf(runs[0].taskId, c.misses) + if c.raised then {} else Written(next, runs[1..], ts)
  }

  predicate Raises(next: Schedule, runs: seq<LastRun>, ts: int)
    requires Increasing(next)
  {
    exists i :: 0 <= i < |runs| && CheckTask(next, runs[i], ts).raised
  }

  function Stamp(keys: set<(string, int)>, ts: int): Table {
    map k | k in keys :: ts
  }

  lemma TaskGrows(next: Schedule, r: LastRun, ts1: int, ts2: int)
    requires Increasing(next) && ts1 <= ts2
    ensures forall d | d in CheckTask(next, r, ts1).misses :: d in CheckTask(next, r, ts2).misses
  {
    var date := next(r.date);
    if r.sla.Within? && !Skips(r) && date.Some? {
      MissesGrow(next, date, r.sla.seconds, ts1, ts2);
    }
  }

  /** The check at `ts` gets as far as task `i`: no earlier one raises. */
  predicate GetsTo(next: Schedule, runs: seq<LastRun>, i: nat, ts: int)
    requires Increasing(next) && i < |runs|
  {
    forall j :: 0 <= j < i ==> !CheckTask(next, runs[j], ts).raised
  }

  /** Task `i` is reached at `ts` and missed date `d` by then. */
  ghost predicate Writes(next: Schedule, runs: seq<LastRun>, i: nat, d: int, ts: int)
    requires Increasing(next)
  {
    i < |runs| && GetsTo(next, runs, i, ts) && d in CheckTask(next, runs[i], ts).misses
  }

  lemma WritesTail(next: Schedule, runs: seq<LastRun>, i: nat, d: int, ts: int)
    requires Increasing(next) && runs != [] && !CheckTask(next, runs[0], ts).raised
    ensures Writes(next, runs[1..], i, d, ts) <==> Writes(next, runs, i + 1, d, ts)
  {
    hide CheckTask;
    var rest := runs[1..];
    assert forall j :: 0 <= j < |rest| ==> rest[j] == runs[j + 1];
    if i < |rest| && GetsTo(next, rest, i, ts) {
      forall j | 0 <= j < i + 1 ensures !CheckTask(next, runs[j], ts).raised {
        if j > 0 { assert rest[j - 1] == runs[j]; }
      }
    }
    if i < |rest| && GetsTo(next, runs, i + 1, ts) {
      forall j | 0 <= j < i ensures !CheckTask(next, rest[j], ts).raised {
        assert rest[j] == runs[j + 1];
      }
    }
  }

  /** A key is written exactly if the check gets to a task that missed the date. */
  lemma {:induction false} WrittenExactly(next: Schedule, runs: seq<LastRun>, ts: int, id: string, d: int)
    requires Increasing(next)
    ensures (id, d) in Written(next, runs, ts)
            <==> exists i: nat :: i < |runs| && runs[i].taskId == id && Writes(next, runs, i, d, ts)
  {
    hide CheckTask;
    if runs != [] {
      var first, rest := CheckTask(next, runs[0], ts), runs[1..];
      assert Writes(next, runs, 0, d, ts) <==> d in first.misses;
      WrittenExactly(next, rest, ts, id, d);
      forall i: nat | !first.raised && i < |rest|
        ensures Writes(next, rest, i, d, ts) <==> Writes(next, runs, i + 1, d, ts)
        ensures rest[i] == runs[i + 1]
      {
        WritesTail(next, runs, i, d, ts);
      }
      if (id, d) in Written(next, rest, ts) && !first.raised {
        var i: nat :| i < |rest| && rest[i].taskId == id && Writes(next, rest, i, d, ts);
        assert Writes(next, runs, i + 1, d, ts) && runs[i + 1].taskId == id;
      }
      if i: nat :| i < |runs| && runs[i].taskId == id && Writes(next, runs, i, d, ts) {
        if i > 0 {
          assert !CheckTask(next, runs[0], ts).raised;
          assert rest[i - 1].taskId == id && Writes(next, rest, i - 1, d, ts);
        }
      }
    }
  }

  /** What is recorded for one task, by its SLA: nothing without one or with one of zero;
      an exception for one of the wrong type; and otherwise exactly the dates of the
      schedule after its last success that were missed, counted from the first. */
  lemma TaskRecords(next: Schedule, r: LastRun, ts: int, d: int)
    requires Increasing(next)
    ensures r.sla.NoSla? || r.sla == Within(0) ==> CheckTask(next, r, ts) == Checked([], false)
    ensures r.sla.WrongType? ==> CheckTask(next, r, ts) == Checked([], true)
    ensures r.sla.Within? && r.sla.seconds != 0 && next(r.date).None? ==> CheckTask(next, r, ts) == Checked([], true)
    ensures r.sla.Within? && r.sla.seconds != 0 && next(r.date).Some? ==>
              (d in CheckTask(next, r, ts).misses
               <==> exists n: nat :: Nth(next, next(r.date), n) == Some(d)
                                     && Missed(next, next(r.date), n, r.sla.seconds, ts))
  {
    var date := next(r.date);
    if r.sla.Within? && r.sla.seconds != 0 && date.Some? {
      var misses := CheckTask(next, r, ts).misses;
      if d in misses {
        var n :| 0 <= n < |misses| && misses[n] == d;
        CheckRecordsMisses(next, date, r.sla.seconds, ts, n);
      }
      if n: nat :| Nth(next, date, n) == Some(d) && Missed(next, date, n, r.sla.seconds, ts) {
        CheckRecordsMisses(next, date, r.sla.seconds, ts, n);
      }
    }
  }

  /** Every task with misses that the check at `ts1` gets to, the one at `ts2` gets to. */
  ghost predicate GetsAsFar(next: Schedule, runs: seq<LastRun>, ts1: int, ts2: int)
    requires Increasing(next)
  {
    forall i: nat | i < |runs| && GetsTo(next, runs, i, ts1) && CheckTask(next, runs[i], ts1).misses != [] ::
      GetsTo(next, runs, i, ts2)
  }

  ghost predicate DistinctIds(runs: seq<LastRun>) {
    forall i, j :: 0 <= i < j < |runs| ==> runs[i].taskId != runs[j].taskId
  }

  /** A later check writes all that an earlier one wrote if it gets as far, and for
      distinct tasks only then. */
  lemma WrittenGrows(next: Schedule, runs: seq<LastRun>, ts1: int, ts2: int)
    requires Increasing(next) && ts1 <= ts2
    ensures GetsAsFar(next, runs, ts1, ts2) ==> Written(next, runs, ts1) <= Written(next, runs, ts2)
    ensures DistinctIds(runs) && Written(next, runs, ts1) <= Written(next, runs, ts2)
            ==> GetsAsFar(next, runs, ts1, ts2)
  {
    hide CheckTask;
    hide Written;
    if GetsAsFar(next, runs, ts1, ts2) {
      forall key | key in Written(next, runs, ts1) ensures key in Written(next, runs, ts2) {
        WrittenExactly(next, runs, ts1, key.0, key.1);
        var i: nat :| i < |runs| && runs[i].taskId == key.0 && Writes(next, runs, i, key.1, ts1);
        TaskGrows(next, runs[i], ts1, ts2);
        assert Writes(next, runs, i, key.1, ts2);
        WrittenExactly(next, runs, ts2, key.0, key.1);
      }
    }
    if DistinctIds(runs) && Written(next, runs, ts1) <= Written(next, runs, ts2) {
      forall i: nat | i < |runs| && GetsTo(next, runs, i, ts1) && CheckTask(next, runs[i], ts1).misses != []
        ensures GetsTo(next, runs, i, ts2)
      {
        var id, d := runs[i].taskId, CheckTask(next, runs[i], ts1).misses[0];
        assert Writes(next, runs, i, d, ts1);
        WrittenExactly(next, runs, ts1, id, d);
        WrittenExactly(next, runs, ts2, id, d);
      }
    }
  }

  /** In particular if every task that raises later raises at the earlier check too:
      one whose SLA has the wrong type, or whose schedule had ended by then. */
  lemma RaisingAlikeGetsAsFar(next: Schedule, runs: seq<LastRun>, ts1: int, ts2: int)
    requires Increasing(next)
    requires forall r | r in runs && CheckTask(next, r, ts2).raised :: CheckTask(next, r, ts1).raised
    ensures GetsAsFar(next, runs, ts1, ts2)
  {
    hide CheckTask;
    forall i: nat | i < |runs| && GetsTo(next, runs, i, ts1) ensures GetsTo(next, runs, i, ts2) {
      forall j | 0 <= j < i ensures !CheckTask(next, runs[j], ts2).raised {
        assert runs[j] in runs && !CheckTask(next, runs[j], ts1).raised;
      }
    }
  }

  /** Checking at one moment and again later leaves the table as the later check
      alone would have, if it gets as far; for distinct tasks and an empty table,
      only then. */
  lemma CheckTwiceIsCheckOnce(next: Schedule, runs: seq<LastRun>, ts1: int, ts2: int, table: Table)
    requires Increasing(next) && ts1 <= ts2
    ensures GetsAsFar(next, runs, ts1, ts2) ==>
              table + Stamp(Written(next, runs, ts1), ts1) + Stamp(Written(next, runs, ts2), ts2)
              == table + Stamp(Written(next, runs, ts2), ts2)
    ensures DistinctIds(runs) && table == map[]
            && table + Stamp(Written(next, runs, ts1), ts1) + Stamp(Written(next, runs, ts2), ts2)
               == table + Stamp(Written(next, runs, ts2), ts2)
            ==> GetsAsFar(next, runs, ts1, ts2)
  {
    WrittenGrows(next, runs, ts1, ts2);
    StampedTwice(table, Written(next, runs, ts1), Written(next, runs, ts2), ts1, ts2);
  }

  lemma StampedTwice(table: Table, first: set<(string, int)>, second: set<(string, int)>, ts1: int, ts2: int)
    ensures first <= second ==> table + Stamp(first, ts1) + Stamp(second, ts2) == table + Stamp(second, ts2)
    ensures table == map[] && table + Stamp(first, ts1) + Stamp(second, ts2) == table + Stamp(second, ts2)
            ==> first <= second
  {
    if table == map[] && table + Stamp(first, ts1) + Stamp(second, ts2) == table + Stamp(second, ts2) {
      forall k | k in first ensures k in second {
        assert k in table + Stamp(first, ts1) + Stamp(second, ts2);
      }
    }
  }

  // ---- The timetables there are ------------------------------------------------

  /** `schedule_interval` None, `@once`, or a cron expression or time delta, whose
      schedule goes from each date to the next. */
  datatype Timetable = NullTimetable | OnceTimetable | IntervalTimetable(step: int -> int)

  /** `DAG.following_schedule`: asked about a given date and with no last date, the
      first two never have a next date and the third always has. */
  function Following(t: Timetable): Schedule {
    match t
    case IntervalTimetable(step) => (d: int) => Some(step(d))
    case _ => (_: int) => None
  }

  lemma {:induction false} AlwaysOnNeverRaises(next: Schedule, date: Option<int>, sla: int, ts: int)
    requires Increasing(next) && (forall d: int :: next(d).Some?) && date.Some?
    ensures !CheckFrom(next, date, sla, ts).raised
    decreases if date.value < ts then ts - date.value else 0
  {
    if date.value < ts {
      AlwaysOnNeverRaises(next, next(date.value), sla, ts);
    }
  }

  /** A task raises now exactly if it raises at any other moment. */
  lemma RaisesAlways(t: Timetable, r: LastRun, ts1: int, ts2: int)
    requires Increasing(Following(t))
    ensures CheckTask(Following(t), r, ts1).raised == CheckTask(Following(t), r, ts2).raised
  {
    var next := Following(t);
    if t.IntervalTimetable? && r.sla.Within? {
      AlwaysOnNeverRaises(next, next(r.date), r.sla.seconds, ts1);
      AlwaysOnNeverRaises(next, next(r.date), r.sla.seconds, ts2);
    }
  }

  /** With every timetable there is, checking at one moment and again later leaves the
      table as the later check alone would have. */
  lemma TimetablesCheckOnce(t: Timetable, runs: seq<LastRun>, ts1: int, ts2: int, table: Table)
    requires Increasing(Following(t)) && ts1 <= ts2
    ensures table + Stamp(Written(Following(t), runs, ts1), ts1) + Stamp(Written(Following(t), runs, ts2), ts2)
            == table + Stamp(Written(Following(t), runs, ts2), ts2)
  {
    hide CheckTask;
    hide Written;
    forall r | r in runs ensures CheckTask(Following(t), r, ts1).raised == CheckTask(Following(t), r, ts2).raised {
      RaisesAlways(t, r, ts1, ts2);
    }
    RaisingAlikeGetsAsFar(Following(t), runs, ts1, ts2);
    CheckTwiceIsCheckOnce(Following(t), runs, ts1, ts2, table);
  }

  // ---- When the loop ends ------------------------------------------------------

  /** The loop variable after `n` turns, or where the loop ended before that. */
  ghost function AfterTurns(next: Schedule, date: Option<int>, ts: int, n: nat): Option<int>
    decreases n
  {
    if n == 0 || date.None? || date.value >= ts then date else AfterTurns(next, next(date.value), ts, n - 1)
  }

  ghost predicate EndsWithin(next: Schedule, date: Option<int>, ts: int, n: nat) {
    var d := AfterTurns(next, date, ts, n);
    d.None? || d.value >= ts
  }

  /** Every increasing schedule ends the loop. */
  lemma {:induction false} IncreasingEnds(next: Schedule, date: Option<int>, ts: int, n: nat)
    requires Increasing(next) && (date.Some? ==> n >= ts - date.value)
    ensures EndsWithin(next, date, ts, n)
    decreases n
  {
    if n > 0 && date.Some? && date.value < ts {
      IncreasingEnds(next, next(date.value), ts, n - 1);
    }
  }

  function EveryDelta(delta: int): Schedule {
    Following(IntervalTimetable((d: int) => d + delta))
  }

  lemma {:induction false} StandsStill(delta: int, date: int, ts: int, n: nat)
    requires delta <= 0 && date < ts
    ensures !EndsWithin(EveryDelta(delta), Some(date), ts, n)
    decreases n
  {
    if n > 0 {
      StandsStill(delta, date + delta, ts, n - 1);
    }
  }

  /** A time delta is not checked for being positive: the loop ends exactly if it is,
      or if there is nothing to do. */
  lemma DeltaEndsIff(delta: int, date: int, ts: int)
    ensures (exists n: nat :: EndsWithin(EveryDelta(delta), Some(date), ts, n)) <==> delta > 0 || date >= ts
  {
    if date >= ts {
      assert EndsWithin(EveryDelta(delta), Some(date), ts, 0);
    } else if delta > 0 {
      IncreasingEnds(EveryDelta(delta), Some(date), ts, ts - date);
    } else {
      forall n: nat ensures !EndsWithin(EveryDelta(delta), Some(date), ts, n) { StandsStill(delta, date, ts, n); }
    }
  }

  // ---- A schedule that ends between two checks, which no timetable here does ---------

  function EndsAtFive(): Schedule {
    (d: int) => if d < 5 then Some(d + 1) else None
  }

  const ENDING := LastRun("a", 3, Within(1))
  const LATER := LastRun("b", 1, Within(1))

  /** The check at 5 records a miss of the second task; the one at 6 raises on the
      first, whose schedule has ended, and never gets to the second. */
  lemma EndedScheduleHidesMiss()
    ensures Increasing(EndsAtFive())
    ensures ("b", 2) in Written(EndsAtFive(), [ENDING, LATER], 5) && Written(EndsAtFive(), [ENDING, LATER], 6) == {}
  {
    var next, runs := EndsAtFive(), [ENDING, LATER];
    assert runs[1..] == [LATER];
    assert CheckFrom(next, Some(5), 1, 5) == Checked([], false);
    assert CheckTask(next, ENDING, 5) == Checked([], false);
    assert 2 in CheckFrom(next, Some(2), 1, 5).misses;
    assert CheckTask(next, LATER, 5) == CheckFrom(next, Some(2), 1, 5);
    assert ("b", 2) in KeysOf("b", CheckTask(next, LATER, 5).misses);
    assert CheckFrom(next, Some(5), 1, 6) == Checked([], true);
    assert CheckTask(next, ENDING, 6) == Checked([], true);
  }

  lemma NothingStamped(table: Table, taskId: string, ts: int)
    ensures table == table + Stamp(KeysOf(taskId, []), ts)
  {
  }

  lemma Stamped(table: Table, keys: set<(string, int)>, ts: int)
    ensures (table + Stamp(keys, ts)).Keys == table.Keys + keys
    ensures forall k | k in table + Stamp(keys, ts) ::
              (table + Stamp(keys, ts))[k] == if k in keys then ts else table[k]
  {
  }

  lemma StampTogether(table: Table, a: set<(string, int)>, b: set<(string, int)>, ts: int)
    ensures table + Stamp(a, ts) + Stamp(b, ts) == table + Stamp(a + b, ts)
  {
  }

  /** The table once the rest of the loop has run, from `date` on. */
  function Completed(table: Table, taskId: string, next: Schedule, date: Option<int>, sla: int, ts: int): Table
    requires Increasing(next)
  {
    table + Stamp(KeysOf(taskId, CheckFrom(next, date, sla, ts).misses), ts)
  }

  lemma StampFirst(table: Table, taskId: string, d: int, rest: seq<int>, ts: int)
    ensures table[(taskId, d) := ts] + Stamp(KeysOf(taskId, rest), ts) == table + Stamp(KeysOf(taskId, [d] + rest), ts)
  {
    assert KeysOf(taskId, [d] + rest) == KeysOf(taskId, rest) + {(taskId, d)};
  }

  /** One turn of the loop leaves the outcome as it was. */
  lemma LoopTurn(table: Table, taskId: string, next: Schedule, d: int, sla: int, ts: int)
    requires Increasing(next) && d < ts && next(d).Some?
    ensures var e := next(d);
            && e.value > d
            && CheckFrom(next, e, sla, ts).raised == CheckFrom(next, Some(d), sla, ts).raised
            && Completed(if e.value + sla < ts then table[(taskId, d) := ts] else table, taskId, next, e, sla, ts)
               == Completed(table, taskId, next, Some(d), sla, ts)
  {
    hide KeysOf;
    hide Stamp;
    var rest := CheckFrom(next, next(d), sla, ts).misses;
    StampFirst(table, taskId, d, rest, ts);
    assert [] + rest == rest;
  }

  lemma LoopEnds(table: Table, taskId: string, next: Schedule, date: Option<int>, sla: int, ts: int)
    requires Increasing(next)
    requires date.None? || date.value >= ts || next(date.value).None?
    ensures Completed(table, taskId, next, date, sla, ts) == table
    ensures CheckFrom(next, date, sla, ts).raised == (date.None? || date.value < ts)
  {
    NothingStamped(table, taskId, ts);
  }

  /** The inner loop for one task. */
  method CheckOne(next: Schedule, taskId: string, last: int, sla: int, ts: int, table: Table)
    returns (after: Table, raised: bool)
    requires Increasing(next)
    ensures var c := CheckFrom(next, next(last), sla, ts);
            raised == c.raised && after == table + Stamp(KeysOf(taskId, c.misses), ts)
  {
    after, raised := table, false;
    var date := next(last);
    ghost var goal, fails := Completed(table, taskId, next, date, sla, ts), CheckFrom(next, date, sla, ts).raised;
    assert goal == table + Stamp(KeysOf(taskId, CheckFrom(next, date, sla, ts).misses), ts);
    hide *;
    while date.Some? && date.value < ts
      invariant Completed(after, taskId, next, date, sla, ts) == goal && CheckFrom(next, date, sla, ts).raised == fails
      decreases if date.Some? && date.value < ts then ts - date.value else 0
    {
      var following := next(date.value);
      if following.None? {
        LoopEnds(after, taskId, next, date, sla, ts);
        return after, true;
      }
      LoopTurn(after, taskId, next, date.value, sla, ts);
      if following.value + sla < ts {
        after := after[(taskId, date.value) := ts];
      }
      date := following;
    }
    LoopEnds(after, taskId, next, date, sla, ts);
    raised := date.None?;
  }

  /** The test that comes first: does any task of the dag have a timedelta for an SLA? */
  method AnySla(slas: seq<Sla>) returns (found: bool)
    ensures found <==> exists i :: 0 <= i < |slas| && slas[i].Within?
  {
    for i := 0 to |slas|
      invariant forall j :: 0 <= j < i ==> !slas[j].Within?
    {
      if slas[i].Within? {
        return true;
      }
    }
    found := false;
  }

  /** The SLA check of a dag whose tasks have the SLAs `slas`: nothing at all if none
      of them is a timedelta. */
  method ManageSlas(next: Schedule, slas: seq<Sla>, runs: seq<LastRun>, ts: int, table: Table)
    returns (after: Table, raised: bool)
    requires Increasing(next)
    ensures (forall i :: 0 <= i < |slas| ==> !slas[i].Within?) ==> after == table && !raised
    ensures (exists i :: 0 <= i < |slas| && slas[i].Within?) ==>
              raised == Raises(next, runs, ts) && after == table + Stamp(Written(next, runs, ts), ts)
    ensures (exists i :: 0 <= i < |slas| && slas[i].Within?) ==>
              && after.Keys == table.Keys + Written(next, runs, ts)
              && forall k | k in after :: after[k] == if k in Written(next, runs, ts) then ts else table[k]
  {
    after, raised := table, false;
    var any := AnySla(slas);
    if !any {
      return;
    }
    hide Stamp;
    hide CheckTask;
    Stamped(table, Written(next, runs, ts), ts);
    for i := 0 to |runs|
      invariant !raised && forall j :: 0 <= j < i ==> !CheckTask(next, runs[j], ts).raised
      invariant after + Stamp(Written(next, runs[i..], ts), ts) == table + Stamp(Written(next, runs, ts), ts)
    {
      assert runs[i..][0] == runs[i] && runs[i..][1..] == runs[i + 1..];
      ghost var before := after;
      after, raised := CheckRun(next, runs[i], ts, after);
      StampTogether(before, KeysOf(runs[i].taskId, CheckTask(next, runs[i], ts).misses),
                    if raised then {} else Written(next, runs[i + 1..], ts), ts);
      if raised {
        NothingStamped(after, runs[i].taskId, ts);
        return;
      }
    }
    NothingStamped(after, "", ts);
    assert KeysOf("", []) == {};
  }

  /** One task of the outer loop. */
  method CheckRun(next: Schedule, r: LastRun, ts: int, table: Table) returns (after: Table, raised: bool)
    requires Increasing(next)
    ensures var c := CheckTask(next, r, ts);
            raised == c.raised && after == table + Stamp(KeysOf(r.taskId, c.misses), ts)
  {
    NothingStamped(table, r.taskId, ts);
    after, raised := table, false;
    if !Skips(r) {
      if r.sla.WrongType? {
        return table, true;
      }
      after, raised := CheckOne(next, r.taskId, r.date, r.sla.seconds, ts, table);
    }
  }
}
