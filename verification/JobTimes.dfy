/** When the jobs of a file run, told from the clocks of the polls alone
    (JobRunner.process_user and JobRunner._is_due in pawlia/automation.py). */
module JobTimes {
  import opened Calendar
  import opened Errors
  import opened Jobs
  import opened JobLaws
  import opened JobFiles
  import Weeks

  /** The microseconds of a clock, from day 0 on. */
  function At(now: Clock): int {
    now.day * 86_400_000_000 + now.tod
  }

  /** A time of a day. */
  function TimeAt(day: int, hour: int, minute: int): int {
    1_000_000 * (86_400 * day + 3_600 * hour + 60 * minute)
  }

  lemma AtIs(now: Clock)
    ensures Micros(now) == At(now)
  {}

  // --------------------------------------------------------------------- runs in turn

  lemma {:induction false} LogConcat(j: Job, a: seq<Event>, b: seq<Event>, app: bool)
    requires EventsOk(a) && EventsOk(b)
    ensures EventsOk(a + b)
    ensures After(j, a + b, app) == After(After(j, a, app), b, app)
    ensures Log(j, a + b, app) == Log(j, a, app) + Log(After(j, a, app), b, app)
  {
    if b == [] {
      assert a + b == a;
    } else {
      var n := |b| - 1;
      assert (a + b)[..|a + b| - 1] == a + b[..n];
      LogConcat(j, a, b[..n], app);
    }
  }

  predicate ClocksOk(times: seq<Clock>) {
    forall t | t in times :: ClockOk(t)
  }

  lemma {:induction false} PollsOk(times: seq<Clock>)
    requires ClocksOk(times)
    ensures EventsOk(Polls(times))
  {
    if times != [] {
      var n := |times| - 1;
      assert times[n] in times && forall t | t in times[..n] :: t in times;
      PollsOk(times[..n]);
    }
  }

  lemma {:induction false} PollsConcat(a: seq<Clock>, b: seq<Clock>)
    ensures Polls(a + b) == Polls(a) + Polls(b)
  {
    if b == [] {
      assert a + b == a;
    } else {
      assert (a + b)[..|a + b| - 1] == a + b[..|b| - 1];
      PollsConcat(a, b[..|b| - 1]);
    }
  }

  lemma PollsFront(times: seq<Clock>)
    requires times != []
    ensures Polls(times) == [Poll(times[0])] + Polls(times[1..])
  {
    var one := times[..1];
    assert times == one + times[1..];
    PollsConcat(one, times[1..]);
    assert one[..0] == [] && Polls(one) == Polls([]) + [Poll(times[0])];
  }

  lemma LogOne(j: Job, now: Clock, app: bool)
    requires ClockOk(now)
    ensures EventsOk([Poll(now)]) && After(j, [Poll(now)], app) == Polled(j, now, app)
    ensures Log(j, [Poll(now)], app) == if Runs(j, now, app) then [Ran(now, j.force)] else []
  {
    var none: seq<Event> := [];
    PollPush(j, none, now, app);
    assert none + [Poll(now)] == [Poll(now)];
  }

  /** The first poll, then the others. */
  lemma LogFront(j: Job, times: seq<Clock>, app: bool)
    requires times != [] && ClockOk(times[0]) && EventsOk(Polls(times[1..]))
    ensures EventsOk(Polls(times))
    ensures Log(j, Polls(times), app)
            == (if Runs(j, times[0], app) then [Ran(times[0], j.force)] else [])
               + Log(Polled(j, times[0], app), Polls(times[1..]), app)
  {
    var one, rest := [Poll(times[0])], Polls(times[1..]);
    PollsFront(times);
    LogOne(j, times[0], app);
    LogConcat(j, one, rest, app);
  }

  // -------------------------------------------------------------------- intervals

  /** How many polls come before the first one at or after a time. */
  function Wait(from: int, times: seq<Clock>): (k: nat)
    ensures k <= |times|
  {
    if times == [] || At(times[0]) >= from then 0 else 1 + Wait(from, times[1..])
  }

  /** The polls at which a job runs that was last run at `last`: the first one of all, or the
      first whose clock is the interval on, and so forth from there. */
  function InTurn(last: Option<Clock>, length: int, times: seq<Clock>): seq<Clock>
    decreases |times|
  {
    var k := match last
             case None => 0
             case Some(t) => Wait(At(t) + length, times);
    if k >= |times| then [] else [times[k]] + InTurn(Some(times[k]), length, times[k + 1..])
  }

  function Unforced(times: seq<Clock>): seq<Ran> {
    if times == [] then [] else [Ran(times[0], false)] + Unforced(times[1..])
  }

  /** An interval job that is switched on, that nobody forces and that has something to run. */
  predicate Ticking(j: Job, app: bool) {
    j.enabled && !j.force && j.schedule.Interval? && (j.script || (j.instruction && app))
  }

  /** From the last run and from every poll the end of the interval can be computed. */
  predicate Within(j: Job, times: seq<Clock>)
    requires j.schedule.Interval?
  {
    && Reaches(j.schedule.length, j.lastRun)
    && forall t | t in times :: ClockOk(t) && Reaches(j.schedule.length, Some(t))
  }

  lemma InTurnFront(last: Option<Clock>, length: int, times: seq<Clock>)
    requires times != []
    ensures InTurn(last, length, times)
            == if last.None? || At(times[0]) >= At(last.value) + length
               then [times[0]] + InTurn(Some(times[0]), length, times[1..])
               else InTurn(last, length, times[1..])
  {
    if last.Some? && At(times[0]) < At(last.value) + length {
      var k := Wait(At(last.value) + length, times[1..]);
      assert k < |times[1..]| ==> times[1..][k] == times[k + 1] && times[1..][k + 1..] == times[k + 2..];
    }
  }

  lemma TickingRuns(j: Job, now: Clock, app: bool)
    requires Ticking(j, app) && ClockOk(now) && Reaches(j.schedule.length, j.lastRun)
    ensures Runs(j, now, app) <==> j.lastRun.None? || At(now) >= At(j.lastRun.value) + j.schedule.length
  {}

  lemma {:induction false} LogInTurn(j: Job, times: seq<Clock>, app: bool)
    requires Ticking(j, app) && Within(j, times)
    ensures ClocksOk(times) && EventsOk(Polls(times))
    ensures Log(j, Polls(times), app) == Unforced(InTurn(j.lastRun, j.schedule.length, times))
    decreases |times|
  {
    PollsOk(times);
    if times != [] {
      var now, rest := times[0], times[1..];
      assert now in times && forall t | t in rest :: t in times;
      PollsOk(rest);
      var after := Polled(j, now, app);
      TickingRuns(j, now, app);
      LogFront(j, times, app);
      InTurnFront(j.lastRun, j.schedule.length, times);
      LogInTurn(after, rest, app);
      var more := InTurn(Some(now), j.schedule.length, rest);
      assert ([now] + more)[1..] == more;
    }
  }

  lemma {:induction false} UntilTimes(events: seq<FileEvent>, end: Clock, k: nat, times: seq<Clock>)
    requires LooksOk(events) && Until(events, end) && For(k, events) == Polls(times)
    ensures forall t | t in times :: ClockOk(t) && At(t) <= At(end)
  {
    if events != [] {
      var n := |events| - 1;
      var init := For(k, events[..n]);
      match events[n]
      case Look(now) =>
        var m := |times| - 1;
        assert Polls(times) == Polls(times[..m]) + [Poll(times[m])];
        assert init == (init + [Poll(now)])[..|init|] == Polls(times[..m]);
        UntilTimes(events[..n], end, k, times[..m]);
        assert Polls(times)[|init|] == Poll(now) == Poll(times[m]);
      case Ask(i) =>
        if i == k {
          NoForce(times, |init|);
          assert false;
        } else {
          assert init + [] == init;
          UntilTimes(events[..n], end, k, times);
        }
    } else {
      assert Polls(times) == [];
    }
  }

  lemma {:induction false} NoForce(times: seq<Clock>, i: nat)
    requires i < |Polls(times)|
    ensures Polls(times)[i].Poll?
  {
    if i < |Polls(times)| - 1 {
      NoForce(times[..|times| - 1], i);
    }
  }

  /** In a file whose schedules can all be read, over any run of polls, with any runs forced
      of the other jobs: an enabled interval job with something to run runs at the first
      poll if it has no last run, else exactly at the first poll that comes the interval
      after it, and so on from each run. */
  lemma FileInTurn(jobs: seq<Job>, events: seq<FileEvent>, end: Clock, app: bool, k: nat, times: seq<Clock>)
    requires LooksOk(events) && ClockOk(end) && Until(events, end) && AllReadable(jobs, end)
    requires k < |jobs| && For(k, events) == Polls(times) && Ticking(jobs[k], app)
    ensures FileLog(jobs, events, app, k) == Unforced(InTurn(jobs[k].lastRun, jobs[k].schedule.length, times))
  {
    var j := jobs[k];
    ReadableRemembered(jobs, events, end, app, k);
    EachAlone(jobs, events, app, k);
    UntilTimes(events, end, k, times);
    forall t | t in times
      ensures Reaches(j.schedule.length, Some(t))
    {
      AtIs(t);
      AtIs(end);
    }
    LogInTurn(j, times, app);
  }

  // -------------------------------------------------------------------- times of day

  /** The text of the schedule names this time of day, and this day is one of its days:
      weekdays count from Monday, 1 January 2024, day 738886. */
  ghost predicate Names(s: Schedule, day: nat, hour: int, minute: int) {
    match s
    case Daily(h, m) => h == hour && m == minute
    case Weekly(weekday, h, m) => h == hour && m == minute && (day - 738_886) % 7 == weekday
    case Monthly(monthday, h, m) =>
      && h == hour && m == minute && monthday > 0
      && exists y, m :: IsDate(Date(y, m, monthday)) && Ordinal(Date(y, m, monthday)) == day
    case _ => false
  }

  lemma NamesExactly(s: Schedule, day: nat, hour: int, minute: int)
    requires day >= 1
    ensures Names(s, day, hour, minute) <==> Timed(s) && s.hour == hour && s.minute == minute && OnDay(s, day)
  {
    Weeks.WeekLeft(day);
    if s.Monthly? {
      var a := FromOrdinal(day);
      OrdinalOf(day);
      assert IsDate(Date(a.y, a.m, a.d)) && Ordinal(Date(a.y, a.m, a.d)) == day;
      if s.monthday > 0 {
        forall y, m | IsDate(Date(y, m, s.monthday)) && Ordinal(Date(y, m, s.monthday)) == day
          ensures s.monthday == a.d
        {
          FromOrdinalOf(Date(y, m, s.monthday));
        }
      }
    }
  }

  /** The first poll from a time of day on that comes more than two minutes after the last
      run or, without one, less than two minutes after this time. */
  function Prompt(last: Option<Clock>, at: int, times: seq<Clock>): Option<Clock> {
    if times == [] then None
    else
      var now := At(times[0]);
      if at <= now && (match last
                       case None => now < at + 120_000_000
                       case Some(t) => now - At(t) > 120_000_000)
      then Some(times[0])
      else Prompt(last, at, times[1..])
  }

  lemma ReadyExactly(j: Job, now: Clock, hour: int, minute: int)
    requires ClockOk(now) && Timed(j.schedule) && TimeOk(j.schedule)
    requires j.schedule.hour == hour && j.schedule.minute == minute
    ensures Micros(Target(j.schedule, now.day)) == TimeAt(now.day, hour, minute)
    ensures Ready(j, now)
            <==> && TimeAt(now.day, hour, minute) <= At(now)
                 && (match j.lastRun
                     case None => At(now) < TimeAt(now.day, hour, minute) + 120_000_000
                     case Some(t) => At(now) - At(t) > 120_000_000)
  {}

  lemma {:induction false} FirstReadyFront(j: Job, times: seq<Clock>)
    requires Timed(j.schedule) && TimeOk(j.schedule) && times != []
    ensures FirstReady(j, times)
            == if Ready(j, times[0]) then Some(times[0]) else FirstReady(j, times[1..])
  {
    var n := |times| - 1;
    if n > 0 {
      FirstReadyFront(j, times[..n]);
      assert times[..n][1..] == times[1..][..n - 1];
    }
  }

  lemma {:induction false} PromptExactly(j: Job, times: seq<Clock>, day: nat, hour: int, minute: int)
    requires Timed(j.schedule) && TimeOk(j.schedule) && j.schedule.hour == hour && j.schedule.minute == minute
    requires forall t | t in times :: ClockOk(t) && t.day == day
    ensures FirstReady(j, times) == Prompt(j.lastRun, TimeAt(day, hour, minute), times)
  {
    if times != [] {
      assert times[0] in times && forall t | t in times[1..] :: t in times;
      FirstReadyFront(j, times);
      ReadyExactly(j, times[0], hour, minute);
      PromptExactly(j, times[1..], day, hour, minute);
    }
  }

  lemma {:induction false} InDayAll(times: seq<Clock>, day: nat)
    requires InDay(times, day)
    ensures forall t | t in times :: ClockOk(t) && t.day == day
  {
    if times != [] {
      InDayAll(times[..|times| - 1], day);
    }
  }

  /** In such a file, over the polls of a day that its schedule names: an enabled job for
      hour:minute that has something to run, that nobody forces and that was last run
      before this time, runs exactly once, at the first poll from hour:minute on; without a
      last run only within two minutes, and else not at all. */
  lemma FileOnTime(jobs: seq<Job>, events: seq<FileEvent>, end: Clock, app: bool, k: nat, times: seq<Clock>,
                   day: nat, hour: int, minute: int)
    requires LooksOk(events) && ClockOk(end) && Until(events, end) && AllReadable(jobs, end)
    requires k < |jobs| && For(k, events) == Polls(times) && InDay(times, day) && day >= 1
    requires var j := jobs[k];
             && Names(j.schedule, day, hour, minute) && 0 <= hour < 24 && 0 <= minute < 60
             && j.enabled && !j.force && (j.script || (j.instruction && app))
             && (j.lastRun.Some? ==> At(j.lastRun.value) < TimeAt(day, hour, minute))
    ensures FileLog(jobs, events, app, k)
            == match Prompt(jobs[k].lastRun, TimeAt(day, hour, minute), times)
               case None => []
               case Some(t) => [Ran(t, false)]
  {
    NamesExactly(jobs[k].schedule, day, hour, minute);
    FileDayServed(jobs, events, end, app, k, times, day);
    InDayAll(times, day);
    PromptExactly(jobs[k], times, day, hour, minute);
  }

  /** On the other days, or when it is switched off or has nothing to run, it does not run. */
  lemma {:induction false} NotToday(j: Job, times: seq<Clock>, app: bool)
    requires ClocksOk(times)
    requires !j.enabled || (!j.script && !(j.instruction && app))
             || (!j.force && forall t | t in times :: !Due(j.schedule, t.day))
    ensures EventsOk(Polls(times)) && After(j, Polls(times), app) == j && Log(j, Polls(times), app) == []
  {
    PollsOk(times);
    if times != [] {
      var n := |times| - 1;
      assert times[n] in times && forall t | t in times[..n] :: t in times;
      NotToday(j, times[..n], app);
      PollPush(j, Polls(times[..n]), times[n], app);
      if j.enabled && !j.force && Timed(j.schedule) {
        NamesExactly(j.schedule, times[n].day, j.schedule.hour, j.schedule.minute);
      }
    }
  }

  /** This day is one for the schedule. */
  ghost predicate Due(s: Schedule, day: nat) {
    s.Interval? || exists hour, minute :: Names(s, day, hour, minute)
  }

  /** When a run of a job is asked for, the next poll runs it, whatever its schedule. */
  lemma ForcedRun(jobs: seq<Job>, events: seq<FileEvent>, end: Clock, app: bool, k: nat, now: Clock)
    requires LooksOk(events) && ClockOk(end) && Until(events, end) && AllReadable(jobs, end)
    requires ClockOk(now) && At(now) <= At(end) && k < |jobs|
    requires jobs[k].enabled && (jobs[k].script || (jobs[k].instruction && app))
    ensures var all := events + [Ask(k)] + [Look(now)];
            && LooksOk(all)
            && FileLog(jobs, all, app, k) == FileLog(jobs, events, app, k) + [Ran(now, true)]
            && !FileAfter(jobs, all, app)[k].force
  {
    var asked := events + [Ask(k)];
    var all := asked + [Look(now)];
    assert asked[..|events|] == events && all[..|asked|] == asked;
    ReadableRemembered(jobs, events, end, app, k);
    EachAlone(jobs, events, app, k);
    JobLaws.Kept(jobs[k], Seen(jobs, events, app, k), app);
    var before := FileAfter(jobs, asked, app);
    forall i | 0 <= i < |jobs|
      ensures Readable(before[i], end)
    {
      var polled := FileAfter(jobs, events, app)[i];
      assert before[i] == polled || before[i] == polled.(force := true);
    }
    ReadablePoll(before, now, end, app);
    PolledAt(before, now, app, |jobs|, k);
  }

  /** An interval can be waited for as long as it is less than a milliard of days and its end
      lies between the first day of the year 1 and the last one of 9999. */
  lemma ReachesExactly(length: int, last: Option<Clock>)
    ensures Reaches(length, last)
            <==> && -999_999_999 * 86_400_000_000 <= length < 1_000_000_000 * 86_400_000_000
                 && (last.Some? ==> 86_400_000_000 <= At(last.value) + length < 3_652_060 * 86_400_000_000)
  {}
}
