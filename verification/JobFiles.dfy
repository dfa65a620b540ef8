/** A whole job file over any run of polls and forced runs
    (JobRunner.process_user in pawlia/automation.py). */
module JobFiles {
  import opened Calendar
  import opened Errors
  import opened Jobs
  import opened JobLaws

  /** A poll of the file, or a user asking for a run of job k. */
  datatype FileEvent = Look(now: Clock) | Ask(k: nat)

  predicate LooksOk(events: seq<FileEvent>) {
    events == []
    || (var n := |events| - 1; LooksOk(events[..n]) && (events[n].Look? ==> ClockOk(events[n].now)))
  }

  /** What is in the file after a run. */
  function FileAfter(jobs: seq<Job>, events: seq<FileEvent>, app: bool): (r: seq<Job>)
    requires LooksOk(events)
    ensures |r| == |jobs|
  {
    if events == [] then jobs
    else
      var before := FileAfter(jobs, events[..|events| - 1], app);
      match events[|events| - 1]
      case Look(now) => Outcome(before, now, app)
      case Ask(k) => if k < |jobs| then before[k := before[k].(force := true)] else before
  }

  /** The runs of job k. */
  function FileLog(jobs: seq<Job>, events: seq<FileEvent>, app: bool, k: nat): seq<Ran>
    requires LooksOk(events) && k < |jobs|
  {
    if events == [] then []
    else
      var init := events[..|events| - 1];
      var before := FileAfter(jobs, init, app);
      match events[|events| - 1]
      case Look(now) =>
        FileLog(jobs, init, app, k)
        + if k < Stop(before, now, |before|) && Runs(before[k], now, app) then [Ran(now, before[k].force)] else []
      case Ask(_) => FileLog(jobs, init, app, k)
  }

  /** What of a run concerns job k. */
  function For(k: nat, events: seq<FileEvent>): seq<Event> {
    if events == [] then []
    else
      For(k, events[..|events| - 1])
      + match events[|events| - 1]
        case Look(now) => [Poll(now)]
        case Ask(i) => if i == k then [Force] else []
  }

  // ------------------------------------------------------------- any schedules

  /** A poll that reaches job n saves the file on the way, after job k was polled: some
      job between them is forced and about to run. */
  predicate SavedBetween(jobs: seq<Job>, now: Clock, app: bool, k: nat, n: nat)
    requires ClockOk(now) && n <= |jobs|
  {
    exists m | k < m < n :: jobs[m].force && Runs(jobs[m], now, app)
  }

  /** What a poll that stops before job n leaves of a job that it polled: the run is
      remembered exactly when the file was saved afterwards; a forced run that is not
      remembered still takes its flag away. */
  lemma {:induction false} SavedExactly(jobs: seq<Job>, now: Clock, app: bool, n: nat, k: nat)
    requires ClockOk(now) && k < n <= |jobs|
    ensures Saved(jobs, now, app, n)[k]
            == if SavedBetween(jobs, now, app, k, n) then Polled(jobs[k], now, app)
               else if Runs(jobs[k], now, app) then jobs[k].(force := false)
               else jobs[k]
  {
    PolledAt(jobs, now, app, n - 1, k);
    if k < n - 1 {
      SavedExactly(jobs, now, app, n - 1, k);
      assert jobs[n - 1].force && Runs(jobs[n - 1], now, app) ==> SavedBetween(jobs, now, app, k, n);
      assert SavedBetween(jobs, now, app, k, n)
             <==> SavedBetween(jobs, now, app, k, n - 1) || (jobs[n - 1].force && Runs(jobs[n - 1], now, app));
    } else {
      SavedUpTo(jobs, now, app, n - 1, k);
    }
  }

  lemma {:induction false} SavedUpTo(jobs: seq<Job>, now: Clock, app: bool, n: nat, k: nat)
    requires ClockOk(now) && n <= k < |jobs|
    ensures Saved(jobs, now, app, n)[k] == jobs[k]
  {
    if n > 0 {
      PolledAt(jobs, now, app, n - 1, k);
      SavedUpTo(jobs, now, app, n - 1, k);
    }
  }

  /** What of a run reaches job k: a poll does unless it stops at an earlier job. */
  function Seen(jobs: seq<Job>, events: seq<FileEvent>, app: bool, k: nat): seq<Event>
    requires LooksOk(events) && k < |jobs|
  {
    if events == [] then []
    else
      var init := events[..|events| - 1];
      var before := FileAfter(jobs, init, app);
      Seen(jobs, init, app, k)
      + match events[|events| - 1]
        case Look(now) => if k < Stop(before, now, |before|) then [Poll(now)] else []
        case Ask(i) => if i == k then [Force] else []
  }

  /** The poll of a file that has run job k gets to the end, or saves the file later on. */
  predicate Recorded(jobs: seq<Job>, now: Clock, app: bool, k: nat)
    requires ClockOk(now) && k < |jobs|
  {
    var n := Stop(jobs, now, |jobs|);
    k < n < |jobs| && Runs(jobs[k], now, app) ==> SavedBetween(jobs, now, app, k, n)
  }

  /** Every run of job k is recorded. */
  predicate Remembered(jobs: seq<Job>, events: seq<FileEvent>, app: bool, k: nat)
    requires LooksOk(events) && k < |jobs|
  {
    events == []
    || (var n := |events| - 1;
        && Remembered(jobs, events[..n], app, k)
        && (events[n].Look? ==> Recorded(FileAfter(jobs, events[..n], app), events[n].now, app, k)))
  }

  lemma PollPart(jobs: seq<Job>, now: Clock, app: bool, k: nat)
    requires ClockOk(now) && k < |jobs| && Recorded(jobs, now, app, k)
    ensures Outcome(jobs, now, app)[k]
            == if k < Stop(jobs, now, |jobs|) then Polled(jobs[k], now, app) else jobs[k]
  {
    var n := Stop(jobs, now, |jobs|);
    PolledAt(jobs, now, app, |jobs|, k);
    if n < |jobs| {
      if k < n {
        SavedExactly(jobs, now, app, n, k);
      } else {
        SavedUpTo(jobs, now, app, n, k);
      }
    }
  }

  lemma EventPush(j: Job, events: seq<Event>, e: Event, app: bool)
    requires EventsOk(events) && (e.Poll? ==> ClockOk(e.now))
    ensures EventsOk(events + [e])
    ensures After(j, events + [e], app)
            == var before := After(j, events, app);
               if e.Poll? then Polled(before, e.now, app) else before.(force := true)
    ensures Log(j, events + [e], app)
            == Log(j, events, app)
               + var before := After(j, events, app);
                 if e.Poll? && Runs(before, e.now, app) then [Ran(e.now, before.force)] else []
  {
    assert (events + [e])[..|events|] == events;
  }

  /** Job k is left, and was run, as if it were alone. */
  predicate Alone(jobs: seq<Job>, events: seq<FileEvent>, app: bool, k: nat, part: seq<Event>)
    requires LooksOk(events) && k < |jobs|
  {
    && EventsOk(part)
    && FileAfter(jobs, events, app)[k] == After(jobs[k], part, app)
    && FileLog(jobs, events, app, k) == Log(jobs[k], part, app)
  }

  lemma LookAlone(jobs: seq<Job>, events: seq<FileEvent>, app: bool, k: nat)
    requires LooksOk(events) && k < |jobs| && events != [] && events[|events| - 1].Look?
    requires var init := events[..|events| - 1];
             && Alone(jobs, init, app, k, Seen(jobs, init, app, k))
             && Recorded(FileAfter(jobs, init, app), events[|events| - 1].now, app, k)
    ensures Alone(jobs, events, app, k, Seen(jobs, events, app, k))
  {
    var init := events[..|events| - 1];
    var now := events[|events| - 1].now;
    var part := Seen(jobs, init, app, k);
    PollPart(FileAfter(jobs, init, app), now, app, k);
    if k < Stop(FileAfter(jobs, init, app), now, |jobs|) {
      EventPush(jobs[k], part, Poll(now), app);
    } else {
      assert Seen(jobs, events, app, k) == part;
    }
  }

  /** As long as its runs are recorded, a job is left and was run as if it were alone with
      the polls that reach it, whatever the schedules of the others, over any run of polls
      and forced runs. */
  lemma {:induction false} EachAlone(jobs: seq<Job>, events: seq<FileEvent>, app: bool, k: nat)
    requires LooksOk(events) && k < |jobs| && Remembered(jobs, events, app, k)
    ensures Alone(jobs, events, app, k, Seen(jobs, events, app, k))
  {
    if events != [] {
      var init := events[..|events| - 1];
      var e := events[|events| - 1];
      EachAlone(jobs, init, app, k);
      if e.Look? {
        LookAlone(jobs, events, app, k);
      } else if e.k == k {
        EventPush(jobs[k], Seen(jobs, init, app, k), Force, app);
      } else {
        assert Seen(jobs, events, app, k) == Seen(jobs, init, app, k);
      }
    }
  }

  lemma LatestPush(j: Job, events: seq<Event>, e: Event)
    ensures Latest(j, events + [e]) == if e.Poll? then Micros(e.now) else Latest(j, events)
    ensures Forward(j, events + [e]) <==> Forward(j, events) && (e.Poll? ==> Latest(j, events) <= Micros(e.now))
  {
    assert (events + [e])[..|events|] == events;
  }

  /** With a forward clock, what reaches the job has a forward clock, too. */
  lemma {:induction false} SeenForward(jobs: seq<Job>, events: seq<FileEvent>, app: bool, k: nat)
    requires LooksOk(events) && k < |jobs| && Forward(jobs[k], For(k, events))
    ensures Forward(jobs[k], Seen(jobs, events, app, k))
    ensures Latest(jobs[k], Seen(jobs, events, app, k)) <= Latest(jobs[k], For(k, events))
  {
    if events != [] {
      var init := events[..|events| - 1];
      var part, all := Seen(jobs, init, app, k), For(k, init);
      match events[|events| - 1] {
        case Look(now) =>
          LatestPush(jobs[k], all, Poll(now));
          SeenForward(jobs, init, app, k);
          LatestPush(jobs[k], part, Poll(now));
          assert part + [] == part;
        case Ask(i) =>
          LatestPush(jobs[k], all, Force);
          LatestPush(jobs[k], part, Force);
          assert part + [] == part && all + [] == all;
          SeenForward(jobs, init, app, k);
      }
    }
  }

  /** As long as its runs are recorded, no target of a job is served twice, over any run. */
  lemma FileServedOnce(jobs: seq<Job>, events: seq<FileEvent>, app: bool, k: nat, a: nat, b: nat)
    requires LooksOk(events) && k < |jobs| && Remembered(jobs, events, app, k)
    requires Forward(jobs[k], For(k, events)) && Timed(jobs[k].schedule) && TimeOk(jobs[k].schedule)
    requires a < b < |FileLog(jobs, events, app, k)|
    requires !FileLog(jobs, events, app, k)[a].forced && !FileLog(jobs, events, app, k)[b].forced
    ensures var log := FileLog(jobs, events, app, k);
            Micros(Target(jobs[k].schedule, log[a].at.day)) < Micros(Target(jobs[k].schedule, log[b].at.day))
  {
    EachAlone(jobs, events, app, k);
    SeenForward(jobs, events, app, k);
    ServedOnce(jobs[k], Seen(jobs, events, app, k), app, a, b);
  }

  /** And an unforced run of an interval job is at least the interval after every earlier one. */
  lemma FileIntervalApart(jobs: seq<Job>, events: seq<FileEvent>, app: bool, k: nat, a: nat, b: nat)
    requires LooksOk(events) && k < |jobs| && Remembered(jobs, events, app, k)
    requires Forward(jobs[k], For(k, events)) && jobs[k].schedule.Interval?
    requires a < b < |FileLog(jobs, events, app, k)| && !FileLog(jobs, events, app, k)[b].forced
    ensures var log := FileLog(jobs, events, app, k);
            Micros(log[b].at) - Micros(log[a].at) >= jobs[k].schedule.length
  {
    EachAlone(jobs, events, app, k);
    SeenForward(jobs, events, app, k);
    IntervalApart(jobs[k], Seen(jobs, events, app, k), app, a, b);
  }

  // ------------------------------------------------------------- readable schedules

  /** The schedule can be read at every poll up to `end`, whenever the job was run: an
      enabled job for a time of day has a time that exists, an enabled interval job does
      not reach past the calendar from then. */
  predicate Readable(j: Job, end: Clock) {
    && (j.enabled && Timed(j.schedule) ==> TimeOk(j.schedule))
    && (j.enabled && j.schedule.Interval? ==>
          && 0 <= j.schedule.length && InCalendar(Micros(end) + j.schedule.length)
          && (j.lastRun.Some? ==> DAY <= Micros(j.lastRun.value) <= Micros(end)))
  }

  predicate AllReadable(jobs: seq<Job>, end: Clock) {
    forall i | 0 <= i < |jobs| :: Readable(jobs[i], end)
  }

  /** No poll comes after `end`. */
  predicate Until(events: seq<FileEvent>, end: Clock) {
    events == []
    || (var n := |events| - 1;
        Until(events[..n], end) && (events[n].Look? ==> Micros(events[n].now) <= Micros(end)))
  }

  lemma ReadableRead(j: Job, now: Clock, end: Clock, app: bool)
    requires ClockOk(now) && ClockOk(end) && Micros(now) <= Micros(end) && Readable(j, end)
    ensures !Fails(j, now) && Readable(Polled(j, now, app), end)
  {}

  lemma ReadablePoll(jobs: seq<Job>, now: Clock, end: Clock, app: bool)
    requires ClockOk(now) && ClockOk(end) && Micros(now) <= Micros(end) && AllReadable(jobs, end)
    ensures Stop(jobs, now, |jobs|) == |jobs| && AllReadable(Outcome(jobs, now, app), end)
  {
    var n := Stop(jobs, now, |jobs|);
    if n < |jobs| {
      ReadableRead(jobs[n], now, end, app);
    }
    forall i | 0 <= i < |jobs| ensures Readable(Outcome(jobs, now, app)[i], end) {
      PolledAt(jobs, now, app, |jobs|, i);
      ReadableRead(jobs[i], now, end, app);
    }
  }

  /** When all schedules can be read, every poll reaches every job, and every run is
      recorded. */
  lemma {:induction false} ReadableRemembered(jobs: seq<Job>, events: seq<FileEvent>, end: Clock, app: bool, k: nat)
    requires LooksOk(events) && ClockOk(end) && Until(events, end) && k < |jobs| && AllReadable(jobs, end)
    ensures AllReadable(FileAfter(jobs, events, app), end)
    ensures Remembered(jobs, events, app, k) && Seen(jobs, events, app, k) == For(k, events)
  {
    if events != [] {
      var init := events[..|events| - 1];
      ReadableRemembered(jobs, init, end, app, k);
      if events[|events| - 1].Look? {
        ReadablePoll(FileAfter(jobs, init, app), events[|events| - 1].now, end, app);
      }
    }
  }

  /** In such a file, on a day of its schedule, a job that nobody forces runs exactly once,
      at the first poll that is ready, whatever runs are forced of the other jobs. */
  lemma FileDayServed(jobs: seq<Job>, events: seq<FileEvent>, end: Clock, app: bool, k: nat, times: seq<Clock>,
                      day: nat)
    requires LooksOk(events) && ClockOk(end) && Until(events, end) && AllReadable(jobs, end)
    requires k < |jobs| && For(k, events) == Polls(times)
    requires var j := jobs[k];
             && InDay(times, day) && day >= 1 && Timed(j.schedule) && TimeOk(j.schedule) && OnDay(j.schedule, day)
             && j.enabled && !j.force && (j.script || (j.instruction && app))
             && (j.lastRun.Some? ==> Micros(j.lastRun.value) < Micros(Target(j.schedule, day)))
    ensures FileLog(jobs, events, app, k)
            == match FirstReady(jobs[k], times) { case None => [] case Some(t) => [Ran(t, false)] }
  {
    ReadableRemembered(jobs, events, end, app, k);
    EachAlone(jobs, events, app, k);
    DayServed(jobs[k], times, day, app);
  }

  // ------------------------------------------------------------- served twice

  /** Looking at a job fails at any time of a day exactly when no run of it is asked for and
      its day has come but its time does not exist, or the end of its interval lies outside
      the calendar. */
  lemma FailsExactly(j: Job, now: Clock)
    requires ClockOk(now)
    ensures Fails(j, now)
            <==> && j.enabled && !j.force
                 && ((Timed(j.schedule) && OnDay(j.schedule, now.day) && !TimeOk(j.schedule))
                     || (j.schedule.Interval? && !Reaches(j.schedule.length, j.lastRun)))
  {}

  /** A target that is due stays due for the rest of the day as long as no run is recorded:
      always after a first run, and for two minutes before one. */
  lemma DueAgain(j: Job, now: Clock, later: Clock)
    requires ClockOk(now) && ClockOk(later) && Timed(j.schedule)
    requires IsDue(j, now) == Yes && now.day == later.day && Micros(now) <= Micros(later)
    ensures IsDue(j, later) == Yes
            <==> j.lastRun.Some? || Micros(later) < Micros(Target(j.schedule, now.day)) + 2 * MINUTE
  {}

  /** What a poll leaves of a job that it reaches: its run is recorded when the poll gets to
      the end or saves the file behind it, else it only loses the flag of a forced run. */
  function Left(jobs: seq<Job>, now: Clock, app: bool, i: nat): Job
    requires ClockOk(now) && i < |jobs|
  {
    var n := Stop(jobs, now, |jobs|);
    if n == |jobs| || SavedBetween(jobs, now, app, i, n) then Polled(jobs[i], now, app)
    else if Runs(jobs[i], now, app) then jobs[i].(force := false)
    else jobs[i]
  }

  lemma LeftBehind(jobs: seq<Job>, now: Clock, app: bool, i: nat)
    requires ClockOk(now) && i < Stop(jobs, now, |jobs|)
    ensures Outcome(jobs, now, app)[i] == Left(jobs, now, app, i)
  {
    PolledAt(jobs, now, app, |jobs|, i);
    if Stop(jobs, now, |jobs|) < |jobs| {
      SavedExactly(jobs, now, app, Stop(jobs, now, |jobs|), i);
    }
  }

  /** None of the first k jobs awakes: is left so that it cannot be read on this day any
      more, because a forced run has taken its flag away, or because a run was recorded
      from which its interval reaches past the calendar. */
  predicate NoneAwakes(jobs: seq<Job>, now: Clock, app: bool, k: nat)
    requires ClockOk(now) && k <= |jobs|
  {
    forall i | 0 <= i < k :: !Fails(Left(jobs, now, app, i), now)
  }

  lemma SameDay(j: Job, now: Clock, later: Clock)
    requires ClockOk(now) && ClockOk(later) && now.day == later.day
    ensures Fails(j, later) <==> Fails(j, now)
  {
    FailsExactly(j, now);
    FailsExactly(j, later);
  }

  lemma LeftFails(jobs: seq<Job>, now: Clock, later: Clock, app: bool, i: nat)
    requires ClockOk(now) && ClockOk(later) && now.day == later.day && i < Stop(jobs, now, |jobs|)
    ensures Fails(Outcome(jobs, now, app)[i], later) <==> Fails(Left(jobs, now, app, i), now)
  {
    LeftBehind(jobs, now, app, i);
    SameDay(Left(jobs, now, app, i), now, later);
  }

  lemma TimedNeverFails(jobs: seq<Job>, now: Clock, later: Clock, app: bool, k: nat)
    requires ClockOk(now) && ClockOk(later) && k < Stop(jobs, now, |jobs|)
    requires Timed(jobs[k].schedule) && TimeOk(jobs[k].schedule)
    ensures !Fails(Outcome(jobs, now, app)[k], later)
  {
    LeftBehind(jobs, now, app, k);
    FailsExactly(Outcome(jobs, now, app)[k], later);
  }

  /** A later poll of the day reaches a job that was reached before if and only if no job
      before it awakes. */
  lemma ReachedAgain(jobs: seq<Job>, now: Clock, later: Clock, app: bool, k: nat)
    requires ClockOk(now) && ClockOk(later) && now.day == later.day && k < Stop(jobs, now, |jobs|)
    requires Timed(jobs[k].schedule) && TimeOk(jobs[k].schedule)
    ensures var after := Outcome(jobs, now, app);
            k < Stop(after, later, |after|) <==> NoneAwakes(jobs, now, app, k)
  {
    var after := Outcome(jobs, now, app);
    var stop := Stop(after, later, |after|);
    TimedNeverFails(jobs, now, later, app, k);
    if stop <= k {
      if stop < |after| {
        LeftFails(jobs, now, later, app, stop);
      }
    } else {
      forall i | 0 <= i < k ensures !Fails(Left(jobs, now, app, i), now) {
        StopFirst(after, later, |after|, i);
        LeftFails(jobs, now, later, app, i);
      }
    }
  }

  /** Once a run is recorded, its target is served for the rest of the day. */
  lemma ServedIsOver(j: Job, now: Clock, later: Clock, app: bool)
    requires ClockOk(now) && ClockOk(later) && Timed(j.schedule) && TimeOk(j.schedule)
    requires IsDue(j, now) == Yes && now.day == later.day
    ensures !Runs(j.(force := false, lastRun := Some(now)), later, app)
  {}

  lemma OutcomeOfRun(jobs: seq<Job>, now: Clock, app: bool, k: nat)
    requires ClockOk(now) && k < Stop(jobs, now, |jobs|) && !jobs[k].force && Runs(jobs[k], now, app)
    ensures var n := Stop(jobs, now, |jobs|);
            Outcome(jobs, now, app)[k]
            == if n < |jobs| && !SavedBetween(jobs, now, app, k, n) then jobs[k]
               else jobs[k].(force := false, lastRun := Some(now))
  {
    PolledAt(jobs, now, app, |jobs|, k);
    if Stop(jobs, now, |jobs|) < |jobs| {
      SavedExactly(jobs, now, app, Stop(jobs, now, |jobs|), k);
    }
  }

  /** When a poll of the same day serves a target again that the poll before has served: if
      and only if that poll stopped further down, at a time that does not exist or an
      interval that reaches past the calendar, saved nothing after the run, no job before
      it awakes and, for a job without a last run, two minutes are not over. */
  lemma ServedAgain(jobs: seq<Job>, now: Clock, later: Clock, app: bool, k: nat)
    requires ClockOk(now) && ClockOk(later) && now.day == later.day && Micros(now) <= Micros(later)
    requires k < Stop(jobs, now, |jobs|) && Timed(jobs[k].schedule) && TimeOk(jobs[k].schedule)
    requires !jobs[k].force && Runs(jobs[k], now, app)
    ensures var after, n := Outcome(jobs, now, app), Stop(jobs, now, |jobs|);
            k < Stop(after, later, |after|) && Runs(after[k], later, app)
            <==> && n < |jobs| && !SavedBetween(jobs, now, app, k, n) && NoneAwakes(jobs, now, app, k)
                 && (jobs[k].lastRun.None?
                     ==> Micros(later) < Micros(Target(jobs[k].schedule, now.day)) + 2 * MINUTE)
  {
    ReachedAgain(jobs, now, later, app, k);
    DueAgain(jobs[k], now, later);
    ServedIsOver(jobs[k], now, later, app);
    OutcomeOfRun(jobs, now, app, k);
  }

  /** Two polls of one morning that stop at the second of two jobs. */
  lemma StoppedTwice(nine: Job, never: Job, first: Clock, second: Clock)
    requires ClockOk(first) && ClockOk(second)
    requires !nine.force && Runs(nine, first, true) && Runs(nine, second, true) && !Fails(nine, first)
    requires !Fails(nine, second) && Fails(never, first) && Fails(never, second)
    ensures LooksOk([Look(first), Look(second)])
    ensures FileLog([nine, never], [Look(first), Look(second)], true, 0) == [Ran(first, false), Ran(second, false)]
  {
    var jobs := [nine, never];
    var one: seq<FileEvent> := [Look(first)];
    var events: seq<FileEvent> := [Look(first), Look(second)];
    assert events[..1] == one && |one[..0]| == 0;
    assert LooksOk(one);
    assert Stop(jobs, first, 2) == 1 && Stop(jobs, second, 2) == 1;
    SavedUpTo(jobs, first, true, 1, 1);
    SavedExactly(jobs, first, true, 1, 0);
    assert FileAfter(jobs, one, true) == jobs;
    assert FileLog(jobs, one, true, 0) == [Ran(first, false)];
  }

  /** A job at nine that ran the day before. */
  function Nine(day: nat): Job
    requires day >= 1
  {
    Job(true, false, Daily(9, 0), true, false, Some(Clock(day - 1, 9 * HOUR)))
  }

  /** A job at nine and one at 25 o'clock: two polls of one morning serve nine o'clock twice. */
  lemma NineTwice(day: nat, script: bool)
    requires 2 <= day <= LAST_DAY
    ensures var first, second := Clock(day, 9 * HOUR), Clock(day, 9 * HOUR + MINUTE);
            var never := Job(true, false, Daily(25, 0), script, !script, None);
            && LooksOk([Look(first), Look(second)])
            && FileLog([Nine(day), never], [Look(first), Look(second)], true, 0)
               == [Ran(first, false), Ran(second, false)]
  {
    StoppedTwice(Nine(day), Job(true, false, Daily(25, 0), script, !script, None),
                 Clock(day, 9 * HOUR), Clock(day, 9 * HOUR + MINUTE));
  }

  /** And so do a job at nine and one every 9999999 days that was run once, although its
      schedule is well formed. */
  lemma NineTwiceByInterval(day: nat, last: nat, script: bool)
    requires 2 <= day <= LAST_DAY && 1 <= last <= LAST_DAY
    ensures var first, second := Clock(day, 9 * HOUR), Clock(day, 9 * HOUR + MINUTE);
            var never := Job(true, false, Interval(9_999_999 * DAY), script, !script, Some(Clock(last, 0)));
            && LooksOk([Look(first), Look(second)])
            && FileLog([Nine(day), never], [Look(first), Look(second)], true, 0)
               == [Ran(first, false), Ran(second, false)]
  {
    StoppedTwice(Nine(day), Job(true, false, Interval(9_999_999 * DAY), script, !script, Some(Clock(last, 0))),
                 Clock(day, 9 * HOUR), Clock(day, 9 * HOUR + MINUTE));
  }
}
