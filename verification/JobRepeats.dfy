/** When polling alone can serve a target of a job twice (JobRunner.process_user in
    pawlia/automation.py): a condition on the job file as it stands, over all runs of
    polls. */
module JobRepeats {
  import opened Calendar
  import opened Jobs
  import opened JobLaws
  import opened JobFiles

  /** No run is asked for, and no interval reaches past the calendar, whenever the job is
      run up to `end`. A time of day may not exist. */
  predicate Steady(j: Job, end: Clock) {
    && !j.force
    && (j.enabled && j.schedule.Interval? ==>
          && 0 <= j.schedule.length && InCalendar(Micros(end) + j.schedule.length)
          && (j.lastRun.Some? ==> DAY <= Micros(j.lastRun.value) <= Micros(end)))
  }

  predicate AllSteady(jobs: seq<Job>, end: Clock) {
    forall i | 0 <= i < |jobs| :: Steady(jobs[i], end)
  }

  predicate OnlyLooks(events: seq<FileEvent>) {
    forall i | 0 <= i < |events| :: events[i].Look?
  }

  /** The same job, but for its last run. */
  predicate Alike(a: Job, b: Job) {
    a == b.(lastRun := a.lastRun)
  }

  /** And that is not earlier. */
  predicate Older(a: Job, b: Job) {
    && Alike(a, b)
    && (a.lastRun.Some? ==> b.lastRun.Some? && Micros(a.lastRun.value) <= Micros(b.lastRun.value))
  }

  // --------------------------------------------------------------------- one poll

  lemma SteadyPolled(j: Job, now: Clock, end: Clock, app: bool)
    requires ClockOk(now) && Micros(now) <= Micros(end) && Steady(j, end)
    ensures Steady(Polled(j, now, app), end) && Alike(j, Polled(j, now, app))
    ensures Timed(j.schedule) && TimeOk(j.schedule) ==> Older(j, Polled(j, now, app))
  {}

  /** Without forced jobs, a poll that stops leaves the file as it was. */
  lemma {:induction false} NothingSaved(jobs: seq<Job>, now: Clock, end: Clock, app: bool, n: nat)
    requires ClockOk(now) && AllSteady(jobs, end) && n <= |jobs|
    ensures Saved(jobs, now, app, n) == jobs
  {
    if n > 0 {
      NothingSaved(jobs, now, end, app, n - 1);
    }
  }

  lemma SteadyOutcome(jobs: seq<Job>, now: Clock, end: Clock, app: bool, i: nat)
    requires ClockOk(now) && Micros(now) <= Micros(end) && AllSteady(jobs, end) && i < |jobs|
    ensures var j := Outcome(jobs, now, app)[i];
            Steady(j, end) && Alike(jobs[i], j) && (Timed(j.schedule) && TimeOk(j.schedule) ==> Older(jobs[i], j))
  {
    PolledAt(jobs, now, app, |jobs|, i);
    NothingSaved(jobs, now, end, app, Stop(jobs, now, |jobs|));
    SteadyPolled(jobs[i], now, end, app);
  }

  /** Whether such a job fails does not depend on its last run. */
  lemma FailsAlike(a: Job, b: Job, now: Clock, end: Clock)
    requires ClockOk(now) && ClockOk(end) && Steady(a, end) && Steady(b, end) && Alike(a, b)
    ensures Fails(a, now) <==> Fails(b, now)
  {
    FailsExactly(a, now);
    FailsExactly(b, now);
  }

  lemma {:induction false} StopAlike(a: seq<Job>, b: seq<Job>, now: Clock, later: Clock, n: nat)
    requires ClockOk(now) && ClockOk(later) && n <= |a| == |b|
    requires forall i | 0 <= i < n :: Fails(a[i], now) <==> Fails(b[i], later)
    ensures Stop(a, now, n) == Stop(b, later, n)
  {
    if n > 0 {
      StopAlike(a, b, now, later, n - 1);
    }
  }

  // --------------------------------------------------------------------- many polls

  lemma {:induction false} RunAlike(jobs: seq<Job>, events: seq<FileEvent>, end: Clock, app: bool, i: nat)
    requires LooksOk(events) && OnlyLooks(events) && Until(events, end) && AllSteady(jobs, end) && i < |jobs|
    ensures AllSteady(FileAfter(jobs, events, app), end)
    ensures var j := FileAfter(jobs, events, app)[i];
            Alike(jobs[i], j) && (Timed(j.schedule) && TimeOk(j.schedule) ==> Older(jobs[i], j))
  {
    if events != [] {
      var init := events[..|events| - 1];
      var before, now := FileAfter(jobs, init, app), events[|events| - 1].now;
      RunAlike(jobs, init, end, app, i);
      forall m | 0 <= m < |jobs| ensures Steady(Outcome(before, now, app)[m], end) {
        SteadyOutcome(before, now, end, app, m);
      }
      SteadyOutcome(before, now, end, app, i);
    }
  }

  lemma {:induction false} NoneForced(jobs: seq<Job>, events: seq<FileEvent>, end: Clock, app: bool, k: nat, a: nat)
    requires LooksOk(events) && OnlyLooks(events) && Until(events, end) && AllSteady(jobs, end) && k < |jobs|
    requires a < |FileLog(jobs, events, app, k)|
    ensures !FileLog(jobs, events, app, k)[a].forced
  {
    var init := events[..|events| - 1];
    RunAlike(jobs, init, end, app, k);
    if a < |FileLog(jobs, init, app, k)| {
      NoneForced(jobs, init, end, app, k, a);
    }
  }

  /** A poll of the run whose run of the job is not recorded. */
  lemma {:induction false} Unrecorded(jobs: seq<Job>, events: seq<FileEvent>, app: bool, k: nat) returns (n: nat)
    requires LooksOk(events) && k < |jobs| && !Remembered(jobs, events, app, k)
    ensures n < |events| && events[n].Look? && LooksOk(events[..n]) && ClockOk(events[n].now)
    ensures !Recorded(FileAfter(jobs, events[..n], app), events[n].now, app, k)
  {
    n := |events| - 1;
    if !Remembered(jobs, events[..n], app, k) {
      var init := events[..n];
      n := Unrecorded(jobs, init, app, k);
      assert init[..n] == events[..n];
    }
  }

  lemma {:induction false} PrefixUntil(events: seq<FileEvent>, end: Clock, n: nat)
    requires Until(events, end) && n < |events|
    ensures Until(events[..n], end) && (events[n].Look? ==> Micros(events[n].now) <= Micros(end))
  {
    var last := |events| - 1;
    if n < last {
      PrefixUntil(events[..last], end, n);
      assert events[..last][..n] == events[..n];
    }
  }

  // ---------------------------------------------------------------- the condition

  /** A poll of the file as it stands would run job k and stop at a later one. */
  predicate Threatened(jobs: seq<Job>, now: Clock, app: bool, k: nat)
    requires ClockOk(now) && k < |jobs|
  {
    Runs(jobs[k], now, app) && k < Stop(jobs, now, |jobs|) < |jobs|
  }

  ghost predicate SomeThreat(jobs: seq<Job>, end: Clock, app: bool, k: nat)
    requires k < |jobs|
  {
    exists now: Clock | ClockOk(now) && Micros(now) <= Micros(end) :: Threatened(jobs, now, app, k)
  }

  /** Two runs on one day serve one target. */
  predicate Twice(log: seq<Ran>) {
    exists a, b | 0 <= a < b < |log| :: log[a].at.day == log[b].at.day
  }

  /** Polls up to `end`, with a clock that does not go back. */
  predicate PollsOnly(jobs: seq<Job>, events: seq<FileEvent>, end: Clock, k: nat)
    requires k < |jobs|
  {
    LooksOk(events) && OnlyLooks(events) && Until(events, end) && Forward(jobs[k], For(k, events))
  }

  /** The run serves a target of the job twice. */
  predicate Repeats(jobs: seq<Job>, events: seq<FileEvent>, end: Clock, app: bool, k: nat)
    requires k < |jobs|
  {
    PollsOnly(jobs, events, end, k) && Twice(FileLog(jobs, events, app, k))
  }

  lemma TwiceUnrecorded(jobs: seq<Job>, events: seq<FileEvent>, end: Clock, app: bool, k: nat)
    requires AllSteady(jobs, end) && k < |jobs| && Timed(jobs[k].schedule) && TimeOk(jobs[k].schedule)
    requires Repeats(jobs, events, end, app, k)
    ensures !Remembered(jobs, events, app, k)
  {
    var log := FileLog(jobs, events, app, k);
    var a, b :| 0 <= a < b < |log| && log[a].at.day == log[b].at.day;
    NoneForced(jobs, events, end, app, k, a);
    NoneForced(jobs, events, end, app, k, b);
    if Remembered(jobs, events, app, k) {
      FileServedOnce(jobs, events, app, k, a, b);
    }
  }

  /** A target that is due for a job that was run is due for it before, too, or was when its
      time came. */
  lemma DueBefore(a: Job, b: Job, now: Clock, app: bool) returns (t: Clock)
    requires ClockOk(now) && Timed(a.schedule) && TimeOk(a.schedule) && !b.force && Older(a, b) && Runs(b, now, app)
    ensures ClockOk(t) && t.day == now.day && Micros(t) <= Micros(now) && Runs(a, t, app)
  {
    t := if a.lastRun.Some? || b.lastRun.None? then now else Target(a.schedule, now.day);
  }

  lemma ThreatBefore(jobs: seq<Job>, after: seq<Job>, now: Clock, end: Clock, app: bool, k: nat)
    requires ClockOk(now) && ClockOk(end) && Micros(now) <= Micros(end)
    requires |after| == |jobs| && AllSteady(jobs, end) && AllSteady(after, end)
    requires forall i | 0 <= i < |jobs| :: Alike(jobs[i], after[i])
    requires k < |jobs| && Timed(jobs[k].schedule) && TimeOk(jobs[k].schedule) && Older(jobs[k], after[k])
    requires Threatened(after, now, app, k)
    ensures SomeThreat(jobs, end, app, k)
  {
    var t := DueBefore(jobs[k], after[k], now, app);
    forall i | 0 <= i < |jobs| ensures Fails(jobs[i], t) <==> Fails(after[i], now) {
      SameDay(jobs[i], t, now);
      FailsAlike(jobs[i], after[i], now, end);
    }
    StopAlike(jobs, after, t, now, |jobs|);
    assert Threatened(jobs, t, app, k);
  }

  lemma TwiceThreatened(jobs: seq<Job>, events: seq<FileEvent>, end: Clock, app: bool, k: nat)
    requires AllSteady(jobs, end) && ClockOk(end) && k < |jobs|
    requires Timed(jobs[k].schedule) && TimeOk(jobs[k].schedule)
    requires Repeats(jobs, events, end, app, k)
    ensures SomeThreat(jobs, end, app, k)
  {
    TwiceUnrecorded(jobs, events, end, app, k);
    var n := Unrecorded(jobs, events, app, k);
    PrefixUntil(events, end, n);
    var after := FileAfter(jobs, events[..n], app);
    forall i | 0 <= i < |jobs| ensures Alike(jobs[i], after[i]) {
      RunAlike(jobs, events[..n], end, app, i);
    }
    RunAlike(jobs, events[..n], end, app, k);
    ThreatBefore(jobs, after, events[n].now, end, app, k);
  }

  /** Two polls at the moment of the threat. */
  lemma ThreatTwice(jobs: seq<Job>, now: Clock, end: Clock, app: bool, k: nat)
    requires AllSteady(jobs, end) && ClockOk(now) && Micros(now) <= Micros(end) && k < |jobs|
    requires Timed(jobs[k].schedule) && TimeOk(jobs[k].schedule) && Threatened(jobs, now, app, k)
    ensures Repeats(jobs, [Look(now), Look(now)], end, app, k)
  {
    var one: seq<FileEvent> := [Look(now)];
    var events: seq<FileEvent> := [Look(now), Look(now)];
    assert events[..1] == one && |one[..0]| == 0;
    assert LooksOk(one) && Until(one, end);
    NothingSaved(jobs, now, end, app, Stop(jobs, now, |jobs|));
    assert FileAfter(jobs, one, app) == jobs;
    assert FileLog(jobs, one, app, k) == [Ran(now, false)];
    TwoForward(jobs, now, app, k);
    var log := FileLog(jobs, events, app, k);
    assert log == [Ran(now, false), Ran(now, false)];
    assert log[0].at.day == log[1].at.day;
  }

  lemma TwoLooks(now: Clock, k: nat)
    ensures For(k, [Look(now), Look(now)]) == [Poll(now), Poll(now)]
  {
    var one: seq<FileEvent> := [Look(now)];
    assert |one[..0]| == 0;
    assert For(k, one) == [Poll(now)];
    assert [Look(now), Look(now)][..1] == one;
  }

  lemma TwoPolls(j: Job, now: Clock)
    requires Forward(j, [Poll(now)])
    ensures Forward(j, [Poll(now), Poll(now)])
  {
    LatestPush(j, [], Poll(now));
    LatestPush(j, [Poll(now)], Poll(now));
    assert [] + [Poll(now)] == [Poll(now)] && [Poll(now)] + [Poll(now)] == [Poll(now), Poll(now)];
  }

  lemma OnePoll(j: Job, now: Clock, app: bool)
    requires ClockOk(now) && Timed(j.schedule) && TimeOk(j.schedule) && !j.force && Runs(j, now, app)
    ensures Forward(j, [Poll(now)])
  {
    LatestPush(j, [], Poll(now));
    assert [] + [Poll(now)] == [Poll(now)];
  }

  lemma TwoForward(jobs: seq<Job>, now: Clock, app: bool, k: nat)
    requires ClockOk(now) && k < |jobs| && Timed(jobs[k].schedule) && TimeOk(jobs[k].schedule)
    requires !jobs[k].force && Runs(jobs[k], now, app)
    ensures Forward(jobs[k], For(k, [Look(now), Look(now)]))
  {
    TwoLooks(now, k);
    OnePoll(jobs[k], now, app);
    TwoPolls(jobs[k], now);
  }

  /** Polling alone can serve a target of a job twice, by whatever run, if and only if one
      poll of the file as it stands would run the job and stop at a later one. */
  lemma TwiceExactly(jobs: seq<Job>, end: Clock, app: bool, k: nat)
    requires AllSteady(jobs, end) && ClockOk(end) && k < |jobs|
    requires Timed(jobs[k].schedule) && TimeOk(jobs[k].schedule)
    ensures (exists events :: Repeats(jobs, events, end, app, k)) <==> SomeThreat(jobs, end, app, k)
  {
    if SomeThreat(jobs, end, app, k) {
      var now: Clock :| ClockOk(now) && Micros(now) <= Micros(end) && Threatened(jobs, now, app, k);
      ThreatTwice(jobs, now, end, app, k);
    } else {
      forall events ensures !Repeats(jobs, events, end, app, k) {
        if Repeats(jobs, events, end, app, k) {
          TwiceThreatened(jobs, events, end, app, k);
        }
      }
    }
  }
}
