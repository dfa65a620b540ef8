/** One job over any run of polls and forced runs. */
module JobLaws {
  import opened Calendar
  import opened Errors
  import opened Jobs

  /** A poll, or a user asking for a run. */
  datatype Event = Poll(now: Clock) | Force

  /** A run of the job: when, and whether it was forced. */
  datatype Ran = Ran(at: Clock, forced: bool)

  predicate EventsOk(events: seq<Event>) {
    forall k | 0 <= k < |events| && events[k].Poll? :: ClockOk(events[k].now)
  }

  function After(j: Job, events: seq<Event>, app: bool): Job
    requires EventsOk(events)
  {
    if events == [] then j
    else
      var before := After(j, events[..|events| - 1], app);
      match events[|events| - 1]
      case Poll(now) => Polled(before, now, app)
      case Force => before.(force := true)
  }

  function Log(j: Job, events: seq<Event>, app: bool): seq<Ran>
    requires EventsOk(events)
  {
    if events == [] then []
    else
      var init := events[..|events| - 1];
      var before := After(j, init, app);
      match events[|events| - 1]
      case Poll(now) => Log(j, init, app) + if Runs(before, now, app) then [Ran(now, before.force)] else []
      case Force => Log(j, init, app)
  }

  /** The time of the latest poll, or of the last run before. */
  function Latest(j: Job, events: seq<Event>): int {
    if events == [] then if j.lastRun.Some? then Micros(j.lastRun.value) else 0
    else if events[|events| - 1].Poll? then Micros(events[|events| - 1].now)
    else Latest(j, events[..|events| - 1])
  }

  /** The clock does not go back. */
  predicate Forward(j: Job, events: seq<Event>) {
    events == []
    || (var n := |events| - 1;
        Forward(j, events[..n]) && (events[n].Poll? ==> Latest(j, events[..n]) <= Micros(events[n].now)))
  }

  /** Schedule and switches stay; the last run is the last one in the log. */
  lemma {:induction false} Kept(j: Job, events: seq<Event>, app: bool)
    requires EventsOk(events)
    ensures var a, log := After(j, events, app), Log(j, events, app);
            && a.schedule == j.schedule && a.enabled == j.enabled && a.script == j.script
            && a.instruction == j.instruction
            && a.lastRun == if log == [] then j.lastRun else Some(log[|log| - 1].at)
  {
    if events != [] {
      Kept(j, events[..|events| - 1], app);
    }
  }

  /** No run in the log is later than the latest poll. */
  lemma {:induction false} LogUpToNow(j: Job, events: seq<Event>, app: bool)
    requires EventsOk(events) && Forward(j, events)
    ensures var log := Log(j, events, app); log != [] ==> Micros(log[|log| - 1].at) <= Latest(j, events)
  {
    if events != [] {
      LogUpToNow(j, events[..|events| - 1], app);
    }
  }

  // ------------------------------------------------------------------ timed jobs

  /** In order of time; an unforced run serves the target of its day: the run before
      was earlier than the target, and more than two minutes ago. */
  predicate Serving(s: Schedule, log: seq<Ran>)
    requires Timed(s) && TimeOk(s)
  {
    log == []
    || (var n := |log| - 1;
        && Serving(s, log[..n])
        && (!log[n].forced ==>
              && ClockOk(log[n].at) && OnDay(s, log[n].at.day)
              && Micros(Target(s, log[n].at.day)) <= Micros(log[n].at)
              && (n > 0 ==> Micros(log[n - 1].at) < Micros(Target(s, log[n].at.day))
                            && Micros(log[n].at) - Micros(log[n - 1].at) > GUARD))
        && (n > 0 ==> Micros(log[n - 1].at) <= Micros(log[n].at)))
  }

  lemma {:induction false} LogServes(j: Job, events: seq<Event>, app: bool)
    requires EventsOk(events) && Forward(j, events) && Timed(j.schedule) && TimeOk(j.schedule)
    ensures Serving(j.schedule, Log(j, events, app))
  {
    if events != [] {
      var n := |events| - 1;
      var init := events[..n];
      LogServes(j, init, app);
      Kept(j, init, app);
      LogUpToNow(j, init, app);
      var before, log := After(j, init, app), Log(j, init, app);
      if events[n].Poll? && Runs(before, events[n].now, app) {
        var r := Ran(events[n].now, before.force);
        assert (log + [r])[..|log|] == log;
      } else {
        assert log + [] == log;
      }
    }
  }

  lemma {:induction false} LogOrdered(s: Schedule, log: seq<Ran>, i: nat, k: nat)
    requires Timed(s) && TimeOk(s) && Serving(s, log) && i <= k < |log|
    ensures Micros(log[i].at) <= Micros(log[k].at)
  {
    if k < |log| - 1 {
      LogOrdered(s, log[..|log| - 1], i, k);
    } else if i < k {
      LogOrdered(s, log[..|log| - 1], i, k - 1);
    }
  }

  lemma {:induction false} ServingAt(s: Schedule, log: seq<Ran>, k: nat)
    requires Timed(s) && TimeOk(s) && Serving(s, log) && k < |log| && !log[k].forced
    ensures Micros(Target(s, log[k].at.day)) <= Micros(log[k].at)
    ensures k > 0 ==> Micros(log[k - 1].at) < Micros(Target(s, log[k].at.day))
  {
    if k < |log| - 1 {
      ServingAt(s, log[..|log| - 1], k);
    }
  }

  /** Over any run of polls and forced runs, the targets that are served are strictly
      increasing: each is served at most once. */
  lemma ServedOnce(j: Job, events: seq<Event>, app: bool, i: nat, k: nat)
    requires EventsOk(events) && Forward(j, events) && Timed(j.schedule) && TimeOk(j.schedule)
    requires i < k < |Log(j, events, app)|
    requires !Log(j, events, app)[i].forced && !Log(j, events, app)[k].forced
    ensures var log := Log(j, events, app);
            Micros(Target(j.schedule, log[i].at.day)) < Micros(Target(j.schedule, log[k].at.day))
  {
    var log := Log(j, events, app);
    LogServes(j, events, app);
    ServingAt(j.schedule, log, i);
    ServingAt(j.schedule, log, k);
    LogOrdered(j.schedule, log, i, k - 1);
  }

  // -------------------------------------------------------------------- one day

  /** The poll comes at or after the target of the day, past the guard of two minutes
      after the last run; without a last run, within two minutes. */
  predicate Ready(j: Job, now: Clock)
    requires Timed(j.schedule) && TimeOk(j.schedule)
  {
    var target := Micros(Target(j.schedule, now.day));
    && target <= Micros(now)
    && if j.lastRun.Some? then Micros(now) - Micros(j.lastRun.value) > GUARD else Micros(now) < target + 2 * MINUTE
  }

  function Polls(times: seq<Clock>): seq<Event> {
    if times == [] then [] else Polls(times[..|times| - 1]) + [Poll(times[|times| - 1])]
  }

  /** The first poll that is ready. */
  function FirstReady(j: Job, times: seq<Clock>): Option<Clock>
    requires Timed(j.schedule) && TimeOk(j.schedule)
  {
    if times == [] then None
    else
      var earlier := FirstReady(j, times[..|times| - 1]);
      if earlier.Some? then earlier
      else if Ready(j, times[|times| - 1]) then Some(times[|times| - 1])
      else None
  }

  predicate InDay(times: seq<Clock>, day: nat) {
    times == []
    || (var n := |times| - 1;
        && InDay(times[..n], day) && ClockOk(times[n]) && times[n].day == day
        && (n > 0 ==> Micros(times[n - 1]) <= Micros(times[n])))
  }

  lemma PollPush(j: Job, events: seq<Event>, now: Clock, app: bool)
    requires EventsOk(events) && ClockOk(now)
    ensures EventsOk(events + [Poll(now)])
    ensures var before := After(j, events, app);
            && After(j, events + [Poll(now)], app) == Polled(before, now, app)
            && Log(j, events + [Poll(now)], app)
               == Log(j, events, app) + if Runs(before, now, app) then [Ran(now, before.force)] else []
  {
    assert (events + [Poll(now)])[..|events|] == events;
  }

  /** What a day's polls should come to. */
  predicate ServedBy(j: Job, events: seq<Event>, served: Option<Clock>, app: bool)
    requires EventsOk(events)
  {
    && Log(j, events, app) == (match served { case None => [] case Some(t) => [Ran(t, false)] })
    && After(j, events, app) == j.(lastRun := if served.Some? then served else j.lastRun, force := false)
  }

  /** On a day of its schedule a job that was not run since its target runs exactly
      once, at the first poll that is ready, and not at all if none is. */
  lemma {:induction false} DayServed(j: Job, times: seq<Clock>, day: nat, app: bool)
    requires InDay(times, day) && day >= 1 && Timed(j.schedule) && TimeOk(j.schedule) && OnDay(j.schedule, day)
    requires j.enabled && !j.force && (j.script || (j.instruction && app))
    requires j.lastRun.Some? ==> Micros(j.lastRun.value) < Micros(Target(j.schedule, day))
    ensures EventsOk(Polls(times)) && ServedBy(j, Polls(times), FirstReady(j, times), app)
    ensures FirstReady(j, times).Some? ==> Micros(Target(j.schedule, day)) <= Micros(FirstReady(j, times).value)
  {
    if times != [] {
      var n := |times| - 1;
      DayServed(j, times[..n], day, app);
      PollPush(j, Polls(times[..n]), times[n], app);
      DayStep(j, After(j, Polls(times[..n]), app), times[n], FirstReady(j, times[..n]), app);
    }
  }

  lemma DayStep(j: Job, before: Job, now: Clock, served: Option<Clock>, app: bool)
    requires ClockOk(now) && Timed(j.schedule) && TimeOk(j.schedule) && OnDay(j.schedule, now.day)
    requires j.enabled && (j.script || (j.instruction && app))
    requires before == j.(lastRun := if served.Some? then served else j.lastRun, force := false)
    requires j.lastRun.Some? ==> Micros(j.lastRun.value) < Micros(Target(j.schedule, now.day))
    requires served.Some? ==> Micros(Target(j.schedule, now.day)) <= Micros(served.value)
    ensures Runs(before, now, app) <==> served.None? && Ready(j, now)
  {}

  // ------------------------------------------------------------------ intervals

  /** An unforced run comes at least the interval after the run before. */
  predicate Spaced(length: int, log: seq<Ran>) {
    log == []
    || (var n := |log| - 1;
        && Spaced(length, log[..n])
        && (n > 0 && !log[n].forced ==> Micros(log[n].at) - Micros(log[n - 1].at) >= length)
        && (n > 0 ==> Micros(log[n - 1].at) <= Micros(log[n].at)))
  }

  lemma {:induction false} LogSpaced(j: Job, events: seq<Event>, app: bool)
    requires EventsOk(events) && Forward(j, events) && j.schedule.Interval?
    ensures Spaced(j.schedule.length, Log(j, events, app))
  {
    if events != [] {
      var n := |events| - 1;
      var init := events[..n];
      LogSpaced(j, init, app);
      Kept(j, init, app);
      LogUpToNow(j, init, app);
      var before, log := After(j, init, app), Log(j, init, app);
      if events[n].Poll? && Runs(before, events[n].now, app) {
        assert (log + [Ran(events[n].now, before.force)])[..|log|] == log;
      } else {
        assert log + [] == log;
      }
    }
  }

  /** An unforced run of an interval job is at least the interval after every run
      before it, forced or not. */
  lemma {:induction false} SpacedPairs(length: int, log: seq<Ran>, i: nat, k: nat)
    requires Spaced(length, log) && i < k < |log|
    ensures Micros(log[i].at) <= Micros(log[k].at)
    ensures !log[k].forced ==> Micros(log[k].at) - Micros(log[i].at) >= length
  {
    if k < |log| - 1 {
      SpacedPairs(length, log[..|log| - 1], i, k);
    } else if i < k - 1 {
      SpacedPairs(length, log[..|log| - 1], i, k - 1);
    }
  }

  lemma IntervalApart(j: Job, events: seq<Event>, app: bool, i: nat, k: nat)
    requires EventsOk(events) && Forward(j, events) && j.schedule.Interval?
    requires i < k < |Log(j, events, app)| && !Log(j, events, app)[k].forced
    ensures var log := Log(j, events, app); Micros(log[k].at) - Micros(log[i].at) >= j.schedule.length
  {
    LogSpaced(j, events, app);
    SpacedPairs(j.schedule.length, Log(j, events, app), i, k);
  }
}
