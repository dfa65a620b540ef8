/** Scheduled jobs (JobRunner.process_user and JobRunner._is_due in
    pawlia/automation.py). */
module Jobs {
  import opened Calendar
  import opened Errors

  const HOUR := 3_600_000_000
  const GUARD := 120_000_000

  /** A moment, as day number and microseconds since midnight. */
  datatype Clock = Clock(day: nat, tod: nat)

  predicate ClockOk(t: Clock) {
    1 <= t.day <= LAST_DAY && t.tod < DAY
  }

  function Micros(t: Clock): int {
    t.day * DAY + t.tod
  }

  /** What the text of a schedule says; numbers are as written, maybe out of range. */
  datatype Schedule =
    | Interval(length: int)
    | Weekly(weekday: int, hour: int, minute: int)
    | Monthly(monthday: int, hour: int, minute: int)
    | Daily(hour: int, minute: int)
    | Unreadable

  datatype Job = Job(enabled: bool, force: bool, schedule: Schedule, script: bool, instruction: bool,
                     lastRun: Option<Clock>)

  datatype Verdict = Yes | No | Raises

  /** The job is for a time of day on certain days. */
  predicate Timed(s: Schedule) {
    s.Weekly? || s.Monthly? || s.Daily?
  }

  /** `now.replace(hour=…, minute=…)` works. */
  predicate TimeOk(s: Schedule)
    requires Timed(s)
  {
    0 <= s.hour < 24 && 0 <= s.minute < 60
  }

  function TimeOf(s: Schedule): (t: nat)
    requires Timed(s) && TimeOk(s)
    ensures t < DAY
  {
    s.hour * HOUR + s.minute * MINUTE
  }

  /** A day on which the schedule has a target. */
  predicate OnDay(s: Schedule, day: nat)
    requires Timed(s) && day >= 1
  {
    match s
    case Weekly(weekday, _, _) => (day + 6) % 7 == weekday
    case Monthly(monthday, _, _) => FromOrdinal(day).d == monthday
    case Daily(_, _) => true
  }

  function Target(s: Schedule, day: nat): Clock
    requires Timed(s) && TimeOk(s)
  {
    Clock(day, TimeOf(s))
  }

  predicate NotRecently(j: Job, now: Clock) {
    j.lastRun.Some? ==> Micros(now) - Micros(j.lastRun.value) > GUARD
  }

  predicate InWindow(j: Job, now: Clock)
    requires Timed(j.schedule) && TimeOk(j.schedule)
  {
    var start := if j.lastRun.Some? then Micros(j.lastRun.value) else Micros(now) - 2 * MINUTE;
    start < Micros(Target(j.schedule, now.day)) <= Micros(now)
  }

  /** `timedelta` holds it: less than a milliard of days. */
  predicate IsSpan(length: int) {
    -999_999_999 * DAY <= length < 1_000_000_000 * DAY
  }

  /** The end of an interval from the last run can be computed. */
  predicate Reaches(length: int, lastRun: Option<Clock>) {
    IsSpan(length) && (lastRun.Some? ==> InCalendar(Micros(lastRun.value) + length))
  }

  function IsDue(j: Job, now: Clock): Verdict
    requires ClockOk(now)
  {
    match j.schedule
    case Unreadable => No
    case Interval(length) =>
      if !Reaches(length, j.lastRun) then Raises
      else if j.lastRun.None? || Micros(now) >= Micros(j.lastRun.value) + length then Yes
      else No
    case _ =>
      if !OnDay(j.schedule, now.day) then No
      else if !TimeOk(j.schedule) then Raises
      else if InWindow(j, now) && NotRecently(j, now) then Yes
      else No
  }

  /** Looking whether the job is due fails. */
  predicate Fails(j: Job, now: Clock)
    requires ClockOk(now)
  {
    j.enabled && !j.force && IsDue(j, now) == Raises
  }

  predicate Runs(j: Job, now: Clock, app: bool)
    requires ClockOk(now)
  {
    j.enabled && (j.force || IsDue(j, now) == Yes) && (j.script || (j.instruction && app))
  }

  /** A job after one poll. */
  function Polled(j: Job, now: Clock, app: bool): Job
    requires ClockOk(now)
  {
    if Runs(j, now, app) then j.(force := false, lastRun := Some(now)) else j
  }

  /** The first of n jobs at which the poll fails, or n. */
  function Stop(jobs: seq<Job>, now: Clock, n: nat): (r: nat)
    requires ClockOk(now) && n <= |jobs|
    ensures r <= n && (r < n ==> Fails(jobs[r], now))
  {
    if n == 0 then 0
    else
      var r := Stop(jobs, now, n - 1);
      if r == n - 1 && !Fails(jobs[n - 1], now) then n else r
  }

  function PolledTo(jobs: seq<Job>, now: Clock, app: bool, n: nat): (r: seq<Job>)
    requires ClockOk(now) && n <= |jobs|
    ensures |r| == |jobs|
  {
    if n == 0 then jobs else PolledTo(jobs, now, app, n - 1)[n - 1 := Polled(jobs[n - 1], now, app)]
  }

  lemma {:induction false} PolledAt(jobs: seq<Job>, now: Clock, app: bool, n: nat, i: nat)
    requires ClockOk(now) && n <= |jobs| && i < |jobs|
    ensures PolledTo(jobs, now, app, n)[i] == if i < n then Polled(jobs[i], now, app) else jobs[i]
  {
    if n > 0 {
      PolledAt(jobs, now, app, n - 1, i);
    }
  }

  lemma {:induction false} StopsLater(jobs: seq<Job>, now: Clock, n: nat, m: nat)
    requires ClockOk(now) && n <= m <= |jobs|
    ensures Stop(jobs, now, m) == Stop(jobs, now, n) || (Stop(jobs, now, n) == n && Stop(jobs, now, m) > n)
    decreases m
  {
    if n < m {
      StopsLater(jobs, now, n, m - 1);
    }
  }

  /** No job before the one at which the poll stops fails. */
  lemma {:induction false} StopFirst(jobs: seq<Job>, now: Clock, n: nat, i: nat)
    requires ClockOk(now) && n <= |jobs| && i < Stop(jobs, now, n)
    ensures !Fails(jobs[i], now)
  {
    if i < n - 1 && i < Stop(jobs, now, n - 1) {
      StopFirst(jobs, now, n - 1, i);
    }
  }

  /** Which jobs run, in order. */
  function Running(jobs: seq<Job>, now: Clock, app: bool, n: nat): seq<nat>
    requires ClockOk(now) && n <= |jobs|
  {
    if n == 0 then []
    else Running(jobs, now, app, n - 1) + if Runs(jobs[n - 1], now, app) then [n - 1] else []
  }

  /** What is in the file when the poll stops before job n: the file as it was, or as
      it was saved when the last forced job was about to run. */
  function Saved(jobs: seq<Job>, now: Clock, app: bool, n: nat): (r: seq<Job>)
    requires ClockOk(now) && n <= |jobs|
    ensures |r| == |jobs|
  {
    if n == 0 then jobs
    else if jobs[n - 1].force && Runs(jobs[n - 1], now, app) then
      PolledTo(jobs, now, app, n - 1)[n - 1 := jobs[n - 1].(force := false)]
    else Saved(jobs, now, app, n - 1)
  }

  /** What one poll leaves in the file. */
  function Outcome(jobs: seq<Job>, now: Clock, app: bool): (r: seq<Job>)
    requires ClockOk(now)
    ensures |r| == |jobs|
  {
    var n := Stop(jobs, now, |jobs|);
    if n == |jobs| then PolledTo(jobs, now, app, n) else Saved(jobs, now, app, n)
  }

  predicate Ascending(s: seq<nat>, limit: nat) {
    s == [] || (s[|s| - 1] < limit && Ascending(s[..|s| - 1], s[|s| - 1]))
  }

  lemma {:induction false} AscendingRaised(s: seq<nat>, limit: nat, higher: nat)
    requires Ascending(s, limit) && limit <= higher
    ensures Ascending(s, higher)
  {}

  /** Each job that is reached and due runs once, in the order of the file, and no other. */
  lemma {:induction false} RunningExactly(jobs: seq<Job>, now: Clock, app: bool, n: nat, k: nat)
    requires ClockOk(now) && n <= |jobs|
    ensures k in Running(jobs, now, app, n) <==> k < n && Runs(jobs[k], now, app)
    ensures Ascending(Running(jobs, now, app, n), n)
  {
    if n > 0 {
      var rest := Running(jobs, now, app, n - 1);
      RunningExactly(jobs, now, app, n - 1, k);
      if Runs(jobs[n - 1], now, app) {
        assert (rest + [n - 1])[..|rest|] == rest;
      } else {
        assert rest + [] == rest;
        AscendingRaised(rest, n - 1, n);
      }
    }
  }

  /** A poll before it comes to job k: what it has in memory and in the file, and whether
      there is something to save. */
  predicate Midway(jobs: seq<Job>, now: Clock, app: bool, k: nat, memory: seq<Job>, file: seq<Job>, changed: bool)
    requires ClockOk(now)
  {
    && k <= |jobs| == |memory| && Stop(jobs, now, k) == k
    && memory == PolledTo(jobs, now, app, k) && file == Saved(jobs, now, app, k)
    && (!changed ==> memory == file)
  }

  lemma Stopped(jobs: seq<Job>, now: Clock, app: bool, k: nat, memory: seq<Job>, file: seq<Job>, changed: bool)
    requires ClockOk(now) && Midway(jobs, now, app, k, memory, file, changed) && k < |jobs| && Fails(memory[k], now)
    ensures Stop(jobs, now, |jobs|) == k && file == Outcome(jobs, now, app)
  {
    PolledAt(jobs, now, app, k, k);
    StopsLater(jobs, now, k + 1, |jobs|);
  }

  lemma Finished(jobs: seq<Job>, now: Clock, app: bool, memory: seq<Job>, file: seq<Job>, changed: bool)
    requires ClockOk(now) && Midway(jobs, now, app, |jobs|, memory, file, changed)
    ensures Stop(jobs, now, |jobs|) == |jobs| && memory == Outcome(jobs, now, app) && (!changed ==> file == memory)
  {}

  /** A job that does not run is left alone. */
  lemma Passed(jobs: seq<Job>, now: Clock, app: bool, k: nat, memory: seq<Job>, file: seq<Job>, changed: bool)
    requires ClockOk(now) && Midway(jobs, now, app, k, memory, file, changed) && k < |jobs|
    requires !Runs(memory[k], now, app) && !Fails(memory[k], now)
    ensures Midway(jobs, now, app, k + 1, memory, file, changed)
    ensures Running(jobs, now, app, k + 1) == Running(jobs, now, app, k)
  {
    PolledAt(jobs, now, app, k, k);
    assert PolledTo(jobs, now, app, k + 1) == PolledTo(jobs, now, app, k);
  }

  /** A job that runs is marked, and the file saved before when it was forced. */
  lemma Committed(jobs: seq<Job>, now: Clock, app: bool, k: nat, memory: seq<Job>, file: seq<Job>, changed: bool)
    requires ClockOk(now) && Midway(jobs, now, app, k, memory, file, changed) && k < |jobs|
    requires Runs(memory[k], now, app)
    ensures Midway(jobs, now, app, k + 1, Marked(memory, k, now), Cleared(memory, k, file), true)
    ensures Running(jobs, now, app, k + 1) == Running(jobs, now, app, k) + [k]
  {
    PolledAt(jobs, now, app, k, k);
    assert PolledTo(jobs, now, app, k + 1) == Marked(memory, k, now);
  }

  function Marked(memory: seq<Job>, k: nat, now: Clock): seq<Job>
    requires k < |memory|
  {
    memory[k := memory[k].(force := false, lastRun := Some(now))]
  }

  /** The file when job k is about to run: saved without its flag when it is forced. */
  function Cleared(memory: seq<Job>, k: nat, file: seq<Job>): seq<Job>
    requires k < |memory|
  {
    if memory[k].force then memory[k := memory[k].(force := false)] else file
  }

  class JobRunner {
    var file: seq<Job>
    var runs: seq<nat>

    constructor (jobs: seq<Job>)
      ensures file == jobs && runs == []
    {
      file, runs := jobs, [];
    }

    /** Whether a job is run now; reading its schedule may fail. */
    static method Decide(job: Job, now: Clock, app: bool) returns (verdict: Verdict)
      requires ClockOk(now)
      ensures verdict == Raises <==> Fails(job, now)
      ensures verdict == Yes <==> Runs(job, now, app)
    {
      if !job.enabled {
        return No;
      }
      if !job.force {
        var due := IsDue(job, now);
        if due != Yes {
          return due;
        }
      }
      if !job.script && !job.instruction {
        return No;
      }
      if !job.script && !app {
        return No;
      }
      return Yes;
    }

    /** One poll. When every schedule can be read, each job is polled by itself and the
        file holds the outcome. When one cannot, the poll stops there: what has run has
        run, but the file is as it was, or as it was saved before a forced run. */
    method Process(now: Clock, app: bool) returns (ok: bool)
      requires ClockOk(now)
      modifies this
      ensures ok <==> Stop(old(file), now, |old(file)|) == |old(file)|
      ensures file == Outcome(old(file), now, app)
      ensures runs == old(runs) + Running(old(file), now, app, Stop(old(file), now, |old(file)|))
    {
      ghost var jobs := file;
      var memory := file;
      var changed := false;
      for k := 0 to |memory|
        invariant Midway(jobs, now, app, k, memory, file, changed)
        invariant runs == old(runs) + Running(jobs, now, app, k)
      {
        var job := memory[k];
        var verdict := Decide(job, now, app);
        if verdict == Raises {
          Stopped(jobs, now, app, k, memory, file, changed);
          return false;
        }
        if verdict == No {
          Passed(jobs, now, app, k, memory, file, changed);
          continue;
        }
        Committed(jobs, now, app, k, memory, file, changed);
        if job.force {
          file := memory[k := job.(force := false)];
        }
        runs := runs + [k];
        memory := memory[k := job.(force := false, lastRun := Some(now))];
        changed := true;
      }
      Finished(jobs, now, app, memory, file, changed);
      if changed {
        file := memory;
      }
      return true;
    }
  }
}
