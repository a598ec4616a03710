/**
 * CScheduler's ticks: the times of day of SchedulerJobs.h, the handler of an alarm tick, and what
 * a whole run of ticks fires.
 */
module Scheduler {
  import opened Basics

  // ---------------------------------------------------------------- CScheduleTime

  datatype CScheduleTime = CScheduleTime(h: int, m: int, s: int, dow: int)

  const ZERO := CScheduleTime(0, 0, 0, 0)
  const DAY := 86400
  const FULL_DAY := 24 * 3600 + 60 * 60 + 0

  /** Integer division of the source: towards zero. */
  function Quot(a: int, b: int): int
    requires 0 < b
  {
    if a >= 0 then a / b else -(-a / b)
  }

  function Rem(a: int, b: int): int
    requires 0 < b
  {
    a - b * Quot(a, b)
  }

  function SetHour(t: CScheduleTime, h: int): CScheduleTime
  {
    if 0 <= h < 24 then t.(h := h) else t
  }

  function SetMinute(t: CScheduleTime, m: int): CScheduleTime
  {
    if 0 <= m < 60 then t.(m := m) else t
  }

  function SetSecond(t: CScheduleTime, s: int): CScheduleTime
  {
    if 0 <= s < 60 then t.(s := s) else t
  }

  function FromWhole(whole: int): CScheduleTime
  {
    SetSecond(SetMinute(SetHour(ZERO, Quot(whole, 3600)), Quot(Rem(whole, 3600), 60)), Rem(Rem(whole, 3600), 60))
  }

  function DaySeconds(t: CScheduleTime): int
  {
    t.h * 3600 + t.m * 60 + t.s
  }

  /** A count of seconds survives being taken apart exactly if it lies within one day. */
  lemma WholeSurvivesIff(whole: int)
    ensures DaySeconds(FromWhole(whole)) == whole <==> 0 <= whole < DAY
    ensures 0 <= DaySeconds(FromWhole(whole)) < DAY
  {
    if whole >= 0 {
      assert whole == 3600 * (whole / 3600) + whole % 3600;
      assert Rem(whole, 3600) == whole % 3600;
      var r := whole % 3600;
      assert r == 60 * (r / 60) + r % 60 && Rem(r, 60) == r % 60;
    }
  }

  // ---------------------------------------------------------------- jobs

  /** A stored job; `id` (history) is its number in the order of adding, `since` how many windows
      had been processed when it was added. */
  datatype Job = Job(time: CScheduleTime, what: nat, id: nat, since: nat)

  function Secs(j: Job): int
  {
    DaySeconds(j.time)
  }

  /** multimap::insert: behind every entry that is not later. */
  function Inserted(jobs: seq<Job>, j: Job): seq<Job>
  {
    if jobs == [] || Secs(j) < Secs(jobs[0]) then [j] + jobs else [jobs[0]] + Inserted(jobs[1..], j)
  }

  /** The jobs whose time lies strictly between, in their order. */
  function Between(jobs: seq<Job>, after: int, before: int): seq<Job>
  {
    if jobs == [] then []
    else (if after < Secs(jobs[0]) < before then [jobs[0]] else []) + Between(jobs[1..], after, before)
  }

  lemma {:induction false} BetweenAppend(a: seq<Job>, b: seq<Job>, after: int, before: int)
    ensures Between(a + b, after, before) == Between(a, after, before) + Between(b, after, before)
  {
    if a == [] {
      assert a + b == b;
    } else {
      assert (a + b)[0] == a[0] && (a + b)[1..] == a[1..] + b;
      BetweenAppend(a[1..], b, after, before);
    }
  }

  ghost predicate SortedBySecs(jobs: seq<Job>)
  {
    forall i, j :: 0 <= i < j < |jobs| ==> Secs(jobs[i]) <= Secs(jobs[j])
  }

  ghost predicate DistinctIds(jobs: seq<Job>)
  {
    forall i, j :: 0 <= i < j < |jobs| ==> jobs[i].id != jobs[j].id
  }

  /** A later entry is an entry at a later position. */
  lemma InTail(jobs: seq<Job>, x: Job)
    requires jobs != [] && x in jobs[1..]
    ensures x in jobs && (SortedBySecs(jobs) ==> Secs(jobs[0]) <= Secs(x)) && (DistinctIds(jobs) ==> jobs[0].id != x.id)
  {
    hide Secs;
    var i :| 0 <= i < |jobs[1..]| && jobs[1..][i] == x;
    assert jobs[i + 1] == x;
  }

  lemma {:induction false} InsertedHas(jobs: seq<Job>, j: Job, x: Job)
    ensures x in Inserted(jobs, j) <==> x in jobs || x == j
  {
    hide Secs;
    if jobs != [] {
      assert x in jobs <==> x == jobs[0] || x in jobs[1..];
      InsertedHas(jobs[1..], j, x);
    }
  }

  lemma {:induction false} InsertedAdds(jobs: seq<Job>, j: Job)
    ensures multiset(Inserted(jobs, j)) == multiset(jobs) + multiset{j}
  {
    hide Secs;
    if jobs != [] && !(Secs(j) < Secs(jobs[0])) {
      InsertedAdds(jobs[1..], j);
      assert jobs == [jobs[0]] + jobs[1..];
    }
  }

  /** The new job stands behind all that are not later, and before all that are. */
  ghost predicate PutBehind(jobs: seq<Job>, j: Job, after: seq<Job>)
  {
    exists k :: 0 <= k <= |jobs| && PutAt(jobs, j, k, after)
  }

  ghost predicate PutAt(jobs: seq<Job>, j: Job, k: nat, after: seq<Job>)
    requires k <= |jobs|
  {
    && after == jobs[..k] + [j] + jobs[k..]
    && (forall i :: 0 <= i < k ==> Secs(jobs[i]) <= Secs(j)) && (forall i :: k <= i < |jobs| ==> Secs(j) < Secs(jobs[i]))
  }

  lemma {:induction false} InsertedBehind(jobs: seq<Job>, j: Job)
    requires SortedBySecs(jobs)
    ensures PutBehind(jobs, j, Inserted(jobs, j))
  {
    hide Secs;
    if jobs == [] || Secs(j) < Secs(jobs[0]) {
      assert PutAt(jobs, j, 0, Inserted(jobs, j));
    } else {
      InsertedBehind(jobs[1..], j);
      var k :| 0 <= k <= |jobs[1..]| && PutAt(jobs[1..], j, k, Inserted(jobs[1..], j));
      forall i | k < i < |jobs| ensures Secs(j) < Secs(jobs[i]) { assert jobs[i] == jobs[1..][i - 1]; }
      forall i | 0 < i <= k ensures Secs(jobs[i]) <= Secs(j) { assert jobs[i] == jobs[1..][i - 1]; }
      assert PutAt(jobs, j, k + 1, Inserted(jobs, j));
    }
  }

  lemma {:induction false} InsertedSorted(jobs: seq<Job>, j: Job)
    requires SortedBySecs(jobs)
    ensures SortedBySecs(Inserted(jobs, j))
  {
    hide Secs;
    if jobs != [] && !(Secs(j) < Secs(jobs[0])) {
      var rest := Inserted(jobs[1..], j);
      InsertedSorted(jobs[1..], j);
      forall k | 0 <= k < |rest| ensures Secs(jobs[0]) <= Secs(rest[k]) {
        InsertedHas(jobs[1..], j, rest[k]);
        if rest[k] in jobs[1..] { InTail(jobs, rest[k]); }
      }
    } else if jobs != [] {
      forall k | 0 <= k < |jobs| ensures Secs(j) <= Secs(jobs[k]) {}
    }
  }

  lemma {:induction false} InsertedDistinct(jobs: seq<Job>, j: Job)
    requires DistinctIds(jobs) && forall x :: x in jobs ==> x.id != j.id
    ensures DistinctIds(Inserted(jobs, j))
  {
    hide Secs;
    if jobs != [] && !(Secs(j) < Secs(jobs[0])) {
      var rest := Inserted(jobs[1..], j);
      InsertedDistinct(jobs[1..], j);
      forall k | 0 <= k < |rest| ensures rest[k].id != jobs[0].id {
        InsertedHas(jobs[1..], j, rest[k]);
        if rest[k] in jobs[1..] { InTail(jobs, rest[k]); }
      }
    }
  }

  lemma {:induction false} BetweenHas(jobs: seq<Job>, after: int, before: int, x: Job)
    ensures x in Between(jobs, after, before) <==> x in jobs && after < Secs(x) < before
  {
    hide Secs;
    if jobs != [] {
      assert x in jobs <==> x == jobs[0] || x in jobs[1..];
      BetweenHas(jobs[1..], after, before, x);
    }
  }

  lemma {:induction false} BetweenOrdered(jobs: seq<Job>, after: int, before: int)
    ensures SortedBySecs(jobs) ==> SortedBySecs(Between(jobs, after, before))
    ensures DistinctIds(jobs) ==> DistinctIds(Between(jobs, after, before))
  {
    hide Secs;
    if jobs != [] {
      var rest := Between(jobs[1..], after, before);
      BetweenOrdered(jobs[1..], after, before);
      forall k | 0 <= k < |rest|
        ensures (SortedBySecs(jobs) ==> Secs(jobs[0]) <= Secs(rest[k])) && (DistinctIds(jobs) ==> jobs[0].id != rest[k].id)
      {
        BetweenHas(jobs[1..], after, before, rest[k]);
        InTail(jobs, rest[k]);
      }
    }
  }

  // ---------------------------------------------------------------- the scheduler

  /** The scheduler's fields; history: the jobs fired, in order, and the windows processed. */
  datatype State = State(sets: seq<seq<Job>>, day: int, current: int, added: nat, fired: seq<Job>, windows: seq<(int, int)>)

  datatype Action = Add(time: CScheduleTime, job: Option<nat>) | Tick(now: int, later: int)

  function Step(s: State, a: Action): State
    requires |s.sets| == 7 && 0 <= s.day < 7
    requires a.Add? ==> 0 <= a.time.dow < 7
  {
    match a
    case Add(time, job) =>
      if job == None then s
      else s.(sets := s.sets[time.dow := Inserted(s.sets[time.dow], Job(time, job.value, s.added, |s.windows|))],
              added := s.added + 1)
    case Tick(now, later) =>
      var before := DaySeconds(FromWhole(now));
      s.(fired := s.fired + Between(s.sets[s.day], s.current, before),
         windows := s.windows + [(s.current, before)],
         current := DaySeconds(FromWhole(later)))
  }

  /** A scheduler without jobs on some day, its current time at `clock`. */
  function Started(day: int, clock: int): State
  {
    State(seq(7, _ => []), day, clock, 0, [], [])
  }

  /** What Start takes for the current time, `secs` into a day of the week: it reads the clock
      before it sets the day, so as seconds since the start of the day `from` it had before. */
  function StartClock(from: int, day: int, secs: int): int
  {
    DaySeconds(FromWhole(secs + (day - from) * DAY))
  }

  /** Only on that same day is it the time: on a later one the hour does not survive the
      decomposition, on an earlier one nothing does. */
  lemma StartLosesTheHour(from: int, day: int, secs: int)
    requires 0 <= day < 7 && 0 <= from < 7 && 0 <= secs < DAY
    ensures StartClock(from, day, secs) == if day == from then secs else if day > from then secs % 3600 else 0
  {
    var whole := secs + (day - from) * DAY;
    if day >= from {
      assert whole == 3600 * (24 * (day - from) + secs / 3600) + secs % 3600;
      assert whole / 3600 == 24 * (day - from) + secs / 3600 && Rem(whole, 3600) == secs % 3600;
      var rest := secs % 3600;
      assert rest == 60 * (rest / 60) + rest % 60 && Rem(rest, 60) == rest % 60;
    }
  }

  class CScheduler {
    var m_JobSet: seq<seq<Job>>
    var m_CurrentDay: int
    var m_CurrentTime: CScheduleTime
    // history
    var added: nat
    var fired: seq<Job>
    var windows: seq<(int, int)>

    function Model(): State
      reads this
    {
      State(m_JobSet, m_CurrentDay, DaySeconds(m_CurrentTime), added, fired, windows)
    }

    ghost predicate Valid()
      reads this
    {
      |m_JobSet| == 7 && 0 <= m_CurrentDay < 7 && forall d :: 0 <= d < 7 ==> SortedBySecs(m_JobSet[d])
    }

    /** Made `secs` into a day of the week; it takes day 0 for today. */
    constructor (day: int, secs: int)
      ensures Valid() && Model() == Started(0, StartClock(0, day, secs))
    {
      m_JobSet := seq(7, _ => []);
      m_CurrentDay, m_CurrentTime := 0, FromWhole(secs + day * DAY);
      added, fired, windows := 0, [], [];
    }

    method Start(day: int, secs: int)
      requires Valid() && 0 <= day < 7 && 0 <= secs < DAY
      modifies this`m_CurrentDay, this`m_CurrentTime
      ensures Valid() && Model() == old(Model()).(day := day, current := StartClock(old(m_CurrentDay), day, secs))
    {
      hide FromWhole, DaySeconds;
      m_CurrentTime := FromWhole(secs + (day - m_CurrentDay) * DAY);
      m_CurrentDay := day;
    }

    /** A null job is ignored. */
    method AddAJob(time: CScheduleTime, job: Option<nat>)
      requires Valid() && 0 <= time.dow < 7
      modifies this`m_JobSet, this`added
      ensures Valid() && Model() == Step(old(Model()), Add(time, job))
      ensures job == None ==> m_JobSet == old(m_JobSet) && added == old(added)
      ensures job.Some? ==>
                && multiset(m_JobSet[time.dow]) == multiset(old(m_JobSet[time.dow])) + multiset{Job(time, job.value, old(added), |windows|)}
                && PutBehind(old(m_JobSet[time.dow]), Job(time, job.value, old(added), |windows|), m_JobSet[time.dow])
                && (forall d :: 0 <= d < 7 && d != time.dow ==> m_JobSet[d] == old(m_JobSet[d])) && added == old(added) + 1
    {
      hide PutBehind;
      if job.Some? {
        var j := Job(time, job.value, added, |windows|);
        InsertedAdds(m_JobSet[time.dow], j);
        InsertedBehind(m_JobSet[time.dow], j);
        InsertedSorted(m_JobSet[time.dow], j);
        m_JobSet := m_JobSet[time.dow := Inserted(m_JobSet[time.dow], j)];
        added := added + 1;
      }
    }

    /**
     * The handler of an alarm tick. `now` and `later` are the two readings of the clock it takes,
     * in seconds since the start of m_CurrentDay. Tells whether NEXT_DAY_INPUT is posted, which
     * never happens.
     */
    method AlarmInput(now: int, later: int) returns (nextDay: bool)
      requires Valid()
      modifies this`m_CurrentTime, this`fired, this`windows
      ensures Valid() && !nextDay && Model() == Step(old(Model()), Tick(now, later))
      ensures m_CurrentTime == FromWhole(later)
    {
      hide FromWhole, DaySeconds;
      nextDay := false;
      WholeSurvivesIff(now);
      var nowcsT := FromWhole(now);
      if DaySeconds(nowcsT) >= FULL_DAY && DaySeconds(m_CurrentTime) < FULL_DAY {
        nextDay := true;
        return;
      }
      var jobs := m_JobSet[m_CurrentDay];
      var itr := 0;
      while itr != |jobs|
        invariant 0 <= itr <= |jobs| && m_CurrentTime == old(m_CurrentTime) && windows == old(windows)
        invariant fired == old(fired) + Between(jobs[..itr], DaySeconds(m_CurrentTime), DaySeconds(nowcsT))
        decreases |jobs| - itr
      {
        if DaySeconds(jobs[itr].time) > DaySeconds(m_CurrentTime) && DaySeconds(jobs[itr].time) < DaySeconds(nowcsT) {
          fired := fired + [jobs[itr]];
        }
        BetweenAppend(jobs[..itr], [jobs[itr]], DaySeconds(m_CurrentTime), DaySeconds(nowcsT));
        assert jobs[..itr + 1] == jobs[..itr] + [jobs[itr]];
        itr := itr + 1;
      }
      assert jobs[..itr] == jobs;
      windows := windows + [(DaySeconds(m_CurrentTime), DaySeconds(nowcsT))];
      m_CurrentTime := FromWhole(later);
    }
  }

  // ---------------------------------------------------------------- what whole runs keep

  /** Within one day the clock does not go back; jobs are for some day of the week. */
  predicate Timely(s: State, a: Action)
  {
    match a
    case Add(time, _) => 0 <= time.dow < 7
    case Tick(now, later) => s.current <= now <= later < DAY
  }

  predicate AllTimely(s: State, actions: seq<Action>)
    requires |s.sets| == 7 && 0 <= s.day < 7
    decreases |actions|
  {
    actions == [] || (Timely(s, actions[0]) && |Step(s, actions[0]).sets| == 7 && AllTimely(Step(s, actions[0]), actions[1..]))
  }

  function Run(s: State, actions: seq<Action>): State
    requires |s.sets| == 7 && 0 <= s.day < 7 && AllTimely(s, actions)
    decreases |actions|
  {
    if actions == [] then s else Run(Step(s, actions[0]), actions[1..])
  }

  /** The job's time lies inside a window processed after it was added. */
  ghost predicate Hit(s: State, j: Job)
  {
    exists k :: j.since <= k < |s.windows| && s.windows[k].0 < Secs(j) < s.windows[k].1
  }

  /** The job is stored for the day of the scheduler. */
  predicate Stored(s: State, j: Job)
    requires 0 <= s.day < |s.sets|
  {
    j in s.sets[s.day]
  }

  ghost predicate SetsOk(s: State)
  {
    && |s.sets| == 7 && 0 <= s.day < 7
    && SortedBySecs(s.sets[s.day]) && DistinctIds(s.sets[s.day])
    && (forall j :: j in s.sets[s.day] ==> j.id < s.added && j.since <= |s.windows|)
  }

  /** Windows follow one another: each begins where the clock stood when the last was done. */
  ghost predicate WindowsOk(s: State)
  {
    && 0 <= s.current < DAY
    && (forall k :: 0 <= k < |s.windows| ==> s.windows[k].0 <= s.windows[k].1 <= s.current)
    && (forall k, m :: 0 <= k < m < |s.windows| ==> s.windows[k].1 <= s.windows[m].0)
  }

  ghost predicate FiredOk(s: State)
    requires 0 <= s.day < |s.sets|
  {
    && SortedBySecs(s.fired) && DistinctIds(s.fired)
    && (forall j :: j in s.fired ==> Secs(j) < s.current)
    && (forall j :: j in s.fired <==> Stored(s, j) && Hit(s, j))
  }

  ghost predicate Inv(s: State)
  {
    SetsOk(s) && WindowsOk(s) && FiredOk(s)
  }

  lemma AddKeepsInv(s: State, time: CScheduleTime, job: Option<nat>)
    requires Inv(s) && 0 <= time.dow < 7
    ensures Inv(Step(s, Add(time, job)))
  {
    var s' := Step(s, Add(time, job));
    if job.Some? && time.dow == s.day {
      var j := Job(time, job.value, s.added, |s.windows|);
      InsertedSorted(s.sets[s.day], j);
      InsertedDistinct(s.sets[s.day], j);
      forall x ensures x in s'.sets[s.day] <==> x in s.sets[s.day] || x == j {
        InsertedHas(s.sets[s.day], j, x);
      }
      assert !Hit(s', j);
    }
    assert forall j :: Hit(s', j) == Hit(s, j);
  }

  lemma TickHits(s: State, now: int, later: int, j: Job)
    requires |s.sets| == 7 && 0 <= s.day < 7 && j.since <= |s.windows| && DaySeconds(FromWhole(now)) == now
    ensures Hit(Step(s, Tick(now, later)), j) <==> Hit(s, j) || s.current < Secs(j) < now
  {
    hide FromWhole, Secs;
    var s' := Step(s, Tick(now, later));
    assert s'.windows[|s.windows|] == (s.current, now);
    if Hit(s, j) {
      var m :| j.since <= m < |s.windows| && s.windows[m].0 < Secs(j) < s.windows[m].1;
      assert s'.windows[m] == s.windows[m];
    }
  }

  /** The newly fired jobs are those hit by the new window; they are later than all before. */
  lemma TickFires(s: State, now: int, later: int)
    requires Inv(s) && Timely(s, Tick(now, later))
    ensures FiredOk(Step(s, Tick(now, later)))
  {
    hide FromWhole, Secs, Hit, Between;
    var s' := Step(s, Tick(now, later));
    WholeSurvivesIff(now);
    WholeSurvivesIff(later);
    BetweenOrdered(s.sets[s.day], s.current, now);
    var more := Between(s.sets[s.day], s.current, now);
    assert s'.fired == s.fired + more && s'.current == later;
    forall x ensures x in s'.fired <==> Stored(s', x) && Hit(s', x) {
      BetweenHas(s.sets[s.day], s.current, now, x);
      if Stored(s, x) { TickHits(s, now, later, x); }
      assert x in s'.fired <==> x in s.fired || x in more;
    }
    forall x | x in more ensures s.current < Secs(x) < now { BetweenHas(s.sets[s.day], s.current, now, x); }
    forall x, y | x in s.fired && y in more && x != y ensures x.id != y.id {
      BetweenHas(s.sets[s.day], s.current, now, y);
      OneEntryPerId(s.sets[s.day], x, y);
    }
    FollowsOrdered(s.fired, more, s.current);
  }

  lemma OneEntryPerId(jobs: seq<Job>, x: Job, y: Job)
    requires DistinctIds(jobs) && x in jobs && y in jobs && x != y
    ensures x.id != y.id
  {
    var a :| 0 <= a < |jobs| && jobs[a] == x;
    var b :| 0 <= b < |jobs| && jobs[b] == y;
    assert a < b || b < a;
  }

  lemma FollowsOrdered(a: seq<Job>, b: seq<Job>, edge: int)
    requires SortedBySecs(a) && SortedBySecs(b) && DistinctIds(a) && DistinctIds(b)
    requires (forall x :: x in a ==> Secs(x) < edge) && (forall x :: x in b ==> edge < Secs(x))
    requires forall x, y :: x in a && y in b && x != y ==> x.id != y.id
    ensures SortedBySecs(a + b) && DistinctIds(a + b)
  {
    hide Secs;
    forall i, j | 0 <= i < j < |a + b| ensures Secs((a + b)[i]) <= Secs((a + b)[j]) && (a + b)[i].id != (a + b)[j].id {
      if i < |a| <= j {
        assert (a + b)[i] in a && (a + b)[j] in b;
      }
    }
  }

  lemma StepKeepsInv(s: State, a: Action)
    requires Inv(s) && Timely(s, a)
    ensures Inv(Step(s, a))
  {
    match a
    case Add(time, job) => AddKeepsInv(s, time, job);
    case Tick(now, later) =>
      WholeSurvivesIff(now);
      WholeSurvivesIff(later);
      TickFires(s, now, later);
  }

  lemma {:induction false} RunKeepsInv(s: State, actions: seq<Action>)
    requires Inv(s) && AllTimely(s, actions)
    ensures Inv(Run(s, actions))
    decreases |actions|
  {
    if actions != [] {
      StepKeepsInv(s, actions[0]);
      RunKeepsInv(Step(s, actions[0]), actions[1..]);
    }
  }

  lemma StartInv(day: int, clock: int)
    requires 0 <= day < 7 && 0 <= clock < DAY
    ensures Inv(Started(day, clock))
  {
  }

  /** The jobs given to Add for a day, each with the number of jobs and of ticks before it. */
  function JobsGiven(day: int, actions: seq<Action>, jobs: nat, ticks: nat): multiset<Job>
    decreases |actions|
  {
    if actions == [] then multiset{}
    else
      match actions[0]
      case Tick(_, _) => JobsGiven(day, actions[1..], jobs, ticks + 1)
      case Add(time, None) => JobsGiven(day, actions[1..], jobs, ticks)
      case Add(time, Some(what)) =>
        (if time.dow == day then multiset{Job(time, what, jobs, ticks)} else multiset{}) + JobsGiven(day, actions[1..], jobs + 1, ticks)
  }

  /** The windows of the ticks: from the second reading of the tick before to the first of this. */
  function WindowsOf(clock: int, actions: seq<Action>): seq<(int, int)>
    decreases |actions|
  {
    if actions == [] then []
    else if actions[0].Add? then WindowsOf(clock, actions[1..])
    else [(clock, actions[0].now)] + WindowsOf(actions[0].later, actions[1..])
  }

  /** Every job given is stored, for its day, and nothing else is; every tick makes its window. */
  lemma {:induction false} NothingForgotten(s: State, actions: seq<Action>, day: int)
    requires Inv(s) && AllTimely(s, actions) && 0 <= day < 7
    ensures |Run(s, actions).sets| == 7 && Run(s, actions).day == s.day
    ensures multiset(Run(s, actions).sets[day]) == multiset(s.sets[day]) + JobsGiven(day, actions, s.added, |s.windows|)
    ensures Run(s, actions).windows == s.windows + WindowsOf(s.current, actions)
    decreases |actions|
  {
    hide FiredOk, FromWhole, DaySeconds, Inserted, Between, SortedBySecs, DistinctIds;
    if actions != [] {
      StepKeepsInv(s, actions[0]);
      NothingForgotten(Step(s, actions[0]), actions[1..], day);
      match actions[0]
      case Add(time, job) =>
        if job.Some? { InsertedAdds(s.sets[time.dow], Job(time, job.value, s.added, |s.windows|)); }
      case Tick(now, later) =>
        WholeSurvivesIff(now);
        WholeSurvivesIff(later);
    }
  }

  /**
   * Over any run of ticks within one day: successive windows do not overlap; a job given for the
   * day fires exactly if its time lies strictly inside the window of a tick after it was given,
   * and then once only; and the jobs fire in the order of their times.
   */
  lemma {:induction false} FiresExactlyOnce(day: int, clock: int, actions: seq<Action>)
    requires 0 <= day < 7 && 0 <= clock < DAY && AllTimely(Started(day, clock), actions)
    ensures var (fired, given, windows) := (Run(Started(day, clock), actions).fired, JobsGiven(day, actions, 0, 0), WindowsOf(clock, actions));
            && (forall k, m :: 0 <= k < m < |windows| ==> windows[k].1 <= windows[m].0)
            && (forall j :: j in fired <==>
                              j in given && exists k :: j.since <= k < |windows| && windows[k].0 < Secs(j) < windows[k].1)
            && (forall i, j :: 0 <= i < j < |fired| ==> Secs(fired[i]) <= Secs(fired[j]) && fired[i].id != fired[j].id)
  {
    StartInv(day, clock);
    RunKeepsInv(Started(day, clock), actions);
    NothingForgotten(Started(day, clock), actions, day);
    hide Secs;
    var s := Run(Started(day, clock), actions);
    assert s.windows == WindowsOf(clock, actions);
    forall j ensures Stored(s, j) <==> j in JobsGiven(day, actions, 0, 0) {
      assert j in multiset(s.sets[day]) <==> j in s.sets[day];
    }
  }

  /**
   * The first tick after Start fires a job whose time had already come at Start if and only if
   * the day is not the one the scheduler had before, `from`, and the job's time lies between what
   * Start took for the time and the tick. So on most days jobs from hours before Start fire.
   */
  lemma OldJobsFireIff(s: State, from: int, secs: int, j: Job, now: int, later: int)
    requires Inv(s) && s.windows == [] && 0 <= from < 7 && 0 <= secs < DAY && s.current == StartClock(from, s.day, secs)
    requires Stored(s, j) && Secs(j) <= secs <= now <= later < DAY
    ensures j in Step(s, Tick(now, later)).fired
            <==> s.day != from && (if s.day > from then secs % 3600 else 0) < Secs(j) < now
    ensures Step(s, Tick(now, later)).windows == [(s.current, now)]
  {
    StartLosesTheHour(from, s.day, secs);
    WholeSurvivesIff(now);
    assert !Hit(s, j);
    assert j !in s.fired;
    hide FromWhole, Secs, StartClock, Inv;
    BetweenHas(s.sets[s.day], s.current, now, j);
    assert Step(s, Tick(now, later)).fired == s.fired + Between(s.sets[s.day], s.current, now);
  }

  /**
   * Such a run: a new scheduler is started on any day but day 0; a job whose time was an hour or
   * more before the start, and behind its minutes and seconds, fires at the first tick.
   */
  lemma OldJobFires(day: int, secs: int, time: CScheduleTime, what: nat, now: int, later: int)
    requires 0 < day < 7 && 0 <= secs <= now <= later < DAY
    requires time.dow == day && secs % 3600 < DaySeconds(time) <= secs - 3600
    ensures var run := [Add(time, Some(what)), Tick(now, later)];
            && AllTimely(Started(day, StartClock(0, day, secs)), run)
            && Job(time, what, 0, 0) in Run(Started(day, StartClock(0, day, secs)), run).fired
  {
    StartLosesTheHour(0, day, secs);
    var s, add, tick := Started(day, StartClock(0, day, secs)), Add(time, Some(what)), Tick(now, later);
    var s1 := Step(s, add);
    StartInv(day, StartClock(0, day, secs));
    StepKeepsInv(s, add);
    hide FromWhole, DaySeconds, StartClock, Inv;
    TwoSteps(s, add, tick);
    InsertedHas(s.sets[day], Job(time, what, 0, 0), Job(time, what, 0, 0));
    OldJobsFireIff(s1, 0, secs, Job(time, what, 0, 0), now, later);
  }

  lemma TwoSteps(s: State, a: Action, b: Action)
    requires |s.sets| == 7 && 0 <= s.day < 7 && Timely(s, a) && |Step(s, a).sets| == 7
    requires Timely(Step(s, a), b) && |Step(Step(s, a), b).sets| == 7
    ensures AllTimely(s, [a, b]) && Run(s, [a, b]) == Step(Step(s, a), b)
  {
    hide FromWhole, DaySeconds, Inserted, Between;
    assert [a, b][1..] == [b] && [b][1..] == [];
    assert AllTimely(Step(Step(s, a), b), []);
    assert AllTimely(Step(s, a), [b]);
    assert Run(Step(s, a), [b]) == Step(Step(s, a), b);
  }

  // ---------------------------------------------------------------- what is missed

  /** Where the window after the k-th begins, or will begin. */
  function NextFrom(s: State, k: nat): int
  {
    if k + 1 < |s.windows| then s.windows[k + 1].0 else s.current
  }

  /** The time falls between two windows, or on the edge of one. */
  ghost predicate InGap(s: State, from: nat, t: int)
  {
    exists k :: from <= k < |s.windows| && s.windows[k].1 <= t <= NextFrom(s, k)
  }

  ghost predicate HitFrom(s: State, from: nat, t: int)
  {
    exists m :: from <= m < |s.windows| && s.windows[m].0 < t < s.windows[m].1
  }

  lemma {:induction false} HitOrGap(s: State, k: nat, t: int)
    requires WindowsOk(s) && k < |s.windows| && s.windows[k].0 < t <= s.current
    ensures InGap(s, k, t) || HitFrom(s, k, t)
    decreases |s.windows| - k
  {
    if t < s.windows[k].1 {
      assert HitFrom(s, k, t);
    } else if k + 1 < |s.windows| && s.windows[k + 1].0 < t {
      HitOrGap(s, k + 1, t);
    } else {
      assert InGap(s, k, t);
    }
  }

  /** A time in a gap is in no window. */
  lemma GapIsNoHit(s: State, k: nat, t: int)
    requires WindowsOk(s) && InGap(s, k, t) && k < |s.windows| && s.windows[k].0 < t
    ensures !HitFrom(s, k, t)
  {
    hide WindowsOk;
    var g :| k <= g < |s.windows| && s.windows[g].1 <= t <= NextFrom(s, g);
    forall m | k <= m < |s.windows| ensures !(s.windows[m].0 < t < s.windows[m].1) {
      GapApart(s, g, m, t);
    }
  }

  lemma GapApart(s: State, g: nat, m: nat, t: int)
    requires WindowsOk(s) && g < |s.windows| && m < |s.windows|
    requires s.windows[g].1 <= t && (g + 1 < |s.windows| ==> t <= s.windows[g + 1].0)
    ensures !(s.windows[m].0 < t < s.windows[m].1)
  {
    var wm, wg := s.windows[m], s.windows[g];
    if m < g {
      assert wm.1 <= wg.0 <= wg.1;
    } else if g + 1 < m {
      var w1 := s.windows[g + 1];
      assert w1.0 <= w1.1 <= wm.0;
    }
  }

  /**
   * A stored job whose time has come since the first window after it was added is missed if and
   * only if that time fell between the two clock readings of one tick, edges included.
   */
  lemma MissedIff(s: State, j: Job)
    requires Inv(s) && Stored(s, j) && j.since < |s.windows| && s.windows[j.since].0 < Secs(j) <= s.current
    ensures j !in s.fired <==> InGap(s, j.since, Secs(j))
  {
    HitOrGap(s, j.since, Secs(j));
    if InGap(s, j.since, Secs(j)) { GapIsNoHit(s, j.since, Secs(j)); }
    assert Hit(s, j) == HitFrom(s, j.since, Secs(j));
  }

  /**
   * A job that is missed: if a tick reads the clock at the job's very time, the job does not fire
   * in it and, whatever comes on that day, never after.
   */
  lemma EdgeJobNeverFires(day: int, clock: int, time: CScheduleTime, what: nat, actions: seq<Action>)
    requires 0 <= day < 7 && 0 <= clock < DaySeconds(time) < DAY && time.dow == day
    requires var run := [Add(time, Some(what)), Tick(DaySeconds(time), DaySeconds(time))] + actions; AllTimely(Started(day, clock), run)
    ensures var run := [Add(time, Some(what)), Tick(DaySeconds(time), DaySeconds(time))] + actions;
            Job(time, what, 0, 0) !in Run(Started(day, clock), run).fired
  {
    var (add, tick) := (Add(time, Some(what)), Tick(DaySeconds(time), DaySeconds(time)));
    var run := [add, tick] + actions;
    assert run[1..][1..] == actions && run[0] == add && run[1..][0] == tick;
    var s1 := Step(Started(day, clock), add);
    var s2 := Step(s1, tick);
    StartInv(day, clock);
    StepKeepsInv(Started(day, clock), add);
    StepKeepsInv(s1, tick);
    WholeSurvivesIff(DaySeconds(time));
    assert Run(Started(day, clock), run) == Run(s2, actions);
    PastStaysUnfired(s2, Job(time, what, 0, 0), actions);
  }

  /** A job that is not fired when its time is past stays unfired. */
  lemma {:induction false} PastStaysUnfired(s: State, j: Job, actions: seq<Action>)
    requires Inv(s) && AllTimely(s, actions) && j !in s.fired && Secs(j) <= s.current
    ensures j !in Run(s, actions).fired
    decreases |actions|
  {
    if actions != [] {
      var s' := Step(s, actions[0]);
      StepKeepsInv(s, actions[0]);
      if actions[0].Tick? {
        WholeSurvivesIff(actions[0].now);
        WholeSurvivesIff(actions[0].later);
        BetweenHas(s.sets[s.day], s.current, actions[0].now, j);
      }
      hide Inv, FromWhole, Secs;
      PastStaysUnfired(s', j, actions[1..]);
    }
  }
}
