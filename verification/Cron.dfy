/** Calendar schedules. Instants are nanoseconds since the epoch, a Thursday; clock readings
    are arguments. */
module Cron {
  import opened Arithmetic
  import opened Options
  import opened Sorting

  const SECOND: int := 1_000_000_000
  const MINUTE: int := 60_000_000_000
  const HOUR: int := 3_600_000_000_000
  const DAY: int := 86_400_000_000_000
  const WEEK: int := 604_800_000_000_000

  datatype Weekday = Mon | Tue | Wed | Thu | Fri | Sat | Sun
  {
    function Number(): (n: nat)
      ensures n < 7
    {
      match this
      case Mon => 0 case Tue => 1 case Wed => 2 case Thu => 3 case Fri => 4 case Sat => 5 case Sun => 6
    }
  }

  datatype Expression =
    | EverySeconds(n: nat)
    | EveryMinutes(n: nat)
    | EveryHours(n: nat)
    | DailyAt(hour: nat, minute: nat)
    | WeeklyAt(weekday: Weekday, hour: nat, minute: nat)
    | Interval(duration: int)
  {
    predicate Calendar() { DailyAt? || WeeklyAt? }

    /** The pause of an interval schedule. */
    function Pause(): int
      requires !Calendar()
    {
      match this
      case EverySeconds(n) => n * SECOND
      case EveryMinutes(n) => n * MINUTE
      case EveryHours(n) => n * HOUR
      case Interval(d) => d
    }
  }

  function DateOf(t: int): int { t / DAY }
  function WeekdayOf(t: int): nat { (DateOf(t) + 3) % 7 }

  /** Midnight of a date plus a time of day. */
  function At(date: int, time: int): int { date * DAY + time }

  /** The time of day, unless the hour or minute is out of range. */
  function TimeOfDay(hour: nat, minute: nat): Option<int> {
    if hour < 24 && minute < 60 then Some(hour * HOUR + minute * MINUTE) else None
  }

  /** The code, branch by branch. */
  function Next(e: Expression, from: int): Option<int> {
    match e
    case DailyAt(hour, minute) =>
      (match TimeOfDay(hour, minute)
       case None => None
       case Some(time) => Some(if At(DateOf(from), time) > from then At(DateOf(from), time) else At(DateOf(from), time) + DAY))
    case WeeklyAt(weekday, hour, minute) =>
      (match TimeOfDay(hour, minute)
       case None => None
       case Some(time) =>
         var days := (weekday.Number() - WeekdayOf(from) + 7) % 7;
         var days' := if days == 0 then (if At(DateOf(from), time) > from then 0 else 7) else days;
         Some(At(DateOf(from) + days', time)))
    case _ => Some(from + e.Pause())
  }

  /** What a calendar expression means: this time of day, on this weekday. */
  predicate Occurs(e: Expression, t: int)
    requires e.Calendar()
  {
    match e
    case DailyAt(hour, minute) => TimeOfDay(hour, minute) == Some(t % DAY)
    case WeeklyAt(weekday, hour, minute) => TimeOfDay(hour, minute) == Some(t % DAY) && WeekdayOf(t) == weekday.Number()
  }

  /** An instant is its date and its time of day. */
  lemma Split(t: int)
    ensures t == At(DateOf(t), t % DAY) && 0 <= t % DAY < DAY
  {}

  lemma AtParts(date: int, time: int)
    requires 0 <= time < DAY
    ensures DateOf(At(date, time)) == date && At(date, time) % DAY == time
  {}

  lemma TimeInRange(hour: nat, minute: nat)
    ensures TimeOfDay(hour, minute).Some? ==> 0 <= TimeOfDay(hour, minute).value < DAY
  {}

  /** Among the instants of one time of day, the date decides the order. */
  lemma SameTimeOrder(a: int, b: int)
    requires a % DAY == b % DAY
    ensures a < b <==> DateOf(a) < DateOf(b)
    ensures a - b == (DateOf(a) - DateOf(b)) * DAY
  {
    Split(a);
    Split(b);
  }

  /** The next occurrence is the least instant strictly later with the right time of day and
      weekday; there is none exactly when the time of day does not exist. */
  lemma NextIsLeast(e: Expression, from: int, t: int)
    requires e.Calendar()
    ensures Next(e, from) == None <==> e.hour >= 24 || e.minute >= 60
    ensures Next(e, from) == None ==> !Occurs(e, t)
    ensures Next(e, from).Some? ==> from < Next(e, from).value && Occurs(e, Next(e, from).value)
    ensures Next(e, from).Some? && from < t && Occurs(e, t) ==> Next(e, from).value <= t
  {
    hide At, DateOf;
    if TimeOfDay(e.hour, e.minute).Some? {
      var time := TimeOfDay(e.hour, e.minute).value;
      TimeInRange(e.hour, e.minute);
      if e.DailyAt? {
        DailyLeast(e, from, time, t);
      } else {
        WeeklyLeast(e, from, time, t);
      }
    }
  }

  lemma DailyLeast(e: Expression, from: int, time: int, t: int)
    requires e.DailyAt? && TimeOfDay(e.hour, e.minute) == Some(time) && 0 <= time < DAY
    ensures from < Next(e, from).value && Occurs(e, Next(e, from).value)
    ensures from < t && Occurs(e, t) ==> Next(e, from).value <= t
  {
    var date, next := DateOf(from), Next(e, from).value;
    AtParts(date, time);
    AtParts(date + 1, time);
    NextDay(date, time);
    hide At, DateOf, TimeOfDay;
    if next != At(date, time) {
      LaterDate(from, next);
    }
    if from < t && Occurs(e, t) {
      NoLaterThan(from, t);
      Split(t);
      Ordered(DateOf(next), if DateOf(t) < DateOf(next) then DateOf(next) else DateOf(t), time);
    }
  }

  lemma NextDay(date: int, time: int)
    ensures At(date + 1, time) == At(date, time) + DAY
  {}

  /** The next weekly occurrence is at most a week ahead, today's only while it is to come. */
  lemma WeeklyNext(e: Expression, from: int, time: int) returns (days: int)
    requires e.WeeklyAt? && TimeOfDay(e.hour, e.minute) == Some(time) && 0 <= time < DAY
    ensures Next(e, from) == Some(At(DateOf(from) + days, time)) && 0 <= days <= 7
    ensures (DateOf(from) + days + 3) % 7 == e.weekday.Number()
    ensures days == 0 ==> At(DateOf(from), time) > from
    ensures days == 7 ==> At(DateOf(from), time) <= from
  {
    hide At, DateOf, TimeOfDay;
    days := (e.weekday.Number() - WeekdayOf(from) + 7) % 7;
    if days == 0 && At(DateOf(from), time) <= from {
      days := 7;
    }
  }

  lemma WeeklyLeast(e: Expression, from: int, time: int, t: int)
    requires e.WeeklyAt? && TimeOfDay(e.hour, e.minute) == Some(time) && 0 <= time < DAY
    ensures from < Next(e, from).value && Occurs(e, Next(e, from).value)
    ensures from < t && Occurs(e, t) ==> Next(e, from).value <= t
  {
    var date, w := DateOf(from), e.weekday.Number();
    var days := WeeklyNext(e, from, time);
    var next := At(date + days, time);
    AtParts(date + days, time);
    hide At, DateOf, TimeOfDay, Next;
    if days > 0 { LaterDate(from, next); }
    if from < t && Occurs(e, t) {
      NoLaterThan(from, t);
      Split(t);
      var k := DateOf(t) - date;
      assert (date + k + 3) % 7 == w;
      assert days <= k by { SameResidue(date + 3, days, k, w); }
      Ordered(date + days, date + k, time);
    }
  }

  lemma LaterDate(a: int, b: int)
    requires DateOf(a) < DateOf(b)
    ensures a < b
  {}

  lemma NoLaterThan(a: int, b: int)
    requires a < b
    ensures DateOf(a) <= DateOf(b)
  {}

  lemma Ordered(a: int, b: int, time: int)
    requires a <= b
    ensures At(a, time) <= At(b, time)
  {}

  lemma SameResidue(base: int, a: int, b: int, w: int)
    requires (base + a) % 7 == w && (base + b) % 7 == w
    ensures (a - b) % 7 == 0
  {}

  /** The weekday of the n-th day from the epoch, which is a Thursday. */
  function NameOf(n: int): Weekday {
    var k := n % 7;
    if k == 0 then Thu else if k == 1 then Fri else if k == 2 then Sat else if k == 3 then Sun
    else if k == 4 then Mon else if k == 5 then Tue else Wed
  }

  /** Read off a clock: in nanoseconds from the epoch, this hour and minute and no more, and on a
      weekly schedule this weekday. */
  predicate ClockShows(e: Expression, t: int)
    requires e.Calendar()
  {
    && t / 3_600_000_000_000 % 24 == e.hour && t / 60_000_000_000 % 60 == e.minute && t % 60_000_000_000 == 0
    && (e.WeeklyAt? ==> NameOf(t / 86_400_000_000_000) == e.weekday)
  }

  lemma TimeOfDayShows(hour: nat, minute: nat, t: int)
    ensures TimeOfDay(hour, minute) == Some(t % DAY) <==>
      t / 3_600_000_000_000 % 24 == hour && t / 60_000_000_000 % 60 == minute && t % 60_000_000_000 == 0
  {
    Parts(t);
    var h, m, r := t / HOUR % 24, t / MINUTE % 60, t % MINUTE;
    PartsAreUnique(h, m, r, t % DAY, hour, minute);
  }

  lemma PartsAreUnique(h: int, m: int, r: int, time: int, hour: nat, minute: nat)
    requires 0 <= h < 24 && 0 <= m < 60 && 0 <= r < MINUTE && time == h * HOUR + m * MINUTE + r
    ensures TimeOfDay(hour, minute) == Some(time) <==> h == hour && m == minute && r == 0
  {}

  lemma Parts(t: int)
    ensures t % DAY == t / HOUR % 24 * HOUR + t / MINUTE % 60 * MINUTE + t % MINUTE
  {
    var minutes := t / MINUTE;
    var hours := minutes / 60;
    DivUnique(t, HOUR, hours, minutes % 60 * MINUTE + t % MINUTE);
    DivUnique(t, DAY, hours / 24, hours % 24 * HOUR + minutes % 60 * MINUTE + t % MINUTE);
  }

  lemma WeekdayShows(w: Weekday, t: int)
    ensures WeekdayOf(t) == w.Number() <==> NameOf(t / 86_400_000_000_000) == w
  {}

  lemma OccursMeans(e: Expression, t: int)
    requires e.Calendar()
    ensures Occurs(e, t) <==> ClockShows(e, t)
  {
    TimeOfDayShows(e.hour, e.minute, t);
    if e.WeeklyAt? { WeekdayShows(e.weekday, t); }
    hide TimeOfDay, WeekdayOf, NameOf;
  }

  /** The next time of a calendar expression is the first later instant at which the clock shows
      it; that of any other expression is so many seconds, minutes or hours, or so long, ahead. */
  lemma NextMeans(e: Expression, from: int, t: int)
    ensures match e
      case EverySeconds(n) => Next(e, from) == Some(from + n * 1_000_000_000)
      case EveryMinutes(n) => Next(e, from) == Some(from + n * 60_000_000_000)
      case EveryHours(n) => Next(e, from) == Some(from + n * 3_600_000_000_000)
      case Interval(d) => Next(e, from) == Some(from + d)
      case _ =>
        && (Next(e, from).Some? ==> from < Next(e, from).value && ClockShows(e, Next(e, from).value))
        && (from < t && ClockShows(e, t) ==> Next(e, from).Some? && Next(e, from).value <= t)
  {
    if e.Calendar() {
      hide Next, Occurs, ClockShows;
      NextIsLeast(e, from, t);
      OccursMeans(e, t);
      if Next(e, from).Some? { OccursMeans(e, Next(e, from).value); }
    }
  }

  /** Waiting longer never brings the next occurrence forward. */
  lemma NextIsMonotone(e: Expression, a: int, b: int)
    requires a <= b
    ensures Next(e, a).Some? <==> Next(e, b).Some?
    ensures Next(e, a).Some? ==> Next(e, a).value <= Next(e, b).value
  {
    hide Next, Occurs;
    if e.Calendar() {
      NextIsLeast(e, b, 0);
      NextIsLeast(e, a, if Next(e, b).Some? then Next(e, b).value else 0);
    } else {
      IntervalNext(e, a);
      IntervalNext(e, b);
    }
  }

  lemma IntervalNext(e: Expression, from: int)
    requires !e.Calendar()
    ensures Next(e, from) == Some(from + e.Pause())
  {}

  /** Occurrences lie whole days, or whole weeks, apart. */
  lemma OccurrencesApart(e: Expression, a: int, b: int)
    requires e.Calendar() && Occurs(e, a) && Occurs(e, b) && a < b
    ensures b - a >= Period(e)
  {
    SameTimeOrder(a, b);
    if e.WeeklyAt? {
      SameResidue(3, DateOf(a), DateOf(b), e.weekday.Number());
      assert DateOf(b) - DateOf(a) >= 7;
    }
  }

  // ---- A schedule ------------------------------------------------------------------------------------------

  datatype Schedule = Schedule(
    name: string, expression: Expression, enabled: bool, lastRun: Option<int>, nextRun: Option<int>)
  {
    function Enable(now: int): Schedule { this.(enabled := true, nextRun := Next(expression, now)) }
    function Disable(): Schedule { this.(enabled := false, nextRun := None) }

    /** The clock is read twice. */
    function MarkRun(first: int, second: int): Schedule {
      this.(lastRun := Some(first), nextRun := Next(expression, second))
    }

    predicate ShouldRun(now: int) { enabled && nextRun.Some? && now >= nextRun.value }
  }

  function NewSchedule(name: string, expression: Expression, now: int): Schedule {
    Schedule(name, expression, true, None, Next(expression, now))
  }

  /** A calendar schedule marked run, with the clock then read as t, is due at t' exactly
      when it is enabled and an occurrence lies in (t, t']. */
  lemma DueIffOccurred(s: Schedule, first: int, t: int, t': int)
    requires s.expression.Calendar() && first <= t <= t'
    ensures s.MarkRun(first, t).ShouldRun(t') <==> s.enabled && exists o :: t < o <= t' && Occurs(s.expression, o)
  {
    hide Next, Occurs;
    forall o ensures t < o && Occurs(s.expression, o) ==> Next(s.expression, t).Some? && Next(s.expression, t).value <= o {
      NextIsLeast(s.expression, t, o);
    }
    NextIsLeast(s.expression, t, 0);
  }

  ghost predicate OccursIn(e: Expression, from: int, to: int)
    requires e.Calendar()
  {
    exists o :: from < o <= to && Occurs(e, o)
  }

  /** No occurrence fell between the two readings of the clock. */
  predicate NoneBetween(e: Expression, first: int, t: int) { Next(e, first).None? || t < Next(e, first).value }

  /** The noted last run is the first reading of the clock. Being due agrees with it exactly
      unless an occurrence fell between the two readings and the next one has not come yet: the
      one between is after the last run and yet never becomes due. */
  lemma DueSinceLastRunIff(s: Schedule, first: int, t: int, t': int)
    requires s.expression.Calendar() && s.enabled && first <= t <= t'
    ensures s.MarkRun(first, t).lastRun == Some(first)
    ensures (s.MarkRun(first, t).ShouldRun(t') <==> OccursIn(s.expression, first, t'))
       <==> NoneBetween(s.expression, first, t) || (Next(s.expression, t).Some? && Next(s.expression, t).value <= t')
  {
    hide Occurs, Next;
    DueIffOccurred(s, first, t, t');
    OccursInIff(s.expression, first, t');
    OccursInIff(s.expression, first, t);
    OccursInIff(s.expression, t, t');
  }

  /** So they agree from then on exactly when no occurrence fell between the readings. */
  lemma AlwaysDueSinceLastRunIff(s: Schedule, first: int, t: int)
    requires s.expression.Calendar() && s.enabled && first <= t
    ensures (forall t' :: t <= t' ==> (s.MarkRun(first, t).ShouldRun(t') <==> OccursIn(s.expression, first, t')))
       <==> NoneBetween(s.expression, first, t)
  {
    hide Occurs, Next, OccursIn, NoneBetween;
    forall t' | t <= t' ensures NoneBetween(s.expression, first, t) ==>
      (s.MarkRun(first, t).ShouldRun(t') <==> OccursIn(s.expression, first, t')) {
      DueSinceLastRunIff(s, first, t, t');
    }
    DueSinceLastRunIff(s, first, t, t);
    NextIsLeast(s.expression, t, 0);
  }

  lemma OccursInIff(e: Expression, from: int, to: int)
    requires e.Calendar() && from <= to
    ensures OccursIn(e, from, to) <==> Next(e, from).Some? && Next(e, from).value <= to
  {
    hide Occurs, Next;
    NextIsLeast(e, from, to);
    if OccursIn(e, from, to) {
      var o :| from < o <= to && Occurs(e, o);
      NextIsLeast(e, from, o);
    }
  }

  // ---- A schedule polled over a run ----------------------------------------------------------------------------

  /** Finding a schedule due and marking it run are separate calls, so several pollers may be
      between the two: `seen` are the occurrences they found due, `answered` those for which
      the task ran. `doubled` says that some occurrence was seen while seen already. */
  datatype State = State(schedule: Schedule, clock: int, seen: seq<int>, answered: seq<int>, doubled: bool)

  datatype Op =
    | See(now: int)
    | Mark(i: nat, first: int, second: int)
    | EnableAt(now: int)
    | DisableIt

  /** The clock never runs back. */
  predicate Permitted(s: State, op: Op) {
    match op
    case See(now) => s.clock <= now
    case Mark(_, first, second) => s.clock <= first <= second
    case EnableAt(now) => s.clock <= now
    case DisableIt => true
  }

  function Apply(s: State, op: Op): State {
    match op
    case See(now) =>
      if s.schedule.ShouldRun(now)
      then s.(clock := now, seen := s.seen + [s.schedule.nextRun.value],
              doubled := s.doubled || s.schedule.nextRun.value in s.seen)
      else s.(clock := now)
    case Mark(i, first, second) =>
      if i >= |s.seen| then s
      else s.(schedule := s.schedule.MarkRun(first, second), clock := second,
              seen := RemoveAt(s.seen, i), answered := s.answered + [s.seen[i]])
    case EnableAt(now) => s.(schedule := s.schedule.Enable(now), clock := now)
    case DisableIt => s.(schedule := s.schedule.Disable())
  }

  ghost predicate IsRun(run: seq<State>, ops: seq<Op>) {
    && |run| == |ops| + 1 && run[0].answered == [] && run[0].seen == [] && !run[0].doubled
    && run[0].schedule == NewSchedule(run[0].schedule.name, run[0].schedule.expression, run[0].clock)
    && forall i :: 0 <= i < |ops| ==> Permitted(run[i], ops[i]) && run[i + 1] == Apply(run[i], ops[i])
  }

  ghost predicate NoTwice(xs: seq<int>) { forall i, j :: 0 <= i < j < |xs| ==> xs[i] != xs[j] }

  /** What is seen or answered are occurrences after the start, and those to come are none of
      the answered ones. */
  ghost predicate Answers(s: State, start: int) {
    && s.schedule.expression.Calendar() && start <= s.clock
    && (forall o :: o in s.seen || o in s.answered ==> start < o <= s.clock && Occurs(s.schedule.expression, o))
    && (s.schedule.nextRun.Some? ==>
          Occurs(s.schedule.expression, s.schedule.nextRun.value) && start < s.schedule.nextRun.value
          && s.schedule.nextRun.value !in s.answered)
    && (!s.doubled ==> NoTwice(s.answered) && NoTwice(s.seen) && forall o :: o in s.seen ==> o !in s.answered)
  }

  lemma SeeAnswers(s: State, now: int, start: int)
    requires Answers(s, start) && s.clock <= now
    ensures Answers(Apply(s, See(now)), start)
  {
    hide Occurs;
  }

  lemma MarkAnswers(s: State, i: nat, first: int, second: int, start: int)
    requires Answers(s, start) && s.clock <= first <= second
    ensures Answers(Apply(s, Mark(i, first, second)), start)
  {
    NextIsLeast(s.schedule.expression, second, 0);
    hide Next, Occurs;
    if i < |s.seen| {
      var s' := Apply(s, Mark(i, first, second));
      assert s.seen[i] in s.seen;
      forall o | o in s'.seen ensures o in s.seen {}
    }
  }

  lemma EnableAnswers(s: State, now: int, start: int)
    requires Answers(s, start) && s.clock <= now
    ensures Answers(Apply(s, EnableAt(now)), start)
  {
    NextIsLeast(s.schedule.expression, now, 0);
    hide Next, Occurs;
  }

  lemma StepAnswers(s: State, op: Op, start: int)
    requires Answers(s, start) && Permitted(s, op)
    ensures Answers(Apply(s, op), start)
  {
    match op {
      case See(now) => SeeAnswers(s, now, start);
      case Mark(i, first, second) => MarkAnswers(s, i, first, second, start);
      case EnableAt(now) => EnableAnswers(s, now, start);
      case DisableIt =>
    }
  }

  lemma {:induction false} RunAnswers(run: seq<State>, ops: seq<Op>, i: nat)
    requires IsRun(run, ops) && i < |run| && run[0].schedule.expression.Calendar()
    ensures Answers(run[i], run[0].clock) && run[i].schedule.expression == run[0].schedule.expression
  {
    if i == 0 {
      NextIsLeast(run[0].schedule.expression, run[0].clock, 0);
    } else {
      RunAnswers(run, ops, i - 1);
      StepAnswers(run[i - 1], ops[i - 1], run[0].clock);
    }
  }

  /** The instants in (from, to] that are occurrences. */
  ghost function Occurrences(e: Expression, from: int, to: int): set<int>
    requires e.Calendar()
  {
    set t | from < t <= to && Occurs(e, t)
  }

  /** With any number of pollers, enabled and disabled at will: as long as no occurrence is
      found due by two of them before either marks it, the schedule fires at most once for
      each occurrence since its creation. */
  lemma FiringsNeverOutnumberOccurrences(run: seq<State>, ops: seq<Op>, i: nat)
    requires IsRun(run, ops) && i < |run| && run[0].schedule.expression.Calendar() && !run[i].doubled
    ensures NoTwice(run[i].answered)
    ensures |run[i].answered| <= |Occurrences(run[0].schedule.expression, run[0].clock, run[i].clock)|
  {
    hide Apply, Occurs;
    RunAnswers(run, ops, i);
    var all := Occurrences(run[0].schedule.expression, run[0].clock, run[i].clock);
    forall n | 0 <= n < |run[i].answered| ensures run[i].answered[n] in all {
      assert run[i].answered[n] in run[i].answered;
    }
    DistinctWithin(run[i].answered, all);
  }

  lemma {:induction false} DistinctWithin(xs: seq<int>, s: set<int>)
    requires (forall i :: 0 <= i < |xs| ==> xs[i] in s) && NoTwice(xs)
    ensures |xs| <= |s|
  {
    if xs != [] {
      var n := |xs| - 1;
      DistinctWithin(xs[..n], s - {xs[n]});
    }
  }

  /** One poller that marks before it polls again never doubles. */
  lemma {:induction false} OnePollerNeverDoubles(run: seq<State>, ops: seq<Op>, i: nat)
    requires IsRun(run, ops) && i < |run|
    requires forall n :: 0 <= n < i && ops[n].See? ==> run[n].seen == []
    ensures !run[i].doubled
  {
    if i > 0 {
      OnePollerNeverDoubles(run, ops, i - 1);
    }
  }

  /** The condition cannot go: a schedule found due while a poller has seen the occurrence
      already fires for it a second time once both have marked. */
  lemma SeenTwiceFiresTwice(s: State, now: int, i: nat, first: int)
    requires s.schedule.ShouldRun(now) && i < |s.seen| && s.seen[i] == s.schedule.nextRun.value
    requires s.clock <= now <= first
    ensures var s' := Apply(Apply(Apply(s, See(now)), Mark(|s.seen|, first, first)), Mark(i, first, first));
      s'.answered == s.answered + [s.seen[i], s.seen[i]] && !NoTwice(s'.answered)
  {
    var s1 := Apply(s, See(now));
    var s2 := Apply(s1, Mark(|s.seen|, first, first));
    assert s2.seen == s.seen && s2.answered == s.answered + [s.seen[i]];
    var s3 := Apply(s2, Mark(i, first, first));
    var n := |s.answered|;
    assert s3.answered == s.answered + [s.seen[i], s.seen[i]];
    assert s3.answered[n] == s3.answered[n + 1];
  }

  /** So it happens: from any new schedule on, two pollers that see an occurrence before either
      marks it fire for it twice. */
  lemma DoubleFiringIsReached(name: string, e: Expression, start: int, o: int) returns (run: seq<State>, ops: seq<Op>)
    requires e.Calendar() && Next(e, start) == Some(o)
    ensures IsRun(run, ops) && run[0].schedule == NewSchedule(name, e, start) && run[0].clock == start
    ensures ops == [See(o), See(o), Mark(1, o, o), Mark(0, o, o)]
    ensures run[4].answered == [o, o] && run[4].doubled
  {
    NextIsLeast(e, start, o);
    hide Next, Occurs;
    var s := State(NewSchedule(name, e, start), start, [], [], false);
    var s1 := Apply(s, See(o));
    var s2 := Apply(s1, See(o));
    assert s1.seen == [o] && s2.seen == [o, o] && s2.doubled;
    var s3 := Apply(s2, Mark(1, o, o));
    assert s3.seen == [o] && s3.answered == [o];
    run, ops := [s, s1, s2, s3, Apply(s3, Mark(0, o, o))], [See(o), See(o), Mark(1, o, o), Mark(0, o, o)];
  }

  function Period(e: Expression): int { if e.DailyAt? then DAY else WEEK }

  /** Occurrences are at least a day, or a week, apart, so their number is bounded too. */
  lemma {:induction false} OccurrencesAreRare(e: Expression, from: int, to: int)
    requires e.Calendar() && Occurrences(e, from, to) != {}
    ensures (|Occurrences(e, from, to)| - 1) * Period(e) < to - from
    decreases |Occurrences(e, from, to)|
  {
    hide Occurs;
    var all := Occurrences(e, from, to);
    var last := Largest(all);
    var rest := Occurrences(e, from, last - 1);
    assert all == rest + {last};
    if rest != {} {
      var before := Largest(rest);
      OccurrencesApart(e, before, last);
      assert rest == Occurrences(e, from, before);
      OccurrencesAreRare(e, from, before);
      assert |rest| * Period(e) == (|rest| - 1) * Period(e) + Period(e);
    }
  }

  lemma {:induction false} Largest(s: set<int>) returns (m: int)
    requires exists x :: x in s
    ensures m in s && (forall x :: x in s ==> x <= m)
  {
    m :| m in s;
    if y :| y in s && y != m {
      assert y in s - {m};
      var other := Largest(s - {m});
      assert forall x :: x in s ==> x == m || x in s - {m};
      m := if m < other then other else m;
    }
  }

  /** So under the same condition a daily schedule fires at most once for each day of the run,
      and a weekly one for each week, plus one. */
  lemma FiringsAreRare(run: seq<State>, ops: seq<Op>, i: nat)
    requires IsRun(run, ops) && i < |run| && run[0].schedule.expression.Calendar() && !run[i].doubled
    ensures run[i].answered != [] ==>
      (|run[i].answered| - 1) * Period(run[0].schedule.expression) < run[i].clock - run[0].clock
  {
    hide Occurs, Apply;
    FiringsNeverOutnumberOccurrences(run, ops, i);
    if run[i].answered != [] {
      RunAnswers(run, ops, i);
      assert run[i].answered[0] in run[i].answered;
      var e, from, to := run[0].schedule.expression, run[0].clock, run[i].clock;
      assert Occurrences(e, from, to) != {};
      OccurrencesAreRare(e, from, to);
      TimesMono(|run[i].answered| - 1, |Occurrences(e, from, to)| - 1, Period(e));
    }
  }

  // ---- The scheduler --------------------------------------------------------------------------------------------

  class Scheduler {
    var schedules: map<string, Schedule>

    constructor ()
      ensures schedules == map[]
    {
      schedules := map[];
    }

    method AddSchedule(s: Schedule)
      modifies this
      ensures schedules == old(schedules)[s.name := s]
    {
      schedules := schedules[s.name := s];
    }

    method RemoveSchedule(name: string) returns (found: bool)
      modifies this
      ensures found <==> name in old(schedules)
      ensures schedules == old(schedules) - {name}
    {
      found := name in schedules;
      schedules := schedules - {name};
    }

    method Enable(name: string, now: int) returns (found: bool)
      modifies this
      ensures found <==> name in old(schedules)
      ensures schedules ==
        if !found then old(schedules)
        else var s := old(schedules)[name]; old(schedules)[name := s.(enabled := true, nextRun := Next(s.expression, now))]
    {
      if name !in schedules {
        return false;
      }
      schedules := schedules[name := schedules[name].Enable(now)];
      return true;
    }

    method Disable(name: string) returns (found: bool)
      modifies this
      ensures found <==> name in old(schedules)
      ensures schedules ==
        if found then old(schedules)[name := old(schedules)[name].(enabled := false, nextRun := None)] else old(schedules)
    {
      if name !in schedules {
        return false;
      }
      schedules := schedules[name := schedules[name].Disable()];
      return true;
    }

    method MarkRun(name: string, first: int, second: int)
      modifies this
      ensures schedules ==
        if name !in old(schedules) then old(schedules)
        else var s := old(schedules)[name]; old(schedules)[name := s.(lastRun := Some(first), nextRun := Next(s.expression, second))]
    {
      if name in schedules {
        schedules := schedules[name := schedules[name].MarkRun(first, second)];
      }
    }

    /** Each due schedule once, in no particular order; the clock is read anew for each
        schedule, which is what `clock` gives. */
    method DueSchedules(clock: map<string, int>) returns (names: seq<string>)
      requires schedules.Keys <= clock.Keys
      ensures forall n :: n in names <==> n in schedules && schedules[n].ShouldRun(clock[n])
      ensures forall i, j :: 0 <= i < j < |names| ==> names[i] != names[j]
    {
      names := [];
      var rest := schedules.Keys;
      while rest != {}
        invariant rest <= schedules.Keys
        invariant forall n :: n in names <==> n in schedules && n !in rest && schedules[n].ShouldRun(clock[n])
        invariant forall i, j :: 0 <= i < j < |names| ==> names[i] != names[j]
        decreases rest
      {
        var name :| name in rest;
        rest := rest - {name};
        if schedules[name].ShouldRun(clock[name]) {
          names := names + [name];
        }
      }
    }
  }
}
