/** The spending bounds are reached, by jobs in flight together, by checks that race and by jobs
    confirmed by hand, and what confirmation does to the limits. */
module BackfillOverspend {
  import opened Arithmetic
  import opened Options
  import opened Sorting
  import opened Dates
  import opened Spending
  import opened Backfill

  function Times(k: nat, x: real): real {
    if k == 0 then 0.0 else Times(k - 1, x) + x
  }

  lemma {:induction false} TimesIsProduct(k: nat, x: real)
    ensures Times(k, x) == k as real * x
  {
    if k > 0 {
      TimesIsProduct(k - 1, x);
      assert k as real * x == (k - 1) as real * x + x;
    }
  }

  lemma {:induction false} TimesGrows(j: nat, k: nat, x: real)
    requires j <= k && x >= 0.0
    ensures Times(j, x) <= Times(k, x)
  {
    if j < k { TimesGrows(j, k - 1, x); }
  }

  lemma TimesStep(n: nat, x: real)
    ensures Times(n + 1, x) == Times(n, x) + x
  {}

  /** Auto-approval is on and covers the cost. */
  predicate BelowThreshold(c: Config, x: real) { c.limits.autoApproveEnabled && x <= c.limits.autoApproveThreshold }

  /** An allowed request of cost x that needs no confirmation and fits the per-request limit. */
  predicate Eligible(c: Config, r: Request, x: real) {
    && c.IsEnabled() && c.Allows(r.source) && (r.skipConfirmation || BelowThreshold(c, x))
    && r.start <= r.end && r.Cost() == x && 0.0 < x <= c.limits.maxPerRequest
  }

  ghost predicate AllCleared(calls: seq<Call>, x: real, base: nat, next: nat) {
    forall call :: call in calls ==> call.stage == Cleared && call.job.cost == x && base <= call.job.request.id < next
  }

  ghost predicate AllCost(js: seq<Job>, x: real) { forall j :: j in js ==> j.cost == x }

  predicate Held(jobs: map<nat, Job>, id: nat, x: real) {
    id in jobs && jobs[id].status == AwaitingConfirmation && jobs[id].request.id == id && jobs[id].cost == x
  }

  /** The ids below `base` await confirmation, `adm` calls are cleared to spawn and `fl` jobs in
      flight, all of cost x, and no id from `next` on has been used. */
  ghost predicate Shape(s: State, base: nat, adm: nat, fl: nat, x: real, next: nat) {
    && base <= next && (forall id: nat :: id < base ==> Held(s.jobs, id, x)) && (forall id :: id in s.jobs ==> id < next)
    && |s.calls| == adm && AllCleared(s.calls, x, base, next) && |s.flights| == fl && AllCost(s.flights, x)
    && s.confirming == [] && !s.reused && !s.overlapped && s.cooldowns == map[]
  }

  ghost predicate Spent(s: State, day: real, month: real, extra: real) {
    DaySpend(s) == day && MonthSpend(s) == month && s.extra == extra
  }

  ghost predicate Marks(s: State, peak: nat, peakFlights: nat) { s.peak == peak && s.peakFlights == peakFlights }

  predicate Affords(c: Config, day: real, month: real, x: real) {
    day + x <= c.limits.maxDaily && month + x <= c.limits.maxMonthly
  }

  // ---- A call led on its way -----------------------------------------------------------------------

  /** The state with this call come last, as far as `stage`. */
  function Entered(s: State, job: Job, stage: Stage): State {
    s.(calls := s.calls + [Call(job, stage)], peak := Larger(s.peak, CountOfCalls(s.calls) + 1 + |s.flights|),
       peakFlights := Larger(s.peakFlights, |s.flights|))
  }

  lemma Enters(c: Config, s: State, r: Request, base: nat, adm: nat, fl: nat, x: real, next: nat)
    requires Shape(s, base, adm, fl, x, next) && r.id == next && c.IsEnabled() && c.Allows(r.source)
    requires r.Cost() == x && x <= c.limits.maxPerRequest && DaySpend(s) + x <= c.limits.maxDaily
    ensures Apply(c, s, Check(r, 0)) == Entered(s, Job(r, Pending, x), DayRead)
  {
    hide DaySpend, MonthSpend, CostOf, CountOfCalls;
    CallAppend(s.calls, Call(Job(r, Pending, x), DayRead));
    assert !Known(s, next) by { assert forall i :: 0 <= i < |s.calls| ==> s.calls[i] in s.calls; }
    assert EntryError(c, s, r, 0).None?;
  }

  /** A read that does not end the call. */
  lemma Reads(c: Config, s: State, job: Job, stage: Stage)
    requires stage in {DayRead, MonthRead, AutoDayRead} && NextStage(c, s, Call(job, stage)).Some?
    ensures Apply(c, Entered(s, job, stage), Proceed(|s.calls|)) == Entered(s, job, NextStage(c, s, Call(job, stage)).value)
  {
    hide DaySpend, MonthSpend, CountOfCalls;
    var s1, next := Entered(s, job, stage), NextStage(c, s, Call(job, stage)).value;
    assert DaySpend(s1) == DaySpend(s) && MonthSpend(s1) == MonthSpend(s) by { SpendSame(s, s1); }
    assert s1.calls[|s.calls| := Call(job, next)] == s.calls + [Call(job, next)];
  }

  lemma SpendSame(s: State, s': State)
    requires s.history == s'.history && s.today == s'.today
    ensures DaySpend(s) == DaySpend(s') && MonthSpend(s) == MonthSpend(s')
  {}

  /** A call that stores its job for confirmation. */
  lemma Stores(c: Config, s: State, job: Job)
    ensures var held := job.(status := AwaitingConfirmation);
      Apply(c, Entered(s, job, ToHold), Proceed(|s.calls|))
      == Entered(s, job, ToHold).(calls := s.calls, jobs := s.jobs[job.request.id := held])
  {
    hide CountOfCalls;
    assert RemoveAt(s.calls + [Call(job, ToHold)], |s.calls|) == s.calls;
  }

  lemma {:induction false} CountCleared(calls: seq<Call>, x: real, base: nat, next: nat)
    requires AllCleared(calls, x, base, next)
    ensures CountOfCalls(calls) == |calls|
  {
    if calls != [] {
      var n := |calls| - 1;
      assert calls[n] in calls && forall call :: call in calls[..n] ==> call in calls;
      CountCleared(calls[..n], x, base, next);
    }
  }

  // ---- What each step does to the shape -----------------------------------------------------------------

  lemma EnteredShape(s: State, r: Request, base: nat, adm: nat, fl: nat, x: real, next: nat)
    requires Shape(s, base, adm, fl, x, next) && r.id == next
    ensures var s' := Entered(s, Job(r, Pending, x), Cleared);
      Shape(s', base, adm + 1, fl, x, next + 1) && Marks(s', Larger(s.peak, adm + 1 + fl), Larger(s.peakFlights, fl))
  {
    CountCleared(s.calls, x, base, next);
    hide CountOfCalls;
  }

  lemma SpawnOne(c: Config, s: State, base: nat, adm: nat, fl: nat, x: real, next: nat)
    requires Shape(s, base, adm, fl, x, next) && adm > 0
    ensures var s' := Apply(c, s, Proceed(0));
      && Shape(s', base, adm - 1, fl + 1, x, next) && Marks(s', Larger(s.peak, adm + fl), Larger(s.peakFlights, fl + 1))
      && s'.history == s.history && s'.today == s.today && s'.extra == s.extra
  {
    var call, rest := s.calls[0], RemoveAt(s.calls, 0);
    assert call in s.calls;
    forall other | other in rest ensures other in s.calls {}
    CountCleared(rest, x, base, next);
    hide CountOfCalls;
    var s' := Apply(c, s, Proceed(0));
    assert s'.jobs == s.jobs[call.job.request.id := call.job] && s'.flights == s.flights + [call.job];
    forall id: nat | id < base ensures Held(s'.jobs, id, x) { assert Held(s.jobs, id, x); }
  }

  lemma FinishOne(c: Config, s: State, base: nat, adm: nat, fl: nat, x: real, next: nat)
    requires Shape(s, base, adm, fl, x, next) && fl > 0
    ensures var s' := Apply(c, s, Finish(0, true));
      Shape(s', base, adm, fl - 1, x, next) && Marks(s', s.peak, s.peakFlights)
  {
    forall j | j in RemoveAt(s.flights, 0) ensures j in s.flights {}
  }

  lemma ChargePays(c: Config, s: State, day: real, month: real, extra: real)
    requires s.flights != [] && Spent(s, day, month, extra)
    ensures Spent(Apply(c, s, Finish(0, true)), day + s.flights[0].cost, month + s.flights[0].cost, extra)
  {
    hide Total, OnDay, InMonth, DayNo, MonthNo;
    ChargeTotals(s, s.flights[0]);
  }

  lemma FinishPays(c: Config, s: State, base: nat, adm: nat, fl: nat, x: real, next: nat, day: real, month: real, extra: real)
    requires Shape(s, base, adm, fl, x, next) && fl > 0 && Spent(s, day, month, extra)
    ensures Spent(Apply(c, s, Finish(0, true)), day + x, month + x, extra)
  {
    assert s.flights[0] in s.flights && s.flights[0].cost == x;
    hide Shape;
    ChargePays(c, s, day, month, extra);
  }

  lemma HeldShape(c: Config, s: State, r: Request, base: nat, x: real)
    requires Shape(s, base, 0, 0, x, base) && r.id == base
    ensures var job := Job(r, Pending, x);
      var s' := Entered(s, job, ToHold).(calls := s.calls, jobs := s.jobs[base := job.(status := AwaitingConfirmation)]);
      Shape(s', base + 1, 0, 0, x, base + 1) && Marks(s', Larger(s.peak, 1), s.peakFlights)
  {
    var jobs := s.jobs[base := Job(r, AwaitingConfirmation, x)];
    forall id: nat | id < base ensures Held(jobs, id, x) { assert Held(s.jobs, id, x); }
  }

  lemma ConfirmedShape(c: Config, s: State, base: nat, x: real, next: nat)
    requires Shape(s, base, 0, 0, x, next) && base > 0
    ensures var s1 := Apply(c, s, Confirm(base - 1));
      var s2 := Apply(c, s1, SpawnConfirmed(0));
      && Shape(s2, base - 1, 0, 1, x, next) && Marks(s2, Larger(s.peak, 1), Larger(s.peakFlights, 1))
      && s2.history == s.history && s2.today == s.today && s2.extra == s.extra + x
  {
    assert Held(s.jobs, base - 1, x);
    var s1 := Apply(c, s, Confirm(base - 1));
    assert s1.confirming == [s.jobs[base - 1]] && !s1.overlapped;
    var s2 := Apply(c, s1, SpawnConfirmed(0));
    assert s2.flights == [s.jobs[base - 1].(status := Pending)];
    forall id: nat | id < base - 1 ensures Held(s2.jobs, id, x) { assert Held(s.jobs, id, x); }
  }

  // ---- Runs, a request at a time ---------------------------------------------------------------------------

  /** A run that ends in this state. `confirms` says whether jobs may have been confirmed. */
  ghost predicate Reaches(c: Config, day0: Date, run: seq<State>, ops: seq<Op>, s: State, confirms: bool) {
    && IsRun(c, run, ops) && run[0] == Start(day0) && run[|ops|] == s && (forall op :: op in ops ==> Forward(op) && (op.Confirm? ==> confirms))
  }

  lemma Then(c: Config, day0: Date, run: seq<State>, ops: seq<Op>, s: State, confirms: bool, op: Op)
    returns (run': seq<State>, ops': seq<Op>, s': State)
    requires Reaches(c, day0, run, ops, s, confirms) && Permitted(s, op) && Forward(op) && (op.Confirm? ==> confirms)
    ensures Reaches(c, day0, run', ops', s', confirms) && s' == Apply(c, s, op)
  {
    hide Apply, Permitted, Forward;
    run', ops' := Extend(c, run, ops, op);
    s' := run'[|ops'|];
  }

  /** One more request, led to where its job may be spawned. */
  lemma AdmitOne(c: Config, day0: Date, run0: seq<State>, ops0: seq<Op>, s0: State, confirms: bool, r: Request,
    base: nat, adm: nat, fl: nat, x: real, next: nat)
    returns (run: seq<State>, ops: seq<Op>, s: State)
    requires Reaches(c, day0, run0, ops0, s0, confirms) && Shape(s0, base, adm, fl, x, next)
    requires Eligible(c, r, x) && Affords(c, DaySpend(s0), MonthSpend(s0), x)
    ensures Reaches(c, day0, run, ops, s, confirms) && Shape(s, base, adm + 1, fl, x, next + 1)
    ensures Marks(s, Larger(s0.peak, adm + 1 + fl), Larger(s0.peakFlights, fl))
    ensures s.history == s0.history && s.today == s0.today && s.extra == s0.extra
  {
    var one := r.(id := next);
    var job := Job(one, Pending, x);
    assert one.Cost() == x && Forward(Check(one, 0));
    Enters(c, s0, one, base, adm, fl, x, next);
    EnteredShape(s0, one, base, adm, fl, x, next);
    hide Reaches, Shape, Apply, CostOf, DaySpend, MonthSpend, Entered, CountOfCalls;
    run, ops, s := Then(c, day0, run0, ops0, s0, confirms, Check(one, 0));
    Reads(c, s0, job, DayRead);
    run, ops, s := Then(c, day0, run, ops, s, confirms, Proceed(adm));
    if !r.skipConfirmation {
      Reads(c, s0, job, MonthRead);
      run, ops, s := Then(c, day0, run, ops, s, confirms, Proceed(adm));
      Reads(c, s0, job, AutoDayRead);
      run, ops, s := Then(c, day0, run, ops, s, confirms, Proceed(adm));
    }
  }

  /** A request within the limits is admitted, spawned, and finished. */
  lemma ServeOne(c: Config, day0: Date, run0: seq<State>, ops0: seq<Op>, s0: State, confirms: bool, r: Request,
    base: nat, x: real, next: nat, day: real, month: real, extra: real)
    returns (run: seq<State>, ops: seq<Op>, s: State)
    requires Reaches(c, day0, run0, ops0, s0, confirms) && Shape(s0, base, 0, 0, x, next) && Spent(s0, day, month, extra)
    requires Eligible(c, r, x) && Affords(c, day, month, x)
    ensures Reaches(c, day0, run, ops, s, confirms) && Shape(s, base, 0, 0, x, next + 1)
    ensures Spent(s, day + x, month + x, extra) && s.today == s0.today
    ensures Marks(s, Larger(s0.peak, 1), Larger(s0.peakFlights, 1))
  {
    run, ops, s := AdmitOne(c, day0, run0, ops0, s0, confirms, r, base, 0, 0, x, next);
    SpendSame(s0, s);
    hide Reaches, Shape, DaySpend, MonthSpend, Eligible, Affords;
    run, ops, s := SpawnAndFinish(c, day0, run, ops, s, confirms, base, 1, x, next + 1, day, month, extra);
  }

  /** A job cleared to spawn is spawned and finished with no other in flight. */
  lemma SpawnAndFinish(c: Config, day0: Date, run0: seq<State>, ops0: seq<Op>, s0: State, confirms: bool,
    base: nat, adm: nat, x: real, next: nat, day: real, month: real, extra: real)
    returns (run: seq<State>, ops: seq<Op>, s: State)
    requires Reaches(c, day0, run0, ops0, s0, confirms) && Shape(s0, base, adm, 0, x, next) && Spent(s0, day, month, extra) && adm > 0
    ensures Reaches(c, day0, run, ops, s, confirms) && Shape(s, base, adm - 1, 0, x, next)
    ensures Spent(s, day + x, month + x, extra) && s.today == s0.today
    ensures Marks(s, Larger(s0.peak, adm), Larger(s0.peakFlights, 1))
  {
    hide Reaches, Shape, DaySpend, MonthSpend, Apply;
    SpawnOne(c, s0, base, adm, 0, x, next);
    run, ops, s := Then(c, day0, run0, ops0, s0, confirms, Proceed(0));
    SpendSame(s0, s);
    run, ops, s := FinishNext(c, day0, run, ops, s, confirms, base, adm - 1, 1, x, next, day, month, extra);
  }

  lemma FinishNext(c: Config, day0: Date, run0: seq<State>, ops0: seq<Op>, s0: State, confirms: bool,
    base: nat, adm: nat, fl: nat, x: real, next: nat, day: real, month: real, extra: real)
    returns (run: seq<State>, ops: seq<Op>, s: State)
    requires Reaches(c, day0, run0, ops0, s0, confirms) && Shape(s0, base, adm, fl, x, next) && Spent(s0, day, month, extra) && fl > 0
    ensures Reaches(c, day0, run, ops, s, confirms) && Shape(s, base, adm, fl - 1, x, next)
    ensures Spent(s, day + x, month + x, extra) && s.today == s0.today && Marks(s, s0.peak, s0.peakFlights)
  {
    FinishOne(c, s0, base, adm, fl, x, next);
    FinishPays(c, s0, base, adm, fl, x, next, day, month, extra);
    hide Reaches, Shape, Spent;
    run, ops, s := Then(c, day0, run0, ops0, s0, confirms, Finish(0, true));
  }

  /** A request that needs confirmation is stored for it. */
  lemma HoldOne(c: Config, day0: Date, run0: seq<State>, ops0: seq<Op>, s0: State, confirms: bool, r: Request, base: nat, x: real)
    returns (run: seq<State>, ops: seq<Op>, s: State)
    requires Reaches(c, day0, run0, ops0, s0, confirms) && Shape(s0, base, 0, 0, x, base)
    requires Eligible(c, r, x) && !BelowThreshold(c, x) && Affords(c, DaySpend(s0), MonthSpend(s0), x)
    ensures Reaches(c, day0, run, ops, s, confirms) && Shape(s, base + 1, 0, 0, x, base + 1)
    ensures Marks(s, Larger(s0.peak, 1), s0.peakFlights)
    ensures s.history == s0.history && s.today == s0.today && s.extra == s0.extra
  {
    var one := r.(id := base, skipConfirmation := false);
    var job := Job(one, Pending, x);
    assert one.Cost() == x && Forward(Check(one, 0));
    Enters(c, s0, one, base, 0, 0, x, base);
    HeldShape(c, s0, one, base, x);
    assert s0.calls == [] by { hide *; assert |s0.calls| == 0 by { CallsAre(s0, base, 0, 0, x, base); } }
    hide Reaches, Shape, Apply, CostOf, DaySpend, MonthSpend;
    run, ops, s := Then(c, day0, run0, ops0, s0, confirms, Check(one, 0));
    Reads(c, s0, job, DayRead);
    run, ops, s := Then(c, day0, run, ops, s, confirms, Proceed(0));
    Stores(c, s0, job);
    run, ops, s := Then(c, day0, run, ops, s, confirms, Proceed(0));
  }

  lemma CallsAre(s: State, base: nat, adm: nat, fl: nat, x: real, next: nat)
    requires Shape(s, base, adm, fl, x, next)
    ensures |s.calls| == adm && s.confirming == [] && !s.reused && !s.overlapped
  {}

  /** A stored job is confirmed, and finishes, whatever has been spent. */
  lemma ConfirmOne(c: Config, day0: Date, run0: seq<State>, ops0: seq<Op>, s0: State, base: nat, x: real, next: nat,
    day: real, month: real, extra: real)
    returns (run: seq<State>, ops: seq<Op>, s: State)
    requires Reaches(c, day0, run0, ops0, s0, true) && Shape(s0, base, 0, 0, x, next) && Spent(s0, day, month, extra) && base > 0
    ensures Reaches(c, day0, run, ops, s, true) && Shape(s, base - 1, 0, 0, x, next)
    ensures Spent(s, day + x, month + x, extra + x) && s.today == s0.today
    ensures Marks(s, Larger(s0.peak, 1), Larger(s0.peakFlights, 1))
  {
    hide Reaches, Shape, Apply, DaySpend, MonthSpend;
    ConfirmedShape(c, s0, base, x, next);
    run, ops, s := Then(c, day0, run0, ops0, s0, true, Confirm(base - 1));
    run, ops, s := Then(c, day0, run, ops, s, true, SpawnConfirmed(0));
    SpendSame(s0, s);
    run, ops, s := FinishNext(c, day0, run, ops, s, true, base - 1, 0, 1, x, next, day, month, extra + x);
  }

  /** The next day of the month begins with nothing charged. */
  lemma NextDay(c: Config, day0: Date, run0: seq<State>, ops0: seq<Op>, s0: State, confirms: bool,
    base: nat, x: real, next: nat, day: real, month: real, extra: real)
    returns (run: seq<State>, ops: seq<Op>, s: State)
    requires Reaches(c, day0, run0, ops0, s0, confirms) && Shape(s0, base, 0, 0, x, next) && Spent(s0, day, month, extra)
    requires c.Validated() && Valid(s0.today) && s0.today.day < DaysIn(s0.today.year, s0.today.month)
    ensures Reaches(c, day0, run, ops, s, confirms) && Shape(s, base, 0, 0, x, next)
    ensures Spent(s, 0.0, month, extra) && s.today == s0.today.(day := s0.today.day + 1)
    ensures Marks(s, s0.peak, s0.peakFlights)
  {
    var tomorrow := s0.today.(day := s0.today.day + 1);
    RunInvariant(c, run0, ops0, |ops0|);
    assert Dated(s0) && Permitted(s0, NewDay(tomorrow));
    hide IsRun, Apply, Total, OfKey, Costs, Bounded;
    RolloverSpend(s0, tomorrow, BY_DAY, DayNo(s0.today), DayNo(tomorrow));
    FutureIsEmpty(s0, DayNo(tomorrow), BY_DAY);
    NoTotal();
    run, ops, s := Then(c, day0, run0, ops0, s0, confirms, NewDay(tomorrow));
    assert s == s0.(today := tomorrow) by { NewDayIs(c, s0, tomorrow); }
  }

  lemma NewDayIs(c: Config, s: State, date: Date)
    ensures Apply(c, s, NewDay(date)) == s.(today := date)
  {}

  // ---- Runs, many requests at a time ------------------------------------------------------------------------

  /** d requests of cost x fit a day, and n a month. */
  predicate Room(c: Config, d: nat, n: nat, x: real) { Times(d, x) <= c.limits.maxDaily && Times(n, x) <= c.limits.maxMonthly }

  lemma CostsSomething(c: Config, r: Request, x: real)
    requires Eligible(c, r, x)
    ensures x > 0.0
  {}

  lemma RoomForOne(c: Config, d: nat, n: nat, x: real, b: nat, q: nat)
    requires Room(c, d, n, x) && b < d && q < n && x >= 0.0
    ensures Affords(c, Times(b, x), Times(q, x), x)
  {
    TimesGrows(b + 1, d, x);
    TimesGrows(q + 1, n, x);
  }

  /** j requests stored for confirmation on an empty day. */
  lemma HoldMany(c: Config, today: Date, confirms: bool, r: Request, j: nat, x: real)
    returns (run: seq<State>, ops: seq<Op>, s: State)
    requires Valid(today) && Eligible(c, r, x) && Affords(c, 0.0, 0.0, x) && (j > 0 ==> !BelowThreshold(c, x))
    ensures Reaches(c, today, run, ops, s, confirms) && Shape(s, j, 0, 0, x, j)
    ensures Spent(s, 0.0, 0.0, 0.0) && s.today == today && s.peak <= 1 && s.peakFlights == 0
  {
    EmptyHistory();
    run, ops := Begin(c, today);
    s := run[|ops|];
    assert Spent(s, 0.0, 0.0, 0.0) && Shape(s, 0, 0, 0, x, 0) by { hide OnDay, InMonth; }
    hide Reaches, IsRun, Shape, DaySpend, MonthSpend, Eligible, Affords;
    for i := 0 to j
      invariant Reaches(c, today, run, ops, s, confirms) && Shape(s, i, 0, 0, x, i)
      invariant Spent(s, 0.0, 0.0, 0.0) && s.today == today && s.peak <= 1 && s.peakFlights == 0
    {
      var was := s;
      run, ops, s := HoldOne(c, today, run, ops, s, confirms, r, i, x);
      SpendSame(was, s);
    }
  }

  /** More requests on this day, one at a time. */
  lemma ServeMany(c: Config, day0: Date, run0: seq<State>, ops0: seq<Op>, s0: State, confirms: bool, r: Request, base: nat, x: real,
    b: nat, q: nat, more: nat, d: nat, n: nat)
    returns (run: seq<State>, ops: seq<Op>, s: State)
    requires Reaches(c, day0, run0, ops0, s0, confirms) && Shape(s0, base, 0, 0, x, base + q)
    requires Spent(s0, Times(b, x), Times(q, x), 0.0) && s0.peak <= 1 && s0.peakFlights <= 1
    requires Eligible(c, r, x) && Room(c, d, n, x) && b + more <= d && q + more <= n
    ensures Reaches(c, day0, run, ops, s, confirms) && Shape(s, base, 0, 0, x, base + q + more)
    ensures Spent(s, Times(b + more, x), Times(q + more, x), 0.0) && s.today == s0.today && s.peak <= 1 && s.peakFlights <= 1
  {
    hide Reaches, Shape, Spent, Eligible, Room, Affords, Times;
    run, ops, s := run0, ops0, s0;
    CostsSomething(c, r, x);
    for i := 0 to more
      invariant Reaches(c, day0, run, ops, s, confirms) && Shape(s, base, 0, 0, x, base + q + i)
      invariant Spent(s, Times(b + i, x), Times(q + i, x), 0.0) && s.today == s0.today && s.peak <= 1 && s.peakFlights <= 1
    {
      RoomForOne(c, d, n, x, b + i, q + i);
      run, ops, s := ServeOne(c, day0, run, ops, s, confirms, r, base, x, base + q + i, Times(b + i, x), Times(q + i, x), 0.0);
      TimesStep(b + i, x);
      TimesStep(q + i, x);
    }
  }

  lemma LastDayIsPartial(q: nat, a: nat, d: nat, b: nat)
    requires Split(q, a, d, b)
    ensures b < d
  {}

  lemma StepBelow(i: nat, a: nat, d: nat, served: nat)
    requires i < a && served == InDays(i, d)
    ensures served + d == InDays(i + 1, d) <= InDays(a, d)
  {
    TimesMono(i + 1, a, d);
  }

  /** A whole day of requests, one at a time, and the next day's beginning. */
  lemma FillDay(c: Config, day0: Date, run0: seq<State>, ops0: seq<Op>, s0: State, confirms: bool, r: Request, base: nat,
    x: real, q: nat, d: nat, n: nat)
    returns (run: seq<State>, ops: seq<Op>, s: State)
    requires Reaches(c, day0, run0, ops0, s0, confirms) && Shape(s0, base, 0, 0, x, base + q)
    requires Spent(s0, Times(0, x), Times(q, x), 0.0) && s0.peak <= 1 && s0.peakFlights <= 1
    requires Eligible(c, r, x) && Room(c, d, n, x) && q + d <= n && c.Validated()
    requires Valid(s0.today) && s0.today.day < DaysIn(s0.today.year, s0.today.month)
    ensures Reaches(c, day0, run, ops, s, confirms) && Shape(s, base, 0, 0, x, base + q + d)
    ensures Spent(s, Times(0, x), Times(q + d, x), 0.0) && s.today == s0.today.(day := s0.today.day + 1)
    ensures s.peak <= 1 && s.peakFlights <= 1
  {
    assert Times(0, x) == 0.0;
    hide Reaches, Shape, Spent, Eligible, Room, Times, DaysIn, Valid;
    run, ops, s := ServeMany(c, day0, run0, ops0, s0, confirms, r, base, x, 0, q, d, d, n);
    run, ops, s := NextDay(c, day0, run, ops, s, confirms, base, x, base + q + d, Times(d, x), Times(q + d, x), 0.0);
  }

  /** The q requests before this one fill `a` days of d each, and b of the day after. */
  predicate Split(q: nat, a: nat, d: nat, b: nat) { q == InDays(a, d) + b && b < d }

  function InDays(a: nat, d: nat): nat { a * d }

  /** j requests stored; then q requests one at a time, d on each day but the last. */
  lemma ServeDays(c: Config, today: Date, confirms: bool, r: Request, j: nat, a: nat, d: nat, b: nat, q: nat, n: nat, x: real)
    returns (run: seq<State>, ops: seq<Op>, s: State)
    requires Valid(today) && today.day + a <= DaysIn(today.year, today.month) && c.Validated()
    requires Eligible(c, r, x) && Room(c, d, n, x) && Split(q, a, d, b) && q < n && (j > 0 ==> !BelowThreshold(c, x))
    ensures Reaches(c, today, run, ops, s, confirms) && Shape(s, j, 0, 0, x, j + q)
    ensures Spent(s, Times(b, x), Times(q, x), 0.0) && s.today == today.(day := today.day + a)
    ensures s.peak <= 1 && s.peakFlights <= 1
  {
    hide Reaches, Shape, Spent, Eligible, Room, Affords, DaysIn;
    CostsSomething(c, r, x);
    RoomForOne(c, d, n, x, 0, 0);
    assert Times(0, x) == 0.0 && InDays(0, d) == 0;
    hide Times, InDays;
    run, ops, s := HoldMany(c, today, confirms, r, j, x);
    var served := 0;
    for i := 0 to a
      invariant Reaches(c, today, run, ops, s, confirms) && served == InDays(i, d) && Shape(s, j, 0, 0, x, j + served)
      invariant Spent(s, Times(0, x), Times(served, x), 0.0) && s.today == today.(day := today.day + i)
      invariant s.peak <= 1 && s.peakFlights <= 1
    {
      StepBelow(i, a, d, served);
      run, ops, s := FillDay(c, today, run, ops, s, confirms, r, j, x, served, d, n);
      served := served + d;
    }
    run, ops, s := ServeMany(c, today, run, ops, s, confirms, r, j, x, 0, served, b, d, n);
  }

  /** k requests checked and spawned, and then finished. */
  lemma InFlightTogether(c: Config, day0: Date, run0: seq<State>, ops0: seq<Op>, s0: State, confirms: bool, r: Request, base: nat,
    next: nat, b: nat, q: nat, k: nat, x: real)
    returns (run: seq<State>, ops: seq<Op>, s: State)
    requires Reaches(c, day0, run0, ops0, s0, confirms) && Shape(s0, base, 0, 0, x, next)
    requires Spent(s0, Times(b, x), Times(q, x), 0.0) && s0.peak <= 1 && s0.peakFlights <= 1
    requires Eligible(c, r, x) && k >= 1 && Affords(c, Times(b, x), Times(q, x), x)
    ensures Reaches(c, day0, run, ops, s, confirms) && Shape(s, base, 0, 0, x, next + k)
    ensures Spent(s, Times(b + k, x), Times(q + k, x), 0.0) && s.today == s0.today && Marks(s, k, k)
  {
    hide Reaches, Shape, DaySpend, MonthSpend, Apply, Eligible, Affords, Times;
    run, ops, s := run0, ops0, s0;
    for i := 0 to k
      invariant Reaches(c, day0, run, ops, s, confirms) && Shape(s, base, 0, i, x, next + i)
      invariant Spent(s, Times(b, x), Times(q, x), 0.0) && s.today == s0.today
      invariant s.peak <= Larger(1, i) && s.peakFlights <= Larger(1, i) && (i > 0 ==> Marks(s, i, i))
    {
      var was := s;
      run, ops, s := AdmitOne(c, day0, run, ops, s, confirms, r, base, 0, i, x, next + i);
      SpawnOne(c, s, base, 1, i, x, next + i + 1);
      run, ops, s := Then(c, day0, run, ops, s, confirms, Proceed(0));
      SpendSame(was, s);
    }
    for i := 0 to k
      invariant Reaches(c, day0, run, ops, s, confirms) && Shape(s, base, 0, k - i, x, next + k)
      invariant Spent(s, Times(b + i, x), Times(q + i, x), 0.0) && s.today == s0.today && Marks(s, k, k)
    {
      run, ops, s := FinishNext(c, day0, run, ops, s, confirms, base, 0, k - i, x, next + k, Times(b + i, x), Times(q + i, x), 0.0);
      TimesStep(b + i, x);
      TimesStep(q + i, x);
    }
  }

  /** k requests checked, and then spawned and finished one by one. */
  lemma PastTheChecksTogether(c: Config, day0: Date, run0: seq<State>, ops0: seq<Op>, s0: State, confirms: bool, r: Request, base: nat,
    next: nat, b: nat, q: nat, k: nat, x: real)
    returns (run: seq<State>, ops: seq<Op>, s: State)
    requires Reaches(c, day0, run0, ops0, s0, confirms) && Shape(s0, base, 0, 0, x, next)
    requires Spent(s0, Times(b, x), Times(q, x), 0.0) && s0.peak <= 1 && s0.peakFlights <= 1
    requires Eligible(c, r, x) && k >= 1 && Affords(c, Times(b, x), Times(q, x), x)
    ensures Reaches(c, day0, run, ops, s, confirms) && Shape(s, base, 0, 0, x, next + k)
    ensures Spent(s, Times(b + k, x), Times(q + k, x), 0.0) && s.today == s0.today && Marks(s, k, 1)
  {
    hide Reaches, Shape, DaySpend, MonthSpend, Apply, Eligible, Affords, Times;
    run, ops, s := run0, ops0, s0;
    for i := 0 to k
      invariant Reaches(c, day0, run, ops, s, confirms) && Shape(s, base, i, 0, x, next + i)
      invariant Spent(s, Times(b, x), Times(q, x), 0.0) && s.today == s0.today
      invariant s.peak <= Larger(1, i) && s.peakFlights <= 1 && (i > 0 ==> s.peak == i)
    {
      var was := s;
      run, ops, s := AdmitOne(c, day0, run, ops, s, confirms, r, base, i, 0, x, next + i);
      SpendSame(was, s);
    }
    for i := 0 to k
      invariant Reaches(c, day0, run, ops, s, confirms) && Shape(s, base, k - i, 0, x, next + k)
      invariant Spent(s, Times(b + i, x), Times(q + i, x), 0.0) && s.today == s0.today
      invariant s.peak == k && s.peakFlights <= 1 && (i > 0 ==> s.peakFlights == 1)
    {
      run, ops, s := SpawnAndFinish(c, day0, run, ops, s, confirms, base, k - i, x, next + k, Times(b + i, x), Times(q + i, x), 0.0);
      TimesStep(b + i, x);
      TimesStep(q + i, x);
    }
  }

  /** Every stored job is confirmed and finished, one at a time. */
  lemma ConfirmMany(c: Config, day0: Date, run0: seq<State>, ops0: seq<Op>, s0: State, confirms: bool, j: nat, next: nat,
    b: nat, q: nat, x: real)
    returns (run: seq<State>, ops: seq<Op>, s: State)
    requires Reaches(c, day0, run0, ops0, s0, confirms) && Shape(s0, j, 0, 0, x, next) && (confirms <==> j > 0)
    requires Spent(s0, Times(b, x), Times(q, x), 0.0) && s0.peak >= 1 && s0.peakFlights >= 1
    ensures Reaches(c, day0, run, ops, s, confirms) && Shape(s, 0, 0, 0, x, next)
    ensures Spent(s, Times(b + j, x), Times(q + j, x), Times(j, x)) && s.today == s0.today && Marks(s, s0.peak, s0.peakFlights)
  {
    assert Times(0, x) == 0.0;
    hide Reaches, Shape, Spent, Times;
    run, ops, s := run0, ops0, s0;
    for i := 0 to j
      invariant Reaches(c, day0, run, ops, s, confirms) && Shape(s, j - i, 0, 0, x, next)
      invariant Spent(s, Times(b + i, x), Times(q + i, x), Times(i, x)) && s.today == s0.today && Marks(s, s0.peak, s0.peakFlights)
    {
      run, ops, s := ConfirmOne(c, day0, run, ops, s, j - i, x, next, Times(b + i, x), Times(q + i, x), Times(i, x));
      TimesStep(b + i, x);
      TimesStep(q + i, x);
      TimesStep(i, x);
    }
  }

  // ---- The bounds are reached -----------------------------------------------------------------------------

  /** k requests together, in flight or only past the checks. */
  lemma Together(c: Config, day0: Date, run0: seq<State>, ops0: seq<Op>, s0: State, confirms: bool, r: Request, base: nat,
    next: nat, b: nat, q: nat, k: nat, flying: bool, x: real)
    returns (run: seq<State>, ops: seq<Op>, s: State)
    requires Reaches(c, day0, run0, ops0, s0, confirms) && Shape(s0, base, 0, 0, x, next)
    requires Spent(s0, Times(b, x), Times(q, x), 0.0) && s0.peak <= 1 && s0.peakFlights <= 1
    requires Eligible(c, r, x) && k >= 1 && Affords(c, Times(b, x), Times(q, x), x)
    ensures Reaches(c, day0, run, ops, s, confirms) && Shape(s, base, 0, 0, x, next + k)
    ensures Spent(s, Times(b + k, x), Times(q + k, x), 0.0) && Marks(s, k, if flying then k else 1)
    ensures s.peak >= 1 && s.peakFlights >= 1
  {
    if flying {
      run, ops, s := InFlightTogether(c, day0, run0, ops0, s0, confirms, r, base, next, b, q, k, x);
    } else {
      run, ops, s := PastTheChecksTogether(c, day0, run0, ops0, s0, confirms, r, base, next, b, q, k, x);
    }
    assert s.peak >= 1 && s.peakFlights >= 1;
    hide *;
  }

  /** After q requests one at a time, d a day, k together and j confirmed. */
  lemma Overspend(c: Config, today: Date, r: Request, a: nat, d: nat, b: nat, q: nat, n: nat, k: nat, j: nat, flying: bool, x: real)
    returns (run: seq<State>, ops: seq<Op>, s: State)
    requires Valid(today) && today.day + a <= DaysIn(today.year, today.month) && c.Validated()
    requires Eligible(c, r, x) && Room(c, d, n, x) && Split(q, a, d, b) && q < n && (j > 0 ==> !BelowThreshold(c, x)) && k >= 1
    ensures Reaches(c, today, run, ops, s, j > 0) && !s.reused && !s.overlapped
    ensures Spent(s, Times(b + k + j, x), Times(q + k + j, x), Times(j, x)) && Marks(s, k, if flying then k else 1)
  {
    hide *;
    LastDayIsPartial(q, a, d, b);
    CostsSomething(c, r, x);
    RoomForOne(c, d, n, x, b, q);
    run, ops, s := ServeDays(c, today, j > 0, r, j, a, d, b, q, n, x);
    run, ops, s := Together(c, today, run, ops, s, j > 0, r, j, j + q, b, q, k, flying, x);
    var s1 := s;
    run, ops, s := ConfirmMany(c, today, run, ops, s, j > 0, j, j + q + k, b + k, q + k, x);
    SameMarks(s1, s, k, if flying then k else 1);
    CallsAre(s, 0, 0, 0, x, j + q + k);
  }

  lemma SameMarks(s: State, s': State, peak: nat, peakFlights: nat)
    requires Marks(s, peak, peakFlights) && Marks(s', s.peak, s.peakFlights)
    ensures Marks(s', peak, peakFlights)
  {}

  /** The daily limit is n requests of cost x, which is the limit for one; the jobs to be
      confirmed are above the threshold. */
  predicate Filled(c: Config, r: Request, n: nat, j: nat) {
    var x := c.limits.maxPerRequest;
    && c.Validated() && Eligible(c, r, x) && n >= 1 && (j > 0 ==> !BelowThreshold(c, x))
    && c.limits.maxDaily == n as real * x && c.limits.maxDaily <= c.limits.maxMonthly
  }

  /** The monthly limit is n requests of cost x, which is the limit for one; d of them fit a day,
      and all of them the days that are left of the month. */
  predicate MonthFilled(c: Config, today: Date, r: Request, d: nat, n: nat, j: nat) {
    var x := c.limits.maxPerRequest;
    && c.Validated() && Eligible(c, r, x) && n >= 1 && d >= 1 && (j > 0 ==> !BelowThreshold(c, x))
    && c.limits.maxMonthly == n as real * x && d as real * x <= c.limits.maxDaily
    && today.day <= DaysIn(today.year, today.month) && n <= d * (DaysIn(today.year, today.month) - today.day + 1)
  }

  lemma {:induction false} TimesSum(a: nat, b: nat, x: real)
    ensures Times(a + b, x) == Times(a, x) + Times(b, x)
  {
    if b > 0 { TimesSum(a, b - 1, x); }
  }

  lemma Bound(n: nat, k: nat, j: nat, x: real)
    requires n >= 1 && k >= 1
    ensures Times(n - 1 + k + j, x) == Times(n, x) + Times(k - 1, x) + Times(j, x)
  {
    TimesSum(n + (k - 1), j, x);
    TimesSum(n, k - 1, x);
  }

  /** A run from `today` on, with k jobs at a time under way, f in flight, and j confirmed, that
      ends with the day or the month as far above its limit as the bound allows. */
  ghost predicate AtTheBound(c: Config, today: Date, run: seq<State>, ops: seq<Op>, k: nat, f: nat, j: nat, month: bool) {
    && IsRun(c, run, ops) && run[0] == Start(today) && (forall op :: op in ops ==> Forward(op) && (op.Confirm? ==> j > 0))
    && var s, x := run[|ops|], c.limits.maxPerRequest;
      && !s.reused && !s.overlapped && s.peak == k && s.peakFlights == f && s.extra == j as real * x
      && SpendOf(s, month) == LimitOf(c, month) + (k - 1) as real * x + j as real * x
  }

  function SpendOf(s: State, month: bool): real { if month then MonthSpend(s) else DaySpend(s) }
  function LimitOf(c: Config, month: bool): real { if month then c.limits.maxMonthly else c.limits.maxDaily }

  lemma ComesTo(c: Config, today: Date, run: seq<State>, ops: seq<Op>, s: State, k: nat, f: nat, j: nat, month: bool)
    requires Reaches(c, today, run, ops, s, j > 0) && !s.reused && !s.overlapped && Marks(s, k, f) && k >= 1
    requires var x := c.limits.maxPerRequest;
      s.extra == Times(j, x) && SpendOf(s, month) == LimitOf(c, month) + Times(k - 1, x) + Times(j, x)
    ensures AtTheBound(c, today, run, ops, k, f, j, month)
  {
    TimesIsProduct(j, c.limits.maxPerRequest);
    TimesIsProduct(k - 1, c.limits.maxPerRequest);
    hide Times, Apply, Permitted, Forward, SpendOf, LimitOf;
  }

  lemma DayHasRoom(c: Config, r: Request, n: nat, j: nat)
    requires Filled(c, r, n, j)
    ensures var x := c.limits.maxPerRequest;
      && Room(c, n, n, x) && c.Validated() && Eligible(c, r, x) && n >= 1 && (j > 0 ==> !BelowThreshold(c, x))
      && c.limits.maxDaily == Times(n, x)
    ensures Split(n - 1, 0, n, n - 1)
  {
    hide Eligible;
    TimesIsProduct(n, c.limits.maxPerRequest);
  }

  /** n - 1 requests of the full size one at a time, k together, and j confirmed. */
  lemma DayOverspent(c: Config, today: Date, r: Request, n: nat, k: nat, j: nat, flying: bool) returns (run: seq<State>, ops: seq<Op>)
    requires Valid(today) && k >= 1 && Filled(c, r, n, j)
    ensures AtTheBound(c, today, run, ops, k, if flying then k else 1, j, false)
  {
    var x, s := c.limits.maxPerRequest, Start(today);
    DayHasRoom(c, r, n, j);
    Bound(n, k, j, x);
    hide Filled, Reaches, IsRun, Eligible, DaySpend, MonthSpend, AtTheBound, Times, Room, Split;
    run, ops, s := Overspend(c, today, r, 0, n, n - 1, n - 1, n, k, j, flying, x);
    ComesTo(c, today, run, ops, s, k, if flying then k else 1, j, false);
  }

  /** The bound is tight: n - 1 requests of the full size one at a time, then k in flight
      together, and j confirmed one at a time, end the day at the bound. */
  lemma OverspendIsReached(c: Config, today: Date, r: Request, n: nat, k: nat, j: nat) returns (run: seq<State>, ops: seq<Op>)
    requires Valid(today) && k >= 1 && Filled(c, r, n, j)
    ensures AtTheBound(c, today, run, ops, k, k, j, false)
  {
    run, ops := DayOverspent(c, today, r, n, k, j, true);
  }

  /** Counting the jobs in flight is not enough: k callers pass the checks together, and then
      spawn and finish one after the other, so that never more than one job is in flight. */
  lemma RacingChecksOverspend(c: Config, today: Date, r: Request, n: nat, k: nat, j: nat) returns (run: seq<State>, ops: seq<Op>)
    requires Valid(today) && k >= 1 && Filled(c, r, n, j)
    ensures AtTheBound(c, today, run, ops, k, 1, j, false)
  {
    run, ops := DayOverspent(c, today, r, n, k, j, false);
  }

  /** The monthly bound is tight too, over as many days as the requests need. */
  lemma MonthlyOverspendIsReached(c: Config, today: Date, r: Request, d: nat, n: nat, k: nat, j: nat)
    returns (run: seq<State>, ops: seq<Op>)
    requires Valid(today) && k >= 1 && MonthFilled(c, today, r, d, n, j)
    ensures AtTheBound(c, today, run, ops, k, k, j, true)
  {
    var x, s := c.limits.maxPerRequest, Start(today);
    hide MonthFilled, Reaches, Eligible, DaySpend, MonthSpend, AtTheBound, Times, Room, Split, Valid, DaysIn;
    var a, b := MonthHasRoom(c, today, r, d, n, j);
    Bound(n, k, j, x);
    run, ops, s := Overspend(c, today, r, a, d, b, n - 1, n, k, j, true, x);
    ComesTo(c, today, run, ops, s, k, k, j, true);
  }

  lemma MonthHasRoom(c: Config, today: Date, r: Request, d: nat, n: nat, j: nat) returns (a: nat, b: nat)
    requires MonthFilled(c, today, r, d, n, j)
    ensures var x := c.limits.maxPerRequest;
      && Room(c, d, n, x) && c.Validated() && Eligible(c, r, x) && n >= 1 && (j > 0 ==> !BelowThreshold(c, x))
      && c.limits.maxMonthly == Times(n, x)
    ensures Split(n - 1, a, d, b) && today.day + a <= DaysIn(today.year, today.month)
  {
    hide Eligible, DaysIn;
    TimesIsProduct(n, c.limits.maxPerRequest);
    TimesIsProduct(d, c.limits.maxPerRequest);
    a, b := SplitDays(n, d, DaysIn(today.year, today.month) - today.day + 1);
  }

  /** n requests, d a day, begin their last day within as many days as hold them all. */
  lemma SplitDays(n: nat, d: nat, days: nat) returns (a: nat, b: nat)
    requires 1 <= n <= d * days && d >= 1
    ensures Split(n - 1, a, d, b) && a < days
  {
    a, b := (n - 1) / d, (n - 1) % d;
    if a >= days { TimesMono(days, a, d); }
  }

  // ---- Confirmation --------------------------------------------------------------------------------------

  /** Confirmation rechecks nothing: with never more than one job under way, from its first read
      to its end, j jobs stored early and confirmed one at a time after the day has been filled
      take it j times the limit for one request above its own. */
  lemma ConfirmationBreaksTheLimit(c: Config, today: Date, r: Request, n: nat, j: nat) returns (run: seq<State>, ops: seq<Op>)
    requires Valid(today) && Filled(c, r, n, j) && j >= 1
    ensures IsRun(c, run, ops) && run[0] == Start(today) && forall op :: op in ops ==> Forward(op)
    ensures !run[|ops|].reused && !run[|ops|].overlapped && run[|ops|].peak == 1
    ensures DaySpend(run[|ops|]) == c.limits.maxDaily + j as real * c.limits.maxPerRequest > c.limits.maxDaily
  {
    assert j as real * c.limits.maxPerRequest > 0.0 by { ScaleOrder(j as real, 0.0, c.limits.maxPerRequest); }
    hide Filled, IsRun, Forward, DaySpend;
    run, ops := OverspendIsReached(c, today, r, n, 1, j);
  }

  /** With nothing else under way, confirming keeps a limit exactly when the cost still fits it. */
  lemma ConfirmKeepsTheLimitIff(c: Config, s: State, id: nat)
    requires Awaits(s, id) && s.jobs[id].request.id == id
    requires s.flights == [] && s.calls == [] && s.confirming == [] && s.peak <= 1
    ensures var s' := Apply(c, ConfirmAtOnce(c, s, id), Finish(0, true));
      && (DaySpend(s') <= c.limits.maxDaily <==> DaySpend(s) + s.jobs[id].cost <= c.limits.maxDaily)
      && (MonthSpend(s') <= c.limits.maxMonthly <==> MonthSpend(s) + s.jobs[id].cost <= c.limits.maxMonthly)
  {
    hide OnDay, InMonth, Total, DayNo, MonthNo, HasId;
    var flying := ConfirmAtOnce(c, s, id);
    assert flying.flights == [s.jobs[id].(status := Pending)];
    ChargeTotals(flying, flying.flights[0]);
  }
}
