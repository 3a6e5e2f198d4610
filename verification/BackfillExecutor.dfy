/** Backfill requests under spending limits. Limits are checked when a job is requested and
    the cost is charged when it completes, so what is guaranteed depends on the jobs in
    flight. A spawned job works on copies of the executor's maps and shares only the spend
    tracker with it. */
module Backfill {
  import opened Options
  import opened Sorting
  import opened Dates
  import opened Spending

  datatype Mode = Disabled | OnDemandMode | ScheduledMode | ManualOnly
  datatype Source = OnDemand | Scheduled | Manual
  datatype Status = Pending | AwaitingConfirmation | Running | Completed | Failed | Cancelled

  datatype Config = Config(
    enabled: bool, mode: Mode, onDemandEnabled: bool, scheduledEnabled: bool, cooldownSecs: nat, limits: Limits)
  {
    predicate IsEnabled() { enabled && mode != Disabled }

    predicate Allows(source: Source) {
      match source
      case OnDemand => enabled && mode == OnDemandMode && onDemandEnabled
      case Scheduled => enabled && (mode == ScheduledMode || mode == OnDemandMode) && scheduledEnabled
      case Manual => enabled && mode != Disabled
    }

    /** What the configuration's own validation demands of the limits. */
    predicate Validated() {
      limits.maxPerRequest > 0.0 && limits.maxDaily > 0.0 && limits.maxMonthly > 0.0
    }
  }

  /** start and end in seconds. */
  datatype Request = Request(
    id: nat, symbols: seq<string>, start: int, end: int, source: Source, skipConfirmation: bool)
  {
    /** num_hours: whole hours, truncated toward zero. */
    function Hours(): int {
      if end >= start then (end - start) / 3600 else -((start - end) / 3600)
    }

    function Cost(): real { CostOf(Hours(), |symbols|) }
  }

  /** A cent for each symbol and hour. */
  function CostOf(hours: int, symbols: nat): real { hours as real * symbols as real * 0.01 }

  datatype Job = Job(request: Request, status: Status, cost: real)

  /** How far a call of request_backfill has come: what it has read of the spend, or what it
      has decided. */
  datatype Stage = DayRead | MonthRead | AutoDayRead | Cleared | ToHold
  datatype Call = Call(job: Job, stage: Stage)

  datatype Error =
    | DisabledError | SourceNotAllowed | Duplicate | CostLimitExceeded | RequiresConfirmation
    | NotFound | NotAwaiting | CannotCancel

  datatype State = State(
    jobs: map<nat, Job>,
    cooldowns: map<string, int>,
    calls: seq<Call>,              // requests whose cost fitted the day when it was read
    confirming: seq<Job>,          // found to await confirmation, and not yet spawned
    flights: seq<Job>,             // copies of the spawned jobs that have not finished
    history: seq<SpendRecord>,     // everything charged
    today: Date,
    peak: nat,                     // most jobs ever past their first read and not finished
    peakFlights: nat,              // most jobs ever in flight at once
    extra: real,                   // total cost of the confirmed jobs
    reused: bool,                  // some request reused an id
    overlapped: bool)              // a job was confirmed while another call was confirming it

  function DaySpend(s: State): real { Total(OnDay(s.history, DayNo(s.today))) }
  function MonthSpend(s: State): real { Total(InMonth(s.history, MonthNo(s.today))) }

  predicate Fits(c: Config, s: State, cost: real) {
    && cost <= c.limits.maxPerRequest
    && DaySpend(s) + cost <= c.limits.maxDaily
    && MonthSpend(s) + cost <= c.limits.maxMonthly
  }

  predicate AutoApproved(c: Config, s: State, cost: real) {
    c.limits.autoApproveEnabled && cost <= c.limits.autoApproveThreshold && Fits(c, s, cost)
  }

  predicate InCooldown(c: Config, s: State, symbol: string, now: int) {
    symbol in s.cooldowns && now < s.cooldowns[symbol] + c.cooldownSecs
  }

  /** The checks made before anything is read of the spend. */
  function EntryError(c: Config, s: State, r: Request, now: int): Option<Error> {
    if !c.IsEnabled() then Some(DisabledError)
    else if !c.Allows(r.source) then Some(SourceNotAllowed)
    else if r.source == OnDemand && exists i :: 0 <= i < |r.symbols| && InCooldown(c, s, r.symbols[i], now) then Some(Duplicate)
    else None
  }

  /** The checks of a request in the order they are made; None when the job is spawned. */
  function Refusal(c: Config, s: State, r: Request, now: int): Option<Error> {
    if EntryError(c, s, r, now).Some? then EntryError(c, s, r, now)
    else if !Fits(c, s, r.Cost()) then Some(CostLimitExceeded)
    else if !r.skipConfirmation && !AutoApproved(c, s, r.Cost()) then Some(RequiresConfirmation)
    else None
  }

  /** The executor takes no lock across a call, and the tracker a lock for each read: a call
      reads the day, then the month, then both again for auto-approval, and then spawns the
      job or stores it. A confirmation takes two steps. */
  datatype Op =
    | Check(r: Request, now: int)      // up to reading the day
    | Proceed(i: nat)                  // the next step of a call
    | Confirm(id: nat)
    | SpawnConfirmed(i: nat)
    | Cancel(id: nat)
    | Finish(i: nat, success: bool)
    | NewDay(date: Date)

  /** Some call of this stage may still spawn its job, as far as the limit is concerned that
      it has read. */
  predicate Counts(stage: Stage, month: bool) { stage != ToHold && (month ==> stage != DayRead) }

  function CountOfCalls(calls: seq<Call>): nat {
    if calls == [] then 0
    else CountOfCalls(calls[..|calls| - 1]) + if Counts(calls[|calls| - 1].stage, false) then 1 else 0
  }

  /** The state with its high-water marks raised to what it holds. */
  function Marked(s: State): State {
    s.(peak := Larger(s.peak, CountOfCalls(s.calls) + |s.flights|), peakFlights := Larger(s.peakFlights, |s.flights|))
  }

  function Larger(a: nat, b: nat): nat { if a < b then b else a }

  /** The task of a job starts on its own copy of it. */
  function Fly(s: State, job: Job): State {
    Marked(s.(jobs := s.jobs[job.request.id := job], flights := s.flights + [job]))
  }

  predicate HasId(js: seq<Job>, id: nat) { exists i :: 0 <= i < |js| && js[i].request.id == id }
  predicate Calling(calls: seq<Call>, id: nat) { exists i :: 0 <= i < |calls| && calls[i].job.request.id == id }

  /** Some request has come with this id. */
  predicate Known(s: State, id: nat) { id in s.jobs || Calling(s.calls, id) }

  predicate Awaits(s: State, id: nat) { id in s.jobs && s.jobs[id].status == AwaitingConfirmation }

  function Charge(s: State, job: Job): SpendRecord {
    SpendRecord(s.today, job.cost, Some(job.request.id), "Backfill")
  }

  /** Where the next read of a call leads; None when the month is exceeded. */
  function NextStage(c: Config, s: State, call: Call): Option<Stage> {
    match call.stage
    case DayRead =>
      if MonthSpend(s) + call.job.cost > c.limits.maxMonthly then None
      else if call.job.request.skipConfirmation then Some(Cleared)
      else if c.limits.autoApproveEnabled && call.job.cost <= c.limits.autoApproveThreshold then Some(MonthRead)
      else Some(ToHold)
    case MonthRead => if DaySpend(s) + call.job.cost > c.limits.maxDaily then Some(ToHold) else Some(AutoDayRead)
    case AutoDayRead => if MonthSpend(s) + call.job.cost > c.limits.maxMonthly then Some(ToHold) else Some(Cleared)
    case _ => Some(call.stage)
  }

  function Step(c: Config, s: State, i: nat): State
    requires i < |s.calls|
  {
    var job, rest := s.calls[i].job, s.(calls := RemoveAt(s.calls, i));
    match s.calls[i].stage
    case Cleared => Fly(rest, job)
    case ToHold => rest.(jobs := s.jobs[job.request.id := job.(status := AwaitingConfirmation)])
    case _ =>
      match NextStage(c, s, s.calls[i])
      case None => rest
      case Some(stage) => s.(calls := s.calls[i := Call(job, stage)])
  }

  function Apply(c: Config, s: State, op: Op): State {
    match op
    case Check(r, now) =>
      if EntryError(c, s, r, now).Some? || r.Cost() > c.limits.maxPerRequest || DaySpend(s) + r.Cost() > c.limits.maxDaily then s
      else Marked(s.(reused := s.reused || Known(s, r.id), calls := s.calls + [Call(Job(r, Pending, r.Cost()), DayRead)]))
    case Proceed(i) => if i >= |s.calls| then s else Step(c, s, i)
    case Confirm(id) =>
      if !Awaits(s, id) then s
      else s.(confirming := s.confirming + [s.jobs[id]], overlapped := s.overlapped || HasId(s.confirming, id))
    case SpawnConfirmed(i) =>
      if i >= |s.confirming| || s.confirming[i].request.id !in s.jobs then s
      else
        // the task runs on the job the map holds by now
        var job := s.jobs[s.confirming[i].request.id].(status := Pending);
        Fly(s.(confirming := RemoveAt(s.confirming, i)), job).(extra := s.extra + job.cost)
    case Cancel(id) =>
      if id !in s.jobs || s.jobs[id].status !in {Pending, AwaitingConfirmation} then s
      else s.(jobs := s.jobs[id := s.jobs[id].(status := Cancelled)])
    case Finish(i, success) =>
      if i >= |s.flights| then s
      else s.(flights := RemoveAt(s.flights, i),
              history := if success then s.history + [Charge(s, s.flights[i])] else s.history)
    case NewDay(date) => s.(today := date)
  }

  /** Dates are real and never go back. */
  predicate Permitted(s: State, op: Op) {
    match op
    case NewDay(date) => Valid(date) && DayNo(s.today) <= DayNo(date)
    case _ => true
  }

  /** No request ends before it starts, so no cost is negative. */
  predicate Forward(op: Op) { op.Check? ==> op.r.start <= op.r.end }

  function Start(today: Date): State { State(map[], map[], [], [], [], [], today, 0, 0, 0.0, false, false) }

  ghost predicate IsRun(c: Config, run: seq<State>, ops: seq<Op>) {
    && |run| == |ops| + 1
    && Valid(run[0].today) && run[0] == Start(run[0].today)
    && forall i :: 0 <= i < |ops| ==> Permitted(run[i], ops[i]) && run[i + 1] == Apply(c, run[i], ops[i])
  }

  ghost predicate OwnIds(s: State) { forall id :: id in s.jobs ==> s.jobs[id].request.id == id }

  // ---- Calls that are not interrupted ---------------------------------------------------------------

  function Submit(c: Config, s: State, r: Request, now: int): State {
    Settle(c, Apply(c, s, Check(r, now)), |s.calls|, 4)
  }

  /** The call at n is led to its end, or through this many steps. */
  function Settle(c: Config, s: State, n: nat, steps: nat): State
    decreases steps
  {
    if steps == 0 || |s.calls| <= n then s else Settle(c, Step(c, s, n), n, steps - 1)
  }

  function ConfirmAtOnce(c: Config, s: State, id: nat): State {
    if Awaits(s, id) then Apply(c, Apply(c, s, Confirm(id)), SpawnConfirmed(|s.confirming|)) else s
  }

  // ---- The spending bound -----------------------------------------------------------------------

  function CostOfAll(js: seq<Job>): real {
    if js == [] then 0.0 else CostOfAll(js[..|js| - 1]) + js[|js| - 1].cost
  }

  function CostOfCalls(calls: seq<Call>, month: bool): real {
    if calls == [] then 0.0
    else CostOfCalls(calls[..|calls| - 1], month) + Counted(calls[|calls| - 1], month)
  }

  function Counted(call: Call, month: bool): real { if Counts(call.stage, month) then call.job.cost else 0.0 }

  /** What the jobs under way will be charged if all succeed: for the month, those whose call
      has read it. */
  function Load(s: State, month: bool): real { CostOfCalls(s.calls, month) + CostOfAll(s.flights) }

  /** What the jobs under way beside the one that read last may add. */
  function Slack(c: Config, s: State): real { Others(s.peak, c.limits.maxPerRequest) + s.extra }

  /** The most that all but one of n jobs can cost. */
  function Others(n: nat, maxPerRequest: real): real {
    if n == 0 then 0.0 else (n - 1) as real * maxPerRequest
  }

  ghost predicate Priced(js: seq<Job>, m: real) { forall j :: j in js ==> 0.0 <= j.cost <= m }

  ghost predicate PricedCalls(calls: seq<Call>, m: real) { forall call :: call in calls ==> 0.0 <= call.job.cost <= m }

  ghost predicate Costs(c: Config, s: State) {
    && s.extra >= 0.0 && CountOfCalls(s.calls) + |s.flights| <= s.peak
    && PricedCalls(s.calls, c.limits.maxPerRequest) && Priced(s.flights, c.limits.maxPerRequest)
    && (forall id :: id in s.jobs ==> 0.0 <= s.jobs[id].cost <= c.limits.maxPerRequest)
  }

  ghost predicate Dated(s: State) {
    && Valid(s.today)
    && (forall r :: r in s.history ==> Valid(r.date) && r.amount >= 0.0 && DayNo(r.date) <= DayNo(s.today))
  }

  /** No day and no month is charged beyond its limit plus the slack, now or when the
      jobs under way complete. */
  ghost predicate Bounded(c: Config, s: State) {
    && DaySpend(s) + Load(s, false) <= c.limits.maxDaily + Slack(c, s)
    && MonthSpend(s) + Load(s, true) <= c.limits.maxMonthly + Slack(c, s)
    && (forall d: int :: Total(OnDay(s.history, d)) <= c.limits.maxDaily + Slack(c, s))
    && (forall m: int :: Total(InMonth(s.history, m)) <= c.limits.maxMonthly + Slack(c, s))
  }

  ghost predicate Inv(c: Config, s: State) { Costs(c, s) && Dated(s) && Bounded(c, s) }

  lemma CostIsNonnegative(r: Request)
    requires r.start <= r.end
    ensures r.Cost() >= 0.0
  {
    var h, n := r.Hours() as real, |r.symbols| as real;
    assert h * n >= 0.0;
  }

  lemma {:induction false} CostBound(js: seq<Job>, m: real)
    requires Priced(js, m)
    ensures 0.0 <= CostOfAll(js) <= Most(|js|, m)
  {
    MostStep(0, m);
    if js != [] {
      var n := |js| - 1;
      assert js == js[..n] + [js[n]] && js[n] in js;
      CostBound(js[..n], m);
      MostStep(n, m);
      hide Most;
    }
  }

  lemma {:induction false} CostRemove(js: seq<Job>, i: nat)
    requires i < |js|
    ensures CostOfAll(js) == CostOfAll(RemoveAt(js, i)) + js[i].cost
  {
    var n := |js| - 1;
    if i == n {
      assert RemoveAt(js, i) == js[..n];
    } else {
      CostRemove(js[..n], i);
      assert RemoveAt(js, i)[..n - 1] == RemoveAt(js[..n], i);
    }
  }

  lemma CostAppend(js: seq<Job>, job: Job)
    ensures CostOfAll(js + [job]) == CostOfAll(js) + job.cost
  {
    assert (js + [job])[..|js|] == js;
  }

  lemma {:induction false} CallRemove(calls: seq<Call>, i: nat)
    requires i < |calls|
    ensures forall month :: CostOfCalls(calls, month) == CostOfCalls(RemoveAt(calls, i), month) + Counted(calls[i], month)
    ensures CountOfCalls(calls) == CountOfCalls(RemoveAt(calls, i)) + if Counts(calls[i].stage, false) then 1 else 0
  {
    var n := |calls| - 1;
    if i == n {
      assert RemoveAt(calls, i) == calls[..n];
    } else {
      CallRemove(calls[..n], i);
      assert RemoveAt(calls, i)[..n - 1] == RemoveAt(calls[..n], i);
    }
  }

  lemma CallReplace(calls: seq<Call>, i: nat, call: Call)
    requires i < |calls|
    ensures forall month ::
      CostOfCalls(calls[i := call], month) == CostOfCalls(calls, month) - Counted(calls[i], month) + Counted(call, month)
    ensures CountOfCalls(calls[i := call]) + (if Counts(calls[i].stage, false) then 1 else 0)
         == CountOfCalls(calls) + (if Counts(call.stage, false) then 1 else 0)
  {
    CallRemove(calls, i);
    CallRemove(calls[i := call], i);
    assert RemoveAt(calls[i := call], i) == RemoveAt(calls, i);
  }

  lemma CallAppend(calls: seq<Call>, call: Call)
    ensures forall month :: CostOfCalls(calls + [call], month) == CostOfCalls(calls, month) + Counted(call, month)
    ensures CountOfCalls(calls + [call]) == CountOfCalls(calls) + if Counts(call.stage, false) then 1 else 0
  {
    assert (calls + [call])[..|calls|] == calls;
  }

  lemma {:induction false} CallBound(calls: seq<Call>, m: real)
    requires PricedCalls(calls, m) && m >= 0.0
    ensures 0.0 <= CostOfCalls(calls, true) <= CostOfCalls(calls, false) <= Most(CountOfCalls(calls), m)
  {
    MostStep(0, m);
    if calls != [] {
      var n := |calls| - 1;
      assert calls == calls[..n] + [calls[n]] && calls[n] in calls;
      CallBound(calls[..n], m);
      MostStep(CountOfCalls(calls[..n]), m);
      hide Most;
    }
  }

  /** The most that n jobs can cost. */
  function Most(n: nat, m: real): real { n as real * m }

  lemma MostStep(n: nat, m: real)
    ensures Most(n + 1, m) == Most(n, m) + m && Most(0, m) == 0.0
  {
    assert (n + 1) as real * m == n as real * m + m;
  }

  lemma MostSum(a: nat, b: nat, m: real)
    ensures Most(a + b, m) == Most(a, m) + Most(b, m)
  {
    assert (a + b) as real * m == a as real * m + b as real * m;
  }

  lemma LoadBound(calls: seq<Call>, flights: seq<Job>, m: real)
    requires PricedCalls(calls, m) && Priced(flights, m) && m >= 0.0
    ensures 0.0 <= CostOfCalls(calls, true) + CostOfAll(flights) <= CostOfCalls(calls, false) + CostOfAll(flights)
    ensures CostOfCalls(calls, false) + CostOfAll(flights) <= Most(CountOfCalls(calls) + |flights|, m)
  {
    CallBound(calls, m);
    CostBound(flights, m);
    MostSum(CountOfCalls(calls), |flights|, m);
    hide CostOfAll, CostOfCalls, CountOfCalls, Most;
  }

  lemma Product(a: nat, b: nat, m: real)
    requires a <= b && m >= 0.0
    ensures a as real * m <= b as real * m
  {
    assert (b - a) as real * m >= 0.0;
  }

  lemma OthersGrow(a: nat, b: nat, m: real)
    requires a <= b && m >= 0.0
    ensures Others(a, m) <= Others(b, m)
    ensures a < b ==> Most(a, m) <= Others(b, m)
  {
    if a == 0 {
      Nonnegative(b, m);
      assert a as real * m == 0.0;
    } else {
      Product(a - 1, b - 1, m);
    }
    if a < b {
      Product(a, b - 1, m);
    }
  }

  lemma Nonnegative(b: nat, m: real)
    requires m >= 0.0
    ensures Others(b, m) >= 0.0
  {}

  /** A step that charges nothing keeps the bounds while each load grows by no more than the
      slack, or stays within what the reads left. */
  lemma UnchargedStep(c: Config, s: State, s': State)
    requires Bounded(c, s) && s'.history == s.history && s'.today == s.today && Slack(c, s) <= Slack(c, s')
    requires Load(s', false) - Load(s, false) <= Slack(c, s') - Slack(c, s)
          || DaySpend(s) + Load(s', false) <= c.limits.maxDaily + Slack(c, s')
    requires Load(s', true) - Load(s, true) <= Slack(c, s') - Slack(c, s)
          || MonthSpend(s) + Load(s', true) <= c.limits.maxMonthly + Slack(c, s')
    ensures Bounded(c, s')
  {
    hide Total, OnDay, InMonth, Load, Slack, DayNo, MonthNo;
    forall d: int ensures Total(OnDay(s'.history, d)) <= c.limits.maxDaily + Slack(c, s') {
      assert Total(OnDay(s.history, d)) <= c.limits.maxDaily + Slack(c, s);
    }
    forall n: int ensures Total(InMonth(s'.history, n)) <= c.limits.maxMonthly + Slack(c, s') {
      assert Total(InMonth(s.history, n)) <= c.limits.maxMonthly + Slack(c, s);
    }
  }

  /** The step that reads the day: what is charged plus everything under way. */
  lemma CheckKeepsBounded(c: Config, s: State, r: Request, now: int)
    requires c.Validated() && Inv(c, s) && r.start <= r.end
    ensures Bounded(c, Apply(c, s, Check(r, now)))
  {
    var s' := Apply(c, s, Check(r, now));
    hide Total, OnDay, InMonth, CostOfAll, CostOfCalls, CountOfCalls, Others, Valid, DayNo, MonthNo, CostOf, EntryError, Known;
    if s' != s {
      var m, call := c.limits.maxPerRequest, Call(Job(r, Pending, r.Cost()), DayRead);
      assert s'.calls == s.calls + [call] && s'.flights == s.flights;
      CallAppend(s.calls, call);
      LoadBound(s.calls, s.flights, m);
      OthersGrow(s.peak, s'.peak, m);
      OthersGrow(CountOfCalls(s.calls) + |s.flights|, s'.peak, m);
      UnchargedStep(c, s, s');
    }
  }

  /** A call that ends, or is set aside to be stored, takes its load with it. */
  lemma DroppedKeepsBounded(c: Config, s: State, i: nat, s': State)
    requires Bounded(c, s) && i < |s.calls| && s.calls[i].job.cost >= 0.0
    requires s'.history == s.history && s'.today == s.today && Slack(c, s') == Slack(c, s) && s'.flights == s.flights
    requires s'.calls == RemoveAt(s.calls, i) || s'.calls == s.calls[i := Call(s.calls[i].job, ToHold)]
    ensures Bounded(c, s')
  {
    CallRemove(s.calls, i);
    CallReplace(s.calls, i, Call(s.calls[i].job, ToHold));
    hide Total, OnDay, InMonth, CostOfAll, CostOfCalls, Slack, DayNo, MonthNo, RemoveAt;
    UnchargedStep(c, s, s');
  }

  /** A call that reads the month: no load of it is counted for the month before. */
  lemma ReadKeepsBounded(c: Config, s: State, i: nat, stage: Stage)
    requires c.Validated() && Inv(c, s) && i < |s.calls| && stage in {MonthRead, AutoDayRead, Cleared}
    requires s.calls[i].stage == DayRead ==> MonthSpend(s) + s.calls[i].job.cost <= c.limits.maxMonthly
    requires s.calls[i].stage != ToHold
    ensures Bounded(c, s.(calls := s.calls[i := Call(s.calls[i].job, stage)]))
  {
    var call, m := s.calls[i], c.limits.maxPerRequest;
    var s' := s.(calls := s.calls[i := Call(call.job, stage)]);
    var rest := RemoveAt(s.calls, i);
    CallRemove(s.calls, i);
    CallReplace(s.calls, i, Call(call.job, stage));
    CallsPricedRemove(s.calls, i, m);
    LoadBound(rest, s.flights, m);
    SlackSame(c, s, s');
    if call.stage == DayRead {
      OthersGrow(CountOfCalls(rest) + |s.flights|, s.peak, m);
    }
    hide Total, OnDay, InMonth, CostOfAll, CostOfCalls, CountOfCalls, Others, Most, Valid, DayNo, MonthNo, RemoveAt;
    UnchargedStep(c, s, s');
  }

  lemma SpawnKeepsBounded(c: Config, s: State, i: nat)
    requires c.Validated() && Inv(c, s) && i < |s.calls| && s.calls[i].stage == Cleared
    ensures Bounded(c, Step(c, s, i))
  {
    var s', job := Step(c, s, i), s.calls[i].job;
    hide Total, OnDay, InMonth, CostOfAll, CostOfCalls, CountOfCalls, Others, Valid, DayNo, MonthNo;
    CallRemove(s.calls, i);
    CostAppend(s.flights, job);
    OthersGrow(s.peak, s'.peak, c.limits.maxPerRequest);
    assert s'.calls == RemoveAt(s.calls, i) && s'.flights == s.flights + [job];
    UnchargedStep(c, s, s');
  }

  lemma ProceedKeepsBounded(c: Config, s: State, i: nat)
    requires c.Validated() && Inv(c, s) && i < |s.calls|
    ensures Bounded(c, Step(c, s, i))
  {
    var s', call := Step(c, s, i), s.calls[i];
    assert call in s.calls && call.job.cost >= 0.0;
    if call.stage == Cleared {
      SpawnKeepsBounded(c, s, i);
    } else {
      SlackSame(c, s, s');
      hide Bounded, Slack, DaySpend, MonthSpend;
      if call.stage == ToHold || NextStage(c, s, call) in {None, Some(ToHold)} {
        DroppedKeepsBounded(c, s, i, s');
      } else {
        ReadKeepsBounded(c, s, i, NextStage(c, s, call).value);
      }
    }
  }

  lemma ConfirmedKeepsBounded(c: Config, s: State, i: nat)
    requires c.Validated() && Inv(c, s) && i < |s.confirming| && s.confirming[i].request.id in s.jobs
    ensures Bounded(c, Apply(c, s, SpawnConfirmed(i)))
  {
    hide Total, OnDay, InMonth, CostOfAll, CostOfCalls, CountOfCalls, Others, Valid, DayNo, MonthNo;
    var s', job := Apply(c, s, SpawnConfirmed(i)), s.jobs[s.confirming[i].request.id].(status := Pending);
    CostAppend(s.flights, job);
    OthersGrow(s.peak, s'.peak, c.limits.maxPerRequest);
    assert s'.calls == s.calls && s'.flights == s.flights + [job];
    UnchargedStep(c, s, s');
  }

  lemma FinishKeepsBounded(c: Config, s: State, i: nat, success: bool)
    requires Inv(c, s) && i < |s.flights|
    ensures Bounded(c, Apply(c, s, Finish(i, success)))
  {
    hide Total, OnDay, InMonth, CostOfAll, CostOfCalls, CountOfCalls, DayNo, MonthNo, Valid, Slack, Priced, PricedCalls;
    var f, m := s.flights[i], c.limits.maxPerRequest;
    var s' := Apply(c, s, Finish(i, success));
    CostRemove(s.flights, i);
    assert f in s.flights && s'.flights == RemoveAt(s.flights, i);
    assert 0.0 <= f.cost <= m by { PricedHas(s.flights, f, m); }
    PricedRemove(s.flights, i, m);
    LoadBound(s'.calls, s'.flights, m);
    assert Slack(c, s') == Slack(c, s) by { SlackSame(c, s, s'); }
    if success {
      ChargeTotals(s, f);
      forall d: int ensures Total(OnDay(s'.history, d)) <= c.limits.maxDaily + Slack(c, s') {
        assert Total(OnDay(s.history, d)) <= c.limits.maxDaily + Slack(c, s);
      }
      forall m: int ensures Total(InMonth(s'.history, m)) <= c.limits.maxMonthly + Slack(c, s') {
        assert Total(InMonth(s.history, m)) <= c.limits.maxMonthly + Slack(c, s);
      }
    }
  }

  lemma PricedHas(js: seq<Job>, job: Job, m: real)
    requires Priced(js, m) && job in js
    ensures 0.0 <= job.cost <= m
  {}

  lemma PricedRemove(js: seq<Job>, i: nat, m: real)
    requires i < |js| && Priced(js, m)
    ensures Priced(RemoveAt(js, i), m)
  {
    forall j | j in RemoveAt(js, i) ensures j in js {}
  }

  lemma CallsPricedRemove(calls: seq<Call>, i: nat, m: real)
    requires i < |calls| && PricedCalls(calls, m)
    ensures PricedCalls(RemoveAt(calls, i), m)
  {
    forall call | call in RemoveAt(calls, i) ensures call in calls {}
  }

  lemma SlackSame(c: Config, s: State, s': State)
    requires s.peak == s'.peak && s.extra == s'.extra
    ensures Slack(c, s) == Slack(c, s')
  {}

  lemma ChargeTotals(s: State, f: Job)
    ensures var h := s.history + [Charge(s, f)];
      && (forall d: int :: Total(OnDay(h, d)) == Total(OnDay(s.history, d)) + if d == DayNo(s.today) then f.cost else 0.0)
      && (forall m: int :: Total(InMonth(h, m)) == Total(InMonth(s.history, m)) + if m == MonthNo(s.today) then f.cost else 0.0)
  {
    hide OfKey, DayNo, MonthNo, Total;
    var r := Charge(s, f);
    forall d: int ensures Total(OnDay(s.history + [r], d)) == Total(OnDay(s.history, d)) + if d == DayNo(s.today) then f.cost else 0.0 {
      OfKeyAppend(s.history, r, BY_DAY, d);
      TotalAppend(OnDay(s.history, d), r);
      assert OnDay(s.history, d) + [] == OnDay(s.history, d);
    }
    forall m: int ensures Total(InMonth(s.history + [r], m)) == Total(InMonth(s.history, m)) + if m == MonthNo(s.today) then f.cost else 0.0 {
      InMonthAppend(s.history, r, m);
    }
  }

  lemma FutureIsEmpty(s: State, k: int, key: SpendRecord -> int)
    requires forall r :: r in s.history ==> key(r) < k
    ensures OfKey(s.history, key, k) == []
  {
    if OfKey(s.history, key, k) != [] {
      OfKeyMember(s.history, key, k, OfKey(s.history, key, k)[0]);
    }
  }

  /** On a new day nothing is charged yet. */
  lemma RolloverSpend(s: State, date: Date, key: SpendRecord -> int, today: int, k: int)
    requires Dated(s) && (forall r :: r in s.history ==> key(r) <= today) && today <= k
    ensures 0.0 <= Total(OfKey(s.history, key, k)) <= Total(OfKey(s.history, key, today))
  {
    NoTotal();
    TotalNonnegative(OfKey(s.history, key, today), s, key, today);
    if today < k {
      FutureIsEmpty(s, k, key);
    }
  }

  /** A new day starts with nothing charged; a new month too. */
  lemma NewDayKeepsBounded(c: Config, s: State, date: Date)
    requires c.Validated() && Inv(c, s) && Permitted(s, NewDay(date))
    ensures Bounded(c, s.(today := date))
  {
    hide Total, OfKey, CostOfAll, CostOfCalls, DayNo, MonthNo, Valid, Slack;
    MonthsSplitDays(s.today, date);
    forall r | r in s.history ensures MonthNo(r.date) <= MonthNo(s.today) {
      MonthsSplitDays(r.date, s.today);
    }
    SlackSame(c, s, s.(today := date));
    RolloverSpend(s, date, BY_DAY, DayNo(s.today), DayNo(date));
    RolloverSpend(s, date, BY_MONTH, MonthNo(s.today), MonthNo(date));
  }

  lemma TotalNonnegative(rs: seq<SpendRecord>, s: State, key: SpendRecord -> int, k: int)
    requires Dated(s) && rs == OfKey(s.history, key, k)
    ensures Total(rs) >= 0.0
  {
    forall r | r in rs ensures r.amount >= 0.0 { OfKeyMember(s.history, key, k, r); }
    SumNonnegative(rs);
  }

  lemma {:induction false} SumNonnegative(rs: seq<SpendRecord>)
    requires forall r :: r in rs ==> r.amount >= 0.0
    ensures Total(rs) >= 0.0
  {
    if rs != [] {
      SumNonnegative(rs[..|rs| - 1]);
      assert rs[|rs| - 1] in rs;
    }
  }

  lemma PricedAppend(js: seq<Job>, job: Job, m: real)
    requires Priced(js, m) && 0.0 <= job.cost <= m
    ensures Priced(js + [job], m)
  {}

  lemma CheckKeepsCosts(c: Config, s: State, r: Request, now: int)
    requires Costs(c, s) && Dated(s) && r.start <= r.end
    ensures Costs(c, Apply(c, s, Check(r, now))) && Dated(Apply(c, s, Check(r, now)))
  {
    hide DaySpend, MonthSpend, DayNo, MonthNo, Valid, CostOf, Known, EntryError, CountOfCalls, PricedCalls;
    CostIsNonnegative(r);
    if r.Cost() <= c.limits.maxPerRequest {
      PricedCallsAppend(s.calls, Call(Job(r, Pending, r.Cost()), DayRead), c.limits.maxPerRequest);
    }
  }

  lemma PricedCallsAppend(calls: seq<Call>, call: Call, m: real)
    requires PricedCalls(calls, m) && 0.0 <= call.job.cost <= m
    ensures PricedCalls(calls + [call], m)
  {}

  lemma PricedCallsReplace(calls: seq<Call>, i: nat, stage: Stage, m: real)
    requires PricedCalls(calls, m) && i < |calls|
    ensures PricedCalls(calls[i := Call(calls[i].job, stage)], m)
  {
    assert calls[i] in calls;
  }

  lemma SpawnKeepsCosts(c: Config, s: State, i: nat)
    requires Costs(c, s) && i < |s.calls| && s.calls[i].stage == Cleared
    ensures Costs(c, Step(c, s, i))
  {
    hide CountOfCalls, PricedCalls, Priced, RemoveAt;
    var call, m := s.calls[i], c.limits.maxPerRequest;
    CallHasPrice(s.calls, i, m);
    CallsPricedRemove(s.calls, i, m);
    PricedAppend(s.flights, call.job, m);
  }

  lemma CallHasPrice(calls: seq<Call>, i: nat, m: real)
    requires PricedCalls(calls, m) && i < |calls|
    ensures 0.0 <= calls[i].job.cost <= m
  {
    assert calls[i] in calls;
  }

  lemma DropKeepsCosts(c: Config, s: State, i: nat)
    requires Costs(c, s) && i < |s.calls|
    ensures Costs(c, s.(calls := RemoveAt(s.calls, i)))
    ensures var job := s.calls[i].job.(status := AwaitingConfirmation);
      Costs(c, s.(calls := RemoveAt(s.calls, i), jobs := s.jobs[job.request.id := job]))
  {
    var m := c.limits.maxPerRequest;
    CallHasPrice(s.calls, i, m);
    CallsPricedRemove(s.calls, i, m);
    CallRemove(s.calls, i);
    hide CountOfCalls, CostOfCalls, PricedCalls, Priced, RemoveAt;
  }

  lemma ReadKeepsCosts(c: Config, s: State, i: nat, stage: Stage)
    requires Costs(c, s) && i < |s.calls| && (Counts(stage, false) ==> Counts(s.calls[i].stage, false))
    ensures Costs(c, s.(calls := s.calls[i := Call(s.calls[i].job, stage)]))
  {
    var m := c.limits.maxPerRequest;
    PricedCallsReplace(s.calls, i, stage, m);
    CallReplace(s.calls, i, Call(s.calls[i].job, stage));
    hide CountOfCalls, CostOfCalls, PricedCalls, Priced;
  }

  lemma ProceedKeepsCosts(c: Config, s: State, i: nat)
    requires Costs(c, s) && Dated(s) && i < |s.calls|
    ensures Costs(c, Step(c, s, i)) && Dated(Step(c, s, i))
  {
    hide DayNo, Valid, Costs, DaySpend, MonthSpend, RemoveAt;
    NeverUncounted(c, s, s.calls[i]);
    if s.calls[i].stage == Cleared { SpawnKeepsCosts(c, s, i); }
    DropKeepsCosts(c, s, i);
    if NextStage(c, s, s.calls[i]).Some? && s.calls[i].stage !in {Cleared, ToHold} {
      ReadKeepsCosts(c, s, i, NextStage(c, s, s.calls[i]).value);
    }
    hide NextStage;
  }

  lemma NeverUncounted(c: Config, s: State, call: Call)
    ensures var next := NextStage(c, s, call);
      next.Some? && Counts(next.value, false) ==> Counts(call.stage, false)
  {}

  lemma ConfirmedKeepsCosts(c: Config, s: State, i: nat)
    requires Costs(c, s) && Dated(s)
    ensures Costs(c, Apply(c, s, SpawnConfirmed(i))) && Dated(Apply(c, s, SpawnConfirmed(i)))
  {
    hide DayNo, Valid, Priced, CountOfCalls;
    if i < |s.confirming| && s.confirming[i].request.id in s.jobs {
      PricedAppend(s.flights, s.jobs[s.confirming[i].request.id].(status := Pending), c.limits.maxPerRequest);
    }
  }

  lemma FinishKeepsCosts(c: Config, s: State, i: nat, success: bool)
    requires Costs(c, s) && Dated(s)
    ensures Costs(c, Apply(c, s, Finish(i, success))) && Dated(Apply(c, s, Finish(i, success)))
  {
    hide DayNo, Valid;
    if i < |s.flights| {
      PricedHas(s.flights, s.flights[i], c.limits.maxPerRequest);
      PricedRemove(s.flights, i, c.limits.maxPerRequest);
      hide Priced;
    }
  }

  lemma QuietKeepsCosts(c: Config, s: State, op: Op)
    requires Costs(c, s) && Dated(s) && Permitted(s, op) && (op.Confirm? || op.Cancel? || op.NewDay?)
    ensures Costs(c, Apply(c, s, op)) && Dated(Apply(c, s, op))
  {
    hide DayNo, Valid, HasId, CountOfCalls;
  }

  lemma StepKeepsCosts(c: Config, s: State, op: Op)
    requires Costs(c, s) && Dated(s) && Permitted(s, op) && Forward(op)
    ensures Costs(c, Apply(c, s, op)) && Dated(Apply(c, s, op))
  {
    hide Apply, Costs, Dated;
    match op {
      case Check(r, now) => CheckKeepsCosts(c, s, r, now);
      case Proceed(i) => if i < |s.calls| { ProceedKeepsCosts(c, s, i); ProceedIsStep(c, s, i); } else { ProceedPastEnd(c, s, i); }
      case SpawnConfirmed(i) => ConfirmedKeepsCosts(c, s, i);
      case Finish(i, success) => FinishKeepsCosts(c, s, i, success);
      case _ => QuietKeepsCosts(c, s, op);
    }
  }

  lemma ProceedIsStep(c: Config, s: State, i: nat)
    requires i < |s.calls|
    ensures Apply(c, s, Proceed(i)) == Step(c, s, i)
  {}

  lemma ProceedPastEnd(c: Config, s: State, i: nat)
    requires i >= |s.calls|
    ensures Apply(c, s, Proceed(i)) == s
  {}

  lemma StepKeepsBounded(c: Config, s: State, op: Op)
    requires c.Validated() && Inv(c, s) && Permitted(s, op) && Forward(op)
    ensures Bounded(c, Apply(c, s, op))
  {
    hide Total, OnDay, InMonth, Load, DayNo, MonthNo, Valid, Slack, EntryError, Known, HasId, Step;
    match op {
      case Check(r, now) => CheckKeepsBounded(c, s, r, now);
      case Proceed(i) => if i < |s.calls| { ProceedKeepsBounded(c, s, i); }
      case SpawnConfirmed(i) =>
        if i < |s.confirming| && s.confirming[i].request.id in s.jobs { ConfirmedKeepsBounded(c, s, i); }
      case Finish(i, success) =>
        if i < |s.flights| { FinishKeepsBounded(c, s, i, success); }
      case NewDay(date) => NewDayKeepsBounded(c, s, date);
      case _ => QuietKeepsBounded(c, s, op);
    }
  }

  /** Beginning to confirm and cancelling leave the spending alone. */
  lemma QuietKeepsBounded(c: Config, s: State, op: Op)
    requires Bounded(c, s) && (op.Confirm? || op.Cancel?)
    ensures Bounded(c, Apply(c, s, op))
  {
    hide Total, OnDay, InMonth, DayNo, MonthNo, CostOfAll, CostOfCalls, HasId, Others;
    UnchargedStep(c, s, Apply(c, s, op));
  }

  lemma {:induction false} RunInvariant(c: Config, run: seq<State>, ops: seq<Op>, i: nat)
    requires c.Validated() && IsRun(c, run, ops) && i < |run| && forall op :: op in ops ==> Forward(op)
    ensures Inv(c, run[i])
  {
    hide Apply, Permitted, Forward;
    if i == 0 {
      hide OnDay, InMonth;
      EmptyHistory();
    } else {
      RunInvariant(c, run, ops, i - 1);
      assert ops[i - 1] in ops;
      hide Costs, Dated, Bounded;
      StepKeepsCosts(c, run[i - 1], ops[i - 1]);
      StepKeepsBounded(c, run[i - 1], ops[i - 1]);
    }
  }

  lemma EmptyHistory()
    ensures forall d: int :: Total(OnDay([], d)) == 0.0
    ensures forall m: int :: Total(InMonth([], m)) == 0.0
  {}

  /** In every run, across day and month rollovers and with callers interleaved: with at most
      k jobs ever past their first read of the spend and not finished, no day exceeds its limit
      by more than k - 1 requests plus what was confirmed by hand; nor does any month. */
  lemma SpendIsBounded(c: Config, run: seq<State>, ops: seq<Op>, i: nat, k: nat, date: Date)
    requires c.Validated() && IsRun(c, run, ops) && i < |run| && 1 <= k && run[i].peak <= k
    requires forall op :: op in ops ==> Forward(op)
    ensures Total(OnDay(run[i].history, DayNo(date)))
         <= c.limits.maxDaily + (k - 1) as real * c.limits.maxPerRequest + run[i].extra
    ensures Total(InMonth(run[i].history, MonthNo(date)))
         <= c.limits.maxMonthly + (k - 1) as real * c.limits.maxPerRequest + run[i].extra
  {
    hide Total, OnDay, InMonth, DayNo, MonthNo, Costs, Dated, IsRun, Load, Forward;
    RunInvariant(c, run, ops, i);
    OthersGrow(run[i].peak, k, c.limits.maxPerRequest);
  }

  lemma {:induction false} NoConfirmNoExtra(c: Config, run: seq<State>, ops: seq<Op>, i: nat)
    requires IsRun(c, run, ops) && i < |run|
    requires forall op :: op in ops ==> !op.Confirm?
    ensures run[i].extra == 0.0 && run[i].confirming == []
  {
    hide Apply, Permitted;
    if i > 0 {
      NoConfirmNoExtra(c, run, ops, i - 1);
      assert ops[i - 1] in ops;
      ExtraStays(c, run[i - 1], ops[i - 1]);
    }
  }

  lemma ExtraStays(c: Config, s: State, op: Op)
    requires s.confirming == [] && !op.Confirm?
    ensures Apply(c, s, op).extra == s.extra && Apply(c, s, op).confirming == []
  {
    hide EntryError, Known, NextStage, CountOfCalls, DaySpend, MonthSpend, RemoveAt;
  }

  /** One job at a time, from its first read to its end, and no confirmations: the limits hold. */
  lemma OneAtATimeKeepsTheLimits(c: Config, run: seq<State>, ops: seq<Op>, i: nat, date: Date)
    requires c.Validated() && IsRun(c, run, ops) && i < |run| && run[i].peak <= 1
    requires forall op :: op in ops ==> !op.Confirm? && Forward(op)
    ensures Total(OnDay(run[i].history, DayNo(date))) <= c.limits.maxDaily
    ensures Total(InMonth(run[i].history, MonthNo(date))) <= c.limits.maxMonthly
  {
    SpendIsBounded(c, run, ops, i, 1, date);
    NoConfirmNoExtra(c, run, ops, i);
  }

  // ---- Building runs -----------------------------------------------------------------------------------

  lemma Begin(c: Config, today: Date) returns (run: seq<State>, ops: seq<Op>)
    requires Valid(today)
    ensures IsRun(c, run, ops) && ops == [] && run[0] == Start(today)
  {
    run, ops := [Start(today)], [];
  }

  lemma Extend(c: Config, run: seq<State>, ops: seq<Op>, op: Op) returns (run': seq<State>, ops': seq<Op>)
    requires IsRun(c, run, ops) && Permitted(run[|ops|], op)
    ensures IsRun(c, run', ops') && ops' == ops + [op] && run'[|ops'|] == Apply(c, run[|ops|], op) && run <= run'
  {
    hide Apply, Permitted;
    run', ops' := run + [Apply(c, run[|ops|], op)], ops + [op];
  }
}
