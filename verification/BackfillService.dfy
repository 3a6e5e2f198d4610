/** The backfill executor object. Its maps, its tracker and the tasks it has spawned are
    kept in step with the state machine of module Backfill. */
module BackfillService {
  import opened Options
  import opened Sorting
  import opened Dates
  import opened Spending
  import opened Backfill

  // ---- What the checks say ------------------------------------------------------------------------

  /** The request spans h whole hours, forward or back. */
  predicate WholeHours(r: Request, h: int) {
    var seconds := if r.start <= r.end then r.end - r.start else r.start - r.end;
    3600 * h <= seconds < 3600 * (h + 1)
  }

  /** A hundredth for each symbol and each whole hour, negative when the request ends before it
      starts. */
  lemma CostMeans(r: Request, h: int)
    requires WholeHours(r, h)
    ensures r.start <= r.end ==> 100.0 * r.Cost() == (h * |r.symbols|) as real
    ensures r.start > r.end ==> 100.0 * r.Cost() == -((h * |r.symbols|) as real)
  {
    Cents(r.Hours(), |r.symbols|);
    if r.start <= r.end {
      assert r.Hours() == h;
    } else {
      assert r.Hours() == -h;
      Opposite(h, |r.symbols|);
    }
    hide CostOf;
  }

  lemma Opposite(h: int, n: int)
    ensures (-h * n) as real == -((h * n) as real)
  {
    assert -h * n == -(h * n);
  }

  lemma Cents(hours: int, symbols: nat)
    ensures 100.0 * CostOf(hours, symbols) == (hours * symbols) as real
  {
    assert hours as real * symbols as real == (hours * symbols) as real;
  }

  /** Which source passes in which mode. */
  predicate SourcePasses(c: Config, source: Source) {
    && c.enabled
    && (source == OnDemand ==> c.mode == OnDemandMode && c.onDemandEnabled)
    && (source == Scheduled ==> c.mode in {ScheduledMode, OnDemandMode} && c.scheduledEnabled)
    && (source == Manual ==> c.mode in {OnDemandMode, ScheduledMode, ManualOnly})
  }

  predicate CoolsDown(c: Config, s: State, symbol: string, now: int) {
    symbol in s.cooldowns && now - s.cooldowns[symbol] < c.cooldownSecs
  }

  /** The cost is above the limit for one request, or would take the day or the month above its. */
  predicate TooCostly(c: Config, s: State, cost: real) {
    || cost > c.limits.maxPerRequest
    || DaySpend(s) + cost > c.limits.maxDaily || MonthSpend(s) + cost > c.limits.maxMonthly
  }

  /** Exactly when each check refuses, and when none does. */
  ghost predicate Explains(c: Config, s: State, r: Request, now: int, refused: Option<Error>) {
    var on, passes := c.enabled && c.mode != Disabled, SourcePasses(c, r.source);
    var cooling := r.source == OnDemand && exists i :: 0 <= i < |r.symbols| && CoolsDown(c, s, r.symbols[i], now);
    var free := r.skipConfirmation || (c.limits.autoApproveEnabled && r.Cost() <= c.limits.autoApproveThreshold);
    && (refused == Some(DisabledError) <==> !on)
    && (refused == Some(SourceNotAllowed) <==> on && !passes)
    && (refused == Some(Duplicate) <==> on && passes && cooling)
    && (refused == Some(CostLimitExceeded) <==> on && passes && !cooling && TooCostly(c, s, r.Cost()))
    && (refused == Some(RequiresConfirmation) <==> on && passes && !cooling && !TooCostly(c, s, r.Cost()) && !free)
    && (refused == None <==> on && passes && !cooling && !TooCostly(c, s, r.Cost()) && free)
  }

  lemma RefusalMeans(c: Config, s: State, r: Request, now: int)
    ensures Explains(c, s, r, now, Refusal(c, s, r, now))
  {
    hide CostOf, DaySpend, MonthSpend;
    assert forall i :: 0 <= i < |r.symbols| ==>
      (CoolsDown(c, s, r.symbols[i], now) <==> InCooldown(c, s, r.symbols[i], now));
    hide CoolsDown, InCooldown;
  }

  /** So a request for too many symbols or hours is refused whatever has been spent. */
  lemma CostlyIsRefused(c: Config, s: State, r: Request, now: int, h: int)
    requires EntryError(c, s, r, now) == None && r.start <= r.end && WholeHours(r, h)
    requires (h * |r.symbols|) as real > 100.0 * c.limits.maxPerRequest
    ensures Refusal(c, s, r, now) == Some(CostLimitExceeded)
  {
    hide CostOf, EntryError, DaySpend, MonthSpend;
    CostMeans(r, h);
  }

  class BackfillExecutor {
    const config: Config
    const tracker: SpendTracker
    var jobs: map<nat, Job>
    var cooldowns: map<string, int>
    var flights: seq<Job>        // the spawned tasks still running, each on its copy of the job
    ghost var s: State

    ghost predicate Ok()
      reads this, tracker
    {
      && tracker.Consistent() && tracker.limits == config.limits
      && tracker.l.history == s.history && Valid(s.today)
      && tracker.l.cutDay <= DayNo(s.today) && tracker.l.cutMonth <= MonthNo(s.today)
      && jobs == s.jobs && cooldowns == s.cooldowns && flights == s.flights
      && OwnIds(s) && s.confirming == []
    }

    constructor (config: Config, today: Date)
      requires Valid(today)
      ensures Ok() && fresh(tracker) && s == Start(today) && this.config == config
    {
      this.config := config;
      tracker := new SpendTracker(config.limits);
      jobs, cooldowns, flights := map[], map[], [];
      s := Start(today);
      new;
    }

    /** The clock has moved on. */
    ghost method Advance(today: Date)
      requires Ok() && Permitted(s, NewDay(today))
      modifies this`s
      ensures Ok() && s == Apply(config, old(s), NewDay(today))
    {
      hide DayNo, MonthNo, Valid, Agree, DaysHold, MonthsHold;
      MonthsSplitDays(s.today, today);
      s := Apply(config, s, NewDay(today));
    }

    /** Does the cost exceed a limit, and may it run without confirmation? */
    method Estimate(cost: real, today: Date) returns (exceeds: bool, auto: bool)
      requires Ok() && today == s.today
      ensures exceeds <==> !Fits(config, s, cost)
      ensures auto <==> AutoApproved(config, s, cost)
    {
      var e := tracker.WouldExceedLimits(cost, today);
      auto := tracker.CanAutoApprove(cost, today);
      exceeds := e.Some?;
      SameSpend(tracker, s);
    }

    method AnyInCooldown(symbols: seq<string>, now: int) returns (found: bool)
      requires Ok()
      ensures found <==> exists i :: 0 <= i < |symbols| && InCooldown(config, s, symbols[i], now)
    {
      assert cooldowns == s.cooldowns;
      hide Ok;
      for i := 0 to |symbols|
        invariant forall j :: 0 <= j < i ==> !InCooldown(config, s, symbols[j], now)
      {
        if symbols[i] in cooldowns && now < cooldowns[symbols[i]] + config.cooldownSecs {
          assert InCooldown(config, s, symbols[i], now);
          return true;
        }
      }
      return false;
    }

    /** The checks of a request, in their order. */
    method CheckRequest(r: Request, now: int, today: Date) returns (refused: Option<Error>)
      requires Ok() && today == s.today
      ensures refused == Refusal(config, s, r, now) && Explains(config, s, r, now, refused)
    {
      RefusalMeans(config, s, r, now);
      hide DayNo, MonthNo, Valid, CostOf, Fits, AutoApproved, InCooldown, Explains;
      if !config.IsEnabled() {
        return Some(DisabledError);
      }
      if !config.Allows(r.source) {
        return Some(SourceNotAllowed);
      }
      if r.source == OnDemand {
        var cooling := AnyInCooldown(r.symbols, now);
        if cooling {
          return Some(Duplicate);
        }
      }
      var exceeds, auto := Estimate(r.Cost(), today);
      if exceeds {
        return Some(CostLimitExceeded);
      }
      if !r.skipConfirmation && !auto {
        return Some(RequiresConfirmation);
      }
      return None;
    }

    /** Refuse, hold for confirmation, or spawn. */
    method RequestBackfill(r: Request, now: int, today: Date) returns (refused: Option<Error>)
      requires Ok() && Permitted(s, NewDay(today))
      modifies this
      ensures Ok() && s == Submit(config, old(s).(today := today), r, now)
      ensures refused == Refusal(config, old(s).(today := today), r, now)
      ensures Explains(config, old(s).(today := today), r, now, refused)
      ensures flights == old(flights) + if refused == None then [Job(r, Pending, r.Cost())] else []
      ensures jobs == if refused == None then old(jobs)[r.id := Job(r, Pending, r.Cost())]
                      else if refused == Some(RequiresConfirmation) then old(jobs)[r.id := Job(r, AwaitingConfirmation, r.Cost())]
                      else old(jobs)
    {
      hide DayNo, MonthNo, Valid, Agree, DaysHold, MonthsHold, CostOf, Submit, Refusal, Explains;
      Advance(today);
      refused := CheckRequest(r, now, today);
      SubmitAtOnce(config, s, r, now);
      hide Apply;
      s := Submit(config, s, r, now);
      match refused {
        case None =>
          jobs := jobs[r.id := Job(r, Pending, r.Cost())];
          flights := flights + [Job(r, Pending, r.Cost())];
        case Some(RequiresConfirmation) =>
          jobs := jobs[r.id := Job(r, AwaitingConfirmation, r.Cost())];
        case Some(_) =>
      }
    }

    /** Spawn a held job; nothing is checked again. */
    method ConfirmRequest(id: nat) returns (refused: Option<Error>)
      requires Ok()
      modifies this
      ensures Ok() && s == ConfirmAtOnce(config, old(s), id)
      ensures refused == None ==>
        && id in old(jobs) && jobs == old(jobs)[id := old(jobs)[id].(status := Pending)] && flights == old(flights) + [jobs[id]]
      ensures refused != None ==> jobs == old(jobs) && flights == old(flights)
      ensures refused == if id !in old(s).jobs then Some(NotFound)
                         else if old(s).jobs[id].status != AwaitingConfirmation then Some(NotAwaiting) else None
    {
      hide DayNo, MonthNo, Valid, Agree, DaysHold, MonthsHold, Apply;
      ConfirmedAtOnce(config, s, id);
      hide ConfirmAtOnce, OwnIds;
      if id !in jobs {
        return Some(NotFound);
      }
      var job := jobs[id];
      if job.status != AwaitingConfirmation {
        return Some(NotAwaiting);
      }
      jobs := jobs[id := job.(status := Pending)];
      flights := flights + [jobs[id]];
      s := ConfirmAtOnce(config, s, id);
      return None;
    }

    /** Change a status; a job already spawned runs on. */
    method CancelRequest(id: nat) returns (refused: Option<Error>)
      requires Ok()
      modifies this
      ensures Ok() && s == Apply(config, old(s), Op.Cancel(id)) && flights == old(flights)
      ensures refused == None ==> id in old(jobs) && jobs == old(jobs)[id := old(jobs)[id].(status := Cancelled)]
      ensures refused != None ==> jobs == old(jobs)
      ensures refused.None? <==> id in old(s).jobs && old(s).jobs[id].status in {Pending, AwaitingConfirmation}
    {
      hide DayNo, MonthNo, Valid, Agree, DaysHold, MonthsHold;
      if id !in jobs {
        return Some(NotFound);
      }
      if jobs[id].status !in {Pending, AwaitingConfirmation} {
        return Some(CannotCancel);
      }
      jobs := jobs[id := jobs[id].(status := Cancelled)];
      s := Apply(config, s, Op.Cancel(id));
      return None;
    }

    /** A spawned task ends; only success is charged, at the estimate of its request. */
    method ExecuteJob(i: nat, success: bool, today: Date)
      requires Ok() && Permitted(s, NewDay(today)) && i < |flights|
      modifies this, tracker
      ensures Ok() && s == Apply(config, old(s).(today := today), Finish(i, success))
      ensures jobs == old(jobs) && flights == old(flights)[..i] + old(flights)[i + 1..]
      ensures s.history == old(s.history) +
        if success then [SpendRecord(today, old(flights)[i].cost, Some(old(flights)[i].request.id), "Backfill")] else []
    {
      hide DayNo, MonthNo, Valid, Agree, DaysHold, MonthsHold, Refusal;
      Advance(today);
      var f := flights[i];
      var record := SpendRecord(today, f.cost, Some(f.request.id), "Backfill");
      if success {
        tracker.RecordSpend(record);
      }
      flights := flights[..i] + flights[i + 1..];
      s := Apply(config, s, Finish(i, success));
    }
  }

  // ---- A call that is not interrupted -------------------------------------------------------------

  /** s' is s after a request of this job that came out so: spawned, stored, or refused. */
  predicate Settled(s: State, s': State, job: Job, refused: Option<Error>) {
    && s'.calls == s.calls && s'.confirming == s.confirming
    && s'.history == s.history && s'.today == s.today && s'.cooldowns == s.cooldowns
    && s'.flights == (if refused == None then s.flights + [job] else s.flights)
    && s'.jobs == match refused
       case None => s.jobs[job.request.id := job]
       case Some(RequiresConfirmation) => s.jobs[job.request.id := job.(status := AwaitingConfirmation)]
       case Some(_) => s.jobs
  }

  /** s1 is s with this call come last. */
  predicate Before(s: State, s1: State, job: Job, stage: Stage) {
    && s1.calls == s.calls + [Call(job, stage)] && s1.jobs == s.jobs && s1.flights == s.flights
    && s1.confirming == s.confirming && s1.history == s.history && s1.today == s.today && s1.cooldowns == s.cooldowns
  }

  function StepsLeft(stage: Stage): nat {
    match stage
    case DayRead => 4
    case MonthRead => 3
    case AutoDayRead => 2
    case _ => 1
  }

  /** How a call ends when nothing is charged meanwhile. */
  function Fate(c: Config, s: State, job: Job, stage: Stage): Option<Error>
    decreases StepsLeft(stage)
  {
    match stage
    case Cleared => None
    case ToHold => Some(RequiresConfirmation)
    case _ =>
      match NextStage(c, s, Call(job, stage))
      case None => Some(CostLimitExceeded)
      case Some(next) => Fate(c, s, job, next)
  }

  lemma LastStep(c: Config, s: State, s1: State, job: Job, stage: Stage)
    requires Before(s, s1, job, stage)
    requires stage in {Cleared, ToHold} || NextStage(c, s1, Call(job, stage)) == None
    requires job.status == Pending
    ensures Settled(s, Step(c, s1, |s.calls|), job, Fate(c, s1, job, stage))
  {
    hide CountOfCalls, NextStage;
    assert RemoveAt(s.calls + [Call(job, stage)], |s.calls|) == s.calls;
  }

  lemma ReadStep(c: Config, s: State, s1: State, job: Job, stage: Stage)
    requires Before(s, s1, job, stage)
    requires stage !in {Cleared, ToHold} && NextStage(c, s1, Call(job, stage)).Some?
    ensures Before(s, Step(c, s1, |s.calls|), job, NextStage(c, s1, Call(job, stage)).value)
  {
    hide NextStage;
  }

  lemma SameReads(c: Config, s: State, s1: State, job: Job, stage: Stage)
    requires s.history == s1.history && s.today == s1.today
    ensures NextStage(c, s, Call(job, stage)) == NextStage(c, s1, Call(job, stage))
  {}

  lemma {:induction false} Lands(c: Config, s: State, s1: State, job: Job, stage: Stage, steps: nat)
    requires Before(s, s1, job, stage) && job.status == Pending && steps >= StepsLeft(stage)
    ensures Settled(s, Settle(c, s1, |s.calls|, steps), job, Fate(c, s, job, stage))
    decreases steps
  {
    hide Step, NextStage, Settled;
    var n, s2 := |s.calls|, Step(c, s1, |s.calls|);
    SameReads(c, s, s1, job, stage);
    if stage in {Cleared, ToHold} || NextStage(c, s1, Call(job, stage)) == None {
      LastStep(c, s, s1, job, stage);
      SettledRests(c, s, s2, job, Fate(c, s, job, stage), steps - 1);
    } else {
      var next := NextStage(c, s1, Call(job, stage)).value;
      FewerLeft(c, s1, job, stage);
      ReadStep(c, s, s1, job, stage);
      Lands(c, s, s2, job, next, steps - 1);
    }
  }

  lemma SettledRests(c: Config, s: State, s': State, job: Job, refused: Option<Error>, steps: nat)
    requires Settled(s, s', job, refused)
    ensures Settle(c, s', |s.calls|, steps) == s'
  {}

  lemma FewerLeft(c: Config, s: State, job: Job, stage: Stage)
    requires stage !in {Cleared, ToHold} && NextStage(c, s, Call(job, stage)).Some?
    ensures StepsLeft(NextStage(c, s, Call(job, stage)).value) < StepsLeft(stage)
  {}

  /** The steps of a call that nothing interrupts come to the checks in their order. */
  lemma FateIsRefusal(c: Config, s: State, r: Request, now: int)
    requires EntryError(c, s, r, now).None? && r.Cost() <= c.limits.maxPerRequest && DaySpend(s) + r.Cost() <= c.limits.maxDaily
    ensures Fate(c, s, Job(r, Pending, r.Cost()), DayRead) == Refusal(c, s, r, now)
  {
    hide EntryError, CostOf, DaySpend, MonthSpend;
  }

  lemma EntryErrors(c: Config, s: State, r: Request, now: int)
    ensures EntryError(c, s, r, now) in {None, Some(DisabledError), Some(SourceNotAllowed), Some(Duplicate)}
  {}

  lemma CheckEnters(c: Config, s: State, r: Request, now: int)
    ensures var s1, job := Apply(c, s, Check(r, now)), Job(r, Pending, r.Cost());
      if EntryError(c, s, r, now).Some? || r.Cost() > c.limits.maxPerRequest || DaySpend(s) + r.Cost() > c.limits.maxDaily
      then s1 == s && Refusal(c, s, r, now) !in {None, Some(RequiresConfirmation)}
      else Before(s, s1, job, DayRead)
  {
    hide EntryError, CostOf, DaySpend, MonthSpend, CountOfCalls, Known;
    EntryErrors(c, s, r, now);
  }

  /** A request that is not interrupted is spawned, or stored for confirmation, at once. */
  lemma SubmitAtOnce(c: Config, s: State, r: Request, now: int)
    ensures Settled(s, Submit(c, s, r, now), Job(r, Pending, r.Cost()), Refusal(c, s, r, now))
  {
    hide EntryError, CostOf, DaySpend, MonthSpend, Apply, Before, Refusal, Fate, Step;
    var s1, job := Apply(c, s, Check(r, now)), Job(r, Pending, r.Cost());
    CheckEnters(c, s, r, now);
    if EntryError(c, s, r, now).Some? || r.Cost() > c.limits.maxPerRequest || DaySpend(s) + r.Cost() > c.limits.maxDaily {
      assert Settled(s, s1, job, Refusal(c, s, r, now));
      SettledRests(c, s, s1, job, Refusal(c, s, r, now), 4);
    } else {
      hide Settled, Settle;
      Lands(c, s, s1, job, DayRead, 4);
      FateIsRefusal(c, s, r, now);
    }
  }

  lemma ConfirmedAtOnce(c: Config, s: State, id: nat)
    requires OwnIds(s) && s.confirming == []
    ensures var s' := ConfirmAtOnce(c, s, id);
      && OwnIds(s') && s'.confirming == [] && s'.history == s.history && s'.today == s.today && s'.cooldowns == s.cooldowns
      && (!Awaits(s, id) ==> s' == s)
      && (Awaits(s, id) ==>
            var job := s.jobs[id].(status := Pending);
            s'.jobs == s.jobs[id := job] && s'.flights == s.flights + [job])
  {
    hide HasId, CountOfCalls;
  }

  /** While the cleanup cutoff is not after today, the tracker's two ledgers know all of
      today's and this month's spend. */
  lemma SameSpend(tracker: SpendTracker, s: State)
    requires tracker.Consistent() && tracker.l.history == s.history
    requires tracker.l.cutDay <= DayNo(s.today) && tracker.l.cutMonth <= MonthNo(s.today)
    ensures Total(OnDay(tracker.l.kept, DayNo(s.today))) == DaySpend(s)
    ensures Total(InMonth(tracker.l.counted, MonthNo(s.today))) == MonthSpend(s)
  {}
}
