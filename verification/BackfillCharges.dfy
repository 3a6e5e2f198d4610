/** Which jobs are charged at most once, and what a caller of the executor never learns. */
module BackfillCharges {
  import opened Options
  import opened Sorting
  import opened Dates
  import opened Spending
  import opened Backfill

  // ---- At most one charge for each job -------------------------------------------------------------

  function CountOf(js: seq<Job>, id: nat): nat {
    if js == [] then 0 else CountOf(js[..|js| - 1], id) + if js[|js| - 1].request.id == id then 1 else 0
  }

  function ChargesOf(h: seq<SpendRecord>, id: nat): nat {
    if h == [] then 0 else ChargesOf(h[..|h| - 1], id) + if h[|h| - 1].jobId == Some(id) then 1 else 0
  }

  lemma {:induction false} CountRemove(js: seq<Job>, i: nat, id: nat)
    requires i < |js|
    ensures CountOf(js, id) == CountOf(RemoveAt(js, i), id) + if js[i].request.id == id then 1 else 0
  {
    var n := |js| - 1;
    if i == n {
      assert RemoveAt(js, i) == js[..n];
    } else {
      CountRemove(js[..n], i, id);
      assert RemoveAt(js, i)[..n - 1] == RemoveAt(js[..n], i);
    }
  }

  lemma CountAppend(js: seq<Job>, job: Job, id: nat)
    ensures CountOf(js + [job], id) == CountOf(js, id) + if job.request.id == id then 1 else 0
  {
    assert (js + [job])[..|js|] == js;
  }

  lemma {:induction false} CountHas(js: seq<Job>, id: nat)
    ensures CountOf(js, id) > 0 <==> HasId(js, id)
  {
    if js != [] {
      var n := |js| - 1;
      CountHas(js[..n], id);
      if HasId(js, id) && js[n].request.id != id {
        var i :| 0 <= i < |js| && js[i].request.id == id;
        assert js[..n][i].request.id == id;
      }
      if HasId(js[..n], id) {
        var i :| 0 <= i < n && js[..n][i].request.id == id;
        assert js[i].request.id == id;
      }
    }
  }

  lemma ChargesAppend(h: seq<SpendRecord>, r: SpendRecord, id: nat)
    ensures ChargesOf(h + [r], id) == ChargesOf(h, id) + if r.jobId == Some(id) then 1 else 0
  {
    assert (h + [r])[..|h|] == h;
  }

  /** The tasks of one id and the charges they have become. */
  function Uses(s: State, id: nat): nat { CountOf(s.flights, id) + ChargesOf(s.history, id) }

  /** Requests of one id on their way into the map. */
  function Coming(calls: seq<Call>, id: nat): nat {
    if calls == [] then 0 else Coming(calls[..|calls| - 1], id) + if calls[|calls| - 1].job.request.id == id then 1 else 0
  }

  lemma {:induction false} ComingRemove(calls: seq<Call>, i: nat, id: nat)
    requires i < |calls|
    ensures Coming(calls, id) == Coming(RemoveAt(calls, i), id) + if calls[i].job.request.id == id then 1 else 0
  {
    var n := |calls| - 1;
    if i == n {
      assert RemoveAt(calls, i) == calls[..n];
    } else {
      ComingRemove(calls[..n], i, id);
      assert RemoveAt(calls, i)[..n - 1] == RemoveAt(calls[..n], i);
    }
  }

  lemma ComingReplace(calls: seq<Call>, i: nat, stage: Stage, id: nat)
    requires i < |calls|
    ensures Coming(calls[i := Call(calls[i].job, stage)], id) == Coming(calls, id)
  {
    var calls' := calls[i := Call(calls[i].job, stage)];
    ComingRemove(calls, i, id);
    ComingRemove(calls', i, id);
    assert RemoveAt(calls', i) == RemoveAt(calls, i);
  }

  lemma ComingAppend(calls: seq<Call>, call: Call, id: nat)
    ensures Coming(calls + [call], id) == Coming(calls, id) + if call.job.request.id == id then 1 else 0
  {
    assert (calls + [call])[..|calls|] == calls;
  }

  lemma {:induction false} ComingHas(calls: seq<Call>, id: nat)
    ensures Coming(calls, id) > 0 <==> Calling(calls, id)
  {
    if calls != [] {
      var n := |calls| - 1;
      ComingHas(calls[..n], id);
      if Calling(calls, id) && calls[n].job.request.id != id {
        var i :| 0 <= i < |calls| && calls[i].job.request.id == id;
        assert calls[..n][i].job.request.id == id;
      }
      if Calling(calls[..n], id) {
        var i :| 0 <= i < n && calls[..n][i].job.request.id == id;
        assert calls[i].job.request.id == id;
      }
    }
  }

  /** While ids are not reused and no two calls confirm one job together: an id is on its way
      to a task, or has had one, at most once, and has had none while it is new or awaits
      confirmation. */
  ghost predicate OnceFor(s: State, id: nat) {
    && Coming(s.calls, id) + CountOf(s.confirming, id) + Uses(s, id) <= 1
    && (id in s.jobs ==> Coming(s.calls, id) == 0)
    && (id !in s.jobs ==> CountOf(s.confirming, id) + Uses(s, id) == 0)
    && (Awaits(s, id) ==> Uses(s, id) == 0)
  }

  /** Everything on its way is in the map or new. */
  ghost predicate Once(s: State) {
    && OwnIds(s) && (forall j :: j in s.confirming ==> j.request.id in s.jobs)
    && (!s.reused && !s.overlapped ==> forall id: nat :: OnceFor(s, id))
  }

  /** The caller's own records never move past Pending, and no cooldown is ever noted: the
      spawned job updates its copies. */
  ghost predicate Untold(s: State) {
    && s.cooldowns == map[]
    && (forall id :: id in s.jobs ==> s.jobs[id].status in {Pending, AwaitingConfirmation, Cancelled})
    && (forall call :: call in s.calls ==> call.job.status == Pending)
  }

  lemma OnceCheck(c: Config, s: State, r: Request, now: int, id: nat)
    requires OnceFor(s, id) && !Apply(c, s, Check(r, now)).reused
    ensures OnceFor(Apply(c, s, Check(r, now)), id)
  {
    hide EntryError, ChargesOf, Calling, CountOf, Coming, CountOfCalls, CostOf, DaySpend;
    ComingHas(s.calls, id);
    ComingAppend(s.calls, Call(Job(r, Pending, r.Cost()), DayRead), id);
  }

  /** The job of a call is spawned or stored, or the call ends. */
  lemma OnceLeaves(c: Config, s: State, i: nat, id: nat)
    requires OnceFor(s, id) && i < |s.calls| && s.calls[i].job.status == Pending && s.calls[i].stage in {Cleared, ToHold}
    ensures OnceFor(Step(c, s, i), id)
  {
    hide ChargesOf, CountOf, Coming, CountOfCalls;
    ComingRemove(s.calls, i, id);
    CountAppend(s.flights, s.calls[i].job, id);
  }

  lemma OnceReads(c: Config, s: State, i: nat, id: nat)
    requires OnceFor(s, id) && i < |s.calls| && s.calls[i].stage !in {Cleared, ToHold}
    ensures OnceFor(Step(c, s, i), id)
  {
    hide ChargesOf, CountOf, Coming, NextStage;
    ComingRemove(s.calls, i, id);
    if NextStage(c, s, s.calls[i]).Some? { ComingReplace(s.calls, i, NextStage(c, s, s.calls[i]).value, id); }
  }

  lemma OnceConfirm(c: Config, s: State, j: nat, id: nat)
    requires OnceFor(s, id) && OwnIds(s) && !Apply(c, s, Confirm(j)).overlapped
    ensures OnceFor(Apply(c, s, Confirm(j)), id)
  {
    hide ChargesOf, HasId, CountOf;
    CountHas(s.confirming, id);
    if Awaits(s, j) {
      CountAppend(s.confirming, s.jobs[j], id);
    }
  }

  lemma OnceSpawnConfirmed(c: Config, s: State, i: nat, id: nat)
    requires OnceFor(s, id) && OwnIds(s) && i < |s.confirming| && s.confirming[i].request.id in s.jobs
    ensures OnceFor(Apply(c, s, SpawnConfirmed(i)), id)
  {
    hide ChargesOf, CountOf;
    CountRemove(s.confirming, i, id);
    CountAppend(s.flights, s.jobs[s.confirming[i].request.id].(status := Pending), id);
  }

  lemma OnceFinish(c: Config, s: State, i: nat, success: bool, id: nat)
    requires OnceFor(s, id) && i < |s.flights|
    ensures OnceFor(Apply(c, s, Finish(i, success)), id)
  {
    hide ChargesOf, CountOf;
    CountRemove(s.flights, i, id);
    ChargesAppend(s.history, Charge(s, s.flights[i]), id);
  }

  lemma StepKeepsOnceFor(c: Config, s: State, op: Op, id: nat)
    requires Once(s) && Untold(s) && !Apply(c, s, op).reused && !Apply(c, s, op).overlapped
    ensures OnceFor(Apply(c, s, op), id)
  {
    FlagsStay(c, s, op);
    assert OnceFor(s, id);
    hide Apply, OnceFor;
    match op {
      case Check(r, now) => OnceCheck(c, s, r, now, id);
      case Proceed(i) => if i < |s.calls| { OnceProceed(c, s, i, id); } else { Unmoved(c, s, op); }
      case Confirm(j) => OnceConfirm(c, s, j, id);
      case SpawnConfirmed(i) =>
        if i < |s.confirming| {
          assert s.confirming[i] in s.confirming;
          OnceSpawnConfirmed(c, s, i, id);
        } else {
          Unmoved(c, s, op);
        }
      case Cancel(j) => OnceCancel(c, s, j, id);
      case Finish(i, success) => if i < |s.flights| { OnceFinish(c, s, i, success, id); } else { Unmoved(c, s, op); }
      case NewDay(date) => OnceNewDay(c, s, date, id);
    }
  }

  lemma OnceProceed(c: Config, s: State, i: nat, id: nat)
    requires OnceFor(s, id) && Untold(s) && i < |s.calls|
    ensures OnceFor(Apply(c, s, Proceed(i)), id)
  {
    ProceedIsStep(c, s, i);
    assert s.calls[i] in s.calls;
    hide OnceFor, Apply, Step;
    if s.calls[i].stage in {Cleared, ToHold} { OnceLeaves(c, s, i, id); } else { OnceReads(c, s, i, id); }
  }

  lemma FlagsStay(c: Config, s: State, op: Op)
    ensures s.reused ==> Apply(c, s, op).reused
    ensures s.overlapped ==> Apply(c, s, op).overlapped
  {
    hide EntryError, Known, HasId, NextStage, CountOfCalls, CostOf, DaySpend;
  }

  lemma Unmoved(c: Config, s: State, op: Op)
    requires match op
      case Proceed(i) => i >= |s.calls|
      case SpawnConfirmed(i) => i >= |s.confirming|
      case Finish(i, _) => i >= |s.flights|
      case _ => false
    ensures Apply(c, s, op) == s
  {}

  lemma OnceCancel(c: Config, s: State, j: nat, id: nat)
    requires OnceFor(s, id)
    ensures OnceFor(Apply(c, s, Op.Cancel(j)), id)
  {
    hide ChargesOf, CountOf;
  }

  lemma OnceNewDay(c: Config, s: State, date: Date, id: nat)
    requires OnceFor(s, id)
    ensures OnceFor(Apply(c, s, NewDay(date)), id)
  {
    hide ChargesOf, CountOf;
  }

  lemma StepKeepsUntold(c: Config, s: State, op: Op)
    requires Untold(s)
    ensures Untold(Apply(c, s, op))
  {
    hide EntryError, Known, HasId, NextStage, CountOfCalls, CostOf, DaySpend;
  }

  lemma StepKeepsOwnIds(c: Config, s: State, op: Op)
    requires OwnIds(s) && forall j :: j in s.confirming ==> j.request.id in s.jobs
    ensures OwnIds(Apply(c, s, op))
  {
    hide EntryError, Known, HasId, NextStage, CountOfCalls, CostOf, DaySpend;
  }

  lemma StepKeepsConfirming(c: Config, s: State, op: Op)
    requires OwnIds(s) && forall j :: j in s.confirming ==> j.request.id in s.jobs
    ensures forall j :: j in Apply(c, s, op).confirming ==> j.request.id in Apply(c, s, op).jobs
  {
    hide EntryError, Known, HasId, NextStage, CountOfCalls, CostOf, DaySpend;
    if op.SpawnConfirmed? && op.i < |s.confirming| { forall j | j in RemoveAt(s.confirming, op.i) ensures j in s.confirming {} }
  }

  lemma StepKeepsOnce(c: Config, s: State, op: Op)
    requires Once(s) && Untold(s)
    ensures Once(Apply(c, s, op)) && Untold(Apply(c, s, op))
  {
    StepKeepsUntold(c, s, op);
    StepKeepsOwnIds(c, s, op);
    StepKeepsConfirming(c, s, op);
    hide Apply, OnceFor, OwnIds, Untold;
    var s' := Apply(c, s, op);
    if !s'.reused && !s'.overlapped {
      forall id: nat ensures OnceFor(s', id) {
        StepKeepsOnceFor(c, s, op, id);
      }
    }
  }

  lemma {:induction false} RunsKeepOnce(c: Config, run: seq<State>, ops: seq<Op>, i: nat)
    requires IsRun(c, run, ops) && i < |run|
    ensures Once(run[i]) && Untold(run[i])
  {
    hide Apply, Permitted;
    if i > 0 {
      RunsKeepOnce(c, run, ops, i - 1);
      hide Once, Untold;
      StepKeepsOnce(c, run[i - 1], ops[i - 1]);
    }
  }

  /** With ids used once, and no confirmation of a job begun while another of it is under way,
      no job is charged twice, confirmed, cancelled or not. */
  lemma ChargedAtMostOnce(c: Config, run: seq<State>, ops: seq<Op>, i: nat, id: nat)
    requires IsRun(c, run, ops) && i < |run| && !run[i].reused && !run[i].overlapped
    ensures ChargesOf(run[i].history, id) <= 1
  {
    RunsKeepOnce(c, run, ops, i);
    assert OnceFor(run[i], id);
  }

  /** The condition cannot go: wherever a job awaits confirmation and a call is confirming it
      already, a second call confirms it too and it is charged twice more. */
  lemma OverlappingConfirmsChargeTwice(c: Config, run0: seq<State>, ops0: seq<Op>, id: nat, i: nat)
    returns (run: seq<State>, ops: seq<Op>)
    requires IsRun(c, run0, ops0)
    requires var s := run0[|ops0|]; Awaits(s, id) && i < |s.confirming| && s.confirming[i].request.id == id
    ensures IsRun(c, run, ops) && run[0] == run0[0]
    ensures var s := run0[|ops0|];
      var n, f := |s.confirming|, |s.flights|;
      && ops == ops0 + [Confirm(id), SpawnConfirmed(n), SpawnConfirmed(i), Finish(f, true), Finish(f, true)]
      && ChargesOf(run[|ops|].history, id) == ChargesOf(s.history, id) + 2 && run[|ops|].reused == s.reused
  {
    RunsKeepOnce(c, run0, ops0, |ops0|);
    var s := run0[|ops0|];
    var n, f := |s.confirming|, |s.flights|;
    var s3 := BothSpawn(c, s, id, i);
    BothCharge(c, s3, id, f);
    hide *;
    run, ops := Onward(c, run0, ops0, Confirm(id));
    run, ops := Onward(c, run, ops, SpawnConfirmed(n));
    run, ops := Onward(c, run, ops, SpawnConfirmed(i));
    run, ops := Onward(c, run, ops, Finish(f, true));
    run, ops := Onward(c, run, ops, Finish(f, true));
    InARow(ops0, Confirm(id), SpawnConfirmed(n), SpawnConfirmed(i), Finish(f, true), Finish(f, true));
  }

  lemma InARow<T>(s: seq<T>, a: T, b: T, d: T, e: T, f: T)
    ensures s + [a] + [b] + [d] + [e] + [f] == s + [a, b, d, e, f]
  {}

  lemma BothSpawn(c: Config, s: State, id: nat, i: nat) returns (s3: State)
    requires OwnIds(s) && Awaits(s, id) && i < |s.confirming| && s.confirming[i].request.id == id
    ensures s3 == Apply(c, Apply(c, Apply(c, s, Confirm(id)), SpawnConfirmed(|s.confirming|)), SpawnConfirmed(i))
    ensures s3.history == s.history && s3.reused == s.reused
    ensures exists a, b :: s3.flights == s.flights + [a] + [b] && a.request.id == b.request.id == id
  {
    var n := |s.confirming|;
    hide *;
    var s1 := Apply(c, s, Confirm(id));
    ConfirmKnown(c, s, id);
    var s2 := Apply(c, s1, SpawnConfirmed(n));
    LastGone(s.confirming, s1.confirming[n]);
    AwaitedIsKnown(s1, id);
    SpawnKnown(c, s1, n, id);
    s3 := Apply(c, s2, SpawnConfirmed(i));
    SpawnKnown(c, s2, i, id);
  }

  lemma AwaitedIsKnown(s: State, id: nat)
    requires Awaits(s, id)
    ensures id in s.jobs
  {}

  lemma BothCharge(c: Config, s: State, id: nat, f: nat)
    requires exists js, a, b :: s.flights == js + [a] + [b] && |js| == f && a.request.id == b.request.id == id
    ensures var s' := Apply(c, Apply(c, s, Finish(f, true)), Finish(f, true));
      ChargesOf(s'.history, id) == ChargesOf(s.history, id) + 2 && s'.reused == s.reused
  {
    var s1 := Apply(c, s, Finish(f, true));
    FinishKnown(c, s, f, id);
    assert s1.flights[f] == s.flights[f + 1];
    hide *;
    FinishKnown(c, s1, f, id);
  }

  /** From the start: a request that awaits confirmation is confirmed by two calls at once. */
  lemma DoubleChargeIsReached(c: Config, today: Date, r: Request) returns (run: seq<State>, ops: seq<Op>)
    requires Valid(today) && c.IsEnabled() && c.Allows(r.source) && !r.skipConfirmation && Fits(c, Start(today), r.Cost())
    requires !(c.limits.autoApproveEnabled && r.Cost() <= c.limits.autoApproveThreshold)
    ensures IsRun(c, run, ops) && run[0] == Start(today)
    ensures ops == [Check(r, 0), Proceed(0), Proceed(0), Confirm(r.id), Confirm(r.id), SpawnConfirmed(1), SpawnConfirmed(0),
                    Finish(0, true), Finish(0, true)]
    ensures !run[|ops|].reused && ChargesOf(run[|ops|].history, r.id) == 2
  {
    hide *;
    run, ops := ConfirmedFromStart(c, today, r);
    run, ops := OverlappingConfirmsChargeTwice(c, run, ops, r.id, 0);
    assert [Check(r, 0), Proceed(0), Proceed(0), Confirm(r.id)]
         + [Confirm(r.id), SpawnConfirmed(1), SpawnConfirmed(0), Finish(0, true), Finish(0, true)]
        == [Check(r, 0), Proceed(0), Proceed(0), Confirm(r.id),
            Confirm(r.id), SpawnConfirmed(1), SpawnConfirmed(0), Finish(0, true), Finish(0, true)];
    EmptyCharges(r.id);
  }

  lemma EmptyCharges(id: nat)
    ensures ChargesOf([], id) == 0
  {}

  lemma ConfirmedFromStart(c: Config, today: Date, r: Request) returns (run: seq<State>, ops: seq<Op>)
    requires Valid(today) && c.IsEnabled() && c.Allows(r.source) && !r.skipConfirmation && Fits(c, Start(today), r.Cost())
    requires !(c.limits.autoApproveEnabled && r.Cost() <= c.limits.autoApproveThreshold)
    ensures IsRun(c, run, ops) && |run| == |ops| + 1 && run[0] == Start(today)
    ensures ops == [Check(r, 0), Proceed(0), Proceed(0), Confirm(r.id)]
    ensures var s := run[|ops|];
      && !s.reused && Awaits(s, r.id) && |s.confirming| == 1 && s.confirming[0].request.id == r.id
      && s.history == [] && s.flights == []
  {
    var stored := StoredAtStart(c, today, r);
    ConfirmKnown(c, stored, r.id);
    FourInARow(Check(r, 0), Proceed(0), Proceed(0), Confirm(r.id));
    run, ops := Begin(c, today);
    assert |run| == |ops| + 1;
    hide *;
    run, ops := Onward(c, run, ops, Check(r, 0));
    run, ops := Onward(c, run, ops, Proceed(0));
    run, ops := Onward(c, run, ops, Proceed(0));
    run, ops := Onward(c, run, ops, Confirm(r.id));
  }

  lemma FourInARow<T>(a: T, b: T, d: T, e: T)
    ensures [] + [a] + [b] + [d] + [e] == [a, b, d, e]
  {}

  lemma StoredAtStart(c: Config, today: Date, r: Request) returns (s: State)
    requires c.IsEnabled() && c.Allows(r.source) && !r.skipConfirmation && Fits(c, Start(today), r.Cost())
    requires !(c.limits.autoApproveEnabled && r.Cost() <= c.limits.autoApproveThreshold)
    ensures s == Apply(c, Apply(c, Apply(c, Start(today), Check(r, 0)), Proceed(0)), Proceed(0))
    ensures Awaits(s, r.id) && OwnIds(s) && s.confirming == [] && s.flights == [] && s.history == [] && !s.reused
  {
    hide CostOf, DaySpend, MonthSpend;
    var s1 := Apply(c, Start(today), Check(r, 0));
    assert s1.calls == [Call(Job(r, Pending, r.Cost()), DayRead)] && !s1.reused;
    assert MonthSpend(s1) == MonthSpend(Start(today)) by { SpendKept(Start(today), s1); }
    var s2 := Apply(c, s1, Proceed(0));
    assert s2.calls == [Call(Job(r, Pending, r.Cost()), ToHold)];
    s := Apply(c, s2, Proceed(0));
  }

  lemma SpendKept(s: State, s': State)
    requires s.history == s'.history && s.today == s'.today
    ensures DaySpend(s) == DaySpend(s') && MonthSpend(s) == MonthSpend(s')
  {}

  lemma Onward(c: Config, run0: seq<State>, ops0: seq<Op>, op: Op) returns (run: seq<State>, ops: seq<Op>)
    requires IsRun(c, run0, ops0) && |run0| == |ops0| + 1 && !op.NewDay?
    ensures IsRun(c, run, ops) && |run| == |ops| + 1 && ops == ops0 + [op]
    ensures run[|ops|] == Apply(c, run0[|ops0|], op) && run[0] == run0[0]
  {
    hide Apply;
    run, ops := Extend(c, run0, ops0, op);
  }

  lemma LastGone(js: seq<Job>, job: Job)
    ensures RemoveAt(js + [job], |js|) == js
  {}

  lemma ConfirmKnown(c: Config, s: State, id: nat)
    requires Awaits(s, id) && OwnIds(s)
    ensures var s' := Apply(c, s, Confirm(id));
      && (exists job :: s'.confirming == s.confirming + [job] && job.request.id == id)
      && s'.flights == s.flights && s'.history == s.history && Awaits(s', id) && OwnIds(s') && s'.reused == s.reused
  {
    hide HasId;
    assert s.jobs[id].request.id == id;
  }

  lemma SpawnKnown(c: Config, s: State, i: nat, id: nat)
    requires i < |s.confirming| && s.confirming[i].request.id == id && id in s.jobs && OwnIds(s)
    ensures var s' := Apply(c, s, SpawnConfirmed(i));
      && s'.confirming == RemoveAt(s.confirming, i) && s'.history == s.history && s'.reused == s.reused
      && (exists job :: s'.flights == s.flights + [job] && job.request.id == id) && id in s'.jobs && OwnIds(s')
  {
    var job := s.jobs[id].(status := Pending);
    assert Apply(c, s, SpawnConfirmed(i)).flights == s.flights + [job] && job.request.id == id;
    hide CountOfCalls;
  }

  lemma FinishKnown(c: Config, s: State, f: nat, id: nat)
    requires f < |s.flights| && s.flights[f].request.id == id
    ensures var s' := Apply(c, s, Finish(f, true));
      && s'.flights == RemoveAt(s.flights, f) && s'.reused == s.reused
      && ChargesOf(s'.history, id) == ChargesOf(s.history, id) + 1
  {
    hide ChargesOf;
    ChargesAppend(s.history, Charge(s, s.flights[f]), id);
  }

  /** The cooldown check never rejects a request, because a finished job notes the cooldown
      of its symbols in its own copy of the map. */
  lemma CooldownNeverRejects(c: Config, run: seq<State>, ops: seq<Op>, i: nat, r: Request, now: int)
    requires IsRun(c, run, ops) && i < |run|
    ensures Refusal(c, run[i], r, now) != Some(Duplicate)
  {
    RunsKeepOnce(c, run, ops, i);
  }
}
