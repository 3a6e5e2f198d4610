/** The spend tracker: a ledger of records by day and a ledger of totals by month, both
    keyed by date strings and both trimmed by cleanup. */
module Spending {
  import opened Options
  import opened Sorting
  import opened Dates

  datatype SpendRecord = SpendRecord(date: Date, amount: real, jobId: Option<nat>, description: string)

  datatype Limits = Limits(
    maxPerRequest: real, maxDaily: real, maxMonthly: real, autoApproveThreshold: real, autoApproveEnabled: bool)

  datatype LimitError = OverRequest | OverDaily | OverMonthly

  const RETENTION_DAYS: nat := 30

  const BY_DAY: SpendRecord -> int := (r: SpendRecord) => DayNo(r.date)
  const BY_MONTH: SpendRecord -> int := (r: SpendRecord) => MonthNo(r.date)

  function Total(rs: seq<SpendRecord>): real {
    if rs == [] then 0.0 else Total(rs[..|rs| - 1]) + rs[|rs| - 1].amount
  }

  function OnDay(rs: seq<SpendRecord>, day: int): seq<SpendRecord> { OfKey(rs, BY_DAY, day) }
  function InMonth(rs: seq<SpendRecord>, month: int): seq<SpendRecord> { OfKey(rs, BY_MONTH, month) }

  function From(rs: seq<SpendRecord>, key: SpendRecord -> int, k: int): seq<SpendRecord> {
    if rs == [] then []
    else From(rs[..|rs| - 1], key, k) + if key(rs[|rs| - 1]) >= k then [rs[|rs| - 1]] else []
  }

  // ---- The ledger over whole runs -------------------------------------------------------------

  /** Everything recorded, what the day ledger retains, what the month ledger counts, and
      the latest cleanup cutoff (-1 before the first). */
  datatype Ledger = Ledger(
    history: seq<SpendRecord>, kept: seq<SpendRecord>, counted: seq<SpendRecord>, cutDay: int, cutMonth: int)

  datatype LedgerOp = Record(r: SpendRecord) | Cleanup(cutoff: Date)

  const NO_SPEND := Ledger([], [], [], -1, -1)

  function Later(a: int, b: int): int { if a < b then b else a }

  function ApplyOp(l: Ledger, op: LedgerOp): Ledger {
    match op
    case Record(r) => Ledger(l.history + [r], l.kept + [r], l.counted + [r], l.cutDay, l.cutMonth)
    case Cleanup(cutoff) =>
      Ledger(l.history, From(l.kept, BY_DAY, DayNo(cutoff)), From(l.counted, BY_MONTH, MonthNo(cutoff)),
             Later(l.cutDay, DayNo(cutoff)), Later(l.cutMonth, MonthNo(cutoff)))
  }

  predicate GoodOp(op: LedgerOp) {
    match op
    case Record(r) => Valid(r.date)
    case Cleanup(cutoff) => Valid(cutoff)
  }

  function RunOps(ops: seq<LedgerOp>): Ledger {
    if ops == [] then NO_SPEND else ApplyOp(RunOps(ops[..|ops| - 1]), ops[|ops| - 1])
  }

  ghost predicate Good(rs: seq<SpendRecord>) {
    forall r :: r in rs ==> Valid(r.date)
  }

  ghost predicate Nonnegative(rs: seq<SpendRecord>) {
    forall r :: r in rs ==> r.amount >= 0.0
  }

  /** Each ledger is complete from its cutoff on, and a month's total covers exactly the
      retained records of its days for the months after the cutoff month; for every month it
      covers at least them when no amount is negative. */
  ghost predicate Agree(l: Ledger) {
    && Good(l.kept) && Good(l.counted) && Good(l.history)
    && (forall d: int :: d >= l.cutDay ==> OnDay(l.kept, d) == OnDay(l.history, d))
    && (forall m: int :: m >= l.cutMonth ==> InMonth(l.counted, m) == InMonth(l.history, m))
    && (Nonnegative(l.history) ==> Nonnegative(l.kept) && forall m: int :: Total(InMonth(l.kept, m)) <= Total(InMonth(l.counted, m)))
    && (forall m: int :: m > l.cutMonth ==> InMonth(l.kept, m) == InMonth(l.counted, m))
  }

  lemma TotalAppend(rs: seq<SpendRecord>, r: SpendRecord)
    ensures Total(rs + [r]) == Total(rs) + r.amount
  {
    assert (rs + [r])[..|rs|] == rs;
  }

  lemma {:induction false} FromMembers(rs: seq<SpendRecord>, key: SpendRecord -> int, k: int, r: SpendRecord)
    ensures r in From(rs, key, k) <==> r in rs && key(r) >= k
  {
    if rs != [] {
      FromMembers(rs[..|rs| - 1], key, k, r);
      assert rs == rs[..|rs| - 1] + [rs[|rs| - 1]];
    }
  }

  /** Dropping the records below k keeps or empties a class whose records are all on one side. */
  lemma {:induction false} FromClass(rs: seq<SpendRecord>, key: SpendRecord -> int, k: int, other: SpendRecord -> int, c: int)
    ensures (forall r :: r in rs && other(r) == c ==> key(r) >= k) ==>
      OfKey(From(rs, key, k), other, c) == OfKey(rs, other, c)
    ensures (forall r :: r in rs && other(r) == c ==> key(r) < k) ==> OfKey(From(rs, key, k), other, c) == []
  {
    if rs != [] {
      var n := |rs| - 1;
      var x := rs[n];
      FromClass(rs[..n], key, k, other, c);
      assert rs == rs[..n] + [x];
      if key(x) >= k {
        OfKeyAppend(From(rs[..n], key, k), x, other, c);
      } else {
        assert From(rs[..n], key, k) + [] == From(rs[..n], key, k);
      }
      OfKeyAppend(rs[..n], x, other, c);
    }
  }

  lemma InMonthAppend(rs: seq<SpendRecord>, r: SpendRecord, m: int)
    ensures Total(InMonth(rs + [r], m)) == Total(InMonth(rs, m)) + if MonthNo(r.date) == m then r.amount else 0.0
  {
    hide OfKey, Total, MonthNo;
    OfKeyAppend(rs, r, BY_MONTH, m);
    TotalAppend(InMonth(rs, m), r);
    assert InMonth(rs, m) + [] == InMonth(rs, m);
  }

  lemma FromAppend(rs: seq<SpendRecord>, r: SpendRecord, key: SpendRecord -> int, k: int)
    ensures From(rs + [r], key, k) == From(rs, key, k) + if key(r) >= k then [r] else []
  {
    assert (rs + [r])[..|rs|] == rs;
  }

  lemma {:induction false} FromTotal(rs: seq<SpendRecord>, k: int, m: int)
    requires Nonnegative(rs)
    ensures Total(InMonth(From(rs, BY_DAY, k), m)) <= Total(InMonth(rs, m))
  {
    if rs != [] {
      var n := |rs| - 1;
      FromTotal(rs[..n], k, m);
      assert rs == rs[..n] + [rs[n]];
      hide OfKey, From, Total, InMonth;
      FromAppend(rs[..n], rs[n], BY_DAY, k);
      InMonthAppend(From(rs[..n], BY_DAY, k), rs[n], m);
      InMonthAppend(rs[..n], rs[n], m);
      assert From(rs[..n], BY_DAY, k) + [] == From(rs[..n], BY_DAY, k);
    }
  }

  lemma RecordAgrees(l: Ledger, r: SpendRecord)
    requires Agree(l) && Valid(r.date)
    ensures Agree(ApplyOp(l, Record(r)))
  {
    hide OfKey, Total;
    var l' := ApplyOp(l, Record(r));
    assert Nonnegative(l'.history) ==> Nonnegative(l.history) && Nonnegative(l'.kept) by {
      assert forall x :: x in l.history ==> x in l'.history;
      assert r in l'.history;
    }
    forall d: int | d >= l'.cutDay ensures OnDay(l'.kept, d) == OnDay(l'.history, d) {
      assert OnDay(l.kept, d) == OnDay(l.history, d);
      OfKeyAppend(l.kept, r, BY_DAY, d);
      OfKeyAppend(l.history, r, BY_DAY, d);
    }
    forall m: int
      ensures m >= l'.cutMonth ==> InMonth(l'.counted, m) == InMonth(l'.history, m)
      ensures Nonnegative(l'.history) ==> Total(InMonth(l'.kept, m)) <= Total(InMonth(l'.counted, m))
      ensures m > l'.cutMonth ==> InMonth(l'.kept, m) == InMonth(l'.counted, m)
    {
      OfKeyAppend(l.kept, r, BY_MONTH, m);
      OfKeyAppend(l.counted, r, BY_MONTH, m);
      OfKeyAppend(l.history, r, BY_MONTH, m);
      InMonthAppend(l.kept, r, m);
      InMonthAppend(l.counted, r, m);
    }
  }

  /** A later month has only later days. */
  lemma MonthsSplitDays(a: Date, b: Date)
    requires Valid(a) && Valid(b)
    ensures MonthNo(a) < MonthNo(b) ==> DayNo(a) < DayNo(b)
    ensures DayNo(a) <= DayNo(b) ==> MonthNo(a) <= MonthNo(b)
  {}

  lemma CleanupMonth(l: Ledger, cutoff: Date, m: int)
    requires Agree(l) && Valid(cutoff)
    ensures var l' := ApplyOp(l, Cleanup(cutoff));
      && (m >= MonthNo(cutoff) ==> InMonth(l'.counted, m) == InMonth(l.counted, m))
      && (m > MonthNo(cutoff) ==> InMonth(l'.kept, m) == InMonth(l.kept, m))
      && (m < MonthNo(cutoff) ==> InMonth(l'.counted, m) == [] && InMonth(l'.kept, m) == [])
      && (Nonnegative(l.history) ==> Total(InMonth(l'.kept, m)) <= Total(InMonth(l.kept, m)))
  {
    hide OfKey, From, Total;
    FromClass(l.counted, BY_MONTH, MonthNo(cutoff), BY_MONTH, m);
    FromClass(l.kept, BY_DAY, DayNo(cutoff), BY_MONTH, m);
    if Nonnegative(l.history) { FromTotal(l.kept, DayNo(cutoff), m); }
    forall r | r in l.kept ensures
      (MonthNo(r.date) > MonthNo(cutoff) ==> DayNo(r.date) >= DayNo(cutoff))
      && (MonthNo(r.date) < MonthNo(cutoff) ==> DayNo(r.date) < DayNo(cutoff))
    {
      MonthsSplitDays(r.date, cutoff);
      MonthsSplitDays(cutoff, r.date);
    }
  }

  lemma CleanupAgrees(l: Ledger, cutoff: Date)
    requires Agree(l) && Valid(cutoff)
    ensures Agree(ApplyOp(l, Cleanup(cutoff)))
  {
    var l' := ApplyOp(l, Cleanup(cutoff));
    NoTotal();
    hide OfKey, From, Total;
    forall r ensures (r in l'.kept ==> r in l.kept) && (r in l'.counted ==> r in l.counted) {
      FromMembers(l.kept, BY_DAY, DayNo(cutoff), r);
      FromMembers(l.counted, BY_MONTH, MonthNo(cutoff), r);
    }
    forall d: int | d >= l'.cutDay ensures OnDay(l'.kept, d) == OnDay(l'.history, d) {
      FromClass(l.kept, BY_DAY, DayNo(cutoff), BY_DAY, d);
    }
    forall m: int
      ensures m >= l'.cutMonth ==> InMonth(l'.counted, m) == InMonth(l'.history, m)
      ensures Nonnegative(l'.history) ==> Total(InMonth(l'.kept, m)) <= Total(InMonth(l'.counted, m))
      ensures m > l'.cutMonth ==> InMonth(l'.kept, m) == InMonth(l'.counted, m)
    {
      CleanupMonth(l, cutoff, m);
    }
  }

  lemma NoTotal()
    ensures Total([]) == 0.0
  {}

  lemma {:induction false} LedgersAgree(ops: seq<LedgerOp>)
    requires forall op :: op in ops ==> GoodOp(op)
    ensures Agree(RunOps(ops))
  {
    if ops != [] {
      var op := ops[|ops| - 1];
      LedgersAgree(ops[..|ops| - 1]);
      assert op in ops && GoodOp(op);
      match op {
        case Record(r) => RecordAgrees(RunOps(ops[..|ops| - 1]), r);
        case Cleanup(cutoff) => CleanupAgrees(RunOps(ops[..|ops| - 1]), cutoff);
      }
    }
  }

  // ---- The days of a month add up ---------------------------------------------------------------

  /** The daily totals of the first n days of a month. */
  function SumOfDays(rs: seq<SpendRecord>, month: int, n: nat): real {
    if n == 0 then 0.0 else SumOfDays(rs, month, n - 1) + Total(OnDay(rs, month * 31 + n - 1))
  }

  lemma {:induction false} SumOfDaysAppend(rs: seq<SpendRecord>, r: SpendRecord, month: int, n: nat)
    ensures SumOfDays(rs + [r], month, n)
         == SumOfDays(rs, month, n) + if 0 <= DayNo(r.date) - month * 31 < n then r.amount else 0.0
  {
    hide OfKey;
    if n > 0 {
      var d := month * 31 + n - 1;
      SumOfDaysAppend(rs, r, month, n - 1);
      OfKeyAppend(rs, r, BY_DAY, d);
      TotalAppend(OnDay(rs, d), r);
      assert OnDay(rs, d) + [] == OnDay(rs, d);
    }
  }

  lemma {:induction false} NoDays(month: int, n: nat)
    ensures SumOfDays([], month, n) == 0.0
  {
    if n > 0 {
      NoDays(month, n - 1);
    }
  }

  /** Adding up the days of a month gives the month. */
  lemma {:induction false} DaysMakeTheMonth(rs: seq<SpendRecord>, month: int)
    requires Good(rs)
    ensures SumOfDays(rs, month, 31) == Total(InMonth(rs, month))
  {
    hide SumOfDays, OfKey;
    if rs == [] {
      NoDays(month, 31);
      assert InMonth(rs, month) == [] by { OfKeyEmpty(month); }
    } else {
      var n := |rs| - 1;
      var r := rs[n];
      assert rs == rs[..n] + [r];
      DaysMakeTheMonth(rs[..n], month);
      SumOfDaysAppend(rs[..n], r, month, 31);
      InMonthAppend(rs[..n], r, month);
    }
  }

  lemma OfKeyEmpty(month: int)
    ensures InMonth([], month) == []
  {}

  /** In every run: a month's total is at least the sum of its retained daily records, and
      equals it for the months after the latest cleanup cutoff month. */
  lemma MonthCoversItsDays(ops: seq<LedgerOp>, month: int)
    requires forall op :: op in ops ==> GoodOp(op)
    ensures var l := RunOps(ops);
      && (Nonnegative(l.history) ==> SumOfDays(l.kept, month, 31) <= Total(InMonth(l.counted, month)))
      && (month > l.cutMonth ==> SumOfDays(l.kept, month, 31) == Total(InMonth(l.counted, month)))
  {
    LedgersAgree(ops);
    DaysMakeTheMonth(RunOps(ops).kept, month);
  }

  // ---- The two maps -----------------------------------------------------------------------------

  function RecordsAt(daily: map<string, seq<SpendRecord>>, key: string): seq<SpendRecord> {
    if key in daily then daily[key] else []
  }

  function TotalAt(monthly: map<string, real>, key: string): real {
    if key in monthly then monthly[key] else 0.0
  }

  /** The entries whose key is at least `key` in string order. */
  function KeepFrom<V>(m: map<string, V>, key: string): map<string, V> {
    map k | k in m && Leq(key, k) :: m[k]
  }

  /** Under the key of each day are the retained records of that day, in order. */
  ghost predicate DaysHold(daily: map<string, seq<SpendRecord>>, kept: seq<SpendRecord>) {
    forall d: Date :: Valid(d) ==> RecordsAt(daily, DayKey(d)) == OnDay(kept, DayNo(d))
  }

  /** Under the key of each month is the total counted for that month. */
  ghost predicate MonthsHold(monthly: map<string, real>, counted: seq<SpendRecord>) {
    forall d: Date :: Valid(d) ==> TotalAt(monthly, MonthKey(d)) == Total(InMonth(counted, MonthNo(d)))
  }

  lemma RecordDay(daily: map<string, seq<SpendRecord>>, kept: seq<SpendRecord>, r: SpendRecord)
    requires DaysHold(daily, kept) && Valid(r.date)
    ensures DaysHold(daily[DayKey(r.date) := RecordsAt(daily, DayKey(r.date)) + [r]], kept + [r])
  {
    hide Valid, MonthNo, DayNo, DayKey, MonthKey, OfKey;
    forall d: Date | Valid(d)
      ensures RecordsAt(daily[DayKey(r.date) := RecordsAt(daily, DayKey(r.date)) + [r]], DayKey(d))
           == OnDay(kept + [r], DayNo(d))
    {
      DayKeyOrder(d, r.date);
      OfKeyAppend(kept, r, BY_DAY, DayNo(d));
      assert OnDay(kept, DayNo(d)) + [] == OnDay(kept, DayNo(d));
    }
  }

  lemma RecordMonth(monthly: map<string, real>, counted: seq<SpendRecord>, r: SpendRecord)
    requires MonthsHold(monthly, counted) && Valid(r.date)
    ensures MonthsHold(monthly[MonthKey(r.date) := TotalAt(monthly, MonthKey(r.date)) + r.amount], counted + [r])
  {
    hide Valid, MonthNo, DayNo, DayKey, MonthKey, InMonth, Total;
    forall d: Date | Valid(d)
      ensures TotalAt(monthly[MonthKey(r.date) := TotalAt(monthly, MonthKey(r.date)) + r.amount], MonthKey(d))
           == Total(InMonth(counted + [r], MonthNo(d)))
    {
      MonthKeyOrder(d, r.date);
      InMonthAppend(counted, r, MonthNo(d));
    }
  }

  lemma CleanupDays(daily: map<string, seq<SpendRecord>>, kept: seq<SpendRecord>, cutoff: Date)
    requires DaysHold(daily, kept) && Valid(cutoff)
    ensures DaysHold(KeepFrom(daily, DayKey(cutoff)), From(kept, BY_DAY, DayNo(cutoff)))
  {
    hide Valid, MonthNo, DayNo, DayKey, MonthKey, OfKey, From, Leq;
    var daily' := KeepFrom(daily, DayKey(cutoff));
    forall d: Date | Valid(d)
      ensures RecordsAt(daily', DayKey(d)) == OnDay(From(kept, BY_DAY, DayNo(cutoff)), DayNo(d))
    {
      DayKeyOrder(cutoff, d);
      FromClass(kept, BY_DAY, DayNo(cutoff), BY_DAY, DayNo(d));
    }
  }

  lemma CleanupMonths(monthly: map<string, real>, counted: seq<SpendRecord>, cutoff: Date)
    requires MonthsHold(monthly, counted) && Valid(cutoff)
    ensures MonthsHold(KeepFrom(monthly, MonthKey(cutoff)), From(counted, BY_MONTH, MonthNo(cutoff)))
  {
    NoTotal();
    hide Valid, MonthNo, DayNo, DayKey, MonthKey, OfKey, From, Leq, Total;
    var monthly' := KeepFrom(monthly, MonthKey(cutoff));
    forall d: Date | Valid(d)
      ensures TotalAt(monthly', MonthKey(d)) == Total(InMonth(From(counted, BY_MONTH, MonthNo(cutoff)), MonthNo(d)))
    {
      MonthKeyOrder(cutoff, d);
      FromClass(counted, BY_MONTH, MonthNo(cutoff), BY_MONTH, MonthNo(d));
    }
  }

  lemma EnoughYears(today: Date)
    requires Valid(today) && today.year >= 1970
    ensures DayNo(today) >= 31 * RETENTION_DAYS + 31
  {}

  // ---- The tracker ------------------------------------------------------------------------------

  class SpendTracker {
    const limits: Limits
    var daily: map<string, seq<SpendRecord>>
    var monthly: map<string, real>
    ghost var l: Ledger

    ghost predicate Consistent()
      reads this
    {
      Agree(l) && DaysHold(daily, l.kept) && MonthsHold(monthly, l.counted)
    }

    constructor (limits: Limits)
      ensures Consistent() && l == NO_SPEND && this.limits == limits
    {
      this.limits := limits;
      daily, monthly := map[], map[];
      l := NO_SPEND;
    }

    /** Today's spend is the total of everything recorded with today's date, however much
        cleanup has dropped before. */
    method DailySpend(today: Date) returns (spend: real)
      requires Consistent() && Valid(today)
      ensures spend == Total(OnDay(l.kept, DayNo(today)))
      ensures DayNo(today) >= l.cutDay ==> spend == Total(OnDay(l.history, DayNo(today)))
    {
      NoTotal();
      hide DaysIn, MonthNo, DayNo, DayKey, MonthKey, OfKey, Total, From, Leq;
      spend := 0.0;
      var records := RecordsAt(daily, DayKey(today));
      for i := 0 to |records|
        invariant spend == Total(records[..i])
      {
        TotalAppend(records[..i], records[i]);
        assert records[..i + 1] == records[..i] + [records[i]];
        spend := spend + records[i].amount;
      }
      assert records[..|records|] == records;
    }

    method MonthlySpend(today: Date) returns (spend: real)
      requires Consistent() && Valid(today)
      ensures spend == Total(InMonth(l.counted, MonthNo(today)))
      ensures MonthNo(today) >= l.cutMonth ==> spend == Total(InMonth(l.history, MonthNo(today)))
    {
      spend := TotalAt(monthly, MonthKey(today));
    }

    /** None exactly when the amount fits all three limits; else the first it breaks. */
    method WouldExceedLimits(amount: real, today: Date) returns (e: Option<LimitError>)
      requires Consistent() && Valid(today)
      ensures var day, month := Total(OnDay(l.kept, DayNo(today))), Total(InMonth(l.counted, MonthNo(today)));
        && (e == Some(OverRequest) <==> amount > limits.maxPerRequest)
        && (e == Some(OverDaily) <==> amount <= limits.maxPerRequest && day + amount > limits.maxDaily)
        && (e == None <==> amount <= limits.maxPerRequest && day + amount <= limits.maxDaily
                           && month + amount <= limits.maxMonthly)
    {
      var day := DailySpend(today);
      var month := MonthlySpend(today);
      if amount > limits.maxPerRequest {
        return Some(OverRequest);
      }
      if day + amount > limits.maxDaily {
        return Some(OverDaily);
      }
      if month + amount > limits.maxMonthly {
        return Some(OverMonthly);
      }
      return None;
    }

    method CanAutoApprove(amount: real, today: Date) returns (ok: bool)
      requires Consistent() && Valid(today)
      ensures var day, month := Total(OnDay(l.kept, DayNo(today))), Total(InMonth(l.counted, MonthNo(today)));
        ok <==> (limits.autoApproveEnabled && amount <= limits.autoApproveThreshold && amount <= limits.maxPerRequest
                 && day + amount <= limits.maxDaily && month + amount <= limits.maxMonthly)
    {
      if !limits.autoApproveEnabled || amount > limits.autoApproveThreshold {
        return false;
      }
      var e := WouldExceedLimits(amount, today);
      return e.None?;
    }

    method RecordSpend(r: SpendRecord)
      requires Consistent() && Valid(r.date)
      modifies this
      ensures Consistent() && l == ApplyOp(old(l), Record(r))
    {
      hide DayKey, MonthKey, Agree, DaysHold, MonthsHold;
      var dayKey, monthKey := DayKey(r.date), MonthKey(r.date);
      RecordAgrees(l, r);
      RecordDay(daily, l.kept, r);
      RecordMonth(monthly, l.counted, r);
      daily := daily[dayKey := RecordsAt(daily, dayKey) + [r]];
      monthly := monthly[monthKey := TotalAt(monthly, monthKey) + r.amount];
      l := ApplyOp(l, Record(r));
    }

    /** Drop the days before 30 days ago, and the months before that day's month; today's
        and this month's spend stay as they are. */
    method CleanupOldRecords(today: Date)
      requires Consistent() && Valid(today) && today.year >= 1970
      modifies this
      ensures DayNo(today) >= 31 * 30 + 31 && Consistent() && l == ApplyOp(old(l), Cleanup(MinusDays(today, 30)))
      ensures RecordsAt(daily, DayKey(today)) == old(RecordsAt(daily, DayKey(today)))
      ensures TotalAt(monthly, MonthKey(today)) == old(TotalAt(monthly, MonthKey(today)))
    {
      hide Valid, MinusDays, DayNo, MonthNo, DayKey, MonthKey, Agree, DaysHold, MonthsHold, Leq, From;
      EnoughYears(today);
      var cutoff := MinusDays(today, RETENTION_DAYS);
      var cutoffDay, cutoffMonth := DayKey(cutoff), MonthKey(cutoff);
      CleanupAgrees(l, cutoff);
      CleanupDays(daily, l.kept, cutoff);
      CleanupMonths(monthly, l.counted, cutoff);
      DayKeyOrder(cutoff, today);
      MonthKeyOrder(cutoff, today);
      daily := KeepFrom(daily, cutoffDay);
      monthly := KeepFrom(monthly, cutoffMonth);
      l := ApplyOp(l, Cleanup(cutoff));
    }
  }

  /** Exactly which months cleanup keeps: with this one the previous one, except on a 31st, when
      it keeps this one alone, and at the beginning of March, when it keeps one more. That is
      three months only on the first days of March. */
  lemma CleanupKeepsMonths(l: Ledger, today: Date, m: int)
    requires Agree(l) && Valid(today) && today.year >= 1970
    ensures DayNo(today) >= 31 * 30 + 31
    ensures InMonth(ApplyOp(l, Cleanup(MinusDays(today, 30))).counted, m)
         == if m >= MonthNo(today) - MonthsBack(today) then InMonth(l.counted, m) else []
  {
    EnoughYears(today);
    ThirtyDaysAgo(today, RETENTION_DAYS);
    CleanupMonth(l, MinusDays(today, RETENTION_DAYS), m);
  }
}
