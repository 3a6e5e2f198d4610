/** The historical job queue run by one caller at a time. The queue keeps its
    pending list sorted; the model keeps only the arrival order and always
    starts the best job, and every method is proved to agree with it. */
module JobQueues {
  import opened Options
  import opened Sorting

  datatype Status = Pending | Running | Completed | Failed | Cancelled

  datatype Job = Job(
    id: nat, symbols: seq<string>, priority: int, status: Status, progress: nat, records: nat,
    error: Option<string>, startedAt: Option<int>, completedAt: Option<int>)
  {
    function Started(now: int): Job {
      this.(status := Running, startedAt := Some(now))
    }

    function Progressed(progress: nat, records: nat): Job {
      this.(progress := if progress < 100 then progress else 100, records := records)
    }

    function Ended(success: bool, error: Option<string>, now: int): Job {
      if success then this.(status := Completed, progress := 100, completedAt := Some(now))
      else this.(status := Failed, completedAt := Some(now),
                 error := if error.Some? then error else Some("Unknown error"))
    }
  }

  /** Higher priority first. */
  const BY_PRIORITY: Job -> int := (j: Job) => -j.priority
  const ANYONE: Job -> bool := (j: Job) => true
  function WithId(id: nat): Job -> bool { (j: Job) => j.id == id }

  /** The n most recent elements of s, newest first. */
  function Recent<T>(s: seq<T>, n: nat): (r: seq<T>)
    ensures |r| == if n < |s| then n else |s|
    ensures forall i :: 0 <= i < |r| ==> r[i] == s[|s| - 1 - i]
  {
    if s == [] || n == 0 then [] else [s[|s| - 1]] + Recent(s[..|s| - 1], n - 1)
  }

  lemma RecentStep<T>(s: seq<T>, x: T, n: nat)
    ensures Recent(s + [x], n) == ([x] + Recent(s, n))[..if n <= |s| then n else |s| + 1]
  {}

  /** What pending means: no priority order, only who came, started and was cancelled. */
  datatype Arrivals = Arrivals(
    live: seq<Job>,        // submitted, neither started nor cancelled, in submission order
    submitted: seq<Job>,   // every submission, in order
    started: seq<Job>,     // every started job as it was submitted, in start order
    cancelled: seq<Job>)
  {
    function Arrive(job: Job): Arrivals { this.(live := live + [job], submitted := submitted + [job]) }

    /** The job that arrived first among those of the highest priority starts. */
    function Start(): Arrivals {
      var i := BestIndex(live, BY_PRIORITY, ANYONE);
      if i == -1 then this else this.(live := RemoveAt(live, i), started := started + [live[i]])
    }

    function Drop(id: nat): Arrivals {
      var i := BestIndex(live, BY_PRIORITY, WithId(id));
      if i == -1 then this else this.(live := RemoveAt(live, i), cancelled := cancelled + [live[i]])
    }
  }

  const NO_ARRIVALS := Arrivals([], [], [], [])

  /** What the queue means: arrivals, and no bounded history. */
  datatype QueueState = QueueState(
    arrivals: Arrivals,
    running: seq<Job>,
    finished: seq<Job>)   // every ended job, oldest first
  {
    function Live(): seq<Job> { arrivals.live }
  }

  datatype Op =
    | Submit(job: Job)
    | Next(now: int)
    | Update(id: nat, progress: nat, records: nat)
    | Complete(id: nat, success: bool, error: Option<string>, now: int)
    | Cancel(id: nat)

  const EMPTY := QueueState(NO_ARRIVALS, [], [])

  function Apply(q: QueueState, op: Op, maxConcurrent: nat): QueueState {
    match op
    case Submit(job) => q.(arrivals := q.arrivals.Arrive(job))
    case Next(now) =>
      var i := BestIndex(q.Live(), BY_PRIORITY, ANYONE);
      if |q.running| >= maxConcurrent || i == -1 then q
      else q.(arrivals := q.arrivals.Start(), running := q.running + [q.Live()[i].Started(now)])
    case Update(id, progress, records) =>
      var i := FirstWhere(q.running, WithId(id));
      if i == |q.running| then q
      else q.(running := q.running[i := q.running[i].Progressed(progress, records)])
    case Complete(id, success, error, now) =>
      var i := FirstWhere(q.running, WithId(id));
      if i == |q.running| then q
      else q.(running := RemoveAt(q.running, i),
              finished := q.finished + [q.running[i].Ended(success, error, now)])
    case Cancel(id) => q.(arrivals := q.arrivals.Drop(id))
  }

  function Run(ops: seq<Op>, maxConcurrent: nat): QueueState {
    if ops == [] then EMPTY
    else Apply(Run(ops[..|ops| - 1], maxConcurrent), ops[|ops| - 1], maxConcurrent)
  }

  /** No job stands behind one of a lower priority. */
  ghost predicate HighestFirst(js: seq<Job>) { forall i, j :: 0 <= i < j < |js| ==> js[i].priority >= js[j].priority }

  /** The job at i has the highest priority, and is the first to have it. */
  ghost predicate FirstOfHighest(js: seq<Job>, i: int) {
    && 0 <= i < |js| && (forall j :: j in js ==> j.priority <= js[i].priority)
    && (forall m :: 0 <= m < i ==> js[m].priority < js[i].priority)
  }

  /** The job at i is the first of this id. */
  ghost predicate FirstOfId(js: seq<Job>, id: nat, i: int) {
    0 <= i < |js| && js[i].id == id && forall m :: 0 <= m < i ==> js[m].id != id
  }

  ghost predicate HasNone(js: seq<Job>, id: nat) { forall j :: j in js ==> j.id != id }

  /** What is left of js without its first job of this id, if there is one. */
  ghost predicate WithoutFirst(js: seq<Job>, id: nat, rest: seq<Job>) {
    || (HasNone(js, id) && rest == js)
    || exists i :: FirstOfId(js, id, i) && rest == js[..i] + js[i + 1..]
  }

  /** The first job of this id, if there is one, comes to the head of the history, which keeps
      n jobs, with its final status. */
  ghost predicate Archived(js: seq<Job>, history: seq<Job>, history': seq<Job>, id: nat, success: bool, error: Option<string>, now: int, n: nat) {
    || (HasNone(js, id) && history' == history)
    || exists i :: FirstOfId(js, id, i) && |history'| == (if n <= |history| then n else |history| + 1)
         && (history' != [] ==> EndsAs(js[i], history'[0], success, error, now) && history'[1..] <= history)
  }

  /** All but the first job of this id. */
  function Without(js: seq<Job>, id: nat): seq<Job> {
    var i := FirstWhere(js, WithId(id));
    if i < |js| then js[..i] + js[i + 1..] else js
  }

  lemma FirstOfIdIs(js: seq<Job>, id: nat)
    ensures var i := FirstWhere(js, WithId(id));
      (i == |js| ==> HasNone(js, id)) && (i < |js| ==> FirstOfId(js, id, i))
    ensures WithoutFirst(js, id, Without(js, id))
    ensures forall i :: FirstOfId(js, id, i) ==> i == FirstWhere(js, WithId(id)) && !HasNone(js, id)
  {
    assert forall i :: FirstOfId(js, id, i) ==> js[i] in js;
  }

  lemma EndedIsArchived(js: seq<Job>, history: seq<Job>, id: nat, success: bool, error: Option<string>, now: int, n: nat)
    ensures var i := FirstWhere(js, WithId(id));
      && (i == |js| ==> Archived(js, history, history, id, success, error, now, n))
      && (i < |js| ==>
            var all := [js[i].Ended(success, error, now)] + history;
            Archived(js, history, all[..if n <= |all| then n else |all|], id, success, error, now, n))
  {
    FirstOfIdIs(js, id);
    hide FirstWhere, HasNone, FirstOfId, WithoutFirst;
  }

  class JobQueue {
    var pending: seq<Job>
    var running: seq<Job>
    var completed: seq<Job>
    const maxConcurrent: nat
    const maxHistory: nat
    ghost var q: QueueState

    ghost predicate Valid()
      reads this
    {
      && StableSortOf(pending, q.Live(), BY_PRIORITY)
      && running == q.running
      && completed == Recent(q.finished, maxHistory)
      && |running| <= maxConcurrent
    }

    constructor (maxConcurrent: nat)
      ensures Valid() && q == EMPTY && this.maxConcurrent == maxConcurrent && maxHistory == 100
    {
      pending, running, completed := [], [], [];
      this.maxConcurrent := maxConcurrent;
      maxHistory := 100;
      q := EMPTY;
    }

    /** Insert behind every pending job of the same or a higher priority. */
    method Submit(job: Job) returns (id: nat)
      requires Valid()
      modifies this
      ensures Valid() && id == job.id
      ensures q == Apply(old(q), Op.Submit(job), maxConcurrent)
      ensures exists k :: 0 <= k <= |old(pending)| && pending == old(pending)[..k] + [job] + old(pending)[k..]
                       && (forall m :: 0 <= m < k ==> old(pending)[m].priority >= job.priority)
                       && (forall m :: k <= m < |old(pending)| ==> old(pending)[m].priority < job.priority)
    {
      id := job.id;
      InsertIsStable(pending, q.Live(), BY_PRIORITY, job);
      var pos := Slot(pending, BY_PRIORITY, job);
      pending := pending[..pos] + [job] + pending[pos..];
      q := Apply(q, Op.Submit(job), maxConcurrent);
    }

    /** Start the job that arrived first among those of the highest priority. */
    method Next(now: int) returns (r: Option<Job>)
      requires Valid()
      modifies this
      ensures Valid() && q == Apply(old(q), Op.Next(now), maxConcurrent)
      ensures r.None? <==> |old(running)| == maxConcurrent || old(pending) == []
      ensures r.Some? ==> exists i :: FirstOfHighest(old(q).Live(), i)
                                   && r.value == old(q).Live()[i].(status := Running, startedAt := Some(now))
                                   && running == old(running) + [r.value]
    {
      var runningCount := |running|;
      StartStep(q, pending, now, maxConcurrent);
      hide StableSortOf, Apply, FirstOfHighest, Recent;
      if runningCount >= maxConcurrent {
        return None;
      }
      if pending == [] {
        return None;
      }
      var job := pending[0].Started(now);
      pending := pending[1..];
      running := running + [job];
      q := Apply(q, Op.Next(now), maxConcurrent);
      r := Some(job);
    }

    method Update(id: nat, progress: nat, records: nat)
      requires Valid()
      modifies this
      ensures Valid() && q == Apply(old(q), Op.Update(id, progress, records), maxConcurrent)
      ensures pending == old(pending) && completed == old(completed) && (HasNone(old(running), id) ==> running == old(running))
      ensures forall i :: FirstOfId(old(running), id, i) ==>
        running == old(running)[i := old(running)[i].(progress := if progress < 100 then progress else 100, records := records)]
    {
      FirstOfIdIs(running, id);
      var pos := FirstWhere(running, WithId(id));
      q := Apply(q, Op.Update(id, progress, records), maxConcurrent);
      if pos < |running| {
        running := running[pos := running[pos].Progressed(progress, records)];
      }
    }

    method Complete(id: nat, success: bool, error: Option<string>, now: int)
      requires Valid()
      modifies this
      ensures Valid() && q == Apply(old(q), Op.Complete(id, success, error, now), maxConcurrent)
      ensures pending == old(pending) && WithoutFirst(old(running), id, running)
      ensures Archived(old(running), old(completed), completed, id, success, error, now, maxHistory)
    {
      FirstOfIdIs(running, id);
      CompleteStep(q, id, success, error, now, maxConcurrent, maxHistory);
      EndedIsArchived(running, completed, id, success, error, now, maxHistory);
      var pos := FirstWhere(running, WithId(id));
      ghost var rest := Without(running, id);
      assert if pos < |running| then running[..pos] + running[pos + 1..] == rest else running == rest;
      hide FirstWhere, WithoutFirst, Without, Archived, Apply, StableSortOf, Recent, EndsAs, HasNone, FirstOfId;
      if pos < |running| {
        var job := running[pos].Ended(success, error, now);
        running := running[..pos] + running[pos + 1..];
        completed := [job] + completed;
        TrimHistory();
      }
      q := Apply(q, Op.Complete(id, success, error, now), maxConcurrent);
    }

    /** Drop the oldest entries until the history fits. */
    method TrimHistory()
      modifies this`completed
      ensures completed == old(completed)[..if maxHistory <= |old(completed)| then maxHistory else |old(completed)|]
    {
      while |completed| > maxHistory
        invariant completed <= old(completed)
        invariant |completed| >= maxHistory || completed == old(completed)
      {
        completed := completed[..|completed| - 1];
      }
    }

    /** Cancel the pending job of this id that would have started first. */
    method Cancel(id: nat) returns (found: bool)
      requires Valid()
      modifies this
      ensures Valid() && q == Apply(old(q), Op.Cancel(id), maxConcurrent)
      ensures found <==> !HasNone(old(q).Live(), id)
      ensures running == old(running) && completed == old(completed) && WithoutFirst(old(pending), id, pending)
    {
      FirstOfIdIs(pending, id);
      CancelStep(q, pending, id, maxConcurrent);
      var pos := FirstWhere(pending, WithId(id));
      found := pos < |pending|;
      ghost var rest := Without(pending, id);
      assert if found then pending[..pos] + pending[pos + 1..] == rest else pending == rest;
      hide FirstWhere, HasNone, FirstOfId, WithoutFirst, Without, StableSortOf, Apply, Recent;
      if found {
        pending := pending[..pos] + pending[pos + 1..];
      }
      q := Apply(q, Op.Cancel(id), maxConcurrent);
    }

    /** Pending before running before history, newest history first. */
    method Get(id: nat) returns (r: Option<Job>)
      requires Valid()
      ensures r.None? ==> forall j :: j in q.Live() || j in q.running || j in Recent(q.finished, maxHistory) ==> j.id != id
      ensures r.Some? ==> r.value.id == id
      ensures forall i :: FirstOfId(pending, id, i) ==> r == Some(pending[i])
      ensures forall i :: HasNone(pending, id) && FirstOfId(running, id, i) ==> r == Some(running[i])
      ensures forall i :: HasNone(pending, id) && HasNone(running, id) && FirstOfId(completed, id, i) ==> r == Some(completed[i])
      ensures var i, n, recent := BestIndex(q.Live(), BY_PRIORITY, WithId(id)), FirstWhere(q.running, WithId(id)), Recent(q.finished, maxHistory);
        var c := FirstWhere(recent, WithId(id));
        r == if i != -1 then Some(q.Live()[i]) else if n < |q.running| then Some(q.running[n])
             else if c < |recent| then Some(recent[c]) else None
    {
      CancelOrder(pending, q.Live(), id);
      FirstOfIdIs(pending, id);
      FirstOfIdIs(running, id);
      FirstOfIdIs(completed, id);
      var p := FirstWhere(pending, WithId(id));
      if p < |pending| {
        return Some(pending[p]);
      }
      var n := FirstWhere(running, WithId(id));
      if n < |running| {
        return Some(running[n]);
      }
      var c := FirstWhere(completed, WithId(id));
      if c < |completed| {
        return Some(completed[c]);
      }
      return None;
    }
  }

  /** How a job that ran is kept: with its status and the time, and with the error given or, on a
      failure without one, a standard one. */
  ghost predicate EndsAs(job: Job, ended: Job, success: bool, error: Option<string>, now: int) {
    && ended.id == job.id && ended.symbols == job.symbols && ended.priority == job.priority
    && ended.records == job.records && ended.startedAt == job.startedAt && ended.completedAt == Some(now)
    && ended.status == (if success then Completed else Failed) && ended.progress == (if success then 100 else job.progress)
    && ended.error == (if success then job.error else if error == None then Some("Unknown error") else error)
  }

  lemma BestIsFirstOfHighest(live: seq<Job>)
    ensures var i := BestIndex(live, BY_PRIORITY, ANYONE); i != -1 ==> FirstOfHighest(live, i)
  {
    var i := BestIndex(live, BY_PRIORITY, ANYONE);
    if i != -1 {
      forall j | j in live ensures j.priority <= live[i].priority {
        var m :| 0 <= m < |live| && live[m] == j;
        assert BY_PRIORITY(live[i]) <= BY_PRIORITY(live[m]);
      }
      forall m | 0 <= m < i ensures live[m].priority < live[i].priority {
        assert BY_PRIORITY(live[i]) < BY_PRIORITY(live[m]);
      }
    }
  }

  /** What starting does to the model while the limit allows it. */
  lemma StartStep(q: QueueState, pending: seq<Job>, now: int, maxConcurrent: nat)
    requires StableSortOf(pending, q.Live(), BY_PRIORITY)
    ensures var q' := Apply(q, Next(now), maxConcurrent);
      if |q.running| >= maxConcurrent || pending == [] then q' == q
      else
        && StableSortOf(pending[1..], q'.Live(), BY_PRIORITY) && q'.finished == q.finished
        && q'.running == q.running + [pending[0].Started(now)]
        && pending[0].Started(now) == pending[0].(status := Running, startedAt := Some(now))
        && exists i :: FirstOfHighest(q.Live(), i) && pending[0] == q.Live()[i]
  {
    StartOrder(pending, q.Live());
    BestIsFirstOfHighest(q.Live());
    hide StableSortOf, FirstOfHighest, BestIndex;
  }

  /** What cancelling does to the model. */
  lemma CancelStep(q: QueueState, pending: seq<Job>, id: nat, maxConcurrent: nat)
    requires StableSortOf(pending, q.Live(), BY_PRIORITY)
    ensures var q', pos := Apply(q, Op.Cancel(id), maxConcurrent), FirstWhere(pending, WithId(id));
      && q'.running == q.running && q'.finished == q.finished
      && StableSortOf(Without(pending, id), q'.Live(), BY_PRIORITY)
      && (pos < |pending| <==> !HasNone(q.Live(), id))
  {
    hide StableSortOf, BestIndex, FirstWhere;
    CancelOrder(pending, q.Live(), id);
    FirstOfIdIs(pending, id);
    hide FirstOfId, WithoutFirst;
    assert HasNone(pending, id) <==> HasNone(q.Live(), id);
    hide HasNone;
  }

  /** What completing does to the three lists. */
  lemma CompleteStep(q: QueueState, id: nat, success: bool, error: Option<string>, now: int, maxConcurrent: nat, n: nat)
    ensures var pos, q' := FirstWhere(q.running, WithId(id)), Apply(q, Complete(id, success, error, now), maxConcurrent);
      if pos == |q.running| then q' == q
      else
        && q'.arrivals == q.arrivals
        && q'.running == Without(q.running, id)
        && var recent := [q.running[pos].Ended(success, error, now)] + Recent(q.finished, n);
           Recent(q'.finished, n) == recent[..if n <= |recent| then n else |recent|]
  {
    var pos := FirstWhere(q.running, WithId(id));
    if pos < |q.running| {
      RecentStep(q.finished, q.running[pos].Ended(success, error, now), n);
    }
  }

  /** The head of the sorted list is the job the model starts. */
  lemma StartOrder(pending: seq<Job>, live: seq<Job>)
    requires StableSortOf(pending, live, BY_PRIORITY)
    ensures pending == [] <==> BestIndex(live, BY_PRIORITY, ANYONE) == -1
    ensures pending != [] ==> var i := BestIndex(live, BY_PRIORITY, ANYONE);
      pending[0] == live[i] && StableSortOf(pending[1..], RemoveAt(live, i), BY_PRIORITY)
  {
    SameMembers(pending, live);
    var b := BestIndex(live, BY_PRIORITY, ANYONE);
    if b != -1 {
      assert live[b] in pending;
    }
    if pending != [] {
      var i := TakeFirstIsTakeBest(pending, live, BY_PRIORITY, ANYONE);
      assert FirstWhere(pending, ANYONE) == 0;
      assert RemoveAt(pending, 0) == pending[1..];
      BestUnique(live, BY_PRIORITY, ANYONE, i, b);
    }
  }

  lemma CancelOrder(pending: seq<Job>, live: seq<Job>, id: nat)
    requires StableSortOf(pending, live, BY_PRIORITY)
    ensures forall j :: j in pending <==> j in live
    ensures FirstWhere(pending, WithId(id)) == |pending| <==> BestIndex(live, BY_PRIORITY, WithId(id)) == -1
    ensures var pos, i := FirstWhere(pending, WithId(id)), BestIndex(live, BY_PRIORITY, WithId(id));
      pos < |pending| ==>
        pending[pos] == live[i] && StableSortOf(RemoveAt(pending, pos), RemoveAt(live, i), BY_PRIORITY)
  {
    SameMembers(pending, live);
    var pos, b := FirstWhere(pending, WithId(id)), BestIndex(live, BY_PRIORITY, WithId(id));
    if b != -1 {
      assert live[b] in pending;
    }
    if pos < |pending| {
      var i := TakeFirstIsTakeBest(pending, live, BY_PRIORITY, WithId(id));
      BestUnique(live, BY_PRIORITY, WithId(id), i, b);
    }
  }

  lemma BestUnique<T>(s: seq<T>, key: T -> int, p: T -> bool, i: int, j: int)
    requires Best(s, key, p, i) && (j == -1 ==> forall m :: 0 <= m < |s| ==> !p(s[m]))
    requires j != -1 ==> Best(s, key, p, j)
    ensures i == j
  {}

  lemma SameMembers(pending: seq<Job>, live: seq<Job>)
    requires StableSortOf(pending, live, BY_PRIORITY)
    ensures forall j :: j in pending <==> j in live
  {
    forall j ensures j in pending <==> j in live {
      OfKeyMember(pending, BY_PRIORITY, BY_PRIORITY(j), j);
      OfKeyMember(live, BY_PRIORITY, BY_PRIORITY(j), j);
    }
  }

  /** The pending list is a function of the arrivals: their stable sort. */
  lemma PendingIsTheStableSort(queue: JobQueue)
    requires queue.Valid()
    ensures queue.pending == SortBy(queue.q.Live(), BY_PRIORITY) && HighestFirst(queue.pending)
  {
    HighestFirstIsOrdered(queue.pending);
    SortByIsStableSort(queue.q.Live(), BY_PRIORITY);
    StableSortUnique(queue.pending, SortBy(queue.q.Live(), BY_PRIORITY), BY_PRIORITY);
  }

  lemma HighestFirstIsOrdered(js: seq<Job>)
    ensures HighestFirst(js) <==> Ordered(js, BY_PRIORITY)
  {
    if HighestFirst(js) {
      forall i, j | 0 <= i < j < |js| ensures BY_PRIORITY(js[i]) <= BY_PRIORITY(js[j]) {
        assert js[i].priority >= js[j].priority;
      }
    }
    if Ordered(js, BY_PRIORITY) {
      forall i, j | 0 <= i < j < |js| ensures js[i].priority >= js[j].priority {
        assert BY_PRIORITY(js[i]) <= BY_PRIORITY(js[j]);
      }
    }
  }

  /** a can be obtained from b by leaving elements out. */
  ghost predicate Subsequence<T>(a: seq<T>, b: seq<T>) {
    || a == []
    || (b != [] && ((a[|a| - 1] == b[|b| - 1] && Subsequence(a[..|a| - 1], b[..|b| - 1]))
                    || Subsequence(a, b[..|b| - 1])))
  }

  lemma {:induction false} SubsequenceDrop<T>(a: seq<T>, x: T, b: seq<T>, c: seq<T>)
    requires Subsequence(a + [x] + b, c)
    ensures Subsequence(a + b, c)
    decreases |c|
  {
    var f := a + [x] + b;
    if Subsequence(f, c[..|c| - 1]) {
      SubsequenceDrop(a, x, b, c[..|c| - 1]);
    } else if b == [] {
      assert f[..|f| - 1] == a == a + b;
    } else {
      var n := |b| - 1;
      assert f[..|f| - 1] == a + [x] + b[..n];
      SubsequenceDrop(a, x, b[..n], c[..|c| - 1]);
      assert (a + b)[..|a + b| - 1] == a + b[..n];
    }
  }

  /** The jobs of one priority start in the order they were submitted: those started, followed
      by those still waiting, are the submissions of that priority in order, some left out. */
  ghost predicate FirstComeFirstServed(a: Arrivals) {
    forall k: int ::
      Subsequence(OfKey(a.started, BY_PRIORITY, k) + OfKey(a.live, BY_PRIORITY, k), OfKey(a.submitted, BY_PRIORITY, k))
  }

  /** Every submission has started, waits, or was cancelled. */
  ghost predicate Accounted(a: Arrivals) {
    multiset(a.submitted) == multiset(a.started) + multiset(a.live) + multiset(a.cancelled)
  }

  ghost predicate Fair(a: Arrivals) { FirstComeFirstServed(a) && Accounted(a) }

  lemma NoneBefore(live: seq<Job>, i: int)
    requires Best(live, BY_PRIORITY, ANYONE, i)
    ensures OfKey(live[..i], BY_PRIORITY, BY_PRIORITY(live[i])) == []
  {
    hide OfKey;
    var k := BY_PRIORITY(live[i]);
    var f := OfKey(live[..i], BY_PRIORITY, k);
    if f != [] {
      OfKeyMember(live[..i], BY_PRIORITY, k, f[0]);
    }
  }

  lemma StartKeepsOrder(a: Arrivals, i: int, k: int)
    requires Best(a.live, BY_PRIORITY, ANYONE, i)
    ensures OfKey(a.started + [a.live[i]], BY_PRIORITY, k) + OfKey(RemoveAt(a.live, i), BY_PRIORITY, k)
         == OfKey(a.started, BY_PRIORITY, k) + OfKey(a.live, BY_PRIORITY, k)
  {
    hide OfKey, RemoveAt;
    RemoveFromClass(a.live, i, BY_PRIORITY, k);
    OfKeyAppend(a.started, a.live[i], BY_PRIORITY, k);
    NoneBefore(a.live, i);
    Regroup(OfKey(a.started, BY_PRIORITY, k), OfKey(a.live[..i], BY_PRIORITY, k), a.live[i],
            OfKey(a.live[i + 1..], BY_PRIORITY, k));
  }

  lemma Regroup<T>(s: seq<T>, a: seq<T>, x: T, b: seq<T>)
    ensures s + (a + [x] + b) == (s + a) + [x] + b
    ensures s + (a + [] + b) == (s + a) + b == s + (a + b) == (s + []) + (a + b)
    ensures a == [] ==> (s + [x]) + (a + b) == s + (a + [x] + b)
  {}

  lemma DropKeepsOrder(a: Arrivals, i: nat, k: int)
    requires i < |a.live|
    requires Subsequence(OfKey(a.started, BY_PRIORITY, k) + OfKey(a.live, BY_PRIORITY, k), OfKey(a.submitted, BY_PRIORITY, k))
    ensures Subsequence(OfKey(a.started, BY_PRIORITY, k) + OfKey(RemoveAt(a.live, i), BY_PRIORITY, k),
                        OfKey(a.submitted, BY_PRIORITY, k))
  {
    hide OfKey, RemoveAt, Subsequence;
    RemoveFromClass(a.live, i, BY_PRIORITY, k);
    var s := OfKey(a.started, BY_PRIORITY, k);
    var before, after := OfKey(a.live[..i], BY_PRIORITY, k), OfKey(a.live[i + 1..], BY_PRIORITY, k);
    Regroup(s, before, a.live[i], after);
    if BY_PRIORITY(a.live[i]) == k {
      SubsequenceDrop(s + before, a.live[i], after, OfKey(a.submitted, BY_PRIORITY, k));
    }
  }

  lemma SubsequenceAppend<T>(a: seq<T>, b: seq<T>, x: T)
    requires Subsequence(a, b)
    ensures Subsequence(a + [x], b + [x])
  {
    assert (a + [x])[..|a|] == a && (b + [x])[..|b|] == b;
  }

  lemma ArriveKeepsOrder(a: Arrivals, job: Job, k: int)
    requires Subsequence(OfKey(a.started, BY_PRIORITY, k) + OfKey(a.live, BY_PRIORITY, k), OfKey(a.submitted, BY_PRIORITY, k))
    ensures Subsequence(OfKey(a.started, BY_PRIORITY, k) + OfKey(a.live + [job], BY_PRIORITY, k),
                        OfKey(a.submitted + [job], BY_PRIORITY, k))
  {
    hide OfKey, Subsequence;
    OfKeyAppend(a.live, job, BY_PRIORITY, k);
    OfKeyAppend(a.submitted, job, BY_PRIORITY, k);
    var s, l, b := OfKey(a.started, BY_PRIORITY, k), OfKey(a.live, BY_PRIORITY, k), OfKey(a.submitted, BY_PRIORITY, k);
    assert s + (l + [job]) == (s + l) + [job] && l + [] == l && b + [] == b;
    SubsequenceAppend(s + l, b, job);
  }

  lemma ArriveIsFair(a: Arrivals, job: Job)
    requires Fair(a)
    ensures Fair(a.Arrive(job))
  {
    hide OfKey, Subsequence;
    forall k: int ensures Subsequence(OfKey(a.started, BY_PRIORITY, k) + OfKey(a.live + [job], BY_PRIORITY, k),
                                      OfKey(a.submitted + [job], BY_PRIORITY, k)) {
      ArriveKeepsOrder(a, job, k);
    }
  }

  lemma StartIsFair(a: Arrivals)
    requires Fair(a)
    ensures Fair(a.Start())
  {
    hide OfKey, Subsequence, RemoveAt;
    var i := BestIndex(a.live, BY_PRIORITY, ANYONE);
    if i != -1 {
      RemoveAtMultiset(a.live, i);
      forall k: int ensures Subsequence(OfKey(a.started + [a.live[i]], BY_PRIORITY, k) + OfKey(RemoveAt(a.live, i), BY_PRIORITY, k),
                                        OfKey(a.submitted, BY_PRIORITY, k)) {
        StartKeepsOrder(a, i, k);
      }
    }
  }

  lemma DropIsFair(a: Arrivals, id: nat)
    requires Fair(a)
    ensures Fair(a.Drop(id))
  {
    hide OfKey, Subsequence, RemoveAt;
    var i := BestIndex(a.live, BY_PRIORITY, WithId(id));
    if i != -1 {
      RemoveAtMultiset(a.live, i);
      forall k: int ensures Subsequence(OfKey(a.started, BY_PRIORITY, k) + OfKey(RemoveAt(a.live, i), BY_PRIORITY, k),
                                        OfKey(a.submitted, BY_PRIORITY, k)) {
        DropKeepsOrder(a, i, k);
      }
    }
  }

  /** The life cycle of the jobs in each list. */
  ghost predicate LifeCycle(q: QueueState, maxConcurrent: nat) {
    && |q.running| <= maxConcurrent
    && |q.arrivals.started| == |q.running| + |q.finished|
    && (forall j :: j in q.running ==> j.status == Running && j.startedAt.Some?)
    && (forall j :: j in q.finished ==>
          && j.startedAt.Some? && j.completedAt.Some?
          && (j.status == Completed || j.status == Failed)
          && (j.status == Completed ==> j.progress == 100)
          && (j.status == Failed ==> j.error.Some?))
  }

  /** In every run jobs of equal priority start in the order they came, with only cancelled
      ones left out. */
  lemma {:induction false} RunsAreFair(ops: seq<Op>, maxConcurrent: nat)
    ensures FirstComeFirstServed(Run(ops, maxConcurrent).arrivals)
    ensures Accounted(Run(ops, maxConcurrent).arrivals)
    ensures LifeCycle(Run(ops, maxConcurrent), maxConcurrent)
  {
    if ops != [] {
      var q := Run(ops[..|ops| - 1], maxConcurrent);
      RunsAreFair(ops[..|ops| - 1], maxConcurrent);
      hide FirstComeFirstServed, Accounted;
      StepIsFair(q, ops[|ops| - 1], maxConcurrent);
      StepKeepsLifeCycle(q, ops[|ops| - 1], maxConcurrent);
    }
  }

  lemma StepIsFair(q: QueueState, op: Op, maxConcurrent: nat)
    requires Fair(q.arrivals)
    ensures Fair(Apply(q, op, maxConcurrent).arrivals)
  {
    match op
    case Submit(job) => ArriveIsFair(q.arrivals, job);
    case Next(now) => StartIsFair(q.arrivals);
    case Cancel(id) => DropIsFair(q.arrivals, id);
    case _ =>
  }

  lemma StepKeepsLifeCycle(q: QueueState, op: Op, maxConcurrent: nat)
    requires LifeCycle(q, maxConcurrent)
    ensures LifeCycle(Apply(q, op, maxConcurrent), maxConcurrent)
  {
    if op.Complete? || op.Update? {
      var i := FirstWhere(q.running, WithId(op.id));
      if i < |q.running| {
        assert q.running[i] in q.running;
      }
    }
  }
}
