/** The historical job queue called from many threads at once. Its three lists sit
    under three separate locks; every step below lies between two lock operations. */
module JobQueueLocks {
  import opened Options
  import opened Sorting
  import opened JobQueues

  type Tid = nat

  /** Where a thread stands. Want… waits for a lock; the other states say what is held. */
  datatype Pc =
    | Idle
    | SubmitWant(job: Job) | SubmitHold(job: Job)
    | CountWant | CountHold                       // next: the running count
    | NextWant | NextHold                         // next: pending taken
    | NextMove(job: Job) | NextPush(job: Job)     // next: job in hand, waiting for / holding running
    | NextDone                                    // next: pending still held
    | UpdateWant(id: nat, progress: nat, records: nat) | UpdateHold(id: nat, progress: nat, records: nat)
    | CompleteWant(id: nat, success: bool, error: Option<string>)
    | CompleteHold(id: nat, success: bool, error: Option<string>)
    | CompleteMove(job: Job) | CompletePush(job: Job)
    | CompleteDone                                // complete: running still held
    | CancelWant(id: nat) | CancelHold(id: nat)
    | GetWantPending(id: nat, known: bool) | GetHoldPending(id: nat, known: bool)
    | GetWantRunning(id: nat, known: bool) | GetHoldRunning(id: nat, known: bool)
    | GetWantCompleted(id: nat, known: bool) | GetHoldCompleted(id: nat, known: bool)
    | Got(id: nat, known: bool, result: Option<Job>)
    | StatsWant | StatsPending(p: nat) | StatsRunning(p: nat, r: nat) | StatsAll(p: nat, r: nat, c: nat)
  {
    predicate HoldsPending() {
      SubmitHold? || NextHold? || NextMove? || NextPush? || NextDone? || CancelHold? || GetHoldPending?
      || StatsPending? || StatsRunning? || StatsAll?
    }

    predicate HoldsRunning() {
      CountHold? || NextPush? || UpdateHold? || CompleteHold? || CompleteMove? || CompletePush? || CompleteDone?
      || GetHoldRunning? || StatsRunning? || StatsAll?
    }

    predicate HoldsCompleted() {
      CompletePush? || GetHoldCompleted? || StatsAll?
    }

    predicate WantsPending() { SubmitWant? || NextWant? || CancelWant? || GetWantPending? || StatsWant? }

    predicate WantsRunning() {
      CountWant? || NextMove? || UpdateWant? || CompleteWant? || GetWantRunning? || StatsPending?
    }

    predicate WantsCompleted() { CompleteMove? || GetWantCompleted? || StatsRunning? }

    /** The job popped from pending and not yet in running. */
    function HandP(): Option<Job> {
      match this
      case NextMove(job) => Some(job)
      case NextPush(job) => Some(job)
      case _ => None
    }

    /** The job removed from running and not yet in the history. */
    function HandR(): Option<Job> {
      match this
      case CompleteMove(job) => Some(job)
      case CompletePush(job) => Some(job)
      case _ => None
    }

    predicate Submits() { SubmitWant? || SubmitHold? }

    /** Past the running-count check of `next`, job not yet pushed. */
    predicate PastCheck() { NextWant? || NextHold? || NextMove? || NextPush? }
  }

  datatype Place = InPending | Starting | InRunning | Ending | Finished | Cancelled
  {
    function Rank(): nat {
      match this
      case InPending => 0
      case Starting => 1
      case InRunning => 2
      case Ending => 3
      case Finished => 4
      case Cancelled => 4
    }
  }

  datatype State = State(
    pending: seq<Job>, running: seq<Job>, completed: seq<Job>,
    lockP: Option<Tid>, lockR: Option<Tid>, lockC: Option<Tid>,
    pc: map<Tid, Pc>,
    issued: set<nat>,         // ids handed to submit, returned or not
    place: map<nat, Place>,   // where each submitted job is
    finished: seq<Job>,       // every ended job, oldest first
    arrivals: Arrivals)       // the submissions in the order in which submit had its lock
  {
    function At(t: Tid): Pc { if t in pc then pc[t] else Idle }
    function HandP(): Option<Job> { if lockP.None? then None else At(lockP.value).HandP() }
    function HandR(): Option<Job> { if lockR.None? then None else At(lockR.value).HandR() }

    /** Thread t moves on to p, taking and giving back locks as p says. */
    function Goto(t: Tid, p: Pc): State {
      this.(pc := pc[t := p],
            lockP := Relock(lockP, t, p.HoldsPending()),
            lockR := Relock(lockR, t, p.HoldsRunning()),
            lockC := Relock(lockC, t, p.HoldsCompleted()))
    }
  }

  function Relock(lock: Option<Tid>, t: Tid, holds: bool): Option<Tid> {
    if holds then Some(t) else if lock == Some(t) then None else lock
  }

  datatype Config = Config(maxConcurrent: nat, maxHistory: nat, callers: set<Tid>)

  const INITIAL := State([], [], [], None, None, None, map[], {}, map[], [], NO_ARRIVALS)

  predicate HasId(s: seq<Job>, id: nat) { exists i :: 0 <= i < |s| && s[i].id == id }

  /** A thread may call an operation when it is in none. Ids are fresh (Uuid::new_v4),
      and only the callers of the configuration call `next`. */
  predicate MayCall(c: Config, s: State, t: Tid, call: Pc) {
    && (s.At(t).Idle? || s.At(t).Got?)
    && match call
       case SubmitWant(job) => job.id !in s.issued
       case CountWant => t in c.callers
       case GetWantPending(id, known) => known == (id in s.place)
       case UpdateWant(_, _, _) => true
       case CompleteWant(_, _, _) => true
       case CancelWant(_) => true
       case StatsWant => true
       case _ => false
  }

  function Call(s: State, t: Tid, call: Pc): State {
    s.Goto(t, call).(issued := if call.SubmitWant? then s.issued + {call.job.id} else s.issued)
  }

  predicate MayGo(s: State, t: Tid) {
    && !s.At(t).Idle? && !s.At(t).Got?
    && (s.At(t).WantsPending() ==> s.lockP.None?)
    && (s.At(t).WantsRunning() ==> s.lockR.None?)
    && (s.At(t).WantsCompleted() ==> s.lockC.None?)
  }

  /** Where thread t stands after its next step. */
  function NextPc(c: Config, s: State, p: Pc, now: int): Pc {
    match p
    // submit
    case SubmitWant(job) => SubmitHold(job)
    case SubmitHold(_) => Idle
    // next
    case CountWant => CountHold
    case CountHold => if |s.running| >= c.maxConcurrent then Idle else NextWant
    case NextWant => NextHold
    case NextHold => if s.pending == [] then Idle else NextMove(s.pending[0].Started(now))
    case NextMove(job) => NextPush(job)
    case NextPush(_) => NextDone
    case NextDone => Idle
    // update
    case UpdateWant(id, progress, records) => UpdateHold(id, progress, records)
    case UpdateHold(_, _, _) => Idle
    // complete
    case CompleteWant(id, success, error) => CompleteHold(id, success, error)
    case CompleteHold(id, success, error) =>
      var i := FirstWhere(s.running, WithId(id));
      if i == |s.running| then Idle else CompleteMove(s.running[i].Ended(success, error, now))
    case CompleteMove(job) => CompletePush(job)
    case CompletePush(_) => CompleteDone
    case CompleteDone => Idle
    // cancel
    case CancelWant(id) => CancelHold(id)
    case CancelHold(_) => Idle
    // get
    case GetWantPending(id, known) => GetHoldPending(id, known)
    case GetHoldPending(id, known) => Look(s.pending, id, known, GetWantRunning(id, known))
    case GetWantRunning(id, known) => GetHoldRunning(id, known)
    case GetHoldRunning(id, known) => Look(s.running, id, known, GetWantCompleted(id, known))
    case GetWantCompleted(id, known) => GetHoldCompleted(id, known)
    case GetHoldCompleted(id, known) => Look(s.completed, id, known, Got(id, known, None))
    // stats: each count is read as its lock is taken, and all three are held to the end
    case StatsWant => StatsPending(|s.pending|)
    case StatsPending(n) => StatsRunning(n, |s.running|)
    case StatsRunning(n, r) => StatsAll(n, r, |s.completed|)
    case StatsAll(_, _, _) => Idle
    case Idle => Idle
    case Got(_, _, _) => p
  }

  function Look(list: seq<Job>, id: nat, known: bool, otherwise: Pc): Pc {
    var i := FirstWhere(list, WithId(id));
    if i < |list| then Got(id, known, Some(list[i])) else otherwise
  }

  /** What the step does to the lists, the history and the places. */
  function Effect(c: Config, s: State, p: Pc, now: int): State {
    match p
    case SubmitHold(job) =>
      s.(pending := Insert(s.pending, BY_PRIORITY, job), place := s.place[job.id := InPending],
         arrivals := s.arrivals.Arrive(job))
    case NextHold =>
      if s.pending == [] then s
      else s.(pending := s.pending[1..], place := s.place[s.pending[0].id := Starting], arrivals := s.arrivals.Start())
    case NextPush(job) => s.(running := s.running + [job], place := s.place[job.id := InRunning])
    case UpdateHold(id, progress, records) =>
      var i := FirstWhere(s.running, WithId(id));
      if i == |s.running| then s else s.(running := s.running[i := s.running[i].Progressed(progress, records)])
    case CompleteHold(id, _, _) =>
      var i := FirstWhere(s.running, WithId(id));
      if i == |s.running| then s else s.(running := RemoveAt(s.running, i), place := s.place[id := Ending])
    case CompletePush(job) =>
      var all := [job] + s.completed;
      s.(completed := all[..if c.maxHistory <= |all| then c.maxHistory else |all|],
         finished := s.finished + [job], place := s.place[job.id := Finished])
    case CancelHold(id) =>
      var i := FirstWhere(s.pending, WithId(id));
      if i == |s.pending| then s
      else s.(pending := RemoveAt(s.pending, i), place := s.place[id := Place.Cancelled], arrivals := s.arrivals.Drop(id))
    case _ => s
  }

  function Go(c: Config, s: State, t: Tid, now: int): State
    requires MayGo(s, t)
  {
    Effect(c, s, s.At(t), now).Goto(t, NextPc(c, s, s.At(t), now))
  }

  ghost predicate Step(c: Config, s: State, s': State) {
    || (exists t: Tid, call: Pc :: MayCall(c, s, t, call) && s' == Call(s, t, call))
    || (exists t: Tid, now: int :: MayGo(s, t) && s' == Go(c, s, t, now))
  }

  ghost predicate IsRun(c: Config, run: seq<State>) {
    && run != [] && run[0] == INITIAL
    && forall i :: 0 <= i < |run| - 1 ==> Step(c, run[i], run[i + 1])
  }

  // ---- Invariants -----------------------------------------------------------------

  ghost predicate LocksAt(s: State, t: Tid) {
    && (s.At(t).HoldsPending() <==> s.lockP == Some(t))
    && (s.At(t).HoldsRunning() <==> s.lockR == Some(t))
    && (s.At(t).HoldsCompleted() <==> s.lockC == Some(t))
  }

  /** A lock is held by exactly the thread standing between its acquire and release. */
  ghost predicate Locks(s: State) {
    forall t: Tid :: LocksAt(s, t)
  }

  ghost predicate Distinct(s: seq<Job>) {
    forall i, j :: 0 <= i < j < |s| ==> s[i].id != s[j].id
  }

  ghost predicate Located(s: State, id: nat, p: Place) { id in s.place && s.place[id] == p }

  /** The id is where its place says: in that list, in that hand, or nowhere. */
  ghost predicate PlacedAt(s: State, id: nat) {
    && (HasId(s.pending, id) <==> Located(s, id, InPending))
    && (HasId(s.running, id) <==> Located(s, id, InRunning))
    && (HasId(s.finished, id) <==> Located(s, id, Finished))
    && ((s.HandP().Some? && s.HandP().value.id == id) <==> Located(s, id, Starting))
    && ((s.HandR().Some? && s.HandR().value.id == id) <==> Located(s, id, Ending))
  }

  /** Every submitted id is in exactly one place, and each list holds exactly its own. */
  ghost predicate Placed(c: Config, s: State) {
    && Distinct(s.pending) && Distinct(s.running) && Distinct(s.finished)
    && (forall id: nat :: PlacedAt(s, id))
    && s.completed == Recent(s.finished, c.maxHistory)
  }

  /** The ids of submits under way are issued, distinct and not yet submitted. */
  ghost predicate Fresh(s: State) {
    && s.place.Keys <= s.issued
    && (forall t: Tid {:trigger s.At(t)} :: s.At(t).Submits() ==>
          s.At(t).job.id in s.issued && s.At(t).job.id !in s.place)
    && (forall t: Tid, u: Tid {:trigger s.At(t), s.At(u)} :: t != u && s.At(t).Submits() && s.At(u).Submits() ==>
          s.At(t).job.id != s.At(u).job.id)
  }

  /** Ended, and at least maxHistory jobs have ended since. */
  ghost predicate Evicted(c: Config, s: State, id: nat) {
    exists n :: 0 <= n < |s.finished| && s.finished[n].id == id && |s.finished| - n > c.maxHistory
  }

  /** What a get under way has established about a job known when it began. */
  ghost predicate GetKnows(c: Config, s: State, p: Pc) {
    match p
    case GetWantPending(id, known) => known ==> id in s.place
    case GetHoldPending(id, known) => known ==> id in s.place
    case GetWantRunning(id, known) => known ==> id in s.place && s.place[id].Rank() >= 2
    case GetHoldRunning(id, known) => known ==> id in s.place && s.place[id].Rank() >= 2
    case GetWantCompleted(id, known) => known ==> id in s.place && s.place[id].Rank() >= 4
    case GetHoldCompleted(id, known) => known ==> id in s.place && s.place[id].Rank() >= 4
    case Got(id, known, None) => known ==> Located(s, id, Place.Cancelled) || Evicted(c, s, id)
    case Got(id, known, Some(job)) => job.id == id
    case _ => true
  }

  ghost predicate Gets(c: Config, s: State) {
    forall t: Tid {:trigger s.At(t)} :: GetKnows(c, s, s.At(t))
  }

  ghost predicate CountsAt(s: State, p: Pc) {
    && (p.StatsPending? || p.StatsRunning? || p.StatsAll? ==> p.p == |s.pending|)
    && (p.StatsRunning? || p.StatsAll? ==> p.r == |s.running|)
    && (p.StatsAll? ==> p.c == |s.completed|)
  }

  /** The counts a stats call has read are still the lengths of the lists it holds. */
  ghost predicate Counts(s: State) {
    forall t: Tid {:trigger s.At(t)} :: CountsAt(s, s.At(t))
  }

  function InFlight(s: State): set<Tid> { set t | t in s.pc && s.pc[t].PastCheck() }

  /** Only configured callers are inside `next`, and the limit holds up to the in-flight ones. */
  ghost predicate Bounded(c: Config, s: State) {
    && (forall t: Tid {:trigger s.At(t)} :: s.At(t).CountWant? || s.At(t).CountHold? || s.At(t).PastCheck() ==> t in c.callers)
    && |s.running| + |InFlight(s)| <= c.maxConcurrent + |c.callers| - 1
  }

  /** The pending list is the stable sort of who waits, in the order of arrival. */
  ghost predicate InTurn(s: State) { StableSortOf(s.pending, s.arrivals.live, BY_PRIORITY) && Fair(s.arrivals) }

  ghost predicate Inv(c: Config, s: State) {
    Locks(s) && Placed(c, s) && Fresh(s) && Gets(c, s) && Counts(s) && Bounded(c, s) && InTurn(s)
  }

  // ---- Each step keeps each part ----------------------------------------------------

  lemma Standing(c: Config, s: State, t: Tid, now: int)
    requires MayGo(s, t)
    ensures forall u: Tid :: Go(c, s, t, now).At(u) == if u == t then NextPc(c, s, s.At(t), now) else s.At(u)
  {}

  /** A step holds only locks it held or was waiting for. */
  lemma LocksFollow(c: Config, s: State, p: Pc, now: int)
    requires !p.Idle? && !p.Got?
    ensures var p' := NextPc(c, s, p, now);
      && (p'.HoldsPending() ==> p.HoldsPending() || p.WantsPending())
      && (p'.HoldsRunning() ==> p.HoldsRunning() || p.WantsRunning())
      && (p'.HoldsCompleted() ==> p.HoldsCompleted() || p.WantsCompleted())
  {}

  lemma GoKeepsLocks(c: Config, s: State, t: Tid, now: int)
    requires Locks(s) && MayGo(s, t)
    ensures Locks(Go(c, s, t, now))
  {
    var s' := Go(c, s, t, now);
    Standing(c, s, t, now);
    LocksFollow(c, s, s.At(t), now);
    assert LocksAt(s, t);
    forall u: Tid ensures LocksAt(s', u) {
      assert LocksAt(s, u);
    }
  }

  lemma InsertIds(list: seq<Job>, x: Job)
    requires Distinct(list) && !HasId(list, x.id)
    ensures Distinct(Insert(list, BY_PRIORITY, x))
    ensures forall id: nat :: HasId(Insert(list, BY_PRIORITY, x), id) <==> HasId(list, id) || id == x.id
  {
    InsertIdsAt(list, Slot(list, BY_PRIORITY, x), x);
  }

  lemma InsertIdsAt(list: seq<Job>, i: nat, x: Job)
    requires Distinct(list) && !HasId(list, x.id) && i <= |list|
    ensures Distinct(list[..i] + [x] + list[i..])
    ensures forall id: nat :: HasId(list[..i] + [x] + list[i..], id) <==> HasId(list, id) || id == x.id
  {
    var r := list[..i] + [x] + list[i..];
    assert forall j :: 0 <= j < |r| ==> r[j] == if j < i then list[j] else if j == i then x else list[j - 1];
    forall id: nat ensures HasId(r, id) <==> HasId(list, id) || id == x.id {
      if HasId(list, id) {
        var j :| 0 <= j < |list| && list[j].id == id;
        assert r[if j < i then j else j + 1].id == id;
      }
      assert r[i].id == x.id;
    }
  }

  lemma RemoveIds(list: seq<Job>, i: nat)
    requires Distinct(list) && i < |list|
    ensures Distinct(RemoveAt(list, i))
    ensures forall id: nat :: HasId(RemoveAt(list, i), id) <==> HasId(list, id) && id != list[i].id
  {
    var r := RemoveAt(list, i);
    assert forall j :: 0 <= j < |r| ==> r[j] == if j < i then list[j] else list[j + 1];
    forall id: nat ensures HasId(r, id) <==> HasId(list, id) && id != list[i].id {
      if HasId(list, id) && id != list[i].id {
        var j :| 0 <= j < |list| && list[j].id == id;
        assert r[if j < i then j else j - 1].id == id;
      }
    }
  }

  lemma AppendIds(list: seq<Job>, x: Job)
    requires Distinct(list) && !HasId(list, x.id)
    ensures Distinct(list + [x])
    ensures forall id: nat :: HasId(list + [x], id) <==> HasId(list, id) || id == x.id
  {
    forall id: nat ensures HasId(list + [x], id) <==> HasId(list, id) || id == x.id {
      if HasId(list, id) {
        var j :| 0 <= j < |list| && list[j].id == id;
        assert (list + [x])[j].id == id;
      }
      assert (list + [x])[|list|].id == x.id;
    }
  }

  lemma ReplaceIds(list: seq<Job>, i: nat, x: Job)
    requires i < |list| && x.id == list[i].id
    ensures Distinct(list) ==> Distinct(list[i := x])
    ensures forall id: nat :: HasId(list[i := x], id) <==> HasId(list, id)
  {
    forall id: nat ensures HasId(list[i := x], id) <==> HasId(list, id) {
      if HasId(list, id) {
        var j :| 0 <= j < |list| && list[j].id == id;
        assert list[i := x][j].id == id;
      }
    }
  }

  /** Only the thread that steps can fill or empty a hand. */
  lemma Hands(c: Config, s: State, t: Tid, now: int)
    requires Locks(s) && MayGo(s, t)
    ensures var p, p', s' := s.At(t), NextPc(c, s, s.At(t), now), Go(c, s, t, now);
      && s'.HandP() == (if p.HoldsPending() || p'.HoldsPending() then p'.HandP() else s.HandP())
      && s'.HandR() == (if p.HoldsRunning() || p'.HoldsRunning() then p'.HandR() else s.HandR())
      && (p.HoldsPending() ==> s.HandP() == p.HandP()) && (p.WantsPending() ==> s.HandP() == None)
      && (p.HoldsRunning() ==> s.HandR() == p.HandR()) && (p.WantsRunning() ==> s.HandR() == None)
  {
    Standing(c, s, t, now);
    LocksFollow(c, s, s.At(t), now);
    assert LocksAt(s, t);
    GoKeepsLocks(c, s, t, now);
    assert LocksAt(Go(c, s, t, now), t);
  }

  predicate Found(list: seq<Job>, id: nat) { FirstWhere(list, WithId(id)) < |list| }

  /** Steps that touch no list: the ones that only look, or take or give back locks. */
  predicate Quiet(s: State, p: Pc) {
    match p
    case SubmitHold(_) => false
    case NextHold => s.pending == []
    case NextPush(_) => false
    case UpdateHold(_, _, _) => false
    case CompleteHold(id, _, _) => !Found(s.running, id)
    case CompletePush(_) => false
    case CancelHold(id) => !Found(s.pending, id)
    case _ => true
  }

  lemma QuietHands(c: Config, s: State, p: Pc, now: int)
    requires Quiet(s, p) && !p.Idle? && !p.Got?
    ensures NextPc(c, s, p, now).HandP() == p.HandP() && NextPc(c, s, p, now).HandR() == p.HandR()
    ensures Effect(c, s, p, now) == s
  {}

  lemma QuietKeepsPlaced(c: Config, s: State, t: Tid, now: int)
    requires Locks(s) && Placed(c, s) && MayGo(s, t) && Quiet(s, s.At(t))
    ensures Placed(c, Go(c, s, t, now))
  {
    var s' := Go(c, s, t, now);
    Hands(c, s, t, now);
    QuietHands(c, s, s.At(t), now);
    forall id: nat ensures PlacedAt(s', id) {
      assert PlacedAt(s, id);
    }
  }

  lemma SubmitKeepsPlaced(c: Config, s: State, t: Tid, now: int)
    requires Locks(s) && Placed(c, s) && Fresh(s) && MayGo(s, t) && s.At(t).SubmitHold?
    ensures Placed(c, Go(c, s, t, now))
  {
    Hands(c, s, t, now);
    assert PlacedAt(s, s.At(t).job.id);
    InsertIds(s.pending, s.At(t).job);
    forall id: nat ensures PlacedAt(Go(c, s, t, now), id) {
      assert PlacedAt(s, id);
    }
  }

  lemma PopEffect(c: Config, s: State, t: Tid, now: int)
    requires MayGo(s, t) && s.At(t).NextHold? && s.pending != []
    ensures var s', job := Go(c, s, t, now), s.pending[0];
      && s'.pending == RemoveAt(s.pending, 0) && s'.running == s.running
      && s'.completed == s.completed && s'.finished == s.finished && s'.place == s.place[job.id := Starting]
      && NextPc(c, s, s.At(t), now) == NextMove(job.Started(now))
  {}

  lemma PopKeepsPlaced(c: Config, s: State, t: Tid, now: int)
    requires Locks(s) && Placed(c, s) && MayGo(s, t) && s.At(t).NextHold? && s.pending != []
    ensures Placed(c, Go(c, s, t, now))
  {
    Hands(c, s, t, now);
    PopEffect(c, s, t, now);
    RemoveIds(s.pending, 0);
    hide Go, Effect, NextPc, RemoveAt, Recent;
    forall id: nat ensures PlacedAt(Go(c, s, t, now), id) {
      assert PlacedAt(s, id);
    }
  }

  lemma CancelKeepsPlaced(c: Config, s: State, t: Tid, now: int)
    requires Locks(s) && Placed(c, s) && MayGo(s, t) && s.At(t).CancelHold? && Found(s.pending, s.At(t).id)
    ensures Placed(c, Go(c, s, t, now))
  {
    Hands(c, s, t, now);
    RemoveIds(s.pending, FirstWhere(s.pending, WithId(s.At(t).id)));
    forall id: nat ensures PlacedAt(Go(c, s, t, now), id) {
      assert PlacedAt(s, id);
    }
  }

  lemma PushKeepsPlaced(c: Config, s: State, t: Tid, now: int)
    requires Locks(s) && Placed(c, s) && MayGo(s, t) && s.At(t).NextPush?
    ensures Placed(c, Go(c, s, t, now))
  {
    Hands(c, s, t, now);
    assert PlacedAt(s, s.At(t).job.id);
    AppendIds(s.running, s.At(t).job);
    forall id: nat ensures PlacedAt(Go(c, s, t, now), id) {
      assert PlacedAt(s, id);
    }
  }

  lemma FinishKeepsPlaced(c: Config, s: State, t: Tid, now: int)
    requires Locks(s) && Placed(c, s) && MayGo(s, t) && s.At(t).CompletePush?
    ensures Placed(c, Go(c, s, t, now))
  {
    Hands(c, s, t, now);
    assert PlacedAt(s, s.At(t).job.id);
    AppendIds(s.finished, s.At(t).job);
    RecentStep(s.finished, s.At(t).job, c.maxHistory);
    forall id: nat ensures PlacedAt(Go(c, s, t, now), id) {
      assert PlacedAt(s, id);
    }
  }

  lemma UpdateKeepsPlaced(c: Config, s: State, t: Tid, now: int)
    requires Locks(s) && Placed(c, s) && MayGo(s, t) && s.At(t).UpdateHold?
    ensures Placed(c, Go(c, s, t, now))
  {
    Hands(c, s, t, now);
    var i := FirstWhere(s.running, WithId(s.At(t).id));
    if i < |s.running| {
      ReplaceIds(s.running, i, s.running[i].Progressed(s.At(t).progress, s.At(t).records));
    }
    forall id: nat ensures PlacedAt(Go(c, s, t, now), id) {
      assert PlacedAt(s, id);
    }
  }

  lemma CompleteKeepsPlaced(c: Config, s: State, t: Tid, now: int)
    requires Locks(s) && Placed(c, s) && MayGo(s, t) && s.At(t).CompleteHold? && Found(s.running, s.At(t).id)
    ensures Placed(c, Go(c, s, t, now))
  {
    Hands(c, s, t, now);
    RemoveIds(s.running, FirstWhere(s.running, WithId(s.At(t).id)));
    forall id: nat ensures PlacedAt(Go(c, s, t, now), id) {
      assert PlacedAt(s, id);
    }
  }

  lemma GoKeepsPlaced(c: Config, s: State, t: Tid, now: int)
    requires Locks(s) && Placed(c, s) && Fresh(s) && MayGo(s, t)
    ensures Placed(c, Go(c, s, t, now))
  {
    if Quiet(s, s.At(t)) {
      QuietKeepsPlaced(c, s, t, now);
    } else if s.At(t).SubmitHold? {
      SubmitKeepsPlaced(c, s, t, now);
    } else if s.At(t).NextHold? {
      PopKeepsPlaced(c, s, t, now);
    } else if s.At(t).CancelHold? {
      CancelKeepsPlaced(c, s, t, now);
    } else if s.At(t).NextPush? {
      PushKeepsPlaced(c, s, t, now);
    } else if s.At(t).CompletePush? {
      FinishKeepsPlaced(c, s, t, now);
    } else if s.At(t).UpdateHold? {
      UpdateKeepsPlaced(c, s, t, now);
    } else {
      CompleteKeepsPlaced(c, s, t, now);
    }
  }

  /** The one id a step moves, and where to. */
  function Moved(s: State, p: Pc): Option<(nat, Place)> {
    match p
    case SubmitHold(job) => Some((job.id, InPending))
    case NextHold => if s.pending == [] then None else Some((s.pending[0].id, Starting))
    case NextPush(job) => Some((job.id, InRunning))
    case CompleteHold(id, _, _) => if Found(s.running, id) then Some((id, Ending)) else None
    case CompletePush(job) => Some((job.id, Finished))
    case CancelHold(id) => if Found(s.pending, id) then Some((id, Place.Cancelled)) else None
    case _ => None
  }

  lemma EffectMoves(c: Config, s: State, p: Pc, now: int)
    ensures Effect(c, s, p, now).issued == s.issued
    ensures var m := Moved(s, p);
      Effect(c, s, p, now).place == if m.Some? then s.place[m.value.0 := m.value.1] else s.place
  {}

  /** A step moves a job forward: pending, started, running, ended, finished. */
  lemma MovesForward(c: Config, s: State, t: Tid, now: int)
    requires Locks(s) && Placed(c, s) && MayGo(s, t) && Moved(s, s.At(t)).Some? && !s.At(t).SubmitHold?
    ensures var (id, p) := Moved(s, s.At(t)).value;
      id in s.place && s.place[id].Rank() < p.Rank() && s.place[id] != Place.Cancelled
  {
    var id := Moved(s, s.At(t)).value.0;
    assert PlacedAt(s, id);
    MovedHands(s, t);
    if s.At(t).NextHold? { assert HasId(s.pending, id); }
    hide MayGo, Locks, Distinct;
  }

  /** The moving thread holds its lock, so the hand is its own. */
  lemma MovedHands(s: State, t: Tid)
    requires Locks(s)
    ensures s.At(t).HoldsPending() ==> s.HandP() == s.At(t).HandP()
    ensures s.At(t).HoldsRunning() ==> s.HandR() == s.At(t).HandR()
  {
    assert LocksAt(s, t);
  }

  lemma PlacesAdvance(c: Config, s: State, t: Tid, now: int, id: nat)
    requires Locks(s) && Placed(c, s) && Fresh(s) && MayGo(s, t) && id in s.place
    ensures var s' := Go(c, s, t, now); id in s'.place && s.place[id].Rank() <= s'.place[id].Rank()
    ensures Located(s, id, Place.Cancelled) ==> Located(Go(c, s, t, now), id, Place.Cancelled)
  {
    EffectMoves(c, s, s.At(t), now);
    if Moved(s, s.At(t)).Some? && !s.At(t).SubmitHold? {
      MovesForward(c, s, t, now);
    }
  }

  lemma EvictionStays(c: Config, s: State, t: Tid, now: int, id: nat)
    requires MayGo(s, t) && Evicted(c, s, id)
    ensures Evicted(c, Go(c, s, t, now), id)
  {
    var s' := Go(c, s, t, now);
    assert s.finished <= s'.finished;
    var n :| 0 <= n < |s.finished| && s.finished[n].id == id && |s.finished| - n > c.maxHistory;
    assert s'.finished[n].id == id;
  }

  lemma MissedIsEvicted(c: Config, s: State, id: nat)
    requires Placed(c, s) && Located(s, id, Finished) && !Found(s.completed, id)
    ensures Evicted(c, s, id)
  {
    assert PlacedAt(s, id);
    var n :| 0 <= n < |s.finished| && s.finished[n].id == id;
    forall m | |s.finished| - |s.completed| <= m < |s.finished| ensures s.finished[m].id != id {
      assert s.completed[|s.finished| - 1 - m].id != id;
    }
  }

  /** A lookup under the right lock rules places out. */
  lemma LookupRulesOut(c: Config, s: State, t: Tid, now: int)
    requires Locks(s) && Placed(c, s) && MayGo(s, t)
    requires (s.At(t).GetHoldPending? || s.At(t).GetHoldRunning?) && s.At(t).known && s.At(t).id in s.place
    ensures s.At(t).GetHoldPending? && !Found(s.pending, s.At(t).id) ==> s.place[s.At(t).id].Rank() >= 2
    ensures s.At(t).GetHoldRunning? && !Found(s.running, s.At(t).id) && s.place[s.At(t).id].Rank() >= 2 ==>
      s.place[s.At(t).id].Rank() >= 4
  {
    Hands(c, s, t, now);
    assert PlacedAt(s, s.At(t).id);
  }

  /** What a get looks up, it learns. */
  lemma LookupKnows(c: Config, s: State, t: Tid, now: int)
    requires Locks(s) && Placed(c, s) && MayGo(s, t) && GetKnows(c, s, s.At(t))
    ensures GetKnows(c, s, NextPc(c, s, s.At(t), now))
  {
    match s.At(t) {
      case GetHoldPending(id, known) => if known { LookupRulesOut(c, s, t, now); }
      case GetHoldRunning(id, known) => if known { LookupRulesOut(c, s, t, now); }
      case GetHoldCompleted(id, known) =>
        if known && !Found(s.completed, id) && Located(s, id, Finished) { MissedIsEvicted(c, s, id); }
      case _ =>
    }
  }

  lemma GoKeepsGets(c: Config, s: State, t: Tid, now: int)
    requires Locks(s) && Placed(c, s) && Fresh(s) && Gets(c, s) && MayGo(s, t)
    ensures Gets(c, Go(c, s, t, now))
  {
    var s' := Go(c, s, t, now);
    Standing(c, s, t, now);
    LookupKnows(c, s, t, now);
    hide NextPc;
    forall u: Tid ensures GetKnows(c, s', s'.At(u)) {
      GetKnowsStays(c, s, t, now, s'.At(u));
    }
  }

  lemma GetKnowsStays(c: Config, s: State, t: Tid, now: int, p: Pc)
    requires Locks(s) && Placed(c, s) && Fresh(s) && MayGo(s, t) && GetKnows(c, s, p)
    ensures GetKnows(c, Go(c, s, t, now), p)
  {
    var id := match p
      case GetWantPending(id, _) => id
      case GetHoldPending(id, _) => id
      case GetWantRunning(id, _) => id
      case GetHoldRunning(id, _) => id
      case GetWantCompleted(id, _) => id
      case GetHoldCompleted(id, _) => id
      case Got(id, _, _) => id
      case _ => 0;
    if id in s.place {
      PlacesAdvance(c, s, t, now, id);
    }
    if Evicted(c, s, id) {
      EvictionStays(c, s, t, now, id);
    }
  }

  lemma GoKeepsFresh(c: Config, s: State, t: Tid, now: int)
    requires Locks(s) && Placed(c, s) && Fresh(s) && MayGo(s, t)
    ensures Fresh(Go(c, s, t, now))
  {
    var s' := Go(c, s, t, now);
    Standing(c, s, t, now);
    Hands(c, s, t, now);
    PlaceKeys(c, s, t, now);
  }

  /** Only a submit adds an id to the places. */
  lemma PlaceKeys(c: Config, s: State, t: Tid, now: int)
    requires Locks(s) && Placed(c, s) && MayGo(s, t)
    ensures Go(c, s, t, now).issued == s.issued
    ensures Go(c, s, t, now).place.Keys == s.place.Keys + if s.At(t).SubmitHold? then {s.At(t).job.id} else {}
    ensures var p, p' := s.At(t), NextPc(c, s, s.At(t), now);
      p'.Submits() ==> p.Submits() && p'.job == p.job && !p.SubmitHold?
  {
    EffectMoves(c, s, s.At(t), now);
    if Moved(s, s.At(t)).Some? && !s.At(t).SubmitHold? {
      MovesForward(c, s, t, now);
    }
    SubmitsFollow(c, s, s.At(t), now);
  }

  lemma SubmitsFollow(c: Config, s: State, p: Pc, now: int)
    requires !p.Idle? && !p.Got?
    ensures var p' := NextPc(c, s, p, now); p'.Submits() ==> p.SubmitWant? && p'.job == p.job
  {}

  lemma GoKeepsCounts(c: Config, s: State, t: Tid, now: int)
    requires Locks(s) && Counts(s) && MayGo(s, t)
    ensures Counts(Go(c, s, t, now))
  {
    var s' := Go(c, s, t, now);
    var p := s.At(t);
    Standing(c, s, t, now);
    assert LocksAt(s, t);
    forall u: Tid ensures CountsAt(s', s'.At(u)) {
      assert LocksAt(s, u) && CountsAt(s, s.At(u));
    }
  }

  lemma GoKeepsBounded(c: Config, s: State, t: Tid, now: int)
    requires Bounded(c, s) && MayGo(s, t)
    ensures Bounded(c, Go(c, s, t, now))
  {
    NextFollows(c, s, s.At(t), now);
    Standing(c, s, t, now);
    InFlightCount(c, s, t, now);
    RunningStep(c, s, t, now);
    hide NextPc, Effect, Go, InFlight, MayGo;
    if s.At(t).CountHold? {
      InFlightCallers(c, Go(c, s, t, now));
    }
  }

  lemma InFlightCount(c: Config, s: State, t: Tid, now: int)
    requires MayGo(s, t)
    ensures |InFlight(Go(c, s, t, now))| + Count(s.At(t).PastCheck())
         == |InFlight(s)| + Count(NextPc(c, s, s.At(t), now).PastCheck())
  {
    InFlightStep(c, s, t, now);
    RunningStep(c, s, t, now);
    hide NextPc, Effect, Go, InFlight, MayGo;
    var a := InFlight(s);
    assert t in a ==> a + {t} == a;
    assert t !in a ==> a - {t} == a;
  }

  lemma RunningStep(c: Config, s: State, t: Tid, now: int)
    requires MayGo(s, t)
    ensures Go(c, s, t, now).running == Effect(c, s, s.At(t), now).running
    ensures s.At(t).PastCheck() <==> t in InFlight(s)
  {
    hide NextPc, Effect;
  }

  lemma InFlightStep(c: Config, s: State, t: Tid, now: int)
    requires MayGo(s, t)
    ensures InFlight(Go(c, s, t, now))
         == if NextPc(c, s, s.At(t), now).PastCheck() then InFlight(s) + {t} else InFlight(s) - {t}
  {
    EffectKeepsPcs(c, s, s.At(t), now);
    hide NextPc, Effect;
    var s' := Go(c, s, t, now);
    assert s'.pc == s.pc[t := NextPc(c, s, s.At(t), now)];
  }

  lemma EffectKeepsPcs(c: Config, s: State, p: Pc, now: int)
    ensures Effect(c, s, p, now).pc == s.pc
  {}

  lemma InFlightCallers(c: Config, s: State)
    requires forall t: Tid {:trigger s.At(t)} :: s.At(t).PastCheck() ==> t in c.callers
    ensures |InFlight(s)| <= |c.callers|
  {
    forall u | u in InFlight(s) ensures u in c.callers {
      assert s.At(u) == s.pc[u];
    }
    Subset(InFlight(s), c.callers);
  }

  /** What a step does to the running count and to the number of threads past the check. */
  lemma NextFollows(c: Config, s: State, p: Pc, now: int)
    requires !p.Idle? && !p.Got?
    ensures var p', r := NextPc(c, s, p, now), |Effect(c, s, p, now).running|;
      && (p.NextPush? ==> r == |s.running| + 1 && !p'.PastCheck())
      && (!p.NextPush? ==> r <= |s.running|)
      && (p.CountHold? ==> r == |s.running| && (p'.PastCheck() ==> |s.running| < c.maxConcurrent))
      && (p'.PastCheck() ==> p.CountHold? || p.PastCheck())
      && (p'.CountWant? || p'.CountHold? ==> p.CountWant? || p.CountHold?)
  {}

  lemma {:induction false} Subset(a: set<Tid>, b: set<Tid>)
    requires a <= b
    ensures |a| <= |b|
  {
    if a != {} {
      var x :| x in a;
      Subset(a - {x}, b - {x});
    }
  }

  lemma GoKeepsTurns(c: Config, s: State, t: Tid, now: int)
    requires InTurn(s) && MayGo(s, t)
    ensures InTurn(Go(c, s, t, now))
  {
    PendingEffect(c, s, s.At(t), now);
    hide Effect, NextPc, StableSortOf, Fair;
    match s.At(t) {
      case SubmitHold(job) =>
        InsertIsStable(s.pending, s.arrivals.live, BY_PRIORITY, job);
        ArriveIsFair(s.arrivals, job);
      case NextHold =>
        StartOrder(s.pending, s.arrivals.live);
        StartIsFair(s.arrivals);
      case CancelHold(id) =>
        CancelOrder(s.pending, s.arrivals.live, id);
        DropIsFair(s.arrivals, id);
      case _ =>
    }
  }

  lemma PendingEffect(c: Config, s: State, p: Pc, now: int)
    ensures var s' := Effect(c, s, p, now);
      match p
      case SubmitHold(job) => s'.pending == Insert(s.pending, BY_PRIORITY, job) && s'.arrivals == s.arrivals.Arrive(job)
      case NextHold => s.pending != [] ==> s'.pending == s.pending[1..] && s'.arrivals == s.arrivals.Start()
      case CancelHold(id) => Found(s.pending, id) ==>
        s'.pending == RemoveAt(s.pending, FirstWhere(s.pending, WithId(id))) && s'.arrivals == s.arrivals.Drop(id)
      case _ => true
    ensures Quiet(s, p) || p.NextPush? || p.UpdateHold? || p.CompleteHold? || p.CompletePush? ==>
      Effect(c, s, p, now).pending == s.pending && Effect(c, s, p, now).arrivals == s.arrivals
  {}

  lemma StepKeeps(c: Config, s: State, s': State)
    requires Inv(c, s) && Step(c, s, s')
    ensures Inv(c, s')
  {
    if t: Tid, call: Pc :| MayCall(c, s, t, call) && s' == Call(s, t, call) {
      CallKeeps(c, s, t, call);
    } else {
      var t: Tid, now: int :| MayGo(s, t) && s' == Go(c, s, t, now);
      GoKeepsLocks(c, s, t, now);
      GoKeepsPlaced(c, s, t, now);
      GoKeepsFresh(c, s, t, now);
      GoKeepsGets(c, s, t, now);
      GoKeepsCounts(c, s, t, now);
      GoKeepsBounded(c, s, t, now);
      GoKeepsTurns(c, s, t, now);
    }
  }

  lemma NoHolds(c: Config, s: State, t: Tid, call: Pc)
    requires MayCall(c, s, t, call)
    ensures !call.HoldsPending() && !call.HoldsRunning() && !call.HoldsCompleted()
    ensures !s.At(t).HoldsPending() && !s.At(t).HoldsRunning() && !s.At(t).HoldsCompleted()
  {}

  lemma CallStanding(c: Config, s: State, t: Tid, call: Pc)
    requires Locks(s) && MayCall(c, s, t, call)
    ensures forall u: Tid :: Call(s, t, call).At(u) == if u == t then call else s.At(u)
    ensures Locks(Call(s, t, call))
    ensures Call(s, t, call).HandP() == s.HandP() && Call(s, t, call).HandR() == s.HandR()
  {
    assert LocksAt(s, t);
    NoHolds(c, s, t, call);
    hide MayCall;
    forall u: Tid ensures LocksAt(Call(s, t, call), u) {
      assert LocksAt(s, u);
    }
  }

  lemma CallKeepsPlaced(c: Config, s: State, t: Tid, call: Pc)
    requires Locks(s) && Placed(c, s) && MayCall(c, s, t, call)
    ensures Placed(c, Call(s, t, call))
  {
    CallStanding(c, s, t, call);
    hide MayCall, Recent;
    forall id: nat ensures PlacedAt(Call(s, t, call), id) {
      assert PlacedAt(s, id);
    }
  }

  lemma CallKeepsGets(c: Config, s: State, t: Tid, call: Pc)
    requires Locks(s) && Gets(c, s) && Counts(s) && MayCall(c, s, t, call)
    ensures Gets(c, Call(s, t, call)) && Counts(Call(s, t, call))
  {
    CallStanding(c, s, t, call);
    var s' := Call(s, t, call);
    forall u: Tid ensures CountsAt(s', s'.At(u)) && GetKnows(c, s', s'.At(u)) {
      assert CountsAt(s, s.At(u)) && GetKnows(c, s, s.At(u));
    }
  }

  lemma CallKeepsFresh(c: Config, s: State, t: Tid, call: Pc)
    requires Locks(s) && Fresh(s) && MayCall(c, s, t, call)
    ensures Fresh(Call(s, t, call))
  {
    CallStanding(c, s, t, call);
  }

  lemma CallKeepsBounded(c: Config, s: State, t: Tid, call: Pc)
    requires Locks(s) && Bounded(c, s) && MayCall(c, s, t, call)
    ensures Bounded(c, Call(s, t, call))
  {
    CallStanding(c, s, t, call);
    assert InFlight(Call(s, t, call)) == InFlight(s);
  }

  lemma CallKeeps(c: Config, s: State, t: Tid, call: Pc)
    requires Inv(c, s) && MayCall(c, s, t, call)
    ensures Inv(c, Call(s, t, call))
  {
    CallStanding(c, s, t, call);
    CallKeepsPlaced(c, s, t, call);
    CallKeepsGets(c, s, t, call);
    CallKeepsFresh(c, s, t, call);
    CallKeepsBounded(c, s, t, call);
    hide Locks, Placed, Gets, Counts, Fresh, Bounded, MayCall;
  }

  // ---- Main results: every state of every run -----------------------------------------

  lemma {:induction false} RunInvariant(c: Config, run: seq<State>, i: nat)
    requires IsRun(c, run) && i < |run| && c.callers != {}
    ensures Inv(c, run[i])
  {
    if i == 0 {
      assert Recent(INITIAL.finished, c.maxHistory) == [];
      assert InFlight(INITIAL) == {};
      forall t: Tid ensures LocksAt(INITIAL, t) {}
    } else {
      RunInvariant(c, run, i - 1);
      StepKeeps(c, run[i - 1], run[i]);
    }
  }

  /** A run with some callers of `next` is also one in which thread 0 may call it too. */
  lemma MoreCallers(c: Config, run: seq<State>)
    requires IsRun(c, run)
    ensures IsRun(WithCaller(c), run)
  {
    hide Go, Call, MayGo;
    var d := WithCaller(c);
    forall i | 0 <= i < |run| - 1 ensures Step(d, run[i], run[i + 1]) {
      assert Step(c, run[i], run[i + 1]);
      if t: Tid, call: Pc :| MayCall(c, run[i], t, call) && run[i + 1] == Call(run[i], t, call) {
        assert MayCall(d, run[i], t, call);
      } else {
        var t: Tid, now: int :| MayGo(run[i], t) && run[i + 1] == Go(c, run[i], t, now);
        SameStep(c, run[i], t, now);
      }
    }
  }

  function WithCaller(c: Config): Config { c.(callers := c.callers + {0}) }

  lemma SameStep(c: Config, s: State, t: Tid, now: int)
    requires MayGo(s, t)
    ensures Go(WithCaller(c), s, t, now) == Go(c, s, t, now)
  {}

  /** A get that began after the job was submitted misses it only if the job was
      cancelled, or has ended and been pushed out of the history by later jobs;
      and a get never returns another job. */
  lemma GetFindsSubmitted(c: Config, run: seq<State>, i: nat, t: Tid)
    requires IsRun(c, run) && i < |run| && run[i].At(t).Got?
    ensures var Got(id, known, result) := run[i].At(t);
      && (known && result.None? ==> Located(run[i], id, Place.Cancelled) || Evicted(c, run[i], id))
      && (result.Some? ==> result.value.id == id)
  {
    MoreCallers(c, run);
    RunInvariant(WithCaller(c), run, i);
  }

  function Count(b: bool): nat { if b then 1 else 0 }

  /** Each submitted id is in exactly one of: pending, running, the ended jobs, a move
      under lock, or cancelled; and no id is there twice. */
  lemma ExactlyOnePlace(c: Config, run: seq<State>, i: nat, id: nat)
    requires IsRun(c, run) && i < |run|
    ensures var s := run[i];
      Count(HasId(s.pending, id)) + Count(HasId(s.running, id)) + Count(HasId(s.finished, id))
      + Count(s.HandP().Some? && s.HandP().value.id == id) + Count(s.HandR().Some? && s.HandR().value.id == id)
      + Count(Located(s, id, Place.Cancelled)) == Count(id in s.place)
    ensures Distinct(run[i].pending) && Distinct(run[i].running) && Distinct(run[i].finished)
    ensures run[i].completed == Recent(run[i].finished, c.maxHistory)
  {
    MoreCallers(c, run);
    RunInvariant(WithCaller(c), run, i);
    assert PlacedAt(run[i], id);
  }

  /** In every interleaving the pending list is the stable sort of the jobs that wait, in the
      order in which submit had its lock; jobs of equal priority start in that order; and only
      cancelled ones are left out. */
  lemma EqualPrioritiesTakeTurns(c: Config, run: seq<State>, i: nat)
    requires IsRun(c, run) && i < |run|
    ensures run[i].pending == SortBy(run[i].arrivals.live, BY_PRIORITY)
    ensures forall m, n :: 0 <= m < n < |run[i].pending| ==> run[i].pending[m].priority >= run[i].pending[n].priority
    ensures FirstComeFirstServed(run[i].arrivals) && Accounted(run[i].arrivals)
  {
    MoreCallers(c, run);
    RunInvariant(WithCaller(c), run, i);
    hide FirstComeFirstServed, Accounted, Locks, Placed, Fresh, Gets, Counts, Bounded;
    SortByIsStableSort(run[i].arrivals.live, BY_PRIORITY);
    StableSortUnique(run[i].pending, SortBy(run[i].arrivals.live, BY_PRIORITY), BY_PRIORITY);
    HighestFirstIsOrdered(run[i].pending);
  }

  /** In every interleaving a call of `next` that takes a job takes the one that came first
      among those of the highest priority, of all that wait at that moment. */
  lemma NextTakesTheHighest(c: Config, run: seq<State>, i: nat, t: Tid, now: int)
    requires IsRun(c, run) && i < |run| && MayGo(run[i], t) && run[i].At(t).NextHold?
    ensures var s, live := run[i], run[i].arrivals.live;
      if live == [] then Go(c, s, t, now).At(t) == Idle
      else exists k :: FirstOfHighest(live, k)
             && Go(c, s, t, now).At(t) == NextMove(live[k].(status := Running, startedAt := Some(now)))
  {
    MoreCallers(c, run);
    RunInvariant(WithCaller(c), run, i);
    StartOrder(run[i].pending, run[i].arrivals.live);
    BestIsFirstOfHighest(run[i].arrivals.live);
    Standing(c, run[i], t, now);
    hide Go, MayGo, FirstOfHighest, StableSortOf, Locks, Placed, Fresh, Gets, Counts, Bounded, Effect;
  }

  /** The queue as one caller at a time would have left it. */
  function AsQueue(s: State): QueueState { QueueState(s.arrivals, s.running, s.finished) }

  /** The step under the lock is the whole of submit, update and cancel. */
  lemma StepsAreOperations(c: Config, s: State, p: Pc, now: int)
    requires InTurn(s)
    ensures var q, q' := AsQueue(s), AsQueue(Effect(c, s, p, now));
      match p
      case SubmitHold(job) => q' == Apply(q, Op.Submit(job), c.maxConcurrent)
      case UpdateHold(id, progress, records) => q' == Apply(q, Op.Update(id, progress, records), c.maxConcurrent)
      case CancelHold(id) => q' == Apply(q, Op.Cancel(id), c.maxConcurrent)
      case _ => true
  {
    if p.CancelHold? { CancelOrder(s.pending, s.arrivals.live, p.id); }
    hide StableSortOf, Fair, BestIndex, FirstWhere, RemoveAt, Insert;
  }

  /** Taking a job and pushing it is, with the limit not reached and nothing between, the whole
      of next. */
  lemma NextIsTakeAndPush(c: Config, s: State, now: int)
    requires InTurn(s) && |s.running| < c.maxConcurrent
    ensures var s', p', q' := Effect(c, s, NextHold, now), NextPc(c, s, NextHold, now), Apply(AsQueue(s), Op.Next(now), c.maxConcurrent);
      if p'.NextMove? then AsQueue(Effect(c, s', NextPush(p'.job), now)) == q' else p'.Idle? && AsQueue(s') == q' == AsQueue(s)
  {
    StartOrder(s.pending, s.arrivals.live);
    hide StableSortOf, Fair, BestIndex, RemoveAt;
  }

  /** Removing a job and archiving it is, with nothing between, the whole of complete. */
  lemma CompleteIsRemoveAndArchive(c: Config, s: State, id: nat, success: bool, error: Option<string>, now: int)
    ensures var p := CompleteHold(id, success, error);
      var s', p', q' := Effect(c, s, p, now), NextPc(c, s, p, now), Apply(AsQueue(s), Op.Complete(id, success, error, now), c.maxConcurrent);
      if p'.CompleteMove? then AsQueue(Effect(c, s', CompletePush(p'.job), now)) == q' else p'.Idle? && AsQueue(s') == q' == AsQueue(s)
  {
    hide FirstWhere, RemoveAt;
  }

  /** Nobody is past the check, and nothing has started. */
  ghost predicate NoStarts(c: Config, s: State) {
    && s.running == []
    && forall t: Tid {:trigger s.At(t)} :: !s.At(t).PastCheck() && (s.At(t).CountWant? || s.At(t).CountHold? ==> t in c.callers)
  }

  lemma GoKeepsNoStarts(c: Config, s: State, t: Tid, now: int)
    requires NoStarts(c, s) && MayGo(s, t) && (c.maxConcurrent == 0 || c.callers == {})
    ensures NoStarts(c, Go(c, s, t, now))
  {
    Standing(c, s, t, now);
    NextFollows(c, s, s.At(t), now);
    RunningStep(c, s, t, now);
    hide NextPc, Effect, Go;
  }

  lemma CallKeepsNoStarts(c: Config, s: State, t: Tid, call: Pc)
    requires NoStarts(c, s) && MayCall(c, s, t, call)
    ensures NoStarts(c, Call(s, t, call))
  {
    assert forall u: Tid :: Call(s, t, call).At(u) == if u == t then call else s.At(u);
  }

  lemma StepKeepsNoStarts(c: Config, s: State, s': State)
    requires NoStarts(c, s) && Step(c, s, s') && (c.maxConcurrent == 0 || c.callers == {})
    ensures NoStarts(c, s')
  {
    hide NoStarts, Go, Call, MayGo, MayCall;
    if t: Tid, call: Pc :| MayCall(c, s, t, call) && s' == Call(s, t, call) {
      CallKeepsNoStarts(c, s, t, call);
    } else {
      var t: Tid, now: int :| MayGo(s, t) && s' == Go(c, s, t, now);
      GoKeepsNoStarts(c, s, t, now);
    }
  }

  lemma {:induction false} NothingEverStarts(c: Config, run: seq<State>, i: nat)
    requires IsRun(c, run) && i < |run| && (c.maxConcurrent == 0 || c.callers == {})
    ensures NoStarts(c, run[i])
  {
    if i > 0 {
      NothingEverStarts(c, run, i - 1);
      StepKeepsNoStarts(c, run[i - 1], run[i]);
    }
  }

  /** N callers of `next` can overrun the limit, by at most N - 1; with a limit of zero, or with
      no callers, nothing ever runs. */
  lemma RunningBound(c: Config, run: seq<State>, i: nat)
    requires IsRun(c, run) && i < |run|
    ensures c.callers != {} && c.maxConcurrent >= 1 ==> |run[i].running| <= c.maxConcurrent + |c.callers| - 1
    ensures c.callers == {} || c.maxConcurrent == 0 ==> run[i].running == []
  {
    hide IsRun;
    if c.callers != {} && c.maxConcurrent >= 1 {
      RunInvariant(c, run, i);
    } else {
      NothingEverStarts(c, run, i);
    }
  }

  /** The three counts of `stats` are one consistent snapshot: no job is between lists. */
  lemma StatsIsASnapshot(c: Config, run: seq<State>, i: nat, t: Tid)
    requires IsRun(c, run) && i < |run| && run[i].At(t).StatsAll?
    ensures var StatsAll(p, r, k) := run[i].At(t);
      p == |run[i].pending| && r == |run[i].running| && k == |run[i].completed|
    ensures forall id :: id in run[i].place ==>
      HasId(run[i].pending, id) || HasId(run[i].running, id) || HasId(run[i].finished, id) || Located(run[i], id, Place.Cancelled)
  {
    MoreCallers(c, run);
    RunInvariant(WithCaller(c), run, i);
    assert LocksAt(run[i], t) && CountsAt(run[i], run[i].At(t));
    forall id | id in run[i].place
      ensures HasId(run[i].pending, id) || HasId(run[i].running, id) || HasId(run[i].finished, id)
           || Located(run[i], id, Place.Cancelled)
    {
      assert PlacedAt(run[i], id);
    }
  }

  /** No deadlock: while some call is under way, some thread can take its next step. */
  lemma NoDeadlock(c: Config, run: seq<State>, i: nat, t: Tid) returns (u: Tid)
    requires IsRun(c, run) && i < |run|
    requires !run[i].At(t).Idle? && !run[i].At(t).Got?
    ensures MayGo(run[i], u)
  {
    MoreCallers(c, run);
    RunInvariant(WithCaller(c), run, i);
    var s := run[i];
    u := if s.lockC.Some? then s.lockC.value else if s.lockR.Some? then s.lockR.value
         else if s.lockP.Some? then s.lockP.value else t;
    assert LocksAt(s, u);
  }

  // ---- The bound is reached ------------------------------------------------------------

  ghost predicate Reachable(c: Config, s: State) {
    exists run :: IsRun(c, run) && run[|run| - 1] == s
  }

  lemma Extend(c: Config, s: State, s': State)
    requires Reachable(c, s) && Step(c, s, s')
    ensures Reachable(c, s')
  {
    var run :| IsRun(c, run) && run[|run| - 1] == s;
    assert IsRun(c, run + [s']);
  }

  lemma Take(c: Config, s: State, t: Tid) returns (s': State)
    requires Reachable(c, s) && MayGo(s, t)
    ensures s' == Go(c, s, t, 0) && Reachable(c, s')
  {
    s' := Go(c, s, t, 0);
    assert Step(c, s, s');
    Extend(c, s, s');
  }

  lemma Begin(c: Config, s: State, t: Tid, call: Pc) returns (s': State)
    requires Reachable(c, s) && MayCall(c, s, t, call)
    ensures s' == Call(s, t, call) && Reachable(c, s')
  {
    s' := Call(s, t, call);
    assert Step(c, s, s');
    Extend(c, s, s');
  }

  /** No lock held, the threads of w past the check of `next`, all others idle. */
  ghost predicate Shape(c: Config, s: State, w: set<Tid>, running: nat, pending: nat) {
    && Reachable(c, s)
    && s.lockP.None? && s.lockR.None? && s.lockC.None?
    && (forall t: Tid :: s.At(t) == if t in w then NextWant else Idle)
    && |s.running| == running && |s.pending| == pending
  }

  lemma {:induction false} FreshId(ids: set<nat>) returns (n: nat)
    ensures forall i :: i in ids ==> i < n
  {
    if ids == {} {
      n := 0;
    } else {
      var i :| i in ids;
      var m := FreshId(ids - {i});
      n := if m <= i then i + 1 else m;
      assert forall j :: j in ids ==> j == i || j in ids - {i};
    }
  }

  lemma SubmitOne(c: Config, s: State, r: nat, p: nat) returns (s': State)
    requires Shape(c, s, {}, r, p)
    ensures Shape(c, s', {}, r, p + 1)
  {
    var id := FreshId(s.issued);
    var job := Job(id, [], 0, Pending, 0, 0, None, None, None);
    s' := Begin(c, s, 0, SubmitWant(job));
    assert s'.At(0) == SubmitWant(job) && forall t: Tid :: t != 0 ==> s'.At(t) == s.At(t);
    var h := Take(c, s', 0);
    Standing(c, s', 0, 0);
    s' := FinishSubmit(c, h, job);
  }

  lemma FinishSubmit(c: Config, s: State, job: Job) returns (s': State)
    requires Reachable(c, s) && s.lockP == Some(0) && s.lockR.None? && s.lockC.None?
    requires forall t: Tid :: s.At(t) == if t == 0 then SubmitHold(job) else Idle
    ensures Shape(c, s', {}, |s.running|, |s.pending| + 1)
  {
    s' := Take(c, s, 0);
    Standing(c, s, 0, 0);
  }

  lemma CheckOne(c: Config, s: State, w: set<Tid>, r: nat, p: nat, t: Tid) returns (s': State)
    requires Shape(c, s, w, r, p) && t in c.callers && t !in w && r < c.maxConcurrent
    ensures Shape(c, s', w + {t}, r, p)
  {
    hide Insert, FirstWhere, Look, BestIndex, Found, RemoveAt, WithId;
    s' := Begin(c, s, t, CountWant);
    s' := Take(c, s', t);
    s' := Take(c, s', t);
  }

  lemma StartOne(c: Config, s: State, w: set<Tid>, r: nat, p: nat, t: Tid) returns (s': State)
    requires Shape(c, s, w, r, p) && t in w && p > 0
    ensures Shape(c, s', w - {t}, r + 1, p - 1)
  {
    hide Insert, FirstWhere, Look, BestIndex, Found, RemoveAt, WithId;
    s' := Take(c, s, t);
    s' := Take(c, s', t);
    s' := PushOne(c, s', w, r, p - 1, t);
  }

  lemma PushOne(c: Config, s: State, w: set<Tid>, r: nat, p: nat, t: Tid) returns (s': State)
    requires Reachable(c, s) && s.lockP == Some(t) && s.lockR.None? && s.lockC.None?
    requires s.At(t).NextMove? && forall u: Tid :: u != t ==> s.At(u) == if u in w then NextWant else Idle
    requires |s.running| == r && |s.pending| == p
    ensures Shape(c, s', w - {t}, r + 1, p)
  {
    hide Insert, FirstWhere, Look, BestIndex, Found, RemoveAt, WithId;
    s' := Take(c, s, t);
    s' := Take(c, s', t);
    s' := Take(c, s', t);
  }

  lemma {:induction false} CheckAll(c: Config, s: State, w: set<Tid>, todo: set<Tid>, r: nat, p: nat) returns (s': State)
    requires Shape(c, s, w, r, p) && todo <= c.callers && todo !! w && r < c.maxConcurrent
    ensures Shape(c, s', w + todo, r, p)
    decreases todo
  {
    hide Shape;
    s' := s;
    if todo == {} {
      assert w + todo == w;
    } else {
      var t :| t in todo;
      s' := CheckOne(c, s, w, r, p, t);
      s' := CheckAll(c, s', w + {t}, todo - {t}, r, p);
      assert w + {t} + (todo - {t}) == w + todo;
    }
  }

  lemma {:induction false} StartAll(c: Config, s: State, w: set<Tid>, r: nat, p: nat) returns (s': State)
    requires Shape(c, s, w, r, p) && |w| <= p
    ensures Shape(c, s', {}, r + |w|, p - |w|)
    decreases w
  {
    s' := s;
    if w != {} {
      var t :| t in w;
      s' := StartOne(c, s, w, r, p, t);
      s' := StartAll(c, s', w - {t}, r + 1, p - 1);
    }
  }

  lemma SubmitMany(c: Config, n: nat) returns (s: State)
    ensures Shape(c, s, {}, 0, n)
  {
    s := INITIAL;
    assert IsRun(c, [INITIAL]);
    assert Shape(c, s, {}, 0, 0);
    hide Shape;
    for k := 0 to n
      invariant Shape(c, s, {}, 0, k)
    {
      s := SubmitOne(c, s, 0, k);
    }
  }

  /** One caller fills all but one place. */
  lemma FillUp(c: Config, s0: State, t: Tid, n: nat) returns (s: State)
    requires Shape(c, s0, {}, 0, n) && t in c.callers && 1 <= c.maxConcurrent <= n + 1
    ensures Shape(c, s, {}, c.maxConcurrent - 1, n - (c.maxConcurrent - 1))
  {
    hide Shape;
    s := s0;
    for k := 0 to c.maxConcurrent - 1
      invariant Shape(c, s, {}, k, n - k)
    {
      s := CheckOne(c, s, {}, k, n - k, t);
      s := StartOne(c, s, {} + {t}, k, n - k, t);
      assert {} + {t} - {t} == {};
    }
  }

  /** For every other limit and every set of callers some run reaches limit + N - 1. */
  lemma BoundIsReached(c: Config) returns (s: State)
    requires c.callers != {} && c.maxConcurrent >= 1
    ensures Reachable(c, s) && |s.running| == c.maxConcurrent + |c.callers| - 1
  {
    hide Reachable, Shape;
    var t :| t in c.callers;
    var n := c.maxConcurrent + |c.callers| - 1;
    s := SubmitMany(c, n);
    s := FillUp(c, s, t, n);
    s := CheckAll(c, s, {}, c.callers, c.maxConcurrent - 1, |c.callers|);
    assert {} + c.callers == c.callers;
    s := StartAll(c, s, c.callers, c.maxConcurrent - 1, |c.callers|);
    ShapeSays(c, s, {}, n, 0);
  }

  lemma ShapeSays(c: Config, s: State, w: set<Tid>, running: nat, pending: nat)
    requires Shape(c, s, w, running, pending)
    ensures Reachable(c, s) && |s.running| == running
  {}
}
