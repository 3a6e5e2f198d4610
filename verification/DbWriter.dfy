/** The batching writer: a loop that takes ticks off a channel, collects them in a batch and
    flushes it when it is full, when time is up and when the channel closes. */
module DbWriting {
  import opened Options

  // ---- The write loop ------------------------------------------------------------------------------------------------

  /** What inserting a batch gives: the rows written (duplicates are skipped), or an error. */
  datatype Insert = Written(rows: nat) | Failed

  /** What the loop's select may deliver, with the result of the insert if there is a flush. */
  datatype Outcome<T> =
    | Received(tick: T, insert: Insert)
    | ChannelClosed(insert: Insert)
    | TimeUp(running: bool, insert: Insert)

  datatype Exit = ByClose | ByStop

  datatype Loop<T> = Loop(
    taken: seq<T>,             // everything taken off the channel, in order
    flushed: seq<seq<T>>,      // the batches flushed
    batch: seq<T>,
    written: nat, dropped: nat, batchWrites: nat,
    exit: Option<Exit>)

  function Fresh<T>(): Loop<T> { Loop([], [], [], 0, 0, 0, None) }

  /** Rows written never exceed the batch. */
  predicate Plausible(insert: Insert, n: nat) { insert.Written? ==> insert.rows <= n }

  function Flush<T>(s: Loop<T>, insert: Insert): Loop<T> {
    if s.batch == [] then s
    else
      var s' := s.(flushed := s.flushed + [s.batch], batch := []);
      match insert
      case Written(rows) => s'.(written := s.written + rows, batchWrites := s.batchWrites + 1)
      case Failed => s'.(dropped := s.dropped + |s.batch|)
  }

  function Step<T>(s: Loop<T>, o: Outcome<T>, batchSize: nat): Loop<T> {
    match o
    case Received(tick, insert) =>
      var s' := s.(taken := s.taken + [tick], batch := s.batch + [tick]);
      if |s'.batch| >= batchSize then Flush(s', insert) else s'
    case ChannelClosed(insert) => Flush(s, insert).(exit := Some(ByClose))
    case TimeUp(running, insert) => Flush(s, insert).(exit := if running then None else Some(ByStop))
  }

  /** The size of the batch a step would flush. */
  function ToFlush<T>(s: Loop<T>, o: Outcome<T>): nat { if o.Received? then |s.batch| + 1 else |s.batch| }

  function Concat<T>(bs: seq<seq<T>>): seq<T> {
    if bs == [] then [] else Concat(bs[..|bs| - 1]) + bs[|bs| - 1]
  }

  function Full(batchSize: nat): nat { if batchSize < 1 then 1 else batchSize }

  ghost predicate Inv<T>(s: Loop<T>, batchSize: nat) {
    && Concat(s.flushed) + s.batch == s.taken
    && |s.batch| < Full(batchSize)
    && (forall i :: 0 <= i < |s.flushed| ==> 1 <= |s.flushed[i]| <= Full(batchSize))
    && s.batchWrites <= |s.flushed|
    && (s.exit.Some? ==> s.batch == [])
  }

  lemma ConcatAppend<T>(bs: seq<seq<T>>, b: seq<T>)
    ensures Concat(bs + [b]) == Concat(bs) + b
  {
    assert (bs + [b])[..|bs|] == bs;
  }

  /** Each step keeps: the flushed batches and then the current one are the ticks taken, in
      order; the batch is shorter than max(1, batch size), and empty on every exit. */
  lemma StepKeepsInv<T>(s: Loop<T>, o: Outcome<T>, batchSize: nat)
    requires Inv(s, batchSize) && s.exit == None
    ensures Inv(Step(s, o, batchSize), batchSize)
  {
    hide Concat;
    if o.Received? {
      var s' := s.(taken := s.taken + [o.tick], batch := s.batch + [o.tick]);
      assert Concat(s.flushed) + s'.batch == s.taken + [o.tick];
      ConcatAppend(s.flushed, s'.batch);
    } else {
      ConcatAppend(s.flushed, s.batch);
      assert s.batch == [] ==> Concat(s.flushed) + [] == s.taken;
    }
  }

  /** A flushed tick is written, a duplicate or dropped. */
  lemma StepCounts<T>(s: Loop<T>, o: Outcome<T>, batchSize: nat, duplicates: nat)
    requires Plausible(o.insert, ToFlush(s, o))
    requires |Concat(s.flushed)| == s.written + duplicates + s.dropped
    ensures var s' := Step(s, o, batchSize);
      var flushes := |s'.flushed| > |s.flushed|;
      var more := if flushes && o.insert.Written? then ToFlush(s, o) - o.insert.rows else 0;
      && more >= 0
      && |Concat(s'.flushed)| == s'.written + (duplicates + more) + s'.dropped
  {
    hide Concat;
    if o.Received? {
      ConcatAppend(s.flushed, s.batch + [o.tick]);
    } else {
      ConcatAppend(s.flushed, s.batch);
    }
  }

  /** What each turn flushes: a tick is flushed with its batch exactly when that is full; the end
      of the channel and the end of the wait flush whatever there is, and the wait ends the loop
      only once it is to stop. */
  lemma TurnsMean<T>(s: Loop<T>, o: Outcome<T>, batchSize: nat)
    ensures var s' := Step(s, o, batchSize);
      var n := if o.Received? then |s.batch| + 1 else |s.batch|;
      var flushes := n > 0 && (o.Received? ==> n >= batchSize);
      && s'.taken == s.taken + (if o.Received? then [o.tick] else [])
      && s'.flushed == s.flushed + (if !flushes then [] else if o.Received? then [s.batch + [o.tick]] else [s.batch])
      && s'.batch == (if flushes then [] else if o.Received? then s.batch + [o.tick] else s.batch)
      && s'.written == s.written + (if flushes && o.insert.Written? then o.insert.rows else 0)
      && s'.dropped == s.dropped + (if flushes && o.insert.Failed? then n else 0)
      && s'.batchWrites == s.batchWrites + (if flushes && o.insert.Written? then 1 else 0)
      && (o.Received? ==> s'.exit == s.exit) && (o.ChannelClosed? ==> s'.exit == Some(ByClose))
      && (o.TimeUp? ==> s'.exit == if o.running then None else Some(ByStop))
  {
    assert s.taken + [] == s.taken && s.flushed + [] == s.flushed;
  }

  // ---- The loop between senders and a stopping caller -----------------------------------------------------------------

  datatype World<T> = World(
    sent: seq<T>, channel: seq<T>, closed: bool, running: bool, duplicates: nat, loop: Loop<T>)

  datatype Event<T> =
    | Send(tick: T)            // some sender, while one is left
    | Close                    // the last sender is dropped
    | Stop                     // the running flag is cleared
    | Select(o: Outcome<T>)    // one turn of the loop

  /** Receiving needs a queued tick; None arrives only once closed and empty; the timeout can
      win at any time. */
  predicate Enabled<T(==)>(w: World<T>, e: Event<T>) {
    match e
    case Send(_) => !w.closed && w.loop.exit == None
    case Close => !w.closed
    case Stop => true
    case Select(o) =>
      w.loop.exit == None && Plausible(o.insert, ToFlush(w.loop, o)) &&
      match o
      case Received(tick, _) => w.channel != [] && w.channel[0] == tick
      case ChannelClosed(_) => w.closed && w.channel == []
      case TimeUp(running, _) => running == w.running
  }

  function Next<T>(w: World<T>, e: Event<T>, batchSize: nat): World<T> {
    match e
    case Send(tick) => w.(sent := w.sent + [tick], channel := w.channel + [tick])
    case Close => w.(closed := true)
    case Stop => w.(running := false)
    case Select(o) =>
      var loop := Step(w.loop, o, batchSize);
      w.(loop := loop,
         channel := if o.Received? && w.channel != [] then w.channel[1..] else w.channel,
         duplicates := w.duplicates +
           if |loop.flushed| > |w.loop.flushed| && o.insert.Written? && o.insert.rows <= ToFlush(w.loop, o)
           then ToFlush(w.loop, o) - o.insert.rows else 0)
  }

  function Begin<T>(): World<T> { World([], [], false, true, 0, Fresh()) }

  /** The events take w through these states. */
  ghost predicate Leads<T(!new)>(w: World<T>, run: seq<World<T>>, events: seq<Event<T>>, batchSize: nat) {
    && |run| == |events| + 1 && run[0] == w
    && forall i :: 0 <= i < |events| ==> Enabled(run[i], events[i]) && run[i + 1] == Next(run[i], events[i], batchSize)
  }

  ghost predicate IsRun<T(!new)>(run: seq<World<T>>, events: seq<Event<T>>, batchSize: nat) {
    Leads(Begin(), run, events, batchSize)
  }

  ghost predicate WorldInv<T>(w: World<T>, batchSize: nat) {
    && Inv(w.loop, batchSize) && w.sent == w.loop.taken + w.channel
    && |Concat(w.loop.flushed)| == w.loop.written + w.duplicates + w.loop.dropped
    && (w.loop.exit == Some(ByClose) ==> w.closed && w.channel == [])
    && (w.loop.exit == Some(ByStop) ==> !w.running)
  }

  lemma NextKeepsInv<T>(w: World<T>, e: Event<T>, batchSize: nat)
    requires WorldInv(w, batchSize) && Enabled(w, e)
    ensures WorldInv(Next(w, e, batchSize), batchSize)
  {
    hide Concat, Inv, Step;
    match e {
      case Select(o) =>
        StepKeepsInv(w.loop, o, batchSize);
        StepCounts(w.loop, o, batchSize, w.duplicates);
        StepTakes(w.loop, o, batchSize);
        if o.Received? { assert w.channel == [o.tick] + w.channel[1..]; }
      case _ =>
    }
  }

  lemma StepTakes<T>(s: Loop<T>, o: Outcome<T>, batchSize: nat)
    requires s.exit == None
    ensures Step(s, o, batchSize).taken == s.taken + if o.Received? then [o.tick] else []
    ensures Step(s, o, batchSize).exit == match o
      case Received(_, _) => None
      case ChannelClosed(_) => Some(ByClose)
      case TimeUp(running, _) => if running then None else Some(ByStop)
  {
    assert s.taken + [] == s.taken;
  }

  lemma {:induction false} LeadsKeepsInv<T(!new)>(w: World<T>, run: seq<World<T>>, events: seq<Event<T>>, batchSize: nat, i: nat)
    requires WorldInv(w, batchSize) && Leads(w, run, events, batchSize) && i < |run|
    ensures WorldInv(run[i], batchSize)
  {
    if i > 0 {
      LeadsKeepsInv(w, run, events, batchSize, i - 1);
      NextKeepsInv(run[i - 1], events[i - 1], batchSize);
    }
  }

  lemma RunInvariant<T(!new)>(run: seq<World<T>>, events: seq<Event<T>>, batchSize: nat, i: nat)
    requires IsRun(run, events, batchSize) && i < |run|
    ensures WorldInv(run[i], batchSize)
  {
    LeadsKeepsInv(Begin(), run, events, batchSize, i);
  }

  /** At every point of every run the flushed batches, the current batch and the channel are
      exactly the ticks sent, in order; each flushed tick is accounted for; and a loop that
      ended has flushed all ticks sent exactly when the channel was left empty, which it is
      when the loop ended because the channel closed. */
  lemma NothingIsLostOrReordered<T(!new)>(run: seq<World<T>>, events: seq<Event<T>>, batchSize: nat, i: nat)
    requires IsRun(run, events, batchSize) && i < |run|
    ensures var w := run[i];
      && Concat(w.loop.flushed) + w.loop.batch + w.channel == w.sent
      && |Concat(w.loop.flushed)| == w.loop.written + w.duplicates + w.loop.dropped
      && |w.loop.batch| < (if batchSize < 1 then 1 else batchSize)
      && (w.loop.exit.Some? ==> (Concat(w.loop.flushed) == w.sent <==> w.channel == []))
      && (w.loop.exit == Some(ByClose) ==> Concat(w.loop.flushed) == w.sent)
  {
    RunInvariant(run, events, batchSize, i);
    EndsFlushed(run[i], batchSize);
    hide Concat;
    assert run[i].channel == [] ==> run[i].sent + [] == run[i].loop.taken;
  }

  // ---- What a stop is sure to flush ---------------------------------------------------------------------------------------

  /** No sender is left and nothing is queued. */
  predicate Drained<T(==)>(w: World<T>) { w.closed && w.channel == [] }

  lemma {:induction false} DrainedStays<T(!new)>(w: World<T>, run: seq<World<T>>, events: seq<Event<T>>, batchSize: nat, i: nat)
    requires Drained(w) && Leads(w, run, events, batchSize) && i < |run|
    ensures Drained(run[i])
  {
    hide Step;
    if i > 0 {
      DrainedStays(w, run, events, batchSize, i - 1);
    }
  }

  /** The loop has ended with everything sent flushed. */
  ghost predicate AllFlushed<T>(w: World<T>) { w.loop.exit.Some? ==> Concat(w.loop.flushed) == w.sent }

  ghost predicate SureToFlush<T(!new)>(w: World<T>, batchSize: nat) {
    forall run, events :: Leads(w, run, events, batchSize) ==> AllFlushed(run[|events|])
  }

  /** Where a sender or a queued tick is left and the flag is cleared, the timeout may win the
      select and leave a tick behind. */
  lemma StopMayLeave<T(!new)>(w: World<T>, tick: T, batchSize: nat) returns (run: seq<World<T>>, events: seq<Event<T>>)
    requires !w.running && w.loop.exit == None && !Drained(w)
    ensures Leads(w, run, events, batchSize)
    ensures run[|events|].loop.exit == Some(ByStop) && run[|events|].channel != []
  {
    var give: Event<T> := Select(TimeUp(false, Failed));
    if w.channel != [] {
      run, events := [w, Next(w, give, batchSize)], [give];
    } else {
      var w1 := Next(w, Send(tick), batchSize);
      run, events := [w, w1, Next(w1, give, batchSize)], [Send(tick), give];
    }
  }

  /** Once the flag is cleared, every way the loop can end flushes everything sent exactly when
      by then all senders were dropped and the channel was empty. */
  lemma StopFlushesIffDrained<T(!new)>(run: seq<World<T>>, events: seq<Event<T>>, batchSize: nat, tick: T)
    requires IsRun(run, events, batchSize) && !run[|events|].running && run[|events|].loop.exit == None
    ensures SureToFlush(run[|events|], batchSize) <==> Drained(run[|events|])
  {
    var w := run[|events|];
    RunInvariant(run, events, batchSize, |events|);
    hide Concat, WorldInv, Enabled, Next, Drained;
    if Drained(w) {
      forall run', events' | Leads(w, run', events', batchSize) ensures AllFlushed(run'[|events'|]) {
        DrainedStays(w, run', events', batchSize, |events'|);
        LeadsKeepsInv(w, run', events', batchSize, |events'|);
        EndsFlushed(run'[|events'|], batchSize);
      }
    } else {
      var run', events' := StopMayLeave(w, tick, batchSize);
      LeadsKeepsInv(w, run', events', batchSize, |events'|);
      EndsFlushed(run'[|events'|], batchSize);
      assert !AllFlushed(run'[|events'|]);
    }
  }

  lemma EndsFlushed<T>(w: World<T>, batchSize: nat)
    requires WorldInv(w, batchSize)
    ensures Drained(w) ==> AllFlushed(w)
    ensures w.loop.exit.Some? && w.channel != [] ==> !AllFlushed(w)
  {
    hide Concat;
    if w.loop.exit.Some? {
      assert Concat(w.loop.flushed) + w.channel == w.sent;
      if w.channel == [] { assert Concat(w.loop.flushed) + [] == Concat(w.loop.flushed); }
      if w.channel != [] { assert |w.sent| == |Concat(w.loop.flushed)| + |w.channel|; }
    }
  }

  /** Stopping as the program does, the flag first and then the sender, can leave a tick
      although no sender is left when the loop ends. */
  lemma StopCanLeaveTicks<T(!new)>(tick: T, batchSize: nat) returns (run: seq<World<T>>, events: seq<Event<T>>)
    ensures IsRun(run, events, batchSize)
    ensures run[0].running && !run[0].closed && run[0].sent == run[0].channel == []
    ensures var w := run[|run| - 1];
      w.loop.exit == Some(ByStop) && w.closed && w.sent == [tick] && w.loop.flushed == [] && w.channel == [tick]
  {
    events := [Send(tick), Stop, Close, Select(TimeUp(false, Failed))];
    var w0: World<T> := Begin();
    var w1 := Next(w0, events[0], batchSize);
    var w2 := Next(w1, events[1], batchSize);
    var w3 := Next(w2, events[2], batchSize);
    run := [w0, w1, w2, w3, Next(w3, events[3], batchSize)];
    assert [] + [tick] == [tick];
  }

  // ---- The loop as written ----------------------------------------------------------------------------------------------

  /** The loop state after a sequence of outcomes, up to the first exit. */
  function Run<T>(s: Loop<T>, outcomes: seq<Outcome<T>>, batchSize: nat): Loop<T>
    decreases |outcomes|
  {
    if outcomes == [] || s.exit.Some? then s else Run(Step(s, outcomes[0], batchSize), outcomes[1..], batchSize)
  }

  class Writer<T(!new)> {
    const batchSize: nat
    var batch: seq<T>
    var ticksWritten: nat
    var ticksDropped: nat
    var batchWrites: nat
    ghost var s: Loop<T>

    ghost predicate Matches()
      reads this
    {
      s.batch == batch && s.written == ticksWritten && s.dropped == ticksDropped && s.batchWrites == batchWrites
    }

    constructor (batchSize: nat)
      ensures Matches() && s == Fresh() && this.batchSize == batchSize
    {
      this.batchSize := batchSize;
      batch, ticksWritten, ticksDropped, batchWrites := [], 0, 0, 0;
      s := Fresh();
    }

    method FlushBatch(insert: Insert)
      requires Matches()
      modifies this
      ensures Matches() && s == Flush(old(s), insert)
    {
      if |batch| == 0 {
        return;
      }
      match insert {
        case Written(rows) =>
          ticksWritten := ticksWritten + rows;
          batchWrites := batchWrites + 1;
        case Failed =>
          ticksDropped := ticksDropped + |batch|;
      }
      batch := [];
      s := Flush(s, insert);
    }

    /** Runs until an exit, or until the outcomes given are used up. */
    method WriteLoop(outcomes: seq<Outcome<T>>) returns (exit: Option<Exit>)
      requires Matches() && s.exit == None
      modifies this
      ensures Matches() && s == Run(old(s), outcomes, batchSize) && exit == s.exit
    {
      exit := None;
      var i := 0;
      while i < |outcomes|
        invariant 0 <= i <= |outcomes| && Matches() && s.exit == None && exit == None
        invariant Run(s, outcomes[i..], batchSize) == Run(old(s), outcomes, batchSize)
      {
        ghost var before := s;
        assert outcomes[i..][1..] == outcomes[i + 1..];
        match outcomes[i] {
          case Received(tick, insert) =>
            batch := batch + [tick];
            s := s.(taken := s.taken + [tick], batch := s.batch + [tick]);
            if |batch| >= batchSize {
              FlushBatch(insert);
            }
          case ChannelClosed(insert) =>
            if |batch| != 0 {
              FlushBatch(insert);
            }
            exit := Some(ByClose);
            s := s.(exit := exit);
          case TimeUp(running, insert) =>
            if |batch| != 0 {
              FlushBatch(insert);
            }
            if !running {
              exit := Some(ByStop);
            }
            s := s.(exit := exit);
        }
        assert s == Step(before, outcomes[i], batchSize);
        i := i + 1;
        if exit.Some? {
          return;
        }
      }
    }
  }

  /** Over any outcomes the loop keeps its invariant. */
  lemma {:induction false} RunKeepsInv<T>(s: Loop<T>, outcomes: seq<Outcome<T>>, batchSize: nat)
    requires Inv(s, batchSize)
    ensures Inv(Run(s, outcomes, batchSize), batchSize)
    decreases |outcomes|
  {
    if outcomes != [] && s.exit == None {
      StepKeepsInv(s, outcomes[0], batchSize);
      RunKeepsInv(Step(s, outcomes[0], batchSize), outcomes[1..], batchSize);
    }
  }
}
