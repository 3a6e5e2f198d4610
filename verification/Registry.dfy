/** Instrument ids: a table that keeps them across restarts, and a registry that caches them.
    Names are ASCII; the hash behind new ids is a parameter. */
module Registry {
  import opened Options

  type Id = x: int | 0 <= x <= 0xFFFF_FFFF

  /** Symbol and exchange, in upper case. */
  datatype Pair = Pair(symbol: string, exchange: string)

  type Table = map<Pair, Id>

  function UpperChar(c: char): char { if 'a' <= c <= 'z' then c - 'a' + 'A' else c }

  function Upper(s: string): (u: string)
    ensures |u| == |s| && forall i :: 0 <= i < |s| ==> u[i] == UpperChar(s[i])
  {
    seq(|s|, i requires 0 <= i < |s| => UpperChar(s[i]))
  }

  function PairOf(symbol: string, exchange: string): Pair { Pair(Upper(symbol), Upper(exchange)) }

  /** The same text but for the case of letters. */
  predicate SameButCase(a: string, b: string) {
    |a| == |b| && forall i :: 0 <= i < |a| ==>
      || a[i] == b[i]
      || ('A' <= a[i] <= 'Z' && b[i] as int == a[i] as int + 32) || ('A' <= b[i] <= 'Z' && a[i] as int == b[i] as int + 32)
  }

  lemma UpperIgnoresCase(a: string, b: string)
    ensures Upper(a) == Upper(b) <==> SameButCase(a, b)
    ensures forall i :: 0 <= i < |a| ==> !('a' <= Upper(a)[i] <= 'z')
  {
    assert forall i :: 0 <= i < |a| && i < |b| ==>
      (Upper(a)[i] == Upper(b)[i] <==>
        || a[i] == b[i]
        || ('A' <= a[i] <= 'Z' && b[i] as int == a[i] as int + 32) || ('A' <= b[i] <= 'Z' && a[i] as int == b[i] as int + 32));
  }

  /** Names that differ only in case are one pair, and others are not; no letter of a pair is
      lower-case. */
  lemma PairsIgnoreCase(s: string, e: string, s': string, e': string)
    ensures PairOf(s, e) == PairOf(s', e') <==> SameButCase(s, s') && SameButCase(e, e')
    ensures forall i :: 0 <= i < |s| ==> !('a' <= PairOf(s, e).symbol[i] <= 'z')
    ensures forall i :: 0 <= i < |e| ==> !('a' <= PairOf(s, e).exchange[i] <= 'z')
  {
    UpperIgnoresCase(s, s');
    UpperIgnoresCase(e, e');
    hide SameButCase;
  }

  /** The cache key: symbol@exchange. */
  function Key(p: Pair): string { p.symbol + "@" + p.exchange }

  /** An exchange without '@'; symbols may have it. */
  predicate Plain(p: Pair) { '@' !in p.exchange }

  /** The key of q is also that of p, split at an earlier '@', the n-th of q's symbol. */
  predicate ShiftedAt(p: Pair, q: Pair, n: nat) {
    && n < |q.symbol| && q.symbol[n] == '@'
    && p.symbol == q.symbol[..n] && p.exchange == q.symbol[n + 1..] + "@" + q.exchange
  }

  predicate Shifted(p: Pair, q: Pair) { exists n :: 0 <= n < |q.symbol| && ShiftedAt(p, q, n) }

  lemma ShiftedShare(p: Pair, q: Pair)
    requires Shifted(p, q)
    ensures Key(p) == Key(q)
  {
    var n :| 0 <= n < |q.symbol| && ShiftedAt(p, q, n);
    assert q.symbol == q.symbol[..n] + "@" + q.symbol[n + 1..];
  }

  lemma SharedShift(p: Pair, q: Pair)
    requires Key(p) == Key(q) && |p.symbol| < |q.symbol|
    ensures Shifted(p, q)
  {
    var k, n := Key(p), |p.symbol|;
    assert p.symbol == k[..n] && p.exchange == k[n + 1..];
    assert k[..|q.symbol|] == q.symbol && k[|q.symbol| + 1..] == q.exchange;
    assert q.symbol[..n] == k[..n] && q.symbol[n] == k[n];
    assert q.symbol[n + 1..] + "@" + q.exchange == k[n + 1..];
    assert ShiftedAt(p, q, n);
  }

  lemma SameLength(p: Pair, q: Pair)
    requires Key(p) == Key(q) && |p.symbol| == |q.symbol|
    ensures p == q
  {
    var k, n := Key(p), |p.symbol|;
    assert p.symbol == k[..n] && q.symbol == k[..n];
    assert p.exchange == k[n + 1..] && q.exchange == k[n + 1..];
  }

  /** Exactly which pairs share a cache key. */
  lemma SameKey(p: Pair, q: Pair)
    ensures Key(p) == Key(q) <==> p == q || Shifted(p, q) || Shifted(q, p)
  {
    if Shifted(p, q) { ShiftedShare(p, q); }
    if Shifted(q, p) { ShiftedShare(q, p); }
    if Key(p) == Key(q) {
      if |p.symbol| < |q.symbol| {
        SharedShift(p, q);
      } else if |q.symbol| < |p.symbol| {
        SharedShift(q, p);
      } else {
        SameLength(p, q);
      }
    }
  }

  /** In particular no two pairs do whose exchanges have no '@', and none whose symbols have none. */
  lemma KeyIsInjective(p: Pair, q: Pair)
    requires (Plain(p) && Plain(q)) || ('@' !in p.symbol && '@' !in q.symbol)
    ensures Key(p) == Key(q) <==> p == q
  {
    SameKey(p, q);
    hide Key;
    ShiftNeedsAt(p, q);
    ShiftNeedsAt(q, p);
  }

  lemma ShiftNeedsAt(p: Pair, q: Pair)
    ensures Shifted(p, q) ==> '@' in p.exchange && '@' in q.symbol
  {
    if n :| 0 <= n < |q.symbol| && ShiftedAt(p, q, n) {
      assert p.exchange[|q.symbol| - n - 1] == '@';
      assert q.symbol[n] in q.symbol;
    }
  }

  // ---- The table ---------------------------------------------------------------------------------------------------------

  /** The primary key is the id. */
  ghost predicate Distinct(t: Table) { forall p, q :: p in t && q in t && t[p] == t[q] ==> p == q }

  predicate Taken(t: Table, id: Id) { exists p :: p in t && t[p] == id }

  /** INSERT ... ON CONFLICT (symbol, exchange) DO NOTHING; None when the primary key is violated. */
  function InsertOrIgnore(t: Table, p: Pair, id: Id): Option<Table> {
    if p in t then Some(t) else if Taken(t, id) then None else Some(t[p := id])
  }

  /** INSERT ... ON CONFLICT (symbol, exchange) DO UPDATE SET instrument_id. */
  function InsertOrUpdate(t: Table, p: Pair, id: Id): Option<Table> {
    if Taken(t - {p}, id) then None else Some(t[p := id])
  }

  // ---- The registry over its whole life --------------------------------------------------------------------------------------

  datatype State = State(table: Table, cache: map<string, Id>, info: map<Id, Pair>)

  /** `up` says whether the database answers during the call. */
  datatype Op =
    | GetOrCreate(symbol: string, exchange: string, up: bool)
    | Register(id: Id, symbol: string, exchange: string, up: bool)
    | Restart(rows: seq<Pair>)      // a new process that loads the table, rows in this order
    | RestartEmpty                  // a new process that does not

  function Cached(s: State, p: Pair, id: Id): State {
    s.(cache := s.cache[Key(p) := id], info := s.info[id := p])
  }

  function Load(s: State, rows: seq<Pair>): State
    requires forall p :: p in rows ==> p in s.table
  {
    if rows == [] then s.(cache := map[], info := map[])
    else Cached(Load(s, rows[..|rows| - 1]), rows[|rows| - 1], s.table[rows[|rows| - 1]])
  }

  /** The id, or None for a database error. */
  function IdFor(hash: Pair -> Id, s: State, p: Pair, up: bool): Option<Id> {
    if Key(p) in s.cache then Some(s.cache[Key(p)])
    else if !up then None
    else if p in s.table then Some(s.table[p])
    else if Taken(s.table, hash(p)) then None
    else Some(hash(p))
  }

  function Created(hash: Pair -> Id, s: State, p: Pair, up: bool): State {
    if Key(p) in s.cache || !up then s
    else if p in s.table then Cached(s, p, s.table[p])
    else
      match InsertOrIgnore(s.table, p, hash(p))
      case None => s
      case Some(table) => Cached(s.(table := table), p, hash(p))
  }

  function Registered(s: State, id: Id, p: Pair, up: bool): State {
    if Key(p) in s.cache || !up then s
    else
      match InsertOrUpdate(s.table, p, id)
      case None => s
      case Some(table) => Cached(s.(table := table), p, id)
  }

  function Apply(hash: Pair -> Id, s: State, op: Op): State
    requires Permitted(s, op)
  {
    match op
    case GetOrCreate(symbol, exchange, up) => Created(hash, s, PairOf(symbol, exchange), up)
    case Register(id, symbol, exchange, up) => Registered(s, id, PairOf(symbol, exchange), up)
    case Restart(rows) => Load(s, rows)
    case RestartEmpty => s.(cache := map[], info := map[])
  }

  /** A restart reads every row of the table once, in some order. */
  ghost predicate Permitted(s: State, op: Op) {
    op.Restart? ==> (forall p :: p in op.rows <==> p in s.table)
  }

  /** The exchange of an operation contains no '@'. */
  predicate PlainOp(op: Op) {
    match op
    case GetOrCreate(symbol, exchange, _) => Plain(PairOf(symbol, exchange))
    case Register(_, symbol, exchange, _) => Plain(PairOf(symbol, exchange))
    case _ => true
  }

  /** Calls whose names differ only in case do the same and give the same id. */
  lemma CallsIgnoreCase(hash: Pair -> Id, s: State, a: string, e: string, a': string, e': string, id: Id, up: bool)
    requires SameButCase(a, a') && SameButCase(e, e')
    ensures IdFor(hash, s, PairOf(a, e), up) == IdFor(hash, s, PairOf(a', e'), up)
    ensures Apply(hash, s, GetOrCreate(a, e, up)) == Apply(hash, s, GetOrCreate(a', e', up))
    ensures Apply(hash, s, Register(id, a, e, up)) == Apply(hash, s, Register(id, a', e', up))
  {
    PairsIgnoreCase(a, e, a', e');
    hide PairOf, IdFor, Created, Registered, SameButCase;
  }

  // ---- What every run keeps -----------------------------------------------------------------------------------------------------

  /** Ids are distinct; a cached id is that of the stored row; the reverse lookup of a cached
      id is its pair, and knows no other ids. */
  ghost predicate Inv(s: State) {
    && Distinct(s.table) && (forall p :: p in s.table ==> Plain(p))
    && (forall k :: k in s.cache ==> exists p :: p in s.table && Key(p) == k)
    && (forall p :: p in s.table && Key(p) in s.cache ==> s.cache[Key(p)] == s.table[p] && InfoIs(s, s.table[p], p))
    && (forall id :: id in s.info ==> s.info[id] in s.table && s.table[s.info[id]] == id && Key(s.info[id]) in s.cache)
  }

  predicate InfoIs(s: State, id: Id, p: Pair) { id in s.info && s.info[id] == p }

  /** Every row is cached. */
  ghost predicate Complete(s: State) { forall p :: p in s.table ==> Key(p) in s.cache }

  /** Writing the row of a pair that is not cached. */
  lemma WritingKeepsInv(s: State, p: Pair, id: Id)
    requires Inv(s) && Plain(p) && Key(p) !in s.cache && !Taken(s.table - {p}, id)
    ensures Inv(s.(table := s.table[p := id]))
  {
    hide Key, Plain;
    forall q | q in s.table && q != p ensures s.table[q] != id { assert q in s.table - {p}; }
  }

  /** No other row has the key of p. */
  lemma OnlyItsKey(s: State, p: Pair)
    requires Inv(s) && p in s.table
    ensures forall q :: q in s.table && Key(q) == Key(p) ==> q == p
  {
    hide Key;
    forall q | q in s.table && Key(q) == Key(p) ensures q == p { KeyIsInjective(p, q); }
  }

  lemma CachedKeys(s: State, p: Pair)
    requires Inv(s) && p in s.table
    ensures forall q :: q in s.table ==> (Key(q) in Cached(s, p, s.table[p]).cache <==> Key(q) in s.cache || q == p)
  {
    OnlyItsKey(s, p);
    hide Key, Plain, Inv;
  }

  /** Caching a stored row, again or for the first time. */
  lemma CachingKeepsInv(s: State, p: Pair)
    requires Inv(s) && p in s.table
    ensures Inv(Cached(s, p, s.table[p]))
    ensures forall q :: q in s.table ==> (Key(q) in Cached(s, p, s.table[p]).cache <==> Key(q) in s.cache || q == p)
  {
    OnlyItsKey(s, p);
    CachedKeys(s, p);
    hide Key, Plain;
    var s' := Cached(s, p, s.table[p]);
    forall k | k in s'.cache ensures exists q :: q in s'.table && Key(q) == k {
      if k != Key(p) { assert k in s.cache; }
    }
    forall q | q in s'.table && Key(q) in s'.cache ensures s'.cache[Key(q)] == s'.table[q] && InfoIs(s', s'.table[q], q) {
      if q != p { assert Key(q) in s.cache && InfoIs(s, s.table[q], q); }
    }
  }

  lemma {:induction false} LoadKeepsInv(s: State, rows: seq<Pair>)
    requires Inv(s) && forall p :: p in rows ==> p in s.table
    ensures Inv(Load(s, rows)) && Load(s, rows).table == s.table
    ensures forall p :: p in s.table ==> (Key(p) in Load(s, rows).cache <==> p in rows)
  {
    hide Key, Plain, Inv;
    if rows == [] {
      EmptyCacheKeepsInv(s);
    } else {
      var n := |rows| - 1;
      LoadKeepsInv(s, rows[..n]);
      assert rows == rows[..n] + [rows[n]];
      CachingKeepsInv(Load(s, rows[..n]), rows[n]);
    }
  }

  /** A row written and cached at once. */
  lemma StoringKeepsInv(s: State, p: Pair, id: Id)
    requires Inv(s) && Plain(p) && Key(p) !in s.cache && !Taken(s.table - {p}, id)
    ensures Inv(Cached(s.(table := s.table[p := id]), p, id))
    ensures Complete(s) ==> Complete(Cached(s.(table := s.table[p := id]), p, id))
  {
    hide Key, Plain, Inv;
    WritingKeepsInv(s, p, id);
    CachingKeepsInv(s.(table := s.table[p := id]), p);
  }

  lemma StepKeepsInv(hash: Pair -> Id, s: State, op: Op)
    requires Inv(s) && Permitted(s, op) && PlainOp(op)
    ensures Inv(Apply(hash, s, op))
    ensures Complete(s) && op != RestartEmpty ==> Complete(Apply(hash, s, op))
    ensures op.Restart? ==> Complete(Apply(hash, s, op))
  {
    hide Key, Plain, Inv, Taken, PairOf, Load;
    match op {
      case GetOrCreate(symbol, exchange, up) =>
        var p := PairOf(symbol, exchange);
        if Key(p) !in s.cache && up { CreatedKeepsInv(hash, s, p); }
      case Register(id, symbol, exchange, up) =>
        var p := PairOf(symbol, exchange);
        if Key(p) !in s.cache && up && !Taken(s.table - {p}, id) { StoringKeepsInv(s, p, id); }
      case Restart(rows) => LoadKeepsInv(s, rows);
      case RestartEmpty => EmptyCacheKeepsInv(s);
    }
  }

  lemma EmptyCacheKeepsInv(s: State)
    requires Inv(s)
    ensures Inv(s.(cache := map[], info := map[]))
  {}

  lemma CreatedKeepsInv(hash: Pair -> Id, s: State, p: Pair)
    requires Inv(s) && Plain(p) && Key(p) !in s.cache
    ensures Inv(Created(hash, s, p, true))
    ensures Complete(s) ==> Complete(Created(hash, s, p, true))
  {
    hide Key, Plain;
    if p in s.table {
      CachingKeepsInv(s, p);
    } else if !Taken(s.table, hash(p)) {
      assert s.table - {p} == s.table;
      StoringKeepsInv(s, p, hash(p));
    }
  }

  /** The step stores another id for p: a registration of p while its row is not cached, with
      an id that no other row has. */
  ghost predicate Overwrites(s: State, op: Op, p: Pair)
    requires p in s.table
  {
    && op.Register? && op.up && PairOf(op.symbol, op.exchange) == p && Key(p) !in s.cache
    && !Taken(s.table - {p}, op.id) && op.id != s.table[p]
  }

  /** A row is never removed, and its id changes in exactly those steps. */
  lemma IdChangesExactly(hash: Pair -> Id, s: State, op: Op, p: Pair)
    requires Inv(s) && Permitted(s, op) && PlainOp(op) && p in s.table
    ensures p in Apply(hash, s, op).table
    ensures Apply(hash, s, op).table[p] != s.table[p] <==> Overwrites(s, op, p)
  {
    hide Key, Plain, PairOf, Taken;
    match op {
      case GetOrCreate(symbol, exchange, up) =>
      case Register(id, symbol, exchange, up) =>
      case Restart(rows) => LoadKeepsInv(s, rows);
      case RestartEmpty =>
    }
  }

  ghost predicate IsRun(hash: Pair -> Id, run: seq<State>, ops: seq<Op>) {
    && |run| == |ops| + 1 && run[0] == State(map[], map[], map[])
    && forall i :: 0 <= i < |ops| ==> PlainOp(ops[i]) && Permitted(run[i], ops[i]) && run[i + 1] == Apply(hash, run[i], ops[i])
  }

  lemma {:induction false} RunInvariant(hash: Pair -> Id, run: seq<State>, ops: seq<Op>, i: nat)
    requires IsRun(hash, run, ops) && i < |run|
    ensures Inv(run[i])
    ensures RestartEmpty !in ops ==> Complete(run[i])
  {
    hide Apply, PlainOp, Key;
    if i > 0 {
      RunInvariant(hash, run, ops, i - 1);
      StepKeepsInv(hash, run[i - 1], ops[i - 1]);
      assert ops[i - 1] in ops;
    }
  }

  /** In every run, restarts included, a pair keeps its id until a step overwrites it. */
  lemma {:induction false} IdsStayUntilOverwritten(hash: Pair -> Id, run: seq<State>, ops: seq<Op>, i: nat, j: nat, p: Pair)
    requires IsRun(hash, run, ops) && i <= j < |run| && p in run[i].table
    requires forall n :: i <= n < j && p in run[n].table ==> !Overwrites(run[n], ops[n], p)
    ensures p in run[j].table && run[j].table[p] == run[i].table[p]
    decreases j
  {
    hide Inv, Complete, Apply, PlainOp, Key;
    if i < j {
      IdsStayUntilOverwritten(hash, run, ops, i, j - 1, p);
      RunInvariant(hash, run, ops, j - 1);
      IdChangesExactly(hash, run[j - 1], ops[j - 1], p);
    }
  }

  /** With every restart loading the table, or without registrations, a pair keeps its id for ever. */
  lemma IdsNeverChange(hash: Pair -> Id, run: seq<State>, ops: seq<Op>, i: nat, j: nat, p: Pair)
    requires IsRun(hash, run, ops) && i <= j < |run| && p in run[i].table
    requires RestartEmpty !in ops || forall op :: op in ops ==> !op.Register?
    ensures p in run[j].table && run[j].table[p] == run[i].table[p]
  {
    hide Apply, PlainOp, Key, Inv;
    forall n | i <= n < j && p in run[n].table ensures !Overwrites(run[n], ops[n], p) {
      assert ops[n] in ops;
      RunInvariant(hash, run, ops, n);
    }
    IdsStayUntilOverwritten(hash, run, ops, i, j, p);
  }

  /** Whatever an operation returns is the stored id of the pair, and the reverse lookup of a
      cached pair's id is the pair. */
  lemma ReturnedIdIsStored(hash: Pair -> Id, s: State, p: Pair, up: bool)
    requires Inv(s) && Plain(p)
    ensures var id, t := IdFor(hash, s, p, up), Created(hash, s, p, up);
      && (id == None ==> t == s)
      && (id.Some? ==> p in t.table && t.table[p] == id.value && Key(p) in t.cache && InfoIs(t, id.value, p))
      && (id == None <==> Key(p) !in s.cache && (!up || (p !in s.table && Taken(s.table, hash(p)))))
  {
    hide Plain;
    if Key(p) in s.cache {
      var q :| q in s.table && Key(q) == Key(p);
      KeyIsInjective(p, q);
    }
    hide Key;
    if up { CreatedIsKnown(hash, s, p); }
  }

  lemma CreatedIsKnown(hash: Pair -> Id, s: State, p: Pair)
    requires Inv(s) && Plain(p)
    ensures Key(p) !in s.cache && IdFor(hash, s, p, true).Some? ==> InfoIs(Created(hash, s, p, true), IdFor(hash, s, p, true).value, p)
  {
    hide Key;
  }

  // ---- Where the promises end ----------------------------------------------------------------------------------------------------

  /** A pair whose key is cached for another is given the other's id and never stored; in a
      fresh registry that is exactly a shifted pair. */
  lemma CollisionsShareAnId(hash: Pair -> Id, a: Pair, b: Pair)
    requires a != b
    ensures var s := Created(hash, State(map[], map[], map[]), a, true);
      && (IdFor(hash, s, b, true) == Some(hash(a)) <==> Shifted(a, b) || Shifted(b, a))
      && (Shifted(a, b) || Shifted(b, a) ==> b !in Created(hash, s, b, true).table)
  {
    SameKey(a, b);
    hide Key, Shifted;
    var s := Created(hash, State(map[], map[], map[]), a, true);
    assert s.table == map[a := hash(a)] && a in s.table;
  }

  lemma AtSignsCollide()
    ensures Shifted(Pair("A", "B@C"), Pair("A@B", "C"))
  {
    assert ShiftedAt(Pair("A", "B@C"), Pair("A@B", "C"), 1);
  }

  /** Without loading the table, registering an id overwrites the row of an uncached pair. */
  lemma EmptyStartChangesAnId(hash: Pair -> Id, p: Pair, id: Id)
    requires Plain(p) && id != hash(p)
    ensures var s := Created(hash, State(map[], map[], map[]), p, true);
      var t := Registered(s.(cache := map[], info := map[]), id, p, true);
      s.table == map[p := hash(p)] && t.table == map[p := id]
  {
    hide Key;
    var s := Created(hash, State(map[], map[], map[]), p, true);
    assert s.table - {p} == map[];
  }

  // ---- The objects ------------------------------------------------------------------------------------------------------------------

  class Database {
    var rows: Table

    constructor ()
      ensures rows == map[]
    {
      rows := map[];
    }

    method TryInsert(p: Pair, id: Id, up: bool) returns (ok: bool)
      modifies this
      ensures ok <==> up && InsertOrIgnore(old(rows), p, id).Some?
      ensures rows == if ok then InsertOrIgnore(old(rows), p, id).value else old(rows)
    {
      ok := up && InsertOrIgnore(rows, p, id).Some?;
      if ok {
        rows := InsertOrIgnore(rows, p, id).value;
      }
    }

    method TryUpsert(p: Pair, id: Id, up: bool) returns (ok: bool)
      modifies this
      ensures ok <==> up && InsertOrUpdate(old(rows), p, id).Some?
      ensures rows == if ok then InsertOrUpdate(old(rows), p, id).value else old(rows)
    {
      ok := up && InsertOrUpdate(rows, p, id).Some?;
      if ok {
        rows := InsertOrUpdate(rows, p, id).value;
      }
    }

    method Fetch() returns (all: seq<Pair>)
      ensures forall p :: p in all <==> p in rows
    {
      all := [];
      var rest := rows.Keys;
      while rest != {}
        invariant forall p :: p in all || p in rest <==> p in rows
        decreases rest
      {
        var p :| p in rest;
        rest := rest - {p};
        all := all + [p];
      }
    }
  }

  class InstrumentRegistry {
    const pool: Database
    const hash: Pair -> Id
    var cache: map<string, Id>
    var idToInfo: map<Id, Pair>

    ghost function Now(): State
      reads this, pool
    {
      State(pool.rows, cache, idToInfo)
    }

    /** A new process: loads the table when asked to. */
    constructor (pool: Database, hash: Pair -> Id, preload: bool)
      ensures this.pool == pool && this.hash == hash && pool.rows == old(pool.rows)
      ensures !preload ==> Now() == State(pool.rows, map[], map[])
      ensures preload ==> exists rows :: Permitted(Now(), Restart(rows)) && Now() == Load(State(pool.rows, map[], map[]), rows)
    {
      this.pool, this.hash := pool, hash;
      cache, idToInfo := map[], map[];
      new;
      var rows := pool.Fetch();
      if preload {
        for i := 0 to |rows|
          invariant Now() == Load(State(pool.rows, map[], map[]), rows[..i])
        {
          assert rows[..i + 1][..i] == rows[..i];
          cache := cache[Key(rows[i]) := pool.rows[rows[i]]];
          idToInfo := idToInfo[pool.rows[rows[i]] := rows[i]];
        }
        assert rows[..|rows|] == rows;
      }
      assert Permitted(Now(), Restart(rows));
    }

    method GetOrCreateId(symbol: string, exchange: string, up: bool) returns (id: Option<Id>)
      modifies this, pool
      ensures Now() == Apply(hash, old(Now()), GetOrCreate(symbol, exchange, up))
      ensures id == IdFor(hash, old(Now()), PairOf(symbol, exchange), up)
    {
      var p := PairOf(symbol, exchange);
      hide Key, PairOf, Upper;
      if Key(p) in cache {
        return Some(cache[Key(p)]);
      }
      if !up {
        return None;
      }
      if p in pool.rows {
        cache := cache[Key(p) := pool.rows[p]];
        idToInfo := idToInfo[pool.rows[p] := p];
        return Some(pool.rows[p]);
      }
      var fresh' := hash(p);
      var ok := pool.TryInsert(p, fresh', up);
      if !ok {
        return None;
      }
      cache := cache[Key(p) := fresh'];
      idToInfo := idToInfo[fresh' := p];
      return Some(fresh');
    }

    /** Looks an id up without creating one. */
    method Get(symbol: string, exchange: string, up: bool) returns (id: Option<Id>)
      ensures var p := PairOf(symbol, exchange);
        id == if Key(p) in cache then Some(cache[Key(p)]) else if up && p in pool.rows then Some(pool.rows[p]) else None
    {
      var p := PairOf(symbol, exchange);
      if Key(p) in cache {
        return Some(cache[Key(p)]);
      }
      return if up && p in pool.rows then Some(pool.rows[p]) else None;
    }

    /** The pair cached last under the id: its only owner while the invariant holds. */
    function GetById(id: Id): (r: Option<Pair>)
      reads this, pool
      ensures Inv(Now()) ==> (r.Some? <==> exists p :: p in pool.rows && pool.rows[p] == id && Key(p) in cache)
      ensures Inv(Now()) && r.Some? ==> r.value in pool.rows && pool.rows[r.value] == id
    {
      assert Inv(Now()) ==> forall p :: p in pool.rows && Key(p) in cache ==> InfoIs(Now(), pool.rows[p], p);
      if id in idToInfo then Some(idToInfo[id]) else None
    }

    method RegisterDatabentoId(id: Id, symbol: string, exchange: string, up: bool)
      modifies this, pool
      ensures Now() == Apply(hash, old(Now()), Register(id, symbol, exchange, up))
    {
      var p := PairOf(symbol, exchange);
      hide Key, PairOf, Upper;
      if Key(p) in cache {
        return;
      }
      var ok := pool.TryUpsert(p, id, up);
      if ok {
        cache := cache[Key(p) := id];
        idToInfo := idToInfo[id := p];
      }
    }
  }
}
