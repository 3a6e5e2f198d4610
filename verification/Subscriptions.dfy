/** Consumers' subscriptions, indexed both ways: the symbols of each consumer and the
    consumers of each symbol. */
module Subscriptions {
  type Symbol = string
  type Consumer = string

  datatype Subscription = Subscription(symbols: set<Symbol>, messagesSent: nat)

  // ---- The two indexes ---------------------------------------------------------------------------------------

  /** The two maps hold the same pairs, and no symbol has an empty set of consumers. */
  ghost predicate Mirror(subs: map<Consumer, Subscription>, index: map<Symbol, set<Consumer>>) {
    && (forall c, s :: c in subs && s in subs[c].symbols ==> s in index && c in index[s])
    && (forall c, s :: s in index && c in index[s] ==> c in subs && s in subs[c].symbols)
    && (forall s :: s in index ==> index[s] != {})
  }

  function AddTo(index: map<Symbol, set<Consumer>>, s: Symbol, c: Consumer): map<Symbol, set<Consumer>> {
    index[s := (if s in index then index[s] else {}) + {c}]
  }

  function RemoveFrom(index: map<Symbol, set<Consumer>>, s: Symbol, c: Consumer): map<Symbol, set<Consumer>> {
    if s !in index then index
    else if index[s] - {c} == {} then index - {s} else index[s := index[s] - {c}]
  }

  function With(subs: map<Consumer, Subscription>, c: Consumer, symbols: set<Symbol>): map<Consumer, Subscription>
    requires c in subs
  {
    subs[c := subs[c].(symbols := symbols)]
  }

  /** One pair more in both. */
  lemma AddKeepsMirror(subs: map<Consumer, Subscription>, index: map<Symbol, set<Consumer>>, c: Consumer, s: Symbol)
    requires Mirror(subs, index) && c in subs
    ensures Mirror(With(subs, c, subs[c].symbols + {s}), AddTo(index, s, c))
  {}

  /** One pair less in both; the symbol goes with its last consumer. */
  lemma RemoveKeepsMirror(subs: map<Consumer, Subscription>, index: map<Symbol, set<Consumer>>, c: Consumer, s: Symbol)
    requires Mirror(subs, index) && c in subs
    ensures Mirror(With(subs, c, subs[c].symbols - {s}), RemoveFrom(index, s, c))
  {
    var subs', index' := With(subs, c, subs[c].symbols - {s}), RemoveFrom(index, s, c);
    forall d, r | d in subs' && r in subs'[d].symbols ensures r in index' && d in index'[r] {
      assert d in subs && r in subs[d].symbols && d in index[r];
      assert r == s ==> d in index[s] - {c};
    }
  }

  /** The subscriptions determine the other index. */
  lemma MirrorIsUnique(subs: map<Consumer, Subscription>, a: map<Symbol, set<Consumer>>, b: map<Symbol, set<Consumer>>)
    requires Mirror(subs, a) && Mirror(subs, b)
    ensures a == b
  {
    forall s: Symbol ensures s in a <==> s in b {
      if s in a { var c :| c in a[s]; assert c in subs && s in subs[c].symbols; }
      if s in b { var c :| c in b[s]; assert c in subs && s in subs[c].symbols; }
    }
    forall s: Symbol | s in a ensures a[s] == b[s] {
      forall c: Consumer ensures c in a[s] <==> c in b[s] {
        if c in a[s] { assert c in subs && s in subs[c].symbols; }
        if c in b[s] { assert c in subs && s in subs[c].symbols; }
      }
    }
  }

  // ---- Counting pairs both ways ------------------------------------------------------------------------------

  ghost function SumOver<K(!new)>(m: map<K, nat>): nat
    decreases |m|
  {
    if m == map[] then 0 else var k :| k in m; m[k] + SumOver(m - {k})
  }

  /** The order of adding up does not matter. */
  lemma {:induction false} SumRemove<K(!new)>(m: map<K, nat>, k: K)
    requires k in m
    ensures SumOver(m) == m[k] + SumOver(m - {k})
    decreases |m|
  {
    var j :| j in m && SumOver(m) == m[j] + SumOver(m - {j});
    if j != k {
      SumRemove(m - {j}, k);
      SumRemove(m - {k}, j);
      assert m - {j} - {k} == m - {k} - {j};
    }
  }

  function Sizes<K, V>(m: map<K, set<V>>): map<K, nat> { map k | k in m :: |m[k]| }

  function Pairs<K, V>(m: map<K, set<V>>): set<(K, V)> { set k, v | k in m && v in m[k] :: (k, v) }

  lemma {:induction false} SizesCountPairs<K(!new), V(!new)>(m: map<K, set<V>>)
    ensures SumOver(Sizes(m)) == |Pairs(m)|
    decreases |m|
  {
    if m == map[] {
      assert Sizes(m) == map[] && Pairs(m) == {};
    } else {
      var k :| k in m;
      SizesCountPairs(m - {k});
      SumRemove(Sizes(m), k);
      assert Sizes(m) - {k} == Sizes(m - {k});
      PairsSplit(m, k);
    }
  }

  lemma PairsSplit<K, V>(m: map<K, set<V>>, k: K)
    requires k in m
    ensures |Pairs(m)| == |Pairs(m - {k})| + |m[k]|
  {
    var row := set v | v in m[k] :: (k, v);
    RowSize(k, m[k]);
    assert Pairs(m) == Pairs(m - {k}) + row && Pairs(m - {k}) !! row;
  }

  lemma {:induction false} RowSize<K, V>(k: K, vs: set<V>)
    ensures |set v | v in vs :: (k, v)| == |vs|
  {
    if vs != {} {
      var v :| v in vs;
      RowSize(k, vs - {v});
      assert (set u | u in vs :: (k, u)) == (set u | u in vs - {v} :: (k, u)) + {(k, v)};
    }
  }

  lemma {:induction false} SwapFits<K, V>(ps: set<(K, V)>, qs: set<(V, K)>)
    requires forall k, v :: (k, v) in ps ==> (v, k) in qs
    ensures |ps| <= |qs|
  {
    if ps != {} {
      var p :| p in ps;
      assert (p.1, p.0) in qs;
      SwapFits(ps - {p}, qs - {(p.1, p.0)});
    }
  }

  function SymbolsOf(subs: map<Consumer, Subscription>): map<Consumer, set<Symbol>> {
    map c | c in subs :: subs[c].symbols
  }

  function MessagesOf(subs: map<Consumer, Subscription>): map<Consumer, nat> {
    map c | c in subs :: subs[c].messagesSent
  }

  /** Adding up the symbols of the consumers gives the same as adding up the consumers of
      the symbols. */
  lemma TotalsAgree(subs: map<Consumer, Subscription>, index: map<Symbol, set<Consumer>>)
    requires Mirror(subs, index)
    ensures SumOver(Sizes(SymbolsOf(subs))) == SumOver(Sizes(index))
  {
    SizesCountPairs(SymbolsOf(subs));
    SizesCountPairs(index);
    forall c, s ensures (c, s) in Pairs(SymbolsOf(subs)) <==> (s, c) in Pairs(index) {}
    SwapFits(Pairs(SymbolsOf(subs)), Pairs(index));
    SwapFits(Pairs(index), Pairs(SymbolsOf(subs)));
  }

  // ---- What a subscribe adds -----------------------------------------------------------------------------------

  /** The requested symbols not yet had, each at its first mention. */
  function NewSymbols(symbols: seq<Symbol>, had: set<Symbol>): (added: seq<Symbol>) {
    if symbols == [] then []
    else
      var n := |symbols| - 1;
      var added := NewSymbols(symbols[..n], had);
      if symbols[n] in had || symbols[n] in symbols[..n] then added else added + [symbols[n]]
  }

  lemma {:induction false} NewSymbolsAreNew(symbols: seq<Symbol>, had: set<Symbol>)
    ensures var added := NewSymbols(symbols, had);
      && (forall s :: s in added <==> s in symbols && s !in had)
      && (forall i, j :: 0 <= i < j < |added| ==> added[i] != added[j])
  {
    if symbols != [] {
      var n := |symbols| - 1;
      NewSymbolsAreNew(symbols[..n], had);
      assert symbols == symbols[..n] + [symbols[n]];
    }
  }

  function AsSet(symbols: seq<Symbol>): set<Symbol> { set s | s in symbols }

  lemma NoSymbols()
    ensures AsSet([]) == {} && forall had :: NewSymbols([], had) == []
  {}

  lemma NewSymbolsStep(symbols: seq<Symbol>, i: nat, had: set<Symbol>)
    requires i < |symbols|
    ensures NewSymbols(symbols[..i + 1], had) == NewSymbols(symbols[..i], had)
      + (if symbols[i] in had + AsSet(symbols[..i]) then [] else [symbols[i]])
  {
    assert symbols[..i + 1][..i] == symbols[..i];
    assert NewSymbols(symbols[..i], had) + [] == NewSymbols(symbols[..i], had);
  }

  lemma AsSetStep(symbols: seq<Symbol>, i: nat)
    requires i < |symbols|
    ensures AsSet(symbols[..i + 1]) == AsSet(symbols[..i]) + {symbols[i]}
  {
    assert symbols[..i + 1] == symbols[..i] + [symbols[i]];
  }

  datatype Stats = Stats(totalConsumers: nat, totalUniqueSymbols: nat, totalSubscriptions: nat, messagesSent: nat)

  class SubscriptionManager {
    var subscriptions: map<Consumer, Subscription>
    var symbolConsumers: map<Symbol, set<Consumer>>

    ghost predicate Consistent() reads this { Mirror(subscriptions, symbolConsumers) }

    /** The symbols of a consumer, none when it is not known. */
    function SymbolsFor(c: Consumer): set<Symbol>
      reads this
    {
      if c in subscriptions then subscriptions[c].symbols else {}
    }

    constructor ()
      ensures Consistent() && subscriptions == map[]
    {
      subscriptions, symbolConsumers := map[], map[];
    }

    /** Adds the symbols to those of the consumer and reports the new ones. */
    method Subscribe(c: Consumer, symbols: seq<Symbol>) returns (added: seq<Symbol>, total: nat)
      requires Consistent()
      modifies this
      ensures Consistent()
      ensures subscriptions == old(subscriptions)[c :=
        Subscription(old(SymbolsFor(c)) + AsSet(symbols), if c in old(subscriptions) then old(subscriptions[c].messagesSent) else 0)]
      ensures added == NewSymbols(symbols, old(SymbolsFor(c)))
      ensures total == |old(SymbolsFor(c)) + AsSet(symbols)|
    {
      hide Mirror, AsSet, NewSymbols, AddTo;
      NoSymbols();
      ghost var had := SymbolsFor(c);
      if c !in subscriptions {
        NewConsumer(subscriptions, symbolConsumers, c);
        subscriptions := subscriptions[c := Subscription({}, 0)];
      }
      ghost var messages := subscriptions[c].messagesSent;
      added := [];
      assert had + AsSet(symbols[..0]) == had;
      for i := 0 to |symbols|
        invariant Consistent() && c in subscriptions
        invariant subscriptions == old(subscriptions)[c := Subscription(had + AsSet(symbols[..i]), messages)]
        invariant added == NewSymbols(symbols[..i], had)
      {
        AsSetStep(symbols, i);
        NewSymbolsStep(symbols, i, had);
        assert had + AsSet(symbols[..i + 1]) == had + AsSet(symbols[..i]) + {symbols[i]};
        assert subscriptions[c].symbols == had + AsSet(symbols[..i]);
        if symbols[i] !in subscriptions[c].symbols {
          AddKeepsMirror(subscriptions, symbolConsumers, c, symbols[i]);
          added := added + [symbols[i]];
          subscriptions := With(subscriptions, c, subscriptions[c].symbols + {symbols[i]});
          symbolConsumers := AddTo(symbolConsumers, symbols[i], c);
        } else {
          assert had + AsSet(symbols[..i]) + {symbols[i]} == had + AsSet(symbols[..i]);
        }
      }
      assert symbols[..|symbols|] == symbols;
      total := |subscriptions[c].symbols|;
    }

    /** Takes the symbols from those of a known consumer, which stays known. */
    method Unsubscribe(c: Consumer, symbols: seq<Symbol>) returns (known: bool)
      requires Consistent()
      modifies this
      ensures Consistent() && (known <==> c in old(subscriptions))
      ensures subscriptions == if known then With(old(subscriptions), c, old(SymbolsFor(c)) - AsSet(symbols)) else old(subscriptions)
    {
      hide Mirror;
      if c !in subscriptions {
        return false;
      }
      ghost var had := SymbolsFor(c);
      assert had - AsSet([]) == had;
      for i := 0 to |symbols|
        invariant Consistent() && c in old(subscriptions)
        invariant subscriptions == With(old(subscriptions), c, had - AsSet(symbols[..i]))
      {
        AsSetStep(symbols, i);
        RemoveKeepsMirror(subscriptions, symbolConsumers, c, symbols[i]);
        subscriptions := With(subscriptions, c, subscriptions[c].symbols - {symbols[i]});
        symbolConsumers := RemoveFrom(symbolConsumers, symbols[i], c);
        assert had - AsSet(symbols[..i]) - {symbols[i]} == had - AsSet(symbols[..i + 1]);
      }
      assert symbols[..|symbols|] == symbols;
      return true;
    }

    /** Forgets the consumer; every symbol it had loses it. */
    method UnsubscribeAll(c: Consumer) returns (known: bool)
      requires Consistent()
      modifies this
      ensures Consistent() && (known <==> c in old(subscriptions))
      ensures subscriptions == old(subscriptions) - {c}
    {
      hide Mirror;
      if c !in subscriptions {
        return false;
      }
      var gone := subscriptions[c];
      ghost var before := subscriptions;
      subscriptions := subscriptions - {c};
      var rest := gone.symbols;
      assert With(before, c, rest) == before;
      while rest != {}
        invariant rest <= gone.symbols
        invariant Mirror(With(before, c, rest), symbolConsumers)
        invariant subscriptions == before - {c}
        decreases rest
      {
        var s :| s in rest;
        RemoveKeepsMirror(With(before, c, rest), symbolConsumers, c, s);
        assert With(With(before, c, rest), c, rest - {s}) == With(before, c, rest - {s});
        rest := rest - {s};
        symbolConsumers := RemoveFrom(symbolConsumers, s, c);
      }
      ForgetConsumer(before, symbolConsumers, c);
      return true;
    }

    method RecordMessageSent(c: Consumer)
      requires Consistent()
      modifies this
      ensures Consistent()
      ensures subscriptions == if c !in old(subscriptions) then old(subscriptions) else
        old(subscriptions)[c := Subscription(old(subscriptions[c].symbols), old(subscriptions[c].messagesSent) + 1)]
    {
      if c in subscriptions {
        subscriptions := subscriptions[c := subscriptions[c].(messagesSent := subscriptions[c].messagesSent + 1)];
      }
    }

    /** Exactly the consumers subscribed to the symbol. */
    function ConsumersFor(s: Symbol): (cs: set<Consumer>)
      requires Consistent()
      reads this
      ensures forall c :: c in cs <==> s in SymbolsFor(c)
    {
      if s in symbolConsumers then symbolConsumers[s] else {}
    }

    lemma EveryIndexedSymbolIsHad(s: Symbol)
      requires Consistent()
      ensures s in symbolConsumers ==> exists c :: s in SymbolsFor(c)
    {
      if s in symbolConsumers {
        var c :| c in symbolConsumers[s];
        assert s in SymbolsFor(c);
      }
    }

    predicate HasSubscribers(s: Symbol)
      requires Consistent()
      reads this
      ensures HasSubscribers(s) <==> exists c :: s in SymbolsFor(c)
    {
      EveryIndexedSymbolIsHad(s);
      s in symbolConsumers && symbolConsumers[s] != {}
    }

    /** The total of subscriptions is also the total of consumers over all symbols. */
    method GetStats() returns (stats: Stats)
      requires Consistent()
      ensures stats.totalConsumers == |subscriptions| && stats.totalUniqueSymbols == |symbolConsumers|
      ensures stats.totalSubscriptions == SumOver(Sizes(SymbolsOf(subscriptions))) == SumOver(Sizes(symbolConsumers))
      ensures stats.messagesSent == SumOver(MessagesOf(subscriptions))
    {
      var total, messages := 0, 0;
      var rest := subscriptions;
      while rest != map[]
        invariant rest.Keys <= subscriptions.Keys
        invariant total + SumOver(Sizes(SymbolsOf(rest))) == SumOver(Sizes(SymbolsOf(subscriptions)))
        invariant messages + SumOver(MessagesOf(rest)) == SumOver(MessagesOf(subscriptions))
        decreases |rest|
      {
        var c :| c in rest;
        VisitConsumer(rest, c);
        total := total + |rest[c].symbols|;
        messages := messages + rest[c].messagesSent;
        rest := rest - {c};
      }
      NothingLeft();
      TotalsAgree(subscriptions, symbolConsumers);
      stats := Stats(|subscriptions|, |symbolConsumers|, total, messages);
    }
  }

  lemma NewConsumer(subs: map<Consumer, Subscription>, index: map<Symbol, set<Consumer>>, c: Consumer)
    requires Mirror(subs, index) && c !in subs
    ensures Mirror(subs[c := Subscription({}, 0)], index)
  {}

  lemma ForgetConsumer(subs: map<Consumer, Subscription>, index: map<Symbol, set<Consumer>>, c: Consumer)
    requires c in subs && Mirror(With(subs, c, {}), index)
    ensures Mirror(subs - {c}, index)
  {
    var without := With(subs, c, {});
    forall d, s | d in subs - {c} && s in (subs - {c})[d].symbols ensures s in index && d in index[s] {
      assert d in without && s in without[d].symbols;
    }
    forall d, s | s in index && d in index[s] ensures d in subs - {c} && s in (subs - {c})[d].symbols {
      assert d in without && s in without[d].symbols;
    }
  }

  lemma VisitConsumer(subs: map<Consumer, Subscription>, c: Consumer)
    requires c in subs
    ensures SumOver(Sizes(SymbolsOf(subs))) == |subs[c].symbols| + SumOver(Sizes(SymbolsOf(subs - {c})))
    ensures SumOver(MessagesOf(subs)) == subs[c].messagesSent + SumOver(MessagesOf(subs - {c}))
  {
    SumRemove(Sizes(SymbolsOf(subs)), c);
    SumRemove(MessagesOf(subs), c);
    assert Sizes(SymbolsOf(subs)) - {c} == Sizes(SymbolsOf(subs - {c}));
    assert MessagesOf(subs) - {c} == MessagesOf(subs - {c});
  }

  lemma NothingLeft()
    ensures SumOver(Sizes(SymbolsOf(map[]))) == 0 && SumOver(MessagesOf(map[])) == 0
  {
    assert Sizes(SymbolsOf(map[])) == map[] && MessagesOf(map[]) == map[];
  }
}
