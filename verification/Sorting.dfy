/** Stable sorting by an integer key, as Rust's `sort_by_key` and the priority
    insertion of the job queue use it, together with what makes a stable sort
    unique: it is ordered, and it keeps the order inside every key class. */
module Sorting {

  /** The first position whose key is greater than x's, or the end. */
  function Slot<T>(s: seq<T>, key: T -> int, x: T): (i: nat)
    ensures i <= |s|
    ensures forall j :: 0 <= j < i ==> key(s[j]) <= key(x)
    ensures i < |s| ==> key(s[i]) > key(x)
  {
    if s == [] || key(s[0]) > key(x) then 0 else 1 + Slot(s[1..], key, x)
  }

  function Insert<T>(s: seq<T>, key: T -> int, x: T): seq<T> {
    var i := Slot(s, key, x);
    s[..i] + [x] + s[i..]
  }

  function SortBy<T>(s: seq<T>, key: T -> int): (r: seq<T>)
    ensures |r| == |s|
  {
    if s == [] then [] else Insert(SortBy(s[..|s| - 1], key), key, s[|s| - 1])
  }

  ghost predicate Ordered<T>(s: seq<T>, key: T -> int) {
    forall i, j :: 0 <= i < j < |s| ==> key(s[i]) <= key(s[j])
  }

  /** The elements of s with key k, in order. */
  function OfKey<T>(s: seq<T>, key: T -> int, k: int): seq<T> {
    if s == [] then []
    else OfKey(s[..|s| - 1], key, k) + (if key(s[|s| - 1]) == k then [s[|s| - 1]] else [])
  }

  /** t is s stably sorted: ordered, with every key class in the order of s. */
  ghost predicate StableSortOf<T(!new)>(t: seq<T>, s: seq<T>, key: T -> int) {
    && Ordered(t, key)
    && forall k: int :: OfKey(t, key, k) == OfKey(s, key, k)
  }

  lemma {:induction false} OfKeyConcat<T>(a: seq<T>, b: seq<T>, key: T -> int, k: int)
    ensures OfKey(a + b, key, k) == OfKey(a, key, k) + OfKey(b, key, k)
  {
    if b == [] {
      assert a + b == a;
    } else {
      var n := |b| - 1;
      assert (a + b)[..|a + b| - 1] == a + b[..n];
      OfKeyConcat(a, b[..n], key, k);
    }
  }

  lemma OfKeySplit<T>(s: seq<T>, i: nat, key: T -> int, k: int)
    requires i < |s|
    ensures OfKey(s, key, k)
         == OfKey(s[..i], key, k) + (if key(s[i]) == k then [s[i]] else []) + OfKey(s[i + 1..], key, k)
  {
    assert s == s[..i] + ([s[i]] + s[i + 1..]);
    OfKeyConcat(s[..i], [s[i]] + s[i + 1..], key, k);
    OfKeyConcat([s[i]], s[i + 1..], key, k);
    assert [s[i]][..0] == [];
  }

  lemma {:induction false} OfKeyMember<T>(s: seq<T>, key: T -> int, k: int, x: T)
    ensures x in OfKey(s, key, k) <==> x in s && key(x) == k
  {
    if s != [] {
      OfKeyMember(s[..|s| - 1], key, k, x);
      assert s == s[..|s| - 1] + [s[|s| - 1]];
    }
  }

  /** A stable sort is unique. */
  lemma {:induction false} StableSortUnique<T(!new)>(t: seq<T>, u: seq<T>, key: T -> int)
    requires Ordered(t, key) && Ordered(u, key)
    requires forall k: int :: OfKey(t, key, k) == OfKey(u, key, k)
    ensures t == u
    decreases |t|
  {
    if t != [] { LastIsIn(t, u, key); }
    if u != [] { LastIsIn(u, t, key); }
    if t != [] {
      LastAgree(t, u, key);
      var t', u' := t[..|t| - 1], u[..|u| - 1];
      forall k: int ensures OfKey(t', key, k) == OfKey(u', key, k) {
        LastOfClass(t, key, k);
        LastOfClass(u, key, k);
      }
      StableSortUnique(t', u', key);
    }
  }

  lemma LastOfClass<T>(s: seq<T>, key: T -> int, k: int)
    requires s != []
    ensures var f := OfKey(s, key, k);
      OfKey(s[..|s| - 1], key, k) == if key(s[|s| - 1]) == k then f[..|f| - 1] else f
    ensures key(s[|s| - 1]) == k ==> OfKey(s, key, k) != [] && OfKey(s, key, k)[|OfKey(s, key, k)| - 1] == s[|s| - 1]
  {}

  lemma LastAgree<T(!new)>(t: seq<T>, u: seq<T>, key: T -> int)
    requires Ordered(t, key) && Ordered(u, key)
    requires t != [] && u != []
    requires OfKey(t, key, key(t[|t| - 1])) == OfKey(u, key, key(t[|t| - 1]))
    requires OfKey(t, key, key(u[|u| - 1])) == OfKey(u, key, key(u[|u| - 1]))
    ensures t[|t| - 1] == u[|u| - 1]
  {
    var x, y := t[|t| - 1], u[|u| - 1];
    LastIsIn(t, u, key);
    LastIsIn(u, t, key);
    assert key(x) == key(y);
    LastOfClass(t, key, key(x));
    LastOfClass(u, key, key(x));
  }

  lemma LastIsIn<T>(t: seq<T>, u: seq<T>, key: T -> int)
    requires Ordered(u, key)
    requires t != [] && OfKey(t, key, key(t[|t| - 1])) == OfKey(u, key, key(t[|t| - 1]))
    ensures u != [] && key(t[|t| - 1]) <= key(u[|u| - 1])
  {
    hide OfKey;
    var x := t[|t| - 1];
    OfKeyMember(t, key, key(x), x);
    OfKeyMember(u, key, key(x), x);
  }

  lemma OfKeySingle<T>(x: T, key: T -> int, k: int)
    ensures OfKey([x], key, k) == if key(x) == k then [x] else []
  {
    assert [x][..0] == [];
  }

  lemma OfKeyAppend<T>(s: seq<T>, x: T, key: T -> int, k: int)
    ensures OfKey(s + [x], key, k) == OfKey(s, key, k) + if key(x) == k then [x] else []
  {
    assert (s + [x])[..|s|] == s;
  }

  /** Insertion puts x behind everything of its own key and changes no other key class. */
  lemma InsertInClass<T>(t: seq<T>, key: T -> int, x: T, k: int)
    requires Ordered(t, key)
    ensures OfKey(Insert(t, key, x), key, k) == OfKey(t, key, k) + (if key(x) == k then [x] else [])
  {
    hide OfKey, Slot;
    var i := Slot(t, key, x);
    var a, b := t[..i], t[i..];
    assert t == a + b;
    OfKeyConcat(a, b, key, k);
    OfKeyConcat(a, [x], key, k);
    OfKeyConcat(a + [x], b, key, k);
    OfKeySingle(x, key, k);
    if key(x) == k && OfKey(b, key, k) != [] {
      OfKeyMember(b, key, k, OfKey(b, key, k)[0]);
    }
  }

  lemma InsertOrdered<T>(t: seq<T>, key: T -> int, x: T)
    requires Ordered(t, key)
    ensures Ordered(Insert(t, key, x), key)
  {}

  /** Inserting after the equal keys extends a stable sort by one arrival. */
  lemma InsertIsStable<T(!new)>(t: seq<T>, s: seq<T>, key: T -> int, x: T)
    requires StableSortOf(t, s, key)
    ensures StableSortOf(Insert(t, key, x), s + [x], key)
  {
    InsertOrdered(t, key, x);
    forall k: int ensures OfKey(Insert(t, key, x), key, k) == OfKey(s + [x], key, k) {
      InsertInClass(t, key, x, k);
      assert (s + [x])[..|s|] == s;
    }
  }

  /** SortBy is a stable sort, it permutes its input, and it leaves ordered input alone. */
  lemma {:induction false} SortByIsStableSort<T(!new)>(s: seq<T>, key: T -> int)
    ensures StableSortOf(SortBy(s, key), s, key)
  {
    if s != [] {
      var x := s[|s| - 1];
      assert s == s[..|s| - 1] + [x];
      SortByIsStableSort(s[..|s| - 1], key);
      InsertIsStable(SortBy(s[..|s| - 1], key), s[..|s| - 1], key, x);
    }
  }

  lemma InsertPermutes<T>(s: seq<T>, key: T -> int, x: T)
    ensures multiset(Insert(s, key, x)) == multiset(s) + multiset{x}
  {
    var i := Slot(s, key, x);
    assert s == s[..i] + s[i..];
  }

  lemma {:induction false} SortByPermutes<T>(s: seq<T>, key: T -> int)
    ensures multiset(SortBy(s, key)) == multiset(s)
  {
    hide Insert, Slot;
    if s != [] {
      SortByPermutes(s[..|s| - 1], key);
      InsertPermutes(SortBy(s[..|s| - 1], key), key, s[|s| - 1]);
      assert s == s[..|s| - 1] + [s[|s| - 1]];
    }
  }

  /** Sorting by one key keeps the size of every class of another. */
  lemma {:induction false} SortByKeepsClassSizes<T>(s: seq<T>, key: T -> int, other: T -> int, k: int)
    ensures |OfKey(SortBy(s, key), other, k)| == |OfKey(s, other, k)|
  {
    hide OfKey;
    if s != [] {
      var t, x := SortBy(s[..|s| - 1], key), s[|s| - 1];
      var i := Slot(t, key, x);
      SortByKeepsClassSizes(s[..|s| - 1], key, other, k);
      assert t == t[..i] + t[i..] && s == s[..|s| - 1] + [x];
      OfKeyConcat(t[..i], t[i..], other, k);
      OfKeyAppend(t[..i], x, other, k);
      OfKeyConcat(t[..i] + [x], t[i..], other, k);
      OfKeyAppend(s[..|s| - 1], x, other, k);
    }
  }

  lemma SortedIsFixed<T(!new)>(s: seq<T>, key: T -> int)
    requires Ordered(s, key)
    ensures SortBy(s, key) == s
  {
    SortByIsStableSort(s, key);
    StableSortUnique(SortBy(s, key), s, key);
  }

  function RemoveAt<T>(s: seq<T>, i: nat): seq<T>
    requires i < |s|
  {
    s[..i] + s[i + 1..]
  }

  /** The first position that satisfies p, or the end. */
  function FirstWhere<T>(s: seq<T>, p: T -> bool): (i: nat)
    ensures i <= |s|
    ensures forall j :: 0 <= j < i ==> !p(s[j])
    ensures i < |s| ==> p(s[i])
  {
    if s == [] || p(s[0]) then 0 else 1 + FirstWhere(s[1..], p)
  }

  /** Among the elements of s that satisfy p, the one a stable sort puts first:
      the earliest of those with the least key. */
  ghost predicate Best<T>(s: seq<T>, key: T -> int, p: T -> bool, i: int) {
    && 0 <= i < |s| && p(s[i])
    && (forall j :: 0 <= j < |s| && p(s[j]) ==> key(s[i]) <= key(s[j]))
    && (forall j :: 0 <= j < i && p(s[j]) ==> key(s[i]) < key(s[j]))
  }

  /** The best match computed, or -1 when nothing satisfies p. */
  function BestIndex<T>(s: seq<T>, key: T -> int, p: T -> bool): (i: int)
    ensures i == -1 ==> forall j :: 0 <= j < |s| ==> !p(s[j])
    ensures i != -1 ==> Best(s, key, p, i)
  {
    if s == [] then -1 else
    var n := |s| - 1;
    var i := BestIndex(s[..n], key, p);
    if p(s[n]) && (i == -1 || key(s[n]) < key(s[i])) then n else i
  }

  lemma FirstInSplit<T>(a: seq<T>, x: T, b: seq<T>, p: T -> bool)
    requires p(x) && forall z :: z in a ==> !p(z)
    ensures FirstWhere(a + [x] + b, p) == |a|
  {
    var f := a + [x] + b;
    assert f[|a|] == x;
    assert forall j :: 0 <= j < |a| ==> f[j] in a;
  }

  lemma FilterFirst<T>(a: seq<T>, x: T, b: seq<T>, a': seq<T>, y: T, b': seq<T>, p: T -> bool)
    requires a + [x] + b == a' + [y] + b'
    requires p(x) && p(y) && (forall z :: z in a ==> !p(z)) && (forall z :: z in a' ==> !p(z))
    ensures x == y && a == a' && b == b'
  {
    FirstInSplit(a, x, b, p);
    FirstInSplit(a', y, b', p);
    var f := a + [x] + b;
    assert f[|a|] == x && f[|a'|] == y;
    assert a == f[..|a|] && a' == f[..|a'|];
    assert b == f[|a| + 1..] && b' == f[|a'| + 1..];
  }

  /** Removing an element removes it from its key class only. */
  lemma RemoveFromClass<T>(s: seq<T>, i: nat, key: T -> int, k: int)
    requires i < |s|
    ensures OfKey(RemoveAt(s, i), key, k) == OfKey(s[..i], key, k) + OfKey(s[i + 1..], key, k)
    ensures OfKey(s, key, k)
         == OfKey(s[..i], key, k) + (if key(s[i]) == k then [s[i]] else []) + OfKey(s[i + 1..], key, k)
  {
    OfKeyConcat(s[..i], s[i + 1..], key, k);
    OfKeySplit(s, i, key, k);
  }

  lemma SameRest<T>(a: multiset<T>, b: multiset<T>, x: T)
    requires a + multiset{x} == b + multiset{x}
    ensures a == b
  {
    assert a == (a + multiset{x}) - multiset{x};
    assert b == (b + multiset{x}) - multiset{x};
  }

  lemma RemoveAtMultiset<T>(s: seq<T>, i: nat)
    requires i < |s|
    ensures multiset(s) == multiset(RemoveAt(s, i)) + multiset{s[i]}
  {
    assert s == s[..i] + [s[i]] + s[i + 1..];
  }

  lemma RemoveOrdered<T>(s: seq<T>, i: nat, key: T -> int)
    requires i < |s| && Ordered(s, key)
    ensures Ordered(RemoveAt(s, i), key)
  {}

  /** The first match of a stable sort is the best match of its input. */
  lemma FirstIsBest<T(!new)>(t: seq<T>, s: seq<T>, key: T -> int, p: T -> bool) returns (i: nat)
    requires StableSortOf(t, s, key)
    requires FirstWhere(t, p) < |t|
    ensures Best(s, key, p, i) && t[FirstWhere(t, p)] == s[i]
    ensures var pos, k := FirstWhere(t, p), key(s[i]);
      && OfKey(t[..pos], key, k) == OfKey(s[..i], key, k)
      && OfKey(t[pos + 1..], key, k) == OfKey(s[i + 1..], key, k)
  {
    var pos := FirstWhere(t, p);
    var x := t[pos];
    var k := key(x);
    var q := (z: T) => p(z) && key(z) == k;
    i := FirstWhere(s, q);
    assert i < |s| by {
      OfKeyMember(t, key, k, x);
      OfKeyMember(s, key, k, x);
    }
    FirstClassSplit(t, pos, s, i, key, p);
    forall j | 0 <= j < |s| && p(s[j]) ensures k <= key(s[j]) && (j < i ==> k < key(s[j])) {
      OfKeyMember(s, key, key(s[j]), s[j]);
      OfKeyMember(t, key, key(s[j]), s[j]);
      var m :| 0 <= m < |t| && t[m] == s[j];
      assert pos <= m;
    }
  }

  lemma FirstClassSplit<T(!new)>(t: seq<T>, pos: nat, s: seq<T>, i: nat, key: T -> int, p: T -> bool)
    requires pos < |t| && i < |s| && key(t[pos]) == key(s[i]) && p(t[pos]) && p(s[i])
    requires OfKey(t, key, key(s[i])) == OfKey(s, key, key(s[i]))
    requires forall j :: 0 <= j < pos ==> !p(t[j])
    requires forall j :: 0 <= j < i && key(s[j]) == key(s[i]) ==> !p(s[j])
    ensures t[pos] == s[i]
    ensures OfKey(t[..pos], key, key(s[i])) == OfKey(s[..i], key, key(s[i]))
    ensures OfKey(t[pos + 1..], key, key(s[i])) == OfKey(s[i + 1..], key, key(s[i]))
  {
    var k := key(s[i]);
    OfKeySplit(t, pos, key, k);
    OfKeySplit(s, i, key, k);
    forall z | z in OfKey(t[..pos], key, k) ensures !p(z) { OfKeyMember(t[..pos], key, k, z); }
    forall z | z in OfKey(s[..i], key, k) ensures !p(z) { OfKeyMember(s[..i], key, k, z); }
    FilterFirst(OfKey(t[..pos], key, k), t[pos], OfKey(t[pos + 1..], key, k),
                OfKey(s[..i], key, k), s[i], OfKey(s[i + 1..], key, k), p);
  }

  /** Taking the first match out of the sorted list is taking the best match out
      of the arrival list. */
  lemma TakeFirstIsTakeBest<T(!new)>(t: seq<T>, s: seq<T>, key: T -> int, p: T -> bool) returns (i: nat)
    requires StableSortOf(t, s, key)
    requires FirstWhere(t, p) < |t|
    ensures Best(s, key, p, i)
    ensures t[FirstWhere(t, p)] == s[i]
    ensures StableSortOf(RemoveAt(t, FirstWhere(t, p)), RemoveAt(s, i), key)
  {
    hide OfKey, RemoveAt;
    var pos := FirstWhere(t, p);
    i := FirstIsBest(t, s, key, p);
    RemoveOrdered(t, pos, key);
    forall h: int ensures OfKey(RemoveAt(t, pos), key, h) == OfKey(RemoveAt(s, i), key, h) {
      RemoveFromClass(t, pos, key, h);
      RemoveFromClass(s, i, key, h);
      if key(s[i]) != h {
        assert OfKey(t[..pos], key, h) + [] == OfKey(t[..pos], key, h);
        assert OfKey(s[..i], key, h) + [] == OfKey(s[..i], key, h);
      }
    }
  }
}
