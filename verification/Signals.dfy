/** Strategies that follow an opinion: they buy when flat and told up, sell when long and
    told down, and hold otherwise. All three strategies turn out to be of this kind. */
module Signals {
  datatype Signal = Buy | Sell | Hold
  datatype Opinion = Up | Down | Neutral

  function SignalFor(long: bool, o: Opinion): Signal {
    if o == Up && !long then Buy else if o == Down && long then Sell else Hold
  }

  function LongAfter(os: seq<Opinion>): bool {
    if os == [] then false
    else match os[|os| - 1]
      case Up => true
      case Down => false
      case Neutral => LongAfter(os[..|os| - 1])
  }

  function SignalsOf(os: seq<Opinion>): (ss: seq<Signal>)
    ensures |ss| == |os|
  {
    if os == [] then []
    else SignalsOf(os[..|os| - 1]) + [SignalFor(LongAfter(os[..|os| - 1]), os[|os| - 1])]
  }

  /** The signals that are not Hold. */
  function Trades(ss: seq<Signal>): seq<Signal> {
    if ss == [] then []
    else Trades(ss[..|ss| - 1]) + if ss[|ss| - 1] == Hold then [] else [ss[|ss| - 1]]
  }

  lemma PositionFollowsSignal(os: seq<Opinion>, o: Opinion)
    ensures LongAfter(os + [o]) == match SignalFor(LongAfter(os), o)
      case Buy => true
      case Sell => false
      case Hold => LongAfter(os)
    ensures SignalsOf(os + [o]) == SignalsOf(os) + [SignalFor(LongAfter(os), o)]
  {
    assert (os + [o])[..|os|] == os;
  }

  /** Buy, Sell, Buy, and so on. */
  ghost predicate Alternating(trades: seq<Signal>) {
    forall i :: 0 <= i < |trades| ==> trades[i] == if i % 2 == 0 then Buy else Sell
  }

  /** Trades alternate, starting with Buy; the position is long after an odd number of them. */
  lemma {:induction false} TradesAlternate(os: seq<Opinion>)
    ensures Alternating(Trades(SignalsOf(os)))
    ensures LongAfter(os) <==> |Trades(SignalsOf(os))| % 2 == 1
  {
    if os != [] {
      var n := |os| - 1;
      TradesAlternate(os[..n]);
      assert SignalsOf(os)[..n] == SignalsOf(os[..n]);
    }
  }

  /** The last opinion that is not neutral is that at i. */
  ghost predicate LastOpinion(os: seq<Opinion>, i: nat) {
    i < |os| && os[i] != Neutral && forall j :: i < j < |os| ==> os[j] == Neutral
  }

  /** Long exactly when the last opinion that is not neutral is up. */
  lemma {:induction false} LongIffLastOpinionIsUp(os: seq<Opinion>)
    ensures LongAfter(os) <==> exists i: nat :: LastOpinion(os, i) && os[i] == Up
  {
    if os != [] {
      var n: nat := |os| - 1;
      LongIffLastOpinionIsUp(os[..n]);
      if os[n] == Neutral {
        forall i: nat ensures LastOpinion(os, i) <==> LastOpinion(os[..n], i) {
          if LastOpinion(os[..n], i) { assert os[i] == os[..n][i]; assert forall j :: i < j < n ==> os[j] == os[..n][j]; }
          if LastOpinion(os, i) { assert i != n; assert forall j :: i < j < n ==> os[..n][j] == os[j]; }
        }
        if LongAfter(os[..n]) {
          var i: nat :| LastOpinion(os[..n], i) && os[..n][i] == Up;
          assert LastOpinion(os, i) && os[i] == Up;
        }
        if i: nat :| LastOpinion(os, i) && os[i] == Up {
          assert LastOpinion(os[..n], i) && os[..n][i] == Up;
        }
      } else {
        assert LastOpinion(os, n);
        assert forall i: nat :: LastOpinion(os, i) ==> i == n;
      }
    }
  }

  /** What is bought and sold on, and when. */
  lemma {:induction false} SignalsMean(os: seq<Opinion>, k: nat)
    requires k < |os|
    ensures SignalsOf(os)[k] == Buy <==> os[k] == Up && !LongAfter(os[..k])
    ensures SignalsOf(os)[k] == Sell <==> os[k] == Down && LongAfter(os[..k])
    decreases |os|
  {
    var n := |os| - 1;
    if k < n {
      SignalsMean(os[..n], k);
      assert os[..n][..k] == os[..k];
    }
  }

  /** The opinion each new element gives, as a function of all elements up to it. */
  function OpinionsOver<T>(xs: seq<T>, f: seq<T> -> Opinion): (os: seq<Opinion>)
    ensures |os| == |xs| && forall i :: 0 <= i < |xs| ==> os[i] == f(xs[..i + 1])
  {
    seq(|xs|, i requires 0 <= i < |xs| => f(xs[..i + 1]))
  }

  lemma OpinionsOverPrefix<T>(xs: seq<T>, f: seq<T> -> Opinion, k: nat)
    requires k <= |xs|
    ensures OpinionsOver(xs, f)[..k] == OpinionsOver(xs[..k], f)
  {
    forall i | 0 <= i < k ensures OpinionsOver(xs, f)[i] == OpinionsOver(xs[..k], f)[i] {
      assert xs[..k][..i + 1] == xs[..i + 1];
    }
  }

  lemma OpinionsOverLast<T>(xs: seq<T>, f: seq<T> -> Opinion)
    requires xs != []
    ensures var before, os := OpinionsOver(xs[..|xs| - 1], f), OpinionsOver(xs, f);
      var signal := SignalFor(LongAfter(before), f(xs));
      && SignalsOf(os)[|os| - 1] == signal
      && (LongAfter(os) <==> signal == Buy || (signal == Hold && LongAfter(before)))
  {
    var before := OpinionsOver(xs[..|xs| - 1], f);
    assert xs[..|xs|] == xs;
    forall i | 0 <= i < |xs| - 1 ensures before[i] == OpinionsOver(xs, f)[i] {
      assert xs[..|xs| - 1][..i + 1] == xs[..i + 1];
    }
    assert OpinionsOver(xs, f) == before + [f(xs)];
    PositionFollowsSignal(before, f(xs));
  }
}
