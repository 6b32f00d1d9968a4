/**
 What one operation of the front pool, run alone, does to its ready queue. The queue is a sequence,
 head first; the methods of FrontPool are proved against these functions.
 */
module QueueSpec {
  import opened Common

  /** maxProviderScan */
  const MAX_PROVIDER_SCAN := 8

  /** The queue after addReady: x is queued once, or dropped when the queue is full. */
  function Added<T(==)>(q: seq<T>, cap: nat, x: T): seq<T> {
    if x in q || |q| == cap then q else q + [x]
  }

  /** How many fronts TakePreferringUntried may look at: the one it took and those it scans. */
  function Window<T>(q: seq<T>): nat {
    Min(|q|, MAX_PROVIDER_SCAN + 1)
  }

  /** The position TakePreferringUntried selects. */
  function Preferred<T>(q: seq<T>, untried: T -> bool): (i: nat)
    requires q != []
    ensures i < Window(q)
    ensures untried(q[i]) || (i == 0 && forall j :: 0 <= j < Window(q) ==> !untried(q[j]))
    ensures forall j :: 0 <= j < i ==> !untried(q[j])
  {
    var i := IndexWhere(q[..Window(q)], untried);
    assert forall j :: 0 <= j < Window(q) ==> q[..Window(q)][j] == q[j];
    if i < Window(q) then i else 0
  }

  /** The queue it leaves: the unscanned suffix followed by the skipped fronts in order. */
  function AfterPreferred<T>(q: seq<T>, untried: T -> bool): seq<T>
    requires q != []
  {
    var i := Preferred(q, untried);
    if untried(q[i]) then q[i + 1..] + q[..i] else q[Window(q)..] + q[1..Window(q)]
  }

  lemma PreferredFound<T>(q: seq<T>, untried: T -> bool, i: nat)
    requires i < Window(q) && untried(q[i]) && forall j :: 0 <= j < i ==> !untried(q[j])
    ensures Preferred(q, untried) == i && AfterPreferred(q, untried) == q[i + 1..] + q[..i]
  {
  }

  lemma PreferredFallsBack<T>(q: seq<T>, untried: T -> bool)
    requires q != [] && forall j :: 0 <= j < Window(q) ==> !untried(q[j])
    ensures Preferred(q, untried) == 0
    ensures AfterPreferred(q, untried) == q[Window(q)..] + q[1..Window(q)]
  {
  }

  /** The selected front leaves the queue and nothing else does. */
  lemma PreferredRemoved<T>(q: seq<T>, untried: T -> bool)
    requires q != []
    ensures multiset(AfterPreferred(q, untried)) + multiset{q[Preferred(q, untried)]} == multiset(q)
  {
    var i := Preferred(q, untried);
    if untried(q[i]) {
      RotatedAround(q, i);
    } else {
      var rest, w := q[1..], Window(q) - 1;
      assert q == [q[0]] + rest;
      assert rest == rest[..w] + rest[w..];
      assert AfterPreferred(q, untried) == rest[w..] + rest[..w];
    }
  }

  /** The queue tryTakeFrom leaves. */
  function AfterTakeFrom<T>(q: seq<T>, accepts: T -> bool): seq<T> {
    var i := IndexWhere(q, accepts);
    if i < |q| then q[i + 1..] + q[..i] else q
  }

  /** Position i of q is the first that holds an accepted front. */
  ghost predicate FirstAccepted<T>(q: seq<T>, accepts: T -> bool, i: int) {
    0 <= i < |q| && accepts(q[i]) && forall j :: 0 <= j < i ==> !accepts(q[j])
  }

  /** The suffix comes first, then the skipped prefix, each in order. */
  lemma TakeFromMeans<T>(q: seq<T>, accepts: T -> bool)
    ensures forall i :: FirstAccepted(q, accepts, i) ==>
              IndexWhere(q, accepts) == i && AfterTakeFrom(q, accepts) == q[i + 1..] + q[..i]
    ensures (forall x :: x in q ==> !accepts(x)) ==> IndexWhere(q, accepts) == |q| && AfterTakeFrom(q, accepts) == q
  {
    forall i | FirstAccepted(q, accepts, i)
      ensures IndexWhere(q, accepts) == i && AfterTakeFrom(q, accepts) == q[i + 1..] + q[..i]
    {
      IndexWhereUnique(q, accepts, i);
    }
  }

  /** It removes the first accepted front and keeps all others; with none accepted it changes nothing. */
  lemma TakeFromRemoves<T>(q: seq<T>, accepts: T -> bool)
    ensures var i := IndexWhere(q, accepts);
            if i < |q| then multiset(AfterTakeFrom(q, accepts)) + multiset{q[i]} == multiset(q)
            else AfterTakeFrom(q, accepts) == q && forall x :: x in q ==> !accepts(x)
  {
    var i := IndexWhere(q, accepts);
    if i < |q| {
      assert AfterTakeFrom(q, accepts) == q[i + 1..] + q[..i];
      hide *;
      RotatedAround(q, i);
    } else {
      forall x | x in q ensures !accepts(x) {
        var j :| 0 <= j < |q| && q[j] == x;
      }
    }
  }

  // ----- how long an untried provider can be kept waiting

  /** The queue after a call that fell back to its head, which is then returned for requeue or as failed. */
  function AfterFallback<T(==)>(q: seq<T>, cap: nat, untried: T -> bool, requeue: bool): seq<T>
    requires q != []
  {
    var f, rest := q[Preferred(q, untried)], AfterPreferred(q, untried);
    if requeue then Added(rest, cap, f) else rest
  }

  /** Returning a fallback for requeue finds it gone from the queue and room for it, so it joins the tail. */
  lemma FallbackFits<T>(q: seq<T>, cap: nat, untried: T -> bool, requeue: bool)
    requires q != [] && NoDup(q) && |q| <= cap
    ensures var next := AfterFallback(q, cap, untried, requeue);
            && next == AfterPreferred(q, untried) + (if requeue then [q[Preferred(q, untried)]] else [])
            && NoDup(next) && |next| <= cap
  {
    PreferredRemoved(q, untried);
    NoDupWithout(q, q[Preferred(q, untried)], AfterPreferred(q, untried));
  }

  /** Repeated calls select x, of an untried provider, on the n-th call and fall back on all earlier ones. */
  ghost predicate SelectsOnCall<T>(q: seq<T>, cap: nat, untried: T -> bool, requeue: nat -> bool, x: T, n: nat)
    requires n > 0
    decreases n
  {
    && q != []
    && var selected := q[Preferred(q, untried)];
       if n == 1 then untried(selected) && selected == x
       else !untried(selected)
            && SelectsOnCall(AfterFallback(q, cap, untried, requeue(n)), cap, untried, requeue, x, n - 1)
  }

  lemma ShiftedIndex<T>(q: seq<T>, rest: seq<T>, untried: T -> bool, w: nat)
    requires w <= IndexWhere(q, untried) < |q|
    ensures var p, next := IndexWhere(q, untried), q[w..] + rest;
            IndexWhere(next, untried) == p - w && p - w < |next| && next[p - w] == q[p]
  {
    var p, next := IndexWhere(q, untried), q[w..] + rest;
    assert forall j :: 0 <= j <= p - w ==> next[j] == q[j + w];
    hide IndexWhere;
    IndexWhereUnique(next, untried, p - w);
  }

  /** A fallback brings the first untried front nine places nearer the head. */
  lemma FallbackAdvances<T>(q: seq<T>, cap: nat, untried: T -> bool, requeue: bool)
    requires Window(q) <= IndexWhere(q, untried) < |q| && NoDup(q) && |q| <= cap
    ensures !untried(q[Preferred(q, untried)])
    ensures var p, next := IndexWhere(q, untried), AfterFallback(q, cap, untried, requeue);
            var p' := p - (MAX_PROVIDER_SCAN + 1);
            p' >= 0 && IndexWhere(next, untried) == p' && p' < |next| && next[p'] == q[p]
  {
    var w := MAX_PROVIDER_SCAN + 1;
    assert Window(q) == w;
    PreferredFallsBack(q, untried);
    FallbackFits(q, cap, untried, requeue);
    hide *;
    var back := if requeue then [q[Preferred(q, untried)]] else [];
    assert q[w..] + q[1..w] + back == q[w..] + (q[1..w] + back);
    ShiftedIndex(q, q[1..w] + back, untried, w);
  }

  /** floor(p / (maxProviderScan + 1)) + 1 */
  function CallNumber(p: nat): (n: nat)
    ensures n > 0
    ensures p < MAX_PROVIDER_SCAN + 1 ==> n == 1
  {
    p / (MAX_PROVIDER_SCAN + 1) + 1
  }

  lemma NextCallNumber(p: nat)
    requires p >= MAX_PROVIDER_SCAN + 1
    ensures CallNumber(p) == CallNumber(p - (MAX_PROVIDER_SCAN + 1)) + 1
  {
  }

  lemma SelectedAtOnce<T>(q: seq<T>, cap: nat, untried: T -> bool, requeue: nat -> bool)
    requires IndexWhere(q, untried) < Window(q)
    ensures SelectsOnCall(q, cap, untried, requeue, q[IndexWhere(q, untried)], 1)
  {
    hide AfterFallback, AfterPreferred;
    var i, p := Preferred(q, untried), IndexWhere(q, untried);
    assert untried(q[i]) && i <= p;
  }

  lemma OneMoreCall<T>(q: seq<T>, cap: nat, untried: T -> bool, requeue: nat -> bool, x: T, n: nat)
    requires q != [] && !untried(q[Preferred(q, untried)])
    requires n > 0 && SelectsOnCall(AfterFallback(q, cap, untried, requeue(n + 1)), cap, untried, requeue, x, n)
    ensures SelectsOnCall(q, cap, untried, requeue, x, n + 1)
  {
  }

  /** The first untried front, at position p, is selected on call CallNumber(p). */
  lemma {:induction false} SelectedOnCallNumber<T>(q: seq<T>, cap: nat, untried: T -> bool, requeue: nat -> bool)
    requires IndexWhere(q, untried) < |q| && NoDup(q) && |q| <= cap
    ensures SelectsOnCall(q, cap, untried, requeue, q[IndexWhere(q, untried)],
                          CallNumber(IndexWhere(q, untried)))
    decreases IndexWhere(q, untried)
  {
    hide SelectsOnCall, Preferred, AfterPreferred, AfterFallback, CallNumber;
    var p := IndexWhere(q, untried);
    if p < Window(q) {
      SelectedAtOnce(q, cap, untried, requeue);
    } else {
      var n := CallNumber(p - (MAX_PROVIDER_SCAN + 1));
      FallbackAdvances(q, cap, untried, requeue(n + 1));
      FallbackFits(q, cap, untried, requeue(n + 1));
      SelectedOnCallNumber(AfterFallback(q, cap, untried, requeue(n + 1)), cap, untried, requeue);
      OneMoreCall(q, cap, untried, requeue, q[p], n);
      NextCallNumber(p);
    }
  }

  /** The first untried front, at position p, is selected on call floor(p / 9) + 1. */
  lemma UntriedWithinNinths<T>(q: seq<T>, cap: nat, untried: T -> bool, requeue: nat -> bool)
    requires IndexWhere(q, untried) < |q| && NoDup(q) && |q| <= cap
    ensures SelectsOnCall(q, cap, untried, requeue, q[IndexWhere(q, untried)], IndexWhere(q, untried) / 9 + 1)
  {
    hide SelectsOnCall;
    SelectedOnCallNumber(q, cap, untried, requeue);
  }
}
