/**
 Where the fronts go in the retry loop, among threads that do what they like to the pool: an account of what
 entered and left the ready queue, kept along the loop and balanced at every point.
 */
module RetryLedger {
  import opened Common
  import opened QueueSpec
  import opened FrontPool
  import opened RetryLoop

  /** Fronts by what happened to them, counting repetitions. */
  datatype Ledger = Ledger(
    failed: multiset<Front>,    // taken by the loop and marked failed
    received: multiset<Front>,  // taken by other threads
    added: multiset<Front>,     // queued by other threads
    full: multiset<Front>,      // given back by the loop to a full queue, and dropped
    again: multiset<Front>)     // given back by the loop when another thread had queued them already

  const NOTHING := Ledger(multiset{}, multiset{}, multiset{}, multiset{}, multiset{})

  function Plus(a: Ledger, b: Ledger): Ledger {
    Ledger(a.failed + b.failed, a.received + b.received, a.added + b.added, a.full + b.full, a.again + b.again)
  }

  /** The account of another thread's operation on q. */
  function OfOp(q: seq<Front>, cap: nat, op: Op): Ledger {
    match op
    case Receive => if q == [] then NOTHING else NOTHING.(received := multiset{q[0]})
    case Add(f) => if f in q || |q| == cap then NOTHING else NOTHING.(added := multiset{f})
    case Mark(_, _) => NOTHING
  }

  function OfOps(q: seq<Front>, cap: nat, ops: seq<Op>): Ledger {
    if ops == [] then NOTHING
    else
      var n := |ops| - 1;
      Plus(OfOps(q, cap, ops[..n]), OfOp(Played(q, cap, ops[..n]), cap, ops[n]))
  }

  /** The account of giving back the front of attempt a. */
  function OfGiveBack(q: seq<Front>, cap: nat, a: Attempt): Ledger {
    var f := multiset{a.front};
    if a.fate.MarkedFailed? then NOTHING.(failed := f)
    else if a.front in q then NOTHING.(again := f)
    else if |q| == cap then NOTHING.(full := f)
    else NOTHING
  }

  /** The account of attempt i, which takes its front from q. */
  function OfAttempt(w: World, cap: nat, i: nat, q: seq<Front>, tried: set<string>): Ledger
    requires q != []
  {
    var rest := AfterPreferred(q, Untried(tried));
    Plus(OfOps(rest, cap, w.during(i)),
         OfGiveBack(Played(rest, cap, w.during(i)), cap, Try(w, i, Chosen(q, tried))))
  }

  /** The account of Retry. */
  function OfRetry(w: World, cap: nat, max: int, closed: bool, i: nat, was: seq<Front>, tried: set<string>): Ledger
    decreases max - i
  {
    var q, waiting := Played(was, cap, w.before(i)), OfOps(was, cap, w.before(i));
    if i >= max then NOTHING
    else if !CanTake(w, i, q, closed) then waiting
    else
      var a := Try(w, i, Chosen(q, tried));
      var here := Plus(waiting, OfAttempt(w, cap, i, q, tried));
      if a.conn.ConnCarried? || (a.conn.ConnClosed? && !w.bodyOk(i)) then here
      else Plus(here, OfRetry(w, cap, max, closed, i + 1, AfterAttempt(w, cap, i, q, tried), MarkTried(tried, a)))
  }

  /** Nothing else entered or left between queue was and queue q. */
  ghost predicate Balanced(was: seq<Front>, l: Ledger, q: seq<Front>) {
    multiset(q) + l.failed + l.received + l.full + l.again == multiset(was) + l.added
  }

  lemma BalancedPlus(a: seq<Front>, l: Ledger, b: seq<Front>, m: Ledger, c: seq<Front>)
    requires Balanced(a, l, b) && Balanced(b, m, c)
    ensures Balanced(a, Plus(l, m), c)
  {
    var n := Plus(l, m);
    forall f: Front ensures (multiset(c) + n.failed + n.received + n.full + n.again)[f] == (multiset(a) + n.added)[f] {
      assert (multiset(b) + l.failed + l.received + l.full + l.again)[f] == (multiset(a) + l.added)[f];
      assert (multiset(c) + m.failed + m.received + m.full + m.again)[f] == (multiset(b) + m.added)[f];
    }
  }

  ghost predicate Orderly(q: seq<Front>, cap: nat) {
    NoDup(q) && |q| <= cap
  }

  lemma OpBalance(q: seq<Front>, cap: nat, op: Op)
    requires Orderly(q, cap)
    ensures Orderly(PlayedOne(q, cap, op), cap) && Balanced(q, OfOp(q, cap, op), PlayedOne(q, cap, op))
  {
    if op.Receive? && q != [] {
      assert q == [q[0]] + q[1..];
    }
  }

  lemma {:induction false} OpsBalance(q: seq<Front>, cap: nat, ops: seq<Op>)
    requires Orderly(q, cap)
    ensures Orderly(Played(q, cap, ops), cap) && Balanced(q, OfOps(q, cap, ops), Played(q, cap, ops))
  {
    if ops != [] {
      var n := |ops| - 1;
      OpsBalance(q, cap, ops[..n]);
      var before := Played(q, cap, ops[..n]);
      OpBalance(before, cap, ops[n]);
      hide Balanced, Plus, OfOp, PlayedOne, Orderly;
      BalancedPlus(q, OfOps(q, cap, ops[..n]), before, OfOp(before, cap, ops[n]), PlayedOne(before, cap, ops[n]));
    }
  }

  /** The loop holds the front of a since it was taken from queue q. */
  ghost predicate Holding(q: seq<Front>, f: Front, l: Ledger, now: seq<Front>) {
    multiset(now) + multiset{f} + l.failed + l.received + l.full + l.again == multiset(q) + l.added
  }

  lemma GiveBackBalance(q: seq<Front>, cap: nat, a: Attempt)
    requires Orderly(q, cap)
    ensures Orderly(GiveBack(q, cap, a), cap)
    ensures var l, q' := OfGiveBack(q, cap, a), GiveBack(q, cap, a);
            multiset(q') + l.failed + l.full + l.again == multiset(q) + multiset{a.front}
  {
  }

  lemma HeldMeanwhile(q: seq<Front>, f: Front, rest: seq<Front>, l: Ledger, now: seq<Front>)
    requires multiset(rest) + multiset{f} == multiset(q) && Balanced(rest, l, now)
    ensures Holding(q, f, l, now)
  {
    forall g: Front ensures (multiset(now) + multiset{f} + l.failed + l.received + l.full + l.again)[g]
                            == (multiset(q) + l.added)[g] {
      assert (multiset(now) + l.failed + l.received + l.full + l.again)[g] == (multiset(rest) + l.added)[g];
    }
  }

  lemma HoldingThenBack(q: seq<Front>, f: Front, l: Ledger, now: seq<Front>, m: Ledger, q': seq<Front>)
    requires Holding(q, f, l, now)
    requires m.received == multiset{} == m.added
    requires multiset(q') + m.failed + m.full + m.again == multiset(now) + multiset{f}
    ensures Balanced(q, Plus(l, m), q')
  {
    var n := Plus(l, m);
    forall g: Front ensures (multiset(q') + n.failed + n.received + n.full + n.again)[g] == (multiset(q) + n.added)[g] {
      assert (multiset(q') + m.failed + m.full + m.again)[g] == (multiset(now) + multiset{f})[g];
      assert (multiset(now) + multiset{f} + l.failed + l.received + l.full + l.again)[g] == (multiset(q) + l.added)[g];
    }
  }

  lemma AttemptBalance(w: World, cap: nat, i: nat, q: seq<Front>, tried: set<string>)
    requires q != [] && Orderly(q, cap)
    ensures Orderly(AfterAttempt(w, cap, i, q, tried), cap)
    ensures Balanced(q, OfAttempt(w, cap, i, q, tried), AfterAttempt(w, cap, i, q, tried))
  {
    hide Try, AfterPreferred, Preferred, Played, GiveBack, Plus, OfOps;
    var rest, f := AfterPreferred(q, Untried(tried)), Chosen(q, tried);
    var a := Try(w, i, f);
    TakenFromQueue(q, Untried(tried));
    TryMeans(w, i, f);
    OpsBalance(rest, cap, w.during(i));
    var now := Played(rest, cap, w.during(i));
    var l := OfOps(rest, cap, w.during(i));
    HeldMeanwhile(q, f, rest, l, now);
    GiveBackBalance(now, cap, a);
    HoldingThenBack(q, f, l, now, OfGiveBack(now, cap, a), GiveBack(now, cap, a));
  }

  /** The fronts marked failed, in order. */
  function FailedFronts(log: seq<Attempt>): seq<Front> {
    if log == [] then []
    else (if log[0].fate.MarkedFailed? then [log[0].front] else []) + FailedFronts(log[1..])
  }

  lemma {:induction false} OpsFailNone(q: seq<Front>, cap: nat, ops: seq<Op>)
    ensures OfOps(q, cap, ops).failed == multiset{}
  {
    if ops != [] {
      OpsFailNone(q, cap, ops[..|ops| - 1]);
    }
  }

  lemma AttemptFails(w: World, cap: nat, i: nat, q: seq<Front>, tried: set<string>)
    requires q != []
    ensures OfAttempt(w, cap, i, q, tried).failed == multiset(FailedFronts([Try(w, i, Chosen(q, tried))]))
  {
    hide Try, AfterPreferred, Preferred, Played, OfOps, Chosen, Untried;
    var a, rest := Try(w, i, Chosen(q, tried)), AfterPreferred(q, Untried(tried));
    TryMeans(w, i, Chosen(q, tried));
    OpsFailNone(rest, cap, w.during(i));
    assert [a][1..] == [];
  }

  lemma NothingBalances(q: seq<Front>)
    ensures Balanced(q, NOTHING, q)
  {
  }

  /** OfRetry, unfolded as Continue unfolds Retry. */
  lemma AccountContinues(w: World, cap: nat, max: int, closed: bool, i: nat, was: seq<Front>, tried: set<string>)
    requires i < max && CanTake(w, i, Played(was, cap, w.before(i)), closed)
    ensures var q := Played(was, cap, w.before(i));
            var a := Try(w, i, Chosen(q, tried));
            var here := Here(w, cap, i, was, tried);
            OfRetry(w, cap, max, closed, i, was, tried)
            == if a.conn.ConnCarried? || (a.conn.ConnClosed? && !w.bodyOk(i)) then here
               else
                 var q' := AfterAttempt(w, cap, i, q, tried);
                 Plus(here, OfRetry(w, cap, max, closed, i + 1, q', MarkTried(tried, a)))
  {
  }

  /** The account of attempt i, from where the one before left the queue. */
  ghost function Here(w: World, cap: nat, i: nat, was: seq<Front>, tried: set<string>): Ledger
    requires Played(was, cap, w.before(i)) != []
  {
    Plus(OfOps(was, cap, w.before(i)), OfAttempt(w, cap, i, Played(was, cap, w.before(i)), tried))
  }

  /** l accounts for attempts log, from queue was to queue q. */
  ghost predicate Accounts(cap: nat, was: seq<Front>, l: Ledger, log: seq<Attempt>, q: seq<Front>) {
    Balanced(was, l, q) && Orderly(q, cap) && l.failed == multiset(FailedFronts(log))
  }

  lemma HereAccounts(w: World, cap: nat, i: nat, was: seq<Front>, tried: set<string>)
    requires Orderly(was, cap) && Played(was, cap, w.before(i)) != []
    ensures var q := Played(was, cap, w.before(i));
            Accounts(cap, was, Here(w, cap, i, was, tried), [Try(w, i, Chosen(q, tried))],
                     AfterAttempt(w, cap, i, q, tried))
  {
    hide Try, Chosen, Played, AfterAttempt, OfAttempt, OfOps, Balanced, Orderly, FailedFronts;
    var q := Played(was, cap, w.before(i));
    OpsBalance(was, cap, w.before(i));
    OpsFailNone(was, cap, w.before(i));
    AttemptBalance(w, cap, i, q, tried);
    AttemptFails(w, cap, i, q, tried);
    BalancedPlus(was, OfOps(was, cap, w.before(i)), q,
                 OfAttempt(w, cap, i, q, tried), AfterAttempt(w, cap, i, q, tried));
  }

  /** A loop that makes no further attempt. */
  lemma NoAttempt(w: World, cap: nat, max: int, closed: bool, i: nat, was: seq<Front>, tried: set<string>)
    requires Orderly(was, cap) && !(i < max && CanTake(w, i, Played(was, cap, w.before(i)), closed))
    ensures var out, l := Retry(w, cap, max, closed, i, was, tried), OfRetry(w, cap, max, closed, i, was, tried);
            Accounts(cap, was, l, out.log, out.queue)
  {
    hide Played, OfOps, Balanced, Orderly;
    OpsBalance(was, cap, w.before(i));
    OpsFailNone(was, cap, w.before(i));
    NothingBalances(was);
  }

  lemma AccountsPlus(
    cap: nat, was: seq<Front>, l: Ledger, a: Attempt, q: seq<Front>, m: Ledger, log: seq<Attempt>, q': seq<Front>)
    requires Accounts(cap, was, l, [a], q) && Accounts(cap, q, m, log, q')
    ensures Accounts(cap, was, Plus(l, m), [a] + log, q')
  {
    hide Balanced, Orderly;
    BalancedPlus(was, l, q, m, q');
    FailedFirst(a, log);
  }

  lemma FailedFirst(a: Attempt, log: seq<Attempt>)
    ensures FailedFronts([a] + log) == FailedFronts([a]) + FailedFronts(log)
  {
    assert ([a] + log)[1..] == log && [a][1..] == [];
  }

  lemma {:induction false} RetryAccounts(
    w: World, cap: nat, max: int, closed: bool, i: nat, was: seq<Front>, tried: set<string>)
    requires Orderly(was, cap)
    ensures var out, l := Retry(w, cap, max, closed, i, was, tried), OfRetry(w, cap, max, closed, i, was, tried);
            Accounts(cap, was, l, out.log, out.queue)
    decreases max - i
  {
    if i < max && CanTake(w, i, Played(was, cap, w.before(i)), closed) {
      HereAccounts(w, cap, i, was, tried);
      var a, q', stops := Continue(w, cap, max, closed, i, was, tried);
      AccountContinues(w, cap, max, closed, i, was, tried);
      var here := Here(w, cap, i, was, tried);
      assert Accounts(cap, was, here, [a], q');
      assert Orderly(q', cap);
      hide Accounts, Orderly, Retry, OfRetry, Try, Plus, Here, Played, AfterAttempt;
      if !stops {
        RetryAccounts(w, cap, max, closed, i + 1, q', MarkTried(tried, a));
        var rest := Retry(w, cap, max, closed, i + 1, q', MarkTried(tried, a));
        AccountsPlus(cap, was, here, a, q', OfRetry(w, cap, max, closed, i + 1, q', MarkTried(tried, a)),
                     rest.log, rest.queue);
      }
    } else {
      NoAttempt(w, cap, max, closed, i, was, tried);
    }
  }

  /**
   Every front taken is given back exactly once, whatever other threads do: the fronts queued afterwards,
   those the loop marked failed, those others received, and those given back to a full queue or found queued
   again are together the fronts that were queued and those that others added.
   */
  lemma FrontsConserved(
    w: World, cap: nat, max: int, closed: bool, i: nat, was: seq<Front>, tried: set<string>)
    requires Orderly(was, cap)
    ensures var out, l := Retry(w, cap, max, closed, i, was, tried), OfRetry(w, cap, max, closed, i, was, tried);
            && Balanced(was, l, out.queue) && Orderly(out.queue, cap)
            && l.failed == multiset(FailedFronts(out.log))
  {
    RetryAccounts(w, cap, max, closed, i, was, tried);
  }

  // ----- when nothing is dropped

  /** A queue of the pool's fronts. */
  ghost predicate AllKnown(q: seq<Front>, known: set<Front>) {
    forall k :: 0 <= k < |q| ==> q[k] in known
  }

  /** No operation makes room for a stranger, and what appears in the queue was added. */
  lemma {:induction false} OpsBring(q: seq<Front>, cap: nat, ops: seq<Op>, known: set<Front>)
    requires AllKnown(q, known) && OpsKnown(ops, known)
    ensures AllKnown(Played(q, cap, ops), known)
    ensures forall f :: f in Played(q, cap, ops) && f !in q ==> f in OfOps(q, cap, ops).added
    ensures OfOps(q, cap, ops).full == multiset{} == OfOps(q, cap, ops).again
  {
    if ops != [] {
      OpsBring(q, cap, ops[..|ops| - 1], known);
    }
  }

  lemma TakenFromKnown(q: seq<Front>, untried: Front -> bool, known: set<Front>)
    requires q != [] && AllKnown(q, known)
    ensures AllKnown(AfterPreferred(q, untried), known)
  {
  }

  lemma AttemptDropsNothing(w: World, cap: nat, i: nat, q: seq<Front>, tried: set<string>, known: set<Front>)
    requires q != [] && Orderly(q, cap) && AllKnown(q, known) && OthersKnown(w, known)
    ensures AllKnown(AfterAttempt(w, cap, i, q, tried), known)
    ensures var l := OfAttempt(w, cap, i, q, tried);
            l.again <= l.added && (|known| <= cap ==> l.full == multiset{})
  {
    hide Try, AfterPreferred, Preferred, Played, OfOps;
    var rest, f := AfterPreferred(q, Untried(tried)), Chosen(q, tried);
    TakenFromQueue(q, Untried(tried));
    TakenFromKnown(q, Untried(tried), known);
    TryMeans(w, i, f);
    OpsBring(rest, cap, w.during(i), known);
    OpsBalance(rest, cap, w.during(i));
    var now := Played(rest, cap, w.during(i));
    if f !in now {
      NoDupFits(now, known - {f});
    }
  }

  /**
   With capacity for all of the pool's fronts nothing that the loop gives back is dropped, among any other
   threads; and what it finds queued again is only what others added while it used it.
   */
  lemma {:induction false} NothingDropped(
    w: World, cap: nat, max: int, closed: bool, i: nat, was: seq<Front>, tried: set<string>, known: set<Front>)
    requires Orderly(was, cap) && AllKnown(was, known) && OthersKnown(w, known)
    ensures var l := OfRetry(w, cap, max, closed, i, was, tried);
            l.again <= l.added && (|known| <= cap ==> l.full == multiset{})
    decreases max - i
  {
    var q := Played(was, cap, w.before(i));
    OpsBalance(was, cap, w.before(i));
    OpsBring(was, cap, w.before(i), known);
    if i < max && CanTake(w, i, q, closed) {
      AccountContinues(w, cap, max, closed, i, was, tried);
      hide Try, Chosen, Played, OfAttempt, OfOps, Orderly, AllKnown, OthersKnown, OfRetry;
      AttemptDropsNothing(w, cap, i, q, tried, known);
      AttemptBalance(w, cap, i, q, tried);
      NothingDropped(w, cap, max, closed, i + 1, AfterAttempt(w, cap, i, q, tried),
                     MarkTried(tried, Try(w, i, Chosen(q, tried))), known);
    }
  }

  /** Run alone, the fronts queued afterwards and those marked failed are together those queued before. */
  lemma ConservedAlone(w: World, cap: nat, max: int, closed: bool, q: seq<Front>)
    requires Orderly(q, cap) && forall i :: w.before(i) == [] == w.during(i)
    ensures var out := Retry(w, cap, max, closed, 0, q, {});
            multiset(out.queue) + multiset(FailedFronts(out.log)) == multiset(q)
  {
    FrontsConserved(w, cap, max, closed, 0, q, {});
    AloneAccount(w, cap, max, closed, 0, q, {});
    var out, l := Retry(w, cap, max, closed, 0, q, {}), OfRetry(w, cap, max, closed, 0, q, {});
    hide Retry, OfRetry, FailedFronts;
    assert multiset(out.queue) + l.failed == multiset(out.queue) + l.failed + l.received + l.full + l.again;
    assert multiset(q) == multiset(q) + l.added;
  }

  lemma AloneAttempt(w: World, cap: nat, i: nat, q: seq<Front>, tried: set<string>)
    requires q != [] && Orderly(q, cap) && w.before(i) == [] == w.during(i)
    ensures var l := Here(w, cap, i, q, tried);
            l == NOTHING.(failed := l.failed)
    ensures Orderly(AfterAttempt(w, cap, i, q, tried), cap)
  {
    hide Try, AfterPreferred, Preferred, Untried;
    AttemptBalance(w, cap, i, q, tried);
    TakenFromQueue(q, Untried(tried));
    TryMeans(w, i, Chosen(q, tried));
  }

  lemma {:induction false} AloneAccount(
    w: World, cap: nat, max: int, closed: bool, i: nat, q: seq<Front>, tried: set<string>)
    requires Orderly(q, cap) && forall i :: w.before(i) == [] == w.during(i)
    ensures var l := OfRetry(w, cap, max, closed, i, q, tried);
            l == NOTHING.(failed := l.failed)
    decreases max - i
  {
    AloneAfter(w, cap, i, q, tried);
    if i < max && CanTake(w, i, q, closed) {
      AccountContinues(w, cap, max, closed, i, q, tried);
      AloneAttempt(w, cap, i, q, tried);
      hide Try, AfterPreferred, Preferred, Untried, OfRetry, Here, Orderly, AfterAttempt;
      AloneAccount(w, cap, max, closed, i + 1, AfterAttempt(w, cap, i, q, tried),
                   MarkTried(tried, Try(w, i, Chosen(q, tried))));
    }
  }
}
