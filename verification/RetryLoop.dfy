/**
 The request retry loop over the front pool. A World says how everything outside the pool behaves at
 each attempt; the loop is proved against the function Retry, and the results are about that function.
 */
module RetryLoop {
  import opened Common
  import opened QueueSpec
  import opened FrontPool

  /** What sending the request over a dialed connection comes to. */
  datatype Reply = Good | RetryableStatus | UpgradeRefused | Broken

  /** The answers of the outside world at attempt i, for the front it took. */
  datatype World = World(
    cancelled: nat -> bool,
    pick: nat -> bool,              // which runnable case Take's select runs
    hasProvider: (nat, Front) -> bool,
    maps: (nat, Front) -> bool,     // the provider maps the origin host
    dials: (nat, Front) -> bool,
    paused: nat -> bool,
    bodyOk: nat -> bool,
    reply: (nat, Front) -> Reply,
    clock: nat -> nat,
    before: nat -> seq<Op>,         // what other threads do to the pool before attempt i takes its front,
    during: nat -> seq<Op>)         // and while it uses it

  /** What another thread does to the pool: every operation is made of these. Mark sets a timestamp. */
  datatype Op = Receive | Add(front: Front) | Mark(front: Front, at: nat)

  function PlayedOne(q: seq<Front>, cap: nat, op: Op): seq<Front> {
    match op
    case Receive => if q == [] then [] else q[1..]
    case Add(f) => Added(q, cap, f)
    case Mark(_, _) => q
  }

  /** The queue after other threads' operations. */
  function Played(q: seq<Front>, cap: nat, ops: seq<Op>): seq<Front> {
    if ops == [] then q else PlayedOne(Played(q, cap, ops[..|ops| - 1]), cap, ops[|ops| - 1])
  }

  /** The timestamp of f after other threads' operations. */
  function Marked(ops: seq<Op>, f: Front, was: nat): nat {
    if ops == [] then was
    else
      var op := ops[|ops| - 1];
      if op.Mark? && op.front == f then op.at else Marked(ops[..|ops| - 1], f, was)
  }

  ghost predicate OpsKnown(ops: seq<Op>, known: set<Front>) {
    forall k :: 0 <= k < |ops| && !ops[k].Receive? ==> ops[k].front in known
  }

  /** The fronts other threads add and mark are the pool's. */
  ghost predicate OthersKnown(w: World, known: set<Front>) {
    forall i :: OpsKnown(w.before(i), known) && OpsKnown(w.during(i), known)
  }

  datatype Fate = Requeued | MarkedFailed | MarkedSucceeded

  datatype Conn = NotDialed | ConnClosed | ConnCarried

  datatype Attempt = Attempt(front: Front, fate: Fate, conn: Conn, marksTried: bool)

  datatype Ending = Responded | NoFront | NoBody | Exhausted

  datatype Outcome = Outcome(log: seq<Attempt>, queue: seq<Front>, tried: set<string>, ending: Ending)

  predicate Dialed(w: World, i: nat, f: Front) {
    w.hasProvider(i, f) && w.maps(i, f) && w.dials(i, f)
  }

  /** One attempt with front f. */
  function Try(w: World, i: nat, f: Front): Attempt {
    if !w.hasProvider(i, f) || !w.maps(i, f) then Attempt(f, Requeued, NotDialed, false)
    else if !w.dials(i, f) then Attempt(f, if w.paused(i) then Requeued else MarkedFailed, NotDialed, false)
    else if !w.bodyOk(i) then Attempt(f, Requeued, ConnClosed, false)
    else
      match w.reply(i, f)
      case Good => Attempt(f, MarkedSucceeded, ConnCarried, false)
      case UpgradeRefused => Attempt(f, Requeued, ConnClosed, false)
      case _ => Attempt(f, MarkedFailed, ConnClosed, true)
  }

  function GiveBack(q: seq<Front>, cap: nat, a: Attempt): seq<Front> {
    if a.fate.MarkedFailed? then q else Added(q, cap, a.front)
  }

  function MarkTried(tried: set<string>, a: Attempt): set<string> {
    if a.marksTried then tried + {a.front.providerID} else tried
  }

  predicate CanTake(w: World, i: nat, q: seq<Front>, closed: bool) {
    q != [] && ((!w.cancelled(i) && !closed) || w.pick(i))
  }

  /** The front attempt i takes from queue q. */
  function Chosen(q: seq<Front>, tried: set<string>): Front
    requires q != []
  {
    q[Preferred(q, Untried(tried))]
  }

  /** The queue when attempt i, having taken a front from q, has given it back. */
  function AfterAttempt(w: World, cap: nat, i: nat, q: seq<Front>, tried: set<string>): seq<Front>
    requires q != []
  {
    GiveBack(Played(AfterPreferred(q, Untried(tried)), cap, w.during(i)), cap, Try(w, i, Chosen(q, tried)))
  }

  /** Attempts i, i + 1, ... of a loop of max attempts; the attempt before left queue was. */
  function Retry(w: World, cap: nat, max: int, closed: bool, i: nat, was: seq<Front>, tried: set<string>): Outcome
    decreases max - i
  {
    var q := Played(was, cap, w.before(i));
    if i >= max then Outcome([], was, tried, Exhausted)
    else if !CanTake(w, i, q, closed) then Outcome([], q, tried, NoFront)
    else
      var a := Try(w, i, Chosen(q, tried));
      var q' := AfterAttempt(w, cap, i, q, tried);
      if a.conn.ConnCarried? then Outcome([a], q', tried, Responded)
      else if a.conn.ConnClosed? && !w.bodyOk(i) then Outcome([a], q', tried, NoBody)
      else
        var rest := Retry(w, cap, max, closed, i + 1, q', MarkTried(tried, a));
        rest.(log := [a] + rest.log)
  }

  /** The timestamp a front has once attempt i ended its use with this fate. */
  function NewStamp(w: World, i: nat, fate: Fate, was: nat): nat {
    match fate
    case Requeued => was
    case MarkedFailed => 0
    case MarkedSucceeded => w.clock(i)
  }

  /** The timestamp of f after the attempts of log. */
  function Stamp(w: World, log: seq<Attempt>, f: Front, was: nat): nat {
    if log == [] then was
    else
      var i := |log| - 1;
      var before := Marked(w.during(i), f, Marked(w.before(i), f, Stamp(w, log[..i], f, was)));
      if log[i].front == f then NewStamp(w, i, log[i].fate, before) else before
  }

  /** ... and, in a loop that then waited for a front in vain, after what others did meanwhile. */
  function FinalStamp(w: World, log: seq<Attempt>, waited: bool, f: Front, was: nat): nat {
    if waited then Marked(w.before(|log|), f, Stamp(w, log, f, was)) else Stamp(w, log, f, was)
  }

  /** Every front has the timestamp that the attempts of log and other threads give it, having started with was. */
  ghost predicate Stamped(fronts: set<Front>, w: World, log: seq<Attempt>, waited: bool, was: map<Front, nat>)
    reads fronts`lastSucceeded
  {
    was.Keys == fronts && forall f :: f in fronts ==> f.lastSucceeded == FinalStamp(w, log, waited, f, was[f])
  }

  /** One more attempt, by one that waited successfully: taken holds the timestamps then. */
  lemma StampedAfter(
    fronts: set<Front>, w: World, log: seq<Attempt>, a: Attempt, was: map<Front, nat>, taken: map<Front, nat>)
    requires was.Keys == fronts == taken.Keys
    requires forall f :: f in fronts ==> taken[f] == FinalStamp(w, log, true, f, was[f])
    requires forall f :: f in fronts ==>
               var before := Marked(w.during(|log|), f, taken[f]);
               f.lastSucceeded == if f == a.front then NewStamp(w, |log|, a.fate, before) else before
    ensures Stamped(fronts, w, log + [a], false, was)
  {
    hide Marked, NewStamp;
    assert (log + [a])[..|log|] == log;
  }

  // ----- what an attempt can come to

  /** Attempt i got a good response over front f. */
  predicate Answered(w: World, i: nat, f: Front) {
    Dialed(w, i, f) && w.bodyOk(i) && w.reply(i, f) == Good
  }

  /** It connected to f and then failed a request that was not a refused upgrade. */
  predicate Refused(w: World, i: nat, f: Front) {
    Dialed(w, i, f) && w.bodyOk(i) && (w.reply(i, f) == RetryableStatus || w.reply(i, f) == Broken)
  }

  /** It could not dial f, with the gate running. */
  predicate Undialable(w: World, i: nat, f: Front) {
    w.hasProvider(i, f) && w.maps(i, f) && !w.dials(i, f) && !w.paused(i)
  }

  /** It dialed f, and there was no request body to send. */
  predicate Bodiless(w: World, i: nat, f: Front) {
    Dialed(w, i, f) && !w.bodyOk(i)
  }

  /** The loop ends with the first attempt that is answered or finds no body, and not before. */
  ghost predicate EndsAsSeen(w: World, i: nat, log: seq<Attempt>, ending: Ending) {
    var n := |log| - 1;
    && (forall k :: 0 <= k < n ==> !Answered(w, i + k, log[k].front) && !Bodiless(w, i + k, log[k].front))
    && (ending.Responded? <==> log != [] && Answered(w, i + n, log[n].front))
    && (ending.NoBody? <==> log != [] && Bodiless(w, i + n, log[n].front))
  }

  /** What the attempts did, in the terms of what was seen. */
  ghost predicate LogAsSeen(w: World, i: nat, log: seq<Attempt>) {
    forall k :: 0 <= k < |log| ==>
      var f := log[k].front;
      && log[k] == Try(w, i + k, f)
      && (log[k].fate.MarkedFailed? <==> Refused(w, i + k, f) || Undialable(w, i + k, f))
      && (log[k].fate.MarkedSucceeded? <==> Answered(w, i + k, f))
  }

  // ----- the loop

  /** One pass through the loop body once front f is taken. open holds the attempts with an open connection. */
  method AttemptWith(pool: Pool, w: World, i: nat, f: Front, tried: set<string>, open: set<nat>)
    returns (a: Attempt, tried': set<string>, open': set<nat>)
    requires pool.Valid() && f in pool.known && i !in open
    modifies pool`ready, f`queued, f`lastSucceeded
    ensures pool.Valid()
    ensures a == Try(w, i, f) && a.front == f
    ensures pool.ready == GiveBack(old(pool.ready), pool.cap, a)
    ensures tried' == MarkTried(tried, a)
    ensures a.conn.ConnCarried? || (a.conn.ConnClosed? && !w.bodyOk(i)) ==> tried' == tried
    ensures open' == if a.conn.ConnCarried? then open + {i} else open
    ensures f.lastSucceeded == NewStamp(w, i, a.fate, old(f.lastSucceeded))
    ensures f.lastSucceeded == if Refused(w, i, f) || Undialable(w, i, f) then 0
                               else if Answered(w, i, f) then w.clock(i) else old(f.lastSucceeded)
  {
    tried', open' := tried, open;
    if !w.hasProvider(i, f) || !w.maps(i, f) {
      pool.Return(f, true);
      return Attempt(f, Requeued, NotDialed, false), tried', open';
    }
    if !w.dials(i, f) {
      pool.Return(f, w.paused(i));
      return Attempt(f, if w.paused(i) then Requeued else MarkedFailed, NotDialed, false), tried', open';
    }
    open' := open' + {i};
    if !w.bodyOk(i) {
      open' := open' - {i};
      pool.Return(f, true);
      return Attempt(f, Requeued, ConnClosed, false), tried', open';
    }
    if w.reply(i, f) != Good {
      var isUpgrade := w.reply(i, f) == UpgradeRefused;
      if !isUpgrade {
        tried' := tried' + {f.providerID};
      }
      pool.Return(f, isUpgrade);
      open' := open' - {i};
      return Attempt(f, if isUpgrade then Requeued else MarkedFailed, ConnClosed, !isUpgrade), tried', open';
    }
    pool.ReturnSuccess(f, w.clock(i));
    a := Attempt(f, MarkedSucceeded, ConnCarried, false);
  }

  /** Other threads' turn. */
  method Others(pool: Pool, ops: seq<Op>)
    requires pool.Valid() && OpsKnown(ops, pool.known)
    modifies pool`ready, pool.known`queued, pool.known`lastSucceeded
    ensures pool.Valid() && pool.ready == Played(old(pool.ready), pool.cap, ops)
    ensures forall f :: f in pool.known ==> f.lastSucceeded == Marked(ops, f, old(f.lastSucceeded))
  {
    var k := 0;
    while k < |ops|
      invariant 0 <= k <= |ops|
      invariant pool.Valid() && pool.ready == Played(old(pool.ready), pool.cap, ops[..k])
      invariant forall f :: f in pool.known ==> f.lastSucceeded == Marked(ops[..k], f, old(f.lastSucceeded))
    {
      assert ops[..k + 1][..k] == ops[..k];
      assert forall f :: f in pool.ready ==> f in pool.known;
      match ops[k] {
        case Receive => var _ := pool.TryTakeReady();
        case Add(f) => pool.AddReady(f);
        case Mark(f, at) => f.lastSucceeded := at;
      }
      k := k + 1;
    }
    assert ops[..k] == ops;
  }

  /** What other threads do before attempt |log| takes its front. */
  method Wait(pool: Pool, w: World, log: seq<Attempt>, ghost was: map<Front, nat>)
    requires pool.Valid() && OthersKnown(w, pool.known) && Stamped(pool.known, w, log, false, was)
    modifies pool`ready, pool.known`queued, pool.known`lastSucceeded
    ensures pool.Valid() && pool.ready == Played(old(pool.ready), pool.cap, w.before(|log|))
    ensures Stamped(pool.known, w, log, true, was)
  {
    Others(pool, w.before(|log|));
  }

  /** Attempt |log| with the front it took, among other threads. */
  method Use(pool: Pool, w: World, log: seq<Attempt>, f: Front, tried: set<string>, open: set<nat>,
             ghost was: map<Front, nat>)
    returns (a: Attempt, tried': set<string>, open': set<nat>)
    requires pool.Valid() && OthersKnown(w, pool.known) && Stamped(pool.known, w, log, true, was)
    requires f in pool.known && |log| !in open
    modifies pool`ready, pool.known`queued, pool.known`lastSucceeded
    ensures pool.Valid() && a == Try(w, |log|, f)
    ensures pool.ready == GiveBack(Played(old(pool.ready), pool.cap, w.during(|log|)), pool.cap, a)
    ensures tried' == MarkTried(tried, a)
    ensures a.conn.ConnCarried? || (a.conn.ConnClosed? && !w.bodyOk(|log|)) ==> tried' == tried
    ensures open' == if a.conn.ConnCarried? then open + {|log|} else open
    ensures Stamped(pool.known, w, log + [a], false, was)
  {
    hide GiveBack, Stamp, NewStamp, Try, MarkTried, Played, Marked;
    ghost var taken := Stamps(pool.known);
    Others(pool, w.during(|log|));
    a, tried', open' := AttemptWith(pool, w, |log|, f, tried, open);
    StampedAfter(pool.known, w, log, a, was, taken);
  }

  /** One iteration: take a front and use it. stop says how the loop ends here, if it does. */
  method Turn(pool: Pool, w: World, log: seq<Attempt>, tried: set<string>, open: set<nat>,
              ghost was: map<Front, nat>)
    returns (stop: Option<Ending>, log': seq<Attempt>, tried': set<string>, open': set<nat>)
    requires pool.Valid() && |log| !in open && Stamped(pool.known, w, log, false, was)
    requires OthersKnown(w, pool.known)
    modifies pool`ready, pool.known`queued, pool.known`lastSucceeded
    ensures pool.Valid()
    ensures var q := Played(old(pool.ready), pool.cap, w.before(|log|));
            !CanTake(w, |log|, q, pool.closed) ==>
              && stop == Some(NoFront) && pool.ready == q
              && log' == log && tried' == tried && open' == open
    ensures var q, i := Played(old(pool.ready), pool.cap, w.before(|log|)), |log|;
            CanTake(w, i, q, pool.closed) ==>
              var a := Try(w, i, Chosen(q, tried));
              && log' == log + [a] && tried' == MarkTried(tried, a)
              && pool.ready == AfterAttempt(w, pool.cap, i, q, tried)
              && open' == (if a.conn.ConnCarried? then open + {i} else open)
              && stop == (if a.conn.ConnCarried? then Some(Responded)
                          else if a.conn.ConnClosed? && !w.bodyOk(i) then Some(NoBody) else None)
    ensures stop.Some? ==> tried' == tried
    ensures Stamped(pool.known, w, log', stop == Some(NoFront), was)
  {
    hide AfterPreferred, Preferred, GiveBack, Stamped, Try, MarkTried, Played;
    stop, log', tried', open' := Some(NoFront), log, tried, open;
    var i := |log|;
    Wait(pool, w, log, was);
    assert forall f :: f in pool.ready ==> f in pool.known;
    var t := pool.TakePreferringUntried(w.cancelled(i), w.pick(i), tried);
    if t.Took? {
      var a;
      a, tried', open' := Use(pool, w, log, t.front, tried, open, was);
      log' := log + [a];
      stop := if a.conn.ConnCarried? then Some(Responded)
              else if a.conn.ConnClosed? && !w.bodyOk(i) then Some(NoBody) else None;
    }
  }

  /**
   RoundTrip, among threads that do what they like to the ready queue between its operations on it. open is
   the set of attempts whose connection is still open when it returns. A Take that stays blocked is waited
   out until the context ends.
   */
  method RoundTrip(pool: Pool, w: World, maxRetries: int)
    returns (ending: Ending, log: seq<Attempt>, tried: set<string>, open: set<nat>)
    requires pool.Valid()
    requires OthersKnown(w, pool.known)
    modifies pool`ready, pool.known`queued, pool.known`lastSucceeded
    ensures pool.Valid()
    ensures Outcome(log, pool.ready, tried, ending)
            == Retry(w, pool.cap, maxRetries, pool.closed, 0, old(pool.ready), {})
    ensures open == if ending.Responded? then {|log| - 1} else {}
    ensures EndsAsSeen(w, 0, log, ending) && LogAsSeen(w, 0, log)
    ensures forall f :: f in pool.known ==>
              f.lastSucceeded == FinalStamp(w, log, ending.NoFront?, f, old(f.lastSucceeded))
  {
    hide AfterPreferred, Preferred, Try, GiveBack, MarkTried, Retry, After;
    ghost var was := Stamps(pool.known);
    EndsSeen(w, pool.cap, maxRetries, pool.closed, 0, pool.ready, {});
    AtEnds(w, pool.cap, maxRetries, pool.closed, pool.ready, {}, []);
    log, tried, open := [], {}, {};
    ghost var all := Retry(w, pool.cap, maxRetries, pool.closed, 0, pool.ready, {});
    while |log| < maxRetries
      invariant open == {}
      invariant pool.Valid() && Stamped(pool.known, w, log, false, was)
      invariant all == After(log, Retry(w, pool.cap, maxRetries, pool.closed, |log|, pool.ready, tried))
      decreases maxRetries - |log|
    {
      Unfold(w, pool.cap, maxRetries, pool.closed, pool.ready, tried, log);
      var stop;
      stop, log, tried, open := Turn(pool, w, log, tried, open, was);
      if stop.Some? {
        return stop.value, log, tried, open;
      }
    }
    AtEnds(w, pool.cap, maxRetries, pool.closed, pool.ready, tried, log);
    ending := Exhausted;
  }

  /** Before the first attempt there is no log, and after the last there is nothing but the log. */
  lemma AtEnds(w: World, cap: nat, max: int, closed: bool, q: seq<Front>, tried: set<string>, log: seq<Attempt>)
    ensures log == [] ==> After(log, Retry(w, cap, max, closed, 0, q, tried)) == Retry(w, cap, max, closed, 0, q, tried)
    ensures |log| >= max ==>
              After(log, Retry(w, cap, max, closed, |log|, q, tried)) == Outcome(log, q, tried, Exhausted)
  {
    hide Try, AfterPreferred, Preferred, GiveBack;
    assert log + [] == log;
    var all := Retry(w, cap, max, closed, 0, q, tried);
    assert [] + all.log == all.log;
  }

  function After(log: seq<Attempt>, rest: Outcome): Outcome {
    rest.(log := log + rest.log)
  }

  /** One unfolding of Retry behind a log of earlier attempts. */
  lemma Unfold(w: World, cap: nat, max: int, closed: bool, was: seq<Front>, tried: set<string>, log: seq<Attempt>)
    requires |log| < max
    ensures var all, i := After(log, Retry(w, cap, max, closed, |log|, was, tried)), |log|;
            var q := Played(was, cap, w.before(i));
            if !CanTake(w, i, q, closed) then all == Outcome(log, q, tried, NoFront)
            else
              var a := Try(w, i, Chosen(q, tried));
              var q' := AfterAttempt(w, cap, i, q, tried);
              if a.conn.ConnCarried? then all == Outcome(log + [a], q', tried, Responded)
              else if a.conn.ConnClosed? && !w.bodyOk(i) then all == Outcome(log + [a], q', tried, NoBody)
              else all == After(log + [a], Retry(w, cap, max, closed, i + 1, q', MarkTried(tried, a)))
  {
    hide AfterPreferred, Preferred, Try, GiveBack, MarkTried;
    assert log + [] == log;
    if CanTake(w, |log|, Played(was, cap, w.before(|log|)), closed) {
      var a, q', stops := Continue(w, cap, max, closed, |log|, was, tried);
      var rest := Retry(w, cap, max, closed, |log| + 1, q', MarkTried(tried, a));
      assert log + ([a] + rest.log) == log + [a] + rest.log;
    }
  }

  // ----- results

  /** Taking the preferred front removes it and only it. */
  lemma TakenFromQueue(q: seq<Front>, untried: Front -> bool)
    requires q != [] && NoDup(q)
    ensures var f, rest := q[Preferred(q, untried)], AfterPreferred(q, untried);
            && multiset(rest) + multiset{f} == multiset(q) && NoDup(rest) && f !in rest && |rest| == |q| - 1
            && (forall g :: g in rest <==> g in q && g != f)
  {
    PreferredRemoved(q, untried);
    NoDupWithout(q, q[Preferred(q, untried)], AfterPreferred(q, untried));
  }

  /** An attempt in terms of what the world answered. */
  lemma TryMeans(w: World, i: nat, f: Front)
    ensures var a := Try(w, i, f);
            && a.front == f
            && (a.conn.NotDialed? <==> !Dialed(w, i, f))
            && (a.conn.ConnCarried? <==> Answered(w, i, f))
            && (a.conn.ConnClosed? && !w.bodyOk(i) <==> Bodiless(w, i, f))
            && (a.marksTried <==> Refused(w, i, f))
            && (a.fate.MarkedFailed? <==> Refused(w, i, f) || Undialable(w, i, f))
            && (a.fate.MarkedSucceeded? <==> a.conn.ConnCarried?)
  {
  }

  lemma EndsFirst(w: World, i: nat, a: Attempt, log: seq<Attempt>, ending: Ending)
    requires a == Try(w, i, a.front) && LogAsSeen(w, i + 1, log)
    ensures LogAsSeen(w, i, [a] + log)
    ensures EndsAsSeen(w, i + 1, log, ending) && !Answered(w, i, a.front) && !Bodiless(w, i, a.front) ==>
              EndsAsSeen(w, i, [a] + log, ending)
  {
    TryMeans(w, i, a.front);
    hide Try, Answered, Bodiless, Refused, Undialable;
    var all := [a] + log;
    assert forall k :: 0 < k < |all| ==> all[k] == log[k - 1] && i + k == (i + 1) + (k - 1);
    assert log != [] ==> all[|all| - 1] == log[|log| - 1];
  }

  lemma {:induction false} EndsSeen(
    w: World, cap: nat, max: int, closed: bool, i: nat, q: seq<Front>, tried: set<string>)
    ensures var out := Retry(w, cap, max, closed, i, q, tried);
            EndsAsSeen(w, i, out.log, out.ending) && LogAsSeen(w, i, out.log)
    decreases max - i
  {
    if i < max && CanTake(w, i, Played(q, cap, w.before(i)), closed) {
      var a, q', stops := Continue(w, cap, max, closed, i, q, tried);
      TryMeans(w, i, a.front);
      hide AfterPreferred, Preferred, Try, Played, AfterAttempt, Retry, Answered, Bodiless, Refused, Undialable;
      if !stops {
        EndsSeen(w, cap, max, closed, i + 1, q', MarkTried(tried, a));
        var rest := Retry(w, cap, max, closed, i + 1, q', MarkTried(tried, a));
        EndsFirst(w, i, a, rest.log, rest.ending);
      } else {
        EndsFirst(w, i, a, [], NoFront);
        assert [a] + [] == [a];
      }
    }
  }

  /** The timestamp after the last attempt of log, from what it saw. */
  lemma StampMeans(w: World, log: seq<Attempt>, f: Front, was: nat)
    requires log != [] && LogAsSeen(w, 0, log)
    ensures var i := |log| - 1;
            var before := Marked(w.during(i), f, Marked(w.before(i), f, Stamp(w, log[..i], f, was)));
            Stamp(w, log, f, was)
            == if log[i].front != f then before
               else if Refused(w, i, f) || Undialable(w, i, f) then 0
               else if Answered(w, i, f) then w.clock(i) else before
  {
    hide Try, Refused, Undialable, Answered, Marked;
    assert log[|log| - 1] == Try(w, 0 + (|log| - 1), log[|log| - 1].front);
  }

  lemma Continue(w: World, cap: nat, max: int, closed: bool, i: nat, was: seq<Front>, tried: set<string>)
    returns (a: Attempt, q': seq<Front>, stops: bool)
    requires i < max && CanTake(w, i, Played(was, cap, w.before(i)), closed)
    ensures a == Try(w, i, Chosen(Played(was, cap, w.before(i)), tried))
    ensures q' == AfterAttempt(w, cap, i, Played(was, cap, w.before(i)), tried)
    ensures stops <==> a.conn.ConnCarried? || (a.conn.ConnClosed? && !w.bodyOk(i))
    ensures var out := Retry(w, cap, max, closed, i, was, tried);
            if stops then
              out == Outcome([a], q', tried, if a.conn.ConnCarried? then Responded else NoBody)
            else
              var rest := Retry(w, cap, max, closed, i + 1, q', MarkTried(tried, a));
              out == rest.(log := [a] + rest.log)
  {
    var q := Played(was, cap, w.before(i));
    a := Try(w, i, Chosen(q, tried));
    q' := AfterAttempt(w, cap, i, q, tried);
    stops := a.conn.ConnCarried? || (a.conn.ConnClosed? && !w.bodyOk(i));
  }

  /** Without other threads an attempt finds the queue that the one before left. */
  lemma AloneAfter(w: World, cap: nat, i: nat, q: seq<Front>, tried: set<string>)
    requires w.before(i) == [] == w.during(i)
    ensures Played(q, cap, w.before(i)) == q
    ensures q != [] ==>
              AfterAttempt(w, cap, i, q, tried)
              == GiveBack(AfterPreferred(q, Untried(tried)), cap, Try(w, i, Chosen(q, tried)))
  {
    hide Try, AfterPreferred, Preferred, GiveBack;
  }

  /** Attempt k of out settled its connection. */
  ghost predicate ConnSettled(w: World, i: nat, out: Outcome, k: nat)
    requires k < |out.log|
  {
    && (out.log[k].conn.NotDialed? <==> !Dialed(w, i + k, out.log[k].front))
    && (out.log[k].conn.ConnCarried? <==> out.ending.Responded? && k == |out.log| - 1)
  }

  ghost predicate AllSettled(w: World, i: nat, out: Outcome) {
    && (forall k :: 0 <= k < |out.log| ==> ConnSettled(w, i, out, k))
    && (out.ending.Responded? ==> out.log != [])
  }

  lemma SettledFirst(w: World, i: nat, f: Front, rest: Outcome)
    requires AllSettled(w, i + 1, rest) && !Try(w, i, f).conn.ConnCarried?
    ensures AllSettled(w, i, rest.(log := [Try(w, i, f)] + rest.log))
  {
    var out := rest.(log := [Try(w, i, f)] + rest.log);
    forall k | 0 <= k < |out.log| ensures ConnSettled(w, i, out, k) {
      if k > 0 {
        assert ConnSettled(w, i + 1, rest, k - 1);
        assert out.log[k] == rest.log[k - 1] && i + k == i + 1 + (k - 1);
      }
    }
  }

  /**
   Every connection dialed is closed or carried by the response, and only the last attempt of a loop
   that responded carries one.
   */
  lemma {:induction false} ConnectionsSettled(
    w: World, cap: nat, max: int, closed: bool, i: nat, q: seq<Front>, tried: set<string>)
    ensures AllSettled(w, i, Retry(w, cap, max, closed, i, q, tried))
    decreases max - i
  {
    hide AfterPreferred, Preferred, Try;
    if i < max && CanTake(w, i, Played(q, cap, w.before(i)), closed) {
      var a, q', stops := Continue(w, cap, max, closed, i, q, tried);
      TryMeans(w, i, Chosen(Played(q, cap, w.before(i)), tried));
      if !stops {
        ConnectionsSettled(w, cap, max, closed, i + 1, q', MarkTried(tried, a));
        SettledFirst(w, i, a.front, Retry(w, cap, max, closed, i + 1, q', MarkTried(tried, a)));
      }
    }
  }

  /** A loop makes at most max attempts, and all of them when nothing ends it sooner. */
  lemma {:induction false} AttemptsBounded(
    w: World, cap: nat, max: int, closed: bool, i: nat, q: seq<Front>, tried: set<string>)
    ensures var out := Retry(w, cap, max, closed, i, q, tried);
            && (out.log == [] || |out.log| <= max - i)
            && (out.ending.Exhausted? ==> |out.log| == if i < max then max - i else 0)
    decreases max - i
  {
    if i < max && CanTake(w, i, Played(q, cap, w.before(i)), closed) {
      var a, q', stops := Continue(w, cap, max, closed, i, q, tried);
      if !stops {
        AttemptsBounded(w, cap, max, closed, i + 1, q', MarkTried(tried, a));
      }
    }
  }

  ghost predicate RefusedBy(w: World, i: nat, log: seq<Attempt>, p: string) {
    exists k :: 0 <= k < |log| && log[k].front.providerID == p && Refused(w, i + k, log[k].front)
  }

  lemma RefusedFirst(w: World, i: nat, a: Attempt, log: seq<Attempt>, p: string)
    ensures RefusedBy(w, i, [a] + log, p) <==>
            (a.front.providerID == p && Refused(w, i, a.front)) || RefusedBy(w, i + 1, log, p)
  {
    var all := [a] + log;
    if a.front.providerID == p && Refused(w, i, a.front) {
      assert all[0].front.providerID == p && Refused(w, i + 0, all[0].front);
    }
    if RefusedBy(w, i + 1, log, p) {
      var k :| 0 <= k < |log| && log[k].front.providerID == p && Refused(w, i + 1 + k, log[k].front);
      assert all[k + 1] == log[k] && Refused(w, i + (k + 1), all[k + 1].front);
    }
    if RefusedBy(w, i, all, p) {
      var k :| 0 <= k < |all| && all[k].front.providerID == p && Refused(w, i + k, all[k].front);
      if k > 0 {
        assert log[k - 1] == all[k] && Refused(w, i + 1 + (k - 1), log[k - 1].front);
      }
    }
  }

  /** tried ends up holding exactly the providers that connected and then refused to forward. */
  lemma {:induction false} TriedIsRefused(
    w: World, cap: nat, max: int, closed: bool, i: nat, q: seq<Front>, tried: set<string>, p: string)
    ensures var out := Retry(w, cap, max, closed, i, q, tried);
            p in out.tried <==> p in tried || RefusedBy(w, i, out.log, p)
    decreases max - i
  {
    hide AfterPreferred, Preferred, Try;
    if i < max && CanTake(w, i, Played(q, cap, w.before(i)), closed) {
      var a, q', stops := Continue(w, cap, max, closed, i, q, tried);
      TryMeans(w, i, Chosen(Played(q, cap, w.before(i)), tried));
      if stops {
        RefusedFirst(w, i, a, [], p);
        assert [a] + [] == [a];
      } else {
        TriedIsRefused(w, cap, max, closed, i + 1, q', MarkTried(tried, a), p);
        RefusedFirst(w, i, a, Retry(w, cap, max, closed, i + 1, q', MarkTried(tried, a)).log, p);
      }
    }
  }

  // ----- escaping a provider that does not forward

  ghost function UntriedProviders(q: seq<Front>, tried: set<string>): set<string> {
    set f | f in q && f.providerID !in tried :: f.providerID
  }

  /** Each of these fronts is mapped and dials, and every answer is one to retry on. */
  ghost predicate NobodyForwards(w: World, fronts: set<Front>) {
    && (forall i :: !w.cancelled(i) && w.bodyOk(i))
    && (forall i, f :: f in fronts ==> Dialed(w, i, f) && w.reply(i, f) == RetryableStatus)
  }

  /** The first min(max, k) attempts use k different providers, when nine fronts or fewer are ready. */
  lemma {:induction false} AttemptsSpreadOverProviders(
    w: World, fronts: set<Front>, cap: nat, max: int, i: nat, q: seq<Front>, tried: set<string>)
    requires NobodyForwards(w, fronts) && NoDup(q) && |q| <= MAX_PROVIDER_SCAN + 1
    requires forall f :: f in q ==> f in fronts
    requires forall i :: w.before(i) == [] == w.during(i)
    ensures var log := Retry(w, cap, max, false, i, q, tried).log;
            var n := Min(if i < max then max - i else 0, |UntriedProviders(q, tried)|);
            && n <= |log|
            && (forall k :: 0 <= k < n ==> log[k].front.providerID in UntriedProviders(q, tried))
            && (forall j, k :: 0 <= j < k < n ==> log[j].front.providerID != log[k].front.providerID)
    decreases max - i
  {
    hide AfterPreferred, Preferred, Try, Played, AfterAttempt;
    AloneAfter(w, cap, i, q, tried);
    if i < max && UntriedProviders(q, tried) != {} {
      var f := UntriedSelected(q, tried);
      TakenFromQueue(q, Untried(tried));
      var a, q', stops := Continue(w, cap, max, false, i, q, tried);
      TryMeans(w, i, f);
      assert Dialed(w, i, f) && w.bodyOk(i);
      OneProviderLess(q, q', f, tried);
      AttemptsSpreadOverProviders(w, fronts, cap, max, i + 1, q', tried + {f.providerID});
    }
  }

  /** With at most nine ready fronts the scan sees them all. */
  lemma UntriedSelected(q: seq<Front>, tried: set<string>) returns (f: Front)
    requires |q| <= MAX_PROVIDER_SCAN + 1 && UntriedProviders(q, tried) != {}
    ensures q != [] && f == Chosen(q, tried) && f in q && f.providerID !in tried
  {
    var p :| p in UntriedProviders(q, tried);
    var g :| g in q && g.providerID == p;
    var m :| 0 <= m < |q| && q[m] == g;
    assert Untried(tried)(q[m]) && Window(q) == |q|;
    f := Chosen(q, tried);
  }

  lemma OneProviderLess(q: seq<Front>, q': seq<Front>, f: Front, tried: set<string>)
    requires f in q && f.providerID !in tried
    requires forall g :: g in q' <==> g in q && g != f
    ensures UntriedProviders(q', tried + {f.providerID}) == UntriedProviders(q, tried) - {f.providerID}
    ensures |UntriedProviders(q', tried + {f.providerID})| == |UntriedProviders(q, tried)| - 1
  {
    assert f.providerID in UntriedProviders(q, tried);
  }
}
