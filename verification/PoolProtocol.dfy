/**
 The ready queue of the front pool under every interleaving of any number of threads.

 A thread may at any time add a front (addReady), receive one (Take, the drain of Replace) or run a
 scan (tryTakeFrom, TakePreferringUntried). The atomic points of the source are separate actions: the
 compare-and-swap on a front's queued flag, the channel send or its default branch, the channel
 receive, the store that clears the flag, and locking scanMu. Longer programs are sequences of these.

 sent and receipts are histories: everything ever sent into the channel, and who received each entry.
 */
module PoolProtocol {
  import opened Common
  import QueueSpec

  type Front = nat
  type Tid = nat

  /** What a thread is in the middle of, between two atomic points. */
  datatype Prim =
    | Resting
    | Sending(f: Front)    // the compare-and-swap won, the select has not run
    | Dropping(f: Front)   // the select took its default branch, the flag is still set
    | Resetting(f: Front)  // received, the flag is still set

  datatype Phase = Counting | Pulling(budget: nat) | PuttingBack

  /**
   A scan of the ready queue, bounded if it was given a first front to fall back on. lockHead and lockLen are
   |receipts| and |sent| when it took scanMu.
   */
  datatype Scan =
    | NoScan
    | Scan(wanted: set<Front>, first: Option<Front>, lockHead: nat, lockLen: nat,
           phase: Phase, pulled: nat, skipped: seq<Front>, found: Option<Front>, tally: Tally)

  /** History of a scan: the fronts it took out of the queue or was given, and what became of them. */
  datatype Tally = Tally(
    taken: multiset<Front>,
    sent: multiset<Front>,     // put back at the tail
    again: multiset<Front>,    // found queued by another thread when put back
    dropped: multiset<Front>,  // put back to a full queue
    merged: multiset<Front>)   // further copies of a front that the scan answers with

  datatype Thread = Thread(prim: Prim, scan: Scan)

  datatype Receipt = ByTake(t: Tid) | ByScan(t: Tid)

  datatype State = State(
    fronts: set<Front>,
    cap: nat,
    sent: seq<Front>,
    receipts: seq<Receipt>,
    queued: set<Front>,
    scanMu: Option<Tid>,
    threads: map<Tid, Thread>)

  datatype Action =
    | CasWin(f: Front)
    | CasLose(f: Front)
    | Send
    | SelectDefault
    | DropReset
    | Receive
    | Reset
    | Lock(wanted: set<Front>, first: Option<Front>)
    | Count
    | ScanReceive
    | ScanStop
    | Finish

  /** The contents of the channel. */
  function Ready(s: State): seq<Front>
    requires |s.receipts| <= |s.sent|
  {
    s.sent[|s.receipts|..]
  }

  predicate Init(s: State) {
    && s.cap > 0
    && s.sent == [] && s.receipts == []
    && s.queued == {} && s.scanMu == None
    && forall t :: t in s.threads ==> s.threads[t] == Thread(Resting, NoScan)
  }

  /** Whether the thread may now call addReady(f): freely, or to put back the next skipped front. */
  predicate MayAdd(th: Thread, f: Front) {
    && th.prim == Resting
    && (th.scan.Scan? ==> th.scan.phase == PuttingBack && th.scan.skipped != [] && th.scan.skipped[0] == f)
  }

  predicate Enabled(s: State, t: Tid, a: Action)
    requires |s.receipts| <= |s.sent|
  {
    && t in s.threads
    && var th := s.threads[t];
       match a
       case CasWin(f) => MayAdd(th, f) && f in s.fronts && f !in s.queued
       case CasLose(f) => MayAdd(th, f) && f in s.queued
       case Send => th.prim.Sending? && |Ready(s)| < s.cap
       case SelectDefault => th.prim.Sending? && |Ready(s)| >= s.cap
       case DropReset => th.prim.Dropping?
       case Receive => th.prim.Resting? && th.scan.NoScan? && Ready(s) != []
       case Reset => th.prim.Resetting?
       case Lock(_, first) =>
         th.prim.Resting? && th.scan.NoScan? && s.scanMu == None && (first.Some? ==> first.value in s.fronts)
       case Count => th.prim.Resting? && th.scan.Scan? && th.scan.phase.Counting?
       case ScanReceive =>
         && th.prim.Resting? && th.scan.Scan? && th.scan.phase.Pulling?
         && th.scan.pulled < th.scan.phase.budget && Ready(s) != []
       case ScanStop =>
         && th.prim.Resting? && th.scan.Scan? && th.scan.phase.Pulling?
         && (th.scan.pulled == th.scan.phase.budget || Ready(s) == [])
       case Finish =>
         th.prim.Resting? && th.scan.Scan? && th.scan.phase.PuttingBack? && th.scan.skipped == []
  }

  /** The next skipped front has been handed to addReady. */
  function AfterAdd(scan: Scan): Scan {
    if scan.Scan? && scan.skipped != [] then scan.(skipped := scan.skipped[1..]) else scan
  }

  /** addReady was handed f for a scan, and it was sent, found queued already, or dropped. */
  function Sent(scan: Scan, f: Front): Scan {
    if scan.Scan? then scan.(tally := scan.tally.(sent := scan.tally.sent + multiset{f})) else scan
  }

  function FoundQueued(scan: Scan, f: Front): Scan {
    if scan.Scan? then scan.(tally := scan.tally.(again := scan.tally.again + multiset{f})) else scan
  }

  function Dropped(scan: Scan, f: Front): Scan {
    if scan.Scan? then scan.(tally := scan.tally.(dropped := scan.tally.dropped + multiset{f})) else scan
  }

  /** The scan pulled f: it is the answer, or it joins the skipped fronts. */
  function AfterPull(scan: Scan, f: Front): Scan
    requires scan.Scan?
  {
    var counted :=
      scan.(pulled := scan.pulled + 1, tally := scan.tally.(taken := scan.tally.taken + multiset{f}));
    if f in scan.wanted then counted.(found := Some(f), phase := PuttingBack)
    else counted.(skipped := scan.skipped + [f])
  }

  /** The occurrences of f in s. */
  function OccurrencesOf(s: seq<Front>, f: Front): seq<Front> {
    if s == [] then [] else (if s[0] == f then [f] else []) + OccurrencesOf(s[1..], f)
  }

  /**
   The scan stops empty-handed. A bounded scan falls back to the front it was given, and puts back neither
   that nor another entry of it that it pulled.
   */
  function AfterStop(scan: Scan): (r: Scan)
    requires scan.Scan?
    ensures r.Scan? && r == scan.(found := r.found, skipped := r.skipped, phase := PuttingBack, tally := r.tally)
    ensures forall f :: f in r.skipped ==> f in scan.skipped
    ensures !scan.first.Some? ==> r.found == scan.found
  {
    if scan.first.Some? && scan.skipped != [] then
      var f, others := scan.skipped[0], scan.skipped[1..];
      scan.(found := Some(f), skipped := Without(others, f), phase := PuttingBack,
            tally := scan.tally.(merged := multiset(OccurrencesOf(others, f))))
    else
      scan.(phase := PuttingBack)
  }

  /** The record a scan starts with. */
  function FirstScan(s: State, wanted: set<Front>, first: Option<Front>): Scan {
    var given := if first.Some? then [first.value] else [];
    Scan(wanted, first, |s.receipts|, |s.sent|, Counting, 0, given, None,
         Tally(multiset(given), multiset{}, multiset{}, multiset{}, multiset{}))
  }

  /** The scan has read how many fronts are ready. */
  function Counted(scan: Scan, n: nat): Scan
    requires scan.Scan?
  {
    scan.(phase := Pulling(if scan.first.Some? then Min(n, QueueSpec.MAX_PROVIDER_SCAN) else n))
  }

  /** What the acting thread is in the middle of afterwards. */
  function ThreadAfter(s: State, t: Tid, a: Action): Thread
    requires |s.receipts| <= |s.sent| && Enabled(s, t, a)
  {
    var th := s.threads[t];
    match a
    case CasWin(f) => Thread(Sending(f), AfterAdd(th.scan))
    case CasLose(f) => Thread(Resting, FoundQueued(AfterAdd(th.scan), f))
    case Send => Thread(Resting, Sent(th.scan, th.prim.f))
    case SelectDefault => Thread(Dropping(th.prim.f), th.scan)
    case DropReset => Thread(Resting, Dropped(th.scan, th.prim.f))
    case Receive => Thread(Resetting(Ready(s)[0]), th.scan)
    case Reset => Thread(Resting, th.scan)
    case Lock(wanted, first) => Thread(Resting, FirstScan(s, wanted, first))
    case Count => Thread(Resting, Counted(th.scan, |Ready(s)|))
    case ScanReceive => Thread(Resetting(Ready(s)[0]), AfterPull(th.scan, Ready(s)[0]))
    case ScanStop => Thread(Resting, AfterStop(th.scan))
    case Finish => Thread(Resting, NoScan)
  }

  function Apply(s: State, t: Tid, a: Action): State
    requires |s.receipts| <= |s.sent| && Enabled(s, t, a)
  {
    var th := s.threads[t];
    var next := s.(threads := s.threads[t := ThreadAfter(s, t, a)]);
    match a
    case CasWin(f) => next.(queued := s.queued + {f})
    case Send => next.(sent := s.sent + [th.prim.f])
    case DropReset => next.(queued := s.queued - {th.prim.f})
    case Receive => next.(receipts := s.receipts + [ByTake(t)])
    case Reset => next.(queued := s.queued - {th.prim.f})
    case Lock(_, _) => next.(scanMu := Some(t))
    case ScanReceive => next.(receipts := s.receipts + [ByScan(t)])
    case Finish => next.(scanMu := None)
    case _ => next
  }

  // ----- the invariant

  /** The threads that hold f between two atomic points of addReady or of a receive. */
  ghost function InFlight(s: State, f: Front): set<Tid> {
    set t | t in s.threads && s.threads[t].prim != Resting && s.threads[t].prim.f == f
  }

  ghost function Copies(s: State, f: Front): nat
    requires |s.receipts| <= |s.sent|
  {
    multiset(Ready(s))[f] + |InFlight(s, f)|
  }

  /** Copies of f in the queue and in flight: one when its flag is set, none otherwise. */
  ghost predicate FlagsExact(s: State)
    requires |s.receipts| <= |s.sent|
  {
    forall f :: Copies(s, f) == if f in s.queued then 1 else 0
  }

  /** The scan has no answer yet, or fell back to a front that it did not want. */
  predicate WithoutWanted(scan: Scan)
    requires scan.Scan?
  {
    scan.found.Some? ==> scan.found.value !in scan.wanted
  }

  /** The scan did not stop for having pulled as many fronts as a bounded one may. */
  predicate SawAll(scan: Scan)
    requires scan.Scan?
  {
    scan.first.Some? ==> scan.pulled < QueueSpec.MAX_PROVIDER_SCAN
  }

  /** What a scan's record says, given what was ever sent and received. */
  ghost predicate RecordOk(fronts: set<Front>, sent: seq<Front>, receipts: seq<Receipt>, scan: Scan)
    requires scan.Scan? && |receipts| <= |sent|
  {
    && scan.lockHead <= |receipts| && scan.lockHead <= scan.lockLen <= |sent|
    && (WithoutWanted(scan) ==>
          forall i :: scan.lockHead <= i < |receipts| && receipts[i].ByScan? ==> sent[i] !in scan.wanted)
    && (scan.phase.Pulling? ==> scan.found == None && scan.pulled <= scan.phase.budget)
    && (scan.phase.Counting? ==> scan.found == None && scan.pulled == 0)
    && (scan.phase.Pulling? && (scan.first.Some? ==> scan.phase.budget < QueueSpec.MAX_PROVIDER_SCAN) ==>
          |receipts| + scan.phase.budget >= scan.lockLen + scan.pulled)
    && (scan.phase.PuttingBack? && WithoutWanted(scan) && SawAll(scan) ==> |receipts| >= scan.lockLen)
    && (forall f :: f in scan.skipped ==> f in fronts)
  }

  ghost predicate ScanOk(s: State, t: Tid)
    requires t in s.threads && s.threads[t].scan.Scan?
    requires |s.receipts| <= |s.sent|
  {
    RecordOk(s.fronts, s.sent, s.receipts, s.threads[t].scan)
  }

  ghost predicate Inv(s: State) {
    && s.cap > 0
    && |s.receipts| <= |s.sent| && |Ready(s)| <= s.cap
    && s.queued <= s.fronts
    && (forall f :: f in s.sent ==> f in s.fronts)
    && FlagsExact(s)
    && (forall t :: t in s.threads ==> (s.threads[t].scan.Scan? <==> s.scanMu == Some(t)))
    && (forall t :: t in s.threads && s.threads[t].scan.Scan? ==> ScanOk(s, t))
  }

  lemma InitInv(s: State)
    requires Init(s)
    ensures Inv(s)
  {
    forall f ensures Copies(s, f) == 0 {
      assert InFlight(s, f) == {};
    }
  }

  function Holds(p: Prim, g: Front): nat {
    if p != Resting && p.f == g then 1 else 0
  }

  /** Only thread t moved: the threads holding g change by what t held and now holds. */
  lemma InFlightAfter(s: State, s': State, t: Tid, g: Front)
    requires t in s.threads && t in s'.threads
    requires s'.threads == s.threads[t := s'.threads[t]]
    ensures |InFlight(s', g)| == |InFlight(s, g)| - Holds(s.threads[t].prim, g) + Holds(s'.threads[t].prim, g)
  {
    var before, after := InFlight(s, g), InFlight(s', g);
    assert forall u :: u != t ==> (u in before <==> u in after);
    assert t in before <==> Holds(s.threads[t].prim, g) == 1;
    assert t in after <==> Holds(s'.threads[t].prim, g) == 1;
    assert before - {t} == after - {t};
    assert |before - {t}| == |before| - Holds(s.threads[t].prim, g);
    assert |after - {t}| == |after| - Holds(s'.threads[t].prim, g);
  }

  /** What one action does to the multiplicity of g in the queue. */
  lemma ReadyAfter(s: State, t: Tid, a: Action, g: Front)
    requires |s.receipts| <= |s.sent| && Enabled(s, t, a)
    ensures var s' := Apply(s, t, a);
            && |s'.receipts| <= |s'.sent|
            && multiset(Ready(s'))[g] ==
               multiset(Ready(s))[g]
               + (if a.Send? then Holds(s.threads[t].prim, g) else 0)
               - (if a.Receive? || a.ScanReceive? then Holds(s'.threads[t].prim, g) else 0)
            && |Ready(s')| == |Ready(s)| + (if a.Send? then 1 else 0)
               - (if a.Receive? || a.ScanReceive? then 1 else 0)
  {
    var s' := Apply(s, t, a);
    if a.Send? {
      assert Ready(s') == Ready(s) + [s.threads[t].prim.f];
    } else if a.Receive? || a.ScanReceive? {
      HeadRemoved(Ready(s), g);
      assert Ready(s') == Ready(s)[1..];
    } else {
      assert s'.sent == s.sent && s'.receipts == s.receipts;
    }
  }

  lemma HeadRemoved(q: seq<Front>, g: Front)
    requires q != []
    ensures multiset(q)[g] == multiset(q[1..])[g] + if q[0] == g then 1 else 0
  {
    assert q == [q[0]] + q[1..];
  }

  lemma StepCopies(s: State, t: Tid, a: Action, g: Front)
    requires Inv(s) && Enabled(s, t, a)
    ensures var s' := Apply(s, t, a);
            |s'.receipts| <= |s'.sent| && Copies(s', g) == if g in s'.queued then 1 else 0
  {
    ReadyAfter(s, t, a, g);
    InFlightAfter(s, Apply(s, t, a), t, g);
    assert Copies(s, g) == if g in s.queued then 1 else 0;
    assert Holds(s.threads[t].prim, g) == 1 ==> t in InFlight(s, g);
  }

  /** Sends, and receipts that are not a scan's, keep a record. */
  lemma RecordMoves(
    fronts: set<Front>, sent: seq<Front>, receipts: seq<Receipt>,
    sent': seq<Front>, receipts': seq<Receipt>, scan: Scan)
    requires scan.Scan? && |receipts| <= |sent| && RecordOk(fronts, sent, receipts, scan)
    requires sent <= sent' && |receipts'| <= |sent'|
    requires receipts <= receipts' && forall i :: |receipts| <= i < |receipts'| ==> receipts'[i].ByTake?
    ensures RecordOk(fronts, sent', receipts', scan)
  {
  }

  /** So do the steps of putting fronts back. */
  lemma RecordShrinks(fronts: set<Front>, sent: seq<Front>, receipts: seq<Receipt>, scan: Scan, scan': Scan)
    requires scan.Scan? && |receipts| <= |sent| && RecordOk(fronts, sent, receipts, scan)
    requires scan'.Scan? && scan' == scan.(skipped := scan'.skipped, tally := scan'.tally)
    requires forall f :: f in scan'.skipped ==> f in scan.skipped
    ensures RecordOk(fronts, sent, receipts, scan')
  {
  }

  lemma RecordPulls(fronts: set<Front>, sent: seq<Front>, receipts: seq<Receipt>, scan: Scan, t: Tid)
    requires scan.Scan? && |receipts| < |sent| && RecordOk(fronts, sent, receipts, scan)
    requires scan.phase.Pulling? && scan.pulled < scan.phase.budget && sent[|receipts|] in fronts
    ensures RecordOk(fronts, sent, receipts + [ByScan(t)], AfterPull(scan, sent[|receipts|]))
  {
  }

  lemma RecordStops(fronts: set<Front>, sent: seq<Front>, receipts: seq<Receipt>, scan: Scan)
    requires scan.Scan? && |receipts| <= |sent| && RecordOk(fronts, sent, receipts, scan)
    requires scan.phase.Pulling? && (scan.pulled == scan.phase.budget || |receipts| == |sent|)
    ensures RecordOk(fronts, sent, receipts, AfterStop(scan))
  {
    hide OccurrencesOf, Without;
  }

  lemma RecordCounts(fronts: set<Front>, sent: seq<Front>, receipts: seq<Receipt>, scan: Scan)
    requires scan.Scan? && |receipts| <= |sent| && RecordOk(fronts, sent, receipts, scan) && scan.phase.Counting?
    ensures RecordOk(fronts, sent, receipts, Counted(scan, |sent| - |receipts|))
  {
  }

  lemma StepOtherScan(s: State, t: Tid, a: Action, u: Tid)
    requires Inv(s) && Enabled(s, t, a)
    requires |Apply(s, t, a).receipts| <= |Apply(s, t, a).sent|
    requires u != t && u in s.threads && s.threads[u].scan.Scan?
    ensures ScanOk(Apply(s, t, a), u)
  {
    assert ScanOk(s, u);
    var s' := Apply(s, t, a);
    hide FlagsExact, RecordOk, ThreadAfter;
    RecordMoves(s.fronts, s.sent, s.receipts, s'.sent, s'.receipts, s.threads[u].scan);
  }

  lemma StepOwnScan(s: State, t: Tid, a: Action)
    requires Inv(s) && Enabled(s, t, a)
    requires |Apply(s, t, a).receipts| <= |Apply(s, t, a).sent|
    requires Apply(s, t, a).threads[t].scan.Scan?
    ensures ScanOk(Apply(s, t, a), t)
  {
    var s', scan := Apply(s, t, a), s.threads[t].scan;
    assert scan.Scan? ==> ScanOk(s, t);
    hide FlagsExact, RecordOk, AfterStop, AfterPull, Counted;
    match a
    case Lock(_, _) => FirstOk(s, t, a);
    case Count => RecordCounts(s.fronts, s.sent, s.receipts, scan);
    case ScanReceive => RecordPulls(s.fronts, s.sent, s.receipts, scan, t);
    case ScanStop => RecordStops(s.fronts, s.sent, s.receipts, scan);
    case Receive | Finish =>
    case _ =>
      RecordMoves(s.fronts, s.sent, s.receipts, s'.sent, s'.receipts, scan);
      RecordShrinks(s.fronts, s'.sent, s'.receipts, scan, s'.threads[t].scan);
  }

  lemma FirstOk(s: State, t: Tid, a: Action)
    requires |s.receipts| <= |s.sent| && Enabled(s, t, a) && a.Lock?
    ensures ScanOk(Apply(s, t, a), t)
  {
  }

  lemma StepScans(s: State, t: Tid, a: Action, u: Tid)
    requires Inv(s) && Enabled(s, t, a)
    requires |Apply(s, t, a).receipts| <= |Apply(s, t, a).sent|
    requires u in s.threads && Apply(s, t, a).threads[u].scan.Scan?
    ensures ScanOk(Apply(s, t, a), u)
  {
    hide ScanOk, FlagsExact;
    if u == t {
      StepOwnScan(s, t, a);
    } else {
      StepOtherScan(s, t, a, u);
    }
  }

  lemma FlagOfHeld(s: State, t: Tid)
    requires Inv(s) && t in s.threads && s.threads[t].prim != Resting
    ensures s.threads[t].prim.f in s.queued
  {
    var g := s.threads[t].prim.f;
    assert t in InFlight(s, g);
    assert Copies(s, g) == if g in s.queued then 1 else 0;
  }

  lemma StepBounds(s: State, t: Tid, a: Action)
    requires Inv(s) && Enabled(s, t, a)
    ensures var s' := Apply(s, t, a);
            && s'.cap > 0 && |s'.receipts| <= |s'.sent| && |Ready(s')| <= s'.cap
            && s'.queued <= s'.fronts && (forall f :: f in s'.sent ==> f in s'.fronts)
            && (forall u :: u in s'.threads ==> (s'.threads[u].scan.Scan? <==> s'.scanMu == Some(u)))
  {
    if s.threads[t].prim != Resting {
      FlagOfHeld(s, t);
    }
    ReadyAfter(s, t, a, 0);
    hide FlagsExact, ScanOk, AfterPull, AfterStop;
  }

  lemma StepInv(s: State, t: Tid, a: Action)
    requires Inv(s) && Enabled(s, t, a)
    ensures Inv(Apply(s, t, a))
  {
    var s' := Apply(s, t, a);
    StepBounds(s, t, a);
    hide Apply, Enabled;
    forall g ensures Copies(s', g) == if g in s'.queued then 1 else 0 {
      StepCopies(s, t, a, g);
    }
    forall u | u in s'.threads && s'.threads[u].scan.Scan? ensures ScanOk(s', u) {
      StepScans(s, t, a, u);
    }
  }

  // ----- schedules

  /** One entry per step: which thread moves and how. */
  type Schedule = seq<(Tid, Action)>

  ghost predicate Runs(s: State, sched: Schedule)
    decreases |sched|
  {
    sched == [] ||
    (&& |s.receipts| <= |s.sent|
     && Enabled(s, sched[0].0, sched[0].1)
     && Runs(Apply(s, sched[0].0, sched[0].1), sched[1..]))
  }

  ghost function Exec(s: State, sched: Schedule): State
    requires Runs(s, sched)
    decreases |sched|
  {
    if sched == [] then s else Exec(Apply(s, sched[0].0, sched[0].1), sched[1..])
  }

  lemma {:induction false} RunInv(s: State, sched: Schedule)
    requires Inv(s) && Runs(s, sched)
    ensures Inv(Exec(s, sched))
    decreases |sched|
  {
    if sched != [] {
      StepInv(s, sched[0].0, sched[0].1);
      RunInv(Apply(s, sched[0].0, sched[0].1), sched[1..]);
    }
  }

  // ----- main results

  /** Every schedule keeps the copies of each front at one or zero, as its queued flag says. */
  lemma QueuedFlagCountsCopies(s: State, sched: Schedule, f: Front)
    requires Init(s) && Runs(s, sched)
    ensures var e := Exec(s, sched);
            && |e.receipts| <= |e.sent| && |Ready(e)| <= e.cap
            && Copies(e, f) == (if f in e.queued then 1 else 0)
            && NoDup(Ready(e))
  {
    InitInv(s);
    RunInv(s, sched);
    ReadyNoDup(Exec(s, sched));
  }

  /** When no thread is between two atomic points, the flag means exactly "in the queue". */
  lemma QuiescentFlagIsMembership(s: State, sched: Schedule, f: Front)
    requires Init(s) && Runs(s, sched)
    requires forall t :: t in Exec(s, sched).threads ==> Exec(s, sched).threads[t].prim == Resting
    ensures |Exec(s, sched).receipts| <= |Exec(s, sched).sent|
    ensures f in Exec(s, sched).queued <==> f in Ready(Exec(s, sched))
  {
    QueuedFlagCountsCopies(s, sched, f);
    assert InFlight(Exec(s, sched), f) == {};
  }

  lemma ReadyNoDup(s: State)
    requires Inv(s)
    ensures NoDup(Ready(s))
  {
    forall x ensures multiset(Ready(s))[x] <= 1 {
      assert Copies(s, x) <= 1;
    }
    AtMostOnceIsNoDup(Ready(s));
  }

  lemma RoomForAll(e: State, t: Tid)
    requires Inv(e) && |e.fronts| <= e.cap
    ensures !Enabled(e, t, SelectDefault)
  {
    if t in e.threads && e.threads[t].prim.Sending? {
      var f := e.threads[t].prim.f;
      ReadyNoDup(e);
      FlagOfHeld(e, t);
      assert t in InFlight(e, f) && Copies(e, f) <= 1;
      assert f !in multiset(Ready(e));
      forall x | x in Ready(e) ensures x in e.fronts - {f} {
        assert x in e.sent;
      }
      NoDupFits(Ready(e), e.fronts - {f});
    }
  }

  /** With room for every front in existence, the "full, drop" branch is never reached. */
  lemma NeverFull(s: State, sched: Schedule, t: Tid)
    requires Init(s) && Runs(s, sched)
    requires |s.fronts| <= s.cap
    ensures |Exec(s, sched).receipts| <= |Exec(s, sched).sent|
    ensures !Enabled(Exec(s, sched), t, SelectDefault)
  {
    InitInv(s);
    RunInv(s, sched);
    ExecKeeps(s, sched);
    RoomForAll(Exec(s, sched), t);
  }

  lemma {:induction false} ExecKeeps(s: State, sched: Schedule)
    requires Runs(s, sched)
    ensures var e := Exec(s, sched);
            && e.fronts == s.fronts && e.cap == s.cap && e.threads.Keys == s.threads.Keys
            && s.sent <= e.sent && s.receipts <= e.receipts
            && s.threads.Keys <= e.threads.Keys
    decreases |sched|
  {
    if sched != [] {
      ExecKeeps(Apply(s, sched[0].0, sched[0].1), sched[1..]);
    }
  }

  lemma Prepend(s: State, t: Tid, a: Action, rest: Schedule)
    requires |s.receipts| <= |s.sent| && Enabled(s, t, a) && Runs(Apply(s, t, a), rest)
    ensures Runs(s, [(t, a)] + rest) && Exec(s, [(t, a)] + rest) == Exec(Apply(s, t, a), rest)
  {
    assert ([(t, a)] + rest)[1..] == rest;
  }

  lemma NoSteps(s: State)
    ensures Runs(s, []) && Exec(s, []) == s
  {
  }

  lemma SomeUnqueued(s: State) returns (f: Front)
    requires Inv(s) && |s.queued| < |s.fronts|
    ensures f in s.fronts && f !in s.queued
  {
    var rest := s.fronts - s.queued;
    assert s.fronts == s.queued + rest;
    assert rest != {};
    f :| f in rest;
  }

  /** One thread adding distinct fronts one after another fills a queue that is too small for them. */
  lemma {:induction false} FillUp(s: State, t: Tid) returns (sched: Schedule)
    requires Inv(s) && t in s.threads && s.threads[t] == Thread(Resting, NoScan)
    requires |s.queued| == |Ready(s)| && s.cap < |s.fronts|
    ensures Runs(s, sched)
    ensures |Exec(s, sched).receipts| <= |Exec(s, sched).sent|
    ensures Enabled(Exec(s, sched), t, SelectDefault)
    decreases s.cap - |Ready(s)|
  {
    hide Runs, Exec, FlagsExact, ScanOk;
    var f := SomeUnqueued(s);
    var won := Apply(s, t, CasWin(f));
    StepInv(s, t, CasWin(f));
    ReadyAfter(s, t, CasWin(f), f);
    if |Ready(s)| == s.cap {
      NoSteps(won);
      Prepend(s, t, CasWin(f), []);
      sched := [(t, CasWin(f))] + [];
    } else {
      StepInv(won, t, Send);
      ReadyAfter(won, t, Send, f);
      var rest := FillUp(Apply(won, t, Send), t);
      Prepend(won, t, Send, rest);
      Prepend(s, t, CasWin(f), [(t, Send)] + rest);
      sched := [(t, CasWin(f))] + ([(t, Send)] + rest);
    }
  }

  /** The drop branch is reachable exactly when there are more fronts than the queue holds. */
  lemma DropReachableIff(s: State)
    requires Init(s) && s.threads != map[]
    ensures (exists sched, t :: Runs(s, sched) && |Exec(s, sched).receipts| <= |Exec(s, sched).sent|
                                && Enabled(Exec(s, sched), t, SelectDefault))
            <==> s.cap < |s.fronts|
  {
    if s.cap < |s.fronts| {
      InitInv(s);
      var t :| t in s.threads;
      var sched := FillUp(s, t);
      assert Runs(s, sched) && Enabled(Exec(s, sched), t, SelectDefault);
    } else {
      forall sched, t | Runs(s, sched) ensures |Exec(s, sched).receipts| <= |Exec(s, sched).sent|
                                               && !Enabled(Exec(s, sched), t, SelectDefault) {
        NeverFull(s, sched, t);
      }
    }
  }

  /** A receipt ByTake was left by a Take or a drain of the thread it names. */
  lemma {:induction false} ReceiptTellsWho(s: State, sched: Schedule, i: nat)
    requires Runs(s, sched) && |s.receipts| <= i < |Exec(s, sched).receipts|
    requires Exec(s, sched).receipts[i].ByTake?
    ensures (Exec(s, sched).receipts[i].t, Receive) in sched
    decreases |sched|
  {
    var next := Apply(s, sched[0].0, sched[0].1);
    if i < |next.receipts| {
      ExecKeeps(next, sched[1..]);
      assert Exec(s, sched).receipts[i] == next.receipts[i];
    } else {
      ReceiptTellsWho(next, sched[1..], i);
    }
  }

  /** What a scan's record keeps from Lock to Finish. */
  ghost predicate SameRecord(was: Scan, now: Scan) {
    && was.Scan? && now.Scan? && now.wanted == was.wanted && now.first == was.first
    && now.lockHead == was.lockHead && now.lockLen == was.lockLen
  }

  lemma StepKeepsRecord(s: State, u: Tid, a: Action, t: Tid)
    requires |s.receipts| <= |s.sent| && Enabled(s, u, a) && !(u == t && a == Finish)
    requires t in s.threads && s.threads[t].scan.Scan?
    ensures t in Apply(s, u, a).threads && SameRecord(s.threads[t].scan, Apply(s, u, a).threads[t].scan)
  {
  }

  lemma {:induction false} ScanRecordKept(s: State, t: Tid, sched: Schedule)
    requires Runs(s, sched) && t in s.threads && s.threads[t].scan.Scan?
    requires (t, Finish) !in sched
    ensures t in Exec(s, sched).threads
    ensures SameRecord(s.threads[t].scan, Exec(s, sched).threads[t].scan)
    decreases |sched|
  {
    hide Apply, Enabled;
    if sched != [] {
      assert sched[0] in sched;
      StepKeepsRecord(s, sched[0].0, sched[0].1, t);
      ScanRecordKept(Apply(s, sched[0].0, sched[0].1), t, sched[1..]);
    }
  }

  /**
   tryTakeFrom among any other threads: if it answers "none", every wanted front that was ready when it
   took scanMu has since been received by a Take or a drain, and not by another scan.
   */
  lemma EmptyAnswerMeansTaken(s: State, pre: Schedule, t: Tid, wanted: set<Front>, mid: Schedule, k: nat)
    requires Init(s) && Runs(s, pre)
    requires var b := Exec(s, pre);
             && |b.receipts| <= |b.sent| && Enabled(b, t, Lock(wanted, None))
             && Runs(Apply(b, t, Lock(wanted, None)), mid) && (t, Finish) !in mid
             && k < |Ready(b)| && Ready(b)[k] in wanted
             && var e := Exec(Apply(b, t, Lock(wanted, None)), mid);
                && |e.receipts| <= |e.sent| && Enabled(e, t, Finish) && e.threads[t].scan.found == None
    ensures var b := Exec(s, pre);
            var e := Exec(Apply(b, t, Lock(wanted, None)), mid);
            var i := |b.receipts| + k;
            && i < |e.receipts| && e.sent[i] == Ready(b)[k]
            && e.receipts[i].ByTake? && (e.receipts[i].t, Receive) in mid
  {
    hide *;
    InitInv(s);
    RunInv(s, pre);
    TakenSinceLock(Exec(s, pre), t, wanted, None, mid, k);
  }

  /**
   TakePreferringUntried among any other threads: if its scan, having pulled fewer than eight fronts, falls
   back to a front it did not want, every wanted front that was ready when it took scanMu has since been
   received by a Take or a drain, and not by another scan.
   */
  lemma EarlyFallbackMeansTaken(
    s: State, pre: Schedule, t: Tid, wanted: set<Front>, first: Front, mid: Schedule, k: nat)
    requires Init(s) && Runs(s, pre)
    requires var b := Exec(s, pre);
             && |b.receipts| <= |b.sent| && Enabled(b, t, Lock(wanted, Some(first)))
             && Runs(Apply(b, t, Lock(wanted, Some(first))), mid) && (t, Finish) !in mid
             && k < |Ready(b)| && Ready(b)[k] in wanted
             && var e := Exec(Apply(b, t, Lock(wanted, Some(first))), mid);
                && |e.receipts| <= |e.sent| && Enabled(e, t, Finish)
                && var scan := e.threads[t].scan;
                   (scan.found.Some? ==> scan.found.value !in wanted) && scan.pulled < 8
    ensures var b := Exec(s, pre);
            var e := Exec(Apply(b, t, Lock(wanted, Some(first))), mid);
            var i := |b.receipts| + k;
            && i < |e.receipts| && e.sent[i] == Ready(b)[k]
            && e.receipts[i].ByTake? && (e.receipts[i].t, Receive) in mid
  {
    hide *;
    InitInv(s);
    RunInv(s, pre);
    TakenSinceLock(Exec(s, pre), t, wanted, Some(first), mid, k);
  }

  lemma TakenSinceLock(b: State, t: Tid, wanted: set<Front>, first: Option<Front>, mid: Schedule, k: nat)
    requires Inv(b) && Enabled(b, t, Lock(wanted, first))
    requires Runs(Apply(b, t, Lock(wanted, first)), mid) && (t, Finish) !in mid
    requires k < |Ready(b)| && Ready(b)[k] in wanted
    requires var e := Exec(Apply(b, t, Lock(wanted, first)), mid);
             && |e.receipts| <= |e.sent| && Enabled(e, t, Finish)
             && var scan := e.threads[t].scan;
                (scan.found.Some? ==> scan.found.value !in wanted) && (first.Some? ==> scan.pulled < 8)
    ensures var e := Exec(Apply(b, t, Lock(wanted, first)), mid);
            var i := |b.receipts| + k;
            && i < |e.receipts| && e.sent[i] == Ready(b)[k]
            && e.receipts[i].ByTake? && (e.receipts[i].t, Receive) in mid
  {
    hide *;
    var l := LockRecord(b, t, wanted, first);
    RunInv(l, mid);
    ExecKeeps(l, mid);
    ScanRecordKept(l, t, mid);
    var i := |b.receipts| + k;
    SentAtLock(b, k);
    RecordAtFinish(Exec(l, mid), t, i, l.threads[t].scan);
    ReceiptTellsWho(l, mid, i);
  }

  lemma SentAtLock(b: State, k: nat)
    requires |b.receipts| <= |b.sent| && k < |Ready(b)|
    ensures |b.receipts| + k < |b.sent| && Ready(b)[k] == b.sent[|b.receipts| + k]
  {
  }

  lemma LockRecord(b: State, t: Tid, wanted: set<Front>, first: Option<Front>) returns (l: State)
    requires Inv(b) && Enabled(b, t, Lock(wanted, first))
    ensures |b.receipts| <= |b.sent| && l == Apply(b, t, Lock(wanted, first)) && Inv(l)
    ensures l.sent == b.sent && l.receipts == b.receipts && t in l.threads
    ensures var scan := l.threads[t].scan;
            && scan.Scan? && scan.wanted == wanted && scan.first == first
            && scan.lockHead == |b.receipts| && scan.lockLen == |b.sent|
  {
    StepInv(b, t, Lock(wanted, first));
    l := Apply(b, t, Lock(wanted, first));
  }

  /** A scan about to finish without a wanted front: what it wanted and was sent by its Lock went to others. */
  lemma RecordAtFinish(e: State, t: Tid, i: nat, was: Scan)
    requires Inv(e) && |e.receipts| <= |e.sent| && Enabled(e, t, Finish) && t in e.threads
    requires SameRecord(was, e.threads[t].scan)
    requires var scan := e.threads[t].scan;
             (scan.found.Some? ==> scan.found.value !in was.wanted) && (was.first.Some? ==> scan.pulled < 8)
    requires was.lockHead <= i < was.lockLen && i < |e.sent| && e.sent[i] in was.wanted
    ensures i < |e.receipts| && e.receipts[i].ByTake?
  {
    assert ScanOk(e, t);
  }
}
