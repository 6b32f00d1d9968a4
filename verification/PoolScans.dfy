/**
 What a scan does with the fronts it takes out of the ready queue, among any other threads: from Lock to
 Finish every one is its answer, put back, found queued again, or dropped because the queue filled up.
 */
module PoolScans {
  import opened Common
  import opened PoolProtocol

  /** The front a thread has handed to addReady and that is neither sent nor dropped yet. */
  function Handed(p: Prim): multiset<Front> {
    match p
    case Sending(f) => multiset{f}
    case Dropping(f) => multiset{f}
    case _ => multiset{}
  }

  function Answer(scan: Scan): multiset<Front>
    requires scan.Scan?
  {
    match scan.found
    case Some(f) => multiset{f}
    case None => multiset{}
  }

  /** Where a scan's fronts have gone. */
  function Settled(t: Tally): multiset<Front> {
    t.sent + t.again + t.dropped + t.merged
  }

  ghost predicate TallyOk(th: Thread) {
    th.scan.Scan? ==>
      var scan := th.scan;
      && scan.tally.taken == multiset(scan.skipped) + Answer(scan) + Settled(scan.tally) + Handed(th.prim)
      && (forall f :: f in scan.tally.merged ==> scan.found == Some(f))
      && (!scan.phase.PuttingBack? ==>
            && scan.found == None && scan.tally.merged == multiset{}
            && (scan.first.Some? ==> scan.skipped != [] && scan.skipped[0] == scan.first.value))
      && (scan.phase.PuttingBack? ==>
            && (scan.first.Some? ==> scan.found.Some?)
            && (scan.found.Some? ==> scan.found.value in scan.wanted || scan.found == scan.first))
  }

  lemma {:induction false} Parted(s: seq<Front>, x: Front)
    ensures multiset(s) == multiset(Without(s, x)) + multiset(OccurrencesOf(s, x))
    ensures forall y :: y in multiset(OccurrencesOf(s, x)) ==> y == x
  {
    if s != [] {
      assert s == [s[0]] + s[1..];
      Parted(s[1..], x);
    }
  }

  lemma HeadSplit(s: seq<Front>)
    requires s != []
    ensures multiset(s) == multiset{s[0]} + multiset(s[1..])
  {
    assert s == [s[0]] + s[1..];
  }

  /** addReady's steps for a scan. */
  lemma AddTally(scan: Scan, f: Front)
    requires scan.Scan? && scan.phase.PuttingBack? && scan.skipped != [] && scan.skipped[0] == f
    requires TallyOk(Thread(Resting, scan))
    ensures TallyOk(Thread(Sending(f), AfterAdd(scan))) && TallyOk(Thread(Resting, FoundQueued(AfterAdd(scan), f)))
  {
    HeadSplit(scan.skipped);
  }

  lemma SentTally(scan: Scan, f: Front)
    requires TallyOk(Thread(Sending(f), scan))
    ensures TallyOk(Thread(Resting, Sent(scan, f)))
  {
  }

  lemma DroppedTally(scan: Scan, f: Front)
    requires TallyOk(Thread(Dropping(f), scan))
    ensures TallyOk(Thread(Resting, Dropped(scan, f)))
  {
  }

  lemma PullTally(scan: Scan, f: Front)
    requires scan.Scan? && !scan.phase.PuttingBack? && TallyOk(Thread(Resting, scan))
    ensures TallyOk(Thread(Resetting(f), AfterPull(scan, f)))
  {
    if f !in scan.wanted {
      assert multiset(scan.skipped + [f]) == multiset(scan.skipped) + multiset{f};
    }
  }

  lemma StopTally(scan: Scan)
    requires scan.Scan? && !scan.phase.PuttingBack? && TallyOk(Thread(Resting, scan))
    ensures TallyOk(Thread(Resting, AfterStop(scan)))
  {
    if scan.skipped != [] {
      HeadSplit(scan.skipped);
      Parted(scan.skipped[1..], scan.skipped[0]);
    }
  }

  lemma HandedTally(scan: Scan, p: Prim, p': Prim)
    requires TallyOk(Thread(p, scan)) && Handed(p) == Handed(p')
    ensures TallyOk(Thread(p', scan))
  {
  }

  lemma OtherTallies(scan: Scan, f: Front)
    ensures TallyOk(Thread(Sending(f), scan)) ==> TallyOk(Thread(Dropping(f), scan))
    ensures TallyOk(Thread(Resetting(f), scan)) ==> TallyOk(Thread(Resting, scan))
    ensures forall p :: TallyOk(Thread(p, NoScan))
  {
    assert forall p :: TallyOk(Thread(p, NoScan));
    hide TallyOk;
    if TallyOk(Thread(Sending(f), scan)) {
      HandedTally(scan, Sending(f), Dropping(f));
    }
    if TallyOk(Thread(Resetting(f), scan)) {
      HandedTally(scan, Resetting(f), Resting);
    }
  }

  lemma FirstTally(s: State, wanted: set<Front>, first: Option<Front>)
    ensures TallyOk(Thread(Resting, FirstScan(s, wanted, first)))
  {
  }

  lemma CountTally(scan: Scan, n: nat)
    requires scan.Scan? && TallyOk(Thread(Resting, scan)) && !scan.phase.PuttingBack?
    ensures TallyOk(Thread(Resting, Counted(scan, n)))
  {
  }

  lemma StepTally(s: State, t: Tid, a: Action)
    requires |s.receipts| <= |s.sent| && Enabled(s, t, a) && TallyOk(s.threads[t])
    ensures TallyOk(ThreadAfter(s, t, a))
  {
    var scan, p := s.threads[t].scan, s.threads[t].prim;
    OtherTallies(scan, if p.Resting? then 0 else p.f);
    hide TallyOk, AfterAdd, AfterPull, AfterStop, FirstScan, Counted;
    match a
    case Lock(wanted, first) => FirstTally(s, wanted, first);
    case Count => CountTally(scan, |Ready(s)|);
    case CasWin(f) => if scan.Scan? { AddTally(scan, f); }
    case CasLose(f) => if scan.Scan? { AddTally(scan, f); }
    case Send => if scan.Scan? { SentTally(scan, p.f); }
    case DropReset => if scan.Scan? { DroppedTally(scan, p.f); }
    case ScanReceive => PullTally(scan, Ready(s)[0]);
    case ScanStop => StopTally(scan);
    case _ =>
  }

  lemma {:induction false} RunTally(s: State, sched: Schedule, t: Tid)
    requires Inv(s) && Runs(s, sched) && t in s.threads && TallyOk(s.threads[t])
    ensures t in Exec(s, sched).threads && TallyOk(Exec(s, sched).threads[t])
    decreases |sched|
  {
    hide TallyOk, Inv;
    if sched != [] {
      var u, a := sched[0].0, sched[0].1;
      StepInv(s, u, a);
      if u == t {
        StepTally(s, t, a);
      }
      RunTally(Apply(s, u, a), sched[1..], t);
    }
  }

  /**
   In every interleaving, when a scan is about to finish, each front it took out of the queue, or was given,
   is its answer, or was put back at the tail, found queued by another thread, or dropped because the queue
   was full; only its answer may have come to it more than once. The answer is a wanted front, or the first
   front it was given, and a scan that was given one has an answer.
   */
  lemma ScanAccounts(s: State, sched: Schedule, t: Tid)
    requires Init(s) && Runs(s, sched)
    requires |Exec(s, sched).receipts| <= |Exec(s, sched).sent| && Enabled(Exec(s, sched), t, Finish)
    ensures var scan := Exec(s, sched).threads[t].scan;
            && scan.tally.taken
               == Answer(scan) + scan.tally.sent + scan.tally.again + scan.tally.dropped + scan.tally.merged
            && (forall f :: f in scan.tally.merged ==> scan.found == Some(f))
            && (scan.found.Some? ==> scan.found.value in scan.wanted || scan.found == scan.first)
            && (scan.first.Some? ==> scan.found.Some?)
  {
    InitInv(s);
    ExecKeeps(s, sched);
    AtFinish(Exec(s, sched), t);
    AtInit(s, t);
    hide *;
    RunTally(s, sched, t);
    FinishTally(Exec(s, sched).threads[t]);
  }

  lemma AtInit(s: State, t: Tid)
    requires Init(s) && t in s.threads
    ensures TallyOk(s.threads[t]) && NoDrop(s.threads[t])
  {
  }

  lemma AtFinish(s: State, t: Tid)
    requires |s.receipts| <= |s.sent| && Enabled(s, t, Finish)
    ensures t in s.threads
    ensures s.threads[t].prim.Resting? && s.threads[t].scan.Scan? && s.threads[t].scan.skipped == []
    ensures s.threads[t].scan.phase.PuttingBack?
  {
  }

  lemma FinishTally(th: Thread)
    requires TallyOk(th) && th.prim.Resting? && th.scan.Scan? && th.scan.skipped == [] && th.scan.phase.PuttingBack?
    ensures var scan, tally := th.scan, th.scan.tally;
            && tally.taken == Answer(scan) + tally.sent + tally.again + tally.dropped + tally.merged
            && (forall f :: f in tally.merged ==> scan.found == Some(f))
            && (scan.found.Some? ==> scan.found.value in scan.wanted || scan.found == scan.first)
            && (scan.first.Some? ==> scan.found.Some?)
  {
    assert multiset(th.scan.skipped) == multiset{};
  }

  // ----- when there is room for every front

  /** The thread is not dropping a front, and no scan of it has dropped one. */
  predicate NoDrop(th: Thread) {
    !th.prim.Dropping? && (th.scan.Scan? ==> th.scan.tally.dropped == multiset{})
  }

  lemma StepNoDrop(s: State, t: Tid, a: Action)
    requires |s.receipts| <= |s.sent| && Enabled(s, t, a) && !a.SelectDefault? && NoDrop(s.threads[t])
    ensures NoDrop(ThreadAfter(s, t, a))
  {
  }

  lemma {:induction false} RunNoDrop(s: State, sched: Schedule, t: Tid)
    requires Inv(s) && Runs(s, sched) && |s.fronts| <= s.cap && t in s.threads && NoDrop(s.threads[t])
    ensures t in Exec(s, sched).threads && NoDrop(Exec(s, sched).threads[t])
    decreases |sched|
  {
    hide NoDrop, Inv;
    if sched != [] {
      var u, a := sched[0].0, sched[0].1;
      StepInv(s, u, a);
      RoomForAll(s, u);
      if u == t {
        StepNoDrop(s, t, a);
      }
      RunNoDrop(Apply(s, u, a), sched[1..], t);
    }
  }

  /** With capacity for every front a scan, among any other threads, loses none. */
  lemma ScanLosesNothing(s: State, sched: Schedule, t: Tid)
    requires Init(s) && Runs(s, sched) && |s.fronts| <= s.cap
    requires t in Exec(s, sched).threads && Exec(s, sched).threads[t].scan.Scan?
    ensures Exec(s, sched).threads[t].scan.tally.dropped == multiset{}
  {
    InitInv(s);
    ExecKeeps(s, sched);
    AtInit(s, t);
    RunNoDrop(s, sched, t);
  }

  /** A thread in the middle of an operation on the queue can always move. */
  lemma NeverStuck(s: State, sched: Schedule, t: Tid)
    requires Init(s) && Runs(s, sched) && t in Exec(s, sched).threads
    requires Exec(s, sched).threads[t] != Thread(Resting, NoScan)
    ensures |Exec(s, sched).receipts| <= |Exec(s, sched).sent|
    ensures exists a :: Enabled(Exec(s, sched), t, a)
  {
    InitInv(s);
    RunInv(s, sched);
    var e := Exec(s, sched);
    hide Runs, Exec, Init;
    var a := NextMove(e, t);
  }

  lemma NextMove(e: State, t: Tid) returns (a: Action)
    requires Inv(e) && t in e.threads && e.threads[t] != Thread(Resting, NoScan)
    ensures Enabled(e, t, a)
  {
    var scan := e.threads[t].scan;
    match e.threads[t].prim
    case Sending(f) => a := if |Ready(e)| < e.cap then Send else SelectDefault;
    case Dropping(f) => a := DropReset;
    case Resetting(f) => a := Reset;
    case Resting =>
      assert ScanOk(e, t);
      if scan.phase.Counting? {
        a := Count;
      } else if scan.phase.Pulling? {
        a := if scan.pulled == scan.phase.budget || Ready(e) == [] then ScanStop else ScanReceive;
      } else if scan.skipped == [] {
        a := Finish;
      } else {
        var f := scan.skipped[0];
        a := if f in e.queued then CasLose(f) else CasWin(f);
      }
  }

  // ----- the tally is what the thread did

  predicate IsSend(a: Action) {
    a.Send?
  }

  predicate IsLostSwap(a: Action) {
    a.CasLose?
  }

  predicate IsDrop(a: Action) {
    a.DropReset?
  }

  predicate IsPull(a: Action) {
    a.ScanReceive?
  }

  /** How many steps of this kind thread t takes. */
  function StepsOf(sched: Schedule, t: Tid, kind: Action -> bool): nat {
    if sched == [] then 0
    else (if sched[0].0 == t && kind(sched[0].1) then 1 else 0) + StepsOf(sched[1..], t, kind)
  }

  /** a's tally, and as many more of each kind. */
  predicate Further(a: Tally, b: Tally, taken: nat, sent: nat, again: nat, dropped: nat) {
    && |b.taken| == |a.taken| + taken && |b.sent| == |a.sent| + sent
    && |b.again| == |a.again| + again && |b.dropped| == |a.dropped| + dropped
  }

  lemma StepFurther(s: State, t: Tid, a: Action)
    requires |s.receipts| <= |s.sent| && Enabled(s, t, a) && s.threads[t].scan.Scan? && a != Finish
    ensures ThreadAfter(s, t, a).scan.Scan?
    ensures Further(s.threads[t].scan.tally, ThreadAfter(s, t, a).scan.tally,
                    if IsPull(a) then 1 else 0, if IsSend(a) then 1 else 0,
                    if IsLostSwap(a) then 1 else 0, if IsDrop(a) then 1 else 0)
  {
    hide Without, OccurrencesOf;
  }

  /**
   While a scan lasts its tally counts what its thread does: a front taken for each it pulls, sent for each
   send, found queued again for each lost compare-and-swap, and dropped for each it drops.
   */
  lemma {:induction false} TallyCounts(s: State, sched: Schedule, t: Tid)
    requires Runs(s, sched) && t in s.threads && s.threads[t].scan.Scan? && (t, Finish) !in sched
    ensures t in Exec(s, sched).threads && Exec(s, sched).threads[t].scan.Scan?
    ensures Further(s.threads[t].scan.tally, Exec(s, sched).threads[t].scan.tally,
                    StepsOf(sched, t, IsPull), StepsOf(sched, t, IsSend),
                    StepsOf(sched, t, IsLostSwap), StepsOf(sched, t, IsDrop))
    decreases |sched|
  {
    hide Enabled, ThreadAfter;
    if sched != [] {
      assert sched[0] in sched;
      if sched[0].0 == t {
        StepFurther(s, t, sched[0].1);
      }
      TallyCounts(Apply(s, sched[0].0, sched[0].1), sched[1..], t);
    }
  }
}
