/**
 The pause gate under every interleaving of any number of threads that pause, resume and wait.

 Channels are numbers; current is the one in the gate's resumed field. Locking and unlocking mu, testing
 whether a channel is closed, making a channel and closing one are separate steps.
 */
module PauseProtocol {
  import opened Common

  type Tid = nat
  type Chan = nat

  datatype Pc =
    | Idle
    // pause
    | PauseLock | PauseTest | PauseMake | PauseUnlock
    // resume
    | ResumeLock | ResumeTest | ResumeClose | ResumeUnlock
    // wait
    | WaitCheck                      // ctx.Err() at the head of the loop
    | WaitLock
    | WaitRead                       // about to read g.resumed
    | WaitTest(ch: Chan)             // the first select
    | WaitUnlockRunning              // the select saw a closed channel
    | WaitUnlockPaused(ch: Chan)
    | WaitSleep(ch: Chan)            // the second select
    | WaitDone(result: bool)

  datatype State = State(
    mu: Option<Tid>,
    current: Chan,
    made: nat,             // the channels made so far are 0 .. made - 1
    closes: seq<Chan>,     // every close, in order
    ended: set<Tid>,       // waiters whose context has ended
    threads: map<Tid, Pc>)

  /** Start a call, move on, or have the thread's context end. Wake and GiveUp are the two ways out of a sleep. */
  datatype Action = StartPause | StartResume | StartWait | Go | Wake | GiveUp | EndContext

  predicate Running(s: State) {
    s.current in s.closes
  }

  /** newPauseGate */
  predicate Init(s: State) {
    && s.mu == None && s.current == 0 && s.made == 1 && s.closes == [0]
    && forall t :: t in s.threads ==> s.threads[t] == Idle
  }

  predicate HoldsMutex(pc: Pc) {
    pc.PauseTest? || pc.PauseMake? || pc.PauseUnlock? || pc.ResumeTest? || pc.ResumeClose? || pc.ResumeUnlock?
    || pc.WaitRead? || pc.WaitTest? || pc.WaitUnlockRunning? || pc.WaitUnlockPaused?
  }

  predicate Enabled(s: State, t: Tid, a: Action) {
    && t in s.threads
    && var pc := s.threads[t];
       match a
       case StartPause | StartResume | StartWait => pc == Idle
       case EndContext => true
       case Wake => pc.WaitSleep? && pc.ch in s.closes
       case GiveUp => pc.WaitSleep? && t in s.ended
       case Go =>
         && pc != Idle && !pc.WaitSleep? && !pc.WaitDone?
         && (pc.PauseLock? || pc.ResumeLock? || pc.WaitLock? ==> s.mu == None)
  }

  /** The effect of one step of thread t's code. */
  function Advance(s: State, t: Tid): State
    requires Enabled(s, t, Go)
  {
    var to := (pc: Pc) => s.(threads := s.threads[t := pc]);
    match s.threads[t]
    case PauseLock => to(PauseTest).(mu := Some(t))
    case PauseTest => to(if Running(s) then PauseMake else PauseUnlock)
    case PauseMake => to(PauseUnlock).(current := s.made, made := s.made + 1)
    case PauseUnlock => to(Idle).(mu := None)
    case ResumeLock => to(ResumeTest).(mu := Some(t))
    case ResumeTest => to(if Running(s) then ResumeUnlock else ResumeClose)
    case ResumeClose => to(ResumeUnlock).(closes := s.closes + [s.current])
    case ResumeUnlock => to(Idle).(mu := None)
    case WaitCheck => to(if t in s.ended then WaitDone(false) else WaitLock)
    case WaitLock => to(WaitRead).(mu := Some(t))
    case WaitRead => to(WaitTest(s.current))
    case WaitTest(ch) => to(if ch in s.closes then WaitUnlockRunning else WaitUnlockPaused(ch))
    case WaitUnlockRunning => to(WaitDone(true)).(mu := None)
    case WaitUnlockPaused(ch) => to(WaitSleep(ch)).(mu := None)
  }

  function Apply(s: State, t: Tid, a: Action): State
    requires Enabled(s, t, a)
  {
    match a
    case StartPause => s.(threads := s.threads[t := PauseLock])
    case StartResume => s.(threads := s.threads[t := ResumeLock])
    case StartWait => s.(threads := s.threads[t := WaitCheck])
    case EndContext => s.(ended := s.ended + {t})
    case Wake => s.(threads := s.threads[t := WaitCheck])
    case GiveUp => s.(threads := s.threads[t := WaitDone(false)])
    case Go => Advance(s, t)
  }

  // ----- the invariant

  ghost predicate ThreadOk(s: State, t: Tid)
    requires t in s.threads
  {
    var pc := s.threads[t];
    && (HoldsMutex(pc) <==> s.mu == Some(t))
    && (pc.PauseMake? || pc.WaitUnlockRunning? ==> Running(s))
    && (pc.ResumeClose? || pc.PauseUnlock? ==> !Running(s))
    && (pc.ResumeUnlock? ==> Running(s))
    && (pc == WaitDone(false) ==> t in s.ended)
    && (pc.WaitTest? || pc.WaitUnlockPaused? ==> pc.ch == s.current)
    && (pc.WaitSleep? ==> pc.ch < s.made)
  }

  ghost predicate ChannelsOk(s: State) {
    && s.current < s.made
    && (s.mu.Some? ==> s.mu.value in s.threads)
    && (forall c :: c in s.closes ==> c < s.made)
    && (forall c :: 0 <= c < s.made ==> c in s.closes || c == s.current)
    && NoDup(s.closes)
  }

  ghost predicate Inv(s: State) {
    ChannelsOk(s) && forall t :: t in s.threads ==> ThreadOk(s, t)
  }

  lemma StepThread(s: State, t: Tid, a: Action, u: Tid)
    requires Inv(s) && Enabled(s, t, a) && u in s.threads
    ensures ThreadOk(Apply(s, t, a), u)
  {
    assert ThreadOk(s, t) && ThreadOk(s, u);
  }

  lemma StepChannels(s: State, t: Tid, a: Action)
    requires Inv(s) && Enabled(s, t, a)
    ensures ChannelsOk(Apply(s, t, a))
  {
    assert ThreadOk(s, t);
  }

  lemma StepInv(s: State, t: Tid, a: Action)
    requires Inv(s) && Enabled(s, t, a)
    ensures Inv(Apply(s, t, a))
  {
    StepChannels(s, t, a);
    forall u | u in s.threads ensures ThreadOk(Apply(s, t, a), u) {
      StepThread(s, t, a, u);
    }
    hide ThreadOk, ChannelsOk;
  }

  // ----- schedules

  type Schedule = seq<(Tid, Action)>

  ghost predicate Runs(s: State, sched: Schedule)
    decreases |sched|
  {
    sched == [] ||
    (Enabled(s, sched[0].0, sched[0].1) && Runs(Apply(s, sched[0].0, sched[0].1), sched[1..]))
  }

  ghost function Exec(s: State, sched: Schedule): State
    requires Runs(s, sched)
    decreases |sched|
  {
    if sched == [] then s else Exec(Apply(s, sched[0].0, sched[0].1), sched[1..])
  }

  lemma {:induction false} RunInv(s: State, sched: Schedule)
    requires Inv(s) && Runs(s, sched)
    ensures Inv(Exec(s, sched))
    decreases |sched|
  {
    if sched != [] {
      StepInv(s, sched[0].0, sched[0].1);
      RunInv(Apply(s, sched[0].0, sched[0].1), sched[1..]);
    }
  }

  // ----- main results

  /**
   In every reachable state the channel a waiter sleeps on is closed or is the gate's own, and no
   channel was ever closed twice.
   */
  lemma NoLostWakeup(s: State, sched: Schedule, t: Tid)
    requires Init(s) && Runs(s, sched)
    ensures var e := Exec(s, sched);
            && NoDup(e.closes)
            && (t in e.threads && e.threads[t].WaitSleep? ==>
                  e.threads[t].ch in e.closes || e.threads[t].ch == e.current)
  {
    RunInv(s, sched);
    var e := Exec(s, sched);
    if t in e.threads {
      assert ThreadOk(e, t);
    }
  }

  /** The step that makes a wait report true finds its thread holding the mutex of a running gate. */
  lemma BecameTrue(s: State, u: Tid, a: Action, t: Tid)
    requires Inv(s) && Enabled(s, u, a) && t in s.threads && s.threads[t] != WaitDone(true)
    ensures t in Apply(s, u, a).threads
    ensures Apply(s, u, a).threads[t] == WaitDone(true) ==> s.mu == Some(t) && Running(s)
  {
    assert ThreadOk(s, t);
  }

  lemma {:induction false} FindRunningInstant(s: State, sched: Schedule, t: Tid) returns (i: nat)
    requires Inv(s) && Runs(s, sched)
    requires t in s.threads && s.threads[t] != WaitDone(true)
    requires t in Exec(s, sched).threads && Exec(s, sched).threads[t] == WaitDone(true)
    ensures i < |sched| && Runs(s, sched[..i])
    ensures Exec(s, sched[..i]).mu == Some(t) && Running(Exec(s, sched[..i]))
    decreases |sched|
  {
    var u, a := sched[0].0, sched[0].1;
    var next := Apply(s, u, a);
    BecameTrue(s, u, a, t);
    hide Apply, Enabled, Inv;
    if next.threads[t] == WaitDone(true) {
      i := 0;
    } else {
      assert Inv(next) by { StepInv(s, u, a); }
      var j := FindRunningInstant(next, sched[1..], t);
      i := j + 1;
      assert sched[..i][1..] == sched[1..][..j];
    }
  }

  /** A wait that reported true held the mutex at an instant when the gate was running. */
  lemma TrueMeansRunning(s: State, sched: Schedule, t: Tid)
    requires Init(s) && Runs(s, sched) && t in s.threads
    requires t in Exec(s, sched).threads && Exec(s, sched).threads[t] == WaitDone(true)
    ensures exists i | 0 <= i < |sched| ::
              Runs(s, sched[..i]) && Exec(s, sched[..i]).mu == Some(t) && Running(Exec(s, sched[..i]))
  {
    var i := FindRunningInstant(s, sched, t);
  }

  /** The own steps a waiter still needs once the gate stays running. */
  function Rank(pc: Pc): nat {
    match pc
    case WaitUnlockPaused(_) => 7
    case WaitSleep(_) => 6
    case WaitCheck => 5
    case WaitLock => 4
    case WaitRead => 3
    case WaitTest(_) => 2
    case WaitUnlockRunning => 1
    case _ => 0
  }

  predicate IsPause(pc: Pc) {
    pc.PauseLock? || pc.PauseTest? || pc.PauseMake? || pc.PauseUnlock?
  }

  predicate IsWaiter(pc: Pc) {
    Rank(pc) > 0 || pc.WaitDone?
  }

  function OwnSteps(sched: Schedule, t: Tid): nat {
    if sched == [] then 0
    else (if sched[0].0 == t && sched[0].1 != EndContext then 1 else 0) + OwnSteps(sched[1..], t)
  }

  /** A step that is not a pause locking the mutex. */
  predicate Allowed(s: State, t: Tid, a: Action) {
    Enabled(s, t, a) && !(a == Go && s.threads[t] == PauseLock)
  }

  /** No pause is about to take effect. */
  ghost predicate NoPauseInside(s: State) {
    forall t :: t in s.threads ==> !s.threads[t].PauseTest? && !s.threads[t].PauseMake?
  }

  /** No pause locks the mutex during the schedule. */
  ghost predicate NoNewPause(s: State, sched: Schedule)
    requires Runs(s, sched)
    decreases |sched|
  {
    sched == [] ||
    (&& Allowed(s, sched[0].0, sched[0].1)
     && NoNewPause(Apply(s, sched[0].0, sched[0].1), sched[1..]))
  }

  lemma NoPauseGetsIn(s: State, t: Tid, a: Action)
    requires NoPauseInside(s) && Allowed(s, t, a)
    ensures NoPauseInside(Apply(s, t, a))
  {
  }

  lemma RunningStep(s: State, t: Tid, a: Action, w: Tid)
    requires Inv(s) && Running(s) && NoPauseInside(s) && Allowed(s, t, a)
    requires w in s.threads && IsWaiter(s.threads[w])
    ensures var s' := Apply(s, t, a);
            && Running(s') && NoPauseInside(s') && IsWaiter(s'.threads[w])
            && Rank(s'.threads[w]) + (if t == w && a != EndContext then 1 else 0) <= Rank(s.threads[w])
  {
    NoPauseGetsIn(s, t, a);
    assert ThreadOk(s, t);
    assert ThreadOk(s, w);
    hide ThreadOk, ChannelsOk, Inv;
  }

  lemma {:induction false} RunningRunBoundsWaiter(s: State, sched: Schedule, w: Tid)
    requires Inv(s) && Running(s) && NoPauseInside(s) && Runs(s, sched) && NoNewPause(s, sched)
    requires w in s.threads && IsWaiter(s.threads[w])
    ensures Running(Exec(s, sched)) && NoPauseInside(Exec(s, sched))
    ensures w in Exec(s, sched).threads && IsWaiter(Exec(s, sched).threads[w])
    ensures OwnSteps(sched, w) + Rank(Exec(s, sched).threads[w]) <= Rank(s.threads[w])
    decreases |sched|
  {
    if sched != [] {
      var t, a := sched[0].0, sched[0].1;
      RunningStep(s, t, a, w);
      StepInv(s, t, a);
      RunningRunBoundsWaiter(Apply(s, t, a), sched[1..], w);
    }
  }

  /**
   After a final resume, with no pause about to take effect or locking the mutex any more, a waiter takes at
   most seven more steps of its own, however the threads are scheduled; and until it is done either it can
   move, or another thread, which is no pause, holds the mutex and can move.
   */
  lemma WaitersFinish(s: State, pre: Schedule, post: Schedule, w: Tid)
    requires Init(s) && Runs(s, pre) && Runs(Exec(s, pre), post)
    requires Running(Exec(s, pre)) && NoPauseInside(Exec(s, pre)) && NoNewPause(Exec(s, pre), post)
    requires w in Exec(s, pre).threads && IsWaiter(Exec(s, pre).threads[w])
    ensures OwnSteps(post, w) <= 7
    ensures var e := Exec(Exec(s, pre), post);
            && w in e.threads
            && (e.threads[w].WaitDone?
                || Allowed(e, w, Go) || Allowed(e, w, Wake)
                || (e.mu.Some? && Allowed(e, e.mu.value, Go) && !IsPause(e.threads[e.mu.value])))
  {
    assert Inv(s);
    hide Runs, Exec, OwnSteps, NoNewPause, Inv, Enabled, Allowed, Init;
    RunInv(s, pre);
    RunningRunBoundsWaiter(Exec(s, pre), post, w);
    RunInv(Exec(s, pre), post);
    WaiterNotStuck(Exec(Exec(s, pre), post), w);
  }

  lemma WaiterNotStuck(e: State, w: Tid)
    requires Inv(e) && Running(e) && NoPauseInside(e) && w in e.threads && IsWaiter(e.threads[w])
    ensures e.threads[w].WaitDone? || Allowed(e, w, Go) || Allowed(e, w, Wake)
            || (e.mu.Some? && Allowed(e, e.mu.value, Go) && !IsPause(e.threads[e.mu.value]))
  {
    assert ThreadOk(e, w);
    if e.mu.Some? {
      assert ThreadOk(e, e.mu.value);
    }
  }

  // ----- what a call of resume or pause brings about

  /** The thread has called resume and not come as far as a running gate. */
  predicate Resuming(pc: Pc) {
    pc.ResumeLock? || pc.ResumeTest? || pc.ResumeClose?
  }

  predicate Pausing(pc: Pc) {
    pc.PauseLock? || pc.PauseTest? || pc.PauseMake?
  }

  lemma CallStep(s: State, u: Tid, a: Action, t: Tid)
    requires Inv(s) && Enabled(s, u, a) && t in s.threads
    ensures var s' := Apply(s, u, a);
            && t in s'.threads
            && (Resuming(s.threads[t]) ==> Resuming(s'.threads[t]) || s'.threads[t].ResumeUnlock?)
            && (Pausing(s.threads[t]) ==> Pausing(s'.threads[t]) || s'.threads[t].PauseUnlock?)
  {
    if u != t {
      assert Apply(s, u, a).threads[t] == s.threads[t];
      hide Apply, Enabled;
    }
  }

  /** A call under way that is over at the end of the schedule came to its last step before. */
  lemma {:induction false} FindCallInstant(s: State, sched: Schedule, t: Tid) returns (i: nat)
    requires Inv(s) && Runs(s, sched) && t in s.threads && (Resuming(s.threads[t]) || Pausing(s.threads[t]))
    requires t in Exec(s, sched).threads && Exec(s, sched).threads[t] == Idle
    ensures i <= |sched| && Runs(s, sched[..i]) && t in Exec(s, sched[..i]).threads
    ensures Inv(Exec(s, sched[..i])) && Runs(Exec(s, sched[..i]), sched[i..])
    ensures Exec(Exec(s, sched[..i]), sched[i..]) == Exec(s, sched)
    ensures var pc := Exec(s, sched[..i]).threads[t];
            if Resuming(s.threads[t]) then pc.ResumeUnlock? else pc.PauseUnlock?
    decreases |sched|
  {
    var u, a := sched[0].0, sched[0].1;
    var next := Apply(s, u, a);
    StepInv(s, u, a);
    CallStep(s, u, a, t);
    hide Apply, Enabled, Inv;
    if Resuming(next.threads[t]) || Pausing(next.threads[t]) {
      var j := FindCallInstant(next, sched[1..], t);
      i := j + 1;
      assert sched[..i][1..] == sched[1..][..j] && sched[i..] == sched[1..][j..];
    } else {
      i := 1;
      assert sched[..1] == [sched[0]] && sched[..1][1..] == [];
    }
  }

  /** Closed channels stay closed, and made ones stay made. */
  lemma {:induction false} ClosesKept(s: State, sched: Schedule)
    requires Runs(s, sched)
    ensures s.closes <= Exec(s, sched).closes && s.made <= Exec(s, sched).made
    decreases |sched|
  {
    if sched != [] {
      ClosesKept(Apply(s, sched[0].0, sched[0].1), sched[1..]);
    }
  }

  /**
   A call of resume that is over held the mutex of a running gate at some instant since it began; and every
   channel that a waiter slept on when it began is closed, so each of those waiters still asleep can wake.
   */
  lemma ResumeReleases(s: State, pre: Schedule, t: Tid, mid: Schedule)
    requires Init(s) && Runs(s, pre) && Enabled(Exec(s, pre), t, StartResume)
    requires var b := Apply(Exec(s, pre), t, StartResume);
             Runs(b, mid) && t in Exec(b, mid).threads && Exec(b, mid).threads[t] == Idle
    ensures var b := Apply(Exec(s, pre), t, StartResume);
            && (exists i | 0 <= i <= |mid| ::
                  Runs(b, mid[..i]) && Exec(b, mid[..i]).mu == Some(t) && Running(Exec(b, mid[..i])))
            && (forall u :: u in b.threads && b.threads[u].WaitSleep? ==>
                  b.threads[u].ch in Exec(b, mid).closes)
  {
    hide Runs, Exec;
    RunInv(s, pre);
    StepInv(Exec(s, pre), t, StartResume);
    hide Inv, Enabled, Running;
    SleepersFreed(Apply(Exec(s, pre), t, StartResume), mid, t);
  }

  lemma SleepersFreed(b: State, mid: Schedule, t: Tid)
    requires Inv(b) && Runs(b, mid) && t in b.threads && b.threads[t].ResumeLock?
    requires t in Exec(b, mid).threads && Exec(b, mid).threads[t] == Idle
    ensures exists i | 0 <= i <= |mid| ::
              Runs(b, mid[..i]) && Exec(b, mid[..i]).mu == Some(t) && Running(Exec(b, mid[..i]))
    ensures forall u :: u in b.threads && b.threads[u].WaitSleep? ==>
              b.threads[u].ch in Exec(b, mid).closes
  {
    var i := FindCallInstant(b, mid, t);
    var m := Exec(b, mid[..i]);
    assert ThreadOk(m, t);
    ClosesKept(b, mid[..i]);
    ClosesKept(m, mid[i..]);
    forall u | u in b.threads && b.threads[u].WaitSleep? ensures b.threads[u].ch in Exec(b, mid).closes {
      assert ThreadOk(b, u);
      assert b.threads[u].ch in m.closes;
    }
  }

  /** A call of pause that is over held the mutex of a paused gate at some instant since it began. */
  lemma PauseStops(s: State, pre: Schedule, t: Tid, mid: Schedule)
    requires Init(s) && Runs(s, pre) && Enabled(Exec(s, pre), t, StartPause)
    requires var b := Apply(Exec(s, pre), t, StartPause);
             Runs(b, mid) && t in Exec(b, mid).threads && Exec(b, mid).threads[t] == Idle
    ensures var b := Apply(Exec(s, pre), t, StartPause);
            exists i | 0 <= i <= |mid| ::
              Runs(b, mid[..i]) && Exec(b, mid[..i]).mu == Some(t) && !Running(Exec(b, mid[..i]))
  {
    RunInv(s, pre);
    StepInv(Exec(s, pre), t, StartPause);
    var b := Apply(Exec(s, pre), t, StartPause);
    var i := FindCallInstant(b, mid, t);
    assert ThreadOk(Exec(b, mid[..i]), t);
  }

  lemma ResumingStep(s: State, u: Tid, a: Action, t: Tid)
    requires Inv(s) && NoPauseInside(s) && Allowed(s, u, a) && t in s.threads
    requires Running(s) || Resuming(s.threads[t])
    ensures var s' := Apply(s, u, a);
            && Inv(s') && NoPauseInside(s') && t in s'.threads
            && (Running(s') || Resuming(s'.threads[t]))
  {
    StepInv(s, u, a);
    CallStep(s, u, a, t);
    var s' := Apply(s, u, a);
    if s'.threads[t].ResumeUnlock? {
      assert ThreadOk(s', t);
    }
    NoPauseGetsIn(s, u, a);
    if Running(s) {
      GateStays(s, u, a);
    }
    hide Apply, Enabled, Inv;
  }

  lemma GateStays(s: State, u: Tid, a: Action)
    requires Running(s) && NoPauseInside(s) && Allowed(s, u, a)
    ensures Running(Apply(s, u, a))
  {
  }

  /** Without another pause, a resume under way leaves the gate running when it is over. */
  lemma {:induction false} ResumeTakesEffect(s: State, sched: Schedule, t: Tid)
    requires Inv(s) && NoPauseInside(s) && Runs(s, sched) && NoNewPause(s, sched)
    requires t in s.threads && (Running(s) || Resuming(s.threads[t]))
    ensures Inv(Exec(s, sched)) && NoPauseInside(Exec(s, sched)) && t in Exec(s, sched).threads
    ensures Running(Exec(s, sched)) || Resuming(Exec(s, sched).threads[t])
    decreases |sched|
  {
    hide Inv, NoPauseInside, Allowed, Running, Resuming;
    if sched != [] {
      ResumingStep(s, sched[0].0, sched[0].1, t);
      ResumeTakesEffect(Apply(s, sched[0].0, sched[0].1), sched[1..], t);
    }
  }

  /**
   The final resume: once it is over, with no pause about to take effect when it began or locking the mutex
   since, every waiter finishes as WaitersFinish says.
   */
  lemma FinalResumeFrees(s: State, pre: Schedule, t: Tid, mid: Schedule, post: Schedule, w: Tid)
    requires Init(s) && Runs(s, pre) && NoPauseInside(Exec(s, pre)) && Enabled(Exec(s, pre), t, StartResume)
    requires var b := Apply(Exec(s, pre), t, StartResume);
             && Runs(b, mid) && NoNewPause(b, mid)
             && t in Exec(b, mid).threads && Exec(b, mid).threads[t] == Idle
             && Runs(Exec(b, mid), post) && NoNewPause(Exec(b, mid), post)
             && w in Exec(b, mid).threads && IsWaiter(Exec(b, mid).threads[w])
    ensures OwnSteps(post, w) <= 7
    ensures var e := Exec(Exec(Apply(Exec(s, pre), t, StartResume), mid), post);
            && Running(e) && w in e.threads
            && (e.threads[w].WaitDone?
                || Allowed(e, w, Go) || Allowed(e, w, Wake)
                || (e.mu.Some? && Allowed(e, e.mu.value, Go) && !IsPause(e.threads[e.mu.value])))
  {
    hide Runs, Exec, OwnSteps, NoNewPause;
    RunInv(s, pre);
    StepInv(Exec(s, pre), t, StartResume);
    var b := Apply(Exec(s, pre), t, StartResume);
    hide Inv, Enabled, Allowed, Running;
    ResumeTakesEffect(b, mid, t);
    RunningRunBoundsWaiter(Exec(b, mid), post, w);
    RunInv(Exec(b, mid), post);
    WaiterNotStuck(Exec(Exec(b, mid), post), w);
  }

  // ----- a waiter whose context ends

  /** A wait reports false only once its context has ended. */
  lemma FalseMeansEnded(s: State, sched: Schedule, t: Tid)
    requires Init(s) && Runs(s, sched)
    requires t in Exec(s, sched).threads && Exec(s, sched).threads[t] == WaitDone(false)
    ensures t in Exec(s, sched).ended
  {
    RunInv(s, sched);
    assert ThreadOk(Exec(s, sched), t);
  }

  /** The own steps a waiter still needs once its context has ended. */
  function EndedRank(pc: Pc): nat {
    match pc
    case WaitLock => 6
    case WaitRead => 5
    case WaitTest(_) => 4
    case WaitUnlockPaused(_) => 3
    case WaitSleep(_) => 2
    case WaitCheck => 1
    case WaitUnlockRunning => 1
    case _ => 0
  }

  lemma EndedStep(s: State, t: Tid, a: Action, w: Tid)
    requires Enabled(s, t, a) && w in s.threads && IsWaiter(s.threads[w]) && w in s.ended
    ensures var s' := Apply(s, t, a);
            && IsWaiter(s'.threads[w]) && w in s'.ended
            && EndedRank(s'.threads[w]) + (if t == w && a != EndContext then 1 else 0) <= EndedRank(s.threads[w])
  {
    if t != w {
      assert Apply(s, t, a).threads[w] == s.threads[w];
      hide Apply, Enabled, IsWaiter, EndedRank;
    }
  }

  lemma {:induction false} EndedRunBoundsWaiter(s: State, sched: Schedule, w: Tid)
    requires Runs(s, sched) && w in s.threads && IsWaiter(s.threads[w]) && w in s.ended
    ensures w in Exec(s, sched).threads && IsWaiter(Exec(s, sched).threads[w]) && w in Exec(s, sched).ended
    ensures OwnSteps(sched, w) + EndedRank(Exec(s, sched).threads[w]) <= EndedRank(s.threads[w])
    decreases |sched|
  {
    if sched != [] {
      EndedStep(s, sched[0].0, sched[0].1, w);
      EndedRunBoundsWaiter(Apply(s, sched[0].0, sched[0].1), sched[1..], w);
    }
  }

  /**
   Once its context has ended a waiter takes at most six more steps of its own, whatever pauses and resumes
   others make; and until it is done either it can move, or another thread holds the mutex and can move.
   */
  lemma EndedWaitersFinish(s: State, pre: Schedule, post: Schedule, w: Tid)
    requires Init(s) && Runs(s, pre) && Runs(Exec(s, pre), post)
    requires w in Exec(s, pre).threads && IsWaiter(Exec(s, pre).threads[w]) && w in Exec(s, pre).ended
    ensures OwnSteps(post, w) <= 6
    ensures var e := Exec(Exec(s, pre), post);
            && w in e.threads
            && (e.threads[w].WaitDone? || Enabled(e, w, Go) || Enabled(e, w, GiveUp)
                || (e.mu.Some? && Enabled(e, e.mu.value, Go)))
  {
    assert Inv(s);
    hide Runs, Exec, OwnSteps, Inv, Enabled, Init;
    RunInv(s, pre);
    EndedRunBoundsWaiter(Exec(s, pre), post, w);
    RunInv(Exec(s, pre), post);
    EndedNotStuck(Exec(Exec(s, pre), post), w);
  }

  lemma EndedNotStuck(e: State, w: Tid)
    requires Inv(e) && w in e.threads && IsWaiter(e.threads[w]) && w in e.ended
    ensures e.threads[w].WaitDone? || Enabled(e, w, Go) || Enabled(e, w, GiveUp)
            || (e.mu.Some? && Enabled(e, e.mu.value, Go))
  {
    assert ThreadOk(e, w);
    if e.mu.Some? {
      assert ThreadOk(e, e.mu.value);
    }
  }
}
