/**
 A connected round-tripper shared by any number of threads that call RoundTrip or Close at any time; the
 compare-and-swap on used is one step.
 */
module SingleUse {
  type Tid = nat

  datatype Call = RoundTrip | Close

  datatype Fate = GivenBack | MarkedFailed | MarkedSucceeded

  datatype Pc =
    | Calling(call: Call)
    | Won(call: Call)                         // the compare-and-swap succeeded
    | FrontDone(call: Call, carry: Fate)      // the front is back with the pool, the connection not yet settled
    | Finished(call: Call, usable: bool)      // usable is false for ErrRoundTripperUsed and for a no-op Close

  datatype State = State(used: bool, threads: map<Tid, Pc>, reports: seq<Fate>, closes: nat, carried: nat)

  datatype Action = Swap | ReportFront(fate: Fate) | SettleConn

  predicate Init(s: State) {
    !s.used && s.reports == [] && s.closes == 0 && s.carried == 0
    && forall t :: t in s.threads ==> s.threads[t].Calling?
  }

  predicate Enabled(s: State, t: Tid, a: Action) {
    && t in s.threads
    && match a
       case Swap => s.threads[t].Calling?
       case ReportFront(fate) => s.threads[t].Won? && (s.threads[t].call.Close? ==> fate.GivenBack?)
       case SettleConn => s.threads[t].FrontDone?
  }

  function Apply(s: State, t: Tid, a: Action): State
    requires Enabled(s, t, a)
  {
    match a
    case Swap =>
      if s.used then s.(threads := s.threads[t := Finished(s.threads[t].call, false)])
      else s.(used := true, threads := s.threads[t := Won(s.threads[t].call)])
    case ReportFront(fate) =>
      s.(reports := s.reports + [fate], threads := s.threads[t := FrontDone(s.threads[t].call, fate)])
    case SettleConn =>
      var moved := s.(threads := s.threads[t := Finished(s.threads[t].call, true)]);
      if s.threads[t].carry.MarkedSucceeded? then moved.(carried := s.carried + 1)
      else moved.(closes := s.closes + 1)
  }

  ghost predicate Owner(s: State, t: Tid) {
    t in s.threads && !s.threads[t].Calling? && (s.threads[t].Finished? ==> s.threads[t].usable)
  }

  ghost predicate Inv(s: State) {
    && (!s.used ==> s.reports == [] && s.closes + s.carried == 0 && forall t :: !Owner(s, t))
    && (forall t, u :: Owner(s, t) && Owner(s, u) ==> t == u)
    && (s.used ==> exists t :: Owner(s, t))
    && (forall t :: Owner(s, t) ==>
          && |s.reports| == (if s.threads[t].Won? then 0 else 1)
          && s.closes + s.carried == (if s.threads[t].Finished? then 1 else 0)
          && (s.threads[t].FrontDone? ==> s.reports == [s.threads[t].carry])
          && (s.reports != [] && s.threads[t].call.Close? ==> s.reports[0].GivenBack?)
          && (s.threads[t].Finished? ==> (s.carried == 1 <==> s.reports[0].MarkedSucceeded?)))
  }

  /** The owner changes only when the compare-and-swap succeeds. */
  lemma OwnerAfter(s: State, t: Tid, a: Action, u: Tid)
    requires Enabled(s, t, a)
    ensures Owner(Apply(s, t, a), u) <==> Owner(s, u) || (u == t && a.Swap? && !s.used)
    ensures !a.Swap? ==> Owner(s, t)
  {
  }

  lemma StepInv(s: State, t: Tid, a: Action)
    requires Inv(s) && Enabled(s, t, a)
    ensures Inv(Apply(s, t, a))
  {
    var s' := Apply(s, t, a);
    forall u ensures Owner(s', u) <==> Owner(s, u) || (u == t && a.Swap? && !s.used) {
      OwnerAfter(s, t, a, u);
    }
    OwnerAfter(s, t, a, t);
    var o := t;
    if s.used {
      o :| Owner(s, o);
    }
    assert s'.used ==> Owner(s', o);
  }

  type Schedule = seq<(Tid, Action)>

  ghost predicate Runs(s: State, sched: Schedule)
    decreases |sched|
  {
    sched == [] ||
    (Enabled(s, sched[0].0, sched[0].1) && Runs(Apply(s, sched[0].0, sched[0].1), sched[1..]))
  }

  ghost function Exec(s: State, sched: Schedule): State
    requires Runs(s, sched)
    decreases |sched|
  {
    if sched == [] then s else Exec(Apply(s, sched[0].0, sched[0].1), sched[1..])
  }

  lemma {:induction false} RunInv(s: State, sched: Schedule)
    requires Inv(s) && Runs(s, sched)
    ensures Inv(Exec(s, sched)) && Exec(s, sched).threads.Keys == s.threads.Keys
    decreases |sched|
  {
    if sched != [] {
      StepInv(s, sched[0].0, sched[0].1);
      RunInv(Apply(s, sched[0].0, sched[0].1), sched[1..]);
    }
  }

  /**
   However many threads call, at most one call is served, the front is reported at most once, and the
   connection is closed or carried at most once.
   */
  lemma ServedAtMostOnce(s: State, sched: Schedule)
    requires Init(s) && Runs(s, sched)
    ensures var e := Exec(s, sched);
            && |e.reports| <= 1 && e.closes + e.carried <= 1
            && forall t, u :: Owner(e, t) && Owner(e, u) ==> t == u
  {
    RunInv(s, sched);
    var e := Exec(s, sched);
    if e.used {
      var t :| Owner(e, t);
    }
  }

  /**
   Once all calls have returned, and there was one, both happened exactly once; if the call served was a
   Close, the front was given back untouched and the connection closed.
   */
  lemma ServedExactlyOnce(s: State, sched: Schedule)
    requires Init(s) && Runs(s, sched) && s.threads != map[]
    requires forall t :: t in Exec(s, sched).threads ==> Exec(s, sched).threads[t].Finished?
    ensures var e := Exec(s, sched);
            && |e.reports| == 1 && e.closes + e.carried == 1
            && (e.carried == 1 <==> e.reports[0].MarkedSucceeded?)
            && (forall t :: Owner(e, t) && e.threads[t].call.Close? ==> e.reports == [GivenBack] && e.closes == 1)
  {
    RunInv(s, sched);
    FirstCallServed(s, sched);
    var e := Exec(s, sched);
    var t :| Owner(e, t);
  }

  lemma {:induction false} FirstCallServed(s: State, sched: Schedule)
    requires Inv(s) && Runs(s, sched) && (s.used || exists t :: t in s.threads && s.threads[t].Calling?)
    requires forall t :: t in Exec(s, sched).threads ==> Exec(s, sched).threads[t].Finished?
    ensures Exec(s, sched).used
    decreases |sched|
  {
    if sched != [] {
      var t, a := sched[0].0, sched[0].1;
      StepInv(s, t, a);
      assert !s.used ==> !Owner(s, t);
      assert Exec(s, sched) == Exec(Apply(s, t, a), sched[1..]);
      FirstCallServed(Apply(s, t, a), sched[1..]);
    }
  }
}
