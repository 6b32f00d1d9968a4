/**
 One crawl pass under every interleaving of the crawler, its vetting goroutines and any other threads that
 take and add ready fronts. The queue holds no front twice (PoolProtocol), so ready is the set of the fronts
 in it. vetting are the candidates whose goroutine may still add them; leaving counts the goroutines that are
 past that and have not yet given their semaphore slot back.
 */
module Crawler {
  import opened Common

  type Front = nat

  datatype Main =
    | AtCheck      // head of the loop over the candidates
    | Acquiring    // passed the checks, about to send on sem
    | Joining      // out of the loop, in wg.Wait
    | Returned

  /** added counts what threads other than the pass have added to the queue. */
  datatype State = State(
    concurrency: nat, cap: nat, ready: set<Front>, untested: seq<Front>, main: Main,
    vetting: set<Front>, leaving: nat, added: nat)

  datatype Action =
    | Check                // neither ended nor paused, and fewer than four fronts are ready
    | Break                // context ended, paused, enough ready fronts, or no candidate left
    | Acquire              // sem <- struct{}{}, then the goroutine starts
    | VetPassed(f: Front)  // with the addReady that follows
    | VetFailed(f: Front)  // or skipped, or its addReady came second to another thread's
    | Release              // <-sem
    | Join
    | TakeFront(f: Front)  // some other thread takes a ready front
    | OtherAdds(f: Front)  // some other thread queues a front

  /** The check before each candidate, in crawlAllFronts. */
  const ENOUGH_READY := 4

  ghost predicate Init(s: State) {
    && s.concurrency >= 1 && s.cap >= 1
    && |s.ready| < 2 && NoDup(s.untested)
    && s.main == AtCheck && s.vetting == {} && s.leaving == 0 && s.added == 0
  }

  function InFlight(s: State): nat {
    |s.vetting| + s.leaving
  }

  function Elements(q: seq<Front>): set<Front> {
    set f | f in q
  }

  predicate Enabled(s: State, a: Action) {
    match a
    case Check => s.main == AtCheck && s.untested != [] && |s.ready| < ENOUGH_READY
    case Break => s.main == AtCheck
    case Acquire => s.main == Acquiring && s.untested != [] && InFlight(s) < s.concurrency
    case VetPassed(f) => f in s.vetting
    case VetFailed(f) => f in s.vetting
    case Release => s.leaving > 0
    case Join => s.main == Joining && InFlight(s) == 0
    case TakeFront(f) => f in s.ready
    case OtherAdds(f) => f !in s.ready && |s.ready| < s.cap
  }

  /** addReady: a front already queued is left alone, and one that finds the queue full is dropped. */
  function Queued(s: State, f: Front): set<Front> {
    if |s.ready| < s.cap then s.ready + {f} else s.ready
  }

  function Apply(s: State, a: Action): State
    requires Enabled(s, a)
  {
    match a
    case Check => s.(main := Acquiring)
    case Break => s.(main := Joining)
    case Acquire => s.(main := AtCheck, untested := s.untested[1..], vetting := s.vetting + {s.untested[0]})
    case VetPassed(f) => s.(ready := Queued(s, f), vetting := s.vetting - {f}, leaving := s.leaving + 1)
    case VetFailed(f) => s.(vetting := s.vetting - {f}, leaving := s.leaving + 1)
    case Release => s.(leaving := s.leaving - 1)
    case Join => s.(main := Returned)
    case TakeFront(f) => s.(ready := s.ready - {f})
    case OtherAdds(f) => s.(ready := s.ready + {f}, added := s.added + 1)
  }

  type Schedule = seq<Action>

  ghost predicate Runs(s: State, sched: Schedule)
    decreases |sched|
  {
    sched == [] || (Enabled(s, sched[0]) && Runs(Apply(s, sched[0]), sched[1..]))
  }

  ghost function Exec(s: State, sched: Schedule): State
    requires Runs(s, sched)
    decreases |sched|
  {
    if sched == [] then s else Exec(Apply(s, sched[0]), sched[1..])
  }

  // ----- the bound

  /** The fronts that are ready or that this pass may still make ready. */
  ghost function Reach(s: State): set<Front> {
    s.ready + s.vetting + Elements(s.untested)
  }

  /** total is the size of Reach at the start of the pass. */
  ghost predicate Inv(s: State, total: nat) {
    && InFlight(s) <= s.concurrency
    && |s.ready| <= s.cap
    && |s.ready| + |s.vetting| <= s.concurrency + ENOUGH_READY + s.added
    && (s.main == Acquiring ==> |s.ready| + |s.vetting| < s.concurrency + ENOUGH_READY + s.added)
    && (s.main == Returned ==> InFlight(s) == 0)
    && |Reach(s)| <= total + s.added
  }

  lemma {:induction false} SubsetSize(a: set<Front>, b: set<Front>)
    requires a <= b
    ensures |a| <= |b|
  {
    if a != {} {
      var x :| x in a;
      SubsetSize(a - {x}, b - {x});
    }
  }

  /** Only an addition by another thread brings a front into reach. */
  lemma ReachAfter(s: State, a: Action)
    requires Enabled(s, a)
    ensures |Reach(Apply(s, a))| <= |Reach(s)| + if a.OtherAdds? then 1 else 0
  {
    var s' := Apply(s, a);
    if a.Acquire? {
      assert s.untested == [s.untested[0]] + s.untested[1..];
    }
    if a.OtherAdds? {
      SubsetSize(Reach(s'), Reach(s) + {a.f});
    } else {
      SubsetSize(Reach(s'), Reach(s));
    }
  }

  lemma StepInv(s: State, a: Action, total: nat)
    requires Inv(s, total) && Enabled(s, a)
    ensures Inv(Apply(s, a), total)
  {
    hide Reach;
    ReachAfter(s, a);
  }

  lemma {:induction false} RunInv(s: State, sched: Schedule, total: nat)
    requires Inv(s, total) && Runs(s, sched)
    ensures Inv(Exec(s, sched), total)
    ensures Exec(s, sched).concurrency == s.concurrency && Exec(s, sched).cap == s.cap
    decreases |sched|
  {
    hide Inv;
    if sched != [] {
      StepInv(s, sched[0], total);
      RunInv(Apply(s, sched[0]), sched[1..], total);
    }
  }

  /** The most fronts that a pass starting in s can leave ready without others adding any. */
  ghost function Peak(s: State): int {
    Min(s.cap, Min(s.concurrency + ENOUGH_READY, |Reach(s)|))
  }

  /**
   At most concurrency vets are in flight. The queue never holds more than its capacity, nor, beyond what
   others have added, more than concurrency + 4 fronts or more than were ready or candidates at the start.
   */
  lemma OvershootBounded(s: State, sched: Schedule)
    requires Init(s) && Runs(s, sched)
    ensures var e := Exec(s, sched);
            && InFlight(e) <= s.concurrency && (e.main == Returned ==> InFlight(e) == 0)
            && |e.ready| <= s.cap && |e.ready| <= Min(s.concurrency + 4, |Reach(s)|) + e.added
  {
    RunInv(s, sched, |Reach(s)|);
    SubsetSize(Exec(s, sched).ready, Reach(Exec(s, sched)));
  }

  // ----- the bound is attained

  lemma {:induction false} Then(s: State, a: Schedule, b: Schedule)
    requires Runs(s, a) && Runs(Exec(s, a), b)
    ensures Runs(s, a + b) && Exec(s, a + b) == Exec(Exec(s, a), b)
    decreases |a|
  {
    if a == [] {
      assert a + b == b;
    } else {
      assert (a + b)[1..] == a[1..] + b;
      Then(Apply(s, a[0]), a[1..], b);
    }
  }

  lemma Prepend(s: State, a: Action, rest: Schedule)
    requires Enabled(s, a) && Runs(Apply(s, a), rest)
    ensures Runs(s, [a] + rest) && Exec(s, [a] + rest) == Exec(Apply(s, a), rest)
  {
    assert ([a] + rest)[1..] == rest;
  }

  /** A pass at its check with every untested candidate out of the queue and nothing about to leave. */
  ghost predicate Climbing(s: State, target: int) {
    && s.main == AtCheck && s.leaving == 0 && 1 <= s.concurrency && |s.vetting| <= s.concurrency
    && NoDup(s.untested) && s.ready !! s.vetting && s.ready + s.vetting !! Elements(s.untested)
    && target <= s.cap && target <= s.concurrency + ENOUGH_READY
    && |s.ready| + |s.vetting| <= target <= |s.ready| + |s.vetting| + |s.untested|
    && (|s.ready| < ENOUGH_READY || |s.ready| + |s.vetting| == target)
  }

  /** The worker g, if any, has passed and left, and the next candidate has taken its slot. */
  ghost function Advanced(s: State, passed: set<Front>): State
    requires s.untested != []
  {
    s.(ready := s.ready + passed, vetting := s.vetting - passed + {s.untested[0]}, untested := s.untested[1..])
  }

  lemma AdvancedClimbs(s: State, target: int, passed: set<Front>)
    requires Climbing(s, target) && |s.ready| + |s.vetting| < target
    requires if |s.vetting| == s.concurrency then |passed| == 1 && passed <= s.vetting else passed == {}
    ensures s.untested != [] && Climbing(Advanced(s, passed), target)
    ensures |Advanced(s, passed).ready| + |Advanced(s, passed).vetting| == |s.ready| + |s.vetting| + 1
  {
    var f := s.untested[0];
    assert s.untested == [f] + s.untested[1..];
    assert f in Elements(s.untested);
    forall g | g in Elements(s.untested[1..]) ensures g in Elements(s.untested) && g != f {
      var k :| 0 <= k < |s.untested[1..]| && s.untested[1..][k] == g;
      assert s.untested[k + 1] == g;
    }
    assert f !in s.vetting - passed && |s.vetting - passed| == |s.vetting| - |passed|;
    assert |s.ready + passed| == |s.ready| + |passed|;
    assert |s.vetting - passed + {f}| == |s.vetting| - |passed| + 1;
  }

  lemma AcquireNext(s: State) returns (sched: Schedule)
    requires s.main == AtCheck && s.untested != [] && |s.ready| < ENOUGH_READY
    requires |s.vetting| < s.concurrency && s.leaving == 0
    ensures Runs(s, sched) && Exec(s, sched) == Advanced(s, {})
  {
    var s1 := Apply(s, Check);
    Prepend(s1, Acquire, []);
    Prepend(s, Check, [Acquire] + []);
    sched := [Check] + ([Acquire] + []);
  }

  lemma ReplaceWorker(s: State, g: Front) returns (sched: Schedule)
    requires s.main == AtCheck && s.untested != [] && |s.ready| < ENOUGH_READY && |s.ready| < s.cap
    requires g in s.vetting && |s.vetting| == s.concurrency && s.leaving == 0
    ensures Runs(s, sched) && Exec(s, sched) == Advanced(s, {g})
  {
    var s1 := Apply(s, Check);
    var s2 := Apply(s1, VetPassed(g));
    var s3 := Apply(s2, Release);
    assert |s3.vetting| == s.concurrency - 1;
    Prepend(s3, Acquire, []);
    hide Apply, Enabled;
    Prepend(s2, Release, [Acquire] + []);
    Prepend(s1, VetPassed(g), [Release] + ([Acquire] + []));
    Prepend(s, Check, [VetPassed(g)] + ([Release] + ([Acquire] + [])));
    sched := [Check] + ([VetPassed(g)] + ([Release] + ([Acquire] + [])));
  }

  /** One more front ready or being vetted: with every slot taken, a worker first passes and leaves. */
  lemma ClimbStep(s: State, target: int) returns (sched: Schedule)
    requires Climbing(s, target) && |s.ready| + |s.vetting| < target
    ensures Runs(s, sched)
    ensures var e := Exec(s, sched);
            Climbing(e, target) && e.added == s.added && |e.ready| + |e.vetting| == |s.ready| + |s.vetting| + 1
  {
    hide Runs, Exec, Elements;
    if |s.vetting| < s.concurrency {
      AdvancedClimbs(s, target, {});
      hide Climbing;
      sched := AcquireNext(s);
    } else {
      var g :| g in s.vetting;
      AdvancedClimbs(s, target, {g});
      hide Climbing;
      sched := ReplaceWorker(s, g);
    }
  }

  lemma {:induction false} Climb(s: State, target: int) returns (sched: Schedule)
    requires Climbing(s, target)
    ensures Runs(s, sched)
    ensures var e := Exec(s, sched);
            Climbing(e, target) && e.added == s.added && |e.ready| + |e.vetting| == target
    decreases target - (|s.ready| + |s.vetting|)
  {
    if |s.ready| + |s.vetting| == target {
      sched := [];
    } else {
      assert |s.ready| + |s.vetting| < target;
      hide Climbing, Apply, Enabled;
      var a := ClimbStep(s, target);
      var b := Climb(Exec(s, a), target);
      Then(s, a, b);
      sched := a + b;
    }
  }

  /** All workers in flight pass, and there is room for their fronts. */
  lemma {:induction false} AllPass(s: State) returns (sched: Schedule)
    requires s.ready !! s.vetting && |s.ready| + |s.vetting| <= s.cap
    ensures Runs(s, sched)
    ensures Exec(s, sched).added == s.added && |Exec(s, sched).ready| == |s.ready| + |s.vetting|
    decreases |s.vetting|
  {
    if s.vetting == {} {
      sched := [];
    } else {
      var f :| f in s.vetting;
      var rest := AllPass(Apply(s, VetPassed(f)));
      Prepend(s, VetPassed(f), rest);
      sched := [VetPassed(f)] + rest;
    }
  }

  /** Some interleaving, without additions by others, does leave Peak(s) fronts ready. */
  lemma OvershootAttained(s: State) returns (sched: Schedule)
    requires Init(s)
    ensures Runs(s, sched) && Exec(s, sched).added == 0 && |Exec(s, sched).ready| == Peak(s)
  {
    var a := TakeCandidates(s);
    var t := Exec(s, a);
    var target := Peak(s);
    var b := Climb(t, target);
    Then(s, a, b);
    var c := AllPass(Exec(t, b));
    Then(s, a + b, c);
    sched := a + b + c;
  }

  /** If the one ready front is a candidate, some other thread takes it first. */
  lemma TakeCandidates(s: State) returns (sched: Schedule)
    requires Init(s)
    ensures Runs(s, sched) && Exec(s, sched).added == 0 && Climbing(Exec(s, sched), Peak(s))
  {
    NoDupSize(s.untested);
    var all := Elements(s.untested);
    if f :| f in s.ready && f in all {
      SubsetSize({f}, s.ready);
      assert |s.ready - {f}| == 0;
      assert s.ready == {f};
      assert Reach(s) == all;
      Prepend(s, TakeFront(f), []);
      sched := [TakeFront(f)] + [];
    } else {
      assert s.ready !! all;
      assert Reach(s) == s.ready + all;
      assert |Reach(s)| == |s.ready| + |all|;
      sched := [];
    }
  }

  lemma {:induction false} NoDupSize(q: seq<Front>)
    requires NoDup(q)
    ensures |Elements(q)| == |q|
  {
    if q == [] {
      assert Elements(q) == {};
    } else {
      NoDupSize(q[1..]);
      assert q == [q[0]] + q[1..];
      assert Elements(q) == Elements(q[1..]) + {q[0]};
      assert q[0] !in q[1..];
    }
  }

  /**
   A pass without additions by others can leave n fronts ready, or more, exactly when n is at most the
   capacity, concurrency + 4, and the number of fronts that were ready or candidates at the start.
   */
  lemma OvershootExact(s: State, n: nat)
    requires Init(s)
    ensures (exists sched :: Runs(s, sched) && Exec(s, sched).added == 0 && |Exec(s, sched).ready| >= n)
            <==> n <= s.cap && n <= s.concurrency + 4 && n <= |s.ready + Elements(s.untested)|
  {
    assert Reach(s) == s.ready + Elements(s.untested);
    forall sched | Runs(s, sched) && Exec(s, sched).added == 0 ensures |Exec(s, sched).ready| <= Peak(s) {
      OvershootBounded(s, sched);
    }
    var best := OvershootAttained(s);
  }
}
