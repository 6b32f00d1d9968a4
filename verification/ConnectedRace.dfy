/**
 The race of NewConnectedRoundTripper: one lane per provider feeds a buffered channel, the caller takes
 results until one connected or its context ends, and a background goroutine drains the rest. Lanes are
 numbered; a lane that connected owns a connection and a front until someone takes them over.
 */
module ConnectedRace {
  import opened Common

  type LaneId = nat

  datatype Lane =
    | Working
    | Finished(connected: bool)   // about to send
    | Sent(connected: bool)

  datatype Caller =
    | Looping(remaining: nat)
    | Deciding(winner: Option<LaneId>, left: nat)  // out of the loop: cancel, release(left), return
    | Returned(winner: Option<LaneId>)

  datatype Releaser =
    | NotStarted
    | Draining(left: nat)
    | Closing(lane: LaneId, left: nat)             // received a connection, about to call its Close

  datatype State = State(
    lanes: seq<Lane>,
    results: seq<LaneId>,    // the channel
    caller: Caller,
    releaser: Releaser,
    consumed: seq<LaneId>,   // every result received, in order
    callerTook: nat,         // how many of those the caller received
    closed: seq<LaneId>,     // every Close: the connection closed and the front given back
    parentDone: bool)

  datatype Action =
    | LaneFinish(i: LaneId, connected: bool)
    | LaneSend(i: LaneId)
    | ParentEnds
    | CallerReceive
    | CallerGiveUp
    | CallerExhausted
    | CallerReturn
    | ReleaserReceive
    | ReleaserClose

  predicate Init(s: State) {
    && s.lanes != [] && (forall i: LaneId :: 0 <= i < |s.lanes| ==> s.lanes[i] == Working)
    && s.results == [] && s.caller == Looping(|s.lanes|) && s.releaser == NotStarted
    && s.consumed == [] && s.callerTook == 0 && s.closed == [] && !s.parentDone
  }

  predicate Connected(s: State, i: LaneId) {
    i < |s.lanes| && s.lanes[i].Sent? && s.lanes[i].connected
  }

  predicate Enabled(s: State, a: Action) {
    match a
    case LaneFinish(i, _) => i < |s.lanes| && s.lanes[i].Working?
    case LaneSend(i) => i < |s.lanes| && s.lanes[i].Finished? && |s.results| < |s.lanes|
    case ParentEnds => !s.parentDone
    case CallerReceive => s.caller.Looping? && s.caller.remaining > 0 && s.results != []
    case CallerGiveUp => s.caller.Looping? && s.caller.remaining > 0 && s.parentDone
    case CallerExhausted => s.caller == Looping(0)
    case CallerReturn => s.caller.Deciding?
    case ReleaserReceive => s.releaser.Draining? && s.releaser.left > 0 && s.results != []
    case ReleaserClose => s.releaser.Closing?
  }

  function Apply(s: State, a: Action): State
    requires Enabled(s, a)
  {
    match a
    case LaneFinish(i, c) => s.(lanes := s.lanes[i := Finished(c)])
    case LaneSend(i) => s.(lanes := s.lanes[i := Sent(s.lanes[i].connected)], results := s.results + [i])
    case ParentEnds => s.(parentDone := true)
    case CallerReceive =>
      var i, left := s.results[0], s.caller.remaining - 1;
      s.(results := s.results[1..], consumed := s.consumed + [i], callerTook := s.callerTook + 1,
         caller := if Connected(s, i) then Deciding(Some(i), left) else Looping(left))
    case CallerGiveUp => s.(caller := Deciding(None, s.caller.remaining))
    case CallerExhausted => s.(caller := Deciding(None, 0))
    case CallerReturn => s.(caller := Returned(s.caller.winner), releaser := Draining(s.caller.left))
    case ReleaserReceive =>
      var i, left := s.results[0], s.releaser.left - 1;
      s.(results := s.results[1..], consumed := s.consumed + [i],
         releaser := if Connected(s, i) then Closing(i, left) else Draining(left))
    case ReleaserClose => s.(closed := s.closed + [s.releaser.lane], releaser := Draining(s.releaser.left))
  }

  // ----- the invariant

  function Winner(s: State): Option<LaneId> {
    if s.caller.Looping? then None else s.caller.winner
  }

  /** How many results will still be received. */
  function Outstanding(s: State): nat {
    match s.caller
    case Looping(n) => n
    case Deciding(_, n) => n
    case Returned(_) => if s.releaser.NotStarted? then 0 else s.releaser.left
  }

  /** Who is responsible for the connection of lane i: the caller, each Close made, the releaser. */
  ghost function Owners(s: State, i: LaneId): nat {
    (if Winner(s) == Some(i) then 1 else 0)
    + multiset(s.closed)[i]
    + (if s.releaser.Closing? && s.releaser.lane == i then 1 else 0)
  }

  predicate Received(s: State, i: LaneId) {
    i in s.consumed && Connected(s, i)
  }

  /** The channel: every sent lane was received once or is queued once. */
  ghost predicate ChannelOk(s: State) {
    var seen := s.consumed + s.results;
    && NoDup(seen)
    && (forall i: LaneId :: i in seen <==> i < |s.lanes| && s.lanes[i].Sent?)
  }

  /** The counters: what is left to receive, and which part the caller received. */
  ghost predicate CountsOk(s: State) {
    && |s.consumed| + Outstanding(s) == |s.lanes|
    && (s.caller.Returned? <==> !s.releaser.NotStarted?)
    && (s.releaser.NotStarted? ==> s.closed == [] && s.callerTook == |s.consumed|)
    && s.callerTook <= |s.consumed|
    && (!s.caller.Looping? && Winner(s) == None ==> s.parentDone || s.callerTook == |s.lanes|)
  }

  /** Ownership of the connections received. */
  ghost predicate OwnersOk(s: State) {
    forall i: LaneId :: Owners(s, i) == if Received(s, i) then 1 else 0
  }

  /** The winner is the one connected lane among those the caller received. */
  ghost predicate WinnerOk(s: State) {
    && (Winner(s).Some? ==>
          0 < s.callerTook <= |s.consumed| && s.consumed[s.callerTook - 1] == Winner(s).value
          && Connected(s, Winner(s).value))
    && (forall k: nat :: k < s.callerTook && k < |s.consumed| && Connected(s, s.consumed[k]) ==>
          Winner(s) == Some(s.consumed[k]))
  }

  ghost predicate Inv(s: State) {
    ChannelOk(s) && CountsOk(s) && OwnersOk(s) && WinnerOk(s)
  }

  lemma StepChannel(s: State, a: Action)
    requires ChannelOk(s) && Enabled(s, a)
    ensures ChannelOk(Apply(s, a))
  {
    var s' := Apply(s, a);
    var seen, seen' := s.consumed + s.results, s'.consumed + s'.results;
    assert seen' == if a.LaneSend? then seen + [a.i] else seen;
  }

  /** The next result was not received before, and what a received lane sent does not change. */
  lemma ReceivedStays(s: State, a: Action)
    requires ChannelOk(s) && Enabled(s, a)
    ensures forall i: LaneId :: i in s.consumed || i in s.results ==> (Connected(s, i) <==> Connected(Apply(s, a), i))
    ensures s.results != [] ==> s.results[0] !in s.consumed
  {
    var seen := s.consumed + s.results;
    assert forall i: LaneId :: i in s.consumed || i in s.results ==> i in seen;
    if s.results != [] {
      assert seen[|s.consumed|] == s.results[0];
      assert forall k :: 0 <= k < |s.consumed| ==> seen[k] == s.consumed[k];
    }
  }

  lemma StepOwners(s: State, a: Action, i: LaneId)
    requires Inv(s) && Enabled(s, a)
    ensures Owners(Apply(s, a), i) == if Received(Apply(s, a), i) then 1 else 0
  {
    ReceivedStays(s, a);
    assert Owners(s, i) == if Received(s, i) then 1 else 0;
    if s.results != [] {
      assert s.results[0] in s.results;
      assert Owners(s, s.results[0]) == 0;
    }
  }

  lemma StepWinner(s: State, a: Action)
    requires Inv(s) && Enabled(s, a)
    ensures WinnerOk(Apply(s, a))
  {
    ReceivedStays(s, a);
    var s' := Apply(s, a);
    assert s.results != [] ==> s.results[0] in s.results;
    forall k: nat | k < s'.callerTook && k < |s'.consumed| && Connected(s', s'.consumed[k])
      ensures Winner(s') == Some(s'.consumed[k])
    {
      if k < s.callerTook {
        assert s'.consumed[k] == s.consumed[k] && s.consumed[k] in s.consumed;
      }
    }
  }

  lemma StepInv(s: State, a: Action)
    requires Inv(s) && Enabled(s, a)
    ensures Inv(Apply(s, a))
  {
    StepChannel(s, a);
    StepWinner(s, a);
    forall i: LaneId ensures Owners(Apply(s, a), i) == if Received(Apply(s, a), i) then 1 else 0 {
      StepOwners(s, a, i);
    }
  }

  // ----- schedules

  type Schedule = seq<Action>

  ghost predicate Runs(s: State, sched: Schedule)
    decreases |sched|
  {
    sched == [] || (Enabled(s, sched[0]) && Runs(Apply(s, sched[0]), sched[1..]))
  }

  ghost function Exec(s: State, sched: Schedule): State
    requires Runs(s, sched)
    decreases |sched|
  {
    if sched == [] then s else Exec(Apply(s, sched[0]), sched[1..])
  }

  lemma {:induction false} RunInv(s: State, sched: Schedule)
    requires Inv(s) && Runs(s, sched)
    ensures Inv(Exec(s, sched)) && |Exec(s, sched).lanes| == |s.lanes|
    decreases |sched|
  {
    if sched != [] {
      StepInv(s, sched[0]);
      RunInv(Apply(s, sched[0]), sched[1..]);
    }
  }

  // ----- main results

  /** A lane that has finished sends, or has sent, what it finished with. */
  lemma {:induction false} LaneKeepsOutcome(s: State, sched: Schedule, i: LaneId, connected: bool, j: nat)
    requires Inv(s) && Runs(s, sched) && j < |sched| && sched[j] == LaneFinish(i, connected)
    ensures i < |Exec(s, sched).lanes|
    ensures Exec(s, sched).lanes[i] == Finished(connected) || Exec(s, sched).lanes[i] == Sent(connected)
    decreases |sched|
  {
    var next := Apply(s, sched[0]);
    StepInv(s, sched[0]);
    if j == 0 {
      FinishedStays(next, sched[1..], i, connected);
    } else {
      LaneKeepsOutcome(next, sched[1..], i, connected, j - 1);
    }
  }

  lemma {:induction false} FinishedStays(s: State, sched: Schedule, i: LaneId, connected: bool)
    requires Runs(s, sched) && i < |s.lanes|
    requires s.lanes[i] == Finished(connected) || s.lanes[i] == Sent(connected)
    ensures i < |Exec(s, sched).lanes|
    ensures Exec(s, sched).lanes[i] == Finished(connected) || Exec(s, sched).lanes[i] == Sent(connected)
    decreases |sched|
  {
    if sched != [] {
      FinishedStays(Apply(s, sched[0]), sched[1..], i, connected);
    }
  }

  /** A lane that is about to send never finds the channel full. */
  lemma NoLaneBlocks(s: State, sched: Schedule, i: LaneId)
    requires Init(s) && Runs(s, sched)
    ensures |Exec(s, sched).lanes| == |s.lanes|
    ensures i < |s.lanes| && Exec(s, sched).lanes[i].Finished? ==> Enabled(Exec(s, sched), LaneSend(i))
  {
    RunInv(s, sched);
    var e := Exec(s, sched);
    if i < |s.lanes| && e.lanes[i].Finished? {
      assert forall k :: 0 <= k < |e.results| ==> (e.consumed + e.results)[|e.consumed| + k] == e.results[k];
      assert forall k: LaneId :: k in e.results ==> k in e.consumed + e.results;
      NoDupFits(e.results, AllLanes(|e.lanes|) - {i});
    }
  }

  /** The lanes, as a set. */
  ghost function AllLanes(n: nat): (r: set<LaneId>)
    ensures |r| == n && forall k: LaneId :: k in r <==> k < n
  {
    if n == 0 then {} else AllLanes(n - 1) + {n - 1}
  }

  /**
   No result is received twice; a lane whose connection was received has exactly one owner, the caller,
   one Close already made or the releaser about to make it; any other lane has none.
   */
  lemma EveryConnectionHasOneOwner(s: State, sched: Schedule, i: LaneId)
    requires Init(s) && Runs(s, sched)
    ensures var e := Exec(s, sched);
            NoDup(e.consumed) && Owners(e, i) == if Received(e, i) then 1 else 0
  {
    RunInv(s, sched);
    var e := Exec(s, sched);
    assert forall k :: 0 <= k < |e.consumed| ==> (e.consumed + e.results)[k] == e.consumed[k];
  }

  /** The winner is the first connected result the caller received; without one, it gave up or all lanes failed. */
  lemma FirstConnectedWins(s: State, sched: Schedule)
    requires Init(s) && Runs(s, sched) && Exec(s, sched).caller.Returned?
    ensures var e := Exec(s, sched);
            match e.caller.winner
            case Some(w) =>
              && 0 < e.callerTook <= |e.consumed| && e.consumed[e.callerTook - 1] == w && Connected(e, w)
              && forall k :: 0 <= k < e.callerTook - 1 ==> !Connected(e, e.consumed[k])
            case None => e.parentDone || forall k: LaneId :: k < |e.lanes| ==> !Connected(e, k)
  {
    RunInv(s, sched);
    var e := Exec(s, sched);
    assert forall k :: 0 <= k < |e.consumed| ==> (e.consumed + e.results)[k] == e.consumed[k];
    if e.caller.winner == None && !e.parentDone {
      forall k: LaneId | k < |e.lanes| ensures !Connected(e, k) {
        if Connected(e, k) {
          assert k in e.consumed + e.results && |e.consumed| == e.callerTook;
          if k in e.results {
            var j :| 0 <= j < |e.results| && e.results[j] == k;
            AllReceived(e);
          }
        }
      }
    }
  }

  lemma AllReceived(s: State)
    requires Inv(s) && Outstanding(s) == 0
    requires !(s.releaser.Closing? && s.releaser.left > 0)
    ensures s.results == []
  {
    var all := AllLanes(|s.lanes|);
    NoDupFits(s.consumed + s.results, all);
  }

  predicate Settled(s: State) {
    s.caller.Returned? && s.releaser == Draining(0)
  }

  /**
   When caller and releaser are done, every lane has been received exactly once, and every lane that
   connected either won or was closed, not both.
   */
  lemma SettledAccounts(s: State, sched: Schedule, i: LaneId)
    requires Init(s) && Runs(s, sched) && Settled(Exec(s, sched)) && i < |s.lanes|
    ensures var e := Exec(s, sched);
            && multiset(e.consumed)[i] == 1 && e.results == []
            && |e.lanes| == |s.lanes| && e.lanes[i].Sent?
            && multiset(e.closed)[i] == (if Connected(e, i) && Winner(e) != Some(i) then 1 else 0)
  {
    RunInv(s, sched);
    var e := Exec(s, sched);
    AllReceived(e);
    assert e.consumed + e.results == e.consumed;
    var all := AllLanes(|e.lanes|);
    if i !in e.consumed {
      NoDupFits(e.consumed, all - {i});
    }
    NoDupCounts(e.consumed, i);
    assert Owners(e, i) == if Received(e, i) then 1 else 0;
  }

  /** Steps left before the race is settled. */
  function LaneWork(lanes: seq<Lane>): nat {
    if lanes == [] then 0
    else (match lanes[0] case Working => 2 case Finished(_) => 1 case Sent(_) => 0) + LaneWork(lanes[1..])
  }

  function Work(s: State): nat {
    LaneWork(s.lanes) + (if s.parentDone then 0 else 1) + 2 * Outstanding(s)
    + (match s.caller case Looping(_) => 3 case Deciding(_, _) => 2 case Returned(_) => 0)
    + (if s.releaser.Closing? then 1 else 0)
  }

  lemma {:induction false} LaneWorkUpdate(lanes: seq<Lane>, i: nat, l: Lane)
    requires i < |lanes|
    requires (lanes[i].Working? && l.Finished?) || (lanes[i].Finished? && l.Sent?)
    ensures LaneWork(lanes[i := l]) == LaneWork(lanes) - 1
  {
    if i > 0 {
      assert lanes[i := l][1..] == lanes[1..][i - 1 := l];
      LaneWorkUpdate(lanes[1..], i - 1, l);
    } else {
      assert lanes[i := l][1..] == lanes[1..];
    }
  }

  lemma StepWorks(s: State, a: Action)
    requires Inv(s) && Enabled(s, a)
    ensures Work(Apply(s, a)) < Work(s)
  {
    match a
    case LaneFinish(i, c) => LaneWorkUpdate(s.lanes, i, Finished(c));
    case LaneSend(i) => LaneWorkUpdate(s.lanes, i, Sent(s.lanes[i].connected));
    case _ =>
  }

  /** Every run is finite, and one that is not settled can go on: by a lane, the caller or the releaser. */
  lemma RaceSettles(s: State, sched: Schedule)
    requires Init(s) && Runs(s, sched)
    ensures |sched| + Work(Exec(s, sched)) <= Work(s)
    ensures !Settled(Exec(s, sched)) ==> exists a :: a != ParentEnds && Enabled(Exec(s, sched), a)
  {
    RunIsShort(s, sched);
    RunInv(s, sched);
    var e := Exec(s, sched);
    if !Settled(e) {
      CanGoOn(e);
    }
  }

  lemma {:induction false} RunIsShort(s: State, sched: Schedule)
    requires Inv(s) && Runs(s, sched)
    ensures |sched| + Work(Exec(s, sched)) <= Work(s)
    decreases |sched|
  {
    if sched != [] {
      StepInv(s, sched[0]);
      StepWorks(s, sched[0]);
      RunIsShort(Apply(s, sched[0]), sched[1..]);
    }
  }

  lemma CanGoOn(s: State)
    requires Inv(s) && !Settled(s)
    ensures exists a :: a != ParentEnds && Enabled(s, a)
  {
    if s.caller == Looping(0) {
      assert Enabled(s, CallerExhausted);
    } else if s.caller.Deciding? {
      assert Enabled(s, CallerReturn);
    } else if s.releaser.Closing? {
      assert Enabled(s, ReleaserClose);
    } else if s.results != [] {
      assert Enabled(s, if s.caller.Looping? then CallerReceive else ReleaserReceive);
    } else {
      var i := UnsentLane(s);
      assert Enabled(s, if s.lanes[i].Working? then LaneFinish(i, true) else LaneSend(i));
    }
  }

  /** With an empty channel and results outstanding, some lane has not sent. */
  lemma UnsentLane(s: State) returns (i: LaneId)
    requires Inv(s) && s.results == [] && Outstanding(s) > 0
    ensures i < |s.lanes| && !s.lanes[i].Sent?
  {
    var all := AllLanes(|s.lanes|);
    assert s.consumed + s.results == s.consumed;
    var taken := set k | k in s.consumed;
    NoDupSize(s.consumed, taken);
    var rest := all - taken;
    assert all == taken + rest;
    i :| i in rest;
  }

  lemma {:induction false} NoDupSize(s: seq<LaneId>, elems: set<LaneId>)
    requires elems == set k | k in s
    ensures |elems| <= |s|
  {
    if s == [] {
      assert elems == {};
    } else {
      assert s == [s[0]] + s[1..];
      var rest := set k | k in s[1..];
      assert elems == rest + {s[0]};
      NoDupSize(s[1..], rest);
    }
  }
}
