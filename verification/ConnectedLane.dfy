/**
 One lane of the connected race: connectVia's loop over one provider's fronts, while other threads do
 anything to the pool. A World says what the lane observes at each turn; nothing else is assumed of it.
 */
module ConnectedLane {
  import opened Common

  type Front = nat

  datatype World = World(
    mine: Front -> bool,               // the front belongs to the lane's provider
    closed: nat -> bool,               // the pool is closed at turn i
    queue: nat -> seq<Front>,          // the ready queue as turn i's scan sees it
    snapshot: nat -> seq<Front>,       // what candidates() answers at turn i
    hasProvider: nat -> bool,
    maps: nat -> bool,                 // the provider maps the host, or there is no host
    hasTestURL: nat -> bool,
    dial: (nat, Front) -> bool,
    vet: (nat, Front) -> bool,
    ctxAtVet: nat -> bool,             // the context has ended once the vet is over
    redial: (nat, Front) -> bool,
    ctxEnded: nat -> bool,             // the context has ended once the dial has failed
    paused: nat -> bool)

  /** What becomes of the front a turn tried. */
  datatype Fate = Requeued | LeftAlone | Failed | Carried

  datatype Turn = Turn(front: Front, ready: bool, fate: Fate, vetted: bool)

  datatype Result = Connected(front: Front) | PoolClosed | NoMapping | NoTestURL | Cancelled | OutOfFronts

  /** A connection: the turn that dialed it, and whether it is the one dialed for the caller. */
  type Conn = (nat, bool)

  // ----- what a turn should come to

  /** The unvetted front passed the crawler's check and was marked succeeded. */
  predicate Vetted(w: World, i: nat, f: Front) {
    w.dial(i, f) && !w.ctxAtVet(i) && w.vet(i, f)
  }

  predicate DialOk(w: World, i: nat, f: Front, ready: bool) {
    if ready then w.dial(i, f) else Vetted(w, i, f) && w.redial(i, f)
  }

  /** The turn got as far as dialing f. */
  predicate Dials(w: World, i: nat, ready: bool) {
    w.hasProvider(i) && w.maps(i) && (ready || w.hasTestURL(i))
  }

  function FateOf(w: World, i: nat, f: Front, ready: bool): Fate {
    if Dials(w, i, ready) && DialOk(w, i, f, ready) then Carried
    else if Dials(w, i, ready) && !w.ctxEnded(i) && !w.paused(i) then Failed
    else if ready then Requeued
    else LeftAlone
  }

  /** How turn i ends the lane, if it does. */
  function EndOf(w: World, i: nat, f: Front, ready: bool): Option<Result> {
    if !w.hasProvider(i) then None
    else if !w.maps(i) then Some(NoMapping)
    else if !ready && !w.hasTestURL(i) then Some(NoTestURL)
    else if DialOk(w, i, f, ready) then Some(Connected(f))
    else if w.ctxEnded(i) then Some(Cancelled)
    else None
  }

  function TurnOf(w: World, i: nat, f: Front, ready: bool): Turn {
    Turn(f, ready, FateOf(w, i, f, ready), Dials(w, i, ready) && !ready && Vetted(w, i, f))
  }

  function Tried(turns: seq<Turn>): set<Front> {
    set t | t in turns :: t.front
  }

  /** The fronts of the lane's provider in s that are not in tried, in order. */
  function Untried(w: World, s: seq<Front>, tried: set<Front>): seq<Front> {
    if s == [] then []
    else (if w.mine(s[0]) && s[0] !in tried then [s[0]] else []) + Untried(w, s[1..], tried)
  }

  /**
   The choice of turn i: the first untried ready front, else, with the candidates loaded at turn load, the
   first untried candidate.
   */
  ghost predicate ChoiceOk(w: World, i: nat, t: Turn, tried: set<Front>, load: Option<nat>) {
    var ready := Untried(w, w.queue(i), tried);
    if t.ready then ready != [] && t.front == ready[0]
    else
      && ready == [] && load.Some? && load.value <= i
      && var rest := Untried(w, w.snapshot(load.value), tried);
         rest != [] && t.front == rest[0]
  }

  // ----- the lane

  lemma {:induction false} UntriedContains(w: World, s: seq<Front>, tried: set<Front>, f: Front)
    ensures f in Untried(w, s, tried) <==> f in s && w.mine(f) && f !in tried
  {
    if s != [] {
      assert s == [s[0]] + s[1..];
      UntriedContains(w, s[1..], tried, f);
    }
  }

  /** The match the lane gives to tryTakeFrom finds the first untried ready front. */
  lemma {:induction false} FirstMatchIsFirstUntried(w: World, s: seq<Front>, tried: set<Front>)
    ensures var i := IndexWhere(s, f => w.mine(f) && f !in tried);
            if i < |s| then Untried(w, s, tried) != [] && Untried(w, s, tried)[0] == s[i]
            else Untried(w, s, tried) == []
  {
    var p := f => w.mine(f) && f !in tried;
    if s != [] && !p(s[0]) {
      FirstMatchIsFirstUntried(w, s[1..], tried);
      var j := IndexWhere(s[1..], p);
      IndexWhereUnique(s, p, j + 1);
    } else {
      IndexWhereUnique(s, p, 0);
    }
  }

  lemma {:induction false} DropTried(w: World, s: seq<Front>, tried: set<Front>)
    requires s != [] && s[0] in tried
    ensures Untried(w, s, tried) == Untried(w, s[1..], tried)
  {
  }

  /** Skipping what is not the lane's own, as the loop that fills candidates does. */
  method OwnCandidates(w: World, s: seq<Front>) returns (r: seq<Front>)
    ensures forall tried: set<Front> :: Untried(w, r, tried) == Untried(w, s, tried)
    ensures forall f :: f in r ==> w.mine(f)
  {
    r := [];
    for k := 0 to |s|
      invariant forall tried: set<Front> :: Untried(w, r, tried) == Untried(w, s[..k], tried)
      invariant forall f :: f in r ==> w.mine(f)
    {
      ghost var next := if w.mine(s[k]) then r + [s[k]] else r;
      forall tried: set<Front> ensures Untried(w, next, tried) == Untried(w, s[..k + 1], tried) {
        assert s[..k + 1] == s[..k] + [s[k]];
        UntriedAppend(w, s[..k], [s[k]], tried);
        UntriedAppend(w, r, [s[k]], tried);
        assert [s[k]][1..] == [];
      }
      if w.mine(s[k]) {
        r := r + [s[k]];
      }
    }
    assert s[..|s|] == s;
  }

  lemma {:induction false} UntriedAppend(w: World, a: seq<Front>, b: seq<Front>, tried: set<Front>)
    ensures Untried(w, a + b, tried) == Untried(w, a, tried) + Untried(w, b, tried)
  {
    if a == [] {
      assert a + b == b;
    } else {
      assert (a + b)[1..] == a[1..] + b;
      UntriedAppend(w, a[1..], b, tried);
    }
  }

  /** dialUnvetted: dial, vet over that connection, close it, and dial again for the caller. */
  method DialUnvetted(w: World, i: nat, f: Front, open: set<Conn>)
    returns (ok: bool, marked: bool, open': set<Conn>)
    requires (i, false) !in open && (i, true) !in open
    ensures ok == DialOk(w, i, f, false) && marked == Vetted(w, i, f)
    ensures open' == if ok then open + {(i, true)} else open
  {
    open', marked := open, false;
    if !w.dial(i, f) {
      return false, marked, open';
    }
    open' := open' + {(i, false)};
    var passed := w.vet(i, f);
    open' := open' - {(i, false)};
    if w.ctxAtVet(i) || !passed {
      return false, marked, open';
    }
    marked := true;
    ok := w.redial(i, f);
    if ok {
      open' := open' + {(i, true)};
    }
  }

  /** What a turn does with the front it chose. held are the ready fronts the lane has taken. */
  method UseFront(w: World, i: nat, f: Front, ready: bool, held: set<Front>, open: set<Conn>)
    returns (t: Turn, end: Option<Result>, held': set<Front>, open': set<Conn>)
    requires (i, false) !in open && (i, true) !in open
    requires f in held <==> ready
    ensures t == TurnOf(w, i, f, ready) && end == EndOf(w, i, f, ready)
    ensures t.front == f && t.ready == ready
    ensures t.fate.Carried? <==> end.Some? && end.value.Connected?
    ensures end.Some? ==> !end.value.PoolClosed? && !end.value.OutOfFronts?
    ensures held' == if t.fate.Carried? then held else held - {f}
    ensures open' == if t.fate.Carried? then open + {(i, true)} else open
  {
    held', open' := held, open;
    if !w.hasProvider(i) {
      held' := held' - {f};
      return Turn(f, ready, if ready then Requeued else LeftAlone, false), None, held', open';
    }
    if !w.maps(i) {
      held' := held' - {f};
      return Turn(f, ready, if ready then Requeued else LeftAlone, false), Some(NoMapping), held', open';
    }
    if !ready && !w.hasTestURL(i) {
      return Turn(f, ready, LeftAlone, false), Some(NoTestURL), held', open';
    }
    var ok, marked := w.dial(i, f), false;
    if ready {
      if ok {
        open' := open' + {(i, true)};
      }
    } else {
      ok, marked, open' := DialUnvetted(w, i, f, open);
    }
    if !ok {
      held' := held' - {f};
      var back := if ready then Requeued else LeftAlone;
      if w.ctxEnded(i) {
        return Turn(f, ready, back, marked), Some(Cancelled), held', open';
      }
      return Turn(f, ready, if w.paused(i) then back else Failed, marked), None, held', open';
    }
    return Turn(f, ready, Carried, marked), Some(Connected(f)), held', open';
  }

  /** The lane's candidates hold, in order, every untried one of the snapshot loaded at turn load. */
  ghost predicate CandidatesOk(w: World, candidates: seq<Front>, tried: set<Front>, load: Option<nat>, i: nat) {
    && (forall f :: f in candidates ==> w.mine(f))
    && (load == None ==> candidates == [])
    && (load.Some? ==>
          load.value <= i && Untried(w, candidates, tried) == Untried(w, w.snapshot(load.value), tried))
  }

  /** The choice at the head of the loop. */
  method Choose(w: World, i: nat, tried: set<Front>, candidates: seq<Front>, load: Option<nat>)
    returns (choice: Option<Front>, ready: bool, candidates': seq<Front>, load': Option<nat>)
    requires CandidatesOk(w, candidates, tried, load, i)
    ensures load' == if load == None && Untried(w, w.queue(i), tried) == [] then Some(i) else load
    ensures choice.Some? ==>
              && ChoiceOk(w, i, Turn(choice.value, ready, LeftAlone, false), tried, load')
              && choice.value !in tried && w.mine(choice.value)
              && CandidatesOk(w, candidates', tried + {choice.value}, load', i + 1)
    ensures choice == None ==>
              && load'.Some? && load'.value <= i
              && Untried(w, w.queue(i), tried) == [] && Untried(w, w.snapshot(load'.value), tried) == []
  {
    candidates', load' := candidates, load;
    var q := w.queue(i);
    var k := IndexWhere(q, f => w.mine(f) && f !in tried);
    FirstMatchIsFirstUntried(w, q, tried);
    ready := k < |q|;
    if ready {
      choice := Some(q[k]);
      UntriedContains(w, q, tried, q[k]);
    } else {
      if load' == None {
        candidates' := OwnCandidates(w, w.snapshot(i));
        load' := Some(i);
      }
      ghost var want := Untried(w, w.snapshot(load'.value), tried);
      while |candidates'| > 0 && candidates'[0] in tried
        invariant forall f :: f in candidates' ==> w.mine(f)
        invariant Untried(w, candidates', tried) == want
      {
        DropTried(w, candidates', tried);
        candidates' := candidates'[1..];
      }
      if |candidates'| == 0 {
        return None, ready, candidates', load';
      }
      choice := Some(candidates'[0]);
      candidates' := candidates'[1..];
    }
    if load'.Some? {
      CandidatesStay(w, if ready then candidates' else [choice.value] + candidates', w.snapshot(load'.value), tried,
                     choice.value, candidates');
    }
  }

  /** Trying f, which may be the first candidate, leaves the candidates those of the snapshot. */
  lemma CandidatesStay(
    w: World, before: seq<Front>, snapshot: seq<Front>, tried: set<Front>, f: Front, after: seq<Front>)
    requires Untried(w, before, tried) == Untried(w, snapshot, tried)
    requires before == after || before == [f] + after
    ensures Untried(w, after, tried + {f}) == Untried(w, snapshot, tried + {f})
  {
    UntriedShrinks(w, before, tried, f);
    UntriedShrinks(w, snapshot, tried, f);
    if before == [f] + after {
      DropTried(w, before, tried + {f});
    }
  }

  lemma {:induction false} UntriedShrinks(w: World, s: seq<Front>, tried: set<Front>, f: Front)
    ensures Untried(w, s, tried + {f}) == Without(Untried(w, s, tried), f)
  {
    if s != [] {
      UntriedShrinks(w, s[1..], tried, f);
      var rest := Untried(w, s[1..], tried);
      assert ([s[0]] + rest)[1..] == rest;
      assert [] + rest == rest;
      assert [] + Untried(w, s[1..], tried + {f}) == Untried(w, s[1..], tried + {f});
      assert [] + Without(rest, f) == Without(rest, f);
    }
  }

  /** What the lane has done after these turns, and that none of them ended it. */
  ghost predicate TurnsOk(w: World, turns: seq<Turn>, load: Option<nat>) {
    forall k :: 0 <= k < |turns| ==>
      && turns[k] == TurnOf(w, k, turns[k].front, turns[k].ready)
      && !w.closed(k)
      && turns[k].front !in Tried(turns[..k]) && w.mine(turns[k].front)
      && (turns[k].ready ==> turns[k].front in w.queue(k))
      && (!turns[k].ready ==> load.Some? && load.value <= k && turns[k].front in w.snapshot(load.value))
      && ChoiceOk(w, k, turns[k], Tried(turns[..k]), load)
  }

  ghost predicate GoesOn(w: World, turns: seq<Turn>, n: nat)
    requires n <= |turns|
  {
    forall k :: 0 <= k < n ==> EndOf(w, k, turns[k].front, turns[k].ready) == None
  }

  /** How the lane ended, and what it still holds: only a connected lane holds its front and connection. */
  ghost predicate ResultOk(
    w: World, maxRetries: int, turns: seq<Turn>, load: Option<nat>, result: Result, held: set<Front>, open: set<Conn>)
  {
    if result.PoolClosed? then
      && GoesOn(w, turns, |turns|) && held == {} && open == {}
      && |turns| < maxRetries && w.closed(|turns|)
    else if result.OutOfFronts? then
      && GoesOn(w, turns, |turns|) && held == {} && open == {}
      && (|turns| < maxRetries ==>
            && load.Some? && load.value <= |turns|
            && (forall f :: f in w.queue(|turns|) && w.mine(f) ==> f in Tried(turns))
            && (forall f :: f in w.snapshot(load.value) && w.mine(f) ==> f in Tried(turns)))
    else
      && turns != [] && GoesOn(w, turns, |turns| - 1)
      && var n := |turns| - 1;
         var last := turns[n];
         && EndOf(w, n, last.front, last.ready) == Some(result)
         && held == (if result.Connected? && last.ready then {last.front} else {})
         && open == (if result.Connected? then {(n, true)} else {})
  }

  lemma EndedByTurn(
    w: World, maxRetries: int, turns: seq<Turn>, load: Option<nat>, t: Turn, result: Result,
    held: set<Front>, open: set<Conn>)
    requires GoesOn(w, turns, |turns|) && EndOf(w, |turns|, t.front, t.ready) == Some(result)
    requires !result.PoolClosed? && !result.OutOfFronts?
    requires held == if result.Connected? && t.ready then {t.front} else {}
    requires open == if result.Connected? then {(|turns|, true)} else {}
    ensures ResultOk(w, maxRetries, turns + [t], load, result, held, open)
  {
  }

  lemma EndedForLackOfFronts(w: World, maxRetries: int, turns: seq<Turn>, load: Option<nat>)
    requires GoesOn(w, turns, |turns|) && load.Some? && load.value <= |turns|
    requires Untried(w, w.queue(|turns|), Tried(turns)) == []
    requires Untried(w, w.snapshot(load.value), Tried(turns)) == []
    ensures ResultOk(w, maxRetries, turns, load, OutOfFronts, {}, {})
  {
    forall f | w.mine(f) && f !in Tried(turns) ensures f !in w.snapshot(load.value) && f !in w.queue(|turns|) {
      UntriedContains(w, w.snapshot(load.value), Tried(turns), f);
      UntriedContains(w, w.queue(|turns|), Tried(turns), f);
    }
  }

  /** One iteration of the loop; done is the lane's result when it ends here. */
  method OneTurn(w: World, maxRetries: int, turns: seq<Turn>, load: Option<nat>, candidates: seq<Front>)
    returns (done: Option<Result>, turns': seq<Turn>, load': Option<nat>, candidates': seq<Front>,
             held: set<Front>, open: set<Conn>)
    requires |turns| < maxRetries && TurnsOk(w, turns, load) && GoesOn(w, turns, |turns|)
    requires CandidatesOk(w, candidates, Tried(turns), load, |turns|)
    ensures TurnsOk(w, turns', load') && |turns| <= |turns'| <= |turns| + 1
    ensures done.Some? ==> ResultOk(w, maxRetries, turns', load', done.value, held, open)
    ensures done == None ==>
              && |turns'| == |turns| + 1 && GoesOn(w, turns', |turns'|) && held == {} && open == {}
              && CandidatesOk(w, candidates', Tried(turns'), load', |turns'|)
  {
    hide TurnsOk, ChoiceOk, FateOf, EndOf, Untried, ResultOk;
    done, turns', load', candidates', held, open := None, turns, load, candidates, {}, {};
    var i := |turns|;
    if w.closed(i) {
      EndedByClosing(w, maxRetries, turns, load);
      done := Some(PoolClosed);
      return;
    }
    var choice, ready;
    choice, ready, candidates', load' := Choose(w, i, Tried(turns), candidates, load);
    LoadLater(w, turns, load, load');
    if choice == None {
      EndedForLackOfFronts(w, maxRetries, turns, load');
      done := Some(OutOfFronts);
      return;
    }
    var t;
    t, done, held, open := UseFront(w, i, choice.value, ready, if ready then {choice.value} else {}, {});
    TurnAdded(w, turns, t, load');
    turns' := turns + [t];
    if done.Some? {
      EndedByTurn(w, maxRetries, turns, load', t, done.value, held, open);
    }
  }

  /**
   connectVia. held are the fronts the lane took from the ready queue and did not give back, open the
   connections it dialed and did not close.
   */
  method ConnectVia(w: World, maxRetries: int)
    returns (result: Result, turns: seq<Turn>, load: Option<nat>, held: set<Front>, open: set<Conn>)
    ensures TurnsOk(w, turns, load)
    ensures turns == [] || |turns| <= maxRetries
    ensures ResultOk(w, maxRetries, turns, load, result, held, open)
    ensures forall k :: 0 <= k < |turns| - 1 ==> WentOn(w, k, turns[k])
    ensures EndsAsSeen(w, turns, result)
    ensures forall k :: 0 <= k < |turns| ==> ChosenInOrder(w, k, turns, load)
  {
    turns, load, held, open := [], None, {}, {};
    var candidates := [];
    while |turns| < maxRetries
      invariant TurnsOk(w, turns, load) && GoesOn(w, turns, |turns|)
      invariant held == {} && open == {}
      invariant turns == [] || |turns| <= maxRetries
      invariant CandidatesOk(w, candidates, Tried(turns), load, |turns|)
      decreases maxRetries - |turns|
    {
      var done;
      done, turns, load, candidates, held, open := OneTurn(w, maxRetries, turns, load, candidates);
      if done.Some? {
        LaneEnds(w, maxRetries, turns, load, done.value, held, open);
        LaneChoices(w, turns, load);
        return done.value, turns, load, held, open;
      }
    }
    result := OutOfFronts;
    LaneEnds(w, maxRetries, turns, load, result, held, open);
    LaneChoices(w, turns, load);
  }

  lemma EndedByClosing(w: World, maxRetries: int, turns: seq<Turn>, load: Option<nat>)
    requires GoesOn(w, turns, |turns|) && |turns| < maxRetries && w.closed(|turns|)
    ensures ResultOk(w, maxRetries, turns, load, PoolClosed, {}, {})
  {
  }

  /** Loading the candidates does not disturb the record of earlier turns, which all used ready fronts. */
  lemma LoadLater(w: World, turns: seq<Turn>, load: Option<nat>, load': Option<nat>)
    requires TurnsOk(w, turns, load) && (load.Some? ==> load' == load)
    ensures TurnsOk(w, turns, load')
  {
    forall k | 0 <= k < |turns| ensures ChoiceOk(w, k, turns[k], Tried(turns[..k]), load') {
      assert ChoiceOk(w, k, turns[k], Tried(turns[..k]), load);
    }
  }

  lemma TurnAdded(w: World, turns: seq<Turn>, t: Turn, load: Option<nat>)
    requires TurnsOk(w, turns, load) && t == TurnOf(w, |turns|, t.front, t.ready) && !w.closed(|turns|)
    requires ChoiceOk(w, |turns|, t, Tried(turns), load)
    ensures TurnsOk(w, turns + [t], load)
    ensures Tried(turns + [t]) == Tried(turns) + {t.front}
  {
    var more := turns + [t];
    var s := if t.ready then w.queue(|turns|) else w.snapshot(load.value);
    UntriedContains(w, s, Tried(turns), t.front);
    assert more[..|turns|] == turns;
    forall k | 0 <= k < |more| ensures ChoiceOk(w, k, more[k], Tried(more[..k]), load) {
      if k < |turns| {
        assert more[..k] == turns[..k];
        assert ChoiceOk(w, k, turns[k], Tried(turns[..k]), load);
      }
    }
    assert forall k :: 0 <= k < |turns| ==> more[k] == turns[k] && more[..k] == turns[..k];
  }

  // ----- how a lane ends

  /** Turn i reached its dial, or its check and second dial, and connected. */
  predicate Connects(w: World, i: nat, t: Turn) {
    && w.hasProvider(i) && w.maps(i)
    && if t.ready then w.dial(i, t.front)
       else w.hasTestURL(i) && w.dial(i, t.front) && !w.ctxAtVet(i) && w.vet(i, t.front) && w.redial(i, t.front)
  }

  /** Turn i gave the lane no reason to end. */
  predicate WentOn(w: World, i: nat, t: Turn) {
    w.hasProvider(i) ==>
      w.maps(i) && (t.ready || w.hasTestURL(i)) && !Connects(w, i, t) && !w.ctxEnded(i)
  }

  /** Each way a lane can end with a front goes with what its last turn saw, and with nothing else. */
  ghost predicate EndsAsSeen(w: World, turns: seq<Turn>, result: Result) {
    var n := |turns| - 1;
    && (result.NoMapping? <==> turns != [] && w.hasProvider(n) && !w.maps(n))
    && (result.NoTestURL? <==>
          turns != [] && w.hasProvider(n) && w.maps(n) && !turns[n].ready && !w.hasTestURL(n))
    && (result.Connected? <==> turns != [] && Connects(w, n, turns[n]))
    && (result.Connected? ==> result.front == turns[n].front)
    && (result.Cancelled? <==>
          && turns != [] && w.hasProvider(n) && w.maps(n) && (turns[n].ready || w.hasTestURL(n))
          && !Connects(w, n, turns[n]) && w.ctxEnded(n))
  }

  lemma EndMeans(w: World, i: nat, t: Turn)
    ensures var e := EndOf(w, i, t.front, t.ready);
            && (e == None <==> WentOn(w, i, t))
            && (e == Some(NoMapping) <==> w.hasProvider(i) && !w.maps(i))
            && (e == Some(NoTestURL) <==> w.hasProvider(i) && w.maps(i) && !t.ready && !w.hasTestURL(i))
            && (e.Some? && e.value.Connected? <==> Connects(w, i, t))
            && (e.Some? && e.value.Connected? ==> e.value.front == t.front)
            && e != Some(PoolClosed) && e != Some(OutOfFronts)
  {
  }

  lemma LaneEnds(
    w: World, maxRetries: int, turns: seq<Turn>, load: Option<nat>, result: Result, held: set<Front>, open: set<Conn>)
    requires TurnsOk(w, turns, load) && ResultOk(w, maxRetries, turns, load, result, held, open)
    ensures forall k :: 0 <= k < |turns| - 1 ==> WentOn(w, k, turns[k])
    ensures EndsAsSeen(w, turns, result)
  {
    hide TurnsOk, EndOf, Connects;
    forall k | 0 <= k < |turns| {
      EndMeans(w, k, turns[k]);
    }
  }

  /** f is the first of s that is the lane's own and not among the fronts tried before. */
  ghost predicate FirstUntried(w: World, s: seq<Front>, before: seq<Turn>, f: Front) {
    exists i :: 0 <= i < |s| && s[i] == f && Untaken(w, before, s[i])
                && forall j :: 0 <= j < i ==> !Untaken(w, before, s[j])
  }

  ghost predicate Untaken(w: World, before: seq<Turn>, f: Front) {
    w.mine(f) && forall k :: 0 <= k < |before| ==> before[k].front != f
  }

  /**
   Turn k took the first of its provider's ready fronts that was not tried before, or, when there was
   none, the first such candidate of the one snapshot.
   */
  ghost predicate ChosenInOrder(w: World, k: nat, turns: seq<Turn>, load: Option<nat>)
    requires k < |turns|
  {
    var before, t := turns[..k], turns[k];
    if t.ready then FirstUntried(w, w.queue(k), before, t.front)
    else
      && (forall f :: f in w.queue(k) ==> !Untaken(w, before, f))
      && load.Some? && load.value <= k
      && FirstUntried(w, w.snapshot(load.value), before, t.front)
  }

  lemma TriedMeans(w: World, before: seq<Turn>, f: Front)
    ensures Untaken(w, before, f) <==> w.mine(f) && f !in Tried(before)
  {
    if k :| 0 <= k < |before| && before[k].front == f {
      assert before[k] in before;
    }
  }

  lemma UntriedHead(w: World, s: seq<Front>, before: seq<Turn>)
    ensures Untried(w, s, Tried(before)) != [] ==> FirstUntried(w, s, before, Untried(w, s, Tried(before))[0])
    ensures Untried(w, s, Tried(before)) == [] ==> forall f :: f in s ==> !Untaken(w, before, f)
  {
    var tried := Tried(before);
    var p := f => w.mine(f) && f !in tried;
    FirstMatchIsFirstUntried(w, s, tried);
    forall f { TriedMeans(w, before, f); }
    forall f { UntriedContains(w, s, tried, f); }
    var i := IndexWhere(s, p);
    hide Untried, Untaken, Tried;
    if i < |s| {
      assert s[i] == Untried(w, s, tried)[0] && Untaken(w, before, s[i]);
    }
  }

  lemma LaneChoices(w: World, turns: seq<Turn>, load: Option<nat>)
    requires TurnsOk(w, turns, load)
    ensures forall k :: 0 <= k < |turns| ==> ChosenInOrder(w, k, turns, load)
  {
    forall k | 0 <= k < |turns| ensures ChosenInOrder(w, k, turns, load) {
      assert ChoiceOk(w, k, turns[k], Tried(turns[..k]), load);
      hide TurnsOk, FirstUntried, Untried;
      UntriedHead(w, w.queue(k), turns[..k]);
      if load.Some? {
        UntriedHead(w, w.snapshot(load.value), turns[..k]);
      }
    }
  }

  // ----- what the turns mean

  /** No front is tried twice, so a lane that tried n fronts tried n different ones. */
  lemma NoFrontTwice(w: World, turns: seq<Turn>, load: Option<nat>)
    requires TurnsOk(w, turns, load)
    ensures forall j, k :: 0 <= j < k < |turns| ==> turns[j].front != turns[k].front
    ensures |Tried(turns)| == |turns|
  {
    hide ChoiceOk, TurnOf;
    forall j, k | 0 <= j < k < |turns| ensures turns[j].front != turns[k].front {
      assert turns[..k][j] == turns[j] && turns[j] in turns[..k];
      assert turns[k].front !in Tried(turns[..k]);
    }
    DistinctFrontsCounted(turns);
  }

  lemma {:induction false} DistinctFrontsCounted(turns: seq<Turn>)
    requires forall j, k :: 0 <= j < k < |turns| ==> turns[j].front != turns[k].front
    ensures |Tried(turns)| == |turns|
  {
    if turns == [] {
      assert Tried(turns) == {};
    } else {
      var n := |turns| - 1;
      DistinctFrontsCounted(turns[..n]);
      assert turns == turns[..n] + [turns[n]];
      assert Tried(turns) == Tried(turns[..n]) + {turns[n].front};
      assert turns[n].front !in Tried(turns[..n]);
    }
  }

  /** A context that has ended stays ended. */
  ghost predicate ContextStaysEnded(w: World) {
    && (forall i :: w.ctxAtVet(i) ==> w.ctxEnded(i))
    && (forall i, j :: i <= j && w.ctxEnded(i) ==> w.ctxEnded(j))
  }

  /** Turn k saw its front's dial or vetting fail with the context live and the gate running. */
  predicate SeenFailing(w: World, k: nat, t: Turn) {
    && w.hasProvider(k) && w.maps(k) && (t.ready || w.hasTestURL(k)) && !w.ctxEnded(k) && !w.paused(k)
    && if t.ready then !w.dial(k, t.front)
       else !w.dial(k, t.front) || !w.vet(k, t.front) || !w.redial(k, t.front)
  }

  /** Turn k saw its unvetted front pass the check on a first connection. */
  predicate PassedCheck(w: World, k: nat, t: Turn) {
    && !t.ready && w.hasProvider(k) && w.maps(k) && w.hasTestURL(k)
    && w.dial(k, t.front) && !w.ctxAtVet(k) && w.vet(k, t.front)
  }

  lemma FailedMeansSeenFailing(w: World, k: nat, f: Front, ready: bool)
    requires ContextStaysEnded(w)
    ensures var t := TurnOf(w, k, f, ready);
            && (t.fate.Failed? <==> SeenFailing(w, k, t)) && (t.vetted <==> PassedCheck(w, k, t))
            && (ready ==> !t.fate.LeftAlone?) && (!ready ==> !t.fate.Requeued?)
            && (t.fate.Carried? <==> EndOf(w, k, f, ready) == Some(Connected(f)))
  {
  }

  ghost function Taken(turns: seq<Turn>): set<Front> {
    set k | 0 <= k < |turns| && turns[k].ready :: turns[k].front
  }

  ghost function WithFate(turns: seq<Turn>, fate: Fate): set<Front> {
    set k | 0 <= k < |turns| && turns[k].fate == fate :: turns[k].front
  }

  /** The fronts of a lane have one turn each, so fates and origins are the fronts' own. */
  lemma OneTurnEach(w: World, turns: seq<Turn>, load: Option<nat>)
    requires TurnsOk(w, turns, load) && ContextStaysEnded(w)
    ensures forall a, b: Fate :: a != b ==> WithFate(turns, a) !! WithFate(turns, b)
    ensures WithFate(turns, Requeued) <= Taken(turns) <= Tried(turns)
    ensures WithFate(turns, LeftAlone) !! Taken(turns)
    ensures Tried(turns) == WithFate(turns, Requeued) + WithFate(turns, LeftAlone) + WithFate(turns, Failed)
                            + WithFate(turns, Carried)
  {
    NoFrontTwice(w, turns, load);
    forall k | 0 <= k < |turns| {
      FailedMeansSeenFailing(w, k, turns[k].front, turns[k].ready);
    }
    assert forall t :: t in turns ==> exists k :: 0 <= k < |turns| && turns[k] == t;
    hide TurnOf, ChoiceOk, SeenFailing, EndOf;
  }

  lemma FailedAreSeenFailing(w: World, turns: seq<Turn>, load: Option<nat>)
    requires ContextStaysEnded(w) && TurnsOk(w, turns, load)
    ensures WithFate(turns, Failed) == set k | 0 <= k < |turns| && SeenFailing(w, k, turns[k]) :: turns[k].front
  {
    forall k | 0 <= k < |turns| {
      FailedMeansSeenFailing(w, k, turns[k].front, turns[k].ready);
    }
  }

  /** Only the last turn of a connected lane carries its front. */
  lemma CarriedIsResult(
    w: World, maxRetries: int, turns: seq<Turn>, load: Option<nat>, result: Result, held: set<Front>, open: set<Conn>)
    requires ContextStaysEnded(w) && TurnsOk(w, turns, load)
    requires ResultOk(w, maxRetries, turns, load, result, held, open)
    ensures WithFate(turns, Carried) == if result.Connected? then {result.front} else {}
    ensures held == Taken(turns) * WithFate(turns, Carried)
  {
    forall k | 0 <= k < |turns| {
      FailedMeansSeenFailing(w, k, turns[k].front, turns[k].ready);
    }
    NoFrontTwice(w, turns, load);
  }

  lemma Partition(
    tried: set<Front>, taken: set<Front>,
    requeued: set<Front>, alone: set<Front>, failed: set<Front>, carried: set<Front>)
    requires tried == requeued + alone + failed + carried && requeued <= taken <= tried && alone !! taken
    requires requeued !! alone && requeued !! failed && requeued !! carried
    requires alone !! failed && alone !! carried && failed !! carried
    ensures taken == requeued + taken * failed + taken * carried
    ensures |taken| == |requeued| + |taken * failed| + |taken * carried|
    ensures |tried| == |requeued| + |alone| + |failed| + |carried|
  {
    assert taken == requeued + taken * failed + taken * carried;
    assert |requeued + taken * failed| == |requeued| + |taken * failed|;
    assert |requeued + alone| == |requeued| + |alone|;
    assert |requeued + alone + failed| == |requeued| + |alone| + |failed|;
  }

  /**
   The accounts of a whole lane. The fronts marked succeeded are exactly the unvetted ones that passed the
   check; those marked failed are exactly those whose dial or vetting was seen failing with the context
   live and the gate running. A front taken from the ready queue was given back untouched, marked failed, or
   is the one the result holds, and each of them only one of these.
   */
  lemma LaneAccounts(
    w: World, maxRetries: int, turns: seq<Turn>, load: Option<nat>, result: Result, held: set<Front>, open: set<Conn>)
    requires ContextStaysEnded(w) && TurnsOk(w, turns, load)
    requires ResultOk(w, maxRetries, turns, load, result, held, open)
    ensures WithFate(turns, Failed)
            == set k | 0 <= k < |turns| && SeenFailing(w, k, turns[k]) :: turns[k].front
    ensures forall k :: 0 <= k < |turns| ==> (turns[k].vetted <==> PassedCheck(w, k, turns[k]))
    ensures WithFate(turns, Carried) == if result.Connected? then {result.front} else {}
    ensures held == Taken(turns) * WithFate(turns, Carried)
    ensures var failed := Taken(turns) * WithFate(turns, Failed);
            && Taken(turns) == WithFate(turns, Requeued) + failed + held
            && |Taken(turns)| == |WithFate(turns, Requeued)| + |failed| + |held|
    ensures |turns| == |WithFate(turns, Requeued)| + |WithFate(turns, LeftAlone)| + |WithFate(turns, Failed)|
                       + |WithFate(turns, Carried)|
  {
    FailedAreSeenFailing(w, turns, load);
    forall k | 0 <= k < |turns| {
      FailedMeansSeenFailing(w, k, turns[k].front, turns[k].ready);
    }
    OneTurnEach(w, turns, load);
    CarriedIsResult(w, maxRetries, turns, load, result, held, open);
    NoFrontTwice(w, turns, load);
    hide *;
    Partition(Tried(turns), Taken(turns), WithFate(turns, Requeued), WithFate(turns, LeftAlone),
              WithFate(turns, Failed), WithFate(turns, Carried));
  }
}
