/**
 The race inside one config refresh, under every interleaving: a fetcher per configured URL that sends what it
 got into the results channel, the refresh's context, which ends at the deadline or with the client, and the
 collector, whose receive after the end of the context still drains what is queued.
 */
module ConfigCollector {
  import opened Common
  import opened ConfigRefresh
  import ConfigProtocol

  /** What the fetcher of url got; served is what its source was serving when it answered. */
  datatype Message = Message(url: Url, reply: Reply, served: Payload)

  datatype Ending = AllMet | ClientGone | TimedOut | GateShut | AppliedOne

  datatype Pc =
    | AtHead                  // head of the loop
    | Waiting                 // the first select of receiveConfigResponse
    | Draining                // its ctx.Done case: the second select
    | Handling                // met the message before taken
    | Ended(why: Ending, sentBy: nat)   // sentBy: how many messages had been sent by then

  /** sent holds every message ever sent and taken how many were received, so the channel holds sent[taken..]. */
  datatype Race = Race(
    fetching: multiset<Url>, sent: seq<Message>, taken: nat, expired: bool, clientEnded: bool,
    pc: Pc, mem: Mem, dirty: bool,
    met: seq<Arrival>)        // history: the messages handled, with the outcome of waiting for the gate

  datatype Move =
    | Fetched(m: Message)     // a fetcher sends
    | Expire                  // the deadline passes
    | EndClient
    | Check                   // c.ctx.Err() at the head of the loop, or the loop is over
    | Receive
    | SeeDone
    | DrainReceive
    | DrainDefault
    | Handle(gate: bool)

  /** What a refresh is about: the URLs it asks, and the memory it starts with. */
  datatype Refresh = Refresh(env: Env, urls: seq<Url>, mem: Mem)

  predicate Init(r: Refresh, s: Race) {
    && s.fetching == multiset(r.urls) && s.sent == [] && s.taken == 0 && !s.expired && !s.clientEnded
    && s.pc == AtHead && s.mem == r.mem && !s.dirty && s.met == []
  }

  function Next(s: Race): Message
    requires 0 < s.taken <= |s.sent|
  {
    s.sent[s.taken - 1]
  }

  predicate Enabled(r: Refresh, s: Race, a: Move) {
    && s.taken <= |s.sent|
    && match a
       case Fetched(m) => m.url in s.fetching && |s.sent| - s.taken < |r.urls|
       case Expire | EndClient => true
       case Check => s.pc.AtHead?
       case Receive => s.pc.Waiting? && s.taken < |s.sent|
       case SeeDone => s.pc.Waiting? && s.expired
       case DrainReceive => s.pc.Draining? && s.taken < |s.sent|
       case DrainDefault => s.pc.Draining? && s.taken == |s.sent|
       case Handle(gate) => s.pc.Handling? && 0 < s.taken && (!gate ==> s.clientEnded)
  }

  function Handled(r: Refresh, s: Race, gate: bool): (t: Race)
    requires 0 < s.taken <= |s.sent|
    ensures t == s.(met := s.met + [Got(Next(s).url, Next(s).reply, gate)], pc := t.pc, mem := t.mem, dirty := t.dirty)
    ensures t.pc.AtHead? || t.pc.Ended?
  {
    var a := Got(Next(s).url, Next(s).reply, gate);
    var t := s.(met := s.met + [a]);
    match Consume(r.env, r.mem.validators, s.mem, s.dirty, a)
    case Continue(mem, dirty) => t.(pc := AtHead, mem := mem, dirty := dirty)
    case Stop(mem, dirty) => t.(pc := Ended(GateShut, |s.sent|), mem := mem, dirty := dirty)
    case Applied(mem, data) => t.(pc := Ended(AppliedOne, |s.sent|), mem := mem)
  }

  function Apply(r: Refresh, s: Race, a: Move): Race
    requires Enabled(r, s, a)
  {
    match a
    case Fetched(m) => s.(fetching := s.fetching - multiset{m.url}, sent := s.sent + [m])
    case Expire => s.(expired := true)
    case EndClient => s.(expired := true, clientEnded := true)
    case Check =>
      s.(pc := if |s.met| >= |r.urls| then Ended(AllMet, |s.sent|)
               else if s.clientEnded then Ended(ClientGone, |s.sent|) else Waiting)
    case Receive => s.(pc := Handling, taken := s.taken + 1)
    case SeeDone => s.(pc := Draining)
    case DrainReceive => s.(pc := Handling, taken := s.taken + 1)
    case DrainDefault => s.(pc := Ended(TimedOut, |s.sent|))
    case Handle(gate) => Handled(r, s, gate)
  }

  // ----- what the collector has met

  /** The result of meeting these arrivals in turn. */
  function Met(r: Refresh, met: seq<Arrival>): Consumed {
    if met == [] then Continue(r.mem, false)
    else
      match Met(r, met[..|met| - 1])
      case Continue(mem, dirty) => Consume(r.env, r.mem.validators, mem, dirty, met[|met| - 1])
      case other => other
  }

  /** The handled messages are the first ones sent, in order. */
  ghost predicate MetIsSent(s: Race) {
    && |s.met| + (if s.pc.Handling? then 1 else 0) == s.taken <= |s.sent|
    && forall k :: 0 <= k < |s.met| ==>
         s.met[k].Got? && s.met[k].url == s.sent[k].url && s.met[k].reply == s.sent[k].reply
  }

  /** The last message met, and none before, ended the collector. */
  predicate EndedByLast(r: Refresh, met: seq<Arrival>) {
    met != [] && Met(r, met[..|met| - 1]).Continue? && !Met(r, met).Continue?
  }

  ghost predicate StateIsMet(r: Refresh, s: Race) {
    var c := Met(r, s.met);
    match s.pc
    case Ended(AppliedOne, _) => c.Applied? && c.mem == s.mem && EndedByLast(r, s.met)
    case Ended(GateShut, _) => c == Stop(s.mem, s.dirty) && s.clientEnded && EndedByLast(r, s.met)
    case Ended(AllMet, _) => c == Continue(s.mem, s.dirty) && |s.met| >= |r.urls|
    case Ended(ClientGone, _) => c == Continue(s.mem, s.dirty) && s.clientEnded && |s.met| < |r.urls|
    case Ended(TimedOut, sentBy) =>
      c == Continue(s.mem, s.dirty) && s.expired && |s.met| < |r.urls| && |s.met| == sentBy
    case AtHead => c == Continue(s.mem, s.dirty)
    case Draining => c == Continue(s.mem, s.dirty) && s.expired && |s.met| < |r.urls|
    case _ => c == Continue(s.mem, s.dirty) && |s.met| < |r.urls|
  }

  ghost predicate SendersOk(r: Refresh, s: Race) {
    && |s.fetching| + |s.sent| == |r.urls|
    && (forall u :: u in s.fetching ==> u in r.urls)
    && (forall m :: m in s.sent ==> m.url in r.urls)
  }

  ghost predicate Inv(r: Refresh, s: Race) {
    MetIsSent(s) && StateIsMet(r, s) && SendersOk(r, s)
  }

  lemma StepMetIsSent(r: Refresh, s: Race, a: Move)
    requires MetIsSent(s) && Enabled(r, s, a)
    ensures MetIsSent(Apply(r, s, a))
  {
    hide Consume, Handled;
  }

  lemma StepSendersOk(r: Refresh, s: Race, a: Move)
    requires SendersOk(r, s) && Enabled(r, s, a)
    ensures SendersOk(r, Apply(r, s, a))
  {
    hide Consume, Handled;
    assert a.Fetched? ==> |s.fetching - multiset{a.m.url}| == |s.fetching| - 1;
  }

  /** A message stops the collector only when the gate stays shut. */
  lemma StopsWhenShut(env: Env, asked: Validators, mem: Mem, dirty: bool, url: Url, reply: Reply, gate: bool)
    ensures Consume(env, asked, mem, dirty, Got(url, reply, gate)).Stop? ==> !gate
  {
  }

  lemma HandledIsMet(r: Refresh, s: Race, gate: bool)
    requires StateIsMet(r, s) && Enabled(r, s, Handle(gate))
    ensures StateIsMet(r, Handled(r, s, gate))
  {
    hide Consume;
    StopsWhenShut(r.env, r.mem.validators, s.mem, s.dirty, Next(s).url, Next(s).reply, gate);
    var met := Handled(r, s, gate).met;
    assert met[..|met| - 1] == s.met;
  }

  lemma StepStateIsMet(r: Refresh, s: Race, a: Move)
    requires MetIsSent(s) && StateIsMet(r, s) && Enabled(r, s, a)
    ensures StateIsMet(r, Apply(r, s, a))
  {
    hide Met, Handled, Next;
    if a.Handle? {
      HandledIsMet(r, s, a.gate);
      hide StateIsMet;
    }
  }

  lemma StepInv(r: Refresh, s: Race, a: Move)
    requires Inv(r, s) && Enabled(r, s, a)
    ensures Inv(r, Apply(r, s, a))
  {
    hide MetIsSent, StateIsMet, SendersOk;
    StepMetIsSent(r, s, a);
    StepStateIsMet(r, s, a);
    StepSendersOk(r, s, a);
  }

  type Schedule = seq<Move>

  ghost predicate Runs(r: Refresh, s: Race, sched: Schedule)
    decreases |sched|
  {
    sched == [] || (Enabled(r, s, sched[0]) && Runs(r, Apply(r, s, sched[0]), sched[1..]))
  }

  ghost function Exec(r: Refresh, s: Race, sched: Schedule): Race
    requires Runs(r, s, sched)
    decreases |sched|
  {
    if sched == [] then s else Exec(r, Apply(r, s, sched[0]), sched[1..])
  }

  lemma {:induction false} RunInv(r: Refresh, s: Race, sched: Schedule)
    requires Inv(r, s) && Runs(r, s, sched)
    ensures Inv(r, Exec(r, s, sched))
    decreases |sched|
  {
    if sched != [] {
      StepInv(r, s, sched[0]);
      RunInv(r, Apply(r, s, sched[0]), sched[1..]);
    }
  }

  // ----- main results

  /** A fetcher never waits to send: the results channel has room for every URL. */
  lemma NoFetcherBlocks(r: Refresh, s: Race, sched: Schedule, m: Message)
    requires Init(r, s) && Runs(r, s, sched)
    requires m.url in Exec(r, s, sched).fetching
    ensures Enabled(r, Exec(r, s, sched), Fetched(m))
  {
    RunInv(r, s, sched);
    var e := Exec(r, s, sched);
    assert |e.fetching - multiset{m.url}| == |e.fetching| - 1;
  }

  /** What the collector meets, in the terms of ConfigRefresh. */
  function Arrivals(e: Race): nat -> Arrival {
    (k: nat) => if k < |e.met| then e.met[k] else if e.pc.Ended? && e.pc.why.TimedOut? then Deadline else ClientEnded
  }

  lemma {:induction false} MetPrefix(r: Refresh, met: seq<Arrival>, k: nat)
    requires k <= |met| && Met(r, met).Continue?
    ensures Met(r, met[..k]).Continue?
    decreases |met| - k
  {
    if k == |met| {
      assert met[..k] == met;
    } else {
      MetPrefix(r, met, k + 1);
      assert met[..k + 1][..k] == met[..k];
    }
  }

  /** Collect, after a prefix of its arrivals that did not end it. */
  lemma {:induction false} CollectAfter(r: Refresh, arrivals: nat -> Arrival, n: nat, met: seq<Arrival>)
    requires |met| <= n && forall k :: 0 <= k < |met| ==> arrivals(k) == met[k]
    requires Met(r, met).Continue?
    ensures var c := Met(r, met);
            Collect(r.env, r.mem.validators, r.mem, false, arrivals, 0, n)
            == Collect(r.env, r.mem.validators, c.mem, c.dirty, arrivals, |met|, n - |met|)
    decreases |met|
  {
    hide Consume;
    if met != [] {
      CollectAfter(r, arrivals, n, met[..|met| - 1]);
    }
  }

  /** After the last message met the collector gives up. */
  lemma EndOfMet(r: Refresh, e: Race, left: nat)
    ensures Collect(r.env, r.mem.validators, e.mem, e.dirty, Arrivals(e), |e.met|, left) == Stop(e.mem, e.dirty)
  {
  }

  /** The collector ended at the last message it met. */
  lemma EndsAtMessage(r: Refresh, arrivals: nat -> Arrival, n: nat, met: seq<Arrival>)
    requires |met| <= n && forall k :: 0 <= k < |met| ==> arrivals(k) == met[k]
    requires EndedByLast(r, met)
    ensures Collect(r.env, r.mem.validators, r.mem, false, arrivals, 0, n) == Met(r, met)
  {
    hide Consume;
    CollectAfter(r, arrivals, n, met[..|met| - 1]);
  }

  lemma EndIsCollect(r: Refresh, e: Race)
    requires Inv(r, e) && e.pc.Ended?
    ensures var c := Collect(r.env, r.mem.validators, r.mem, false, Arrivals(e), 0, |r.urls|);
            && c.mem == e.mem && (c.Applied? <==> e.pc.why.AppliedOne?)
            && (!c.Applied? ==> c == Stop(e.mem, e.dirty))
  {
    assert |e.met| <= |r.urls|;
    assert StateIsMet(r, e);
    hide Inv, MetIsSent, SendersOk, Consume, Collect;
    if Met(r, e.met).Continue? {
      hide Met;
      CollectAfter(r, Arrivals(e), |r.urls|, e.met);
      EndOfMet(r, e, |r.urls| - |e.met|);
    } else {
      EndsAtMessage(r, Arrivals(e), |r.urls|, e.met);
    }
  }

  /** The collector ends with what Collect computes from the arrivals it met, so all that is proved of Collect holds. */
  lemma CollectorIsCollect(r: Refresh, s: Race, sched: Schedule)
    requires Init(r, s) && Runs(r, s, sched) && Exec(r, s, sched).pc.Ended?
    ensures var e := Exec(r, s, sched);
            var c := Collect(r.env, r.mem.validators, r.mem, false, Arrivals(e), 0, |r.urls|);
            && c.mem == e.mem && (c.Applied? <==> e.pc.why.AppliedOne?)
            && (!c.Applied? ==> c == Stop(e.mem, e.dirty))
  {
    RunInv(r, s, sched);
    var e := Exec(r, s, sched);
    hide Runs, Exec;
    EndIsCollect(r, e);
  }

  /** While messages only let the collector go on, none of them was usable and nothing but validators changed. */
  lemma {:induction false} MetVerdicts(r: Refresh, met: seq<Arrival>)
    requires Met(r, met).Continue?
    ensures SameButValidators(r.mem, Met(r, met).mem)
    ensures forall k :: 0 <= k < |met| ==> !Usable(r.env, r.mem, met[k])
  {
    hide Consume, Usable;
    if met != [] {
      var c := Met(r, met[..|met| - 1]);
      MetVerdicts(r, met[..|met| - 1]);
      ConsumeVerdict(r.env, r.mem.validators, r.mem, c.mem, c.dirty, met[|met| - 1]);
    }
  }

  /** Message k, as the collector met it, is one that applies. */
  ghost predicate UsableAt(r: Refresh, e: Race, k: nat)
    requires k < |e.met|
  {
    Usable(r.env, r.mem, e.met[k])
  }

  /**
   A refresh that ended applied a payload if and only if the last message it met was usable and the gate
   open, and then memory is that payload's; every earlier one was not usable.
   */
  lemma AppliesOnlyUsable(r: Refresh, s: Race, sched: Schedule)
    requires Init(r, s) && Runs(r, s, sched) && Exec(r, s, sched).pc.Ended?
    ensures var e := Exec(r, s, sched);
            && (forall k :: 0 <= k < |e.met| - 1 ==> !UsableAt(r, e, k))
            && (e.pc.why.AppliedOne? <==>
                  e.met != [] && UsableAt(r, e, |e.met| - 1) && e.met[|e.met| - 1].gate)
            && (e.pc.why.AppliedOne? ==> AppliedFrom(r.env, e.mem, e.met[|e.met| - 1]))
            && (!e.pc.why.AppliedOne? ==> SameButValidators(r.mem, e.mem))
  {
    RunInv(r, s, sched);
    var e := Exec(r, s, sched);
    hide Runs, Exec;
    EndVerdicts(r, e);
  }

  lemma EndVerdicts(r: Refresh, e: Race)
    requires Inv(r, e) && e.pc.Ended?
    ensures forall k :: 0 <= k < |e.met| - 1 ==> !UsableAt(r, e, k)
    ensures e.pc.why.AppliedOne? <==> e.met != [] && UsableAt(r, e, |e.met| - 1) && e.met[|e.met| - 1].gate
    ensures e.pc.why.AppliedOne? ==> AppliedFrom(r.env, e.mem, e.met[|e.met| - 1])
    ensures !e.pc.why.AppliedOne? ==> SameButValidators(r.mem, e.mem)
  {
    hide AppliedFrom, Usable, Consume;
    if Met(r, e.met).Continue? {
      MetVerdicts(r, e.met);
    } else {
      var last := |e.met| - 1;
      var c := Met(r, e.met[..last]);
      MetVerdicts(r, e.met[..last]);
      assert forall k :: 0 <= k < last ==> e.met[..last][k] == e.met[k];
      ConsumeVerdict(r.env, r.mem.validators, r.mem, c.mem, c.dirty, e.met[last]);
    }
  }

  /**
   A refresh that applied nothing met no usable message with the gate open, and had met every URL's answer,
   or its client had ended, or the deadline had passed and it had met every message sent by the time it gave
   up: the channel was empty.
   */
  lemma NothingAppliedOnlyIf(r: Refresh, s: Race, sched: Schedule)
    requires Init(r, s) && Runs(r, s, sched)
    requires Exec(r, s, sched).pc.Ended? && !Exec(r, s, sched).pc.why.AppliedOne?
    ensures var e := Exec(r, s, sched);
            && SameButValidators(r.mem, e.mem)
            && |e.met| <= |e.sent|
            && (forall k :: 0 <= k < |e.met| ==>
                  && e.met[k].Got? && e.met[k].url == e.sent[k].url && e.met[k].reply == e.sent[k].reply
                  && (UsableAt(r, e, k) ==> e.clientEnded && k == |e.met| - 1 && !e.met[k].gate))
            && (|e.met| == |r.urls| || e.clientEnded || (e.expired && |e.met| == e.pc.sentBy))
  {
    AppliesOnlyUsable(r, s, sched);
    RunInv(r, s, sched);
    var e := Exec(r, s, sched);
    hide Runs, Exec;
    if Met(r, e.met).Continue? {
      MetVerdicts(r, e.met);
    }
  }

  function Served(e: Race): nat -> Payload {
    (k: nat) => if k < |e.sent| then e.sent[k].served else []
  }

  lemma ArrivalsHonest(r: Refresh, e: Race)
    requires Inv(r, e)
    requires forall m :: m in e.sent ==>
               ConfigProtocol.Honest(r.env, m.url, Get(r.mem.validators, m.url), m.served, m.reply)
    ensures ConfigProtocol.AllHonest(r.env, r.urls, r.mem.validators, Arrivals(e), Served(e))
  {
    hide StateIsMet, ConfigProtocol.Honest;
    forall k: nat | Arrivals(e)(k).Got?
      ensures var a := Arrivals(e)(k);
              a.url in r.urls
              && ConfigProtocol.Honest(r.env, a.url, Get(r.mem.validators, a.url), Served(e)(k), a.reply)
    {
      assert k < |e.met| && e.sent[k] in e.sent;
    }
  }

  /**
   With honest sources the race, and the writes that follow it, are a run of the machine of ConfigProtocol:
   the process ends with the collector's memory, and the files with what Finish makes of its result.
   */
  lemma RaceIsARun(
    r: Refresh, s: Race, sched: Schedule, system: ConfigProtocol.State, p: ConfigProtocol.Pid,
    pw: PayloadWrite, sw: SidecarWrite)
    requires Init(r, s) && Runs(r, s, sched) && Exec(r, s, sched).pc.Ended?
    requires p in system.procs && system.procs[p].phase.Idle?
    requires system.procs[p].urls == r.urls && system.procs[p].mem == r.mem
    requires forall m :: m in Exec(r, s, sched).sent ==>
               ConfigProtocol.Honest(r.env, m.url, Get(r.mem.validators, m.url), m.served, m.reply)
    ensures var e, proc := Exec(r, s, sched), system.procs[p];
            var c := Collect(r.env, r.mem.validators, r.mem, false, Arrivals(e), 0, |r.urls|);
            exists run ::
              && ConfigProtocol.Runs(r.env, system, run)
              && ConfigProtocol.Exec(r.env, system, run)
                 == ConfigProtocol.State(Finish(r.env, system.disk, proc.hasPath, c, pw, sw).1,
                                         system.procs[p := proc.(mem := e.mem)])
  {
    var e := Exec(r, s, sched);
    RunInv(r, s, sched);
    CollectorIsCollect(r, s, sched);
    ArrivalsHonest(r, e);
    hide Inv, Runs, Exec, Collect, ConfigProtocol.AllHonest;
    ConfigProtocol.RefreshIsARun(r.env, system, p, Arrivals(e), Served(e), pw, sw);
  }

  // ----- the collector does not hang

  predicate IsOwn(a: Move) {
    !a.Fetched? && !a.Expire? && !a.EndClient?
  }

  function OwnMoves(sched: Schedule): nat {
    if sched == [] then 0 else (if IsOwn(sched[0]) then 1 else 0) + OwnMoves(sched[1..])
  }

  /** The own moves a collector can still make. */
  function Rank(r: Refresh, s: Race): int {
    var left := 4 * (|r.urls| - |s.met|);
    match s.pc
    case AtHead => left + 1
    case Waiting => left
    case Draining => left - 1
    case Handling => left - 2
    case Ended(_, _) => 0
  }

  lemma RankNat(r: Refresh, s: Race)
    requires Inv(r, s)
    ensures 0 <= Rank(r, s)
  {
    assert |s.fetching| >= 0;
  }

  lemma StepRank(r: Refresh, s: Race, a: Move)
    requires Inv(r, s) && Enabled(r, s, a)
    ensures Rank(r, Apply(r, s, a)) + (if IsOwn(a) then 1 else 0) <= Rank(r, s)
  {
    RankNat(r, s);
    hide Met, Handled, SendersOk;
  }

  lemma {:induction false} RunRank(r: Refresh, s: Race, sched: Schedule)
    requires Inv(r, s) && Runs(r, s, sched)
    ensures 0 <= Rank(r, Exec(r, s, sched)) && OwnMoves(sched) + Rank(r, Exec(r, s, sched)) <= Rank(r, s)
    decreases |sched|
  {
    hide Inv, Rank;
    if sched == [] {
      RankNat(r, s);
    } else {
      StepRank(r, s, sched[0]);
      StepInv(r, s, sched[0]);
      RunRank(r, Apply(r, s, sched[0]), sched[1..]);
    }
  }

  lemma CanMove(r: Refresh, e: Race) returns (a: Move)
    requires Inv(r, e) && e.expired && !e.pc.Ended?
    ensures IsOwn(a) && Enabled(r, e, a)
  {
    hide StateIsMet, SendersOk;
    a := match e.pc
         case AtHead => Check
         case Waiting => SeeDone
         case Draining => if e.taken < |e.sent| then DrainReceive else DrainDefault
         case _ => Handle(true);
  }

  /**
   The collector makes at most four moves for each URL and one more, and after the deadline it is never
   stuck, whatever the fetchers do: it can move without another message.
   */
  lemma CollectorEnds(r: Refresh, s: Race, sched: Schedule)
    requires Init(r, s) && Runs(r, s, sched)
    ensures OwnMoves(sched) <= 4 * |r.urls| + 1
    ensures var e := Exec(r, s, sched);
            e.expired && !e.pc.Ended? ==> exists a :: IsOwn(a) && Enabled(r, e, a)
  {
    RunRank(r, s, sched);
    RunInv(r, s, sched);
    var e := Exec(r, s, sched);
    hide Runs, Exec, OwnMoves, Inv;
    if e.expired && !e.pc.Ended? {
      var a := CanMove(r, e);
    }
  }
}
