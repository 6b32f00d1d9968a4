/**
 The front pool as one thread sees it when it runs alone: fronts and the pool are mutable objects, and
 each operation is proved against the queue functions of QueueSpec. Interleavings are PoolProtocol's.
 */
module FrontPool {
  import opened Common
  import opened QueueSpec

  /** A front candidate. lastSucceeded is a clock reading; 0 is the zero time, "never succeeded". */
  class Front {
    const providerID: string
    const domain: string
    const ipAddress: string
    var lastSucceeded: nat
    var queued: bool

    constructor (providerID: string, domain: string, ipAddress: string)
      ensures this.providerID == providerID && this.domain == domain && this.ipAddress == ipAddress
      ensures lastSucceeded == 0 && !queued
    {
      this.providerID, this.domain, this.ipAddress := providerID, domain, ipAddress;
      lastSucceeded, queued := 0, false;
    }

    function Key(): FrontKey {
      FrontKey(providerID, domain, ipAddress)
    }
  }

  /** What Take answers. Blocked stands for a call that has not returned. */
  datatype Taken = Took(front: Front) | Ended | Blocked

  /** The last front of s with key k, as the map Replace builds remembers it. */
  function LastWithKey(s: seq<Front>, k: FrontKey): (r: Option<Front>)
    ensures r.Some? ==> r.value in s && r.value.Key() == k
    ensures r == None ==> forall f :: f in s ==> f.Key() != k
  {
    if s == [] then None
    else if s[|s| - 1].Key() == k then Some(s[|s| - 1])
    else LastWithKey(s[..|s| - 1], k)
  }

  lemma {:induction false} LastIsLast(s: seq<Front>, k: FrontKey) returns (i: nat)
    requires LastWithKey(s, k).Some?
    ensures i < |s| && LastWithKey(s, k) == Some(s[i]) && s[i].Key() == k
    ensures forall j :: i < j < |s| ==> s[j].Key() != k
  {
    var n := |s| - 1;
    if s[n].Key() == k {
      i := n;
    } else {
      i := LastIsLast(s[..n], k);
    }
  }

  /** Accepts the fronts whose provider is not in tried. */
  function Untried(tried: set<string>): Front -> bool {
    (f: Front) => f.providerID !in tried
  }

  ghost function Stamps(fronts: set<Front>): map<Front, nat>
    reads fronts
  {
    map f | f in fronts :: f.lastSucceeded
  }

  /**
   The timestamps when each front of s, in turn, has taken over that of the last front of prior with its
   key, having been stamps. A front may be in both.
   */
  ghost function Inherited(stamps: map<Front, nat>, prior: seq<Front>, s: seq<Front>): (r: map<Front, nat>)
    requires (forall f :: f in prior ==> f in stamps) && (forall f :: f in s ==> f in stamps)
    ensures r.Keys == stamps.Keys
  {
    if s == [] then stamps
    else
      var f, before := s[|s| - 1], Inherited(stamps, prior, s[..|s| - 1]);
      var prev := LastWithKey(prior, f.Key());
      if prev.Some? then before[f := before[prev.value]] else before
  }

  /**
   A front takes over the timestamp that the last prior front with its key had, provided those in both
   sequences are the last of their key.
   */
  lemma {:induction false} InheritedIsPrevious(stamps: map<Front, nat>, prior: seq<Front>, s: seq<Front>, f: Front)
    requires (forall g :: g in prior ==> g in stamps) && (forall g :: g in s ==> g in stamps)
    requires forall g :: g in prior && g in s ==> LastWithKey(prior, g.Key()) == Some(g)
    requires f in stamps
    ensures var prev := LastWithKey(prior, f.Key());
            Inherited(stamps, prior, s)[f] == if f in s && prev.Some? then stamps[prev.value] else stamps[f]
  {
    if s != [] {
      var init, last := s[..|s| - 1], s[|s| - 1];
      assert s == init + [last];
      InheritedIsPrevious(stamps, prior, init, f);
      var prev := LastWithKey(prior, last.Key());
      if prev.Some? {
        InheritedIsPrevious(stamps, prior, init, prev.value);
      }
    }
  }

  class Pool {
    var fronts: seq<Front>
    var ready: seq<Front>
    const cap: nat
    var closed: bool
    /** Every front that was ever a candidate of this pool. */
    ghost var known: set<Front>

    ghost predicate Valid()
      reads this, known
    {
      && 0 < cap && |ready| <= cap && NoDup(ready)
      && (forall f :: f in fronts ==> f in known)
      && (forall f :: f in ready ==> f in known)
      && (forall f :: f in known ==> (f.queued <==> f in ready))
    }

    constructor (readySize: int)
      ensures Valid() && fresh(this)
      ensures ready == [] && fronts == [] && known == {} && !closed
      ensures cap == if readySize <= 0 then 500 else readySize
    {
      cap := if readySize <= 0 then 500 else readySize;
      fronts, ready, known, closed := [], [], {}, false;
    }

    /** addReady: queue f once, or drop it when the queue is full. */
    method AddReady(f: Front)
      requires Valid() && f in known
      modifies this`ready, f`queued
      ensures Valid()
      ensures ready == Added(old(ready), cap, f)
      ensures ready == if f in old(ready) || |old(ready)| == cap then old(ready) else old(ready) + [f]
    {
      if f.queued {
        return;
      }
      f.queued := true;
      if |ready| < cap {
        ready := ready + [f];
      } else {
        f.queued := false;
      }
    }

    /** tryTakeReady */
    method TryTakeReady() returns (r: Option<Front>)
      requires Valid()
      modifies this`ready, ready`queued
      ensures Valid()
      ensures old(ready) == [] ==> r == None && ready == []
      ensures old(ready) != [] ==> r == Some(old(ready)[0]) && ready == old(ready)[1..]
    {
      if ready == [] {
        return None;
      }
      var f := ready[0];
      ready := ready[1..];
      f.queued := false;
      r := Some(f);
    }

    /**
     Take. ctxDone says whether the caller's context has ended, and pick which of several runnable
     cases the select takes.
     */
    method Take(ctxDone: bool, pick: bool) returns (r: Taken)
      requires Valid()
      modifies this`ready, ready`queued
      ensures Valid()
      ensures r.Took? <==> old(ready) != [] && ((!ctxDone && !closed) || pick)
      ensures r.Took? ==> r.front == old(ready)[0] && ready == old(ready)[1..]
      ensures !r.Took? ==> ready == old(ready) && (r.Ended? <==> ctxDone || closed)
    {
      if ready != [] && ((!ctxDone && !closed) || pick) {
        var f := TryTakeReady();
        r := Took(f.value);
      } else {
        r := if ctxDone || closed then Ended else Blocked;
      }
    }

    /** Put the skipped fronts back, in order. */
    method PutBack(skipped: seq<Front>)
      requires Valid() && NoDup(skipped)
      requires forall f :: f in skipped ==> f in known && f !in ready
      requires |ready| + |skipped| <= cap
      modifies this`ready, skipped`queued
      ensures Valid()
      ensures ready == old(ready) + skipped
    {
      var i := 0;
      while i < |skipped|
        invariant 0 <= i <= |skipped|
        invariant Valid()
        invariant ready == old(ready) + skipped[..i]
      {
        assert skipped[i] !in skipped[..i];
        assert skipped[..i + 1] == skipped[..i] + [skipped[i]];
        AddReady(skipped[i]);
        i := i + 1;
      }
      assert skipped[..i] == skipped;
    }

    /**
     The scan of TakePreferringUntried: pull at most maxProviderScan fronts until one is of an untried
     provider. q is the queue as it was before first was taken from its head.
     */
    method ScanForUntried(first: Front, tried: set<string>, ghost q: seq<Front>)
      returns (selected: Front, skipped: seq<Front>)
      requires Valid() && q == [first] + ready && first.providerID in tried && NoDup(q)
      modifies this`ready, ready`queued
      ensures Valid()
      ensures 0 < |skipped| <= Window(q) && skipped == q[..|skipped|]
      ensures forall f :: f in skipped ==> f.providerID in tried
      ensures selected == first ==> |skipped| == Window(q) && ready == q[Window(q)..]
      ensures selected != first ==>
                && |skipped| < Window(q) && selected == q[|skipped|] && selected.providerID !in tried
                && ready == q[|skipped| + 1..]
    {
      selected, skipped := first, [first];
      var scan := Min(|ready|, MAX_PROVIDER_SCAN);
      var i := 0;
      while i < scan
        invariant 0 <= i <= scan < |q| && scan + 1 == Window(q)
        invariant Valid()
        invariant skipped == q[..i + 1] && ready == q[i + 1..] && i <= |old(ready)| && ready == old(ready)[i..]
        invariant forall f :: f in skipped ==> f.providerID in tried
      {
        var f := TryTakeReady();
        assert f.value == q[i + 1] && q[..i + 2] == q[..i + 1] + [q[i + 1]];
        if f.value.providerID !in tried {
          selected := f.value;
          return;
        }
        skipped := skipped + [f.value];
        i := i + 1;
      }
    }

    /**
     TakePreferringUntried: the first front of an untried provider among the first nine ready ones,
     otherwise the head. Nothing is lost, even from a full queue.
     */
    method TakePreferringUntried(ctxDone: bool, pick: bool, tried: set<string>) returns (r: Taken)
      requires Valid()
      modifies this`ready, ready`queued
      ensures Valid()
      ensures r.Took? <==> old(ready) != [] && ((!ctxDone && !closed) || pick)
      ensures r.Took? ==>
                && r.front == old(ready)[Preferred(old(ready), Untried(tried))]
                && ready == AfterPreferred(old(ready), Untried(tried))
      ensures !r.Took? ==> ready == old(ready) && (r.Ended? <==> ctxDone || closed)
    {
      ghost var q := ready;
      r := Take(ctxDone, pick);
      if r.Took? {
        if r.front.providerID in tried {
          var selected := PreferUntried(r.front, tried, q);
          r := Took(selected);
        } else {
          PreferredFound(q, Untried(tried), 0);
        }
      }
    }

    /** TakePreferringUntried once it has taken first, of a tried provider, from the head of q. */
    method PreferUntried(first: Front, tried: set<string>, ghost q: seq<Front>) returns (selected: Front)
      requires Valid() && q == [first] + ready && first.providerID in tried && NoDup(q)
      requires first in known && |q| <= cap
      modifies this`ready, ready`queued, first`queued
      ensures Valid()
      ensures selected == q[Preferred(q, Untried(tried))]
      ensures ready == AfterPreferred(q, Untried(tried))
    {
      hide AfterPreferred, Preferred;
      var skipped;
      selected, skipped := ScanForUntried(first, tried, q);
      assert forall j :: 0 <= j < |skipped| ==> q[j] == skipped[j] && q[j] in skipped;
      if selected == first {
        PreferredFallsBack(q, Untried(tried));
        NoDupStretch(q, 1, |skipped|, |skipped|);
        assert skipped[1..] == q[1..|skipped|];
        PutBack(skipped[1..]);
      } else {
        PreferredFound(q, Untried(tried), |skipped|);
        NoDupStretch(q, 0, |skipped|, |skipped| + 1);
        PutBack(skipped);
      }
    }

    /** tryTakeFrom: the first ready front match accepts; the queue is untouched when there is none. */
    method TryTakeFrom(accepts: Front -> bool) returns (r: Option<Front>)
      requires Valid()
      modifies this`ready, ready`queued
      ensures Valid()
      ensures ready == AfterTakeFrom(old(ready), accepts)
      ensures var i := IndexWhere(old(ready), accepts);
              r == if i < |old(ready)| then Some(old(ready)[i]) else None
      ensures forall i :: FirstAccepted(old(ready), accepts, i) ==>
                r == Some(old(ready)[i]) && ready == old(ready)[i + 1..] + old(ready)[..i]
      ensures (forall f :: f in old(ready) ==> !accepts(f)) ==> r == None && ready == old(ready)
    {
      ghost var q := ready;
      r := None;
      var skipped := [];
      var n := |ready|;
      var i := 0;
      while i < n
        invariant 0 <= i <= n == |q|
        invariant Valid()
        invariant skipped == q[..i] && ready == q[i..]
        invariant forall j :: 0 <= j < i ==> !accepts(q[j])
        invariant r == None
      {
        var f := TryTakeReady();
        assert f.value == q[i] && q[..i + 1] == q[..i] + [q[i]];
        if accepts(f.value) {
          r := f;
          break;
        }
        skipped := skipped + [f.value];
        i := i + 1;
      }
      IndexWhereUnique(q, accepts, i);
      TakeFromMeans(q, accepts);
      NoDupStretch(q, 0, i, if i < |q| then i + 1 else i);
      PutBack(skipped);
    }

    /** Return: requeue f untouched, or mark it failed and leave it out of rotation. */
    method Return(f: Front, requeue: bool)
      requires Valid() && f in known
      modifies this`ready, f`queued, f`lastSucceeded
      ensures Valid()
      ensures requeue ==> f.lastSucceeded == old(f.lastSucceeded)
      ensures requeue ==> ready == Added(old(ready), cap, f)
      ensures !requeue ==> f.lastSucceeded == 0 && ready == old(ready)
    {
      if requeue {
        AddReady(f);
      } else {
        f.lastSucceeded := 0;
      }
    }

    /** ReturnSuccess at clock reading now. */
    method ReturnSuccess(f: Front, now: nat)
      requires Valid() && f in known
      modifies this`ready, f`queued, f`lastSucceeded
      ensures Valid()
      ensures f.lastSucceeded == now
      ensures ready == Added(old(ready), cap, f)
    {
      f.lastSucceeded := now;
      AddReady(f);
    }

    /** Close, any number of times. */
    method Close()
      requires Valid()
      modifies this`closed
      ensures Valid() && closed
    {
      if !closed {
        closed := true;
      }
    }

    /**
     Replace: new fronts inherit the timestamp of the old candidate with their key, and the ready queue is
     drained. A front may be old and new at once; one the pool has not met is not queued.
     */
    method Replace(newFronts: seq<Front>)
      requires Valid()
      requires forall f :: f in newFronts && f !in known ==> !f.queued
      modifies this`fronts, this`ready, this`known, ready`queued, newFronts`lastSucceeded
      ensures Valid()
      ensures fronts == newFronts && ready == []
      ensures known == old(known) + set f | f in newFronts
      ensures var stamps := old(Stamps(known + set f | f in newFronts));
              forall f :: f in newFronts ==> f.lastSucceeded == Inherited(stamps, old(fronts), newFronts)[f]
    {
      hide Inherited, LastWithKey, NoDup, Stamps;
      var byKey := IndexByKey();
      InheritTimestamps(newFronts, byKey, known + set f | f in newFronts);
      fronts := newFronts;
      known := known + set f | f in newFronts;
      Drain();
    }

    /** The map Replace builds of the old candidates. */
    method IndexByKey() returns (byKey: map<FrontKey, Front>)
      ensures forall k :: k in byKey <==> LastWithKey(fronts, k).Some?
      ensures forall k :: k in byKey ==> LastWithKey(fronts, k) == Some(byKey[k])
    {
      byKey := map[];
      var i := 0;
      while i < |fronts|
        invariant 0 <= i <= |fronts|
        invariant forall k :: k in byKey <==> LastWithKey(fronts[..i], k).Some?
        invariant forall k :: k in byKey ==> LastWithKey(fronts[..i], k) == Some(byKey[k]) && byKey[k] in fronts
      {
        byKey := byKey[fronts[i].Key() := fronts[i]];
        assert fronts[..i + 1][..i] == fronts[..i];
        i := i + 1;
      }
      assert fronts[..i] == fronts;
    }

    /** Each new front takes over the timestamp of the old candidate with its key. all holds both. */
    method InheritTimestamps(newFronts: seq<Front>, byKey: map<FrontKey, Front>, ghost all: set<Front>)
      requires (forall f :: f in fronts ==> f in all) && (forall f :: f in newFronts ==> f in all)
      requires forall k :: k in byKey <==> LastWithKey(fronts, k).Some?
      requires forall k :: k in byKey ==> LastWithKey(fronts, k) == Some(byKey[k])
      modifies newFronts`lastSucceeded
      ensures forall f :: f in all ==>
                f.lastSucceeded == Inherited(old(Stamps(all)), fronts, newFronts)[f]
    {
      var i := 0;
      while i < |newFronts|
        invariant 0 <= i <= |newFronts|
        invariant forall f :: f in all ==>
                    f.lastSucceeded == Inherited(old(Stamps(all)), fronts, newFronts[..i])[f]
      {
        var f := newFronts[i];
        assert newFronts[..i + 1][..i] == newFronts[..i];
        if f.Key() in byKey {
          f.lastSucceeded := byKey[f.Key()].lastSucceeded;
        }
        i := i + 1;
      }
      assert newFronts[..i] == newFronts;
    }

    /** The drain at the end of Replace. */
    method Drain()
      requires Valid()
      modifies this`ready, ready`queued
      ensures Valid() && ready == []
    {
      while ready != []
        invariant Valid()
        invariant |ready| <= |old(ready)| && ready == old(ready)[|old(ready)| - |ready|..]
        decreases |ready|
      {
        var f := TryTakeReady();
      }
    }
  }
}
