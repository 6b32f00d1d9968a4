/**
 The order of the candidates, and the cache of front timestamps that rests on it: what a save keeps
 and what a later load restores.
 */
module FrontCache {
  import opened Common
  import opened FrontPool

  /** The part of a front that is cached. */
  datatype CachedFront = CachedFront(key: FrontKey, lastSucceeded: nat)

  function Entry(f: Front): CachedFront
    reads f
  {
    CachedFront(f.Key(), f.lastSucceeded)
  }

  function Snapshot(fs: seq<Front>): (r: seq<CachedFront>)
    reads fs
    ensures |r| == |fs|
    ensures forall i :: 0 <= i < |fs| ==> r[i] == Entry(fs[i])
  {
    if fs == [] then [] else Snapshot(fs[..|fs| - 1]) + [Entry(fs[|fs| - 1])]
  }

  // ----- candidates: most recent first

  /** Byte order of two strings, as cmp.Compare. */
  predicate StringLeq(a: string, b: string) {
    a == [] || (b != [] && (a[0] < b[0] || (a[0] == b[0] && StringLeq(a[1..], b[1..]))))
  }

  lemma {:induction false} StringLeqTotal(a: string, b: string)
    ensures StringLeq(a, b) || StringLeq(b, a)
  {
    if a != [] && b != [] && a[0] == b[0] {
      StringLeqTotal(a[1..], b[1..]);
    }
  }

  lemma {:induction false} StringLeqTransitive(a: string, b: string, c: string)
    requires StringLeq(a, b) && StringLeq(b, c)
    ensures StringLeq(a, c)
  {
    if a != [] && a[0] == b[0] && b[0] == c[0] {
      StringLeqTransitive(a[1..], b[1..], c[1..]);
    }
  }

  /** The comparison candidates sorts with: later success first, then by address. */
  predicate Before(a: CachedFront, b: CachedFront) {
    a.lastSucceeded > b.lastSucceeded
    || (a.lastSucceeded == b.lastSucceeded && StringLeq(a.key.ip, b.key.ip))
  }

  /** In the order of the comparison, except that fronts that never succeeded come in any order. */
  ghost predicate RecencyOrdered(s: seq<CachedFront>) {
    forall i, j :: 0 <= i < j < |s| ==>
      Before(s[i], s[j]) || (s[i].lastSucceeded == 0 && s[j].lastSucceeded == 0)
  }

  datatype Item = Item(front: Front, ts: nat)

  function Value(x: Item): CachedFront {
    CachedFront(x.front.Key(), x.ts)
  }

  ghost predicate ItemsSorted(s: seq<Item>) {
    forall i, j :: 0 <= i < j < |s| ==> Before(Value(s[i]), Value(s[j]))
  }

  function Insert(x: Item, s: seq<Item>): (r: seq<Item>)
    requires ItemsSorted(s)
    ensures multiset(r) == multiset(s) + multiset{x}
    ensures ItemsSorted(r)
  {
    if s == [] then [x]
    else if Before(Value(x), Value(s[0])) then
      InsertAtHead(x, s);
      [x] + s
    else
      assert s == [s[0]] + s[1..];
      var rest := Insert(x, s[1..]);
      InsertBehindHead(x, s, rest);
      [s[0]] + rest
  }

  lemma InsertAtHead(x: Item, s: seq<Item>)
    requires ItemsSorted(s) && s != [] && Before(Value(x), Value(s[0]))
    ensures ItemsSorted([x] + s)
  {
    forall j | 0 <= j < |s| ensures Before(Value(x), Value(s[j])) {
      if j > 0 && x.ts == s[0].ts && s[0].ts == s[j].ts {
        StringLeqTransitive(x.front.ipAddress, s[0].front.ipAddress, s[j].front.ipAddress);
      }
    }
  }

  lemma InsertBehindHead(x: Item, s: seq<Item>, rest: seq<Item>)
    requires s != [] && ItemsSorted(s) && ItemsSorted(rest) && !Before(Value(x), Value(s[0]))
    requires multiset(rest) == multiset(s[1..]) + multiset{x}
    ensures ItemsSorted([s[0]] + rest)
  {
    StringLeqTotal(x.front.ipAddress, s[0].front.ipAddress);
    forall j | 0 <= j < |rest| ensures Before(Value(s[0]), Value(rest[j])) {
      assert rest[j] in multiset(rest);
      if rest[j] != x {
        assert rest[j] in s[1..];
      }
    }
  }

  /** slices.SortFunc: some ordering of the items that the comparison accepts. */
  method SortItems(items: seq<Item>) returns (r: seq<Item>)
    ensures multiset(r) == multiset(items)
    ensures ItemsSorted(r)
  {
    r := [];
    for i := 0 to |items|
      invariant multiset(r) == multiset(items[..i])
      invariant ItemsSorted(r)
    {
      assert items[..i + 1] == items[..i] + [items[i]];
      r := Insert(items[i], r);
    }
    assert items[..|items|] == items;
  }

  /** rand.Shuffle: any permutation. */
  method Shuffle<T>(s: seq<T>) returns (r: seq<T>)
    ensures multiset(r) == multiset(s)
  {
    r := s;
    var i := |r| - 1;
    while i > 0
      invariant |r| == |s| && i < |r|
      invariant multiset(r) == multiset(s)
    {
      var j :| 0 <= j <= i;
      r := r[i := r[j]][j := r[i]];
      i := i - 1;
    }
  }

  /** The sort and the shuffle of candidates. */
  method OrderItems(items: seq<Item>) returns (r: seq<Item>)
    ensures multiset(r) == multiset(items)
    ensures forall i, j :: 0 <= i < j < |r| ==>
              Before(Value(r[i]), Value(r[j])) || (r[i].ts == 0 && r[j].ts == 0)
  {
    var sorted := SortItems(items);
    var tail := 0;
    while tail < |sorted| && sorted[tail].ts != 0
      invariant 0 <= tail <= |sorted|
      invariant forall i :: 0 <= i < tail ==> sorted[i].ts != 0
    {
      tail := tail + 1;
    }
    var rest := Shuffle(sorted[tail..]);
    assert sorted == sorted[..tail] + sorted[tail..];
    ShuffledTailStaysOrdered(sorted, tail, rest);
    r := sorted[..tail] + rest;
  }

  /** candidates: every front once, those that succeeded first and most recent first. */
  method Candidates(pool: Pool) returns (c: seq<Front>)
    requires pool.Valid()
    ensures multiset(c) == multiset(pool.fronts)
    ensures RecencyOrdered(Snapshot(c))
  {
    var items := Pack(pool.fronts);
    assert Unpacked(items) == pool.fronts;
    var ordered := OrderItems(items);
    UnpackedMultiset(items, ordered);
    c := Unpack(ordered);
    forall i | 0 <= i < |c| ensures Snapshot(c)[i] == Value(ordered[i]) {
      assert ordered[i] in multiset(items);
    }
  }

  /** The loops of candidates that pair each front with its timestamp. */
  method Pack(fronts: seq<Front>) returns (items: seq<Item>)
    ensures |items| == |fronts|
    ensures forall i :: 0 <= i < |items| ==> items[i].front == fronts[i]
    ensures forall x :: x in items ==> x.ts == x.front.lastSucceeded
  {
    items := [];
    for i := 0 to |fronts|
      invariant |items| == i
      invariant forall j :: 0 <= j < i ==> items[j].front == fronts[j]
      invariant forall x :: x in items ==> x.ts == x.front.lastSucceeded
    {
      items := items + [Item(fronts[i], fronts[i].lastSucceeded)];
    }
  }

  function Unpacked(items: seq<Item>): (r: seq<Front>)
    ensures |r| == |items| && forall i :: 0 <= i < |r| ==> r[i] == items[i].front
  {
    if items == [] then [] else [items[0].front] + Unpacked(items[1..])
  }

  /** The last loop of candidates. */
  method Unpack(items: seq<Item>) returns (c: seq<Front>)
    ensures c == Unpacked(items)
  {
    c := [];
    for i := 0 to |items|
      invariant |c| == i && forall j :: 0 <= j < i ==> c[j] == items[j].front
    {
      c := c + [items[i].front];
    }
  }

  /** Two sequences with a common element are permutations exactly when they are without it. */
  lemma WithoutCommon<T>(a: seq<T>, b: seq<T>, k: nat)
    requires a != [] && k < |b| && a[0] == b[k]
    ensures multiset(a) == multiset(b) <==> multiset(a[1..]) == multiset(b[..k] + b[k + 1..])
  {
    assert a == [a[0]] + a[1..];
    assert b == b[..k] + [a[0]] + b[k + 1..];
    assert multiset(a[1..]) == multiset(a) - multiset{a[0]};
    assert multiset(b[..k] + b[k + 1..]) == multiset(b) - multiset{a[0]};
  }

  lemma UnpackedWithoutAt(s: seq<Item>, k: nat)
    requires k < |s|
    ensures Unpacked(s[..k] + s[k + 1..]) == Unpacked(s)[..k] + Unpacked(s)[k + 1..]
  {
    hide Unpacked;
    var whole, part := Unpacked(s), Unpacked(s[..k] + s[k + 1..]);
    assert |part| == |whole[..k] + whole[k + 1..]|;
    forall i | 0 <= i < |part| ensures part[i] == (whole[..k] + whole[k + 1..])[i] {
      assert part[i] == s[if i < k then i else i + 1].front;
    }
  }

  lemma {:induction false} UnpackedMultiset(a: seq<Item>, b: seq<Item>)
    requires multiset(a) == multiset(b)
    ensures multiset(Unpacked(a)) == multiset(Unpacked(b))
    decreases |a|
  {
    if a == [] {
      assert |b| == |multiset(b)|;
    } else {
      assert a[0] in multiset(b);
      var k :| 0 <= k < |b| && b[k] == a[0];
      WithoutCommon(a, b, k);
      UnpackedMultiset(a[1..], b[..k] + b[k + 1..]);
      UnpackedWithoutAt(b, k);
      WithoutCommon(Unpacked(a), Unpacked(b), k);
    }
  }

  lemma ShuffledTailStaysOrdered(sorted: seq<Item>, tail: nat, rest: seq<Item>)
    requires ItemsSorted(sorted) && tail <= |sorted|
    requires forall i :: 0 <= i < tail ==> sorted[i].ts != 0
    requires tail < |sorted| ==> sorted[tail].ts == 0
    requires multiset(rest) == multiset(sorted[tail..])
    ensures var s := sorted[..tail] + rest;
            forall i, j :: 0 <= i < j < |s| ==>
              Before(Value(s[i]), Value(s[j])) || (s[i].ts == 0 && s[j].ts == 0)
  {
    forall x | x in rest ensures x.ts == 0 {
      assert x in multiset(sorted[tail..]);
      var k :| 0 <= k < |sorted[tail..]| && sorted[tail..][k] == x;
      assert sorted[tail + k] == x;
    }
  }

  // ----- saving and loading

  /** The entries that have a timestamp, in order. */
  function Succeeded(s: seq<CachedFront>): seq<CachedFront> {
    if s == [] then []
    else
      var rest := Succeeded(s[..|s| - 1]);
      if s[|s| - 1].lastSucceeded == 0 then rest else rest + [s[|s| - 1]]
  }

  function Capped(s: seq<CachedFront>, maxSize: nat): seq<CachedFront> {
    s[..Min(|s|, maxSize)]
  }

  /** frontsToCache */
  method FrontsToCache(fronts: seq<Front>, maxSize: nat) returns (cached: seq<CachedFront>)
    ensures cached == Capped(Succeeded(Snapshot(fronts)), maxSize)
  {
    cached := [];
    var i := 0;
    ghost var s := Snapshot(fronts);
    while i < |fronts|
      invariant 0 <= i <= |fronts|
      invariant cached == Succeeded(s[..i]) && |cached| <= maxSize
    {
      assert s[..i + 1][..i] == s[..i];
      var f := fronts[i];
      if f.lastSucceeded != 0 {
        if |cached| >= maxSize {
          SucceededGrows(s, i);
          return;
        }
        cached := cached + [Entry(f)];
      }
      i := i + 1;
    }
    assert s[..i] == s;
  }

  lemma {:induction false} SucceededGrows(s: seq<CachedFront>, i: nat)
    requires i <= |s|
    ensures |Succeeded(s[..i])| <= |Succeeded(s)|
    ensures Succeeded(s)[..|Succeeded(s[..i])|] == Succeeded(s[..i])
  {
    if i == |s| {
      assert s[..i] == s;
    } else {
      SucceededGrows(s[..|s| - 1], i);
      assert s[..|s| - 1][..i] == s[..i];
    }
  }

  /** The cached timestamp for key k: the last entry with that key. */
  function Cached(cached: seq<CachedFront>, k: FrontKey): (r: Option<nat>)
  {
    if cached == [] then None
    else if cached[|cached| - 1].key == k then Some(cached[|cached| - 1].lastSucceeded)
    else Cached(cached[..|cached| - 1], k)
  }

  /** The timestamp a front with key k and timestamp was has after loading the cache at time now. */
  function Loaded(cached: seq<CachedFront>, k: FrontKey, was: nat, now: int, maxAge: int): nat {
    match Cached(cached, k)
    case Some(ts) => if now - ts < maxAge then ts else was
    case None => was
  }

  /** applyCachedState, run at clock reading now. */
  method ApplyCachedState(fronts: seq<Front>, cached: seq<CachedFront>, now: int, maxAge: int)
    modifies fronts`lastSucceeded
    ensures forall f :: f in fronts ==>
              f.lastSucceeded == Loaded(cached, f.Key(), old(f.lastSucceeded), now, maxAge)
  {
    var lookup: map<FrontKey, CachedFront> := map[];
    for i := 0 to |cached|
      invariant forall k :: k in lookup <==> Cached(cached[..i], k).Some?
      invariant forall k :: k in lookup ==> Cached(cached[..i], k) == Some(lookup[k].lastSucceeded)
    {
      assert cached[..i + 1][..i] == cached[..i];
      lookup := lookup[cached[i].key := cached[i]];
    }
    assert cached[..|cached|] == cached;

    for i := 0 to |fronts|
      invariant forall f :: f in fronts && f !in fronts[..i] ==> f.lastSucceeded == old(f.lastSucceeded)
      invariant forall f :: f in fronts[..i] ==>
                  f.lastSucceeded == Loaded(cached, f.Key(), old(f.lastSucceeded), now, maxAge)
    {
      var f := fronts[i];
      assert fronts[..i + 1] == fronts[..i] + [f];
      if f.Key() in lookup {
        var cf := lookup[f.Key()];
        if now - cf.lastSucceeded < maxAge {
          f.lastSucceeded := cf.lastSucceeded;
        }
      }
    }
    assert fronts[..|fronts|] == fronts;
  }

  ghost predicate DistinctKeys(s: seq<CachedFront>) {
    forall i, j :: 0 <= i < j < |s| ==> s[i].key != s[j].key
  }

  /** Entries without a timestamp come last. */
  ghost predicate ZerosLast(s: seq<CachedFront>) {
    forall i, j :: 0 <= i < j < |s| && s[j].lastSucceeded != 0 ==> s[i].lastSucceeded != 0
  }

  /** In recency order the fronts that succeeded are a prefix. */
  lemma SucceededIsPrefix(s: seq<CachedFront>)
    requires RecencyOrdered(s)
    ensures |Succeeded(s)| <= |s| && Succeeded(s) == s[..|Succeeded(s)|]
    ensures forall i :: 0 <= i < |s| ==> (s[i].lastSucceeded != 0 <==> i < |Succeeded(s)|)
  {
    assert ZerosLast(s);
    hide RecencyOrdered;
    PrefixOfZerosLast(s);
  }

  lemma {:induction false} PrefixOfZerosLast(s: seq<CachedFront>)
    requires ZerosLast(s)
    ensures |Succeeded(s)| <= |s| && Succeeded(s) == s[..|Succeeded(s)|]
    ensures forall i :: 0 <= i < |s| ==> (s[i].lastSucceeded != 0 <==> i < |Succeeded(s)|)
  {
    if s != [] {
      var init := s[..|s| - 1];
      PrefixOfZerosLast(init);
      if s[|s| - 1].lastSucceeded != 0 {
        assert forall i :: 0 <= i < |init| ==> init[i] == s[i] && init[i].lastSucceeded != 0;
        assert |Succeeded(init)| == |init|;
      }
    }
  }

  /** A save keeps a most-recent set: nothing it leaves out is more recent than anything it keeps. */
  lemma SaveKeepsMostRecent(s: seq<CachedFront>, maxSize: nat)
    requires RecencyOrdered(s)
    ensures var saved := Capped(Succeeded(s), maxSize);
            && |saved| <= maxSize && |saved| <= |s| && saved == s[..|saved|]
            && (|saved| < maxSize ==> forall i :: |saved| <= i < |s| ==> s[i].lastSucceeded == 0)
            && forall i, j :: 0 <= i < |saved| <= j < |s| ==>
                 s[i].lastSucceeded != 0 && s[i].lastSucceeded >= s[j].lastSucceeded
  {
    SucceededIsPrefix(s);
  }

  /** Candidate i is one that a save keeps: it succeeded and is within the cap. */
  predicate Kept(s: seq<CachedFront>, maxSize: nat, i: int) {
    0 <= i < |s| && i < maxSize && s[i].lastSucceeded != 0
  }

  /** Candidate i is the last one kept with key k. */
  ghost predicate LastKept(s: seq<CachedFront>, maxSize: nat, k: FrontKey, i: int) {
    && Kept(s, maxSize, i) && s[i].key == k
    && forall j :: i < j < |s| && s[j].key == k ==> !Kept(s, maxSize, j)
  }

  lemma {:induction false} CachedIsLast(s: seq<CachedFront>, k: FrontKey, i: nat)
    requires i < |s| && s[i].key == k && forall j :: i < j < |s| ==> s[j].key != k
    ensures Cached(s, k) == Some(s[i].lastSucceeded)
  {
    if i != |s| - 1 {
      CachedIsLast(s[..|s| - 1], k, i);
    }
  }

  /**
   Saving candidates s and loading onto a fresh front with key k restores the timestamp of the last kept
   candidate with that key exactly when it is younger than maxAge; without one it restores nothing.
   Candidates that share a key are thus restored to the oldest of their kept timestamps.
   */
  lemma SaveThenLoad(s: seq<CachedFront>, maxSize: nat, now: int, maxAge: int, k: FrontKey)
    requires RecencyOrdered(s)
    ensures var restored := Loaded(Capped(Succeeded(s), maxSize), k, 0, now, maxAge);
            && (forall i :: LastKept(s, maxSize, k, i) ==>
                  && restored == (if now - s[i].lastSucceeded < maxAge then s[i].lastSucceeded else 0)
                  && forall j :: Kept(s, maxSize, j) && s[j].key == k ==> s[i].lastSucceeded <= s[j].lastSucceeded)
            && ((forall i :: Kept(s, maxSize, i) ==> s[i].key != k) ==> restored == 0)
  {
    SaveKeepsMostRecent(s, maxSize);
    SucceededIsPrefix(s);
    var saved := Capped(Succeeded(s), maxSize);
    assert forall i :: 0 <= i < |s| ==> (Kept(s, maxSize, i) <==> i < |saved|);
    forall i | LastKept(s, maxSize, k, i) ensures Cached(saved, k) == Some(s[i].lastSucceeded) {
      assert forall j :: i < j < |saved| ==> saved[j] == s[j] && Kept(s, maxSize, j);
      CachedIsLast(saved, k, i);
    }
    if forall i :: Kept(s, maxSize, i) ==> s[i].key != k {
      assert forall i :: 0 <= i < |saved| ==> saved[i] == s[i] && Kept(s, maxSize, i);
      LoadIgnoresStrangers(saved, k, now, maxAge);
    }
  }

  /**
   With distinct keys the timestamp of the i-th candidate is restored exactly when it had one, was within
   the cap, and is younger than maxAge.
   */
  lemma DistinctSaveThenLoad(s: seq<CachedFront>, maxSize: nat, now: int, maxAge: int, i: nat)
    requires RecencyOrdered(s) && DistinctKeys(s) && i < |s|
    ensures Loaded(Capped(Succeeded(s), maxSize), s[i].key, 0, now, maxAge)
            == if s[i].lastSucceeded != 0 && i < maxSize && now - s[i].lastSucceeded < maxAge
               then s[i].lastSucceeded else 0
  {
    hide RecencyOrdered, Succeeded, Capped, Loaded;
    SaveThenLoad(s, maxSize, now, maxAge, s[i].key);
    if Kept(s, maxSize, i) {
      assert LastKept(s, maxSize, s[i].key, i);
    } else {
      assert forall j :: Kept(s, maxSize, j) ==> s[j].key != s[i].key;
    }
  }

  /** A fresh front whose key was not a candidate stays without a timestamp. */
  lemma {:induction false} LoadIgnoresStrangers(s: seq<CachedFront>, k: FrontKey, now: int, maxAge: int)
    requires forall i :: 0 <= i < |s| ==> s[i].key != k
    ensures Loaded(s, k, 0, now, maxAge) == 0
  {
    if s != [] {
      LoadIgnoresStrangers(s[..|s| - 1], k, now, maxAge);
    }
  }

  /** saveCache, up to the write. */
  method SaveCache(pool: Pool, maxSize: nat) returns (order: seq<Front>, cached: seq<CachedFront>)
    requires pool.Valid()
    ensures multiset(order) == multiset(pool.fronts) && RecencyOrdered(Snapshot(order))
    ensures cached == Capped(Succeeded(Snapshot(order)), maxSize)
  {
    order := Candidates(pool);
    cached := FrontsToCache(order, maxSize);
  }

  /** The part of New that loads cached state. */
  method LoadCache(pool: Pool, cached: seq<CachedFront>, now: int, maxAge: int)
    requires pool.Valid()
    modifies pool.fronts`lastSucceeded
    ensures pool.Valid()
    ensures forall f :: f in pool.fronts ==>
              f.lastSucceeded == Loaded(cached, f.Key(), old(f.lastSucceeded), now, maxAge)
  {
    if |cached| > 0 {
      var fronts := Candidates(pool);
      forall f ensures f in fronts <==> f in pool.fronts {
        assert f in fronts <==> f in multiset(fronts);
      }
      assert forall i :: 0 <= i < |fronts| ==> fronts[i] in pool.fronts;
      assert forall i :: 0 <= i < |fronts| ==> exists j :: 0 <= j < |pool.fronts| && pool.fronts[j] == fronts[i];
      ApplyCachedState(fronts, cached, now, maxAge);
    }
  }

  // ----- a save on one pool and a load on another

  /** The same provider, domain and address. */
  predicate SameKey(f: Front, g: Front) {
    f.providerID == g.providerID && f.domain == g.domain && f.ipAddress == g.ipAddress
  }

  /** Those that succeeded first, the most recent first, ties by address. */
  ghost predicate MostRecentFirst(order: seq<Front>)
    reads order
  {
    forall i, j :: 0 <= i < j < |order| ==>
      || order[i].lastSucceeded > order[j].lastSucceeded
      || (order[i].lastSucceeded == order[j].lastSucceeded
          && (order[i].lastSucceeded == 0 || StringLeq(order[i].ipAddress, order[j].ipAddress)))
  }

  ghost predicate DistinctFronts(s: seq<Front>) {
    forall i, j :: 0 <= i < j < |s| ==> !SameKey(s[i], s[j])
  }

  lemma OrderMeans(order: seq<Front>)
    requires RecencyOrdered(Snapshot(order))
    ensures MostRecentFirst(order)
  {
    forall i, j | 0 <= i < j < |order|
      ensures order[i].lastSucceeded > order[j].lastSucceeded
              || (order[i].lastSucceeded == order[j].lastSucceeded
                  && (order[i].lastSucceeded == 0 || StringLeq(order[i].ipAddress, order[j].ipAddress)))
    {
      assert Snapshot(order)[i] == Entry(order[i]) && Snapshot(order)[j] == Entry(order[j]);
    }
  }

  /** A permutation of fronts with distinct keys has the same fronts, with distinct keys. */
  lemma SameFronts(a: seq<Front>, b: seq<Front>)
    requires multiset(a) == multiset(b) && DistinctFronts(a)
    ensures DistinctFronts(b) && forall f :: f in a <==> f in b
  {
    forall x ensures multiset(b)[x] <= 1 {
      NoDupCounts(a, x);
    }
    AtMostOnceIsNoDup(b);
    forall f ensures f in a <==> f in b {
      assert f in a <==> f in multiset(a);
    }
    forall i, j | 0 <= i < j < |b| ensures !SameKey(b[i], b[j]) {
      assert b[i] in a && b[j] in a && b[i] != b[j];
      var x :| 0 <= x < |a| && a[x] == b[i];
      var y :| 0 <= y < |a| && a[y] == b[j];
      assert if x < y then !SameKey(a[x], a[y]) else !SameKey(a[y], a[x]);
    }
  }

  lemma RestoredValue(s: seq<CachedFront>, maxSize: nat, now: int, maxAge: int, k: FrontKey)
    requires RecencyOrdered(s) && DistinctKeys(s)
    ensures var restored := Loaded(Capped(Succeeded(s), maxSize), k, 0, now, maxAge);
            && (forall i :: 0 <= i < |s| && s[i].key == k ==>
                  var ts := s[i].lastSucceeded;
                  restored == if ts != 0 && i < maxSize && now - ts < maxAge then ts else 0)
            && ((forall i :: 0 <= i < |s| ==> s[i].key != k) ==> restored == 0)
  {
    hide *;
    forall i | 0 <= i < |s| && s[i].key == k
      ensures var ts := s[i].lastSucceeded;
              Loaded(Capped(Succeeded(s), maxSize), k, 0, now, maxAge)
              == if ts != 0 && i < maxSize && now - ts < maxAge then ts else 0
    {
      DistinctSaveThenLoad(s, maxSize, now, maxAge, i);
    }
    if forall i :: 0 <= i < |s| ==> s[i].key != k {
      SaveKeepsMostRecent(s, maxSize);
      LoadIgnoresStrangers(Capped(Succeeded(s), maxSize), k, now, maxAge);
    }
  }

  lemma SnapshotMeans(order: seq<Front>, g: Front)
    ensures |Snapshot(order)| == |order|
    ensures forall i :: 0 <= i < |order| ==>
              && (Snapshot(order)[i].key == g.Key() <==> SameKey(order[i], g))
              && Snapshot(order)[i].lastSucceeded == order[i].lastSucceeded
    ensures DistinctFronts(order) ==> DistinctKeys(Snapshot(order))
  {
    forall i | 0 <= i < |order| ensures Snapshot(order)[i] == Entry(order[i]) {
    }
  }

  /** What loading the entries saved from order gives a fresh front with the key of g. */
  ghost predicate RestoredAs(order: seq<Front>, maxSize: nat, now: int, maxAge: int, g: Front, restored: nat)
    reads order
  {
    && (forall i :: 0 <= i < |order| && SameKey(order[i], g) ==>
          var ts := order[i].lastSucceeded;
          restored == if ts != 0 && i < maxSize && now - ts < maxAge then ts else 0)
    && ((forall i :: 0 <= i < |order| ==> !SameKey(order[i], g)) ==> restored == 0)
  }

  lemma SavedMeans(order: seq<Front>, maxSize: nat, now: int, maxAge: int, g: Front)
    requires RecencyOrdered(Snapshot(order)) && DistinctFronts(order)
    ensures RestoredAs(order, maxSize, now, maxAge, g,
                       Loaded(Capped(Succeeded(Snapshot(order)), maxSize), g.Key(), 0, now, maxAge))
  {
    SnapshotMeans(order, g);
    RestoredValue(Snapshot(order), maxSize, now, maxAge, g.Key());
    hide Snapshot, Loaded, Capped, Succeeded, RecencyOrdered, DistinctKeys, DistinctFronts, SameKey;
  }

  /**
   The fronts of one client are saved and those of the next, built afresh, loaded at clock reading now. A
   front then has the timestamp of the old one with its provider, domain and address exactly when that was
   not zero, within the cap of the order they were saved in, and younger than maxAge; otherwise zero.
   */
  method SaveAndLoad(saved: Pool, loaded: Pool, maxSize: nat, now: int, maxAge: int) returns (order: seq<Front>)
    requires saved.Valid() && loaded.Valid()
    requires forall f :: f in loaded.fronts ==> f !in saved.fronts && f.lastSucceeded == 0
    requires DistinctFronts(saved.fronts)
    modifies loaded.fronts`lastSucceeded
    ensures multiset(order) == multiset(saved.fronts) && MostRecentFirst(order)
    ensures forall g :: g in loaded.fronts ==> RestoredAs(order, maxSize, now, maxAge, g, g.lastSucceeded)
  {
    var cached;
    order, cached := SaveCache(saved, maxSize);
    SameFronts(saved.fronts, order);
    forall g | g in loaded.fronts {
      SavedMeans(order, maxSize, now, maxAge, g);
    }
    OrderMeans(order);
    hide *;
    LoadAfterSave(order, loaded, cached, maxSize, now, maxAge);
  }

  method LoadAfterSave(
    ghost order: seq<Front>, loaded: Pool, cached: seq<CachedFront>, ghost maxSize: nat, now: int, maxAge: int)
    requires loaded.Valid() && MostRecentFirst(order)
    requires forall f :: f in loaded.fronts ==> f !in order && f.lastSucceeded == 0
    requires forall g :: g in loaded.fronts ==>
               RestoredAs(order, maxSize, now, maxAge, g, Loaded(cached, g.Key(), 0, now, maxAge))
    modifies loaded.fronts`lastSucceeded
    ensures MostRecentFirst(order)
    ensures forall g :: g in loaded.fronts ==> RestoredAs(order, maxSize, now, maxAge, g, g.lastSucceeded)
  {
    hide Loaded, SameKey, MostRecentFirst, RestoredAs;
    LoadCache(loaded, cached, now, maxAge);
  }
}
