/** Small vocabulary shared by the modules of this project. */
module Common {

  datatype Option<+T> = None | Some(value: T)

  /** Identifies a front by its provider, domain and address. */
  datatype FrontKey = FrontKey(provider: string, domain: string, ip: string)

  function Min(a: int, b: int): int {
    if a <= b then a else b
  }

  /** No value occurs at two positions of s. */
  ghost predicate NoDup<T>(s: seq<T>) {
    forall i, j :: 0 <= i < j < |s| ==> s[i] != s[j]
  }

  /** The position of the first element of s that p accepts, or |s| when there is none. */
  function IndexWhere<T>(s: seq<T>, p: T -> bool): (i: nat)
    ensures i <= |s|
    ensures forall j :: 0 <= j < i ==> !p(s[j])
    ensures i < |s| ==> p(s[i])
  {
    if s == [] || p(s[0]) then 0 else 1 + IndexWhere(s[1..], p)
  }

  lemma IndexWhereUnique<T>(s: seq<T>, p: T -> bool, i: nat)
    requires i <= |s|
    requires forall j :: 0 <= j < i ==> !p(s[j])
    requires i < |s| ==> p(s[i])
    ensures IndexWhere(s, p) == i
  {
    var k := IndexWhere(s, p);
    assert forall j :: 0 <= j < i ==> !p(s[j]);
  }

  /** s without every occurrence of x. */
  function Without<T(==, !new)>(s: seq<T>, x: T): (r: seq<T>)
    ensures forall y :: y in r <==> y in s && y != x
  {
    if s == [] then [] else (if s[0] == x then [] else [s[0]]) + Without(s[1..], x)
  }

  /** Pigeonhole: a sequence without repetitions is no longer than a set holding all of it. */
  lemma {:induction false} NoDupFits<T>(s: seq<T>, universe: set<T>)
    requires NoDup(s)
    requires forall x :: x in s ==> x in universe
    ensures |s| <= |universe|
  {
    if s != [] {
      var rest := universe - {s[0]};
      assert forall x :: x in s[1..] ==> x in rest by {
        forall x | x in s[1..] ensures x in rest {
          var j :| 0 <= j < |s[1..]| && s[1..][j] == x;
          assert s[j + 1] == x;
        }
      }
      NoDupFits(s[1..], rest);
    }
  }

  /** A sequence whose multiplicities are all at most one has no repetitions. */
  lemma AtMostOnceIsNoDup<T>(s: seq<T>)
    requires forall x :: multiset(s)[x] <= 1
    ensures NoDup(s)
  {
    forall i, j | 0 <= i < j < |s| ensures s[i] != s[j] {
      assert s == s[..j] + s[j..];
      assert s[i] in s[..j] && s[j] in s[j..];
      assert multiset(s)[s[j]] == multiset(s[..j])[s[j]] + multiset(s[j..])[s[j]];
      assert multiset(s)[s[j]] <= 1;
    }
  }

  lemma {:induction false} NoDupCounts<T>(s: seq<T>, x: T)
    requires NoDup(s)
    ensures multiset(s)[x] == if x in s then 1 else 0
  {
    if s != [] {
      assert s == [s[0]] + s[1..];
      NoDupCounts(s[1..], x);
    }
  }

  /** Taking one element out of a sequence without repetitions leaves none and not that element. */
  lemma NoDupWithout<T>(s: seq<T>, x: T, rest: seq<T>)
    requires NoDup(s) && multiset(rest) + multiset{x} == multiset(s)
    ensures NoDup(rest) && x !in rest && |rest| == |s| - 1
    ensures forall y :: y in rest <==> y in s && y != x
  {
    forall y ensures multiset(rest)[y] == if y in s && y != x then 1 else 0 {
      NoDupCounts(s, y);
      assert multiset(s)[y] == multiset(rest)[y] + multiset{x}[y];
    }
    AtMostOnceIsNoDup(rest);
    assert x !in multiset(rest);
    assert |multiset(s)| == |multiset(rest)| + 1;
    forall y ensures y in rest <==> y in s && y != x {
      assert y in rest <==> y in multiset(rest);
    }
  }

  /** Taking out position i and swapping what is around it loses nothing else. */
  lemma RotatedAround<T>(s: seq<T>, i: nat)
    requires i < |s|
    ensures multiset(s[i + 1..] + s[..i]) + multiset{s[i]} == multiset(s)
  {
    assert s == s[..i] + [s[i]] + s[i + 1..];
    assert multiset(s) == multiset(s[..i]) + multiset{s[i]} + multiset(s[i + 1..]);
  }

  /** A stretch of a sequence without repetitions has none, and shares nothing with what comes later. */
  lemma NoDupStretch<T>(s: seq<T>, lo: nat, hi: nat, later: nat)
    requires NoDup(s) && lo <= hi <= later <= |s|
    ensures NoDup(s[lo..hi])
    ensures forall x :: x in s[lo..hi] ==> x in s && x !in s[later..]
  {
    forall x | x in s[lo..hi] ensures x in s && x !in s[later..] {
      var j :| 0 <= j < hi - lo && s[lo..hi][j] == x;
      assert s[lo + j] == x;
    }
  }
}
