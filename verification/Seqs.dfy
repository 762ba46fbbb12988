/** Facts about sequences that the queue and the pipeline share. */
module Seqs {

  ghost predicate NoDup<T>(s: seq<T>) {
    forall i, j :: 0 <= i < j < |s| ==> s[i] != s[j]
  }

  /** The first position of x in s, or -1. */
  function IndexOf<T(==)>(s: seq<T>, x: T): (i: int)
    ensures -1 <= i < |s|
    ensures i >= 0 ==> s[i] == x && forall j :: 0 <= j < i ==> s[j] != x
    ensures i == -1 <==> x !in s
  {
    if s == [] then -1
    else if s[0] == x then 0
    else
      var i := IndexOf(s[1..], x);
      assert forall j :: 1 <= j < |s| ==> s[j] == s[1..][j - 1];
      if i < 0 then -1 else i + 1
  }

  /** s without the first occurrence of x. */
  function RemoveFirst<T(==)>(s: seq<T>, x: T): (r: seq<T>)
    ensures |r| == if x in s then |s| - 1 else |s|
  {
    if s == [] then []
    else if s[0] == x then s[1..]
    else
      assert s == [s[0]] + s[1..];
      [s[0]] + RemoveFirst(s[1..], x)
  }

  /** The last n elements of s, or all of them when there are fewer. */
  function Last<T>(s: seq<T>, n: nat): (r: seq<T>)
    ensures |r| == if |s| < n then |s| else n
  {
    if |s| <= n then s else s[|s| - n..]
  }

  lemma LastIsSuffix<T>(s: seq<T>, n: nat)
    ensures s == s[..|s| - |Last(s, n)|] + Last(s, n)
  {
  }

  lemma LastOfLast<T>(s: seq<T>, n: nat, x: T)
    ensures Last(Last(s, n) + [x], n) == Last(s + [x], n)
  {
  }

  /** s without the elements of hidden, in the same order. */
  function Without<T(==,!new)>(s: seq<T>, hidden: set<T>): (r: seq<T>)
    ensures |r| <= |s|
    ensures forall x :: x in r <==> x in s && x !in hidden
  {
    if s == [] then []
    else
      assert s == [s[0]] + s[1..];
      (if s[0] in hidden then [] else [s[0]]) + Without(s[1..], hidden)
  }

  lemma {:induction false} IndexOfTail<T>(s: seq<T>, x: T)
    requires x in s
    ensures if s[0] == x then IndexOf(s, x) == 0
            else x in s[1..] && IndexOf(s, x) == IndexOf(s[1..], x) + 1
                 && s[..IndexOf(s, x)] == [s[0]] + s[1..][..IndexOf(s[1..], x)]
  {
  }

  lemma NoDupConcat<T>(s: seq<T>, t: seq<T>)
    ensures NoDup(s + t) <==> NoDup(s) && NoDup(t) && forall x :: x in s ==> x !in t
  {
    var u := s + t;
    assert forall i :: 0 <= i < |s| ==> u[i] == s[i];
    assert forall j :: 0 <= j < |t| ==> u[|s| + j] == t[j];
    if NoDup(s) && NoDup(t) && forall x :: x in s ==> x !in t {
      forall i, j | 0 <= i < j < |u| ensures u[i] != u[j] {
        if i < |s| <= j {
          assert u[i] in s && u[j] == t[j - |s|];
        } else if |s| <= i {
          assert u[i] == t[i - |s|] && u[j] == t[j - |s|];
        }
      }
    }
  }

  lemma {:induction false} IndexOfAppend<T>(s: seq<T>, t: seq<T>, x: T)
    ensures x in s ==> IndexOf(s + t, x) == IndexOf(s, x)
    ensures x !in s && x in t ==> IndexOf(s + t, x) == |s| + IndexOf(t, x)
  {
    if s == [] {
      assert s + t == t;
    } else {
      assert (s + t)[1..] == s[1..] + t;
      IndexOfAppend(s[1..], t, x);
    }
  }

  lemma {:induction false} RemoveFirstAt<T>(s: seq<T>, x: T)
    requires x in s
    ensures var i := IndexOf(s, x); RemoveFirst(s, x) == s[..i] + s[i + 1..]
  {
    if s[0] != x {
      var rest := s[1..];
      RemoveFirstAt(rest, x);
      var i := IndexOf(rest, x);
      assert s[..i + 1] == [s[0]] + rest[..i];
      assert s[i + 2..] == rest[i + 1..];
    }
  }

  lemma {:induction false} RemoveFirstAbsent<T>(s: seq<T>, x: T)
    requires x !in s
    ensures RemoveFirst(s, x) == s
  {
    if s != [] {
      RemoveFirstAbsent(s[1..], x);
    }
  }

  lemma {:induction false} RemoveFirstAppend<T>(s: seq<T>, t: seq<T>, x: T)
    ensures x in s ==> RemoveFirst(s + t, x) == RemoveFirst(s, x) + t
    ensures x !in s ==> RemoveFirst(s + t, x) == s + RemoveFirst(t, x)
  {
    if s == [] {
      assert s + t == t;
    } else {
      assert (s + t)[1..] == s[1..] + t;
      if s[0] != x {
        RemoveFirstAppend(s[1..], t, x);
      }
    }
  }

  lemma RemoveFirstMembers<T(!new)>(s: seq<T>, x: T)
    requires NoDup(s)
    ensures forall y :: y in RemoveFirst(s, x) <==> y in s && y != x
  {
    if x !in s {
      RemoveFirstAbsent(s, x);
    } else {
      RemoveFirstAt(s, x);
      var i := IndexOf(s, x);
      assert forall j :: 0 <= j < |s| && j != i ==> s[j] != x;
    }
  }

  /** Removing an element never moves another one backwards. */
  lemma {:induction false} RemoveFirstIndex<T>(s: seq<T>, x: T, y: T)
    requires y in s && y != x
    ensures y in RemoveFirst(s, x) && IndexOf(RemoveFirst(s, x), y) <= IndexOf(s, y)
  {
    if s[0] != x && s[0] != y {
      RemoveFirstIndex(s[1..], x, y);
    }
  }

  lemma WithoutCons<T(!new)>(x: T, s: seq<T>, hidden: set<T>)
    ensures Without([x] + s, hidden) == (if x in hidden then [] else [x]) + Without(s, hidden)
  {
    assert ([x] + s)[1..] == s;
  }

  lemma {:induction false} WithoutAppend<T(!new)>(s: seq<T>, t: seq<T>, hidden: set<T>)
    ensures Without(s + t, hidden) == Without(s, hidden) + Without(t, hidden)
  {
    if s == [] {
      assert s + t == t;
    } else {
      assert (s + t)[1..] == s[1..] + t;
      WithoutAppend(s[1..], t, hidden);
    }
  }

  lemma {:induction false} WithoutRemoved<T(!new)>(s: seq<T>, x: T, hidden: set<T>)
    requires x in hidden
    ensures Without(RemoveFirst(s, x), hidden) == Without(s, hidden)
  {
    if s != [] && s[0] != x {
      var r := RemoveFirst(s, x);
      assert r[1..] == RemoveFirst(s[1..], x);
      WithoutRemoved(s[1..], x, hidden);
    }
  }

  /** Only the hidden elements that occur in s matter. */
  lemma {:induction false} WithoutCongruence<T(!new)>(s: seq<T>, h: set<T>, k: set<T>)
    requires forall x :: x in s ==> (x in h <==> x in k)
    ensures Without(s, h) == Without(s, k)
  {
    if s != [] {
      WithoutCongruence(s[1..], h, k);
    }
  }

  /** How many places of s hold an element of hidden. */
  function CountIn<T(==,!new)>(s: seq<T>, hidden: set<T>): (n: nat)
    ensures n <= |s|
    ensures n == 0 <==> forall x :: x in s ==> x !in hidden
    ensures |Without(s, hidden)| + n == |s|
  {
    if s == [] then 0
    else
      assert s == [s[0]] + s[1..];
      (if s[0] in hidden then 1 else 0) + CountIn(s[1..], hidden)
  }

  ghost function Places<T>(s: seq<T>, p: T -> bool): set<nat> {
    set i: nat | i < |s| && p(s[i])
  }

  /** How many places of s hold an element that p accepts. */
  ghost function Count<T>(s: seq<T>, p: T -> bool): nat {
    |Places(s, p)|
  }

  lemma CountStep<T>(s: seq<T>, x: T, p: T -> bool)
    ensures Count([], p) == 0
    ensures Count(s + [x], p) == Count(s, p) + (if p(x) then 1 else 0)
  {
    var none: seq<T> := [];
    assert Places(none, p) == {};
    assert Places(s + [x], p) == Places(s, p) + (if p(x) then {|s|} else {});
  }

  lemma UnionSize<T>(a: set<T>, b: set<T>)
    ensures |a + b| <= |a| + |b|
  {
  }

  /** A sequence has at most as many distinct elements as places. */
  lemma {:induction false} ElementsSize<T>(s: seq<T>)
    ensures |(set x | x in s)| <= |s|
  {
    if s != [] {
      var n := |s| - 1;
      assert s == s[..n] + [s[n]];
      ElementsSize(s[..n]);
      UnionSize((set y | y in s[..n]), {s[n]});
      assert (set y | y in s) == (set y | y in s[..n]) + {s[n]};
    }
  }
}
