/** sort.Strings on the keys of a set. */
module Sorting {
  import opened Text

  /** The order of strings: by the first character that differs, a prefix first. */
  predicate Less(a: string, b: string) {
    if b == "" then false
    else if a == "" then true
    else if a[0] == b[0] then Less(a[1..], b[1..])
    else a[0] < b[0]
  }

  /** The two agree on their first k characters; there a ends and b goes on, or a's next character is the smaller. */
  ghost predicate Parts(a: string, b: string, k: nat) {
    && k <= |a| && k < |b| && a[..k] == b[..k]
    && (k < |a| ==> a[k] < b[k])
  }

  lemma {:induction false} LessExactly(a: string, b: string)
    ensures Less(a, b) <==> exists k: nat :: Parts(a, b, k)
  {
    if a == "" && b != "" {
      assert Parts(a, b, 0);
    } else if a != "" && b != "" {
      if a[0] == b[0] {
        LessExactly(a[1..], b[1..]);
        PartsTail(a, b);
      } else if a[0] < b[0] {
        assert Parts(a, b, 0);
      } else {
        assert forall k: nat :: k > 0 && k <= |a| && k < |b| ==> a[..k][0] == a[0] && b[..k][0] == b[0];
      }
    }
  }

  lemma PartsTail(a: string, b: string)
    requires a != "" && b != "" && a[0] == b[0]
    ensures (exists k: nat :: Parts(a, b, k)) <==> exists k: nat :: Parts(a[1..], b[1..], k)
  {
    if k: nat :| Parts(a, b, k) {
      assert k > 0 && a[1..][..k - 1] == a[..k][1..] && b[1..][..k - 1] == b[..k][1..];
      assert Parts(a[1..], b[1..], k - 1);
    }
    if k: nat :| Parts(a[1..], b[1..], k) {
      assert a[..k + 1] == [a[0]] + a[1..][..k] && b[..k + 1] == [b[0]] + b[1..][..k];
      assert Parts(a, b, k + 1);
    }
  }

  ghost predicate Ascends(s: seq<string>) {
    forall i, j :: 0 <= i < j < |s| ==> Less(s[i], s[j])
  }

  lemma {:induction false} LessTotal(a: string, b: string)
    ensures a == b || Less(a, b) || Less(b, a)
    ensures Less(a, b) ==> a != b && !Less(b, a)
  {
    if a != "" && b != "" && a[0] == b[0] {
      LessTotal(a[1..], b[1..]);
      assert a == [a[0]] + a[1..] && b == [b[0]] + b[1..];
    }
  }

  lemma {:induction false} LessTransitive(a: string, b: string, c: string)
    requires Less(a, b) && Less(b, c)
    ensures Less(a, c)
  {
    if a != "" && a[0] == b[0] == c[0] {
      LessTransitive(a[1..], b[1..], c[1..]);
    }
  }

  /** t at its place in an ascending list, once. */
  function Insert(s: seq<string>, t: string): (r: seq<string>)
    ensures forall x :: x in r <==> x in s || x == t
  {
    if s == [] then [t]
    else
      assert s == [s[0]] + s[1..];
      if s[0] == t then s
      else if Less(t, s[0]) then [t] + s
      else [s[0]] + Insert(s[1..], t)
  }

  lemma {:induction false} InsertAscends(s: seq<string>, t: string)
    requires Ascends(s)
    ensures Ascends(Insert(s, t))
  {
    hide Less;
    if s != [] && s[0] != t {
      LessTotal(t, s[0]);
      if Less(t, s[0]) {
        forall j | 0 < j < |s| ensures Less(t, s[j]) {
          LessTransitive(t, s[0], s[j]);
        }
      } else {
        var rest := Insert(s[1..], t);
        InsertAscends(s[1..], t);
        forall j | 0 <= j < |rest| ensures Less(s[0], rest[j]) {
          assert rest[j] in rest;
          assert rest[j] in s[1..] ==> exists k :: 1 <= k < |s| && s[k] == rest[j];
        }
      }
    }
  }

  /** Two ascending lists of the same strings are the same list. */
  lemma {:induction false} AscendingUnique(a: seq<string>, b: seq<string>)
    requires Ascends(a) && Ascends(b) && forall x :: x in a <==> x in b
    ensures a == b
  {
    if a != [] { assert a[0] in b; }
    if b != [] { assert b[0] in a; }
    if a != [] {
      SameHead(a, b);
      assert forall x :: x in a[1..] <==> x in b[1..] by {
        TailMembers(a);
        TailMembers(b);
      }
      AscendingUnique(a[1..], b[1..]);
      assert a == [a[0]] + a[1..] && b == [b[0]] + b[1..];
    }
  }

  lemma TailMembers(a: seq<string>)
    requires Ascends(a) && a != []
    ensures forall x :: x in a[1..] <==> x in a && x != a[0]
  {
    forall j | 0 < j < |a| ensures a[j] != a[0] {
      LessTotal(a[0], a[j]);
    }
    assert a == [a[0]] + a[1..];
    hide Less;
  }

  lemma SameHead(a: seq<string>, b: seq<string>)
    requires Ascends(a) && Ascends(b) && a != [] && b != [] && forall x :: x in a <==> x in b
    ensures a[0] == b[0]
  {
    assert a[0] in b && b[0] in a;
    var i :| 0 <= i < |b| && b[i] == a[0];
    var j :| 0 <= j < |a| && a[j] == b[0];
    LessTotal(a[0], b[0]);
    hide Less;
  }

  /** joinSet: the keys, in whatever order the map gives them, sorted and joined. */
  method JoinSet(keys: set<string>) returns (r: string)
    ensures forall s :: Ascends(s) && (forall x :: x in s <==> x in keys) ==> r == Join(s, ", ")
  {
    hide Less, Join;
    var out: seq<string> := [];
    var left := keys;
    while left != {}
      invariant Ascends(out) && left <= keys
      invariant forall x :: x in out <==> x in keys && x !in left
      decreases |left|
    {
      var k :| k in left;
      InsertAscends(out, k);
      out := Insert(out, k);
      left := left - {k};
    }
    r := Join(out, ", ");
    forall s | Ascends(s) && (forall x :: x in s <==> x in keys) ensures r == Join(s, ", ") {
      AscendingUnique(s, out);
    }
  }
}
