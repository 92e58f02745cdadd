/** Facts about sequences that several components need. */
module Sequences {

  function Flatten<T>(parts: seq<seq<T>>): (r: seq<T>)
  {
    if parts == [] then [] else parts[0] + Flatten(parts[1..])
  }

  lemma {:induction false} FlattenConcat<T>(a: seq<seq<T>>, b: seq<seq<T>>)
    ensures Flatten(a + b) == Flatten(a) + Flatten(b)
  {
    if a == [] {
      assert a + b == b;
    } else {
      assert (a + b)[0] == a[0] && (a + b)[1..] == a[1..] + b;
      FlattenConcat(a[1..], b);
    }
  }

  lemma ConcatAssociative<T>(a: seq<T>, b: seq<T>, c: seq<T>)
    ensures (a + b) + c == a + (b + c)
  {
  }

  lemma SlicesJoin<T>(s: seq<T>, i: nat, j: nat, k: nat)
    requires i <= j <= k <= |s|
    ensures s[i..j] + s[j..k] == s[i..k]
  {
  }

  /** The elements for which `keep` holds, in their order (`retain`, or a filtering comprehension). */
  function Retain<T(!new)>(s: seq<T>, keep: T -> bool): (r: seq<T>)
    ensures |r| <= |s|
    ensures forall x :: x in r <==> x in s && keep(x)
  {
    if s == [] then []
    else if keep(s[0]) then [s[0]] + Retain(s[1..], keep)
    else Retain(s[1..], keep)
  }

  lemma {:induction false} RetainConcat<T(!new)>(a: seq<T>, b: seq<T>, keep: T -> bool)
    ensures Retain(a + b, keep) == Retain(a, keep) + Retain(b, keep)
  {
    if a == [] {
      assert a + b == b;
    } else {
      assert (a + b)[0] == a[0] && (a + b)[1..] == a[1..] + b;
      RetainConcat(a[1..], b, keep);
    }
  }

  ghost function Positions<T>(s: seq<T>, keep: T -> bool): set<int>
  {
    set i | 0 <= i < |s| && keep(s[i])
  }

  lemma PositionsAppend<T>(s: seq<T>, x: T, keep: T -> bool)
    ensures |Positions(s + [x], keep)| == |Positions(s, keep)| + if keep(x) then 1 else 0
  {
    assert Positions(s + [x], keep) == Positions(s, keep) + if keep(x) then {|s|} else {};
    assert |s| !in Positions(s, keep);
  }

  lemma RetainAppend<T(!new)>(s: seq<T>, x: T, keep: T -> bool)
    ensures Retain(s + [x], keep) == Retain(s, keep) + if keep(x) then [x] else []
  {
    RetainConcat(s, [x], keep);
    assert [x][1..] == [];
  }

  /** As many elements are kept as there are positions at which the test holds. */
  lemma {:induction false} RetainCounts<T(!new)>(s: seq<T>, keep: T -> bool)
    ensures |Retain(s, keep)| == |Positions(s, keep)|
    decreases |s|
  {
    hide Positions, Retain;
    if s == [] {
      NoPositions(keep);
    } else {
      var front, x := s[..|s| - 1], s[|s| - 1];
      assert s == front + [x];
      RetainCounts(front, keep);
      RetainAppend(front, x, keep);
      PositionsAppend(front, x, keep);
    }
  }

  lemma NoPositions<T(!new)>(keep: T -> bool)
    ensures Positions([], keep) == {} && Retain([], keep) == []
  {
  }

  lemma {:induction false} RetainAll<T(!new)>(s: seq<T>, keep: T -> bool)
    requires forall x :: x in s ==> keep(x)
    ensures Retain(s, keep) == s
  {
    if s != [] {
      assert forall x :: x in s[1..] ==> x in s;
      RetainAll(s[1..], keep);
    }
  }

  lemma {:induction false} RetainNone<T(!new)>(s: seq<T>, keep: T -> bool)
    requires forall x :: x in s ==> !keep(x)
    ensures Retain(s, keep) == []
  {
    if s != [] {
      RetainNone(s[1..], keep);
    }
  }

  /** What is kept lies in the first n elements when the test holds of none after them. */
  lemma {:induction false} RetainPrefix<T(!new)>(s: seq<T>, n: nat, keep: T -> bool)
    requires n <= |s| && forall i :: n <= i < |s| ==> !keep(s[i])
    ensures Retain(s, keep) == Retain(s[..n], keep)
  {
    assert s == s[..n] + s[n..];
    RetainConcat(s[..n], s[n..], keep);
    RetainNone(s[n..], keep);
  }

  lemma {:induction false} NoneKeptIff<T(!new)>(s: seq<T>, keep: T -> bool)
    ensures Retain(s, keep) == [] <==> forall x :: x in s ==> !keep(x)
  {
    var r := Retain(s, keep);
    if r != [] { assert r[0] in r; }
    if x :| x in s && keep(x) { assert x in r; }
  }

  lemma {:induction false} RetainSame<T(!new)>(s: seq<T>, keep: T -> bool, keep': T -> bool)
    requires forall x :: x in s ==> keep(x) == keep'(x)
    ensures Retain(s, keep) == Retain(s, keep')
  {
    if s != [] {
      assert s[0] in s;
      assert forall x :: x in s[1..] ==> x in s;
      RetainSame(s[1..], keep, keep');
    }
  }

  /** Two passes keep what one pass with both tests keeps. */
  lemma {:induction false} RetainTwice<T(!new)>(s: seq<T>, first: T -> bool, second: T -> bool, both: T -> bool)
    requires forall x :: both(x) == (first(x) && second(x))
    ensures Retain(Retain(s, first), second) == Retain(s, both)
  {
    if s != [] {
      RetainTwice(s[1..], first, second, both);
      if first(s[0]) {
        assert Retain(s, first)[1..] == Retain(s[1..], first);
      }
    }
  }

  /** A test that holds at least as often keeps at least as many. */
  lemma {:induction false} RetainNoFewer<S(!new), T(!new)>(s: seq<S>, keep: S -> bool, t: seq<T>, keep': T -> bool)
    requires |s| == |t|
    requires forall i :: 0 <= i < |s| && keep(s[i]) ==> keep'(t[i])
    ensures |Retain(s, keep)| <= |Retain(t, keep')|
  {
    if s != [] {
      RetainNoFewer(s[1..], keep, t[1..], keep');
    }
  }

  ghost predicate NoDuplicates<T>(s: seq<T>)
  {
    forall i, j :: 0 <= i < j < |s| ==> s[i] != s[j]
  }

  lemma {:induction false} RetainNoDuplicates<T(!new)>(s: seq<T>, keep: T -> bool)
    requires NoDuplicates(s)
    ensures NoDuplicates(Retain(s, keep))
  {
    if s != [] {
      RetainNoDuplicates(s[1..], keep);
      assert s[0] !in s[1..];
    }
  }

  /** No longer keeping the first kept element leaves the rest of what was kept. */
  lemma {:induction false} RetainWithoutFirst<T(!new)>(s: seq<T>, keep: T -> bool, keep': T -> bool)
    requires NoDuplicates(s) && Retain(s, keep) != []
    requires forall x :: x in s ==> (keep'(x) <==> keep(x) && x != Retain(s, keep)[0])
    ensures Retain(s, keep') == Retain(s, keep)[1..]
  {
    var rest := s[1..];
    assert s == [s[0]] + rest;
    if keep(s[0]) {
      assert s[0] !in rest;
      RetainSame(rest, keep, keep');
    } else {
      RetainWithoutFirst(rest, keep, keep');
    }
  }

  function Mapped<S, T>(s: seq<S>, f: S -> T): (r: seq<T>)
    ensures |r| == |s|
  {
    seq(|s|, i requires 0 <= i < |s| => f(s[i]))
  }

  function Sum(s: seq<int>): (r: int)
  {
    if s == [] then 0 else s[0] + Sum(s[1..])
  }

  lemma {:induction false} SumConcat(a: seq<int>, b: seq<int>)
    ensures Sum(a + b) == Sum(a) + Sum(b)
  {
    if a == [] {
      assert a + b == b;
    } else {
      assert (a + b)[0] == a[0] && (a + b)[1..] == a[1..] + b;
      SumConcat(a[1..], b);
    }
  }

  lemma {:induction false} SumUpdate(s: seq<int>, i: nat, x: int)
    requires i < |s|
    ensures Sum(s[i := x]) == Sum(s) - s[i] + x
  {
    assert s == s[..i] + ([s[i]] + s[i + 1..]);
    assert s[i := x] == s[..i] + ([x] + s[i + 1..]);
    SumConcat(s[..i], [s[i]] + s[i + 1..]);
    SumConcat(s[..i], [x] + s[i + 1..]);
  }
}
