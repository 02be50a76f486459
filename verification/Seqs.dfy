/** Sequence and set facts shared by the models of the update graph. */
module Seqs {

  datatype Option<+T> = None | Some(value: T)

  datatype Result<+T, +E> = Ok(value: T) | Err(error: E)

  function Last<T>(s: seq<T>): T
    requires s != []
  {
    s[|s| - 1]
  }

  /** The elements of `s` that belong to `keep`, in their original order. */
  function Restrict<T(==)>(s: seq<T>, keep: set<T>): seq<T> {
    if s == [] then []
    else
      var init := Restrict(s[..|s| - 1], keep);
      if Last(s) in keep then init + [Last(s)] else init
  }

  lemma {:induction false} RestrictMember<T>(s: seq<T>, keep: set<T>, x: T)
    ensures x in Restrict(s, keep) <==> x in s && x in keep
  {
    if s != [] {
      RestrictMember(s[..|s| - 1], keep, x);
      assert s == s[..|s| - 1] + [Last(s)];
    }
  }

  lemma RestrictStep<T>(s: seq<T>, i: nat, keep: set<T>)
    requires i < |s|
    ensures Restrict(s[..i + 1], keep)
         == Restrict(s[..i], keep) + (if s[i] in keep then [s[i]] else [])
  {
    assert s[..i + 1][..i] == s[..i];
  }

  lemma {:induction false} RestrictTwice<T>(s: seq<T>, a: set<T>, b: set<T>)
    ensures Restrict(Restrict(s, a), b) == Restrict(s, a * b)
  {
    if s != [] {
      var init := s[..|s| - 1];
      RestrictTwice(init, a, b);
      if Last(s) in a {
        var r := Restrict(init, a);
        assert (r + [Last(s)])[..|r|] == r;
      }
    }
  }

  lemma {:induction false} RestrictAll<T>(s: seq<T>, keep: set<T>)
    requires forall x :: x in s ==> x in keep
    ensures Restrict(s, keep) == s
  {
    if s != [] {
      RestrictAll(s[..|s| - 1], keep);
    }
  }

  lemma {:induction false} RestrictAgree<T>(s: seq<T>, a: set<T>, b: set<T>)
    requires forall x :: x in s ==> (x in a <==> x in b)
    ensures Restrict(s, a) == Restrict(s, b)
  {
    if s != [] {
      RestrictAgree(s[..|s| - 1], a, b);
    }
  }

  lemma {:induction false} RestrictConcat<T>(s: seq<T>, t: seq<T>, keep: set<T>)
    ensures Restrict(s + t, keep) == Restrict(s, keep) + Restrict(t, keep)
  {
    if t == [] {
      assert s + t == s;
    } else {
      RestrictConcat(s, t[..|t| - 1], keep);
      assert (s + t)[..|s + t| - 1] == s + t[..|t| - 1];
    }
  }

  ghost predicate Distinct<T>(s: seq<T>) {
    forall i, j :: 0 <= i < j < |s| ==> s[i] != s[j]
  }

  /** Pigeonhole: a duplicate-free list drawn from a set is no longer than the set. */
  lemma {:induction false} DistinctBound<T(!new)>(s: seq<T>, from: set<T>)
    requires Distinct(s)
    requires forall x :: x in s ==> x in from
    ensures |s| <= |from|
  {
    if s != [] {
      var init := s[..|s| - 1];
      forall x | x in init ensures x in from - {Last(s)} {
        var i :| 0 <= i < |init| && init[i] == x;
        assert s[i] != s[|s| - 1];
      }
      DistinctBound(init, from - {Last(s)});
    }
  }

  function Flatten<T>(ss: seq<seq<T>>): seq<T> {
    if ss == [] then [] else Flatten(ss[..|ss| - 1]) + Last(ss)
  }

  lemma FlattenStep<T>(ss: seq<seq<T>>, i: nat)
    requires i < |ss|
    ensures Flatten(ss[..i + 1]) == Flatten(ss[..i]) + ss[i]
  {
    assert ss[..i + 1][..i] == ss[..i];
  }

  /** How many of the first `n` sequences have an element. */
  function FilledBefore<T(==)>(ss: seq<seq<T>>, n: nat): nat
    requires n <= |ss|
  {
    if n == 0 then 0 else FilledBefore(ss, n - 1) + if ss[n - 1] == [] then 0 else 1
  }

  lemma {:induction false} FlattenSize<T>(ss: seq<seq<T>>, n: nat)
    requires n <= |ss| && forall k :: 0 <= k < |ss| ==> |ss[k]| <= 1
    ensures |Flatten(ss[..n])| == FilledBefore(ss, n)
  {
    if n > 0 {
      FlattenSize(ss, n - 1);
      FlattenStep(ss, n - 1);
    }
  }

  /** Of sequences with one element at most, each element stands behind those before it. */
  lemma {:induction false} FlattenPlace<T>(ss: seq<seq<T>>, i: nat, n: nat)
    requires i < n <= |ss| && forall k :: 0 <= k < |ss| ==> |ss[k]| <= 1
    ensures ss[i] != [] ==>
              && FilledBefore(ss, i) < FilledBefore(ss, n) == |Flatten(ss[..n])|
              && [Flatten(ss[..n])[FilledBefore(ss, i)]] == ss[i]
  {
    FlattenSize(ss, n - 1);
    FlattenStep(ss, n - 1);
    FlattenSize(ss, n);
    if i < n - 1 {
      FlattenPlace(ss, i, n - 1);
    }
  }

  lemma {:induction false} FlattenMember<T>(ss: seq<seq<T>>, x: T)
    ensures x in Flatten(ss) <==> exists i :: 0 <= i < |ss| && x in ss[i]
  {
    if ss != [] {
      FlattenMember(ss[..|ss| - 1], x);
      assert ss == ss[..|ss| - 1] + [Last(ss)];
      assert forall i :: 0 <= i < |ss| - 1 ==> ss[..|ss| - 1][i] == ss[i];
    }
  }

  lemma {:induction false} FlattenEmpty<T>(ss: seq<seq<T>>)
    ensures Flatten(ss) == [] <==> forall i :: 0 <= i < |ss| ==> ss[i] == []
  {
    if ss != [] {
      FlattenEmpty(ss[..|ss| - 1]);
      assert forall i :: 0 <= i < |ss| - 1 ==> ss[..|ss| - 1][i] == ss[i];
    }
  }

  lemma {:induction false} RestrictNone<T>(s: seq<T>, keep: set<T>)
    requires forall x :: x in s ==> x !in keep
    ensures Restrict(s, keep) == []
  {
    if s != [] {
      RestrictNone(s[..|s| - 1], keep);
    }
  }

  /** What holds at first and is kept by every step up to `n` holds after them. */
  lemma {:induction false} Stepwise(p: nat -> bool, n: nat)
    requires p(0) && forall i: nat :: i < n && p(i) ==> p(i + 1)
    ensures p(n)
  {
    if n > 0 {
      Stepwise(p, n - 1);
    }
  }
}
