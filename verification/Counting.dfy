/** Filtering, distinctness and pigeonhole facts shared by the readiness verdicts. */
module Counting {

  function Keep<T>(s: seq<T>, p: T -> bool): seq<T> {
    if s == [] then [] else (if p(s[0]) then [s[0]] else []) + Keep(s[1..], p)
  }

  function Each<T, U>(s: seq<T>, f: T -> U): seq<U> {
    if s == [] then [] else [f(s[0])] + Each(s[1..], f)
  }

  predicate Distinct<T(==)>(s: seq<T>) {
    forall i, j :: 0 <= i < j < |s| ==> s[i] != s[j]
  }

  function Members<T>(s: seq<T>): set<T> {
    set x | x in s
  }

  lemma {:induction false} KeepIn<T>(s: seq<T>, p: T -> bool)
    ensures forall x :: x in Keep(s, p) <==> x in s && p(x)
    ensures |Keep(s, p)| <= |s|
  {
    if s != [] {
      KeepIn(s[1..], p);
      assert s == [s[0]] + s[1..];
    }
  }

  /** Filtering twice is filtering once by the narrower test. */
  lemma {:induction false} KeepTwice<T(!new)>(s: seq<T>, p: T -> bool, q: T -> bool)
    requires forall x :: q(x) && x in s ==> p(x)
    ensures Keep(Keep(s, p), q) == Keep(s, q)
  {
    if s != [] {
      KeepTwice(s[1..], p, q);
      var rest := Keep(s[1..], p);
      assert ([s[0]] + rest)[1..] == rest;
      assert Keep(s, p) == if p(s[0]) then [s[0]] + rest else rest;
      assert Keep([s[0]] + rest, q) == (if q(s[0]) then [s[0]] else []) + Keep(rest, q);
    }
  }

  lemma {:induction false} KeepConcat<T>(s: seq<T>, t: seq<T>, p: T -> bool)
    ensures Keep(s + t, p) == Keep(s, p) + Keep(t, p)
  {
    if s == [] {
      assert s + t == t;
    } else {
      assert (s + t)[1..] == s[1..] + t;
      KeepConcat(s[1..], t, p);
      var head := if p(s[0]) then [s[0]] else [];
      assert head + (Keep(s[1..], p) + Keep(t, p)) == head + Keep(s[1..], p) + Keep(t, p);
    }
  }

  lemma KeepCons<T>(x: T, s: seq<T>, p: T -> bool)
    ensures Keep([x] + s, p) == (if p(x) then [x] else []) + Keep(s, p)
  {
    assert ([x] + s)[1..] == s;
  }

  lemma MiddleFirst<T>(a: seq<T>, x: seq<T>, b: seq<T>)
    ensures multiset(a + (x + b)) == multiset(x) + multiset(a + b)
  {
  }

  lemma KeepMiddle<T>(t: seq<T>, i: nat, p: T -> bool)
    requires i < |t|
    ensures multiset(Keep(t, p)) == multiset(if p(t[i]) then [t[i]] else []) + multiset(Keep(t[..i] + t[i+1..], p))
  {
    hide Keep;
    var a, b := t[..i], t[i+1..];
    assert t == a + ([t[i]] + b);
    KeepConcat(a, b, p);
    KeepConcat(a, [t[i]] + b, p);
    KeepCons(t[i], b, p);
    MiddleFirst(Keep(a, p), if p(t[i]) then [t[i]] else [], Keep(b, p));
  }

  /** Filtering does not care about order. */
  lemma {:induction false} KeepPermutes<T>(s: seq<T>, t: seq<T>, p: T -> bool)
    requires multiset(s) == multiset(t)
    ensures multiset(Keep(s, p)) == multiset(Keep(t, p)) && |Keep(s, p)| == |Keep(t, p)|
    decreases |s|
  {
    if s == [] {
      assert |multiset(t)| == 0;
    } else {
      var i := WithoutFirst(s, t);
      KeepPermutes(s[1..], t[..i] + t[i+1..], p);
      KeepMiddle(t, i, p);
    }
    assert |multiset(Keep(s, p))| == |Keep(s, p)| && |multiset(Keep(t, p))| == |Keep(t, p)|;
  }

  lemma {:induction false} EachAt<T, U>(s: seq<T>, f: T -> U)
    ensures |Each(s, f)| == |s| && forall i :: 0 <= i < |s| ==> Each(s, f)[i] == f(s[i])
  {
    if s != [] { EachAt(s[1..], f); }
  }

  lemma {:induction false} EachConcat<T, U>(s: seq<T>, t: seq<T>, f: T -> U)
    ensures Each(s + t, f) == Each(s, f) + Each(t, f)
  {
    if s == [] {
      assert s + t == t;
    } else {
      assert (s + t)[1..] == s[1..] + t;
      EachConcat(s[1..], t, f);
    }
  }

  /** Mapping a permutation gives a permutation. */
  lemma {:induction false} EachPermutes<T, U>(s: seq<T>, t: seq<T>, f: T -> U)
    requires multiset(s) == multiset(t)
    ensures multiset(Each(s, f)) == multiset(Each(t, f))
    decreases |s|
  {
    if s == [] {
      assert |multiset(t)| == 0;
    } else {
      var i := WithoutFirst(s, t);
      EachPermutes(s[1..], t[..i] + t[i+1..], f);
      EachMiddle(t, i, f);
    }
  }

  /** The first element of s sits somewhere in t, and the rest is still a permutation. */
  lemma WithoutFirst<T>(s: seq<T>, t: seq<T>) returns (i: nat)
    requires multiset(s) == multiset(t) && s != []
    ensures i < |t| && t[i] == s[0] && multiset(t[..i] + t[i+1..]) == multiset(s[1..])
  {
    assert s[0] in multiset(s);
    i :| 0 <= i < |t| && t[i] == s[0];
    RestIs(s);
    SplitAt(t, i);
  }

  lemma RestIs<T>(s: seq<T>)
    requires s != []
    ensures multiset(s[1..]) == multiset(s) - multiset{s[0]}
  {
    assert s == [s[0]] + s[1..];
  }

  lemma SplitAt<T>(t: seq<T>, i: nat)
    requires i < |t|
    ensures multiset(t[..i] + t[i+1..]) == multiset(t) - multiset{t[i]}
  {
    assert t == t[..i] + [t[i]] + t[i+1..];
  }

  lemma EachMiddle<T, U>(t: seq<T>, i: nat, f: T -> U)
    requires i < |t|
    ensures multiset(Each(t, f)) == multiset{f(t[i])} + multiset(Each(t[..i] + t[i+1..], f))
  {
    hide Each;
    var a, b := t[..i], t[i+1..];
    assert t == a + ([t[i]] + b);
    EachConcat(a, b, f);
    EachConcat(a, [t[i]] + b, f);
    EachCons(t[i], b, f);
    MiddleFirst(Each(a, f), [f(t[i])], Each(b, f));
  }

  lemma EachCons<T, U>(x: T, s: seq<T>, f: T -> U)
    ensures Each([x] + s, f) == [f(x)] + Each(s, f)
  {
    assert ([x] + s)[1..] == s;
  }

  lemma {:induction false} MembersSize<T>(s: seq<T>)
    ensures |Members(s)| <= |s|
    ensures |Members(s)| == |s| <==> Distinct(s)
  {
    if s == [] {
    } else {
      MembersSize(s[1..]);
      assert Members(s) == {s[0]} + Members(s[1..]);
      if s[0] in s[1..] {
        assert Members(s) == Members(s[1..]);
        var j :| 0 <= j < |s[1..]| && s[1..][j] == s[0];
        assert s[0] == s[j+1];
      } else {
        assert |Members(s)| == 1 + |Members(s[1..])|;
        if Distinct(s[1..]) {
          forall i, j | 0 <= i < j < |s| ensures s[i] != s[j] {
            assert s[j] == s[1..][j-1];
            if i > 0 { assert s[i] == s[1..][i-1]; }
          }
        } else {
          var i, j :| 0 <= i < j < |s[1..]| && s[1..][i] == s[1..][j];
          assert s[i+1] == s[j+1];
        }
      }
    }
  }

  /** Distinctness does not care about order. */
  lemma DistinctPermutes<T>(s: seq<T>, t: seq<T>)
    requires multiset(s) == multiset(t) && Distinct(s)
    ensures Distinct(t)
  {
    MembersSize(s);
    MembersSize(t);
    assert |multiset(s)| == |multiset(t)|;
    assert forall x :: x in s <==> x in multiset(s);
    assert forall x :: x in t <==> x in multiset(t);
    assert Members(s) == Members(t);
  }

  /** Each element names holders; no holder is named twice. */
  ghost predicate Separate<K(!new)>(s: seq<set<K>>, holders: set<K>) {
    && (forall i :: 0 <= i < |s| ==> s[i] * holders != {})
    && (forall i, j, k :: 0 <= i < j < |s| && k in holders ==> !(k in s[i] && k in s[j]))
  }

  /** Pigeonhole: as many elements as holders leaves exactly one holder to each. */
  lemma {:induction false} Pigeonhole<K(!new)>(s: seq<set<K>>, holders: set<K>)
    requires Separate(s, holders)
    ensures |s| <= |holders|
    ensures |s| == |holders| ==> forall i :: 0 <= i < |s| ==> |s[i] * holders| == 1
    decreases |s|
  {
    if s != [] {
      var mine := s[0] * holders;
      var rest := holders - mine;
      assert |holders| == |mine| + |rest| by { assert holders == mine + rest; }
      forall i | 0 <= i < |s[1..]| ensures s[1..][i] * rest == s[1..][i] * holders {
        assert s[1..][i] == s[i+1];
        assert forall k :: k in s[0] && k in holders ==> !(k in s[i+1]);
      }
      Pigeonhole(s[1..], rest);
      assert |mine| >= 1 by { assert mine != {}; }
      if |s| == |holders| {
        forall i | 0 <= i < |s| ensures |s[i] * holders| == 1 {
          if i > 0 { assert s[i] == s[1..][i-1]; }
        }
      }
    }
  }

  /** Exactly one element satisfies p. */
  ghost predicate Single<T(!new)>(s: seq<T>, p: T -> bool) {
    && (exists i :: 0 <= i < |s| && p(s[i]))
    && (forall i, j :: 0 <= i < j < |s| ==> !(p(s[i]) && p(s[j])))
  }

  lemma {:induction false} KeepNone<T(!new)>(s: seq<T>, p: T -> bool)
    ensures |Keep(s, p)| == 0 <==> forall i :: 0 <= i < |s| ==> !p(s[i])
  {
    if s != [] {
      KeepNone(s[1..], p);
      assert forall i :: 0 <= i < |s[1..]| ==> s[1..][i] == s[i+1];
      assert forall i :: 0 < i < |s| ==> s[i] == s[1..][i-1];
    }
  }

  lemma {:induction false} KeepAtMostOne<T(!new)>(s: seq<T>, p: T -> bool)
    ensures |Keep(s, p)| <= 1 <==> forall i, j :: 0 <= i < j < |s| ==> !(p(s[i]) && p(s[j]))
  {
    if s != [] {
      var rest := s[1..];
      KeepAtMostOne(rest, p);
      KeepNone(rest, p);
      if |Keep(s, p)| <= 1 {
        forall i, j | 0 <= i < j < |s| ensures !(p(s[i]) && p(s[j])) {
          assert s[j] == rest[j-1];
          if i > 0 { assert s[i] == rest[i-1]; }
        }
      } else if |Keep(rest, p)| <= 1 {
        assert p(s[0]);
        var j :| 0 <= j < |rest| && p(rest[j]);
        assert s[j+1] == rest[j];
      } else {
        var i, j :| 0 <= i < j < |rest| && p(rest[i]) && p(rest[j]);
        assert s[i+1] == rest[i] && s[j+1] == rest[j];
      }
    }
  }

  /** `len(values) == 1` says exactly that. */
  lemma KeepSingle<T(!new)>(s: seq<T>, p: T -> bool)
    ensures |Keep(s, p)| == 1 <==> Single(s, p)
    ensures |Keep(s, p)| == 0 <==> forall i :: 0 <= i < |s| ==> !p(s[i])
    ensures |Keep(s, p)| <= 1 <==> forall i, j :: 0 <= i < j < |s| ==> !(p(s[i]) && p(s[j]))
  {
    hide Keep;
    KeepNone(s, p);
    KeepAtMostOne(s, p);
  }
}
