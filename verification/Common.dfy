/** Vocabulary shared by every module: optional values and multiset sums over sequences. */
module Common {

  datatype Option<+T> = None | Some(value: T) {
    function GetOr(default: T): T {
      match this
      case Some(v) => v
      case None => default
    }
  }

  function Abs(x: real): real { if x < 0.0 then -x else x }

  /** What f yields for each element of s, one after another. */
  ghost function Collect<T(!new), R>(s: seq<T>, f: T -> seq<R>): seq<R> {
    if s == [] then [] else Collect(s[..|s| - 1], f) + f(s[|s| - 1])
  }

  lemma CollectStep<T(!new), R>(s: seq<T>, i: nat, f: T -> seq<R>)
    requires i < |s|
    ensures Collect(s[..i + 1], f) == Collect(s[..i], f) + f(s[i])
  {
    assert s[..i + 1][..i] == s[..i];
  }

  lemma CollectAll<T(!new), R>(s: seq<T>, f: T -> seq<R>)
    ensures Collect(s[..|s|], f) == Collect(s, f)
  {
    assert s[..|s|] == s;
  }

  lemma {:induction false} CollectConcat<T(!new), R>(s: seq<T>, t: seq<T>, f: T -> seq<R>)
    ensures Collect(s + t, f) == Collect(s, f) + Collect(t, f)
  {
    if t == [] {
      assert s + t == s;
    } else {
      assert (s + t)[..|s + t| - 1] == s + t[..|t| - 1];
      CollectConcat(s, t[..|t| - 1], f);
    }
  }

  lemma {:induction false} CollectCongruent<T(!new), R>(s: seq<T>, f: T -> seq<R>, g: T -> seq<R>)
    requires forall x :: x in s ==> f(x) == g(x)
    ensures Collect(s, f) == Collect(s, g)
  {
    if s != [] {
      CollectCongruent(s[..|s| - 1], f, g);
    }
  }

  lemma {:induction false} CollectEmpty<T(!new), R>(s: seq<T>, f: T -> seq<R>)
    ensures Collect(s, f) == [] <==> forall x :: x in s ==> f(x) == []
  {
    if s != [] {
      var front, last := s[..|s| - 1], s[|s| - 1];
      assert s == front + [last];
      CollectEmpty(front, f);
    }
  }

  lemma {:induction false} CollectMember<T(!new), R>(s: seq<T>, f: T -> seq<R>, r: R)
    ensures r in Collect(s, f) <==> exists x :: x in s && r in f(x)
  {
    if s != [] {
      var front, last := s[..|s| - 1], s[|s| - 1];
      assert s == front + [last];
      CollectMember(front, f, r);
    }
  }

  function Without<T>(s: seq<T>, i: nat): seq<T>
    requires i < |s|
  {
    s[..i] + s[i + 1..]
  }

  lemma WithoutMultiset<T>(s: seq<T>, i: nat)
    requires i < |s|
    ensures multiset(Without(s, i)) == multiset(s) - multiset{s[i]}
  {
    assert s == s[..i] + [s[i]] + s[i + 1..];
  }

  lemma MiddleOut<R>(a: seq<R>, b: seq<R>, c: seq<R>)
    ensures multiset(a + b + c) == multiset(a + c) + multiset(b)
  {}

  lemma CollectAround<T(!new), R>(s: seq<T>, i: nat, f: T -> seq<R>)
    requires i < |s|
    ensures Collect(s, f) == Collect(s[..i], f) + f(s[i]) + Collect(s[i + 1..], f)
  {
    assert s == s[..i + 1] + s[i + 1..];
    CollectConcat(s[..i + 1], s[i + 1..], f);
    CollectStep(s, i, f);
  }

  /** Taking one element out takes out what it yields. */
  lemma CollectWithout<T(!new), R>(s: seq<T>, i: nat, f: T -> seq<R>)
    requires i < |s|
    ensures multiset(Collect(s, f)) == multiset(Collect(Without(s, i), f)) + multiset(f(s[i]))
  {
    CollectAround(s, i, f);
    CollectConcat(s[..i], s[i + 1..], f);
    MiddleOut(Collect(s[..i], f), f(s[i]), Collect(s[i + 1..], f));
  }

  /** As a multiset, what is collected does not depend on the order of the elements. */
  lemma {:induction false} CollectPermuted<T(!new), R>(s: seq<T>, t: seq<T>, f: T -> seq<R>)
    requires multiset(s) == multiset(t)
    ensures multiset(Collect(s, f)) == multiset(Collect(t, f))
    decreases |s|
  {
    assert |multiset(s)| == |s| && |multiset(t)| == |t|;
    if s != [] {
      var i := IndexOfCommon(s, t);
      WithoutMultiset(s, 0);
      WithoutMultiset(t, i);
      CollectPermuted(Without(s, 0), Without(t, i), f);
      CollectWithout(s, 0, f);
      CollectWithout(t, i, f);
    }
  }

  lemma {:induction false} IndexOfCommon<T>(s: seq<T>, t: seq<T>) returns (i: nat)
    requires multiset(s) == multiset(t) && s != []
    ensures i < |t| && t[i] == s[0]
  {
    assert s[0] in multiset(s);
    assert s[0] in multiset(t);
    i :| 0 <= i < |t| && t[i] == s[0];
  }

  // ---------------------------------------------------------------- distinct elements

  ghost predicate Distinct<T>(s: seq<T>) {
    forall i, j :: 0 <= i < j < |s| ==> s[i] != s[j]
  }

  ghost function ToSet<T>(s: seq<T>): set<T> { set x | x in s }

  /** A sequence has as many elements as its set exactly when none repeats. */
  lemma {:induction false} DistinctSize<T>(s: seq<T>)
    ensures |ToSet(s)| <= |s|
    ensures Distinct(s) <==> |ToSet(s)| == |s|
  {
    if s != [] {
      var front, last := s[..|s| - 1], s[|s| - 1];
      assert s == front + [last];
      DistinctSize(front);
      if last in front {
        assert ToSet(s) == ToSet(front);
      } else {
        assert ToSet(s) == ToSet(front) + {last};
        assert Distinct(s) <==> Distinct(front);
      }
    }
  }

  lemma {:induction false} SubsetOfEqualSize<T>(a: set<T>, b: set<T>)
    requires a <= b && |b| <= |a|
    ensures a == b
  {
    if x :| x in b && x !in a {
      assert a <= b - {x};
      SubsetSize(a, b - {x});
    }
  }

  lemma {:induction false} SubsetSize<T>(a: set<T>, b: set<T>)
    requires a <= b
    ensures |a| <= |b|
  {
    if a != {} {
      var x :| x in a;
      SubsetSize(a - {x}, b - {x});
    }
  }

  ghost function Map<T(!new), R>(s: seq<T>, f: T -> R): seq<R> {
    seq(|s|, i requires 0 <= i < |s| => f(s[i]))
  }

  function Sum(s: seq<real>): real {
    if s == [] then 0.0 else Sum(s[..|s| - 1]) + s[|s| - 1]
  }

  lemma {:induction false} SumWithout(s: seq<real>, i: nat)
    requires i < |s|
    ensures Sum(s) == Sum(Without(s, i)) + s[i]
  {
    if i == |s| - 1 {
      assert Without(s, i) == s[..|s| - 1];
    } else {
      SumWithout(s[..|s| - 1], i);
      assert Without(s, i)[..|s| - 2] == Without(s[..|s| - 1], i);
    }
  }

  /** n copies of x added up. */
  function Times(n: nat, x: real): real {
    if n == 0 then 0.0 else Times(n - 1, x) + x
  }

  lemma {:induction false} TimesOne(n: nat)
    ensures Times(n, 1.0) == n as real
  {
    if n > 0 { TimesOne(n - 1); }
  }

  /** How often x occurs in s. */
  ghost function Count<T>(s: seq<T>, x: T): nat {
    if s == [] then 0 else Count(s[..|s| - 1], x) + if s[|s| - 1] == x then 1 else 0
  }

  lemma {:induction false} CountConcat<T>(s: seq<T>, t: seq<T>, x: T)
    ensures Count(s + t, x) == Count(s, x) + Count(t, x)
  {
    if t == [] {
      assert s + t == s;
    } else {
      assert (s + t)[..|s + t| - 1] == s + t[..|t| - 1];
      CountConcat(s, t[..|t| - 1], x);
    }
  }

  lemma {:induction false} CountMember<T>(s: seq<T>, x: T)
    ensures Count(s, x) > 0 <==> x in s
  {
    if s != [] {
      CountMember(s[..|s| - 1], x);
      assert s == s[..|s| - 1] + [s[|s| - 1]];
    }
  }

  // ---------------------------------------------------------------- sums over finite sets

  ghost function SumOver<T(!new)>(s: set<T>, f: T -> real): real {
    if s == {} then 0.0 else var x :| x in s; SumOver(s - {x}, f) + f(x)
  }

  lemma {:induction false} SumRemove<T(!new)>(s: set<T>, x: T, f: T -> real)
    requires x in s
    ensures SumOver(s, f) == SumOver(s - {x}, f) + f(x)
    decreases |s|
  {
    var y :| y in s && SumOver(s, f) == SumOver(s - {y}, f) + f(y);
    if y != x {
      SumRemove(s - {y}, x, f);
      SumRemove(s - {x}, y, f);
      assert s - {x} - {y} == s - {y} - {x};
    }
  }

  lemma SumAdd<T(!new)>(s: set<T>, x: T, f: T -> real)
    requires x !in s
    ensures SumOver(s + {x}, f) == SumOver(s, f) + f(x)
  {
    SumRemove(s + {x}, x, f);
    assert s + {x} - {x} == s;
  }

  /** Fewer elements, none heavier, none negative. */
  lemma {:induction false} SumLess<T(!new)>(a: set<T>, b: set<T>, f: T -> real, g: T -> real)
    requires a <= b
    requires forall x :: x in b ==> g(x) >= 0.0
    requires forall x :: x in a ==> f(x) <= g(x)
    ensures SumOver(a, f) <= SumOver(b, g)
    decreases |b|
  {
    if b != {} {
      var x :| x in b;
      SumRemove(b, x, g);
      SumLess(a - {x}, b - {x}, f, g);
      if x in a { SumRemove(a, x, f); } else { assert a - {x} == a; }
    }
  }

  lemma {:induction false} SumDisjoint<T(!new)>(a: set<T>, b: set<T>, f: T -> real)
    requires a !! b
    ensures SumOver(a + b, f) == SumOver(a, f) + SumOver(b, f)
    decreases |b|
  {
    if b == {} {
      assert a + b == a;
    } else {
      var x :| x in b;
      SumRemove(b, x, f);
      SumRemove(a + b, x, f);
      assert a + b - {x} == a + (b - {x});
      SumDisjoint(a, b - {x}, f);
    }
  }

  ghost function Ones<T(!new)>(): T -> real { (x: T) => 1.0 }

  lemma {:induction false} SumOfOnes<T(!new)>(s: set<T>)
    ensures SumOver(s, Ones()) == |s| as real
  {
    if s != {} {
      var x :| x in s;
      SumRemove(s, x, Ones());
      SumOfOnes(s - {x});
    }
  }

  /** n elements of at most m each. */
  lemma {:induction false} SumAtMost<T(!new)>(s: set<T>, f: T -> real, m: real)
    requires forall x :: x in s ==> f(x) <= m
    ensures SumOver(s, f) <= Times(|s|, m)
  {
    if s != {} {
      var x :| x in s;
      SumRemove(s, x, f);
      SumAtMost(s - {x}, f, m);
    }
  }

  lemma {:induction false} TimesMonotone(j: nat, k: nat, m: real)
    requires j <= k && m >= 0.0
    ensures Times(j, m) <= Times(k, m)
  {
    if j < k { TimesMonotone(j, k - 1, m); }
  }

  lemma {:induction false} TimesAdds(j: nat, k: nat, m: real)
    ensures Times(j + k, m) == Times(j, m) + Times(k, m)
  {
    if k > 0 { TimesAdds(j, k - 1, m); }
  }

  lemma TimesWithin(j: nat, k: nat, n: nat, m: real)
    requires j + k <= n && m >= 0.0
    ensures Times(j, m) + Times(k, m) <= Times(n, m)
  {
    TimesAdds(j, k, m);
    TimesMonotone(j + k, n, m);
  }
}
