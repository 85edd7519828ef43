/** Common subsequences of two sequences, and how long the longest of them is. */
module Subsequences {

  /** c is what is left of s after taking some of its elements out. */
  ghost predicate IsSubsequence<T>(c: seq<T>, s: seq<T>) {
    c == [] ||
    (s != [] && (IsSubsequence(c, s[1..]) || (c[0] == s[0] && IsSubsequence(c[1..], s[1..]))))
  }

  ghost predicate IsCommon<T>(c: seq<T>, a: seq<T>, b: seq<T>) {
    IsSubsequence(c, a) && IsSubsequence(c, b)
  }

  ghost function Max(x: nat, y: nat): nat { if x >= y then x else y }

  /** The recurrence the comparison table is filled by. Attained and Bounded say what it computes. */
  ghost function Longest<T>(a: seq<T>, b: seq<T>): nat
    decreases |a| + |b|
  {
    if a == [] || b == [] then 0
    else if a[0] == b[0] then Longest(a[1..], b[1..]) + 1
    else Max(Longest(a[1..], b), Longest(a, b[1..]))
  }

  lemma {:induction false} TailOfSubsequence<T>(c: seq<T>, s: seq<T>)
    requires c != [] && IsSubsequence(c, s)
    ensures s != [] && IsSubsequence(c[1..], s[1..])
    decreases s
  {
    if IsSubsequence(c, s[1..]) {
      TailOfSubsequence(c, s[1..]);
    }
  }

  lemma {:induction false} SubsequenceFits<T>(c: seq<T>, s: seq<T>)
    requires IsSubsequence(c, s)
    ensures |c| <= |s|
  {
    if c != [] {
      TailOfSubsequence(c, s);
      SubsequenceFits(c[1..], s[1..]);
    }
  }

  /** No common subsequence is longer than Longest. */
  lemma {:induction false} Bounded<T>(c: seq<T>, a: seq<T>, b: seq<T>)
    requires IsCommon(c, a, b)
    ensures |c| <= Longest(a, b)
    decreases |a| + |b|
  {
    if c != [] {
      TailOfSubsequence(c, a);
      TailOfSubsequence(c, b);
      if a[0] == b[0] {
        Bounded(c[1..], a[1..], b[1..]);
      } else if c[0] != a[0] {
        Bounded(c, a[1..], b);
      } else {
        Bounded(c, a, b[1..]);
      }
    }
  }

  /** Some common subsequence is as long as Longest says. */
  lemma {:induction false} Attained<T>(a: seq<T>, b: seq<T>) returns (c: seq<T>)
    ensures IsCommon(c, a, b) && |c| == Longest(a, b)
    decreases |a| + |b|
  {
    if a == [] || b == [] {
      c := [];
    } else if a[0] == b[0] {
      var rest := Attained(a[1..], b[1..]);
      c := [a[0]] + rest;
      assert c[1..] == rest;
    } else if Longest(a[1..], b) >= Longest(a, b[1..]) {
      c := Attained(a[1..], b);
    } else {
      c := Attained(a, b[1..]);
    }
  }

  lemma {:induction false} LongestFits<T>(a: seq<T>, b: seq<T>)
    ensures Longest(a, b) <= |a| && Longest(a, b) <= |b|
  {
    var c := Attained(a, b);
    SubsequenceFits(c, a);
    SubsequenceFits(c, b);
  }

  lemma {:induction false} ExtendSubsequence<T>(c: seq<T>, s: seq<T>, t: seq<T>, u: seq<T>)
    requires IsSubsequence(c, s) && IsSubsequence(t, u)
    ensures IsSubsequence(c + t, s + u)
    decreases s
  {
    if s == [] {
      assert c + t == t && s + u == u;
    } else {
      assert (s + u)[1..] == s[1..] + u;
      if c == [] {
        assert c + t == t;
        ExtendSubsequence(c, s[1..], t, u);
      } else if IsSubsequence(c, s[1..]) {
        ExtendSubsequence(c, s[1..], t, u);
      } else {
        ExtendSubsequence(c[1..], s[1..], t, u);
        assert (c + t)[1..] == c[1..] + t;
      }
    }
  }

  lemma {:induction false} WholeIsSubsequence<T>(s: seq<T>)
    ensures IsSubsequence(s, s)
  {
    if s != [] {
      WholeIsSubsequence(s[1..]);
    }
  }

  lemma {:induction false} DropLast<T>(c: seq<T>, s: seq<T>)
    requires c != [] && s != [] && IsSubsequence(c, s)
    ensures IsSubsequence(c[..|c| - 1], s[..|s| - 1])
    decreases s
  {
    if |c| > 1 {
      var c', s' := c[..|c| - 1], s[..|s| - 1];
      SubsequenceFits(c, s);
      assert s'[1..] == s[1..][..|s| - 2];
      if IsSubsequence(c, s[1..]) {
        SubsequenceFits(c, s[1..]);
        DropLast(c, s[1..]);
      } else {
        DropLast(c[1..], s[1..]);
        assert c'[1..] == c[1..][..|c| - 2];
      }
    }
  }

  /** An element both sequences end with is always worth keeping. */
  lemma {:induction false} LongestWithSameLast<T>(a: seq<T>, b: seq<T>)
    requires a != [] && b != [] && a[|a| - 1] == b[|b| - 1]
    ensures Longest(a, b) == Longest(a[..|a| - 1], b[..|b| - 1]) + 1
  {
    var x, y, e := a[..|a| - 1], b[..|b| - 1], [a[|a| - 1]];
    assert a == x + e && b == y + e;
    var c := Attained(x, y);
    WholeIsSubsequence(e);
    ExtendSubsequence(c, x, e, e);
    ExtendSubsequence(c, y, e, e);
    Bounded(c + e, a, b);
    var d := Attained(a, b);
    if d != [] {
      DropLast(d, a);
      DropLast(d, b);
      Bounded(d[..|d| - 1], x, y);
    }
  }

  lemma {:induction false} LongestAfterPrefix<T>(p: seq<T>, a: seq<T>, b: seq<T>)
    ensures Longest(p + a, p + b) == |p| + Longest(a, b)
  {
    if p == [] {
      assert p + a == a && p + b == b;
    } else {
      assert (p + a)[1..] == p[1..] + a && (p + b)[1..] == p[1..] + b;
      LongestAfterPrefix(p[1..], a, b);
    }
  }

  lemma {:induction false} LongestBeforeSuffix<T>(a: seq<T>, b: seq<T>, s: seq<T>)
    ensures Longest(a + s, b + s) == Longest(a, b) + |s|
  {
    if s == [] {
      assert a + s == a && b + s == b;
    } else {
      var init := s[..|s| - 1];
      assert (a + s)[..|a + s| - 1] == a + init && (b + s)[..|b + s| - 1] == b + init;
      LongestWithSameLast(a + s, b + s);
      LongestBeforeSuffix(a, b, init);
    }
  }

  /** Trimming what the two sequences start and end with takes exactly that much off Longest. */
  lemma LongestOfTrimmed<T>(a: seq<T>, b: seq<T>, start: nat, endA: nat, endB: nat)
    requires start <= endA <= |a| && start <= endB <= |b|
    requires a[..start] == b[..start] && a[endA..] == b[endB..]
    ensures Longest(a, b) == start + Longest(a[start..endA], b[start..endB]) + (|a| - endA)
  {
    var p, s, x, y := a[..start], a[endA..], a[start..endA], b[start..endB];
    assert a == p + (x + s) && b == p + (y + s);
    LongestAfterPrefix(p, x + s, y + s);
    LongestBeforeSuffix(x, y, s);
  }

  /** Two sequences have nothing in common exactly when no element is in both. */
  lemma {:induction false} LongestIsZero<T>(a: seq<T>, b: seq<T>)
    ensures Longest(a, b) == 0 <==> forall i, j :: 0 <= i < |a| && 0 <= j < |b| ==> a[i] != b[j]
  {
    if i, j :| 0 <= i < |a| && 0 <= j < |b| && a[i] == b[j] {
      SingleElement(a, i);
      SingleElement(b, j);
      Bounded([a[i]], a, b);
    }
    if Longest(a, b) > 0 {
      var c := Attained(a, b);
      var i := FirstElement(c, a);
      var j := FirstElement(c, b);
      assert a[i] == b[j];
    }
  }

  lemma {:induction false} SingleElement<T>(s: seq<T>, i: nat)
    requires i < |s|
    ensures IsSubsequence([s[i]], s)
  {
    if i > 0 {
      SingleElement(s[1..], i - 1);
    } else {
      assert [s[i]][1..] == [];
    }
  }

  lemma {:induction false} FirstElement<T>(c: seq<T>, s: seq<T>) returns (i: nat)
    requires c != [] && IsSubsequence(c, s)
    ensures i < |s| && s[i] == c[0]
    decreases s
  {
    if c[0] == s[0] {
      i := 0;
    } else {
      var k := FirstElement(c, s[1..]);
      i := k + 1;
    }
  }
}
