/**
 * The root mean square difference of two series along a profile:
 * sqrt(nanmean((a - b)**2)), where the mean skips NaN entries and is NaN
 * when no entry is finite.
 */
module Statistics {
  import opened Numerics

  /** (a - b)**2, entry by entry; NaN wherever either side is NaN. */
  function SquaredDiffs(a: seq<Option<real>>, b: seq<Option<real>>): (d: seq<Option<real>>)
    requires |a| == |b|
    ensures |d| == |a|
    ensures forall i :: 0 <= i < |d| ==> (d[i].Some? <==> a[i].Some? && b[i].Some?)
  {
    seq(|a|, i requires 0 <= i < |a| => MulN(SubN(a[i], b[i]), SubN(a[i], b[i])))
  }

  /** The sum of the finite entries of s. */
  function FiniteSum(s: seq<Option<real>>): real
  {
    if |s| == 0 then 0.0
    else FiniteSum(s[..|s| - 1]) + (if s[|s| - 1].Some? then s[|s| - 1].value else 0.0)
  }

  /** The number of finite entries of s. */
  function FiniteCount(s: seq<Option<real>>): nat
  {
    if |s| == 0 then 0
    else FiniteCount(s[..|s| - 1]) + (if s[|s| - 1].Some? then 1 else 0)
  }

  /** np.nanmean: the mean of the finite entries, NaN when there are none. */
  function NanMean(s: seq<Option<real>>): Option<real>
  {
    var n := FiniteCount(s);
    if n == 0 then None else Some(FiniteSum(s) / n as real)
  }

  /** The root mean square difference sqrt(nanmean((a - b)**2)). */
  function Rmsd(sqrt: real -> real, a: seq<Option<real>>, b: seq<Option<real>>): Option<real>
    requires |a| == |b|
  {
    var m := NanMean(SquaredDiffs(a, b));
    if m.Some? then Some(sqrt(m.value)) else None
  }

  /** Some entry of s is finite exactly when the count of finite entries is positive. */
  lemma {:induction false} FiniteCountPositive(s: seq<Option<real>>)
    ensures FiniteCount(s) > 0 <==> exists i :: 0 <= i < |s| && s[i].Some?
  {
    if |s| > 0 {
      var init := s[..|s| - 1];
      FiniteCountPositive(init);
      if exists i :: 0 <= i < |init| && init[i].Some? {
        var i :| 0 <= i < |init| && init[i].Some?;
        assert s[i] == init[i];
      }
      if exists i :: 0 <= i < |s| && s[i].Some? {
        var i :| 0 <= i < |s| && s[i].Some?;
        if i < |init| { assert init[i] == s[i]; }
      }
    }
  }

  /** A sum of finite entries that are all non-negative is non-negative. */
  lemma {:induction false} FiniteSumNonNegative(s: seq<Option<real>>)
    requires forall i :: 0 <= i < |s| && s[i].Some? ==> s[i].value >= 0.0
    ensures FiniteSum(s) >= 0.0
  {
    if |s| > 0 {
      var init := s[..|s| - 1];
      assert forall i :: 0 <= i < |init| ==> init[i] == s[i];
      FiniteSumNonNegative(init);
    }
  }

  /** A sum whose finite entries are all zero is zero. */
  lemma {:induction false} FiniteSumZero(s: seq<Option<real>>)
    requires forall i :: 0 <= i < |s| && s[i].Some? ==> s[i].value == 0.0
    ensures FiniteSum(s) == 0.0
  {
    if |s| > 0 {
      var init := s[..|s| - 1];
      assert forall i :: 0 <= i < |init| ==> init[i] == s[i];
      FiniteSumZero(init);
    }
  }

  /** Squared differences are never negative. */
  lemma SquaredDiffsNonNegative(a: seq<Option<real>>, b: seq<Option<real>>)
    requires |a| == |b|
    ensures forall i :: 0 <= i < |a| && SquaredDiffs(a, b)[i].Some? ==> SquaredDiffs(a, b)[i].value >= 0.0
  {
    forall i | 0 <= i < |a| && SquaredDiffs(a, b)[i].Some?
      ensures SquaredDiffs(a, b)[i].value >= 0.0
    {
      SquareNonNegative(a[i].value - b[i].value);
    }
  }

  /** The RMSD is NaN exactly when no position has both values finite. */
  lemma RmsdNaNIffNoFinitePair(sqrt: real -> real, a: seq<Option<real>>, b: seq<Option<real>>)
    requires |a| == |b|
    ensures Rmsd(sqrt, a, b).None? <==> forall i :: 0 <= i < |a| ==> a[i].None? || b[i].None?
  {
    var d := SquaredDiffs(a, b);
    FiniteCountPositive(d);
    if exists i :: 0 <= i < |a| && a[i].Some? && b[i].Some? {
      var i :| 0 <= i < |a| && a[i].Some? && b[i].Some?;
      assert d[i].Some?;
    }
  }

  /** The RMSD, when finite, is the non-negative root of the mean squared difference. */
  lemma RmsdIsRootOfMeanSquare(sqrt: real -> real, a: seq<Option<real>>, b: seq<Option<real>>)
    requires IsSqrt(sqrt) && |a| == |b|
    ensures var m := NanMean(SquaredDiffs(a, b));
            m.Some? ==> m.value >= 0.0 && IsRootOf(Rmsd(sqrt, a, b).value, m.value)
  {
    var d := SquaredDiffs(a, b);
    var m := NanMean(d);
    if m.Some? {
      SquaredDiffsNonNegative(a, b);
      FiniteSumNonNegative(d);
      var n := FiniteCount(d) as real;
      assert n > 0.0;
      assert m.value == FiniteSum(d) / n;
      assert m.value >= 0.0;
      SqrtPositive(sqrt, m.value);
    }
  }

  /** The RMSD does not depend on which series comes first. */
  lemma RmsdSymmetric(sqrt: real -> real, a: seq<Option<real>>, b: seq<Option<real>>)
    requires |a| == |b|
    ensures Rmsd(sqrt, a, b) == Rmsd(sqrt, b, a)
  {
    forall i | 0 <= i < |a| ensures SquaredDiffs(a, b)[i] == SquaredDiffs(b, a)[i] {
      if a[i].Some? && b[i].Some? {
        var x, y := a[i].value, b[i].value;
        var u, v := SquaredDiffs(a, b)[i], SquaredDiffs(b, a)[i];
        assert u.value == (x - y) * (x - y);
        assert v.value == (y - x) * (y - x);
        assert (x - y) * (x - y) == (y - x) * (y - x) by {
          assert y - x == -(x - y);
        }
        assert u.value == v.value;
      }
    }
    assert SquaredDiffs(a, b) == SquaredDiffs(b, a);
  }

  /** A series compared with itself has RMSD 0 once one of its entries is finite. */
  lemma RmsdOfIdenticalIsZero(sqrt: real -> real, a: seq<Option<real>>)
    requires IsSqrt(sqrt)
    requires exists i :: 0 <= i < |a| && a[i].Some?
    ensures Rmsd(sqrt, a, a) == Some(0.0)
  {
    var d := SquaredDiffs(a, a);
    forall i | 0 <= i < |d| && d[i].Some? ensures d[i].value == 0.0 {
      assert a[i].value - a[i].value == 0.0;
    }
    FiniteSumZero(d);
    RmsdNaNIffNoFinitePair(sqrt, a, a);
    SqrtPositive(sqrt, 0.0);
  }

  /** A worked case: [1, 2, 3, 4] against [1, 2, 3, 5] differ by 1 in one of four places, so the RMSD is 1/2. */
  lemma RmsdExample(sqrt: real -> real, a: seq<Option<real>>, b: seq<Option<real>>)
    requires IsSqrt(sqrt)
    requires a == [Some(1.0), Some(2.0), Some(3.0), Some(4.0)]
    requires b == [Some(1.0), Some(2.0), Some(3.0), Some(5.0)]
    ensures Rmsd(sqrt, a, b) == Some(0.5)
  {
    var d := SquaredDiffs(a, b);
    assert d[0].value == 0.0 && d[1].value == 0.0 && d[2].value == 0.0 && d[3].value == 1.0;
    ExampleMean(d);
    SqrtPositive(sqrt, 0.25);
    SqrtUnique(0.25, sqrt(0.25), 0.5);
  }

  /** The mean of the finite squares 0, 0, 0, 1 is 1/4. */
  lemma ExampleMean(d: seq<Option<real>>)
    requires |d| == 4 && d[0].Some? && d[1].Some? && d[2].Some? && d[3].Some?
    requires d[0].value == 0.0 && d[1].value == 0.0 && d[2].value == 0.0 && d[3].value == 1.0
    ensures NanMean(d) == Some(0.25)
  {
    assert FiniteSum(d[..1]) == 0.0 && FiniteCount(d[..1]) == 1 by {
      assert d[..1] == [] + [d[0]];
      FiniteSnoc([], d[0]);
    }
    assert FiniteSum(d[..2]) == 0.0 && FiniteCount(d[..2]) == 2 by {
      assert d[..2] == d[..1] + [d[1]];
      FiniteSnoc(d[..1], d[1]);
    }
    assert FiniteSum(d[..3]) == 0.0 && FiniteCount(d[..3]) == 3 by {
      assert d[..3] == d[..2] + [d[2]];
      FiniteSnoc(d[..2], d[2]);
    }
    assert d == d[..3] + [d[3]];
    FiniteSnoc(d[..3], d[3]);
  }

  /** Appending one entry adds it to the finite sum and count when it is finite. */
  lemma FiniteSnoc(s: seq<Option<real>>, x: Option<real>)
    ensures FiniteSum(s + [x]) == FiniteSum(s) + (if x.Some? then x.value else 0.0)
    ensures FiniteCount(s + [x]) == FiniteCount(s) + (if x.Some? then 1 else 0)
  {
    assert (s + [x])[..|s|] == s;
  }
}
