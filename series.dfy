/** Aggregates over columns of reals: sums, extremes and the lemmas relating them. */
module Series {

  function RealMax(a: real, b: real): (m: real)
    ensures m >= a && m >= b && (m == a || m == b)
  {
    if b > a then b else a
  }

  function RealMin(a: real, b: real): (m: real)
    ensures m <= a && m <= b && (m == a || m == b)
  {
    if b < a then b else a
  }

  /** The sum of a column; 0 for an empty one. */
  function Sum(xs: seq<real>): real
  {
    if xs == [] then 0.0 else xs[0] + Sum(xs[1..])
  }

  /** A non-empty column of positive values has a positive sum, one of negative values a
      negative sum. */
  lemma {:induction false} SumSign(xs: seq<real>)
    ensures xs != [] && (forall k :: 0 <= k < |xs| ==> xs[k] > 0.0) ==> Sum(xs) > 0.0
    ensures xs != [] && (forall k :: 0 <= k < |xs| ==> xs[k] < 0.0) ==> Sum(xs) < 0.0
  {
    if |xs| > 1 {
      assert forall k :: 1 <= k < |xs| ==> xs[1..][k - 1] == xs[k];
      SumSign(xs[1..]);
    }
  }

  /** Appending one value adds it to the sum. */
  lemma {:induction false} SumAppend(xs: seq<real>, x: real)
    ensures Sum(xs + [x]) == Sum(xs) + x
  {
    if xs == [] {
      assert [x][1..] == [];
    } else {
      assert (xs + [x])[1..] == xs[1..] + [x];
      SumAppend(xs[1..], x);
    }
  }

  /** The largest value of a non-empty column: it occurs in the column and bounds it. */
  function Max(xs: seq<real>): (m: real)
    requires xs != []
    ensures m in xs
    ensures forall k :: 0 <= k < |xs| ==> xs[k] <= m
  {
    if |xs| == 1 then xs[0]
    else
      var rest := Max(xs[1..]);
      if rest > xs[0] then rest else xs[0]
  }

  /** The smallest value of a non-empty column: it occurs in the column and bounds it. */
  function Min(xs: seq<real>): (m: real)
    requires xs != []
    ensures m in xs
    ensures forall k :: 0 <= k < |xs| ==> m <= xs[k]
  {
    if |xs| == 1 then xs[0]
    else
      var rest := Min(xs[1..]);
      if rest < xs[0] then rest else xs[0]
  }

  /** A part divided by a positive whole lies in [0, 1], and is 0 or 1 exactly at the ends. */
  lemma Fraction(part: real, whole: real)
    requires 0.0 <= part <= whole && whole > 0.0
    ensures 0.0 <= part / whole <= 1.0
    ensures part / whole == 0.0 <==> part == 0.0
    ensures part / whole == 1.0 <==> part == whole
  {
    var q := part / whole;
    assert q * whole == part;
  }

  /** Dividing by a positive number keeps the sign. */
  lemma QuotientSign(x: real, n: real)
    requires n > 0.0
    ensures x / n > 0.0 <==> x > 0.0
    ensures x / n < 0.0 <==> x < 0.0
  {
    var q := x / n;
    assert q * n == x;
  }

  /** Scaling a difference by positive factors and a positive divisor keeps its sign. */
  lemma ScaledSign(d: real, q: real, v: real, t: real)
    requires t != 0.0
    ensures d == 0.0 ==> d * q * v / t == 0.0
    ensures q > 0.0 && v > 0.0 && t > 0.0 ==> (d * q * v / t > 0.0 <==> d > 0.0) && (d * q * v / t < 0.0 <==> d < 0.0)
  {
    if q > 0.0 && v > 0.0 && t > 0.0 {
      var qv := q * v;
      assert qv > 0.0;
      assert d > 0.0 ==> d * qv > 0.0;
      assert d < 0.0 ==> d * qv < 0.0;
      assert d * q * v == d * qv;
      QuotientSign(d * qv, t);
    }
  }
}
