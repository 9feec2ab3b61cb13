/** Value types shared by the terrain model: an option type, 3-vectors and
    quaternions, the single-precision infinities the elevation code relies on,
    the minimum of a sequence of heights, and decimal rendering of integers
    (used for tile names and texture URLs). */
module Numerics {

  datatype Option<T> = None | Some(value: T)

  /** A position, scale or mesh vertex (Unity's Vector3). */
  datatype Vec3 = Vec3(x: real, y: real, z: real)

  /** A rotation (Unity's Quaternion); only carried, never computed with. */
  datatype Quaternion = Quaternion(x: real, y: real, z: real, w: real)

  const Origin := Vec3(0.0, 0.0, 0.0)
  const IdentityRotation := Quaternion(0.0, 0.0, 0.0, 1.0)

  /** A float accumulator that starts at float.PositiveInfinity and only ever
      takes finite values below it. */
  datatype Bound = Finite(value: real) | Infinity

  /** `a <= b` on bounds, with Infinity above every finite value. */
  predicate AtMost(a: Bound, b: Bound) {
    b.Infinity? || (a.Finite? && a.value <= b.value)
  }

  /** The float comparison `v < b`. */
  predicate Below(v: real, b: Bound) {
    b.Infinity? || v < b.value
  }

  /** `if (b < a) a = b;` on two bounds: the smaller one, keeping `a` on ties. */
  function MinBound(a: Bound, b: Bound): (m: Bound)
    ensures m == a || m == b
    ensures AtMost(m, a) && AtMost(m, b)
  {
    if b.Finite? && Below(b.value, a) then b else a
  }

  /** The minimum of a sequence of heights as a loop computes it that starts
      from +∞ and keeps the smaller value, element by element. */
  function SeqMin(s: seq<real>): (m: Bound)
    ensures m.Infinity? <==> s == []
    ensures forall i :: 0 <= i < |s| ==> AtMost(m, Finite(s[i]))
    ensures m.Finite? ==> exists i :: 0 <= i < |s| && m.value == s[i]
  {
    if s == [] then Infinity
    else
      var m := MinBound(SeqMin(s[..|s| - 1]), Finite(s[|s| - 1]));
      assert forall i :: 0 <= i < |s| - 1 ==> s[i] == s[..|s| - 1][i];
      m
  }

  /** Every height moved by the same amount, as translating a whole tile does. */
  function Shifted(s: seq<real>, d: real): (r: seq<real>)
    ensures |r| == |s|
    ensures forall i :: 0 <= i < |s| ==> r[i] == s[i] + d
  {
    seq(|s|, i requires 0 <= i < |s| => s[i] + d)
  }

  lemma ShiftedPrefix(s: seq<real>, d: real, n: nat)
    requires n <= |s|
    ensures Shifted(s, d)[..n] == Shifted(s[..n], d)
  {
    var a, b := Shifted(s, d)[..n], Shifted(s[..n], d);
    forall i | 0 <= i < n
      ensures a[i] == b[i]
    {
    }
  }

  /** The smaller of two heights, both moved by `d`, is the smaller one moved by `d`. */
  lemma MinBoundShifted(a: real, b: real, d: real)
    ensures MinBound(Finite(a + d), Finite(b + d)) == Finite(MinBound(Finite(a), Finite(b)).value + d)
  {
  }

  /** Moving every height by `d` moves the minimum by `d`. */
  lemma {:induction false} SeqMinShifted(s: seq<real>, d: real)
    requires s != []
    ensures SeqMin(Shifted(s, d)) == Finite(SeqMin(s).value + d)
  {
    var n := |s|;
    var t := Shifted(s, d);
    if n == 1 {
      assert s[..0] == [] && t[..0] == [];
    } else {
      var p := s[..n - 1];
      SeqMinShifted(p, d);
      ShiftedPrefix(s, d, n - 1);
      var mp, last := SeqMin(p).value, s[n - 1];
      MinBoundShifted(mp, last, d);
      assert SeqMin(t) == MinBound(SeqMin(t[..n - 1]), Finite(t[n - 1]));
      assert SeqMin(s) == MinBound(SeqMin(p), Finite(last));
    }
  }

  /** The running minimum of two runs of heights, one after the other, is
      the smaller of their minima: the shared minimum can be folded tile by
      tile. */
  lemma {:induction false} SeqMinAppend(a: seq<real>, b: seq<real>)
    ensures SeqMin(a + b) == MinBound(SeqMin(a), SeqMin(b))
    decreases |b|
  {
    if b == [] {
      assert a + b == a;
    } else {
      var n := |b| - 1;
      assert (a + b)[..|a + b| - 1] == a + b[..n];
      SeqMinAppend(a, b[..n]);
    }
  }

  /** Every height divided by the same positive factor. */
  function Scaled(s: seq<real>, k: real): (r: seq<real>)
    requires k > 0.0
    ensures |r| == |s|
    ensures forall i :: 0 <= i < |s| ==> r[i] == s[i] / k
  {
    seq(|s|, i requires 0 <= i < |s| => s[i] / k)
  }

  lemma ScaledPrefix(s: seq<real>, k: real, n: nat)
    requires k > 0.0 && n <= |s|
    ensures Scaled(s, k)[..n] == Scaled(s[..n], k)
  {
    var a, b := Scaled(s, k)[..n], Scaled(s[..n], k);
    forall i | 0 <= i < n
      ensures a[i] == b[i]
    {
    }
  }

  lemma DivPreservesOrder(a: real, b: real, k: real)
    requires k > 0.0
    ensures a < b <==> a / k < b / k
  {
    assert a == (a / k) * k && b == (b / k) * k;
  }

  /** Dividing every height by a positive factor divides the minimum by it. */
  lemma {:induction false} SeqMinScaled(s: seq<real>, k: real)
    requires s != [] && k > 0.0
    ensures SeqMin(Scaled(s, k)) == Finite(SeqMin(s).value / k)
  {
    var n := |s|;
    var t := Scaled(s, k);
    if n == 1 {
      assert s[..0] == [] && t[..0] == [];
    } else {
      var p := s[..n - 1];
      SeqMinScaled(p, k);
      ScaledPrefix(s, k, n - 1);
      var mp, last := SeqMin(p).value, s[n - 1];
      DivPreservesOrder(last, mp, k);
      assert SeqMin(t) == MinBound(Finite(mp / k), Finite(last / k));
      assert SeqMin(s) == MinBound(Finite(mp), Finite(last));
    }
  }

  /** In `u + [c] + v` with no `c` in `u`, the first `c` sits at index `|u|`. */
  lemma SeparatorPosition<T>(u: seq<T>, v: seq<T>, c: T)
    requires c !in u
    ensures (u + [c] + v)[|u|] == c
    ensures forall i :: 0 <= i < |u| ==> (u + [c] + v)[i] != c
  {
    forall i | 0 <= i < |u|
      ensures (u + [c] + v)[i] != c
    {
      assert (u + [c] + v)[i] == u[i];
    }
  }

  /** `u + [c] + v` splits uniquely at its first `c` when `u` holds none. */
  lemma SplitAtSeparator<T>(u: seq<T>, v: seq<T>, u': seq<T>, v': seq<T>, c: T)
    requires c !in u && c !in u'
    requires u + [c] + v == u' + [c] + v'
    ensures u == u' && v == v'
  {
    var w := u + [c] + v;
    SeparatorPosition(u, v, c);
    SeparatorPosition(u', v', c);
    assert |u| == |u'|;
    assert u == w[..|u|] == u';
    assert v == w[|u| + 1..] == v';
  }

  lemma MulMonotone(p: int, q: int, w: nat)
    requires p <= q
    ensures p * w <= q * w
  {
  }

  /** Euclidean division recovers the row and column of `a * w + b`. */
  lemma DivModOfRowColumn(a: nat, b: nat, w: nat)
    requires b < w
    ensures (a * w + b) / w == a
    ensures (a * w + b) % w == b
  {
    var x := a * w + b;
    var q, r := x / w, x % w;
    if q > a {
      MulMonotone(a + 1, q, w);
      assert false;
    } else if q < a {
      MulMonotone(q + 1, a, w);
      assert false;
    }
  }

  predicate IsDigit(c: char) {
    '0' <= c <= '9'
  }

  function DigitChar(d: nat): (c: char)
    requires d < 10
    ensures IsDigit(c)
  {
    ('0' as int + d) as char
  }

  /** The value of a digit character. */
  function DigitValue(c: char): (d: nat)
    requires IsDigit(c)
    ensures d < 10 && DigitChar(d) == c
  {
    c as int - '0' as int
  }

  predicate IsDigits(s: string) {
    forall i :: 0 <= i < |s| ==> IsDigit(s[i])
  }

  /** Reads a string of digits back as a natural number. */
  function DecimalValue(s: string): nat
    requires IsDigits(s)
  {
    if s == [] then 0 else DecimalValue(s[..|s| - 1]) * 10 + DigitValue(s[|s| - 1])
  }

  /** Decimal rendering of a natural number, most significant digit first. */
  function NatToString(n: nat): string {
    if n < 10 then [DigitChar(n)] else NatToString(n / 10) + [DigitChar(n % 10)]
  }

  /** `int.ToString()`: a leading '-' for negative values. */
  function IntToString(n: int): string
    decreases if n < 0 then 1 else 0
  {
    if n < 0 then "-" + IntToString(-n) else NatToString(n)
  }

  lemma {:induction false} NatToStringIsDigits(n: nat)
    ensures 1 <= |NatToString(n)|
    ensures forall i :: 0 <= i < |NatToString(n)| ==> IsDigit(NatToString(n)[i])
  {
    if n >= 10 {
      NatToStringIsDigits(n / 10);
      var p := NatToString(n / 10);
      assert forall i :: 0 <= i < |p| ==> NatToString(n)[i] == p[i];
    }
  }

  /** A rendering is digits after an optional leading '-', which is there
      exactly for negative values. */
  lemma IntToStringShape(n: int)
    ensures 1 <= |IntToString(n)|
    ensures forall i :: 0 < i < |IntToString(n)| ==> IsDigit(IntToString(n)[i])
    ensures IsDigit(IntToString(n)[0]) <==> n >= 0
  {
    if n < 0 {
      NatToStringIsDigits(-n);
      var p := NatToString(-n);
      assert IntToString(-n) == p;
      assert forall i :: 0 < i < |IntToString(n)| ==> IntToString(n)[i] == p[i - 1];
    } else {
      NatToStringIsDigits(n);
    }
  }

  /** A character that is neither a digit nor '-' never occurs in a rendering. */
  lemma NotInIntToString(n: int, c: char)
    requires !IsDigit(c) && c != '-'
    ensures c !in IntToString(n)
  {
    IntToStringShape(n);
    var s := IntToString(n);
    forall i | 0 <= i < |s|
      ensures s[i] != c
    {
      if i > 0 {
        assert IsDigit(s[i]);
      } else if !IsDigit(s[0]) {
        assert n < 0 && s[0] == '-';
      }
    }
  }

  /** Reading a rendering back gives the number rendered. */
  lemma {:induction false} NatToStringRoundTrip(n: nat)
    ensures IsDigits(NatToString(n)) && DecimalValue(NatToString(n)) == n
  {
    NatToStringIsDigits(n);
    if n >= 10 {
      var p := NatToString(n / 10);
      NatToStringIsDigits(n / 10);
      NatToStringRoundTrip(n / 10);
      var s := NatToString(n);
      assert s[..|s| - 1] == p;
      assert DigitValue(s[|s| - 1]) == n % 10;
    }
  }

  /** `int.Parse` on what `IntToString` renders. */
  function ParseInt(s: string): int
    requires 1 <= |s| && (s[0] == '-' || IsDigit(s[0])) && IsDigits(s[1..])
  {
    if s[0] == '-' then -(DecimalValue(s[1..]) as int) else DecimalValue(s)
  }

  /** Parsing a rendering gives the integer rendered. */
  lemma IntToStringRoundTrip(n: int)
    ensures 1 <= |IntToString(n)| && IsDigits(IntToString(n)[1..])
    ensures IntToString(n)[0] == '-' || IsDigit(IntToString(n)[0])
    ensures ParseInt(IntToString(n)) == n
  {
    var s := IntToString(n);
    if n < 0 {
      var p := NatToString(-n);
      NatToStringIsDigits(-n);
      NatToStringRoundTrip(-n);
      assert s == "-" + p;
      assert s[1..] == p;
    } else {
      NatToStringIsDigits(n);
      NatToStringRoundTrip(n);
      assert forall i :: 0 <= i < |s| - 1 ==> s[1..][i] == s[i + 1];
    }
  }

  /** Distinct integers render as distinct strings. */
  lemma IntToStringInjective(n: int, m: int)
    requires IntToString(n) == IntToString(m)
    ensures n == m
  {
    IntToStringRoundTrip(n);
    IntToStringRoundTrip(m);
  }
}
