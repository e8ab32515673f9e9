// INT8 and INT4 weight quantization over the reals, and the nibble layouts
// (tr_hash_i64/core/quantization.py, awq_gptq.py).
module Quantization {
  import opened Prelude

  // Rounding to the nearest integer, ties to the even one.
  function Round(x: real): int {
    var f := x.Floor;
    var d := x - f as real;
    if d < 0.5 then f else if d > 0.5 then f + 1 else if f % 2 == 0 then f else f + 1
  }

  function Clamp(x: int, lo: int, hi: int): int {
    Max(lo, Min(x, hi))
  }

  function Abs(x: real): real {
    if x < 0.0 then -x else x
  }

  lemma RoundIsNear(x: real)
    ensures Abs(Round(x) as real - x) <= 0.5
  {
  }

  // Rounding keeps integer bounds.
  lemma RoundBetween(x: real, lo: int, hi: int)
    requires lo as real <= x <= hi as real
    ensures lo <= Round(x) <= hi
  {
  }

  lemma RoundIsOdd(x: real)
    ensures Round(-x) == -Round(x)
  {
    var f := x.Floor;
    if x == f as real {
      assert (-x).Floor == -f;
    } else {
      assert (-x).Floor == -f - 1;
    }
  }

  // Products and quotients by a scale, with the facts the proofs go by.
  function Mul(a: real, s: real): real {
    a * s
  }

  function Ratio(a: real, s: real): real
    requires s > 0.0
  {
    a / s
  }

  lemma MulRatio(a: real, s: real)
    requires s > 0.0
    ensures Mul(Ratio(a, s), s) == a
  {
  }

  lemma MulSub(a: real, b: real, s: real)
    ensures Mul(a - b, s) == Mul(a, s) - Mul(b, s)
  {
  }

  lemma MulSign(a: real, s: real)
    requires s > 0.0
    ensures a > 0.0 ==> Mul(a, s) > 0.0
    ensures a == 0.0 ==> Mul(a, s) == 0.0
    ensures a < 0.0 ==> Mul(a, s) < 0.0
  {
  }

  lemma MulOrder(a: real, b: real, s: real)
    requires s > 0.0
    ensures a <= b <==> Mul(a, s) <= Mul(b, s)
  {
    hide Mul;
    MulSub(a, b, s);
    MulSign(a - b, s);
  }

  lemma MulSame(a: real, b: real, s: real)
    requires s > 0.0 && Mul(a, s) == Mul(b, s)
    ensures a == b
  {
    hide Mul;
    MulOrder(a, b, s);
    MulOrder(b, a, s);
  }

  lemma RatioOrder(a: real, b: real, s: real)
    requires s > 0.0
    ensures Ratio(a, s) <= b <==> a <= Mul(b, s)
    ensures b <= Ratio(a, s) <==> Mul(b, s) <= a
  {
    hide Mul, Ratio;
    MulRatio(a, s);
    MulOrder(Ratio(a, s), b, s);
    MulOrder(b, Ratio(a, s), s);
  }

  lemma RatioSub(a: real, b: real, s: real)
    requires s > 0.0
    ensures Ratio(a - b, s) == Ratio(a, s) - Ratio(b, s)
  {
    hide Mul, Ratio;
    MulRatio(a, s);
    MulRatio(b, s);
    MulRatio(a - b, s);
    MulSub(Ratio(a, s), Ratio(b, s), s);
    MulSame(Ratio(a - b, s), Ratio(a, s) - Ratio(b, s), s);
  }

  lemma RatioNegated(a: real, s: real)
    requires s > 0.0
    ensures Ratio(-a, s) == -Ratio(a, s) && Ratio(0.0, s) == 0.0
  {
    hide Ratio;
    RatioSub(a, a, s);
    RatioSub(0.0, a, s);
    assert 0.0 - a == -a;
  }

  // Being within c steps of w is being within c of w's ratio.
  lemma Scaled(a: real, w: real, c: real, s: real)
    requires s > 0.0
    ensures Abs(Mul(a, s) - w) <= Mul(c, s) <==> Abs(a - Ratio(w, s)) <= c
  {
    hide Mul, Ratio;
    MulRatio(w, s);
    MulSub(a, Ratio(w, s), s);
    MulSub(Ratio(w, s), a, s);
    MulOrder(a - Ratio(w, s), c, s);
    MulOrder(Ratio(w, s) - a, c, s);
  }

  // ---- INT8, one scale per row ----

  const FLOOR := 0.00000001

  function AbsMax(row: seq<real>): (m: real)
    ensures m >= FLOOR && forall i :: 0 <= i < |row| ==> Abs(row[i]) <= m
  {
    if row == [] then FLOOR
    else
      var m := AbsMax(row[..|row| - 1]);
      if Abs(row[|row| - 1]) > m then Abs(row[|row| - 1]) else m
  }

  function Scale8(row: seq<real>): (s: real)
    ensures s > 0.0
  {
    AbsMax(row) / 127.0
  }

  function Quantize8(row: seq<real>): (q: seq<int>)
    ensures |q| == |row|
  {
    seq(|row|, i requires 0 <= i < |row| => Clamp(Round(Ratio(row[i], Scale8(row))), -128, 127))
  }

  function Dequantize8(q: seq<int>, scale: real): (r: seq<real>)
    ensures |r| == |q|
  {
    seq(|q|, i requires 0 <= i < |q| => Mul(q[i] as real, scale))
  }

  lemma Steps(n: real, s: real)
    ensures Mul(n, s) == n * s
  {
  }

  // Nothing is clamped: all 8-bit values are between -127 and 127.
  lemma InRange8(row: seq<real>, i: nat)
    requires i < |row|
    ensures Quantize8(row)[i] == Round(Ratio(row[i], Scale8(row))) && -127 <= Quantize8(row)[i] <= 127
  {
    hide Mul, Ratio, Round;
    var s := Scale8(row);
    Steps(127.0, s);
    Steps(-127.0, s);
    RatioOrder(row[i], 127.0, s);
    RatioOrder(row[i], -127.0, s);
    RoundBetween(Ratio(row[i], s), -127, 127);
  }

  // Every weight comes back within half a step of the scale.
  lemma Int8Error(row: seq<real>, i: nat)
    requires i < |row|
    ensures Abs(Dequantize8(Quantize8(row), Scale8(row))[i] - row[i]) <= Scale8(row) / 2.0
  {
    hide Mul, Ratio, Round;
    var s, q := Scale8(row), Quantize8(row)[i];
    InRange8(row, i);
    RoundIsNear(Ratio(row[i], s));
    Scaled(q as real, row[i], 0.5, s);
    Steps(0.5, s);
  }

  // Quantized and back.
  function Back8(row: seq<real>): (r: seq<real>)
    ensures |r| == |row|
  {
    Dequantize8(Quantize8(row), Scale8(row))
  }

  lemma {:induction false} AbsMaxIsLeast(row: seq<real>, m: real)
    requires m >= 0.00000001 && forall j :: 0 <= j < |row| ==> -m <= row[j] <= m
    ensures AbsMax(row) <= m
  {
    if row != [] {
      var part := row[..|row| - 1];
      forall j | 0 <= j < |part| ensures -m <= part[j] <= m { assert part[j] == row[j]; }
      AbsMaxIsLeast(part, m);
    }
  }

  // Whatever bounds the weights bounds the error: it is at most the 254th
  // part of it.
  lemma Int8ErrorBound(row: seq<real>, i: nat, m: real)
    requires i < |row| && m >= 0.00000001 && forall j :: 0 <= j < |row| ==> -m <= row[j] <= m
    ensures -(m / 254.0) <= Back8(row)[i] - row[i] <= m / 254.0
  {
    Int8Error(row, i);
    AbsMaxIsLeast(row, m);
  }

  // A weight of the largest magnitude takes the whole range.
  lemma LargestIsFull(row: seq<real>, i: nat)
    requires i < |row| && (row[i] >= 0.00000001 || row[i] <= -0.00000001)
    requires forall j :: 0 <= j < |row| ==> -Abs(row[i]) <= row[j] <= Abs(row[i])
    ensures Quantize8(row)[i] == if row[i] > 0.0 then 127 else -127
  {
    AbsMaxIsLeast(row, Abs(row[i]));
    assert AbsMax(row) == Abs(row[i]);
    InRange8(row, i);
    var s := Scale8(row);
    assert Abs(row[i]) == 127.0 * s;
    hide Mul, Ratio, Round, AbsMax, Scale8;
    Steps(127.0, s);
    Steps(-127.0, s);
    RatioOrder(row[i], 127.0, s);
    RatioOrder(row[i], -127.0, s);
    RoundBetween(Ratio(row[i], s), if row[i] > 0.0 then 127 else -127, if row[i] > 0.0 then 127 else -127);
  }

  function Negated(row: seq<real>): (r: seq<real>)
    ensures |r| == |row|
  {
    seq(|row|, i requires 0 <= i < |row| => -row[i])
  }

  lemma {:induction false} SameAbsMax(row: seq<real>)
    ensures AbsMax(Negated(row)) == AbsMax(row)
  {
    if row != [] {
      assert Negated(row)[..|row| - 1] == Negated(row[..|row| - 1]);
      SameAbsMax(row[..|row| - 1]);
    }
  }

  // The scheme is symmetric: negated weights give negated integers.
  lemma Symmetric8(row: seq<real>, i: nat)
    requires i < |row|
    ensures Quantize8(Negated(row))[i] == -Quantize8(row)[i]
  {
    hide Mul, Ratio, Round;
    SameAbsMax(row);
    InRange8(row, i);
    InRange8(Negated(row), i);
    RatioNegated(row[i], Scale8(row));
    RoundIsOdd(Ratio(row[i], Scale8(row)));
  }

  // ---- INT4, one scale and zero point per group ----

  function Lowest(group: seq<real>): (m: real)
    requires group != []
    ensures m in group && forall i :: 0 <= i < |group| ==> m <= group[i]
  {
    if |group| == 1 then group[0]
    else
      var m := Lowest(group[..|group| - 1]);
      if group[|group| - 1] < m then group[|group| - 1] else m
  }

  function Highest(group: seq<real>): (m: real)
    requires group != []
    ensures m in group && forall i :: 0 <= i < |group| ==> group[i] <= m
  {
    if |group| == 1 then group[0]
    else
      var m := Highest(group[..|group| - 1]);
      if group[|group| - 1] > m then group[|group| - 1] else m
  }

  function Scale4(group: seq<real>): (s: real)
    requires group != []
    ensures s > 0.0 && Highest(group) - Lowest(group) <= 15.0 * s
  {
    var s := (Highest(group) - Lowest(group)) / 15.0;
    if s < FLOOR then FLOOR else s
  }

  function Zero4(group: seq<real>): (z: int)
    requires group != []
    ensures 0 <= z <= 15
  {
    Clamp(Round(Ratio(-Lowest(group), Scale4(group))), 0, 15)
  }

  function Quantize4(group: seq<real>, w: real): (q: int)
    requires group != []
    ensures 0 <= q <= 15
  {
    Clamp(Round(Ratio(w - Lowest(group), Scale4(group))), 0, 15)
  }

  function Dequantize4(q: int, scale: real, zero: int): real {
    Mul((q - zero) as real, scale)
  }

  function Back4(group: seq<real>, w: real): real
    requires group != []
  {
    Dequantize4(Quantize4(group, w), Scale4(group), Zero4(group))
  }

  // A distance of at most 15 steps rounds to 0..15.
  lemma StepsRound(x: real, s: real)
    requires s > 0.0 && 0.0 <= x <= 15.0 * s
    ensures 0 <= Round(Ratio(x, s)) <= 15
  {
    hide Mul, Ratio, Round;
    Steps(15.0, s);
    Steps(0.0, s);
    RatioOrder(x, 15.0, s);
    RatioOrder(x, 0.0, s);
    RoundBetween(Ratio(x, s), 0, 15);
  }

  // The integer of a weight of the group needs no clamping.
  lemma InRange4(group: seq<real>, i: nat)
    requires i < |group|
    ensures Quantize4(group, group[i]) == Round(Ratio(group[i] - Lowest(group), Scale4(group)))
  {
    hide Mul, Ratio, Round;
    StepsRound(group[i] - Lowest(group), Scale4(group));
  }

  // The group reaches within half a step of zero from both sides, so the
  // zero point is as near as rounding allows.
  predicate ZeroFits(group: seq<real>)
    requires group != []
  {
    Lowest(group) <= Scale4(group) / 2.0 && -Lowest(group) <= 15.5 * Scale4(group)
  }

  lemma StraddlingFits(group: seq<real>)
    requires group != [] && Lowest(group) <= 0.0 <= Highest(group)
    ensures ZeroFits(group)
  {
  }

  lemma ClampNear(x: real)
    ensures Abs(Clamp(Round(x), 0, 15) as real - x) <= 0.5 <==> -0.5 <= x <= 15.5
  {
  }

  lemma ZeroIsNear(group: seq<real>)
    requires group != []
    ensures Abs(Zero4(group) as real - Ratio(-Lowest(group), Scale4(group))) <= 0.5 <==> ZeroFits(group)
  {
    hide Mul, Ratio, Round, Clamp;
    var s, lo := Scale4(group), Lowest(group);
    ClampNear(Ratio(-lo, s));
    RatioOrder(-lo, 15.5, s);
    RatioOrder(-lo, -0.5, s);
    Steps(15.5, s);
    Steps(-0.5, s);
  }

  // With a near zero point every weight comes back within one step.
  lemma Int4Error(group: seq<real>, i: nat)
    requires i < |group| && ZeroFits(group)
    ensures Abs(Back4(group, group[i]) - group[i]) <= Scale4(group)
  {
    hide Mul, Ratio, Round, ZeroFits, Zero4, Scale4, Quantize4, Lowest, Highest, Clamp;
    var s, lo, w := Scale4(group), Lowest(group), group[i];
    var q, z := Quantize4(group, w), Zero4(group);
    InRange4(group, i);
    ZeroIsNear(group);
    RoundIsNear(Ratio(w - lo, s));
    RatioSub(w, lo, s);
    RatioNegated(lo, s);
    Scaled((q - z) as real, w, 1.0, s);
    Steps(1.0, s);
  }

  // A group on both sides of zero is reconstructed within one scale.
  lemma StraddlingGroupError(group: seq<real>, i: nat)
    requires i < |group| && Lowest(group) <= 0.0 <= Highest(group)
    ensures Abs(Back4(group, group[i]) - group[i]) <= Scale4(group)
  {
    StraddlingFits(group);
    Int4Error(group, i);
  }

  // Whatever the weights lie between bounds the error of a group on both
  // sides of zero: it is at most the 15th part of the distance.
  lemma Int4ErrorBound(group: seq<real>, i: nat, lo: real, hi: real)
    requires i < |group| && hi - lo >= 0.00000015 && forall j :: 0 <= j < |group| ==> lo <= group[j] <= hi
    requires exists j, k :: 0 <= j < |group| && 0 <= k < |group| && group[j] <= 0.0 <= group[k]
    ensures -((hi - lo) / 15.0) <= Back4(group, group[i]) - group[i] <= (hi - lo) / 15.0
  {
    StraddlingGroupError(group, i);
    var a :| 0 <= a < |group| && group[a] == Lowest(group);
    var b :| 0 <= b < |group| && group[b] == Highest(group);
    assert lo <= group[a] && group[b] <= hi;
  }

  // The smallest weight of a group becomes 0, and the largest one 15 unless
  // the weights are all but equal.
  lemma EndsAreFull(group: seq<real>, i: nat)
    requires i < |group|
    ensures (forall j :: 0 <= j < |group| ==> group[i] <= group[j]) ==> Quantize4(group, group[i]) == 0
    ensures (forall j :: 0 <= j < |group| ==> group[j] <= group[i]) ==>
      (exists j :: 0 <= j < |group| && group[i] - group[j] >= 0.00000015) ==> Quantize4(group, group[i]) == 15
  {
    var s, w := Scale4(group), group[i];
    var a :| 0 <= a < |group| && group[a] == Lowest(group);
    InRange4(group, i);
    if forall j :: 0 <= j < |group| ==> group[i] <= group[j] {
      assert w == Lowest(group);
      RatioNegated(w, s);
      hide Mul, Ratio, Round;
      assert w - Lowest(group) == 0.0;
      RoundBetween(Ratio(0.0, s), 0, 0);
    }
    if (forall j :: 0 <= j < |group| ==> group[j] <= group[i])
       && exists j :: 0 <= j < |group| && group[i] - group[j] >= 0.00000015
    {
      FullScale(group, i);
      hide Mul, Ratio, Round, Scale4, Lowest;
      Steps(15.0, s);
      RatioOrder(w - Lowest(group), 15.0, s);
      RoundBetween(Ratio(w - Lowest(group), s), 15, 15);
    }
  }

  lemma FullScale(group: seq<real>, i: nat)
    requires i < |group| && (forall j :: 0 <= j < |group| ==> group[j] <= group[i])
    requires exists j :: 0 <= j < |group| && group[i] - group[j] >= 0.00000015
    ensures group[i] - Lowest(group) == 15.0 * Scale4(group)
  {
    var b :| 0 <= b < |group| && group[b] == Highest(group);
    assert group[b] <= group[i] <= Highest(group);
  }

  // Where the promise ends: the smallest weight of a group comes back within
  // half a step exactly when the group comes that near to zero.
  lemma SmallestIff(group: seq<real>)
    requires group != []
    ensures Abs(Back4(group, Lowest(group)) - Lowest(group)) <= Scale4(group) / 2.0 <==> ZeroFits(group)
  {
    hide Mul, Ratio, Round, ZeroFits, Zero4, Scale4, Lowest, Highest;
    var s, lo, z := Scale4(group), Lowest(group), Zero4(group);
    ZeroIsNear(group);
    RatioNegated(lo, s);
    assert lo - lo == 0.0;
    RoundBetween(0.0, 0, 0);
    assert Quantize4(group, lo) == 0;
    Scaled((-z) as real, lo, 0.5, s);
    Steps(0.5, s);
  }

  lemma ClampWithin(x: real)
    ensures Abs(Clamp(Round(x), 0, 15) as real - x) <= 1.0 <==> -1.0 <= x <= 16.0
  {
  }

  // The smallest weight of a group comes back within one scale exactly when
  // the group comes within a step of zero from above, and within sixteen
  // steps of it from below.
  lemma SmallestWithinIff(group: seq<real>)
    requires group != []
    ensures Abs(Back4(group, Lowest(group)) - Lowest(group)) <= Scale4(group)
            <==> -16.0 * Scale4(group) <= Lowest(group) <= Scale4(group)
  {
    hide Mul, Ratio, Round, Scale4, Lowest, Highest;
    var s, lo, z := Scale4(group), Lowest(group), Zero4(group);
    ClampWithin(Ratio(-lo, s));
    RatioNegated(lo, s);
    assert lo - lo == 0.0;
    RoundBetween(0.0, 0, 0);
    assert Quantize4(group, lo) == 0;
    Scaled((-z) as real, lo, 1.0, s);
    RatioOrder(-lo, 16.0, s);
    RatioOrder(-lo, -1.0, s);
    Steps(16.0, s);
    Steps(-1.0, s);
    Steps(1.0, s);
  }

  // A group more than a step above zero is off by more than a step.
  lemma PositiveGroupIsShifted(group: seq<real>)
    requires group != [] && Lowest(group) > Scale4(group)
    ensures Abs(Back4(group, Lowest(group)) - Lowest(group)) > Scale4(group)
  {
    hide Mul, Ratio, Round;
    var s, lo := Scale4(group), Lowest(group);
    RatioNegated(lo, s);
    assert lo - lo == 0.0;
    RoundBetween(0.0, 0, 0);
    Steps(-1.0, s);
    RatioOrder(-lo, -1.0, s);
    RoundIsNear(Ratio(-lo, s));
    assert Zero4(group) == 0 && Quantize4(group, lo) == 0;
    Steps(0.0, s);
  }

  // ---- Nibbles ----

  predicate Nibbles(q: seq<int>) {
    forall i :: 0 <= i < |q| ==> 0 <= q[i] <= 15
  }

  // Two values a byte, the first one in the high nibble.
  function Pack(q: seq<int>): (p: seq<int>)
    ensures |p| == |q| / 2
  {
    seq(|q| / 2, c requires 0 <= c < |q| / 2 => q[2 * c] * 16 + q[2 * c + 1])
  }

  function Unpack(p: seq<int>): (q: seq<int>)
    ensures |q| == 2 * |p|
  {
    seq(2 * |p|, i requires 0 <= i < 2 * |p| => if i % 2 == 0 then (p[i / 2] / 16) % 16 else p[i / 2] % 16)
  }

  lemma PackRoundTrip(q: seq<int>)
    requires Nibbles(q) && |q| % 2 == 0
    ensures Unpack(Pack(q)) == q
    ensures forall c :: 0 <= c < |Pack(q)| ==>
      0 <= Pack(q)[c] <= 255 && Pack(q)[c] / 16 == q[2 * c] && Pack(q)[c] % 16 == q[2 * c + 1]
  {
    var p := Pack(q);
    forall c | 0 <= c < |p| ensures 0 <= p[c] <= 255 && p[c] / 16 == q[2 * c] && p[c] % 16 == q[2 * c + 1] {
      ByteIs(q[2 * c], q[2 * c + 1]);
    }
    forall i | 0 <= i < |q| ensures Unpack(p)[i] == q[i] {
      ByteIs(q[2 * (i / 2)], q[2 * (i / 2) + 1]);
    }
  }

  lemma ByteIs(high: int, low: int)
    requires 0 <= high <= 15 && 0 <= low <= 15
    ensures var b := high * 16 + low; 0 <= b <= 255 && b / 16 == high && (b / 16) % 16 == high && b % 16 == low
  {
  }

  // ---- A whole row in INT4 ----

  datatype Row4 = Row4(packed: seq<int>, scales: seq<real>, zeros: seq<int>)

  function GroupAt(row: seq<real>, size: pos, g: nat): (group: seq<real>)
    requires (g + 1) * size <= |row|
    ensures |group| == size
  {
    NextBlock(g, size);
    row[g * size..(g + 1) * size]
  }

  // The group weight i belongs to.
  function GroupOf(row: seq<real>, size: pos, groups: nat, i: nat): (group: seq<real>)
    requires |row| == groups * size && i < |row|
    ensures |group| == size && group[Rem(i, size)] == row[i] && Quot(i, size) < groups
  {
    var g := Quot(i, size);
    InBlocks(i, groups, size);
    BlockStart(g + 1, groups, size);
    Decompose(i, size);
    GroupAt(row, size, g)
  }

  function Integers(row: seq<real>, size: pos, groups: nat): (q: seq<int>)
    requires |row| == groups * size
    ensures |q| == |row| && Nibbles(q)
  {
    seq(|row|, i requires 0 <= i < |row| => Quantize4(GroupOf(row, size, groups, i), row[i]))
  }

  function Scales(row: seq<real>, size: pos, groups: nat): (s: seq<real>)
    requires |row| == groups * size
    ensures |s| == groups
  {
    seq(groups, g requires 0 <= g < groups => BlockStart(g + 1, groups, size); Scale4(GroupAt(row, size, g)))
  }

  function Zeros(row: seq<real>, size: pos, groups: nat): (z: seq<int>)
    requires |row| == groups * size
    ensures |z| == groups
  {
    seq(groups, g requires 0 <= g < groups => BlockStart(g + 1, groups, size); Zero4(GroupAt(row, size, g)))
  }

  // None stands for the errors on a length that does not split into groups
  // or pairs.
  function QuantizeRow(row: seq<real>, size: pos): Option<Row4> {
    if Rem(|row|, size) != 0 || |row| % 2 != 0 then None
    else
      var groups := Quot(|row|, size);
      Decompose(|row|, size);
      Some(Row4(Pack(Integers(row, size, groups)), Scales(row, size, groups), Zeros(row, size, groups)))
  }

  function DequantizeRow(r: Row4, size: pos): Option<seq<real>> {
    var n := 2 * |r.packed|;
    if Rem(n, size) != 0 || Quot(n, size) != |r.scales| || Quot(n, size) != |r.zeros| then None
    else
      Decompose(n, size);
      Some(seq(n, i requires 0 <= i < n =>
        InBlocks(i, Quot(n, size), size);
        Dequantize4(Unpack(r.packed)[i], r.scales[Quot(i, size)], r.zeros[Quot(i, size)])))
  }

  lemma RowBack(row: seq<real>, size: pos, groups: nat)
    requires |row| == groups * size && |row| % 2 == 0
    ensures var r := QuantizeRow(row, size);
      && r.Some? && DequantizeRow(r.value, size).Some? && |DequantizeRow(r.value, size).value| == |row|
      && forall i :: 0 <= i < |row| ==>
         DequantizeRow(r.value, size).value[i] == Back4(GroupOf(row, size, groups, i), row[i])
  {
    QuotUnique(|row|, groups, 0, size);
    var q := Integers(row, size, groups);
    PackRoundTrip(q);
    hide Pack, Unpack, Scale4, Zero4, Dequantize4, Quantize4;
  }

  // Packing, unpacking and all: a weight of a row comes back within the scale
  // of its group, if the group straddles zero.
  lemma RowError(row: seq<real>, size: pos, groups: nat, i: nat)
    requires |row| == groups * size && |row| % 2 == 0 && i < |row|
    requires var group := GroupOf(row, size, groups, i); Lowest(group) <= 0.0 <= Highest(group)
    ensures var r := QuantizeRow(row, size);
      && r.Some? && DequantizeRow(r.value, size).Some? && |DequantizeRow(r.value, size).value| == |row|
      && Abs(DequantizeRow(r.value, size).value[i] - row[i]) <= Scale4(GroupOf(row, size, groups, i))
  {
    hide QuantizeRow, DequantizeRow, Back4, Scale4, GroupOf, Lowest, Highest;
    RowBack(row, size, groups);
    StraddlingGroupError(GroupOf(row, size, groups, i), Rem(i, size));
  }

  // ---- Words of eight nibbles ----

  // The word shifted right by 4 j bits, keeping the sign.
  function Shift(word: int, j: nat): int
    decreases j
  {
    if j == 0 then word else Shift(word / 16, j - 1)
  }

  // (word >> 4 j) & 15
  function Nibble(word: int, j: nat): (n: int)
    ensures 0 <= n <= 15
  {
    Shift(word, j) % 16
  }

  // The unsigned number with these base-16 digits, least significant first.
  function Value(digits: seq<int>): int {
    if digits == [] then 0 else digits[0] + 16 * Value(digits[1..])
  }

  function Digits(word: int, n: nat): (d: seq<int>)
    ensures |d| == n
  {
    seq(n, j requires 0 <= j < n => Nibble(word, j))
  }

  // n digits up.
  function Up(x: int, n: nat): int {
    if n == 0 then x else 16 * Up(x, n - 1)
  }

  lemma {:induction false} Expand(word: int, n: nat)
    ensures word == Value(Digits(word, n)) + Up(Shift(word, n), n)
    decreases n
  {
    if n > 0 {
      Expand(word / 16, n - 1);
      var d := Digits(word, n);
      assert d[1..] == Digits(word / 16, n - 1);
      assert d[0] == word % 16;
    }
  }

  lemma {:induction false} UpIs(x: int, n: nat)
    ensures Up(x, n) == x * Up(1, n)
  {
    if n > 0 {
      UpIs(x, n - 1);
      assert 16 * (x * Up(1, n - 1)) == x * (16 * Up(1, n - 1));
    }
  }

  lemma EightDigitsUp()
    ensures Up(1, 8) == 0x1_0000_0000
  {
    assert Up(1, 4) == 0x1_0000;
    assert Up(1, 6) == 256 * Up(1, 4);
    assert Up(1, 8) == 256 * Up(1, 6);
  }

  lemma EightShifts(word: int)
    requires -0x8000_0000 <= word < 0x8000_0000
    ensures Shift(word, 8) == if word >= 0 then 0 else -1
  {
    var a := word / 16 / 16;
    var b := a / 16 / 16;
    var c := b / 16 / 16;
    assert Shift(word, 8) == Shift(a, 6);
    assert Shift(a, 6) == Shift(b, 4);
    assert Shift(b, 4) == Shift(c, 2);
    assert Shift(c, 2) == c / 16 / 16;
  }

  // The eight nibbles of a signed 32-bit word are the digits of the same word
  // read as unsigned.
  lemma NibblesAreDigits(word: int)
    requires -0x8000_0000 <= word < 0x8000_0000
    ensures Value(Digits(word, 8)) == if word >= 0 then word else word + 0x1_0000_0000
  {
    hide Value, Digits, Shift, Up;
    Expand(word, 8);
    EightShifts(word);
    UpIs(-1, 8);
    UpIs(0, 8);
    EightDigitsUp();
  }

  // ---- AWQ and GPTQ matrices ----

  predicate Rectangular(m: seq<seq<int>>, cols: nat) {
    forall r :: 0 <= r < |m| ==> |m[r]| == cols
  }

  // One pass of the loop: one nibble of every word.
  function Shifted(qw: seq<seq<int>>, j: nat): (m: seq<seq<int>>)
    ensures |m| == |qw| && forall r :: 0 <= r < |qw| ==> |m[r]| == |qw[r]|
  {
    seq(|qw|, r requires 0 <= r < |qw| => seq(|qw[r]|, o requires 0 <= o < |qw[r]| => Nibble(qw[r][o], j)))
  }

  // Value x is nibble i mod 8 of word [i div 8][o].
  ghost predicate IsNibble(qw: seq<seq<int>>, o: nat, i: nat, x: int) {
    i / 8 < |qw| && o < |qw[i / 8]| && x == Nibble(qw[i / 8][o], i % 8)
  }

  // The unpacked matrix, nibble by nibble.
  ghost predicate Unpacked(qw: seq<seq<int>>, w: seq<seq<int>>, cols: nat)
    requires Rectangular(qw, cols)
  {
    && |w| == 8 * |qw| && Rectangular(w, cols)
    && forall i, o :: 0 <= i < |w| && 0 <= o < cols ==> IsNibble(qw, o, i, w[i][o])
  }

  // Eight shifts, stacked along the input dimension.
  method UnpackQweight(qw: seq<seq<int>>, cols: nat) returns (w: seq<seq<int>>)
    requires Rectangular(qw, cols)
    ensures Unpacked(qw, w, cols)
  {
    var parts: seq<seq<seq<int>>> := [];
    for j := 0 to 8
      invariant |parts| == j && forall k :: 0 <= k < j ==> parts[k] == Shifted(qw, k)
    {
      parts := parts + [Shifted(qw, j)];
    }
    w := seq(8 * |qw|, i requires 0 <= i < 8 * |qw| => parts[i % 8][i / 8]);
  }

  // Transposed and packed two by two.
  function ToInternal(w: seq<seq<int>>, cols: nat): (p: seq<seq<int>>)
    requires Rectangular(w, cols)
    ensures |p| == cols
  {
    seq(cols, o requires 0 <= o < cols => Pack(seq(|w|, i requires 0 <= i < |w| => w[i][o])))
  }

  lemma InternalLength(w: seq<seq<int>>, cols: nat, o: nat)
    requires Rectangular(w, cols) && o < cols && |w| % 2 == 0
    ensures |Unpack(ToInternal(w, cols)[o])| == |w|
  {
    hide Unpack, Pack;
    assert ToInternal(w, cols)[o] == Pack(seq(|w|, i requires 0 <= i < |w| => w[i][o]));
  }

  // From the word matrix through our packed bytes and back out: weight (o, i)
  // is nibble i mod 8 of word [i div 8][o], negative words included.
  lemma RepackingKeepsNibbles(qw: seq<seq<int>>, w: seq<seq<int>>, cols: nat, o: nat, i: nat)
    requires Rectangular(qw, cols) && Unpacked(qw, w, cols) && o < cols && i < |w|
    ensures |Unpack(ToInternal(w, cols)[o])| == |w|
    ensures IsNibble(qw, o, i, Unpack(ToInternal(w, cols)[o])[i])
  {
    hide Nibble, Unpack, Pack;
    var column := seq(|w|, k requires 0 <= k < |w| => w[k][o]);
    forall k | 0 <= k < |w| ensures 0 <= column[k] <= 15 {
      assert IsNibble(qw, o, k, w[k][o]);
    }
    assert |column| % 2 == 0;
    PackRoundTrip(column);
  }

  ghost predicate Repacked(qw: seq<seq<int>>, bytes: seq<int>, o: nat) {
    && |Unpack(bytes)| == 8 * |qw|
    && forall i :: 0 <= i < 8 * |qw| ==> IsNibble(qw, o, i, Unpack(bytes)[i])
  }

  lemma RepackedColumn(qw: seq<seq<int>>, w: seq<seq<int>>, cols: nat, o: nat)
    requires Rectangular(qw, cols) && Unpacked(qw, w, cols) && o < cols
    ensures Repacked(qw, ToInternal(w, cols)[o], o)
  {
    hide IsNibble, Unpack, Pack, Rectangular, ToInternal;
    InternalLength(w, cols, o);
    var bytes := ToInternal(w, cols)[o];
    forall i | 0 <= i < |w| ensures IsNibble(qw, o, i, Unpack(bytes)[i]) {
      RepackingKeepsNibbles(qw, w, cols, o, i);
    }
  }

  // Both steps as the loader runs them.
  method Repack(qw: seq<seq<int>>, cols: nat) returns (packed: seq<seq<int>>)
    requires Rectangular(qw, cols)
    ensures |packed| == cols
    ensures forall o :: 0 <= o < cols ==> Repacked(qw, packed[o], o)
  {
    hide Nibble, Unpack, Pack, ToInternal;
    var w := UnpackQweight(qw, cols);
    packed := ToInternal(w, cols);
    forall o | 0 <= o < cols ensures Repacked(qw, packed[o], o) {
      RepackedColumn(qw, w, cols, o);
    }
  }
}
