/** lasercut/join.py: the slot positions of a tab along its face. */
module JoinSlots {
  import opened Wrappers
  import opened Solids
  import opened TabProperty


  /** How many times `range(int(float(n) / 2.0))` runs: the truncated half,
      nothing for a negative count. */
  function HalfCount(n: int): nat
  {
    if n > 0 then n / 2 else 0
  }

  /** Distance from `tabs_shift` of the `i`-th symmetric pair. With an odd
      count the pairs sit at whole intervals and `interval_ratio` is applied
      twice when it is not 1; with an even count they sit at half intervals
      and the ratio is applied once when it is not 1. */
  function SlotOffset(odd: bool, interval: real, ratio: real, i: nat): real
  {
    var factor := if ratio != 1.0 then ratio else 1.0;
    if odd then (i + 1) as real * (interval * ratio * factor)
    else (i as real + 0.5) * (interval * factor)
  }

  /** The first `m` pairs, each as its `+` position then its `-` position. */
  function SlotPairs(shift: real, odd: bool, interval: real, ratio: real, m: nat): seq<real>
  {
    if m == 0 then []
    else SlotPairs(shift, odd, interval, ratio, m - 1) +
         [shift + SlotOffset(odd, interval, ratio, m - 1), shift - SlotOffset(odd, interval, ratio, m - 1)]
  }

  function Negated(s: seq<real>): (r: seq<real>)
    ensures |r| == |s| && forall i :: 0 <= i < |s| ==> r[i] == -s[i]
  {
    seq(|s|, i requires 0 <= i < |s| => -s[i])
  }

  /** The slot positions of a tab, before `y_invert`: `tabs_shift` itself for
      an odd count, then the pairs. */
  function BaseSlots(yLength: real, n: int, shift: real, ratio: real): seq<real>
    requires n != 0
  {
    var odd := n % 2 == 1;
    (if odd then [shift] else []) + SlotPairs(shift, odd, yLength / n as real, ratio, HalfCount(n))
  }

  function SlotPositions(yLength: real, n: int, shift: real, ratio: real, invert: bool): seq<real>
    requires n != 0
  {
    if invert then Negated(BaseSlots(yLength, n, shift, ratio)) else BaseSlots(yLength, n, shift, ratio)
  }

  /** `get_slot_positions`. A tab without a `y_length` attribute (its face
      had no local frame) fails reading it with an AttributeError, a zero tab
      count with a ZeroDivisionError. */
  method GetSlotPositions(tab: TabProperties) returns (r: Result<seq<real>>)
    ensures tab.yLength.None? ==> r == Err(AttributeError)
    ensures tab.yLength.Some? && tab.tabsNumber == 0 ==> r == Err(ZeroDivisionError)
    ensures tab.yLength.Some? && tab.tabsNumber != 0 ==>
      r == Ok(SlotPositions(tab.yLength.value, tab.tabsNumber, tab.tabsShift, tab.intervalRatio, tab.yInvert))
  {
    if tab.yLength.None? {
      return Err(AttributeError);
    }
    var n := tab.tabsNumber;
    if n == 0 {
      return Err(ZeroDivisionError);
    }
    var ratio := tab.intervalRatio;
    var shift := tab.tabsShift;
    var intervalLength := tab.yLength.value / n as real;
    var half := HalfCount(n);
    var odd := n % 2 == 1;
    var slots: seq<real> := [];
    if odd {
      slots := [shift];
    }
    ghost var head := slots;
    var i := 0;
    while i < half
      invariant 0 <= i <= half
      invariant slots == head + SlotPairs(shift, odd, intervalLength, ratio, i)
    {
      var left, right;
      if odd {
        left := (i + 1) as real * intervalLength * ratio;
        right := -((i + 1) as real) * intervalLength * ratio;
      } else {
        left := i as real * intervalLength + intervalLength / 2.0;
        right := -(i as real) * intervalLength - intervalLength / 2.0;
      }
      if ratio != 1.0 {
        left := left * ratio;
        right := right * ratio;
      }
      SlotStep(odd, intervalLength, ratio, i, left, right);
      slots := slots + [left + shift, right + shift];
      i := i + 1;
    }
    if tab.yInvert {
      slots := NegateAll(slots);
    }
    return Ok(slots);
  }

  /** One turn of the `get_slot_positions` loop computes the `i`-th pair. */
  lemma SlotStep(odd: bool, interval: real, ratio: real, i: nat, left: real, right: real)
    requires left == (if odd then (i + 1) as real * interval * ratio else i as real * interval + interval / 2.0) *
                     (if ratio != 1.0 then ratio else 1.0)
    requires right == (if odd then -((i + 1) as real) * interval * ratio else -(i as real) * interval - interval / 2.0) *
                      (if ratio != 1.0 then ratio else 1.0)
    ensures left == SlotOffset(odd, interval, ratio, i) && right == -SlotOffset(odd, interval, ratio, i)
  {
  }

  /** The `y_invert` loop of `get_slot_positions`. */
  method NegateAll(s: seq<real>) returns (r: seq<real>)
    ensures r == Negated(s)
  {
    r := [];
    var k := 0;
    while k < |s|
      invariant 0 <= k <= |s|
      invariant r == Negated(s[..k])
    {
      r := r + [-s[k]];
      k := k + 1;
    }
    assert s[..|s|] == s;
  }

  lemma {:induction false} SlotPairsShape(shift: real, odd: bool, interval: real, ratio: real, m: nat)
    ensures |SlotPairs(shift, odd, interval, ratio, m)| == 2 * m
    ensures forall k :: 0 <= k < m ==>
      SlotPairs(shift, odd, interval, ratio, m)[2 * k] == shift + SlotOffset(odd, interval, ratio, k) &&
      SlotPairs(shift, odd, interval, ratio, m)[2 * k + 1] == shift - SlotOffset(odd, interval, ratio, k)
  {
    if m > 0 {
      SlotPairsShape(shift, odd, interval, ratio, m - 1);
    }
  }

  /** A positive tab count gives exactly that many slots, odd or even. */
  lemma SlotCount(yLength: real, n: int, shift: real, ratio: real, invert: bool)
    requires n >= 1
    ensures |SlotPositions(yLength, n, shift, ratio, invert)| == n
  {
    SlotPairsShape(shift, n % 2 == 1, yLength / n as real, ratio, HalfCount(n));
  }

  /** Before inversion the slots come in pairs symmetric about `tabs_shift`,
      after `tabs_shift` itself when the count is odd (so the pairs start at
      index `n % 2`). */
  lemma SlotSymmetry(yLength: real, n: int, shift: real, ratio: real)
    requires n >= 1
    ensures |BaseSlots(yLength, n, shift, ratio)| == n % 2 + 2 * HalfCount(n)
    ensures n % 2 == 1 ==> BaseSlots(yLength, n, shift, ratio)[0] == shift
    ensures forall k :: 0 <= k < HalfCount(n) ==>
      BaseSlots(yLength, n, shift, ratio)[n % 2 + 2 * k] +
      BaseSlots(yLength, n, shift, ratio)[n % 2 + 2 * k + 1] == 2.0 * shift
  {
    var odd := n % 2 == 1;
    var interval := yLength / n as real;
    var pairs := SlotPairs(shift, odd, interval, ratio, HalfCount(n));
    SlotPairsShape(shift, odd, interval, ratio, HalfCount(n));
    var base := BaseSlots(yLength, n, shift, ratio);
    assert base == (if odd then [shift] else []) + pairs;
    forall k | 0 <= k < HalfCount(n)
      ensures base[n % 2 + 2 * k] + base[n % 2 + 2 * k + 1] == 2.0 * shift
    {
      assert base[n % 2 + 2 * k] == pairs[2 * k];
      assert base[n % 2 + 2 * k + 1] == pairs[2 * k + 1];
    }
  }

  /** `y_invert` mirrors every slot. */
  lemma SlotInvert(yLength: real, n: int, shift: real, ratio: real)
    requires n != 0
    ensures SlotPositions(yLength, n, shift, ratio, true) == Negated(SlotPositions(yLength, n, shift, ratio, false))
  {
  }

  /** With a positive interval and ratio, the pair offsets grow strictly. */
  lemma SlotOffsetsIncrease(odd: bool, interval: real, ratio: real, i: nat, j: nat)
    requires interval > 0.0 && ratio > 0.0 && i < j
    ensures 0.0 < SlotOffset(odd, interval, ratio, i) < SlotOffset(odd, interval, ratio, j)
  {
    var factor := if ratio != 1.0 then ratio else 1.0;
    var step := if odd then interval * ratio * factor else interval * factor;
    assert step > 0.0 by {
      assert interval * ratio > 0.0;
    }
    var a := if odd then (i + 1) as real else i as real + 0.5;
    var b := if odd then (j + 1) as real else j as real + 0.5;
    assert SlotOffset(odd, interval, ratio, i) == a * step;
    assert SlotOffset(odd, interval, ratio, j) == b * step;
    MulStrict(a, b, step);
  }

  lemma MulStrict(a: real, b: real, c: real)
    requires 0.0 < a < b && c > 0.0
    ensures 0.0 < a * c < b * c
  {
    assert (b - a) * c > 0.0;
  }

  predicate AllDistinct(s: seq<real>)
  {
    forall a, b :: 0 <= a < b < |s| ==> s[a] != s[b]
  }

  /** Every pair position lies off `tabs_shift`, no further than the last offset. */
  lemma {:induction false} SlotPairsBounded(shift: real, odd: bool, interval: real, ratio: real, m: nat)
    requires interval > 0.0 && ratio > 0.0 && m > 0
    ensures forall i :: 0 <= i < |SlotPairs(shift, odd, interval, ratio, m)| ==>
      0.0 < Abs(SlotPairs(shift, odd, interval, ratio, m)[i] - shift) <= SlotOffset(odd, interval, ratio, m - 1)
  {
    var o := SlotOffset(odd, interval, ratio, m - 1);
    SlotOffsetsIncrease(odd, interval, ratio, m - 1, m);
    if m > 1 {
      SlotPairsBounded(shift, odd, interval, ratio, m - 1);
      SlotOffsetsIncrease(odd, interval, ratio, m - 2, m - 1);
    }
  }

  lemma {:induction false} SlotPairsDistinct(shift: real, odd: bool, interval: real, ratio: real, m: nat)
    requires interval > 0.0 && ratio > 0.0
    ensures AllDistinct(SlotPairs(shift, odd, interval, ratio, m))
  {
    if m > 0 {
      var p := SlotPairs(shift, odd, interval, ratio, m - 1);
      var o := SlotOffset(odd, interval, ratio, m - 1);
      var q := SlotPairs(shift, odd, interval, ratio, m);
      assert q == p + [shift + o, shift - o];
      SlotPairsDistinct(shift, odd, interval, ratio, m - 1);
      SlotOffsetsIncrease(odd, interval, ratio, m - 1, m);
      if m > 1 {
        SlotPairsBounded(shift, odd, interval, ratio, m - 1);
        SlotOffsetsIncrease(odd, interval, ratio, m - 2, m - 1);
      }
      forall a, b | 0 <= a < b < |q| ensures q[a] != q[b] {
        if b < |p| {
          assert q[a] == p[a] && q[b] == p[b];
        } else if a < |p| {
          assert q[a] == p[a];
          assert Abs(q[b] - shift) == o;
        } else {
          assert q[a] == shift + o && q[b] == shift - o;
        }
      }
    }
  }

  lemma BaseSlotsDistinct(yLength: real, n: int, shift: real, ratio: real)
    requires yLength > 0.0 && n >= 1 && ratio > 0.0
    ensures AllDistinct(BaseSlots(yLength, n, shift, ratio))
  {
    var odd := n % 2 == 1;
    var interval := yLength / n as real;
    var m := HalfCount(n);
    var pairs := SlotPairs(shift, odd, interval, ratio, m);
    SlotPairsDistinct(shift, odd, interval, ratio, m);
    var base := BaseSlots(yLength, n, shift, ratio);
    if odd {
      if m > 0 {
        SlotPairsBounded(shift, odd, interval, ratio, m);
      }
      assert base == [shift] + pairs;
      forall a, b | 0 <= a < b < |base| ensures base[a] != base[b] {
        if a > 0 {
          assert base[a] == pairs[a - 1] && base[b] == pairs[b - 1];
        } else {
          assert base[b] == pairs[b - 1];
          assert Abs(base[b] - shift) > 0.0;
        }
      }
    } else {
      assert base == pairs;
    }
  }

  /** No two slots of a tab coincide when its length, count and ratio are positive. */
  lemma SlotsDistinct(yLength: real, n: int, shift: real, ratio: real, invert: bool)
    requires yLength > 0.0 && n >= 1 && ratio > 0.0
    ensures AllDistinct(SlotPositions(yLength, n, shift, ratio, invert))
  {
    BaseSlotsDistinct(yLength, n, shift, ratio);
    if invert {
      NegatedDistinct(BaseSlots(yLength, n, shift, ratio));
    }
  }

  lemma NegatedDistinct(s: seq<real>)
    requires AllDistinct(s)
    ensures AllDistinct(Negated(s))
  {
    var t := Negated(s);
    forall a, b | 0 <= a < b < |t| ensures t[a] != t[b] {
      assert s[a] != s[b];
    }
  }
}
