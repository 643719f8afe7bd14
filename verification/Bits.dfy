/**
 Numbers as big-endian bit strings. Both base64 (8-bit groups against 6-bit groups) and BIP39
 (8-bit groups against 11-bit groups) say what they mean in these terms: the same bit string cut
 at a different width.
 */
module Bits {
  import opened Sequences

  type byte = b: int | 0 <= b < 256

  function Pow2(n: nat): (p: nat)
    ensures p > 0
  {
    if n == 0 then 1 else 2 * Pow2(n - 1)
  }

  /** `x >> n`. */
  function ShiftRight(x: nat, n: nat): nat {
    if n == 0 then x else ShiftRight(x / 2, n - 1)
  }

  /** The low `w` bits of `x`, most significant first. */
  function ToBits(x: nat, w: nat): (bs: seq<bool>)
    ensures |bs| == w
  {
    if w == 0 then [] else ToBits(x / 2, w - 1) + [x % 2 == 1]
  }

  /** The number a bit string spells. */
  function Value(bs: seq<bool>): (x: nat)
    ensures x < Pow2(|bs|)
  {
    if |bs| == 0 then 0
    else 2 * Value(bs[..|bs| - 1]) + (if bs[|bs| - 1] then 1 else 0)
  }

  /** The concatenated `w`-bit forms of a sequence of numbers. */
  function Flatten(xs: seq<nat>, w: nat): seq<bool> {
    if |xs| == 0 then [] else Flatten(xs[..|xs| - 1], w) + ToBits(xs[|xs| - 1], w)
  }

  /** Cut a bit string into `w`-bit numbers, dropping an incomplete last group. */
  function Regroup(bs: seq<bool>, w: nat): (xs: seq<nat>)
    requires w > 0
    ensures forall k :: 0 <= k < |xs| ==> xs[k] < Pow2(w)
  {
    if |bs| < w then [] else [Value(bs[..w])] + Regroup(bs[w..], w)
  }

  lemma {:induction false} ValueSnoc(bs: seq<bool>, b: bool)
    ensures Value(bs + [b]) == 2 * Value(bs) + (if b then 1 else 0)
  {
    assert (bs + [b])[..|bs|] == bs;
  }

  lemma {:induction false} FlattenSnoc(xs: seq<nat>, x: nat, w: nat)
    ensures Flatten(xs + [x], w) == Flatten(xs, w) + ToBits(x, w)
  {
    assert (xs + [x])[..|xs|] == xs;
  }

  lemma {:induction false} FlattenLength(xs: seq<nat>, w: nat)
    ensures |Flatten(xs, w)| == w * |xs|
  {
    if |xs| > 0 {
      FlattenLength(xs[..|xs| - 1], w);
      assert w * |xs| == w * (|xs| - 1) + w;
    }
  }

  /** Spelling a `w`-bit number and reading it back. */
  lemma {:induction false} ValueOfBits(x: nat, w: nat)
    requires x < Pow2(w)
    ensures Value(ToBits(x, w)) == x
  {
    if w > 0 {
      ValueOfBits(x / 2, w - 1);
      ValueSnoc(ToBits(x / 2, w - 1), x % 2 == 1);
    }
  }

  /** Shifting by `n` drops an `n`-bit number put behind. */
  lemma {:induction false} ShiftDropsLow(x: nat, low: nat, n: nat)
    requires low < Pow2(n)
    ensures ShiftRight(x * Pow2(n) + low, n) == x
  {
    if n > 0 {
      ShiftDropsLow(x, low / 2, n - 1);
      HalfOfJoin(x, Pow2(n - 1), low);
    }
  }

  lemma HalfOfJoin(x: nat, p: nat, low: nat)
    ensures (x * (2 * p) + low) / 2 == x * p + low / 2
  {
    assert x * (2 * p) == 2 * (x * p);
  }

  lemma {:induction false} BitsOfValue(bs: seq<bool>)
    ensures ToBits(Value(bs), |bs|) == bs
  {
    if |bs| > 0 {
      var init, last := bs[..|bs| - 1], bs[|bs| - 1];
      BitsOfValue(init);
      assert Value(bs) / 2 == Value(init);
      assert bs == init + [last];
    }
  }

  lemma {:induction false} FlattenAppend(xs: seq<nat>, ys: seq<nat>, w: nat)
    ensures Flatten(xs + ys, w) == Flatten(xs, w) + Flatten(ys, w)
  {
    assert Flatten([], w) == [];
    hide Flatten, ToBits;
    if |ys| == 0 {
      assert xs + ys == xs && ys == [];
    } else {
      var init, last := ys[..|ys| - 1], ys[|ys| - 1];
      FlattenAppend(xs, init, w);
      SplitLast(xs, ys);
      FlattenSnoc(xs + init, last, w);
      FlattenSnoc(init, last, w);
      Appended(Flatten(xs, w), Flatten(init, w), ToBits(last, w));
    }
  }

  /** Putting a `lo`-bit number after a `hi`-bit one concatenates their bit strings. */
  lemma {:induction false} BitsJoin(x: nat, y: nat, hi: nat, lo: nat)
    requires y < Pow2(lo)
    ensures ToBits(x * Pow2(lo) + y, hi + lo) == ToBits(x, hi) + ToBits(y, lo)
  {
    if lo == 0 {
      assert x * 1 + y == x;
      assert ToBits(x, hi) + [] == ToBits(x, hi);
    } else {
      var z := x * Pow2(lo - 1) + y / 2;
      assert x * Pow2(lo) + y == 2 * z + y % 2 by {
        assert x * Pow2(lo) == 2 * (x * Pow2(lo - 1));
      }
      BitsJoin(x, y / 2, hi, lo - 1);
      JoinLast(2 * z + y % 2, hi + lo);
      assert ToBits(y, lo) == ToBits(y / 2, lo - 1) + [y % 2 == 1];
    }
  }

  lemma {:induction false} JoinLast(x: nat, w: nat)
    requires w > 0
    ensures ToBits(x, w) == ToBits(x / 2, w - 1) + [x % 2 == 1]
  {
  }

  /** Concatenation of bit strings as arithmetic. */
  lemma {:induction false} ValueAppend(a: seq<bool>, b: seq<bool>)
    ensures Value(a + b) == Value(a) * Pow2(|b|) + Value(b)
  {
    assert Value([]) == 0;
    DoublePow2(|b|);
    hide Value, Pow2;
    if |b| == 0 {
      assert a + b == a && b == [];
      assert Value(a) * 1 == Value(a);
    } else {
      var init, last := b[..|b| - 1], b[|b| - 1];
      ValueAppend(a, init);
      SplitLast(a, b);
      ValueSnoc(a + init, last);
      ValueSnoc(init, last);
      DoubleSum(Value(a), Pow2(|init|), Value(init), if last then 1 else 0);
    }
  }

  lemma DoublePow2(n: nat)
    ensures Pow2(n) == if n == 0 then 1 else 2 * Pow2(n - 1)
  {
  }

  lemma DoubleSum(x: nat, p: nat, y: nat, l: nat)
    ensures 2 * (x * p + y) + l == x * (2 * p) + (2 * y + l)
  {
  }

  lemma FirstGroup(bs: seq<bool>, w: nat)
    requires w > 0
    ensures Regroup(bs, w) == if |bs| < w then [] else [Value(bs[..w])] + Regroup(bs[w..], w)
  {
  }

  lemma {:induction false} RegroupAppend(a: seq<bool>, b: seq<bool>, w: nat, n: nat)
    requires w > 0 && |a| == w * n
    ensures Regroup(a + b, w) == Regroup(a, w) + Regroup(b, w)
    ensures |Regroup(a, w)| == n
    decreases n
  {
    FirstGroup(a, w);
    hide Regroup, Value;
    if n == 0 {
      assert a == [] && a + b == b;
    } else {
      OneMoreGroup(w, n);
      FirstGroup(a + b, w);
      RegroupAppend(a[w..], b, w, n - 1);
      TakeAndDrop(a, b, w);
      Appended([Value(a[..w])], Regroup(a[w..], w), Regroup(b, w));
    }
  }

  /** Cutting a flattened sequence at its own width gives the sequence back. */
  lemma {:induction false} RegroupFlatten(xs: seq<nat>, w: nat)
    requires w > 0
    requires forall k :: 0 <= k < |xs| ==> xs[k] < Pow2(w)
    ensures Regroup(Flatten(xs, w), w) == xs
  {
    if |xs| == 0 {
      assert Regroup([], w) == [];
    } else {
      var init, last := xs[..|xs| - 1], xs[|xs| - 1];
      RegroupFlatten(init, w);
      FlattenLength(init, w);
      RegroupSnoc(Flatten(init, w), last, w, |init|);
      hide Regroup, ToBits, Pow2;
      assert xs == init + [last];
    }
  }

  lemma {:induction false} RegroupSnoc(bs: seq<bool>, x: nat, w: nat, n: nat)
    requires w > 0 && |bs| == w * n && x < Pow2(w)
    ensures Regroup(bs + ToBits(x, w), w) == Regroup(bs, w) + [x]
  {
    RegroupAppend(bs, ToBits(x, w), w, n);
    ValueOfBits(x, w);
    RegroupOne(ToBits(x, w));
  }

  lemma {:induction false} RegroupOne(bs: seq<bool>)
    requires |bs| > 0
    ensures Regroup(bs, |bs|) == [Value(bs)]
  {
    assert bs[..|bs|] == bs && bs[|bs|..] == [];
    assert Regroup(bs[|bs|..], |bs|) == [];
  }

  /** And a bit string made of whole groups survives being cut and flattened. */
  lemma {:induction false} FlattenRegroup(bs: seq<bool>, w: nat, n: nat)
    requires w > 0 && |bs| == w * n
    ensures Flatten(Regroup(bs, w), w) == bs
    ensures |Regroup(bs, w)| == n
    decreases n
  {
    FirstGroup(bs, w);
    assert Flatten([], w) == [];
    hide Regroup, Flatten, Value, ToBits;
    if n > 0 {
      OneMoreGroup(w, n);
      var head, rest := bs[..w], bs[w..];
      FlattenRegroup(rest, w, n - 1);
      FlattenAppend([Value(head)], Regroup(rest, w), w);
      BitsOfValue(head);
      FlattenOne(Value(head), w);
      TakeAndDrop(bs, [], w);
    }
  }

  lemma OneMoreGroup(w: nat, n: nat)
    requires n > 0
    ensures w * n == w * (n - 1) + w >= w
  {
  }

  lemma {:induction false} FlattenOne(x: nat, w: nat)
    ensures Flatten([x], w) == ToBits(x, w)
  {
    FlattenSnoc([], x, w);
    assert [] + [x] == [x];
    assert [] + ToBits(x, w) == ToBits(x, w);
  }
}
