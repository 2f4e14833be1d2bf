/** Machine words of `w` bits as natural numbers below 2^w, and the operations of the fetch family. */
module AtomicWords {
  import opened Basics

  function Pow2(w: nat): (r: nat)
    ensures r > 0
  {
    if w == 0 then 1 else 2 * Pow2(w - 1)
  }

  datatype Op = And | Or | Xor | Add | Sub

  /** One bit of `&`, `|`, `^`. */
  function BitOp(op: Op, a: nat, b: nat): nat {
    match op
    case And => if a == 1 && b == 1 then 1 else 0
    case Or => if a == 1 || b == 1 then 1 else 0
    case _ => if a != b then 1 else 0
  }

  function Bitwise(op: Op, w: nat, a: nat, b: nat): nat {
    if w == 0 then 0 else 2 * Bitwise(op, w - 1, a / 2, b / 2) + BitOp(op, a % 2, b % 2)
  }

  function BitAt(i: nat, a: nat): (b: nat)
    ensures b <= 1
  {
    if i == 0 then a % 2 else BitAt(i - 1, a / 2)
  }

  /** A word read as a two's complement number. */
  function Signed(w: nat, v: nat): int
    requires w > 0
  {
    if v < Pow2(w - 1) then v else v - Pow2(w)
  }

  /** `-(arg)` converted to a word: the argument that `atomic_fetch_sub` passes on (291). */
  function Negated(w: nat, arg: nat): nat {
    (0 - arg) % Pow2(w)
  }

  /** The new value of an object holding `v`; subtraction is addition of the negated argument. */
  function Apply(op: Op, w: nat, v: nat, arg: nat): nat {
    match op
    case Add => (v + arg) % Pow2(w)
    case Sub => (v + Negated(w, arg)) % Pow2(w)
    case _ => Bitwise(op, w, v, arg)
  }

  lemma {:induction false} BitwiseInRange(op: Op, w: nat, a: nat, b: nat)
    ensures Bitwise(op, w, a, b) < Pow2(w)
  {
    if w > 0 {
      BitwiseInRange(op, w - 1, a / 2, b / 2);
    }
  }

  /** Every operation yields a word. */
  lemma ApplyInRange(op: Op, w: nat, v: nat, arg: nat)
    ensures Apply(op, w, v, arg) < Pow2(w)
  {
    BitwiseInRange(op, w, v, arg);
  }

  /** The bitwise operations act on each bit by itself. */
  lemma {:induction false} BitwiseBits(op: Op, w: nat, a: nat, b: nat, i: nat)
    requires i < w
    ensures BitAt(i, Bitwise(op, w, a, b)) == BitOp(op, BitAt(i, a), BitAt(i, b))
  {
    var r := Bitwise(op, w - 1, a / 2, b / 2);
    assert Bitwise(op, w, a, b) / 2 == r && Bitwise(op, w, a, b) % 2 == BitOp(op, a % 2, b % 2);
    if i > 0 {
      BitwiseBits(op, w - 1, a / 2, b / 2, i - 1);
    }
  }

  /** What the bits of `r` are, said of the bits of `a` and `b`. */
  ghost predicate Combines(op: Op, w: nat, r: nat, a: nat, b: nat) {
    forall i :: 0 <= i < w ==>
      match op
      case And => BitAt(i, r) == 1 <==> BitAt(i, a) == 1 && BitAt(i, b) == 1
      case Or => BitAt(i, r) == 1 <==> BitAt(i, a) == 1 || BitAt(i, b) == 1
      case Xor => BitAt(i, r) == 1 <==> BitAt(i, a) != BitAt(i, b)
      case _ => true
  }

  /** `&` has the bits that both words have, `|` those that at least one has, `^` those in which they differ. */
  lemma BitwiseCombines(op: Op, w: nat, a: nat, b: nat)
    ensures Combines(op, w, Bitwise(op, w, a, b), a, b)
  {
    forall i | 0 <= i < w
      ensures BitAt(i, Bitwise(op, w, a, b)) == BitOp(op, BitAt(i, a), BitAt(i, b))
    {
      BitwiseBits(op, w, a, b, i);
    }
  }

  /** What holds of the three results as numbers. */
  lemma {:induction false} BitwiseSums(w: nat, a: nat, b: nat)
    requires a < Pow2(w) && b < Pow2(w)
    ensures Bitwise(And, w, a, b) + Bitwise(Or, w, a, b) == a + b
    ensures Bitwise(And, w, a, b) + Bitwise(Xor, w, a, b) == Bitwise(Or, w, a, b)
    ensures Bitwise(And, w, a, b) <= a <= Bitwise(Or, w, a, b)
  {
    if w > 0 {
      BitwiseSums(w - 1, a / 2, b / 2);
    }
  }

  // ----- what words and their bits are

  lemma {:induction false} Pow2Adds(v: nat, w: nat)
    ensures Pow2(v + w) == Pow2(v) * Pow2(w)
  {
    if v > 0 {
      Pow2Adds(v - 1, w);
      assert Pow2(v) * Pow2(w) == 2 * (Pow2(v - 1) * Pow2(w));
    }
  }

  lemma Doubled(w: nat, m: nat, v: nat, r: nat)
    requires Pow2(w) == m && v == w + w && r == m * m
    ensures Pow2(v) == r
  {
    Pow2Adds(w, w);
  }

  /** The moduli of the integer types. */
  lemma Pow2Values()
    ensures Pow2(1) == 2 && Pow2(8) == 0x100 && Pow2(16) == 0x1_0000
    ensures Pow2(32) == 0x1_0000_0000 && Pow2(64) == 0x1_0000_0000_0000_0000
  {
    assert Pow2(1) == 2 * Pow2(0);
    Doubled(1, 2, 2, 4);
    Doubled(2, 4, 4, 0x10);
    Doubled(4, 0x10, 8, 0x100);
    Doubled(8, 0x100, 16, 0x1_0000);
    Doubled(16, 0x1_0000, 32, 0x1_0000_0000);
    Doubled(32, 0x1_0000_0000, 64, 0x1_0000_0000_0000_0000);
  }

  /** A bit is a binary digit. */
  lemma {:induction false} BitIsDigit(i: nat, a: nat)
    ensures BitAt(i, a) == a / Pow2(i) % 2
  {
    if i > 0 {
      BitIsDigit(i - 1, a / 2);
      HalvesFirst(a, Pow2(i - 1));
    }
  }

  lemma HalvesFirst(a: nat, m: nat)
    requires m > 0
    ensures a / (2 * m) == a / 2 / m
  {
    var q, r := a / 2 / m, a / 2 % m;
    Quotient(a / 2, m);
    assert a == 2 * (q * m + r) + a % 2;
    assert 2 * (q * m) == q * (2 * m);
    QuotientUnique(a, 2 * m, 2 * r + a % 2, q);
  }

  lemma QuotientUnique(x: int, m: nat, r: nat, k: int)
    requires m > 0 && r < m && x == k * m + r
    ensures x / m == k
  {
    var q: int := x / m;
    var s: nat := x % m;
    assert x == q * m + s;
    QuotientAtMost(m, q, s, k, r);
    QuotientAtMost(m, k, r, q, s);
  }

  lemma {:induction false} NoBitsIsZero(v: nat)
    requires forall i: nat :: BitAt(i, v) == 0
    ensures v == 0
  {
    assert BitAt(0, v) == 0;
    if v > 0 {
      assert forall i: nat :: BitAt(i, v / 2) == BitAt(i + 1, v);
      NoBitsIsZero(v / 2);
    }
  }

  lemma {:induction false} ZeroHasNoBits(i: nat)
    ensures BitAt(i, 0) == 0
  {
    if i > 0 {
      ZeroHasNoBits(i - 1);
    }
  }

  lemma {:induction false} HighBitIsZero(w: nat, v: nat, i: nat)
    requires v < Pow2(w) && i >= w
    ensures BitAt(i, v) == 0
  {
    if w == 0 {
      ZeroHasNoBits(i);
    } else {
      HighBitIsZero(w - 1, v / 2, i - 1);
    }
  }

  /** No bit of `v` is set from position `w` on. */
  ghost predicate FitsIn(w: nat, v: nat) {
    forall i: nat :: i >= w ==> BitAt(i, v) == 0
  }

  lemma {:induction false} LowBitsMakeWord(w: nat, v: nat)
    requires FitsIn(w, v)
    ensures v < Pow2(w)
  {
    if w == 0 {
      NoBitsIsZero(v);
    } else {
      forall i: nat | i >= w - 1
        ensures BitAt(i, v / 2) == 0
      {
        assert BitAt(i + 1, v) == 0;
      }
      LowBitsMakeWord(w - 1, v / 2);
    }
  }

  lemma WordFits(w: nat, v: nat)
    requires v < Pow2(w)
    ensures FitsIn(w, v)
  {
    forall i: nat | i >= w
      ensures BitAt(i, v) == 0
    {
      HighBitIsZero(w, v, i);
    }
  }

  /** Words of `w` bits are the numbers without bits from position `w` on. */
  lemma WordsHaveLowBits(w: nat, v: nat)
    ensures v < Pow2(w) <==> FitsIn(w, v)
  {
    if v < Pow2(w) {
      WordFits(w, v);
    } else if FitsIn(w, v) {
      LowBitsMakeWord(w, v);
    }
  }

  // ----- arithmetic

  lemma Difference(q: int, k: int, m: int)
    ensures (q - k) * m == q * m - k * m
  {
  }

  lemma Quotient(x: int, m: nat)
    requires m > 0
    ensures x == (x / m) * m + x % m
  {
  }

  lemma QuotientAtMost(m: nat, q: int, s: nat, k: int, r: nat)
    requires q * m + s == k * m + r && r < m
    ensures q <= k
  {
    Difference(q, k, m);
    if q > k {
      Product(q - k, m);
    }
  }

  lemma ModUnique(x: int, m: nat, r: nat, k: int)
    requires m > 0 && r < m && x == k * m + r
    ensures x % m == r
  {
    var q: int := x / m;
    var s: nat := x % m;
    assert x == q * m + s;
    QuotientAtMost(m, q, s, k, r);
    QuotientAtMost(m, k, r, q, s);
  }

  /** Subtracting by adding the negated argument is exact modulo 2^w. */
  lemma SubIsExact(w: nat, v: nat, arg: nat)
    ensures Apply(Sub, w, v, arg) == (v - arg) % Pow2(w)
  {
    var m := Pow2(w);
    var n: nat := (0 - arg) % m;
    var q: int := (0 - arg) / m;
    var s := (v + n) / m;
    assert v - arg == (q + s) * m + (v + n) % m by {
      assert 0 - arg == q * m + n;
      assert v + n == s * m + (v + n) % m;
      assert (q + s) * m == q * m + s * m;
    }
    ModUnique(v - arg, m, (v + n) % m, q + s);
  }

  /** Read as signed numbers, the difference is exact whenever it can be represented. */
  lemma SignedSub(w: nat, v: nat, arg: nat)
    requires w > 0 && v < Pow2(w) && arg < Pow2(w)
    requires 0 - Pow2(w - 1) <= Signed(w, v) - Signed(w, arg) < Pow2(w - 1)
    ensures Signed(w, Apply(Sub, w, v, arg)) == Signed(w, v) - Signed(w, arg)
  {
    var m := Pow2(w);
    var d := Signed(w, v) - Signed(w, arg);
    SubIsExact(w, v, arg);
    var r := if d < 0 then d + m else d;
    var k := if v - arg == r then 0 else if v - arg == r - m then -1 else 1;
    ModUnique(v - arg, m, r, k);
  }

  /** Adding and then subtracting the same argument restores the object. */
  lemma AddThenSub(w: nat, v: nat, arg: nat)
    requires v < Pow2(w)
    ensures Apply(Sub, w, Apply(Add, w, v, arg), arg) == v
  {
    var m := Pow2(w);
    var s, q: int := Apply(Add, w, v, arg), (v + arg) / m;
    SubIsExact(w, s, arg);
    Quotient(v + arg, m);
    Difference(0, q, m);
    ModUnique(s - arg, m, v, 0 - q);
  }
}
