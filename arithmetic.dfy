/**
  The value-level semantics of rightshift/operations.py: Python's integer
  operators (floor division, the bitwise operators on unbounded two's-complement
  integers, shifts, `pow`) and the left-to-right fold every ArithmeticOperation
  performs over its constructor values.
 */
module Arithmetic {
  import opened Errors
  import opened Python

  function Abs(a: int): nat
  {
    if a < 0 then -a else a
  }

  /** Python's `a // n`: the quotient rounded toward negative infinity. */
  function FloorDiv(a: int, n: int): int
    requires n != 0
  {
    if n > 0 then a / n else (-a) / (-n)
  }

  /** Python's `a % n`: the remainder takes the divisor's sign. */
  function FloorMod(a: int, n: int): (r: int)
    requires n != 0
    ensures FloorDiv(a, n) * n + r == a
    ensures n > 0 ==> 0 <= r < n
    ensures n < 0 ==> n < r <= 0
  {
    if n > 0 then a % n
    else
      var m := -n;
      assert (-a) == ((-a) / m) * m + (-a) % m;
      -((-a) % m)
  }

  /** 2 to the power `k`. */
  function Pow2(k: nat): (r: nat)
    ensures r > 0
  {
    if k == 0 then 1 else 2 * Pow2(k - 1)
  }

  /** `b ** e` for a non-negative exponent. */
  function Power(b: int, e: nat): int
  {
    if e == 0 then 1 else b * Power(b, e - 1)
  }

  /* ---------------- bitwise operators ---------------- */

  datatype BitFn = AndBits | OrBits | XorBits

  predicate Bit(f: BitFn, p: bool, q: bool)
  {
    match f
    case AndBits => p && q
    case OrBits => p || q
    case XorBits => p != q
  }

  predicate IsSign(a: int)
  {
    a == 0 || a == -1
  }

  lemma HalfShrinks(a: int)
    ensures Abs(a / 2) <= Abs(a)
    ensures !IsSign(a) ==> Abs(a / 2) < Abs(a)
  {
  }

  /**
    `a & b`, `a | b`, `a ^ b` on Python's unbounded integers: bit by bit from the
    least significant bit, in two's complement with an infinite sign extension
    (0 and -1 are the all-zeros and all-ones patterns).
   */
  function Bitwise(f: BitFn, a: int, b: int): int
    decreases Abs(a) + Abs(b)
  {
    if IsSign(a) && IsSign(b) then
      (if Bit(f, a == -1, b == -1) then -1 else 0)
    else
      HalfShrinks(a); HalfShrinks(b);
      2 * Bitwise(f, a / 2, b / 2) + (if Bit(f, a % 2 == 1, b % 2 == 1) then 1 else 0)
  }

  /** Every result splits into its higher bits and its lowest bit, sign patterns included. */
  lemma BitwiseSplits(f: BitFn, a: int, b: int)
    ensures Bitwise(f, a, b) == 2 * Bitwise(f, a / 2, b / 2) + (if Bit(f, a % 2 == 1, b % 2 == 1) then 1 else 0)
  {
  }

  lemma HalfOfTwice(q: int, r: int)
    requires r == 0 || r == 1
    ensures (2 * q + r) / 2 == q && (2 * q + r) % 2 == r
  {
  }

  /** `~a`, written as `a ^ -1`, is `-a - 1`. */
  lemma {:induction false} XorAllOnes(a: int)
    ensures Bitwise(XorBits, a, -1) == -a - 1
    decreases Abs(a)
  {
    if !IsSign(a) {
      HalfShrinks(a);
      XorAllOnes(a / 2);
    }
  }

  /** `(a ^ b) ^ b == a`. */
  lemma {:induction false} XorCancels(a: int, b: int)
    ensures Bitwise(XorBits, Bitwise(XorBits, a, b), b) == a
    decreases Abs(a) + Abs(b)
  {
    var c := Bitwise(XorBits, a, b);
    if IsSign(a) && IsSign(b) {
      assert IsSign(c);
    } else {
      HalfShrinks(a); HalfShrinks(b);
      var low := if Bit(XorBits, a % 2 == 1, b % 2 == 1) then 1 else 0;
      assert c == 2 * Bitwise(XorBits, a / 2, b / 2) + low;
      HalfOfTwice(Bitwise(XorBits, a / 2, b / 2), low);
      XorCancels(a / 2, b / 2);
      BitwiseSplits(XorBits, c, b);
    }
  }

  /** `a & b` never exceeds a non-negative `b`: masking keeps only the masked bits. */
  lemma {:induction false} AndMaskBounded(a: int, b: int)
    requires b >= 0
    ensures 0 <= Bitwise(AndBits, a, b) <= b
    decreases Abs(a) + Abs(b)
  {
    if !(IsSign(a) && IsSign(b)) {
      HalfShrinks(a); HalfShrinks(b);
      AndMaskBounded(a / 2, b / 2);
    }
  }

  /** `(a | b) + (a & b) == a + b`: each bit set in either operand is counted once by `|` and once more by `&` when set in both. */
  lemma {:induction false} OrPlusAnd(a: int, b: int)
    ensures Bitwise(OrBits, a, b) + Bitwise(AndBits, a, b) == a + b
    decreases Abs(a) + Abs(b)
  {
    if !(IsSign(a) && IsSign(b)) {
      HalfShrinks(a); HalfShrinks(b);
      OrPlusAnd(a / 2, b / 2);
    }
  }

  /** `a | 0 == a`. */
  lemma OrZero(a: int)
    ensures Bitwise(OrBits, a, 0) == a
  {
    OrPlusAnd(a, 0);
    AndMaskBounded(a, 0);
  }

  /* ---------------- unary operations ---------------- */

  datatype UnaryOp = Negate | Positive | Absolute | Invert

  /** `-v`, `+v`, `abs(v)` and `~v`; TypeError for anything but a number. */
  function ApplyUnary(op: UnaryOp, v: Value): (r: Result<Value>)
    ensures r.Ok? <==> AsInt(v).Some?
    ensures r.Raised? ==> r.error == Builtin(TypeError)
    ensures r.Ok? && op == Invert ==> r.value == Int(-AsInt(v).value - 1)
    ensures r.Ok? && op == Absolute ==> r.value.Int? && r.value.i >= 0 && Abs(AsInt(v).value) == r.value.i
  {
    match AsInt(v)
    case None => Raised(Builtin(TypeError))
    case Some(a) =>
      match op
      case Negate => Ok(Int(-a))
      case Positive => Ok(Int(a))
      case Absolute => Ok(Int(Abs(a)))
      case Invert => XorAllOnes(a); Ok(Int(Bitwise(XorBits, a, -1)))
  }

  /* ---------------- binary operations ---------------- */

  /** `value // n` (FloorModuloOperation). */
  function FloorDivide(v: Value, n: int): (r: Result<Value>)
    ensures AsInt(v).None? ==> r == Raised(Builtin(TypeError))
    ensures AsInt(v).Some? && n == 0 ==> r == Raised(Builtin(ZeroDivisionError))
    ensures AsInt(v).Some? && n > 0 ==>
              r.Ok? && r.value.Int? && r.value.i * n <= AsInt(v).value < r.value.i * n + n
    ensures AsInt(v).Some? && n < 0 ==>
              r.Ok? && r.value.Int? && r.value.i * n + n < AsInt(v).value <= r.value.i * n
  {
    match AsInt(v)
    case None => Raised(Builtin(TypeError))
    case Some(a) =>
      if n == 0 then Raised(Builtin(ZeroDivisionError))
      else
        var remainder := FloorMod(a, n);
        Ok(Int(FloorDiv(a, n)))
  }

  /** `value % n` (ModuloOperation).  `str % x` is string formatting, outside this model. */
  function Modulo(v: Value, n: int): (r: Result<Value>)
    ensures v.Str? ==> r == Raised(OutsideModel)
    ensures !v.Str? && AsInt(v).None? ==> r == Raised(Builtin(TypeError))
    ensures AsInt(v).Some? && n == 0 ==> r == Raised(Builtin(ZeroDivisionError))
    ensures AsInt(v).Some? && n > 0 ==> r.Ok? && r.value.Int? && 0 <= r.value.i < n
    ensures AsInt(v).Some? && n < 0 ==> r.Ok? && r.value.Int? && n < r.value.i <= 0
  {
    if v.Str? then Raised(OutsideModel)
    else match AsInt(v)
      case None => Raised(Builtin(TypeError))
      case Some(a) => if n == 0 then Raised(Builtin(ZeroDivisionError)) else Ok(Int(FloorMod(a, n)))
  }

  /** `divmod(value, n)` (DivModOperation): the pair `(q, r)` with `q * n + r == value`. */
  function DivideModulo(v: Value, n: int): (r: Result<Value>)
    ensures AsInt(v).None? ==> r == Raised(Builtin(TypeError))
    ensures AsInt(v).Some? && n == 0 ==> r == Raised(Builtin(ZeroDivisionError))
    ensures AsInt(v).Some? && n != 0 ==>
              r.Ok? && r.value.Tuple? && |r.value.items| == 2 &&
              r.value.items[0].Int? && r.value.items[1].Int? &&
              r.value.items[0].i * n + r.value.items[1].i == AsInt(v).value
  {
    match AsInt(v)
    case None => Raised(Builtin(TypeError))
    case Some(a) =>
      if n == 0 then Raised(Builtin(ZeroDivisionError))
      else Ok(Tuple([Int(FloorDiv(a, n)), Int(FloorMod(a, n))]))
  }

  /** divmod agrees with `//` and `%` on every integer and divisor. */
  lemma DivModAgrees(a: int, n: int)
    requires n != 0
    ensures DivideModulo(Int(a), n) == Ok(Tuple([FloorDivide(Int(a), n).value, Modulo(Int(a), n).value]))
  {
  }

  /** `pow(value, *values)` for zero, one or two values (PowOperation). */
  function PowValue(v: Value, args: seq<int>): (r: Result<Value>)
    ensures |args| == 0 || |args| > 2 || AsInt(v).None? ==> r == Raised(Builtin(TypeError))
    ensures |args| == 2 && AsInt(v).Some? && args[1] == 0 ==> r == Raised(Builtin(ValueError))
    ensures 1 <= |args| <= 2 && AsInt(v).Some? ==> (r.Ok? <==> args[0] >= 0 && (|args| == 1 || args[1] != 0))
    ensures r.Ok? && |args| == 2 && args[1] > 0 ==> r.value.Int? && 0 <= r.value.i < args[1]
    ensures r.Ok? && |args| == 2 && args[1] < 0 ==> r.value.Int? && args[1] < r.value.i <= 0
  {
    if |args| == 0 || |args| > 2 then Raised(Builtin(TypeError))
    else match AsInt(v)
      case None => Raised(Builtin(TypeError))
      case Some(a) =>
        if |args| == 1 then
          (if args[0] < 0 then Raised(OutsideModel) else Ok(Int(Power(a, args[0]))))
        else if args[1] == 0 then Raised(Builtin(ValueError))
        else if args[0] < 0 then Raised(OutsideModel)
        else Ok(Int(FloorMod(Power(a, args[0]), args[1])))
  }

  /* ---------------- arithmetic folds ---------------- */

  datatype ArithOp = Add | Subtract | Multiply | ShiftLeft | ShiftRight | BitAnd | BitOr | BitXor

  /** `s * n` for a sequence: `n` copies, none when `n <= 0`. */
  function Repeat<T>(s: seq<T>, n: int): seq<T>
    decreases n
  {
    if n <= 0 then [] else s + Repeat(s, n - 1)
  }

  /** One update `value op= v`, as a new value. */
  function Step(op: ArithOp, acc: Value, v: int): (r: Result<Value>)
    ensures r.Raised? ==> r.error == Builtin(TypeError) || r.error == Builtin(ValueError)
  {
    match AsInt(acc)
    case Some(a) =>
      (match op
       case Add => Ok(Int(a + v))
       case Subtract => Ok(Int(a - v))
       case Multiply => Ok(Int(a * v))
       case ShiftLeft => if v < 0 then Raised(Builtin(ValueError)) else Ok(Int(a * Pow2(v)))
       case ShiftRight => if v < 0 then Raised(Builtin(ValueError)) else Ok(Int(a / Pow2(v)))
       case BitAnd => Ok(Int(Bitwise(AndBits, a, v)))
       case BitOr => Ok(Int(Bitwise(OrBits, a, v)))
       case BitXor => Ok(Int(Bitwise(XorBits, a, v))))
    case None =>
      if op == Multiply then
        match acc
        case Str(s) => Ok(Str(Repeat(s, v)))
        case List(xs) => Ok(List(Repeat(xs, v)))
        case Tuple(xs) => Ok(Tuple(Repeat(xs, v)))
        case _ => Raised(Builtin(TypeError))
      else Raised(Builtin(TypeError))
  }

  /** The value after applying every constructor value from left to right. */
  function Fold(op: ArithOp, x: Value, vs: seq<int>): Result<Value>
    decreases |vs|
  {
    if vs == [] then Ok(x)
    else match Step(op, x, vs[0])
      case Ok(y) => Fold(op, y, vs[1..])
      case Raised(e) => Raised(e)
  }

  /** `ArithmeticOperation.__call__`: the loop `for v in self.values: value op= v`. */
  method ApplyArithmetic(op: ArithOp, x: Value, vs: seq<int>) returns (r: Result<Value>)
    ensures r == Fold(op, x, vs)
  {
    var value := x;
    var i := 0;
    while i < |vs|
      invariant 0 <= i <= |vs|
      invariant Fold(op, x, vs) == Fold(op, value, vs[i..])
    {
      assert vs[i..][1..] == vs[i + 1..];
      var next := Step(op, value, vs[i]);
      if next.Raised? {
        return next;
      }
      value := next.value;
      i := i + 1;
    }
    return Ok(value);
  }

  /** Applying `a + b` equals applying `a`, then `b` to its result. */
  lemma {:induction false} FoldSplits(op: ArithOp, x: Value, a: seq<int>, b: seq<int>)
    ensures Fold(op, x, a + b) ==
            match Fold(op, x, a)
            case Ok(y) => Fold(op, y, b)
            case Raised(e) => Raised(e)
    decreases |a|
  {
    if a == [] {
      assert a + b == b;
    } else {
      assert (a + b)[0] == a[0] && (a + b)[1..] == a[1..] + b;
      match Step(op, x, a[0])
      case Ok(y) => FoldSplits(op, y, a[1..], b);
      case Raised(_) =>
    }
  }

  function Sum(vs: seq<int>): int
  {
    if vs == [] then 0 else vs[0] + Sum(vs[1..])
  }

  function Product(vs: seq<int>): int
  {
    if vs == [] then 1 else vs[0] * Product(vs[1..])
  }

  /** `add(v1, ..., vn)(x) == x + v1 + ... + vn` on numbers. */
  lemma {:induction false} AddIsSum(x: int, vs: seq<int>)
    ensures Fold(Add, Int(x), vs) == Ok(Int(x + Sum(vs)))
    decreases |vs|
  {
    if vs != [] {
      AddIsSum(x + vs[0], vs[1..]);
    }
  }

  /** `sub(v1, ..., vn)(x) == x - v1 - ... - vn` on numbers. */
  lemma {:induction false} SubtractIsSum(x: int, vs: seq<int>)
    ensures Fold(Subtract, Int(x), vs) == Ok(Int(x - Sum(vs)))
    decreases |vs|
  {
    if vs != [] {
      SubtractIsSum(x - vs[0], vs[1..]);
    }
  }

  /** `mul(v1, ..., vn)(x) == x * v1 * ... * vn` on numbers. */
  lemma {:induction false} MultiplyIsProduct(x: int, vs: seq<int>)
    ensures Fold(Multiply, Int(x), vs) == Ok(Int(x * Product(vs)))
    decreases |vs|
  {
    if vs != [] {
      MultiplyIsProduct(x * vs[0], vs[1..]);
      assert x * vs[0] * Product(vs[1..]) == x * (vs[0] * Product(vs[1..]));
    }
  }

  lemma {:induction false} Pow2Adds(a: nat, b: nat)
    ensures Pow2(a + b) == Pow2(a) * Pow2(b)
    decreases a
  {
    if a > 0 {
      Pow2Adds(a - 1, b);
    }
  }

  lemma MulAssociates(x: int, p: int, q: int)
    ensures x * p * q == x * (p * q)
  {
  }

  predicate AllNonNegative(vs: seq<int>)
  {
    forall i :: 0 <= i < |vs| ==> vs[i] >= 0
  }

  /** `lshift(v1, ..., vn)(x)` multiplies by 2 to the total shift count. */
  lemma {:induction false} ShiftLeftScales(x: int, vs: seq<int>)
    requires AllNonNegative(vs)
    ensures Sum(vs) >= 0
    ensures Fold(ShiftLeft, Int(x), vs) == Ok(Int(x * Pow2(Sum(vs))))
    decreases |vs|
  {
    if vs != [] {
      assert AllNonNegative(vs[1..]) by {
        forall i | 0 <= i < |vs| - 1 ensures vs[1..][i] >= 0 { assert vs[1..][i] == vs[i + 1]; }
      }
      var head := Pow2(vs[0]);
      ShiftLeftScales(x * head, vs[1..]);
      var rest := Pow2(Sum(vs[1..]));
      Pow2Adds(vs[0], Sum(vs[1..]));
      MulAssociates(x, head, rest);
    }
  }

  /** Floor division by `p` and then by `q` is floor division by `p * q`. */
  lemma DivDiv(x: int, p: int, q: int)
    requires p > 0 && q > 0
    ensures x / p / q == x / (p * q)
  {
    var a, r1 := x / p, x % p;
    var b, r2 := a / q, a % q;
    MulAssociates(p, q, b);
    Distributes(p, q * b, r2);
    MulBelow(p, r2, q);
    DivUnique(x, p * q, b, p * r2 + r1);
  }

  lemma Distributes(n: int, a: int, b: int)
    ensures n * (a + b) == n * a + n * b
  {
  }

  /** `0 <= p * r <= p * q - p` for `0 <= r < q`. */
  lemma MulBelow(p: int, r: int, q: int)
    requires p > 0 && 0 <= r < q
    ensures 0 <= p * r <= p * q - p
  {
    Distributes(p, r, q - r);
    MulAtLeast(p, q - r);
  }

  /** `n * k >= n` for `n > 0` and `k >= 1`. */
  lemma MulAtLeast(n: int, k: int)
    requires n > 0 && k >= 1
    ensures n * k >= n
  {
    Distributes(n, 1, k - 1);
  }

  /** The quotient of `x` by `n > 0` is the `q` with `x == n * q + r` and `0 <= r < n`. */
  lemma DivUnique(x: int, n: int, q: int, r: int)
    requires n > 0 && 0 <= r < n && x == n * q + r
    ensures x / n == q
  {
    var q0, r0 := x / n, x % n;
    if q0 < q {
      Distributes(n, q0, q - q0);
      MulAtLeast(n, q - q0);
    } else if q0 > q {
      Distributes(n, q, q0 - q);
      MulAtLeast(n, q0 - q);
    }
  }

  /** `rshift(v1, ..., vn)(x)` is `x // 2 ** (v1 + ... + vn)`: shifting right is floor division. */
  lemma {:induction false} ShiftRightScales(x: int, vs: seq<int>)
    requires AllNonNegative(vs)
    ensures Sum(vs) >= 0
    ensures Fold(ShiftRight, Int(x), vs) == Ok(Int(FloorDiv(x, Pow2(Sum(vs)))))
    decreases |vs|
  {
    if vs != [] {
      assert AllNonNegative(vs[1..]) by {
        forall i | 0 <= i < |vs| - 1 ensures vs[1..][i] >= 0 { assert vs[1..][i] == vs[i + 1]; }
      }
      var head := Pow2(vs[0]);
      ShiftRightScales(x / head, vs[1..]);
      var rest := Pow2(Sum(vs[1..]));
      Pow2Adds(vs[0], Sum(vs[1..]));
      DivDiv(x, head, rest);
    }
  }

  /** A negative shift count raises ValueError at its turn, whatever follows it. */
  lemma {:induction false} NegativeShiftRaises(op: ArithOp, x: int, vs: seq<int>, k: nat)
    requires op == ShiftLeft || op == ShiftRight
    requires k < |vs| && vs[k] < 0
    requires forall i :: 0 <= i < k ==> vs[i] >= 0
    ensures Fold(op, Int(x), vs) == Raised(Builtin(ValueError))
    decreases k
  {
    if k > 0 {
      var y := if op == ShiftLeft then x * Pow2(vs[0]) else x / Pow2(vs[0]);
      assert Step(op, Int(x), vs[0]) == Ok(Int(y));
      NegativeShiftRaises(op, y, vs[1..], k - 1);
    }
  }

  /** With no constructor values every operation returns its input unchanged, of any type. */
  lemma NoValuesIsIdentity(op: ArithOp, x: Value)
    ensures Fold(op, x, []) == Ok(x)
  {
  }

  /** `xor(v, v)(x) == x`. */
  lemma XorTwiceRestores(x: int, v: int)
    ensures Fold(BitXor, Int(x), [v, v]) == Ok(Int(x))
  {
    var c := Bitwise(XorBits, x, v);
    XorCancels(x, v);
    assert Step(BitXor, Int(x), v) == Ok(Int(c));
    assert [v, v][1..] == [v];
    assert Fold(BitXor, Int(c), [v]) == Ok(Int(x)) by {
      assert Step(BitXor, Int(c), v) == Ok(Int(x));
      assert [v][1..] == [];
    }
  }

  /** `or(v)(x) == x + v - (x & v)`, and so `or(0)(x) == x`. */
  lemma OrAddsMissingBits(x: int, v: int)
    ensures Fold(BitOr, Int(x), [v]) == Ok(Int(x + v - Bitwise(AndBits, x, v)))
    ensures Fold(BitOr, Int(x), [0]) == Ok(Int(x))
  {
    OrPlusAnd(x, v);
    OrZero(x);
    assert [v][1..] == [] && [0][1..] == [];
  }
}
