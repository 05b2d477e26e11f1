/**
  rightshift/operations.py as transformers: the unary operations, `logical_not`,
  `floor_mod`, `mod`, `div_mod`, the arithmetic folds `add` … `xor`, and `pow`.
 */
module Operations {
  import opened Errors
  import opened Python
  import opened Arithmetic
  import opened Rightshift

  /** `negate`, `positive`, `absolute` and `invert`: instances, ready to call. */
  const NegationOperation: Transformer := Unary(Negate)
  const PositiveOperation: Transformer := Unary(Positive)
  const AbsoluteOperation: Transformer := Unary(Absolute)
  const InvertOperation: Transformer := Unary(Invert)

  /**
    `logical_not(*args)`: `logical_not` is the class itself, so it must first
    be instantiated without arguments; any argument is a TypeError.
   */
  function MakeLogicalNot(args: seq<Value>): (r: Result<Transformer>)
    ensures r.Ok? <==> args == []
    ensures r.Raised? ==> r.error == Builtin(TypeError)
    ensures r.Ok? ==> forall base, x :: Eval(base, r.value, x, map[]) == Ok(Bool(!Truthy(x)))
  {
    if args == [] then Ok(LogicalNot) else Raised(Builtin(TypeError))
  }

  /** `pow(*values)` (PowOperation): OperationException for more than two values. */
  function MakePow(args: seq<int>): (r: Result<Transformer>)
    ensures r.Raised? <==> |args| > 2
    ensures r.Raised? ==> r.error == RightShift(OperationError)
    ensures r.Ok? ==> forall base, x, flags :: Eval(base, r.value, x, flags) == PowValue(x, args)
  {
    if |args| > 2 then Raised(RightShift(OperationError)) else Ok(Pow(args))
  }

  /**
    The unary operations accept no flags: called with any, they raise
    TypeError; without flags they compute on numbers.
   */
  lemma UnaryRejectsFlags(base: RightShiftBase, op: UnaryOp, x: Value, flags: Flags)
    requires flags != map[]
    ensures Eval(base, Unary(op), x, flags) == Raised(Builtin(TypeError))
    ensures Eval(base, LogicalNot, x, flags) == Raised(Builtin(TypeError))
  {
  }

  /** `negate` undoes itself: `(negate >> negate)(a) == a`. */
  lemma NegateTwice(base: RightShiftBase, a: int)
    ensures Eval(base, Shift(NegationOperation, Stage(NegationOperation)).value, Int(a), map[]) == Ok(Int(a))
  {
    assert Eval(base, NegationOperation, Int(a), map[]) == Ok(Int(-a));
    assert Eval(base, NegationOperation, Int(-a), map[]) == Ok(Int(a));
    ShiftRunsRightOperandFirst(base, NegationOperation, NegationOperation, Int(a));
  }

  /** `invert` undoes itself: `(invert >> invert)(a) == a`, since `~a == -a - 1`. */
  lemma InvertTwice(base: RightShiftBase, a: int)
    ensures Eval(base, Shift(InvertOperation, Stage(InvertOperation)).value, Int(a), map[]) == Ok(Int(a))
  {
    assert Eval(base, InvertOperation, Int(a), map[]) == Ok(Int(-a - 1));
    assert Eval(base, InvertOperation, Int(-a - 1), map[]) == Ok(Int(a));
    ShiftRunsRightOperandFirst(base, InvertOperation, InvertOperation, Int(a));
  }

  /** `absolute` is idempotent, `positive` is the identity, and `negate` then `absolute` is `absolute`. */
  lemma AbsoluteLaws(base: RightShiftBase, a: int)
    ensures Eval(base, Shift(AbsoluteOperation, Stage(AbsoluteOperation)).value, Int(a), map[]) == Eval(base, AbsoluteOperation, Int(a), map[])
    ensures Eval(base, PositiveOperation, Int(a), map[]) == Ok(Int(a))
    ensures Eval(base, Shift(AbsoluteOperation, Stage(NegationOperation)).value, Int(a), map[]) == Eval(base, AbsoluteOperation, Int(a), map[])
  {
    assert Eval(base, AbsoluteOperation, Int(a), map[]) == Ok(Int(Abs(a)));
    assert Eval(base, NegationOperation, Int(a), map[]) == Ok(Int(-a));
    assert Eval(base, AbsoluteOperation, Int(-a), map[]) == Ok(Int(Abs(a)));
    assert Eval(base, AbsoluteOperation, Int(Abs(a)), map[]) == Ok(Int(Abs(a)));
  }

  /** `logical_not()` twice gives the truth value of the input. */
  lemma LogicalNotTwice(base: RightShiftBase, x: Value)
    ensures MakeLogicalNot([]) == Ok(LogicalNot)
    ensures Eval(base, Shift(LogicalNot, Stage(LogicalNot)).value, x, map[]) == Ok(Bool(Truthy(x)))
  {
    var y := Bool(!Truthy(x));
    assert Eval(base, LogicalNot, x, map[]) == Ok(y);
    assert Truthy(y) == !Truthy(x);
    ShiftRunsRightOperandFirst(base, LogicalNot, LogicalNot, x);
  }

  /**
    `div_mod(n)(a)` is the pair `(floor_mod(n)(a), mod(n)(a))` for every
    integer and non-zero divisor.
   */
  lemma DivModPairsFloorDivAndMod(base: RightShiftBase, a: int, n: int, flags: Flags)
    ensures n != 0 ==>
              Eval(base, DivModBy(n), Int(a), flags) ==
              Ok(Tuple([Eval(base, FloorDivideBy(n), Int(a), flags).value, Eval(base, ModuloBy(n), Int(a), flags).value]))
  {
    DivisionStages(base, n, Int(a), flags);
    if n != 0 {
      DivModAgrees(a, n);
    }
  }

  /** The three division transformers compute Python's `//`, `%` and `divmod` with the given divisor. */
  lemma DivisionStages(base: RightShiftBase, n: int, v: Value, flags: Flags)
    ensures Eval(base, DivModBy(n), v, flags) == DivideModulo(v, n)
    ensures Eval(base, FloorDivideBy(n), v, flags) == FloorDivide(v, n)
    ensures Eval(base, ModuloBy(n), v, flags) == Modulo(v, n)
  {
    DivModStage(base, n, v, flags);
    FloorDivideStage(base, n, v, flags);
  }

  lemma DivModStage(base: RightShiftBase, n: int, v: Value, flags: Flags)
    ensures Eval(base, DivModBy(n), v, flags) == DivideModulo(v, n)
  {
  }

  lemma FloorDivideStage(base: RightShiftBase, n: int, v: Value, flags: Flags)
    ensures Eval(base, FloorDivideBy(n), v, flags) == FloorDivide(v, n)
  {
  }

  /** `floor_mod(0)`, `mod(0)` and `div_mod(0)` raise ZeroDivisionError on every integer. */
  lemma DivisionByZeroRaises(base: RightShiftBase, a: int, flags: Flags)
    ensures Eval(base, DivModBy(0), Int(a), flags) == Raised(Builtin(ZeroDivisionError))
    ensures Eval(base, FloorDivideBy(0), Int(a), flags) == Raised(Builtin(ZeroDivisionError))
    ensures Eval(base, ModuloBy(0), Int(a), flags) == Raised(Builtin(ZeroDivisionError))
  {
    DivisionStages(base, 0, Int(a), flags);
  }

  /** `floor_mod(2)(-7) == -4` and `mod(2)(-7) == 1`, where truncating division would give -3 and -1. */
  lemma FloorSemantics(base: RightShiftBase, flags: Flags)
    ensures Eval(base, FloorDivideBy(2), Int(-7), flags) == Ok(Int(-4))
    ensures Eval(base, ModuloBy(2), Int(-7), flags) == Ok(Int(1))
    ensures Eval(base, ModuloBy(-2), Int(7), flags) == Ok(Int(-1))
  {
  }

  /** `add(1, 2, 3)(x) == x + 6`: with `x = 0`, the docstring's example `add(1, 2, 3)(0) == 6`. */
  lemma AddDocstringExample(base: RightShiftBase, x: int, flags: Flags)
    ensures Eval(base, Accumulate(Add, [1, 2, 3]), Int(x), flags) == Ok(Int(x + 6))
  {
    AddIsSum(x, [1, 2, 3]);
  }

  /**
    `(add(u) >> add(v) >> add(w))(x) == x + w + v + u`: three chained additions;
    with `u, v, w, x = 1, 2, 3, 0` it is the docstring's `(add(1) >> add(2) >> add(3))(0) == 6`.
   */
  lemma AddChain(base: RightShiftBase, u: int, v: int, w: int, x: int)
    ensures Shift(Accumulate(Add, [u]), Stage(Accumulate(Add, [v]))).Ok?
    ensures Eval(base, Shift(Shift(Accumulate(Add, [u]), Stage(Accumulate(Add, [v]))).value, Stage(Accumulate(Add, [w]))).value,
                 Int(x), map[]) == Ok(Int(x + w + v + u))
  {
    var au, av, aw := Accumulate(Add, [u]), Accumulate(Add, [v]), Accumulate(Add, [w]);
    AddOne(base, w, x);
    AddOne(base, v, x + w);
    AddOne(base, u, x + w + v);
    ChainOfResults(base, av, au, Int(x + w), Int(x + w + v));
    ChainOfResults(base, aw, Chain(av, au), Int(x), Int(x + w));
  }

  /** A chain called without flags passes the first stage's value to the second. */
  lemma ChainOfResults(base: RightShiftBase, left: Transformer, right: Transformer, x: Value, y: Value)
    requires Eval(base, left, x, map[]) == Ok(y)
    ensures Eval(base, Chain(left, right), x, map[]) == Eval(base, right, y, map[])
  {
  }

  /** `add(v)(x) == x + v`. */
  lemma AddOne(base: RightShiftBase, v: int, x: int)
    ensures Eval(base, Accumulate(Add, [v]), Int(x), map[]) == Ok(Int(x + v))
  {
    AddIsSum(x, [v]);
  }

  /**
    Chaining two operations of the same kind is one operation over both value
    lists: `op(*a) >> op(*b)` runs `op(*b)` first, so it equals `op(*(b + a))`.
   */
  lemma ShiftedOperationsFold(base: RightShiftBase, op: ArithOp, a: seq<int>, b: seq<int>, x: Value)
    ensures Eval(base, Shift(Accumulate(op, a), Stage(Accumulate(op, b))).value, x, map[]) ==
            Eval(base, Accumulate(op, b + a), x, map[])
  {
    FoldSplits(op, x, b, a);
  }

  /** `e` copies of `a`. */
  function Copies(a: int, e: nat): (vs: seq<int>)
    ensures |vs| == e && forall i :: 0 <= i < e ==> vs[i] == a
  {
    seq(e, i => a)
  }

  lemma {:induction false} PowerIsProduct(a: int, e: nat)
    ensures Power(a, e) == Product(Copies(a, e))
    decreases e
  {
    if e > 0 {
      PowerIsProduct(a, e - 1);
      assert Copies(a, e)[1..] == Copies(a, e - 1);
    }
  }

  /** `pow(e)(a)` is `a` multiplied into 1 `e` times: `pow(e)(a) == mul(a, …, a)(1)`. */
  lemma PowIsRepeatedMultiply(base: RightShiftBase, a: int, e: nat, flags: Flags)
    ensures MakePow([e]) == Ok(Pow([e]))
    ensures Eval(base, Pow([e]), Int(a), flags) == Eval(base, Accumulate(Multiply, Copies(a, e)), Int(1), flags)
  {
    assert Eval(base, Pow([e]), Int(a), flags) == Ok(Int(Power(a, e)));
    PowerIsProduct(a, e);
    MultiplyIsProduct(1, Copies(a, e));
  }

  /**
    `pow(e, m)(a)` is `pow(e)(a) % m` for a non-zero modulus, and a ValueError
    for a zero one.
   */
  lemma PowWithModulus(base: RightShiftBase, a: int, e: nat, m: int, flags: Flags)
    ensures MakePow([e, m]) == Ok(Pow([e, m]))
    ensures m != 0 ==> Eval(base, Pow([e, m]), Int(a), flags) == Compose(base, Eval(base, Pow([e]), Int(a), flags), ModuloBy(m))
    ensures m == 0 ==> Eval(base, Pow([e, m]), Int(a), flags) == Raised(Builtin(ValueError))
  {
    var p := Power(a, e);
    assert Eval(base, Pow([e]), Int(a), flags) == Ok(Int(p));
    assert Compose(base, Ok(Int(p)), ModuloBy(m)) == Modulo(Int(p), m);
    assert Eval(base, Pow([e, m]), Int(a), flags) == PowValue(Int(a), [e, m]);
  }

  /** `pow` with more than two values is refused when it is built. */
  lemma PowTooManyValues(a: int, b: int, c: int)
    ensures MakePow([a, b, c]) == Raised(RightShift(OperationError))
  {
  }
}
