/**
  rightshift's transformers and what calling one does.

  Every transformer of the library is a node of `Transformer`; `Eval` is its
  `__call__(value, **flags)`.  A call either returns a value or raises an
  exception (`Result`).  `Shift` is `Transformer.__rshift__`
  (rightshift/__init__.py), and the laws at the end of this module are those of
  chaining.
 */
module Rightshift {
  import opened Errors
  import opened Python
  import opened Comparisons
  import opened Arithmetic
  import opened Sequences
  import opened Lookups

  datatype Transformer =
      /** `identity`: returns its input. */
    | Identity
      /** `value(d)`: returns `d` whatever its input. */
    | Const(constant: Value)
      /** A user transformer `f(value, **flags)`; `wrap(f)` is one that ignores the flags. */
    | User(f: (Value, Flags) -> Result<Value>)
      /** `_Chain(left, right)`: `right(left(value))`. */
    | Chain(left: Transformer, right: Transformer)
      /** `a & b` on transformers that are not both matchers: the list `[a(x), b(x)]`. */
    | Both(first: Transformer, second: Transformer)
      /** `a | b` on transformers that are not both matchers: `a(x)`, or `b(x)` if `a` fails. */
    | Either(first: Transformer, second: Transformer)
      /** `FlagsChain(flags, left)` */
    | FlagsChain(stored: Flags, inner: Transformer)
      /** `DefaultChain(default, left)` */
    | DefaultChain(default: Value, guarded: Transformer)
      /** `Must(*matchers)`, `Should(*matchers)`, `MustNot(*matchers)` */
    | Must(musts: seq<Transformer>)
    | Should(shoulds: seq<Transformer>)
    | MustNot(mustNots: seq<Transformer>)
      /** `IsInstance(type)` */
    | IsInstance(tag: TypeTag)
      /** `Comparison(comparator, falsey_exceptions)` and its six subclasses. */
    | Comparison(comparator: Comparator, falsey: bool)
      /** `brk` */
    | Break
      /** `when(matcher)` and `when_not(matcher)` with their two branches. */
    | When(matcher: Transformer, thenBranch: Transformer, otherwiseBranch: Transformer)
    | WhenNot(negMatcher: Transformer, negThen: Transformer, negOtherwise: Transformer)
      /** `BreakIf(matcher)` */
    | BreakIf(breaker: Transformer)
      /** `Item(item_or_slice)`, `Attribute(name)`, `CoerceTo(type, coercer)` */
    | Item(selector: Selector)
    | Attribute(name: string)
    | CoerceTo(target: Option<PyType>, coercer: Option<Value -> Result<Value>>)
      /** The transformers of rightshift/collections.py, with their constructor settings. */
    | Tail
    | TakeWhile(takePredicate: Predicate, takeLazy: bool)
    | DropWhile(dropPredicate: Predicate, dropLazy: bool)
    | Partition(partitionPredicate: Predicate)
    | Filter(filterPredicate: Predicate, filterLazy: bool)
    | Find(findPredicate: Predicate)
    | MapWith(mapFunction: Function, unpack: bool, mapLazy: bool)
    | Flatten(flattenLazy: bool)
      /** The operations of rightshift/operations.py. */
    | Unary(unaryOp: UnaryOp)
    | LogicalNot
    | FloorDivideBy(divisor: int)
    | ModuloBy(modulus: int)
    | DivModBy(divModDivisor: int)
    | Accumulate(op: ArithOp, values: seq<int>)
    | Pow(powArgs: seq<int>)

  /** The flags that switch a collection transformer to its lazy mode. */
  const TakeWhileLazy: string := "take_while__lazy"
  const DropWhileLazy: string := "drop_while__lazy"
  const FilterLazy: string := "filter__lazy"
  const MapLazy: string := "map__lazy"
  const MapUnpack: string := "map__unpack_value"
  const FlattenLazy: string := "flatten__lazy"

  /** `flags.get(key, setting)`, as a truth value. */
  predicate Setting(flags: Flags, key: string, setting: bool)
  {
    Truthy(FlagOr(flags, key, Bool(setting)))
  }

  /** `isinstance(t, Matcher)` */
  predicate IsMatcher(t: Transformer)
  {
    t.Must? || t.Should? || t.MustNot? || t.IsInstance? || t.Comparison?
  }

  /**
    `t(x, **flags)`.  `base` is the base class of RightShiftException: it
    decides whether `Default` absorbs a MatcherException and whether the
    `except Exception` handlers catch one.
   */
  function Eval(base: RightShiftBase, t: Transformer, x: Value, flags: Flags): Result<Value>
    decreases t
  {
    match t
    case Identity => Ok(x)
    case Const(d) => Ok(d)
    case User(f) => f(x, flags)
    case Chain(left, right) =>
      // `_Chain.__call__(self, value)` accepts no keyword arguments
      if flags != map[] then Raised(Builtin(TypeError))
      else
        (match Eval(base, left, x, map[])
         case Ok(y) => Eval(base, right, y, map[])
         case Raised(e) => Raised(e))
    case Both(a, b) =>
      (match Eval(base, a, x, flags)
       case Raised(e) => Raised(e)
       case Ok(u) =>
         match Eval(base, b, x, flags)
         case Raised(e) => Raised(e)
         case Ok(w) => Ok(List([u, w])))
    case Either(a, b) =>
      (match Eval(base, a, x, flags)
       case Ok(u) => Ok(u)
       case Raised(e) => if IsTransformationException(e, base) then Eval(base, b, x, flags) else Raised(e))
    case FlagsChain(stored, left) => Eval(base, left, x, stored + flags)
    case DefaultChain(d, left) =>
      (match Eval(base, left, x, flags)
       case Ok(y) => Ok(y)
       case Raised(e) => if IsTransformationException(e, base) then Ok(d) else Raised(e))
    case Must(ms) => Verdict(ScanFor(base, ms, false, x, flags), false)
    case Should(ms) => Verdict(ScanFor(base, ms, true, x, flags), true)
    case MustNot(ms) => Verdict(ScanFor(base, ms, true, x, flags), false)
    case IsInstance(tag) => Ok(Bool(HasType(x, tag)))
    case Comparison(c, falsey) => CallComparison(base, c, falsey, x, flags)
    case Break => Raised(Transformation(BreakError))
    case When(m, th, ot) =>
      (match Eval(base, m, x, flags)
       case Raised(e) => Raised(e)
       case Ok(b) => if Truthy(b) then Eval(base, th, x, flags) else Eval(base, ot, x, flags))
    case WhenNot(m, th, ot) =>
      (match Eval(base, m, x, flags)
       case Raised(e) => Raised(e)
       case Ok(b) => if !Truthy(b) then Eval(base, th, x, flags) else Eval(base, ot, x, flags))
    case BreakIf(m) =>
      (match Eval(base, m, x, flags)
       case Raised(e) => Raised(e)
       case Ok(b) => if Truthy(b) then Raised(Transformation(BreakerError)) else Ok(x))
    case Item(sel) => ItemCall(x, sel)
    case Attribute(name) => AttributeCall(x, name)
    case CoerceTo(target, coercer) => CoerceCall(base, target, coercer, x)
    case Tail => TailCall(x)
    case TakeWhile(p, lazy) => TakeWhileCall(p, Setting(flags, TakeWhileLazy, lazy), x)
    case DropWhile(p, lazy) => DropWhileCall(p, Setting(flags, DropWhileLazy, lazy), x)
    case Partition(p) => PartitionCall(p, x)
    case Filter(p, lazy) => FilterCall(p, Setting(flags, FilterLazy, lazy), x)
    case Find(p) => FindCall(p, x)
    case MapWith(f, unpack, lazy) => MapCall(f, Setting(flags, MapUnpack, unpack), Setting(flags, MapLazy, lazy), x)
    case Flatten(lazy) => FlattenCall(Setting(flags, FlattenLazy, lazy), x)
    case Unary(op) =>
      // `UnaryOperation.__call__(self, value)` accepts no keyword arguments
      if flags != map[] then Raised(Builtin(TypeError)) else ApplyUnary(op, x)
    case LogicalNot => if flags != map[] then Raised(Builtin(TypeError)) else Ok(Bool(!Truthy(x)))
    case FloorDivideBy(n) => FloorDivide(x, n)
    case ModuloBy(n) => Modulo(x, n)
    case DivModBy(n) => DivideModulo(x, n)
    case Accumulate(op, vs) => Fold(op, x, vs)
    case Pow(args) => PowValue(x, args)
  }

  /**
    The loop shared by `Must`, `Should` and `MustNot`: call the members in order
    and report whether one returned exactly `stop` (`is False` for Must, `is True`
    for the other two) before any raised; the first exception propagates and
    the members after the one found are not called.
   */
  function ScanFor(base: RightShiftBase, ms: seq<Transformer>, stop: bool, x: Value, flags: Flags): Result<bool>
    decreases ms
  {
    if ms == [] then Ok(false)
    else match Eval(base, ms[0], x, flags)
      case Raised(e) => Raised(e)
      case Ok(v) => if v == Bool(stop) then Ok(true) else ScanFor(base, ms[1..], stop, x, flags)
  }

  /** The bool a combinator returns: `found` for Should, `not found` for Must and MustNot. */
  function Verdict(scan: Result<bool>, whenFound: bool): Result<Value>
  {
    match scan
    case Ok(found) => Ok(Bool(if found then whenFound else !whenFound))
    case Raised(e) => Raised(e)
  }

  /* ---------------- >> ---------------- */

  /** The right operand of `>>`, `&`, `|`, `then` and `otherwise`: a transformer or some other object. */
  datatype Operand = Stage(stage: Transformer) | NotTransformer(other: Value)

  /**
    `self >> other` (`Transformer.__rshift__`): the chain `_Chain(other, self)`,
    or ChainException, raised while building, for an operand that is not a
    transformer.
   */
  function Shift(self: Transformer, other: Operand): (r: Result<Transformer>)
    ensures other.NotTransformer? <==> r.Raised?
    ensures r.Raised? ==> r.error == Transformation(ChainError)
    ensures r.Ok? ==> r.value.Chain? && r.value.left == other.stage && r.value.right == self
  {
    match other
    case Stage(t) => Ok(Chain(t, self))
    case NotTransformer(_) => Raised(Transformation(ChainError))
  }

  /** Composition of results: `g` applied to the value `r` holds, or `r`'s exception. */
  function Compose(base: RightShiftBase, r: Result<Value>, g: Transformer): Result<Value>
  {
    match r
    case Ok(y) => Eval(base, g, y, map[])
    case Raised(e) => Raised(e)
  }

  /**
    `(a >> b)(x)` is `a(b(x))`: the right operand runs first.  A failure of `b`
    propagates and `a` is not consulted.
   */
  lemma ShiftRunsRightOperandFirst(base: RightShiftBase, a: Transformer, b: Transformer, x: Value)
    ensures Shift(a, Stage(b)).Ok?
    ensures Eval(base, Shift(a, Stage(b)).value, x, map[]) == Compose(base, Eval(base, b, x, map[]), a)
    ensures Eval(base, b, x, map[]).Raised? ==>
              Eval(base, Shift(a, Stage(b)).value, x, map[]) == Eval(base, b, x, map[])
  {
  }

  /**
    The `_Chain` docstring says `(a >> b)(x)` is `b(a(x))`.  With `a = value(1)`
    and `b = value(2)` the code gives 1 where the docstring promises 2.
   */
  lemma ShiftOrderDiffersFromDocstring(base: RightShiftBase, x: Value)
    ensures Eval(base, Shift(Const(Int(1)), Stage(Const(Int(2)))).value, x, map[]) == Ok(Int(1))
    ensures Compose(base, Eval(base, Const(Int(1)), x, map[]), Const(Int(2))) == Ok(Int(2))
  {
  }

  /** `>>` with something that is not a transformer fails while building, with a recoverable error. */
  lemma ShiftNonTransformerIsRecoverable(base: RightShiftBase, a: Transformer, v: Value)
    ensures Shift(a, NotTransformer(v)) == Raised(Transformation(ChainError))
    ensures IsTransformationException(Shift(a, NotTransformer(v)).error, base)
  {
  }

  /** A chain called with keyword arguments raises TypeError, whatever its stages. */
  lemma ChainRejectsFlags(base: RightShiftBase, left: Transformer, right: Transformer, x: Value, flags: Flags)
    requires flags != map[]
    ensures Eval(base, Chain(left, right), x, flags) == Raised(Builtin(TypeError))
  {
  }

  /** A failure of the first stage is the chain's result: the second stage is never called. */
  lemma ChainPropagatesFailure(base: RightShiftBase, left: Transformer, right: Transformer, right2: Transformer, x: Value)
    requires Eval(base, left, x, map[]).Raised?
    ensures Eval(base, Chain(left, right), x, map[]) == Eval(base, left, x, map[])
    ensures Eval(base, Chain(left, right), x, map[]) == Eval(base, Chain(left, right2), x, map[])
  {
  }

  /** Chaining is associative: `(a >> b) >> c` and `a >> (b >> c)` agree on every input. */
  lemma ChainAssociative(base: RightShiftBase, a: Transformer, b: Transformer, c: Transformer, x: Value, flags: Flags)
    ensures Eval(base, Chain(Chain(a, b), c), x, flags) == Eval(base, Chain(a, Chain(b, c)), x, flags)
  {
  }

  /** The same law stated with `>>`. */
  lemma ShiftAssociative(base: RightShiftBase, a: Transformer, b: Transformer, c: Transformer, x: Value)
    ensures Shift(a, Stage(b)).Ok? && Shift(b, Stage(c)).Ok?
    ensures Eval(base, Shift(Shift(a, Stage(b)).value, Stage(c)).value, x, map[]) ==
            Eval(base, Shift(a, Stage(Shift(b, Stage(c)).value)).value, x, map[])
  {
    ChainAssociative(base, c, b, a, x, map[]);
  }

  /** `identity` is neutral on both sides of a chain. */
  lemma IdentityNeutral(base: RightShiftBase, t: Transformer, x: Value)
    ensures Eval(base, Chain(Identity, t), x, map[]) == Eval(base, t, x, map[])
    ensures Eval(base, Chain(t, Identity), x, map[]) == Eval(base, t, x, map[])
  {
  }

  /** `identity(x) == x` and `(identity >> identity)(x) == x`, as the tests assert for every `x`. */
  lemma IdentityTests(base: RightShiftBase, x: Value)
    ensures Eval(base, Identity, x, map[]) == Ok(x)
    ensures Eval(base, Shift(Identity, Stage(Identity)).value, x, map[]) == Ok(x)
  {
  }

  /** `value(d)(None) == d` and `(value(d) >> value(d))(None) == d`. */
  lemma ValueTests(base: RightShiftBase, d: Value)
    ensures Eval(base, Const(d), PyNone, map[]) == Ok(d)
    ensures Eval(base, Shift(Const(d), Stage(Const(d))).value, PyNone, map[]) == Ok(d)
  {
  }

  /** `wrap(f)`: a user transformer that calls `f(value)` without the flags. */
  function Wrap(f: Value -> Result<Value>): (t: Transformer)
    ensures t.User? && forall x, flags :: t.f(x, flags) == f(x)
  {
    User((x, flags) => f(x))
  }

  /** `i * i` as a callable. */
  function Square(v: Value): Result<Value>
  {
    match AsInt(v)
    case Some(i) => Ok(Int(i * i))
    case None => Raised(Builtin(TypeError))
  }

  /** `wrap(lambda i: i * i)(d) == d * d` and the chain of two such squares gives `d ** 4`. */
  lemma WrapTests(base: RightShiftBase, d: int)
    ensures Eval(base, Wrap(Square), Int(d), map[]) == Ok(Int(d * d))
    ensures Eval(base, Shift(Wrap(Square), Stage(Wrap(Square))).value, Int(d), map[]) == Ok(Int(d * d * d * d))
  {
    assert (d * d) * (d * d) == d * d * d * d;
  }
}
