/**
  rightshift/matchers.py: the constructors of `Must`, `Should` and `MustNot`,
  what calling them returns, the `|` and `&` of matchers, and the comparisons
  `lt` … `gt` with their `value_is` spelling.  The `&` and `|` of transformers
  that are not both matchers are the `Both` and `Either` nodes, as far as the
  tests describe them.
 */
module Matchers {
  import opened Errors
  import opened Python
  import opened Comparisons
  import opened Rightshift

  /* ---------------- the combinators ---------------- */

  datatype Combinator = MustOf | ShouldOf | MustNotOf

  /** Every argument is a matcher. */
  predicate AllMatchers(args: seq<Operand>)
  {
    forall i :: 0 <= i < |args| ==> args[i].Stage? && IsMatcher(args[i].stage)
  }

  /** The transformers among the arguments, in order. */
  function Stages(args: seq<Operand>): (ts: seq<Transformer>)
    requires AllMatchers(args)
    ensures |ts| == |args|
    ensures forall i :: 0 <= i < |args| ==> ts[i] == args[i].stage
  {
    seq(|args|, i requires 0 <= i < |args| && AllMatchers(args) => args[i].stage)
  }

  /** The members of a combinator node. */
  function Members(t: Transformer): seq<Transformer>
  {
    match t
    case Must(ms) => ms
    case Should(ms) => ms
    case MustNot(ms) => ms
    case _ => []
  }

  /**
    `Must(*args)`, `Should(*args)`, `MustNot(*args)`: MatcherException for no
    arguments or an argument that is not a matcher; otherwise the combinator of
    the arguments in the order given.
   */
  function NewCombinator(kind: Combinator, args: seq<Operand>): (r: Result<Transformer>)
    ensures r.Ok? <==> args != [] && AllMatchers(args)
    ensures r.Raised? ==> r.error == RightShift(MatcherError)
    ensures r.Ok? ==> Members(r.value) == Stages(args) && IsMatcher(r.value)
    ensures r.Ok? ==> (kind == MustOf <==> r.value.Must?) && (kind == ShouldOf <==> r.value.Should?)
  {
    if args == [] || exists i | 0 <= i < |args| :: !(args[i].Stage? && IsMatcher(args[i].stage)) then
      Raised(RightShift(MatcherError))
    else
      match kind
      case MustOf => Ok(Must(Stages(args)))
      case ShouldOf => Ok(Should(Stages(args)))
      case MustNotOf => Ok(MustNot(Stages(args)))
  }

  /** Every member before position `k` returned a value that is not `Bool(stop)`. */
  predicate NoStopBefore(base: RightShiftBase, ms: seq<Transformer>, stop: bool, x: Value, flags: Flags, k: nat)
    requires k <= |ms|
  {
    forall i :: 0 <= i < k ==> Eval(base, ms[i], x, flags).Ok? && Eval(base, ms[i], x, flags).value != Bool(stop)
  }

  /**
    The scan stops at the first member returning `stop`: it reports it, and the
    members after it are never called.
   */
  lemma {:induction false} ScanStopsAtFirst(base: RightShiftBase, ms: seq<Transformer>, stop: bool, x: Value, flags: Flags, k: nat)
    requires k < |ms|
    requires NoStopBefore(base, ms, stop, x, flags, k)
    requires Eval(base, ms[k], x, flags) == Ok(Bool(stop))
    ensures ScanFor(base, ms, stop, x, flags) == Ok(true)
    ensures ScanFor(base, ms, stop, x, flags) == ScanFor(base, ms[..k + 1], stop, x, flags)
    decreases k
  {
    if k > 0 {
      assert ms[..k + 1][0] == ms[0] && ms[..k + 1][1..] == ms[1..][..k];
      ScanStopsAtFirst(base, ms[1..], stop, x, flags, k - 1);
    }
  }

  /** With no member returning `stop` and none raising, the scan reports nothing found. */
  lemma {:induction false} ScanFindsNothing(base: RightShiftBase, ms: seq<Transformer>, stop: bool, x: Value, flags: Flags)
    requires NoStopBefore(base, ms, stop, x, flags, |ms|)
    ensures ScanFor(base, ms, stop, x, flags) == Ok(false)
    decreases |ms|
  {
    if ms != [] {
      ScanFindsNothing(base, ms[1..], stop, x, flags);
    }
  }

  /** The first member to raise, before any returned `stop`, decides the outcome. */
  lemma {:induction false} ScanPropagatesError(base: RightShiftBase, ms: seq<Transformer>, stop: bool, x: Value, flags: Flags, k: nat)
    requires k < |ms|
    requires NoStopBefore(base, ms, stop, x, flags, k)
    requires Eval(base, ms[k], x, flags).Raised?
    ensures ScanFor(base, ms, stop, x, flags) == Raised(Eval(base, ms[k], x, flags).error)
    decreases k
  {
    if k > 0 {
      ScanPropagatesError(base, ms[1..], stop, x, flags, k - 1);
    }
  }

  /** Scanning `xs + ys` scans `xs`, then `ys` only if nothing was found in `xs`. */
  lemma {:induction false} ScanAppends(base: RightShiftBase, xs: seq<Transformer>, ys: seq<Transformer>, stop: bool, x: Value, flags: Flags)
    ensures ScanFor(base, xs + ys, stop, x, flags) ==
            match ScanFor(base, xs, stop, x, flags)
            case Ok(found) => if found then Ok(true) else ScanFor(base, ys, stop, x, flags)
            case Raised(e) => Raised(e)
    decreases |xs|
  {
    if xs == [] {
      assert xs + ys == ys;
    } else {
      assert (xs + ys)[0] == xs[0] && (xs + ys)[1..] == xs[1..] + ys;
      ScanAppends(base, xs[1..], ys, stop, x, flags);
    }
  }

  /** `Must` returns False at the first member that returns False, and ignores the rest. */
  lemma MustFalseAtFirstFalse(base: RightShiftBase, ms: seq<Transformer>, x: Value, flags: Flags, k: nat)
    requires k < |ms|
    requires NoStopBefore(base, ms, false, x, flags, k)
    requires Eval(base, ms[k], x, flags) == Ok(Bool(false))
    ensures Eval(base, Must(ms), x, flags) == Ok(Bool(false))
    ensures Eval(base, Must(ms), x, flags) == Eval(base, Must(ms[..k + 1]), x, flags)
  {
    ScanStopsAtFirst(base, ms, false, x, flags, k);
  }

  /** `Must` returns True when no member returns False and none raises. */
  lemma MustTrueWithoutFalse(base: RightShiftBase, ms: seq<Transformer>, x: Value, flags: Flags)
    requires NoStopBefore(base, ms, false, x, flags, |ms|)
    ensures Eval(base, Must(ms), x, flags) == Ok(Bool(true))
  {
    ScanFindsNothing(base, ms, false, x, flags);
  }

  /** `Should` returns True at the first member that returns True, and ignores the rest. */
  lemma ShouldTrueAtFirstTrue(base: RightShiftBase, ms: seq<Transformer>, x: Value, flags: Flags, k: nat)
    requires k < |ms|
    requires NoStopBefore(base, ms, true, x, flags, k)
    requires Eval(base, ms[k], x, flags) == Ok(Bool(true))
    ensures Eval(base, Should(ms), x, flags) == Ok(Bool(true))
    ensures Eval(base, Should(ms), x, flags) == Eval(base, Should(ms[..k + 1]), x, flags)
  {
    ScanStopsAtFirst(base, ms, true, x, flags, k);
  }

  /** `Should` returns False when no member returns True and none raises. */
  lemma ShouldFalseWithoutTrue(base: RightShiftBase, ms: seq<Transformer>, x: Value, flags: Flags)
    requires NoStopBefore(base, ms, true, x, flags, |ms|)
    ensures Eval(base, Should(ms), x, flags) == Ok(Bool(false))
  {
    ScanFindsNothing(base, ms, true, x, flags);
  }

  /** `MustNot` returns True exactly when no member returns True: it is the negation of `Should`. */
  lemma MustNotIsNegatedShould(base: RightShiftBase, ms: seq<Transformer>, x: Value, flags: Flags)
    ensures Eval(base, Should(ms), x, flags).Ok? <==> Eval(base, MustNot(ms), x, flags).Ok?
    ensures Eval(base, Should(ms), x, flags).Ok? ==>
              Eval(base, Should(ms), x, flags).value.Bool? &&
              Eval(base, MustNot(ms), x, flags) == Ok(Bool(!Eval(base, Should(ms), x, flags).value.b))
    ensures Eval(base, Should(ms), x, flags).Raised? ==> Eval(base, MustNot(ms), x, flags) == Eval(base, Should(ms), x, flags)
  {
  }

  /** A member's exception reaches the caller of Must, Should or MustNot unchanged. */
  lemma CombinatorsPropagateErrors(base: RightShiftBase, ms: seq<Transformer>, x: Value, flags: Flags, k: nat)
    requires k < |ms|
    requires NoStopBefore(base, ms, false, x, flags, k) && NoStopBefore(base, ms, true, x, flags, k)
    requires Eval(base, ms[k], x, flags).Raised?
    ensures Eval(base, Must(ms), x, flags) == Raised(Eval(base, ms[k], x, flags).error)
    ensures Eval(base, Should(ms), x, flags) == Raised(Eval(base, ms[k], x, flags).error)
    ensures Eval(base, MustNot(ms), x, flags) == Raised(Eval(base, ms[k], x, flags).error)
  {
    ScanPropagatesError(base, ms, false, x, flags, k);
    ScanPropagatesError(base, ms, true, x, flags, k);
  }

  /**
    Must compares with `is False`: a member returning a falsy value that is not
    `False` itself, such as 0, does not make Must fail.
   */
  lemma MustOnlyStopsAtFalseItself(base: RightShiftBase, x: Value, flags: Flags)
    ensures Eval(base, Must([Const(Int(0))]), x, flags) == Ok(Bool(true))
    ensures Eval(base, Should([Const(Int(1))]), x, flags) == Ok(Bool(false))
  {
  }

  /* ---------------- | and & ---------------- */

  /** What `|` adds for its right operand: a Should's members, or the operand itself. */
  function ShouldMembers(t: Transformer): seq<Transformer>
  {
    if t.Should? then t.shoulds else [t]
  }

  /** What `&` adds for its right operand: a Must's members, or the operand itself. */
  function MustMembers(t: Transformer): seq<Transformer>
  {
    if t.Must? then t.musts else [t]
  }

  /**
    `self | other`: for two matchers, a Should with `self` first and the members
    of a right-hand Should flattened in; otherwise the transformer `|`.
   */
  function Or(self: Transformer, other: Transformer): (r: Transformer)
    ensures IsMatcher(self) && IsMatcher(other) ==>
              r.Should? && r.shoulds == [self] + ShouldMembers(other)
    ensures !(IsMatcher(self) && IsMatcher(other)) ==> r == Either(self, other)
  {
    if IsMatcher(self) && IsMatcher(other) then
      Should([self] + ShouldMembers(other))
    else Either(self, other)
  }

  /**
    `self & other`: for two matchers, a Must with `self` first and the members of
    a right-hand Must flattened in; otherwise the transformer `&`.
   */
  function And(self: Transformer, other: Transformer): (r: Transformer)
    ensures IsMatcher(self) && IsMatcher(other) ==>
              r.Must? && r.musts == [self] + MustMembers(other)
    ensures !(IsMatcher(self) && IsMatcher(other)) ==> r == Both(self, other)
  {
    if IsMatcher(self) && IsMatcher(other) then
      Must([self] + MustMembers(other))
    else Both(self, other)
  }

  /** What a combinator's scan reports about a single member. */
  lemma ScanSingle(base: RightShiftBase, t: Transformer, stop: bool, x: Value, flags: Flags)
    ensures ScanFor(base, [t], stop, x, flags) ==
            match Eval(base, t, x, flags)
            case Ok(v) => Ok(v == Bool(stop))
            case Raised(e) => Raised(e)
  {
    assert [t][1..] == [];
  }

  /**
    A member whose result is the verdict of its own members' scan can be
    replaced by those members: nesting a Should in a Should, or a Must in a
    Must, is the same as flattening it.
   */
  lemma NestedScanFlattens(base: RightShiftBase, node: Transformer, inner: seq<Transformer>, rest: seq<Transformer>,
                           stop: bool, x: Value, flags: Flags)
    requires Eval(base, node, x, flags) == Verdict(ScanFor(base, inner, stop, x, flags), stop)
    ensures ScanFor(base, [node] + rest, stop, x, flags) == ScanFor(base, inner + rest, stop, x, flags)
  {
    ScanAppends(base, [node], rest, stop, x, flags);
    ScanSingle(base, node, stop, x, flags);
    ScanAppends(base, inner, rest, stop, x, flags);
  }

  /** Scanning `[a] + bc + cs` equals scanning `[a, b] + cs` when `bc` flattens `b`. */
  lemma ScanFlattensSecond(base: RightShiftBase, a: Transformer, b: Transformer, bc: seq<Transformer>, cs: seq<Transformer>,
                           stop: bool, x: Value, flags: Flags)
    requires bc == [b] || Eval(base, b, x, flags) == Verdict(ScanFor(base, bc, stop, x, flags), stop)
    ensures ScanFor(base, [a] + bc + cs, stop, x, flags) == ScanFor(base, [a, b] + cs, stop, x, flags)
  {
    assert [a] + bc + cs == [a] + (bc + cs);
    assert [a, b] + cs == [a] + ([b] + cs);
    ScanAppends(base, [a], bc + cs, stop, x, flags);
    ScanAppends(base, [a], [b] + cs, stop, x, flags);
    if bc != [b] {
      NestedScanFlattens(base, b, bc, cs, stop, x, flags);
    }
  }

  /**
    Regrouping a scan: a nested node standing for `[a] + bc`, followed by `cs`,
    scans like `[a, b] + cs` when `bc` stands for `b`.
   */
  lemma ScanRegroups(base: RightShiftBase, node: Transformer, a: Transformer, b: Transformer,
                     bc: seq<Transformer>, cs: seq<Transformer>, stop: bool, x: Value, flags: Flags)
    requires Eval(base, node, x, flags) == Verdict(ScanFor(base, [a] + bc, stop, x, flags), stop)
    requires bc == [b] || Eval(base, b, x, flags) == Verdict(ScanFor(base, bc, stop, x, flags), stop)
    ensures ScanFor(base, [node] + cs, stop, x, flags) == ScanFor(base, [a, b] + cs, stop, x, flags)
  {
    NestedScanFlattens(base, node, [a] + bc, cs, stop, x, flags);
    ScanFlattensSecond(base, a, b, bc, cs, stop, x, flags);
  }

  /** Combinators whose scans agree return the same. */
  lemma ScansAgree(base: RightShiftBase, xs: seq<Transformer>, ys: seq<Transformer>, stop: bool, x: Value, flags: Flags)
    requires ScanFor(base, xs, stop, x, flags) == ScanFor(base, ys, stop, x, flags)
    ensures stop ==> Eval(base, Should(xs), x, flags) == Eval(base, Should(ys), x, flags)
    ensures !stop ==> Eval(base, Must(xs), x, flags) == Eval(base, Must(ys), x, flags)
  {
  }

  /** `|` of matchers is associative: `(a | b) | c` and `a | (b | c)` agree on every input. */
  lemma OrAssociative(base: RightShiftBase, a: Transformer, b: Transformer, c: Transformer, x: Value, flags: Flags)
    requires IsMatcher(a) && IsMatcher(b) && IsMatcher(c)
    ensures Eval(base, Or(Or(a, b), c), x, flags) == Eval(base, Or(a, Or(b, c)), x, flags)
  {
    var cs := ShouldMembers(c);
    var bc := ShouldMembers(b);
    var ab := Or(a, b);
    assert ab == Should([a] + bc);
    assert Or(ab, c) == Should([ab] + cs);
    assert Or(a, Or(b, c)) == Should([a, b] + cs);
    ScanRegroups(base, ab, a, b, bc, cs, true, x, flags);
    ScansAgree(base, [ab] + cs, [a, b] + cs, true, x, flags);
  }

  /** `&` of matchers is associative: `(a & b) & c` and `a & (b & c)` agree on every input. */
  lemma AndAssociative(base: RightShiftBase, a: Transformer, b: Transformer, c: Transformer, x: Value, flags: Flags)
    requires IsMatcher(a) && IsMatcher(b) && IsMatcher(c)
    ensures Eval(base, And(And(a, b), c), x, flags) == Eval(base, And(a, And(b, c)), x, flags)
  {
    var cs := MustMembers(c);
    var bc := MustMembers(b);
    var ab := And(a, b);
    assert ab == Must([a] + bc);
    assert And(ab, c) == Must([ab] + cs);
    assert And(a, And(b, c)) == Must([a, b] + cs);
    ScanRegroups(base, ab, a, b, bc, cs, false, x, flags);
    ScansAgree(base, [ab] + cs, [a, b] + cs, false, x, flags);
  }

  /** The `&` and `|` assertions of the identity tests, for every input. */
  lemma AndOrTests(base: RightShiftBase, x: Value)
    ensures Eval(base, And(Identity, Identity), x, map[]) == Ok(List([x, x]))
    ensures Eval(base, Or(Identity, Identity), x, map[]) == Ok(x)
    ensures Eval(base, Or(And(Identity, Identity), Identity), x, map[]) == Ok(List([x, x]))
    ensures Eval(base, Or(Identity, And(Identity, Identity)), x, map[]) == Ok(x)
  {
  }

  /** The `&` and `|` assertions of the value tests, for every value. */
  lemma AndOrValueTests(base: RightShiftBase, d: Value)
    ensures Eval(base, And(Const(d), Const(d)), PyNone, map[]) == Ok(List([d, d]))
    ensures Eval(base, Or(Const(d), Const(d)), PyNone, map[]) == Ok(d)
    ensures Eval(base, Or(And(Const(d), Const(d)), Const(d)), PyNone, map[]) == Ok(List([d, d]))
    ensures Eval(base, Or(Const(d), And(Const(d), Const(d))), PyNone, map[]) == Ok(d)
  {
  }

  /* ---------------- comparisons ---------------- */

  /** The constructor argument of `Comparison`: a callable, or something that is not. */
  datatype ComparatorArg = Callable(comparator: Comparator) | NotCallable(other: Value)

  /** `Comparison(comparator, falsey_exceptions)`: MatcherException for a comparator that is not callable. */
  function NewComparison(arg: ComparatorArg, falsey: bool): (r: Result<Transformer>)
    ensures r.Raised? <==> arg.NotCallable?
    ensures r.Raised? ==> r.error == RightShift(MatcherError)
    ensures r.Ok? ==> IsMatcher(r.value) &&
                      forall base, x, flags :: Eval(base, r.value, x, flags) == CallComparison(base, arg.comparator, falsey, x, flags)
  {
    match arg
    case Callable(c) => Ok(Comparison(c, falsey))
    case NotCallable(_) => Raised(RightShift(MatcherError))
  }

  /** `LessThan(a)` … `GreaterThan(a)`: a Comparison whose comparator is `value op a`. */
  function CompareWith(op: CmpOp, a: Value, falsey: bool): (t: Transformer)
    ensures IsMatcher(t)
  {
    Comparison(Operator(op, a), falsey)
  }

  /**
    `value_is < a`, `value_is <= a`, … : the six operator methods of `__ValueIs`,
    each the comparison of its operator with `falsey_exceptions` off.
   */
  function ValueIs(op: CmpOp, a: Value): (t: Transformer)
    ensures IsMatcher(t)
    ensures forall base, x, flags :: Eval(base, t, x, flags) == Eval(base, CompareWith(op, a, false), x, flags)
  {
    CompareWith(op, a, false)
  }

  /**
    On integers, `lt(a)(b)`, `lte(a)(b)`, `eq(a)(b)`, `ne(a)(b)`, `gte(a)(b)`,
    `gt(a)(b)` are exactly `b < a`, `b <= a`, `b == a`, `b != a`, `b >= a`,
    `b > a`, whatever the flags.
   */
  lemma IntegerComparisons(base: RightShiftBase, op: CmpOp, a: int, b: int, falsey: bool, flags: Flags)
    ensures Eval(base, CompareWith(op, Int(a), falsey), Int(b), flags) == Ok(Bool(IntCmp(op, b, a)))
    ensures Eval(base, ValueIs(op, Int(a)), Int(b), flags) == Ok(Bool(IntCmp(op, b, a)))
  {
    CompareIntegers(op, b, a);
  }

  /**
    A comparison that raises (`lt(1)` on a string): False when the flag
    `comparison__falsey_exceptions`, or without the flag the instance setting,
    is truthy; otherwise MatcherException.
   */
  lemma FalseyExceptions(base: RightShiftBase, s: string, falsey: bool, flags: Flags)
    ensures Truthy(FlagOr(flags, FalseyFlag, Bool(falsey))) ==>
              Eval(base, CompareWith(Lt, Int(1), falsey), Str(s), flags) == Ok(Bool(false))
    ensures !Truthy(FlagOr(flags, FalseyFlag, Bool(falsey))) ==>
              Eval(base, CompareWith(Lt, Int(1), falsey), Str(s), flags) == Raised(RightShift(MatcherError))
    ensures FalseyFlag in flags && !Truthy(flags[FalseyFlag]) ==>
              Eval(base, CompareWith(Lt, Int(1), true), Str(s), flags) == Raised(RightShift(MatcherError))
  {
    OrderingMixedTypesRaises(Lt, s, 1);
  }

  /** `must(gt(a), lt(c))(b)` and `((value_is > a) & (value_is < c))(b)` hold for `a < b < c`. */
  lemma BetweenTest(base: RightShiftBase, a: int, b: int, c: int, flags: Flags)
    requires a < b < c
    ensures NewCombinator(MustOf, [Stage(CompareWith(Gt, Int(a), false)), Stage(CompareWith(Lt, Int(c), false))]).Ok?
    ensures Eval(base, NewCombinator(MustOf, [Stage(CompareWith(Gt, Int(a), false)), Stage(CompareWith(Lt, Int(c), false))]).value,
                 Int(b), flags) == Ok(Bool(true))
    ensures Eval(base, And(ValueIs(Gt, Int(a)), ValueIs(Lt, Int(c))), Int(b), flags) == Ok(Bool(true))
  {
    var ms := [CompareWith(Gt, Int(a), false), CompareWith(Lt, Int(c), false)];
    assert Stages([Stage(ms[0]), Stage(ms[1])]) == ms;
    IntegerComparisons(base, Gt, a, b, false, flags);
    IntegerComparisons(base, Lt, c, b, false, flags);
    MustTrueWithoutFalse(base, ms, Int(b), flags);
  }
}
