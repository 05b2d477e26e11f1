/**
  The comparison operators behind `LessThan` … `GreaterThan` and the call of a
  `Comparison` matcher (rightshift/matchers.py).
 */
module Comparisons {
  import opened Errors
  import opened Python

  datatype CmpOp = Lt | Le | Eq | Ne | Ge | Gt

  /** `x op y` on integers. */
  predicate IntCmp(op: CmpOp, x: int, y: int)
  {
    match op
    case Lt => x < y
    case Le => x <= y
    case Eq => x == y
    case Ne => x != y
    case Ge => x >= y
    case Gt => x > y
  }

  /** `s op t` on strings: lexicographic by code point, a proper prefix first. */
  predicate StrCmp(op: CmpOp, s: string, t: string)
    decreases |s|
  {
    if s == [] || t == [] || s[0] != t[0] then
      if s == [] || t == [] then IntCmp(op, |s|, |t|)
      else IntCmp(op, s[0] as int, t[0] as int)
    else StrCmp(op, s[1..], t[1..])
  }

  /**
    Python's `a op b`: Ok(the boolean) or TypeError where the ordering operators
    meet values of unrelated types.  `==` and `!=` never raise.
   */
  function Compare(op: CmpOp, a: Value, b: Value): (r: Result<bool>)
    ensures op == Eq ==> r == Ok(PyEq(a, b))
    ensures op == Ne ==> r == Ok(!PyEq(a, b))
    ensures r.Raised? ==> r.error == Builtin(TypeError)
    decreases a
  {
    if op == Eq then Ok(PyEq(a, b))
    else if op == Ne then Ok(!PyEq(a, b))
    else if AsInt(a).Some? && AsInt(b).Some? then Ok(IntCmp(op, AsInt(a).value, AsInt(b).value))
    else match (a, b)
      case (Str(s), Str(t)) => Ok(StrCmp(op, s, t))
      case (List(s), List(t)) => CompareItems(op, s, t)
      case (Tuple(s), Tuple(t)) => CompareItems(op, s, t)
      case _ => Raised(Builtin(TypeError))
  }

  /** Lexicographic comparison of two lists or tuples: decided by the first unequal pair. */
  function CompareItems(op: CmpOp, s: seq<Value>, t: seq<Value>): (r: Result<bool>)
    ensures r.Raised? ==> r.error == Builtin(TypeError)
    decreases s
  {
    if s == [] || t == [] then Ok(IntCmp(op, |s|, |t|))
    else if PyEq(s[0], t[0]) then CompareItems(op, s[1..], t[1..])
    else Compare(op, s[0], t[0])
  }

  /** The callable a `Comparison` was built with. */
  datatype Comparator =
      /** The bound comparison of LessThan(operand) … GreaterThan(operand): `value op operand`. */
    | Operator(op: CmpOp, operand: Value)
      /** A user callable `f(value, **flags)`. */
    | UserFunction(f: (Value, Flags) -> Result<Value>)

  /** The flag that overrides a Comparison's `falsey_exceptions` setting. */
  const FalseyFlag: string := "comparison__falsey_exceptions"

  /** What the comparator returns or raises for `value`. */
  function RunComparator(c: Comparator, value: Value, flags: Flags): Result<Value>
  {
    match c
    case Operator(op, operand) =>
      (match Compare(op, value, operand)
       case Ok(b) => Ok(Bool(b))
       case Raised(e) => Raised(e))
    case UserFunction(f) => f(value, flags)
  }

  /**
    `Comparison.__call__`: the comparator's result as a bool; an `Exception`
    from the comparator becomes False when the flag (or, without the flag, the
    instance setting) is truthy and a MatcherException otherwise; anything that
    is not an `Exception` propagates.
   */
  function CallComparison(base: RightShiftBase, c: Comparator, falsey: bool, value: Value, flags: Flags)
    : (r: Result<Value>)
    ensures r.Ok? ==> r.value.Bool?
    ensures RunComparator(c, value, flags).Ok? ==>
              r == Ok(Bool(Truthy(RunComparator(c, value, flags).value)))
    ensures RunComparator(c, value, flags).Raised? && IsException(RunComparator(c, value, flags).error, base) ==>
              r == (if Truthy(FlagOr(flags, FalseyFlag, Bool(falsey))) then Ok(Bool(false))
                    else Raised(RightShift(MatcherError)))
    ensures RunComparator(c, value, flags).Raised? && !IsException(RunComparator(c, value, flags).error, base) ==>
              r == RunComparator(c, value, flags)
  {
    match RunComparator(c, value, flags)
    case Ok(v) => Ok(Bool(Truthy(v)))
    case Raised(e) =>
      if !IsException(e, base) then Raised(e)
      else if Truthy(FlagOr(flags, FalseyFlag, Bool(falsey))) then Ok(Bool(false))
      else Raised(RightShift(MatcherError))
  }

  /** On integers the six operators are exactly the integer comparisons. */
  lemma CompareIntegers(op: CmpOp, x: int, y: int)
    ensures Compare(op, Int(x), Int(y)) == Ok(IntCmp(op, x, y))
  {
  }

  /** Comparing a string with an integer by an ordering operator raises TypeError. */
  lemma OrderingMixedTypesRaises(op: CmpOp, s: string, y: int)
    requires op != Eq && op != Ne
    ensures Compare(op, Str(s), Int(y)) == Raised(Builtin(TypeError))
  {
  }

  /** `<` on lists is decided by the first position where the lists differ. */
  lemma {:induction false} ListLessAtFirstDifference(s: seq<Value>, t: seq<Value>, k: nat)
    requires k < |s| && k < |t|
    requires forall i :: 0 <= i < k ==> PyEq(s[i], t[i])
    requires !PyEq(s[k], t[k])
    ensures Compare(Lt, List(s), List(t)) == Compare(Lt, s[k], t[k])
  {
    PrefixDecides(s, t, k);
  }

  lemma {:induction false} PrefixDecides(s: seq<Value>, t: seq<Value>, k: nat)
    requires k < |s| && k < |t|
    requires forall i :: 0 <= i < k ==> PyEq(s[i], t[i])
    requires !PyEq(s[k], t[k])
    ensures CompareItems(Lt, s, t) == Compare(Lt, s[k], t[k])
    decreases k
  {
    if k > 0 {
      assert PyEq(s[0], t[0]);
      PrefixDecides(s[1..], t[1..], k - 1);
    }
  }
}
