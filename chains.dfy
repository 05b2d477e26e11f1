/**
  rightshift/chains.py: `Flags(**f)` turns a transformer into a FlagsChain that
  calls it with extra flags, and `Default(d)` turns it into a DefaultChain that
  falls back to `d` when it raises a TransformationException.  `t >> flags(..)`
  and `t >> default(..)` apply them to `t`.
 */
module Chains {
  import opened Errors
  import opened Python
  import opened Rightshift

  /** `Flags(**f)(left)`: calling the result calls `left` with `f` overridden by the call's flags. */
  function ApplyFlags(f: Flags, left: Transformer): (t: Transformer)
    ensures forall base, x, call :: Eval(base, t, x, call) == Eval(base, left, x, f + call)
  {
    FlagsChain(f, left)
  }

  /** `Default(d)(left)`: `left`'s result, or `d` in place of any TransformationException. */
  function ApplyDefault(d: Value, left: Transformer): (t: Transformer)
    ensures forall base, x, flags :: Eval(base, left, x, flags).Ok? ==> Eval(base, t, x, flags) == Eval(base, left, x, flags)
    ensures forall base, x, flags ::
              (Eval(base, left, x, flags).Raised? && IsTransformationException(Eval(base, left, x, flags).error, base))
              ==> Eval(base, t, x, flags) == Ok(d)
    ensures forall base, x, flags ::
              (Eval(base, left, x, flags).Raised? && !IsTransformationException(Eval(base, left, x, flags).error, base))
              ==> Eval(base, t, x, flags) == Eval(base, left, x, flags)
  {
    DefaultChain(d, left)
  }

  /** A transformer that returns the value of one flag, or its input when the flag is absent. */
  function ReadsFlag(key: string): Transformer
  {
    User((v, flags) => Ok(FlagOr(flags, key, v)))
  }

  /**
    Flag precedence: a key given at call time wins over the same key stored in
    the FlagsChain; a stored key reaches the transformer when the call does not
    give it.
   */
  lemma CallTimeFlagsWin(base: RightShiftBase, f: Flags, key: string, x: Value, call: Flags)
    ensures key in call ==> Eval(base, ApplyFlags(f, ReadsFlag(key)), x, call) == Ok(call[key])
    ensures key !in call && key in f ==> Eval(base, ApplyFlags(f, ReadsFlag(key)), x, call) == Ok(f[key])
    ensures key !in call && key !in f ==> Eval(base, ApplyFlags(f, ReadsFlag(key)), x, call) == Ok(x)
  {
    assert Eval(base, ApplyFlags(f, ReadsFlag(key)), x, call) == Ok(FlagOr(f + call, key, x));
  }

  /** Stacking two Flags: the outer one's flags override the inner one's. */
  lemma NestedFlagsMerge(base: RightShiftBase, inner: Flags, outer: Flags, t: Transformer, x: Value, call: Flags)
    ensures Eval(base, ApplyFlags(outer, ApplyFlags(inner, t)), x, call) == Eval(base, t, x, inner + (outer + call))
  {
  }

  /** `(returns_override >> flags(override=a))(b) == a`, the flags test. */
  lemma FlagsTest(base: RightShiftBase, a: Value, b: Value)
    ensures Eval(base, ApplyFlags(map["override" := a], ReadsFlag("override")), b, map[]) == Ok(a)
  {
    CallTimeFlagsWin(base, map["override" := a], "override", b, map[]);
  }

  /** A transformer that always raises TransformationException. */
  const RaisesTransformation: Transformer := User((v, flags) => Raised(Transformation(Plain)))

  /** `(raises_transformation_exception >> default(a))(b) == a`, the default test. */
  lemma DefaultTest(base: RightShiftBase, a: Value, b: Value, flags: Flags)
    ensures Eval(base, ApplyDefault(a, RaisesTransformation), b, flags) == Ok(a)
  {
  }

  /** Default absorbs every subclass the core raises: Chain, Extractor, Breaker, Break and Condition. */
  lemma DefaultAbsorbsEveryTransformationKind(base: RightShiftBase, d: Value, k: TransformationKind, x: Value, flags: Flags)
    ensures Eval(base, ApplyDefault(d, User((v, fl) => Raised(Transformation(k)))), x, flags) == Ok(d)
  {
    var t := User((v, fl) => Raised(Transformation(k)));
    assert Eval(base, t, x, flags) == Raised(Transformation(k));
  }

  /**
    Whether Default absorbs a MatcherException depends on the base class of
    RightShiftException: exactly when that base is TransformationException.
   */
  lemma DefaultAndMatcherErrors(base: RightShiftBase, d: Value, x: Value, flags: Flags)
    ensures Eval(base, ApplyDefault(d, User((v, fl) => Raised(RightShift(MatcherError)))), x, flags) == Ok(d)
            <==> base == FromTransformationException
  {
  }

  /** A built-in exception such as TypeError is never absorbed. */
  lemma DefaultPassesBuiltinErrors(base: RightShiftBase, d: Value, k: BuiltinKind, x: Value, flags: Flags)
    ensures Eval(base, ApplyDefault(d, User((v, fl) => Raised(Builtin(k)))), x, flags) == Raised(Builtin(k))
  {
  }

  /** Default over Default: the inner default wins, since the inner chain never raises a recoverable error. */
  lemma InnerDefaultWins(base: RightShiftBase, d1: Value, d2: Value, t: Transformer, x: Value, flags: Flags)
    ensures Eval(base, ApplyDefault(d2, ApplyDefault(d1, t)), x, flags) == Eval(base, ApplyDefault(d1, t), x, flags)
  {
  }
}
