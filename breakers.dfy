/**
  rightshift/breakers.py: `break_if(matcher)`, a transformer that stops a
  chain with BreakerException when the matcher holds on its input and passes
  the input on unchanged when it does not.
 */
module Breakers {
  import opened Errors
  import opened Python
  import opened Rightshift
  import opened Chains

  /** `BreakIf(matcher)`: BreakerException for an argument that is not a matcher. */
  function MakeBreakIf(arg: Operand): (r: Result<Transformer>)
    ensures r.Ok? <==> arg.Stage? && IsMatcher(arg.stage)
    ensures r.Raised? ==> r.error == Transformation(BreakerError)
    ensures r.Ok? ==> r.value == BreakIf(arg.stage)
  {
    if arg.Stage? && IsMatcher(arg.stage) then Ok(BreakIf(arg.stage))
    else Raised(Transformation(BreakerError))
  }

  /** A transformer that always raises BreakerException. */
  const RaisesBreaker: Transformer := User((v, flags) => Raised(Transformation(BreakerError)))

  /**
    `break_if(m)` behaves as `when(m).then(<raise BreakerException>).otherwise(identity)`:
    BreakerException when `m(x)` is truthy, `x` itself when it is not, and
    `m`'s own exception when `m` raises.  The matcher sees the call's flags.
   */
  lemma BreakIfIsCondition(base: RightShiftBase, m: Transformer, x: Value, flags: Flags)
    ensures Eval(base, BreakIf(m), x, flags) == Eval(base, When(m, RaisesBreaker, Identity), x, flags)
  {
  }

  /** When the matcher holds, BreakerException; when it does not, the input unchanged. */
  lemma BreakIfOutcomes(base: RightShiftBase, m: Transformer, x: Value, flags: Flags)
    ensures Eval(base, m, x, flags).Ok? && Truthy(Eval(base, m, x, flags).value) ==>
              Eval(base, BreakIf(m), x, flags) == Raised(Transformation(BreakerError))
    ensures Eval(base, m, x, flags).Ok? && !Truthy(Eval(base, m, x, flags).value) ==>
              Eval(base, BreakIf(m), x, flags) == Ok(x)
    ensures Eval(base, m, x, flags).Raised? ==> Eval(base, BreakIf(m), x, flags) == Eval(base, m, x, flags)
  {
  }

  /** A BreakIf never returns anything but its input. */
  lemma BreakIfReturnsInput(base: RightShiftBase, m: Transformer, x: Value, flags: Flags)
    ensures Eval(base, BreakIf(m), x, flags).Ok? ==> Eval(base, BreakIf(m), x, flags).value == x
  {
  }

  /** BreakerException is recoverable: a Default downstream returns its default instead. */
  lemma DefaultAbsorbsBreak(base: RightShiftBase, m: Transformer, d: Value, x: Value, flags: Flags)
    requires Eval(base, m, x, flags).Ok?
    ensures Truthy(Eval(base, m, x, flags).value) ==> Eval(base, ApplyDefault(d, BreakIf(m)), x, flags) == Ok(d)
    ensures !Truthy(Eval(base, m, x, flags).value) ==> Eval(base, ApplyDefault(d, BreakIf(m)), x, flags) == Ok(x)
  {
    BreakIfOutcomes(base, m, x, flags);
  }

  /** `identity >> break_if(is_instance(str))` raises BreakerException on every string. */
  lemma BreakIfOnTextTest(base: RightShiftBase, s: string)
    ensures MakeBreakIf(Stage(IsInstance(StrType))).Ok?
    ensures Shift(Identity, Stage(MakeBreakIf(Stage(IsInstance(StrType))).value)).Ok?
    ensures Eval(base, Shift(Identity, Stage(MakeBreakIf(Stage(IsInstance(StrType))).value)).value, Str(s), map[])
            == Raised(Transformation(BreakerError))
  {
    var m := IsInstance(StrType);
    assert Eval(base, Identity, Str(s), map[]) == Ok(Str(s));
    assert Eval(base, m, Str(s), map[]) == Ok(Bool(true));
    BreakIfOutcomes(base, m, Str(s), map[]);
    ShiftRunsRightOperandFirst(base, BreakIf(m), Identity, Str(s));
  }
}
