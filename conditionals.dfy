/**
  rightshift/conditionals.py: `brk`, and the conditions `when(matcher)` and
  `when_not(matcher)`.  A condition is an object whose two branches start as
  `brk` and are replaced in place by `then(t)` and `otherwise(t)`, each of
  which returns the condition itself so that the calls can be chained.
 */
module Conditionals {
  import opened Errors
  import opened Python
  import opened Rightshift
  import opened Chains

  /** `WhenCondition` (not negated) or `WhenNotCondition` (negated). */
  class Condition {
    const matcher: Transformer
    const negated: bool
    var thenBranch: Transformer
    var otherwiseBranch: Transformer

    /** `Condition.__init__` past its type check: both branches are `brk`. */
    constructor (m: Transformer, negated: bool)
      requires IsMatcher(m)
      ensures matcher == m && this.negated == negated
      ensures thenBranch == Break && otherwiseBranch == Break
    {
      matcher := m;
      this.negated := negated;
      thenBranch := Break;
      otherwiseBranch := Break;
    }

    /**
      The branch a call takes once the matcher returned `v`: the then-branch
      when `v` is truthy (falsy for `when_not`), the otherwise-branch if not.
     */
    function Branch(v: Value): (t: Transformer)
      reads this
      ensures t == thenBranch || t == otherwiseBranch
      ensures Truthy(v) != negated ==> t == thenBranch
      ensures Truthy(v) == negated ==> t == otherwiseBranch
    {
      if Truthy(v) != negated then thenBranch else otherwiseBranch
    }

    /**
      The condition as a transformer, with its current branches: what calling
      it does now.
     */
    function Node(): (t: Transformer)
      reads this
      ensures forall base, x, flags :: Eval(base, matcher, x, flags).Raised? ==>
                Eval(base, t, x, flags) == Eval(base, matcher, x, flags)
      ensures forall base, x, flags :: Eval(base, matcher, x, flags).Ok? ==>
                Eval(base, t, x, flags) == Eval(base, Branch(Eval(base, matcher, x, flags).value), x, flags)
    {
      if negated then WhenNot(matcher, thenBranch, otherwiseBranch)
      else When(matcher, thenBranch, otherwiseBranch)
    }

    /**
      `then(t)`: ConditionException for an argument that is not a transformer,
      leaving the condition as it was; otherwise the then-branch becomes `t` and
      the result is this same condition.
     */
    method Then(arg: Operand) returns (r: Result<Condition>)
      modifies this
      ensures arg.NotTransformer? ==> r == Raised(Transformation(ConditionError)) && thenBranch == old(thenBranch)
      ensures arg.Stage? ==> r == Ok(this) && thenBranch == arg.stage
      ensures otherwiseBranch == old(otherwiseBranch)
    {
      match arg
      case NotTransformer(_) =>
        r := Raised(Transformation(ConditionError));
      case Stage(t) =>
        thenBranch := t;
        r := Ok(this);
    }

    /**
      `otherwise(t)`: ConditionException for an argument that is not a
      transformer, leaving the condition as it was; otherwise the
      otherwise-branch becomes `t` and the result is this same condition.
     */
    method Otherwise(arg: Operand) returns (r: Result<Condition>)
      modifies this
      ensures arg.NotTransformer? ==> r == Raised(Transformation(ConditionError)) && otherwiseBranch == old(otherwiseBranch)
      ensures arg.Stage? ==> r == Ok(this) && otherwiseBranch == arg.stage
      ensures thenBranch == old(thenBranch)
    {
      match arg
      case NotTransformer(_) =>
        r := Raised(Transformation(ConditionError));
      case Stage(t) =>
        otherwiseBranch := t;
        r := Ok(this);
    }
  }

  /**
    `WhenCondition(matcher)` / `WhenNotCondition(matcher)`: ConditionException
    for an argument that is not a matcher; otherwise a new condition whose
    branches are both `brk`.
   */
  method NewCondition(arg: Operand, negated: bool) returns (r: Result<Condition>)
    ensures r.Raised? <==> !(arg.Stage? && IsMatcher(arg.stage))
    ensures r.Raised? ==> r.error == Transformation(ConditionError)
    ensures r.Ok? ==> fresh(r.value) && r.value.matcher == arg.stage && r.value.negated == negated
    ensures r.Ok? ==> r.value.thenBranch == Break && r.value.otherwiseBranch == Break
  {
    if arg.Stage? && IsMatcher(arg.stage) {
      var c := new Condition(arg.stage, negated);
      r := Ok(c);
    } else {
      r := Raised(Transformation(ConditionError));
    }
  }

  /**
    `when(m).then(t).otherwise(o)` (or `when_not`) built step by step: the
    transformer it stands for has `t` and `o` as its branches.
   */
  method BuildCondition(m: Transformer, t: Transformer, o: Transformer, negated: bool) returns (node: Result<Transformer>)
    ensures IsMatcher(m) ==> node == Ok(if negated then WhenNot(m, t, o) else When(m, t, o))
    ensures !IsMatcher(m) ==> node == Raised(Transformation(ConditionError))
  {
    var c := NewCondition(Stage(m), negated);
    if c.Raised? {
      return Raised(c.error);
    }
    var c1 := c.value.Then(Stage(t));
    var c2 := c1.value.Otherwise(Stage(o));
    node := Ok(c2.value.Node());
  }

  /** `brk` raises BreakException on every input, and Default absorbs it. */
  lemma BreakAlwaysRaises(base: RightShiftBase, d: Value, x: Value, flags: Flags)
    ensures Eval(base, Break, x, flags) == Raised(Transformation(BreakError))
    ensures IsTransformationException(Eval(base, Break, x, flags).error, base)
    ensures Eval(base, ApplyDefault(d, Break), x, flags) == Ok(d)
  {
  }

  /**
    A condition whose branches were never set raises BreakException whatever
    the matcher says, unless the matcher itself raises.
   */
  lemma FreshConditionBreaks(base: RightShiftBase, m: Transformer, x: Value, flags: Flags)
    ensures Eval(base, m, x, flags).Ok? ==> Eval(base, When(m, Break, Break), x, flags) == Raised(Transformation(BreakError))
    ensures Eval(base, m, x, flags).Ok? ==> Eval(base, WhenNot(m, Break, Break), x, flags) == Raised(Transformation(BreakError))
    ensures Eval(base, m, x, flags).Raised? ==> Eval(base, When(m, Break, Break), x, flags) == Eval(base, m, x, flags)
    ensures Eval(base, m, x, flags).Raised? ==> Eval(base, WhenNot(m, Break, Break), x, flags) == Eval(base, m, x, flags)
  {
    BreakAlwaysRaises(base, PyNone, x, flags);
    WhenDispatches(base, m, Break, Break, x, flags);
    WhenNotSwapsBranches(base, m, Break, Break, x, flags);
  }

  /**
    `when(m)` runs the then-branch when `m(x)` is truthy and the otherwise-branch
    when it is not, each with the same value and flags; an exception of the
    matcher propagates.
   */
  lemma WhenDispatches(base: RightShiftBase, m: Transformer, t: Transformer, o: Transformer, x: Value, flags: Flags)
    ensures Eval(base, m, x, flags).Ok? && Truthy(Eval(base, m, x, flags).value) ==>
              Eval(base, When(m, t, o), x, flags) == Eval(base, t, x, flags)
    ensures Eval(base, m, x, flags).Ok? && !Truthy(Eval(base, m, x, flags).value) ==>
              Eval(base, When(m, t, o), x, flags) == Eval(base, o, x, flags)
    ensures Eval(base, m, x, flags).Raised? ==> Eval(base, When(m, t, o), x, flags) == Eval(base, m, x, flags)
  {
  }

  /** `when_not(m).then(t).otherwise(o)` behaves as `when(m).then(o).otherwise(t)`. */
  lemma WhenNotSwapsBranches(base: RightShiftBase, m: Transformer, t: Transformer, o: Transformer, x: Value, flags: Flags)
    ensures Eval(base, WhenNot(m, t, o), x, flags) == Eval(base, When(m, o, t), x, flags)
  {
  }

  /** The same law for conditions built with `then` and `otherwise`. */
  method WhenNotBuildsSwapped(base: RightShiftBase, m: Transformer, t: Transformer, o: Transformer, x: Value, flags: Flags)
    returns (whenNot: Result<Transformer>, when: Result<Transformer>)
    requires IsMatcher(m)
    ensures whenNot.Ok? && when.Ok?
    ensures Eval(base, whenNot.value, x, flags) == Eval(base, when.value, x, flags)
  {
    whenNot := BuildCondition(m, t, o, true);
    when := BuildCondition(m, o, t, false);
    WhenNotSwapsBranches(base, m, t, o, x, flags);
  }

  /** `then` with something that is not a transformer fails and changes nothing. */
  method ThenRejectsNonTransformer(m: Transformer, v: Value) returns (r: Result<Condition>, c: Condition)
    requires IsMatcher(m)
    ensures r == Raised(Transformation(ConditionError))
    ensures c.thenBranch == Break && c.otherwiseBranch == Break
  {
    c := new Condition(m, false);
    r := c.Then(NotTransformer(v));
  }
}
