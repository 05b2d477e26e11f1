/**
  rightshift/extractors.py as transformers: `item[k]`, `attr(name)` and
  `coerce_to(type, coercer)` inside chains.  Their failures are
  ExtractorExceptions, which a `Default` downstream absorbs.
 */
module Extractors {
  import opened Errors
  import opened Python
  import opened Rightshift
  import opened Lookups
  import opened Chains

  /** `item[sel] >> default(d)`: the looked-up value, or `d` whenever the lookup fails. */
  lemma ItemOrDefault(base: RightShiftBase, sel: Selector, d: Value, x: Value, flags: Flags)
    ensures Subscript(x, sel).Ok? ==> Eval(base, ApplyDefault(d, Item(sel)), x, flags) == Subscript(x, sel)
    ensures Subscript(x, sel).Raised? ==> Eval(base, ApplyDefault(d, Item(sel)), x, flags) == Ok(d)
  {
  }

  /** `attr(name) >> default(d)` on an object: its attribute when it has one, `d` when it has none. */
  lemma AttributeOrDefault(base: RightShiftBase, name: string, d: Value, cls: string, attrs: map<string, Value>, flags: Flags)
    ensures name in attrs ==> Eval(base, ApplyDefault(d, Attribute(name)), Object(cls, attrs), flags) == Ok(attrs[name])
    ensures name !in attrs ==> Eval(base, ApplyDefault(d, Attribute(name)), Object(cls, attrs), flags) == Ok(d)
  {
  }

  /**
    `coerce_to(t, c) >> default(d)`: the coerced value when it is a `t`, and `d`
    when the coercer returns something else or raises an ordinary exception.
   */
  lemma CoerceOrDefault(base: RightShiftBase, target: PyType, c: Value -> Result<Value>, d: Value, x: Value, flags: Flags)
    requires c(x).Ok? || IsException(c(x).error, base)
    ensures c(x).Ok? && HasType(c(x).value, target.tag) ==>
              Eval(base, ApplyDefault(d, CoerceTo(Some(target), Some(c))), x, flags) == c(x)
    ensures !(c(x).Ok? && HasType(c(x).value, target.tag)) ==>
              Eval(base, ApplyDefault(d, CoerceTo(Some(target), Some(c))), x, flags) == Ok(d)
  {
    var r := CoerceCall(base, Some(target), Some(c), x);
    assert Eval(base, CoerceTo(Some(target), Some(c)), x, flags) == r;
    CoerceFailureIsRecoverable(base, Some(target), Some(c), x);
  }

  /** Without a coercer, CoerceTo calls the type itself. */
  lemma CoercerDefaultsToType(base: RightShiftBase, target: PyType, x: Value, flags: Flags)
    ensures target.construct(x).Ok? && HasType(target.construct(x).value, target.tag) ==>
              Eval(base, CoerceTo(Some(target), None), x, flags) == target.construct(x)
    ensures target.construct(x).Ok? && !HasType(target.construct(x).value, target.tag) ==>
              Eval(base, CoerceTo(Some(target), None), x, flags) == Raised(Transformation(ExtractorError))
  {
  }

  /**
    The item tests: `item[i](data) == data[i]` for every valid index of a string
    or a list, and `item[k](d) == d[k]` for every key of a dict.
   */
  lemma ItemTests(base: RightShiftBase, s: string, xs: seq<Value>, m: map<Key, Value>, i: nat, k: string, flags: Flags)
    ensures i < |s| ==> Eval(base, Item(At(Int(i))), Str(s), flags) == Ok(Str([s[i]]))
    ensures i < |xs| ==> Eval(base, Item(At(Int(i))), List(xs), flags) == Ok(xs[i])
    ensures StrKey(k) in m ==> Eval(base, Item(At(Str(k))), Dict(m), flags) == Ok(m[StrKey(k)])
  {
    ItemReturnsElement(xs, s, i);
    ItemDictLookup(m, StrKey(k));
  }
}
