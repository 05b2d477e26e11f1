/**
  The lookups of rightshift/extractors.py: `value[item_or_slice]` behind `Item`
  (and so behind head, last, take, drop and their right-hand variants),
  `getattr` behind `Attribute`, and the coercion behind `CoerceTo`.  Every
  failure an extractor catches becomes an ExtractorException.
 */
module Lookups {
  import opened Errors
  import opened Python

  /** What an `Item` was built with: one index or key, or a slice `start:stop` (step 1). */
  datatype Selector = At(key: Value) | Range(start: Option<int>, stop: Option<int>)

  /** `xs[i]` for a sequence of length `|xs|`: IndexError outside `-|xs| <= i < |xs|`. */
  function IndexInto<T>(xs: seq<T>, i: int): (r: Result<T>)
    ensures r.Ok? <==> -|xs| <= i < |xs|
    ensures 0 <= i < |xs| ==> r == Ok(xs[i])
    ensures -|xs| <= i < 0 ==> r == Ok(xs[|xs| + i])
    ensures r.Raised? ==> r.error == Builtin(IndexError)
  {
    match NormalIndex(i, |xs|)
    case None => Raised(Builtin(IndexError))
    case Some(j) => Ok(xs[j])
  }

  /** Python's `v[key]` or `v[start:stop]`, with the built-in exception it raises. */
  function Subscript(v: Value, sel: Selector): (r: Result<Value>)
    ensures r.Raised? ==> r.error.Builtin?
  {
    match sel
    case At(key) =>
      (match v
       case Str(s) =>
         if AsInt(key).None? then Raised(Builtin(TypeError))
         else
           (match IndexInto(s, AsInt(key).value)
            case Ok(c) => Ok(Str([c]))
            case Raised(e) => Raised(e))
       case List(xs) =>
         if AsInt(key).None? then Raised(Builtin(TypeError)) else IndexInto(xs, AsInt(key).value)
       case Tuple(xs) =>
         if AsInt(key).None? then Raised(Builtin(TypeError)) else IndexInto(xs, AsInt(key).value)
       case Dict(m) =>
         if key.List? || key.Dict? then Raised(Builtin(TypeError))  // unhashable key
         else if AsKey(key).Some? && AsKey(key).value in m then Ok(m[AsKey(key).value])
         else Raised(Builtin(KeyError))
       case _ => Raised(Builtin(TypeError)))
    case Range(start, stop) =>
      (match v
       case Str(s) => Ok(Str(Slice(s, start, stop)))
       case List(xs) => Ok(List(Slice(xs, start, stop)))
       case Tuple(xs) => Ok(Tuple(Slice(xs, start, stop)))
       case _ => Raised(Builtin(TypeError)))
  }

  /**
    `Item.__call__`: the looked-up value, or ExtractorException for every
    failure, since every failure of `v[...]` is an `Exception`.
   */
  function ItemCall(v: Value, sel: Selector): (r: Result<Value>)
    ensures r.Ok? <==> Subscript(v, sel).Ok?
    ensures r.Ok? ==> r.value == Subscript(v, sel).value
    ensures r.Raised? ==> r.error == Transformation(ExtractorError)
  {
    match Subscript(v, sel)
    case Ok(w) => Ok(w)
    case Raised(_) => Raised(Transformation(ExtractorError))
  }

  /** `item[i](xs) == xs[i]` for every valid index of a list, tuple or string. */
  lemma ItemReturnsElement(xs: seq<Value>, s: string, i: nat)
    ensures i < |xs| ==> ItemCall(List(xs), At(Int(i))) == Ok(xs[i])
    ensures i < |xs| ==> ItemCall(Tuple(xs), At(Int(i))) == Ok(xs[i])
    ensures i < |s| ==> ItemCall(Str(s), At(Int(i))) == Ok(Str([s[i]]))
  {
  }

  /** A negative index counts from the end, as `last == item[-1]` relies on. */
  lemma ItemNegativeIndex(xs: seq<Value>, i: int)
    requires -|xs| <= i < 0
    ensures ItemCall(List(xs), At(Int(i))) == Ok(xs[|xs| + i])
  {
  }

  /** An index outside the sequence is an ExtractorException, not an IndexError. */
  lemma ItemOutOfRange(xs: seq<Value>, i: int)
    requires i >= |xs| || i < -|xs|
    ensures ItemCall(List(xs), At(Int(i))) == Raised(Transformation(ExtractorError))
  {
  }

  /** `item[k](d) == d[k]` for a key present in a dict; a missing key is an ExtractorException. */
  lemma ItemDictLookup(m: map<Key, Value>, k: Key)
    ensures k in m ==> ItemCall(Dict(m), At(KeyValue(k))) == Ok(m[k])
    ensures k !in m ==> ItemCall(Dict(m), At(KeyValue(k))) == Raised(Transformation(ExtractorError))
  {
  }

  /** The value a dictionary key stands for. */
  function KeyValue(k: Key): (v: Value)
    ensures AsKey(v) == Some(k)
  {
    match k
    case NoneKey => PyNone
    case IntKey(i) => Int(i)
    case StrKey(s) => Str(s)
  }

  /** A slice of a list is the clamped Python slice, and it never fails. */
  lemma ItemSliceOfList(xs: seq<Value>, start: Option<int>, stop: Option<int>)
    ensures ItemCall(List(xs), Range(start, stop)) == Ok(List(Slice(xs, start, stop)))
  {
  }

  /** `v[0:n] + v[n:] == v` for every `n`, negative or past the end included. */
  lemma SliceSplits<T>(s: seq<T>, n: int)
    ensures Slice(s, Some(0), Some(n)) + Slice(s, Some(n), None) == s
  {
    var k := ClampBound(n, |s|);
    assert s[..k] + s[k..] == s;
    if k == 0 {
      assert Slice(s, Some(0), Some(n)) == [];
    } else if k == |s| {
      assert Slice(s, Some(n), None) == [];
    }
  }

  /** `v[-0:]` is all of `v`, and `v[:-0]` is empty: take_right(0) and drop_right(0). */
  lemma SliceAtNegatedZero<T>(s: seq<T>)
    ensures Slice(s, Some(-0), None) == s
    ensures Slice(s, None, Some(-0)) == []
  {
  }

  /** For `0 <= n <= |v|`, `v[-n:]` is the last `n` elements and `v[:-n]` the rest. */
  lemma SliceFromRight<T>(s: seq<T>, n: int)
    requires 0 < n <= |s|
    ensures Slice(s, Some(-n), None) == s[|s| - n..]
    ensures Slice(s, None, Some(-n)) == s[..|s| - n]
    ensures Slice(s, None, Some(-n)) + Slice(s, Some(-n), None) == s
  {
    assert s[..|s| - n] + s[|s| - n..] == s;
  }

  /* ---------------- Attribute ---------------- */

  /**
    `Attribute.__call__`: the attribute of an object, or ExtractorException when
    it has none.  Attributes of built-in values (their methods) are not part of
    this model: looking one up gives `OutsideModel`.
   */
  function AttributeCall(v: Value, name: string): (r: Result<Value>)
    ensures v.Object? && name in v.attrs ==> r == Ok(v.attrs[name])
    ensures v.Object? && name !in v.attrs ==> r == Raised(Transformation(ExtractorError))
    ensures !v.Object? ==> r == Raised(OutsideModel)
  {
    match v
    case Object(_, attrs) =>
      if name in attrs then Ok(attrs[name]) else Raised(Transformation(ExtractorError))
    case _ => Raised(OutsideModel)
  }

  /* ---------------- CoerceTo ---------------- */

  /** A type: what `isinstance` checks against, and what calling it does. */
  datatype PyType = PyType(tag: TypeTag, construct: Value -> Result<Value>)

  /** The callable a CoerceTo applies: the given coercer, else the type, else `lambda v: None`. */
  function Coercer(target: Option<PyType>, coercer: Option<Value -> Result<Value>>): Value -> Result<Value>
  {
    if coercer.Some? then coercer.value
    else if target.Some? then target.value.construct
    else (v: Value) => Ok(PyNone)
  }

  /**
    `CoerceTo.__call__`: the coerced value if it is an instance of the target
    type.  A coerced value of the wrong type and every `Exception` the coercer
    raises become ExtractorException; without a type, `isinstance(v, None)`
    raises TypeError, which becomes ExtractorException too.  Whatever the
    coercer raises that is not an `Exception` propagates.
   */
  function CoerceCall(base: RightShiftBase, target: Option<PyType>, coercer: Option<Value -> Result<Value>>,
                      v: Value): (r: Result<Value>)
    ensures r.Ok? ==> target.Some? && HasType(r.value, target.value.tag) &&
                      Coercer(target, coercer)(v) == r
    ensures target.None? ==> r.Raised?
    ensures target.None? && Coercer(target, coercer)(v).Ok? ==> r == Raised(Transformation(ExtractorError))
    ensures Coercer(target, coercer)(v).Ok? && target.Some? ==>
              r == (if HasType(Coercer(target, coercer)(v).value, target.value.tag) then Coercer(target, coercer)(v)
                    else Raised(Transformation(ExtractorError)))
    ensures Coercer(target, coercer)(v).Raised? ==>
              r == (if IsException(Coercer(target, coercer)(v).error, base)
                    then Raised(Transformation(ExtractorError))
                    else Coercer(target, coercer)(v))
  {
    match Coercer(target, coercer)(v)
    case Ok(w) =>
      if target.None? then Raised(Transformation(ExtractorError))
      else if HasType(w, target.value.tag) then Ok(w)
      else Raised(Transformation(ExtractorError))
    case Raised(e) =>
      if IsException(e, base) then Raised(Transformation(ExtractorError)) else Raised(e)
  }

  /** With neither a type nor a coercer, CoerceTo fails on every value with ExtractorException. */
  lemma CoerceWithoutTypeFails(base: RightShiftBase, v: Value)
    ensures CoerceCall(base, None, None, v) == Raised(Transformation(ExtractorError))
  {
  }

  /** A coercion failure is recoverable: Default absorbs it whatever RightShiftException derives from. */
  lemma CoerceFailureIsRecoverable(base: RightShiftBase, target: Option<PyType>,
                                   coercer: Option<Value -> Result<Value>>, v: Value)
    requires Coercer(target, coercer)(v).Ok? || IsException(Coercer(target, coercer)(v).error, base)
    ensures CoerceCall(base, target, coercer, v).Raised? ==>
              IsTransformationException(CoerceCall(base, target, coercer, v).error, base)
  {
  }
}
