/**
  The Python values that flow through a pipeline, and the parts of Python's own
  semantics the transformers rely on: truthiness, `==`, `len`, iteration,
  index normalisation, slicing and `isinstance`.
 */
module Python {
  import opened Errors

  /** Dictionary keys: None, integers (booleans hash as 0 and 1) and strings. */
  datatype Key = NoneKey | IntKey(i: int) | StrKey(s: string)

  datatype Value =
    | PyNone
    | Bool(b: bool)
    | Int(i: int)
    | Str(s: string)
    | List(items: seq<Value>)
    | Tuple(items: seq<Value>)
    | Dict(entries: map<Key, Value>)
      /**
        An instance of a user class `cls`.  `attrs` holds every name `getattr`
        finds on it: instance attributes and class-level names (methods,
        `__class__` and the other dunders) alike.
       */
    | Object(cls: string, attrs: map<string, Value>)
      /** A generator, `map`, `filter` or `chain` object, given by the elements it yields. */
    | Iter(items: seq<Value>)

  /** The keyword arguments (flags) a transformer is called with. */
  type Flags = map<string, Value>

  /** `flags.get(key, default)` */
  function FlagOr(flags: Flags, key: string, default: Value): (r: Value)
    ensures key in flags ==> r == flags[key]
    ensures key !in flags ==> r == default
  {
    if key in flags then flags[key] else default
  }

  /** Python's truth value of `v` (`bool(v)`). */
  predicate Truthy(v: Value)
  {
    match v
    case PyNone => false
    case Bool(b) => b
    case Int(i) => i != 0
    case Str(s) => s != ""
    case List(xs) => xs != []
    case Tuple(xs) => xs != []
    case Dict(m) => m != map[]
    case Object(_, _) => true
    case Iter(_) => true
  }

  /** The integer a number stands for (`bool` is a subclass of `int`). */
  function AsInt(v: Value): (r: Option<int>)
    ensures r.Some? <==> v.Int? || v.Bool?
  {
    match v
    case Int(i) => Some(i)
    case Bool(b) => Some(if b then 1 else 0)
    case _ => None
  }

  /** The dictionary key `v` hashes to, or None if it is not a key this model represents. */
  function AsKey(v: Value): Option<Key>
  {
    match v
    case PyNone => Some(NoneKey)
    case Bool(b) => Some(IntKey(if b then 1 else 0))
    case Int(i) => Some(IntKey(i))
    case Str(s) => Some(StrKey(s))
    case _ => None
  }

  /** Python's `a == b`: numbers compare by value, containers element-wise. */
  predicate PyEq(a: Value, b: Value)
  {
    match (a, b)
    case (PyNone, PyNone) => true
    case (Str(s), Str(t)) => s == t
    case (List(s), List(t)) => |s| == |t| && forall i :: 0 <= i < |s| ==> PyEq(s[i], t[i])
    case (Tuple(s), Tuple(t)) => |s| == |t| && forall i :: 0 <= i < |s| ==> PyEq(s[i], t[i])
    case (Dict(m), Dict(n)) => m.Keys == n.Keys && forall k :: k in m ==> PyEq(m[k], n[k])
    case (Object(c, m), Object(d, n)) =>
      c == d && m.Keys == n.Keys && forall k :: k in m ==> PyEq(m[k], n[k])
    case (Iter(s), Iter(t)) => s == t
    case _ => AsInt(a).Some? && AsInt(b).Some? && AsInt(a).value == AsInt(b).value
  }

  /** `len(v)`, or None where `len` raises TypeError. */
  function Len(v: Value): Option<nat>
  {
    match v
    case Str(s) => Some(|s|)
    case List(xs) => Some(|xs|)
    case Tuple(xs) => Some(|xs|)
    case Dict(m) => Some(|m|)
    case _ => None
  }

  /** One-character strings, the elements of iterating over a string. */
  function Chars(s: string): (r: seq<Value>)
    ensures |r| == |s|
    ensures forall i :: 0 <= i < |s| ==> r[i] == Str([s[i]])
  {
    seq(|s|, i requires 0 <= i < |s| => Str([s[i]]))
  }

  /**
    The elements `for v in value` visits, or None where iteration raises
    TypeError.  Iterating a dict is not part of this model.
   */
  function Iterate(v: Value): Option<seq<Value>>
  {
    match v
    case Str(s) => Some(Chars(s))
    case List(xs) => Some(xs)
    case Tuple(xs) => Some(xs)
    case Iter(xs) => Some(xs)
    case _ => None
  }

  /** Python's index normalisation: `i` refers to position `j`, or None for IndexError. */
  function NormalIndex(i: int, n: nat): (r: Option<nat>)
    ensures r.Some? <==> 0 <= i + n && i < n
    ensures r.Some? ==> r.value < n && (r.value == i || r.value == i + n)
  {
    var j := if i < 0 then i + n else i;
    if 0 <= j < n then Some(j) else None
  }

  /** A slice bound clamped into `[0, n]` as Python does. */
  function ClampBound(i: int, n: nat): (r: nat)
    ensures r <= n
    ensures 0 <= i <= n ==> r == i
    ensures 0 <= i + n && i < 0 ==> r == i + n
    ensures i + n < 0 ==> r == 0
    ensures n < i ==> r == n
  {
    if i < 0 then (if i + n < 0 then 0 else i + n) else if i > n then n else i
  }

  /** `s[start:stop]` with step 1 and Python's clamping; None is an omitted bound. */
  function Slice<T>(s: seq<T>, start: Option<int>, stop: Option<int>): (r: seq<T>)
    ensures |r| <= |s|
  {
    var lo := if start.None? then 0 else ClampBound(start.value, |s|);
    var hi := if stop.None? then |s| else ClampBound(stop.value, |s|);
    if lo < hi then s[lo..hi] else []
  }

  /** Type tags for `isinstance`; objects are instances of their own class only. */
  datatype TypeTag =
    | NoneType | BoolType | IntType | StrType | ListType | TupleType | DictType
    | GeneratorType | ClassType(name: string)

  /** `isinstance(v, tag)`: a `bool` is also an `int`. */
  predicate HasType(v: Value, tag: TypeTag)
  {
    match tag
    case NoneType => v.PyNone?
    case BoolType => v.Bool?
    case IntType => v.Int? || v.Bool?
    case StrType => v.Str?
    case ListType => v.List?
    case TupleType => v.Tuple?
    case DictType => v.Dict?
    case GeneratorType => v.Iter?
    case ClassType(name) => v.Object? && v.cls == name
  }

  /** Python's `==` is reflexive on every value of the model. */
  lemma {:induction false} PyEqReflexive(v: Value)
    ensures PyEq(v, v)
  {
    match v
    case List(xs) =>
      forall i | 0 <= i < |xs| ensures PyEq(xs[i], xs[i]) { PyEqReflexive(xs[i]); }
    case Tuple(xs) =>
      forall i | 0 <= i < |xs| ensures PyEq(xs[i], xs[i]) { PyEqReflexive(xs[i]); }
    case Dict(m) =>
      forall k | k in m ensures PyEq(m[k], m[k]) { PyEqReflexive(m[k]); }
    case Object(c, m) =>
      forall k | k in m ensures PyEq(m[k], m[k]) { PyEqReflexive(m[k]); }
    case _ =>
  }

  /** Truthiness of a sized value is exactly "its length is not zero". */
  lemma TruthyIsNonEmpty(v: Value)
    requires Len(v).Some?
    ensures Truthy(v) <==> Len(v).value != 0
  {
    if v.Dict? && v.entries != map[] {
      var k :| k in v.entries;
      assert k in v.entries.Keys;
    }
  }
}
