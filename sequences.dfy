/**
  The element-level semantics of rightshift/collections.py: the scans behind
  TakeWhile, DropWhile and find, the split behind Partition and Filter, the
  element-wise application behind Map, and the concatenation behind Flatten.
  The loops the source writes out (the eager TakeWhile, the `enumerate` scan of
  DropWhile, Partition) are methods proved against these functions.
 */
module Sequences {
  import opened Errors
  import opened Python

  /** A callable applied to one element; its result is used for its truth value. */
  type Predicate = Value -> Value

  /** `bool(p(v))` */
  predicate Passes(p: Predicate, v: Value)
  {
    Truthy(p(v))
  }

  /* ---------------- scans ---------------- */

  /**
    The first position whose element's truth value under `p` is `want`, or
    `|xs|` when there is none.
   */
  function FirstIndex(p: Predicate, want: bool, xs: seq<Value>): (k: nat)
    ensures k <= |xs|
    ensures forall i :: 0 <= i < k ==> Passes(p, xs[i]) != want
    ensures k < |xs| ==> Passes(p, xs[k]) == want
    decreases |xs|
  {
    if xs == [] then 0
    else if Passes(p, xs[0]) == want then 0
    else 1 + FirstIndex(p, want, xs[1..])
  }

  /** The longest prefix whose elements all pass `p` (the documented TakeWhile result). */
  function PassingPrefix(p: Predicate, xs: seq<Value>): seq<Value>
  {
    xs[..FirstIndex(p, false, xs)]
  }

  /** What is left after dropping the longest passing prefix (the DropWhile result). */
  function AfterPassingPrefix(p: Predicate, xs: seq<Value>): seq<Value>
  {
    xs[FirstIndex(p, false, xs)..]
  }

  /** TakeWhile and DropWhile split the input: together they give it back unchanged. */
  lemma TakeDropWhileSplit(p: Predicate, xs: seq<Value>)
    ensures PassingPrefix(p, xs) + AfterPassingPrefix(p, xs) == xs
  {
    var k := FirstIndex(p, false, xs);
    assert xs[..k] + xs[k..] == xs;
  }

  /** The prefix is the longest one: every element passes, and the next one does not. */
  lemma PassingPrefixIsLongest(p: Predicate, xs: seq<Value>)
    ensures forall i :: 0 <= i < |PassingPrefix(p, xs)| ==> Passes(p, PassingPrefix(p, xs)[i])
    ensures |PassingPrefix(p, xs)| < |xs| ==> !Passes(p, xs[|PassingPrefix(p, xs)|])
    ensures AfterPassingPrefix(p, xs) != [] ==> !Passes(p, AfterPassingPrefix(p, xs)[0])
  {
  }

  /**
    The eager TakeWhile loop with the predicate applied to each element: append
    while the element passes, stop at the first that does not.
   */
  method TakeWhileLoop(p: Predicate, xs: seq<Value>) returns (output: seq<Value>)
    ensures output == PassingPrefix(p, xs)
  {
    output := [];
    var i := 0;
    while i < |xs|
      invariant 0 <= i <= |xs|
      invariant output == xs[..i]
      invariant forall j :: 0 <= j < i ==> Passes(p, xs[j])
    {
      if !Passes(p, xs[i]) {
        break;
      }
      output := output + [xs[i]];
      i := i + 1;
    }
    FirstIndexIsFirst(p, false, xs, i);
  }

  /** The `enumerate` scan of the eager DropWhile: the index of the first element that fails. */
  method DropWhileScan(p: Predicate, xs: seq<Value>) returns (idx: nat, found: bool)
    ensures found <==> idx < |xs|
    ensures idx == FirstIndex(p, false, xs)
  {
    idx := 0;
    while idx < |xs|
      invariant 0 <= idx <= |xs|
      invariant forall j :: 0 <= j < idx ==> Passes(p, xs[j])
    {
      if !Passes(p, xs[idx]) {
        FirstIndexIsFirst(p, false, xs, idx);
        return idx, true;
      }
      idx := idx + 1;
    }
    FirstIndexIsFirst(p, false, xs, idx);
    return idx, false;
  }

  /** Any index before which nothing has `want`, and which has `want` or is the end, is FirstIndex. */
  lemma FirstIndexIsFirst(p: Predicate, want: bool, xs: seq<Value>, k: nat)
    requires k <= |xs|
    requires forall j :: 0 <= j < k ==> Passes(p, xs[j]) != want
    requires k < |xs| ==> Passes(p, xs[k]) == want
    ensures FirstIndex(p, want, xs) == k
  {
  }

  /* ---------------- Partition and Filter ---------------- */

  /** The elements whose truth value under `p` is `keep`, in their original order. */
  function Select(p: Predicate, keep: bool, xs: seq<Value>): (r: seq<Value>)
    ensures |r| <= |xs|
    ensures forall i :: 0 <= i < |r| ==> Passes(p, r[i]) == keep
    decreases |xs|
  {
    if xs == [] then []
    else if Passes(p, xs[0]) == keep then [xs[0]] + Select(p, keep, xs[1..])
      else Select(p, keep, xs[1..])
  }

  /** Select of a concatenation is the concatenation of the selections. */
  lemma {:induction false} SelectAppends(p: Predicate, keep: bool, xs: seq<Value>, ys: seq<Value>)
    ensures Select(p, keep, xs + ys) == Select(p, keep, xs) + Select(p, keep, ys)
    decreases |xs|
  {
    if xs == [] {
      assert xs + ys == ys;
    } else {
      assert (xs + ys)[0] == xs[0] && (xs + ys)[1..] == xs[1..] + ys;
      SelectAppends(p, keep, xs[1..], ys);
    }
  }

  /** An element is selected exactly as often as it occurs with the right truth value. */
  lemma {:induction false} SelectKeepsMatching(p: Predicate, keep: bool, xs: seq<Value>, v: Value)
    ensures multiset(Select(p, keep, xs))[v] == if Passes(p, v) == keep then multiset(xs)[v] else 0
    decreases |xs|
  {
    if xs != [] {
      assert xs == [xs[0]] + xs[1..];
      SelectKeepsMatching(p, keep, xs[1..], v);
    }
  }

  /**
    Partition loses and invents nothing: its two lists together are a permutation
    of the input.
   */
  lemma {:induction false} PartitionIsPermutation(p: Predicate, xs: seq<Value>)
    ensures multiset(Select(p, true, xs)) + multiset(Select(p, false, xs)) == multiset(xs)
    ensures |Select(p, true, xs)| + |Select(p, false, xs)| == |xs|
    decreases |xs|
  {
    if xs != [] {
      assert xs == [xs[0]] + xs[1..];
      PartitionIsPermutation(p, xs[1..]);
    }
  }

  /** `Partition.__call__`: one pass appending each element to `a` or to `b`. */
  method PartitionLoop(p: Predicate, xs: seq<Value>) returns (a: seq<Value>, b: seq<Value>)
    ensures a == Select(p, true, xs) && b == Select(p, false, xs)
  {
    a, b := [], [];
    var i := 0;
    while i < |xs|
      invariant 0 <= i <= |xs|
      invariant a == Select(p, true, xs[..i]) && b == Select(p, false, xs[..i])
    {
      assert xs[..i + 1] == xs[..i] + [xs[i]];
      SelectAppends(p, true, xs[..i], [xs[i]]);
      SelectAppends(p, false, xs[..i], [xs[i]]);
      if Passes(p, xs[i]) {
        a := a + [xs[i]];
      } else {
        b := b + [xs[i]];
      }
      i := i + 1;
    }
    assert xs[..i] == xs;
  }

  /** Filtering twice with the same predicate changes nothing the second time. */
  lemma {:induction false} FilterIdempotent(p: Predicate, xs: seq<Value>)
    ensures Select(p, true, Select(p, true, xs)) == Select(p, true, xs)
    decreases |xs|
  {
    if xs != [] {
      FilterIdempotent(p, xs[1..]);
    }
  }

  /* ---------------- Map ---------------- */

  /** A callable applied to the positional arguments it is given. */
  type Function = seq<Value> -> Value

  /** `map(f, xs)`: `f` called with each element as its only argument. */
  function MapEach(f: Function, xs: seq<Value>): (r: seq<Value>)
    ensures |r| == |xs|
    ensures forall i :: 0 <= i < |xs| ==> r[i] == f([xs[i]])
  {
    seq(|xs|, i requires 0 <= i < |xs| => f([xs[i]]))
  }

  /** The length of the shortest column: where `map(f, *columns)` stops. */
  function ShortestLength(columns: seq<seq<Value>>): (n: nat)
    ensures forall j :: 0 <= j < |columns| ==> n <= |columns[j]|
    ensures columns != [] ==> exists j :: 0 <= j < |columns| && n == |columns[j]|
    decreases |columns|
  {
    if columns == [] then 0
    else if |columns| == 1 then |columns[0]|
    else
      var rest := ShortestLength(columns[1..]);
      assert forall j :: 1 <= j < |columns| ==> columns[j] == columns[1..][j - 1];
      if |columns[0]| <= rest then |columns[0]| else rest
  }

  /** The `i`-th element of every column: the arguments of the `i`-th call of `map(f, *columns)`. */
  function Row(columns: seq<seq<Value>>, i: nat): (r: seq<Value>)
    requires forall j :: 0 <= j < |columns| ==> i < |columns[j]|
    ensures |r| == |columns|
    ensures forall j :: 0 <= j < |columns| ==> r[j] == columns[j][i]
  {
    seq(|columns|, j requires 0 <= j < |columns| => columns[j][i])
  }

  /** `map(f, *columns)`: `f` called with one element of every column, up to the shortest. */
  function MapZip(f: Function, columns: seq<seq<Value>>): (r: seq<Value>)
    ensures |r| == ShortestLength(columns)
    ensures forall i :: 0 <= i < |r| ==> r[i] == f(Row(columns, i))
  {
    var n := ShortestLength(columns);
    seq(n, i requires 0 <= i < n => f(Row(columns, i)))
  }

  /** Mapping with a single column is mapping over that column. */
  lemma MapZipOneColumn(f: Function, xs: seq<Value>)
    ensures MapZip(f, [xs]) == MapEach(f, xs)
  {
    forall i | 0 <= i < |xs| ensures Row([xs], i) == [xs[i]] {
    }
  }

  /** Map composes: mapping `g` after `f` is mapping their composition. */
  lemma MapEachComposes(f: Function, g: Function, xs: seq<Value>)
    ensures MapEach(g, MapEach(f, xs)) == MapEach(v => g([f(v)]), xs)
  {
  }

  /* ---------------- Flatten ---------------- */

  /** `chain.from_iterable(xss)`: the inner sequences one after another. */
  function Concat(xss: seq<seq<Value>>): seq<Value>
    decreases |xss|
  {
    if xss == [] then [] else xss[0] + Concat(xss[1..])
  }

  /** Flattening a concatenation flattens each part. */
  lemma {:induction false} ConcatAppends(xss: seq<seq<Value>>, yss: seq<seq<Value>>)
    ensures Concat(xss + yss) == Concat(xss) + Concat(yss)
    decreases |xss|
  {
    if xss == [] {
      assert xss + yss == yss;
    } else {
      assert (xss + yss)[0] == xss[0] && (xss + yss)[1..] == xss[1..] + yss;
      ConcatAppends(xss[1..], yss);
    }
  }

  function TotalLength(xss: seq<seq<Value>>): nat
    decreases |xss|
  {
    if xss == [] then 0 else |xss[0]| + TotalLength(xss[1..])
  }

  /** Flatten keeps every element: the result is as long as all the inner sequences together. */
  lemma {:induction false} ConcatLength(xss: seq<seq<Value>>)
    ensures |Concat(xss)| == TotalLength(xss)
    decreases |xss|
  {
    if xss != [] {
      ConcatLength(xss[1..]);
    }
  }

  /** Flattening a sequence of one-element sequences gives back their elements. */
  lemma {:induction false} ConcatSingletons(xs: seq<Value>)
    ensures Concat(seq(|xs|, i requires 0 <= i < |xs| => [xs[i]])) == xs
    decreases |xs|
  {
    var wrapped := seq(|xs|, i requires 0 <= i < |xs| => [xs[i]]);
    if xs != [] {
      ConcatSingletons(xs[1..]);
      assert wrapped[1..] == seq(|xs[1..]|, i requires 0 <= i < |xs[1..]| => [xs[1..][i]]);
      assert xs == [xs[0]] + xs[1..];
    }
  }

  /* ---------------- the collection transformers on a value ---------------- */

  /**
    The exception `for v in value` raises for a value Iterate does not cover:
    TypeError, except that iterating a dict (in insertion order) is not part of
    this model.
   */
  function NotIterable(v: Value): Exception
  {
    if v.Dict? then OutsideModel else Builtin(TypeError)
  }

  /** The elements of every element of `xs`, or the exception iterating the first unsuitable one raises. */
  function Columns(xs: seq<Value>): (r: Result<seq<seq<Value>>>)
    ensures r.Ok? <==> forall i :: 0 <= i < |xs| ==> Iterate(xs[i]).Some?
    ensures r.Ok? ==> |r.value| == |xs| && forall i :: 0 <= i < |xs| ==> r.value[i] == Iterate(xs[i]).value
    decreases |xs|
  {
    if xs == [] then Ok([])
    else match Iterate(xs[0])
      case None => Raised(NotIterable(xs[0]))
      case Some(first) =>
        match Columns(xs[1..])
        case Raised(e) => Raised(e)
        case Ok(rest) =>
          assert forall i :: 1 <= i < |xs| ==> xs[i] == xs[1..][i - 1];
          Ok([first] + rest)
  }

  /**
    `Tail.__call__`: `value[1:]` if `len(value)` is non-zero, ExtractorException
    if it is zero.  Slicing a non-empty dict raises TypeError before Python 3.12
    and KeyError since, so that case is outside the model.
   */
  function TailCall(v: Value): (r: Result<Value>)
    ensures Len(v).None? ==> r == Raised(Builtin(TypeError))
    ensures Len(v) == Some(0) ==> r == Raised(Transformation(ExtractorError))
    ensures v.Str? && v.s != [] ==> r == Ok(Str(v.s[1..]))
    ensures v.List? && v.items != [] ==> r == Ok(List(v.items[1..]))
    ensures v.Tuple? && v.items != [] ==> r == Ok(Tuple(v.items[1..]))
    ensures v.Dict? && v.entries != map[] ==> r == Raised(OutsideModel)
    ensures r.Ok? ==> Len(v).Some? && Len(r.value).Some? && Len(r.value).value == Len(v).value - 1
  {
    match Len(v)
    case None => Raised(Builtin(TypeError))
    case Some(n) =>
      if n == 0 then Raised(Transformation(ExtractorError))
      else match v
        case Str(s) => Ok(Str(s[1..]))
        case List(xs) => Ok(List(xs[1..]))
        case Tuple(xs) => Ok(Tuple(xs[1..]))
        case _ => Raised(OutsideModel)
  }

  /** A list in eager mode, a generator in lazy mode. */
  function Collected(lazy: bool, xs: seq<Value>): (r: Value)
    ensures (r.List? || r.Iter?) && r.items == xs
    ensures lazy ==> r.Iter?
    ensures !lazy ==> r.List?
  {
    if lazy then Iter(xs) else List(xs)
  }

  /** TakeWhile on a value: its longest passing prefix (the documented behaviour). */
  function TakeWhileCall(p: Predicate, lazy: bool, v: Value): (r: Result<Value>)
    ensures Iterate(v).None? ==> r == Raised(NotIterable(v))
    ensures Iterate(v).Some? ==>
              r.Ok? && (r.value.Iter? <==> lazy) && (r.value.List? || r.value.Iter?) &&
              r.value.items <= Iterate(v).value
    ensures r.Ok? ==> forall i :: 0 <= i < |r.value.items| ==> Passes(p, r.value.items[i])
    ensures r.Ok? && |r.value.items| < |Iterate(v).value| ==> !Passes(p, Iterate(v).value[|r.value.items|])
  {
    match Iterate(v)
    case None => Raised(NotIterable(v))
    case Some(xs) => Ok(Collected(lazy, PassingPrefix(p, xs)))
  }

  /** `value[k:]` for the eager DropWhile: the same kind of sequence; a generator cannot be sliced. */
  function SliceFrom(v: Value, k: nat): (r: Result<Value>)
    requires Iterate(v).Some? && k <= |Iterate(v).value|
    ensures !v.Iter? ==> r.Ok? && Iterate(r.value) == Some(Iterate(v).value[k..])
    ensures v.Str? ==> r.Ok? && r.value.Str?
    ensures v.List? ==> r.Ok? && r.value.List?
    ensures v.Tuple? ==> r.Ok? && r.value.Tuple?
    ensures v.Iter? ==> r == Raised(Builtin(TypeError))
  {
    match v
    case Str(s) =>
      assert Chars(s[k..]) == Chars(s)[k..];
      Ok(Str(s[k..]))
    case List(xs) => Ok(List(xs[k..]))
    case Tuple(xs) => Ok(Tuple(xs[k..]))
    case Iter(_) => Raised(Builtin(TypeError))
  }

  /**
    DropWhile on a value: the elements from the first one that fails.  Eagerly,
    `value[idx:]` of the same kind as the input, or `[]` when every element
    passes; lazily, a generator of the same elements.
   */
  function DropWhileCall(p: Predicate, lazy: bool, v: Value): (r: Result<Value>)
    ensures Iterate(v).None? ==> r == Raised(NotIterable(v))
    ensures r.Ok? ==> Iterate(v).Some? && Iterate(r.value) == Some(AfterPassingPrefix(p, Iterate(v).value))
    ensures Iterate(v).Some? && (lazy || !v.Iter?) ==> r.Ok?
    ensures r.Ok? && lazy ==> r.value.Iter?
    ensures r.Ok? && !lazy && AfterPassingPrefix(p, Iterate(v).value) == [] ==> r.value == List([])
  {
    match Iterate(v)
    case None => Raised(NotIterable(v))
    case Some(xs) =>
      var k := FirstIndex(p, false, xs);
      if lazy then Ok(Iter(xs[k..]))
      else if k == |xs| then Ok(List([]))
      else SliceFrom(v, k)
  }

  /** `Partition.__call__` on a value: the pair of lists `(passing, failing)`. */
  function PartitionCall(p: Predicate, v: Value): (r: Result<Value>)
    ensures Iterate(v).None? ==> r == Raised(NotIterable(v))
    ensures Iterate(v).Some? ==>
              r.Ok? && r.value.Tuple? && |r.value.items| == 2 &&
              r.value.items[0] == List(Select(p, true, Iterate(v).value)) &&
              r.value.items[1] == List(Select(p, false, Iterate(v).value))
  {
    match Iterate(v)
    case None => Raised(NotIterable(v))
    case Some(xs) => Ok(Tuple([List(Select(p, true, xs)), List(Select(p, false, xs))]))
  }

  /** `Filter.__call__` on a value: the passing elements, as a list or, lazily, a `filter` object. */
  function FilterCall(p: Predicate, lazy: bool, v: Value): (r: Result<Value>)
    ensures Iterate(v).None? ==> r == Raised(NotIterable(v))
    ensures Iterate(v).Some? ==> r.Ok? && r.value == Collected(lazy, Select(p, true, Iterate(v).value))
  {
    match Iterate(v)
    case None => Raised(NotIterable(v))
    case Some(xs) => Ok(Collected(lazy, Select(p, true, xs)))
  }

  /** `find(f)` on a value: the first element `f` accepts; StopIteration when there is none. */
  function FindCall(p: Predicate, v: Value): (r: Result<Value>)
    ensures Iterate(v).None? ==> r == Raised(NotIterable(v))
    ensures r.Ok? ==> Iterate(v).Some? && Passes(p, r.value) &&
                      exists k :: 0 <= k < |Iterate(v).value| && Iterate(v).value[k] == r.value &&
                                  forall i :: 0 <= i < k ==> !Passes(p, Iterate(v).value[i])
    ensures Iterate(v).Some? && r.Raised? ==>
              r.error == Builtin(StopIteration) && forall i :: 0 <= i < |Iterate(v).value| ==> !Passes(p, Iterate(v).value[i])
  {
    match Iterate(v)
    case None => Raised(NotIterable(v))
    case Some(xs) =>
      var k := FirstIndex(p, true, xs);
      if k < |xs| then Ok(xs[k]) else Raised(Builtin(StopIteration))
  }

  /**
    `Map.__call__` on a value: `f` applied to each element, or with
    `unpack_value` to one element of each inner iterable at a time.
   */
  function MapCall(f: Function, unpack: bool, lazy: bool, v: Value): (r: Result<Value>)
    ensures Iterate(v).None? ==> r == Raised(NotIterable(v))
    ensures Iterate(v).Some? && !unpack ==> r.Ok? && r.value == Collected(lazy, MapEach(f, Iterate(v).value))
    ensures Iterate(v) == Some([]) && unpack ==> r == Raised(Builtin(TypeError))
    ensures Iterate(v).Some? && Iterate(v).value != [] && unpack ==>
              (r.Ok? <==> Columns(Iterate(v).value).Ok?)
    ensures r.Ok? && unpack ==>
              Iterate(v).Some? && Columns(Iterate(v).value).Ok? &&
              r.value == Collected(lazy, MapZip(f, Columns(Iterate(v).value).value))
  {
    match Iterate(v)
    case None => Raised(NotIterable(v))
    case Some(xs) =>
      if !unpack then Ok(Collected(lazy, MapEach(f, xs)))
      else if xs == [] then Raised(Builtin(TypeError))  // map() needs at least one iterable
      else match Columns(xs)
        case Raised(e) => Raised(e)
        case Ok(columns) => Ok(Collected(lazy, MapZip(f, columns)))
  }

  /** `Flatten.__call__` on a value: the elements of its elements, in order. */
  function FlattenCall(lazy: bool, v: Value): (r: Result<Value>)
    ensures Iterate(v).None? ==> r == Raised(NotIterable(v))
    ensures Iterate(v).Some? && Columns(Iterate(v).value).Ok? ==>
              r == Ok(Collected(lazy, Concat(Columns(Iterate(v).value).value)))
    ensures Iterate(v).Some? && Columns(Iterate(v).value).Raised? ==> r.Raised?
  {
    match Iterate(v)
    case None => Raised(NotIterable(v))
    case Some(xs) =>
      match Columns(xs)
      case Raised(e) => Raised(e)
      case Ok(inner) => Ok(Collected(lazy, Concat(inner)))
  }

  /* ---------------- as written: TakeWhile and DropWhile ---------------- */

  /**
    The elements the object returned by `TakeWhile.__call__` yields, as the
    method is written, for an iterable `whole` with elements `xs`.  The body
    contains `yield`, so calling it only creates a generator.  In the lazy branch
    the predicate is applied to `whole` rather than to each element.  In the
    eager branch the loop runs when the generator is first advanced, and its
    `return output` then ends the generator without yielding anything.
   */
  function TakeWhileAsWritten(p: Predicate, lazy: bool, whole: Value, xs: seq<Value>): (r: seq<Value>)
    ensures r == xs || r == []
  {
    if !lazy then []
    else if Passes(p, whole) then xs
    else []
  }

  /**
    The elements the object returned by `DropWhile.__call__` yields, as written:
    the lazy branch is right; the eager branch `return`s its slice from inside a
    generator, so nothing is yielded.
   */
  function DropWhileAsWritten(p: Predicate, lazy: bool, xs: seq<Value>): (r: seq<Value>)
    ensures lazy ==> r == AfterPassingPrefix(p, xs)
    ensures !lazy ==> r == []
  {
    if lazy then xs[FirstIndex(p, false, xs)..] else []
  }

  /** The predicate `bool`, used by the counterexamples below. */
  function IsTruthy(v: Value): Value
  {
    Bool(Truthy(v))
  }

  /**
    On `[1, 0]` with predicate `bool`, the longest passing prefix is `[1]`; as
    written, lazy TakeWhile yields `[1, 0]` (it asks whether the whole list is
    truthy) and eager TakeWhile yields nothing.
   */
  lemma TakeWhileAsWrittenDiffers()
    ensures PassingPrefix(IsTruthy, [Int(1), Int(0)]) == [Int(1)]
    ensures TakeWhileAsWritten(IsTruthy, true, List([Int(1), Int(0)]), [Int(1), Int(0)]) == [Int(1), Int(0)]
    ensures TakeWhileAsWritten(IsTruthy, false, List([Int(1), Int(0)]), [Int(1), Int(0)]) == []
  {
    var xs := [Int(1), Int(0)];
    assert FirstIndex(IsTruthy, false, xs[1..]) == 0;
    assert FirstIndex(IsTruthy, false, xs) == 1;
  }

  /** On `[0, 1]` with predicate `bool`, eager DropWhile should give `[0, 1]`; as written it yields nothing. */
  lemma DropWhileAsWrittenDiffers()
    ensures AfterPassingPrefix(IsTruthy, [Int(0), Int(1)]) == [Int(0), Int(1)]
    ensures DropWhileAsWritten(IsTruthy, false, [Int(0), Int(1)]) == []
  {
    assert FirstIndex(IsTruthy, false, [Int(0), Int(1)]) == 0;
  }

  /** As written, TakeWhile's lazy result is all or nothing, never a proper non-empty prefix. */
  lemma TakeWhileAsWrittenAllOrNothing(p: Predicate, whole: Value, xs: seq<Value>, k: nat)
    requires 0 < k < |xs|
    ensures TakeWhileAsWritten(p, true, whole, xs) != xs[..k]
  {
    var r := TakeWhileAsWritten(p, true, whole, xs);
    assert |r| == |xs| || |r| == 0;
  }
}
