/**
  rightshift/collections.py as transformers: `head`, `last`, `tail`, the slice
  helpers `take`, `drop`, `take_right`, `drop_right`, and the transformers over
  iterables with their lazy settings and flags.
 */
module Collections {
  import opened Errors
  import opened Python
  import opened Rightshift
  import opened Sequences
  import opened Lookups

  /** `head`, which is `item[0]`. */
  const Head: Transformer := Item(At(Int(0)))

  /** `last`, which is `item[-1]`. */
  const Last: Transformer := Item(At(Int(-1)))

  /** `flatten` and `lazy_flatten`. */
  const EagerFlatten: Transformer := Flatten(false)
  const LazyFlatten: Transformer := Flatten(true)

  /** `take(n)`, which is `item[0:n]`. */
  function Take(n: int): (t: Transformer)
    ensures forall base, xs, flags :: Eval(base, t, List(xs), flags) == Ok(List(Slice(xs, Some(0), Some(n))))
  {
    Item(Range(Some(0), Some(n)))
  }

  /** `drop(n)`, which is `item[n:]`. */
  function Drop(n: int): (t: Transformer)
    ensures forall base, xs, flags :: Eval(base, t, List(xs), flags) == Ok(List(Slice(xs, Some(n), None)))
  {
    Item(Range(Some(n), None))
  }

  /** `take_right(n)`, which is `item[-n:]`. */
  function TakeRight(n: int): (t: Transformer)
    ensures forall base, xs, flags :: Eval(base, t, List(xs), flags) == Ok(List(Slice(xs, Some(-n), None)))
  {
    Item(Range(Some(-n), None))
  }

  /** `drop_right(n)`, which is `item[:-n]`. */
  function DropRight(n: int): (t: Transformer)
    ensures forall base, xs, flags :: Eval(base, t, List(xs), flags) == Ok(List(Slice(xs, None, Some(-n))))
  {
    Item(Range(None, Some(-n)))
  }

  /** `Map(f, unpack_value=False, lazy=True)`: Map's own defaults. */
  function MapDefault(f: Function): (t: Transformer)
    ensures forall base, xs :: Eval(base, t, List(xs), map[]) == Ok(Iter(MapEach(f, xs)))
  {
    MapWith(f, false, true)
  }

  /**
    `take(n) + drop(n)` gives back the list for every `n`; for `0 <= n <= len`,
    `take(n)` is the first `n` elements and `drop(n)` the others.
   */
  lemma TakeDropSplit(base: RightShiftBase, n: int, xs: seq<Value>, flags: Flags)
    ensures Eval(base, Take(n), List(xs), flags).value.items + Eval(base, Drop(n), List(xs), flags).value.items == xs
    ensures 0 <= n <= |xs| ==> Eval(base, Take(n), List(xs), flags) == Ok(List(xs[..n]))
    ensures 0 <= n <= |xs| ==> Eval(base, Drop(n), List(xs), flags) == Ok(List(xs[n..]))
    ensures n > |xs| ==> Eval(base, Take(n), List(xs), flags) == Ok(List(xs))
    ensures n > |xs| ==> Eval(base, Drop(n), List(xs), flags) == Ok(List([]))
  {
    SliceSplits(xs, n);
    if n > |xs| {
      assert xs[0..|xs|] == xs;
    }
  }

  /**
    For `0 < n <= len`, `take_right(n)` is the last `n` elements and
    `drop_right(n)` the others; `take_right(0)` is the whole list and
    `drop_right(0)` is empty, since `-0 == 0`.
   */
  lemma TakeRightDropRight(base: RightShiftBase, n: int, xs: seq<Value>, flags: Flags)
    ensures 0 < n <= |xs| ==> Eval(base, TakeRight(n), List(xs), flags) == Ok(List(xs[|xs| - n..]))
    ensures 0 < n <= |xs| ==> Eval(base, DropRight(n), List(xs), flags) == Ok(List(xs[..|xs| - n]))
    ensures Eval(base, TakeRight(0), List(xs), flags) == Ok(List(xs))
    ensures Eval(base, DropRight(0), List(xs), flags) == Ok(List([]))
  {
    if 0 < n <= |xs| {
      SliceFromRight(xs, n);
    }
    SliceAtNegatedZero(xs);
  }

  /**
    `head` and `last` return the first and last elements of a non-empty list
    or string, and raise ExtractorException on an empty one.
   */
  lemma HeadAndLast(base: RightShiftBase, xs: seq<Value>, s: string, flags: Flags)
    ensures xs != [] ==> Eval(base, Head, List(xs), flags) == Ok(xs[0])
    ensures xs != [] ==> Eval(base, Last, List(xs), flags) == Ok(xs[|xs| - 1])
    ensures s != [] ==> Eval(base, Last, Str(s), flags) == Ok(Str([s[|s| - 1]]))
    ensures xs == [] ==> Eval(base, Head, List(xs), flags) == Raised(Transformation(ExtractorError))
    ensures xs == [] ==> Eval(base, Last, List(xs), flags) == Raised(Transformation(ExtractorError))
    ensures s == [] ==> Eval(base, Head, Str(s), flags) == Raised(Transformation(ExtractorError))
  {
  }

  /** `[head(v)] + tail(v) == v` for a non-empty list; `tail` of an empty one is an ExtractorException. */
  lemma HeadTailSplit(base: RightShiftBase, xs: seq<Value>, flags: Flags)
    ensures xs != [] ==> [Eval(base, Head, List(xs), flags).value] + Eval(base, Tail, List(xs), flags).value.items == xs
    ensures xs == [] ==> Eval(base, Tail, List(xs), flags) == Raised(Transformation(ExtractorError))
  {
  }

  /**
    A flag given at call time decides between a list and a lazy result,
    whatever the transformer was built with; without the flag the constructor
    setting decides.
   */
  lemma LazyFlagOverrides(base: RightShiftBase, p: Predicate, lazy: bool, xs: seq<Value>, flags: Flags)
    ensures FilterLazy in flags ==>
              Eval(base, Filter(p, lazy), List(xs), flags) == Ok(Collected(Truthy(flags[FilterLazy]), Select(p, true, xs)))
    ensures FilterLazy !in flags ==>
              Eval(base, Filter(p, lazy), List(xs), flags) == Ok(Collected(lazy, Select(p, true, xs)))
  {
  }

  /** The same for `lazy_flatten`: a false flag makes it return a list. */
  lemma FlattenFlagOverrides(base: RightShiftBase, xs: seq<Value>, flags: Flags)
    ensures FlattenLazy in flags && Eval(base, LazyFlatten, List(xs), flags).Ok? ==>
              (Eval(base, LazyFlatten, List(xs), flags).value.List? <==> !Truthy(flags[FlattenLazy]))
  {
  }

  /**
    The eager and lazy modes of TakeWhile, DropWhile, Filter, Map and Flatten
    produce the same elements: only the container differs.
   */
  lemma TakeWhileModesAgree(base: RightShiftBase, p: Predicate, xs: seq<Value>)
    ensures Eval(base, TakeWhile(p, false), List(xs), map[]) == Ok(List(PassingPrefix(p, xs)))
    ensures Eval(base, TakeWhile(p, true), List(xs), map[]) == Ok(Iter(PassingPrefix(p, xs)))
  {
  }

  lemma DropWhileModesAgree(base: RightShiftBase, p: Predicate, xs: seq<Value>)
    ensures Eval(base, DropWhile(p, false), List(xs), map[]).Ok?
    ensures Eval(base, DropWhile(p, true), List(xs), map[]) == Ok(Iter(AfterPassingPrefix(p, xs)))
    ensures Eval(base, DropWhile(p, false), List(xs), map[]) == Ok(List(AfterPassingPrefix(p, xs)))
  {
  }

  lemma FilterModesAgree(base: RightShiftBase, p: Predicate, xs: seq<Value>)
    ensures Eval(base, Filter(p, false), List(xs), map[]) == Ok(List(Select(p, true, xs)))
    ensures Eval(base, Filter(p, true), List(xs), map[]) == Ok(Iter(Select(p, true, xs)))
  {
  }

  lemma MapModesAgree(base: RightShiftBase, f: Function, xs: seq<Value>)
    ensures Eval(base, MapWith(f, false, false), List(xs), map[]) == Ok(List(MapEach(f, xs)))
    ensures Eval(base, MapWith(f, false, true), List(xs), map[]) == Ok(Iter(MapEach(f, xs)))
  {
  }

  lemma FlattenModesAgree(base: RightShiftBase, xs: seq<Value>)
    ensures Eval(base, EagerFlatten, List(xs), map[]).Ok? <==> Eval(base, LazyFlatten, List(xs), map[]).Ok?
    ensures Eval(base, EagerFlatten, List(xs), map[]).Ok? ==>
              Eval(base, EagerFlatten, List(xs), map[]).value.List? &&
              Eval(base, LazyFlatten, List(xs), map[]).value.Iter? &&
              Eval(base, EagerFlatten, List(xs), map[]).value.items == Eval(base, LazyFlatten, List(xs), map[]).value.items
  {
  }

  /**
    `partition(p)(v)` is a pair of lists, the passing elements and the others,
    each in order, together a permutation of `v`.
   */
  lemma PartitionSplits(base: RightShiftBase, p: Predicate, xs: seq<Value>, flags: Flags)
    ensures Eval(base, Partition(p), List(xs), flags) == Ok(Tuple([List(Select(p, true, xs)), List(Select(p, false, xs))]))
    ensures |Select(p, true, xs)| + |Select(p, false, xs)| == |xs|
    ensures multiset(Select(p, true, xs)) + multiset(Select(p, false, xs)) == multiset(xs)
  {
    PartitionIsPermutation(p, xs);
  }

  /** The first passing element heads the passing elements: `find(p)(v) == filter(p)(v)[0]`. */
  lemma {:induction false} FirstSelected(p: Predicate, xs: seq<Value>)
    ensures Select(p, true, xs) != [] <==> FirstIndex(p, true, xs) < |xs|
    ensures Select(p, true, xs) != [] ==> Select(p, true, xs)[0] == xs[FirstIndex(p, true, xs)]
    decreases |xs|
  {
    if xs != [] && !Passes(p, xs[0]) {
      FirstSelected(p, xs[1..]);
    }
  }

  /** `find(p)` returns the first element of `filter(p)`, and raises StopIteration when that is empty. */
  lemma FindIsFirstOfFilter(base: RightShiftBase, p: Predicate, xs: seq<Value>, flags: Flags)
    ensures Select(p, true, xs) != [] ==> Eval(base, Find(p), List(xs), flags) == Ok(Select(p, true, xs)[0])
    ensures Select(p, true, xs) == [] ==> Eval(base, Find(p), List(xs), flags) == Raised(Builtin(StopIteration))
  {
    FirstSelected(p, xs);
  }

  /** `flatten` of a list of lists is the concatenation of the inner lists, in order. */
  lemma FlattenConcatenates(base: RightShiftBase, xss: seq<seq<Value>>, flags: Flags)
    requires FlattenLazy !in flags
    ensures Eval(base, EagerFlatten, List(seq(|xss|, i requires 0 <= i < |xss| => List(xss[i]))), flags) == Ok(List(Concat(xss)))
  {
    var v := seq(|xss|, i requires 0 <= i < |xss| => List(xss[i]));
    forall i | 0 <= i < |v|
      ensures Iterate(v[i]) == Some(xss[i])
    {
    }
    assert Columns(v).value == xss;
  }

  /** `map(f)` with Map's defaults returns a lazy result with one `f(x)` per element. */
  lemma MapPreservesLength(base: RightShiftBase, f: Function, xs: seq<Value>)
    ensures Eval(base, MapDefault(f), List(xs), map[]).value.Iter?
    ensures |Eval(base, MapDefault(f), List(xs), map[]).value.items| == |xs|
    ensures forall i :: 0 <= i < |xs| ==> Eval(base, MapDefault(f), List(xs), map[]).value.items[i] == f([xs[i]])
  {
  }
}
