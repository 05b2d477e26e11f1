# rightshift in Dafny

rightshift is a Python library of composable single-argument transformers.
A transformer is called with a value and keyword flags. It returns a value or raises.
`a >> b` chains two transformers. `flags(..)` and `default(..)` wrap a chain. Matchers (`must`, `should`, `must_not`, the comparisons) return booleans, and conditions and breakers branch on them. Extractors look values up. Collection transformers and integer operations compute on what flows through.

This project models that core as one datatype of transformer nodes, `Rightshift.Transformer`, and one evaluation function, `Rightshift.Eval(base, t, x, flags)`, which plays `t.__call__(x, **flags)`. A call ends in `Ok(value)` or `Raised(exception)`. The exception is one of:

- a TransformationException, tagged with its subclass (Chain, Extractor, Breaker, Break, Condition);
- a MatcherException or an OperationException;
- a built-in exception.

`TransformationException` derives from `BaseException`, so the library's `except Exception` handlers never catch it (`Errors.HandlersDisjoint`). MatcherException and OperationException derive from `RightShiftException`, whose base class does not appear in the source. Every definition that depends on it therefore takes `base: RightShiftBase`, and every law is proved for all three possible bases.

Modules, one per source file, with shared semantics underneath:

| module | file | models |
|---|---|---|
| `Errors` | errors.dfy | the exception hierarchy; `Result` |
| `Python` | python.dfy | values, truthiness, `==`, `len`, iteration, indexing, slicing, `isinstance` |
| `Comparisons` | comparisons.dfy | `<`, `<=`, `==`, `!=`, `>=`, `>` on values; `Comparison.__call__` |
| `Arithmetic` | arithmetic.dfy | floor division, bitwise operators on unbounded integers, shifts, `pow`, the fold of every ArithmeticOperation (as a loop and as a function) |
| `Sequences` | sequences.dfy | element-level TakeWhile, DropWhile, Partition, Filter, find, Map, Flatten, tail; the source's loops as methods |
| `Lookups` | lookups.dfy | `value[item_or_slice]`, `getattr` and coercion behind Item, Attribute and CoerceTo |
| `Rightshift` | rightshift.dfy | the transformer datatype, `Eval`, `>>`, the chain laws |
| `Chains` | chains.dfy | Flags and Default |
| `Matchers` | matchers.dfy | Must, Should and MustNot; matcher `\|` and `&`; the comparisons and `value_is` |
| `Conditionals` | conditionals.dfy | `brk`; `Condition` as a class whose `then`/`otherwise` update its branches in place; `when` and `when_not` |
| `Breakers` | breakers.dfy | `BreakIf` |
| `Extractors` | extractors.dfy | Item, Attribute and CoerceTo inside chains |
| `Collections` | collections.dfy | head, last, tail, take, drop, take_right, drop_right and the collection transformers with their lazy modes and flags |
| `Operations` | operations.dfy | the unary operations, `logical_not`, floor_mod, mod, div_mod, the arithmetic folds and `pow` |

Points where the model follows the code rather than its documentation:

- **`>>` order.** `a >> b` builds `_Chain(b, a)`, and `_Chain` computes `right(left(x))`, so `(a >> b)(x)` is `a(b(x))`. The `_Chain` docstring says `b(a(x))`. `Rightshift.ShiftOrderDiffersFromDocstring` exhibits the difference. The tests chain identical stages only, so they cannot tell the two orders apart.
- **Calls with flags.** `_Chain.__call__` and the unary operations take no keyword arguments. Called with flags they raise TypeError. A chain therefore calls its stages without flags.
- **`logical_not`** is exported as the class, not as an instance. It must be instantiated with no arguments before it can be called (`Operations.MakeLogicalNot`).
- **`break_if`.** The `BreakIf` docstring (rightshift/breakers.py:19-21) says it raises when the value does not match. The code (rightshift/breakers.py:39-40) and its test raise when the matcher holds, and the model does the same (`Breakers.BreakIfOutcomes`).

The one place where the model follows the documentation rather than the code:

- **`take_while` and `drop_while`.** As written, both methods are generators, and TakeWhile applies its predicate to the whole collection (see "## Findings"). `Eval`'s `TakeWhile` and `DropWhile` nodes compute the documented behaviour: the corrected members `Sequences.TakeWhileCall` and `Sequences.DropWhileCall`. Every law proved through `Eval` about these two transformers, such as `Collections.TakeWhileModesAgree` and `Collections.DropWhileModesAgree`, is therefore about the documented behaviour. The code as written is modelled separately by `Sequences.TakeWhileAsWritten` and `Sequences.DropWhileAsWritten`.

## Model

| member | source | states |
|---|---|---|
| Errors.HandlersDisjoint | rightshift/__init__.py:4-9 | no exception is both recoverable (a TransformationException) and caught by `except Exception` |
| Python.TruthyIsNonEmpty | rightshift/collections.py:34 | `if len(value)` tests the same thing as the value's truth: a sized value is truthy exactly when its length is non-zero |
| Comparisons.Compare | rightshift/matchers.py:264-368 | `==` and `!=` never raise and are Python equality and its negation; any failure of an ordering operator is TypeError |
| Comparisons.CompareIntegers | rightshift/matchers.py:264-368 | on integers each of the six operators is the integer comparison |
| Comparisons.OrderingMixedTypesRaises | rightshift/matchers.py:268 | ordering a string against an integer raises TypeError |
| Comparisons.ListLessAtFirstDifference | rightshift/matchers.py:268 | `<` on lists is decided by the first position where they differ |
| Comparisons.CallComparison | rightshift/matchers.py:237-243 | `Comparison.__call__`: the comparator's result as a bool. An `Exception` from the comparator becomes False when the flag (or, without it, the instance setting) is truthy, and MatcherException otherwise. Anything else propagates |
| Arithmetic.FloorMod | rightshift/operations.py:109-110 | Python's `%`: `(a // n) * n + a % n == a`, and the remainder has the divisor's sign |
| Arithmetic.XorAllOnes | rightshift/operations.py:79-80 | `~a`, as `a ^ -1` on two's-complement integers, is `-a - 1` |
| Arithmetic.XorCancels | rightshift/operations.py:241-244 | `(a ^ b) ^ b == a` |
| Arithmetic.AndMaskBounded | rightshift/operations.py:217-220 | `0 <= a & b <= b` for `b >= 0` |
| Arithmetic.OrPlusAnd | rightshift/operations.py:229-232 | `(a \| b) + (a & b) == a + b`: `\|` counts each bit set in either operand once |
| Arithmetic.OrZero | rightshift/operations.py:229-232 | `a \| 0 == a` |
| Arithmetic.OrAddsMissingBits | rightshift/operations.py:229-232 | `bitwise_or(v)(x) == x + v - (x & v)`, and `bitwise_or(0)(x) == x` |
| Arithmetic.ApplyUnary | rightshift/operations.py:45-82 | `-v`, `+v`, `abs(v)`, `~v` succeed exactly on numbers (TypeError otherwise); `abs` is non-negative with the input's magnitude; `~v == -v - 1` |
| Arithmetic.FloorDivide | rightshift/operations.py:99-100 | `value // n` is the floor quotient (bounded by `n` from both sides); ZeroDivisionError for `n == 0`; TypeError for a non-number |
| Arithmetic.Modulo | rightshift/operations.py:109-110 | `value % n` lies in `[0, n)` for `n > 0` and in `(n, 0]` for `n < 0`; ZeroDivisionError for `n == 0`; a string left operand is formatting, outside the model |
| Arithmetic.DivideModulo | rightshift/operations.py:119-120 | `divmod(value, n)` is a pair `(q, r)` with `q * n + r == value`; ZeroDivisionError for `n == 0` |
| Arithmetic.DivModAgrees | rightshift/operations.py:95-122 | `divmod(a, n)` is `(a // n, a % n)` |
| Arithmetic.PowValue | rightshift/operations.py:183-184 | `pow(value, *values)` raises TypeError without values, with more than two, or on a non-number; with a modulus, ValueError when it is zero, and otherwise a result in the modulus's range (`[0, m)` or `(m, 0]`); a non-negative exponent always succeeds, a negative one is outside the model |
| Arithmetic.Step | rightshift/operations.py:129-244 | one update `value op= v`, as a new value (list aliasing is left out), fails only with TypeError or ValueError |
| Arithmetic.ApplyArithmetic | rightshift/operations.py:129-132 | the loop `for v in self.values: value op= v` computes `Fold`, stopping at the first failure |
| Arithmetic.FoldSplits | rightshift/operations.py:39-42 | folding `a + b` is folding `a`, then `b` over its result |
| Arithmetic.AddIsSum | rightshift/operations.py:129-132 | `add(v1..vn)(x) == x + v1 + ... + vn` |
| Arithmetic.SubtractIsSum | rightshift/operations.py:141-144 | `sub(v1..vn)(x) == x - v1 - ... - vn` |
| Arithmetic.MultiplyIsProduct | rightshift/operations.py:153-156 | `mul(v1..vn)(x) == x * v1 * ... * vn` |
| Arithmetic.ShiftLeftScales | rightshift/operations.py:193-196 | for non-negative counts, `lshift(v1..vn)(x) == x * 2 ** (v1 + ... + vn)` |
| Arithmetic.ShiftRightScales | rightshift/operations.py:205-208 | for non-negative counts, `rshift(v1..vn)(x) == x // 2 ** (v1 + ... + vn)` |
| Arithmetic.DivDiv | rightshift/operations.py:205-208 | two successive right shifts are one floor division by the product of the powers |
| Arithmetic.NegativeShiftRaises | rightshift/operations.py:193-208 | a negative shift count raises ValueError at its turn, whatever follows |
| Arithmetic.NoValuesIsIdentity | rightshift/operations.py:129-132 | with no constructor values every arithmetic operation returns its input unchanged |
| Arithmetic.XorTwiceRestores | rightshift/operations.py:241-244 | `xor(v, v)(x) == x` |
| Sequences.FirstIndex | rightshift/collections.py:176-178 | the first position whose element's truth under the predicate is the wanted one, or the length: every earlier element has the other truth |
| Sequences.TakeDropWhileSplit | rightshift/collections.py:154-179 | the documented TakeWhile result followed by the DropWhile result is the input |
| Sequences.PassingPrefixIsLongest | rightshift/collections.py:87-92 | the TakeWhile prefix passes throughout, and the element after it fails |
| Sequences.TakeWhileLoop | rightshift/collections.py:107-113 | the eager append loop, with the predicate applied per element, builds exactly the longest passing prefix |
| Sequences.DropWhileScan | rightshift/collections.py:176-179 | the `enumerate` scan finds the index of the first failing element, or reports that none fails |
| Sequences.Select | rightshift/collections.py:222-228 | the kept elements all have the wanted truth value, and there are no more of them than inputs |
| Sequences.SelectKeepsMatching | rightshift/collections.py:199-206 | each value is kept as often as it occurs, if it has the wanted truth, and never otherwise |
| Sequences.PartitionIsPermutation | rightshift/collections.py:199-206 | the two halves of a partition together are a permutation of the input, and their lengths sum to its length |
| Sequences.PartitionLoop | rightshift/collections.py:198-206 | the one-pass append loop builds the passing elements and the failing elements, each in order |
| Sequences.FilterIdempotent | rightshift/collections.py:222-228 | filtering twice with one predicate equals filtering once |
| Sequences.MapEach | rightshift/collections.py:271 | `map(f, xs)` has one element `f(x)` per input element, in order |
| Sequences.ShortestLength | rightshift/collections.py:269 | `map(f, *columns)` stops at the length of the shortest column |
| Sequences.MapZip | rightshift/collections.py:268-269 | `map(f, *columns)` calls `f` with the i-th element of every column, up to the shortest |
| Sequences.MapZipOneColumn | rightshift/collections.py:268-271 | unpacking a single column is plain mapping |
| Sequences.MapEachComposes | rightshift/collections.py:265-275 | mapping `g` after `f` is mapping their composition |
| Sequences.ConcatAppends | rightshift/collections.py:288-292 | flattening a concatenation is concatenating the flattenings |
| Sequences.ConcatLength | rightshift/collections.py:288-292 | flattening keeps every element: the result is as long as all inner sequences together |
| Sequences.ConcatSingletons | rightshift/collections.py:288-292 | flattening one-element sequences gives back their elements |
| Sequences.Columns | rightshift/collections.py:290 | the inner iterables' elements, available exactly when every element is iterable |
| Sequences.TailCall | rightshift/collections.py:32-36 | `value[1:]` for a non-empty string, list or tuple (one shorter); ExtractorException for length 0; TypeError without `len`; a non-empty dict is outside the model |
| Sequences.TakeWhileCall | rightshift/collections.py:86-92 | TakeWhile as documented: a list or lazy result that is a prefix of the input, all passing, followed by a failing element or the end; TypeError for a non-iterable |
| Sequences.SliceFrom | rightshift/collections.py:178 | `value[idx:]` keeps the input's kind and is its suffix; a generator cannot be sliced |
| Sequences.DropWhileCall | rightshift/collections.py:167-179 | DropWhile as documented (the corrected member of Findings): the elements from the first failing one on; eagerly `[]` when all pass, lazily a generator |
| Sequences.PartitionCall | rightshift/collections.py:198-206 | `partition(p)(v)` is the pair of lists (passing, failing) |
| Sequences.FilterCall | rightshift/collections.py:222-228 | `filter(p)(v)` is the passing elements, as a list or lazily |
| Sequences.FindCall | rightshift/collections.py:237-246 | `find(p)(v)` is a passing element, and every element before it fails; StopIteration exactly when none passes |
| Sequences.MapCall | rightshift/collections.py:265-275 | `f` per element, or with unpacking per row of the inner iterables; with unpacking it succeeds exactly when every element is iterable; unpacking nothing is TypeError |
| Sequences.FlattenCall | rightshift/collections.py:288-292 | the concatenation of the inner iterables, as a list or lazily; a non-iterable element raises |
| Sequences.TakeWhileAsWritten | rightshift/collections.py:99-113 | as written, TakeWhile yields the whole input or nothing |
| Sequences.DropWhileAsWritten | rightshift/collections.py:167-179 | as written, lazy DropWhile yields the right suffix and eager DropWhile yields nothing |
| Sequences.TakeWhileAsWrittenDiffers | rightshift/collections.py:99-113 | on `[1, 0]` with `bool`, the documented prefix is `[1]`; as written, lazy gives `[1, 0]` and eager gives nothing |
| Sequences.DropWhileAsWrittenDiffers | rightshift/collections.py:175-179 | on `[0, 1]` with `bool`, eager DropWhile should give `[0, 1]`; as written it yields nothing |
| Sequences.TakeWhileAsWrittenAllOrNothing | rightshift/collections.py:100-105 | as written, lazy TakeWhile never yields a proper non-empty prefix |
| Lookups.IndexInto | rightshift/extractors.py:70 | `xs[i]` succeeds exactly for `-len <= i < len` (a negative index counts from the end); IndexError otherwise |
| Lookups.Subscript | rightshift/extractors.py:70 | every failure of `value[...]` is a built-in exception |
| Lookups.ItemCall | rightshift/extractors.py:62-72 | `Item` returns `value[...]` when it succeeds and raises ExtractorException exactly when it fails |
| Lookups.ItemReturnsElement | rightshift/tests/test_extractors.py:15 | `item[i](data) == data[i]` for every valid index of a list, tuple or string |
| Lookups.ItemNegativeIndex | rightshift/collections.py:46 | a negative index counts from the end |
| Lookups.ItemOutOfRange | rightshift/extractors.py:69-72 | an index out of range is an ExtractorException |
| Lookups.ItemDictLookup | rightshift/tests/test_extractors.py:35 | `item[k](d) == d[k]` for a present key; ExtractorException for a missing one |
| Lookups.ItemSliceOfList | rightshift/extractors.py:56-70 | `Item` with a slice returns Python's clamped slice and never fails on a list |
| Lookups.SliceSplits | rightshift/collections.py:52-61 | `v[0:n] + v[n:] == v` for every `n` |
| Lookups.SliceAtNegatedZero | rightshift/collections.py:69-78 | `v[-0:]` is all of `v` and `v[:-0]` is empty |
| Lookups.SliceFromRight | rightshift/collections.py:138-146 | for `0 < n <= len`, `v[-n:]` is the last `n` elements, `v[:-n]` the rest, and together they give `v` |
| Lookups.AttributeCall | rightshift/extractors.py:118-128 | an object's attribute when it has it; ExtractorException when it does not |
| Lookups.CoerceCall | rightshift/extractors.py:184-194 | the coerced value exactly when it is an instance of the type; ExtractorException for the wrong type or an `Exception` from the coercer; anything else propagates; without a type it always fails, with ExtractorException when the coercer succeeds (`isinstance(value, None)` raises inside the `try`) |
| Lookups.CoerceWithoutTypeFails | rightshift/extractors.py:176-178 | with neither type nor coercer, CoerceTo fails on every value with ExtractorException |
| Lookups.CoerceFailureIsRecoverable | rightshift/extractors.py:190-193 | when the coercer raises only `Exception`s, every CoerceTo failure is a TransformationException |
| Rightshift.Shift | rightshift/__init__.py:49-57 | `self >> other` is the chain with `other` as left stage and `self` as right; ChainException exactly when `other` is not a transformer |
| Rightshift.ShiftRunsRightOperandFirst | rightshift/__init__.py:91-92 | `(a >> b)(x)` is `a` applied to `b(x)`; a failure of `b` is the result |
| Rightshift.ShiftOrderDiffersFromDocstring | rightshift/__init__.py:83-85 | with `a = value(1)` and `b = value(2)`, `(a >> b)(x)` is 1, where `b(a(x))` would be 2 |
| Rightshift.ShiftNonTransformerIsRecoverable | rightshift/__init__.py:55-57 | `>>` with a non-transformer raises ChainException while building, and it is recoverable |
| Rightshift.ChainRejectsFlags | rightshift/__init__.py:91 | a chain called with flags raises TypeError |
| Rightshift.ChainPropagatesFailure | rightshift/__init__.py:91-92 | a failure of the left stage is the chain's result, whatever the right stage |
| Rightshift.ChainAssociative | rightshift/__init__.py:91-92 | `Chain(Chain(a, b), c)` and `Chain(a, Chain(b, c))` agree on every input and flags |
| Rightshift.ShiftAssociative | rightshift/__init__.py:55-56 | `(a >> b) >> c` and `a >> (b >> c)` agree on every input |
| Rightshift.IdentityNeutral | rightshift/tests/test_core.py:23 | `identity` is neutral on both sides of a chain |
| Rightshift.IdentityTests | rightshift/tests/test_identity.py:9-10 | `identity(x) == x` and `(identity >> identity)(x) == x` for every `x` |
| Rightshift.ValueTests | rightshift/tests/test_core.py:113-114 | `value(d)(None) == d` and `(value(d) >> value(d))(None) == d` for every `d` |
| Rightshift.Wrap | rightshift/tests/test_core.py:191 | `wrap(f)` calls `f` on the value and ignores the flags |
| Rightshift.WrapTests | rightshift/tests/test_core.py:191-192 | `wrap(sq)(d) == d*d` and two chained squares give `d*d*d*d` |
| Chains.ApplyFlags | rightshift/chains.py:18-24 | calling `Flags(**f)(left)` calls `left` with the stored flags overridden by the call's flags |
| Chains.ApplyDefault | rightshift/chains.py:67-74 | `Default(d)(left)` returns `left`'s result when it succeeds, `d` on a TransformationException, and any other exception unchanged |
| Chains.CallTimeFlagsWin | rightshift/chains.py:22-24 | a call-time key wins over a stored one; a stored key reaches the transformer otherwise |
| Chains.NestedFlagsMerge | rightshift/chains.py:22-24 | with two Flags stacked, the outer flags override the inner ones and the call overrides both |
| Chains.FlagsTest | rightshift/tests/test_chains.py:44-45 | `(returns_override >> flags(override=a))(b) == a` |
| Chains.DefaultTest | rightshift/tests/test_chains.py:22-23 | `(raises_transformation_exception >> default(a))(b) == a` for any flags |
| Chains.DefaultAbsorbsEveryTransformationKind | rightshift/chains.py:73-74 | Default absorbs every TransformationException subclass the core raises |
| Chains.DefaultAndMatcherErrors | rightshift/matchers.py:9 | Default absorbs a MatcherException exactly when RightShiftException derives from TransformationException |
| Chains.DefaultPassesBuiltinErrors | rightshift/chains.py:73 | a built-in exception passes through Default unchanged |
| Chains.InnerDefaultWins | rightshift/chains.py:71-74 | of two stacked Defaults the inner one decides |
| Matchers.NewCombinator | rightshift/matchers.py:77-88 | the Must/Should/MustNot constructor succeeds exactly for a non-empty list of matchers, keeping them in order; MatcherException otherwise |
| Matchers.ScanStopsAtFirst | rightshift/matchers.py:94-97 | the member loop stops at the first member returning the stop value; later members are not consulted |
| Matchers.ScanFindsNothing | rightshift/matchers.py:94-97 | with no member returning the stop value and none raising, the loop finds nothing |
| Matchers.ScanPropagatesError | rightshift/matchers.py:94-97 | the first member to raise, before a stop, decides the outcome |
| Matchers.ScanAppends | rightshift/matchers.py:94-97 | scanning `xs + ys` scans `ys` only if `xs` found nothing |
| Matchers.MustFalseAtFirstFalse | rightshift/matchers.py:94-97 | Must returns False at the first member returning False, and equals Must over the members up to it |
| Matchers.MustTrueWithoutFalse | rightshift/matchers.py:94-97 | Must returns True when no member returns False or raises |
| Matchers.ShouldTrueAtFirstTrue | rightshift/matchers.py:135-138 | Should returns True at the first member returning True, and equals Should over the members up to it |
| Matchers.ShouldFalseWithoutTrue | rightshift/matchers.py:135-138 | Should returns False when no member returns True or raises |
| Matchers.MustNotIsNegatedShould | rightshift/matchers.py:176-179 | MustNot is the boolean negation of Should over the same members, and raises what Should raises |
| Matchers.CombinatorsPropagateErrors | rightshift/matchers.py:90-179 | a member's exception reaches the caller of Must, Should and MustNot unchanged |
| Matchers.MustOnlyStopsAtFalseItself | rightshift/matchers.py:95 | `is False` is an identity test: a member returning 0 does not make Must fail, and one returning 1 does not make Should succeed |
| Matchers.Or | rightshift/matchers.py:24-42 | matcher `\|` is a Should with `self` first and only a right-hand Should flattened in; otherwise the transformer `\|` |
| Matchers.And | rightshift/matchers.py:44-61 | matcher `&` is a Must with `self` first and only a right-hand Must flattened in; otherwise the transformer `&` |
| Matchers.OrAssociative | rightshift/matchers.py:34-40 | `(a \| b) \| c` and `a \| (b \| c)` agree on every input for matchers |
| Matchers.AndAssociative | rightshift/matchers.py:53-59 | `(a & b) & c` and `a & (b & c)` agree on every input for matchers |
| Matchers.AndOrTests | rightshift/tests/test_core.py:24-27 | `(id & id)(x) == [x, x]`, `(id \| id)(x) == x`, `(id & id \| id)(x) == [x, x]`, `(id \| id & id)(x) == x` |
| Matchers.AndOrValueTests | rightshift/tests/test_core.py:115-118 | the same four assertions for `value(d)` on None |
| Matchers.NewComparison | rightshift/matchers.py:226-235 | Comparison rejects a non-callable comparator with MatcherException; otherwise it is a matcher that calls the comparator |
| Matchers.CompareWith | rightshift/matchers.py:256-368 | LessThan ... GreaterThan are matchers |
| Matchers.ValueIs | rightshift/matchers.py:380-414 | `value_is op a` behaves as the comparison for `op` with `falsey_exceptions` off |
| Matchers.IntegerComparisons | rightshift/tests/test_matchers.py:30-65 | `lt(a)(b)` ... `gt(a)(b)`, and their `value_is` forms, are exactly `b < a` ... `b > a` |
| Matchers.FalseyExceptions | rightshift/matchers.py:237-243 | a comparison that raises is False when the flag (or, without it, the setting) is truthy, and MatcherException otherwise; the flag wins over the setting |
| Matchers.BetweenTest | rightshift/tests/test_matchers.py:67-72 | `must(gt(a), lt(c))(b)` and `((value_is > a) & (value_is < c))(b)` hold for `a < b < c` |
| Conditionals.Condition.constructor | rightshift/conditionals.py:32-40 | a new condition keeps its matcher and has both branches set to `brk` |
| Conditionals.Condition.Branch | rightshift/conditionals.py:67-84 | the then-branch when the matcher's result is truthy (falsy for `when_not`), the otherwise-branch otherwise |
| Conditionals.Condition.Node | rightshift/conditionals.py:64-84 | calling the condition raises what the matcher raises, or runs the branch its result selects |
| Conditionals.Condition.Then | rightshift/conditionals.py:42-49 | `then(t)` sets only the then-branch and returns the same condition; ConditionException for a non-transformer, changing nothing |
| Conditionals.Condition.Otherwise | rightshift/conditionals.py:51-58 | `otherwise(t)` sets only the otherwise-branch and returns the same condition; ConditionException for a non-transformer, changing nothing |
| Conditionals.NewCondition | rightshift/conditionals.py:32-40 | ConditionException exactly for a non-matcher; otherwise a fresh condition with both branches `brk` |
| Conditionals.BuildCondition | rightshift/conditionals.py:42-58 | `when(m).then(t).otherwise(o)` stands for the node with branches `t` and `o` |
| Conditionals.BreakAlwaysRaises | rightshift/conditionals.py:7-16 | `brk` raises BreakException on every input, which is recoverable |
| Conditionals.FreshConditionBreaks | rightshift/conditionals.py:39-40 | before `then`/`otherwise`, a condition raises BreakException unless the matcher raises |
| Conditionals.WhenDispatches | rightshift/conditionals.py:67-70 | `when` runs the then-branch on a truthy matcher result and the otherwise-branch on a falsy one, with the same value and flags; a matcher exception propagates |
| Conditionals.WhenNotSwapsBranches | rightshift/conditionals.py:81-84 | `when_not(m).then(t).otherwise(o)` behaves as `when(m).then(o).otherwise(t)` |
| Conditionals.WhenNotBuildsSwapped | rightshift/conditionals.py:77-84 | the same law for conditions built with `then` and `otherwise` |
| Conditionals.ThenRejectsNonTransformer | rightshift/conditionals.py:45-47 | `then` with a non-transformer raises and leaves both branches `brk` |
| Breakers.MakeBreakIf | rightshift/breakers.py:23-31 | BreakIf accepts exactly matchers; BreakerException otherwise |
| Breakers.BreakIfIsCondition | rightshift/breakers.py:33-41 | `break_if(m)` behaves as `when(m)` with a raising then-branch and `identity` as otherwise-branch, the matcher seeing the call's flags |
| Breakers.BreakIfOutcomes | rightshift/breakers.py:39-41 | BreakerException when the matcher holds, the input when it does not, the matcher's exception when it raises |
| Breakers.BreakIfReturnsInput | rightshift/breakers.py:41 | BreakIf never returns anything but its input |
| Breakers.DefaultAbsorbsBreak | rightshift/breakers.py:7 | a Default around BreakIf returns the default when the matcher holds and the input when it does not |
| Breakers.BreakIfOnTextTest | rightshift/tests/test_breakers.py:14 | `identity >> break_if(is_instance(str))` raises BreakerException on every string |
| Extractors.ItemOrDefault | rightshift/extractors.py:69-72 | `item[k] >> default(d)` returns the lookup when it succeeds and `d` whenever it fails |
| Extractors.AttributeOrDefault | rightshift/extractors.py:125-128 | `attr(a) >> default(d)` returns the attribute when present and `d` when absent |
| Extractors.CoerceOrDefault | rightshift/extractors.py:184-194 | `coerce_to(t, c) >> default(d)` returns the coerced value when it is a `t`, and `d` when it is not or the coercer raises an `Exception` |
| Extractors.CoercerDefaultsToType | rightshift/extractors.py:179-180 | without a coercer, CoerceTo calls the type itself |
| Extractors.ItemTests | rightshift/tests/test_extractors.py:15 | `item[i](data) == data[i]` on strings and lists, and `item[k](d) == d[k]` on dicts |
| Collections.Take | rightshift/collections.py:52-61 | `take(n)` on a list is `v[0:n]` with Python clamping |
| Collections.Drop | rightshift/collections.py:122-130 | `drop(n)` on a list is `v[n:]` |
| Collections.TakeRight | rightshift/collections.py:69-78 | `take_right(n)` on a list is `v[-n:]` |
| Collections.DropRight | rightshift/collections.py:138-146 | `drop_right(n)` on a list is `v[:-n]` |
| Collections.MapDefault | rightshift/collections.py:259-260 | `Map(f)` with its defaults returns a lazy result of `f` per element |
| Collections.TakeDropSplit | rightshift/collections.py:52-130 | `take(n) + drop(n) == v` for every `n`; for `0 <= n <= len` they are the first `n` elements and the rest; past the end, all and nothing |
| Collections.TakeRightDropRight | rightshift/collections.py:138-146 | for `0 < n <= len`, the last `n` elements and the others; `take_right(0)` is everything and `drop_right(0)` is empty |
| Collections.HeadAndLast | rightshift/collections.py:23-46 | `head` and `last` are the first and last element of a non-empty list or string; ExtractorException on an empty one |
| Collections.HeadTailSplit | rightshift/collections.py:26-36 | `[head(v)] + tail(v) == v` for a non-empty list; `tail` of an empty one raises ExtractorException |
| Collections.LazyFlagOverrides | rightshift/collections.py:225-228 | `filter__lazy` at call time decides list or lazy result; without it the constructor setting decides |
| Collections.FlattenFlagOverrides | rightshift/collections.py:289-292 | `flatten__lazy` at call time decides the same for `lazy_flatten` |
| Collections.TakeWhileModesAgree | rightshift/collections.py:86-92 | eager and lazy TakeWhile give the same (documented) elements |
| Collections.DropWhileModesAgree | rightshift/collections.py:167-179 | eager and lazy DropWhile, as documented, give the same elements |
| Collections.FilterModesAgree | rightshift/collections.py:222-228 | eager and lazy Filter give the same elements |
| Collections.MapModesAgree | rightshift/collections.py:265-275 | eager and lazy Map give the same elements |
| Collections.FlattenModesAgree | rightshift/collections.py:288-292 | `flatten` and `lazy_flatten` succeed together and give the same elements |
| Collections.PartitionSplits | rightshift/collections.py:198-206 | `partition(p)(v)` is (passing, failing) in order; the lengths sum to `len(v)`; together a permutation of `v` |
| Collections.FirstSelected | rightshift/collections.py:246 | some element passes exactly when the first passing index is in range, and that element heads the filtered list |
| Collections.FindIsFirstOfFilter | rightshift/collections.py:237-246 | `find(p)(v)` is the first element of `filter(p)(v)`, and StopIteration when that is empty |
| Collections.FlattenConcatenates | rightshift/collections.py:288-292 | `flatten` of a list of lists is the concatenation of the inner lists |
| Collections.MapPreservesLength | rightshift/collections.py:259-275 | `map(f)(v)` is lazy, as long as `v`, with `f(v[i])` at position `i` |
| Operations.MakeLogicalNot | rightshift/operations.py:85-92 | `logical_not()` succeeds only without arguments (TypeError otherwise), and returns `not value` |
| Operations.MakePow | rightshift/operations.py:177-184 | `pow(*values)` raises OperationException exactly for more than two values; otherwise it computes `pow(value, *values)` |
| Operations.UnaryRejectsFlags | rightshift/operations.py:49-90 | the unary operations and `logical_not` raise TypeError when called with flags |
| Operations.NegateTwice | rightshift/operations.py:49-50 | `(negate >> negate)(a) == a` |
| Operations.InvertTwice | rightshift/operations.py:79-80 | `(invert >> invert)(a) == a` |
| Operations.AbsoluteLaws | rightshift/operations.py:59-70 | `absolute` is idempotent, `positive` is the identity, and `negate` then `absolute` is `absolute` |
| Operations.LogicalNotTwice | rightshift/operations.py:89-90 | `logical_not()` twice gives the truth value of the input |
| Operations.DivModPairsFloorDivAndMod | rightshift/operations.py:99-120 | `div_mod(n)(a)` is the pair `(floor_mod(n)(a), mod(n)(a))` for `n != 0` |
| Operations.DivisionStages | rightshift/operations.py:95-122 | floor_mod, mod and div_mod compute Python's `//`, `%` and `divmod` |
| Operations.DivisionByZeroRaises | rightshift/operations.py:99-120 | the three raise ZeroDivisionError for a zero divisor |
| Operations.FloorSemantics | rightshift/operations.py:99-110 | `floor_mod(2)(-7) == -4`, `mod(2)(-7) == 1` and `mod(-2)(7) == -1`: floor semantics, not truncation |
| Operations.AddDocstringExample | rightshift/operations.py:39 | `add(1, 2, 3)(x) == x + 6` |
| Operations.AddChain | rightshift/operations.py:39 | `(add(u) >> add(v) >> add(w))(x) == x + w + v + u` |
| Operations.ChainOfResults | rightshift/__init__.py:91-92 | a chain called without flags passes the left stage's value to the right stage |
| Operations.AddOne | rightshift/operations.py:129-132 | `add(v)(x) == x + v` |
| Operations.ShiftedOperationsFold | rightshift/operations.py:39-42 | `op(*a) >> op(*b)` equals `op(*(b + a))` |
| Operations.PowerIsProduct | rightshift/operations.py:183-184 | `a ** e` is the product of `e` copies of `a` |
| Operations.PowIsRepeatedMultiply | rightshift/operations.py:183-184 | `pow(e)(a) == mul(a, ..., a)(1)` with `e` copies |
| Operations.PowWithModulus | rightshift/operations.py:183-184 | `pow(e, m)(a)` is `pow(e)(a) % m` for `m != 0`, and ValueError for `m == 0` |
| Operations.PowTooManyValues | rightshift/operations.py:178-180 | `pow` with three values is refused with OperationException |

## Left out

- Iterating a dict: its order is not modelled, so `for v in a_dict` gives `OutsideModel`.
- Attributes of built-in values (their methods): `Attribute` on a non-object gives `OutsideModel`.
- Floats, complex numbers, true division (`DivideOperation`) and the float tests.
- `PatternGroup` and `matches_regex`: they depend on the regex engine.
- `CallOperation`: it calls an arbitrary foreign callable.
- The `Item.x`/`Item['x']` metaclass sugar and the chain mixins: they are construction syntax only.
- The `WrappedExtractor` layer and `accepts_flags`: predicates and mapped functions are total functions of the element and never raise.
- Single-pass generator semantics: a lazy result is the finite sequence of its elements, and errors a generator would raise when consumed are raised at call time.
- Aliasing of a `Condition`: the class captures that `then`/`otherwise` update the object and return it, but not other references to it.
- `pow` with a negative exponent: with one value the result is a float, and with a modulus it is the modular inverse since Python 3.8 (a ValueError before). Both give `OutsideModel`; a zero modulus is ValueError either way.
- `%` on a string (formatting): `OutsideModel`.
- Arithmetic on anything but integers and booleans, except repetition by `*` of strings, lists and tuples.
- Dictionary keys other than None, integers and strings.
- Compare: `==` and `!=` on objects and on generators compare structurally (class and attributes; the elements), where Python's default `==` on plain instances and generators is identity. Two distinct objects with equal attributes are equal in the model and unequal in Python.
- Arithmetic.Step: `value *= v` on a list repeats the list in place, so every other reference to it sees the change (`(mul(2) & identity)(xs)` holds the same list twice in Python). The model returns a new list and does not capture that aliasing; strings and tuples are immutable and unaffected.
- Sequences.TailCall: `tail` of a non-empty dict raises TypeError before Python 3.12 and KeyError since; the model gives `OutsideModel`.
- Slices with a step (`item[::2]`): the model's slice selector has a start and a stop only.
- `identity`, `value`, `wrap`, the `&` and `|` of non-matchers, `break_if_not` and `between`: they are not defined in the source files, so they are modelled only as far as the tests use them.
- The name `break_if`, which conditionals.py binds to `WhenCondition` while breakers.py binds it to `BreakIf`: the model has both, under their class names.
- Map's `unpack_value` with a lazy `map` object whose inner iterables are consumed in lockstep is modelled by rows up to the shortest column, without single-pass effects.
- Operations.AddDocstringExample and Operations.AddChain: the docstring's literal examples are stated for every input and every addend, and the literal instances follow from them.

## Findings

| source | as written | input that shows it | evidently intended | confidence | as-written member | corrected member |
|---|---|---|---|---|---|---|
| rightshift/collections.py:99-113 | TakeWhile applies the predicate to the whole collection (`super().__call__(value)`), and the `yield` in the lazy branch makes the whole method a generator, so the eager branch's `return output` yields nothing | `take_while(bool)` on `[1, 0]`: lazily `[1, 0]`, eagerly nothing | the longest prefix whose elements pass, `[1]`, in both modes | not executed | Sequences.TakeWhileAsWrittenDiffers | Sequences.TakeWhileCall |
| rightshift/collections.py:167-179 | the `yield` in the lazy branch makes DropWhile a generator, so the eager branch's `return value[idx:]` and `return []` yield nothing | eager `drop_while(bool)` on `[0, 1]` yields nothing | `[0, 1]`, the elements from the first failing one | not executed | Sequences.DropWhileAsWrittenDiffers | Sequences.DropWhileCall |
