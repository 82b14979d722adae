# HDQL runtime: a verified model

HDQL evaluates data queries with nested, stateful iterators. A query is a doubly
linked chain of levels; each level iterates over a collection, or gives at most
one value. Chained reset and get run an iterative depth-first search that updates
the levels in place. Forwarding queries, filters and filtered Cartesian products
are levels that contain whole chains again. This project models that machinery in
Dafny and proves that it computes plain list expressions, together with the key
trees that mirror a query, the hash table, the aggregates, the random draws, type
promotion and the arena allocator.

`dafny verify dfyconfig.toml` checks the whole project.

## How it is organised

| module | subject |
|---|---|
| `Denotation` | what a query means: every level a finite list, a chain their nested flat map |
| `Meaning` | the same said without these lists: results are choices of one item per level |
| `Transparency`, `Odometer`, `KeyShapes` | laws of that meaning: splicing of forwarded chains, rows of a product by number, shape of the keys |
| `Search` | what is still ahead of the depth-first search, and its termination measure |
| `Conditions` | conditions on the data under which resets and gets are bound to end well, and the fit between keys and queries |
| `Levels`, `Chains`, `Products`, `BoundCompounds` | the mutable state and what it stands for |
| `ChainSteps`, `ProductSteps`, `BoundSteps` | lemmas about single steps, on values |
| `Engine`, `Assembly`, `Runs`, `Splicing` | the methods: reset, yield and get of every kind of level, products, construction, whole runs, runs of spliced chains |
| `Exactness`, `Traps`, `SplicedConditions` | which runs end well, exactly; where a bound compound fails; splicing changes neither |
| `KeyTrees`, `Keys` | keys as blocks of memory: reserve, copy, flatten, destroy |
| `HashTable` | the chained table against a map |
| `Aggregates`, `Monoids`, `AggregateValues` | the fold order of an aggregate, its operations, and what both give together |
| `Reservoir`, `BoundedDraw` | uniformity of `narb()` and of bounded draws |
| `Promotion`, `Inference` | the promotion table and type inference |
| `Arena`, `Arithmetic` | the bump allocator; quotients and powers of two |

A level's contract is that of include/hdql/attr-def.h:81-133: reset starts the
owner's finite list and returns its first datum or NULL, yield returns the next
datum or NULL, and the key slot is written on success only. Collections and
scalars take their lists and values from arbitrary functions of the owner. For
forwarding queries, filters and bound compounds the contract is proved, by mutual
recursion through the chains they contain.

In the contracts of the engine, `ns` is the chain of levels, `ads` their subjects,
`Views(ns)` what each level has ahead, the key it shows and every datum it was
reset on. `ChainItems(ads, d)` is the meaning of the chain on the datum `d`: a list
of paths, each with one key per level and the datum of the last level.

## How an operation ends

Nothing is required of the data. Every operation of the engine reports how it ends
(`Levels.Outcome`); what it computes is stated for `Done`.

* `Stalled`: the loop at src/ifaces/bound-value.c:291-294 tests the same row again as
  long as the filter has no value on it. Such a loop is given up; `Traps.SeekEnds` says
  exactly when it ends.
* `Trapped`: a bound compound without owner, as after a failed reset, is yielded and
  one of its queries still has a result (src/ifaces/bound-value.c:233-240). The queries
  after it, or the filter query, would be reset on a NULL datum. If that query is the
  last one and there is no filter, NULL is returned and no harm is done.

A get needs the chain in order (`ChainLive`): a reset that returned a datum leaves it so
from any state, a get too, and a reset that returned NULL if the chain was in order
before it; otherwise the levels below the failure may be stale (src/query.c:148-160).

`Runs.ProcessRecords` states what this means for a run, which is a reset followed by
gets until NULL. Whatever the data, what was handled is a beginning of the nested flat
map. A run that ends well handles all of it. Conditions on the data tell in advance that
it will: `TameChain`, about the data up to the first result, that the reset ends well, and
`SafeAfter`, about the data after it, that the gets do. They are exact, if and only if, for
chains whose bound compounds are not nested in forwarded chains, filters or other bound
compounds (`Exactness.Shallow`): `Exactness.ShallowTame` and `Exactness.ShallowTrapFree` say
what they ask of a single level, `Exactness.ShallowReset` and `Runs.RunNeeds` that nothing less
will do, and `Traps.EventRuns` is an instance. Chains without bound compounds meet them on all
data (`Conditions.BoundFreeTame`).

For nested bound compounds the conditions are sufficient only. All rows of one are taken
into account, also inside a filter, where those after the first accepted one are not
reached. And a chain that gives no result may be reset many times before it is yielded. Whether
the yield then springs the trap depends on what each of its queries had left the last
time it was reset, and by which data. Where the queries are single levels,
`Traps.YieldAfterFailedResets` says exactly when. Beyond that, the levels of one query keep
results of different resets, those that were not reached on the last datum still having
what an earlier one left; a condition on the data alone would have to repeat the
whole search. `TrapFreeChain` and `Settles` ask that no such result can be left at all.

* A bound compound hands its own key list to its filter query
  (src/ifaces/bound-value.c:250, 292), so that query must write no key and be no
  deeper than the list. This matters only if a key is given. The same holds for an
  aggregate and its arguments (src/funcs/monoids.c:139).
* The exponent of a hash table's capacity is at least 1 when something is inserted, and
  at most 30 before a rebuild, as `1u << capacity` has 32 bits.

## Where the code differs from what is promised

* `hdql_randgen_below` is documented as a number below the bound but returns `bool`:
  `BoundedDraw.BelowAsBoolRange`. Reservoir sampling only compares with zero and is
  not affected.
* `size` of the hash table is described as the number of records but is never
  decremented: `HashTable.Run`.
* `max()` on floating-point values starts from the smallest positive normal number
  (src/funcs/monoids.c:693) instead of the least value (include/hdql/function.h:108), so it
  fails exactly when all values are below that number: `Monoids.MaxExactly`,
  `AggregateValues.MaxOfAll`. `Monoids.FloatFails` gives inputs: zero, or any negative value.
* `min()` and `max()` on `double` store a number of type `float` into the result
  (src/funcs/monoids.c:680, 694). This overwrites four of its eight bytes, on a
  little-endian machine the lower half, and keeps the others, so that the neutral
  element depends on the previous result: `Monoids.MinNeutral`, `Monoids.MaxNeutral`.
  `Monoids.MinExactly` and `Monoids.MaxExactly` hold for whatever it is;
  `Monoids.DoubleFails` gives inputs.
* `mean()` divides by the count converted to the value type, which is zero when the
  count is a multiple of the size of that type, and adds up in that type:
  `Monoids.MeanExactly`, `AggregateValues.MeanOfAll`. `Monoids.MeanFails` gives inputs.
* The aggregate listed as `product` in include/hdql/function.h:105 is registered as `prod`
  (src/funcs/monoids.c:1018), and `arb`, as comments call it, as `narb`
  (src/funcs/monoids.c:1068).
* `count()`, the only aggregate defined for the empty set (src/funcs/monoids.c:978), does
  not count all results when some argument is empty, unless none is true but the first
  ones of the arguments ahead of it: `AggregateValues.CountExactly`,
  `AggregateValues.CountMisses`.
* Type inference depends on the order of the arguments when the context lacks some
  types: `Inference.OrderFreeExactly`.
* The operation of the bitwise disjunction always returns 0, because of a stray
  semicolon (src/funcs/monoids.c:642). The loop ignores all return codes, so the
  result is not affected.

## Model

| member | source | states |
|---|---|---|
| Denotation.ScalarChainItems | src/query.c:366-377 | a chain none of whose levels iterates, at any depth of forwarding, gives at most one result |
| Denotation.PathLength | src/query-key.c:260-326 | every result of a chain comes with one key for each level |
| Meaning.FlatMap | src/query.c:133-245 | the results of a chain are the ways of choosing one item at every level, each leading from the datum of one level to that of the next under the keys shown, in lexicographic order of the choices, none left out and none twice |
| Meaning.LevelGives | src/query.c:53-126 | the n-th item of a level: the n-th entry of a collection with its key, the value of a scalar with its key, the owner behind a filter that is true, the n-th result of a forwarded chain, the n-th row that passes the filter of a bound compound |
| Meaning.CollectionResults | src/query.c:83-90 | result i of a single collection is entry i, under the code of the collection and the key of that entry, if keys are defined |
| Meaning.ScalarResult | src/query.c:121-126 | a single scalar gives its value under its own key, or nothing if there is none |
| Meaning.ScalarOfElements | src/query.c:121-168 | a scalar behind a collection gives its values at the elements, in order, elements without one skipped |
| Meaning.AcceptedAre | src/ifaces/bound-value.c:288-317 | the n-th item of a bound compound is the row that passes its filter after exactly n others |
| Conditions.BoundFreeTame | src/query.c:133-245 | on a chain without bound compounds resets and gets are bound to end well, whatever the data |
| Conditions.GetTameChain | src/query.c:133-245 | where gets may come down to a chain at any time, a reset of it ends well, and so do the gets after it |
| Conditions.SettlesTrapFreeChain | src/ifaces/bound-value.c:225-285 | where resets may fail repeatedly, a get may follow a failed one |
| Conditions.BoundFreeTidy | src/query.c:133-184 | a chain without bound compounds is tidy on every datum |
| Search.Descend | src/query.c:148-154 | after a reset that gave an item, what is ahead at the child is what was ahead at the level, for every prefix of the chain, less the one reset just done |
| Search.Miss | src/query.c:150 | the same for a reset that gave nothing: its datum is the next in the list of resets still to come |
| Search.Exhausted | src/query.c:221-227 | moving up past an exhausted level leaves what is ahead unchanged |
| Search.Advance | src/query.c:160-167 | a yield leaves what is ahead unchanged, with the child about to be reset on the yielded datum |
| Search.HitsSameRun | src/query.c:146-168 | every reset lowers the number of resets still to come by exactly one, and resets done plus resets to come stay the same at every level |
| Levels.Query.constructor | src/query.c:247-279 | a level made from well-formed, separate sub-queries is well formed |
| Assembly.Append | src/query.c:342-353 | two chains that share nothing are joined into one well-formed chain |
| Assembly.Depth | src/query.c:355-364 | the depth is the number of levels |
| Assembly.IsFullyScalar | src/query.c:366-377 | true exactly if no level iterates at any depth of forwarding |
| Engine.CollectionReset | src/query.c:61-95 | the first entry of the list of the owner or NULL, its key in the slot that is handed in, the other entries left; the iterator is created on first use; the contract of a level's reset is met |
| Engine.CollectionYield | src/query.c:192-201 | the next entry, its key in the slot, or NULL and an unchanged slot; the contract of a level's yield is met |
| Engine.ScalarReset | src/query.c:96-126 | the value at the owner and its key in the slot, or NULL and an unchanged slot; the contract of a level's reset is met |
| Engine.FilterReset | src/ifaces/filtered-v-compound.c:58-84 | a filter gives its owner back if the first result of its query is true, and nothing otherwise; bound to end well if the reset of its query is, whatever a get on it would do |
| Engine.FwdReset | src/ifaces/fwd-query-as-collection.c:27-39 | a forwarded chain, iterating or scalar, meets the contract of a level's reset: its results are the items of the level; after a failed reset what it still yields is nothing new |
| Engine.FwdYield | src/ifaces/fwd-query-as-collection.c:41-49 | a forwarded chain meets the contract of a level's yield |
| Engine.BoundReset | src/ifaces/bound-value.c:265-319 | the filtered product meets the contract of a level's reset: items are the accepted rows in product order; a reset that ended got out of the filter loop, and one that failed with no query having anything left leaves it so exactly if no query ahead of the first empty one has a second result |
| Engine.BoundYield | src/ifaces/bound-value.c:225-263 | the filtered product meets the contract of a level's yield; after a failed reset it is trapped if the last query with something left is followed by others |
| Engine.NullYield | src/ifaces/bound-value.c:233-262 | without owner it gives nothing, and ends well only if no query has anything left, or the last one has |
| Engine.SkipRejected | src/ifaces/bound-value.c:291-317 | the filter loop after a product reset stops at the first accepted row and loses none; if it stops, no row without a verdict comes before that one |
| Engine.NextRow | src/ifaces/bound-value.c:233-248 | one advance of the bound product: the next row and the rows after it, or all queries depleted |
| Engine.TestRow | src/ifaces/bound-value.c:249-259 | the filter query, reset on the row with the product's own key list, gives the verdict and changes neither the product nor the key |
| Engine.LevelReset | src/query.c:53-126 | every kind of level meets the contract of reset on all data: first item or NULL, the rest ahead, key written on success, the reset logged; bound to end well on tame data |
| Engine.LevelYield | src/query.c:187-201 | every kind of level meets the contract of yield; scalars give nothing, a safe level ends well and is depleted when it gives NULL, an armed one does not end well |
| Engine.DescendFrom | src/query.c:147-154 | the descending loop reaches the end of the chain or an empty level, with the key pointer on that level, never past the terminal key |
| Engine.ClimbFrom | src/query.c:155-163 | the climbing loop reaches a parent that yielded, with the key pointer on it, or the exhausted root |
| Engine.ChainReset | src/query.c:133-184 | from any state and on all data, a chained reset that ends well returns the first path of the nested flat map, leaves exactly the others ahead, shows its keys, and has reset every level on the data its parents produced; one that returns NULL leaves a chain that was in order in order, with nothing new to return; the condition under which it is bound to end well asks no more than that every level be tame on the data it is reset on |
| Engine.ToTerminal | src/query.c:210-216 | the start of a get reaches the last level and the last key |
| Engine.BacktrackFrom | src/query.c:219-227 | the backtracking loop stops at the nearest level that yields, or depletes the chain |
| Engine.DescendBelow | src/query.c:228-237 | every level below is reset on what its parent gave, up to the end of the chain or an empty level |
| Engine.ChainGet | src/query.c:203-245 | a get that ends well returns the next path, leaves exactly the others ahead, keeps the key list in step, has reset no level on data that arm it, and leaves every level with nothing when it returns NULL; from a safe chain it ends well, and the chain stays safe |
| Engine.ProductReset | src/query.c:451-483 | all queries from a given one on are reset on the owner and hold their first results, or the first empty one is the last to be reset and those after it are untouched |
| Engine.ProductAdvance | src/query.c:485-522 | the next row of the product in order, or failure with nothing left in any query; no reset of a suffix fails on the way; with a NULL owner it ends well only if no query has anything left, or the last one has |
| ProductSteps.FreshProduct | src/query.c:460-470 | queries that all hold their first results have the whole product ahead, the row in hand first |
| ProductSteps.AdvanceEnds | src/query.c:497-516 | turning one digit and resetting those to its right gives the next row of the product |
| BoundSteps.EmptyFactor | src/query.c:464-465 | a product with an empty query has no rows |
| Runs.ProcessRecords | src/helpers/query-results-handler.c:102-113 | on all data, a reset followed by gets until NULL handles a beginning of the nested flat map in order, and exactly all of it if it ends well; the key list shows each result's keys, and exactly those if it has the reserved shape; every level is reset exactly once on each datum its parent produced; it ends well under the conditions on the data, and only under them where bound compounds are not nested |
| Exactness.ShallowTame | src/ifaces/bound-value.c:291-317 | what the condition asks of a level that is reset is that the filter loop ends, no more and no less |
| Exactness.ShallowTrapFree | src/ifaces/bound-value.c:282-285 | what it asks of a failed reset in a get is that no query ahead of the first empty one has a second result, no more and no less |
| Exactness.ShallowReset | src/query.c:133-184 | a chained reset that ended well has met the condition for it |
| Exactness.ShallowSafe | src/query.c:203-245 | if all resets still to come are of that kind, gets are bound to end well |
| Runs.RunNeeds | src/query.c:203-245 | a run that ended well has met the condition on the data after its first result |
| Runs.GetAgain | src/query.c:203-245 | when nothing is left, any number of gets returns NULL, and the first leaves every level with nothing |
| Runs.ProcessProduct | src/query.c:472-522 | a product reset followed by advances until failure gives the rows of the product in order, and each of them once if it ends well; queries after the first empty one do not matter |
| Transparency.InlineSame | src/ifaces/fwd-query-as-collection.c:27-49 | splicing all forwarded chains into a chain, at any depth and inside filters, products and bound compounds, keeps data, order and flat keys |
| Transparency.FullyScalarIs | src/query.c:366-377 | a chain is fully scalar exactly if, with all forwarded chains spliced in, every level is a scalar or a filter |
| Transparency.ChainConcat | src/query.c:342-353 | a chain of two parts continues every result of the first part by the second |
| SplicedConditions.InlineBoundFree | src/ifaces/fwd-query-as-collection.c:27-49 | splicing neither adds nor removes bound compounds |
| SplicedConditions.InlineAlike | src/ifaces/fwd-query-as-collection.c:27-49 | where bound compounds are not nested, a chain and the spliced one meet the conditions on the same data |
| Splicing.ProcessBoth | src/ifaces/fwd-query-as-collection.c:27-49 | runs of a query and of the one in which nothing is forwarded any more handle the same data in the same order, as far as both go, and their key lists have the same flat view at every result; where bound compounds are not nested, one ends well exactly if the other does |
| Odometer.ProductRow | src/query.c:485-522 | row number t takes from every query the result whose index is the digit of t in the mixed radix of the sizes; the number of rows is the product of the sizes |
| Odometer.DigitsNumber | src/query.c:485-522 | digits are in range, and determine the number of the row |
| Odometer.NumberDigits | src/query.c:485-522 | every tuple in range is the row of exactly one number |
| Odometer.DigitsOrder | src/query.c:485-522 | later rows are lexicographically later, the last query fastest |
| Odometer.ProductEmpty | src/query.c:463-469 | a product is empty exactly if one of its queries is |
| KeyShapes.PathShape | src/query-key.c:260-326 | the keys of every result have the shape that is reserved for the query |
| KeyShapes.ExactKeys | src/query.c:146-168 | a key list of the reserved shape that shows a result's keys level by level equals them |
| Traps.YieldAfterFailedReset | src/ifaces/bound-value.c:233-285 | after a failed product reset the next advance gets a result, and goes on from the NULL owner, exactly if a query ahead of the first empty one has a second result or one after it had something left |
| Traps.YieldAfterFailedResets | src/ifaces/bound-value.c:233-285 | after any number of failed resets of a product of single levels, exactly if one of the queries has a second result on the last datum on which it was reset |
| Traps.TrapFreeExactly | src/ifaces/bound-value.c:282-285 | the condition on a failed reset in a get: in an empty product no query ahead of the empty one has a second result |
| Traps.EventRuns | src/query.c:133-245 | an instance with any events: runs over their pairs of tracks and hits end well exactly if no event after one with a pair has two tracks or more and no hits |
| Traps.SeekEnds | src/ifaces/bound-value.c:291-317 | the filter loop of a reset ends if and only if no row without a verdict comes before the first accepted row |
| Traps.SeekFinds | src/ifaces/bound-value.c:291-317 | where it ends, no accepted row was skipped |
| KeyTrees.ReservedAlike | src/query-key.c:260-326 | keys reserved for one query have the same kinds and type codes at the same places |
| KeyTrees.BlankReserved | src/query-key.c:260-326 | a blank reserved key has the shape of the query's results |
| Keys.MarkAsList | src/query-key.c:147-158 | succeeds exactly on an empty key, which becomes a list of blank cells of which the last is terminal |
| Keys.ListLen | src/query-key.c:160-171 | the length found by the terminal flag is the number of items |
| Keys.ReserveForQuery | src/query-key.c:260-326 | the key becomes a list with one blank item for each level, exactly the last one terminal, all in new blocks, and nothing else changes |
| Keys.BlankZero | src/query-key.c:285-299 | every datum of a freshly reserved key is zero |
| Keys.ReserveProduct | src/query.c:431-449 | the key becomes a list with one reserved key for each query |
| Keys.CopyValue | src/query-key.c:328-376 | copying between keys of the same kinds succeeds exactly if all type codes agree, and then the values are equal; otherwise data are copied up to the first key that differs; only blocks of the destination change |
| Keys.CopiedFlat | src/query-key.c:328-376 | where kinds agree, type codes agree exactly if those of the flat views do at every place; the flat view after a copy has the data of the source up to the first place where they differ, and those of the destination from there on |
| Keys.FlatViewSize | src/query-key.c:451-470 | the reported size is the number of blocks of the key that store a datum |
| Keys.FlatViewPopulate | src/query-key.c:473-495 | the view points, in leaf order, to exactly the keys whose blocks store a datum, each once |
| Keys.DestroyAt | src/query-key.c:212-258 | every datum, every list and at last the root is freed once, items before their list; only live blocks are read |
| Keys.CopyAndView | src/query-key.c:328-495 | two keys of one query, holding any values: sizes of the flat views are equal, copying always succeeds, and then both flat views show the data of the source in leaf order |
| Keys.TwoKeys | src/query-key.c:212-495 | the same for keys that own their blocks, and destroying both then frees every block of theirs exactly once and nothing else |
| Keys.ReserveTwo | src/query-key.c:260-326 | keys reserved for a query meet the conditions of both |
| HashTable.Doubling | src/hash-table.c:253-267 | doubling the number of buckets sends bucket b to b or to b + 2^cap |
| HashTable.Table.Lookup | src/hash-table.c:107-127 | the bucket the hash masks to, and the entry of the key exactly if the map has it |
| HashTable.Table.Rebuild | src/hash-table.c:243-274 | whatever the load, all pairs are kept, each in the bucket its hash masks to, with one more bit of buckets, or 5 bits at first; without memory nothing changes |
| HashTable.Table.Insert | src/hash-table.c:129-171 | the return code says exactly whether the key was known and which allocation failed; contents and count change on success only; all as in the insertion into a plain map, after a rebuild exactly if the count is above half of the buckets |
| HashTable.Table.Remove | src/hash-table.c:198-204 | the key is removed, with OK exactly if it was there; the count of records is not changed |
| HashTable.Table.Erase | src/hash-table.c:206-224 | exactly the given entry is unlinked; an entry not in the bucket is reported |
| HashTable.Run | src/hash-table.c:107-274 | any run of inserts, updates, removals and rebuilds, whichever allocations fail, gives contents, counts and return codes of the same run on a plain map; entries are at most size, size is at most 2^(cap-1) + 1, and exceeds the entries by the number of removals |
| HashTable.Untouched | src/hash-table.c:107-274 | in every run a pair stays, and a missing key stays missing, until the key is used again |
| HashTable.Iterate | src/hash-table.c:226-241 | entries are visited bucket by bucket until a call gives non-zero |
| HashTable.FlattenAt | src/hash-table.c:226-241 | a full iteration meets entry j of bucket b after all of the buckets before and the j ahead of it |
| HashTable.FlattenExact | src/hash-table.c:226-241 | a full iteration meets every pair of the map exactly once |
| Aggregates.MonoidReset | src/funcs/monoids.c:124-170 | the result is the fold over the first result of every argument and then all others; with an empty argument it is missing, or the fold over the first results before it; arguments after the first empty one do not matter |
| Aggregates.AggregateUndefined | src/funcs/monoids.c:141-146 | the result is missing exactly if the aggregate is not defined for the empty set and some argument is empty |
| Aggregates.FirstsAre | src/funcs/monoids.c:138-156 | the first loop folds the first result of every argument ahead of the first empty one |
| Aggregates.RemaindersAre | src/funcs/monoids.c:157-167 | the second loop folds every result but the first of every argument, argument by argument |
| Aggregates.AggregateIsFold | src/funcs/monoids.c:124-170 | if every argument has a result, the aggregate of an operation that may swap its operands is the fold over all results, argument by argument |
| Aggregates.FoldAnyOrder | src/funcs/monoids.c:138-167 | the fold of an operation that may swap its operands depends only on which values there are |
| Aggregates.OrderOfFolding | src/funcs/monoids.c:138-167 | firsts and remainders are together all results, none lost or repeated |
| Monoids.SumIs | src/funcs/monoids.c:616-619 | the fold of wrapping addition is the total, wrapped around once |
| Monoids.TotalParts | src/funcs/monoids.c:616-619 | a total of parts is the sum of their totals, of one value that value, of none zero |
| Monoids.WrapIs | src/funcs/monoids.c:616-624 | the wrapped number is the one in the range of the type that differs by a multiple of its size |
| Monoids.ProductIs | src/funcs/monoids.c:621-624 | the fold of wrapping multiplication is the product, wrapped around once |
| Monoids.ProductParts | src/funcs/monoids.c:621-624 | a product of parts is the product of their products, of one value that value, of none one |
| Monoids.MinExactly | src/funcs/monoids.c:626-682 | min gives the least value exactly if some value is not above the neutral element |
| Monoids.MaxExactly | src/funcs/monoids.c:630-696 | max gives the greatest value exactly if some value is not below the neutral element |
| Monoids.IntegerMinMax | src/funcs/monoids.c:669-692 | on the integer types, where they start from the ends of the range, min and max are always right |
| Monoids.FloatFails | src/funcs/monoids.c:693 | on float, max of zero alone, or of a negative value alone, is wrong |
| Monoids.DoubleFails | src/funcs/monoids.c:680-694 | on double, min of 1.0 after a result of zero, and max of zero after a result of 1.0, are wrong |
| Monoids.BitsAre | src/funcs/monoids.c:634-647 | a bit is set if all, some, or an odd number of values have it |
| Monoids.LogicIs | src/funcs/monoids.c:703-734 | all, any and count are what their names say |
| Monoids.MeanIs | src/funcs/monoids.c:771-776 | the state of mean is the number of values and their wrapped total |
| Monoids.DivideIs | src/funcs/monoids.c:762 | division of integers truncates toward zero |
| Monoids.MeanExactly | src/funcs/monoids.c:755-764 | on signed and unsigned integers the mean is undefined exactly if the count is a multiple of the size of the type, and else total over count as they wrap around; while the count does not wrap, it is the true mean exactly if the total does not wrap either |
| Monoids.MeanFails | src/funcs/monoids.c:755-764 | on bytes, the mean of 256 twos is undefined, and that of 200 or of 456 twos is 0 |
| AggregateValues.SumOfAll | src/funcs/monoids.c:124-170 | sum() is the total of all results of all arguments, wrapped around once, if no argument is empty |
| AggregateValues.ProductOfAll | src/funcs/monoids.c:124-170 | prod() likewise |
| AggregateValues.MinOfAll | src/funcs/monoids.c:124-170 | min() is the least of all results of all arguments exactly if one of them is not above the neutral element |
| AggregateValues.MaxOfAll | src/funcs/monoids.c:124-170 | max() is the greatest of all results exactly if one of them is not below the neutral element |
| AggregateValues.IntegerMinMaxOfAll | src/funcs/monoids.c:124-170 | on the integer types min() and max() are the least and the greatest of all results of all arguments |
| AggregateValues.BitsOfAll | src/funcs/monoids.c:124-170 | bAND(), bOR() and bXOR() have a bit set if all, some, or an odd number of all results have it |
| AggregateValues.LogicOfAll | src/funcs/monoids.c:124-170 | all(), any() and count() are what their names say of all results, if no argument is empty |
| AggregateValues.MeanOfAll | src/funcs/monoids.c:124-170 | mean() of all results of all arguments is undefined exactly if their number is a multiple of the size of the type, and else their total over their number as they wrap around; while the number does not wrap, it is their true mean exactly if their total does not wrap either |
| AggregateValues.CountExactly | src/funcs/monoids.c:141-146 | count() counts the true ones of all results exactly if no argument is empty, or none is true but the firsts of the arguments ahead of the first empty one |
| AggregateValues.CountMisses | src/funcs/monoids.c:141-146 | an instance where a result is missed |
| AggregateValues.ArbOfAll | src/funcs/monoids.c:823-835 | narb() is uniform over all results of all arguments: of the n! draw vectors, m (n-1)! give a value that occurs m times |
| Reservoir.Sample | src/funcs/monoids.c:823-835 | the value held after a stream is the one at the position of the last zero draw |
| Reservoir.PickLast | src/funcs/monoids.c:823-835 | position i is the pick exactly if its draw is zero and no later one is |
| Reservoir.Uniform | src/funcs/monoids.c:823-835 | each of n positions is the pick for exactly (n-1)! of the n! draw vectors |
| Reservoir.AllExact | src/funcs/monoids.c:830-833 | the enumeration of draw vectors is complete |
| Reservoir.HoldingCount | src/funcs/monoids.c:823-835 | a value that occurs m times in a stream is held after m (n-1)! of the n! draw vectors |
| BoundedDraw.Below | src/util/pcg32.c:30-40 | the first draw that is not below the threshold, modulo the bound; bound zero gives zero without a draw |
| BoundedDraw.AcceptedRange | src/util/pcg32.c:34 | the accepted range is a multiple of the bound long, and fewer than half of all draws are rejected |
| BoundedDraw.Uniform | src/util/pcg32.c:34-38 | every group of accepted draws holds exactly one draw for every result |
| BoundedDraw.EquallyMany | src/util/pcg32.c:34-38 | of all accepted draws, the same number gives each result below the bound |
| BoundedDraw.BelowAsBoolRange | src/random.c:22-28 | handed over as a truth value, all numbers below the bound occur exactly if the bound is at most two |
| Promotion.RulesSound | include/hdql/internal-api.h:57-102 | every rule gives the least type that takes in both operands |
| Promotion.RulesComplete | include/hdql/internal-api.h:57-102 | there is a rule for every two types |
| Promotion.LubLeast | include/hdql/internal-api.h:57-102 | two types have a least upper bound, which does not depend on their order |
| Promotion.TakesIn | include/hdql/internal-api.h:57-102 | what taking in means: among integers, that the range lies within, or signed into the widest unsigned type; every floating type takes in every integer type; the wider floating type takes in the narrower |
| Promotion.CommonType | include/hdql/internal-api.h:57-102 | the least upper bound is floating exactly if an operand is, then as wide as the widest floating operand; otherwise it holds the ranges of both or is the widest unsigned type, and the latter only if an operand is |
| Promotion.Table.Rebuild | src/type-promotion-table.c:51-81 | the table holds, sorted, exactly the rules whose three types are registered |
| Promotion.NothingToRecord | src/type-promotion-table.c:51-81 | the table is empty exactly if no two registered types have their common type registered |
| Promotion.Table.Promote | src/type-promotion-table.c:83-104 | the binary search finds the code of the least upper bound of two different registered types, and nothing otherwise |
| Promotion.KeyInjective | src/type-promotion-table.c:64-71 | the order-normalised key of two codes determines the pair |
| Inference.InferSimpleArithmetic | src/funcs/monoids.c:275-328 | if no argument is refused, the inferred type, with -1 exactly if all arguments are constants and their number otherwise; else -2, -4 or -3 as the first refused argument is not atomic, of the logic type, or without common type with those before it |
| Inference.ScanMeans | src/funcs/monoids.c:286-324 | the same of the scan, for every list of arguments |
| Inference.ScanInfers | src/funcs/monoids.c:286-324 | on numeric arguments the scan of codes is the inference over their types |
| Inference.InferAll | src/funcs/monoids.c:275-328 | with all types registered, the inferred type is the least that takes in all arguments |
| Inference.LubAllLeast | src/funcs/monoids.c:275-328 | that type is an upper bound of all arguments and below every other |
| Inference.OrderFreeExactly | src/funcs/monoids.c:275-328 | the order of the arguments never matters exactly if registered types with a registered upper bound have their least upper bound registered |
| Inference.OrderExamples | src/funcs/monoids.c:275-328 | it does not with all ten types, and does without the 16-bit ones |
| Arena.Allocator.Alloc | src/allocator.c:53-82 | the next aligned region of the last block if the request fits, else of a new block of whole pages; without memory nothing changes |
| Arena.RegionsDisjoint | src/allocator.c:53-82 | all regions handed out are aligned, inside the data of their block, and pairwise disjoint |
| Arena.Allocator.Destroy | src/allocator.c:102-112 | exactly what was mapped is unmapped, newest first |

## Left out

- ChainReset: `owner` of a level is written and never read by the code, and is not modelled; a query object is used in one place only, so no two levels share state.
- ChainGet: not stated for the stale states that a reset with no result leaves when the chain was not in order before it; nor what happens after a reset on a NULL datum.
- ProcessRecords: that a run ends well is told exactly in advance where bound compounds are not nested; where they are, the condition is sufficient only, for the reason given above.
- Settles: sufficient, not exact, see above.
- ScalarReset: creation of a scalar's dynamic data is not modelled.
- ProductReset: on failure the value of the empty query is left as it was, where the code stores NULL; nothing reads it.
- BoundReset: the datum it returns is a snapshot of the owner and the bound values, where the code returns the owner and lets bound attributes read the values in place.
- BoundYield: as BoundReset; conversion of a filter result to a truth value is an arbitrary function.
- MonoidReset: a key is handed on to arguments that write no keys only, since all of them would write to the same list; converters are part of the operation, whose return codes the code ignores as well.
- CopyValue: keys whose kinds differ, which the code excludes by assertions.
- DestroyAt: blocks are addresses in a map; sizes, alignment and allocation failure of keys are not modelled.
- Run: needs room for the buckets, `room` bits for the records and one for each direct rebuild, as the exponent must stay below 32.
- Rebuild: the linked lists of the buckets are sequences, so relinking of entries and copying of key bytes are not captured; the C library's sort is a parameter of which only sortedness and permutation are used.
- Sample: streams of draws are arbitrary; the generator behind them is not modelled.
- Below: the stream of 64-bit draws is arbitrary and finite, since a loop over rejected draws has no bound.
- MinExactly: values are real numbers; rounding and not-a-number are not modelled. For min and max on double the neutral element is what `MinNeutral` and `MaxNeutral` make of the previous result; what the result holds before its first use is not modelled.
- LogicIs: the count is not bounded by its 64 bits.
- SumIs: signed types wrap around, which C leaves undefined for the wide ones.
- InferSimpleArithmetic: the variants for atomic, integer-only and logic results differ in the types they refuse and are not modelled.
- Key lists are values in the engine and memory blocks in `Keys`; both have the shape of `KeyShapes.ReservedChain`.
- Union keys, labels, swapping of list items and printing of keys.
- Selection expressions of collections, and iterator creation failure.
- The query parser, result tables, CSV and tree output, error messages.
- The older C++ form of the engine (src/query.cc) and the C++ templates.
- Arithmetic on collections, converters, dictionaries of types, compounds and contexts.
- Bit mixing of the hash and of the random generator.
