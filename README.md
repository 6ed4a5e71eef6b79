# Memoized: a verified model of a memoizing iterator cache

This project models the `Memoized<T>` class of the tsdotnet `memoize`
package in Dafny. The class caches the values of a single-pass iterator so that
any number of cursors and positional queries can read the same sequence.
Only the iterator's first run is ever observed.

The cache owns an append-only store `_cached` and a handle `_iterator` to the
producer. The handle is dropped (set to `null`) for good once the producer
reports done. `next()` is the only operation that reads the producer and the
only one that appends. `ensure(index)` pulls until `index` is stored or the
producer is done, and refuses indices at or above `MAX_ARRAY_LENGTH`
(4294967295) outright. `hasCached`, `get` and `tryGet` are positional queries
built on it. `[Symbol.iterator]()` mints cursors that read the shared store and
pull on everyone's behalf when they reach its end.

The project has two layers and a test module:

- `CacheSpec.dfy` (module `CacheSpec`) describes each operation as a function
  on the observable state `Cache(cached, exhausted, pulls)`. The invariant
  `Consistent` says three things. The store is a prefix of the producer's whole
  output `source`. Exhaustion implies the store is all of `source`. The producer
  was invoked once per stored value plus once for its done report. The
  functions' contracts and the lemmas state what the source promises.
- `MemoizedCache.dfy` (module `MemoizedCache`) is the imperative model. The
  classes `Producer` (the iterator), `Memoized` (the cache, with fields `handle`
  and `cached`) and `Cursor` (a position and a finished flag) have methods whose
  postconditions tie the new state and the result to the `CacheSpec` function
  of the old state. `Memoized.Valid()` is the object invariant.
- `MemoizeTests.dfy` (module `MemoizeTests`) restates the scenarios of
  `tests/memoize.test.ts` as client methods. They are generalised from the
  values 0..19 to any sequence of 1 to `MAX_ARRAY_LENGTH - 1` values, and each
  proves that every observation the test checks holds. Past that bound the
  test's observations do not hold in the source either, since `hasCached` is
  false at any index at or above `MAX_ARRAY_LENGTH`. The random-access scenario
  also needs `0 < r < |items|` and `|items| + 10 < MAX_ARRAY_LENGTH`.
  `GetBeyondBoundNeverPulls` is not a test scenario: it states the bound check
  of `ensure` at src/Memoized.ts:47.

The iterable given to the constructor is modelled as the finite sequence of
its values. The iterator obtained from it is a `Producer` over that sequence
that counts how often it is asked for a value.

Over a full traversal the producer is invoked `|items| + 1` times: once per
value and once for the done report, after which the handle is dropped.

## Model

| member | source | states |
|---|---|---|
| CacheSpec.Pull | src/Memoized.ts:96-104 | On an exhausted cache `next()` returns done and changes nothing. Otherwise it yields a value exactly when values remain: the value at position `|cached|`, appended to the store. When none remain it marks the cache exhausted and leaves the store as it was. The invariant and append-only growth are kept. The producer is only ever asked for the next position, `|cached|`. |
| CacheSpec.Fill | src/Memoized.ts:48-51 | The pull loop of `ensure` stops as soon as `index` is covered. The store ends with length `|cached|` if `index` was already stored, else `min(index + 1, |source|)`. Afterwards `index` is stored or the producer is exhausted. The producer ends exhausted exactly when it already was or `index >= |source|`, so no done report is pulled once `index` is covered. |
| CacheSpec.Ensure | src/Memoized.ts:45-53 | `ensure(index)` is true exactly when `index < MAX_ARRAY_LENGTH` and `index < |source|`. Then the stored value is `source[index]`. An index at or above the bound leaves the cache untouched. Below the bound, a false answer means the producer is exhausted. Below the bound, the new state is also always that of the pull loop `Fill`, so `ensure` stops pulling once `index` is stored. |
| CacheSpec.HasCached | src/Memoized.ts:35-38 | `hasCached(index)` is true exactly when `index` is below both the store length and `MAX_ARRAY_LENGTH`. When true, the stored value is the producer's value at that position. |
| CacheSpec.Advance | src/Memoized.ts:78-90 | A cursor step yields a value exactly when its position is below `|source|`. That value is `source[pos]`, and the position moves by one. Reading a stored position never pulls. Otherwise the cursor ends and the cache is exhausted. The cache invariant and the cursor's tracking are kept. |
| CacheSpec.TracksPreserved | src/Memoized.ts:85-89 | A cursor stays consistent with the cache whatever other cursors or queries do, because the store only grows and exhaustion is final. |
| CacheSpec.FillSplits | src/Memoized.ts:48-51 | The pull loop of `ensure` run up to `i` and then up to `j >= i` leaves the same state, pull count included, as running it up to `j` alone. So `ensure(i)` then `ensure(j)` with `i <= j < MAX_ARRAY_LENGTH` equals `ensure(j)`. |
| CacheSpec.AdvancePullsLikeFill | src/Memoized.ts:83-89 | A cursor at `pos`, finished or not, changes the cache exactly as the pull loop of `ensure` run up to `pos` does, which is what `ensure(pos)` does when `pos < MAX_ARRAY_LENGTH`. |
| CacheSpec.AdvanceN | src/Memoized.ts:83-89 | Repeated steps of one cursor keep the cache invariant and the cursor's tracking, and only extend the cache. |
| CacheSpec.TraversalYieldsSource | src/Memoized.ts:78-90 | A full traversal by one cursor from `pos` yields exactly `source[pos..]` in order. The cursor then ends, and the store is the whole of `source`. This holds for a cursor that has already ended too. |
| MemoizedCache.Producer.constructor | src/Memoized.ts:26 | A fresh iterator over the iterable's values has delivered nothing and has not been called. |
| MemoizedCache.Producer.Next | src/Memoized.ts:100 | Each call is counted. It delivers the next value while any remain and reports done otherwise. |
| MemoizedCache.Memoized.constructor | src/Memoized.ts:23-28 | A new cache is valid, with an empty store, a live handle and a producer that has never been called. |
| MemoizedCache.Memoized.HasCached | src/Memoized.ts:35-38 | Equals `CacheSpec.HasCached` of the current state. True exactly when `index` is below the store length and `MAX_ARRAY_LENGTH`. Then the stored value is the producer's value there. Reads only. |
| MemoizedCache.Memoized.Next | src/Memoized.ts:96-104 | The new state and the result are `Pull` of the old state, and the object invariant is kept. That invariant ties the producer's position to the store length, so the producer is only ever asked for the next position. |
| MemoizedCache.Memoized.Ensure | src/Memoized.ts:45-53 | The new state and the answer are `Ensure` of the old state, and the object invariant is kept. |
| MemoizedCache.Memoized.Get | src/Memoized.ts:60-63 | `get(index)` returns `Some(source[index])` exactly when `index < MAX_ARRAY_LENGTH` and `index < |source|`, and None (`undefined`) otherwise. The new state is `Ensure`'s. |
| MemoizedCache.Memoized.TryGet | src/Memoized.ts:71-76 | `tryGet` hands `source[index]` to its callback exactly when it returns true, and true means `index` is below the bound and within the source. The new state is `Ensure`'s. |
| MemoizedCache.Memoized.Iterate | src/Memoized.ts:78-81 | Returns a new valid cursor at position 0 over this cache, leaving the cache unchanged. |
| MemoizedCache.Cursor.constructor | src/Memoized.ts:80-81 | A cursor starts at position 0, not finished, tracking its cache. |
| MemoizedCache.Cursor.Step | src/Memoized.ts:83-89 | The new cache state, the cursor's new position and the yielded value are `Advance` of the old ones. |
| MemoizedCache.Memoize | src/Memoized.ts:112-114 | `memoize(source)` returns a fresh, valid, empty cache over `source`. |
| MemoizeTests.CheckFullyCached | tests/memoize.test.ts:14-33 | On an exhausted cache, a new traversal yields every value in order, and every index below `|items|` is cached. `get` returns each value and None at `|items|`. The cache state does not change. |
| MemoizeTests.ShouldContainTheExpectedValues | tests/memoize.test.ts:37-52 | One cursor yields exactly `items`. After reading value `i`, index `i` is cached and `i + 1` is not, so nothing is pulled ahead. The producer is invoked `|items| + 1` times. |
| MemoizeTests.AdvanceOtherTwice | tests/memoize.test.ts:69-75 | At an even position `i`, the second cursor reads `items[i]` from the store and then pulls `items[i + 1]` for both cursors. Both cursors stay consistent. |
| MemoizeTests.ShouldWorkWithMultipleIterators | tests/memoize.test.ts:54-81 | With two interleaved cursors, the first reads all `|items|` values in order. `hasCached` and `tryGet` answer as the test expects, and the second cursor's reads match. The producer is invoked `|items| + 1` times in total. |
| MemoizeTests.ShouldAllowRandomAccess | tests/memoize.test.ts:83-94 | `get(|items| + 10)` returns None, after which `|items| - 1` is cached and `|items|` is not. On a fresh cache, `get(r)` returns `items[r]` and caches `r - 1` and `r` but not `r + 1`. |
| MemoizeTests.GetBeyondBoundNeverPulls | src/Memoized.ts:47 | `get` at or above `MAX_ARRAY_LENGTH` returns None and never invokes the producer. |

## Left out

- The compiled copies under `dist/` and `dist-esm/` and the `.d.ts` declarations. They are build output of `src/Memoized.ts`. The `dist-esm` copy is an older build without the bound check, and it is not modelled.
- `spec/memoize.ts` is not part of this model. It is an older test file whose assertions contradict the source; `tests/memoize.test.ts` is used instead.
- Indices are `nat`. JavaScript's negative, fractional and NaN indices, which `hasCached` and `ensure` do not reject, are not modelled.
- Exceptions thrown by the iterator's `next()` are foreign behaviour and are not modelled. The model's producer never fails.
- `tryGet`'s callback is arbitrary user code, so its side effects and re-entrancy are not modelled. The value it receives is returned as `delivered`.
- The generator's suspension (`yield`) is modelled as an explicit cursor with a `Step` method and a `finished` flag. This is not a coroutine.
- The constructor's null check (`'source' is null or undefined`) is not modelled, because Dafny references and sequences are never null.
- Producers are finite sequences. An infinite iterator is not modelled.
- MemoizedCache.Memoized.Get: `undefined` is modelled as None. In the source, a stored `undefined` value cannot be told apart from absence.
- MemoizedCache.Memoized.Next: on done it returns None rather than the iterator's final `IteratorResult`, whose `value` (a generator's return value) is not modelled.
- JavaScript arrays cannot grow past 4294967295 elements. A push beyond that throws `RangeError`; this is not modelled, and the store is unbounded.
