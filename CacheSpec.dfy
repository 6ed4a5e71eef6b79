/**
 * Value-level semantics of the memoizing cache of src/Memoized.ts.
 *
 * A cache is observed as the values stored so far, whether the producer has
 * reported done, and how many times the producer has been asked for a value.
 * The producer's whole output is a finite sequence `source`; every function
 * here describes one operation of the cache as a change of that observation.
 */
module CacheSpec {
  import opened Wrappers

  /** Indices at or above this bound are never cached (the largest JavaScript array length). */
  const MAX_ARRAY_LENGTH: nat := 4294967295

  /** The observable state of a `Memoized` instance. */
  datatype Cache<T> = Cache(cached: seq<T>, exhausted: bool, pulls: nat)

  /** A traversal cursor: its own read position, and whether its traversal has ended. */
  datatype CursorState = CursorState(pos: nat, finished: bool)

  /**
   * The cache invariant: the stored values are a prefix of the producer's output,
   * the producer is only marked exhausted once all of it is stored, and the
   * producer has been invoked exactly once per stored value plus once for the
   * single done report.
   */
  ghost predicate Consistent<T>(c: Cache<T>, source: seq<T>)
  {
    c.cached <= source &&
    (c.exhausted ==> c.cached == source) &&
    c.pulls == |c.cached| + (if c.exhausted then 1 else 0)
  }

  /** A cursor never stands beyond the stored values, and only ends once the producer is exhausted. */
  ghost predicate Tracks<T>(c: Cache<T>, cur: CursorState)
  {
    cur.pos <= |c.cached| &&
    (cur.finished ==> c.exhausted && cur.pos == |c.cached|)
  }

  /** A newer cache state `d` extends the older `c`: nothing stored is lost, and exhaustion is final. */
  ghost predicate Extends<T>(c: Cache<T>, d: Cache<T>)
  {
    c.cached <= d.cached && c.pulls <= d.pulls &&
    (c.exhausted ==> d == c)
  }

  /**
   * The single-step pull (`next()`): asks the producer for the value at
   * position |cached| unless it is exhausted, and either appends that value or
   * marks the producer exhausted.
   */
  function Pull<T>(c: Cache<T>, source: seq<T>): (r: (Cache<T>, Option<T>))
    requires Consistent(c, source)
    ensures Consistent(r.0, source) && Extends(c, r.0)
    ensures c.exhausted ==> r == (c, None)
    ensures r.1.Some? <==> |c.cached| < |source|
    ensures r.1.Some? ==> r.1.value == source[|c.cached|] && r.0.cached == c.cached + [r.1.value] && !r.0.exhausted
    ensures r.1.None? ==> r.0.cached == c.cached && r.0.exhausted
  {
    if c.exhausted then (c, None)
    else if |c.cached| < |source| then
      var v := source[|c.cached|];
      assert c.cached + [v] == source[..|c.cached| + 1];
      (Cache(c.cached + [v], false, c.pulls + 1), Some(v))
    else
      (Cache(c.cached, true, c.pulls + 1), None)
  }

  /**
   * The loop of `ensure(index)`: pulls while the cache does not cover `index`
   * and the producer has not reported done.
   */
  function Fill<T>(c: Cache<T>, source: seq<T>, index: nat): (r: Cache<T>)
    requires Consistent(c, source)
    ensures Consistent(r, source) && Extends(c, r)
    ensures |r.cached| == if index < |c.cached| then |c.cached| else if index < |source| then index + 1 else |source|
    ensures index < |r.cached| || r.exhausted
    ensures r.exhausted <==> c.exhausted || |source| <= index
    ensures index < |c.cached| ==> r == c
    decreases |source| - |c.cached|
  {
    if index < |c.cached| then c
    else
      var (d, v) := Pull(c, source);
      if v.None? then d else Fill(d, source, index)
  }

  /**
   * `ensure(index)`: refuses indices at or above MAX_ARRAY_LENGTH without
   * touching the producer, otherwise fills the cache up to `index` and reports
   * whether `index` is now stored.
   */
  function Ensure<T>(c: Cache<T>, source: seq<T>, index: nat): (r: (Cache<T>, bool))
    requires Consistent(c, source)
    ensures Consistent(r.0, source) && Extends(c, r.0)
    ensures index >= MAX_ARRAY_LENGTH ==> r.0 == c
    ensures r.1 <==> index < MAX_ARRAY_LENGTH && index < |source|
    ensures r.1 ==> index < |r.0.cached| && r.0.cached[index] == source[index]
    ensures index < MAX_ARRAY_LENGTH ==> r.1 || r.0.exhausted
    ensures index < MAX_ARRAY_LENGTH ==> r.0 == Fill(c, source, index)
  {
    if index >= MAX_ARRAY_LENGTH then (c, false)
    else
      var d := Fill(c, source, index);
      (d, index < |d.cached|)
  }

  /** `hasCached(index)`: a pure query of the stored values. */
  function HasCached<T>(c: Cache<T>, source: seq<T>, index: nat): (b: bool)
    requires Consistent(c, source)
    ensures b <==> index < MAX_ARRAY_LENGTH && index < |c.cached|
    ensures b ==> index < |source| && c.cached[index] == source[index]
  {
    index < |c.cached| && index < MAX_ARRAY_LENGTH
  }

  /**
   * One resumption of a cursor minted by `[Symbol.iterator]()`: read the
   * stored value at the cursor's position if there is one, otherwise pull on
   * behalf of the whole cache, and end the traversal once the producer is done.
   */
  function Advance<T>(c: Cache<T>, cur: CursorState, source: seq<T>): (r: (Cache<T>, CursorState, Option<T>))
    requires Consistent(c, source) && Tracks(c, cur)
    ensures Consistent(r.0, source) && Tracks(r.0, r.1) && Extends(c, r.0)
    ensures cur.pos < |c.cached| ==> r.0 == c
    ensures r.2.Some? <==> cur.pos < |source|
    ensures r.2.Some? ==> r.2.value == source[cur.pos] && r.1 == CursorState(cur.pos + 1, false)
    ensures r.2.None? ==> r.1 == CursorState(cur.pos, true) && r.0.exhausted
  {
    if cur.finished then (c, cur, None)
    else if cur.pos < |c.cached| then (c, CursorState(cur.pos + 1, false), Some(c.cached[cur.pos]))
    else if c.exhausted then (c, CursorState(cur.pos, true), None)
    else
      var (d, v) := Pull(c, source);
      if v.None? then (d, CursorState(cur.pos, true), None)
      else (d, CursorState(cur.pos + 1, false), Some(d.cached[cur.pos]))
  }

  /** A cursor stays in step with the cache whatever other cursors and queries do to it. */
  lemma TracksPreserved<T>(c: Cache<T>, d: Cache<T>, cur: CursorState)
    requires Tracks(c, cur) && Extends(c, d)
    ensures Tracks(d, cur)
  {
  }

  /**
   * Splitting a request changes nothing: running the pull loop of `ensure` up
   * to `i` and then up to `j >= i` pulls exactly what running it up to `j`
   * directly pulls (so the same holds of `ensure` itself for `j < MAX_ARRAY_LENGTH`).
   */
  lemma FillSplits<T>(c: Cache<T>, source: seq<T>, i: nat, j: nat)
    requires Consistent(c, source) && i <= j
    ensures Fill(Fill(c, source, i), source, j) == Fill(c, source, j)
  {
  }

  /**
   * A cursor advancing from position `pos` drives the producer exactly as the
   * pull loop of `ensure` run up to `pos` does (and so as `ensure(pos)` does for
   * `pos < MAX_ARRAY_LENGTH`): both pull at most once, and only when `pos` is
   * not yet stored. A finished cursor leaves the cache as it is.
   */
  lemma AdvancePullsLikeFill<T>(c: Cache<T>, cur: CursorState, source: seq<T>)
    requires Consistent(c, source) && Tracks(c, cur)
    ensures Advance(c, cur, source).0 == Fill(c, source, cur.pos)
  {
  }

  /** The `n`-fold resumption of one cursor with no other activity on the cache. */
  function AdvanceN<T>(c: Cache<T>, cur: CursorState, source: seq<T>, n: nat): (r: (Cache<T>, CursorState, seq<T>))
    requires Consistent(c, source) && Tracks(c, cur)
    ensures Consistent(r.0, source) && Tracks(r.0, r.1) && Extends(c, r.0)
    decreases n
  {
    if n == 0 then (c, cur, [])
    else
      var (d, next, v) := Advance(c, cur, source);
      var (e, last, rest) := AdvanceN(d, next, source, n - 1);
      (e, last, (if v.Some? then [v.value] else []) + rest)
  }

  /**
   * A full traversal by one cursor yields exactly the rest of the producer's
   * output, in order, and ends the cursor: after |source| - pos + 1
   * resumptions the cursor is finished and the cache holds everything. A
   * cursor that has already ended yields nothing more.
   */
  lemma {:induction false} TraversalYieldsSource<T>(c: Cache<T>, cur: CursorState, source: seq<T>)
    requires Consistent(c, source) && Tracks(c, cur)
    ensures cur.pos <= |source|
    ensures var r := AdvanceN(c, cur, source, |source| - cur.pos + 1);
      r.2 == source[cur.pos..] && r.1.finished && r.0.cached == source && r.0.exhausted
    decreases |source| - cur.pos
  {
    var (d, next, v) := Advance(c, cur, source);
    if v.Some? {
      TraversalYieldsSource(d, next, source);
      assert source[cur.pos..] == [source[cur.pos]] + source[cur.pos + 1..];
    }
  }
}
