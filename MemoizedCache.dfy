/**
 * The `Memoized<T>` class of src/Memoized.ts: a cache over a single-pass
 * iterator, the cursors it mints, and the `memoize` factory. Every operation
 * is tied to the value-level function of CacheSpec that describes it.
 */
module MemoizedCache {
  import opened Wrappers
  import opened CacheSpec

  /**
   * The single-pass iterator obtained from the iterable handed to the cache.
   * Its whole output is `items`; `position` is how much of it has been
   * delivered and `calls` how many times it has been asked for a value.
   */
  class Producer<T> {
    const items: seq<T>
    var position: nat
    var calls: nat

    constructor (items: seq<T>)
      ensures this.items == items && position == 0 && calls == 0
    {
      this.items := items;
      position, calls := 0, 0;
    }

    /** Delivers the next value, or reports done once `items` is used up. */
    method Next() returns (r: Option<T>)
      modifies this
      ensures calls == old(calls) + 1
      ensures old(position) < |items| ==> r == Some(items[old(position)]) && position == old(position) + 1
      ensures old(position) >= |items| ==> r == None && position == old(position)
    {
      calls := calls + 1;
      if position < |items| {
        r := Some(items[position]);
        position := position + 1;
      } else {
        r := None;
      }
    }
  }

  class Memoized<T> {
    /** The producer's handle; null for good once it has reported done. */
    var handle: Producer?<T>
    /** The values produced so far, in production order. */
    var cached: seq<T>
    /** The producer the cache was built on, kept after `handle` is dropped. */
    ghost const producer: Producer<T>
    /** The producer's whole output. */
    ghost const source: seq<T>

    ghost function State(): Cache<T>
      reads this, producer
    {
      Cache(cached, handle == null, producer.calls)
    }

    /**
     * The object invariant: the handle, while live, is the producer; the
     * producer has delivered exactly the stored values; and the observed state
     * satisfies the cache invariant of CacheSpec.
     */
    ghost predicate Valid()
      reads this, producer
    {
      source == producer.items &&
      (handle == null || handle == producer) &&
      producer.position == |cached| &&
      Consistent(State(), source)
    }

    /** Builds a cache over a fresh iterator of `items`; nothing is pulled yet. */
    constructor (items: seq<T>)
      ensures Valid() && fresh(producer)
      ensures source == items && State() == Cache([], false, 0)
    {
      var p := new Producer(items);
      handle := p;
      cached := [];
      producer := p;
      source := items;
    }

    /** `hasCached(index)`: whether `index` is stored; never pulls. */
    function HasCached(index: nat): (b: bool)
      reads this, producer
      requires Valid()
      ensures b <==> index < MAX_ARRAY_LENGTH && index < |cached|
      ensures b ==> index < |source| && cached[index] == source[index]
      ensures b == CacheSpec.HasCached(State(), source, index)
    {
      index < |cached| && index < MAX_ARRAY_LENGTH
    }

    /**
     * `next()`: the single pull primitive. On an exhausted cache it changes
     * nothing; otherwise it asks the producer once and appends the value or
     * drops the handle.
     */
    method Next() returns (r: Option<T>)
      requires Valid()
      modifies this, producer
      ensures Valid()
      ensures (State(), r) == Pull(old(State()), source)
    {
      var e := handle;
      if e == null {
        return None;
      }
      r := e.Next();
      if r.None? {
        handle := null;
      } else {
        cached := cached + [r.value];
      }
    }

    /**
     * `ensure(index)`: pulls until `index` is stored or the producer is
     * done; indices at or above MAX_ARRAY_LENGTH are refused at once.
     */
    method Ensure(index: nat) returns (ok: bool)
      requires Valid()
      modifies this, producer
      ensures Valid()
      ensures (State(), ok) == CacheSpec.Ensure(old(State()), source, index)
    {
      if index >= MAX_ARRAY_LENGTH {
        return false;
      }
      var done := false;
      while !done && |cached| <= index
        invariant Valid()
        invariant done ==> handle == null
        invariant Fill(State(), source, index) == Fill(old(State()), source, index)
        decreases |source| - |cached|, !done
      {
        var r := Next();
        done := r.None?;
      }
      ok := index < |cached|;
    }

    /** `get(index)`: the stored value at `index`, or None where the source answers `undefined`. */
    method Get(index: nat) returns (r: Option<T>)
      requires Valid()
      modifies this, producer
      ensures Valid()
      ensures State() == CacheSpec.Ensure(old(State()), source, index).0
      ensures r.Some? <==> index < MAX_ARRAY_LENGTH && index < |source|
      ensures r.Some? ==> r.value == source[index]
    {
      var ok := Ensure(index);
      r := if ok then Some(cached[index]) else None;
    }

    /**
     * `tryGet(index, out)`: `delivered` is the value handed to `out`, None when
     * `out` is not called; `ok` reports whether it was called.
     */
    method TryGet(index: nat) returns (ok: bool, delivered: Option<T>)
      requires Valid()
      modifies this, producer
      ensures Valid()
      ensures State() == CacheSpec.Ensure(old(State()), source, index).0
      ensures ok <==> index < MAX_ARRAY_LENGTH && index < |source|
      ensures delivered.Some? <==> ok
      ensures ok ==> delivered.value == source[index]
    {
      ok := Ensure(index);
      delivered := None;
      if ok {
        delivered := Some(cached[index]);
      }
    }

    /** `[Symbol.iterator]()`: a new cursor at position 0 over this cache. */
    method Iterate() returns (cursor: Cursor<T>)
      requires Valid()
      ensures fresh(cursor) && cursor.Valid() && cursor.memo == this
      ensures cursor.Position() == CursorState(0, false)
    {
      cursor := new Cursor(this);
    }
  }

  /** A cursor minted by `[Symbol.iterator]()`: only a position over the shared cache. */
  class Cursor<T> {
    const memo: Memoized<T>
    var pos: nat
    var finished: bool

    ghost function Position(): CursorState
      reads this
    {
      CursorState(pos, finished)
    }

    ghost predicate Valid()
      reads this, memo, memo.producer
    {
      memo.Valid() && Tracks(memo.State(), Position())
    }

    constructor (memo: Memoized<T>)
      requires memo.Valid()
      ensures Valid() && this.memo == memo && Position() == CursorState(0, false)
    {
      this.memo := memo;
      pos, finished := 0, false;
    }

    /**
     * One resumption of the cursor: reads the stored value at `pos` when there
     * is one, otherwise pulls on behalf of every cursor, and ends once the
     * producer is done.
     */
    method Step() returns (r: Option<T>)
      requires Valid()
      modifies this, memo, memo.producer
      ensures Valid()
      ensures (memo.State(), Position(), r) == Advance(old(memo.State()), old(Position()), memo.source)
    {
      if finished {
        return None;
      }
      if pos < |memo.cached| {
        r := Some(memo.cached[pos]);
        pos := pos + 1;
        return;
      }
      if memo.handle == null {
        finished := true;
        return None;
      }
      var e := memo.Next();
      if e.None? {
        finished := true;
        r := None;
      } else {
        r := Some(memo.cached[pos]);
        pos := pos + 1;
      }
    }
  }

  /** `memoize(source)`: the factory. */
  method Memoize<T>(items: seq<T>) returns (m: Memoized<T>)
    ensures fresh(m) && fresh(m.producer) && m.Valid()
    ensures m.source == items && m.State() == Cache([], false, 0)
  {
    m := new Memoized(items);
  }
}
