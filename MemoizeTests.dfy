/**
 * The scenarios of tests/memoize.test.ts as client methods of MemoizedCache,
 * generalised from the twenty values 0..19 to any sequence of 1 to
 * `MAX_ARRAY_LENGTH - 1` values; random access also needs `0 < r < |items|`
 * and `|items| + 10 < MAX_ARRAY_LENGTH`. Each method computes what the test
 * observes and states that the observations are the ones the test expects.
 */
module MemoizeTests {
  import opened Wrappers
  import opened CacheSpec
  import opened MemoizedCache

  /**
   * `checkFullyCached`: on an exhausted cache a new traversal yields every
   * value from the store, every index below |items| is cached, and `get`
   * answers each index and nothing beyond.
   */
  method CheckFullyCached<T(==)>(m: Memoized<T>, items: seq<T>) returns (ok: bool, count: nat)
    requires m.Valid() && m.source == items && m.State().exhausted && 0 < |items| < MAX_ARRAY_LENGTH
    modifies m, m.producer
    ensures m.Valid() && m.State() == old(m.State())
    ensures ok && count == |items|
  {
    ok := m.HasCached(0);
    var cursor := m.Iterate();
    count := 0;
    while !cursor.finished
      invariant cursor.Valid() && cursor.memo == m && fresh(cursor)
      invariant m.State() == old(m.State())
      invariant cursor.pos == count && ok
      decreases |items| - cursor.pos, !cursor.finished
    {
      var n := cursor.Step();
      if n.Some? {
        ok := ok && n.value == items[count] && m.HasCached(count);
        count := count + 1;
        if count < |items| {
          ok := ok && m.HasCached(count);
        }
      }
    }
    for i := 0 to |items|
      invariant m.Valid() && m.State() == old(m.State()) && ok
    {
      var g := m.Get(i);
      ok := ok && g == Some(items[i]);
    }
    var g := m.Get(|items|);
    ok := ok && g.None?;
  }

  /**
   * 'should contain the expected values': one cursor yields every value in
   * order, and while it runs the store holds exactly what it has read.
   */
  method ShouldContainTheExpectedValues<T(==)>(items: seq<T>) returns (out: seq<T>, ok: bool, ghost calls: nat)
    requires 0 < |items| < MAX_ARRAY_LENGTH
    ensures out == items && ok
    ensures calls == |items| + 1
  {
    var m := Memoize(items);
    ok := !m.HasCached(0);
    var cursor := m.Iterate();
    out := [];
    while !cursor.finished
      invariant cursor.Valid() && cursor.memo == m && fresh(cursor) && fresh(m.producer)
      invariant m.source == items && ok
      invariant out == items[..cursor.pos] && |m.cached| == cursor.pos
      decreases |items| - cursor.pos, !cursor.finished
    {
      var n := cursor.Step();
      if n.Some? {
        out := out + [n.value];
        ok := ok && n.value == items[|out| - 1] && m.HasCached(|out| - 1) && !m.HasCached(|out|);
      }
    }
    var full, count := CheckFullyCached(m, items);
    ok := ok && full && count == |items|;
    calls := m.producer.calls;
  }

  /**
   * The inner round of 'should work with multiple iterators' at an even
   * position `i`: the first cursor has just read value `i`, and the second,
   * standing at `i`, is advanced twice; it reads `i` from the store and then
   * pulls value `i + 1` for both cursors.
   */
  method AdvanceOtherTwice<T(==)>(m: Memoized<T>, cursor: Cursor<T>, other: Cursor<T>, items: seq<T>, i: nat) returns (ok: bool)
    requires cursor.Valid() && other.Valid() && cursor.memo == m && other.memo == m && cursor != other
    requires m.source == items && i < |items|
    requires cursor.pos == i + 1 && other.pos == i && |m.cached| == i + 1
    modifies other, m, m.producer
    ensures cursor.Valid() && other.Valid()
    ensures other.pos == |m.cached| && |m.cached| == if i + 1 < |items| then i + 2 else |items|
    ensures ok
  {
    ghost var before := m.State();
    var s := other.Step();
    TracksPreserved(before, m.State(), cursor.Position());
    ok := s == Some(items[i]);
    before := m.State();
    s := other.Step();
    TracksPreserved(before, m.State(), cursor.Position());
    if s.Some? {
      ok := ok && s.value == items[i + 1];
    }
  }

  /**
   * 'should work with multiple iterators': a second cursor, advanced twice at
   * every even position of the first, shares the store with it; both see the
   * producer's values in order and the producer is invoked once per value
   * plus once for its done report.
   */
  method ShouldWorkWithMultipleIterators<T(==)>(items: seq<T>) returns (count: nat, ok: bool, ghost calls: nat)
    requires 0 < |items| < MAX_ARRAY_LENGTH
    ensures count == |items| && ok
    ensures calls == |items| + 1
  {
    var m := Memoize(items);
    var other := m.Iterate();
    ok := !m.HasCached(0);
    var cursor := m.Iterate();
    count := 0;
    while !cursor.finished
      invariant cursor.Valid() && other.Valid() && cursor.memo == m && other.memo == m
      invariant fresh(cursor) && fresh(other) && fresh(m.producer) && cursor != other
      invariant m.source == items && ok
      invariant cursor.pos == count <= |items|
      invariant count % 2 == 0 ==> other.pos == count && |m.cached| == count
      invariant count % 2 == 1 ==> other.pos == |m.cached| && |m.cached| == if count < |items| then count + 1 else |items|
      decreases |items| - cursor.pos, !cursor.finished
    {
      ghost var before := m.State();
      var n := cursor.Step();
      TracksPreserved(before, m.State(), other.Position());
      if n.Some? {
        ok := ok && m.HasCached(count);
        before := m.State();
        var got, v := m.TryGet(count);
        TracksPreserved(before, m.State(), other.Position());
        TracksPreserved(before, m.State(), cursor.Position());
        ok := ok && got && v == Some(items[count]) && n.value == items[count];
        if count % 2 == 1 {
          ok := ok && !m.HasCached(count + 1);
        } else {
          var round := AdvanceOtherTwice(m, cursor, other, items, count);
          ok := ok && round;
        }
        count := count + 1;
      }
    }
    var full, n := CheckFullyCached(m, items);
    ok := ok && full && n == |items|;
    calls := m.producer.calls;
  }

  /**
   * 'should allow for random access': `get` beyond the end fills the whole
   * store and answers None; on a fresh cache `get(r)` stores exactly the
   * values up to `r`.
   */
  method ShouldAllowRandomAccess<T(==)>(items: seq<T>, r: nat) returns (ok: bool)
    requires 0 < r < |items| && |items| + 10 < MAX_ARRAY_LENGTH
    ensures ok
  {
    var m := Memoize(items);
    var g := m.Get(|items| + 10);
    ok := g.None? && !m.HasCached(|items|) && m.HasCached(|items| - 1);
    m := Memoize(items);
    g := m.Get(r);
    ok := ok && g == Some(items[r]) && m.HasCached(r) && !m.HasCached(r + 1) && m.HasCached(r - 1);
  }

  /** An index at or above MAX_ARRAY_LENGTH is refused without invoking the producer. */
  method GetBeyondBoundNeverPulls<T>(items: seq<T>, index: nat) returns (g: Option<T>, ghost calls: nat)
    requires index >= MAX_ARRAY_LENGTH
    ensures g == None && calls == 0
  {
    var m := Memoize(items);
    g := m.Get(index);
    calls := m.producer.calls;
  }
}
