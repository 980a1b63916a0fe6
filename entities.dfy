/** The URL pair entity and the first-match searches over a list of them
    that both in-memory repositories perform. */
module Entities {
  import opened Wrappers
  import opened LongURLValue

  /** 2^128: a UUID is a 128-bit unsigned integer. */
  const UUID_BOUND: nat := 0x1_0000_0000_0000_0000_0000_0000_0000_0000

  type UUID = x: nat | x < UUID_BOUND

  /** A point in time, as supplied by the clock when the entity is built. */
  type Timestamp = int

  /** A shortened URL pair. The long URL is held as a value object. */
  datatype URLEntity = URLEntity(
    id: UUID,
    short_url: string,
    long_url: LongURLValueObject,
    created_at: Timestamp,
    updated_at: Timestamp)

  /** The two attributes the repositories search by. */
  datatype Column = ShortURLColumn | LongURLColumn

  function ColumnValue(e: URLEntity, column: Column): string {
    match column
    case ShortURLColumn => e.short_url
    case LongURLColumn => e.long_url.value
  }

  /** No entry among the first `n` has `value` in `column`. */
  predicate NoMatchBefore(pairs: seq<URLEntity>, column: Column, value: string, n: nat)
    requires n <= |pairs|
  {
    forall j :: 0 <= j < n ==> ColumnValue(pairs[j], column) != value
  }

  lemma NoMatchInPrefix(pairs: seq<URLEntity>, k: nat, column: Column, value: string, n: nat)
    requires n <= k <= |pairs|
    ensures NoMatchBefore(pairs[..k], column, value, n) <==> NoMatchBefore(pairs, column, value, n)
  {
    assert forall j :: 0 <= j < n ==> pairs[..k][j] == pairs[j];
  }

  /** The position of the first entry whose `column` equals `value`, as
      `next(e for e in pairs if ...)` finds it. */
  function FirstIndex(pairs: seq<URLEntity>, column: Column, value: string): (r: Option<nat>)
    ensures r.None? <==> NoMatchBefore(pairs, column, value, |pairs|)
    ensures r.Some? ==> r.value < |pairs| && ColumnValue(pairs[r.value], column) == value &&
                        NoMatchBefore(pairs, column, value, r.value)
  {
    if |pairs| == 0 then None
    else
      var last := |pairs| - 1;
      var r0 := FirstIndex(pairs[..last], column, value);
      if r0.Some? then
        NoMatchInPrefix(pairs, last, column, value, r0.value);
        assert pairs[..last][r0.value] == pairs[r0.value];
        r0
      else
        NoMatchInPrefix(pairs, last, column, value, last);
        if ColumnValue(pairs[last], column) == value then Some(last) else None
  }

  /** The first entry whose `column` equals `value`, if any. */
  function FirstMatch(pairs: seq<URLEntity>, column: Column, value: string): (r: Option<URLEntity>)
    ensures r.None? <==> NoMatchBefore(pairs, column, value, |pairs|)
    ensures r.Some? ==> exists i :: 0 <= i < |pairs| && pairs[i] == r.value &&
                          ColumnValue(pairs[i], column) == value && NoMatchBefore(pairs, column, value, i)
  {
    match FirstIndex(pairs, column, value)
    case None => None
    case Some(i) => Some(pairs[i])
  }

  /** A scan that has seen no match in the first `i` entries and then sees
      one at `i` has found the first match. */
  lemma FirstIndexAt(pairs: seq<URLEntity>, column: Column, value: string, i: nat)
    requires i < |pairs| && NoMatchBefore(pairs, column, value, i)
    requires ColumnValue(pairs[i], column) == value
    ensures FirstIndex(pairs, column, value) == Some(i)
  {
    assert !NoMatchBefore(pairs, column, value, |pairs|);
  }

  /** Appending an entry keeps an earlier first match, and otherwise the new
      entry is the first match exactly when it matches. */
  lemma {:induction false} FirstIndexAppend(pairs: seq<URLEntity>, e: URLEntity, column: Column, value: string)
    ensures FirstIndex(pairs + [e], column, value) ==
              if FirstIndex(pairs, column, value).Some? then FirstIndex(pairs, column, value)
              else if ColumnValue(e, column) == value then Some(|pairs|)
              else None
  {
    assert (pairs + [e])[..|pairs|] == pairs;
  }
}
