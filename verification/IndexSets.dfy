// The iterators of index_set.hpp: ranges stored in chunks, walked range by range and
// index by index, against the flat sequence they stand for.
module IndexSets {
  import opened Options

  datatype Range = Range(first: nat, second: nat)

  /** `begin`, `end` and `count` summarise the chunk; the iterators do not use them. */
  datatype Chunk = Chunk(data: seq<Range>, begin: nat, end: nat, count: nat)

  predicate NoEmptyChunk(chunks: seq<Chunk>) {
    forall o :: 0 <= o < |chunks| ==> |chunks[o].data| > 0
  }

  // ----- the flat view

  function Flatten(chunks: seq<Chunk>): seq<Range> {
    if chunks == [] then [] else chunks[0].data + Flatten(chunks[1..])
  }

  /** The number of ranges in the first `o` chunks. */
  function Before(chunks: seq<Chunk>, o: nat): nat
    requires o <= |chunks|
  {
    if o == 0 then 0 else |chunks[0].data| + Before(chunks[1..], o - 1)
  }

  lemma {:induction false} BeforeNext(chunks: seq<Chunk>, o: nat)
    requires o < |chunks|
    ensures Before(chunks, o + 1) == Before(chunks, o) + |chunks[o].data|
    decreases o
  {
    if o > 0 {
      BeforeNext(chunks[1..], o - 1);
    }
  }

  lemma {:induction false} FlattenAt(chunks: seq<Chunk>, o: nat, i: nat)
    requires o < |chunks| && i < |chunks[o].data|
    ensures Before(chunks, o) + i < |Flatten(chunks)| && Flatten(chunks)[Before(chunks, o) + i] == chunks[o].data[i]
    decreases o
  {
    if o > 0 {
      FlattenAt(chunks[1..], o - 1, i);
    }
  }

  lemma {:induction false} BeforeAll(chunks: seq<Chunk>)
    ensures Before(chunks, |chunks|) == |Flatten(chunks)|
  {
    if chunks != [] {
      BeforeAll(chunks[1..]);
    }
  }

  lemma {:induction false} BeforeGrows(chunks: seq<Chunk>, o: nat, q: nat)
    requires NoEmptyChunk(chunks) && o < q <= |chunks|
    ensures Before(chunks, o) + |chunks[o].data| <= Before(chunks, q)
    decreases q
  {
    BeforeNext(chunks, q - 1);
    if o < q - 1 {
      BeforeGrows(chunks, o, q - 1);
    }
  }

  // ----- positions

  /** A place in the chunked vector; past the last chunk there is no inner position. */
  predicate Placed(chunks: seq<Chunk>, outer: nat, inner: Option<nat>) {
    || (outer < |chunks| && inner.Some? && inner.value < |chunks[outer].data|)
    || (outer == |chunks| && inner.None?)
  }

  function FlatPosition(chunks: seq<Chunk>, outer: nat, inner: Option<nat>): nat
    requires outer <= |chunks|
  {
    Before(chunks, outer) + if inner.Some? then inner.value else 0
  }

  /** Different places have different flat positions. */
  lemma PositionsDetermine(chunks: seq<Chunk>, o: nat, i: Option<nat>, q: nat, j: Option<nat>)
    requires NoEmptyChunk(chunks) && Placed(chunks, o, i) && Placed(chunks, q, j)
    requires FlatPosition(chunks, o, i) == FlatPosition(chunks, q, j)
    ensures o == q && i == j
  {
    if o < q {
      BeforeGrows(chunks, o, q);
    } else if q < o {
      BeforeGrows(chunks, q, o);
    }
  }

  class ChunkIterator {
    const chunks: seq<Chunk>
    var outer: nat
    var inner: Option<nat>

    predicate Valid()
      reads this
    {
      NoEmptyChunk(chunks) && Placed(chunks, outer, inner)
    }

    function Position(): nat
      requires Valid()
      reads this
    {
      FlatPosition(chunks, outer, inner)
    }

    constructor Begin(chunks: seq<Chunk>)
      requires NoEmptyChunk(chunks)
      ensures this.chunks == chunks && Valid() && Position() == 0
    {
      this.chunks := chunks;
      outer := 0;
      inner := if chunks == [] then None else Some(0);
    }

    constructor End(chunks: seq<Chunk>)
      requires NoEmptyChunk(chunks)
      ensures this.chunks == chunks && Valid() && outer == |chunks| && Position() == |Flatten(chunks)|
    {
      this.chunks := chunks;
      outer := |chunks|;
      inner := None;
      new;
      BeforeAll(chunks);
    }

    /** Dereferencing gives the range at the flat position. */
    method Current() returns (r: Range)
      requires Valid() && outer < |chunks|
      ensures Position() < |Flatten(chunks)| && r == Flatten(chunks)[Position()]
    {
      r := chunks[outer].data[inner.value];
      FlattenAt(chunks, outer, inner.value);
    }

    /** Equality of places is equality of flat positions. */
    method Equals(other: ChunkIterator) returns (eq: bool)
      requires Valid() && other.Valid() && chunks == other.chunks
      ensures eq <==> Position() == other.Position()
      ensures eq <==> outer == other.outer && inner == other.inner
    {
      eq := outer == other.outer && inner == other.inner;
      if Position() == other.Position() {
        PositionsDetermine(chunks, outer, inner, other.outer, other.inner);
      }
    }

    /** Advance directly to the first range of the next chunk, or to the end. */
    method NextChunk()
      requires NoEmptyChunk(chunks) && outer < |chunks|
      modifies this
      ensures Valid() && outer == old(outer) + 1 && Position() == Before(chunks, old(outer)) + |chunks[old(outer)].data|
    {
      outer := outer + 1;
      inner := if outer != |chunks| then Some(0) else None;
      BeforeNext(chunks, old(outer));
    }

    /** `++`: one step forward in the flat sequence. */
    method Increment()
      requires Valid() && outer < |chunks|
      modifies this
      ensures Valid() && Position() == old(Position()) + 1
    {
      inner := Some(inner.value + 1);
      if inner.value == |chunks[outer].data| {
        NextChunk();
      }
    }

    /** `--`: one step back in the flat sequence, also from the end. */
    method Decrement()
      requires Valid() && Position() > 0
      modifies this
      ensures Valid() && outer < |chunks| && Position() == old(Position()) - 1
    {
      if inner.None? || inner.value == 0 {
        BeforeNext(chunks, outer - 1);
        outer := outer - 1;
        inner := Some(|chunks[outer].data| - 1);
      } else {
        inner := Some(inner.value - 1);
      }
    }

    /** `--` undoes `++`. */
    method ForthAndBack()
      requires Valid() && outer < |chunks|
      modifies this
      ensures outer == old(outer) && inner == old(inner)
    {
      ghost var o, i := outer, inner;
      Increment();
      Decrement();
      PositionsDetermine(chunks, outer, inner, o, i);
    }

    /** `++` undoes `--`. */
    method BackAndForth()
      requires Valid() && Position() > 0
      modifies this
      ensures outer == old(outer) && inner == old(inner)
    {
      ghost var o, i := outer, inner;
      Decrement();
      Increment();
      PositionsDetermine(chunks, outer, inner, o, i);
    }
  }

  // ----- indices

  /** Non-empty ranges in ascending order that do not overlap. */
  predicate Ascending(ranges: seq<Range>) {
    && (forall k :: 0 <= k < |ranges| ==> ranges[k].first < ranges[k].second)
    && (forall j, k :: 0 <= j < k < |ranges| ==> ranges[j].second <= ranges[k].first)
  }

  predicate WellFormed(chunks: seq<Chunk>) {
    NoEmptyChunk(chunks) && Ascending(Flatten(chunks))
  }

  function Interval(lo: nat, hi: nat): (r: seq<nat>)
    ensures |r| == if lo <= hi then hi - lo else 0
    ensures forall i :: 0 <= i < |r| ==> r[i] == lo + i
    decreases hi - lo
  {
    if lo >= hi then [] else [lo] + Interval(lo + 1, hi)
  }

  function Indices(ranges: seq<Range>): seq<nat> {
    if ranges == [] then [] else Interval(ranges[0].first, ranges[0].second) + Indices(ranges[1..])
  }

  predicate InSomeRange(ranges: seq<Range>, i: nat) {
    exists k :: 0 <= k < |ranges| && ranges[k].first <= i < ranges[k].second
  }

  /** The indices are exactly those in some range. */
  lemma {:induction false} IndicesExact(ranges: seq<Range>, i: nat)
    ensures i in Indices(ranges) <==> InSomeRange(ranges, i)
  {
    if ranges != [] {
      var head := Interval(ranges[0].first, ranges[0].second);
      IndicesExact(ranges[1..], i);
      if ranges[0].first <= i < ranges[0].second {
        assert head[i - ranges[0].first] == i;
      } else {
        assert i !in head;
        if k :| 0 <= k < |ranges[1..]| && ranges[1..][k].first <= i < ranges[1..][k].second {
          assert ranges[k + 1].first <= i < ranges[k + 1].second;
        }
        if k :| 0 <= k < |ranges| && ranges[k].first <= i < ranges[k].second {
          assert ranges[1..][k - 1].first <= i < ranges[1..][k - 1].second;
        }
      }
    }
  }

  /** They come in strictly ascending order, so no index comes twice. */
  lemma {:induction false} IndicesAscend(ranges: seq<Range>)
    requires Ascending(ranges)
    ensures forall i, j :: 0 <= i < j < |Indices(ranges)| ==> Indices(ranges)[i] < Indices(ranges)[j]
    ensures ranges != [] ==> forall i :: 0 <= i < |Indices(ranges)| ==> ranges[0].first <= Indices(ranges)[i]
  {
    if ranges != [] {
      var rest := ranges[1..];
      var head, js := Interval(ranges[0].first, ranges[0].second), Indices(rest);
      IndicesAscend(rest);
      assert rest != [] ==> rest[0] == ranges[1];
      assert forall i :: 0 <= i < |head| ==> head[i] < ranges[0].second;
      assert forall j :: 0 <= j < |js| ==> ranges[0].second <= js[j];
    }
  }

  /** The indices from position `pos` of a flat sequence of ranges on, `offset` into it. */
  function IndicesFrom(flat: seq<Range>, pos: nat, offset: nat): seq<nat> {
    if pos >= |flat| then [] else Interval(flat[pos].first + offset, flat[pos].second) + Indices(flat[pos + 1..])
  }

  predicate Inside(flat: seq<Range>, pos: nat, offset: nat) {
    if pos < |flat| then flat[pos].first + offset < flat[pos].second else offset == 0
  }

  lemma IndicesFromStart(flat: seq<Range>, pos: nat)
    requires pos <= |flat|
    ensures IndicesFrom(flat, pos, 0) == Indices(flat[pos..])
  {
    if pos < |flat| {
      assert flat[pos..][0] == flat[pos] && flat[pos..][1..] == flat[pos + 1..];
    }
  }

  /** The index at the current offset, and what follows it. */
  lemma IndicesHere(flat: seq<Range>, pos: nat, offset: nat)
    requires pos < |flat| && Inside(flat, pos, offset)
    ensures var x := flat[pos].first + offset;
      IndicesFrom(flat, pos, offset) == [x] + (Interval(x + 1, flat[pos].second) + Indices(flat[pos + 1..]))
  {
    var x := flat[pos].first + offset;
    assert Interval(x, flat[pos].second) == [x] + Interval(x + 1, flat[pos].second);
  }

  /** Moving on to the start of the next range. */
  lemma NextRange(flat: seq<Range>, pos: nat, offset: nat)
    requires Ascending(flat) && pos < |flat| && flat[pos].first + offset + 1 == flat[pos].second
    ensures IndicesFrom(flat, pos, offset) == [flat[pos].first + offset] + IndicesFrom(flat, pos + 1, 0)
    ensures Inside(flat, pos + 1, 0)
  {
    IndicesHere(flat, pos, offset);
    IndicesFromStart(flat, pos + 1);
    var none := Interval(flat[pos].second, flat[pos].second);
    assert none + Indices(flat[pos + 1..]) == Indices(flat[pos + 1..]);
  }

  /** Moving on within a range. */
  lemma NextInRange(flat: seq<Range>, pos: nat, offset: nat)
    requires pos < |flat| && flat[pos].first + offset + 1 < flat[pos].second
    ensures IndicesFrom(flat, pos, offset) == [flat[pos].first + offset] + IndicesFrom(flat, pos, offset + 1)
  {
    IndicesHere(flat, pos, offset);
  }

  /** A place is past the last chunk exactly when its flat position is past the last range. */
  lemma EndIsEnd(chunks: seq<Chunk>, outer: nat, inner: Option<nat>)
    requires Placed(chunks, outer, inner)
    ensures outer < |chunks| <==> FlatPosition(chunks, outer, inner) < |Flatten(chunks)|
  {
    if outer < |chunks| {
      FlattenAt(chunks, outer, inner.value);
    } else {
      BeforeAll(chunks);
    }
  }

  class IndexIterator {
    const it: ChunkIterator
    var offset: nat

    /** The offset stays inside the current range and is zero at the end. */
    predicate Valid()
      reads this, it
    {
      it.Valid() && Ascending(Flatten(it.chunks)) && Inside(Flatten(it.chunks), it.Position(), offset)
    }

    /** The indices from here to the end. */
    function Rest(): seq<nat>
      requires Valid()
      reads this, it
    {
      IndicesFrom(Flatten(it.chunks), it.Position(), offset)
    }

    constructor (it: ChunkIterator)
      requires it.Valid() && WellFormed(it.chunks)
      ensures this.it == it && Valid() && offset == 0
    {
      this.it := it;
      offset := 0;
    }

    /** Dereferencing gives the first of the remaining indices. */
    method Current() returns (i: nat)
      requires Valid() && it.outer < |it.chunks|
      ensures Rest() != [] && i == Rest()[0]
    {
      var r := it.Current();
      IndicesHere(Flatten(it.chunks), it.Position(), offset);
      i := r.first + offset;
    }

    /** Comparison with the end iterator looks at the chunk iterators alone, not at the
        offset; it holds exactly when no index remains. */
    method IsAt(end: ChunkIterator) returns (eq: bool)
      requires Valid() && end.Valid() && end.chunks == it.chunks && end.Position() == |Flatten(it.chunks)|
      ensures eq <==> Rest() == []
      ensures !eq ==> it.outer < |it.chunks|
    {
      eq := it.Equals(end);
      BeforeAll(it.chunks);
      EndIsEnd(it.chunks, it.outer, it.inner);
      if it.outer < |it.chunks| {
        IndicesHere(Flatten(it.chunks), it.Position(), offset);
      }
    }

    /** `++` moves on by exactly one index. */
    method Increment()
      requires Valid() && it.outer < |it.chunks|
      modifies this, it
      ensures Valid() && old(Rest()) != [] && Rest() == old(Rest())[1..]
    {
      var r := it.Current();
      if r.first + offset + 1 == r.second {
        NextRange(Flatten(it.chunks), it.Position(), offset);
      } else {
        NextInRange(Flatten(it.chunks), it.Position(), offset);
      }
      offset := offset + 1;
      if r.first + offset == r.second {
        it.Increment();
        offset := 0;
      }
    }
  }

  lemma Shift(done: seq<nat>, rest: seq<nat>)
    requires rest != []
    ensures done + [rest[0]] + rest[1..] == done + rest
  {
  }

  lemma EachOnceInOrder(flat: seq<Range>)
    requires Ascending(flat)
    ensures var out := Indices(flat);
      && (forall i, j :: 0 <= i < j < |out| ==> out[i] < out[j])
      && (forall i: nat :: i in out <==> InSomeRange(flat, i))
  {
    IndicesAscend(flat);
    forall i: nat ensures i in Indices(flat) <==> InSomeRange(flat, i) {
      IndicesExact(flat, i);
    }
  }

  /** The loop over the indices: it stops when the comparison with the end, which ignores the
      offset, holds. */
  method Collect(it: IndexIterator, end: ChunkIterator) returns (out: seq<nat>)
    requires it.Valid() && it.it != end && end.Valid() && end.chunks == it.it.chunks && end.Position() == |Flatten(end.chunks)|
    modifies it, it.it
    ensures out == old(it.Rest())
  {
    out := [];
    var done := it.IsAt(end);
    while !done
      invariant it.Valid() && end.Valid() && end.Position() == |Flatten(end.chunks)|
      invariant out + it.Rest() == old(it.Rest())
      invariant done <==> it.Rest() == []
      invariant !done ==> it.it.outer < |it.it.chunks|
      decreases |it.Rest()|
    {
      Shift(out, it.Rest());
      var i := it.Current();
      it.Increment();
      out := out + [i];
      done := it.IsAt(end);
    }
  }

  /** Iterating `as_indexes()` from begin to end terminates and gives every index of the set
      exactly once, in ascending order. */
  method Enumerate(chunks: seq<Chunk>) returns (out: seq<nat>)
    requires WellFormed(chunks)
    ensures out == Indices(Flatten(chunks))
    ensures forall i, j :: 0 <= i < j < |out| ==> out[i] < out[j]
    ensures forall i: nat :: i in out <==> InSomeRange(Flatten(chunks), i)
  {
    ghost var flat := Flatten(chunks);
    var begin := new ChunkIterator.Begin(chunks);
    var end := new ChunkIterator.End(chunks);
    var it := new IndexIterator(begin);
    IndicesFromStart(flat, 0);
    assert flat[0..] == flat;
    out := Collect(it, end);
    EachOnceInOrder(flat);
  }
}
