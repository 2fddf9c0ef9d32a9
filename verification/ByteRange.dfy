/**
 * Ranged reads of a stored object: which ranges are served, and which bytes the stream
 * yields whatever the file hands over per read. Section 14.1.2 of RFC 9110 fixes the
 * meaning of a range: inclusive positions, a last position past the end clipped to it, a
 * first position past the end unsatisfiable.
 */
module ByteRange {
  import opened Option

  newtype Byte = x: int | 0 <= x < 256

  const RANGE_CHUNK_BYTES := 65536

  datatype Fault = NEGATIVE_START | END_PRECEDES_START | ABSENT | PAST_THE_END

  datatype Opened = Served(last: nat) | Refused(why: Fault)

  /** The bytes of an object from `start` up to, not including, `stop`, as far as there are any. */
  function Slice(content: seq<Byte>, start: nat, stop: nat): seq<Byte> {
    var hi := if stop < |content| then stop else |content|;
    if start < hi then content[start..hi] else []
  }

  function OpenRange(content: Option<seq<Byte>>, start: int, end: int): (r: Opened)
    ensures r.Served? <==> content.Some? && 0 <= start <= end && start < |content.value|
    ensures r.Served? ==> start <= r.last < |content.value| && r.last <= end
    // The last position served is the one asked for or the object's own last byte.
    ensures r.Served? ==> r.last == end || (r.last == |content.value| - 1 && end >= |content.value|)
    // Shape errors are reported before the object is looked at.
    ensures r == Refused(NEGATIVE_START) <==> start < 0
    ensures r == Refused(END_PRECEDES_START) <==> 0 <= start && end < start
    ensures r == Refused(ABSENT) <==> 0 <= start <= end && content.None?
  {
    if start < 0 then Refused(NEGATIVE_START)
    else if end < start then Refused(END_PRECEDES_START)
    else if content.None? then Refused(ABSENT)
    else if start >= |content.value| then Refused(PAST_THE_END)
    else Served(if end < |content.value| - 1 then end else |content.value| - 1)
  }

  function Flatten(chunks: seq<seq<Byte>>): seq<Byte> {
    if chunks == [] then [] else Flatten(chunks[..|chunks| - 1]) + chunks[|chunks| - 1]
  }

  lemma FlattenAppend(chunks: seq<seq<Byte>>, chunk: seq<Byte>)
    ensures Flatten(chunks + [chunk]) == Flatten(chunks) + chunk
  {
    assert (chunks + [chunk])[..|chunks|] == chunks;
  }

  /** An open file that hands over as much as it likes of what was asked for, but never nothing. */
  class Handle {
    const content: seq<Byte>
    var position: nat
    var isOpen: bool

    constructor (bytes: seq<Byte>)
      ensures content == bytes && position == 0 && isOpen
    {
      content, position, isOpen := bytes, 0, true;
    }

    method Seek(to: nat)
      requires isOpen
      modifies this`position
      ensures position == to
    {
      position := to;
    }

    method ReadUpTo(n: nat) returns (chunk: seq<Byte>)
      requires isOpen && n > 0
      modifies this`position
      ensures |chunk| <= n && position == old(position) + |chunk|
      ensures chunk == Slice(content, old(position), position)
      ensures chunk == [] <==> old(position) >= |content|
    {
      if position >= |content| {
        return [];
      }
      var most := if position + n < |content| then n else |content| - position;
      var count: nat :| 1 <= count <= most;
      chunk := content[position..position + count];
      position := position + count;
    }

    method Close()
      modifies this`isOpen
      ensures !isOpen
    {
      isOpen := false;
    }
  }

  /**
   * The streaming loop. Whatever lengths the reads come back with, the chunks are non-empty,
   * no longer than the chunk size, and together exactly the bytes start..last of the object
   * the handle reads, stopping short only where that object ends.
   */
  method Stream(handle: Handle, start: nat, last: nat) returns (chunks: seq<seq<Byte>>)
    requires start <= last && handle.isOpen
    modifies handle
    ensures Flatten(chunks) == Slice(handle.content, start, last + 1)
    ensures forall k :: 0 <= k < |chunks| ==> 1 <= |chunks[k]| <= RANGE_CHUNK_BYTES
    ensures !handle.isOpen
  {
    var remaining := last - start + 1;
    chunks := [];
    handle.Seek(start);
    while remaining > 0
      invariant 0 <= remaining <= last - start + 1 && handle.isOpen
      invariant handle.position == last + 1 - remaining
      invariant Flatten(chunks) == Slice(handle.content, start, handle.position)
      invariant forall k :: 0 <= k < |chunks| ==> 1 <= |chunks[k]| <= RANGE_CHUNK_BYTES
      decreases remaining
    {
      var chunk := handle.ReadUpTo(if remaining < RANGE_CHUNK_BYTES then remaining else RANGE_CHUNK_BYTES);
      if chunk == [] {
        break;
      }
      SliceExtends(handle.content, start, handle.position - |chunk|, handle.position);
      FlattenAppend(chunks, chunk);
      remaining := remaining - |chunk|;
      chunks := chunks + [chunk];
    }
    handle.Close();
  }

  lemma SliceExtends(content: seq<Byte>, start: nat, middle: nat, stop: nat)
    requires start <= middle <= stop
    ensures Slice(content, start, middle) + Slice(content, middle, stop) == Slice(content, start, stop)
  {
  }

  /** A range request against an object that stays as it was measured yields the range, clipped. */
  method Serve(content: Option<seq<Byte>>, start: int, end: int) returns (r: Opened, chunks: seq<seq<Byte>>)
    ensures r == OpenRange(content, start, end)
    ensures r.Served? ==> Flatten(chunks) == Slice(content.value, start, end + 1) && Flatten(chunks) != []
    ensures r.Refused? ==> chunks == []
    ensures forall k :: 0 <= k < |chunks| ==> 1 <= |chunks[k]| <= RANGE_CHUNK_BYTES
  {
    r := OpenRange(content, start, end);
    chunks := [];
    if r.Served? {
      var handle := new Handle(content.value);
      chunks := Stream(handle, start, r.last);
    }
  }

  // ---- tilings ------------------------------------------------------------------------------

  /** Cut points from the first byte to at least the last, each but the final one inside the object. */
  ghost predicate Tiling(content: seq<Byte>, cuts: seq<nat>) {
    && |cuts| >= 2 && cuts[0] == 0 && cuts[|cuts| - 1] >= |content|
    && (forall i, j :: 0 <= i < j < |cuts| ==> cuts[i] < cuts[j])
    && (forall i :: 0 <= i < |cuts| - 1 ==> cuts[i] < |content|)
  }

  /** What the ranges between the first n+1 cuts are answered with, in order. */
  function Tiles(content: seq<Byte>, cuts: seq<nat>, n: nat): seq<seq<Byte>>
    requires n < |cuts|
  {
    if n == 0 then [] else Tiles(content, cuts, n - 1) + [Slice(content, cuts[n - 1], cuts[n])]
  }

  lemma {:induction false} TilesCover(content: seq<Byte>, cuts: seq<nat>, n: nat)
    requires Tiling(content, cuts) && n < |cuts|
    ensures Flatten(Tiles(content, cuts, n)) == Slice(content, 0, cuts[n])
  {
    if n > 0 {
      TilesCover(content, cuts, n - 1);
      FlattenAppend(Tiles(content, cuts, n - 1), Slice(content, cuts[n - 1], cuts[n]));
      SliceExtends(content, 0, cuts[n - 1], cuts[n]);
    }
  }

  /** Any tiling of ranges is served in full and reassembles the object. */
  lemma TilingReassembles(content: seq<Byte>, cuts: seq<nat>)
    requires Tiling(content, cuts)
    ensures forall i :: 0 <= i < |cuts| - 1 ==> OpenRange(Some(content), cuts[i], cuts[i + 1] - 1).Served?
    ensures Flatten(Tiles(content, cuts, |cuts| - 1)) == content
  {
    TilesCover(content, cuts, |cuts| - 1);
    forall i | 0 <= i < |cuts| - 1 ensures OpenRange(Some(content), cuts[i], cuts[i + 1] - 1).Served? {
      assert cuts[i] < cuts[i + 1];
    }
  }
}
