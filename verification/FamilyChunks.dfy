/**
 Snapshot chunking: the two loops that pack rows into chunk frames, and what
 repeating them delivers.
 */
module FamilyChunks {
  import opened Ordered
  import opened SessionFamily
  import opened FamilyReplica
  import opened FamilyTheorems

  // ----------------------------------------------------------- one chunk

  predicate Fits(items: seq<Item>) {
    |items| <= SESSION_CHUNK_MAX_ITEMS && ChunkBytes(0, items) <= SESSION_CHUNK_MAX_BYTES
  }

  predicate RowFits(item: Item) {
    Fits([item])
  }

  /** Packing stops at the first row that would break a limit: the chunk fits, and one more row would not. */
  lemma {:induction false} PackFromIsGreedy(items: seq<Item>, start: nat, next: nat)
    requires start <= next <= |items| && (start < next ==> Fits(items[start..next]))
    ensures var stop := PackFrom(items, start, next);
            && (start < stop ==> Fits(items[start..stop]))
            && (stop < |items| ==> !Fits(items[start..stop + 1]))
    decreases |items| - next
  {
    if next < |items| && Fits(items[start..next + 1]) {
      PackFromIsGreedy(items, start, next + 1);
    }
  }

  /** A chunk is nonempty, within both limits and as long as the limits allow; packing fails only on an oversized row. */
  lemma PackIsGreedy(items: seq<Item>, start: nat)
    requires start < |items|
    ensures Pack(items, start).None? <==> !RowFits(items[start])
    ensures Pack(items, start).Some? ==>
              var (chunk, stop) := Pack(items, start).value;
              && start < stop <= |items| && chunk == items[start..stop] && Fits(chunk)
              && (stop < |items| ==> !Fits(chunk + [items[stop]]))
  {
    PackFromIsGreedy(items, start, start);
    var stop := PackFrom(items, start, start);
    assert items[start..start + 1] == [items[start]];
    if start < stop < |items| {
      assert items[start..stop + 1] == items[start..stop] + [items[stop]];
    }
  }

  lemma {:induction false} PrefixFits(items: seq<Item>, n: nat)
    requires n <= |items| && Fits(items)
    ensures Fits(items[..n])
    decreases |items|
  {
    if n < |items| {
      assert items[..|items| - 1][..n] == items[..n];
      PrefixFits(items[..|items| - 1], n);
    } else {
      assert items[..n] == items;
    }
  }

  /** The loop that packs a list of rows. */
  method PackSessionChunk(items: seq<Item>, start: nat) returns (r: Option<(seq<Item>, nat)>)
    ensures r == Pack(items, start)
  {
    if start >= |items| {
      return Some(([], start));
    }
    var packed: seq<Item> := [];
    var index := start;
    while index < |items| && |packed| < SESSION_CHUNK_MAX_ITEMS
      invariant start <= index <= |items| && packed == items[start..index]
      invariant PackFrom(items, start, start) == PackFrom(items, start, index)
    {
      packed := packed + [items[index]];
      assert packed == items[start..index + 1];
      if ChunkBytes(0, packed) > SESSION_CHUNK_MAX_BYTES {
        packed := packed[..|packed| - 1];
        if packed == [] {
          return None;
        }
        break;
      }
      index := index + 1;
    }
    return Some((packed, index));
  }

  /** A list that fits packs whole; one row too many leaves the last row behind. */
  lemma PackOfFitting(items: seq<Item>)
    requires items != [] && (|items| > 1 ==> Fits(items[..|items| - 1]))
    ensures Fits(items) ==> Pack(items, 0) == Some((items, |items|))
    ensures !Fits(items) && |items| > 1 ==> Pack(items, 0) == Some((items[..|items| - 1], |items| - 1))
    ensures !Fits(items) && |items| == 1 ==> Pack(items, 0) == None
  {
    var n := if Fits(items) then |items| else |items| - 1;
    forall m | m <= n && 0 < m ensures Fits(items[0..m]) {
      assert items[0..m] == (if Fits(items) then items else items[..|items| - 1])[..m];
      PrefixFits(if Fits(items) then items else items[..|items| - 1], m);
    }
    assert items[0..|items|] == items;
    PackReaches(items, 0, n);
    assert items[0..n] == items[..n];
  }

  lemma {:induction false} PackReaches(items: seq<Item>, next: nat, n: nat)
    requires next <= n <= |items| && (forall m: nat :: 0 < m <= n ==> Fits(items[0..m]))
    requires n < |items| ==> !Fits(items[0..n + 1])
    ensures PackFrom(items, 0, next) == n
    decreases n - next
  {
    if next < n {
      assert Fits(items[0..next + 1]);
      PackReaches(items, next + 1, n);
    }
  }

  /** The loop that reads rows after a cursor agrees with packing the list of those rows. */
  method NextProjectionChunk(rows: Rows, after: Option<int>) returns (r: ChunkRead)
    ensures r == NextChunk(rows, after)
  {
    hide PackFrom, ChunkBytes, IdsAfter;
    var ids := IdsAfter(rows, after);
    ghost var items := ItemsAfter(rows, after);
    var packed: seq<Item> := [];
    var lastId: Option<int> := None;
    var i := 0;
    while i < |ids|
      invariant i <= |ids| && packed == items[..i] && i < SESSION_CHUNK_MAX_ITEMS
      invariant (if i == 0 then lastId.None? else lastId == Some(ids[i - 1]) && Fits(packed))
    {
      packed := packed + [Item(ids[i], rows[ids[i]])];
      assert packed == items[..i + 1] && packed[..|packed| - 1] == items[..i];
      PackOfFitting(packed);
      var chunk := PackSessionChunk(packed, 0);
      if chunk.None? {
        PackAgrees(items, i);
        return Oversize;
      }
      if chunk.value.1 != |packed| {
        PackAgrees(items, i);
        return ChunkOf(chunk.value.0, lastId.value);
      }
      lastId := Some(ids[i]);
      packed := chunk.value.0;
      i := i + 1;
      if |packed| >= SESSION_CHUNK_MAX_ITEMS {
        PackAgrees(items, i);
        return ChunkOf(packed, lastId.value);
      }
    }
    if lastId.Some? {
      PackAgrees(items, i);
      return ChunkOf(packed, lastId.value);
    }
    return NoRows;
  }

  lemma PackAgrees(items: seq<Item>, n: nat)
    requires n <= |items| && items != [] && (n > 0 ==> Fits(items[..n]))
    requires n < |items| ==> !Fits(items[..n + 1])
    ensures Pack(items, 0) == if n == 0 then None else Some((items[..n], n))
  {
    forall m | m <= n && 0 < m ensures Fits(items[0..m]) {
      PrefixFits(items[..n], m);
      assert items[..n][..m] == items[0..m];
    }
    if n < |items| {
      assert items[0..n + 1] == items[..n + 1];
    }
    PackReaches(items, 0, n);
    assert items[0..n] == items[..n];
  }

  // ---------------------------------------------------------- all chunks

  /** Packing again from where the last chunk stopped, until no row is left. */
  function AllChunks(items: seq<Item>, start: nat): Option<seq<seq<Item>>>
    decreases |items| - start
  {
    if start >= |items| then Some([])
    else
      match Pack(items, start)
      case None => None
      case Some((chunk, stop)) =>
        if stop <= start then None
        else
          match AllChunks(items, stop)
          case None => None
          case Some(rest) => Some([chunk] + rest)
  }

  function Flattened(chunks: seq<seq<Item>>): seq<Item> {
    if chunks == [] then [] else chunks[0] + Flattened(chunks[1..])
  }

  /** Every row once, in order, in nonempty chunks within the limits; or no snapshot at all when a row is oversized. */
  lemma {:induction false} ChunksCoverRows(items: seq<Item>, start: nat)
    requires start <= |items|
    ensures AllChunks(items, start).None? <==> exists i :: start <= i < |items| && !RowFits(items[i])
    ensures AllChunks(items, start).Some? ==>
              var chunks := AllChunks(items, start).value;
              && Flattened(chunks) == items[start..]
              && (forall i :: 0 <= i < |chunks| ==> chunks[i] != [] && Fits(chunks[i]))
    decreases |items| - start
  {
    hide Pack, ChunkBytes;
    if start < |items| {
      PackIsGreedy(items, start);
      if Pack(items, start).Some? {
        var (chunk, stop) := Pack(items, start).value;
        ChunksCoverRows(items, stop);
        RowsOfChunkFit(items, start, stop);
        if AllChunks(items, stop).Some? {
          var rest := AllChunks(items, stop).value;
          assert ([chunk] + rest)[1..] == rest;
          assert items[start..stop] + items[stop..] == items[start..];
        }
      }
    }
  }

  lemma RowsOfChunkFit(items: seq<Item>, start: nat, stop: nat)
    requires start < stop <= |items| && Fits(items[start..stop])
    ensures forall i :: start <= i < stop ==> RowFits(items[i])
  {
    forall i | start <= i < stop ensures RowFits(items[i]) {
      var chunk := items[start..stop];
      PrefixFits(chunk, i - start + 1);
      var upTo := chunk[..i - start + 1];
      assert upTo[|upTo| - 1] == items[i];
      assert ItemsBytes(upTo) >= items[i].entity.bytes;
      assert ItemsBytes([items[i]]) == items[i].entity.bytes;
    }
  }

  // ------------------------------------------- index form and cursor form

  lemma {:induction false} PackFromShifts(items: seq<Item>, base: nat, start: nat, next: nat)
    requires base <= start <= next <= |items|
    ensures PackFrom(items, start, next) == base + PackFrom(items[base..], start - base, next - base)
    decreases |items| - next
  {
    if next < |items| {
      assert items[base..][start - base..next - base + 1] == items[start..next + 1];
      PackFromShifts(items, base, start, next + 1);
    }
  }

  lemma {:induction false} AllChunksShifts(items: seq<Item>, base: nat, start: nat)
    requires base <= start <= |items|
    ensures AllChunks(items, start) == AllChunks(items[base..], start - base)
    decreases |items| - start
  {
    hide PackFrom;
    if start < |items| {
      PackFromShifts(items, base, start, start);
      var stop := PackFrom(items, start, start);
      assert items[base..][start - base..stop - base] == items[start..stop];
      if stop > start {
        AllChunksShifts(items, base, stop);
      }
    }
  }

  /** The rows after the last row of a prefix are the rows behind that prefix. */
  lemma RowsBehindPrefix(rows: Rows, after: Option<int>, n: nat)
    requires 0 < n <= |IdsAfter(rows, after)|
    ensures ItemsAfter(rows, Some(IdsAfter(rows, after)[n - 1])) == ItemsAfter(rows, after)[n..]
  {
    var ids := IdsAfter(rows, after);
    var behind := IdsAfter(rows, Some(ids[n - 1]));
    forall k ensures k in behind <==> k in ids[n..] {
      IdsBehindPrefix(rows, after, n, k);
    }
    hide IdsAfter;
    SameListing(behind, ids[n..]);
  }

  lemma IdsBehindPrefix(rows: Rows, after: Option<int>, n: nat, k: int)
    requires 0 < n <= |IdsAfter(rows, after)|
    ensures var ids := IdsAfter(rows, after);
            k in IdsAfter(rows, Some(ids[n - 1])) <==> k in ids[n..]
  {
    var ids := IdsAfter(rows, after);
    TailOfIncreasing(ids, n, k);
    assert ids[n - 1] in ids;
  }

  lemma TailOfIncreasing(ids: seq<int>, n: nat, k: int)
    requires Increasing(ids) && 0 < n <= |ids|
    ensures k in ids[n..] <==> k in ids && k > ids[n - 1]
  {
    if k in ids {
      var j :| 0 <= j < |ids| && ids[j] == k;
      if j >= n {
        assert ids[n..][j - n] == k && ids[n - 1] < ids[j];
      } else {
        assert ids[j] <= ids[n - 1];
      }
    }
    if k in ids[n..] {
      var j :| 0 <= j < |ids| - n && ids[n..][j] == k;
      assert ids[n + j] == k && ids[n - 1] < ids[n + j];
    }
  }

  function FramesOfChunks(chunks: seq<seq<Item>>, sequence: u64): seq<Frame> {
    if chunks == [] then [] else [SnapshotChunk(sequence, chunks[0])] + FramesOfChunks(chunks[1..], sequence)
  }

  /** Reading the projection by row cursor and packing the list of rows by index give the same chunks. */
  lemma {:induction false} CursorFormAgrees(rows: Rows, after: Option<int>, sequence: u64)
    requires RowsFit(rows, after)
    ensures var chunks := AllChunks(ItemsAfter(rows, after), 0);
            chunks.Some? && ChunkFrames(rows, after, sequence) == FramesOfChunks(chunks.value, sequence)
    decreases |Beyond(rows.Keys, after)|
  {
    hide Pack, PackFrom, ItemsAfter, RowsFit;
    var items := ItemsAfter(rows, after);
    FittingRowsPack(rows, after);
    if NextChunk(rows, after).ChunkOf? {
      CursorAdvances(rows, after);
      var last := NextChunk(rows, after).last;
      FitStays(rows, after, last);
      CursorFormAgrees(rows, Some(last), sequence);
      ChunkStops(rows, after);
      var (chunk, stop) := Pack(items, 0).value;
      AllChunksShifts(items, stop, stop);
      var rest := AllChunks(items, stop).value;
      assert ([chunk] + rest)[1..] == rest;
    } else {
      NoChunkNoRows(rows, after);
    }
  }

  lemma ChunkStops(rows: Rows, after: Option<int>)
    requires NextChunk(rows, after).ChunkOf?
    ensures var items := ItemsAfter(rows, after);
            && Pack(items, 0).Some?
            && var (chunk, stop) := Pack(items, 0).value;
               && 0 < stop <= |items| && NextChunk(rows, after).items == chunk
               && ItemsAfter(rows, Some(NextChunk(rows, after).last)) == items[stop..]
  {
    hide PackFrom, ChunkBytes, IdsAfter;
    var items := ItemsAfter(rows, after);
    var stop := PackFrom(items, 0, 0);
    RowsBehindPrefix(rows, after, stop);
    assert items[0..stop][stop - 1] == items[stop - 1];
  }

  lemma NoChunkNoRows(rows: Rows, after: Option<int>)
    requires NextChunk(rows, after).NoRows?
    ensures ItemsAfter(rows, after) == []
  {
  }

  // --------------------------------------------------- oversized rows

  /** What the last read of a snapshot finds, chunk after chunk. */
  function LastRead(rows: Rows, after: Option<int>): ChunkRead
    decreases |Beyond(rows.Keys, after)|
  {
    match NextChunk(rows, after)
    case ChunkOf(_, last) =>
      CursorAdvances(rows, after);
      LastRead(rows, Some(last))
    case read => read
  }

  lemma FittingItems(rows: Rows, after: Option<int>)
    ensures RowsFit(rows, after) <==> forall i :: 0 <= i < |ItemsAfter(rows, after)| ==> RowFits(ItemsAfter(rows, after)[i])
  {
    var ids, items := IdsAfter(rows, after), ItemsAfter(rows, after);
    forall i | 0 <= i < |items| ensures RowFits(items[i]) <==> 77 + Digits(0) + rows[ids[i]].bytes <= SESSION_CHUNK_MAX_BYTES {
      assert ItemsBytes([items[i]]) == items[i].entity.bytes;
    }
    if forall i :: 0 <= i < |items| ==> RowFits(items[i]) {
      forall id | id in rows && !Passed(after, id) ensures 77 + Digits(0) + rows[id].bytes <= SESSION_CHUNK_MAX_BYTES {
        assert id in ids;
        var i :| 0 <= i < |ids| && ids[i] == id;
        assert RowFits(items[i]);
      }
    }
    if RowsFit(rows, after) {
      forall i | 0 <= i < |items| ensures RowFits(items[i]) {
        assert ids[i] in ids;
      }
    }
  }

  /** A snapshot reaches its end if and only if every row behind its cursor fits a chunk of its own. */
  lemma {:induction false} SnapshotEndsIff(rows: Rows, after: Option<int>)
    ensures LastRead(rows, after).NoRows? <==> RowsFit(rows, after)
    ensures LastRead(rows, after).Oversize? <==> !RowsFit(rows, after)
    decreases |Beyond(rows.Keys, after)|
  {
    hide Pack, RowsFit, RowFits, ItemsAfter;
    FittingItems(rows, after);
    var items := ItemsAfter(rows, after);
    if items == [] {
      NoItemsNoChunk(rows, after);
    } else {
      PackIsGreedy(items, 0);
      if NextChunk(rows, after).ChunkOf? {
        CursorAdvances(rows, after);
        var last := NextChunk(rows, after).last;
        ChunkStops(rows, after);
        SnapshotEndsIff(rows, Some(last));
        FittingItems(rows, Some(last));
        FitsFromChunk(items, Pack(items, 0).value.1);
      }
    }
  }

  lemma NoItemsNoChunk(rows: Rows, after: Option<int>)
    requires ItemsAfter(rows, after) == []
    ensures NextChunk(rows, after).NoRows?
  {
  }

  lemma FitsFromChunk(items: seq<Item>, stop: nat)
    requires 0 < stop <= |items| && Fits(items[0..stop])
    ensures (forall i :: 0 <= i < |items| ==> RowFits(items[i]))
            <==> forall i :: 0 <= i < |items[stop..]| ==> RowFits(items[stop..][i])
  {
    hide RowFits, Fits;
    RowsOfChunkFit(items, 0, stop);
    if forall i :: 0 <= i < |items[stop..]| ==> RowFits(items[stop..][i]) {
      forall i | 0 <= i < |items| ensures RowFits(items[i]) {
        if i >= stop {
          assert RowFits(items[stop..][i - stop]);
        }
      }
    }
  }
}
