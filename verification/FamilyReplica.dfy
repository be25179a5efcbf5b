/**
 What a plugin holds after the frames it was sent, and why a snapshot read
 from a moving projection, followed by every delta of the meantime, ends at
 the projection itself.
 */
module FamilyReplica {
  import opened Ordered
  import opened SessionFamily

  /** A plugin's copy of the rows after one frame. */
  function AfterFrame(rows: Rows, frame: Frame): Rows {
    match frame
    case SnapshotBegin(_) => map[]
    case SnapshotChunk(_, items) => Ingest(rows, items)
    case SnapshotEnd(_) => rows
    case EntityDelta(change) => ApplyChange(rows, change)
  }

  function AfterFrames(rows: Rows, frames: seq<Frame>): Rows {
    if frames == [] then rows else AfterFrame(AfterFrames(rows, frames[..|frames| - 1]), frames[|frames| - 1])
  }

  /** The copy held by a plugin that observed `log`. */
  function Replica(log: seq<Event>): Rows {
    if log == [] then map[]
    else
      var before := Replica(log[..|log| - 1]);
      match log[|log| - 1]
      case Sent(frame) => AfterFrame(before, frame)
      case _ => before
  }

  function RowsAfter(rows: Rows, after: Option<int>): Rows {
    map id | id in rows && !Passed(after, id) :: rows[id]
  }

  /** The copy `c` reaches if the projection stops at `rows`: queued frames, remaining rows, held deltas, then `owed`. */
  function Outlook(c: Consumer, log: seq<Event>, rows: Rows, owed: seq<Frame>): Rows {
    var queued := AfterFrames(Replica(log), c.pending);
    var base := if c.needChunks then queued + RowsAfter(rows, c.after) else queued;
    AfterFrames(base, c.held + owed)
  }

  predicate AllDeltas(frames: seq<Frame>) {
    forall i :: 0 <= i < |frames| ==> frames[i].EntityDelta?
  }

  /** Replaying any tail of `frames` over `rows` changes nothing: each row's last delta is already in. */
  ghost predicate Absorbed(rows: Rows, frames: seq<Frame>) {
    forall i :: 0 <= i <= |frames| ==> AfterFrames(rows, frames[i..]) == rows
  }

  ghost predicate AgreeExcept(a: Rows, b: Rows, id: int) {
    forall x :: x != id ==> (x in a <==> x in b) && (x in a ==> a[x] == b[x])
  }

  // --------------------------------------------------------------- folds

  lemma {:induction false} FramesSplit(rows: Rows, a: seq<Frame>, b: seq<Frame>)
    ensures AfterFrames(rows, a + b) == AfterFrames(AfterFrames(rows, a), b)
    decreases |b|
  {
    if b == [] {
      assert a + b == a;
    } else {
      var n := |b| - 1;
      assert (a + b)[..|a + b| - 1] == a + b[..n];
      FramesSplit(rows, a, b[..n]);
    }
  }

  lemma FramesSnoc(rows: Rows, a: seq<Frame>, f: Frame)
    ensures AfterFrames(rows, a + [f]) == AfterFrame(AfterFrames(rows, a), f)
  {
    assert (a + [f])[..|a + [f]| - 1] == a;
  }

  lemma FramesCons(rows: Rows, f: Frame, b: seq<Frame>)
    ensures AfterFrames(rows, [f] + b) == AfterFrames(AfterFrame(rows, f), b)
  {
    FramesSplit(rows, [f], b);
    FramesSnoc(rows, [], f);
    assert [] + [f] == [f];
  }

  lemma ReplicaSnoc(log: seq<Event>, e: Event)
    ensures Replica(log + [e]) == if e.Sent? then AfterFrame(Replica(log), e.frame) else Replica(log)
  {
    assert (log + [e])[..|log + [e]| - 1] == log;
  }

  // -------------------------------------------------------------- deltas

  lemma {:induction false} DeltasKeepAgreement(a: Rows, b: Rows, id: int, frames: seq<Frame>)
    requires AgreeExcept(a, b, id) && AllDeltas(frames)
    ensures AgreeExcept(AfterFrames(a, frames), AfterFrames(b, frames), id)
    decreases |frames|
  {
    if frames != [] {
      DeltasKeepAgreement(a, b, id, frames[..|frames| - 1]);
    }
  }

  lemma ChangeOverwrites(a: Rows, b: Rows, change: Change)
    requires !change.Unrecognized? && AgreeExcept(a, b, change.id)
    ensures ApplyChange(a, change) == ApplyChange(b, change)
  {
    var a', b' := ApplyChange(a, change), ApplyChange(b, change);
    assert forall x :: (x in a' <==> x in b') && (x in a' ==> a'[x] == b'[x]);
  }

  /** A change reaches the projection and is owed to the consumer: its outlook follows. */
  lemma OutlookFollowsChange(c: Consumer, log: seq<Event>, rows: Rows, owed: seq<Frame>, change: Change)
    requires !change.Unrecognized? && AllDeltas(c.held) && AllDeltas(owed)
    requires Outlook(c, log, rows, owed) == rows
    ensures Outlook(c, log, ApplyChange(rows, change), owed + [EntityDelta(change)]) == ApplyChange(rows, change)
  {
    var rows' := ApplyChange(rows, change);
    var queued := AfterFrames(Replica(log), c.pending);
    var base := if c.needChunks then queued + RowsAfter(rows, c.after) else queued;
    var base' := if c.needChunks then queued + RowsAfter(rows', c.after) else queued;
    assert AgreeExcept(base, base', change.id);
    DeltasKeepAgreement(base, base', change.id, c.held + owed);
    var end := AfterFrames(base', c.held + owed);
    assert AgreeExcept(rows, end, change.id);
    assert c.held + (owed + [EntityDelta(change)]) == (c.held + owed) + [EntityDelta(change)];
    FramesSnoc(base', c.held + owed, EntityDelta(change));
    ChangeOverwrites(rows, end, change);
  }

  /** New changes keep the fanout queue absorbed. */
  lemma AbsorbedFollowsChange(rows: Rows, frames: seq<Frame>, change: Change)
    requires !change.Unrecognized? && AllDeltas(frames) && Absorbed(rows, frames)
    ensures Absorbed(ApplyChange(rows, change), frames + [EntityDelta(change)])
  {
    var rows' := ApplyChange(rows, change);
    var frames' := frames + [EntityDelta(change)];
    forall i | 0 <= i <= |frames'| ensures AfterFrames(rows', frames'[i..]) == rows' {
      if i == |frames'| {
        assert frames'[i..] == [];
      } else {
        var tail := frames[i..];
        assert frames'[i..] == tail + [EntityDelta(change)];
        assert AgreeExcept(rows, rows', change.id);
        DeltasKeepAgreement(rows, rows', change.id, tail);
        FramesSnoc(rows', tail, EntityDelta(change));
        assert AgreeExcept(rows, AfterFrames(rows', tail), change.id);
        ChangeOverwrites(rows, AfterFrames(rows', tail), change);
      }
    }
  }

  lemma AbsorbedTail(rows: Rows, frames: seq<Frame>)
    requires Absorbed(rows, frames) && frames != []
    ensures Absorbed(rows, frames[1..])
  {
    forall i | 0 <= i <= |frames[1..]| ensures AfterFrames(rows, frames[1..][i..]) == rows {
      assert frames[1..][i..] == frames[i + 1..];
    }
  }

  /** A freshly begun snapshot is owed every row, and absorbed deltas leave it there. */
  lemma OutlookOfBegun(c: Consumer, sequence: u64, log: seq<Event>, rows: Rows, owed: seq<Frame>)
    requires Absorbed(rows, owed)
    ensures Outlook(Begun(c, sequence), log, rows, owed) == rows
  {
    var c' := Begun(c, sequence);
    assert c'.pending == [] + [SnapshotBegin(sequence)];
    FramesSnoc(Replica(log), [], SnapshotBegin(sequence));
    assert map[] + RowsAfter(rows, None) == rows;
    assert c'.held + owed == owed[0..];
  }

  /** Queueing the next owed delta moves it from `owed` into the consumer. */
  lemma OutlookOfQueued(c: Consumer, log: seq<Event>, rows: Rows, change: Change, owed: seq<Frame>)
    requires !c.gap && DeltaFits(c, change)
    requires c.complete ==> c.held == [] && !c.needChunks
    ensures Outlook(WithDelta(c, change), log, rows, owed) == Outlook(c, log, rows, [EntityDelta(change)] + owed)
  {
    var d := EntityDelta(change);
    var queued := AfterFrames(Replica(log), c.pending);
    if c.complete {
      FramesSnoc(Replica(log), c.pending, d);
      FramesCons(queued, d, owed);
      assert c.held + ([d] + owed) == [d] + owed;
      assert c.held + owed == owed;
    } else {
      assert (c.held + [d]) + owed == c.held + ([d] + owed);
    }
  }

  // -------------------------------------------------------------- chunks

  /** Whether two row sets hold the same thing under `id`. */
  ghost predicate SameAt(a: Rows, b: Rows, id: int) {
    (id in a <==> id in b) && (id in a ==> a[id] == b[id])
  }

  lemma {:induction false} IngestAt(base: Rows, rows: Rows, ids: seq<int>, n: nat, id: int)
    requires n <= |ids| && forall i :: 0 <= i < |ids| ==> ids[i] in rows
    ensures SameAt(Ingest(base, ItemsOf(rows, ids)[..n]), if id in ids[..n] then rows else base, id)
  {
    var items := ItemsOf(rows, ids);
    if n > 0 {
      IngestAt(base, rows, ids, n - 1, id);
      assert items[..n][..n - 1] == items[..n - 1];
      assert ids[..n] == ids[..n - 1] + [ids[n - 1]];
    }
  }

  lemma ChunkIsPrefix(rows: Rows, after: Option<int>)
    requires NextChunk(rows, after).ChunkOf?
    ensures var ids := IdsAfter(rows, after);
            exists n :: 0 < n <= |ids| && NextChunk(rows, after) == ChunkOf(ItemsOf(rows, ids)[..n], ids[n - 1])
  {
    var ids := IdsAfter(rows, after);
    var items := ItemsAfter(rows, after);
    var n := PackFrom(items, 0, 0);
    assert items[0..n] == items[..n];
    assert 0 < n <= |ids| && NextChunk(rows, after) == ChunkOf(ItemsOf(rows, ids)[..n], ids[n - 1]);
  }

  /** The first `n` ids after a cursor are the rows up to the `n`th. */
  lemma PrefixIds(rows: Rows, after: Option<int>, n: nat, id: int)
    requires 0 < n <= |IdsAfter(rows, after)|
    ensures var ids := IdsAfter(rows, after);
            id in ids[..n] <==> id in rows && !Passed(after, id) && id <= ids[n - 1]
  {
    var ids := IdsAfter(rows, after);
    if id in ids[..n] {
      var j :| 0 <= j < n && ids[..n][j] == id;
      assert ids[j] in ids;
      assert j < n - 1 ==> ids[j] < ids[n - 1];
    }
    if id in rows && !Passed(after, id) && id <= ids[n - 1] {
      assert id in Beyond(rows.Keys, after);
      assert id in ids;
      var j :| 0 <= j < |ids| && ids[j] == id;
      assert ids[..n][j] == id;
    }
  }

  predicate InStretch(rows: Rows, after: Option<int>, last: int, id: int) {
    id in rows && !Passed(after, id) && id <= last
  }

  lemma StretchThenRest(base: Rows, rows: Rows, after: Option<int>, last: int, sent: Rows)
    requires !Passed(after, last)
    requires forall id :: SameAt(sent, if InStretch(rows, after, last, id) then rows else base, id)
    ensures sent + RowsAfter(rows, Some(last)) == base + RowsAfter(rows, after)
  {
    var left := sent + RowsAfter(rows, Some(last));
    var right := base + RowsAfter(rows, after);
    forall id ensures SameAt(left, right, id) {
      assert SameAt(sent, if InStretch(rows, after, last, id) then rows else base, id);
    }
    assert left.Keys == right.Keys by {
      forall id ensures id in left <==> id in right { assert SameAt(left, right, id); }
    }
    forall id | id in left ensures left[id] == right[id] { assert SameAt(left, right, id); }
  }

  lemma PrefixSplitsRows(base: Rows, rows: Rows, after: Option<int>, n: nat)
    requires 0 < n <= |IdsAfter(rows, after)|
    ensures var ids := IdsAfter(rows, after);
            Ingest(base, ItemsOf(rows, ids)[..n]) + RowsAfter(rows, Some(ids[n - 1])) == base + RowsAfter(rows, after)
  {
    var ids := IdsAfter(rows, after);
    var last := ids[n - 1];
    var sent := Ingest(base, ItemsOf(rows, ids)[..n]);
    assert last == ids[..n][n - 1];
    PrefixIds(rows, after, n, last);
    forall id ensures SameAt(sent, if InStretch(rows, after, last, id) then rows else base, id) {
      IngestAt(base, rows, ids, n, id);
      PrefixIds(rows, after, n, id);
    }
    StretchThenRest(base, rows, after, last, sent);
  }

  /** Sending a chunk replaces exactly the rows it carries by the rows left after it. */
  lemma ChunkSplitsRows(base: Rows, rows: Rows, after: Option<int>)
    requires NextChunk(rows, after).ChunkOf?
    ensures var chunk := NextChunk(rows, after);
            Ingest(base, chunk.items) + RowsAfter(rows, Some(chunk.last)) == base + RowsAfter(rows, after)
  {
    ChunkIsPrefix(rows, after);
    var ids := IdsAfter(rows, after);
    var n :| 0 < n <= |ids| && NextChunk(rows, after) == ChunkOf(ItemsOf(rows, ids)[..n], ids[n - 1]);
    PrefixSplitsRows(base, rows, after, n);
  }

  lemma NoRowsMeansNone(rows: Rows, after: Option<int>)
    requires NextChunk(rows, after).NoRows?
    ensures RowsAfter(rows, after) == map[]
  {
    var ids := IdsAfter(rows, after);
    assert ids == [];
    forall id | id in rows ensures Passed(after, id) {
      assert id in Beyond(rows.Keys, after) ==> id in ids;
    }
  }

  lemma OutlookOfSentQueued(c: Consumer, log: seq<Event>, rows: Rows, owed: seq<Frame>)
    requires c.pending != []
    ensures Outlook(c.(pending := c.pending[1..]), log + [Sent(c.pending[0])], rows, owed) == Outlook(c, log, rows, owed)
  {
    ReplicaSnoc(log, Sent(c.pending[0]));
    assert c.pending == [c.pending[0]] + c.pending[1..];
    FramesCons(Replica(log), c.pending[0], c.pending[1..]);
  }

  lemma OutlookOfSentChunk(c: Consumer, log: seq<Event>, rows: Rows, owed: seq<Frame>)
    requires c.pending == [] && c.needChunks && NextChunk(rows, c.after).ChunkOf?
    ensures var chunk := NextChunk(rows, c.after);
            Outlook(c.(after := Some(chunk.last)), log + [Sent(SnapshotChunk(c.sequence, chunk.items))], rows, owed)
            == Outlook(c, log, rows, owed)
  {
    var chunk := NextChunk(rows, c.after);
    ReplicaSnoc(log, Sent(SnapshotChunk(c.sequence, chunk.items)));
    ChunkSplitsRows(Replica(log), rows, c.after);
  }

  lemma OutlookOfSentEnd(c: Consumer, log: seq<Event>, rows: Rows, owed: seq<Frame>)
    requires c.pending == [] && c.needChunks && NextChunk(rows, c.after).NoRows?
    ensures Outlook(c.(needChunks := false), log + [Sent(SnapshotEnd(c.sequence))], rows, owed)
            == Outlook(c, log, rows, owed)
  {
    ReplicaSnoc(log, Sent(SnapshotEnd(c.sequence)));
    NoRowsMeansNone(rows, c.after);
    assert Replica(log) + RowsAfter(rows, c.after) == Replica(log);
  }

  /** Admitting the peeked frame leaves the outlook where it was. */
  lemma OutlookOfAdmitted(c: Consumer, log: seq<Event>, rows: Rows, owed: seq<Frame>, flight: Option<Flight>)
    requires var p := Peek(c, rows); p.Queued? || p.ChunkFrame? || p.EndFrame?
    ensures var p := Peek(c, rows);
            Outlook(Committed(c, p).(inFlight := flight), log + [Sent(p.frame)], rows, owed)
            == Outlook(c, log, rows, owed)
  {
    var p := Peek(c, rows);
    OutlookIgnoresFlight(Committed(c, p), flight, log + [Sent(p.frame)], rows, owed);
    if c.pending != [] {
      OutlookOfSentQueued(c, log, rows, owed);
    } else if NextChunk(rows, c.after).ChunkOf? {
      OutlookOfSentChunk(c, log, rows, owed);
    } else {
      OutlookOfSentEnd(c, log, rows, owed);
    }
  }

  lemma OutlookIgnoresFlight(c: Consumer, flight: Option<Flight>, log: seq<Event>, rows: Rows, owed: seq<Frame>)
    ensures Outlook(c.(inFlight := flight), log, rows, owed) == Outlook(c, log, rows, owed)
  {
  }

  /** The end frame landing moves held deltas to the queue and changes no outlook. */
  lemma OutlookOfLanded(c: Consumer, log: seq<Event>, rows: Rows, owed: seq<Frame>)
    requires c.inFlight.Some? && c.inFlight.value.kind == End ==> !c.needChunks
    ensures Outlook(Landed(c, true), log + [Delivered], rows, owed) == Outlook(c, log, rows, owed)
  {
    ReplicaSnoc(log, Delivered);
    var queued := AfterFrames(Replica(log), c.pending);
    FramesSplit(Replica(log), c.pending, c.held);
    FramesSplit(queued, c.held, owed);
    assert [] + owed == owed;
  }
}
