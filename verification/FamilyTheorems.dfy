/** What holds of the session family bridge in every run. */
module FamilyTheorems {
  import opened Ordered
  import opened SessionFamily
  import opened FamilyReplica
  import opened FamilyIndex
  import opened FamilyQuiet
  import opened FamilySafety
  import opened FamilyPasses
  import opened FamilySteps
  import opened FamilyRun

  // -------------------------------------------------------- owed frames

  /** The chunks still to be read from a projection that stays at `rows`. */
  function ChunkFrames(rows: Rows, after: Option<int>, sequence: u64): seq<Frame>
    decreases |Beyond(rows.Keys, after)|
  {
    match NextChunk(rows, after)
    case ChunkOf(items, last) =>
      CursorAdvances(rows, after);
      [SnapshotChunk(sequence, items)] + ChunkFrames(rows, Some(last), sequence)
    case _ => []
  }

  lemma CursorAdvances(rows: Rows, after: Option<int>)
    requires NextChunk(rows, after).ChunkOf?
    ensures var last := NextChunk(rows, after).last;
            && last in rows && !Passed(after, last)
            && |Beyond(rows.Keys, Some(last))| < |Beyond(rows.Keys, after)|
  {
    ChunkIsPrefix(rows, after);
    var ids := IdsAfter(rows, after);
    var n :| 0 < n <= |ids| && NextChunk(rows, after) == ChunkOf(ItemsOf(rows, ids)[..n], ids[n - 1]);
    var last := ids[n - 1];
    assert last in ids;
    var before, left := Beyond(rows.Keys, after), Beyond(rows.Keys, Some(last));
    assert left <= before - {last};
    SubsetSmaller(left, before - {last});
  }

  lemma {:induction false} SubsetSmaller(a: set<int>, b: set<int>)
    requires a <= b
    ensures |a| <= |b|
  {
    assert b == a + (b - a);
    assert |a + (b - a)| == |a| + |b - a|;
  }

  /** No row behind a cursor is too large for a chunk of its own. */
  predicate RowsFit(rows: Rows, after: Option<int>) {
    forall id :: id in rows && !Passed(after, id) ==> 77 + Digits(0) + rows[id].bytes <= SESSION_CHUNK_MAX_BYTES
  }

  lemma FittingRowsPack(rows: Rows, after: Option<int>)
    requires RowsFit(rows, after)
    ensures !NextChunk(rows, after).Oversize?
  {
    var items, ids := ItemsAfter(rows, after), IdsAfter(rows, after);
    if items != [] {
      assert items[0..0 + 1] == [items[0]];
      assert ids[0] in ids;
    }
  }

  lemma FitStays(rows: Rows, after: Option<int>, last: int)
    requires RowsFit(rows, after) && !Passed(after, last)
    ensures RowsFit(rows, Some(last))
  {
  }

  lemma {:induction false} ChunksRebuildRows(base: Rows, rows: Rows, after: Option<int>, sequence: u64)
    requires RowsFit(rows, after)
    ensures AfterFrames(base, ChunkFrames(rows, after, sequence)) == base + RowsAfter(rows, after)
    decreases |Beyond(rows.Keys, after)|
  {
    hide NextChunk, RowsFit, RowsAfter, Ingest;
    FittingRowsPack(rows, after);
    match NextChunk(rows, after)
    case NoRows =>
      NoRowsMeansNone(rows, after);
      assert base + RowsAfter(rows, after) == base;
    case ChunkOf(items, last) =>
      CursorAdvances(rows, after);
      FitStays(rows, after, last);
      FramesCons(base, SnapshotChunk(sequence, items), ChunkFrames(rows, Some(last), sequence));
      ChunksRebuildRows(Ingest(base, items), rows, Some(last), sequence);
      ChunkSplitsRows(base, rows, after);
  }

  /** Every frame consumer `k` would still be sent if nothing else changed. */
  function OwedFrames(h: Hub, k: int): seq<Frame>
    requires k in h.bridge.table.consumers
  {
    var c := h.bridge.table.consumers[k];
    c.pending
    + (if c.needChunks then ChunkFrames(h.projection.rows, c.after, c.sequence) + [SnapshotEnd(c.sequence)] else [])
    + (c.held + OwedTo(h.bridge.fanout, k))
  }

  /** The chunks a consumer is still owed can all be packed. */
  predicate ChunksFit(h: Hub, k: int)
    requires k in h.bridge.table.consumers
  {
    var c := h.bridge.table.consumers[k];
    c.needChunks ==> RowsFit(h.projection.rows, c.after)
  }

  lemma OutlookIsOwedFrames(h: Hub, k: int)
    requires k in h.bridge.table.consumers && ChunksFit(h, k)
    ensures AfterFrames(Replica(LogAt(h.bridge.table, k)), OwedFrames(h, k))
            == Outlook(h.bridge.table.consumers[k], LogAt(h.bridge.table, k), h.projection.rows, OwedTo(h.bridge.fanout, k))
  {
    hide ChunkFrames, NextChunk, RowsFit, OwedTo, FramesOf;
    var c, rows := h.bridge.table.consumers[k], h.projection.rows;
    var m := Replica(LogAt(h.bridge.table, k));
    var chunks := if c.needChunks then ChunkFrames(rows, c.after, c.sequence) + [SnapshotEnd(c.sequence)] else [];
    var tail := c.held + OwedTo(h.bridge.fanout, k);
    var queued := AfterFrames(m, c.pending);
    FramesSplit(m, c.pending + chunks, tail);
    FramesSplit(m, c.pending, chunks);
    if c.needChunks {
      ChunksRebuildRows(queued, rows, c.after, c.sequence);
      FramesSnoc(queued, ChunkFrames(rows, c.after, c.sequence), SnapshotEnd(c.sequence));
    }
  }

  // ------------------------------------------------------------ theorems

  lemma SafeConverges(h: Hub, k: int)
    requires Safe(h) && h.projection.complete && k in h.bridge.table.consumers && !h.bridge.table.consumers[k].gap
    requires ChunksFit(h, k)
    ensures AfterFrames(Replica(LogAt(h.bridge.table, k)), OwedFrames(h, k)) == h.projection.rows
  {
    hide OwedFrames, Outlook, ChunksFit, Coherent, AllSound, FanoutExact, PassOrder;
    OutlookIsOwedFrames(h, k);
  }

  /**
   Replica convergence: in every run, whatever a consumer outside a gap was
   sent, followed by whatever it is still owed, folds to exactly the
   projection's rows.
   */
  lemma ReplicasConverge(worlds: seq<World>, steps: seq<Step>, i: nat, k: int)
    requires IsRun(worlds, steps) && i < |worlds|
    requires var h := worlds[i].hub;
             && h.projection.complete && k in h.bridge.table.consumers && !h.bridge.table.consumers[k].gap
             && ChunksFit(h, k)
    ensures var h := worlds[i].hub;
            AfterFrames(Replica(LogAt(h.bridge.table, k)), OwedFrames(h, k)) == h.projection.rows
  {
    hide OwedFrames, ChunksFit, IsRun, TableSafe, FanoutExact, PassOrder;
    RunKeepsInvariant(worlds, steps, i);
    SafeConverges(worlds[i].hub, k);
  }

  /** A consumer with nothing left to send or to hear about. */
  predicate Settled(c: Consumer) {
    c.complete && !c.gap && c.pending == [] && c.held == [] && c.inFlight.None?
  }

  lemma SafeSettled(h: Hub, k: int)
    requires Safe(h) && h.projection.complete && h.bridge.fanout == []
    requires k in h.bridge.table.consumers && Settled(h.bridge.table.consumers[k])
    ensures Replica(LogAt(h.bridge.table, k)) == h.projection.rows
  {
    hide Coherent, FanoutExact, PassOrder;
    var c := h.bridge.table.consumers[k];
    assert Sound(c, LogAt(h.bridge.table, k));
    assert OwedTo(h.bridge.fanout, k) == [];
    assert c.held + [] == [];
  }

  /** A settled consumer holds the projection exactly, whatever its history. */
  lemma SettledReplicaIsExact(worlds: seq<World>, steps: seq<Step>, i: nat, k: int)
    requires IsRun(worlds, steps) && i < |worlds|
    requires var h := worlds[i].hub;
             && h.projection.complete && h.bridge.fanout == []
             && k in h.bridge.table.consumers && Settled(h.bridge.table.consumers[k])
    ensures Replica(LogAt(worlds[i].hub.bridge.table, k)) == worlds[i].hub.projection.rows
  {
    hide IsRun, TableSafe, FanoutExact, PassOrder;
    RunKeepsInvariant(worlds, steps, i);
    SafeSettled(worlds[i].hub, k);
  }

  /** Once recovery is over and no row faulted it, no consumer is left gapped. */
  lemma NoConsumerForgotten(worlds: seq<World>, steps: seq<Step>, i: nat, k: int)
    requires IsRun(worlds, steps) && i < |worlds|
    requires var h := worlds[i].hub;
             && h.projection.complete && !h.faulted && h.bridge.startSequence.None? && k in h.bridge.table.consumers
    ensures !worlds[i].hub.bridge.table.consumers[k].gap
  {
    hide IsRun, TableSafe, FanoutExact;
    RunKeepsInvariant(worlds, steps, i);
  }

  /** The observed stream of every consumer obeys the snapshot grammar, with at most one frame in flight. */
  lemma GrammarNeverBroken(worlds: seq<World>, steps: seq<Step>, i: nat, k: int)
    requires IsRun(worlds, steps) && i < |worlds| && k in worlds[i].hub.bridge.table.consumers
    ensures var t := worlds[i].hub.bridge.table;
            CourseOf(LogAt(t, k)) == Course(StageOf(t.consumers[k]), t.consumers[k].inFlight.Some?)
            && !CourseOf(LogAt(t, k)).stage.Broken?
  {
    hide IsRun, Coherent, FanoutExact, PassOrder, Converging;
    RunKeepsInvariant(worlds, steps, i);
    var t := worlds[i].hub.bridge.table;
    assert Sound(t.consumers[k], LogAt(t, k));
  }

  lemma {:induction false} BrokenStays(log: seq<Event>, n: nat)
    requires n <= |log| && CourseOf(log[..n]).stage.Broken?
    ensures CourseOf(log).stage.Broken?
    decreases |log| - n
  {
    if n < |log| {
      assert log[..n + 1][..n] == log[..n];
      BrokenStays(log, n + 1);
    } else {
      assert log[..n] == log;
    }
  }

  /** Positions `a <= x < b` of the log hold no gap and no snapshot frame. */
  ghost predicate OnlyDeltas(log: seq<Event>, a: int, b: int) {
    forall x :: a <= x < b && 0 <= x < |log| ==> log[x].Delivered? || (log[x].Sent? && log[x].frame.EntityDelta?)
  }

  /** Before a live stage lies a delivered end frame with only deltas since. */
  lemma {:induction false} LiveFollowsEnd(log: seq<Event>)
    requires CourseOf(log).stage.Live?
    ensures exists e :: 0 <= e && e + 1 < |log| && log[e].Sent? && log[e].frame.SnapshotEnd? && log[e + 1].Delivered?
                        && OnlyDeltas(log, e + 2, |log|)
    decreases |log|
  {
    var n := |log| - 1;
    var init := log[..n];
    if CourseOf(init).stage.Live? {
      LiveFollowsEnd(init);
      var e :| 0 <= e && e + 1 < |init| && init[e].Sent? && init[e].frame.SnapshotEnd? && init[e + 1].Delivered?
               && OnlyDeltas(init, e + 2, |init|);
      forall x | e + 2 <= x < |log| ensures log[x].Delivered? || (log[x].Sent? && log[x].frame.EntityDelta?) {
        if x < n { assert init[x] == log[x]; }
      }
      assert OnlyDeltas(log, e + 2, |log|);
    } else {
      ClosingEndsWithEnd(init);
      assert OnlyDeltas(log, n + 1, |log|);
    }
  }

  /** A closing course ends with its end frame. */
  lemma ClosingEndsWithEnd(log: seq<Event>)
    requires CourseOf(log).stage.Closing?
    ensures log != [] && log[|log| - 1].Sent? && log[|log| - 1].frame.SnapshotEnd?
    ensures CourseOf(log).flying
  {
    var n := |log| - 1;
    if CourseOf(log[..n]).stage.Closing? {
      ClosingEndsWithEnd(log[..n]);
    }
  }

  /**
   The snapshot fence: in every run, a delta is sent only after the end frame
   of a snapshot was delivered, with no gap and no new snapshot in between.
   */
  lemma DeltaOnlyAfterDeliveredEnd(worlds: seq<World>, steps: seq<Step>, i: nat, k: int, d: nat)
    requires IsRun(worlds, steps) && i < |worlds| && k in worlds[i].hub.bridge.table.consumers
    requires var log := LogAt(worlds[i].hub.bridge.table, k);
             d < |log| && log[d].Sent? && log[d].frame.EntityDelta?
    ensures var log := LogAt(worlds[i].hub.bridge.table, k);
            exists e :: 0 <= e && e + 1 < d && log[e].Sent? && log[e].frame.SnapshotEnd? && log[e + 1].Delivered?
                        && OnlyDeltas(log, e + 2, d)
  {
    hide IsRun;
    GrammarNeverBroken(worlds, steps, i, k);
    FenceOfLog(LogAt(worlds[i].hub.bridge.table, k), d);
  }

  lemma FenceOfLog(log: seq<Event>, d: nat)
    requires !CourseOf(log).stage.Broken? && d < |log| && log[d].Sent? && log[d].frame.EntityDelta?
    ensures exists e :: 0 <= e && e + 1 < d && log[e].Sent? && log[e].frame.SnapshotEnd? && log[e + 1].Delivered?
                        && OnlyDeltas(log, e + 2, d)
  {
    if CourseOf(log[..d + 1]).stage.Broken? {
      BrokenStays(log, d + 1);
    }
    assert log[..d + 1][..d] == log[..d];
    LiveFollowsEnd(log[..d]);
    var e :| 0 <= e && e + 1 < |log[..d]| && log[..d][e].Sent? && log[..d][e].frame.SnapshotEnd?
             && log[..d][e + 1].Delivered? && OnlyDeltas(log[..d], e + 2, |log[..d]|);
    forall x | e + 2 <= x < d && 0 <= x < |log| ensures log[x].Delivered? || (log[x].Sent? && log[x].frame.EntityDelta?) {
      assert log[..d][x] == log[x];
    }
    assert log[e] == log[..d][e] && log[e + 1] == log[..d][e + 1];
    assert OnlyDeltas(log, e + 2, d);
  }

  /** Every index is exact and every queue is within its bounds, in every run. */
  lemma IndexesAlwaysExact(worlds: seq<World>, steps: seq<Step>, i: nat)
    requires IsRun(worlds, steps) && i < |worlds|
    ensures var b := worlds[i].hub.bridge;
            && Coherent(b.table, b.stamp)
            && b.fanoutBytes == JobBytes(b.fanout) && b.fanoutBytes <= FANOUT_QUEUE_MAX_BYTES
            && |b.fanout| <= FANOUT_QUEUE_MAX_ITEMS
            && (forall k :: k in b.table.consumers ==> QueueBounded(b.table.consumers[k]))
  {
    hide IsRun, Coherent, PassOrder, Converging;
    RunKeepsInvariant(worlds, steps, i);
    var t := worlds[i].hub.bridge.table;
    forall k | k in t.consumers ensures QueueBounded(t.consumers[k]) {
      assert Sound(t.consumers[k], LogAt(t, k));
    }
  }

  /** Work is never stranded: while any is left, the HostBridge wake bit is set. */
  lemma WorkIsAlwaysMarked(worlds: seq<World>, steps: seq<Step>, i: nat)
    requires IsRun(worlds, steps) && i < |worlds|
    ensures HasWork(worlds[i].hub) ==> worlds[i].hub.marked
  {
    hide IsRun, Safe;
    RunKeepsInvariant(worlds, steps, i);
  }

  /**
   No lost wake: if the engine released at any time after the epoch read that
   preceded a parked consumer's refusal, the next signal check returns every
   parked consumer to the ready set and marks the bridge.
   */
  lemma NoLostWake(worlds: seq<World>, steps: seq<Step>, i: nat, k: int)
    requires IsRun(worlds, steps) && i < |worlds|
    requires var w := worlds[i];
             && k in w.hub.bridge.table.parked && k in w.hub.bridge.table.refusedAt
             && w.hub.bridge.table.refusedAt[k] < w.epoch
    ensures var t, h' := worlds[i].hub.bridge.table, Next(worlds[i], CheckSignals).hub;
            h'.bridge.table.parked == {} && t.parked <= h'.bridge.table.ready && h'.marked
  {
    hide IsRun, AllSound, Converging, FanoutExact, PassOrder, UnparkAll;
    RunKeepsInvariant(worlds, steps, i);
    UnparkAllEffect(worlds[i].hub.bridge.table, worlds[i].hub.bridge.stamp);
  }

  /** A turn offers a frame only after its own gap and snapshot-start passes finished. */
  lemma OffersFollowFinishedPasses(h: Hub, input: BridgeInput)
    requires Safe(h) && HostBridgeSlice(h, input).bridge.stamp != h.bridge.stamp
    ensures var (h', _, spent) := BridgePasses(h.(marked := false), input.registry, input.fuel);
            !spent && !h'.bridge.needGapPass && h'.bridge.startSequence.None?
  {
    hide Safe, BridgePasses;
    SafeIgnoresMark(h, false);
    BridgePassesSafe(h.(marked := false), input.registry, input.fuel);
  }

  // ------------------------------------------------- cancelled requests

  lemma CompleteFlights(h: Hub, request: RequestId, success: bool)
    ensures OnlyNewFlights(h.bridge, Complete(h, request, success).bridge)
  {
    hide Touch, MarkGap, Landed;
    var t := h.bridge.table;
    if request in t.flights {
      var k := t.flights[request];
      var t1 := t.(flights := t.flights - {request});
      if k in t.consumers {
        TouchQuiet(t1, k, Landed(t1.consumers[k], success));
      }
      var t2 := Land(t, k, request, success);
      assert t2.flights == t1.flights;
      GapFlights(t2, k);
    }
  }

  lemma GapFlights(t: Table, k: int)
    ensures MarkGap(t, k).flights.Keys <= t.flights.Keys
  {
    hide Touch, Unpark, Gapped;
    var flight := ConsumerAt(t, k).inFlight;
    var t1 := if flight.Some? then t.(flights := t.flights - {flight.value.request}) else t;
    UnparkQuiet(t1, k);
    var t2 := Unpark(t1, k);
    TouchQuiet(t2, k, Gapped(ConsumerAt(t2, k)));
  }

  lemma {:induction false} ApplyFlights(h: Hub, n: nat)
    ensures ApplyUpTo(h, n).bridge.table == h.bridge.table && ApplyUpTo(h, n).bridge.stamp == h.bridge.stamp
    decreases n
  {
    if n > 0 && h.changes != [] {
      ApplyFlights(ApplyOne(h), n - 1);
    }
  }

  /** A step opens a flight only under the next serial. */
  lemma StepFlights(w: World, step: Step)
    ensures OnlyNewFlights(w.hub.bridge, Next(w, step).hub.bridge)
  {
    hide HostBridgeSlice, Complete, ApplyUpTo, UnparkAll;
    match step
    case RunBridge(registry, fuel, outcome) => TurnFlights(w.hub, BridgeInput(registry, fuel, outcome, w.epoch));
    case Finish(request, success) => CompleteFlights(w.hub, request, success);
    case ApplyChanges => ApplyFlights(w.hub, APPLY_MAX_CHANGES);
    case CheckSignals => UnparkAllFlights(w.hub.bridge.table);
    case _ =>
  }

  lemma UnparkAllFlights(t: Table)
    ensures UnparkAll(t).flights == t.flights
  {
  }

  lemma {:induction false} FlightsWereIssued(worlds: seq<World>, steps: seq<Step>, i: nat, request: RequestId)
    requires IsCodeRun(worlds, steps) && i < |worlds| && request in worlds[i].hub.bridge.table.flights
    ensures request.serial <= worlds[i].hub.bridge.stamp.serial
    decreases i
  {
    hide Next;
    if i > 0 {
      assert worlds[i - 1 + 1] == Next(worlds[i - 1], steps[i - 1]);
      StepFlights(worlds[i - 1], steps[i - 1]);
      if request in worlds[i - 1].hub.bridge.table.flights {
        FlightsWereIssued(worlds, steps, i - 1, request);
      }
    }
  }

  lemma {:induction false} SerialsRise(worlds: seq<World>, steps: seq<Step>, i: nat, j: nat)
    requires IsCodeRun(worlds, steps) && i <= j < |worlds|
    ensures worlds[i].hub.bridge.stamp.serial <= worlds[j].hub.bridge.stamp.serial
    decreases j
  {
    hide Next;
    if i < j {
      assert worlds[j - 1 + 1] == Next(worlds[j - 1], steps[j - 1]);
      StepFlights(worlds[j - 1], steps[j - 1]);
      SerialsRise(worlds, steps, i, j - 1);
    }
  }

  /**
   A request that was in flight and is no longer, whether it landed or was
   cancelled by a gap or a prune, never flies again: its completion, however
   late and after however many new requests, changes nothing.
   */
  lemma {:induction false} CancelledCompletionIsInert(worlds: seq<World>, steps: seq<Step>, i: nat, j: nat, m: nat,
                                                      request: RequestId, success: bool)
    requires IsCodeRun(worlds, steps) && i <= j <= m < |worlds|
    requires request in worlds[i].hub.bridge.table.flights && request !in worlds[j].hub.bridge.table.flights
    ensures request !in worlds[m].hub.bridge.table.flights
    ensures Complete(worlds[m].hub, request, success) == worlds[m].hub
    decreases m
  {
    hide Next;
    if j < m {
      CancelledCompletionIsInert(worlds, steps, i, j, m - 1, request, success);
      assert worlds[m - 1 + 1] == Next(worlds[m - 1], steps[m - 1]);
      StepFlights(worlds[m - 1], steps[m - 1]);
      FlightsWereIssued(worlds, steps, i, request);
      SerialsRise(worlds, steps, i, m - 1);
    }
  }

  // ----------------------------------------------------- stray pages

  /** A page of an earlier recovery that lands under a pending gap pass breaks the order of passes if and only if it seals. */
  lemma StrayPageBreaksOrderIff(h: Hub, page: BaselinePage)
    requires Safe(h) && h.bridge.needGapPass
    ensures PassOrder(ApplyBaseline(h, PageRead(page))) <==> !page.complete
    ensures Safe(ApplyBaseline(h, PageRead(page))) <==> !page.complete
  {
    ApplyBaselineSafe(h, PageRead(page));
    hide TableSafe, FanoutExact;
  }
}
