/**
 The bridge's safety invariant and its preservation by every operation:
 index coherence, the snapshot grammar each consumer observes, queue bounds,
 the order of recovery passes, and convergence of every replica.
 */
module FamilySafety {
  import opened Ordered
  import opened SessionFamily
  import opened FamilyReplica
  import opened FamilyIndex

  // ------------------------------------------------------------- grammar

  /** Where a consumer stands in `Begin Chunk* End Delta*`. */
  datatype Stage = Broken | Idle | Open(sequence: u64) | Closing(sequence: u64) | Live

  /** A stage, and whether a frame is in flight. */
  datatype Course = Course(stage: Stage, flying: bool)

  const BROKEN := Course(Broken, false)

  /** The only legal continuations; anything else is broken for good. */
  function Advance(c: Course, e: Event): Course {
    if c.stage.Broken? then BROKEN
    else
      match e
      case GapMarked => Course(Idle, false)
      case Delivered => if !c.flying then BROKEN else Course(if c.stage.Closing? then Live else c.stage, false)
      case Sent(frame) =>
        if c.flying then BROKEN
        else
          match frame
          case SnapshotBegin(q) => if c.stage.Idle? then Course(Open(q), true) else BROKEN
          case SnapshotChunk(q, items) => if c.stage == Open(q) && items != [] then Course(Open(q), true) else BROKEN
          case SnapshotEnd(q) => if c.stage == Open(q) then Course(Closing(q), true) else BROKEN
          case EntityDelta(_) => if c.stage.Live? then Course(Live, true) else BROKEN
  }

  function CourseOf(log: seq<Event>): Course {
    if log == [] then Course(Idle, false) else Advance(CourseOf(log[..|log| - 1]), log[|log| - 1])
  }

  lemma CourseSnoc(log: seq<Event>, e: Event)
    ensures CourseOf(log + [e]) == Advance(CourseOf(log), e)
  {
    assert (log + [e])[..|log + [e]| - 1] == log;
  }

  // ------------------------------------------------------- one consumer

  predicate AwaitsBegin(c: Consumer) {
    c.pending == [SnapshotBegin(c.sequence)]
  }

  /** The states one consumer can be in. */
  ghost predicate Shape(c: Consumer) {
    && (c.gap ==> c.pending == [] && c.held == [] && c.inFlight.None? && !c.needChunks && !c.complete)
    && (!c.gap && c.needChunks ==> !c.complete && (c.pending == [] || (AwaitsBegin(c) && c.inFlight.None? && c.after.None?)))
    && (!c.gap && !c.needChunks && !c.complete ==> c.pending == [] && c.inFlight.Some?)
    && (c.complete ==> !c.needChunks && c.held == [] && AllDeltas(c.pending))
    && AllDeltas(c.held)
    && (c.inFlight.Some? ==> c.inFlight.value.sequence == c.sequence)
    && (c.inFlight.Some? ==> (c.inFlight.value.kind == End <==> !c.needChunks && !c.complete))
  }

  /** The stage a consumer's fields stand for. */
  function StageOf(c: Consumer): Stage {
    if c.gap || AwaitsBegin(c) then Idle
    else if c.needChunks then Open(c.sequence)
    else if c.complete then Live
    else Closing(c.sequence)
  }

  ghost predicate QueueBounded(c: Consumer) {
    && |c.pending| + |c.held| <= FAMILY_QUEUE_MAX_ITEMS
    && QueueBytes(c.pending) + QueueBytes(c.held) <= FAMILY_QUEUE_MAX_BYTES
  }

  ghost predicate Sound(c: Consumer, log: seq<Event>) {
    Shape(c) && QueueBounded(c) && CourseOf(log) == Course(StageOf(c), c.inFlight.Some?)
  }

  // -------------------------------------------------------------- fanout

  function FramesOf(jobs: seq<Job>): (frames: seq<Frame>)
    ensures |frames| == |jobs|
    ensures forall i :: 0 <= i < |jobs| ==> frames[i] == EntityDelta(jobs[i].change)
  {
    if jobs == [] then [] else FramesOf(jobs[..|jobs| - 1]) + [EntityDelta(jobs[|jobs| - 1].change)]
  }

  function JobBytes(jobs: seq<Job>): nat {
    if jobs == [] then 0 else jobs[0].bytes + JobBytes(jobs[1..])
  }

  /** The deltas the fanout queue still owes consumer `k`: the front job counts until it passed `k`. */
  function OwedTo(jobs: seq<Job>, k: int): seq<Frame> {
    if jobs != [] && Passed(jobs[0].after, k) then FramesOf(jobs[1..]) else FramesOf(jobs)
  }

  ghost predicate FanoutExact(jobs: seq<Job>, bytes: nat) {
    && |jobs| <= FANOUT_QUEUE_MAX_ITEMS && bytes == JobBytes(jobs) && bytes <= FANOUT_QUEUE_MAX_BYTES
    && (forall i :: 0 < i < |jobs| ==> jobs[i].after.None?)
    && (forall i :: 0 <= i < |jobs| ==> !jobs[i].change.Unrecognized?)
  }

  // --------------------------------------------------------- all of them

  ghost predicate AllSound(t: Table) {
    forall k :: k in t.consumers ==> Sound(t.consumers[k], LogAt(t, k))
  }

  /** What each ungapped consumer was sent, then what it is owed, is exactly the projection. */
  ghost predicate Converging(t: Table, rows: Rows, jobs: seq<Job>) {
    && Absorbed(rows, FramesOf(jobs))
    && (forall k :: k in t.consumers && !t.consumers[k].gap ==>
          Outlook(t.consumers[k], LogAt(t, k), rows, OwedTo(jobs, k)) == rows)
  }

  ghost predicate TableSafe(t: Table, stamp: Stamp, p: Projection, jobs: seq<Job>) {
    && Coherent(t, stamp) && AllSound(t)
    && (p.complete ==> Converging(t, p.rows, jobs))
  }

  /** Which passes may be pending together, and what each has already done. */
  ghost predicate PassOrder(h: Hub) {
    var b := h.bridge;
    var cs := b.table.consumers;
    && (b.needGapPass ==> !h.projection.complete && h.recovery.None?)
    && (h.recovery.Some? ==> !h.projection.complete)
    && (!h.projection.complete ==> b.fanout == [] && b.startSequence.None?)
    && (!h.projection.complete && !b.needGapPass ==> forall k :: k in cs ==> cs[k].gap)
    && (b.needGapPass ==> forall k :: k in cs && Passed(b.gapAfter, k) ==> cs[k].gap)
    && (b.startSequence.Some? ==> forall k :: k in cs ==> cs[k].gap || AwaitsBegin(cs[k]))
    && (h.projection.complete && !h.faulted ==>
          forall k :: k in cs && cs[k].gap ==> b.startSequence.Some? && !Passed(b.startAfter, k))
  }

  ghost predicate Safe(h: Hub) {
    && TableSafe(h.bridge.table, h.bridge.stamp, h.projection, h.bridge.fanout)
    && FanoutExact(h.bridge.fanout, h.bridge.fanoutBytes)
    && PassOrder(h)
  }

  // ---------------------------------------------------- one-consumer steps

  /** Replacing one sound, converging consumer keeps the table safe. */
  lemma ReplaceOne(t: Table, t': Table, k: int, c: Consumer, stamp: Stamp, stamp': Stamp, p: Projection, jobs: seq<Job>)
    requires TableSafe(t, stamp, p, jobs) && Coherent(t', stamp')
    requires t'.consumers == t.consumers[k := c]
    requires forall x :: x != k ==> LogAt(t', x) == LogAt(t, x)
    requires Sound(c, LogAt(t', k))
    requires p.complete && !c.gap ==> Outlook(c, LogAt(t', k), p.rows, OwedTo(jobs, k)) == p.rows
    ensures TableSafe(t', stamp', p, jobs)
  {
  }

  lemma GappedSound(c: Consumer, log: seq<Event>)
    requires Sound(c, log)
    ensures Sound(Gapped(c), log + [GapMarked])
  {
    CourseSnoc(log, GapMarked);
  }

  lemma MarkGapSafe(t: Table, k: int, stamp: Stamp, p: Projection, jobs: seq<Job>)
    requires TableSafe(t, stamp, p, jobs) && k in t.consumers
    ensures var t' := MarkGap(t, k);
            && TableSafe(t', stamp, p, jobs)
            && t'.consumers == t.consumers[k := Gapped(t.consumers[k])]
  {
    MarkGapEffect(t, k, stamp);
    GappedSound(t.consumers[k], LogAt(t, k));
    ReplaceOne(t, MarkGap(t, k), k, Gapped(t.consumers[k]), stamp, stamp, p, jobs);
  }

  lemma BegunSound(c: Consumer, sequence: u64, log: seq<Event>)
    requires Sound(c, log) && (c.gap || AwaitsBegin(c)) && c.inFlight.None?
    ensures Sound(Begun(c, sequence), log)
  {
    assert QueueBytes([SnapshotBegin(sequence)]) == QueueBytes([]) + FrameBytes(SnapshotBegin(sequence)) by {
      assert [SnapshotBegin(sequence)][..0] == [];
    }
  }

  lemma OwedAbsorbed(rows: Rows, jobs: seq<Job>, k: int)
    requires Absorbed(rows, FramesOf(jobs))
    ensures Absorbed(rows, OwedTo(jobs, k))
  {
    if jobs != [] {
      assert FramesOf(jobs)[1..] == FramesOf(jobs[1..]);
      AbsorbedTail(rows, FramesOf(jobs));
    }
  }

  lemma BeginSnapshotSafe(t: Table, k: int, sequence: u64, stamp: Stamp, p: Projection, jobs: seq<Job>)
    requires TableSafe(t, stamp, p, jobs) && k in t.consumers
    requires t.consumers[k].gap || AwaitsBegin(t.consumers[k])
    ensures var t' := BeginSnapshot(t, k, sequence);
            && TableSafe(t', stamp, p, jobs)
            && t'.consumers == t.consumers[k := Begun(t.consumers[k], sequence)]
  {
    var c := t.consumers[k];
    BeginSnapshotEffect(t, k, sequence, stamp);
    BegunSound(c, sequence, LogAt(t, k));
    if p.complete {
      OwedAbsorbed(p.rows, jobs, k);
      OutlookOfBegun(c, sequence, LogAt(t, k), p.rows, OwedTo(jobs, k));
    }
    ReplaceOne(t, BeginSnapshot(t, k, sequence), k, Begun(c, sequence), stamp, stamp, p, jobs);
  }

  lemma WithDeltaSound(c: Consumer, change: Change, log: seq<Event>)
    requires Sound(c, log)
    ensures Sound(WithDelta(c, change), log)
  {
    var d := EntityDelta(change);
    assert (c.pending + [d])[..|c.pending|] == c.pending;
    assert (c.held + [d])[..|c.held|] == c.held;
  }

  // -------------------------------------------------------------- fanout

  /** Whether `k` is the first consumer the cursor has not passed. */
  ghost predicate NextAfter(consumers: map<int, Consumer>, after: Option<int>, k: int) {
    k in consumers && !Passed(after, k) && forall x :: x in consumers && !Passed(after, x) ==> k <= x
  }

  /** Only the next consumer's debt changes when the front job's cursor moves to it. */
  lemma CursorMoves(consumers: map<int, Consumer>, job: Job, rest: seq<Job>, k: int)
    requires NextAfter(consumers, job.after, k)
    ensures forall x :: x in consumers && x != k ==>
              OwedTo([job.(after := Some(k))] + rest, x) == OwedTo([job] + rest, x)
    ensures OwedTo([job] + rest, k) == [EntityDelta(job.change)] + OwedTo([job.(after := Some(k))] + rest, k)
    ensures FramesOf([job.(after := Some(k))] + rest) == FramesOf([job] + rest)
  {
    hide FramesOf;
    var jobs := [job] + rest;
    var jobs' := [job.(after := Some(k))] + rest;
    assert jobs[1..] == rest && jobs'[1..] == rest;
    assert FramesOf(jobs) == FramesOf(jobs');
    assert FramesOf(jobs) == [EntityDelta(job.change)] + FramesOf(rest);
  }

  /** The consumer stays sound, and its debt shrinks by the delta it took or by a restart. */
  lemma OfferedSound(c: Consumer, log: seq<Event>, change: Change, p: Projection, owed: seq<Frame>)
    requires Sound(c, log) && Absorbed(p.rows, owed)
    requires !c.gap ==> Outlook(c, log, p.rows, [EntityDelta(change)] + owed) == p.rows
    ensures var c', log' := Offered(c, change, p), OfferedLog(c, change, log);
            Sound(c', log') && (!c'.gap ==> Outlook(c', log', p.rows, owed) == p.rows)
  {
    if c.gap || DeltaFits(c, change) {
      WithDeltaSound(c, change, log);
      if !c.gap {
        OutlookOfQueued(c, log, p.rows, change, owed);
      }
    } else {
      GappedSound(c, log);
      BegunSound(Gapped(c), CursorSequence(p), log + [GapMarked]);
      OutlookOfBegun(Gapped(c), CursorSequence(p), log + [GapMarked], p.rows, owed);
    }
  }

  /** `ReplaceOne` when the replaced consumer's debt moves with it. */
  lemma ReplaceOneMoving(t: Table, t': Table, k: int, c: Consumer, stamp: Stamp, p: Projection, jobs: seq<Job>, jobs': seq<Job>)
    requires TableSafe(t, stamp, p, jobs) && Coherent(t', stamp) && p.complete
    requires FramesOf(jobs') == FramesOf(jobs)
    requires t'.consumers == t.consumers[k := c]
    requires forall x :: x != k ==> LogAt(t', x) == LogAt(t, x)
    requires forall x :: x in t.consumers && x != k ==> OwedTo(jobs', x) == OwedTo(jobs, x)
    requires Sound(c, LogAt(t', k))
    requires !c.gap ==> Outlook(c, LogAt(t', k), p.rows, OwedTo(jobs', k)) == p.rows
    ensures TableSafe(t', stamp, p, jobs')
  {
  }

  lemma OfferedTableSafe(t: Table, t': Table, k: int, job: Job, rest: seq<Job>, stamp: Stamp, p: Projection)
    requires p.complete && TableSafe(t, stamp, p, [job] + rest) && Coherent(t', stamp)
    requires NextAfter(t.consumers, job.after, k)
    requires t'.consumers == t.consumers[k := Offered(t.consumers[k], job.change, p)]
    requires LogAt(t', k) == OfferedLog(t.consumers[k], job.change, LogAt(t, k))
    requires forall x :: x != k ==> LogAt(t', x) == LogAt(t, x)
    ensures TableSafe(t', stamp, p, [job.(after := Some(k))] + rest)
  {
    var c := t.consumers[k];
    var jobs' := [job.(after := Some(k))] + rest;
    CursorMoves(t.consumers, job, rest, k);
    OwedAbsorbed(p.rows, jobs', k);
    OfferedSound(c, LogAt(t, k), job.change, p, OwedTo(jobs', k));
    ReplaceOneMoving(t, t', k, Offered(c, job.change, p), stamp, p, [job] + rest, jobs');
  }

  /** One consumer's turn: its delta is queued, or it restarts from the live projection. */
  lemma OfferDeltaSafe(t: Table, k: int, job: Job, rest: seq<Job>, stamp: Stamp, p: Projection)
    requires p.complete && TableSafe(t, stamp, p, [job] + rest)
    requires NextAfter(t.consumers, job.after, k)
    ensures var t' := OfferDelta(t, k, job.change, p);
            && TableSafe(t', stamp, p, [job.(after := Some(k))] + rest)
            && t'.consumers == t.consumers[k := Offered(t.consumers[k], job.change, p)]
  {
    OfferDeltaEffect(t, k, job.change, p, stamp);
    OfferedTableSafe(t, OfferDelta(t, k, job.change, p), k, job, rest, stamp, p);
  }
}
