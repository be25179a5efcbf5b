/** Admission, completion, recovery, projection and signal steps keep the safety invariant. */
module FamilySteps {
  import opened Ordered
  import opened SessionFamily
  import opened FamilyReplica
  import opened FamilyIndex
  import opened FamilySafety
  import opened FamilyPasses

  // ----------------------------------------------------------- admission

  lemma {:induction false} QueueBytesTail(frames: seq<Frame>)
    requires frames != []
    ensures QueueBytes(frames[1..]) <= QueueBytes(frames)
  {
    if |frames| > 1 {
      var n := |frames| - 1;
      QueueBytesTail(frames[..n]);
      assert frames[..n][1..] == frames[1..][..n - 1];
    }
  }

  lemma {:induction false} QueueBytesJoin(a: seq<Frame>, b: seq<Frame>)
    ensures QueueBytes(a + b) == QueueBytes(a) + QueueBytes(b)
    decreases |b|
  {
    if b == [] {
      assert a + b == a;
    } else {
      QueueBytesJoin(a, b[..|b| - 1]);
      assert (a + b)[..|a + b| - 1] == a + b[..|b| - 1];
    }
  }

  /** Sending the peeked frame is the next legal move in the grammar. */
  lemma SentSound(c: Consumer, log: seq<Event>, rows: Rows, request: RequestId)
    requires Sound(c, log) && Admittable(c) && !Peek(c, rows).TooLarge?
    ensures var p := Peek(c, rows);
            && (p.Queued? || p.ChunkFrame? || p.EndFrame?) && !c.gap
            && Sound(Committed(c, p).(inFlight := Some(Flight(request, c.sequence, KindOf(p.frame)))), log + [Sent(p.frame)])
  {
    hide NextChunk, QueueBytes;
    var p := Peek(c, rows);
    CourseSnoc(log, Sent(p.frame));
    if c.pending != [] {
      QueueBytesTail(c.pending);
      QueueBytesEmpty();
      if AwaitsBegin(c) {
        assert c.pending[1..] == [];
      } else {
        assert c.complete && c.pending[0].EntityDelta? && AllDeltas(c.pending[1..]);
        assert |c.pending| > 1 ==> c.pending[1..][0].EntityDelta?;
      }
    } else {
      ChunkNonEmpty(rows, c.after);
    }
  }

  lemma QueueBytesEmpty()
    ensures QueueBytes([]) == 0
  {
  }

  lemma ChunkNonEmpty(rows: Rows, after: Option<int>)
    ensures var chunk := NextChunk(rows, after); chunk.ChunkOf? ==> chunk.items != []
  {
  }

  lemma AdmittedSafe(t: Table, k: int, stamp: Stamp, stamp': Stamp, request: RequestId, p: Projection, jobs: seq<Job>)
    requires TableSafe(t, stamp, p, jobs) && k in t.consumers && k in t.ready
    requires request.plugin == k && request.serial == stamp'.serial && Follows(stamp, stamp')
    requires Admittable(t.consumers[k]) && !Peek(t.consumers[k], p.rows).TooLarge?
    ensures var peeked := Peek(t.consumers[k], p.rows);
            && (peeked.Queued? || peeked.ChunkFrame? || peeked.EndFrame?)
            && var t' := Admitted(t, k, peeked, request);
            && TableSafe(t', stamp', p, jobs) && t'.consumers.Keys == t.consumers.Keys
            && (forall x :: x in t.consumers ==> t'.consumers[x].gap == t.consumers[x].gap)
  {
    hide Admitted, Peek, Outlook, Sound, Absorbed;
    var c, log := t.consumers[k], LogAt(t, k);
    SentSound(c, log, p.rows, request);
    var peeked := Peek(c, p.rows);
    AdmittedEffect(t, k, peeked, request, stamp, stamp');
    var c' := Committed(c, peeked).(inFlight := Some(Flight(request, c.sequence, KindOf(peeked.frame))));
    OutlookOfAdmitted(c, log, p.rows, OwedTo(jobs, k), c'.inFlight);
    ReplaceOne(t, Admitted(t, k, peeked, request), k, c', stamp, stamp', p, jobs);
  }

  lemma ReadyIsAdmittable(t: Table, stamp: Stamp, after: Option<int>)
    requires Coherent(t, stamp)
    ensures t.ready <= t.consumers.Keys
    ensures forall k :: k in t.ready ==> Admittable(t.consumers[k])
    ensures NextReady(t.ready, after).Some? ==> NextReady(t.ready, after).value in t.ready
  {
  }

  lemma GappedNotAdmittable(t: Table, k: int)
    requires AllSound(t) && k in t.consumers && t.consumers[k].gap
    ensures !Admittable(t.consumers[k])
  {
  }

  /** Only a sealed projection has ready consumers once the gap pass is over. */
  lemma UnsealedHasNoReady(h: Hub)
    requires Safe(h) && !h.bridge.needGapPass && !h.projection.complete
    ensures h.bridge.table.ready == {}
  {
    var t := h.bridge.table;
    ReadyIsAdmittable(t, h.bridge.stamp, None);
    forall k | k in t.consumers ensures k !in t.ready {
      GappedNotAdmittable(t, k);
    }
  }

  lemma ParkSafe(t: Table, k: int, stamp: Stamp, stamp': Stamp, p: Projection, jobs: seq<Job>)
    requires TableSafe(t, stamp, p, jobs) && k in t.ready && Follows(stamp, stamp')
    ensures var t' := Park(t, k, stamp'.epoch); TableSafe(t', stamp', p, jobs) && t'.consumers == t.consumers
  {
    ParkEffect(t, k, stamp, stamp');
  }

  lemma StampMayGrow(t: Table, stamp: Stamp, stamp': Stamp, p: Projection, jobs: seq<Job>)
    requires TableSafe(t, stamp, p, jobs) && (stamp' == stamp || Follows(stamp, stamp'))
    ensures TableSafe(t, stamp', p, jobs)
  {
  }

  lemma RecoverySafe(h: Hub)
    requires Coherent(h.bridge.table, h.bridge.stamp) && AllSound(h.bridge.table)
    ensures Safe(StartRecovery(h))
  {
  }

  lemma AdmitAcceptedSafe(h: Hub, h': Hub, k: int, stamp: Stamp)
    requires Safe(h) && h.bridge.startSequence.None? && h.projection.complete && Follows(h.bridge.stamp, stamp)
    requires k in h.bridge.table.ready && k in h.bridge.table.consumers && Admittable(h.bridge.table.consumers[k])
    requires !Peek(h.bridge.table.consumers[k], h.projection.rows).TooLarge?
    requires var peeked := Peek(h.bridge.table.consumers[k], h.projection.rows);
             && (peeked.Queued? || peeked.ChunkFrame? || peeked.EndFrame?)
             && var request := RequestId(k, SequenceOf(peeked.frame), stamp.serial);
             h' == h.(bridge := h.bridge.(stamp := stamp, admitAfter := Some(k),
                                          table := Admitted(h.bridge.table, k, peeked, request)))
    ensures Safe(h')
  {
    hide TableSafe, Admitted, Peek, FanoutExact;
    var peeked := Peek(h.bridge.table.consumers[k], h.projection.rows);
    AdmittedSafe(h.bridge.table, k, h.bridge.stamp, stamp, RequestId(k, SequenceOf(peeked.frame), stamp.serial),
                 h.projection, h.bridge.fanout);
  }

  lemma AdmitGappedSafe(h: Hub, h': Hub, k: int, stamp: Stamp)
    requires Safe(h) && k in h.bridge.table.consumers && (stamp == h.bridge.stamp || Follows(h.bridge.stamp, stamp))
    requires h' == h.(bridge := h.bridge.(stamp := stamp, admitAfter := Some(k), table := MarkGap(h.bridge.table, k)), faulted := true)
    requires h.projection.complete
    ensures Safe(h')
  {
    hide TableSafe, MarkGap, FanoutExact;
    MarkGapSafe(h.bridge.table, k, h.bridge.stamp, h.projection, h.bridge.fanout);
    StampMayGrow(h'.bridge.table, h.bridge.stamp, stamp, h.projection, h.bridge.fanout);
  }

  lemma AdmitNextSafe(h: Hub, budget: Budget, outcome: Admission, epoch: nat)
    requires Safe(h) && !h.bridge.needGapPass && h.bridge.startSequence.None?
    requires h.bridge.stamp.epoch <= epoch
    ensures Safe(AdmitNext(h, budget, outcome, epoch).0)
  {
    hide TableSafe, FanoutExact, PassOrder, Admitted, MarkGap, Park, Peek, NextReady, AddBytes;
    var b, t := h.bridge, h.bridge.table;
    assert Coherent(t, b.stamp) by { TableIsCoherent(h); }
    ReadyIsAdmittable(t, b.stamp, b.admitAfter);
    var next := NextReady(t.ready, b.admitAfter);
    if next.Some? && next.value in t.consumers {
      var k := next.value;
      if !h.projection.complete {
        UnsealedHasNoReady(h);
      }
      var peeked := Peek(t.consumers[k], h.projection.rows);
      if peeked.TooLarge? {
        var h1 := h.(bridge := b.(table := MarkGap(t, k), admitAfter := Some(k)), faulted := true);
        AdmitGappedSafe(h, h1, k, b.stamp);
        SafeIgnoresMark(h1, true);
      } else if !peeked.Nothing? {
        var (fits, budget') := AddBytes(budget, FrameBytes(peeked.frame));
        SafeIgnoresMark(h, true);
        if fits {
          AdmitFitsSafe(h, k, peeked, outcome, epoch);
        }
      }
    }
  }

  lemma TableIsCoherent(h: Hub)
    requires Safe(h)
    ensures Coherent(h.bridge.table, h.bridge.stamp) && AllSound(h.bridge.table)
  {
  }

  /** The three answers of the plugin engine to an offered frame. */
  lemma AdmitFitsSafe(h: Hub, k: int, peeked: Peeked, outcome: Admission, epoch: nat)
    requires Safe(h) && h.bridge.startSequence.None? && h.projection.complete
    requires h.bridge.stamp.epoch <= epoch
    requires k in h.bridge.table.ready && k in h.bridge.table.consumers && Admittable(h.bridge.table.consumers[k])
    requires peeked == Peek(h.bridge.table.consumers[k], h.projection.rows)
    requires peeked.Queued? || peeked.ChunkFrame? || peeked.EndFrame?
    ensures var b := h.bridge;
            var b' := b.(stamp := Stamp(b.stamp.serial + 1, epoch), admitAfter := Some(k));
            var request := RequestId(k, SequenceOf(peeked.frame), b.stamp.serial + 1);
            match outcome
            case Accepted => Safe(ContinueIfReady(h.(bridge := b'.(table := Admitted(b.table, k, peeked, request)))))
            case Refused => Safe(ContinueIfReady(h.(bridge := b'.(table := Park(b.table, k, epoch)))))
            case Rejected => Safe(StartRecovery(h.(bridge := b'.(table := MarkGap(b.table, k)))))
  {
    hide TableSafe, FanoutExact, Admitted, MarkGap, Park, Peek;
    var b := h.bridge;
    var b' := b.(stamp := Stamp(b.stamp.serial + 1, epoch), admitAfter := Some(k));
    match outcome
    case Accepted =>
      var h1 := h.(bridge := b'.(table := Admitted(b.table, k, peeked, RequestId(k, SequenceOf(peeked.frame), b.stamp.serial + 1))));
      AdmitAcceptedSafe(h, h1, k, b'.stamp);
      SafeIgnoresMark(h1, true);
    case Refused =>
      ParkSafe(b.table, k, b.stamp, b'.stamp, h.projection, b.fanout);
    case Rejected =>
      var h1 := h.(bridge := b'.(table := MarkGap(b.table, k)), faulted := true);
      AdmitGappedSafe(h, h1, k, b'.stamp);
      TableIsCoherent(h1);
      RecoverySafe(h1.(faulted := h.faulted));
  }

  // ---------------------------------------------------------- completion

  lemma LandedSound(c: Consumer, log: seq<Event>)
    requires Sound(c, log) && c.inFlight.Some?
    ensures Sound(Landed(c, true), log + [Delivered])
  {
    CourseSnoc(log, Delivered);
    QueueBytesJoin(c.pending, c.held);
    QueueBytesEmpty();
  }

  lemma CompleteSuccessSafe(h: Hub, request: RequestId)
    requires Safe(h) && request in h.bridge.table.flights
    ensures Safe(Complete(h, request, true))
  {
    hide Land, Outlook, Sound, FanoutExact;
    var t := h.bridge.table;
    var k := t.flights[request];
    LandEffect(t, request, true, h.bridge.stamp);
    var c, log := t.consumers[k], LogAt(t, k);
    LandedSound(c, log);
    SoundEndHasNoChunks(c, log);
    OutlookOfLanded(c, log, h.projection.rows, OwedTo(h.bridge.fanout, k));
    var t' := Note(Land(t, k, request, true), k, Delivered);
    assert LogAt(t', k) == log + [Delivered];
    assert AdmittableKeys(t') == AdmittableKeys(Land(t, k, request, true));
    ReplaceOne(t, t', k, Landed(c, true), h.bridge.stamp, h.bridge.stamp, h.projection, h.bridge.fanout);
    LandedOrder(h, Complete(h, request, true), k);
  }

  lemma SoundEndHasNoChunks(c: Consumer, log: seq<Event>)
    requires Sound(c, log)
    ensures c.inFlight.Some? && c.inFlight.value.kind == End ==> !c.needChunks
    ensures c.inFlight.Some? ==> !c.gap && !AwaitsBegin(c)
  {
  }

  lemma LandedOrder(h: Hub, h': Hub, k: int)
    requires PassOrder(h) && k in h.bridge.table.consumers && h.bridge.table.consumers[k].inFlight.Some?
    requires !h.bridge.table.consumers[k].gap && !AwaitsBegin(h.bridge.table.consumers[k])
    requires h' == h.(bridge := h.bridge.(table := h'.bridge.table), marked := true)
    requires h'.bridge.table.consumers == h.bridge.table.consumers[k := Landed(h.bridge.table.consumers[k], true)]
    ensures PassOrder(h')
  {
  }

  lemma CompleteFailureSafe(h: Hub, request: RequestId)
    requires Safe(h) && request in h.bridge.table.flights
    ensures Safe(Complete(h, request, false))
  {
    hide Land, MarkGap, Sound, Outlook;
    var t := h.bridge.table;
    var k := t.flights[request];
    LandEffect(t, request, false, h.bridge.stamp);
    var t1 := Land(t, k, request, false);
    MarkGapEffect(t1, k, h.bridge.stamp);
    var c := t.consumers[k];
    assert Gapped(Landed(c, false)) == Gapped(c);
    GappedSound(c, LogAt(t, k));
    ReplaceOne(t, MarkGap(t1, k), k, Gapped(c), h.bridge.stamp, h.bridge.stamp, h.projection, h.bridge.fanout);
    RecoverySafe(h.(bridge := h.bridge.(table := MarkGap(t1, k))));
  }

  // ---------------------------------------------------------- projection

  lemma FramesGrow(jobs: seq<Job>, job: Job)
    ensures FramesOf(jobs + [job]) == FramesOf(jobs) + [EntityDelta(job.change)]
    ensures AllDeltas(FramesOf(jobs))
  {
    assert (jobs + [job])[..|jobs + [job]| - 1] == jobs;
  }

  lemma OwedGrows(jobs: seq<Job>, job: Job, k: int)
    requires job.after.None?
    ensures OwedTo(jobs + [job], k) == OwedTo(jobs, k) + [EntityDelta(job.change)]
    ensures AllDeltas(OwedTo(jobs, k))
  {
    hide FramesOf, AllDeltas;
    FramesGrow(jobs, job);
    if jobs != [] {
      FramesGrow(jobs[1..], job);
      assert (jobs + [job])[1..] == jobs[1..] + [job];
    }
  }

  lemma {:induction false} JobBytesSnoc(jobs: seq<Job>, job: Job)
    ensures JobBytes(jobs + [job]) == JobBytes(jobs) + job.bytes
  {
    if jobs == [] {
      assert ([] + [job])[1..] == [];
    } else {
      assert (jobs + [job])[1..] == jobs[1..] + [job];
      JobBytesSnoc(jobs[1..], job);
    }
  }

  /** A change enters the projection and the fanout queue together: every replica still converges. */
  lemma ChangeSafe(t: Table, stamp: Stamp, p: Projection, p': Projection, jobs: seq<Job>, change: Change)
    requires TableSafe(t, stamp, p, jobs) && p.complete && p'.complete
    requires !change.Unrecognized? && p'.rows == ApplyChange(p.rows, change)
    ensures TableSafe(t, stamp, p', jobs + [Job(change, None, change.wire)])
  {
    hide Outlook, Coherent, Absorbed, OwedTo, FramesOf;
    var job := Job(change, None, change.wire);
    FramesGrow(jobs, job);
    AbsorbedFollowsChange(p.rows, FramesOf(jobs), change);
    forall k | k in t.consumers && !t.consumers[k].gap
      ensures Outlook(t.consumers[k], LogAt(t, k), p'.rows, OwedTo(jobs + [job], k)) == p'.rows
    {
      OwedGrows(jobs, job, k);
      assert Sound(t.consumers[k], LogAt(t, k));
      OutlookFollowsChange(t.consumers[k], LogAt(t, k), p.rows, OwedTo(jobs, k), change);
    }
  }

  lemma ApplyOneSafe(h: Hub)
    requires Safe(h) && h.projection.complete && h.changes != []
    ensures Safe(ApplyOne(h)) && (ApplyOne(h).projection.complete || ApplyOne(h).changes == [])
    ensures h.marked ==> ApplyOne(h).marked
  {
    hide TableSafe, JobBytes;
    var change := h.changes[0];
    var p := h.projection.(rows := ApplyChange(h.projection.rows, change), cursor := Some(change.sequence));
    if change.Unrecognized? {
      SameRowsSafe(h.bridge.table, h.bridge.stamp, h.projection, p, h.bridge.fanout);
    } else if |h.bridge.fanout| >= FANOUT_QUEUE_MAX_ITEMS || h.bridge.fanoutBytes + change.wire > FANOUT_QUEUE_MAX_BYTES {
      TableIsCoherent(h);
      RecoverySafe(h.(projection := p, changes := h.changes[1..]));
    } else {
      ChangeSafe(h.bridge.table, h.bridge.stamp, h.projection, p, h.bridge.fanout, change);
      JobBytesSnoc(h.bridge.fanout, Job(change, None, change.wire));
    }
  }

  lemma SameRowsSafe(t: Table, stamp: Stamp, p: Projection, p': Projection, jobs: seq<Job>)
    requires TableSafe(t, stamp, p, jobs) && p'.rows == p.rows && p'.complete == p.complete
    ensures TableSafe(t, stamp, p', jobs)
  {
  }

  lemma {:induction false} ApplyUpToSafe(h: Hub, n: nat)
    requires Safe(h) && (h.projection.complete || h.changes == [])
    ensures Safe(ApplyUpTo(h, n)) && (h.marked ==> ApplyUpTo(h, n).marked)
    decreases n
  {
    hide Safe, ApplyOne;
    if n > 0 && h.changes != [] {
      ApplyOneSafe(h);
      ApplyUpToSafe(ApplyOne(h), n - 1);
    }
  }

  lemma ProjectionApplySafe(h: Hub)
    requires Safe(h)
    ensures Safe(ProjectionApplySlice(h))
  {
    hide TableSafe, FanoutExact, ApplyUpTo;
    if h.projection.complete {
      ApplyUpToSafe(h, APPLY_MAX_CHANGES);
    }
  }

  /**
   A page read while a recovery or its gap pass is pending keeps the invariant
   if and only if it does not seal the projection under a pending gap pass.
   */
  lemma ApplyBaselineSafe(h: Hub, result: BaselineResult)
    requires Safe(h)
    requires result.PageRead? ==> !h.projection.complete && (h.recovery.Some? || h.bridge.needGapPass)
    ensures Safe(ApplyBaseline(h, result)) <==> !(result.PageRead? && result.page.complete && h.bridge.needGapPass)
  {
    hide Coherent, Sound, Outlook;
    match result
    case Resync => RecoverySafe(h);
    case ReadFailed => RecoverySafe(h);
    case CannotProgress =>
    case PageRead(page) =>
      assert h.bridge.fanout == [] && FramesOf([]) == [];
  }

  lemma SignalCheckSafe(h: Hub, epoch: nat)
    requires Safe(h)
    ensures Safe(SignalCheck(h, epoch))
  {
    hide FanoutExact;
    UnparkAllEffect(h.bridge.table, h.bridge.stamp);
  }
}
