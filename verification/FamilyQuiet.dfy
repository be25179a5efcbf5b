/**
 What a step can do to the observed streams and the flights: only an admission
 sends a frame, opens a flight, parks a consumer or moves the round-robin
 cursor. None of this needs the safety invariant.
 */
module FamilyQuiet {
  import opened Ordered
  import opened SessionFamily

  // ------------------------------------------------------------- relation

  predicate SendsNothing(log: seq<Event>) {
    forall i :: 0 <= i < |log| ==> !log[i].Sent?
  }

  ghost predicate NoneSent(t: Table) {
    forall k :: k in t.log ==> SendsNothing(t.log[k])
  }

  ghost predicate AllHandled(t: Table) {
    forall k :: k in t.consumers ==> t.consumers[k].handler.Some?
  }

  /** No frame was sent, no flight opened and no consumer parked on the way from `t` to `t'`. */
  ghost predicate Quiet(t: Table, t': Table) {
    && t'.flights.Keys <= t.flights.Keys && t'.parked <= t.parked
    && (NoneSent(t) ==> NoneSent(t')) && (AllHandled(t) ==> AllHandled(t'))
  }

  lemma QuietTransitive(a: Table, b: Table, c: Table)
    requires Quiet(a, b) && Quiet(b, c)
    ensures Quiet(a, c)
  {
  }

  // ------------------------------------------------------- one consumer

  lemma TouchQuiet(t: Table, k: int, c: Consumer)
    ensures var t' := Touch(t, k, c);
            && t' == t.(consumers := t.consumers[k := c], busy := t'.busy, ready := t'.ready)
            && (c.handler.Some? ==> Quiet(t, t'))
  {
  }

  lemma UnparkQuiet(t: Table, k: int)
    ensures var t' := Unpark(t, k);
            Quiet(t, t') && t' == t.(parked := t'.parked, parkedSeen := t'.parkedSeen, ready := t'.ready)
  {
  }

  lemma NoteQuiet(t: Table, k: int, event: Event)
    requires !event.Sent?
    ensures Quiet(t, Note(t, k, event)) && Note(t, k, event).consumers == t.consumers
  {
    var t' := Note(t, k, event);
    if NoneSent(t) {
      forall x | x in t'.log ensures SendsNothing(t'.log[x]) {
        assert x in t.log ==> SendsNothing(t.log[x]);
      }
    }
  }

  lemma MarkGapQuiet(t: Table, k: int)
    requires k in t.consumers
    ensures Quiet(t, MarkGap(t, k)) && MarkGap(t, k).consumers.Keys == t.consumers.Keys
    ensures MarkGap(t, k).flights.Keys <= t.flights.Keys && MarkGap(t, k).parked <= t.parked
  {
    hide Unpark, Touch, Note, Quiet;
    var flight := t.consumers[k].inFlight;
    var t1 := if flight.Some? then t.(flights := t.flights - {flight.value.request}) else t;
    FlightsDropQuiet(t, t1);
    UnparkQuiet(t1, k);
    var t2 := Unpark(t1, k);
    var c := Gapped(t.consumers[k]);
    TouchQuietUnlessHandled(t2, k, c);
    NoteQuiet(Touch(t2, k, c), k, GapMarked);
    QuietTransitive(t, t1, t2);
    QuietTransitive(t, t2, Touch(t2, k, c));
    QuietTransitive(t, Touch(t2, k, c), MarkGap(t, k));
    QuietSubsets(t, MarkGap(t, k));
  }

  lemma QuietSubsets(t: Table, t': Table)
    requires Quiet(t, t')
    ensures t'.flights.Keys <= t.flights.Keys && t'.parked <= t.parked
  {
  }

  lemma FlightsDropQuiet(t: Table, t': Table)
    requires t' == t.(flights := t'.flights) && t'.flights.Keys <= t.flights.Keys
    ensures Quiet(t, t')
  {
  }

  /** Replacing a consumer by one with the same handler. */
  lemma TouchQuietUnlessHandled(t: Table, k: int, c: Consumer)
    requires k in t.consumers && c.handler == t.consumers[k].handler
    ensures Quiet(t, Touch(t, k, c)) && Touch(t, k, c).consumers.Keys == t.consumers.Keys
    ensures Touch(t, k, c).consumers == t.consumers[k := c]
  {
    TouchQuiet(t, k, c);
  }

  lemma BeginSnapshotQuiet(t: Table, k: int, sequence: u64)
    requires k in t.consumers
    ensures Quiet(t, BeginSnapshot(t, k, sequence)) && BeginSnapshot(t, k, sequence).consumers.Keys == t.consumers.Keys
  {
    hide Unpark, Touch, Quiet;
    UnparkQuiet(t, k);
    var t1 := Unpark(t, k);
    TouchQuietUnlessHandled(t1, k, Begun(ConsumerAt(t1, k), sequence));
    QuietTransitive(t, t1, BeginSnapshot(t, k, sequence));
  }

  lemma OfferDeltaQuiet(t: Table, k: int, change: Change, p: Projection)
    requires k in t.consumers
    ensures Quiet(t, OfferDelta(t, k, change, p)) && OfferDelta(t, k, change, p).consumers.Keys == t.consumers.Keys
  {
    hide Touch, MarkGap, BeginSnapshot, DeltaFits, Quiet;
    var c := t.consumers[k];
    TouchQuietUnlessHandled(t, k, WithDelta(c, change));
    var t1 := Touch(t, k, WithDelta(c, change));
    if !c.gap && !DeltaFits(c, change) {
      MarkGapQuiet(t1, k);
      var t2 := MarkGap(t1, k);
      QuietTransitive(t, t1, t2);
      if p.complete {
        BeginSnapshotQuiet(t2, k, CursorSequence(p));
        QuietTransitive(t, t2, BeginSnapshot(t2, k, CursorSequence(p)));
      }
    }
  }

  lemma RegisterQuiet(t: Table, k: int, handler: Handler, p: Projection)
    ensures Quiet(t, Register(t, k, handler, p)) && Register(t, k, handler, p).consumers.Keys == t.consumers.Keys + {k}
  {
    hide Touch, BeginSnapshot, Quiet;
    var c := ConsumerAt(t, k).(handler := Some(handler));
    var c' := if k in t.consumers then c else c.(gap := true);
    TouchQuiet(t, k, c');
    var t1 := Touch(t, k, c');
    if k !in t.consumers && p.complete {
      BeginSnapshotQuiet(t1, k, CursorSequence(p));
      QuietTransitive(t, t1, Register(t, k, handler, p));
    }
  }

  lemma RemoveConsumerQuiet(t: Table, k: int)
    ensures Quiet(t, RemoveConsumer(t, k)) && RemoveConsumer(t, k).consumers.Keys == t.consumers.Keys - {k}
  {
    var t' := RemoveConsumer(t, k);
    assert t'.consumers == t.consumers - {k};
  }

  // ---------------------------------------------------------------- pages

  lemma {:induction false} GapKeysQuiet(t: Table, keys: seq<int>, i: nat, budget: Budget)
    requires i <= |keys| && forall j :: 0 <= j < |keys| ==> keys[j] in t.consumers
    ensures var t' := GapKeys(t, keys, i, budget).table; Quiet(t, t') && t'.consumers.Keys == t.consumers.Keys
    decreases |keys| - i
  {
    hide MarkGap;
    if i < |keys| {
      var (ok, budget') := Take(budget);
      if ok {
        MarkGapQuiet(t, keys[i]);
        GapKeysQuiet(MarkGap(t, keys[i]), keys, i + 1, budget');
      }
    }
  }

  lemma {:induction false} StartKeysQuiet(t: Table, keys: seq<int>, i: nat, sequence: u64, budget: Budget)
    requires i <= |keys| && forall j :: 0 <= j < |keys| ==> keys[j] in t.consumers
    ensures var t' := StartKeys(t, keys, i, sequence, budget).table; Quiet(t, t') && t'.consumers.Keys == t.consumers.Keys
    decreases |keys| - i
  {
    hide BeginSnapshot;
    if i < |keys| {
      var (ok, budget') := Take(budget);
      if ok {
        BeginSnapshotQuiet(t, keys[i], sequence);
        StartKeysQuiet(BeginSnapshot(t, keys[i], sequence), keys, i + 1, sequence, budget');
      }
    }
  }

  lemma {:induction false} FanoutKeysQuiet(t: Table, keys: seq<int>, i: nat, job: Job, p: Projection, budget: Budget)
    requires i <= |keys| && forall j :: 0 <= j < |keys| ==> keys[j] in t.consumers
    ensures var t' := FanoutKeys(t, keys, i, job, p, budget).table; Quiet(t, t') && t'.consumers.Keys == t.consumers.Keys
    decreases |keys| - i
  {
    hide OfferDelta;
    if i < |keys| {
      var (taken, budget1) := Take(budget);
      if taken {
        var (fits, budget2) := AddBytes(budget1, job.bytes);
        if fits {
          OfferDeltaQuiet(t, keys[i], job.change, p);
          FanoutKeysQuiet(OfferDelta(t, keys[i], job.change, p), keys, i + 1, job, p, budget2);
        }
      }
    }
  }

  lemma {:induction false} RemoveAllQuiet(t: Table, drop: seq<int>)
    ensures Quiet(t, RemoveAll(t, drop)) && RemoveAll(t, drop).consumers.Keys == t.consumers.Keys - (set k | k in drop)
  {
    hide RemoveConsumer;
    if drop != [] {
      var n := |drop| - 1;
      RemoveAllQuiet(t, drop[..n]);
      RemoveConsumerQuiet(RemoveAll(t, drop[..n]), drop[n]);
      assert drop == drop[..n] + [drop[n]];
    }
  }

  lemma {:induction false} RegisterHandlersQuiet(t: Table, k: int, handlers: seq<Handler>, i: nat, p: Projection)
    requires i <= |handlers|
    ensures var t' := RegisterHandlers(t, k, handlers, i, p);
            && Quiet(t, t')
            && t'.consumers.Keys
               == t.consumers.Keys + if exists j :: i <= j < |handlers| && handlers[j].isEvent then {k} else {}
    decreases |handlers| - i
  {
    hide Register, Quiet;
    if i < |handlers| {
      RegisterQuiet(t, k, handlers[i], p);
      var t1 := if handlers[i].isEvent then Register(t, k, handlers[i], p) else t;
      RegisterHandlersQuiet(t1, k, handlers, i + 1, p);
      QuietSelf(t);
      QuietTransitive(t, t1, RegisterHandlers(t, k, handlers, i, p));
    } else {
      QuietSelf(t);
    }
  }

  lemma QuietSelf(t: Table)
    ensures Quiet(t, t)
  {
  }

  /** Registering a page of the registry adds exactly its subscribers. */
  lemma {:induction false} RegisterKeysQuiet(t: Table, keys: seq<int>, i: nat, registry: map<int, seq<Handler>>, p: Projection)
    requires i <= |keys|
    ensures var t' := RegisterKeys(t, keys, i, registry, p);
            && Quiet(t, t')
            && t'.consumers.Keys == t.consumers.Keys + (set k | k in keys[i..] && Subscribed(registry, k))
    decreases |keys| - i
  {
    hide RegisterHandlers, Quiet;
    QuietSelf(t);
    if i < |keys| {
      var t1 := RegisterHandlers(t, keys[i], HandlersOf(registry, keys[i]), 0, p);
      RegisterHandlersQuiet(t, keys[i], HandlersOf(registry, keys[i]), 0, p);
      RegisterKeysQuiet(t1, keys, i + 1, registry, p);
      QuietTransitive(t, t1, RegisterKeys(t, keys, i, registry, p));
      assert keys[i..] == [keys[i]] + keys[i + 1..];
      assert t1.consumers.Keys == t.consumers.Keys + if Subscribed(registry, keys[i]) then {keys[i]} else {};
    }
  }

  // --------------------------------------------------------------- passes

  /** What every pass before admission leaves alone, and how it may open a recovery. */
  ghost predicate Framed(h: Hub, h': Hub) {
    && h'.projection == h.projection && h'.changes == h.changes && h'.faulted == h.faulted
    && h'.bridge.stamp == h.bridge.stamp && h'.bridge.admitAfter == h.bridge.admitAfter
    && Quiet(h.bridge.table, h'.bridge.table)
    && (h'.recovery == h.recovery || (h.bridge.needGapPass && h'.recovery.Some?))
    && (h.recovery.Some? || h.bridge.needGapPass ==> h'.recovery.Some? || h'.bridge.needGapPass)
  }

  lemma FramedSelf(h: Hub)
    ensures Framed(h, h)
  {
  }

  lemma RefreshFramed(h: Hub, registry: map<int, seq<Handler>>, budget: Budget)
    ensures Framed(h, RefreshPass(h, registry, budget).0)
  {
    hide RegisterKeys, Page, Subscribed, TakeMany, Quiet;
    QuietSelf(h.bridge.table);
    RegisterKeysQuiet(h.bridge.table, Page(registry.Keys, h.bridge.refreshAfter, RemainingVisits(budget)), 0, registry, h.projection);
  }

  lemma PageIsKnown(t: Table, after: Option<int>, max: nat)
    ensures var keys := Page(t.consumers.Keys, after, max); forall j :: 0 <= j < |keys| ==> keys[j] in t.consumers
  {
    PageProperties(t.consumers.Keys, after, max);
  }

  lemma GapFramed(h: Hub, budget: Budget)
    ensures Framed(h, GapPass(h, budget).0)
    ensures GapPass(h, budget).0.bridge.table.consumers.Keys == h.bridge.table.consumers.Keys
  {
    hide GapKeys, Page, Quiet;
    QuietSelf(h.bridge.table);
    var max := RemainingVisits(budget);
    PageIsKnown(h.bridge.table, h.bridge.gapAfter, max);
    GapKeysQuiet(h.bridge.table, Page(h.bridge.table.consumers.Keys, h.bridge.gapAfter, max), 0, budget);
  }

  lemma StartFramed(h: Hub, budget: Budget)
    ensures Framed(h, StartPass(h, budget).0)
    ensures StartPass(h, budget).0.bridge.table.consumers.Keys == h.bridge.table.consumers.Keys
  {
    hide StartKeys, Page, Quiet;
    QuietSelf(h.bridge.table);
    var max := RemainingVisits(budget);
    PageIsKnown(h.bridge.table, h.bridge.startAfter, max);
    if h.bridge.startSequence.Some? {
      StartKeysQuiet(h.bridge.table, Page(h.bridge.table.consumers.Keys, h.bridge.startAfter, max), 0,
                     h.bridge.startSequence.value, budget);
    }
  }

  lemma FanoutFrontFramed(h: Hub, budget: Budget)
    requires h.bridge.fanout != []
    ensures var h' := FanoutFront(h, budget).0;
            && Framed(h, h') && h'.recovery == h.recovery && h'.bridge.needGapPass == h.bridge.needGapPass
            && h'.bridge.table.consumers.Keys == h.bridge.table.consumers.Keys
            && SameRound(h.bridge, h'.bridge) && SameStarts(h.bridge, h'.bridge)
  {
    hide FanoutKeys, Page, Quiet, LessJob;
    QuietSelf(h.bridge.table);
    var max := RemainingVisits(budget);
    var job := h.bridge.fanout[0];
    PageIsKnown(h.bridge.table, job.after, max);
    FanoutKeysQuiet(h.bridge.table, Page(h.bridge.table.consumers.Keys, job.after, max), 0, job, h.projection, budget);
  }

  /** The refresh round and the prune cursor are where they were. */
  predicate SameRound(b: Bridge, b': Bridge) {
    && b'.refreshAfter == b.refreshAfter && b'.refreshSeen == b.refreshSeen
    && b'.needPrune == b.needPrune && b'.pruneAfter == b.pruneAfter
  }

  predicate SameStarts(b: Bridge, b': Bridge) {
    b'.startSequence == b.startSequence && b'.startAfter == b.startAfter
  }

  lemma {:induction false} FanoutFramed(h: Hub, budget: Budget)
    ensures var h' := FanoutPass(h, budget).0;
            && Framed(h, h') && h'.recovery == h.recovery && h'.bridge.needGapPass == h.bridge.needGapPass
            && h'.bridge.table.consumers.Keys == h.bridge.table.consumers.Keys
            && SameRound(h.bridge, h'.bridge) && SameStarts(h.bridge, h'.bridge)
    decreases |h.bridge.fanout|
  {
    hide FanoutFront, Quiet;
    QuietSelf(h.bridge.table);
    var (spent, budget1) := Exhausted(budget);
    if !spent && h.bridge.fanout != [] {
      FanoutFrontFramed(h, budget1);
      var (h1, budget2, more) := FanoutFront(h, budget1);
      if !more {
        FanoutFramed(h1, budget2);
        QuietTransitive(h.bridge.table, h1.bridge.table, FanoutPass(h1, budget2).0.bridge.table);
      }
    }
  }

  lemma PruneFramed(h: Hub, budget: Budget)
    ensures Framed(h, PrunePass(h, budget).0)
  {
    hide PruneKeys, RemoveAll, Page, Quiet;
    QuietSelf(h.bridge.table);
    var max := RemainingVisits(budget);
    var keys := Page(h.bridge.table.consumers.Keys, h.bridge.pruneAfter, max);
    RemoveAllQuiet(h.bridge.table, PruneKeys(keys, 0, h.bridge.refreshSeen, [], budget).drop);
  }

  lemma FramedTransitive(a: Hub, b: Hub, c: Hub)
    requires Framed(a, b) && Framed(b, c)
    requires b.bridge.needGapPass ==> a.bridge.needGapPass
    ensures Framed(a, c)
  {
    hide Quiet;
    QuietTransitive(a.bridge.table, b.bridge.table, c.bridge.table);
  }

  lemma NoPassAsksForGaps(h: Hub, registry: map<int, seq<Handler>>, budget: Budget)
    ensures RefreshPass(h, registry, budget).0.bridge.needGapPass == h.bridge.needGapPass
    ensures GapPass(h, budget).0.bridge.needGapPass ==> h.bridge.needGapPass
    ensures StartPass(h, budget).0.bridge.needGapPass == h.bridge.needGapPass
    ensures PrunePass(h, budget).0.bridge.needGapPass == h.bridge.needGapPass
  {
    hide Page, GapKeys, StartKeys, RegisterKeys, PruneKeys, RemoveAll, TakeMany, Subscribed;
  }

  /** All the passes together. */
  lemma BridgePassesFramed(h: Hub, registry: map<int, seq<Handler>>, fuel: nat)
    ensures Framed(h, BridgePasses(h, registry, fuel).0)
  {
    hide Framed, RefreshPass, GapPass, StartPass, FanoutPass, PrunePass;
    var b0 := Budget(0, 0, fuel);
    RefreshFramed(h, registry, b0);
    NoPassAsksForGaps(h, registry, b0);
    var (h1, b1) := RefreshPass(h, registry, b0);
    FramedSelf(h1);
    var (spent1, b1') := Exhausted(b1);
    GapFramed(h1, b1');
    NoPassAsksForGaps(h1, registry, b1');
    var (h2, b2) := if spent1 then (h1, b1') else GapPass(h1, b1');
    FramedTransitive(h, h1, h2);
    FramedSelf(h2);
    var (spent2, b2') := Exhausted(b2);
    StartFramed(h2, b2');
    NoPassAsksForGaps(h2, registry, b2');
    var (h3, b3) := if spent2 then (h2, b2') else StartPass(h2, b2');
    FramedTransitive(h, h2, h3);
    FramedSelf(h3);
    var (spent3, b3') := Exhausted(b3);
    FanoutFramed(h3, b3');
    var (h4, b4) := if spent3 then (h3, b3') else FanoutPass(h3, b3');
    FramedTransitive(h, h3, h4);
    FramedSelf(h4);
    var (spent4, b4') := Exhausted(b4);
    PruneFramed(h4, b4');
    var (h5, b5) := if spent4 then (h4, b4') else PrunePass(h4, b4');
    FramedTransitive(h, h4, h5);
  }

  // ------------------------------------------------------------ admission

  /** The consumer an admission offers a frame of, or finds an oversized row for. */
  function Picked(h: Hub, budget: Budget): Option<int> {
    var next := NextReady(h.bridge.table.ready, h.bridge.admitAfter);
    if next.None? || next.value !in h.bridge.table.consumers then None
    else
      var peeked := Peek(h.bridge.table.consumers[next.value], h.projection.rows);
      if peeked.Nothing? then None
      else if peeked.TooLarge? || AddBytes(budget, FrameBytes(peeked.frame)).0 then next
      else None
  }

  /** The consumer a whole turn offers a frame of. */
  function TurnPick(h: Hub, input: BridgeInput): Option<int> {
    var (h1, budget, spent) := BridgePasses(h.(marked := false), input.registry, input.fuel);
    if spent then None else Picked(h1, budget)
  }

  /** A flight is one that was open, or one under the next serial, which is then issued. */
  ghost predicate OnlyNewFlights(b: Bridge, b': Bridge) {
    && b.stamp.serial <= b'.stamp.serial
    && (forall r :: r in b'.table.flights ==>
          r in b.table.flights || (r.serial == b.stamp.serial + 1 && r.serial <= b'.stamp.serial))
  }

  /** The projection is open, and a recovery or the gap pass before one is pending. */
  predicate AwaitsBaseline(h: Hub) {
    !h.projection.complete && (h.recovery.Some? || h.bridge.needGapPass)
  }

  lemma AdmittedFlights(t: Table, k: int, peeked: Peeked, request: RequestId)
    requires k in t.consumers && (peeked.Queued? || peeked.ChunkFrame? || peeked.EndFrame?)
    ensures Admitted(t, k, peeked, request).flights == t.flights[request := k]
    ensures Admitted(t, k, peeked, request).parked == t.parked
  {
    hide Touch, Committed;
    var c := Committed(t.consumers[k], peeked);
    TouchQuiet(t, k, c);
    var t1 := Touch(t, k, c);
    var c1 := ConsumerAt(t1, k);
    TouchQuiet(t1, k, c1.(inFlight := Some(Flight(request, c1.sequence, KindOf(peeked.frame)))));
  }

  /** An admission moves the cursor exactly to its pick, and opens at most one flight, under the next serial. */
  lemma AdmitNextFlights(h: Hub, budget: Budget, outcome: Admission, epoch: nat)
    ensures var h' := AdmitNext(h, budget, outcome, epoch).0;
            var pick := Picked(h, budget);
            && h'.bridge.admitAfter == (if pick.Some? then pick else h.bridge.admitAfter)
            && OnlyNewFlights(h.bridge, h'.bridge)
            && (pick.None? ==> h' == h.(marked := h'.marked))
            && (AwaitsBaseline(h) ==> AwaitsBaseline(h'))
  {
    hide Peek, FrameBytes, OfferFrame, MarkGap, NextReady, AddBytes, Quiet;
    var t := h.bridge.table;
    var next := NextReady(t.ready, h.bridge.admitAfter);
    if next.Some? && next.value in t.consumers {
      var k := next.value;
      var peeked := Peek(t.consumers[k], h.projection.rows);
      MarkGapQuiet(t, k);
      if !peeked.Nothing? && !peeked.TooLarge? {
        OfferFlights(h, k, peeked, outcome, epoch);
      }
    }
  }

  lemma OfferFlights(h: Hub, k: int, peeked: Peeked, outcome: Admission, epoch: nat)
    requires k in h.bridge.table.consumers && (peeked.Queued? || peeked.ChunkFrame? || peeked.EndFrame?)
    ensures var h' := OfferFrame(h, k, peeked, outcome, epoch);
            h'.bridge.admitAfter == Some(k) && OnlyNewFlights(h.bridge, h'.bridge) && (AwaitsBaseline(h) ==> AwaitsBaseline(h'))
  {
    hide Admitted, MarkGap, Park, Quiet, NoneSent, AllHandled, SequenceOf;
    match outcome
    case Accepted =>
      AdmittedFlights(h.bridge.table, k, peeked, RequestId(k, SequenceOf(peeked.frame), h.bridge.stamp.serial + 1));
    case Refused => ParkFlights(h.bridge.table, k, epoch);
    case Rejected => MarkGapQuiet(h.bridge.table, k);
  }

  lemma ParkFlights(t: Table, k: int, seen: nat)
    ensures Park(t, k, seen).flights == t.flights
  {
  }

  /** The same of a whole turn. */
  lemma TurnFlights(h: Hub, input: BridgeInput)
    ensures var h' := HostBridgeSlice(h, input);
            var pick := TurnPick(h, input);
            && h'.bridge.admitAfter == (if pick.Some? then pick else h.bridge.admitAfter)
            && OnlyNewFlights(h.bridge, h'.bridge)
            && (pick.None? ==> Quiet(h.bridge.table, h'.bridge.table) && h'.bridge.stamp == h.bridge.stamp)
            && (AwaitsBaseline(h) ==> AwaitsBaseline(h'))
  {
    hide BridgePasses, AdmitNext, Picked, Quiet;
    var h0 := h.(marked := false);
    BridgePassesFramed(h0, input.registry, input.fuel);
    var (h1, budget, spent) := BridgePasses(h0, input.registry, input.fuel);
    QuietSubsets(h0.bridge.table, h1.bridge.table);
    if !spent {
      AdmitNextFlights(h1, budget, input.outcome, input.epoch);
    }
  }
}
