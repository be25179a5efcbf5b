/**
 The bridge's redundant indexes agree with the consumers they index, after
 every operation: the ready and parked sets, the busy count, the map from
 requests to consumers, and the park epoch.
 */
module FamilyIndex {
  import opened Ordered
  import opened SessionFamily

  /** The consumers that could be admitted, ignoring parking. */
  function AdmittableKeys(t: Table): set<int> {
    set k | k in t.consumers && Admittable(t.consumers[k])
  }

  function BusyKeys(consumers: map<int, Consumer>): set<int> {
    set k | k in consumers && Busy(consumers[k])
  }

  ghost predicate ReadyExact(t: Table) {
    t.ready == AdmittableKeys(t) - t.parked
  }

  ghost predicate BusyExact(t: Table) {
    t.busy == |BusyKeys(t.consumers)|
  }

  /** `flights` is exactly the inverse of the consumers' in-flight frames, and every serial was issued. */
  ghost predicate FlightsExact(t: Table, stamp: Stamp) {
    && (forall r :: r in t.flights ==>
          && r.plugin == t.flights[r] && r.serial <= stamp.serial
          && r.plugin in t.consumers && t.consumers[r.plugin].inFlight.Some?
          && t.consumers[r.plugin].inFlight.value.request == r)
    && (forall k :: k in t.consumers && t.consumers[k].inFlight.Some? ==>
          var r := t.consumers[k].inFlight.value.request;
          r.plugin == k && r in t.flights)
  }

  /** One more request was issued, after a later read of the engine epoch. */
  predicate Follows(stamp: Stamp, stamp': Stamp) {
    stamp'.serial == stamp.serial + 1 && stamp.epoch <= stamp'.epoch
  }

  /** Parked consumers still hold a frame, and the kept epoch is no later than any of their refusals. */
  ghost predicate ParkedExact(t: Table, stamp: Stamp) {
    && t.parked <= AdmittableKeys(t)
    && (t.parked != {} ==> t.parkedSeen.Some?)
    && (t.parkedSeen.Some? ==> t.parkedSeen.value <= stamp.epoch)
    && (forall k :: k in t.parked ==> k in t.refusedAt && t.parkedSeen.value <= t.refusedAt[k] <= stamp.epoch)
  }

  ghost predicate Coherent(t: Table, stamp: Stamp) {
    && ReadyExact(t) && BusyExact(t) && FlightsExact(t, stamp) && ParkedExact(t, stamp)
    && t.log.Keys <= t.consumers.Keys
  }

  // ---------------------------------------------------- building blocks

  lemma TouchReady(t: Table, k: int, c: Consumer)
    requires ReadyExact(t)
    ensures ReadyExact(Touch(t, k, c))
  {
    var t' := Touch(t, k, c);
    assert AdmittableKeys(t') == if Admittable(c) then AdmittableKeys(t) + {k} else AdmittableKeys(t) - {k};
  }

  lemma BusyKeysUpdate(consumers: map<int, Consumer>, k: int, c: Consumer)
    ensures var before := BusyKeys(consumers);
            && BusyKeys(consumers[k := c]) == (if Busy(c) then before + {k} else before - {k})
            && BusyKeys(consumers - {k}) == before - {k}
            && (k in before <==> k in consumers && Busy(consumers[k]))
  {
  }

  lemma TouchBusy(t: Table, k: int, c: Consumer)
    requires BusyExact(t)
    ensures BusyExact(Touch(t, k, c))
  {
    hide Busy, BusyKeys, Admittable;
    BusyKeysUpdate(t.consumers, k, c);
    var before := BusyKeys(t.consumers);
    if k in before {
      assert |before - {k}| == |before| - 1;
      assert before + {k} == before;
    } else {
      assert |before + {k}| == |before| + 1;
      assert before - {k} == before;
    }
  }

  /** Consumer `k` loses its frame and the flight map forgets it. */
  lemma FlightsCancelled(t: Table, t': Table, k: int, stamp: Stamp)
    requires FlightsExact(t, stamp)
    requires t'.consumers - {k} == t.consumers - {k}
    requires k in t'.consumers ==> t'.consumers[k].inFlight.None?
    requires t'.flights == if ConsumerAt(t, k).inFlight.Some?
                           then t.flights - {ConsumerAt(t, k).inFlight.value.request} else t.flights
    ensures FlightsExact(t', stamp)
    ensures t'.flights == (map r | r in t.flights && t.flights[r] != k :: t.flights[r])
  {
    forall x | x != k ensures (x in t.consumers <==> x in t'.consumers) && ConsumerAt(t, x) == ConsumerAt(t', x) {
      assert x in t'.consumers - {k} <==> x in t.consumers - {k};
      assert x in t.consumers ==> (t.consumers - {k})[x] == (t'.consumers - {k})[x];
    }
    forall r | r in t.flights ensures r in t'.flights <==> t.flights[r] != k {
      assert r.plugin == t.flights[r];
    }
  }

  lemma UnparkKeeps(t: Table, k: int, stamp: Stamp)
    requires ReadyExact(t) && BusyExact(t) && ParkedExact(t, stamp)
    ensures var t' := Unpark(t, k);
            && ReadyExact(t') && BusyExact(t') && ParkedExact(t', stamp)
            && t' == t.(parked := t.parked - {k}, parkedSeen := t'.parkedSeen, ready := t'.ready)
  {
    var t' := Unpark(t, k);
    if k in t.parked {
      assert AdmittableKeys(t') == AdmittableKeys(t);
    } else {
      assert t.parked - {k} == t.parked;
    }
  }

  /** Replacing an unparked consumer keeps everything but the flight map, which the caller settles. */
  lemma TouchKeeps(t: Table, k: int, c: Consumer, stamp: Stamp)
    requires ReadyExact(t) && BusyExact(t) && ParkedExact(t, stamp)
    requires k in t.parked ==> Admittable(c)
    ensures var t' := Touch(t, k, c);
            && ReadyExact(t') && BusyExact(t') && ParkedExact(t', stamp)
            && t' == t.(consumers := t.consumers[k := c], busy := t'.busy, ready := t'.ready)
  {
    TouchReady(t, k, c);
    TouchBusy(t, k, c);
  }

  /** Replacing a consumer whose in-flight frame stays. */
  lemma TouchCoherent(t: Table, k: int, c: Consumer, stamp: Stamp)
    requires Coherent(t, stamp) && c.inFlight == ConsumerAt(t, k).inFlight
    requires k in t.parked ==> Admittable(c)
    ensures var t' := Touch(t, k, c);
            && Coherent(t', stamp)
            && t' == t.(consumers := t.consumers[k := c], busy := t'.busy, ready := t'.ready)
  {
    hide BusyExact, ReadyExact, Touch;
    TouchKeeps(t, k, c, stamp);
  }

  lemma ParkedHoldsFrame(t: Table, k: int, stamp: Stamp)
    requires Coherent(t, stamp) && k in t.parked
    ensures k in t.consumers && Admittable(t.consumers[k])
  {
  }

  // ---------------------------------------------------------- operations

  /** Every index but the flight map depends on nothing a flight or an observation changes. */
  lemma SameIndexes(t: Table, t': Table, stamp: Stamp)
    requires ReadyExact(t) && BusyExact(t) && ParkedExact(t, stamp)
    requires t' == t.(flights := t'.flights, log := t'.log)
    ensures ReadyExact(t') && BusyExact(t') && ParkedExact(t', stamp)
  {
    assert AdmittableKeys(t') == AdmittableKeys(t);
  }

  lemma GappedReady(t: Table, t': Table, k: int)
    requires ReadyExact(t) && ReadyExact(t') && t'.parked == t.parked - {k}
    requires t'.consumers == t.consumers[k := Gapped(ConsumerAt(t, k))]
    ensures k !in t'.ready && t'.ready <= t.ready
  {
  }

  /** What gapping a consumer does: its frame is cancelled and its queues are gone. */
  lemma MarkGapEffect(t: Table, k: int, stamp: Stamp)
    requires Coherent(t, stamp)
    ensures var t' := MarkGap(t, k);
            && Coherent(t', stamp)
            && t'.consumers == t.consumers[k := Gapped(ConsumerAt(t, k))]
            && t'.log == t.log[k := LogAt(t, k) + [GapMarked]]
            && t'.parked == t.parked - {k} && k !in t'.ready && t'.ready <= t.ready
            && t'.flights == (map r | r in t.flights && t.flights[r] != k :: t.flights[r])
  {
    hide Touch, Unpark, ReadyExact, BusyExact, ParkedExact, FlightsExact;
    var flight := ConsumerAt(t, k).inFlight;
    var t1 := if flight.Some? then t.(flights := t.flights - {flight.value.request}) else t;
    SameIndexes(t, t1, stamp);
    UnparkKeeps(t1, k, stamp);
    var t2 := Unpark(t1, k);
    var c := Gapped(ConsumerAt(t, k));
    TouchKeeps(t2, k, c, stamp);
    var t3, t' := Touch(t2, k, c), MarkGap(t, k);
    SameIndexes(t3, t', stamp);
    assert t'.consumers - {k} == t.consumers - {k};
    FlightsCancelled(t, t', k, stamp);
    GappedReady(t, t', k);
  }

  lemma BeginSnapshotEffect(t: Table, k: int, sequence: u64, stamp: Stamp)
    requires Coherent(t, stamp)
    ensures var t' := BeginSnapshot(t, k, sequence);
            && Coherent(t', stamp)
            && t'.consumers == t.consumers[k := Begun(ConsumerAt(t, k), sequence)]
            && t'.log == t.log && t'.parked == t.parked - {k} && t'.flights == t.flights
  {
    UnparkKeeps(t, k, stamp);
    var t1 := Unpark(t, k);
    TouchCoherent(t1, k, Begun(ConsumerAt(t1, k), sequence), stamp);
  }

  /** What one consumer becomes when the front delta reaches it. */
  function Offered(c: Consumer, change: Change, p: Projection): Consumer {
    if c.gap || DeltaFits(c, change) then WithDelta(c, change) else (if p.complete then Begun(Gapped(c), CursorSequence(p)) else Gapped(c))
  }

  function OfferedLog(c: Consumer, change: Change, log: seq<Event>): seq<Event> {
    if c.gap || DeltaFits(c, change) then log else log + [GapMarked]
  }

  lemma OfferDeltaEffect(t: Table, k: int, change: Change, p: Projection, stamp: Stamp)
    requires Coherent(t, stamp) && k in t.consumers
    ensures var t' := OfferDelta(t, k, change, p);
            && Coherent(t', stamp)
            && t'.consumers == t.consumers[k := Offered(t.consumers[k], change, p)]
            && LogAt(t', k) == OfferedLog(t.consumers[k], change, LogAt(t, k))
            && forall x :: x != k ==> LogAt(t', x) == LogAt(t, x)
  {
    hide Coherent, Touch, MarkGap, BeginSnapshot;
    var c := t.consumers[k];
    if k in t.parked {
      ParkedHoldsFrame(t, k, stamp);
    }
    TouchCoherent(t, k, WithDelta(c, change), stamp);
    var t1 := Touch(t, k, WithDelta(c, change));
    if !c.gap && !DeltaFits(c, change) {
      assert t1.consumers == t.consumers;
      MarkGapEffect(t1, k, stamp);
      if p.complete {
        BeginSnapshotEffect(MarkGap(t1, k), k, CursorSequence(p), stamp);
      }
    }
  }

  lemma RegisterEffect(t: Table, k: int, handler: Handler, p: Projection, stamp: Stamp)
    requires Coherent(t, stamp)
    ensures var t' := Register(t, k, handler, p);
            var c := ConsumerAt(t, k).(handler := Some(handler));
            && Coherent(t', stamp) && t'.log == t.log
            && t'.consumers == t.consumers[k := if k !in t.consumers && p.complete then Begun(c, CursorSequence(p)) else c]
  {
    hide Coherent, Touch, BeginSnapshot;
    var existed := k in t.consumers;
    var c := ConsumerAt(t, k).(handler := Some(handler));
    if k in t.parked {
      ParkedHoldsFrame(t, k, stamp);
    }
    TouchCoherent(t, k, c, stamp);
    var t1 := Touch(t, k, c);
    if !existed && p.complete {
      BeginSnapshotEffect(t1, k, CursorSequence(p), stamp);
    }
  }

  lemma RemoveBusy(t: Table, k: int)
    requires BusyExact(t)
    ensures BusyExact(RemoveConsumer(t, k))
  {
    hide Busy, BusyKeys;
    var before := BusyKeys(t.consumers);
    BusyKeysUpdate(t.consumers, k, NEW_CONSUMER);
    if k in t.consumers {
      if k in before { assert |before - {k}| == |before| - 1; } else { assert before - {k} == before; }
    }
  }

  lemma RemoveConsumerEffect(t: Table, k: int, stamp: Stamp)
    requires Coherent(t, stamp)
    ensures var t' := RemoveConsumer(t, k);
            && Coherent(t', stamp)
            && t'.consumers == t.consumers - {k} && t'.log == t.log - {k} && t'.ready == t.ready - {k}
            && t'.flights == (map r | r in t.flights && t.flights[r] != k :: t.flights[r])
  {
    hide FlightsExact, BusyExact, Busy, Admittable;
    var t' := RemoveConsumer(t, k);
    assert t'.consumers == t.consumers - {k};
    assert t'.log == t.log - {k};
    RemoveBusy(t, k);
    assert AdmittableKeys(t') == AdmittableKeys(t) - {k};
    FlightsCancelled(t, t', k, stamp);
  }

  /** Consumer `k` gains a frame under a fresh request. */
  lemma FlightsAdded(t: Table, t': Table, k: int, request: RequestId, stamp: Stamp, stamp': Stamp)
    requires FlightsExact(t, stamp) && Follows(stamp, stamp') && request.plugin == k && request.serial == stamp'.serial
    requires k in t.consumers && t.consumers[k].inFlight.None? && t'.flights == t.flights[request := k]
    requires k in t'.consumers && t'.consumers == t.consumers[k := t'.consumers[k]]
    requires t'.consumers[k].inFlight.Some? && t'.consumers[k].inFlight.value.request == request
    ensures FlightsExact(t', stamp')
  {
  }

  lemma AdmittedEffect(t: Table, k: int, peeked: Peeked, request: RequestId, stamp: Stamp, stamp': Stamp)
    requires Coherent(t, stamp) && k in t.ready && request.plugin == k && Follows(stamp, stamp')
    requires request.serial == stamp'.serial
    requires peeked.Queued? || peeked.ChunkFrame? || peeked.EndFrame?
    ensures var t' := Admitted(t, k, peeked, request);
            var c := Committed(t.consumers[k], peeked);
            && Coherent(t', stamp')
            && t'.consumers == t.consumers[k := c.(inFlight := Some(Flight(request, c.sequence, KindOf(peeked.frame))))]
            && t'.log == t.log[k := LogAt(t, k) + [Sent(peeked.frame)]]
            && t'.flights == t.flights[request := k] && t'.ready == t.ready - {k}
  {
    hide BusyKeys, Touch, FlightsExact;
    var c := Committed(t.consumers[k], peeked);
    TouchKeeps(t, k, c, stamp);
    var t1 := Touch(t, k, c);
    var c' := c.(inFlight := Some(Flight(request, c.sequence, KindOf(peeked.frame))));
    TouchKeeps(t1, k, c', stamp);
    var t' := Admitted(t, k, peeked, request);
    assert t'.consumers == t.consumers[k := c'];
    FlightsAdded(t, t', k, request, stamp, stamp');
    assert AdmittableKeys(t') == AdmittableKeys(t) - {k};
  }

  lemma ParkEffect(t: Table, k: int, stamp: Stamp, stamp': Stamp)
    requires Coherent(t, stamp) && k in t.ready && Follows(stamp, stamp')
    ensures var t' := Park(t, k, stamp'.epoch);
            && Coherent(t', stamp') && t'.consumers == t.consumers && t'.log == t.log
            && t'.parked == t.parked + {k} && t'.ready == t.ready - {k}
  {
    var t' := Park(t, k, stamp'.epoch);
    assert AdmittableKeys(t') == AdmittableKeys(t);
  }

  lemma LandEffect(t: Table, request: RequestId, success: bool, stamp: Stamp)
    requires Coherent(t, stamp) && request in t.flights
    ensures var k := t.flights[request];
            var t' := Land(t, k, request, success);
            && k in t.consumers && Coherent(t', stamp)
            && t.consumers[k].inFlight.Some? && t.consumers[k].inFlight.value.request == request
            && t'.consumers == t.consumers[k := Landed(t.consumers[k], success)] && t'.log == t.log
  {
    hide BusyKeys, Touch;
    var k := t.flights[request];
    var t1 := t.(flights := t.flights - {request});
    assert AdmittableKeys(t1) == AdmittableKeys(t);
    assert k !in t.parked;
    TouchKeeps(t1, k, Landed(t1.consumers[k], success), stamp);
  }

  lemma UnparkAllEffect(t: Table, stamp: Stamp)
    requires Coherent(t, stamp)
    ensures var t' := UnparkAll(t);
            && Coherent(t', stamp) && t'.consumers == t.consumers && t'.log == t.log
            && t'.parked == {} && t'.ready == t.ready + t.parked
  {
    var t' := UnparkAll(t);
    assert AdmittableKeys(t') == AdmittableKeys(t);
    assert t'.ready == t.ready + t.parked;
  }
}
