/**
 Package event delivery: each copy the owner pulls from the router ends in
 exactly one way, its holder is retired once, and the causal lease minted for
 it is released once, however often the router or the causal queue refuses.
 */
module EventDelivery {
  import opened Ordered

  // ---------------------------------------------------------------- state

  /** One copy on its way to a plugin; a copy is named by its pull. */
  datatype Flight = Flight(copy: nat, scope: Option<nat>, holderRetired: bool, pull: Option<nat>)

  /**
   The owner's event fields, and the history of what became of each copy and
   each lease: copies the router took back, copies that are over, how often a
   holder was retired (or lost with a poisoned router), the copy each scope was
   minted for, and the releases admitted.
   */
  datatype Delivery = Delivery(
    inFlight: map<nat, Flight>,
    retirements: seq<Flight>,
    blocked: bool,
    causalFaulted: bool,
    routerFaulted: bool,
    pulled: nat,
    requeued: set<nat>,
    settled: set<nat>,
    holderEnds: multiset<nat>,
    mintedFor: seq<nat>,
    released: multiset<nat>)

  const IDLE := Delivery(map[], [], false, false, false, 0, {}, {}, multiset{}, [], multiset{})

  /** What an attempt on the router's lock finds. */
  datatype Lock = Free | Busy | Poisoned

  /** One retirement attempt: the router lock, then whether the causal queue has room, then whether it is faulted. */
  datatype Attempt = Attempt(lock: Lock, room: bool, fault: bool)

  function NewFlight(copy: nat, scope: Option<nat>): Flight {
    Flight(copy, scope, false, Some(copy))
  }

  // ----------------------------------------------------------- retirement

  /** The holder's part of `retire_event_holder`. */
  function EndHolder(d: Delivery, flight: Flight, lock: Lock): (Delivery, Flight) {
    if flight.holderRetired || lock.Busy? then (d, flight)
    else (d.(holderEnds := d.holderEnds + multiset{flight.copy}), flight.(holderRetired := true, pull := None))
  }

  /** `retire_event_holder`: end the holder, then release the lease; the Boolean says whether the flight is over. */
  function Retire(d: Delivery, flight: Flight, attempt: Attempt): (Delivery, Flight, bool) {
    var (d1, flight1) := EndHolder(d, flight, attempt.lock);
    if !flight1.holderRetired then (d1, flight1, false)
    else if flight1.scope.None? then (d1.(settled := d1.settled + {flight1.copy}), flight1, true)
    else if attempt.room then
      (d1.(settled := d1.settled + {flight1.copy}, released := d1.released + multiset{flight1.scope.value}), flight1, true)
    else (d1, flight1, false)
  }

  function QueueRetirement(d: Delivery, flight: Flight, fault: bool): Delivery {
    var blocks := flight.holderRetired && flight.scope.Some?;
    d.(blocked := d.blocked || blocks, causalFaulted := d.causalFaulted || (blocks && fault),
       retirements := d.retirements + [flight])
  }

  function RetireOrQueue(d: Delivery, flight: Flight, attempt: Attempt): Delivery {
    var (d1, flight1, over) := Retire(d, flight, attempt);
    if over then d1 else QueueRetirement(d1, flight1, attempt.fault)
  }

  /** `flush_pending_event_retirements`: the Boolean says whether the slice parks on the router's lock. */
  function Flush(d: Delivery, first: Attempt, second: Attempt): (Delivery, bool) {
    if d.blocked || d.causalFaulted || d.retirements == [] then (d, false)
    else
      var d0 := d.(retirements := d.retirements[1..]);
      var (d1, flight1, over1) := Retire(d0, d.retirements[0], first);
      var retry := !over1 && !flight1.holderRetired;
      var (d2, flight2, over2) := if retry then Retire(d1, flight1, second) else (d1, flight1, over1);
      if over2 then (d2, false)
      else
        var d3 := d2.(retirements := [flight2] + d2.retirements);
        if !flight2.holderRetired then (d3, true)
        else (d3.(blocked := true, causalFaulted := if retry then second.fault else first.fault), false)
  }

  function Complete(d: Delivery, copy: nat, attempt: Attempt): Delivery {
    if copy !in d.inFlight then d
    else RetireOrQueue(d.(inFlight := d.inFlight - {copy}), d.inFlight[copy], attempt)
  }

  // ------------------------------------------------------------- delivery

  datatype Admission = Stale | Admitted | EngineRefused | NotQueued

  /** What one pulled copy meets on its way, as far as it gets. */
  datatype Meeting =
    | NoHandler
    | NoReservation(fault: bool, takenBack: bool)
    | NoScope
    | Offered(admission: Admission, takenBack: bool)

  /** Give a copy back to the router, or retire it when the router will not have it. */
  function GiveBack(d: Delivery, copy: nat, takenBack: bool, attempt: Attempt): Delivery {
    if takenBack then d.(requeued := d.requeued + {copy}) else RetireOrQueue(d, NewFlight(copy, None), attempt)
  }

  /** Handle one pulled copy. */
  function Deliver(d: Delivery, meeting: Meeting, attempt: Attempt): Delivery {
    var copy := d.pulled;
    var d1 := d.(pulled := copy + 1);
    match meeting
    case NoHandler => RetireOrQueue(d1, NewFlight(copy, None), attempt)
    case NoReservation(fault, takenBack) =>
      GiveBack(d1.(blocked := true, causalFaulted := d1.causalFaulted || fault), copy, takenBack, attempt)
    case NoScope => RetireOrQueue(d1, NewFlight(copy, None), attempt)
    case Offered(admission, takenBack) =>
      var scope := |d1.mintedFor|;
      var d2 := d1.(mintedFor := d1.mintedFor + [copy]);
      var d3 := d2.(released := d2.released + multiset{scope});
      match admission
      case Admitted => d2.(inFlight := d2.inFlight[copy := NewFlight(copy, Some(scope))])
      case EngineRefused => GiveBack(d3, copy, takenBack, attempt)
      case _ => RetireOrQueue(d3, NewFlight(copy, None), attempt)
  }

  datatype Handling = Handling(meeting: Meeting, attempt: Attempt)

  function DeliverAll(d: Delivery, batch: seq<Handling>, i: nat): Delivery
    requires i <= |batch|
    decreases |batch| - i
  {
    if i == |batch| then d else DeliverAll(Deliver(d, batch[i].meeting, batch[i].attempt), batch, i + 1)
  }

  /** `run_package_event_delivery_slice`, once its wait is over: one retirement, then one batch. */
  function Slice(d: Delivery, poisoned: bool, first: Attempt, second: Attempt, batch: seq<Handling>): Delivery {
    var d1 := if poisoned then d.(routerFaulted := true) else d;
    var (d2, parked) := Flush(d1, first, second);
    if parked || d2.blocked || d2.causalFaulted || d2.routerFaulted then d2 else DeliverAll(d2, batch, 0)
  }

  // ----------------------------------------------------------------- runs

  datatype Step =
    | RunSlice(poisoned: bool, first: Attempt, second: Attempt, batch: seq<Handling>)
    | Finish(copy: nat, attempt: Attempt)
    | CausalProgress

  function Next(d: Delivery, step: Step): Delivery {
    match step
    case RunSlice(poisoned, first, second, batch) => Slice(d, poisoned, first, second, batch)
    case Finish(copy, attempt) => Complete(d, copy, attempt)
    case CausalProgress => if d.blocked && !d.causalFaulted then d.(blocked := false) else d
  }

  ghost predicate IsRun(states: seq<Delivery>, steps: seq<Step>) {
    && |states| == |steps| + 1 && states[0] == IDLE
    && (forall i :: 0 <= i < |steps| ==> states[i + 1] == Next(states[i], steps[i]))
  }

  // ------------------------------------------------------------ invariant

  function Indicator(b: bool): nat {
    if b then 1 else 0
  }

  function WaitingOf(flights: seq<Flight>, copy: nat): nat {
    if flights == [] then 0 else Indicator(flights[0].copy == copy) + WaitingOf(flights[1..], copy)
  }

  function LeasesOf(flights: seq<Flight>, scope: nat): nat {
    if flights == [] then 0 else Indicator(flights[0].scope == Some(scope)) + LeasesOf(flights[1..], scope)
  }

  function EndedOf(flights: seq<Flight>, copy: nat): nat {
    if flights == [] then 0
    else Indicator(flights[0].copy == copy && flights[0].holderRetired) + EndedOf(flights[1..], copy)
  }

  /** In how many places a copy is. */
  function Places(d: Delivery, copy: nat): nat {
    Indicator(copy in d.inFlight) + WaitingOf(d.retirements, copy)
    + Indicator(copy in d.requeued) + Indicator(copy in d.settled)
  }

  /** How often a scope's lease is still held or was released. */
  function Leases(d: Delivery, scope: nat): nat
    requires scope < |d.mintedFor|
  {
    var copy := d.mintedFor[scope];
    Indicator(copy in d.inFlight && d.inFlight[copy].scope == Some(scope)) + LeasesOf(d.retirements, scope)
    + d.released[scope]
  }

  predicate FlightFits(d: Delivery, flight: Flight) {
    && flight.pull == (if flight.holderRetired then None else Some(flight.copy))
    && (flight.scope.Some? ==> flight.scope.value < |d.mintedFor| && d.mintedFor[flight.scope.value] == flight.copy)
  }

  ghost predicate CopiesConserved(d: Delivery) {
    forall copy: nat :: Places(d, copy) == Indicator(copy < d.pulled)
  }

  ghost predicate HoldersOnce(d: Delivery) {
    forall copy: nat :: d.holderEnds[copy] == Indicator(copy in d.settled) + EndedOf(d.retirements, copy)
  }

  ghost predicate LeasesOnce(d: Delivery) {
    && (forall scope: nat :: scope < |d.mintedFor| ==> Leases(d, scope) == 1)
    && (forall scope: nat :: scope >= |d.mintedFor| ==> d.released[scope] == 0)
  }

  ghost predicate FlightsFit(d: Delivery) {
    && (forall copy :: copy in d.inFlight ==>
          d.inFlight[copy].copy == copy && d.inFlight[copy].scope.Some? && !d.inFlight[copy].holderRetired
          && FlightFits(d, d.inFlight[copy]))
    && (forall i :: 0 <= i < |d.retirements| ==> FlightFits(d, d.retirements[i]))
  }

  ghost predicate Conserved(d: Delivery) {
    CopiesConserved(d) && HoldersOnce(d) && LeasesOnce(d) && FlightsFit(d)
  }

  // --------------------------------------------------- a flight in hand

  /** The state with one flight taken out of every collection. */
  function Holding(d: Delivery, flight: Flight): Delivery {
    d.(retirements := [flight] + d.retirements)
  }

  lemma {:induction false} CountsOfSnoc(flights: seq<Flight>, flight: Flight, n: nat)
    ensures WaitingOf(flights + [flight], n) == WaitingOf([flight] + flights, n)
    ensures LeasesOf(flights + [flight], n) == LeasesOf([flight] + flights, n)
    ensures EndedOf(flights + [flight], n) == EndedOf([flight] + flights, n)
  {
    if flights == [] {
      assert flights + [flight] == [flight] + flights;
    } else {
      assert (flights + [flight])[1..] == flights[1..] + [flight];
      assert ([flight] + flights)[1..] == flights;
      assert ([flight] + flights[1..])[1..] == flights[1..];
      CountsOfSnoc(flights[1..], flight, n);
    }
  }

  lemma CountsOfCons(flight: Flight, flights: seq<Flight>, n: nat)
    ensures WaitingOf([flight] + flights, n) == Indicator(flight.copy == n) + WaitingOf(flights, n)
    ensures LeasesOf([flight] + flights, n) == Indicator(flight.scope == Some(n)) + LeasesOf(flights, n)
    ensures EndedOf([flight] + flights, n) == Indicator(flight.copy == n && flight.holderRetired) + EndedOf(flights, n)
  {
    assert ([flight] + flights)[1..] == flights;
  }

  /** A flight may wait at either end of the queue. */
  lemma QueuedConserves(d: Delivery, flight: Flight)
    requires Conserved(Holding(d, flight))
    ensures Conserved(d.(retirements := d.retirements + [flight]))
  {
    var h, q := Holding(d, flight), d.(retirements := d.retirements + [flight]);
    forall n: nat ensures Places(q, n) == Places(h, n) && EndedOf(q.retirements, n) == EndedOf(h.retirements, n)
      && LeasesOf(q.retirements, n) == LeasesOf(h.retirements, n)
    {
      CountsOfSnoc(d.retirements, flight, n);
    }
    hide WaitingOf, LeasesOf, EndedOf, FlightFits;
    forall i | 0 <= i < |q.retirements| ensures FlightFits(q, q.retirements[i]) {
      var j := if i < |d.retirements| then i + 1 else 0;
      assert FlightFits(h, h.retirements[j]) && h.retirements[j] == q.retirements[i];
      SameMints(h, q, q.retirements[i]);
    }
    forall copy | copy in q.inFlight ensures FlightFits(q, q.inFlight[copy]) {
      SameMints(h, q, q.inFlight[copy]);
    }
    assert CopiesConserved(q) by { assert CopiesConserved(h); }
    assert HoldersOnce(q) by { assert HoldersOnce(h); }
    assert LeasesOnce(q) by {
      forall scope: nat | scope < |q.mintedFor| ensures Leases(q, scope) == 1 { assert Leases(h, scope) == 1; }
    }
  }

  lemma SameMints(d: Delivery, d': Delivery, flight: Flight)
    requires d'.mintedFor == d.mintedFor
    ensures FlightFits(d', flight) == FlightFits(d, flight)
  {
  }

  // ------------------------------------------------------ each operation

  lemma EndHolderConserves(d: Delivery, flight: Flight, lock: Lock)
    requires Conserved(Holding(d, flight))
    ensures var (d', flight') := EndHolder(d, flight, lock);
            Conserved(Holding(d', flight')) && flight'.copy == flight.copy && flight'.scope == flight.scope
  {
    var (d', flight') := EndHolder(d, flight, lock);
    if flight' != flight {
      var h, h' := Holding(d, flight), Holding(d', flight');
      forall n: nat ensures Places(h', n) == Places(h, n) && LeasesOf(h'.retirements, n) == LeasesOf(h.retirements, n)
        && EndedOf(h'.retirements, n) == EndedOf(h.retirements, n) + Indicator(n == flight.copy)
      {
        CountsOfCons(flight, d.retirements, n);
        CountsOfCons(flight', d.retirements, n);
      }
      assert FlightFits(h, h.retirements[0]);
      HolderEnded(h, h', flight.copy);
    }
  }

  lemma HolderEnded(h: Delivery, h': Delivery, copy: nat)
    requires Conserved(h)
    requires h' == h.(holderEnds := h.holderEnds + multiset{copy}, retirements := h'.retirements)
    requires forall n: nat :: Places(h', n) == Places(h, n)
    requires forall n: nat :: LeasesOf(h'.retirements, n) == LeasesOf(h.retirements, n)
    requires forall n: nat :: EndedOf(h'.retirements, n) == EndedOf(h.retirements, n) + Indicator(n == copy)
    requires |h'.retirements| == |h.retirements| > 0 && h'.retirements[1..] == h.retirements[1..]
    requires FlightFits(h', h'.retirements[0])
    ensures Conserved(h')
  {
    hide WaitingOf, LeasesOf, EndedOf, Places;
    assert CopiesConserved(h');
    assert HoldersOnce(h');
    assert LeasesOnce(h') by {
      forall scope: nat | scope < |h'.mintedFor| ensures Leases(h', scope) == 1 { assert Leases(h, scope) == 1; }
    }
    forall i | 0 <= i < |h'.retirements| ensures FlightFits(h', h'.retirements[i]) {
      if i > 0 {
        assert h'.retirements[i] == h'.retirements[1..][i - 1] == h.retirements[i];
        assert FlightFits(h, h.retirements[i]);
      }
    }
  }

  /** The flight in hand is over: its copy settles, and its lease, if it has one, is released. */
  lemma SettledConserves(d: Delivery, flight: Flight)
    requires Conserved(Holding(d, flight)) && flight.holderRetired
    ensures Conserved(d.(settled := d.settled + {flight.copy},
                         released := if flight.scope.Some? then d.released + multiset{flight.scope.value} else d.released))
  {
    var h := Holding(d, flight);
    var d' := d.(settled := d.settled + {flight.copy},
                 released := if flight.scope.Some? then d.released + multiset{flight.scope.value} else d.released);
    assert flight == h.retirements[0] && FlightFits(h, flight);
    forall n: nat ensures Places(d', n) == Places(h, n)
      && EndedOf(h.retirements, n) == EndedOf(d.retirements, n) + Indicator(flight.copy == n)
      && LeasesOf(h.retirements, n) == LeasesOf(d.retirements, n) + Indicator(flight.scope == Some(n))
    {
      CountsOfCons(flight, d.retirements, n);
      assert Places(h, n) == Indicator(n < h.pulled);
    }
    hide WaitingOf, LeasesOf, EndedOf, FlightsFit;
    assert CopiesConserved(d') by { assert CopiesConserved(h); }
    assert HoldersOnce(d') by { SettledHolders(d, d', flight, h); }
    assert LeasesOnce(d') by {
      forall scope: nat | scope < |d'.mintedFor| ensures Leases(d', scope) == 1 { assert Leases(h, scope) == 1; }
    }
    DroppedFits(h, d', flight);
  }

  /** Dropping the flight in hand leaves the others as they were. */
  lemma DroppedFits(h: Delivery, d': Delivery, flight: Flight)
    requires FlightsFit(h) && h.retirements == [flight] + d'.retirements
    requires d'.inFlight == h.inFlight && d'.mintedFor == h.mintedFor
    ensures FlightsFit(d')
  {
    forall i | 0 <= i < |d'.retirements| ensures FlightFits(d', d'.retirements[i]) {
      assert d'.retirements[i] == h.retirements[i + 1] && FlightFits(h, h.retirements[i + 1]);
    }
    forall copy | copy in d'.inFlight ensures FlightFits(d', d'.inFlight[copy]) {
      assert FlightFits(h, h.inFlight[copy]);
    }
  }

  lemma SettledHolders(d: Delivery, d': Delivery, flight: Flight, h: Delivery)
    requires h == Holding(d, flight) && flight.holderRetired && HoldersOnce(h) && CopiesConserved(h)
    requires d'.settled == d.settled + {flight.copy} && d'.holderEnds == d.holderEnds && d'.retirements == d.retirements
    ensures HoldersOnce(d')
  {
    forall n: nat ensures d'.holderEnds[n] == Indicator(n in d'.settled) + EndedOf(d'.retirements, n) {
      CountsOfCons(flight, d.retirements, n);
      assert Places(h, n) == Indicator(n < h.pulled);
      assert h.holderEnds[n] == Indicator(n in h.settled) + EndedOf(h.retirements, n);
    }
  }

  lemma RetireConserves(d: Delivery, flight: Flight, attempt: Attempt)
    requires Conserved(Holding(d, flight))
    ensures var (d', flight', over) := Retire(d, flight, attempt);
            if over then Conserved(d') else Conserved(Holding(d', flight'))
  {
    hide Conserved, EndHolder;
    EndHolderConserves(d, flight, attempt.lock);
    var (d1, flight1) := EndHolder(d, flight, attempt.lock);
    if flight1.holderRetired {
      SettledConserves(d1, flight1);
    }
  }

  lemma RetireOrQueueConserves(d: Delivery, flight: Flight, attempt: Attempt)
    requires Conserved(Holding(d, flight))
    ensures Conserved(RetireOrQueue(d, flight, attempt))
  {
    hide Conserved, Retire;
    RetireConserves(d, flight, attempt);
    var (d1, flight1, over) := Retire(d, flight, attempt);
    if !over {
      QueuedConserves(d1, flight1);
      FlagsDoNotMatter(d1.(retirements := d1.retirements + [flight1]), RetireOrQueue(d, flight, attempt));
    }
  }

  lemma FlagsDoNotMatter(d: Delivery, d': Delivery)
    requires Conserved(d)
    requires d' == d.(blocked := d'.blocked, causalFaulted := d'.causalFaulted, routerFaulted := d'.routerFaulted)
    ensures Conserved(d')
  {
    forall n: nat ensures Places(d', n) == Places(d, n) {}
    forall scope: nat | scope < |d'.mintedFor| ensures Leases(d', scope) == 1 { assert Leases(d, scope) == 1; }
    forall i | 0 <= i < |d'.retirements| ensures FlightFits(d', d'.retirements[i]) {
      assert FlightFits(d, d.retirements[i]);
    }
  }

  lemma FlushConserves(d: Delivery, first: Attempt, second: Attempt)
    requires Conserved(d)
    ensures Conserved(Flush(d, first, second).0)
  {
    hide Conserved, Retire;
    if !d.blocked && !d.causalFaulted && d.retirements != [] {
      var d0, flight := d.(retirements := d.retirements[1..]), d.retirements[0];
      assert Holding(d0, flight) == d by {
        assert [flight] + d.retirements[1..] == d.retirements;
      }
      RetireConserves(d0, flight, first);
      var (d1, flight1, over1) := Retire(d0, flight, first);
      var retry := !over1 && !flight1.holderRetired;
      if retry {
        RetireConserves(d1, flight1, second);
      }
      var (d2, flight2, over2) := if retry then Retire(d1, flight1, second) else (d1, flight1, over1);
      if !over2 {
        FlagsDoNotMatter(Holding(d2, flight2), Flush(d, first, second).0);
      }
    }
  }

  lemma CompleteConserves(d: Delivery, copy: nat, attempt: Attempt)
    requires Conserved(d)
    ensures Conserved(Complete(d, copy, attempt))
  {
    if copy in d.inFlight {
      var d1, flight := d.(inFlight := d.inFlight - {copy}), d.inFlight[copy];
      LandedConserves(d, copy);
      hide Conserved, RetireOrQueue;
      RetireOrQueueConserves(d1, flight, attempt);
    }
  }

  lemma LandedConserves(d: Delivery, copy: nat)
    requires Conserved(d) && copy in d.inFlight
    ensures Conserved(Holding(d.(inFlight := d.inFlight - {copy}), d.inFlight[copy]))
  {
    var flight := d.inFlight[copy];
    var h := Holding(d.(inFlight := d.inFlight - {copy}), flight);
    assert flight.copy == copy && FlightFits(d, flight);
    forall n: nat ensures Places(h, n) == Places(d, n) && EndedOf(h.retirements, n) == EndedOf(d.retirements, n)
      && LeasesOf(h.retirements, n) == LeasesOf(d.retirements, n) + Indicator(flight.scope == Some(n))
    {
      CountsOfCons(flight, d.retirements, n);
    }
    hide WaitingOf, LeasesOf, EndedOf, FlightFits;
    assert CopiesConserved(h) by { assert CopiesConserved(d); }
    assert HoldersOnce(h) by { assert HoldersOnce(d); }
    assert LeasesOnce(h) by {
      forall scope: nat | scope < |h.mintedFor| ensures Leases(h, scope) == 1 {
        assert Leases(d, scope) == 1;
        LandedLease(d, h, copy, scope);
      }
    }
    assert FlightsFit(h) by {
      forall i | 0 <= i < |h.retirements| ensures FlightFits(h, h.retirements[i]) {
        if i > 0 { assert FlightFits(d, d.retirements[i - 1]); }
        SameMints(d, h, h.retirements[i]);
      }
      forall c | c in h.inFlight ensures FlightFits(h, h.inFlight[c]) {
        SameMints(d, h, h.inFlight[c]);
      }
    }
  }

  lemma LandedLease(d: Delivery, h: Delivery, copy: nat, scope: nat)
    requires copy in d.inFlight && FlightsFit(d) && scope < |d.mintedFor|
    requires h == Holding(d.(inFlight := d.inFlight - {copy}), d.inFlight[copy])
    ensures Leases(h, scope) == Leases(d, scope)
  {
    CountsOfCons(d.inFlight[copy], d.retirements, scope);
    assert FlightFits(d, d.inFlight[copy]);
  }

  /** A newly pulled copy is in hand, without a lease. */
  lemma PulledConserves(d: Delivery)
    requires Conserved(d)
    ensures Conserved(Holding(d.(pulled := d.pulled + 1), NewFlight(d.pulled, None)))
  {
    var flight := NewFlight(d.pulled, None);
    var h := Holding(d.(pulled := d.pulled + 1), flight);
    forall n: nat ensures Places(h, n) == Places(d, n) + Indicator(n == d.pulled)
      && EndedOf(h.retirements, n) == EndedOf(d.retirements, n) && LeasesOf(h.retirements, n) == LeasesOf(d.retirements, n)
    {
      CountsOfCons(flight, d.retirements, n);
    }
    hide WaitingOf, LeasesOf, EndedOf;
    assert CopiesConserved(h) by { assert CopiesConserved(d); }
    assert HoldersOnce(h) by { assert HoldersOnce(d); }
    assert LeasesOnce(h) by {
      forall scope: nat | scope < |h.mintedFor| ensures Leases(h, scope) == 1 { assert Leases(d, scope) == 1; }
    }
    forall i | 0 <= i < |h.retirements| ensures FlightFits(h, h.retirements[i]) {
      if i > 0 { assert FlightFits(d, d.retirements[i - 1]); }
    }
  }

  lemma TakenBackConserves(d: Delivery, copy: nat)
    requires Conserved(Holding(d, NewFlight(copy, None)))
    ensures Conserved(d.(requeued := d.requeued + {copy}))
  {
    var flight := NewFlight(copy, None);
    var h, d' := Holding(d, flight), d.(requeued := d.requeued + {copy});
    forall n: nat ensures Places(d', n) == Places(h, n) && EndedOf(h.retirements, n) == EndedOf(d.retirements, n)
      && LeasesOf(h.retirements, n) == LeasesOf(d.retirements, n)
    {
      CountsOfCons(flight, d.retirements, n);
      assert Places(h, n) == Indicator(n < h.pulled);
    }
    hide WaitingOf, LeasesOf, EndedOf, FlightsFit;
    assert CopiesConserved(d') by { assert CopiesConserved(h); }
    assert HoldersOnce(d') by { assert HoldersOnce(h); }
    assert LeasesOnce(d') by {
      forall scope: nat | scope < |d'.mintedFor| ensures Leases(d', scope) == 1 { assert Leases(h, scope) == 1; }
    }
    DroppedFits(h, d', flight);
  }

  /** Minting a scope for the copy in hand and releasing it at once changes no balance. */
  lemma MintedAndReleasedConserves(d: Delivery, copy: nat)
    requires Conserved(Holding(d, NewFlight(copy, None)))
    ensures Conserved(Holding(d.(mintedFor := d.mintedFor + [copy], released := d.released + multiset{|d.mintedFor|}),
                              NewFlight(copy, None)))
  {
    var flight := NewFlight(copy, None);
    var h := Holding(d, flight);
    var h' := Holding(d.(mintedFor := d.mintedFor + [copy], released := d.released + multiset{|d.mintedFor|}), flight);
    forall n: nat ensures Places(h', n) == Places(h, n) {}
    forall i | 0 <= i < |h'.retirements| ensures FlightFits(h', h'.retirements[i]) {
      assert FlightFits(h, h.retirements[i]);
    }
    forall c | c in h'.inFlight ensures FlightFits(h', h'.inFlight[c]) { assert FlightFits(h, h.inFlight[c]); }
    forall scope: nat | scope < |h'.mintedFor| ensures Leases(h', scope) == 1 {
      if scope < |h.mintedFor| {
        assert Leases(h, scope) == 1;
      } else {
        NoLeaseYet(h, h.retirements, scope);
      }
    }
  }

  lemma {:induction false} NoLeaseYet(d: Delivery, flights: seq<Flight>, scope: nat)
    requires scope >= |d.mintedFor| && forall i :: 0 <= i < |flights| ==> FlightFits(d, flights[i])
    ensures LeasesOf(flights, scope) == 0
  {
    if flights != [] {
      assert FlightFits(d, flights[0]);
      forall i | 0 <= i < |flights[1..]| ensures FlightFits(d, flights[1..][i]) { assert FlightFits(d, flights[i + 1]); }
      NoLeaseYet(d, flights[1..], scope);
    }
  }

  /** The copy in hand takes off with a new lease. */
  lemma LaunchedConserves(d: Delivery, copy: nat)
    requires Conserved(Holding(d, NewFlight(copy, None)))
    ensures Conserved(d.(mintedFor := d.mintedFor + [copy],
                         inFlight := d.inFlight[copy := NewFlight(copy, Some(|d.mintedFor|))]))
  {
    var flight := NewFlight(copy, None);
    var h := Holding(d, flight);
    var d' := d.(mintedFor := d.mintedFor + [copy], inFlight := d.inFlight[copy := NewFlight(copy, Some(|d.mintedFor|))]);
    forall n: nat ensures Places(d', n) == Places(h, n) && EndedOf(h.retirements, n) == EndedOf(d.retirements, n)
      && LeasesOf(h.retirements, n) == LeasesOf(d.retirements, n)
    {
      CountsOfCons(flight, d.retirements, n);
      assert Places(h, n) == Indicator(n < h.pulled);
    }
    assert copy !in d.inFlight by {
      CountsOfCons(flight, d.retirements, copy);
      assert Places(h, copy) == Indicator(copy < h.pulled);
    }
    hide WaitingOf, EndedOf, LeasesOf, FlightsFit;
    LaunchedFits(d, h, d', copy);
    assert CopiesConserved(d') by { assert CopiesConserved(h); }
    assert HoldersOnce(d') by { assert HoldersOnce(h); }
    assert LeasesOnce(d') by {
      forall scope: nat | scope < |d'.mintedFor| ensures Leases(d', scope) == 1 {
        if scope < |d.mintedFor| {
          LaunchedLease(d, h, d', copy, scope);
        } else {
          LaunchedNewLease(d, h, d', copy);
        }
      }
    }
  }

  lemma LaunchedFits(d: Delivery, h: Delivery, d': Delivery, copy: nat)
    requires h == Holding(d, NewFlight(copy, None)) && FlightsFit(h)
    requires d' == d.(mintedFor := d.mintedFor + [copy], inFlight := d.inFlight[copy := NewFlight(copy, Some(|d.mintedFor|))])
    ensures FlightsFit(d')
  {
    forall i | 0 <= i < |d'.retirements| ensures FlightFits(d', d'.retirements[i]) {
      assert d'.retirements[i] == h.retirements[i + 1] && FlightFits(h, h.retirements[i + 1]);
    }
    forall c | c in d'.inFlight ensures FlightFits(d', d'.inFlight[c]) {
      if c != copy { assert FlightFits(h, h.inFlight[c]); }
    }
  }

  lemma LaunchedNewLease(d: Delivery, h: Delivery, d': Delivery, copy: nat)
    requires h == Holding(d, NewFlight(copy, None)) && FlightsFit(h) && LeasesOnce(h)
    requires d' == d.(mintedFor := d.mintedFor + [copy], inFlight := d.inFlight[copy := NewFlight(copy, Some(|d.mintedFor|))])
    ensures Leases(d', |d.mintedFor|) == 1
  {
    CountsOfCons(NewFlight(copy, None), d.retirements, |d.mintedFor|);
    NoLeaseYet(h, h.retirements, |d.mintedFor|);
  }

  lemma LaunchedLease(d: Delivery, h: Delivery, d': Delivery, copy: nat, scope: nat)
    requires h == Holding(d, NewFlight(copy, None)) && copy !in d.inFlight && scope < |d.mintedFor|
    requires d' == d.(mintedFor := d.mintedFor + [copy], inFlight := d.inFlight[copy := NewFlight(copy, Some(|d.mintedFor|))])
    requires Leases(h, scope) == 1
    ensures Leases(d', scope) == 1
  {
    CountsOfCons(NewFlight(copy, None), d.retirements, scope);
  }

  lemma GiveBackConserves(d: Delivery, copy: nat, takenBack: bool, attempt: Attempt)
    requires Conserved(Holding(d, NewFlight(copy, None)))
    ensures Conserved(GiveBack(d, copy, takenBack, attempt))
  {
    hide Conserved, RetireOrQueue;
    if takenBack {
      TakenBackConserves(d, copy);
    } else {
      RetireOrQueueConserves(d, NewFlight(copy, None), attempt);
    }
  }

  lemma DeliverConserves(d: Delivery, meeting: Meeting, attempt: Attempt)
    requires Conserved(d)
    ensures Conserved(Deliver(d, meeting, attempt))
  {
    hide Conserved, RetireOrQueue, GiveBack;
    var copy := d.pulled;
    var d1, flight := d.(pulled := copy + 1), NewFlight(copy, None);
    PulledConserves(d);
    match meeting
    case NoReservation(fault, takenBack) =>
      var d2 := d1.(blocked := true, causalFaulted := d1.causalFaulted || fault);
      FlagsDoNotMatter(Holding(d1, flight), Holding(d2, flight));
      GiveBackConserves(d2, copy, takenBack, attempt);
    case Offered(admission, takenBack) =>
      if admission.Admitted? {
        LaunchedConserves(d1, copy);
      } else {
        MintedAndReleasedConserves(d1, copy);
        var d3 := d1.(mintedFor := d1.mintedFor + [copy], released := d1.released + multiset{|d1.mintedFor|});
        GiveBackConserves(d3, copy, takenBack, attempt);
        RetireOrQueueConserves(d3, flight, attempt);
      }
    case _ =>
      RetireOrQueueConserves(d1, flight, attempt);
  }

  lemma {:induction false} DeliverAllConserves(d: Delivery, batch: seq<Handling>, i: nat)
    requires Conserved(d) && i <= |batch|
    ensures Conserved(DeliverAll(d, batch, i))
    decreases |batch| - i
  {
    hide Conserved, Deliver;
    if i < |batch| {
      DeliverConserves(d, batch[i].meeting, batch[i].attempt);
      DeliverAllConserves(Deliver(d, batch[i].meeting, batch[i].attempt), batch, i + 1);
    }
  }

  lemma StepConserves(d: Delivery, step: Step)
    requires Conserved(d)
    ensures Conserved(Next(d, step))
  {
    hide Conserved, Flush, DeliverAll, Complete;
    match step
    case RunSlice(poisoned, first, second, batch) =>
      var d1 := if poisoned then d.(routerFaulted := true) else d;
      FlagsDoNotMatter(d, d1);
      FlushConserves(d1, first, second);
      DeliverAllConserves(Flush(d1, first, second).0, batch, 0);
    case Finish(copy, attempt) =>
      CompleteConserves(d, copy, attempt);
    case CausalProgress =>
      FlagsDoNotMatter(d, Next(d, step));
  }

  lemma {:induction false} RunConserves(states: seq<Delivery>, steps: seq<Step>, i: nat)
    requires IsRun(states, steps) && i < |states|
    ensures Conserved(states[i])
  {
    if i > 0 {
      RunConserves(states, steps, i - 1);
      StepConserves(states[i - 1], steps[i - 1]);
    }
  }

  // ------------------------------------------------------------- theorems

  /** In every run, each pulled copy is in exactly one place: in flight, awaiting retirement, requeued or settled. */
  lemma EveryCopyInOnePlace(states: seq<Delivery>, steps: seq<Step>, i: nat, copy: nat)
    requires IsRun(states, steps) && i < |states|
    ensures Places(states[i], copy) == Indicator(copy < states[i].pulled)
  {
    RunConserves(states, steps, i);
  }

  /** Each holder ends at most once, and exactly once when its copy settled. */
  lemma EveryHolderEndsOnce(states: seq<Delivery>, steps: seq<Step>, i: nat, copy: nat)
    requires IsRun(states, steps) && i < |states|
    ensures states[i].holderEnds[copy] <= 1
    ensures copy in states[i].settled ==> states[i].holderEnds[copy] == 1
    ensures copy in states[i].requeued || copy in states[i].inFlight ==> states[i].holderEnds[copy] == 0
  {
    RunConserves(states, steps, i);
    var d := states[i];
    assert Places(d, copy) == Indicator(copy < d.pulled);
    EndedAtMostWaiting(d.retirements, copy);
  }

  lemma {:induction false} EndedAtMostWaiting(flights: seq<Flight>, copy: nat)
    ensures EndedOf(flights, copy) <= WaitingOf(flights, copy)
  {
    if flights != [] {
      EndedAtMostWaiting(flights[1..], copy);
    }
  }

  /** The router hands a holder out again only after it took its previous copy back; `holderOf` names each copy's holder. */
  ghost predicate HandedAgainWhenRequeued(d: Delivery, holderOf: nat -> int) {
    forall a: nat, b: nat :: a < b < d.pulled && holderOf(a) == holderOf(b) ==> a in d.requeued
  }

  /** How often a holder ended, over the first `n` copies pulled. */
  function EndsOfHolder(d: Delivery, holderOf: nat -> int, holder: int, n: nat): nat {
    if n == 0 then 0
    else (if holderOf(n - 1) == holder then d.holderEnds[n - 1] else 0) + EndsOfHolder(d, holderOf, holder, n - 1)
  }

  /** Across all requeues and repeated pulls, a holder ends at most once, and does so with its last copy. */
  lemma {:induction false} EveryHolderEndsOnceAcrossPulls(states: seq<Delivery>, steps: seq<Step>, i: nat, holderOf: nat -> int, holder: int, n: nat)
    requires IsRun(states, steps) && i < |states| && n <= states[i].pulled
    requires HandedAgainWhenRequeued(states[i], holderOf)
    ensures EndsOfHolder(states[i], holderOf, holder, n) <= 1
    ensures forall later: nat :: n <= later < states[i].pulled && holderOf(later) == holder ==>
              EndsOfHolder(states[i], holderOf, holder, n) == 0
    decreases n
  {
    if n > 0 {
      EveryHolderEndsOnceAcrossPulls(states, steps, i, holderOf, holder, n - 1);
      EveryHolderEndsOnce(states, steps, i, n - 1);
    }
  }

  /** Each minted lease is held by one flight or released, never both and never twice. */
  lemma EveryLeaseReleasedOnce(states: seq<Delivery>, steps: seq<Step>, i: nat, scope: nat)
    requires IsRun(states, steps) && i < |states| && scope < |states[i].mintedFor|
    ensures Leases(states[i], scope) == 1 && states[i].released[scope] <= 1
  {
    RunConserves(states, steps, i);
  }

  /** Once nothing flies and nothing waits, every copy was requeued or retired and every lease was released once. */
  lemma QuietDeliveryIsSettled(states: seq<Delivery>, steps: seq<Step>, i: nat)
    requires IsRun(states, steps) && i < |states|
    requires states[i].inFlight == map[] && states[i].retirements == []
    ensures var d := states[i];
            && (forall copy: nat :: copy < d.pulled ==> (copy in d.settled <==> copy !in d.requeued))
            && (forall copy: nat :: copy in d.settled ==> d.holderEnds[copy] == 1)
            && (forall scope: nat :: scope < |d.mintedFor| ==> d.released[scope] == 1)
  {
    RunConserves(states, steps, i);
    var d := states[i];
    forall copy: nat | copy < d.pulled ensures copy in d.settled <==> copy !in d.requeued {
      assert Places(d, copy) == 1;
    }
    forall scope: nat | scope < |d.mintedFor| ensures d.released[scope] == 1 {
      assert Leases(d, scope) == 1;
    }
  }

  /** A retry makes progress: with the router free and causal room, the front retirement is over. */
  lemma FlushSettlesFront(d: Delivery, first: Attempt, second: Attempt)
    requires !d.blocked && !d.causalFaulted && d.retirements != []
    requires first.lock != Busy || second.lock != Busy
    requires first.room && second.room
    ensures var (d', parked) := Flush(d, first, second);
            !parked && d'.retirements == d.retirements[1..] && d.retirements[0].copy in d'.settled
  {
  }

  // ------------------------------------------------------ the owner's code

  /** The owner-loop fields of event delivery, with the router's pull counter and the causal table's scopes. */
  class EventOwner {
    var inFlight: map<nat, Flight>
    var pendingRetirements: seq<Flight>
    var causalBlocked: bool
    var causalFaulted: bool
    var routerFaulted: bool
    var pulled: nat
    ghost var requeued: set<nat>
    ghost var settled: set<nat>
    ghost var holderEnds: multiset<nat>
    var mintedFor: seq<nat>
    ghost var released: multiset<nat>

    ghost function View(): Delivery
      reads this
    {
      Delivery(inFlight, pendingRetirements, causalBlocked, causalFaulted, routerFaulted, pulled, requeued, settled,
               holderEnds, mintedFor, released)
    }

    constructor ()
      ensures View() == IDLE
    {
      inFlight, pendingRetirements, causalBlocked, causalFaulted, routerFaulted := map[], [], false, false, false;
      pulled, requeued, settled, holderEnds, mintedFor, released := 0, {}, {}, multiset{}, [], multiset{};
    }

    method RetireEventHolder(flight: Flight, attempt: Attempt) returns (flight': Flight, over: bool)
      modifies this`settled, this`holderEnds, this`released
      ensures (View(), flight', over) == Retire(old(View()), flight, attempt)
    {
      flight' := flight;
      if !flight'.holderRetired {
        if attempt.lock.Busy? {
          return flight', false;
        }
        flight' := flight'.(holderRetired := true, pull := None);
        holderEnds := holderEnds + multiset{flight.copy};
      }
      if flight'.scope.Some? {
        if !attempt.room {
          return flight', false;
        }
        released := released + multiset{flight'.scope.value};
      }
      settled := settled + {flight'.copy};
      return flight', true;
    }

    method QueueEventRetirement(flight: Flight, fault: bool)
      modifies this`causalBlocked, this`causalFaulted, this`pendingRetirements
      ensures View() == QueueRetirement(old(View()), flight, fault)
    {
      if flight.holderRetired && flight.scope.Some? {
        causalBlocked := true;
        causalFaulted := causalFaulted || fault;
      }
      pendingRetirements := pendingRetirements + [flight];
    }

    method RetireOrQueueFlight(flight: Flight, attempt: Attempt)
      modifies this
      ensures View() == RetireOrQueue(old(View()), flight, attempt)
    {
      hide Retire, QueueRetirement;
      var flight', over := RetireEventHolder(flight, attempt);
      if !over {
        QueueEventRetirement(flight', attempt.fault);
      }
    }

    method FlushPendingRetirements(first: Attempt, second: Attempt) returns (parked: bool)
      modifies this
      ensures (View(), parked) == Flush(old(View()), first, second)
    {
      hide Retire;
      if causalBlocked || causalFaulted || pendingRetirements == [] {
        return false;
      }
      var flight := pendingRetirements[0];
      pendingRetirements := pendingRetirements[1..];
      var fault := first.fault;
      var over;
      flight, over := RetireEventHolder(flight, first);
      if !over && !flight.holderRetired {
        fault := second.fault;
        flight, over := RetireEventHolder(flight, second);
        if !over && !flight.holderRetired {
          pendingRetirements := [flight] + pendingRetirements;
          return true;
        }
      }
      if !over {
        causalBlocked := true;
        causalFaulted := fault;
        pendingRetirements := [flight] + pendingRetirements;
      }
      return false;
    }

    method ReturnCopy(copy: nat, takenBack: bool, attempt: Attempt)
      modifies this
      ensures View() == GiveBack(old(View()), copy, takenBack, attempt)
    {
      hide RetireOrQueue;
      if takenBack {
        requeued := requeued + {copy};
      } else {
        RetireOrQueueFlight(NewFlight(copy, None), attempt);
      }
    }

    method ReleaseLease(scope: nat)
      modifies this`released
      ensures View() == old(View()).(released := old(released) + multiset{scope})
    {
      released := released + multiset{scope};
    }

    /** Offer one copy, with its lease just minted, to the plugin engine. */
    method OfferCopy(copy: nat, scope: nat, admission: Admission, takenBack: bool, attempt: Attempt)
      modifies this
      ensures var d := old(View());
              var d3 := d.(released := d.released + multiset{scope});
              View() == match admission
                        case Admitted => d.(inFlight := d.inFlight[copy := NewFlight(copy, Some(scope))])
                        case EngineRefused => GiveBack(d3, copy, takenBack, attempt)
                        case _ => RetireOrQueue(d3, NewFlight(copy, None), attempt)
    {
      hide RetireOrQueue, GiveBack;
      match admission {
        case Admitted =>
          inFlight := inFlight[copy := NewFlight(copy, Some(scope))];
        case EngineRefused =>
          ReleaseLease(scope);
          ReturnCopy(copy, takenBack, attempt);
        case _ =>
          ReleaseLease(scope);
          RetireOrQueueFlight(NewFlight(copy, None), attempt);
      }
    }

    method DeliverCopy(meeting: Meeting, attempt: Attempt)
      modifies this
      ensures View() == Deliver(old(View()), meeting, attempt)
    {
      hide RetireOrQueue, GiveBack;
      var copy := pulled;
      pulled := pulled + 1;
      match meeting {
        case NoReservation(fault, takenBack) =>
          causalBlocked := true;
          causalFaulted := causalFaulted || fault;
          ReturnCopy(copy, takenBack, attempt);
        case Offered(admission, takenBack) =>
          var scope := |mintedFor|;
          mintedFor := mintedFor + [copy];
          OfferCopy(copy, scope, admission, takenBack, attempt);
        case _ =>
          RetireOrQueueFlight(NewFlight(copy, None), attempt);
      }
    }

    method RunDeliverySlice(poisoned: bool, first: Attempt, second: Attempt, batch: seq<Handling>)
      modifies this
      ensures View() == Slice(old(View()), poisoned, first, second, batch)
    {
      hide Flush, Deliver;
      if poisoned {
        routerFaulted := true;
      }
      var parked := FlushPendingRetirements(first, second);
      if parked || causalBlocked || causalFaulted || routerFaulted {
        return;
      }
      ghost var start := View();
      var i := 0;
      while i < |batch|
        invariant i <= |batch| && DeliverAll(View(), batch, i) == DeliverAll(start, batch, 0)
      {
        DeliverCopy(batch[i].meeting, batch[i].attempt);
        i := i + 1;
      }
    }

    method CompleteFlight(copy: nat, attempt: Attempt)
      modifies this
      ensures View() == Complete(old(View()), copy, attempt)
    {
      hide RetireOrQueue;
      if copy in inFlight {
        var flight := inFlight[copy];
        inFlight := inFlight - {copy};
        RetireOrQueueFlight(flight, attempt);
      }
    }
  }
}
