/**
 The other half of the starvation theorem: with a roomy registry and a
 subscriber, a recovery, an empty baseline and enough turns send a frame.
 */
module FamilyDelivery {
  import opened Ordered
  import opened SessionFamily
  import opened FamilyIndex
  import opened FamilyQuiet
  import opened FamilySafety
  import opened FamilyPasses
  import opened FamilySteps
  import opened FamilyRun
  import opened FamilySchedule
  import opened FamilyStarvation

  // ---------------------------------------------------------------- reach

  /** Some continuation of at most `n` steps, all with this registry, sends a frame. */
  ghost predicate Leads(w: World, registry: Registry, n: nat)
    decreases n
  {
    || !NoneSent(w.hub.bridge.table)
    || (n > 0 && exists step :: Enabled(w, step) && Sees(step, registry) && Leads(Next(w, step), registry, n - 1))
  }

  lemma LeadsThrough(w: World, step: Step, registry: Registry, n: nat)
    requires Enabled(w, step) && Sees(step, registry) && Leads(Next(w, step), registry, n)
    ensures Leads(w, registry, n + 1)
  {
  }

  /** Nothing was sent yet, no row or delta is about, and only subscribers are registered. */
  ghost predicate Waiting(w: World, registry: Registry) {
    var h := w.hub;
    && Invariant(w) && Starving(h, registry) && h.bridge.table.consumers.Keys <= Subscribers(registry)
    && !h.faulted && h.projection.rows == map[] && h.bridge.fanout == []
  }

  /** The pending work is the same. */
  predicate SameWork(h: Hub, h': Hub) {
    && h'.projection == h.projection && h'.recovery == h.recovery && SameStarts(h.bridge, h'.bridge)
    && h'.bridge.needGapPass == h.bridge.needGapPass && h'.bridge.gapAfter == h.bridge.gapAfter
  }

  function Turn(registry: Registry): Step {
    RunBridge(registry, AMPLE_FUEL, Accepted)
  }

  // ------------------------------------------------------- turns that send

  /** A turn whose offer the engine accepts sends a frame. */
  lemma AcceptedOfferSends(h: Hub, budget: Budget, epoch: nat)
    requires Picked(h, budget).Some? && h.projection.rows == map[]
    ensures !NoneSent(AdmitNext(h, budget, Accepted, epoch).0.bridge.table)
  {
    hide Touch, FrameBytes, AddBytes, Committed, NextReady;
    var k := Picked(h, budget).value;
    var c := h.bridge.table.consumers[k];
    var peeked := Peek(c, map[]);
    NoRowIsOversized(c.after);
    var h' := AdmitNext(h, budget, Accepted, epoch).0;
    var log := h'.bridge.table.log;
    assert k in log && |log[k]| > 0 && log[k][|log[k]| - 1] == Sent(peeked.frame);
    assert !SendsNothing(log[k]);
  }

  lemma NoRowIsOversized(after: Option<int>)
    ensures !NextChunk(map[], after).Oversize?
  {
    assert IdsAfter(map[], after) == [];
  }

  /** What any accepted turn of a waiting world does. */
  lemma WaitingTurn(w: World, registry: Registry)
    requires Waiting(w, registry)
    ensures var w' := Next(w, Turn(registry));
            var (h5, b5, spent) := BridgePasses(w.hub.(marked := false), registry, AMPLE_FUEL);
            && Enabled(w, Turn(registry)) && Sees(Turn(registry), registry)
            && (NoneSent(w'.hub.bridge.table) ==>
                  && (spent || Picked(h5, b5).None?)
                  && w'.hub == h5.(marked := w'.hub.marked) && w'.ticket == w.ticket
                  && Quiet(w.hub.bridge.table, h5.bridge.table) && Framed(w.hub.(marked := false), h5)
                  && Invariant(w'))
  {
    hide BridgePasses, AdmitNext, Quiet, Invariant, Picked, Starving, NoneSent, Subscribers;
    StepKeepsInvariant(w, Turn(registry));
    var h0 := w.hub.(marked := false);
    BridgePassesFramed(h0, registry, AMPLE_FUEL);
    var (h5, b5, spent) := BridgePasses(h0, registry, AMPLE_FUEL);
    if !spent {
      AdmitNextFlights(h5, b5, Accepted, w.epoch);
      if Picked(h5, b5).Some? {
        AcceptedOfferSends(h5, b5, w.epoch);
      }
    }
  }

  /** The world after a quiet turn is waiting again, if the round is on track. */
  lemma StillWaiting(w: World, w': World, registry: Registry, h5: Hub)
    requires Waiting(w, registry) && Invariant(w')
    requires w'.hub == h5.(marked := w'.hub.marked) && Framed(w.hub.(marked := false), h5)
    requires OnPageBoundary(h5, registry) && SeenSoFar(h5, registry)
    requires h5.bridge.table.consumers.Keys <= Subscribers(registry) && h5.bridge.fanout == []
    ensures Waiting(w', registry)
  {
    hide Invariant, SeenSoFar, Quiet;
    SeenAlike(h5, w'.hub, registry);
    QuietStarving(w.hub, w'.hub, registry);
  }

  // ----------------------------------------------------------- mid turns

  /** Before the last page of a round a turn only refreshes. */
  lemma MidTurn(w: World, registry: Registry)
    requires Waiting(w, registry) && Remaining(w.hub, registry) > CONSUMER_REFRESH_MAX
    ensures var w' := Next(w, Turn(registry));
            && Enabled(w, Turn(registry)) && Sees(Turn(registry), registry)
            && Waiting(w', registry) && SameWork(w.hub, w'.hub) && w'.ticket == w.ticket
            && Remaining(w'.hub, registry) == Remaining(w.hub, registry) - CONSUMER_REFRESH_MAX
  {
    hide BridgePasses, RefreshPass, AdmitNext, Quiet, Invariant, SeenSoFar, Subscribers;
    var h0 := w.hub.(marked := false);
    SeenIgnoresMark(w.hub, registry);
    RefreshMovesCursor(h0, registry, AMPLE_FUEL);
    RefreshSees(h0, registry, AMPLE_FUEL);
    RefreshSpends(h0, registry, AMPLE_FUEL);
    RefreshKeeps(h0, registry, Budget(0, 0, AMPLE_FUEL));
    var (h1, b1) := RefreshPass(h0, registry, Budget(0, 0, AMPLE_FUEL));
    SpentTurn(h0, registry, AMPLE_FUEL, h1, b1);
    StepKeepsInvariant(w, Turn(registry));
    StillWaiting(w, Next(w, Turn(registry)), registry, h1);
  }

  // --------------------------------------------------------- final turns

  lemma {:induction false} GapKeysAll(t: Table, keys: seq<int>, i: nat, budget: Budget)
    requires i <= |keys| && budget.visits + (|keys| - i) < CONSUMER_REFRESH_MAX
    requires budget.bytes < HOST_BRIDGE_MAX_BYTES && budget.fuel > |keys| - i
    ensures var v := GapKeys(t, keys, i, budget);
            v.visited == |keys| && v.budget == Budget(budget.visits + (|keys| - i), budget.bytes, budget.fuel - (|keys| - i))
    decreases |keys| - i
  {
    hide MarkGap;
    if i < |keys| {
      var (ok, b) := Take(budget);
      GapKeysAll(MarkGap(t, keys[i]), keys, i + 1, b);
    }
  }

  lemma {:induction false} StartKeysAll(t: Table, keys: seq<int>, i: nat, sequence: u64, budget: Budget)
    requires i <= |keys| && budget.visits + (|keys| - i) < CONSUMER_REFRESH_MAX
    requires budget.bytes < HOST_BRIDGE_MAX_BYTES && budget.fuel > |keys| - i
    ensures var v := StartKeys(t, keys, i, sequence, budget);
            v.visited == |keys| && v.budget == Budget(budget.visits + (|keys| - i), budget.bytes, budget.fuel - (|keys| - i))
    decreases |keys| - i
  {
    hide BeginSnapshot;
    if i < |keys| {
      var (ok, b) := Take(budget);
      StartKeysAll(BeginSnapshot(t, keys[i], sequence), keys, i + 1, sequence, b);
    }
  }

  lemma GapPassDone(h: Hub, budget: Budget)
    requires h.bridge.needGapPass && h.bridge.gapAfter.None?
    requires budget.visits + |h.bridge.table.consumers| < CONSUMER_REFRESH_MAX
    requires budget.bytes == 0 && budget.fuel > CONSUMER_REFRESH_MAX
    ensures var (h', b) := GapPass(h, budget);
            && !h'.bridge.needGapPass && h'.recovery == Some(Recovery(None, None)) && SameStarts(h.bridge, h'.bridge)
            && SameRound(h.bridge, h'.bridge) && h'.bridge.fanout == h.bridge.fanout
  {
    hide GapKeys, Page;
    var keysOf, max := h.bridge.table.consumers.Keys, RemainingVisits(budget);
    PageProperties(keysOf, None, max);
    assert Beyond(keysOf, None) == keysOf && |keysOf| == |h.bridge.table.consumers|;
    GapKeysAll(h.bridge.table, Page(keysOf, None, max), 0, budget);
  }

  lemma StartPassDone(h: Hub, budget: Budget)
    requires h.bridge.startSequence.Some? && h.bridge.startAfter.None?
    requires budget.visits + |h.bridge.table.consumers| < CONSUMER_REFRESH_MAX
    requires budget.bytes == 0 && budget.fuel > CONSUMER_REFRESH_MAX
    ensures var (h', b) := StartPass(h, budget);
            && h'.bridge.startSequence.None? && h'.recovery == h.recovery && h'.bridge.needGapPass == h.bridge.needGapPass
            && SameRound(h.bridge, h'.bridge) && h'.bridge.fanout == h.bridge.fanout
  {
    hide StartKeys, Page;
    var keysOf, max := h.bridge.table.consumers.Keys, RemainingVisits(budget);
    PageProperties(keysOf, None, max);
    assert Beyond(keysOf, None) == keysOf && |keysOf| == |h.bridge.table.consumers|;
    StartKeysAll(h.bridge.table, Page(keysOf, None, max), 0, h.bridge.startSequence.value, budget);
  }

  /** The refresh of a round's last page in a waiting world. */
  ghost predicate LastRefreshed(h: Hub, registry: Registry, h1: Hub, b1: Budget) {
    && (h1, b1) == RefreshPass(h, registry, Budget(0, 0, AMPLE_FUEL))
    && h1.bridge.table.consumers.Keys == Subscribers(registry) && Subscribers(registry) <= h1.bridge.refreshSeen
    && h1.bridge.refreshAfter.None? && h1.bridge.needPrune && h1.bridge.pruneAfter.None? && h1.bridge.fanout == []
    && SameWork(h, h1) && b1.bytes == 0 && b1.visits + |Subscribers(registry)| < CONSUMER_REFRESH_MAX
    && b1.fuel >= AMPLE_FUEL - CONSUMER_REFRESH_MAX
  }

  lemma LastRefresh(w: World, registry: Registry) returns (h1: Hub, b1: Budget)
    requires Waiting(w, registry) && Roomy(registry) && Remaining(w.hub, registry) <= CONSUMER_REFRESH_MAX
    ensures LastRefreshed(w.hub.(marked := false), registry, h1, b1)
  {
    hide RefreshPass, Quiet, Invariant, SeenSoFar, Subscribers;
    var h0 := w.hub.(marked := false);
    SeenIgnoresMark(w.hub, registry);
    LastPageIsLeast(w.hub, registry);
    RefreshMovesCursor(h0, registry, AMPLE_FUEL);
    RefreshSees(h0, registry, AMPLE_FUEL);
    RefreshSpends(h0, registry, AMPLE_FUEL);
    RefreshKeeps(h0, registry, Budget(0, 0, AMPLE_FUEL));
    h1 := RefreshPass(h0, registry, Budget(0, 0, AMPLE_FUEL)).0;
    b1 := RefreshPass(h0, registry, Budget(0, 0, AMPLE_FUEL)).1;
  }

  /** What the passes after the refresh leave of the work and the consumers. */
  lemma LastPagePasses(h: Hub, registry: Registry, h1: Hub, b1: Budget)
    requires LastRefreshed(h, registry, h1, b1)
    ensures var (h5, b5, spent) := BridgePasses(h, registry, AMPLE_FUEL);
            && h5.bridge.refreshAfter.None? && h5.bridge.table.consumers.Keys == Subscribers(registry) && h5.bridge.fanout == []
            && (h.bridge.needGapPass && h.bridge.gapAfter.None? && h.bridge.startSequence.None? ==>
                  !h5.bridge.needGapPass && h5.recovery.Some? && h5.bridge.startSequence.None?)
            && (!h.bridge.needGapPass && h.bridge.startAfter.None? ==>
                  !h5.bridge.needGapPass && h5.bridge.startSequence.None?)
  {
    hide RefreshPass, GapPass, StartPass, FanoutPass, PrunePass, Subscribers;
    var (spent1, c1) := Exhausted(b1);
    assert !spent1;
    GapFramed(h1, c1);
    PassVisits(h1, c1);
    NoPassAsksForGaps(h1, registry, c1);
    IdleGap(h1, c1);
    if h1.bridge.needGapPass && h1.bridge.gapAfter.None? { GapPassDone(h1, c1); }
    var (h2, b2) := GapPass(h1, c1);
    GapPassFanout(h1, c1);
    var (spent2, c2) := Exhausted(b2);
    StartFramed(h2, c2);
    PassVisits(h2, c2);
    NoPassAsksForGaps(h2, registry, c2);
    StartPassFanout(h2, c2);
    if !h1.bridge.needGapPass && h1.bridge.startSequence.Some? && h1.bridge.startAfter.None? { StartPassDone(h2, c2); }
    var (h3, b3) := if spent2 then (h2, c2) else StartPass(h2, c2);
    var (spent3, c3) := Exhausted(b3);
    IdleFanout(h3, c3);
    var (h4, b4) := if spent3 then (h3, c3) else FanoutPass(h3, c3);
    var (spent4, c4) := Exhausted(b4);
    if !spent4 {
      PruneSpends(h4, registry, c4);
      PruneKeepsRound(h4, c4);
    }
  }

  lemma IdleGap(h: Hub, budget: Budget)
    ensures !h.bridge.needGapPass ==> GapPass(h, budget) == (h, budget)
  {
    hide GapKeys, Page;
  }

  lemma IdleFanout(h: Hub, budget: Budget)
    ensures h.bridge.fanout == [] ==> FanoutPass(h, budget).0 == h
  {
    hide FanoutFront;
  }

  lemma GapPassFanout(h: Hub, budget: Budget)
    ensures var h' := GapPass(h, budget).0; h'.bridge.fanout == h.bridge.fanout && SameStarts(h.bridge, h'.bridge)
  {
    hide GapKeys, Page;
  }

  lemma StartPassFanout(h: Hub, budget: Budget)
    ensures var h' := StartPass(h, budget).0;
            h'.bridge.fanout == h.bridge.fanout && (h.bridge.startSequence.None? ==> h' == h) && h'.recovery == h.recovery
  {
    hide StartKeys, Page;
  }

  // ------------------------------------------------------------ the rounds

  /** A final turn either sends, or leaves a waiting world with its work advanced. */
  lemma FinalTurn(w: World, registry: Registry)
    requires Waiting(w, registry) && Roomy(registry) && Remaining(w.hub, registry) <= CONSUMER_REFRESH_MAX
    ensures var w' := Next(w, Turn(registry));
            && Enabled(w, Turn(registry)) && Sees(Turn(registry), registry)
            && (NoneSent(w'.hub.bridge.table) ==>
                  && Waiting(w', registry) && w'.hub.projection == w.hub.projection && w'.ticket == w.ticket
                  && w'.hub.bridge.table.consumers.Keys == Subscribers(registry)
                  && (w.hub.bridge.needGapPass && w.hub.bridge.gapAfter.None? && w.hub.bridge.startSequence.None? ==>
                        !w'.hub.bridge.needGapPass && w'.hub.recovery.Some? && w'.hub.bridge.startSequence.None?)
                  && (!w.hub.bridge.needGapPass && w.hub.bridge.startAfter.None? ==>
                        !w'.hub.bridge.needGapPass && w'.hub.bridge.startSequence.None?))
  {
    hide BridgePasses, Invariant, Starving, NoneSent, Subscribers, Quiet, Roomy;
    var h1, b1 := LastRefresh(w, registry);
    LastPagePasses(w.hub.(marked := false), registry, h1, b1);
    hide LastRefreshed;
    WaitingTurn(w, registry);
    var w' := Next(w, Turn(registry));
    var h5 := BridgePasses(w.hub.(marked := false), registry, AMPLE_FUEL).0;
    if NoneSent(w'.hub.bridge.table) {
      NewRound(h5, registry);
      StillWaiting(w, w', registry, h5);
    }
  }

  lemma NewRound(h: Hub, registry: Registry)
    requires h.bridge.refreshAfter.None?
    ensures OnPageBoundary(h, registry) && SeenSoFar(h, registry)
  {
    assert Beyond(registry.Keys, None) == registry.Keys;
  }

  /** With nothing else pending, the final turn of a round has visits left for admission. */
  lemma RoomyTurnAdmits(h: Hub, registry: Registry, h1: Hub, b1: Budget)
    requires LastRefreshed(h, registry, h1, b1) && !h.bridge.needGapPass && h.bridge.startSequence.None?
    ensures var (h5, b5, spent) := BridgePasses(h, registry, AMPLE_FUEL);
            !spent && b5.bytes == 0 && !Spent(b5)
  {
    hide RefreshPass, PrunePass, BridgePasses, Subscribers;
    IdleTurn(h, registry, AMPLE_FUEL, h1, b1);
    var c := b1.(fuel := b1.fuel - 5);
    assert |h1.bridge.table.consumers| == |Subscribers(registry)|;
    PruneSpends(h1, registry, c);
  }

  /** A safe hub with unserved subscribers and an open budget picks one of them. */
  lemma UnservedIsPicked(h: Hub, budget: Budget)
    requires Safe(h) && NoneSent(h.bridge.table) && AllHandled(h.bridge.table) && h.bridge.table.parked == {}
    requires h.projection.complete && !h.faulted && h.bridge.startSequence.None? && h.bridge.table.consumers != map[]
    requires budget.bytes == 0 && !Spent(budget)
    ensures Picked(h, budget).Some?
  {
    var t := h.bridge.table;
    EmptyOrInhabited(t.consumers.Keys);
    var some :| some in t.consumers;
    NoneGapped(h, some);
    UnservedIsReady(h, some);
    TableIsCoherent(h);
    hide Safe, NextReady;
    ReadyIsAdmittable(t, h.bridge.stamp, h.bridge.admitAfter);
    NextReadyExists(t.ready, h.bridge.admitAfter);
    var k := NextReady(t.ready, h.bridge.admitAfter).value;
    NoneGapped(h, k);
    UnservedIsReady(h, k);
  }

  lemma NoneGapped(h: Hub, k: int)
    requires Safe(h) && h.projection.complete && !h.faulted && h.bridge.startSequence.None? && k in h.bridge.table.consumers
    ensures !h.bridge.table.consumers[k].gap
  {
    hide TableSafe, FanoutExact;
  }

  /** Nothing is left but to serve the subscribers. */
  ghost predicate OnlyServing(w: World, registry: Registry) {
    && Waiting(w, registry) && Roomy(registry) && Subscribers(registry) != {}
    && w.hub.projection.complete && !w.hub.bridge.needGapPass && w.hub.bridge.startSequence.None?
  }

  lemma ServingTurnSends(w: World, registry: Registry)
    requires OnlyServing(w, registry) && Remaining(w.hub, registry) <= CONSUMER_REFRESH_MAX
    ensures !NoneSent(Next(w, Turn(registry)).hub.bridge.table)
  {
    hide BridgePasses, Picked, Subscribers, Roomy;
    WaitingTurn(w, registry);
    var h0 := w.hub.(marked := false);
    var h1, b1 := LastRefresh(w, registry);
    RoomyTurnAdmits(h0, registry, h1, b1);
    LastPagePasses(h0, registry, h1, b1);
    SafeIgnoresMark(w.hub, false);
    BridgePassesSafe(h0, registry, AMPLE_FUEL);
    var (h5, b5, spent) := BridgePasses(h0, registry, AMPLE_FUEL);
    hide Safe, Next, LastRefreshed, SeenSoFar, OnPageBoundary;
    if NoneSent(Next(w, Turn(registry)).hub.bridge.table) {
      assert h5.bridge.table.consumers.Keys != {};
      UnservedIsPicked(h5, b5);
    }
  }

  lemma {:induction false} ServingLeads(w: World, registry: Registry)
    requires OnlyServing(w, registry)
    ensures Leads(w, registry, Remaining(w.hub, registry) / CONSUMER_REFRESH_MAX + 1)
    decreases Remaining(w.hub, registry)
  {
    hide Next, Waiting, Roomy, Subscribers, Remaining;
    var w', n := Next(w, Turn(registry)), Remaining(w.hub, registry) / CONSUMER_REFRESH_MAX;
    if Remaining(w.hub, registry) > CONSUMER_REFRESH_MAX {
      MidTurn(w, registry);
      ServingLeads(w', registry);
      LeadsThrough(w, Turn(registry), registry, n);
    } else {
      FinalTurn(w, registry);
      ServingTurnSends(w, registry);
      LeadsThrough(w, Turn(registry), registry, n);
    }
  }

  /** The start pass of a sealed projection is pending from its first consumer. */
  ghost predicate OnlyStarting(w: World, registry: Registry) {
    && Waiting(w, registry) && Roomy(registry) && Subscribers(registry) != {}
    && w.hub.projection.complete && !w.hub.bridge.needGapPass && w.hub.bridge.startAfter.None?
  }

  /** Two rounds serve after a seal. */
  lemma {:induction false} StartingLeads(w: World, registry: Registry)
    requires OnlyStarting(w, registry)
    ensures exists n: nat :: Leads(w, registry, n)
    decreases Remaining(w.hub, registry)
  {
    hide Next, Waiting, Roomy, Subscribers, Remaining, Leads;
    var w' := Next(w, Turn(registry));
    var n: nat;
    if Remaining(w.hub, registry) > CONSUMER_REFRESH_MAX {
      MidTurn(w, registry);
      StartingLeads(w', registry);
      n :| Leads(w', registry, n);
    } else {
      FinalTurn(w, registry);
      if NoneSent(w'.hub.bridge.table) {
        ServingLeads(w', registry);
        n := Remaining(w'.hub, registry) / CONSUMER_REFRESH_MAX + 1;
      } else {
        n := 0;
        SentLeads(w', registry);
      }
    }
    LeadsThrough(w, Turn(registry), registry, n);
  }

  lemma SentLeads(w: World, registry: Registry)
    requires !NoneSent(w.hub.bridge.table)
    ensures Leads(w, registry, 0)
  {
  }

  ghost predicate OnlyGapping(w: World, registry: Registry) {
    && Waiting(w, registry) && Roomy(registry) && Subscribers(registry) != {}
    && w.hub.bridge.needGapPass && w.hub.bridge.gapAfter.None? && w.hub.bridge.startSequence.None?
    && w.hub.bridge.startAfter.None? && !w.ticket
  }

  const EMPTY_PAGE := BaselinePage(1, [], None, true)

  /** An open recovery asks for its page, gets an empty baseline, and seals. */
  lemma SealingLeads(w: World, registry: Registry)
    requires Waiting(w, registry) && Roomy(registry) && Subscribers(registry) != {} && !w.ticket
    requires !w.hub.bridge.needGapPass && w.hub.recovery.Some? && w.hub.bridge.startSequence.None?
    ensures exists n: nat :: Leads(w, registry, n)
  {
    var w1 := Next(w, AskBaseline);
    var w2 := Next(w1, ReadBaseline(PageRead(EMPTY_PAGE)));
    StepKeepsInvariant(w, AskBaseline);
    StepKeepsInvariant(w1, ReadBaseline(PageRead(EMPTY_PAGE)));
    assert Ingest(map[], []) == map[];
    assert w2.hub.bridge.table == w.hub.bridge.table;
    hide Invariant, Subscribers, Roomy, Quiet, SeenSoFar, Leads;
    QuietSelf(w.hub.bridge.table);
    SeenAlike(w.hub, w2.hub, registry);
    QuietStarving(w.hub, w2.hub, registry);
    StartingLeads(w2, registry);
    var n: nat :| Leads(w2, registry, n);
    LeadsThrough(w1, ReadBaseline(PageRead(EMPTY_PAGE)), registry, n);
    LeadsThrough(w, AskBaseline, registry, n + 1);
  }

  lemma {:induction false} GappingLeads(w: World, registry: Registry)
    requires OnlyGapping(w, registry)
    ensures exists n: nat :: Leads(w, registry, n)
    decreases Remaining(w.hub, registry)
  {
    hide Next, Waiting, Roomy, Subscribers, Remaining, Leads;
    var w' := Next(w, Turn(registry));
    var n: nat;
    if Remaining(w.hub, registry) > CONSUMER_REFRESH_MAX {
      MidTurn(w, registry);
      GappingLeads(w', registry);
      n :| Leads(w', registry, n);
    } else {
      FinalTurn(w, registry);
      if NoneSent(w'.hub.bridge.table) {
        SealingLeads(w', registry);
        n :| Leads(w', registry, n);
      } else {
        n := 0;
        SentLeads(w', registry);
      }
    }
    LeadsThrough(w, Turn(registry), registry, n);
  }

  lemma InitialLeads(registry: Registry)
    requires Roomy(registry) && Subscribers(registry) != {}
    ensures exists n: nat :: Leads(INITIAL_WORLD, registry, n)
  {
    var w1 := Next(INITIAL_WORLD, Recover);
    InitialInvariant();
    StepKeepsInvariant(INITIAL_WORLD, Recover);
    InitialStarving(registry);
    OtherStepsStarve(INITIAL_WORLD, Recover, registry);
    hide Invariant, Starving, Roomy, Subscribers, Leads;
    GappingLeads(w1, registry);
    var n: nat :| Leads(w1, registry, n);
    LeadsThrough(INITIAL_WORLD, Recover, registry, n);
  }

  // ------------------------------------------------------ no subscribers

  lemma PassesAddSubscribersOnly(h: Hub, registry: Registry, fuel: nat)
    requires h.bridge.table.consumers == map[] && Subscribers(registry) == {}
    ensures BridgePasses(h, registry, fuel).0.bridge.table.consumers == map[]
  {
    hide RefreshPass, GapPass, StartPass, FanoutPass, PrunePass, Subscribers;
    RefreshKeeps(h, registry, Budget(0, 0, fuel));
    var (h1, b1) := RefreshPass(h, registry, Budget(0, 0, fuel));
    var (spent1, c1) := Exhausted(b1);
    GapFramed(h1, c1);
    var (h2, b2) := if spent1 then (h1, c1) else GapPass(h1, c1);
    var (spent2, c2) := Exhausted(b2);
    StartFramed(h2, c2);
    var (h3, b3) := if spent2 then (h2, c2) else StartPass(h2, c2);
    var (spent3, c3) := Exhausted(b3);
    FanoutFramed(h3, c3);
    var (h4, b4) := if spent3 then (h3, c3) else FanoutPass(h3, c3);
    PruneShrinks(h4, Exhausted(b4).1);
  }

  lemma PruneShrinks(h: Hub, budget: Budget)
    ensures PrunePass(h, budget).0.bridge.table.consumers.Keys <= h.bridge.table.consumers.Keys
  {
    hide PruneKeys, RemoveAll, Page, Quiet;
    var keys := Page(h.bridge.table.consumers.Keys, h.bridge.pruneAfter, RemainingVisits(budget));
    RemoveAllQuiet(h.bridge.table, PruneKeys(keys, 0, h.bridge.refreshSeen, [], budget).drop);
  }

  /** Without a subscriber there is never a consumer, and nothing to send. */
  lemma {:induction false} NobodyToServe(worlds: seq<World>, steps: seq<Step>, registry: Registry, i: nat)
    requires IsRun(worlds, steps) && i < |worlds| && Subscribers(registry) == {}
    requires forall m :: 0 <= m < |steps| ==> Sees(steps[m], registry)
    ensures var t := worlds[i].hub.bridge.table; NoneSent(t) && t.consumers == map[] && t.flights == map[]
    decreases i
  {
    hide Subscribers, Next;
    if i > 0 {
      NobodyToServe(worlds, steps, registry, i - 1);
      RunKeepsInvariant(worlds, steps, i - 1);
      assert worlds[i - 1 + 1] == Next(worlds[i - 1], steps[i - 1]) && Sees(steps[i - 1], registry);
      NobodyStep(worlds[i - 1], steps[i - 1], registry);
    }
  }

  lemma NobodyStep(w: World, step: Step, registry: Registry)
    requires Invariant(w) && Sees(step, registry) && Subscribers(registry) == {}
    requires var t := w.hub.bridge.table; NoneSent(t) && t.consumers == map[] && t.flights == map[]
    ensures var t := Next(w, step).hub.bridge.table; NoneSent(t) && t.consumers == map[] && t.flights == map[]
  {
    hide HostBridgeSlice, ApplyUpTo, Subscribers, Invariant;
    if step.RunBridge? {
      NobodyTurn(w, registry, step);
    } else {
      ApplyKeepsRound(w.hub, APPLY_MAX_CHANGES);
    }
  }

  lemma NobodyTurn(w: World, registry: Registry, step: Step)
    requires Invariant(w) && step.RunBridge? && step.registry == registry && Subscribers(registry) == {}
    requires var t := w.hub.bridge.table; NoneSent(t) && t.consumers == map[] && t.flights == map[]
    ensures var t := Next(w, step).hub.bridge.table; NoneSent(t) && t.consumers == map[] && t.flights == map[]
  {
    hide BridgePasses, Safe, Subscribers;
    var h0 := w.hub.(marked := false);
    PassesAddSubscribersOnly(h0, registry, step.fuel);
    BridgePassesFramed(h0, registry, step.fuel);
    var h5 := BridgePasses(h0, registry, step.fuel).0;
    assert h5.bridge.table.flights == map[] by { QuietSubsets(h0.bridge.table, h5.bridge.table); }
  }

  // ------------------------------------------------------------- the iff

  lemma {:induction false} ExtendedRun(worlds: seq<World>, steps: seq<Step>, registry: Registry, n: nat)
    returns (worlds': seq<World>, steps': seq<Step>)
    requires IsRun(worlds, steps) && forall m :: 0 <= m < |steps| ==> Sees(steps[m], registry)
    requires Leads(worlds[|steps|], registry, n)
    ensures IsRun(worlds', steps') && forall m :: 0 <= m < |steps'| ==> Sees(steps'[m], registry)
    ensures !NoneSent(worlds'[|steps'|].hub.bridge.table)
    decreases n
  {
    hide Next, Enabled;
    var w := worlds[|steps|];
    worlds', steps' := worlds, steps;
    if NoneSent(w.hub.bridge.table) {
      var step :| Enabled(w, step) && Sees(step, registry) && Leads(Next(w, step), registry, n - 1);
      worlds', steps' := ExtendedRun(worlds + [Next(w, step)], steps + [step], registry, n - 1);
    }
  }

  /** Some run in which every turn sees this registry sends some frame to someone. */
  ghost predicate SomeRunSends(registry: Registry) {
    exists worlds: seq<World>, steps: seq<Step>, i: nat ::
      && IsRun(worlds, steps) && i < |worlds| && (forall m :: 0 <= m < |steps| ==> Sees(steps[m], registry))
      && !NoneSent(worlds[i].hub.bridge.table)
  }

  /**
   With a fixed registry some run sends a frame if and only if there is a
   subscriber, and the registry's last page and the subscribers together are
   fewer than the visits of one turn.
   */
  lemma SomeRunSendsIff(registry: Registry)
    ensures SomeRunSends(registry)
            <==> LastPage(|registry|) + |Subscribers(registry)| < CONSUMER_REFRESH_MAX && Subscribers(registry) != {}
  {
    hide IsRun, Leads, Subscribers, LastPage;
    if Roomy(registry) && Subscribers(registry) != {} {
      InitialLeads(registry);
      var n: nat :| Leads(INITIAL_WORLD, registry, n);
      StartOfRun();
      var worlds, steps := ExtendedRun([INITIAL_WORLD], [], registry, n);
      RunLength(worlds, steps);
      assert SomeRunSends(registry);
    } else {
      forall worlds: seq<World>, steps: seq<Step>, i: nat |
        IsRun(worlds, steps) && i < |worlds| && (forall m :: 0 <= m < |steps| ==> Sees(steps[m], registry))
        ensures NoneSent(worlds[i].hub.bridge.table)
      {
        if Subscribers(registry) == {} {
          NobodyToServe(worlds, steps, registry, i);
        } else {
          RunIsCodeRun(worlds, steps);
          CrowdedRunsNeverSend(worlds, steps, registry, i);
        }
      }
    }
  }

  lemma StartOfRun()
    ensures IsRun([INITIAL_WORLD], [])
  {
  }

  lemma RunLength(worlds: seq<World>, steps: seq<Step>)
    requires IsRun(worlds, steps)
    ensures |worlds| == |steps| + 1
  {
  }

  lemma RunIsCodeRun(worlds: seq<World>, steps: seq<Step>)
    requires IsRun(worlds, steps)
    ensures IsCodeRun(worlds, steps)
  {
    hide Next;
  }
}
