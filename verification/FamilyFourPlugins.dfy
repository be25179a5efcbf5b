/**
 Four subscribed plugins are already too many: a run in which all four wait,
 ready, for a first frame that no run ever sends them.
 */
module FamilyFourPlugins {
  import opened Ordered
  import opened SessionFamily
  import opened FamilyIndex
  import opened FamilyQuiet
  import opened FamilySafety
  import opened FamilyPasses
  import opened FamilySteps
  import opened FamilyRun
  import opened FamilySchedule
  import opened FamilyStarvation
  import opened FamilyDelivery

  /** Four plugins with one event handler each. */
  function FourPlugins(handler: Handler): Registry {
    map[1 := [handler], 2 := [handler], 3 := [handler], 4 := [handler]]
  }

  const FOUR := {1, 2, 3, 4}

  lemma FourSubscribers(handler: Handler)
    requires handler.isEvent
    ensures FourPlugins(handler).Keys == FOUR && |FourPlugins(handler)| == 4 && Subscribers(FourPlugins(handler)) == FOUR
    ensures !Roomy(FourPlugins(handler))
  {
    var registry := FourPlugins(handler);
    assert registry.Keys == FOUR;
    forall k | k in registry ensures Subscribed(registry, k) {
      assert HandlersOf(registry, k)[0].isEvent;
    }
    assert Subscribers(registry) == FOUR;
  }

  lemma FourListing()
    ensures Ascending(FOUR) == [1, 2, 3, 4]
  {
    hide Ascending;
    SameListing(Ascending(FOUR), [1, 2, 3, 4]);
  }

  lemma FourPages()
    ensures Page(FOUR, None, 4) == [1, 2, 3, 4] && Page(FOUR, Some(4), 4) == []
  {
    hide Ascending;
    FourListing();
    assert Beyond(FOUR, None) == FOUR && Beyond(FOUR, Some(4)) == {};
  }

  /** A turn's refresh over four plugins takes half its visits. */
  lemma FourRefresh(h: Hub, handler: Handler) returns (h1: Hub, b1: Budget)
    requires handler.isEvent && Starving(h, FourPlugins(handler)) && h.bridge.table.consumers.Keys <= FOUR && h.bridge.refreshAfter.None?
    ensures (h1, b1) == RefreshPass(h, FourPlugins(handler), Budget(0, 0, AMPLE_FUEL))
    ensures Refreshed(h, FourPlugins(handler), h1) && h1.bridge.table.consumers.Keys == FOUR && b1 == Budget(4, 0, 28)
  {
    hide RefreshPass, Subscribers, Roomy, FourPlugins, Quiet, NoneSent, AllHandled;
    var registry := FourPlugins(handler);
    FourSubscribers(handler);
    assert Beyond(registry.Keys, None) == registry.Keys;
    RefreshSees(h, registry, AMPLE_FUEL);
    RefreshSpends(h, registry, AMPLE_FUEL);
    RefreshKeeps(h, registry, Budget(0, 0, AMPLE_FUEL));
    h1 := RefreshPass(h, registry, Budget(0, 0, AMPLE_FUEL)).0;
    b1 := RefreshPass(h, registry, Budget(0, 0, AMPLE_FUEL)).1;
  }

  lemma {:induction false} GapKeysFill(t: Table, keys: seq<int>, i: nat, budget: Budget)
    requires i <= |keys| && budget.visits + (|keys| - i) <= CONSUMER_REFRESH_MAX
    requires budget.bytes == 0 && budget.fuel > |keys| - i
    ensures GapKeys(t, keys, i, budget).visited == |keys|
    ensures GapKeys(t, keys, i, budget).budget.visits == budget.visits + (|keys| - i)
    decreases |keys| - i
  {
    hide MarkGap;
    if i < |keys| {
      var (ok, b) := Take(budget);
      GapKeysFill(MarkGap(t, keys[i]), keys, i + 1, b);
    }
  }

  lemma {:induction false} StartKeysFill(t: Table, keys: seq<int>, i: nat, sequence: u64, budget: Budget)
    requires i <= |keys| && budget.visits + (|keys| - i) <= CONSUMER_REFRESH_MAX
    requires budget.bytes == 0 && budget.fuel > |keys| - i
    ensures StartKeys(t, keys, i, sequence, budget).visited == |keys|
    ensures StartKeys(t, keys, i, sequence, budget).budget.visits == budget.visits + (|keys| - i)
    decreases |keys| - i
  {
    hide BeginSnapshot;
    if i < |keys| {
      var (ok, b) := Take(budget);
      StartKeysFill(BeginSnapshot(t, keys[i], sequence), keys, i + 1, sequence, b);
    }
  }

  /** The gap pass over four consumers takes one turn to gap them and another to notice. */
  lemma FourGaps(h: Hub, budget: Budget)
    requires h.bridge.table.consumers.Keys == FOUR && h.bridge.needGapPass && budget.visits == 4 && budget.bytes == 0 && budget.fuel > 8
    ensures var (h', b) := GapPass(h, budget);
            && (h.bridge.gapAfter.None? ==> h'.bridge.needGapPass && h'.bridge.gapAfter == Some(4) && Spent(b))
            && (h.bridge.gapAfter == Some(4) ==> !h'.bridge.needGapPass && h'.recovery.Some?)
            && h'.bridge.startSequence == h.bridge.startSequence && h'.bridge.startAfter == h.bridge.startAfter
            && h'.bridge.fanout == h.bridge.fanout
  {
    hide GapKeys, Page;
    FourPages();
    GapKeysFill(h.bridge.table, [1, 2, 3, 4], 0, budget);
    GapKeysSpend(h.bridge.table, [], 0, budget);
  }

  lemma FourStarts(h: Hub, budget: Budget)
    requires h.bridge.table.consumers.Keys == FOUR && h.bridge.startSequence.Some? && h.bridge.startAfter.None?
    requires budget.visits == 4 && budget.bytes == 0 && budget.fuel > 8
    ensures var (h', b) := StartPass(h, budget);
            h'.bridge.startSequence.Some? && h'.bridge.startAfter == Some(4) && Spent(b)
            && h'.bridge.table.consumers.Keys == FOUR
  {
    StartFramed(h, budget);
    hide StartKeys, Page;
    FourPages();
    StartKeysFill(h.bridge.table, [1, 2, 3, 4], 0, h.bridge.startSequence.value, budget);
  }

  /** A world of the run over four plugins before everyone has started. */
  ghost predicate FourWaiting(w: World, handler: Handler) {
    && Invariant(w) && Starving(w.hub, FourPlugins(handler)) && w.hub.bridge.table.consumers.Keys <= FOUR
    && w.hub.bridge.refreshAfter.None? && !w.hub.faulted && w.hub.bridge.fanout == []
  }

  /** What a crowded turn does to such a world, by the work that is pending. */
  lemma FourTurn(w: World, handler: Handler)
    requires handler.isEvent && FourWaiting(w, handler)
    ensures var w' := Next(w, Turn(FourPlugins(handler)));
            && FourWaiting(w', handler) && w'.hub.projection == w.hub.projection && w'.ticket == w.ticket
            && (w.hub.bridge.needGapPass && w.hub.bridge.gapAfter.None? ==>
                  w'.hub.bridge.needGapPass && w'.hub.bridge.gapAfter == Some(4) && SameStarts(w.hub.bridge, w'.hub.bridge))
            && (w.hub.bridge.needGapPass && w.hub.bridge.gapAfter == Some(4) && w.hub.bridge.startSequence.None? ==>
                  !w'.hub.bridge.needGapPass && w'.hub.recovery.Some? && w'.hub.bridge.startSequence.None?)
            && (!w.hub.bridge.needGapPass && w.hub.bridge.startSequence.Some? && w.hub.bridge.startAfter.None? ==>
                  w'.hub.bridge.startSequence.Some? && w'.hub.bridge.startAfter == Some(4)
                  && w'.hub.bridge.table.consumers.Keys == FOUR)
  {
    hide BridgePasses, Invariant, Starving, FourPlugins;
    var registry := FourPlugins(handler);
    var h0 := w.hub.(marked := false);
    StepKeepsInvariant(w, Turn(registry));
    FourSubscribers(handler);
    CrowdedStepStarves(w, Turn(registry), registry);
    FourPasses(h0, handler) by { StarvingIgnoresMark(w.hub, registry); }
    CrowdedSpent(w.hub, registry);
    BridgePassesFramed(h0, registry, AMPLE_FUEL);
  }

  lemma StarvingIgnoresMark(h: Hub, registry: Registry)
    requires Starving(h, registry)
    ensures Starving(h.(marked := false), registry)
  {
  }

  lemma CrowdedSpent(h: Hub, registry: Registry)
    requires Starving(h, registry) && !Roomy(registry)
    ensures BridgePasses(h.(marked := false), registry, AMPLE_FUEL).2
  {
    hide BridgePasses;
    SeenIgnoresMark(h, registry);
    CrowdedTurn(h.(marked := false), registry, AMPLE_FUEL);
  }

  lemma FourPasses(h: Hub, handler: Handler)
    requires handler.isEvent && Starving(h, FourPlugins(handler)) && h.bridge.table.consumers.Keys <= FOUR
    requires h.bridge.refreshAfter.None? && h.bridge.fanout == []
    ensures var h' := BridgePasses(h, FourPlugins(handler), AMPLE_FUEL).0;
            && h'.bridge.table.consumers.Keys <= FOUR && h'.bridge.refreshAfter.None? && h'.bridge.fanout == []
            && (h.bridge.needGapPass && h.bridge.gapAfter.None? ==>
                  h'.bridge.needGapPass && h'.bridge.gapAfter == Some(4) && SameStarts(h.bridge, h'.bridge))
            && (h.bridge.needGapPass && h.bridge.gapAfter == Some(4) && h.bridge.startSequence.None? ==>
                  !h'.bridge.needGapPass && h'.recovery.Some? && h'.bridge.startSequence.None?)
            && (!h.bridge.needGapPass && h.bridge.startSequence.Some? && h.bridge.startAfter.None? ==>
                  h'.bridge.startSequence.Some? && h'.bridge.startAfter == Some(4) && h'.bridge.table.consumers.Keys == FOUR)
  {
    hide RefreshPass, GapPass, StartPass, FanoutPass, PrunePass, Starving, FourPlugins, Framed;
    var registry := FourPlugins(handler);
    var h1, b1 := FourRefresh(h, handler);
    RoundRestarts(h, handler);
    var (spent1, c1) := Exhausted(b1);
    if h1.bridge.needGapPass { FourGaps(h1, c1); }
    IdleGap(h1, c1);
    GapFramed(h1, c1);
    PassVisits(h1, c1);
    GapPassFanout(h1, c1);
    var (h2, b2) := GapPass(h1, c1);
    var (spent2, c2) := Exhausted(b2);
    if !h1.bridge.needGapPass && h2.bridge.startSequence.Some? && h2.bridge.startAfter.None? { FourStarts(h2, c2); }
    StartFramed(h2, c2);
    PassVisits(h2, c2);
    StartPassFanout(h2, c2);
    NoPassAsksForGaps(h2, registry, c2);
    var (h3, b3) := if spent2 then (h2, c2) else StartPass(h2, c2);
    var (spent3, c3) := Exhausted(b3);
    IdleFanout(h3, c3);
    var (h4, b4) := if spent3 then (h3, c3) else FanoutPass(h3, c3);
    var (spent4, c4) := Exhausted(b4);
    PruneShrinks(h4, c4);
    PruneKeepsRound(h4, c4);
  }

  lemma RoundRestarts(h: Hub, handler: Handler)
    requires handler.isEvent && h.bridge.refreshAfter.None?
    ensures RefreshPass(h, FourPlugins(handler), Budget(0, 0, AMPLE_FUEL)).0.bridge.refreshAfter.None?
  {
    hide RegisterKeys, Page, TakeMany, Subscribed, Subscribers;
    FourSubscribers(handler);
    assert Beyond(FOUR, None) == FOUR;
  }

  function FourSteps(handler: Handler): seq<Step> {
    var turn := Turn(FourPlugins(handler));
    [Recover, turn, turn, AskBaseline, ReadBaseline(PageRead(EMPTY_PAGE)), turn]
  }

  /**
   A run over four plugins after which all four consumers are ready, each with
   its begin frame waiting, although no run over them ever sends it.
   */
  lemma FourPluginsStarve(handler: Handler) returns (worlds: seq<World>)
    requires handler.isEvent
    ensures IsRun(worlds, FourSteps(handler)) && worlds[6].hub.projection.complete
    ensures worlds[6].hub.bridge.table.ready == FOUR
    ensures forall k :: k in FOUR ==> k in worlds[6].hub.bridge.table.consumers && AwaitsBegin(worlds[6].hub.bridge.table.consumers[k])
    ensures !SomeRunSends(FourPlugins(handler))
  {
    hide FourWaiting, FourPlugins, Next, SomeRunSends, Roomy;
    var w3, turns := FourGapped(handler);
    var steps := FourSteps(handler);
    var w5 := FourSealed(w3, handler);
    FourTurn(w5, handler);
    var w6 := Next(w5, steps[5]);
    FourReady(w6, handler);
    worlds := [turns[0], turns[1], turns[2], w3, Next(w3, steps[3]), w5, w6];
    SixSteps(worlds, steps);
    FourNeverSend(handler);
  }

  lemma FourNeverSend(handler: Handler)
    requires handler.isEvent
    ensures !SomeRunSends(FourPlugins(handler))
  {
    hide SomeRunSends, FourPlugins, Subscribers;
    FourSubscribers(handler);
    SomeRunSendsIff(FourPlugins(handler));
  }

  lemma SixSteps(worlds: seq<World>, steps: seq<Step>)
    requires |worlds| == 7 && |steps| == 6 && worlds[0] == INITIAL_WORLD
    requires Enabled(worlds[0], steps[0]) && worlds[1] == Next(worlds[0], steps[0])
    requires Enabled(worlds[1], steps[1]) && worlds[2] == Next(worlds[1], steps[1])
    requires Enabled(worlds[2], steps[2]) && worlds[3] == Next(worlds[2], steps[2])
    requires Enabled(worlds[3], steps[3]) && worlds[4] == Next(worlds[3], steps[3])
    requires Enabled(worlds[4], steps[4]) && worlds[5] == Next(worlds[4], steps[4])
    requires Enabled(worlds[5], steps[5]) && worlds[6] == Next(worlds[5], steps[5])
    ensures IsRun(worlds, steps)
  {
    hide Next, Enabled;
  }

  /** The first half: everyone is registered and gapped, and the recovery is open. */
  lemma FourGapped(handler: Handler) returns (w3: World, worlds: seq<World>)
    requires handler.isEvent
    ensures FourWaiting(w3, handler) && !w3.ticket && !w3.hub.bridge.needGapPass && w3.hub.recovery.Some?
    ensures |worlds| == 3 && worlds[0] == INITIAL_WORLD && w3 == Next(worlds[2], FourSteps(handler)[2])
    ensures worlds[1] == Next(worlds[0], FourSteps(handler)[0]) && worlds[2] == Next(worlds[1], FourSteps(handler)[1])
  {
    hide FourWaiting, FourPlugins, HostBridgeSlice;
    var steps := FourSteps(handler);
    var w1 := Next(INITIAL_WORLD, steps[0]);
    FourStart(handler);
    FourTurn(w1, handler);
    var w2 := Next(w1, steps[1]);
    FourTurn(w2, handler);
    w3 := Next(w2, steps[2]);
    worlds := [INITIAL_WORLD, w1, w2];
  }

  /** The second half: an empty baseline seals the projection. */
  lemma FourSealed(w3: World, handler: Handler) returns (w5: World)
    requires FourWaiting(w3, handler) && !w3.ticket && !w3.hub.bridge.needGapPass && w3.hub.recovery.Some?
    ensures w5 == Next(Next(w3, AskBaseline), ReadBaseline(PageRead(EMPTY_PAGE)))
    ensures Enabled(w3, AskBaseline) && Enabled(Next(w3, AskBaseline), ReadBaseline(PageRead(EMPTY_PAGE)))
    ensures FourWaiting(w5, handler) && w5.hub.projection.complete && !w5.hub.bridge.needGapPass
    ensures w5.hub.bridge.startSequence.Some? && w5.hub.bridge.startAfter.None?
  {
    hide FourWaiting;
    FourAsks(w3, handler);
    var w4 := Next(w3, AskBaseline);
    FourSeals(w4, handler);
    w5 := Next(w4, ReadBaseline(PageRead(EMPTY_PAGE)));
  }

  lemma FourStart(handler: Handler)
    ensures var w1 := Next(INITIAL_WORLD, Recover);
            FourWaiting(w1, handler) && w1.hub.bridge.needGapPass && w1.hub.bridge.gapAfter.None? && w1.hub.bridge.startSequence.None? && !w1.ticket
  {
    InitialInvariant();
    StepKeepsInvariant(INITIAL_WORLD, Recover);
    InitialStarving(FourPlugins(handler));
    OtherStepsStarve(INITIAL_WORLD, Recover, FourPlugins(handler));
    hide Invariant, Starving;
  }

  lemma FourAsks(w: World, handler: Handler)
    requires FourWaiting(w, handler)
    ensures FourWaiting(Next(w, AskBaseline), handler)
  {
    StepKeepsInvariant(w, AskBaseline);
    hide Invariant, Starving;
  }

  lemma FourSeals(w: World, handler: Handler)
    requires FourWaiting(w, handler) && w.ticket && !w.hub.bridge.needGapPass
    ensures FourWaiting(Next(w, ReadBaseline(PageRead(EMPTY_PAGE))), handler)
  {
    StepKeepsInvariant(w, ReadBaseline(PageRead(EMPTY_PAGE)));
    OtherStepsStarve(w, ReadBaseline(PageRead(EMPTY_PAGE)), FourPlugins(handler));
    hide Invariant, Starving;
  }

  lemma FourReady(w: World, handler: Handler)
    requires FourWaiting(w, handler) && w.hub.projection.complete && w.hub.bridge.startAfter == Some(4)
    requires w.hub.bridge.table.consumers.Keys == FOUR
    ensures w.hub.bridge.table.ready == FOUR
    ensures forall k :: k in FOUR ==> k in w.hub.bridge.table.consumers && AwaitsBegin(w.hub.bridge.table.consumers[k])
  {
    hide FourWaiting, AwaitsBegin;
    forall k | k in FOUR ensures k in w.hub.bridge.table.ready && AwaitsBegin(w.hub.bridge.table.consumers[k]) {
      FourthReady(w, handler, k);
    }
    ReadyAreConsumers(w, handler);
  }

  lemma ReadyAreConsumers(w: World, handler: Handler)
    requires FourWaiting(w, handler)
    ensures w.hub.bridge.table.ready <= w.hub.bridge.table.consumers.Keys
  {
    hide Starving;
    TableIsCoherent(w.hub);
    hide Safe;
  }

  lemma FourthReady(w: World, handler: Handler, k: int)
    requires FourWaiting(w, handler) && w.hub.projection.complete && w.hub.bridge.startAfter == Some(4)
    requires k in w.hub.bridge.table.consumers && k <= 4
    ensures k in w.hub.bridge.table.ready && AwaitsBegin(w.hub.bridge.table.consumers[k])
  {
    FourUngapped(w.hub, k);
    hide Safe, SeenSoFar, OnPageBoundary, NoneSent, AllHandled;
    UnservedIsReady(w.hub, k);
  }

  lemma FourUngapped(h: Hub, k: int)
    requires Safe(h) && h.projection.complete && !h.faulted && h.bridge.startAfter == Some(4)
    requires k in h.bridge.table.consumers && k <= 4
    ensures !h.bridge.table.consumers[k].gap
  {
    hide TableSafe, FanoutExact;
  }
}
