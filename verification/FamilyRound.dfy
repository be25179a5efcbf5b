/**
 How often admission is reached: with a roomy registry and nothing else
 pending, once in every round of the refresh cursor.
 */
module FamilyRound {
  import opened Ordered
  import opened SessionFamily
  import opened FamilyIndex
  import opened FamilySafety
  import opened FamilyPasses
  import opened FamilySteps
  import opened FamilyRun
  import opened FamilySchedule
  import opened FamilyStarvation

  /** No pass is pending and only subscribers are registered. */
  ghost predicate Idle(h: Hub, registry: Registry) {
    && OnPageBoundary(h, registry) && SeenSoFar(h, registry) && h.bridge.table.consumers.Keys <= Subscribers(registry)
    && !h.bridge.needGapPass && h.bridge.startSequence.None? && h.bridge.fanout == []
  }

  /** Whether a turn has budget left once its passes are done. */
  predicate Admits(h: Hub, input: BridgeInput) {
    !BridgePasses(h.(marked := false), input.registry, input.fuel).2
  }

  predicate SomeAdmits(h: Hub, inputs: seq<BridgeInput>)
    decreases |inputs|
  {
    inputs != [] && (Admits(h, inputs[0]) || SomeAdmits(HostBridgeSlice(h, inputs[0]), inputs[1..]))
  }

  /** The turns the refresh cursor still needs for this round; an empty registry takes one as well. */
  function PagesLeft(h: Hub, registry: Registry): nat {
    var r := Remaining(h, registry);
    if r <= CONSUMER_REFRESH_MAX then 1 else (r + CONSUMER_REFRESH_MAX - 1) / CONSUMER_REFRESH_MAX
  }

  /** The refresh of an idle hub's turn. */
  lemma IdleRefresh(h: Hub, input: BridgeInput) returns (h1: Hub, b1: Budget)
    requires Idle(h, input.registry)
    ensures (h1, b1) == RefreshPass(h.(marked := false), input.registry, Budget(0, 0, input.fuel))
    ensures Idle(h1, input.registry) && b1.bytes == 0
    ensures var r := Remaining(h, input.registry);
            && (r >= CONSUMER_REFRESH_MAX ==> Spent(b1))
            && (r > CONSUMER_REFRESH_MAX ==> Remaining(h1, input.registry) == r - CONSUMER_REFRESH_MAX)
            && (r <= CONSUMER_REFRESH_MAX ==>
                  && h1.bridge.table.consumers.Keys == Subscribers(input.registry) <= h1.bridge.refreshSeen
                  && h1.bridge.needPrune && h1.bridge.pruneAfter.None?)
            && (r < CONSUMER_REFRESH_MAX && input.fuel > r ==> b1.visits == r && b1.fuel == input.fuel - r)
  {
    hide RefreshPass, SeenSoFar, Subscribers;
    var h0 := h.(marked := false);
    SeenIgnoresMark(h, input.registry);
    RefreshMovesCursor(h0, input.registry, input.fuel);
    RefreshSees(h0, input.registry, input.fuel);
    RefreshSpends(h0, input.registry, input.fuel);
    RefreshKeeps(h0, input.registry, Budget(0, 0, input.fuel));
    h1 := RefreshPass(h0, input.registry, Budget(0, 0, input.fuel)).0;
    b1 := RefreshPass(h0, input.registry, Budget(0, 0, input.fuel)).1;
  }

  /** Before the last page of a round a turn stays idle and moves on by one page. */
  lemma MidTurnStaysIdle(h: Hub, input: BridgeInput)
    requires Idle(h, input.registry) && Remaining(h, input.registry) > CONSUMER_REFRESH_MAX
    ensures var h' := HostBridgeSlice(h, input);
            && Idle(h', input.registry) && !Admits(h, input)
            && Remaining(h', input.registry) == Remaining(h, input.registry) - CONSUMER_REFRESH_MAX
  {
    hide RefreshPass, SeenSoFar, Subscribers, BridgePasses;
    var h1, b1 := IdleRefresh(h, input);
    SpentTurn(h.(marked := false), input.registry, input.fuel, h1, b1);
    assert SeenSoFar(h1.(marked := true), input.registry) by { SeenAlike(h1, h1.(marked := true), input.registry); }
  }

  /** The turn over the last page reaches admission if and only if the page and the subscribers leave a visit over. */
  lemma LastTurnAdmitsIff(h: Hub, input: BridgeInput)
    requires Idle(h, input.registry) && Remaining(h, input.registry) <= CONSUMER_REFRESH_MAX && input.fuel >= AMPLE_FUEL
    ensures Admits(h, input) <==> Roomy(input.registry)
    ensures Admits(h, input) ==> var b := BridgePasses(h.(marked := false), input.registry, input.fuel).1; b.bytes == 0 && !Spent(b)
  {
    hide RefreshPass, SeenSoFar, Subscribers, BridgePasses, PrunePass;
    var h1, b1 := IdleRefresh(h, input);
    LastPageIsLeast(h, input.registry);
    IdleTurn(h.(marked := false), input.registry, input.fuel, h1, b1);
    if Remaining(h, input.registry) < CONSUMER_REFRESH_MAX {
      var keysOf := h1.bridge.table.consumers.Keys;
      assert |h1.bridge.table.consumers| == |keysOf|;
      PruneSpends(h1, input.registry, b1.(fuel := b1.fuel - 5));
    }
  }

  /** Over as many turns as the rest of the round has pages, a roomy registry reaches admission and no other does. */
  lemma {:induction false} RoundAdmitsIff(h: Hub, registry: Registry, inputs: seq<BridgeInput>)
    requires Idle(h, registry)
    requires forall i :: 0 <= i < |inputs| ==> inputs[i].registry == registry && inputs[i].fuel >= AMPLE_FUEL
    requires |inputs| == PagesLeft(h, registry)
    ensures SomeAdmits(h, inputs) <==> Roomy(registry)
    decreases |inputs|
  {
    hide HostBridgeSlice, Admits, Idle, Subscribers, Remaining, Roomy;
    if Remaining(h, registry) > CONSUMER_REFRESH_MAX {
      MidTurnStaysIdle(h, inputs[0]);
      RoundAdmitsIff(HostBridgeSlice(h, inputs[0]), registry, inputs[1..]);
    } else {
      LastTurnAdmitsIff(h, inputs[0]);
      assert inputs[1..] == [];
    }
  }

  /** A turn that reaches admission with its whole byte budget and a ready consumer offers a frame, or faults on a row no chunk can carry. */
  lemma AdmittingTurnOffers(h: Hub, input: BridgeInput)
    requires Safe(h) && Admits(h, input)
    requires var (h5, b5, _) := BridgePasses(h.(marked := false), input.registry, input.fuel);
             h5.bridge.table.ready != {} && b5.bytes == 0 && !Spent(b5)
    ensures var h' := HostBridgeSlice(h, input);
            h'.faulted || h'.bridge.stamp == Stamp(h.bridge.stamp.serial + 1, input.epoch)
  {
    hide BridgePasses, Safe, AdmitNext;
    SafeIgnoresMark(h, false);
    BridgePassesSafe(h.(marked := false), input.registry, input.fuel);
    var (h5, b5, _) := BridgePasses(h.(marked := false), input.registry, input.fuel);
    AdmissionOffers(h5, b5, input.outcome, input.epoch);
  }

  lemma AdmissionOffers(h: Hub, budget: Budget, outcome: Admission, epoch: nat)
    requires Safe(h) && h.bridge.table.ready != {} && !Spent(budget) && budget.bytes == 0
    ensures var h' := AdmitNext(h, budget, outcome, epoch).0;
            h'.faulted || h'.bridge.stamp == Stamp(h.bridge.stamp.serial + 1, epoch)
  {
    hide Safe, Peek, NextReady, FrameBytes, MarkGap, Admitted, Park;
    var t := h.bridge.table;
    TableIsCoherent(h);
    ReadyIsAdmittable(t, h.bridge.stamp, h.bridge.admitAfter);
    NextReadyExists(t.ready, h.bridge.admitAfter);
    var k := NextReady(t.ready, h.bridge.admitAfter).value;
    ReadyPeeks(t.consumers[k], h.projection.rows);
    PeekedFits(h, k);
  }
}
