/**
 Starvation of the session family: with a fixed registry some run sends a frame
 if and only if there is a subscriber and the registry's last page and the
 subscribers together fit one turn's visits.
 */
module FamilyStarvation {
  import opened Ordered
  import opened SessionFamily
  import opened FamilyIndex
  import opened FamilyQuiet
  import opened FamilySafety
  import opened FamilyPasses
  import opened FamilySteps
  import opened FamilyRun
  import opened FamilySchedule

  /** Every turn of the run sees the same registry. */
  predicate Sees(step: Step, registry: Registry) {
    step.RunBridge? ==> step.registry == registry
  }

  // ------------------------------------------------------ crowded registry

  /** Nothing was ever sent, and the refresh round is on track. */
  ghost predicate Starving(h: Hub, registry: Registry) {
    var t := h.bridge.table;
    && OnPageBoundary(h, registry) && SeenSoFar(h, registry)
    && NoneSent(t) && t.flights == map[] && t.parked == {} && AllHandled(t)
  }

  lemma QuietStarving(h: Hub, h': Hub, registry: Registry)
    requires Starving(h, registry) && Quiet(h.bridge.table, h'.bridge.table)
    requires OnPageBoundary(h', registry) && SeenSoFar(h', registry)
    ensures Starving(h', registry)
  {
    assert h'.bridge.table.flights.Keys == {};
  }

  lemma CrowdedTurnStarves(h: Hub, registry: Registry, input: BridgeInput)
    requires Starving(h, registry) && !Roomy(registry) && input.registry == registry
    ensures Starving(HostBridgeSlice(h, input), registry)
  {
    hide BridgePasses, AdmitNext, Quiet, SeenSoFar;
    var h0 := h.(marked := false);
    SeenIgnoresMark(h, registry);
    CrowdedTurn(h0, registry, input.fuel);
    BridgePassesFramed(h0, registry, input.fuel);
    var h' := BridgePasses(h0, registry, input.fuel).0;
    SeenAlike(h', h'.(marked := true), registry);
    QuietStarving(h, h'.(marked := true), registry);
  }

  lemma SeenIgnoresMark(h: Hub, registry: Registry)
    requires SeenSoFar(h, registry)
    ensures SeenSoFar(h.(marked := false), registry)
  {
  }

  lemma SeenAlike(h: Hub, h': Hub, registry: Registry)
    requires SeenSoFar(h, registry) && h'.bridge.refreshAfter == h.bridge.refreshAfter
    requires h'.bridge.refreshSeen == h.bridge.refreshSeen && h'.bridge.table.consumers.Keys == h.bridge.table.consumers.Keys
    ensures SeenSoFar(h', registry)
  {
  }

  lemma {:induction false} ApplyKeepsRound(h: Hub, n: nat)
    ensures var h' := ApplyUpTo(h, n);
            h'.bridge.table == h.bridge.table && h'.bridge.refreshAfter == h.bridge.refreshAfter
            && h'.bridge.refreshSeen == h.bridge.refreshSeen
    decreases n
  {
    if n > 0 && h.changes != [] {
      ApplyKeepsRound(ApplyOne(h), n - 1);
    }
  }

  /** With nothing in flight, every step but a turn leaves the consumers and the round alone. */
  lemma OtherStepsStarve(w: World, step: Step, registry: Registry)
    requires Starving(w.hub, registry) && !step.RunBridge?
    ensures Starving(Next(w, step).hub, registry)
  {
    hide ApplyUpTo, Quiet, SeenSoFar;
    var h, h' := w.hub, Next(w, step).hub;
    ApplyKeepsRound(h, APPLY_MAX_CHANGES);
    UnparkAllQuiet(h.bridge.table);
    QuietSelf(h.bridge.table);
    SeenAlike(h, h', registry);
    QuietStarving(h, h', registry);
  }

  lemma UnparkAllQuiet(t: Table)
    ensures Quiet(t, UnparkAll(t)) && UnparkAll(t).consumers == t.consumers
  {
  }

  lemma InitialStarving(registry: Registry)
    ensures Starving(INITIAL_HUB, registry)
  {
    assert Beyond(registry.Keys, None) == registry.Keys;
  }

  /**
   Starvation: with a crowded registry no run of the code ever sends a frame to
   anyone, whatever the clock, the engine, the journal, the baseline pages and
   the order of steps.
   */
  lemma {:induction false} CrowdedRunsNeverSend(worlds: seq<World>, steps: seq<Step>, registry: Registry, i: nat)
    requires IsCodeRun(worlds, steps) && i < |worlds| && !Roomy(registry)
    requires forall m :: 0 <= m < |steps| ==> Sees(steps[m], registry)
    ensures Starving(worlds[i].hub, registry)
    decreases i
  {
    hide Starving, Next, Roomy;
    if i == 0 {
      InitialStarving(registry);
    } else {
      CrowdedRunsNeverSend(worlds, steps, registry, i - 1);
      assert worlds[i - 1 + 1] == Next(worlds[i - 1], steps[i - 1]) && Sees(steps[i - 1], registry);
      CrowdedStepStarves(worlds[i - 1], steps[i - 1], registry);
    }
  }

  lemma CrowdedStepStarves(w: World, step: Step, registry: Registry)
    requires Starving(w.hub, registry) && !Roomy(registry) && Sees(step, registry)
    ensures Starving(Next(w, step).hub, registry)
  {
    hide Starving, HostBridgeSlice;
    if step.RunBridge? {
      CrowdedTurnStarves(w.hub, registry, BridgeInput(step.registry, step.fuel, step.outcome, w.epoch));
    } else {
      OtherStepsStarve(w, step, registry);
    }
  }

  // --------------------------------------------------- ready but unserved

  lemma {:induction false} SilentCourse(log: seq<Event>)
    requires SendsNothing(log) && !CourseOf(log).stage.Broken?
    ensures CourseOf(log) == Course(Idle, false)
    decreases |log|
  {
    if log != [] {
      var n := |log| - 1;
      assert !log[n].Sent?;
      if CourseOf(log[..n]).stage.Broken? {
        assert false;
      }
      SilentCourse(log[..n]);
    }
  }

  /** A consumer outside a gap that was never sent anything waits with its begin frame, ready. */
  lemma UnservedIsReady(h: Hub, k: int)
    requires Safe(h) && NoneSent(h.bridge.table) && AllHandled(h.bridge.table) && h.bridge.table.parked == {}
    requires k in h.bridge.table.consumers && !h.bridge.table.consumers[k].gap
    ensures k in h.bridge.table.ready && AwaitsBegin(h.bridge.table.consumers[k])
  {
    hide Converging, FanoutExact, PassOrder, FlightsExact, BusyExact, QueueBounded;
    var t := h.bridge.table;
    assert Sound(t.consumers[k], LogAt(t, k));
    SilentCourse(LogAt(t, k));
  }
}
