/**
 Runs of the maintenance loop over the session family: journal pulls,
 projection slices, baseline pages, recoveries, host bridge slices,
 completions, engine releases and signal checks, in any order.
 */
module FamilyRun {
  import opened Ordered
  import opened SessionFamily
  import opened FamilyReplica
  import opened FamilyIndex
  import opened FamilyQuiet
  import opened FamilySafety
  import opened FamilyPasses
  import opened FamilySteps

  // --------------------------------------------------------------- slice

  /** A turn that is not out of budget has finished its gap and snapshot-start passes. */
  lemma BridgePassesSafe(h: Hub, registry: map<int, seq<Handler>>, fuel: nat)
    requires Safe(h)
    ensures var (h', budget, spent) := BridgePasses(h, registry, fuel);
            && Safe(h') && h'.bridge.stamp == h.bridge.stamp
            && (!spent ==> !h'.bridge.needGapPass && h'.bridge.startSequence.None?)
            && (!spent && h'.bridge.fanout != [] ==> h'.marked)
  {
    hide Safe, RefreshPass, GapPass, StartPass, FanoutPass, PrunePass;
    var (h1, b1) := RefreshPass(h, registry, Budget(0, 0, fuel));
    RefreshPassSafe(h, registry, Budget(0, 0, fuel));
    var (spent1, b1') := Exhausted(b1);
    var (h2, b2) := if spent1 then (h1, b1') else GapPass(h1, b1');
    GapPassSafe(h1, b1');
    var (spent2, b2') := Exhausted(b2);
    var (h3, b3) := if spent2 then (h2, b2') else StartPass(h2, b2');
    StartPassSafe(h2, b2');
    var (spent3, b3') := Exhausted(b3);
    var (h4, b4) := if spent3 then (h3, b3') else FanoutPass(h3, b3');
    if !spent3 {
      FanoutPassSafe(h3, b3');
    }
    var (spent4, b4') := Exhausted(b4);
    PrunePassSafe(h4, b4');
  }

  /** Work is left: a ready consumer, a queued delta, or an unfinished pass. */
  predicate HasWork(h: Hub) {
    h.bridge.table.ready != {} || h.bridge.fanout != [] || h.bridge.needGapPass || h.bridge.startSequence.Some?
  }

  lemma AdmitNextAwake(h: Hub, budget: Budget, outcome: Admission, epoch: nat)
    requires Safe(h) && !h.bridge.needGapPass && h.bridge.startSequence.None? && (h.bridge.fanout != [] ==> h.marked)
    ensures var h' := AdmitNext(h, budget, outcome, epoch).0;
            && (HasWork(h') ==> h'.marked)
            && (h'.bridge.stamp == h.bridge.stamp || h'.bridge.stamp.epoch == epoch)
  {
    hide TableSafe, FanoutExact, PassOrder, OfferFrame, MarkGap, Peek, NextReady, AddBytes, FrameBytes;
    var t := h.bridge.table;
    TableIsCoherent(h);
    ReadyIsAdmittable(t, h.bridge.stamp, h.bridge.admitAfter);
    NextReadyExists(t.ready, h.bridge.admitAfter);
    var next := NextReady(t.ready, h.bridge.admitAfter);
    if next.Some? {
      var peeked := Peek(t.consumers[next.value], h.projection.rows);
      ReadyPeeks(t.consumers[next.value], h.projection.rows);
      if !peeked.Nothing? && !peeked.TooLarge? {
        OfferAwake(h, next.value, peeked, outcome, epoch);
      }
    }
  }

  lemma OfferAwake(h: Hub, k: int, peeked: Peeked, outcome: Admission, epoch: nat)
    requires k in h.bridge.table.consumers && (peeked.Queued? || peeked.ChunkFrame? || peeked.EndFrame?)
    requires !h.bridge.needGapPass && h.bridge.startSequence.None? && (h.bridge.fanout != [] ==> h.marked)
    ensures var h' := OfferFrame(h, k, peeked, outcome, epoch);
            (HasWork(h') ==> h'.marked) && h'.bridge.stamp.epoch == epoch
  {
    hide Admitted, MarkGap, Park;
  }

  lemma NextReadyExists(ready: set<int>, after: Option<int>)
    ensures NextReady(ready, after).None? <==> ready == {}
  {
  }

  /** A ready consumer always has a frame or an oversized row: the admission never finds it idle. */
  lemma ReadyPeeks(c: Consumer, rows: Rows)
    requires Admittable(c)
    ensures !Peek(c, rows).Nothing?
  {
  }

  lemma HostBridgeSafe(h: Hub, input: BridgeInput)
    requires Safe(h) && h.bridge.stamp.epoch <= input.epoch
    ensures var h' := HostBridgeSlice(h, input);
            && Safe(h') && h'.bridge.stamp.epoch <= input.epoch && (HasWork(h') ==> h'.marked)
  {
    hide Safe, BridgePasses, AdmitNext;
    SafeIgnoresMark(h, false);
    var h0 := h.(marked := false);
    BridgePassesSafe(h0, input.registry, input.fuel);
    var (h1, budget, spent) := BridgePasses(h0, input.registry, input.fuel);
    SafeIgnoresMark(h1, true);
    if !spent {
      AdmitNextSafe(h1, budget, input.outcome, input.epoch);
      AdmitNextAwake(h1, budget, input.outcome, input.epoch);
    }
  }

  // ---------------------------------------------------------------- runs

  /** The hub, the plugin engine's release epoch, and whether a baseline page has been asked for and not yet answered. */
  datatype World = World(hub: Hub, epoch: nat, ticket: bool)

  datatype Step =
    | PullJournal(changes: seq<Change>)
    | ApplyChanges
    | AskBaseline
    | ReadBaseline(result: BaselineResult)
    | LoseBaseline
    | Recover
    | RewindCursor
    | RunBridge(registry: map<int, seq<Handler>>, fuel: nat, outcome: Admission)
    | Finish(request: RequestId, success: bool)
    | EngineRelease
    | CheckSignals

  /** A page is read only after one was asked for; nothing else is ruled out. */
  predicate Possible(w: World, step: Step) {
    step.ReadBaseline? ==> w.ticket
  }

  /** A complete page, asked for by an earlier recovery, arrives while the gap pass of a later one is pending. */
  predicate StraySeal(w: World, step: Step) {
    step.ReadBaseline? && step.result.PageRead? && step.result.page.complete && w.hub.bridge.needGapPass
  }

  predicate Enabled(w: World, step: Step) {
    Possible(w, step) && !StraySeal(w, step)
  }

  /** The omitted-row recovery rereads the journal from its start. */
  function RewoundCursor(h: Hub): Hub {
    if h.projection.cursor.Some? then h.(projection := h.projection.(cursor := Some(0))) else h
  }

  function Next(w: World, step: Step): World {
    var h := w.hub;
    match step
    case PullJournal(changes) => w.(hub := h.(changes := h.changes + changes))
    case ApplyChanges => w.(hub := ProjectionApplySlice(h))
    case AskBaseline => w.(ticket := w.ticket || h.recovery.Some?)
    case ReadBaseline(result) => w.(hub := ApplyBaseline(h, result), ticket := false)
    case LoseBaseline => w.(ticket := false)
    case Recover => w.(hub := StartRecovery(h))
    case RewindCursor => w.(hub := RewoundCursor(h))
    case RunBridge(registry, fuel, outcome) => w.(hub := HostBridgeSlice(h, BridgeInput(registry, fuel, outcome, w.epoch)))
    case Finish(request, success) => w.(hub := Complete(h, request, success))
    case EngineRelease => w.(epoch := w.epoch + 1)
    case CheckSignals => w.(hub := SignalCheck(h, w.epoch))
  }

  ghost predicate Invariant(w: World) {
    && Safe(w.hub) && w.hub.bridge.stamp.epoch <= w.epoch
    && (HasWork(w.hub) ==> w.hub.marked)
    && (w.ticket ==> AwaitsBaseline(w.hub))
  }

  const INITIAL_WORLD := World(INITIAL_HUB, 0, false)

  lemma InitialInvariant()
    ensures Invariant(INITIAL_WORLD)
  {
    assert FramesOf([]) == [];
  }

  // ------------------------------------------------------- wakes of steps

  lemma ApplyOneAwake(h: Hub)
    requires h.changes != [] && (HasWork(h) ==> h.marked)
    ensures HasWork(ApplyOne(h)) ==> ApplyOne(h).marked
    ensures ApplyOne(h).bridge.stamp == h.bridge.stamp
  {
  }

  lemma {:induction false} ApplyUpToAwake(h: Hub, n: nat)
    requires HasWork(h) ==> h.marked
    ensures var h' := ApplyUpTo(h, n); (HasWork(h') ==> h'.marked) && h'.bridge.stamp == h.bridge.stamp
    decreases n
  {
    hide ApplyOne;
    if n > 0 && h.changes != [] {
      ApplyOneAwake(h);
      ApplyUpToAwake(ApplyOne(h), n - 1);
    }
  }

  lemma SignalCheckAwake(h: Hub, epoch: nat)
    requires HasWork(h) ==> h.marked
    ensures var h' := SignalCheck(h, epoch); (HasWork(h') ==> h'.marked) && h'.bridge.stamp == h.bridge.stamp
  {
  }

  lemma CompleteAwake(h: Hub, request: RequestId, success: bool)
    requires HasWork(h) ==> h.marked
    ensures var h' := Complete(h, request, success); (HasWork(h') ==> h'.marked) && h'.bridge.stamp == h.bridge.stamp
  {
    hide Land, MarkGap;
  }

  /** A page asked for stays awaited. */
  lemma StepKeepsTicket(w: World, step: Step)
    requires Invariant(w) && Possible(w, step) && Next(w, step).ticket
    ensures AwaitsBaseline(Next(w, step).hub)
  {
    hide TableSafe, FanoutExact, HostBridgeSlice, MarkGap, Land, UnparkAll, ApplyUpTo;
    if step.RunBridge? {
      TurnFlights(w.hub, BridgeInput(step.registry, step.fuel, step.outcome, w.epoch));
    }
  }

  /** Every step the loop can take keeps the invariant, but for a stray seal, which always breaks it. */
  lemma StepKeepsInvariant(w: World, step: Step)
    requires Invariant(w) && Possible(w, step)
    ensures Invariant(Next(w, step)) <==> !StraySeal(w, step)
  {
    if Next(w, step).ticket {
      StepKeepsTicket(w, step);
    }
    hide Safe, ProjectionApplySlice, HostBridgeSlice, Complete, SignalCheck, ApplyBaseline, StartRecovery, AwaitsBaseline;
    var h := w.hub;
    match step
    case PullJournal(changes) =>
      PullSafe(h, changes);
    case ApplyChanges =>
      ProjectionApplySafe(h);
      ApplySliceAwake(h);
    case AskBaseline =>
    case LoseBaseline =>
    case ReadBaseline(result) =>
      AwaitedPage(w);
      ApplyBaselineSafe(h, result);
      ApplyBaselineAwake(h, result);
    case Recover =>
      TableIsCoherent(h);
      RecoverySafe(h);
      RecoveryAwake(h);
    case RewindCursor =>
      RewindSafe(h);
    case RunBridge(registry, fuel, outcome) =>
      HostBridgeSafe(h, BridgeInput(registry, fuel, outcome, w.epoch));
    case Finish(request, success) =>
      CompleteSafe(h, request, success);
      CompleteAwake(h, request, success);
    case EngineRelease =>
    case CheckSignals =>
      SignalCheckSafe(h, w.epoch);
      SignalCheckAwake(h, w.epoch);
  }

  lemma AwaitedPage(w: World)
    requires w.ticket ==> AwaitsBaseline(w.hub)
    ensures w.ticket ==> !w.hub.projection.complete && (w.hub.recovery.Some? || w.hub.bridge.needGapPass)
  {
  }

  lemma RewindSafe(h: Hub)
    requires Safe(h)
    ensures Safe(RewoundCursor(h))
  {
  }

  lemma PullSafe(h: Hub, changes: seq<Change>)
    requires Safe(h)
    ensures Safe(h.(changes := h.changes + changes))
  {
  }

  lemma ApplySliceAwake(h: Hub)
    requires HasWork(h) ==> h.marked
    ensures var h' := ProjectionApplySlice(h); (HasWork(h') ==> h'.marked) && h'.bridge.stamp == h.bridge.stamp
  {
    hide ApplyUpTo;
    ApplyUpToAwake(h, APPLY_MAX_CHANGES);
  }

  lemma ApplyBaselineAwake(h: Hub, result: BaselineResult)
    requires HasWork(h) ==> h.marked
    ensures var h' := ApplyBaseline(h, result); (HasWork(h') ==> h'.marked) && h'.bridge.stamp == h.bridge.stamp
  {
  }

  lemma RecoveryAwake(h: Hub)
    ensures var h' := StartRecovery(h); (HasWork(h') ==> h'.marked) && h'.bridge.stamp == h.bridge.stamp
  {
  }

  lemma CompleteSafe(h: Hub, request: RequestId, success: bool)
    requires Safe(h)
    ensures Safe(Complete(h, request, success))
  {
    if request in h.bridge.table.flights {
      if success {
        CompleteSuccessSafe(h, request);
      } else {
        CompleteFailureSafe(h, request);
      }
    }
  }

  /** The worlds the code passes through, stray seals included. */
  ghost predicate IsCodeRun(worlds: seq<World>, steps: seq<Step>) {
    && |worlds| == |steps| + 1 && worlds[0] == INITIAL_WORLD
    && forall i :: 0 <= i < |steps| ==> Possible(worlds[i], steps[i]) && worlds[i + 1] == Next(worlds[i], steps[i])
  }

  /** The invariant holds in all states of a run of the code if and only if no stray seal happens in it. */
  lemma {:induction false} CodeRunKeepsInvariantIff(worlds: seq<World>, steps: seq<Step>, i: nat)
    requires IsCodeRun(worlds, steps) && i < |worlds|
    ensures (forall m :: 0 <= m <= i ==> Invariant(worlds[m])) <==> forall m :: 0 <= m < i ==> !StraySeal(worlds[m], steps[m])
  {
    hide Invariant, Next;
    if i == 0 {
      InitialInvariant();
    } else {
      CodeRunKeepsInvariantIff(worlds, steps, i - 1);
      assert worlds[i - 1 + 1] == Next(worlds[i - 1], steps[i - 1]) && Possible(worlds[i - 1], steps[i - 1]);
      if forall m :: 0 <= m < i - 1 ==> !StraySeal(worlds[m], steps[m]) {
        StepKeepsInvariant(worlds[i - 1], steps[i - 1]);
      }
    }
  }

  /** The worlds a run without stray seals passes through. */
  ghost predicate IsRun(worlds: seq<World>, steps: seq<Step>) {
    && |worlds| == |steps| + 1 && worlds[0] == INITIAL_WORLD
    && forall i :: 0 <= i < |steps| ==> Enabled(worlds[i], steps[i]) && worlds[i + 1] == Next(worlds[i], steps[i])
  }

  lemma {:induction false} RunKeepsInvariant(worlds: seq<World>, steps: seq<Step>, i: nat)
    requires IsRun(worlds, steps) && i < |worlds|
    ensures Invariant(worlds[i])
    decreases i
  {
    hide Invariant, Next;
    if i == 0 {
      InitialInvariant();
    } else {
      RunKeepsInvariant(worlds, steps, i - 1);
      StepKeepsInvariant(worlds[i - 1], steps[i - 1]);
      assert worlds[i] == Next(worlds[i - 1], steps[i - 1]);
    }
  }
}
