/**
 The owner-loop maintenance state around the session family bridge. Its
 invariant `Valid` is the one of the run theorems, kept by every slice.
 */
module Maintenance {
  import opened Ordered
  import opened SessionFamily
  import Spec = SessionFamily
  import opened FamilyReplica
  import opened FamilySafety
  import opened FamilySteps
  import opened FamilyRun
  import opened FamilyTheorems
  import opened FamilyBridge

  /** The part of the run invariant that is the hub's own. */
  ghost predicate WellKept(h: Hub) {
    Safe(h) && (HasWork(h) ==> h.marked)
  }

  lemma InitialWellKept()
    ensures WellKept(INITIAL_HUB)
  {
    InitialInvariant();
  }

  lemma RecoveryKeeps(h: Hub)
    requires WellKept(h)
    ensures WellKept(StartRecovery(h))
  {
    hide Safe, StartRecovery, HasWork;
    TableIsCoherent(h);
    RecoverySafe(h);
    RecoveryAwake(h);
  }

  lemma PullKeeps(h: Hub, changes: seq<Change>)
    requires WellKept(h)
    ensures WellKept(h.(changes := h.changes + changes))
  {
    hide Safe;
    PullSafe(h, changes);
  }

  lemma SliceKeeps(h: Hub, input: BridgeInput)
    requires WellKept(h) && h.bridge.stamp.epoch <= input.epoch
    ensures var h' := HostBridgeSlice(h, input); WellKept(h') && h'.bridge.stamp.epoch <= input.epoch
  {
    hide Safe, HostBridgeSlice, HasWork;
    HostBridgeSafe(h, input);
  }

  lemma CompletionKeeps(h: Hub, request: RequestId, success: bool)
    requires WellKept(h)
    ensures WellKept(Complete(h, request, success))
  {
    hide Safe, Complete, HasWork;
    CompleteSafe(h, request, success);
    CompleteAwake(h, request, success);
  }

  lemma ApplyKeeps(h: Hub)
    requires WellKept(h)
    ensures WellKept(ProjectionApplySlice(h))
  {
    hide Safe, ProjectionApplySlice, HasWork;
    ProjectionApplySafe(h);
    ApplySliceAwake(h);
  }

  lemma BaselineKeepsIff(h: Hub, result: BaselineResult)
    requires WellKept(h) && (result.PageRead? ==> !h.projection.complete && (h.recovery.Some? || h.bridge.needGapPass))
    ensures WellKept(ApplyBaseline(h, result)) <==> !(result.PageRead? && result.page.complete && h.bridge.needGapPass)
  {
    hide Safe, ApplyBaseline, HasWork;
    ApplyBaselineSafe(h, result);
    ApplyBaselineAwake(h, result);
  }

  lemma SignalKeeps(h: Hub, epoch: nat)
    requires WellKept(h)
    ensures WellKept(SignalCheck(h, epoch))
  {
    hide Safe, SignalCheck, HasWork;
    SignalCheckSafe(h, epoch);
    SignalCheckAwake(h, epoch);
  }

  class MaintenanceState {
    var projection: Projection
    var pendingChanges: seq<Change>
    var baseline: Option<Recovery>
    const family: SessionFamilyBridge
    var faulted: bool
    var marked: bool

    ghost function View(): Hub
      reads this, family, family.table
    {
      Hub(projection, pendingChanges, baseline, family.View(), faulted, marked)
    }

    /** Indexes exact, replicas converging, logs well formed, passes in order, and the wake bit set over work. */
    ghost predicate Valid()
      reads this, family, family.table
    {
      WellKept(View())
    }

    /** A baseline page can only have been asked for while this holds. */
    predicate AwaitsPage()
      reads this, family
    {
      !projection.complete && (baseline.Some? || family.needGapPass)
    }

    /** Of any valid state: a settled consumer was sent exactly the projected rows. */
    lemma SettledConsumerIsExact(k: int)
      requires Valid() && projection.complete && family.pendingFanout == []
      requires k in family.table.consumers && Settled(family.table.consumers[k])
      ensures Replica(LogAt(family.table.View(), k)) == projection.rows
    {
      hide Safe;
      SafeSettled(View(), k);
    }

    /** And any consumer outside a gap holds them once it has its owed frames too. */
    lemma ReplicaConverges(k: int)
      requires Valid() && projection.complete && k in family.table.consumers && !family.table.consumers[k].gap
      requires ChunksFit(View(), k)
      ensures AfterFrames(Replica(LogAt(family.table.View(), k)), OwedFrames(View(), k)) == projection.rows
    {
      hide Safe, OwedFrames, ChunksFit;
      SafeConverges(View(), k);
    }

    constructor ()
      ensures View() == INITIAL_HUB && Valid() && fresh(family) && fresh(family.table)
    {
      InitialWellKept();
      projection, pendingChanges, baseline, faulted, marked := Projection(map[], None, false, false), [], None, false, true;
      family := new SessionFamilyBridge();
    }

    method StartBaselineRecovery()
      modifies this, family, family.table
      ensures View() == StartRecovery(old(View()))
      ensures old(Valid()) ==> Valid()
    {
      hide WellKept;
      if Valid() { RecoveryKeeps(View()); }
      hide SessionFamilyBridge.View;
      projection := Projection(map[], None, false, true);
      pendingChanges := [];
      family.ResetForRecovery();
      baseline := None;
      marked := true;
    }

    // ------------------------------------------------------------ passes

    method ContinueGapPass(budget: HostBridgeBudget)
      modifies this, family, family.table, budget
      ensures (View(), budget.View()) == GapPass(old(View()), old(budget.View()))
    {
      hide GapKeys, Page;
      if !family.needGapPass {
        return;
      }
      var max := budget.RemainingVisits();
      if max == 0 {
        return;
      }
      var done := family.GapPage(budget, max);
      marked := true;
      if done {
        baseline := Some(Recovery(None, None));
      }
    }

    method ContinueSnapshotStarts(budget: HostBridgeBudget)
      modifies this, family, family.table, budget
      ensures (View(), budget.View()) == StartPass(old(View()), old(budget.View()))
    {
      hide StartKeys, Page;
      if family.snapshotStartSequence.None? {
        return;
      }
      var max := budget.RemainingVisits();
      if max == 0 {
        return;
      }
      var done := family.StartPage(budget, max, family.snapshotStartSequence.value);
      if !done {
        marked := true;
      }
    }

    method FanoutFrontJob(budget: HostBridgeBudget) returns (more: bool)
      requires family.pendingFanout != []
      modifies this, family, family.table, budget
      ensures (View(), budget.View(), more) == FanoutFront(old(View()), old(budget.View()))
    {
      hide FanoutKeys, Page, ConsumerTable.View, LessJob, LastVisited;
      ghost var jobs := family.pendingFanout;
      var job := family.PopJob();
      more := true;
      var max := budget.RemainingVisits();
      if max > 0 {
        more, job := family.FanoutPage(budget, max, job, projection);
      }
      if more {
        family.PushJob(job, true);
        marked := true;
        assert jobs == [jobs[0]] + jobs[1..];
      }
    }

    method ContinueFamilyFanout(budget: HostBridgeBudget)
      modifies this, family, family.table, budget
      ensures (View(), budget.View()) == FanoutPass(old(View()), old(budget.View()))
    {
      hide FanoutFront;
      ghost var before := budget.View();
      var spent := budget.Exhausted();
      while !spent
        invariant (spent, budget.View()) == Spec.Exhausted(before)
        invariant FanoutPass(View(), before) == FanoutPass(old(View()), old(budget.View()))
        decreases |family.pendingFanout|, !spent
      {
        if family.pendingFanout == [] {
          return;
        }
        var more := FanoutFrontJob(budget);
        if more {
          return;
        }
        before := budget.View();
        spent := budget.Exhausted();
      }
      if family.pendingFanout != [] {
        marked := true;
      }
    }

    method ContinueConsumerPrune(budget: HostBridgeBudget)
      modifies this, family, family.table, budget
      ensures (View(), budget.View()) == PrunePass(old(View()), old(budget.View()))
    {
      hide PruneKeys, RemoveAll, Page;
      if !family.needPrune {
        return;
      }
      var max := budget.RemainingVisits();
      if max == 0 {
        return;
      }
      var done := family.PrunePage(budget, max);
      if !done {
        marked := true;
      }
    }

    method RefreshConsumers(registry: map<int, seq<Handler>>, budget: HostBridgeBudget)
      modifies this, family, family.table, budget
      ensures (View(), budget.View()) == RefreshPass(old(View()), registry, old(budget.View()))
    {
      hide RegisterKeys, Page, Subscribed, TakeMany, SessionFamilyBridge.View;
      var max := budget.RemainingVisits();
      if max == 0 {
        return;
      }
      var visited, more := family.RefreshPage(registry, max, projection);
      ChargeVisits(budget, visited);
      if more {
        marked := true;
      }
    }

    static method ChargeVisits(budget: HostBridgeBudget, n: nat)
      modifies budget
      ensures budget.View() == TakeMany(old(budget.View()), n)
    {
      hide Spec.Take;
      var i := n;
      while i > 0
        invariant TakeMany(budget.View(), i) == TakeMany(old(budget.View()), n)
      {
        var ok := budget.Take();
        if !ok {
          break;
        }
        i := i - 1;
      }
    }

    // --------------------------------------------------------- admission

    method ContinueIfReady()
      modifies this`marked
      ensures View() == Spec.ContinueIfReady(old(View()))
    {
      if family.AnyReady() {
        marked := true;
      }
    }

    method OfferFrame(k: int, peeked: Peeked, outcome: Admission, epoch: nat)
      requires k in family.table.consumers && (peeked.Queued? || peeked.ChunkFrame? || peeked.EndFrame?)
      modifies this, family, family.table
      ensures View() == Spec.OfferFrame(old(View()), k, peeked, outcome, epoch)
    {
      hide Spec.MarkGap, Spec.Park, Admitted, ConsumerTable.View, SequenceOf, StartRecovery;
      var request := family.IssueRequest(k, SequenceOf(peeked.frame), epoch);
      match outcome {
        case Accepted =>
          family.table.LaunchFrame(k, peeked, request);
          ContinueIfReady();
        case Refused =>
          family.table.Park(k, epoch);
          ContinueIfReady();
        case Rejected =>
          family.table.MarkGap(k);
          StartBaselineRecovery();
      }
    }

    method AdmitNextFrame(budget: HostBridgeBudget, outcome: Admission, epoch: nat)
      modifies this, family, family.table, budget
      ensures (View(), budget.View()) == AdmitNext(old(View()), old(budget.View()), outcome, epoch)
    {
      hide Peek, Spec.NextReady, Spec.MarkGap, Spec.OfferFrame, FrameBytes, Spec.AddBytes;
      var next := family.NextReady();
      if next.None? {
        return;
      }
      var k := next.value;
      var peeked := family.PeekPayload(k, projection.rows);
      if peeked.Nothing? {
        return;
      }
      if peeked.TooLarge? {
        family.table.MarkGap(k);
        family.MoveAdmission(k);
        faulted := true;
        ContinueIfReady();
        return;
      }
      var fits := budget.AddBytes(FrameBytes(peeked.frame));
      if !fits {
        marked := true;
        return;
      }
      OfferFrame(k, peeked, outcome, epoch);
    }

    /** Every pass before admission, each only while the budget lasts. */
    method RunPasses(registry: map<int, seq<Handler>>, budget: HostBridgeBudget) returns (spent: bool)
      requires budget.View() == Budget(0, 0, budget.View().fuel)
      modifies this, family, family.table, budget
      ensures (View(), budget.View(), spent) == BridgePasses(old(View()), registry, old(budget.View()).fuel)
    {
      hide RefreshPass, GapPass, StartPass, FanoutPass, PrunePass, Spec.Exhausted, View, HostBridgeBudget.View;
      RefreshConsumers(registry, budget);
      spent := budget.Exhausted();
      if !spent {
        ContinueGapPass(budget);
      }
      spent := budget.Exhausted();
      if !spent {
        ContinueSnapshotStarts(budget);
      }
      spent := budget.Exhausted();
      if !spent {
        ContinueFamilyFanout(budget);
      }
      spent := budget.Exhausted();
      if !spent {
        ContinueConsumerPrune(budget);
      }
      spent := budget.Exhausted();
    }

    method RunHostBridgeSlice(input: BridgeInput)
      modifies this, family, family.table
      ensures View() == HostBridgeSlice(old(View()), input)
      ensures old(Valid()) && old(family.epochRead) <= input.epoch ==> Valid() && family.epochRead <= input.epoch
    {
      hide WellKept;
      if Valid() && family.epochRead <= input.epoch { SliceKeeps(View(), input); }
      hide BridgePasses, AdmitNext, SessionFamilyBridge.View;
      marked := false;
      var budget := new HostBridgeBudget(input.fuel);
      var spent := RunPasses(input.registry, budget);
      if spent {
        marked := true;
        return;
      }
      AdmitNextFrame(budget, input.outcome, input.epoch);
    }

    // ------------------------------------------------------ other slices

    method HandleCompletion(request: RequestId, success: bool)
      modifies this, family, family.table
      ensures View() == Complete(old(View()), request, success)
      ensures old(Valid()) ==> Valid()
    {
      hide WellKept;
      if Valid() { CompletionKeeps(View(), request, success); }
      hide Spec.MarkGap, Land, StartRecovery, Note;
      if !family.HasFlight(request) {
        return;
      }
      var k := family.table.LandFlight(request, success);
      if !success {
        family.table.MarkGap(k);
        StartBaselineRecovery();
        return;
      }
      family.table.NoteDelivered(k);
      marked := true;
    }

    method QueueFamilyDelta(change: Change)
      modifies this, family, family.table
      ensures View() == Spec.QueueFamilyDelta(old(View()), change)
    {
      if change.Unrecognized? {
        return;
      }
      if |family.pendingFanout| >= FANOUT_QUEUE_MAX_ITEMS || family.fanoutBytes + change.wire > FANOUT_QUEUE_MAX_BYTES {
        StartBaselineRecovery();
        return;
      }
      family.PushJob(Job(change, None, change.wire), false);
      marked := true;
    }

    /** A journal page was read: its changes wait for the next projection slice. */
    method QueueJournalChanges(changes: seq<Change>)
      modifies this
      ensures View() == old(View()).(changes := old(pendingChanges) + changes)
      ensures old(Valid()) ==> Valid()
    {
      hide WellKept;
      if Valid() { PullKeeps(View(), changes); }
      pendingChanges := pendingChanges + changes;
    }

    method RunProjectionApplySlice()
      modifies this, family, family.table
      ensures View() == ProjectionApplySlice(old(View()))
      ensures old(Valid()) ==> Valid()
    {
      hide WellKept;
      if Valid() { ApplyKeeps(View()); }
      hide Spec.QueueFamilyDelta;
      if !projection.complete {
        pendingChanges := [];
        return;
      }
      var left := APPLY_MAX_CHANGES;
      while left > 0 && pendingChanges != []
        invariant 0 <= left && ApplyUpTo(View(), left) == ApplyUpTo(old(View()), APPLY_MAX_CHANGES)
        decreases left
      {
        var change := pendingChanges[0];
        pendingChanges := pendingChanges[1..];
        projection := projection.(rows := ApplyChange(projection.rows, change), cursor := Some(change.sequence));
        QueueFamilyDelta(change);
        left := left - 1;
      }
    }

    method ApplyBaselineRead(result: BaselineResult)
      modifies this, family, family.table
      ensures View() == ApplyBaseline(old(View()), result)
      ensures old(Valid()) && (result.PageRead? ==> old(AwaitsPage())) ==>
                (Valid() <==> !(result.PageRead? && result.page.complete && old(family.needGapPass)))
    {
      hide WellKept;
      if Valid() && (result.PageRead? ==> AwaitsPage()) { BaselineKeepsIff(View(), result); }
      hide StartRecovery;
      match result {
        case Resync => StartBaselineRecovery();
        case ReadFailed => StartBaselineRecovery();
        case CannotProgress => faulted := true;
        case PageRead(page) =>
          var rows := IngestSessions(projection.rows, page.sessions);
          if page.complete {
            projection := Projection(rows, Some(page.snapshot), true, false);
            baseline := None;
            family.BeginStarts(page.snapshot);
            marked := true;
          } else {
            projection := projection.(rows := rows);
            if baseline.Some? {
              baseline := Some(Recovery(Some(page.snapshot), page.next));
            }
          }
      }
    }

    static method IngestSessions(rows: Rows, sessions: seq<Item>) returns (r: Rows)
      ensures r == Ingest(rows, sessions)
    {
      r := rows;
      var i := 0;
      while i < |sessions|
        invariant i <= |sessions| && r == Ingest(rows, sessions[..i])
      {
        r := r[sessions[i].id := sessions[i].entity];
        assert sessions[..i + 1][..i] == sessions[..i];
        i := i + 1;
      }
      assert sessions[..i] == sessions;
    }

    method CheckSignal(epoch: nat)
      modifies this, family, family.table
      ensures View() == SignalCheck(old(View()), epoch)
      ensures old(Valid()) ==> Valid()
    {
      hide WellKept;
      if Valid() { SignalKeeps(View(), epoch); }
      hide Spec.UnparkAll;
      if family.table.engineParkedSeen.Some? && family.table.engineParkedSeen.value != epoch {
        var anyReady := family.table.UnparkAll();
        if anyReady {
          marked := true;
        }
      }
    }
  }
}
