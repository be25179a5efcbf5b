/**
 Terminal disposal: an owner that submits, resubmits and polls, and a worker
 that destroys the payload once. The work permit, the slot, is always in
 exactly one place and comes back at most once, only after the payload is gone.
 */
module HostDisposal {
  import opened Ordered

  datatype Outcome = Pending | Disposed | Retired | PartialDestruction | SharedCleanupFault

  /** How the worker's destruction goes. A panic may leave any part destroyed or untouched. */
  datatype Destruction =
    | CleanupFails
    | BridgesFail
    | Panics(cleanupDone: bool, bridgesDone: bool, payloadTouched: bool, modelDone: bool)
    | Completes

  /**
   The shared record, and who holds the permit: the owner's refused submission,
   the executor's queue, the worker while it runs, or the record. `returned`
   counts the permits handed back to the owner.
   */
  datatype Disposal = Disposal(
    payload: bool,
    model: bool,
    clientCleanup: bool,
    pluginBridges: bool,
    outcome: Outcome,
    refused: bool,
    queued: bool,
    running: bool,
    kept: bool,
    returned: nat)

  function Submitted(cleanup: bool, bridges: bool, model: bool, accepted: bool): Disposal {
    Disposal(true, model, cleanup, bridges, Pending, !accepted, accepted, false, false, 0)
  }

  datatype PollResult = PollPending | PollDisposed | PollRetired | PollPartial | PollFault

  /** `Job::poll`: resubmit a refused command, then look at the record unless the worker holds its lock. */
  function Resubmitted(d: Disposal, accepted: bool): Disposal {
    if d.refused && accepted then d.(refused := false, queued := true) else d
  }

  function WorkPolled(d: Disposal): (Disposal, PollResult) {
    if d.running then (d, PollPending)
    else
      match d.outcome
      case Pending => (d, PollPending)
      case Disposed => (d.(outcome := Retired, kept := false, returned := d.returned + 1), PollDisposed)
      case Retired => (d, PollRetired)
      case PartialDestruction => (d, PollPartial)
      case SharedCleanupFault => (d, PollFault)
  }

  function JobPolled(d: Disposal, accepted: bool): (Disposal, PollResult) {
    WorkPolled(Resubmitted(d, accepted))
  }

  /** The worker takes the command, with the permit, and the record's lock. */
  function Started(d: Disposal): Disposal {
    d.(queued := false, running := true)
  }

  function AllDestroyed(d: Disposal): Disposal {
    d.(clientCleanup := false, pluginBridges := false, payload := false, model := false, outcome := Disposed)
  }

  /** The worker's destruction of the record's parts, in order, as far as it gets. */
  function Destroyed(d: Disposal, how: Destruction): Disposal {
    match how
    case CleanupFails => if d.clientCleanup then d.(outcome := SharedCleanupFault) else AllDestroyed(d)
    case BridgesFail =>
      if d.pluginBridges then d.(clientCleanup := false, outcome := SharedCleanupFault) else AllDestroyed(d)
    case Panics(cleanupDone, bridgesDone, payloadTouched, modelDone) =>
      d.(clientCleanup := d.clientCleanup && !cleanupDone, pluginBridges := d.pluginBridges && !bridgesDone,
         payload := d.payload && !payloadTouched, model := d.model && !modelDone,
         outcome := PartialDestruction)
    case Completes => AllDestroyed(d)
  }

  function Finished(d: Disposal, how: Destruction): Disposal {
    Destroyed(d, how).(running := false, kept := true)
  }

  // ----------------------------------------------------------------- runs

  datatype Step = Poll(accepted: bool) | Take | Finish(how: Destruction)

  predicate Enabled(d: Disposal, step: Step) {
    match step
    case Poll(_) => true
    case Take => d.queued
    case Finish(_) => d.running
  }

  function Next(d: Disposal, step: Step): Disposal {
    match step
    case Poll(accepted) => JobPolled(d, accepted).0
    case Take => Started(d)
    case Finish(how) => Finished(d, how)
  }

  function Indicator(b: bool): nat {
    if b then 1 else 0
  }

  /** In how many places the permit is. */
  function Places(d: Disposal): nat {
    Indicator(d.refused) + Indicator(d.queued) + Indicator(d.running) + Indicator(d.kept) + d.returned
  }

  ghost predicate Linear(d: Disposal) {
    && Places(d) == 1
    && (d.outcome == Pending <==> !d.kept && d.returned == 0)
    && (d.outcome == Retired <==> d.returned == 1)
    && (d.outcome in {Disposed, Retired} ==> !d.payload && !d.model && !d.clientCleanup && !d.pluginBridges)
    && (d.outcome == SharedCleanupFault ==> d.payload)
    && (d.outcome == Pending ==> d.payload)
  }

  lemma StepKeepsLinear(d: Disposal, step: Step)
    requires Linear(d) && Enabled(d, step)
    ensures Linear(Next(d, step))
  {
  }

  ghost predicate IsRun(states: seq<Disposal>, steps: seq<Step>) {
    && |states| == |steps| + 1
    && (exists cleanup, bridges, model, accepted :: states[0] == Submitted(cleanup, bridges, model, accepted))
    && (forall i :: 0 <= i < |steps| ==> Enabled(states[i], steps[i]) && states[i + 1] == Next(states[i], steps[i]))
  }

  lemma {:induction false} RunKeepsLinear(states: seq<Disposal>, steps: seq<Step>, i: nat)
    requires IsRun(states, steps) && i < |states|
    ensures Linear(states[i])
  {
    if i > 0 {
      RunKeepsLinear(states, steps, i - 1);
      StepKeepsLinear(states[i - 1], steps[i - 1]);
    }
  }

  // ------------------------------------------------------------- theorems

  /** Under every interleaving the permit is in exactly one place, and comes back at most once. */
  lemma SlotIsLinear(states: seq<Disposal>, steps: seq<Step>, i: nat)
    requires IsRun(states, steps) && i < |states|
    ensures Places(states[i]) == 1 && states[i].returned <= 1
  {
    RunKeepsLinear(states, steps, i);
  }

  /** A permit comes back only once every part of the record is destroyed. */
  lemma SlotReturnsAfterDestruction(states: seq<Disposal>, steps: seq<Step>, i: nat)
    requires IsRun(states, steps) && i < |steps| && states[i + 1].returned > states[i].returned
    ensures states[i].outcome == Disposed && !states[i].payload && !states[i].model
    ensures !states[i].clientCleanup && !states[i].pluginBridges
  {
    RunKeepsLinear(states, steps, i);
  }

  /** The worker never finds the record already disposed of: it runs once. */
  lemma WorkerRunsOnce(states: seq<Disposal>, steps: seq<Step>, i: nat)
    requires IsRun(states, steps) && i < |steps| && steps[i].Take?
    ensures states[i].outcome == Pending && !states[i].kept
    ensures forall j :: i < j < |steps| ==> !steps[j].Take?
  {
    RunKeepsLinear(states, steps, i);
    forall j | i < j < |steps| ensures !steps[j].Take? {
      TakenStaysTaken(states, steps, i, j);
    }
  }

  lemma {:induction false} TakenStaysTaken(states: seq<Disposal>, steps: seq<Step>, i: nat, j: nat)
    requires IsRun(states, steps) && i < j < |states| && steps[i].Take?
    ensures !states[j].queued && !states[j].refused
    decreases j
  {
    hide Linear, Next;
    RunKeepsLinear(states, steps, j - 1);
    if i < j - 1 {
      TakenStaysTaken(states, steps, i, j - 1);
    }
    assert states[j - 1 + 1] == Next(states[j - 1], steps[j - 1]);
    TakenStep(states[j - 1], steps[j - 1]);
  }

  lemma TakenStep(d: Disposal, step: Step)
    requires Linear(d) && Enabled(d, step) && (step.Take? || (!d.queued && !d.refused))
    ensures !Next(d, step).queued && !Next(d, step).refused
  {
  }

  /** After a partial destruction or a cleanup fault the permit never comes back, and the answer never changes. */
  lemma {:induction false} FaultKeepsSlot(states: seq<Disposal>, steps: seq<Step>, i: nat, j: nat)
    requires IsRun(states, steps) && i <= j < |states|
    requires states[i].outcome in {PartialDestruction, SharedCleanupFault}
    ensures states[j].outcome == states[i].outcome && states[j].kept && states[j].returned == 0
    decreases j
  {
    RunKeepsLinear(states, steps, j);
    if i < j {
      FaultKeepsSlot(states, steps, i, j - 1);
      RunKeepsLinear(states, steps, j - 1);
    }
  }

  /** A finished disposal comes back at the owner's next poll. */
  lemma DisposedSlotReturns(d: Disposal, accepted: bool)
    requires Linear(d) && d.outcome == Disposed
    ensures var (d', result) := JobPolled(d, accepted);
            result == PollDisposed && d'.returned == 1 && d'.outcome == Retired
            && JobPolled(d', accepted) == (d', PollRetired)
  {
  }

  // ------------------------------------------------------- the shared code

  /** The record behind the lock, with the owner's refused submission and the executor's queue around it. */
  class Work {
    var payload: bool
    var model: bool
    var clientCleanup: bool
    var pluginBridges: bool
    var outcome: Outcome
    var refused: bool
    var queued: bool
    var running: bool
    var kept: bool
    ghost var returned: nat

    ghost function View(): Disposal
      reads this
    {
      Disposal(payload, model, clientCleanup, pluginBridges, outcome, refused, queued, running, kept, returned)
    }

    constructor (cleanup: bool, bridges: bool, model: bool, accepted: bool)
      ensures View() == Submitted(cleanup, bridges, model, accepted)
    {
      payload, this.model, clientCleanup, pluginBridges := true, model, cleanup, bridges;
      outcome, refused, queued, running, kept, returned := Pending, !accepted, accepted, false, false, 0;
    }

    method PollWork() returns (result: PollResult)
      modifies this
      ensures (View(), result) == WorkPolled(old(View()))
    {
      if running {
        return PollPending;
      }
      match outcome {
        case Pending => return PollPending;
        case Disposed =>
          outcome, kept, returned := Retired, false, returned + 1;
          return PollDisposed;
        case Retired => return PollRetired;
        case PartialDestruction => return PollPartial;
        case SharedCleanupFault => return PollFault;
      }
    }

    method PollJob(accepted: bool) returns (result: PollResult)
      modifies this
      ensures (View(), result) == JobPolled(old(View()), accepted)
    {
      if refused && accepted {
        refused, queued := false, true;
      }
      result := PollWork();
    }

    method Start()
      requires queued
      modifies this
      ensures View() == Started(old(View()))
    {
      queued, running := false, true;
    }

    method DestroyAll()
      modifies this`clientCleanup, this`pluginBridges, this`payload, this`model, this`outcome
      ensures View() == AllDestroyed(old(View()))
    {
      clientCleanup, pluginBridges := false, false;
      payload, model := false, false;
      outcome := Disposed;
    }

    /** A destructor panicked: some parts may be gone. */
    method Panic(how: Destruction)
      requires how.Panics?
      modifies this`clientCleanup, this`pluginBridges, this`payload, this`model, this`outcome
      ensures View() == Destroyed(old(View()), how)
    {
      clientCleanup, pluginBridges := clientCleanup && !how.cleanupDone, pluginBridges && !how.bridgesDone;
      payload, model := payload && !how.payloadTouched, model && !how.modelDone;
      outcome := PartialDestruction;
    }

    /** Destroys the parts one after another, as far as it gets. */
    method Destroy(how: Destruction)
      modifies this
      ensures View() == Destroyed(old(View()), how)
    {
      hide AllDestroyed;
      if how.Panics? {
        Panic(how);
      } else if how.CleanupFails? && clientCleanup {
        outcome := SharedCleanupFault;
      } else if how.BridgesFail? && pluginBridges {
        clientCleanup := false;
        outcome := SharedCleanupFault;
      } else {
        DestroyAll();
      }
    }

    /** The worker's part. The asserted facts are the ones the code checks when it starts. */
    method Run(how: Destruction)
      requires running && Linear(View())
      modifies this
      ensures View() == Finished(old(View()), how) && Linear(View())
    {
      assert outcome == Pending && !kept;
      hide Linear, Destroyed;
      StepKeepsLinear(View(), Finish(how));
      Destroy(how);
      running, kept := false, true;
    }
  }
}
