/**
 One supervised entrypoint process: its exit is recorded once and published
 once, after its output is complete or the grace period is over, and the
 launch result tells the supervised state.
 */
module EntrypointSupervisor {
  import opened Ordered

  const OUTPUT_FINALIZATION_GRACE_MS := 500

  datatype State = Running | Exited | Failed | Stopped

  /**
   The supervisor's record of one process. A reader that is open may still
   bring output; `result` is the process state in the launch result. `exits`
   and `published` are history.
   */
  datatype Process = Process(
    exitedAt: Option<nat>,
    state: State,
    pending: Option<State>,
    deadline: Option<nat>,
    stdoutOpen: bool,
    stderrOpen: bool,
    result: Option<State>,
    pathOpen: bool,
    exits: nat,
    published: nat)

  datatype Wait = StillRunning | Ended(success: bool) | WaitError

  /** What one refresh finds: a readable launch result, finished readers, the child, and the time. */
  datatype Look = Look(launch: Option<State>, stdoutDone: bool, stderrDone: bool, wait: Wait, now: nat)

  function Synced(p: Process): Process {
    if p.result.Some? && p.state != Stopped then p.(result := Some(p.state)) else p
  }

  function WithLaunchResult(p: Process, launch: Option<State>): Process {
    if !p.pathOpen || launch.None? then p else Synced(p.(result := launch))
  }

  function Ending(p: Process, state: State, now: nat): Process {
    p.(exitedAt := Some(now), exits := p.exits + 1, pending := Some(state),
       deadline := Some(now + OUTPUT_FINALIZATION_GRACE_MS))
  }

  function Waited(p: Process, wait: Wait, now: nat): Process {
    if p.exitedAt.Some? then p
    else
      match wait
      case StillRunning => p
      case Ended(success) => Ending(p, if success then Exited else Failed, now).(pathOpen := false)
      case WaitError => Ending(p, Failed, now)
  }

  predicate ReadyToPublish(p: Process, now: nat) {
    || (!p.stdoutOpen && !p.stderrOpen)
    || (p.deadline.Some? && now >= p.deadline.value)
  }

  function PublishedIfReady(p: Process, now: nat): Process {
    if p.pending.None? || !ReadyToPublish(p, now) then p
    else Synced(p.(pending := None, deadline := None, state := p.pending.value, published := p.published + 1))
  }

  function Drained(p: Process, look: Look): Process {
    p.(stdoutOpen := p.stdoutOpen && !look.stdoutDone, stderrOpen := p.stderrOpen && !look.stderrDone)
  }

  /** `refresh`. */
  function Refreshed(p: Process, look: Look): Process {
    PublishedIfReady(Waited(Drained(WithLaunchResult(p, look.launch), look), look.wait, look.now), look.now)
  }

  function MarkedStopped(p: Process): Process {
    var p1 := if p.pending.Some?
              then Synced(p.(pending := None, state := p.pending.value, published := p.published + 1)) else p;
    p1.(deadline := None, state := Stopped)
  }

  /** How one stop goes: what its refreshes find, and how the group and the signals behave. */
  datatype Stopping = Stopping(first: Look, groupRunning: bool, termSent: bool, afterTerm: Look, goneAfterTerm: bool,
                               killSent: bool, afterKill: Look)

  function AfterStop(p: Process, s: Stopping): Process {
    var p1 := Refreshed(p, s.first);
    if p1.exitedAt.Some? && !s.groupRunning then MarkedStopped(p1)
    else if !s.termSent then p1
    else
      var p2 := Refreshed(p1, s.afterTerm);
      if s.goneAfterTerm then MarkedStopped(p2)
      else if !s.killSent then p2
      else MarkedStopped(Refreshed(p2, s.afterKill))
  }

  datatype Step = Refresh(look: Look) | Stop(stopping: Stopping)

  function Next(p: Process, step: Step): Process {
    match step
    case Refresh(look) => Refreshed(p, look)
    case Stop(stopping) => AfterStop(p, stopping)
  }

  // ------------------------------------------------------------ invariant

  function Indicator(b: bool): nat {
    if b then 1 else 0
  }

  ghost predicate Consistent(p: Process) {
    && p.exits == Indicator(p.exitedAt.Some?)
    && p.published + Indicator(p.pending.Some?) == p.exits
    && (p.pending.Some? ==> p.pending.value in {Exited, Failed} && p.deadline.Some?)
    && (p.state != Stopped && p.result.Some? ==> p.result == Some(p.state))
    && (p.state in {Exited, Failed} ==> p.published == 1)
  }

  /** A freshly spawned process, whose launch result, if it has one, says it runs. */
  predicate Spawned(p: Process) {
    && p.exitedAt.None? && p.state == Running && p.pending.None? && p.deadline.None?
    && (p.result.Some? ==> p.result == Some(Running)) && p.exits == 0 && p.published == 0
  }

  /** What a refresh or a stop keeps, and what it never does twice. */
  predicate Advances(p: Process, p': Process) {
    && (p.exitedAt.Some? ==> p'.exitedAt == p.exitedAt)
    && p.exits <= p'.exits && p.published <= p'.published
    && (!p.stdoutOpen ==> !p'.stdoutOpen) && (!p.stderrOpen ==> !p'.stderrOpen)
  }

  lemma LaunchKeeps(p: Process, launch: Option<State>)
    requires Consistent(p)
    ensures var p' := WithLaunchResult(p, launch);
            && Consistent(p') && p' == p.(result := p'.result)
  {
  }

  lemma WaitedKeeps(p: Process, wait: Wait, now: nat)
    requires Consistent(p)
    ensures Consistent(Waited(p, wait, now)) && Advances(p, Waited(p, wait, now))
  {
  }

  lemma PublishedKeeps(p: Process, now: nat)
    requires Consistent(p)
    ensures Consistent(PublishedIfReady(p, now)) && Advances(p, PublishedIfReady(p, now))
  {
  }

  lemma RefreshKeeps(p: Process, look: Look)
    requires Consistent(p)
    ensures Consistent(Refreshed(p, look)) && Advances(p, Refreshed(p, look))
  {
    hide WithLaunchResult, Waited, PublishedIfReady;
    LaunchKeeps(p, look.launch);
    var p1 := Drained(WithLaunchResult(p, look.launch), look);
    WaitedKeeps(p1, look.wait, look.now);
    PublishedKeeps(Waited(p1, look.wait, look.now), look.now);
  }

  lemma MarkStoppedKeeps(p: Process)
    requires Consistent(p)
    ensures Consistent(MarkedStopped(p)) && Advances(p, MarkedStopped(p))
    ensures MarkedStopped(p).state == Stopped && MarkedStopped(p).pending.None?
  {
  }

  lemma StepKeeps(p: Process, step: Step)
    requires Consistent(p)
    ensures Consistent(Next(p, step)) && Advances(p, Next(p, step))
  {
    hide Refreshed, MarkedStopped, Consistent;
    match step
    case Refresh(look) => RefreshKeeps(p, look);
    case Stop(s) =>
      RefreshKeeps(p, s.first);
      var p1 := Refreshed(p, s.first);
      MarkStoppedKeeps(p1);
      RefreshKeeps(p1, s.afterTerm);
      var p2 := Refreshed(p1, s.afterTerm);
      MarkStoppedKeeps(p2);
      RefreshKeeps(p2, s.afterKill);
      MarkStoppedKeeps(Refreshed(p2, s.afterKill));
  }

  ghost predicate IsRun(states: seq<Process>, steps: seq<Step>) {
    && |states| == |steps| + 1 && Spawned(states[0])
    && (forall i :: 0 <= i < |steps| ==> states[i + 1] == Next(states[i], steps[i]))
  }

  // ------------------------------------------------------------- theorems

  lemma {:induction false} RunKeeps(states: seq<Process>, steps: seq<Step>, i: nat)
    requires IsRun(states, steps) && i < |states|
    ensures Consistent(states[i])
  {
    if i > 0 {
      RunKeeps(states, steps, i - 1);
      StepKeeps(states[i - 1], steps[i - 1]);
    }
  }

  /**
   Over every run of refreshes and stops the exit is recorded at most once and
   published at most once, never before it is recorded, and the launch result
   tells the supervised state whenever that is not Stopped.
   */
  lemma ExitPublishedOnce(states: seq<Process>, steps: seq<Step>, i: nat)
    requires IsRun(states, steps) && i < |states|
    ensures states[i].published <= states[i].exits <= 1
    ensures states[i].state in {Exited, Failed} ==> states[i].exitedAt.Some? && states[i].published == 1
    ensures states[i].state != Stopped && states[i].result.Some? ==> states[i].result.value == states[i].state
  {
    RunKeeps(states, steps, i);
  }

  /** Once recorded, the exit time never changes. */
  lemma {:induction false} ExitTimeIsFixed(states: seq<Process>, steps: seq<Step>, i: nat, j: nat)
    requires IsRun(states, steps) && i <= j < |states| && states[i].exitedAt.Some?
    ensures states[j].exitedAt == states[i].exitedAt
    decreases j
  {
    if i < j {
      ExitTimeIsFixed(states, steps, i, j - 1);
      RunKeeps(states, steps, j - 1);
      StepKeeps(states[j - 1], steps[j - 1]);
    }
  }

  /** A refresh publishes only when both readers have finished or the grace period after the exit is over. */
  lemma RefreshPublishesInTime(p: Process, look: Look)
    requires Consistent(p) && Refreshed(p, look).published > p.published
    ensures var p' := Refreshed(p, look);
            && p'.exitedAt.Some?
            && ((!p'.stdoutOpen && !p'.stderrOpen) || (p.deadline.Some? && look.now >= p.deadline.value))
  {
    hide WithLaunchResult;
    LaunchKeeps(p, look.launch);
  }

  // ------------------------------------------------------------- stopping

  function After(p: Process, steps: seq<Step>): Process
    decreases |steps|
  {
    if steps == [] then p else After(Next(p, steps[0]), steps[1..])
  }

  /** No later step leaves Stopped. */
  ghost predicate Absorbed(p: Process) {
    forall steps: seq<Step> :: After(p, steps).state == Stopped
  }

  predicate Settled(p: Process) {
    p.state == Stopped && p.exitedAt.Some? && p.pending.None?
  }

  lemma SettledRefresh(p: Process, look: Look)
    requires Settled(p)
    ensures Settled(Refreshed(p, look)) && Settled(MarkedStopped(p))
  {
  }

  lemma SettledStep(p: Process, step: Step)
    requires Settled(p)
    ensures Settled(Next(p, step))
  {
    hide Refreshed, MarkedStopped, Settled;
    match step
    case Refresh(look) => SettledRefresh(p, look);
    case Stop(s) =>
      SettledRefresh(p, s.first);
      var p1 := Refreshed(p, s.first);
      SettledRefresh(p1, s.afterTerm);
      var p2 := Refreshed(p1, s.afterTerm);
      SettledRefresh(p2, s.afterKill);
      SettledRefresh(Refreshed(p2, s.afterKill), s.afterKill);
  }

  lemma {:induction false} SettledStays(p: Process, steps: seq<Step>)
    requires Settled(p)
    ensures After(p, steps).state == Stopped
    decreases |steps|
  {
    hide Next;
    if steps != [] {
      SettledStep(p, steps[0]);
      SettledStays(Next(p, steps[0]), steps[1..]);
    }
  }

  /** Stopped is final if and only if the exit is recorded and its publication is not still pending. */
  lemma StoppedIsFinalIff(p: Process)
    requires Consistent(p) && p.state == Stopped
    ensures Absorbed(p) <==> p.exitedAt.Some? && p.pending.None?
  {
    if p.exitedAt.Some? && p.pending.None? {
      forall steps: seq<Step> ensures After(p, steps).state == Stopped {
        SettledStays(p, steps);
      }
    } else {
      var late := if p.deadline.Some? then p.deadline.value else 0;
      var steps := [Refresh(Look(None, true, true, Ended(true), late))];
      assert After(p, steps) == After(Next(p, steps[0]), []) by {
        assert steps[1..] == [];
      }
      assert After(p, steps).state != Stopped;
    }
  }

  /** What a refresh finds of a child that still runs and writes. */
  const BUSY := Look(None, false, false, StillRunning, 0)

  /**
   From a spawned process that still has a reader open: a stop whose cleanup
   times out leaves it Stopped without an exit; then it exits while its output
   is open, and it is Stopped, exited, and not final; the end of its output
   makes it Exited.
   */
  lemma StoppedAndExitedCanStillChange(p: Process)
    requires Spawned(p) && (p.stdoutOpen || p.stderrOpen)
    ensures var stop := Stop(Stopping(BUSY, true, true, BUSY, false, true, BUSY));
            var exit := Refresh(Look(None, false, false, Ended(true), 0));
            var end := Refresh(Look(None, true, true, StillRunning, 0));
            && After(p, [stop]).state == Stopped && After(p, [stop]).exitedAt.None?
            && After(p, [stop, exit]).state == Stopped && After(p, [stop, exit]).exitedAt.Some?
            && After(p, [stop, exit, end]).state == Exited
  {
    var stop := Stop(Stopping(BUSY, true, true, BUSY, false, true, BUSY));
    var exit := Refresh(Look(None, false, false, Ended(true), 0));
    var end := Refresh(Look(None, true, true, StillRunning, 0));
    AfterThree(p, stop, exit, end);
  }

  lemma AfterThree(p: Process, a: Step, b: Step, c: Step)
    ensures After(p, [a]) == Next(p, a)
    ensures After(p, [a, b]) == Next(Next(p, a), b)
    ensures After(p, [a, b, c]) == Next(Next(Next(p, a), b), c)
  {
    hide Next;
    AfterFirst(p, [a]);
    AfterFirst(p, [a, b]);
    AfterFirst(p, [a, b, c]);
    AfterFirst(Next(p, a), [b]);
    AfterFirst(Next(p, a), [b, c]);
    AfterFirst(Next(Next(p, a), b), [c]);
  }

  lemma AfterFirst(p: Process, steps: seq<Step>)
    requires steps != []
    ensures After(p, steps) == After(Next(p, steps[0]), steps[1..])
    ensures |steps| == 1 ==> After(p, steps) == Next(p, steps[0])
    ensures |steps| == 2 ==> steps[1..] == [steps[1]]
    ensures |steps| == 3 ==> steps[1..] == [steps[1], steps[2]]
  {
    hide Next;
  }

  // -------------------------------------------------- the supervisor's code

  class SupervisedProcess {
    var exitedAt: Option<nat>
    var state: State
    var pendingTerminalState: Option<State>
    var outputFinalizationDeadline: Option<nat>
    var stdoutOpen: bool
    var stderrOpen: bool
    var launchResult: Option<State>
    var launchResultPathOpen: bool
    ghost var exits: nat
    ghost var published: nat

    ghost function View(): Process
      reads this
    {
      Process(exitedAt, state, pendingTerminalState, outputFinalizationDeadline, stdoutOpen, stderrOpen, launchResult,
              launchResultPathOpen, exits, published)
    }

    constructor (resultPath: bool)
      ensures Spawned(View()) && stdoutOpen && stderrOpen
    {
      exitedAt, state, pendingTerminalState, outputFinalizationDeadline := None, Running, None, None;
      stdoutOpen, stderrOpen, launchResult, launchResultPathOpen := true, true, None, resultPath;
      exits, published := 0, 0;
    }

    method SyncLaunchResult()
      modifies this`launchResult
      ensures View() == Synced(old(View()))
    {
      if launchResult.Some? && state != Stopped {
        launchResult := Some(state);
      }
    }

    method RefreshLaunchResult(launch: Option<State>)
      modifies this`launchResult
      ensures View() == WithLaunchResult(old(View()), launch)
    {
      if !launchResultPathOpen || launch.None? {
        return;
      }
      launchResult := launch;
      SyncLaunchResult();
    }

    method BeginTerminalFinalization(terminal: State, now: nat)
      modifies this`exitedAt, this`exits, this`pendingTerminalState, this`outputFinalizationDeadline
      ensures View() == Ending(old(View()), terminal, now)
    {
      exitedAt := Some(now);
      exits := exits + 1;
      pendingTerminalState := Some(terminal);
      outputFinalizationDeadline := Some(now + OUTPUT_FINALIZATION_GRACE_MS);
    }

    method ReapChild(wait: Wait, now: nat)
      modifies this
      ensures View() == Waited(old(View()), wait, now)
    {
      hide Ending;
      if exitedAt.Some? {
        return;
      }
      match wait {
        case StillRunning =>
        case Ended(success) =>
          BeginTerminalFinalization(if success then Exited else Failed, now);
          launchResultPathOpen := false;
        case WaitError =>
          BeginTerminalFinalization(Failed, now);
      }
    }

    method PublishTerminalStateIfReady(now: nat)
      modifies this
      ensures View() == PublishedIfReady(old(View()), now)
    {
      if pendingTerminalState.None? {
        return;
      }
      var readersComplete := !stdoutOpen && !stderrOpen;
      var expired := outputFinalizationDeadline.Some? && now >= outputFinalizationDeadline.value;
      if !readersComplete && !expired {
        return;
      }
      state := pendingTerminalState.value;
      pendingTerminalState, outputFinalizationDeadline := None, None;
      published := published + 1;
      SyncLaunchResult();
    }

    method DrainOutput(look: Look)
      modifies this`stdoutOpen, this`stderrOpen
      ensures View() == Drained(old(View()), look)
    {
      if look.stdoutDone {
        stdoutOpen := false;
      }
      if look.stderrDone {
        stderrOpen := false;
      }
    }

    method Refresh(look: Look)
      modifies this
      ensures View() == Refreshed(old(View()), look)
    {
      hide WithLaunchResult, Drained, Waited, PublishedIfReady, View;
      RefreshLaunchResult(look.launch);
      DrainOutput(look);
      ReapChild(look.wait, look.now);
      PublishTerminalStateIfReady(look.now);
    }

    method MarkStopped()
      modifies this
      ensures View() == MarkedStopped(old(View()))
    {
      if pendingTerminalState.Some? {
        state := pendingTerminalState.value;
        pendingTerminalState := None;
        published := published + 1;
        SyncLaunchResult();
      }
      outputFinalizationDeadline := None;
      state := Stopped;
    }

    method Stop(s: Stopping)
      modifies this
      ensures View() == AfterStop(old(View()), s)
    {
      hide Refreshed, MarkedStopped;
      Refresh(s.first);
      if exitedAt.Some? && !s.groupRunning {
        MarkStopped();
        return;
      }
      if !s.termSent {
        return;
      }
      Refresh(s.afterTerm);
      if s.goneAfterTerm {
        MarkStopped();
        return;
      }
      if !s.killSent {
        return;
      }
      Refresh(s.afterKill);
      MarkStopped();
    }
  }
}
