/**
 Bounded wait: in every run of the code, a consumer that stays ready is offered
 to admission within as many offers as there are consumers.
 */
module FamilyWait {
  import opened Ordered
  import opened SessionFamily
  import opened FamilyQuiet
  import opened FamilyRun

  // --------------------------------------------------------- the cursor

  /** Whether the wrapping cursor meets `x` no later than `k`. */
  predicate Ahead(cursor: Option<int>, k: int, x: int) {
    if cursor.None? then x <= k
    else if cursor.value < k then cursor.value < x <= k
    else x > cursor.value || x <= k
  }

  function AheadKeys(universe: set<int>, cursor: Option<int>, k: int): set<int> {
    set x | x in universe && Ahead(cursor, k, x)
  }

  /** The pick is ahead of the cursor, and moving the cursor to it leaves fewer keys ahead. */
  lemma PickNarrows(universe: set<int>, ready: set<int>, cursor: Option<int>, k: int)
    requires ready <= universe && k in ready
    ensures var pick := NextReady(ready, cursor);
            && pick.Some? && pick.value in ready
            && (pick.value != k ==> |AheadKeys(universe, pick, k)| < |AheadKeys(universe, cursor, k)|)
  {
    var pick := NextReady(ready, cursor).value;
    var later := Beyond(ready, cursor);
    assert pick in ready;
    if pick != k {
      assert k in later ==> pick <= k;
      var old', new' := AheadKeys(universe, cursor, k), AheadKeys(universe, Some(pick), k);
      assert pick in old' && pick !in new' && new' <= old';
      assert old' == new' + (old' - new');
      assert pick in old' - new';
      assert |old'| == |new'| + |old' - new'|;
    }
  }

  lemma SelfIsAhead(universe: set<int>, cursor: Option<int>, k: int)
    requires k in universe
    ensures 1 <= |AheadKeys(universe, cursor, k)| <= |universe|
  {
    var ahead := AheadKeys(universe, cursor, k);
    assert universe == ahead + (universe - ahead);
    assert ahead == {k} + (ahead - {k});
  }

  // ---------------------------------------------------------- the turns

  function InputOf(w: World, step: Step): BridgeInput
    requires step.RunBridge?
  {
    BridgeInput(step.registry, step.fuel, step.outcome, w.epoch)
  }

  /** The consumer a step offers to admission, if it is a turn that gets there. */
  function OfferedAt(w: World, step: Step): Option<int> {
    if step.RunBridge? then TurnPick(w.hub, InputOf(w, step)) else None
  }

  /** The ready set a turn's admission picks from. */
  function ReadyAt(w: World, step: Step): set<int>
    requires step.RunBridge?
  {
    BridgePasses(w.hub.(marked := false), step.registry, step.fuel).0.bridge.table.ready
  }

  lemma {:induction false} ApplyKeepsCursor(h: Hub, n: nat)
    ensures ApplyUpTo(h, n).bridge.admitAfter == h.bridge.admitAfter
    decreases n
  {
    if n > 0 && h.changes != [] {
      ApplyKeepsCursor(ApplyOne(h), n - 1);
    }
  }

  /** The round-robin cursor moves only in a turn that offers a consumer, and then exactly to it. */
  lemma StepMovesCursor(w: World, step: Step)
    ensures Next(w, step).hub.bridge.admitAfter
            == if OfferedAt(w, step).Some? then OfferedAt(w, step) else w.hub.bridge.admitAfter
  {
    hide HostBridgeSlice, TurnPick, ApplyUpTo, UnparkAll, Land, MarkGap;
    match step
    case RunBridge(registry, fuel, outcome) => TurnFlights(w.hub, InputOf(w, step));
    case ApplyChanges => ApplyKeepsCursor(w.hub, APPLY_MAX_CHANGES);
    case _ =>
  }

  /** What a turn offers is the next ready consumer after the cursor. */
  lemma OfferIsNextReady(w: World, step: Step)
    requires OfferedAt(w, step).Some?
    ensures step.RunBridge? && OfferedAt(w, step) == NextReady(ReadyAt(w, step), w.hub.bridge.admitAfter)
  {
    hide BridgePasses, NextReady, Peek, FrameBytes, AddBytes, Quiet;
    BridgePassesFramed(w.hub.(marked := false), step.registry, step.fuel);
  }

  /** How many of the steps from `a` to `b` offered a consumer. */
  function Offers(worlds: seq<World>, steps: seq<Step>, a: nat, b: nat): nat
    requires a <= b <= |steps| && |worlds| == |steps| + 1
    decreases b - a
  {
    if a == b then 0 else (if OfferedAt(worlds[a], steps[a]).Some? then 1 else 0) + Offers(worlds, steps, a + 1, b)
  }

  /** `k` is ready, among the consumers `universe`, whenever a step from `a` to `b` offers someone. */
  ghost predicate StaysReady(worlds: seq<World>, steps: seq<Step>, a: nat, b: nat, universe: set<int>, k: int)
    requires a <= b <= |steps| && |worlds| == |steps| + 1
  {
    forall i :: a <= i < b && OfferedAt(worlds[i], steps[i]).Some? ==>
      k in ReadyAt(worlds[i], steps[i]) && ReadyAt(worlds[i], steps[i]) <= universe
  }

  /**
   Over any run of the code, with any other steps in between: among N
   consumers, one that is ready at each of N offers is offered at one of them.
   */
  lemma ReadyIsOfferedInTime(worlds: seq<World>, steps: seq<Step>, a: nat, b: nat, universe: set<int>, k: int) returns (i: nat)
    requires IsCodeRun(worlds, steps) && a <= b <= |steps|
    requires StaysReady(worlds, steps, a, b, universe, k) && k in universe
    requires Offers(worlds, steps, a, b) >= |universe|
    ensures a <= i < b && OfferedAt(worlds[i], steps[i]) == Some(k)
  {
    SelfIsAhead(universe, worlds[a].hub.bridge.admitAfter, k);
    i := OfferedFrom(worlds, steps, a, b, universe, k);
  }

  lemma {:induction false} OfferedFrom(worlds: seq<World>, steps: seq<Step>, a: nat, b: nat, universe: set<int>, k: int) returns (i: nat)
    requires IsCodeRun(worlds, steps) && a <= b <= |steps|
    requires StaysReady(worlds, steps, a, b, universe, k) && k in universe
    requires Offers(worlds, steps, a, b) >= |AheadKeys(universe, worlds[a].hub.bridge.admitAfter, k)|
    ensures a <= i < b && OfferedAt(worlds[i], steps[i]) == Some(k)
    decreases b - a
  {
    hide Next, OfferedAt, ReadyAt, AheadKeys, NextReady;
    var cursor := worlds[a].hub.bridge.admitAfter;
    SelfIsAhead(universe, cursor, k);
    StepMovesCursor(worlds[a], steps[a]);
    assert worlds[a + 1] == Next(worlds[a], steps[a]);
    var offer := OfferedAt(worlds[a], steps[a]);
    if offer.Some? {
      OfferIsNextReady(worlds[a], steps[a]);
      PickNarrows(universe, ReadyAt(worlds[a], steps[a]), cursor, k);
    }
    i := a;
    if offer != Some(k) {
      i := OfferedFrom(worlds, steps, a + 1, b, universe, k);
    }
  }
}
