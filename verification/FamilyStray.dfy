/**
 A run of the code with one stray seal. A page asked for by a first recovery
 seals the projection while the gap pass of a second one is pending; the second
 recovery then opens over the sealed projection, and a later page changes rows
 that no consumer hears about.
 */
module FamilyStray {
  import opened Ordered
  import opened SessionFamily
  import opened FamilyReplica
  import opened FamilySafety
  import opened FamilyQuiet
  import opened FamilyRun
  import opened FamilySchedule
  import opened FamilyTheorems

  const FUEL := 32

  const NO_PLUGINS: map<int, seq<Handler>> := map[]

  function OnePlugin(handler: Handler): map<int, seq<Handler>> {
    map[1 := [handler]]
  }

  // ---------------------------------------------------------------- turns

  lemma EmptyPage(after: Option<int>, max: nat)
    ensures Page({}, after, max) == [] && Beyond({}, after) == {}
  {
    assert Beyond({}, after) == {};
  }

  lemma OnePage(k: int, max: nat)
    requires max > 0
    ensures Page({k}, None, max) == [k] && Beyond({k}, None) == {k}
  {
    assert Beyond({k}, None) == {k};
    PageProperties({k}, None, max);
    var page := Page({k}, None, max);
    assert |page| == 1 && page[0] in {k};
  }

  /** A turn with no plugin and no consumer finishes whatever passes are pending. */
  lemma EmptyTurn(h: Hub, outcome: Admission, epoch: nat)
    requires h.bridge.table == EMPTY_TABLE && h.bridge.fanout == [] && h.bridge.refreshAfter.None?
    ensures var b := h.bridge;
            HostBridgeSlice(h, BridgeInput(NO_PLUGINS, FUEL, outcome, epoch))
            == h.(bridge := b.(refreshSeen := {}, needPrune := false, pruneAfter := None,
                               needGapPass := false, gapAfter := if b.needGapPass then None else b.gapAfter,
                               startSequence := None, startAfter := if b.startSequence.Some? then None else b.startAfter),
                  recovery := if b.needGapPass then Some(Recovery(None, None)) else h.recovery,
                  marked := b.needGapPass)
  {
    hide Page;
    forall after, max: nat { EmptyPage(after, max); }
    EmptyTurnPasses(h.(marked := false));
  }

  lemma EmptyTurnPasses(h: Hub)
    requires h.bridge.table == EMPTY_TABLE && h.bridge.fanout == [] && h.bridge.refreshAfter.None?
    ensures var b := h.bridge;
            var (h', budget, spent) := BridgePasses(h, NO_PLUGINS, FUEL);
            && !spent
            && h' == h.(bridge := b.(refreshSeen := {}, needPrune := false, pruneAfter := None,
                                     needGapPass := false, gapAfter := if b.needGapPass then None else b.gapAfter,
                                     startSequence := None, startAfter := if b.startSequence.Some? then None else b.startAfter),
                        recovery := if b.needGapPass then Some(Recovery(None, None)) else h.recovery,
                        marked := h.marked || b.needGapPass)
  {
    hide Page;
    var b0 := Budget(0, 0, FUEL);
    EmptyRefresh(h, b0);
    var (h1, b1) := RefreshPass(h, NO_PLUGINS, b0);
    EmptyGap(h1, Exhausted(b1).1);
    var (h2, b2) := GapPass(h1, Exhausted(b1).1);
    EmptyStart(h2, Exhausted(b2).1);
    var (h3, b3) := StartPass(h2, Exhausted(b2).1);
    hide RefreshPass, GapPass, StartPass;
    var (h4, b4) := FanoutPass(h3, Exhausted(b3).1);
    EmptyPrune(h4, Exhausted(b4).1);
  }

  lemma EmptyRefresh(h: Hub, budget: Budget)
    requires h.bridge.table == EMPTY_TABLE && budget == Budget(0, 0, FUEL) && h.bridge.refreshAfter.None?
    ensures RefreshPass(h, NO_PLUGINS, budget)
            == (h.(bridge := h.bridge.(needPrune := true, pruneAfter := None)), budget)
  {
    EmptyPage(None, 8);
    assert NO_PLUGINS.Keys == {};
    var none: seq<int> := [];
    assert h.bridge.refreshSeen + (set k | k in none && Subscribed(NO_PLUGINS, k)) == h.bridge.refreshSeen;
  }

  lemma EmptyGap(h: Hub, budget: Budget)
    requires h.bridge.table == EMPTY_TABLE && budget.visits == 0
    ensures GapPass(h, budget)
            == (if h.bridge.needGapPass
                then h.(bridge := h.bridge.(needGapPass := false, gapAfter := None), recovery := Some(Recovery(None, None)),
                        marked := true) else h, budget)
  {
    EmptyPage(h.bridge.gapAfter, 8);
  }

  lemma EmptyStart(h: Hub, budget: Budget)
    requires h.bridge.table == EMPTY_TABLE && budget.visits == 0
    ensures StartPass(h, budget)
            == (if h.bridge.startSequence.Some? then h.(bridge := h.bridge.(startSequence := None, startAfter := None)) else h,
                budget)
  {
    EmptyPage(h.bridge.startAfter, 8);
  }

  lemma EmptyPrune(h: Hub, budget: Budget)
    requires h.bridge.table == EMPTY_TABLE && budget.visits == 0 && h.bridge.needPrune && h.bridge.pruneAfter.None?
    ensures PrunePass(h, budget)
            == (h.(bridge := h.bridge.(needPrune := false, pruneAfter := None, refreshSeen := {})), budget)
  {
    EmptyPage(None, 8);
    assert RemoveAll(h.bridge.table, []) == h.bridge.table;
  }

  // ------------------------------------------------------ a single plugin

  /** Nothing is pending but admission, and at most the one plugin is registered. */
  predicate Solo(h: Hub) {
    && h.bridge.table.consumers.Keys <= {1} && h.bridge.fanout == [] && h.bridge.refreshAfter.None?
    && !h.bridge.needGapPass && h.bridge.startSequence.None?
  }

  lemma SoloRegister(t: Table, handler: Handler, p: Projection)
    requires handler.isEvent && t.consumers.Keys <= {1}
    ensures RegisterKeys(t, [1], 0, OnePlugin(handler), p) == Register(t, 1, handler, p)
    ensures Register(t, 1, handler, p).consumers.Keys == {1}
    ensures (set k | k in [1] && Subscribed(OnePlugin(handler), k)) == {1}
  {
    hide Register;
    RegisterQuiet(t, 1, handler, p);
    var registry := OnePlugin(handler);
    assert HandlersOf(registry, 1) == [handler] && HandlersOf(registry, 1)[0].isEvent;
    assert RegisterHandlers(t, 1, [handler], 0, p) == Register(t, 1, handler, p);
    assert RegisterKeys(t, [1], 0, registry, p) == RegisterKeys(Register(t, 1, handler, p), [1], 1, registry, p);
  }

  lemma SoloRefresh(h: Hub, handler: Handler, budget: Budget)
    requires Solo(h) && handler.isEvent && budget == Budget(0, 0, FUEL)
    ensures RefreshPass(h, OnePlugin(handler), budget)
            == (h.(bridge := h.bridge.(table := Register(h.bridge.table, 1, handler, h.projection),
                                       refreshSeen := h.bridge.refreshSeen + {1}, needPrune := true, pruneAfter := None)),
                Budget(1, 0, FUEL - 1))
  {
    hide Register, RegisterKeys, Page, Subscribed;
    assert OnePlugin(handler).Keys == {1};
    OnePage(1, 8);
    SoloRegister(h.bridge.table, handler, h.projection);
    assert TakeMany(budget, 1) == TakeMany(Budget(1, 0, FUEL - 1), 0);
  }

  lemma SoloPrune(h: Hub, budget: Budget)
    requires h.bridge.table.consumers.Keys == {1} && h.bridge.needPrune && h.bridge.pruneAfter.None?
    requires 1 in h.bridge.refreshSeen && budget.visits == 1 && budget.bytes == 0 && budget.fuel > 0
    ensures PrunePass(h, budget)
            == (h.(bridge := h.bridge.(needPrune := false, pruneAfter := None, refreshSeen := {})),
                Budget(2, 0, budget.fuel - 1))
  {
    OnePage(1, 7);
    var b1 := Budget(2, 0, budget.fuel - 1);
    assert PruneKeys([1], 0, h.bridge.refreshSeen, [], budget) == PruneKeys([1], 1, h.bridge.refreshSeen, [], b1);
    assert RemoveAll(h.bridge.table, []) == h.bridge.table;
  }

  /** The passes of such a turn register the plugin and leave everything else. */
  lemma SoloPasses(h: Hub, handler: Handler)
    requires Solo(h) && handler.isEvent
    ensures var (h', budget, spent) := BridgePasses(h, OnePlugin(handler), FUEL);
            && !spent && budget.bytes == 0 && budget.visits == 2 && budget.fuel > 0
            && h' == h.(bridge := h.bridge.(table := Register(h.bridge.table, 1, handler, h.projection),
                                            refreshSeen := {}, needPrune := false, pruneAfter := None))
  {
    hide Register, RefreshPass, PrunePass, BridgePasses;
    SoloRefresh(h, handler, Budget(0, 0, FUEL));
    SoloRegister(h.bridge.table, handler, h.projection);
    var (h1, b1) := RefreshPass(h, OnePlugin(handler), Budget(0, 0, FUEL));
    IdleTurn(h, OnePlugin(handler), FUEL, h1, b1);
    SoloPrune(h1, b1.(fuel := b1.fuel - 5));
  }

  // -------------------------------------------------- the consumer's way

  const EMPTY_SEAL := Projection(map[], Some(1), true, false)

  /** The second recovery is open although the projection is sealed. */
  const REOPENED := Hub(EMPTY_SEAL, [], Some(Recovery(None, None)), EMPTY_BRIDGE, false, true)

  function FirstRequest(): RequestId {
    RequestId(1, 1, 1)
  }

  function Begun1(handler: Handler): Consumer {
    Consumer(Some(handler), 1, None, [SnapshotBegin(1)], [], false, false, true, None)
  }

  function Opened1(handler: Handler, flying: bool): Consumer {
    Consumer(Some(handler), 1, if flying then Some(Flight(FirstRequest(), 1, Begin)) else None, [], [], false, false, true, None)
  }

  function Closed1(handler: Handler): Consumer {
    Consumer(Some(handler), 1, Some(Flight(RequestId(1, 1, 2), 1, End)), [], [], false, false, false, None)
  }

  function TableOf(c: Consumer, flights: map<RequestId, int>, log: seq<Event>): Table {
    Table(map[1 := c], flights, 1, if c.inFlight.None? then {1} else {}, {}, None,
          if log == [] then map[] else map[1 := log], map[])
  }

  lemma FirstRegistration(handler: Handler)
    ensures Register(EMPTY_TABLE, 1, handler, EMPTY_SEAL) == TableOf(Begun1(handler), map[], [])
  {
  }

  lemma BeginLaunched(handler: Handler)
    ensures Admitted(TableOf(Begun1(handler), map[], []), 1, Queued(SnapshotBegin(1)), FirstRequest())
            == TableOf(Opened1(handler, true), map[FirstRequest() := 1], [Sent(SnapshotBegin(1))])
  {
    var t := TableOf(Begun1(handler), map[], []);
    var c := Opened1(handler, false);
    assert Committed(t.consumers[1], Queued(SnapshotBegin(1))) == c by {
      assert Begun1(handler).pending[1..] == [];
    }
    var t1 := Touch(t, 1, c);
    assert t1 == t.(consumers := map[1 := c]);
    assert Touch(t1, 1, Opened1(handler, true)) == t.(consumers := map[1 := Opened1(handler, true)], ready := {});
    assert LogAt(t, 1) + [Sent(SnapshotBegin(1))] == [Sent(SnapshotBegin(1))];
  }

  lemma BeginLanded(handler: Handler)
    ensures Note(Land(TableOf(Opened1(handler, true), map[FirstRequest() := 1], [Sent(SnapshotBegin(1))]), 1, FirstRequest(), true),
                 1, Delivered)
            == TableOf(Opened1(handler, false), map[], [Sent(SnapshotBegin(1)), Delivered])
  {
    var log := [Sent(SnapshotBegin(1))];
    var t := TableOf(Opened1(handler, true), map[FirstRequest() := 1], log);
    assert map[FirstRequest() := 1] - {FirstRequest()} == map[];
    assert Landed(Opened1(handler, true), true) == Opened1(handler, false);
    assert Touch(t.(flights := map[]), 1, Opened1(handler, false))
        == t.(flights := map[], consumers := map[1 := Opened1(handler, false)], ready := {1});
    assert log + [Delivered] == [Sent(SnapshotBegin(1)), Delivered];
  }

  lemma SecondRegistration(handler: Handler)
    ensures var t := TableOf(Opened1(handler, false), map[], [Sent(SnapshotBegin(1)), Delivered]);
            Register(t, 1, handler, EMPTY_SEAL) == t
  {
    assert {1} + {1} == {1};
  }

  lemma EndLaunched(handler: Handler)
    ensures Admitted(TableOf(Opened1(handler, false), map[], [Sent(SnapshotBegin(1)), Delivered]), 1,
                     EndFrame(SnapshotEnd(1)), RequestId(1, 1, 2))
            == TableOf(Closed1(handler), map[RequestId(1, 1, 2) := 1],
                       [Sent(SnapshotBegin(1)), Delivered, Sent(SnapshotEnd(1))])
  {
    var log := [Sent(SnapshotBegin(1)), Delivered];
    var t := TableOf(Opened1(handler, false), map[], log);
    var c := Opened1(handler, false).(needChunks := false);
    var t1 := Touch(t, 1, c);
    assert t1 == t.(consumers := map[1 := c], busy := 0, ready := {});
    assert Touch(t1, 1, Closed1(handler)) == t.(consumers := map[1 := Closed1(handler)], busy := 1, ready := {});
    assert log + [Sent(SnapshotEnd(1))] == [Sent(SnapshotBegin(1)), Delivered, Sent(SnapshotEnd(1))];
  }

  lemma EndIsNext(handler: Handler)
    ensures Peek(Opened1(handler, false), map[]) == EndFrame(SnapshotEnd(1))
  {
    assert IdsAfter(map[], None) == [];
  }

  lemma OnlyOneReady(after: Option<int>)
    ensures NextReady({1}, after) == Some(1)
  {
    if after.Some? && after.value >= 1 {
      assert Beyond({1}, after) == {};
    } else {
      assert Beyond({1}, after) == {1};
    }
  }

  /** A turn that offers the next frame of the one consumer, which the engine takes. */
  lemma SoloTurn(h: Hub, handler: Handler, t: Table, peeked: Peeked, epoch: nat)
    requires Solo(h) && handler.isEvent && t == Register(h.bridge.table, 1, handler, h.projection)
    requires t.ready == {1} && 1 in t.consumers && Peek(t.consumers[1], h.projection.rows) == peeked
    requires (peeked.Queued? || peeked.ChunkFrame? || peeked.EndFrame?) && FrameBytes(peeked.frame) <= HOST_BRIDGE_MAX_BYTES
    ensures var h' := HostBridgeSlice(h, BridgeInput(OnePlugin(handler), FUEL, Accepted, epoch));
            var serial := h.bridge.stamp.serial + 1;
            h' == h.(bridge := h.bridge.(table := Admitted(t, 1, peeked, RequestId(1, SequenceOf(peeked.frame), serial)),
                                         stamp := Stamp(serial, epoch), admitAfter := Some(1),
                                         refreshSeen := {}, needPrune := false, pruneAfter := None),
                     marked := h'.marked)
  {
    hide Register, BridgePasses, Admitted, Peek, NextReady, FrameBytes;
    SoloPasses(h.(marked := false), handler);
    OnlyOneReady(h.bridge.admitAfter);
  }

  // -------------------------------------------------------------- the run

  /** The run up to the second recovery over the sealed projection. */
  function StrayPrefix(): seq<Step> {
    [Recover, RunBridge(NO_PLUGINS, FUEL, Accepted), AskBaseline, Recover,
     ReadBaseline(PageRead(BaselinePage(1, [], None, true))), RunBridge(NO_PLUGINS, FUEL, Accepted)]
  }

  lemma PrefixReopens() returns (worlds: seq<World>)
    ensures |worlds| == 7 && worlds[0] == INITIAL_WORLD
    ensures forall i :: 0 <= i < 6 ==> Possible(worlds[i], StrayPrefix()[i]) && worlds[i + 1] == Next(worlds[i], StrayPrefix()[i])
    ensures forall i :: 0 <= i < 6 ==> (StraySeal(worlds[i], StrayPrefix()[i]) <==> i == 4)
    ensures worlds[6] == World(REOPENED, 0, false)
  {
    hide HostBridgeSlice;
    var steps := StrayPrefix();
    var w0 := INITIAL_WORLD;
    var w1 := Next(w0, steps[0]);
    EmptyTurn(w1.hub, Accepted, 0);
    var w2 := Next(w1, steps[1]);
    assert w2.hub.recovery == Some(Recovery(None, None)) && w2.hub.bridge == EMPTY_BRIDGE;
    var w3 := Next(w2, steps[2]);
    var w4 := Next(w3, steps[3]);
    assert Ingest(map[], []) == map[];
    var w5 := Next(w4, steps[4]);
    assert w5.hub.projection == EMPTY_SEAL && w5.hub.bridge.needGapPass && w5.hub.bridge.table == EMPTY_TABLE;
    EmptyTurn(w5.hub, Accepted, 0);
    var w6 := Next(w5, steps[5]);
    worlds := [w0, w1, w2, w3, w4, w5, w6];
  }

  /** How the reopened recovery goes on: one plugin takes a whole snapshot, then another page arrives. */
  function StraySuffix(handler: Handler, entity: Entity): seq<Step> {
    [RunBridge(OnePlugin(handler), FUEL, Accepted), Finish(FirstRequest(), true),
     RunBridge(OnePlugin(handler), FUEL, Accepted), AskBaseline,
     ReadBaseline(PageRead(BaselinePage(2, [Item(5, entity)], Some(5), false)))]
  }

  /** The reopened hub with the one consumer under way. */
  function Underway(t: Table, serial: nat, marked: bool): Hub {
    REOPENED.(bridge := EMPTY_BRIDGE.(table := t, stamp := Stamp(serial, 0), admitAfter := if serial == 0 then None else Some(1)),
              marked := marked)
  }

  function Open1(handler: Handler): Table {
    TableOf(Opened1(handler, true), map[FirstRequest() := 1], [Sent(SnapshotBegin(1))])
  }

  function Heard1(handler: Handler): Table {
    TableOf(Opened1(handler, false), map[], [Sent(SnapshotBegin(1)), Delivered])
  }

  function Done1(handler: Handler): Table {
    TableOf(Closed1(handler), map[RequestId(1, 1, 2) := 1], [Sent(SnapshotBegin(1)), Delivered, Sent(SnapshotEnd(1))])
  }

  lemma BeginStep(handler: Handler) returns (marked: bool)
    requires handler.isEvent
    ensures HostBridgeSlice(REOPENED, BridgeInput(OnePlugin(handler), FUEL, Accepted, 0)) == Underway(Open1(handler), 1, marked)
  {
    var t := TableOf(Begun1(handler), map[], []);
    FirstRegistration(handler);
    BeginLaunched(handler);
    BeginIsNext(handler);
    hide Register, Admitted, Peek, HostBridgeSlice;
    SoloTurn(REOPENED, handler, t, Queued(SnapshotBegin(1)), 0);
    marked := HostBridgeSlice(REOPENED, BridgeInput(OnePlugin(handler), FUEL, Accepted, 0)).marked;
  }

  lemma LandStep(handler: Handler, marked: bool)
    ensures Complete(Underway(Open1(handler), 1, marked), FirstRequest(), true) == Underway(Heard1(handler), 1, true)
  {
    BeginLanded(handler);
    hide Land, Note;
  }

  lemma EndStep(handler: Handler) returns (marked: bool)
    requires handler.isEvent
    ensures HostBridgeSlice(Underway(Heard1(handler), 1, true), BridgeInput(OnePlugin(handler), FUEL, Accepted, 0))
            == Underway(Done1(handler), 2, marked)
  {
    SecondRegistration(handler);
    EndLaunched(handler);
    EndIsNext(handler);
    hide Register, Admitted, Peek, HostBridgeSlice;
    var h := Underway(Heard1(handler), 1, true);
    SoloTurn(h, handler, Heard1(handler), EndFrame(SnapshotEnd(1)), 0);
    marked := HostBridgeSlice(h, BridgeInput(OnePlugin(handler), FUEL, Accepted, 0)).marked;
  }

  lemma PageStep(handler: Handler, entity: Entity, marked: bool)
    ensures var h := ApplyBaseline(Underway(Done1(handler), 2, marked), PageRead(BaselinePage(2, [Item(5, entity)], Some(5), false)));
            && h.projection.complete && h.projection.rows == map[5 := entity] && h.bridge.fanout == []
            && h.bridge.table == Done1(handler)
  {
    assert [Item(5, entity)][..0] == [];
    assert Ingest(map[], [Item(5, entity)]) == map[5 := entity];
  }

  lemma SuffixDiverges(handler: Handler, entity: Entity) returns (worlds: seq<World>)
    requires handler.isEvent
    ensures |worlds| == 6 && worlds[0] == World(REOPENED, 0, false)
    ensures var steps := StraySuffix(handler, entity);
            forall i :: 0 <= i < 5 ==>
              Possible(worlds[i], steps[i]) && worlds[i + 1] == Next(worlds[i], steps[i]) && !StraySeal(worlds[i], steps[i])
    ensures var h := worlds[5].hub;
            && h.projection.complete && h.projection.rows == map[5 := entity] && h.bridge.fanout == []
            && h.bridge.table == Done1(handler)
  {
    hide HostBridgeSlice, Complete, ApplyBaseline, Open1, Heard1, Done1;
    var steps := StraySuffix(handler, entity);
    var m1 := BeginStep(handler);
    LandStep(handler, m1);
    var m3 := EndStep(handler);
    PageStep(handler, entity, m3);
    var w1 := World(Underway(Open1(handler), 1, m1), 0, false);
    var w2 := World(Underway(Heard1(handler), 1, true), 0, false);
    var w3 := World(Underway(Done1(handler), 2, m3), 0, false);
    var w4 := w3.(ticket := true);
    worlds := [World(REOPENED, 0, false), w1, w2, w3, w4, Next(w4, steps[4])];
  }

  lemma BeginIsNext(handler: Handler)
    ensures Peek(Begun1(handler), map[]) == Queued(SnapshotBegin(1))
  {
  }

  /**
   A run of the code with a single stray seal, after which a consumer outside a
   gap was sent a whole snapshot, is owed nothing, and does not hold the rows.
   */
  lemma StraySealDiverges(handler: Handler, entity: Entity) returns (worlds: seq<World>, steps: seq<Step>)
    requires handler.isEvent
    ensures IsCodeRun(worlds, steps)
    ensures exists m :: 0 <= m < |steps| && StraySeal(worlds[m], steps[m])
                        && forall x :: 0 <= x < |steps| && x != m ==> !StraySeal(worlds[x], steps[x])
    ensures var h := worlds[|steps|].hub;
            && h.projection.complete && 1 in h.bridge.table.consumers && !h.bridge.table.consumers[1].gap && ChunksFit(h, 1)
            && AfterFrames(Replica(LogAt(h.bridge.table, 1)), OwedFrames(h, 1)) != h.projection.rows
  {
    var a := PrefixReopens();
    var b := SuffixDiverges(handler, entity);
    worlds, steps := a + b[1..], StrayPrefix() + StraySuffix(handler, entity);
    forall i | 0 <= i < |steps|
      ensures Possible(worlds[i], steps[i]) && worlds[i + 1] == Next(worlds[i], steps[i])
              && (StraySeal(worlds[i], steps[i]) <==> i == 4)
    {
      if i >= 6 {
        assert worlds[i] == b[i - 6] && steps[i] == StraySuffix(handler, entity)[i - 6];
      }
    }
    var h := worlds[|steps|].hub;
    assert h == b[5].hub;
    assert StraySeal(worlds[4], steps[4]);
    NothingHeard(h, handler, entity);
  }

  lemma NothingHeard(h: Hub, handler: Handler, entity: Entity)
    requires h.projection.rows == map[5 := entity] && h.bridge.fanout == []
    requires h.bridge.table == Done1(handler)
    ensures OwedFrames(h, 1) == [] && Replica(LogAt(h.bridge.table, 1)) == map[]
    ensures AfterFrames(Replica(LogAt(h.bridge.table, 1)), OwedFrames(h, 1)) != h.projection.rows
  {
    var log := LogAt(h.bridge.table, 1);
    assert log[..2] == [Sent(SnapshotBegin(1)), Delivered] && log[..2][..1] == [Sent(SnapshotBegin(1))];
    assert Replica(log[..1]) == map[] && Replica(log[..2]) == Replica(log[..1]) by {
      assert log[..2][..1] == log[..1] && log[..1][..0] == [];
    }
    assert Replica(log) == Replica(log[..2]);
    assert OwedTo([], 1) == [];
    assert 5 in h.projection.rows;
  }
}
