/**
 The `/session` family bridge as values: the projection it replicates, one
 consumer per plugin, the redundant indexes, and each operation as a function
 from the old state to the new one.

 JSON is represented by the byte lengths the code measures. `log` and
 `refusedAt` are history: what each consumer was sent, and the engine epoch
 read before each refused admission. No operation reads them.
 */
module SessionFamily {
  import opened Ordered

  const SESSION_CHUNK_MAX_ITEMS := 8
  const SESSION_CHUNK_MAX_BYTES := 32 * 1024
  const FAMILY_QUEUE_MAX_ITEMS := 32
  const FAMILY_QUEUE_MAX_BYTES := 64 * 1024
  const FANOUT_QUEUE_MAX_ITEMS := 32
  const FANOUT_QUEUE_MAX_BYTES := 64 * 1024
  const HOST_BRIDGE_MAX_BYTES := 64 * 1024
  const CONSUMER_REFRESH_MAX := 8
  const APPLY_MAX_CHANGES := 16

  type u64 = n: int | 0 <= n < 0x1_0000_0000_0000_0000

  // ---------------------------------------------------------------- rows

  /** One projected session entity; `bytes` is its JSON length. */
  datatype Entity = Entity(content: int, bytes: nat)
  type Rows = map<int, Entity>
  datatype Item = Item(id: int, entity: Entity)

  /** One journal change; `wire` is the byte length of its delta frame. */
  datatype Change =
    | Upsert(sequence: u64, id: int, entity: Entity, wire: nat)
    | Removed(sequence: u64, id: int, wire: nat)
    | Unrecognized(sequence: u64)

  function ApplyChange(rows: Rows, change: Change): Rows {
    match change
    case Upsert(_, id, entity, _) => rows[id := entity]
    case Removed(_, id, _) => rows - {id}
    case Unrecognized(_) => rows
  }

  // -------------------------------------------------------------- frames

  datatype Frame =
    | SnapshotBegin(sequence: u64)
    | SnapshotChunk(sequence: u64, items: seq<Item>)
    | SnapshotEnd(sequence: u64)
    | EntityDelta(change: Change)

  datatype FrameKind = Begin | Chunk | End | Delta

  function KindOf(frame: Frame): FrameKind {
    match frame
    case SnapshotBegin(_) => Begin
    case SnapshotChunk(_, _) => Chunk
    case SnapshotEnd(_) => End
    case EntityDelta(_) => Delta
  }

  function SequenceOf(frame: Frame): u64 {
    match frame
    case SnapshotBegin(sequence) => sequence
    case SnapshotChunk(sequence, _) => sequence
    case SnapshotEnd(sequence) => sequence
    case EntityDelta(change) => change.sequence
  }

  /** Decimal digits of a journal sequence. */
  function Digits(n: u64): (d: nat)
    ensures 1 <= d <= 20
  {
    if n < 10 then 1 else if n < 100 then 2 else if n < 1000 then 3 else if n < 10000 then 4
    else if n < 100000 then 5 else if n < 1000000 then 6 else if n < 10000000 then 7
    else if n < 100000000 then 8 else if n < 1000000000 then 9 else if n < 10000000000 then 10
    else if n < 100000000000 then 11 else if n < 1000000000000 then 12 else if n < 10000000000000 then 13
    else if n < 100000000000000 then 14 else if n < 1000000000000000 then 15 else if n < 10000000000000000 then 16
    else if n < 100000000000000000 then 17 else if n < 1000000000000000000 then 18
    else if n < 10000000000000000000 then 19 else 20
  }

  /** The JSON of a comma-separated array body. */
  function ItemsBytes(items: seq<Item>): nat {
    if items == [] then 0
    else (if |items| == 1 then 0 else 1 + ItemsBytes(items[..|items| - 1])) + items[|items| - 1].entity.bytes
  }

  /** The length of a chunk frame, whose fixed text takes 77 bytes. */
  function ChunkBytes(sequence: u64, items: seq<Item>): nat {
    77 + Digits(sequence) + ItemsBytes(items)
  }

  function FrameBytes(frame: Frame): nat {
    match frame
    case SnapshotBegin(sequence) => 66 + Digits(sequence)
    case SnapshotChunk(sequence, items) => ChunkBytes(sequence, items)
    case SnapshotEnd(sequence) => 80 + Digits(sequence)
    case EntityDelta(change) => if change.Unrecognized? then 0 else change.wire
  }

  function QueueBytes(frames: seq<Frame>): nat {
    if frames == [] then 0 else QueueBytes(frames[..|frames| - 1]) + FrameBytes(frames[|frames| - 1])
  }

  // -------------------------------------------------------------- chunks

  /** The rows after a cursor, in key order. */
  function ItemsOf(rows: Rows, ids: seq<int>): (items: seq<Item>)
    requires forall i :: 0 <= i < |ids| ==> ids[i] in rows
    ensures |items| == |ids|
    ensures forall i :: 0 <= i < |ids| ==> items[i] == Item(ids[i], rows[ids[i]])
  {
    if ids == [] then [] else ItemsOf(rows, ids[..|ids| - 1]) + [Item(ids[|ids| - 1], rows[ids[|ids| - 1]])]
  }

  function IdsAfter(rows: Rows, after: Option<int>): (ids: seq<int>)
    ensures forall i :: 0 <= i < |ids| ==> ids[i] in rows
  {
    var ids := Ascending(Beyond(rows.Keys, after));
    assert forall i :: 0 <= i < |ids| ==> ids[i] in ids;
    ids
  }

  function ItemsAfter(rows: Rows, after: Option<int>): seq<Item> {
    ItemsOf(rows, IdsAfter(rows, after))
  }

  /** Where greedy packing of one chunk stops, having packed `items[start..next]`. */
  function PackFrom(items: seq<Item>, start: nat, next: nat): (stop: nat)
    requires start <= next <= |items|
    ensures next <= stop <= |items|
    decreases |items| - next
  {
    if next < |items| && next - start < SESSION_CHUNK_MAX_ITEMS
       && ChunkBytes(0, items[start..next + 1]) <= SESSION_CHUNK_MAX_BYTES
    then PackFrom(items, start, next + 1)
    else next
  }

  /** `pack_session_chunk`: the chunk and the next index, or nothing when the first row cannot fit. */
  function Pack(items: seq<Item>, start: nat): Option<(seq<Item>, nat)> {
    if start >= |items| then Some(([], start))
    else
      var stop := PackFrom(items, start, start);
      if stop == start then None else Some((items[start..stop], stop))
  }

  datatype ChunkRead = Oversize | NoRows | ChunkOf(items: seq<Item>, last: int)

  /** `next_projection_chunk`: the next chunk after a row cursor. */
  function NextChunk(rows: Rows, after: Option<int>): ChunkRead {
    var items := ItemsAfter(rows, after);
    match Pack(items, 0)
    case None => Oversize
    case Some((chunk, _)) => if chunk == [] then NoRows else ChunkOf(chunk, chunk[|chunk| - 1].id)
  }

  // ----------------------------------------------------------- consumers

  datatype Handler = Handler(id: int, isEvent: bool)
  datatype RequestId = RequestId(plugin: int, sequence: u64, serial: nat)
  datatype Flight = Flight(request: RequestId, sequence: u64, kind: FrameKind)

  datatype Consumer = Consumer(
    handler: Option<Handler>,
    sequence: u64,
    inFlight: Option<Flight>,
    pending: seq<Frame>,
    held: seq<Frame>,
    complete: bool,
    gap: bool,
    needChunks: bool,
    after: Option<int>)

  const NEW_CONSUMER := Consumer(None, 0, None, [], [], false, true, false, None)

  predicate Admittable(c: Consumer) {
    c.handler.Some? && c.inFlight.None? && (c.pending != [] || c.needChunks)
  }

  predicate Busy(c: Consumer) {
    c.inFlight.Some? || c.pending != [] || c.held != [] || c.needChunks
  }

  // -------------------------------------------------------------- bridge

  datatype Job = Job(change: Change, after: Option<int>, bytes: nat)

  /** What a consumer observed, in order. */
  datatype Event = Sent(frame: Frame) | Delivered | GapMarked

  /** The consumers and every index that must agree with them. */
  datatype Table = Table(
    consumers: map<int, Consumer>,
    flights: map<RequestId, int>,
    busy: nat,
    ready: set<int>,
    parked: set<int>,
    parkedSeen: Option<nat>,
    log: map<int, seq<Event>>,
    refusedAt: map<int, nat>)

  const EMPTY_TABLE := Table(map[], map[], 0, {}, {}, None, map[], map[])

  /** The last request serial issued, and (history) the engine epoch last read. */
  datatype Stamp = Stamp(serial: nat, epoch: nat)

  datatype Bridge = Bridge(
    table: Table,
    stamp: Stamp,
    refreshAfter: Option<int>,
    refreshSeen: set<int>,
    fanout: seq<Job>,
    fanoutBytes: nat,
    gapAfter: Option<int>,
    needGapPass: bool,
    startAfter: Option<int>,
    startSequence: Option<u64>,
    admitAfter: Option<int>,
    pruneAfter: Option<int>,
    needPrune: bool)

  const EMPTY_BRIDGE := Bridge(EMPTY_TABLE, Stamp(0, 0), None, {}, [], 0, None, false, None, None, None, None, false)

  function ConsumerAt(t: Table, k: int): Consumer {
    if k in t.consumers then t.consumers[k] else NEW_CONSUMER
  }

  function LogAt(t: Table, k: int): seq<Event> {
    if k in t.log then t.log[k] else []
  }

  function Note(t: Table, k: int, event: Event): Table {
    t.(log := t.log[k := LogAt(t, k) + [event]])
  }

  function AdjustBusy(count: nat, was: bool, now: bool): nat {
    if now && !was then count + 1 else if was && !now && count > 0 then count - 1 else count
  }

  function SyncReady(t: Table, k: int): Table {
    if k !in t.parked && k in t.consumers && Admittable(t.consumers[k])
    then t.(ready := t.ready + {k})
    else t.(ready := t.ready - {k})
  }

  /** `touch_consumer` with the closure's result `c`. */
  function Touch(t: Table, k: int, c: Consumer): Table {
    var was := k in t.consumers && Busy(t.consumers[k]);
    SyncReady(t.(consumers := t.consumers[k := c], busy := AdjustBusy(t.busy, was, Busy(c))), k)
  }

  function Park(t: Table, k: int, seen: nat): Table {
    var t1 := t.(parked := t.parked + {k},
                 parkedSeen := if t.parkedSeen.Some? then t.parkedSeen else Some(seen),
                 refusedAt := t.refusedAt[k := seen]);
    SyncReady(t1, k)
  }

  function Unpark(t: Table, k: int): Table {
    if k in t.parked then
      var t1 := SyncReady(t.(parked := t.parked - {k}), k);
      if t1.parked == {} then t1.(parkedSeen := None) else t1
    else t
  }

  function UnparkAll(t: Table): Table {
    t.(parkedSeen := None, parked := {},
       ready := (t.ready - t.parked) + (set k | k in t.parked && k in t.consumers && Admittable(t.consumers[k])))
  }

  function Gapped(c: Consumer): Consumer {
    c.(gap := true, complete := false, needChunks := false, after := None, pending := [], held := [], inFlight := None)
  }

  function MarkGap(t: Table, k: int): Table {
    var flight := ConsumerAt(t, k).inFlight;
    var t1 := if flight.Some? then t.(flights := t.flights - {flight.value.request}) else t;
    var t2 := Unpark(t1, k);
    Note(Touch(t2, k, Gapped(ConsumerAt(t2, k))), k, GapMarked)
  }

  function Begun(c: Consumer, sequence: u64): Consumer {
    c.(sequence := sequence, complete := false, gap := false, needChunks := true, after := None,
       pending := [SnapshotBegin(sequence)], held := [])
  }

  function BeginSnapshot(t: Table, k: int, sequence: u64): Table {
    var t1 := Unpark(t, k);
    Touch(t1, k, Begun(ConsumerAt(t1, k), sequence))
  }

  /** Whether one more delta fits the consumer's queues. */
  predicate DeltaFits(c: Consumer, change: Change) {
    && |c.pending| + |c.held| < FAMILY_QUEUE_MAX_ITEMS
    && QueueBytes(c.pending) + QueueBytes(c.held) + FrameBytes(EntityDelta(change)) <= FAMILY_QUEUE_MAX_BYTES
  }

  function WithDelta(c: Consumer, change: Change): Consumer {
    if c.gap || !DeltaFits(c, change) then c
    else if c.complete then c.(pending := c.pending + [EntityDelta(change)])
    else c.(held := c.held + [EntityDelta(change)])
  }

  /** One consumer's turn in a fanout: queue the delta, or gap it and restart its snapshot. */
  function OfferDelta(t: Table, k: int, change: Change, projection: Projection): Table {
    var c := ConsumerAt(t, k);
    var t1 := Touch(t, k, WithDelta(c, change));
    if c.gap || DeltaFits(c, change) then t1
    else
      var t2 := MarkGap(t1, k);
      if projection.complete then BeginSnapshot(t2, k, CursorSequence(projection)) else t2
  }

  /** The next ready consumer after the round-robin cursor, wrapping once. */
  function NextReady(ready: set<int>, after: Option<int>): Option<int> {
    if ready == {} then None
    else
      var later := Beyond(ready, after);
      Some(if later != {} then Least(later) else Least(ready))
  }

  function RemoveConsumer(t: Table, k: int): Table {
    if k !in t.consumers then t.(parked := t.parked - {k}, ready := t.ready - {k})
    else
      var c := t.consumers[k];
      t.(parked := t.parked - {k}, ready := t.ready - {k}, consumers := t.consumers - {k},
         busy := if Busy(c) && t.busy > 0 then t.busy - 1 else t.busy,
         flights := if c.inFlight.Some? then t.flights - {c.inFlight.value.request} else t.flights,
         log := t.log - {k})
  }

  // ----------------------------------------------------------------- hub

  datatype Projection = Projection(rows: Rows, cursor: Option<u64>, complete: bool, gap: bool)

  function CursorSequence(p: Projection): u64 {
    if p.cursor.Some? then p.cursor.value else 0
  }

  datatype Recovery = Recovery(snapshot: Option<u64>, after: Option<int>)

  /** The part of the maintenance state the bridge works on; `marked` is the HostBridge wake bit. */
  datatype Hub = Hub(
    projection: Projection,
    changes: seq<Change>,
    recovery: Option<Recovery>,
    bridge: Bridge,
    faulted: bool,
    marked: bool)

  const INITIAL_HUB := Hub(Projection(map[], None, false, false), [], None, EMPTY_BRIDGE, false, true)

  function StartRecovery(h: Hub): Hub {
    h.(projection := Projection(map[], None, false, true), changes := [], recovery := None, marked := true,
       bridge := h.bridge.(needGapPass := true, gapAfter := None, fanout := [], fanoutBytes := 0,
                           startSequence := None, startAfter := None))
  }

  function QueueFamilyDelta(h: Hub, change: Change): Hub {
    if change.Unrecognized? then h
    else if |h.bridge.fanout| >= FANOUT_QUEUE_MAX_ITEMS || h.bridge.fanoutBytes + change.wire > FANOUT_QUEUE_MAX_BYTES
    then StartRecovery(h)
    else h.(bridge := h.bridge.(fanout := h.bridge.fanout + [Job(change, None, change.wire)],
                                fanoutBytes := h.bridge.fanoutBytes + change.wire),
            marked := true)
  }

  /** Apply the front change to the projection and queue its delta. */
  function ApplyOne(h: Hub): Hub
    requires h.changes != []
  {
    var change := h.changes[0];
    var p := h.projection.(rows := ApplyChange(h.projection.rows, change), cursor := Some(change.sequence));
    QueueFamilyDelta(h.(projection := p, changes := h.changes[1..]), change)
  }

  function ApplyUpTo(h: Hub, n: nat): Hub
    decreases n
  {
    if n == 0 || h.changes == [] then h else ApplyUpTo(ApplyOne(h), n - 1)
  }

  function ProjectionApplySlice(h: Hub): Hub {
    if !h.projection.complete then h.(changes := []) else ApplyUpTo(h, APPLY_MAX_CHANGES)
  }

  datatype BaselinePage = BaselinePage(snapshot: u64, sessions: seq<Item>, next: Option<int>, complete: bool)
  datatype BaselineResult = PageRead(page: BaselinePage) | Resync | CannotProgress | ReadFailed

  function Ingest(rows: Rows, sessions: seq<Item>): Rows {
    if sessions == [] then rows
    else Ingest(rows, sessions[..|sessions| - 1])[sessions[|sessions| - 1].id := sessions[|sessions| - 1].entity]
  }

  function ApplyBaseline(h: Hub, result: BaselineResult): Hub {
    match result
    case Resync => StartRecovery(h)
    case ReadFailed => StartRecovery(h)
    case CannotProgress => h.(faulted := true)
    case PageRead(page) =>
      var rows := Ingest(h.projection.rows, page.sessions);
      if page.complete then
        h.(projection := Projection(rows, Some(page.snapshot), true, false), recovery := None, marked := true,
           bridge := h.bridge.(startSequence := Some(page.snapshot), startAfter := None))
      else
        h.(projection := h.projection.(rows := rows),
           recovery := if h.recovery.Some? then Some(Recovery(Some(page.snapshot), page.next)) else None)
  }

  // -------------------------------------------------------------- budget

  /** `fuel` counts the clock reads that will still find the turn in time. */
  datatype Budget = Budget(visits: nat, bytes: nat, fuel: nat)

  function RemainingVisits(budget: Budget): nat {
    if budget.visits <= CONSUMER_REFRESH_MAX then CONSUMER_REFRESH_MAX - budget.visits else 0
  }

  /** Reads the clock unless a count already settles the answer. */
  function Exhausted(budget: Budget): (bool, Budget) {
    if budget.visits >= CONSUMER_REFRESH_MAX || budget.bytes >= HOST_BRIDGE_MAX_BYTES || budget.fuel == 0
    then (true, budget)
    else (false, budget.(fuel := budget.fuel - 1))
  }

  function Take(budget: Budget): (bool, Budget) {
    var (spent, b) := Exhausted(budget);
    if spent then (false, b) else (true, b.(visits := b.visits + 1))
  }

  function AddBytes(budget: Budget, extra: nat): (bool, Budget) {
    var (spent, b) := Exhausted(budget);
    if spent || b.bytes + extra > HOST_BRIDGE_MAX_BYTES then (false, b) else (true, b.(bytes := b.bytes + extra))
  }

  function TakeMany(budget: Budget, n: nat): Budget
    decreases n
  {
    if n == 0 then budget
    else
      var (ok, b) := Take(budget);
      if ok then TakeMany(b, n - 1) else b
  }

  // -------------------------------------------------------------- passes

  /** How far a page was visited, and the state after it. */
  datatype Visit = Visit(table: Table, budget: Budget, visited: nat)

  function LastVisited(keys: seq<int>, visited: nat, before: Option<int>): Option<int>
    requires visited <= |keys|
  {
    if visited == 0 then before else Some(keys[visited - 1])
  }

  function GapKeys(t: Table, keys: seq<int>, i: nat, budget: Budget): (v: Visit)
    requires i <= |keys|
    ensures i <= v.visited <= |keys|
    decreases |keys| - i
  {
    if i == |keys| then Visit(t, budget, i)
    else
      var (ok, budget') := Take(budget);
      if !ok then Visit(t, budget', i) else GapKeys(MarkGap(t, keys[i]), keys, i + 1, budget')
  }

  function GapPass(h: Hub, budget: Budget): (Hub, Budget) {
    var b := h.bridge;
    var max := RemainingVisits(budget);
    if !b.needGapPass || max == 0 then (h, budget)
    else
      var keys := Page(b.table.consumers.Keys, b.gapAfter, max);
      var v := GapKeys(b.table, keys, 0, budget);
      if v.visited < |keys| || |keys| == max then
        (h.(bridge := b.(table := v.table, gapAfter := LastVisited(keys, v.visited, b.gapAfter)), marked := true),
         v.budget)
      else
        (h.(bridge := b.(table := v.table, needGapPass := false, gapAfter := None),
            recovery := Some(Recovery(None, None)), marked := true), v.budget)
  }

  function StartKeys(t: Table, keys: seq<int>, i: nat, sequence: u64, budget: Budget): (v: Visit)
    requires i <= |keys|
    ensures i <= v.visited <= |keys|
    decreases |keys| - i
  {
    if i == |keys| then Visit(t, budget, i)
    else
      var (ok, budget') := Take(budget);
      if !ok then Visit(t, budget', i)
      else StartKeys(BeginSnapshot(t, keys[i], sequence), keys, i + 1, sequence, budget')
  }

  function StartPass(h: Hub, budget: Budget): (Hub, Budget) {
    var b := h.bridge;
    var max := RemainingVisits(budget);
    if b.startSequence.None? || max == 0 then (h, budget)
    else
      var keys := Page(b.table.consumers.Keys, b.startAfter, max);
      var v := StartKeys(b.table, keys, 0, b.startSequence.value, budget);
      if v.visited < |keys| || |keys| == max then
        (h.(bridge := b.(table := v.table, startAfter := LastVisited(keys, v.visited, b.startAfter)), marked := true),
         v.budget)
      else
        (h.(bridge := b.(table := v.table, startSequence := None, startAfter := None)), v.budget)
  }

  function FanoutKeys(t: Table, keys: seq<int>, i: nat, job: Job, p: Projection, budget: Budget): (v: Visit)
    requires i <= |keys|
    ensures i <= v.visited <= |keys|
    decreases |keys| - i
  {
    if i == |keys| then Visit(t, budget, i)
    else
      var (taken, budget1) := Take(budget);
      if !taken then Visit(t, budget1, i)
      else
        var (fits, budget2) := AddBytes(budget1, job.bytes);
        if !fits then Visit(t, budget2, i)
        else FanoutKeys(OfferDelta(t, keys[i], job.change, p), keys, i + 1, job, p, budget2)
  }

  /** The bytes left when a job leaves the queue (saturating, as the code subtracts). */
  function LessJob(bytes: nat, job: Job): nat {
    if bytes >= job.bytes then bytes - job.bytes else 0
  }

  /** Work on the front job; the Boolean says whether it has consumers left. */
  function FanoutFront(h: Hub, budget: Budget): (r: (Hub, Budget, bool))
    requires h.bridge.fanout != []
    ensures !r.2 ==> r.0.bridge.fanout == h.bridge.fanout[1..]
  {
    var b := h.bridge;
    var job := b.fanout[0];
    var left := LessJob(b.fanoutBytes, job);
    var max := RemainingVisits(budget);
    if max == 0 then (h.(bridge := b.(fanoutBytes := left + job.bytes), marked := true), budget, true)
    else
      var keys := Page(b.table.consumers.Keys, job.after, max);
      var v := FanoutKeys(b.table, keys, 0, job, h.projection, budget);
      if v.visited < |keys| || |keys| == max then
        var job' := job.(after := LastVisited(keys, v.visited, job.after));
        (h.(bridge := b.(table := v.table, fanout := [job'] + b.fanout[1..], fanoutBytes := left + job.bytes),
            marked := true), v.budget, true)
      else
        (h.(bridge := b.(table := v.table, fanout := b.fanout[1..], fanoutBytes := left)), v.budget, false)
  }

  function FanoutPass(h: Hub, budget: Budget): (Hub, Budget)
    decreases |h.bridge.fanout|
  {
    var (spent, budget1) := Exhausted(budget);
    if spent then (if h.bridge.fanout != [] then h.(marked := true) else h, budget1)
    else if h.bridge.fanout == [] then (h, budget1)
    else
      var (h', budget2, more) := FanoutFront(h, budget1);
      if more then (h', budget2) else FanoutPass(h', budget2)
  }

  datatype Pruned = Pruned(drop: seq<int>, budget: Budget, visited: nat)

  function PruneKeys(keys: seq<int>, i: nat, seen: set<int>, drop: seq<int>, budget: Budget): (r: Pruned)
    requires i <= |keys|
    ensures i <= r.visited <= |keys|
    decreases |keys| - i
  {
    if i == |keys| then Pruned(drop, budget, i)
    else
      var (ok, budget') := Take(budget);
      if !ok then Pruned(drop, budget', i)
      else PruneKeys(keys, i + 1, seen, if keys[i] in seen then drop else drop + [keys[i]], budget')
  }

  function RemoveAll(t: Table, drop: seq<int>): Table {
    if drop == [] then t else RemoveConsumer(RemoveAll(t, drop[..|drop| - 1]), drop[|drop| - 1])
  }

  function PrunePass(h: Hub, budget: Budget): (Hub, Budget) {
    var b := h.bridge;
    var max := RemainingVisits(budget);
    if !b.needPrune || max == 0 then (h, budget)
    else
      var keys := Page(b.table.consumers.Keys, b.pruneAfter, max);
      var r := PruneKeys(keys, 0, b.refreshSeen, [], budget);
      var t := RemoveAll(b.table, r.drop);
      if r.visited < |keys| || |keys| == max then
        (h.(bridge := b.(table := t, pruneAfter := LastVisited(keys, r.visited, b.pruneAfter)), marked := true),
         r.budget)
      else
        (h.(bridge := b.(table := t, needPrune := false, pruneAfter := None, refreshSeen := {})), r.budget)
  }

  // ------------------------------------------------------------- refresh

  /** Install one registered handler, starting a first snapshot when the projection is sealed. */
  function Register(t: Table, k: int, handler: Handler, p: Projection): Table {
    var existed := k in t.consumers;
    var c := ConsumerAt(t, k).(handler := Some(handler));
    var t1 := Touch(t, k, if existed then c else c.(gap := true));
    if !existed && p.complete then BeginSnapshot(t1, k, CursorSequence(p)) else t1
  }

  function RegisterHandlers(t: Table, k: int, handlers: seq<Handler>, i: nat, p: Projection): Table
    requires i <= |handlers|
    decreases |handlers| - i
  {
    if i == |handlers| then t
    else RegisterHandlers(if handlers[i].isEvent then Register(t, k, handlers[i], p) else t, k, handlers, i + 1, p)
  }

  /** The handlers a registry entry holds for the session family. */
  function HandlersOf(registry: map<int, seq<Handler>>, k: int): seq<Handler> {
    if k in registry then registry[k] else []
  }

  predicate Subscribed(registry: map<int, seq<Handler>>, k: int) {
    exists i :: 0 <= i < |HandlersOf(registry, k)| && HandlersOf(registry, k)[i].isEvent
  }

  function RegisterKeys(t: Table, keys: seq<int>, i: nat, registry: map<int, seq<Handler>>, p: Projection): Table
    requires i <= |keys|
    decreases |keys| - i
  {
    if i == |keys| then t
    else RegisterKeys(RegisterHandlers(t, keys[i], HandlersOf(registry, keys[i]), 0, p), keys, i + 1, registry, p)
  }

  /** One page of the handler registry; every visited entry costs a visit, subscribed or not. */
  function RefreshPass(h: Hub, registry: map<int, seq<Handler>>, budget: Budget): (Hub, Budget) {
    var b := h.bridge;
    var max := RemainingVisits(budget);
    if max == 0 then (h, budget)
    else
      var keys := Page(registry.Keys, b.refreshAfter, max);
      var more := |Beyond(registry.Keys, b.refreshAfter)| > max;
      var b' := b.(table := RegisterKeys(b.table, keys, 0, registry, h.projection),
                   refreshSeen := b.refreshSeen + (set k | k in keys && Subscribed(registry, k)));
      var budget' := TakeMany(budget, |keys|);
      if more then
        (h.(bridge := b'.(refreshAfter := LastVisited(keys, |keys|, b.refreshAfter)), marked := true), budget')
      else
        (h.(bridge := b'.(refreshAfter := None, needPrune := true, pruneAfter := None)), budget')
  }

  // ----------------------------------------------------------- admission

  datatype Peeked = Nothing | TooLarge | Queued(frame: Frame) | ChunkFrame(frame: Frame, last: int) | EndFrame(frame: Frame)

  function Peek(c: Consumer, rows: Rows): Peeked {
    if c.inFlight.Some? || c.handler.None? then Nothing
    else if c.pending != [] then Queued(c.pending[0])
    else if !c.needChunks then Nothing
    else
      match NextChunk(rows, c.after)
      case Oversize => TooLarge
      case NoRows => EndFrame(SnapshotEnd(c.sequence))
      case ChunkOf(items, last) => ChunkFrame(SnapshotChunk(c.sequence, items), last)
  }

  /** The consumer after its peeked frame left the queue. */
  function Committed(c: Consumer, peeked: Peeked): Consumer {
    match peeked
    case Queued(frame) => if c.pending != [] && c.pending[0] == frame then c.(pending := c.pending[1..]) else c
    case ChunkFrame(_, last) => c.(after := Some(last))
    case EndFrame(_) => c.(needChunks := false)
    case _ => c
  }

  datatype Admission = Accepted | Refused | Rejected

  /** The table after the engine queued the peeked frame of consumer `k`. */
  function Admitted(t: Table, k: int, peeked: Peeked, request: RequestId): Table
    requires k in t.consumers
    requires peeked.Queued? || peeked.ChunkFrame? || peeked.EndFrame?
  {
    var t1 := Touch(t, k, Committed(t.consumers[k], peeked));
    var c := ConsumerAt(t1, k);
    var t2 := Touch(t1, k, c.(inFlight := Some(Flight(request, c.sequence, KindOf(peeked.frame)))));
    Note(t2.(flights := t2.flights[request := k]), k, Sent(peeked.frame))
  }

  function ContinueIfReady(h: Hub): Hub {
    if h.bridge.table.ready != {} then h.(marked := true) else h
  }

  /** Offer consumer `k` its next frame under a fresh request, and take the engine's answer. */
  function OfferFrame(h: Hub, k: int, peeked: Peeked, outcome: Admission, epoch: nat): Hub
    requires k in h.bridge.table.consumers && (peeked.Queued? || peeked.ChunkFrame? || peeked.EndFrame?)
  {
    var b := h.bridge;
    var b' := b.(stamp := Stamp(b.stamp.serial + 1, epoch), admitAfter := Some(k));
    var request := RequestId(k, SequenceOf(peeked.frame), b.stamp.serial + 1);
    match outcome
    case Accepted => ContinueIfReady(h.(bridge := b'.(table := Admitted(b.table, k, peeked, request))))
    case Refused => ContinueIfReady(h.(bridge := b'.(table := Park(b.table, k, epoch))))
    case Rejected => StartRecovery(h.(bridge := b'.(table := MarkGap(b.table, k))))
  }

  /** Offer one frame of the next ready consumer to the plugin engine. */
  function AdmitNext(h: Hub, budget: Budget, outcome: Admission, epoch: nat): (Hub, Budget) {
    var b := h.bridge;
    var next := NextReady(b.table.ready, b.admitAfter);
    if next.None? || next.value !in b.table.consumers then (h, budget)
    else
      var k := next.value;
      var peeked := Peek(b.table.consumers[k], h.projection.rows);
      if peeked.Nothing? then (h, budget)
      else if peeked.TooLarge? then
        (ContinueIfReady(h.(bridge := b.(table := MarkGap(b.table, k), admitAfter := Some(k)), faulted := true)),
         budget)
      else
        var (fits, budget') := AddBytes(budget, FrameBytes(peeked.frame));
        if !fits then (h.(marked := true), budget') else (OfferFrame(h, k, peeked, outcome, epoch), budget')
  }

  // --------------------------------------------------------------- slice

  datatype BridgeInput = BridgeInput(registry: map<int, seq<Handler>>, fuel: nat, outcome: Admission, epoch: nat)

  /** The passes before admission; the Boolean says whether the budget is spent. */
  function BridgePasses(h: Hub, registry: map<int, seq<Handler>>, fuel: nat): (Hub, Budget, bool) {
    var (h1, b1) := RefreshPass(h, registry, Budget(0, 0, fuel));
    var (spent1, b1') := Exhausted(b1);
    var (h2, b2) := if spent1 then (h1, b1') else GapPass(h1, b1');
    var (spent2, b2') := Exhausted(b2);
    var (h3, b3) := if spent2 then (h2, b2') else StartPass(h2, b2');
    var (spent3, b3') := Exhausted(b3);
    var (h4, b4) := if spent3 then (h3, b3') else FanoutPass(h3, b3');
    var (spent4, b4') := Exhausted(b4);
    var (h5, b5) := if spent4 then (h4, b4') else PrunePass(h4, b4');
    var (spent5, b5') := Exhausted(b5);
    (h5, b5', spent5)
  }

  /** `run_host_bridge_slice`, after the owner took the HostBridge wake bit. */
  function HostBridgeSlice(h: Hub, input: BridgeInput): Hub {
    var (h', budget, spent) := BridgePasses(h.(marked := false), input.registry, input.fuel);
    if spent then h'.(marked := true)
    else AdmitNext(h', budget, input.outcome, input.epoch).0
  }

  // --------------------------------------------------------- completions

  /** The consumer after its in-flight frame ended. */
  function Landed(c: Consumer, success: bool): Consumer {
    var ended := c.inFlight.Some? && c.inFlight.value.kind == End && c.inFlight.value.sequence == c.sequence;
    var c' := c.(inFlight := None);
    if ended && success then c'.(complete := true, pending := c'.pending + c'.held, held := []) else c'
  }

  function Land(t: Table, k: int, request: RequestId, success: bool): Table {
    var t1 := t.(flights := t.flights - {request});
    if k in t1.consumers then Touch(t1, k, Landed(t1.consumers[k], success)) else t1
  }

  function Complete(h: Hub, request: RequestId, success: bool): Hub {
    var t := h.bridge.table;
    if request !in t.flights then h
    else
      var k := t.flights[request];
      var t1 := Land(t, k, request, success);
      if success then h.(bridge := h.bridge.(table := Note(t1, k, Delivered)), marked := true)
      else StartRecovery(h.(bridge := h.bridge.(table := MarkGap(t1, k))))
  }

  /** `mark_signaled_waits` for the bridge: a moved epoch returns every parked consumer. */
  function SignalCheck(h: Hub, epoch: nat): Hub {
    var t := h.bridge.table;
    if t.parkedSeen.Some? && t.parkedSeen.value != epoch then
      var t' := UnparkAll(t);
      h.(bridge := h.bridge.(table := t'), marked := h.marked || t'.ready != {})
    else h
  }
}
