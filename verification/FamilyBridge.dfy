/**
 The session family bridge as the daemon runs it: mutable state, loops over
 pages of consumers and an owner-turn budget. Every method computes exactly
 the step function of `SessionFamily` that the run theorems are about.
 */
module FamilyBridge {
  import opened Ordered
  import opened SessionFamily
  import Spec = SessionFamily
  import FamilyChunks

  /** One owner turn's allowance; `fuel` stands for the clock. */
  class HostBridgeBudget {
    var visits: nat
    var bytes: nat
    var fuel: nat

    ghost function View(): Budget
      reads this
    {
      Budget(visits, bytes, fuel)
    }

    constructor (fuel: nat)
      ensures View() == Budget(0, 0, fuel)
    {
      visits, bytes, this.fuel := 0, 0, fuel;
    }

    function RemainingVisits(): (n: nat)
      reads this
      ensures n == Spec.RemainingVisits(View())
    {
      if visits <= CONSUMER_REFRESH_MAX then CONSUMER_REFRESH_MAX - visits else 0
    }

    method Exhausted() returns (spent: bool)
      modifies this
      ensures (spent, View()) == Spec.Exhausted(old(View()))
    {
      if visits >= CONSUMER_REFRESH_MAX || bytes >= HOST_BRIDGE_MAX_BYTES || fuel == 0 {
        return true;
      }
      fuel := fuel - 1;
      return false;
    }

    method Take() returns (ok: bool)
      modifies this
      ensures (ok, View()) == Spec.Take(old(View()))
    {
      var spent := Exhausted();
      if spent || visits >= CONSUMER_REFRESH_MAX {
        return false;
      }
      visits := visits + 1;
      return true;
    }

    method AddBytes(extra: nat) returns (ok: bool)
      modifies this
      ensures (ok, View()) == Spec.AddBytes(old(View()), extra)
    {
      var spent := Exhausted();
      if spent || bytes + extra > HOST_BRIDGE_MAX_BYTES {
        return false;
      }
      bytes := bytes + extra;
      return true;
    }
  }

  function SyncKeys(t: Table, keys: seq<int>, i: nat): Table
    requires i <= |keys|
    decreases |keys| - i
  {
    if i == |keys| then t else SyncKeys(Spec.SyncReady(t, keys[i]), keys, i + 1)
  }

  lemma {:induction false} SyncKeysReady(t: Table, keys: seq<int>, i: nat, k: int)
    requires i <= |keys| && t.parked == {}
    ensures var t' := SyncKeys(t, keys, i);
            && t' == t.(ready := t'.ready)
            && (k in t'.ready <==> if k in keys[i..] then k in t.consumers && Admittable(t.consumers[k]) else k in t.ready)
    decreases |keys| - i
  {
    hide Admittable;
    if i < |keys| {
      SyncKeysReady(Spec.SyncReady(t, keys[i]), keys, i + 1, k);
      assert keys[i..] == [keys[i]] + keys[i + 1..];
    }
  }

  lemma SyncKeysUnparks(t: Table, keys: seq<int>)
    requires forall k :: k in keys <==> k in t.parked
    ensures SyncKeys(t.(parked := {}, parkedSeen := None), keys, 0) == Spec.UnparkAll(t)
  {
    hide Admittable, SyncKeys;
    var t0 := t.(parked := {}, parkedSeen := None);
    var t1, t2 := SyncKeys(t0, keys, 0), Spec.UnparkAll(t);
    assert keys[0..] == keys;
    forall k ensures k in t1.ready <==> k in t2.ready {
      SyncKeysReady(t0, keys, 0, k);
    }
    SyncKeysReady(t0, keys, 0, 0);
    assert t1.ready == t2.ready;
  }

  /** The consumers and the indexes that must agree with them. */
  class ConsumerTable {
    var consumers: map<int, Consumer>
    var inFlightByRequest: map<RequestId, int>
    var busyCount: nat
    var ready: set<int>
    var parked: set<int>
    var engineParkedSeen: Option<nat>
    ghost var log: map<int, seq<Event>>
    ghost var refusedAt: map<int, nat>

    ghost function View(): Table
      reads this
    {
      Table(consumers, inFlightByRequest, busyCount, ready, parked, engineParkedSeen, log, refusedAt)
    }

    constructor ()
      ensures View() == EMPTY_TABLE
    {
      consumers, inFlightByRequest, busyCount, ready, parked, engineParkedSeen := map[], map[], 0, {}, {}, None;
      log, refusedAt := map[], map[];
    }

    function ConsumerOrNew(k: int): Consumer
      reads this
    {
      if k in consumers then consumers[k] else NEW_CONSUMER
    }

    method SyncReady(k: int)
      modifies this`ready
      ensures View() == Spec.SyncReady(old(View()), k)
    {
      if k !in parked && k in consumers && Admittable(consumers[k]) {
        ready := ready + {k};
      } else {
        ready := ready - {k};
      }
    }

    method AdjustBusy(was: bool, now: bool)
      modifies this`busyCount
      ensures busyCount == Spec.AdjustBusy(old(busyCount), was, now)
    {
      if now && !was {
        busyCount := busyCount + 1;
      } else if was && !now && busyCount > 0 {
        busyCount := busyCount - 1;
      }
    }

    /** Replace one consumer and bring the busy count and the ready set up to date. */
    method TouchConsumer(k: int, c: Consumer)
      modifies this`consumers, this`busyCount, this`ready
      ensures View() == Spec.Touch(old(View()), k, c)
    {
      var was := k in consumers && Busy(consumers[k]);
      consumers := consumers[k := c];
      AdjustBusy(was, Busy(c));
      SyncReady(k);
    }

    method Park(k: int, seen: nat)
      modifies this`parked, this`engineParkedSeen, this`refusedAt, this`ready
      ensures View() == Spec.Park(old(View()), k, seen)
    {
      parked := parked + {k};
      if engineParkedSeen.None? {
        engineParkedSeen := Some(seen);
      }
      refusedAt := refusedAt[k := seen];
      SyncReady(k);
    }

    method Unpark(k: int)
      modifies this`parked, this`engineParkedSeen, this`ready
      ensures View() == Spec.Unpark(old(View()), k)
    {
      if k in parked {
        parked := parked - {k};
        SyncReady(k);
        if parked == {} {
          engineParkedSeen := None;
        }
      }
    }

    method UnparkAll() returns (anyReady: bool)
      modifies this`parked, this`engineParkedSeen, this`ready
      ensures View() == Spec.UnparkAll(old(View())) && anyReady == (ready != {})
    {
      hide Spec.SyncReady, Spec.UnparkAll;
      engineParkedSeen := None;
      var keys := Ascending(parked);
      parked := {};
      ghost var start := View();
      var i := 0;
      while i < |keys|
        invariant i <= |keys| && SyncKeys(View(), keys, i) == SyncKeys(start, keys, 0)
      {
        SyncReady(keys[i]);
        i := i + 1;
      }
      SyncKeysUnparks(old(View()), keys);
      anyReady := ready != {};
    }

    method MarkGap(k: int)
      modifies this`consumers, this`inFlightByRequest, this`busyCount, this`ready, this`parked, this`engineParkedSeen,
               this`log
      ensures View() == Spec.MarkGap(old(View()), k)
    {
      if k in consumers && consumers[k].inFlight.Some? {
        inFlightByRequest := inFlightByRequest - {consumers[k].inFlight.value.request};
      }
      Unpark(k);
      TouchConsumer(k, Gapped(ConsumerOrNew(k)));
      log := log[k := LogAt(View(), k) + [GapMarked]];
    }

    method BeginSnapshot(k: int, sequence: u64)
      modifies this`consumers, this`busyCount, this`ready, this`parked, this`engineParkedSeen
      ensures View() == Spec.BeginSnapshot(old(View()), k, sequence)
    {
      Unpark(k);
      TouchConsumer(k, Begun(ConsumerOrNew(k), sequence));
    }

    /** Queue one delta; false when the queue is full. */
    method QueueDelta(k: int, change: Change) returns (ok: bool)
      modifies this`consumers, this`busyCount, this`ready
      ensures var c := ConsumerAt(old(View()), k);
              && View() == Spec.Touch(old(View()), k, WithDelta(c, change))
              && ok == (c.gap || DeltaFits(c, change))
    {
      var c := ConsumerOrNew(k);
      if c.gap {
        TouchConsumer(k, c);
        return true;
      }
      var items := |c.pending| + |c.held|;
      var bytes := QueueBytes(c.pending) + QueueBytes(c.held);
      if items >= FAMILY_QUEUE_MAX_ITEMS || bytes + FrameBytes(EntityDelta(change)) > FAMILY_QUEUE_MAX_BYTES {
        TouchConsumer(k, c);
        return false;
      }
      if c.complete {
        c := c.(pending := c.pending + [EntityDelta(change)]);
      } else {
        c := c.(held := c.held + [EntityDelta(change)]);
      }
      TouchConsumer(k, c);
      return true;
    }

    method RemoveConsumer(k: int) returns (c: Option<Consumer>)
      modifies this`consumers, this`ready, this`parked
      ensures c == if k in old(consumers) then Some(old(consumers)[k]) else None
      ensures parked == old(parked) - {k} && ready == old(ready) - {k} && consumers == old(consumers) - {k}
    {
      parked := parked - {k};
      ready := ready - {k};
      c := if k in consumers then Some(consumers[k]) else None;
      consumers := consumers - {k};
    }

    // ------------------------------------------------------ owner passes

    method GapConsumers(keys: seq<int>, budget: HostBridgeBudget) returns (visited: nat)
      modifies this`consumers, this`inFlightByRequest, this`busyCount, this`ready, this`parked, this`engineParkedSeen,
               this`log, budget
      ensures Visit(View(), budget.View(), visited) == GapKeys(old(View()), keys, 0, old(budget.View()))
    {
      hide Spec.MarkGap, Spec.Take;
      visited := 0;
      while visited < |keys|
        invariant visited <= |keys|
        invariant GapKeys(View(), keys, visited, budget.View()) == GapKeys(old(View()), keys, 0, old(budget.View()))
      {
        var ok := budget.Take();
        if !ok {
          break;
        }
        MarkGap(keys[visited]);
        visited := visited + 1;
      }
    }

    method StartConsumers(keys: seq<int>, sequence: u64, budget: HostBridgeBudget) returns (visited: nat)
      modifies this`consumers, this`busyCount, this`ready, this`parked, this`engineParkedSeen, budget
      ensures Visit(View(), budget.View(), visited)
              == StartKeys(old(View()), keys, 0, sequence, old(budget.View()))
    {
      hide Spec.BeginSnapshot, Spec.Take;
      visited := 0;
      while visited < |keys|
        invariant visited <= |keys|
        invariant StartKeys(View(), keys, visited, sequence, budget.View())
                  == StartKeys(old(View()), keys, 0, sequence, old(budget.View()))
      {
        var ok := budget.Take();
        if !ok {
          break;
        }
        BeginSnapshot(keys[visited], sequence);
        visited := visited + 1;
      }
    }

    /** Queue a delta for one consumer; a full queue loses its place and starts over. */
    method OfferDelta(k: int, change: Change, projection: Projection)
      modifies this`consumers, this`inFlightByRequest, this`busyCount, this`ready, this`parked, this`engineParkedSeen,
               this`log
      ensures View() == Spec.OfferDelta(old(View()), k, change, projection)
    {
      hide Spec.MarkGap, Spec.BeginSnapshot, Spec.Touch, DeltaFits, WithDelta;
      var ok := QueueDelta(k, change);
      if !ok {
        MarkGap(k);
        if projection.complete {
          BeginSnapshot(k, CursorSequence(projection));
        }
      }
    }

    method FanoutConsumers(keys: seq<int>, job: Job, projection: Projection, budget: HostBridgeBudget)
      returns (visited: nat)
      modifies this`consumers, this`inFlightByRequest, this`busyCount, this`ready, this`parked, this`engineParkedSeen,
               this`log, budget
      ensures Visit(View(), budget.View(), visited)
              == FanoutKeys(old(View()), keys, 0, job, projection, old(budget.View()))
    {
      hide Spec.OfferDelta, Spec.Take, Spec.AddBytes;
      visited := 0;
      while visited < |keys|
        invariant visited <= |keys|
        invariant FanoutKeys(View(), keys, visited, job, projection, budget.View())
                  == FanoutKeys(old(View()), keys, 0, job, projection, old(budget.View()))
      {
        var ok := budget.Take();
        if !ok {
          break;
        }
        ok := budget.AddBytes(job.bytes);
        if !ok {
          break;
        }
        OfferDelta(keys[visited], job.change, projection);
        visited := visited + 1;
      }
    }

    method DropConsumer(k: int)
      modifies this`consumers, this`inFlightByRequest, this`busyCount, this`ready, this`parked, this`log
      ensures View() == Spec.RemoveConsumer(old(View()), k)
    {
      var removed := RemoveConsumer(k);
      if removed.Some? {
        if Busy(removed.value) && busyCount > 0 {
          busyCount := busyCount - 1;
        }
        if removed.value.inFlight.Some? {
          inFlightByRequest := inFlightByRequest - {removed.value.inFlight.value.request};
        }
        log := log - {k};
      }
    }

    method DropConsumers(drop: seq<int>)
      modifies this`consumers, this`inFlightByRequest, this`busyCount, this`ready, this`parked, this`log
      ensures View() == RemoveAll(old(View()), drop)
    {
      hide Spec.RemoveConsumer;
      var i := 0;
      while i < |drop|
        invariant i <= |drop| && View() == RemoveAll(old(View()), drop[..i])
      {
        DropConsumer(drop[i]);
        assert drop[..i + 1][..i] == drop[..i];
        i := i + 1;
      }
      assert drop[..i] == drop;
    }

    method RegisterHandler(k: int, handler: Handler, projection: Projection)
      modifies this`consumers, this`busyCount, this`ready, this`parked, this`engineParkedSeen
      ensures View() == Spec.Register(old(View()), k, handler, projection)
    {
      hide Spec.BeginSnapshot, Spec.Touch;
      var existed := k in consumers;
      var c := ConsumerOrNew(k).(handler := Some(handler));
      TouchConsumer(k, if existed then c else c.(gap := true));
      if !existed && projection.complete {
        BeginSnapshot(k, CursorSequence(projection));
      }
    }

    method RegisterPlugin(k: int, handlers: seq<Handler>, projection: Projection) returns (subscribed: bool)
      modifies this`consumers, this`busyCount, this`ready, this`parked, this`engineParkedSeen
      ensures View() == RegisterHandlers(old(View()), k, handlers, 0, projection)
      ensures subscribed <==> exists i :: 0 <= i < |handlers| && handlers[i].isEvent
    {
      hide Spec.Register;
      subscribed := false;
      var i := 0;
      while i < |handlers|
        invariant i <= |handlers| && (subscribed <==> exists j :: 0 <= j < i && handlers[j].isEvent)
        invariant RegisterHandlers(View(), k, handlers, i, projection)
                  == RegisterHandlers(old(View()), k, handlers, 0, projection)
      {
        if handlers[i].isEvent {
          subscribed := true;
          RegisterHandler(k, handlers[i], projection);
        }
        i := i + 1;
      }
    }

    method RegisterPlugins(keys: seq<int>, registry: map<int, seq<Handler>>, projection: Projection)
      returns (seen: set<int>)
      modifies this`consumers, this`busyCount, this`ready, this`parked, this`engineParkedSeen
      ensures View() == RegisterKeys(old(View()), keys, 0, registry, projection)
      ensures seen == set k | k in keys && Subscribed(registry, k)
    {
      hide RegisterHandlers;
      seen := {};
      var i := 0;
      while i < |keys|
        invariant i <= |keys| && seen == set k | k in keys[..i] && Subscribed(registry, k)
        invariant RegisterKeys(View(), keys, i, registry, projection)
                  == RegisterKeys(old(View()), keys, 0, registry, projection)
      {
        var subscribed := RegisterPlugin(keys[i], HandlersOf(registry, keys[i]), projection);
        assert subscribed == Subscribed(registry, keys[i]);
        if subscribed {
          seen := seen + {keys[i]};
        }
        assert keys[..i + 1] == keys[..i] + [keys[i]];
        i := i + 1;
      }
      assert keys[..i] == keys;
    }

    // --------------------------------------------------------- admission

    method CommitPayload(k: int, peeked: Peeked)
      requires k in consumers
      modifies this`consumers, this`busyCount, this`ready
      ensures View() == Touch(old(View()), k, Committed(old(consumers)[k], peeked))
    {
      hide Touch;
      var c := consumers[k];
      match peeked {
        case Queued(frame) =>
          if c.pending != [] && c.pending[0] == frame {
            c := c.(pending := c.pending[1..]);
          }
        case ChunkFrame(_, last) => c := c.(after := Some(last));
        case EndFrame(_) => c := c.(needChunks := false);
        case _ =>
      }
      TouchConsumer(k, c);
    }

    /** The engine took the frame: it leaves the queue and takes off. */
    method LaunchFrame(k: int, peeked: Peeked, request: RequestId)
      requires k in consumers && (peeked.Queued? || peeked.ChunkFrame? || peeked.EndFrame?)
      modifies this`consumers, this`busyCount, this`ready, this`inFlightByRequest, this`log
      ensures View() == Admitted(old(View()), k, peeked, request)
    {
      hide Touch, Committed;
      CommitPayload(k, peeked);
      TouchKeepsKey(old(View()), k, Committed(old(consumers)[k], peeked));
      var c := consumers[k];
      TouchConsumer(k, c.(inFlight := Some(Flight(request, c.sequence, KindOf(peeked.frame)))));
      inFlightByRequest := inFlightByRequest[request := k];
      log := log[k := LogAt(View(), k) + [Sent(peeked.frame)]];
    }

    /** A plugin answered a frame: the flight is over. */
    method LandFlight(request: RequestId, success: bool) returns (k: int)
      requires request in inFlightByRequest
      modifies this`consumers, this`busyCount, this`ready, this`inFlightByRequest
      ensures k == old(inFlightByRequest)[request]
      ensures View() == Land(old(View()), k, request, success)
    {
      hide Touch;
      k := inFlightByRequest[request];
      inFlightByRequest := inFlightByRequest - {request};
      if k in consumers {
        var c := consumers[k];
        var ended := c.inFlight.Some? && c.inFlight.value.kind == End && c.inFlight.value.sequence == c.sequence;
        c := c.(inFlight := None);
        if ended && success {
          c := c.(complete := true, pending := c.pending + c.held, held := []);
        }
        TouchConsumer(k, c);
      }
    }

    ghost method NoteDelivered(k: int)
      modifies this`log
      ensures View() == Note(old(View()), k, Delivered)
    {
      log := log[k := LogAt(View(), k) + [Delivered]];
    }
  }

  lemma TouchKeepsKey(t: Table, k: int, c: Consumer)
    ensures k in Touch(t, k, c).consumers
  {
  }

  /** The consumers with the cursors of the passes pending over them. */
  class SessionFamilyBridge {
    const table: ConsumerTable
    var nextRequestSerial: nat
    var refreshAfter: Option<int>
    var refreshSeen: set<int>
    var pendingFanout: seq<Job>
    var fanoutBytes: nat
    var gapAfter: Option<int>
    var needGapPass: bool
    var snapshotStartAfter: Option<int>
    var snapshotStartSequence: Option<u64>
    var admitAfter: Option<int>
    var pruneAfter: Option<int>
    var needPrune: bool
    ghost var epochRead: nat

    /** The pass cursors around a given table. */
    ghost function Around(t: Table): Bridge
      reads this
    {
      Bridge(t, Stamp(nextRequestSerial, epochRead), refreshAfter, refreshSeen, pendingFanout, fanoutBytes,
             gapAfter, needGapPass, snapshotStartAfter, snapshotStartSequence, admitAfter, pruneAfter, needPrune)
    }

    ghost function View(): Bridge
      reads this, table
    {
      Around(table.View())
    }

    constructor ()
      ensures View() == EMPTY_BRIDGE && fresh(table)
    {
      table := new ConsumerTable();
      nextRequestSerial, refreshAfter, refreshSeen, pendingFanout, fanoutBytes := 0, None, {}, [], 0;
      gapAfter, needGapPass, snapshotStartAfter, snapshotStartSequence := None, false, None, None;
      admitAfter, pruneAfter, needPrune, epochRead := None, None, false, 0;
    }

    // ------------------------------------------------------------ queries

    function NextReady(): (k: Option<int>)
      reads this, table
      ensures k == Spec.NextReady(View().table.ready, View().admitAfter)
    {
      var later := Beyond(table.ready, admitAfter);
      if later != {} then Some(Least(later)) else if table.ready != {} then Some(Least(table.ready)) else None
    }

    function AnyReady(): (ready: bool)
      reads this, table
      ensures ready == (View().table.ready != {})
    {
      table.ready != {}
    }

    /** The frame consumer `k` would send next. */
    method PeekPayload(k: int, rows: Rows) returns (peeked: Peeked)
      ensures peeked == if k in View().table.consumers then Peek(View().table.consumers[k], rows) else Nothing
    {
      if k !in table.consumers {
        return Nothing;
      }
      var c := table.consumers[k];
      if c.inFlight.Some? || c.handler.None? {
        return Nothing;
      }
      if c.pending != [] {
        return Queued(c.pending[0]);
      }
      if !c.needChunks {
        return Nothing;
      }
      var read := FamilyChunks.NextProjectionChunk(rows, c.after);
      match read {
        case Oversize => return TooLarge;
        case NoRows => return EndFrame(SnapshotEnd(c.sequence));
        case ChunkOf(items, last) => return ChunkFrame(SnapshotChunk(c.sequence, items), last);
      }
    }

    /** Which of a page's consumers left the registry. */
    method DepartedConsumers(keys: seq<int>, budget: HostBridgeBudget) returns (drop: seq<int>, visited: nat)
      modifies budget
      ensures Pruned(drop, budget.View(), visited) == PruneKeys(keys, 0, refreshSeen, [], old(budget.View()))
    {
      hide Spec.Take;
      drop, visited := [], 0;
      while visited < |keys|
        invariant visited <= |keys|
        invariant PruneKeys(keys, visited, refreshSeen, drop, budget.View())
                  == PruneKeys(keys, 0, refreshSeen, [], old(budget.View()))
      {
        var ok := budget.Take();
        if !ok {
          break;
        }
        if keys[visited] !in refreshSeen {
          drop := drop + [keys[visited]];
        }
        visited := visited + 1;
      }
    }

    // ------------------------------------------------------------- pages

    /** The next consumers in key order after a cursor. */
    function PageOf(after: Option<int>, max: nat): (keys: seq<int>)
      reads this, table
      ensures keys == Page(table.View().consumers.Keys, after, max)
    {
      Page(table.consumers.Keys, after, max)
    }

    /** Forget the fanout and the pending starts, and ask for a gap pass. */
    method ResetForRecovery()
      modifies this
      ensures View() == old(View()).(needGapPass := true, gapAfter := None, fanout := [], fanoutBytes := 0,
                                     startSequence := None, startAfter := None)
    {
      hide ConsumerTable.View;
      needGapPass, gapAfter := true, None;
      pendingFanout, fanoutBytes := [], 0;
      snapshotStartSequence, snapshotStartAfter := None, None;
    }

    method GapPage(budget: HostBridgeBudget, max: nat) returns (done: bool)
      modifies this, table, budget
      ensures var b := old(View());
              var keys := Page(b.table.consumers.Keys, b.gapAfter, max);
              var v := GapKeys(b.table, keys, 0, old(budget.View()));
              && budget.View() == v.budget && done == !(v.visited < |keys| || |keys| == max)
              && View() == if done then b.(table := v.table, needGapPass := false, gapAfter := None)
                           else b.(table := v.table, gapAfter := LastVisited(keys, v.visited, b.gapAfter))
    {
      hide GapKeys, Page, ConsumerTable.View;
      var keys := PageOf(gapAfter, max);
      var visited := table.GapConsumers(keys, budget);
      done := !(visited < |keys| || |keys| == max);
      if done {
        needGapPass, gapAfter := false, None;
      } else {
        gapAfter := LastVisited(keys, visited, gapAfter);
      }
    }

    method StartPage(budget: HostBridgeBudget, max: nat, sequence: u64) returns (done: bool)
      modifies this, table, budget
      ensures var b := old(View());
              var keys := Page(b.table.consumers.Keys, b.startAfter, max);
              var v := StartKeys(b.table, keys, 0, sequence, old(budget.View()));
              && budget.View() == v.budget && done == !(v.visited < |keys| || |keys| == max)
              && View() == if done then b.(table := v.table, startSequence := None, startAfter := None)
                           else b.(table := v.table, startAfter := LastVisited(keys, v.visited, b.startAfter))
    {
      hide StartKeys, Page, ConsumerTable.View;
      var keys := PageOf(snapshotStartAfter, max);
      var visited := table.StartConsumers(keys, sequence, budget);
      done := !(visited < |keys| || |keys| == max);
      if done {
        snapshotStartSequence, snapshotStartAfter := None, None;
      } else {
        snapshotStartAfter := LastVisited(keys, visited, snapshotStartAfter);
      }
    }

    /** Offer a job's delta to its next page of consumers; `more` says whether any are left. */
    method FanoutPage(budget: HostBridgeBudget, max: nat, job: Job, projection: Projection)
      returns (more: bool, job': Job)
      modifies this, table, budget
      ensures var b := old(View());
              var keys := Page(b.table.consumers.Keys, job.after, max);
              var v := FanoutKeys(b.table, keys, 0, job, projection, old(budget.View()));
              && budget.View() == v.budget && more == (v.visited < |keys| || |keys| == max)
              && View() == b.(table := v.table)
              && job' == if more then job.(after := LastVisited(keys, v.visited, job.after)) else job
    {
      hide FanoutKeys, Page, ConsumerTable.View;
      var keys := PageOf(job.after, max);
      var visited := table.FanoutConsumers(keys, job, projection, budget);
      more := visited < |keys| || |keys| == max;
      job' := if more then job.(after := LastVisited(keys, visited, job.after)) else job;
    }

    method PopJob() returns (job: Job)
      requires pendingFanout != []
      modifies this
      ensures job == old(pendingFanout)[0]
      ensures View() == old(View()).(fanout := old(pendingFanout)[1..], fanoutBytes := LessJob(old(fanoutBytes), job))
    {
      hide ConsumerTable.View;
      job := pendingFanout[0];
      pendingFanout := pendingFanout[1..];
      fanoutBytes := if fanoutBytes >= job.bytes then fanoutBytes - job.bytes else 0;
    }

    method PushJob(job: Job, front: bool)
      modifies this
      ensures View() == old(View()).(fanoutBytes := old(fanoutBytes) + job.bytes,
                                     fanout := if front then [job] + old(pendingFanout) else old(pendingFanout) + [job])
    {
      hide ConsumerTable.View;
      fanoutBytes := fanoutBytes + job.bytes;
      pendingFanout := if front then [job] + pendingFanout else pendingFanout + [job];
    }

    method PrunePage(budget: HostBridgeBudget, max: nat) returns (done: bool)
      modifies this, table, budget
      ensures var b := old(View());
              var keys := Page(b.table.consumers.Keys, b.pruneAfter, max);
              var r := PruneKeys(keys, 0, b.refreshSeen, [], old(budget.View()));
              var t := RemoveAll(b.table, r.drop);
              && budget.View() == r.budget && done == !(r.visited < |keys| || |keys| == max)
              && View() == if done then b.(table := t, needPrune := false, pruneAfter := None, refreshSeen := {})
                           else b.(table := t, pruneAfter := LastVisited(keys, r.visited, b.pruneAfter))
    {
      hide PruneKeys, RemoveAll, Page, ConsumerTable.View;
      var keys := PageOf(pruneAfter, max);
      var drop, visited := DepartedConsumers(keys, budget);
      table.DropConsumers(drop);
      done := !(visited < |keys| || |keys| == max);
      if done {
        needPrune, pruneAfter, refreshSeen := false, None, {};
      } else {
        pruneAfter := LastVisited(keys, visited, pruneAfter);
      }
    }

    method RefreshPage(registry: map<int, seq<Handler>>, max: nat, projection: Projection)
      returns (visited: nat, more: bool)
      modifies this, table
      ensures var b := old(View());
              var keys := Page(registry.Keys, b.refreshAfter, max);
              var b' := b.(table := RegisterKeys(b.table, keys, 0, registry, projection),
                           refreshSeen := b.refreshSeen + (set k | k in keys && Subscribed(registry, k)));
              && visited == |keys| && more == (|Beyond(registry.Keys, b.refreshAfter)| > max)
              && View() == if more then b'.(refreshAfter := LastVisited(keys, |keys|, b.refreshAfter))
                           else b'.(refreshAfter := None, needPrune := true, pruneAfter := None)
    {
      hide RegisterKeys, Page, Subscribed, ConsumerTable.View;
      var keys := Page(registry.Keys, refreshAfter, max);
      more := |Beyond(registry.Keys, refreshAfter)| > max;
      visited := |keys|;
      var seen := table.RegisterPlugins(keys, registry, projection);
      refreshSeen := refreshSeen + seen;
      if more {
        refreshAfter := LastVisited(keys, |keys|, refreshAfter);
      } else {
        refreshAfter, needPrune, pruneAfter := None, true, None;
      }
    }

    // --------------------------------------------------------- admission

    /** Issue a request for consumer `k` at engine epoch `epoch` and move the round-robin cursor to it. */
    method IssueRequest(k: int, sequence: u64, epoch: nat) returns (request: RequestId)
      modifies this
      ensures request == RequestId(k, sequence, old(View()).stamp.serial + 1)
      ensures View() == old(View()).(stamp := Stamp(old(View()).stamp.serial + 1, epoch), admitAfter := Some(k))
    {
      hide ConsumerTable.View;
      nextRequestSerial := nextRequestSerial + 1;
      request := RequestId(k, sequence, nextRequestSerial);
      epochRead := epoch;
      admitAfter := Some(k);
    }

    method MoveAdmission(k: int)
      modifies this
      ensures View() == old(View()).(admitAfter := Some(k))
    {
      hide ConsumerTable.View;
      admitAfter := Some(k);
    }

    method BeginStarts(sequence: u64)
      modifies this
      ensures View() == old(View()).(startSequence := Some(sequence), startAfter := None)
    {
      hide ConsumerTable.View;
      snapshotStartSequence := Some(sequence);
      snapshotStartAfter := None;
    }

    function HasFlight(request: RequestId): (flying: bool)
      reads this, table
      ensures flying == (request in View().table.flights)
    {
      request in table.inFlightByRequest
    }
  }
}
