/** Every pass of a host bridge slice keeps the safety invariant, whenever the budget stops it. */
module FamilyPasses {
  import opened Ordered
  import opened SessionFamily
  import opened FamilyReplica
  import opened FamilyIndex
  import opened FamilySafety

  predicate Spent(budget: Budget) {
    budget.visits >= CONSUMER_REFRESH_MAX || budget.bytes >= HOST_BRIDGE_MAX_BYTES || budget.fuel == 0
  }

  /** Each page key is the next consumer after the cursor left by the keys before it. */
  lemma PageWalks(consumers: map<int, Consumer>, after: Option<int>, max: nat, i: nat)
    requires i < |Page(consumers.Keys, after, max)|
    ensures var keys := Page(consumers.Keys, after, max);
            NextAfter(consumers, LastVisited(keys, i, after), keys[i])
  {
    hide Page;
    PageProperties(consumers.Keys, after, max);
    var keys := Page(consumers.Keys, after, max);
    var cursor := LastVisited(keys, i, after);
    assert i > 0 ==> keys[i - 1] in consumers && !Passed(after, keys[i - 1]);
    forall x | x in consumers && !Passed(after, x) && x < keys[i] ensures Passed(cursor, x) {
      assert x in keys;
      var j :| 0 <= j < |keys| && keys[j] == x;
      assert j <= i - 1 && keys[j] <= keys[i - 1];
    }
  }

  /** A short page ends with every consumer passed. */
  lemma ShortPageEnds(consumers: map<int, Consumer>, after: Option<int>, max: nat, x: int)
    requires var keys := Page(consumers.Keys, after, max); |keys| < max && x in consumers
    ensures var keys := Page(consumers.Keys, after, max);
            Passed(LastVisited(keys, |keys|, after), x)
  {
    hide Page;
    PageProperties(consumers.Keys, after, max);
    var keys := Page(consumers.Keys, after, max);
    if !Passed(after, x) {
      assert x in keys;
      var j :| 0 <= j < |keys| && keys[j] == x;
      assert j < |keys| - 1 ==> keys[j] < keys[|keys| - 1];
    } else if |keys| > 0 {
      assert keys[|keys| - 1] in consumers.Keys && !Passed(after, keys[|keys| - 1]);
    }
  }

  // ----------------------------------------------------------------- gap

  lemma {:induction false} GapKeysSafe(t: Table, keys: seq<int>, i: nat, budget: Budget, stamp: Stamp, p: Projection, jobs: seq<Job>)
    requires i <= |keys| && TableSafe(t, stamp, p, jobs)
    requires forall j :: 0 <= j < |keys| ==> keys[j] in t.consumers
    ensures var v := GapKeys(t, keys, i, budget);
            && TableSafe(v.table, stamp, p, jobs)
            && v.table.consumers.Keys == t.consumers.Keys
            && (forall x :: x in t.consumers ==> v.table.consumers[x].gap || v.table.consumers[x] == t.consumers[x])
            && (forall j :: i <= j < v.visited ==> v.table.consumers[keys[j]].gap)
    decreases |keys| - i
  {
    hide TableSafe, MarkGap;
    if i < |keys| {
      var (ok, budget') := Take(budget);
      if ok {
        MarkGapSafe(t, keys[i], stamp, p, jobs);
        GapKeysSafe(MarkGap(t, keys[i]), keys, i + 1, budget', stamp, p, jobs);
      }
    }
  }

  lemma {:induction false} GapKeysSpend(t: Table, keys: seq<int>, i: nat, budget: Budget)
    requires i <= |keys|
    ensures var v := GapKeys(t, keys, i, budget);
            && (v.visited < |keys| ==> Spent(v.budget))
            && v.budget.visits == budget.visits + (v.visited - i) && v.budget.bytes == budget.bytes
    decreases |keys| - i
  {
    hide MarkGap;
    if i < |keys| {
      var (ok, budget') := Take(budget);
      if ok { GapKeysSpend(MarkGap(t, keys[i]), keys, i + 1, budget'); }
    }
  }

  lemma GapPassSafe(h: Hub, budget: Budget)
    requires Safe(h)
    ensures var (h', budget') := GapPass(h, budget);
            && Safe(h') && h'.projection == h.projection && h'.bridge.stamp == h.bridge.stamp && h'.bridge.fanout == h.bridge.fanout
            && (h'.bridge.needGapPass ==> (Spent(budget') && h'.marked) || RemainingVisits(budget) == 0)
            && (h.marked ==> h'.marked)
  {
    hide TableSafe, GapKeys, Page, FanoutExact;
    var b := h.bridge;
    var max := RemainingVisits(budget);
    if b.needGapPass && max > 0 {
      var keys := Page(b.table.consumers.Keys, b.gapAfter, max);
      PageProperties(b.table.consumers.Keys, b.gapAfter, max);
      GapKeysSafe(b.table, keys, 0, budget, b.stamp, h.projection, b.fanout);
      GapKeysSpend(b.table, keys, 0, budget);
      var v := GapKeys(b.table, keys, 0, budget);
      var cs := v.table.consumers;
      var cursor := LastVisited(keys, v.visited, b.gapAfter);
      forall x | x in cs && Passed(cursor, x) ensures cs[x].gap {
        if !Passed(b.gapAfter, x) {
          assert x <= keys[v.visited - 1];
          assert x in keys;
          var j :| 0 <= j < |keys| && keys[j] == x;
          assert j <= v.visited - 1;
        }
      }
      if v.visited == |keys| && |keys| < max {
        forall x | x in cs ensures cs[x].gap {
          ShortPageEnds(b.table.consumers, b.gapAfter, max, x);
        }
      }
    }
  }

  // ------------------------------------------------------ snapshot starts

  lemma {:induction false} StartKeysSafe(t: Table, keys: seq<int>, i: nat, sequence: u64, budget: Budget, stamp: Stamp, p: Projection, jobs: seq<Job>)
    requires i <= |keys| && TableSafe(t, stamp, p, jobs)
    requires forall j :: 0 <= j < |keys| ==> keys[j] in t.consumers
    requires forall x :: x in t.consumers ==> t.consumers[x].gap || AwaitsBegin(t.consumers[x])
    ensures var v := StartKeys(t, keys, i, sequence, budget);
            && TableSafe(v.table, stamp, p, jobs)
            && v.table.consumers.Keys == t.consumers.Keys
            && (forall x :: x in t.consumers ==> v.table.consumers[x] == t.consumers[x] || (AwaitsBegin(v.table.consumers[x]) && !v.table.consumers[x].gap))
            && (forall j :: i <= j < v.visited ==> !v.table.consumers[keys[j]].gap)
    decreases |keys| - i
  {
    hide TableSafe, BeginSnapshot;
    if i < |keys| {
      var (ok, budget') := Take(budget);
      if ok {
        BeginSnapshotSafe(t, keys[i], sequence, stamp, p, jobs);
        StartKeysSafe(BeginSnapshot(t, keys[i], sequence), keys, i + 1, sequence, budget', stamp, p, jobs);
      }
    }
  }

  lemma {:induction false} StartKeysSpend(t: Table, keys: seq<int>, i: nat, sequence: u64, budget: Budget)
    requires i <= |keys|
    ensures var v := StartKeys(t, keys, i, sequence, budget);
            && (v.visited < |keys| ==> Spent(v.budget))
            && v.budget.visits == budget.visits + (v.visited - i) && v.budget.bytes == budget.bytes
    decreases |keys| - i
  {
    hide BeginSnapshot;
    if i < |keys| {
      var (ok, budget') := Take(budget);
      if ok { StartKeysSpend(BeginSnapshot(t, keys[i], sequence), keys, i + 1, sequence, budget'); }
    }
  }

  /** A page of snapshot starts leaves gaps only beyond its cursor. */
  lemma StartsReachCursor(h: Hub, budget: Budget, x: int)
    requires Safe(h) && h.bridge.startSequence.Some? && !h.faulted && x in h.bridge.table.consumers
    requires var b := h.bridge;
             var keys := Page(b.table.consumers.Keys, b.startAfter, RemainingVisits(budget));
             var v := StartKeys(b.table, keys, 0, b.startSequence.value, budget);
             Passed(LastVisited(keys, v.visited, b.startAfter), x)
    ensures var b := h.bridge;
            var keys := Page(b.table.consumers.Keys, b.startAfter, RemainingVisits(budget));
            var v := StartKeys(b.table, keys, 0, b.startSequence.value, budget);
            x in v.table.consumers && !v.table.consumers[x].gap
  {
    hide TableSafe, StartKeys, Page, FanoutExact;
    var b, max := h.bridge, RemainingVisits(budget);
    var keys := Page(b.table.consumers.Keys, b.startAfter, max);
    PageProperties(b.table.consumers.Keys, b.startAfter, max);
    StartKeysSafe(b.table, keys, 0, b.startSequence.value, budget, b.stamp, h.projection, b.fanout);
    var v := StartKeys(b.table, keys, 0, b.startSequence.value, budget);
    if !Passed(b.startAfter, x) {
      assert x <= keys[v.visited - 1];
      assert x in keys;
      var j :| 0 <= j < |keys| && keys[j] == x;
      assert j <= v.visited - 1;
    }
  }

  lemma StartPassSafe(h: Hub, budget: Budget)
    requires Safe(h)
    ensures var (h', budget') := StartPass(h, budget);
            && Safe(h') && h'.projection == h.projection && h'.bridge.stamp == h.bridge.stamp && h'.bridge.fanout == h.bridge.fanout
            && h'.bridge.needGapPass == h.bridge.needGapPass
            && (h'.bridge.startSequence.Some? ==> (Spent(budget') && h'.marked) || RemainingVisits(budget) == 0)
            && (h.marked ==> h'.marked)
  {
    hide TableSafe, StartKeys, Page, FanoutExact;
    var b := h.bridge;
    var max := RemainingVisits(budget);
    if b.startSequence.Some? && max > 0 {
      var keys := Page(b.table.consumers.Keys, b.startAfter, max);
      PageProperties(b.table.consumers.Keys, b.startAfter, max);
      StartKeysSafe(b.table, keys, 0, b.startSequence.value, budget, b.stamp, h.projection, b.fanout);
      StartKeysSpend(b.table, keys, 0, b.startSequence.value, budget);
      var v := StartKeys(b.table, keys, 0, b.startSequence.value, budget);
      var cs := v.table.consumers;
      forall x | x in cs && Passed(LastVisited(keys, v.visited, b.startAfter), x) && !h.faulted ensures !cs[x].gap {
        StartsReachCursor(h, budget, x);
      }
      if v.visited == |keys| && |keys| < max && !h.faulted {
        forall x | x in cs ensures !cs[x].gap {
          ShortPageEnds(b.table.consumers, b.startAfter, max, x);
        }
      }
    }
  }

  // -------------------------------------------------------------- fanout

  lemma {:induction false} FanoutKeysSafe(t: Table, keys: seq<int>, i: nat, job: Job, rest: seq<Job>, after: Option<int>, max: nat,
                                          p: Projection, budget: Budget, stamp: Stamp)
    requires i <= |keys| && keys == Page(t.consumers.Keys, after, max)
    requires p.complete && TableSafe(t, stamp, p, [job.(after := LastVisited(keys, i, after))] + rest)
    ensures var v := FanoutKeys(t, keys, i, job, p, budget);
            && TableSafe(v.table, stamp, p, [job.(after := LastVisited(keys, v.visited, after))] + rest)
            && v.table.consumers.Keys == t.consumers.Keys
            && (forall x :: x in t.consumers && !t.consumers[x].gap ==> !v.table.consumers[x].gap)
    decreases |keys| - i
  {
    hide TableSafe, OfferDelta, Page;
    if i < |keys| {
      var (taken, budget1) := Take(budget);
      if taken {
        var (fits, budget2) := AddBytes(budget1, job.bytes);
        if fits {
          var job' := job.(after := LastVisited(keys, i, after));
          PageWalks(t.consumers, after, max, i);
          OfferDeltaSafe(t, keys[i], job', rest, stamp, p);
          var t' := OfferDelta(t, keys[i], job.change, p);
          assert job'.(after := Some(keys[i])) == job.(after := LastVisited(keys, i + 1, after));
          assert t'.consumers.Keys == t.consumers.Keys;
          FanoutKeysSafe(t', keys, i + 1, job, rest, after, max, p, budget2, stamp);
        }
      }
    }
  }

  lemma AllPassed(t: Table, job: Job, rest: seq<Job>, stamp: Stamp, p: Projection)
    requires p.complete && TableSafe(t, stamp, p, [job] + rest)
    requires forall x :: x in t.consumers ==> Passed(job.after, x)
    requires rest != [] ==> rest[0].after.None?
    ensures TableSafe(t, stamp, p, rest)
  {
    var jobs := [job] + rest;
    assert jobs[1..] == rest;
    AbsorbedTail(p.rows, FramesOf(jobs));
    assert FramesOf(jobs)[1..] == FramesOf(rest);
  }

  lemma FanoutMeansSealed(h: Hub)
    requires PassOrder(h) && h.bridge.fanout != []
    ensures h.projection.complete
  {
  }

  lemma FanoutFrontTable(h: Hub, budget: Budget)
    requires TableSafe(h.bridge.table, h.bridge.stamp, h.projection, h.bridge.fanout)
    requires FanoutExact(h.bridge.fanout, h.bridge.fanoutBytes)
    requires h.bridge.fanout != [] && h.projection.complete
    ensures var b, b' := h.bridge, FanoutFront(h, budget).0.bridge;
            && TableSafe(b'.table, b.stamp, h.projection, b'.fanout)
            && b'.table.consumers.Keys == b.table.consumers.Keys
            && (forall x :: x in b.table.consumers && !b.table.consumers[x].gap ==> !b'.table.consumers[x].gap)
  {
    hide TableSafe, FanoutKeys, Page;
    var b, p := h.bridge, h.projection;
    var job, rest := b.fanout[0], b.fanout[1..];
    assert b.fanout == [job] + rest;
    var max := RemainingVisits(budget);
    if max > 0 {
      var keys := Page(b.table.consumers.Keys, job.after, max);
      PageProperties(b.table.consumers.Keys, job.after, max);
      FanoutKeysSafe(b.table, keys, 0, job, rest, job.after, max, p, budget, b.stamp);
      var v := FanoutKeys(b.table, keys, 0, job, p, budget);
      var job' := job.(after := LastVisited(keys, v.visited, job.after));
      if v.visited == |keys| && |keys| < max {
        forall x | x in v.table.consumers ensures Passed(job'.after, x) {
          ShortPageEnds(b.table.consumers, job.after, max, x);
        }
        AllPassed(v.table, job', rest, b.stamp, p);
      } else {
        assert FanoutFront(h, budget).0.bridge.fanout == [job'] + rest;
      }
    }
  }

  lemma FanoutFrontExact(h: Hub, budget: Budget)
    requires FanoutExact(h.bridge.fanout, h.bridge.fanoutBytes) && h.bridge.fanout != []
    ensures var b' := FanoutFront(h, budget).0.bridge; FanoutExact(b'.fanout, b'.fanoutBytes)
  {
    hide FanoutKeys, Page, RemainingVisits, LastVisited;
    var b' := FanoutFront(h, budget).0.bridge;
    var job, rest := h.bridge.fanout[0], h.bridge.fanout[1..];
    assert JobBytes(h.bridge.fanout) == job.bytes + JobBytes(rest);
    if b'.fanout != rest {
      assert b'.fanout[1..] == rest;
    }
  }

  lemma FanoutFrontSafe(h: Hub, budget: Budget)
    requires Safe(h) && h.bridge.fanout != [] && h.bridge.startSequence.None?
    ensures var (h', budget', more) := FanoutFront(h, budget);
            && Safe(h') && h'.projection == h.projection && h'.bridge.stamp == h.bridge.stamp && h'.faulted == h.faulted
            && h'.bridge.needGapPass == h.bridge.needGapPass && h'.bridge.startSequence == h.bridge.startSequence
            && (more ==> h'.marked) && (h.marked ==> h'.marked)
  {
    hide TableSafe, FanoutKeys, Page, PassOrder, FanoutExact;
    FanoutMeansSealed(h);
    FanoutFrontTable(h, budget);
    FanoutFrontExact(h, budget);
    FanoutOrder(h, FanoutFront(h, budget).0);
  }

  /** Fanout keeps the pass order: it never gaps a consumer of a sealed projection. */
  lemma FanoutOrder(h: Hub, h': Hub)
    requires PassOrder(h) && h.projection.complete && h.bridge.startSequence.None?
    requires h'.projection == h.projection && h'.recovery == h.recovery && h'.faulted == h.faulted
    requires h'.bridge.needGapPass == h.bridge.needGapPass && h'.bridge.startSequence.None?
    requires h'.bridge.table.consumers.Keys == h.bridge.table.consumers.Keys
    requires forall x :: x in h.bridge.table.consumers && !h.bridge.table.consumers[x].gap ==> !h'.bridge.table.consumers[x].gap
    ensures PassOrder(h')
  {
  }

  lemma {:induction false} FanoutPassSafe(h: Hub, budget: Budget)
    requires Safe(h) && h.bridge.startSequence.None?
    ensures var (h', budget') := FanoutPass(h, budget);
            && Safe(h') && h'.projection == h.projection && h'.bridge.stamp == h.bridge.stamp
            && h'.bridge.needGapPass == h.bridge.needGapPass && h'.bridge.startSequence.None?
            && (h'.bridge.fanout != [] ==> h'.marked) && (h.marked ==> h'.marked)
    decreases |h.bridge.fanout|
  {
    hide Safe, FanoutFront;
    var (spent, budget1) := Exhausted(budget);
    if spent {
      SafeIgnoresMark(h, true);
    } else if h.bridge.fanout != [] {
      FanoutFrontSafe(h, budget1);
      var (h', budget2, more) := FanoutFront(h, budget1);
      if !more {
        FanoutPassSafe(h', budget2);
      }
    }
  }

  lemma SafeIgnoresMark(h: Hub, marked: bool)
    ensures Safe(h.(marked := marked)) == Safe(h)
  {
  }

  // --------------------------------------------------------------- prune

  lemma RemoveConsumerSafe(t: Table, k: int, stamp: Stamp, p: Projection, jobs: seq<Job>)
    requires TableSafe(t, stamp, p, jobs)
    ensures var t' := RemoveConsumer(t, k);
            TableSafe(t', stamp, p, jobs) && t'.consumers == t.consumers - {k} && t'.ready <= t.ready
  {
    RemoveConsumerEffect(t, k, stamp);
  }

  lemma {:induction false} RemoveAllSafe(t: Table, drop: seq<int>, stamp: Stamp, p: Projection, jobs: seq<Job>)
    requires TableSafe(t, stamp, p, jobs)
    ensures var t' := RemoveAll(t, drop);
            && TableSafe(t', stamp, p, jobs) && t'.ready <= t.ready
            && t'.consumers == t.consumers - (set k | k in drop)
  {
    hide TableSafe, RemoveConsumer;
    if drop != [] {
      var n := |drop| - 1;
      RemoveAllSafe(t, drop[..n], stamp, p, jobs);
      RemoveConsumerSafe(RemoveAll(t, drop[..n]), drop[n], stamp, p, jobs);
      assert drop == drop[..n] + [drop[n]];
    }
  }

  lemma PrunePassSafe(h: Hub, budget: Budget)
    requires Safe(h)
    ensures var (h', budget') := PrunePass(h, budget);
            && Safe(h') && h'.projection == h.projection && h'.bridge.stamp == h.bridge.stamp
            && h'.bridge.needGapPass == h.bridge.needGapPass && h'.bridge.startSequence == h.bridge.startSequence
            && h'.bridge.fanout == h.bridge.fanout && (h.marked ==> h'.marked)
  {
    hide TableSafe, RemoveAll, Page, PruneKeys;
    var b := h.bridge;
    var max := RemainingVisits(budget);
    if b.needPrune && max > 0 {
      var keys := Page(b.table.consumers.Keys, b.pruneAfter, max);
      var r := PruneKeys(keys, 0, b.refreshSeen, [], budget);
      RemoveAllSafe(b.table, r.drop, b.stamp, h.projection, b.fanout);
    }
  }

  // ------------------------------------------------------------- refresh

  /** Registration only adds consumers and replaces handlers. */
  ghost predicate Grown(t: Table, t': Table, p: Projection) {
    && t.consumers.Keys <= t'.consumers.Keys
    && (forall k :: k in t.consumers ==> t'.consumers[k] == t.consumers[k].(handler := t'.consumers[k].handler))
    && (forall k :: k in t'.consumers && k !in t.consumers ==>
          if p.complete then !t'.consumers[k].gap && AwaitsBegin(t'.consumers[k]) else t'.consumers[k].gap)
  }

  lemma NewHandlerSound(c: Consumer, handler: Handler, log: seq<Event>, rows: Rows, owed: seq<Frame>)
    requires Sound(c, log)
    ensures var c' := c.(handler := Some(handler));
            Sound(c', log) && Outlook(c', log, rows, owed) == Outlook(c, log, rows, owed)
  {
  }

  lemma NewConsumerSound(handler: Handler)
    ensures Sound(NEW_CONSUMER.(handler := Some(handler)), [])
  {
    assert QueueBytes([]) == 0;
  }

  /** A consumer's first registration, or a new handler for one that exists. */
  function Registered(t: Table, k: int, handler: Handler, p: Projection): Consumer {
    var c := ConsumerAt(t, k).(handler := Some(handler));
    if k !in t.consumers && p.complete then Begun(c, CursorSequence(p)) else c
  }

  lemma RegisteredSound(t: Table, k: int, handler: Handler, stamp: Stamp, p: Projection, jobs: seq<Job>)
    requires TableSafe(t, stamp, p, jobs)
    ensures var c := Registered(t, k, handler, p);
            && Sound(c, LogAt(t, k))
            && (p.complete && !c.gap ==> Outlook(c, LogAt(t, k), p.rows, OwedTo(jobs, k)) == p.rows)
  {
    hide Sound, Outlook, Absorbed, FramesOf, OwedTo;
    var log := LogAt(t, k);
    if k in t.consumers {
      NewHandlerSound(t.consumers[k], handler, log, p.rows, OwedTo(jobs, k));
    } else {
      assert log == [];
      NewConsumerSound(handler);
      var c := NEW_CONSUMER.(handler := Some(handler));
      if p.complete {
        BegunSound(c, CursorSequence(p), log);
        OwedAbsorbed(p.rows, jobs, k);
        OutlookOfBegun(c, CursorSequence(p), log, p.rows, OwedTo(jobs, k));
      }
    }
  }

  lemma RegisterSafe(t: Table, k: int, handler: Handler, stamp: Stamp, p: Projection, jobs: seq<Job>)
    requires TableSafe(t, stamp, p, jobs)
    ensures var t' := Register(t, k, handler, p); TableSafe(t', stamp, p, jobs) && Grown(t, t', p)
  {
    hide Register, Sound, Outlook, Converging;
    RegisterEffect(t, k, handler, p, stamp);
    RegisteredSound(t, k, handler, stamp, p, jobs);
    ReplaceOne(t, Register(t, k, handler, p), k, Registered(t, k, handler, p), stamp, stamp, p, jobs);
  }

  lemma GrownTransitive(a: Table, b: Table, c: Table, p: Projection)
    requires Grown(a, b, p) && Grown(b, c, p)
    ensures Grown(a, c, p)
  {
  }

  lemma {:induction false} RegisterHandlersSafe(t: Table, k: int, handlers: seq<Handler>, i: nat, stamp: Stamp, p: Projection, jobs: seq<Job>)
    requires i <= |handlers| && TableSafe(t, stamp, p, jobs)
    ensures var t' := RegisterHandlers(t, k, handlers, i, p); TableSafe(t', stamp, p, jobs) && Grown(t, t', p)
    decreases |handlers| - i
  {
    hide TableSafe, Register;
    if i < |handlers| {
      RegisterSafe(t, k, handlers[i], stamp, p, jobs);
      var t1 := if handlers[i].isEvent then Register(t, k, handlers[i], p) else t;
      RegisterHandlersSafe(t1, k, handlers, i + 1, stamp, p, jobs);
      GrownTransitive(t, t1, RegisterHandlers(t1, k, handlers, i + 1, p), p);
    }
  }

  lemma {:induction false} RegisterKeysSafe(t: Table, keys: seq<int>, i: nat, registry: map<int, seq<Handler>>, stamp: Stamp, p: Projection, jobs: seq<Job>)
    requires i <= |keys| && TableSafe(t, stamp, p, jobs)
    ensures var t' := RegisterKeys(t, keys, i, registry, p); TableSafe(t', stamp, p, jobs) && Grown(t, t', p)
    decreases |keys| - i
  {
    hide TableSafe, RegisterHandlers;
    if i < |keys| {
      var t1 := RegisterHandlers(t, keys[i], HandlersOf(registry, keys[i]), 0, p);
      RegisterHandlersSafe(t, keys[i], HandlersOf(registry, keys[i]), 0, stamp, p, jobs);
      RegisterKeysSafe(t1, keys, i + 1, registry, stamp, p, jobs);
      GrownTransitive(t, t1, RegisterKeys(t1, keys, i + 1, registry, p), p);
    }
  }

  lemma RefreshPassSafe(h: Hub, registry: map<int, seq<Handler>>, budget: Budget)
    requires Safe(h)
    ensures var (h', budget') := RefreshPass(h, registry, budget);
            && Safe(h') && h'.projection == h.projection && h'.bridge.stamp == h.bridge.stamp && h'.bridge.fanout == h.bridge.fanout
            && h'.bridge.needGapPass == h.bridge.needGapPass && h'.bridge.startSequence == h.bridge.startSequence
            && (h.marked ==> h'.marked)
  {
    hide TableSafe, RegisterKeys, Page, TakeMany;
    var b := h.bridge;
    var max := RemainingVisits(budget);
    if max > 0 {
      var keys := Page(registry.Keys, b.refreshAfter, max);
      RegisterKeysSafe(b.table, keys, 0, registry, b.stamp, h.projection, b.fanout);
    }
  }
}
