/**
 Which turns of the host bridge reach admission: each turn refreshes a page of
 the registry before its other passes and, when the page is the last of a round,
 prunes the consumers from the first one again; both spend the turn's visits.
 */
module FamilySchedule {
  import opened Ordered
  import opened SessionFamily
  import opened FamilyIndex
  import opened FamilyQuiet
  import opened FamilySafety
  import FamilyChunks
  import opened FamilyPasses
  import opened FamilySteps
  import opened FamilyRun

  type Registry = map<int, seq<Handler>>

  function Subscribers(registry: Registry): set<int> {
    set k | k in registry && Subscribed(registry, k)
  }

  /** The registry entries the refresh cursor has still to visit this round. */
  function Remaining(h: Hub, registry: Registry): nat {
    |Beyond(registry.Keys, h.bridge.refreshAfter)|
  }

  /** The size of the registry's last page: pages of eight leave it between one and eight. */
  function LastPage(entries: nat): nat {
    if entries == 0 then 0 else (entries - 1) % CONSUMER_REFRESH_MAX + 1
  }

  /** Whether a turn over the last page can visit every subscriber and stay within its visits. */
  predicate Roomy(registry: Registry) {
    LastPage(|registry|) + |Subscribers(registry)| < CONSUMER_REFRESH_MAX
  }

  /** The refresh cursor stands at a page boundary of the registry. */
  predicate OnPageBoundary(h: Hub, registry: Registry) {
    var r := Remaining(h, registry);
    r % CONSUMER_REFRESH_MAX == |registry| % CONSUMER_REFRESH_MAX && (|registry| > 0 ==> r > 0) && r <= |registry|
  }

  /** Every subscriber the refresh cursor has passed is registered and seen this round. */
  ghost predicate SeenSoFar(h: Hub, registry: Registry) {
    forall k :: k in Subscribers(registry) && Passed(h.bridge.refreshAfter, k) ==>
      k in h.bridge.table.consumers && k in h.bridge.refreshSeen
  }

  lemma LastPageIsLeast(h: Hub, registry: Registry)
    requires OnPageBoundary(h, registry)
    ensures LastPage(|registry|) <= Remaining(h, registry)
    ensures Remaining(h, registry) <= CONSUMER_REFRESH_MAX ==> Remaining(h, registry) == LastPage(|registry|)
  {
  }

  // -------------------------------------------------------------- refresh

  lemma {:induction false} TakeManyCounts(budget: Budget, n: nat)
    requires budget.visits + n <= CONSUMER_REFRESH_MAX
    ensures var b := TakeMany(budget, n);
            && b.bytes == budget.bytes
            && (Spent(b) || b.visits == budget.visits + n)
            && (budget.fuel > n && !Spent(budget) ==> b.visits == budget.visits + n && b.fuel == budget.fuel - n)
    decreases n
  {
    if n > 0 {
      var (ok, b) := Take(budget);
      if ok { TakeManyCounts(b, n - 1); }
    }
  }

  lemma RefreshSeesPage(after: Option<int>, registry: Registry, keys: seq<int>, k: int)
    requires keys == Page(registry.Keys, after, CONSUMER_REFRESH_MAX) && k in registry && !Passed(after, k)
    ensures Passed(LastVisited(keys, |keys|, after), k) || |Beyond(registry.Keys, after)| <= CONSUMER_REFRESH_MAX ==> k in keys
  {
    hide Page;
    PageProperties(registry.Keys, after, CONSUMER_REFRESH_MAX);
    if |Beyond(registry.Keys, after)| <= CONSUMER_REFRESH_MAX {
      WholePage(registry.Keys, after, CONSUMER_REFRESH_MAX);
    } else if Passed(LastVisited(keys, |keys|, after), k) {
      assert k <= keys[|keys| - 1];
    }
  }

  lemma WholePage(keys: set<int>, after: Option<int>, max: nat)
    requires |Beyond(keys, after)| <= max
    ensures forall k :: k in keys && !Passed(after, k) ==> k in Page(keys, after, max)
  {
    forall k | k in keys && !Passed(after, k) ensures k in Page(keys, after, max) {
      assert k in Beyond(keys, after);
    }
  }

  lemma {:induction false} DistinctCount(keys: seq<int>)
    requires Increasing(keys)
    ensures |set k | k in keys| == |keys|
  {
    if keys != [] {
      var n := |keys| - 1;
      DistinctCount(keys[..n]);
      assert keys == keys[..n] + [keys[n]];
      assert (set k | k in keys) == (set k | k in keys[..n]) + {keys[n]};
      assert keys[n] !in keys[..n];
    } else {
      assert (set k | k in keys) == {};
    }
  }

  /** Eight entries on, the cursor has eight fewer to visit. */
  lemma RefreshCursor(after: Option<int>, registry: Registry, keys: seq<int>)
    requires keys == Page(registry.Keys, after, CONSUMER_REFRESH_MAX)
    requires |Beyond(registry.Keys, after)| > CONSUMER_REFRESH_MAX
    ensures |keys| == CONSUMER_REFRESH_MAX
    ensures |Beyond(registry.Keys, Some(keys[|keys| - 1]))| == |Beyond(registry.Keys, after)| - CONSUMER_REFRESH_MAX
  {
    hide Page;
    PageProperties(registry.Keys, after, CONSUMER_REFRESH_MAX);
    var old', new' := Beyond(registry.Keys, after), Beyond(registry.Keys, Some(keys[|keys| - 1]));
    var page := set k | k in keys;
    DistinctCount(keys);
    forall k ensures k in old' <==> k in new' + page {
      if k in old' && k !in new' {
        assert k <= keys[|keys| - 1];
      }
      if k in page {
        var j :| 0 <= j < |keys| && keys[j] == k;
      }
      if k in new' {
        assert keys[|keys| - 1] in registry.Keys && !Passed(after, keys[|keys| - 1]);
      }
    }
    assert old' == new' + page;
    forall k | k in page ensures k !in new' {
      var j :| 0 <= j < |keys| && keys[j] == k;
      assert j < |keys| - 1 ==> keys[j] < keys[|keys| - 1];
    }
    assert new' !! page;
    assert |new' + page| == |new'| + |page|;
  }

  /** What the refresh of a turn leaves for its other passes. */
  ghost predicate Refreshed(h: Hub, registry: Registry, h': Hub) {
    && Framed(h, h') && h'.recovery == h.recovery && SameStarts(h.bridge, h'.bridge)
    && h'.bridge.needGapPass == h.bridge.needGapPass && h'.bridge.gapAfter == h.bridge.gapAfter
    && h'.bridge.fanout == h.bridge.fanout
    && h.bridge.table.consumers.Keys <= h'.bridge.table.consumers.Keys
    && h'.bridge.table.consumers.Keys <= h.bridge.table.consumers.Keys + Subscribers(registry)
  }

  lemma RefreshKeeps(h: Hub, registry: Registry, budget: Budget)
    ensures Refreshed(h, registry, RefreshPass(h, registry, budget).0)
  {
    RefreshFramed(h, registry, budget);
    hide Framed, RegisterKeys, Page, Subscribed, TakeMany, Quiet;
    var keys := Page(registry.Keys, h.bridge.refreshAfter, RemainingVisits(budget));
    PageProperties(registry.Keys, h.bridge.refreshAfter, RemainingVisits(budget));
    RegisterKeysQuiet(h.bridge.table, keys, 0, registry, h.projection);
    assert keys[0..] == keys;
  }

  /** The refresh cursor after a page. */
  lemma RefreshMovesCursor(h: Hub, registry: Registry, fuel: nat)
    requires OnPageBoundary(h, registry)
    ensures var h' := RefreshPass(h, registry, Budget(0, 0, fuel)).0;
            var r := Remaining(h, registry);
            && OnPageBoundary(h', registry)
            && Remaining(h', registry) == (if r > CONSUMER_REFRESH_MAX then r - CONSUMER_REFRESH_MAX else |registry|)
            && (r <= CONSUMER_REFRESH_MAX ==>
                  h'.bridge.refreshAfter.None? && h'.bridge.needPrune && h'.bridge.pruneAfter.None?)
  {
    hide RegisterKeys, Page, TakeMany, Subscribed;
    var keys := Page(registry.Keys, h.bridge.refreshAfter, CONSUMER_REFRESH_MAX);
    if Remaining(h, registry) > CONSUMER_REFRESH_MAX {
      RefreshCursor(h.bridge.refreshAfter, registry, keys);
    }
    assert registry.Keys == Beyond(registry.Keys, None);
  }

  lemma RefreshSees(h: Hub, registry: Registry, fuel: nat)
    requires SeenSoFar(h, registry)
    ensures var h' := RefreshPass(h, registry, Budget(0, 0, fuel)).0;
            && SeenSoFar(h', registry)
            && (Remaining(h, registry) <= CONSUMER_REFRESH_MAX ==>
                  Subscribers(registry) <= h'.bridge.refreshSeen && Subscribers(registry) <= h'.bridge.table.consumers.Keys)
  {
    hide RegisterKeys, Page, TakeMany, Subscribed, Quiet;
    var after := h.bridge.refreshAfter;
    var keys := Page(registry.Keys, after, CONSUMER_REFRESH_MAX);
    RegisterKeysQuiet(h.bridge.table, keys, 0, registry, h.projection);
    assert keys[0..] == keys;
    var h' := RefreshPass(h, registry, Budget(0, 0, fuel)).0;
    forall k | k in Subscribers(registry) &&
               (Passed(LastVisited(keys, |keys|, after), k) || Remaining(h, registry) <= CONSUMER_REFRESH_MAX)
      ensures k in h'.bridge.refreshSeen && k in h'.bridge.table.consumers
    {
      if !Passed(after, k) {
        RefreshSeesPage(after, registry, keys, k);
      }
    }
  }

  lemma RefreshSpends(h: Hub, registry: Registry, fuel: nat)
    ensures var b := RefreshPass(h, registry, Budget(0, 0, fuel)).1;
            var r := Remaining(h, registry);
            && b.bytes == 0
            && (r >= CONSUMER_REFRESH_MAX ==> Spent(b))
            && (r < CONSUMER_REFRESH_MAX ==> (Spent(b) || b.visits == r) && (fuel > r ==> b.visits == r && b.fuel == fuel - r))
  {
    hide RegisterKeys, Page, TakeMany, Subscribed;
    var keys := Page(registry.Keys, h.bridge.refreshAfter, CONSUMER_REFRESH_MAX);
    PageProperties(registry.Keys, h.bridge.refreshAfter, CONSUMER_REFRESH_MAX);
    TakeManyCounts(Budget(0, 0, fuel), |keys|);
  }

  // ---------------------------------------------------------------- prune

  lemma {:induction false} PruneDropsUnseen(keys: seq<int>, i: nat, seen: set<int>, drop: seq<int>, budget: Budget)
    requires i <= |keys| && budget.visits + (|keys| - i) <= CONSUMER_REFRESH_MAX
    requires forall j :: 0 <= j < |drop| ==> drop[j] !in seen
    ensures var r := PruneKeys(keys, i, seen, drop, budget);
            && (forall j :: 0 <= j < |r.drop| ==> r.drop[j] !in seen) && r.budget.bytes == budget.bytes
            && (r.visited < |keys| ==> Spent(r.budget))
            && (r.visited == |keys| ==> r.budget.visits == budget.visits + (|keys| - i))
            && (budget.fuel > |keys| - i && budget.bytes < HOST_BRIDGE_MAX_BYTES ==>
                  r.visited == |keys| && r.budget.fuel == budget.fuel - (|keys| - i))
    decreases |keys| - i
  {
    if i < |keys| {
      var (ok, b) := Take(budget);
      if ok { PruneDropsUnseen(keys, i + 1, seen, if keys[i] in seen then drop else drop + [keys[i]], b); }
    }
  }

  /** Pruning after a whole round keeps every subscriber, and spends the turn unless the consumers leave visits over. */
  lemma PruneSpends(h: Hub, registry: Registry, budget: Budget)
    requires h.bridge.needPrune && h.bridge.pruneAfter.None? && Subscribers(registry) <= h.bridge.refreshSeen
    requires Subscribers(registry) <= h.bridge.table.consumers.Keys
    requires budget.visits < CONSUMER_REFRESH_MAX && budget.bytes < HOST_BRIDGE_MAX_BYTES
    ensures var (h', b) := PrunePass(h, budget);
            var n := |h.bridge.table.consumers|;
            && Subscribers(registry) <= h'.bridge.table.consumers.Keys <= h.bridge.table.consumers.Keys
            && (budget.visits + n >= CONSUMER_REFRESH_MAX ==> Spent(b))
            && (budget.visits + n < CONSUMER_REFRESH_MAX && budget.fuel > CONSUMER_REFRESH_MAX ==>
                  b.visits < CONSUMER_REFRESH_MAX && b.bytes == budget.bytes && b.fuel >= budget.fuel - CONSUMER_REFRESH_MAX)
  {
    hide Page, PruneKeys, RemoveAll, Quiet;
    var bridge := h.bridge;
    var keysOf := bridge.table.consumers.Keys;
    var max := RemainingVisits(budget);
    var keys := Page(keysOf, None, max);
    PageProperties(keysOf, None, max);
    assert Beyond(keysOf, None) == keysOf && |keysOf| == |bridge.table.consumers|;
    PruneDropsUnseen(keys, 0, bridge.refreshSeen, [], budget);
    var drop := PruneKeys(keys, 0, bridge.refreshSeen, [], budget).drop;
    RemoveAllQuiet(bridge.table, drop);
    forall k | k in Subscribers(registry) ensures k !in drop {
    }
  }

  lemma PruneKeepsRound(h: Hub, budget: Budget)
    ensures var h' := PrunePass(h, budget).0;
            && h'.bridge.refreshAfter == h.bridge.refreshAfter && SameStarts(h.bridge, h'.bridge)
            && h'.bridge.needGapPass == h.bridge.needGapPass && h'.recovery == h.recovery && h'.bridge.fanout == h.bridge.fanout
  {
    hide Page, PruneKeys, RemoveAll;
  }

  // --------------------------------------------------------- other passes

  lemma {:induction false} FanoutKeysVisits(t: Table, keys: seq<int>, i: nat, job: Job, p: Projection, budget: Budget)
    requires i <= |keys|
    ensures FanoutKeys(t, keys, i, job, p, budget).budget.visits >= budget.visits
    decreases |keys| - i
  {
    hide OfferDelta;
    if i < |keys| {
      var (taken, budget1) := Take(budget);
      if taken {
        var (fits, budget2) := AddBytes(budget1, job.bytes);
        if fits {
          FanoutKeysVisits(OfferDelta(t, keys[i], job.change, p), keys, i + 1, job, p, budget2);
        }
      }
    }
  }

  lemma {:induction false} FanoutVisits(h: Hub, budget: Budget)
    ensures FanoutPass(h, budget).1.visits >= budget.visits
    decreases |h.bridge.fanout|
  {
    hide FanoutKeys, Page;
    var (spent, budget1) := Exhausted(budget);
    if !spent && h.bridge.fanout != [] {
      var job, max := h.bridge.fanout[0], RemainingVisits(budget1);
      FanoutKeysVisits(h.bridge.table, Page(h.bridge.table.consumers.Keys, job.after, max), 0, job, h.projection, budget1);
      var (h1, budget2, more) := FanoutFront(h, budget1);
      if !more {
        FanoutVisits(h1, budget2);
      }
    }
  }

  /** The gap and start passes only add visits, and leave the round alone. */
  lemma PassVisits(h: Hub, budget: Budget)
    ensures GapPass(h, budget).1.visits >= budget.visits && SameRound(h.bridge, GapPass(h, budget).0.bridge)
    ensures StartPass(h, budget).1.visits >= budget.visits && SameRound(h.bridge, StartPass(h, budget).0.bridge)
  {
    hide GapKeys, StartKeys, Page;
    var max := RemainingVisits(budget);
    GapKeysSpend(h.bridge.table, Page(h.bridge.table.consumers.Keys, h.bridge.gapAfter, max), 0, budget);
    if h.bridge.startSequence.Some? {
      StartKeysSpend(h.bridge.table, Page(h.bridge.table.consumers.Keys, h.bridge.startAfter, max), 0,
                     h.bridge.startSequence.value, budget);
    }
  }

  // ----------------------------------------------------- crowded registry

  /** A turn over a whole round's last page, up to its prune. */
  lemma {:induction false} LastPageTurn(h: Hub, registry: Registry, fuel: nat, h1: Hub, b1: Budget)
    requires (h1, b1) == RefreshPass(h, registry, Budget(0, 0, fuel)) && !Spent(b1)
    requires h1.bridge.refreshAfter.None? && h1.bridge.needPrune && h1.bridge.pruneAfter.None?
    requires Subscribers(registry) <= h1.bridge.refreshSeen && Subscribers(registry) <= h1.bridge.table.consumers.Keys
    requires b1.visits + |Subscribers(registry)| >= CONSUMER_REFRESH_MAX
    ensures var (h', b, spent) := BridgePasses(h, registry, fuel);
            spent && h'.bridge.refreshAfter.None? && Subscribers(registry) <= h'.bridge.table.consumers.Keys
  {
    hide RefreshPass, GapPass, StartPass, FanoutPass, PrunePass;
    var (spent1, b1') := Exhausted(b1);
    PassVisits(h1, b1');
    GapFramed(h1, b1');
    var (h2, b2) := GapPass(h1, b1');
    var (spent2, b2') := Exhausted(b2);
    PassVisits(h2, b2');
    StartFramed(h2, b2');
    var (h3, b3) := if spent2 then (h2, b2') else StartPass(h2, b2');
    var (spent3, b3') := Exhausted(b3);
    FanoutVisits(h3, b3');
    FanoutFramed(h3, b3');
    var (h4, b4) := if spent3 then (h3, b3') else FanoutPass(h3, b3');
    var (spent4, b4') := Exhausted(b4);
    if !spent4 {
      SubsetCount(Subscribers(registry), h4.bridge.table.consumers.Keys);
      PruneSpends(h4, registry, b4');
      PruneKeepsRound(h4, b4');
    }
  }

  lemma SubsetCount(a: set<int>, b: set<int>)
    requires a <= b
    ensures |a| <= |b|
  {
    assert b == a + (b - a);
  }

  lemma SpentTurn(h: Hub, registry: Registry, fuel: nat, h1: Hub, b1: Budget)
    requires (h1, b1) == RefreshPass(h, registry, Budget(0, 0, fuel)) && Spent(b1)
    ensures var (h', b, spent) := BridgePasses(h, registry, fuel); spent && h' == h1
  {
    hide RefreshPass, GapPass, StartPass, FanoutPass, PrunePass;
  }

  /** In a crowded registry a turn never reaches admission, whatever else is pending. */
  lemma CrowdedTurn(h: Hub, registry: Registry, fuel: nat)
    requires OnPageBoundary(h, registry) && SeenSoFar(h, registry) && !Roomy(registry)
    ensures var (h', b, spent) := BridgePasses(h, registry, fuel);
            spent && OnPageBoundary(h', registry) && SeenSoFar(h', registry)
  {
    hide RefreshPass, BridgePasses, Subscribers;
    RefreshMovesCursor(h, registry, fuel);
    RefreshSees(h, registry, fuel);
    RefreshSpends(h, registry, fuel);
    LastPageIsLeast(h, registry);
    var (h1, b1) := RefreshPass(h, registry, Budget(0, 0, fuel));
    if Spent(b1) {
      SpentTurn(h, registry, fuel, h1, b1);
    } else {
      LastPageTurn(h, registry, fuel, h1, b1);
      assert registry.Keys == Beyond(registry.Keys, None);
    }
  }

  // ------------------------------------------------------- roomy registry

  /** Clock reads enough for one whole turn. */
  const AMPLE_FUEL := 32

  lemma IdlePasses(h: Hub, budget: Budget)
    requires !h.bridge.needGapPass && h.bridge.startSequence.None? && h.bridge.fanout == []
    ensures GapPass(h, budget) == (h, budget) && StartPass(h, budget) == (h, budget)
    ensures FanoutPass(h, budget) == (h, Exhausted(budget).1)
  {
  }

  /** With nothing pending, a turn is its refresh, five clock reads and its prune. */
  lemma IdleTurn(h: Hub, registry: map<int, seq<Handler>>, fuel: nat, h1: Hub, b1: Budget)
    requires (h1, b1) == RefreshPass(h, registry, Budget(0, 0, fuel))
    requires !h1.bridge.needGapPass && h1.bridge.startSequence.None? && h1.bridge.fanout == []
    ensures var (h', b, spent) := BridgePasses(h, registry, fuel);
            if Spent(b1) || b1.fuel < 5 then h' == h1 && spent
            else
              var (h5, b5) := PrunePass(h1, b1.(fuel := b1.fuel - 5));
              h' == h5 && (b, spent) == (Exhausted(b5).1, Exhausted(b5).0)
  {
    hide RefreshPass, GapPass, StartPass, FanoutPass, PrunePass;
    var c1 := Exhausted(b1).1;
    IdlePasses(h1, c1);
    var c2 := Exhausted(c1).1;
    IdlePasses(h1, c2);
    var c3 := Exhausted(c2).1;
    IdlePasses(h1, c3);
  }

  /** Every frame fits the byte budget of a whole turn. */
  lemma PeekedFits(h: Hub, k: int)
    requires Safe(h) && k in h.bridge.table.consumers
    ensures var p := Peek(h.bridge.table.consumers[k], h.projection.rows);
            p.Nothing? || p.TooLarge? || FrameBytes(p.frame) <= HOST_BRIDGE_MAX_BYTES
  {
    hide Coherent, Converging, FanoutExact, PassOrder, Shape, CourseOf, QueueBytes, PackFrom, ItemsAfter, ItemsBytes;
    var c := h.bridge.table.consumers[k];
    assert Sound(c, LogAt(h.bridge.table, k));
    HeadFits(c.pending);
    var items := ItemsAfter(h.projection.rows, c.after);
    if items != [] {
      FamilyChunks.PackIsGreedy(items, 0);
    }
  }

  lemma {:induction false} HeadFits(frames: seq<Frame>)
    requires QueueBytes(frames) <= FAMILY_QUEUE_MAX_BYTES
    ensures frames != [] ==> FrameBytes(frames[0]) <= FAMILY_QUEUE_MAX_BYTES
    decreases |frames|
  {
    if |frames| > 1 {
      HeadFits(frames[..|frames| - 1]);
    }
  }
}
