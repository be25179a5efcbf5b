/**
 The owner turn's allowance: whatever is pending, one host bridge slice visits
 at most eight plugins and consumers and moves at most its bytes.
 */
module FamilyBudget {
  import opened Ordered
  import opened SessionFamily

  predicate Within(b: Budget) {
    b.visits <= CONSUMER_REFRESH_MAX && b.bytes <= HOST_BRIDGE_MAX_BYTES
  }

  lemma {:induction false} TakeManyWithin(b: Budget, n: nat)
    requires Within(b)
    ensures Within(TakeMany(b, n))
    decreases n
  {
    if n > 0 && Take(b).0 {
      TakeManyWithin(Take(b).1, n - 1);
    }
  }

  lemma {:induction false} GapWithin(t: Table, keys: seq<int>, i: nat, b: Budget)
    requires i <= |keys| && Within(b)
    ensures Within(GapKeys(t, keys, i, b).budget)
    decreases |keys| - i
  {
    hide MarkGap;
    if i < |keys| && Take(b).0 {
      GapWithin(MarkGap(t, keys[i]), keys, i + 1, Take(b).1);
    }
  }

  lemma {:induction false} StartWithin(t: Table, keys: seq<int>, i: nat, sequence: u64, b: Budget)
    requires i <= |keys| && Within(b)
    ensures Within(StartKeys(t, keys, i, sequence, b).budget)
    decreases |keys| - i
  {
    hide BeginSnapshot;
    if i < |keys| && Take(b).0 {
      StartWithin(BeginSnapshot(t, keys[i], sequence), keys, i + 1, sequence, Take(b).1);
    }
  }

  lemma {:induction false} FanoutKeysWithin(t: Table, keys: seq<int>, i: nat, job: Job, p: Projection, b: Budget)
    requires i <= |keys| && Within(b)
    ensures Within(FanoutKeys(t, keys, i, job, p, b).budget)
    decreases |keys| - i
  {
    hide OfferDelta;
    if i < |keys| && Take(b).0 && AddBytes(Take(b).1, job.bytes).0 {
      FanoutKeysWithin(OfferDelta(t, keys[i], job.change, p), keys, i + 1, job, p, AddBytes(Take(b).1, job.bytes).1);
    }
  }

  lemma {:induction false} PruneWithin(keys: seq<int>, i: nat, seen: set<int>, drop: seq<int>, b: Budget)
    requires i <= |keys| && Within(b)
    ensures Within(PruneKeys(keys, i, seen, drop, b).budget)
    decreases |keys| - i
  {
    if i < |keys| && Take(b).0 {
      PruneWithin(keys, i + 1, seen, if keys[i] in seen then drop else drop + [keys[i]], Take(b).1);
    }
  }

  lemma FanoutFrontWithin(h: Hub, b: Budget)
    requires h.bridge.fanout != [] && Within(b)
    ensures Within(FanoutFront(h, b).1)
  {
    hide FanoutKeys, Page;
    var job := h.bridge.fanout[0];
    FanoutKeysWithin(h.bridge.table, Page(h.bridge.table.consumers.Keys, job.after, RemainingVisits(b)), 0, job, h.projection, b);
  }

  lemma {:induction false} FanoutWithin(h: Hub, b: Budget)
    requires Within(b)
    ensures Within(FanoutPass(h, b).1)
    decreases |h.bridge.fanout|
  {
    hide FanoutFront;
    var (spent, b1) := Exhausted(b);
    if !spent && h.bridge.fanout != [] {
      FanoutFrontWithin(h, b1);
      var (h', b2, more) := FanoutFront(h, b1);
      if !more {
        FanoutWithin(h', b2);
      }
    }
  }

  lemma PassesWithin(h: Hub, registry: map<int, seq<Handler>>, b: Budget)
    requires Within(b)
    ensures Within(RefreshPass(h, registry, b).1) && Within(GapPass(h, b).1) && Within(StartPass(h, b).1)
    ensures Within(PrunePass(h, b).1)
  {
    hide RegisterKeys, Page, TakeMany, Subscribed, GapKeys, StartKeys, PruneKeys, RemoveAll;
    var max, keys := RemainingVisits(b), h.bridge.table.consumers.Keys;
    TakeManyWithin(b, |Page(registry.Keys, h.bridge.refreshAfter, max)|);
    GapWithin(h.bridge.table, Page(keys, h.bridge.gapAfter, max), 0, b);
    if h.bridge.startSequence.Some? {
      StartWithin(h.bridge.table, Page(keys, h.bridge.startAfter, max), 0, h.bridge.startSequence.value, b);
    }
    PruneWithin(Page(keys, h.bridge.pruneAfter, max), 0, h.bridge.refreshSeen, [], b);
  }

  /** No owner turn exceeds its visits or its bytes, admission included. */
  lemma TurnStaysWithinBudget(h: Hub, input: BridgeInput)
    ensures var (h', b, spent) := BridgePasses(h, input.registry, input.fuel);
            Within(b) && Within(AdmitNext(h', b, input.outcome, input.epoch).1)
  {
    hide RefreshPass, GapPass, StartPass, FanoutPass, PrunePass, NextReady, Peek, FrameBytes, OfferFrame, MarkGap;
    var (h1, b1) := RefreshPass(h, input.registry, Budget(0, 0, input.fuel));
    PassesWithin(h, input.registry, Budget(0, 0, input.fuel));
    var (spent1, c1) := Exhausted(b1);
    PassesWithin(h1, input.registry, c1);
    var (h2, b2) := if spent1 then (h1, c1) else GapPass(h1, c1);
    var (spent2, c2) := Exhausted(b2);
    PassesWithin(h2, input.registry, c2);
    var (h3, b3) := if spent2 then (h2, c2) else StartPass(h2, c2);
    var (spent3, c3) := Exhausted(b3);
    FanoutWithin(h3, c3);
    var (h4, b4) := if spent3 then (h3, c3) else FanoutPass(h3, c3);
    var (spent4, c4) := Exhausted(b4);
    PassesWithin(h4, input.registry, c4);
  }
}
