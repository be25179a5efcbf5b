/**
 Timers and local event queues of the capability runtime: a drain fires each
 due timer of one plugin once, in deadline order, or nothing at all, and no
 queue ever exceeds its capacity.
 */
module CapabilityTimers {
  import opened Ordered

  const U64_MAX := 0xFFFF_FFFF_FFFF_FFFF

  type u64 = n: int | 0 <= n <= U64_MAX

  function SaturatingAdd(a: u64, b: u64): u64 {
    if a + b > U64_MAX then U64_MAX else a + b
  }

  datatype Timer = Timer(plugin: int, nextFire: u64, interval: Option<u64>, sequence: nat)

  datatype Event =
    | Fired(timer: int, sequence: nat)
    | Opened(timer: int)
    | Released(timer: int)
    | Done(operation: int)
    | Backpressure

  /** A finished background operation on its way to its plugin's queue. */
  datatype Completion = Completion(plugin: int, operation: int)

  datatype Runtime = Runtime(
    timers: map<int, Timer>,
    queues: map<int, seq<Event>>,
    channel: seq<Completion>)

  /** The two queue bounds, which stay as they were configured. */
  datatype Capacity = Capacity(events: nat, operations: nat)

  function QueueOf(rt: Runtime, plugin: int): seq<Event> {
    if plugin in rt.queues then rt.queues[plugin] else []
  }

  function Push(rt: Runtime, plugin: int, event: Event): Runtime {
    rt.(queues := rt.queues[plugin := QueueOf(rt, plugin) + [event]])
  }

  predicate Room(rt: Runtime, plugin: int, additional: nat, cap: Capacity) {
    |QueueOf(rt, plugin)| + additional <= cap.events
  }

  // ------------------------------------------------------ open and cancel

  datatype Failure = InvalidRequest | ResourceNotFound | Backpressured

  datatype Outcome = Accepted | Rejected(failure: Failure)

  function AfterOpen(rt: Runtime, plugin: int, id: int, delay: u64, repeats: bool, now: u64, cap: Capacity)
    : (Runtime, Outcome)
  {
    if delay == 0 then (rt, Rejected(InvalidRequest))
    else if !Room(rt, plugin, 2, cap) then (rt, Rejected(Backpressured))
    else
      var timer := Timer(plugin, SaturatingAdd(now, delay), if repeats then Some(delay) else None, 0);
      (Push(Push(rt.(timers := rt.timers[id := timer]), plugin, Opened(id)), plugin, Done(id)), Accepted)
  }

  /** The timer leaves the table before anything is checked. */
  function AfterCancel(rt: Runtime, plugin: int, id: int, operation: int, cap: Capacity): (Runtime, Outcome) {
    if id !in rt.timers then (rt, Rejected(ResourceNotFound))
    else
      var rt1 := rt.(timers := rt.timers - {id});
      if rt.timers[id].plugin != plugin then (rt1, Rejected(ResourceNotFound))
      else if !Room(rt1, plugin, 2, cap) then (rt1, Rejected(Backpressured))
      else (Push(Push(rt1, plugin, Released(id)), plugin, Done(operation)), Accepted)
  }

  /** A cancel leaves the timers as they were if and only if the timer was not open, whatever it answers. */
  lemma CancelKeepsTimersIff(rt: Runtime, plugin: int, id: int, operation: int, cap: Capacity)
    ensures AfterCancel(rt, plugin, id, operation, cap).0.timers == rt.timers <==> id !in rt.timers
    ensures AfterCancel(rt, plugin, id, operation, cap).1.Accepted? <==>
              id in rt.timers && rt.timers[id].plugin == plugin && |QueueOf(rt, plugin)| + 2 <= cap.events
  {
  }

  // ----------------------------------------------------------- due timers

  predicate IsDue(timer: Timer, plugin: int, now: u64) {
    timer.plugin == plugin && timer.nextFire <= now
  }

  function DueTimers(timers: map<int, Timer>, plugin: int, now: u64): set<int> {
    set id | id in timers && IsDue(timers[id], plugin, now)
  }

  /** The firing order: by deadline, and by id within one deadline. */
  predicate Before(timers: map<int, Timer>, a: int, b: int)
    requires a in timers && b in timers
  {
    timers[a].nextFire < timers[b].nextFire || (timers[a].nextFire == timers[b].nextFire && a < b)
  }

  ghost predicate InFiringOrder(timers: map<int, Timer>, ids: seq<int>) {
    && (forall i :: 0 <= i < |ids| ==> ids[i] in timers)
    && (forall i, j :: 0 <= i < j < |ids| ==> Before(timers, ids[i], ids[j]))
  }

  /** Insert one id where the order wants it. */
  function Insert(timers: map<int, Timer>, ids: seq<int>, id: int): (r: seq<int>)
    requires id in timers && forall i :: 0 <= i < |ids| ==> ids[i] in timers
  {
    if ids == [] then [id]
    else if Before(timers, id, ids[0]) then [id] + ids
    else [ids[0]] + Insert(timers, ids[1..], id)
  }

  /** The due ids, sorted. */
  function FiringOrder(timers: map<int, Timer>, due: set<int>): (ids: seq<int>)
    requires forall id :: id in due ==> id in timers
    ensures forall i :: 0 <= i < |ids| ==> ids[i] in timers
    decreases |due|
  {
    if due == {} then []
    else
      var id := Least(due);
      var rest := FiringOrder(timers, due - {id});
      InsertMembers(timers, rest, id);
      Insert(timers, rest, id)
  }

  lemma {:induction false} InsertMembers(timers: map<int, Timer>, ids: seq<int>, id: int)
    requires id in timers && forall i :: 0 <= i < |ids| ==> ids[i] in timers
    ensures var r := Insert(timers, ids, id);
            && (forall i :: 0 <= i < |r| ==> r[i] in timers)
            && (forall x :: x in r <==> x in ids || x == id) && |r| == |ids| + 1
  {
    if ids != [] && !Before(timers, id, ids[0]) {
      InsertMembers(timers, ids[1..], id);
      assert ids == [ids[0]] + ids[1..];
    }
  }

  lemma {:induction false} InsertKeepsOrder(timers: map<int, Timer>, ids: seq<int>, id: int)
    requires InFiringOrder(timers, ids) && id in timers && id !in ids
    ensures InFiringOrder(timers, Insert(timers, ids, id))
  {
    if ids != [] && !Before(timers, id, ids[0]) {
      var rest := Insert(timers, ids[1..], id);
      InsertMembers(timers, ids[1..], id);
      InsertKeepsOrder(timers, ids[1..], id);
      forall j | 0 <= j < |rest| ensures Before(timers, ids[0], rest[j]) {
        assert rest[j] in rest;
        if rest[j] != id {
          var m :| 0 <= m < |ids[1..]| && ids[1..][m] == rest[j];
          assert Before(timers, ids[0], ids[m + 1]);
        }
      }
    }
  }

  /** The firing order lists every due timer once, by deadline and then by id. */
  lemma {:induction false} FiringOrderSorts(timers: map<int, Timer>, due: set<int>)
    requires forall id :: id in due ==> id in timers
    ensures var ids := FiringOrder(timers, due);
            InFiringOrder(timers, ids) && (forall id :: id in ids <==> id in due) && |ids| == |due|
    decreases |due|
  {
    if due != {} {
      var id := Least(due);
      var rest := FiringOrder(timers, due - {id});
      FiringOrderSorts(timers, due - {id});
      InsertMembers(timers, rest, id);
      InsertKeepsOrder(timers, rest, id);
    }
  }

  // ---------------------------------------------------------------- drain

  /** A timer after it fired: rearmed from now, or gone. */
  function FiredTimer(timer: Timer, now: u64): Option<Timer> {
    if timer.interval.Some?
    then Some(timer.(sequence := timer.sequence + 1, nextFire := SaturatingAdd(now, timer.interval.value)))
    else None
  }

  function Fire(rt: Runtime, id: int, plugin: int, now: u64): Runtime {
    if id !in rt.timers then rt
    else
      var timer := rt.timers[id];
      var after := FiredTimer(timer, now);
      Push(rt.(timers := if after.Some? then rt.timers[id := after.value] else rt.timers - {id}),
           plugin, Fired(id, timer.sequence + 1))
  }

  function FireAll(rt: Runtime, due: seq<int>, i: nat, plugin: int, now: u64): Runtime
    requires i <= |due|
    decreases |due| - i
  {
    if i == |due| then rt else FireAll(Fire(rt, due[i], plugin, now), due, i + 1, plugin, now)
  }

  /** `enqueue_due_timers`. */
  function EnqueueDue(rt: Runtime, plugin: int, now: u64, cap: Capacity): (Runtime, Outcome) {
    var due := DueTimers(rt.timers, plugin, now);
    if !Room(rt, plugin, |due|, cap) then (rt, Rejected(Backpressured))
    else (FireAll(rt, FiringOrder(rt.timers, due), 0, plugin, now), Accepted)
  }

  /** The events of a drain, one for each fired timer with its next sequence number. */
  function FiredEvents(timers: map<int, Timer>, ids: seq<int>): (events: seq<Event>)
    requires forall i :: 0 <= i < |ids| ==> ids[i] in timers
    ensures |events| == |ids|
    ensures forall i :: 0 <= i < |ids| ==> events[i] == Fired(ids[i], timers[ids[i]].sequence + 1)
  {
    if ids == [] then []
    else FiredEvents(timers, ids[..|ids| - 1]) + [Fired(ids[|ids| - 1], timers[ids[|ids| - 1]].sequence + 1)]
  }

  function TimerAt(timers: map<int, Timer>, id: int): Option<Timer> {
    if id in timers then Some(timers[id]) else None
  }

  /** Where the loop stands after its first `i` timers. */
  ghost predicate FiredSoFar(start: Runtime, rt: Runtime, due: seq<int>, i: nat, plugin: int, now: u64)
    requires i <= |due| && forall j :: 0 <= j < |due| ==> due[j] in start.timers
  {
    && rt.channel == start.channel
    && QueueOf(rt, plugin) == QueueOf(start, plugin) + FiredEvents(start.timers, due[..i])
    && (forall p :: p != plugin ==> QueueOf(rt, p) == QueueOf(start, p))
    && (forall id :: TimerAt(rt.timers, id)
                     == if id in due[..i] then FiredTimer(start.timers[id], now) else TimerAt(start.timers, id))
  }

  lemma FireEffect(rt: Runtime, id: int, plugin: int, now: u64, x: int)
    requires id in rt.timers
    ensures var rt' := Fire(rt, id, plugin, now);
            && TimerAt(rt'.timers, x) == (if x == id then FiredTimer(rt.timers[id], now) else TimerAt(rt.timers, x))
            && QueueOf(rt', x) == (if x == plugin then QueueOf(rt, x) + [Fired(id, rt.timers[id].sequence + 1)] else QueueOf(rt, x))
            && rt'.channel == rt.channel
  {
  }

  lemma FiredEventsSnoc(timers: map<int, Timer>, due: seq<int>, i: nat)
    requires i < |due| && forall j :: 0 <= j < |due| ==> due[j] in timers
    ensures FiredEvents(timers, due[..i + 1]) == FiredEvents(timers, due[..i]) + [Fired(due[i], timers[due[i]].sequence + 1)]
  {
    assert due[..i + 1][..i] == due[..i];
  }

  lemma FireStep(start: Runtime, rt: Runtime, due: seq<int>, i: nat, plugin: int, now: u64)
    requires i < |due| && (forall j :: 0 <= j < |due| ==> due[j] in start.timers)
    requires forall j, m :: 0 <= j < m < |due| ==> due[j] != due[m]
    requires FiredSoFar(start, rt, due, i, plugin, now)
    ensures FiredSoFar(start, Fire(rt, due[i], plugin, now), due, i + 1, plugin, now)
  {
    hide Fire, FiredTimer, QueueOf, FiredEvents;
    var id := due[i];
    var rt' := Fire(rt, id, plugin, now);
    assert id !in due[..i];
    assert TimerAt(rt.timers, id) == Some(start.timers[id]);
    assert due[..i + 1] == due[..i] + [id];
    FiredEventsSnoc(start.timers, due, i);
    FireEffect(rt, id, plugin, now, plugin);
    forall p | p != plugin ensures QueueOf(rt', p) == QueueOf(start, p) {
      FireEffect(rt, id, plugin, now, p);
    }
    forall x ensures TimerAt(rt'.timers, x)
      == if x in due[..i + 1] then FiredTimer(start.timers[x], now) else TimerAt(start.timers, x)
    {
      FireEffect(rt, id, plugin, now, x);
      assert TimerAt(rt.timers, x) == if x in due[..i] then FiredTimer(start.timers[x], now) else TimerAt(start.timers, x);
    }
  }

  lemma {:induction false} FireAllMeaning(start: Runtime, rt: Runtime, due: seq<int>, i: nat, plugin: int, now: u64)
    requires i <= |due| && (forall j :: 0 <= j < |due| ==> due[j] in start.timers)
    requires forall j, m :: 0 <= j < m < |due| ==> due[j] != due[m]
    requires FiredSoFar(start, rt, due, i, plugin, now)
    ensures FiredSoFar(start, FireAll(rt, due, i, plugin, now), due, |due|, plugin, now)
    decreases |due| - i
  {
    hide FiredSoFar, Fire;
    if i < |due| {
      FireStep(start, rt, due, i, plugin, now);
      FireAllMeaning(start, Fire(rt, due[i], plugin, now), due, i + 1, plugin, now);
    }
  }

  /**
   A drain is all or nothing: without room for every due event nothing
   changes; with room the queue gains exactly one event for each due timer, in
   firing order and with its next sequence number, each due timer is rearmed
   from now or removed, and no other timer and no other queue changes.
   */
  lemma DrainMeaning(rt: Runtime, plugin: int, now: u64, cap: Capacity)
    ensures var due := DueTimers(rt.timers, plugin, now);
            var ids := FiringOrder(rt.timers, due);
            var (rt', outcome) := EnqueueDue(rt, plugin, now, cap);
            && InFiringOrder(rt.timers, ids) && (forall id :: id in ids <==> id in due) && |ids| == |due|
            && (outcome.Accepted? <==> |QueueOf(rt, plugin)| + |due| <= cap.events)
            && (outcome.Rejected? ==> rt' == rt)
            && (outcome.Accepted? ==>
                  && QueueOf(rt', plugin) == QueueOf(rt, plugin) + FiredEvents(rt.timers, ids)
                  && (forall p :: p != plugin ==> QueueOf(rt', p) == QueueOf(rt, p))
                  && (forall id :: TimerAt(rt'.timers, id)
                                   == if id in due then FiredTimer(rt.timers[id], now) else TimerAt(rt.timers, id))
                  && rt'.channel == rt.channel)
  {
    var due := DueTimers(rt.timers, plugin, now);
    var ids := FiringOrder(rt.timers, due);
    FiringOrderSorts(rt.timers, due);
    forall i, j | 0 <= i < j < |ids| ensures ids[i] != ids[j] {
      assert Before(rt.timers, ids[i], ids[j]);
    }
    assert ids[..0] == [] && ids[..|ids|] == ids;
    assert FiredSoFar(rt, rt, ids, 0, plugin, now) by {
      assert FiredEvents(rt.timers, []) == [];
    }
    hide FiringOrder, FireAll;
    FireAllMeaning(rt, rt, ids, 0, plugin, now);
  }

  /** Every repeating timer repeats after at least one millisecond. */
  predicate Ticking(timers: map<int, Timer>) {
    forall id :: id in timers && timers[id].interval.Some? ==> timers[id].interval.value > 0
  }

  /** After an accepted drain none of the plugin's timers is due, unless the clock stands at its end and a due timer repeats. */
  lemma NothingLeftDueIff(rt: Runtime, plugin: int, now: u64, cap: Capacity)
    requires Ticking(rt.timers) && EnqueueDue(rt, plugin, now, cap).1.Accepted?
    ensures DueTimers(EnqueueDue(rt, plugin, now, cap).0.timers, plugin, now) == {}
            <==> (now < U64_MAX
                  || forall id :: id in DueTimers(rt.timers, plugin, now) ==> rt.timers[id].interval.None?)
  {
    DrainMeaning(rt, plugin, now, cap);
    var rt' := EnqueueDue(rt, plugin, now, cap).0;
    hide EnqueueDue;
    var due, due' := DueTimers(rt.timers, plugin, now), DueTimers(rt'.timers, plugin, now);
    forall id ensures id in due' <==> id in due && rt.timers[id].interval.Some? && now == U64_MAX {
      assert TimerAt(rt'.timers, id) == if id in due then FiredTimer(rt.timers[id], now) else TimerAt(rt.timers, id);
    }
    if due' != {} {
      EmptyOrInhabited(due');
    }
  }

  // ---------------------------------------------------------- completions

  /** `drain_worker_completions`: a completion leaves the channel before its queue is checked for room. */
  function DrainCompletions(rt: Runtime, cap: Capacity): (Runtime, Outcome)
    decreases |rt.channel|
  {
    if rt.channel == [] then (rt, Accepted)
    else
      var c := rt.channel[0];
      var rt1 := rt.(channel := rt.channel[1..]);
      if !Room(rt1, c.plugin, 1, cap) then (rt1, Rejected(Backpressured))
      else DrainCompletions(Push(rt1, c.plugin, Done(c.operation)), cap)
  }

  /** The completions of one plugin among the first `n`, as its queue would show them. */
  function DoneFor(channel: seq<Completion>, n: nat, plugin: int): seq<Event>
    requires n <= |channel|
  {
    if n == 0 then []
    else
      var c := channel[n - 1];
      DoneFor(channel, n - 1, plugin) + if c.plugin == plugin then [Done(c.operation)] else []
  }

  /** The first completions fit their queues one after another. */
  predicate FitsFirst(rt: Runtime, n: nat, cap: Capacity)
    requires n <= |rt.channel|
  {
    forall i :: 0 <= i < n ==>
      |QueueOf(rt, rt.channel[i].plugin)| + |DoneFor(rt.channel, i, rt.channel[i].plugin)| + 1 <= cap.events
  }

  lemma {:induction false} DoneForFront(channel: seq<Completion>, n: nat, plugin: int)
    requires 0 < n <= |channel|
    ensures DoneFor(channel, n, plugin)
            == (if channel[0].plugin == plugin then [Done(channel[0].operation)] else []) + DoneFor(channel[1..], n - 1, plugin)
  {
    if n > 1 {
      DoneForFront(channel, n - 1, plugin);
    }
  }

  /** The drain queued the first `n` completions in order, and lost the next one, if there is one. */
  ghost predicate DrainedTo(rt: Runtime, n: nat, rt': Runtime, outcome: Outcome, cap: Capacity) {
    && n <= |rt.channel| && FitsFirst(rt, n, cap) && rt'.timers == rt.timers
    && (forall p :: QueueOf(rt', p) == QueueOf(rt, p) + DoneFor(rt.channel, n, p))
    && (outcome.Accepted? <==> n == |rt.channel|)
    && (outcome.Accepted? ==> rt'.channel == [])
    && (outcome.Rejected? ==> rt'.channel == rt.channel[n + 1..] && !FitsFirst(rt, n + 1, cap))
  }

  /**
   The first completion without room is taken from the channel and lost; those
   before it are queued in order and those behind it stay in the channel. All
   are queued if and only if each finds room.
   */
  lemma {:induction false} DrainCompletionsMeaning(rt: Runtime, cap: Capacity) returns (n: nat)
    ensures DrainedTo(rt, n, DrainCompletions(rt, cap).0, DrainCompletions(rt, cap).1, cap)
    decreases |rt.channel|
  {
    hide DrainedTo, Push;
    n := 0;
    if rt.channel == [] {
      DrainedNone(rt, cap);
    } else {
      var c := rt.channel[0];
      var rt1 := rt.(channel := rt.channel[1..]);
      if Room(rt1, c.plugin, 1, cap) {
        var rt2 := Push(rt1, c.plugin, Done(c.operation));
        PushKeepsChannel(rt1, c.plugin, Done(c.operation));
        var m := DrainCompletionsMeaning(rt2, cap);
        n := m + 1;
        DrainedFromFront(rt, rt2, m, DrainCompletions(rt2, cap).0, DrainCompletions(rt2, cap).1, cap);
      } else {
        DrainedNone(rt, cap);
      }
    }
  }

  /** An empty channel, and a front completion without room. */
  lemma DrainedNone(rt: Runtime, cap: Capacity)
    requires rt.channel == [] || !Room(rt, rt.channel[0].plugin, 1, cap)
    ensures DrainedTo(rt, 0, rt.(channel := if rt.channel == [] then [] else rt.channel[1..]),
                      if rt.channel == [] then Accepted else Rejected(Backpressured), cap)
  {
  }

  lemma DrainedQueue(rt: Runtime, rt2: Runtime, m: nat, p: int)
    requires rt.channel != [] && m < |rt.channel|
    requires rt2 == Push(rt.(channel := rt.channel[1..]), rt.channel[0].plugin, Done(rt.channel[0].operation))
    ensures QueueOf(rt2, p) + DoneFor(rt2.channel, m, p) == QueueOf(rt, p) + DoneFor(rt.channel, m + 1, p)
  {
    DoneForFront(rt.channel, m + 1, p);
    var front := if rt.channel[0].plugin == p then [Done(rt.channel[0].operation)] else [];
    assert QueueOf(rt2, p) == QueueOf(rt, p) + front;
    assert (QueueOf(rt, p) + front) + DoneFor(rt2.channel, m, p) == QueueOf(rt, p) + (front + DoneFor(rt2.channel, m, p));
  }

  lemma DrainedFromFront(rt: Runtime, rt2: Runtime, m: nat, rt': Runtime, outcome: Outcome, cap: Capacity)
    requires rt.channel != [] && Room(rt, rt.channel[0].plugin, 1, cap)
    requires rt2 == Push(rt.(channel := rt.channel[1..]), rt.channel[0].plugin, Done(rt.channel[0].operation))
    requires DrainedTo(rt2, m, rt', outcome, cap)
    ensures DrainedTo(rt, m + 1, rt', outcome, cap)
  {
    hide DoneFor, FitsFirst, QueueOf;
    forall p ensures QueueOf(rt', p) == QueueOf(rt, p) + DoneFor(rt.channel, m + 1, p) {
      DrainedQueue(rt, rt2, m, p);
    }
    DrainedFront(rt, rt2, m, cap);
    if m < |rt2.channel| {
      DrainedFront(rt, rt2, m + 1, cap);
      assert rt.channel[1..][m + 1..] == rt.channel[m + 2..];
    }
  }

  lemma DrainedFront(rt: Runtime, rt2: Runtime, m: nat, cap: Capacity)
    requires rt.channel != [] && Room(rt, rt.channel[0].plugin, 1, cap) && m <= |rt.channel| - 1
    requires rt2 == Push(rt.(channel := rt.channel[1..]), rt.channel[0].plugin, Done(rt.channel[0].operation))
    ensures FitsFirst(rt, m + 1, cap) <==> FitsFirst(rt2, m, cap)
  {
    forall i | 0 <= i < m
      ensures |QueueOf(rt, rt.channel[i + 1].plugin)| + |DoneFor(rt.channel, i + 1, rt.channel[i + 1].plugin)|
           == |QueueOf(rt2, rt2.channel[i].plugin)| + |DoneFor(rt2.channel, i, rt2.channel[i].plugin)|
    {
      DoneForFront(rt.channel, i + 1, rt.channel[i + 1].plugin);
    }
    if FitsFirst(rt2, m, cap) {
      forall i | 0 <= i < m + 1
        ensures |QueueOf(rt, rt.channel[i].plugin)| + |DoneFor(rt.channel, i, rt.channel[i].plugin)| + 1 <= cap.events
      {
        if i > 0 {
          assert rt2.channel[i - 1] == rt.channel[i];
        }
      }
    }
    if FitsFirst(rt, m + 1, cap) {
      forall i | 0 <= i < m
        ensures |QueueOf(rt2, rt2.channel[i].plugin)| + |DoneFor(rt2.channel, i, rt2.channel[i].plugin)| + 1 <= cap.events
      {
        assert rt2.channel[i] == rt.channel[i + 1];
      }
    }
  }

  // ----------------------------------------------------------------- runs

  /** `ensure_runtime_capacity` before a submission. */
  function CheckCapacity(rt: Runtime, plugin: int, cap: Capacity): (Runtime, Outcome) {
    var (rt1, drained) := DrainCompletions(rt, cap);
    if drained.Rejected? then (rt1, drained)
    else
      var n := |QueueOf(rt1, plugin)|;
      if n < cap.operations then (rt1, Accepted)
      else (if n < cap.events then Push(rt1, plugin, Backpressure) else rt1, Rejected(Backpressured))
  }

  function TakeEvents(rt: Runtime, plugin: int, cap: Capacity): (Runtime, seq<Event>, Outcome) {
    var (rt1, drained) := DrainCompletions(rt, cap);
    if drained.Rejected? then (rt1, [], drained)
    else (rt1.(queues := rt1.queues - {plugin}), QueueOf(rt1, plugin), Accepted)
  }

  function OwnTimers(timers: map<int, Timer>, plugin: int): set<int> {
    set id | id in timers && timers[id].plugin == plugin
  }

  /** `cleanup_plugin`: the plugin's timers and its queue go; what waits in the channel stays. */
  function AfterCleanup(rt: Runtime, plugin: int): Runtime {
    rt.(timers := rt.timers - OwnTimers(rt.timers, plugin), queues := rt.queues - {plugin})
  }

  datatype Step =
    | Open(plugin: int, id: int, delay: u64, repeats: bool, now: u64)
    | Cancel(plugin: int, id: int, operation: int)
    | Tick(plugin: int, now: u64)
    | Arrive(completion: Completion)
    | Check(plugin: int)
    | Take(plugin: int)
    | Cleanup(plugin: int)

  function Next(rt: Runtime, step: Step, cap: Capacity): Runtime {
    match step
    case Open(plugin, id, delay, repeats, now) => AfterOpen(rt, plugin, id, delay, repeats, now, cap).0
    case Cancel(plugin, id, operation) => AfterCancel(rt, plugin, id, operation, cap).0
    case Tick(plugin, now) => EnqueueDue(rt, plugin, now, cap).0
    case Arrive(completion) => rt.(channel := rt.channel + [completion])
    case Check(plugin) => CheckCapacity(rt, plugin, cap).0
    case Take(plugin) => TakeEvents(rt, plugin, cap).0
    case Cleanup(plugin) => AfterCleanup(rt, plugin)
  }

  ghost predicate Bounded(rt: Runtime, cap: Capacity) {
    Ticking(rt.timers) && forall p :: |QueueOf(rt, p)| <= cap.events
  }

  lemma {:induction false} DrainKeepsBounded(rt: Runtime, cap: Capacity)
    requires Bounded(rt, cap)
    ensures Bounded(DrainCompletions(rt, cap).0, cap)
    decreases |rt.channel|
  {
    if rt.channel != [] {
      var c := rt.channel[0];
      var rt1 := rt.(channel := rt.channel[1..]);
      forall p ensures |QueueOf(rt1, p)| <= cap.events { assert |QueueOf(rt, p)| <= cap.events; }
      if Room(rt1, c.plugin, 1, cap) {
        PushKeepsBounded(rt1, c.plugin, Done(c.operation), cap);
        DrainKeepsBounded(Push(rt1, c.plugin, Done(c.operation)), cap);
      }
    }
  }

  lemma PushKeepsBounded(rt: Runtime, plugin: int, event: Event, cap: Capacity)
    requires Bounded(rt, cap) && Room(rt, plugin, 1, cap)
    ensures Bounded(Push(rt, plugin, event), cap)
  {
    var rt' := Push(rt, plugin, event);
    forall p ensures |QueueOf(rt', p)| <= cap.events { assert |QueueOf(rt, p)| <= cap.events; }
  }

  lemma PushTwoKeepsBounded(rt: Runtime, rt': Runtime, plugin: int, a: Event, b: Event, cap: Capacity)
    requires Bounded(rt, cap) && Room(rt, plugin, 2, cap) && Ticking(rt'.timers) && rt'.queues == rt.queues
    ensures Bounded(Push(Push(rt', plugin, a), plugin, b), cap)
  {
    forall p ensures |QueueOf(rt', p)| <= cap.events { assert |QueueOf(rt, p)| <= cap.events; }
    PushKeepsBounded(rt', plugin, a, cap);
    PushKeepsBounded(Push(rt', plugin, a), plugin, b, cap);
  }

  lemma TickKeepsBounded(rt: Runtime, plugin: int, now: u64, cap: Capacity)
    requires Bounded(rt, cap)
    ensures Bounded(EnqueueDue(rt, plugin, now, cap).0, cap)
  {
    DrainMeaning(rt, plugin, now, cap);
    var (rt', outcome) := EnqueueDue(rt, plugin, now, cap);
    hide EnqueueDue, FiringOrder;
    if outcome.Accepted? {
      forall p ensures |QueueOf(rt', p)| <= cap.events { assert |QueueOf(rt, p)| <= cap.events; }
      forall id | id in rt'.timers && rt'.timers[id].interval.Some? ensures rt'.timers[id].interval.value > 0 {
        assert TimerAt(rt'.timers, id).Some?;
      }
    }
  }

  lemma StepKeepsBounded(rt: Runtime, step: Step, cap: Capacity)
    requires Bounded(rt, cap)
    ensures Bounded(Next(rt, step, cap), cap)
  {
    match step
    case Open(plugin, id, delay, repeats, now) =>
      if delay != 0 && Room(rt, plugin, 2, cap) {
        var timer := Timer(plugin, SaturatingAdd(now, delay), if repeats then Some(delay) else None, 0);
        PushTwoKeepsBounded(rt, rt.(timers := rt.timers[id := timer]), plugin, Opened(id), Done(id), cap);
      }
    case Cancel(plugin, id, operation) =>
      var rt1 := rt.(timers := rt.timers - {id});
      forall p ensures |QueueOf(rt1, p)| <= cap.events { assert |QueueOf(rt, p)| <= cap.events; }
      if Room(rt, plugin, 2, cap) {
        PushTwoKeepsBounded(rt, rt1, plugin, Released(id), Done(operation), cap);
      }
    case Tick(plugin, now) =>
      TickKeepsBounded(rt, plugin, now, cap);
    case Arrive(completion) =>
      forall p ensures |QueueOf(Next(rt, step, cap), p)| <= cap.events { assert |QueueOf(rt, p)| <= cap.events; }
    case Check(plugin) =>
      DrainKeepsBounded(rt, cap);
      var rt1 := DrainCompletions(rt, cap).0;
      if Room(rt1, plugin, 1, cap) {
        PushKeepsBounded(rt1, plugin, Backpressure, cap);
      }
    case Take(plugin) =>
      DrainKeepsBounded(rt, cap);
      var rt1 := DrainCompletions(rt, cap).0;
      forall p ensures |QueueOf(Next(rt, step, cap), p)| <= cap.events { assert |QueueOf(rt1, p)| <= cap.events; }
    case Cleanup(plugin) =>
      forall p ensures |QueueOf(Next(rt, step, cap), p)| <= cap.events { assert |QueueOf(rt, p)| <= cap.events; }
  }

  ghost predicate IsRun(states: seq<Runtime>, steps: seq<Step>, cap: Capacity) {
    && |states| == |steps| + 1 && states[0] == Runtime(map[], map[], [])
    && (forall i :: 0 <= i < |steps| ==> states[i + 1] == Next(states[i], steps[i], cap))
  }

  /** In every state of every run each queue is within its capacity, and every repeating timer has a real interval. */
  lemma {:induction false} QueuesStayBounded(states: seq<Runtime>, steps: seq<Step>, cap: Capacity, i: nat)
    requires IsRun(states, steps, cap) && i < |states|
    ensures Bounded(states[i], cap)
  {
    if i > 0 {
      QueuesStayBounded(states, steps, cap, i - 1);
      StepKeepsBounded(states[i - 1], steps[i - 1], cap);
    }
  }

  // -------------------------------------------------------------- cleanup

  /** Nothing of a plugin is left: no timer, no event, and no completion on its way. */
  ghost predicate Gone(rt: Runtime, plugin: int) {
    && OwnTimers(rt.timers, plugin) == {} && QueueOf(rt, plugin) == []
    && (forall i :: 0 <= i < |rt.channel| ==> rt.channel[i].plugin != plugin)
  }

  /** Whether a step could bring a plugin something new. */
  predicate Serves(step: Step, plugin: int) {
    match step
    case Open(p, _, _, _, _) => p == plugin
    case Check(p) => p == plugin
    case Arrive(completion) => completion.plugin == plugin
    case _ => false
  }

  lemma {:induction false} DrainKeepsGone(rt: Runtime, plugin: int, cap: Capacity)
    requires Gone(rt, plugin)
    ensures Gone(DrainCompletions(rt, cap).0, plugin)
    decreases |rt.channel|
  {
    if rt.channel != [] {
      var c := rt.channel[0];
      var rt1 := rt.(channel := rt.channel[1..]);
      if Room(rt1, c.plugin, 1, cap) {
        DrainKeepsGone(Push(rt1, c.plugin, Done(c.operation)), plugin, cap);
      }
    }
  }

  lemma TickKeepsGone(rt: Runtime, p: int, now: u64, plugin: int, cap: Capacity)
    requires Gone(rt, plugin)
    ensures Gone(EnqueueDue(rt, p, now, cap).0, plugin)
  {
    DrainMeaning(rt, p, now, cap);
    var (rt', outcome) := EnqueueDue(rt, p, now, cap);
    hide EnqueueDue, FiringOrder;
    if outcome.Accepted? {
      forall id | id in rt'.timers ensures rt'.timers[id].plugin != plugin {
        assert TimerAt(rt'.timers, id).Some?;
        assert id in rt.timers && id !in OwnTimers(rt.timers, plugin);
      }
      if p == plugin {
        DueAreOwn(rt.timers, plugin, now);
      }
    }
  }

  lemma DueAreOwn(timers: map<int, Timer>, plugin: int, now: u64)
    ensures DueTimers(timers, plugin, now) <= OwnTimers(timers, plugin)
  {
    forall id | id in DueTimers(timers, plugin, now) ensures id in OwnTimers(timers, plugin) {
      assert id in timers && IsDue(timers[id], plugin, now);
    }
  }

  lemma StepKeepsGone(rt: Runtime, step: Step, plugin: int, cap: Capacity)
    requires Gone(rt, plugin) && !Serves(step, plugin)
    ensures Gone(Next(rt, step, cap), plugin)
  {
    hide EnqueueDue, DrainCompletions;
    match step
    case Tick(p, now) => TickKeepsGone(rt, p, now, plugin, cap);
    case Check(_) => DrainKeepsGone(rt, plugin, cap);
    case Take(_) => DrainKeepsGone(rt, plugin, cap);
    case Cancel(p, id, _) =>
      assert id in rt.timers && rt.timers[id].plugin == plugin ==> id in OwnTimers(rt.timers, plugin);
    case _ =>
  }

  /** After a cleanup with no completion on its way, no timer or event of the plugin appears until something is done for it again. */
  lemma {:induction false} CleanedStaysGone(states: seq<Runtime>, steps: seq<Step>, cap: Capacity, i: nat, j: nat, plugin: int)
    requires IsRun(states, steps, cap) && i < j < |states| && steps[i] == Cleanup(plugin)
    requires forall m :: 0 <= m < |states[i].channel| ==> states[i].channel[m].plugin != plugin
    requires forall m :: i < m < j ==> !Serves(steps[m], plugin)
    ensures Gone(states[j], plugin)
    decreases j
  {
    hide Next, Gone, Serves;
    if j == i + 1 {
      CleanupLeavesNothing(states[i], plugin, cap);
    } else {
      CleanedStaysGone(states, steps, cap, i, j - 1, plugin);
      StepKeepsGone(states[j - 1], steps[j - 1], plugin, cap);
    }
    assert states[j - 1 + 1] == Next(states[j - 1], steps[j - 1], cap);
  }

  /** A cleanup takes all of a plugin and nothing of the others. */
  lemma CleanupLeavesNothing(rt: Runtime, plugin: int, cap: Capacity)
    ensures var rt' := Next(rt, Cleanup(plugin), cap);
            && OwnTimers(rt'.timers, plugin) == {} && QueueOf(rt', plugin) == [] && rt'.channel == rt.channel
            && (forall p :: p != plugin ==> QueueOf(rt', p) == QueueOf(rt, p) && OwnTimers(rt'.timers, p) == OwnTimers(rt.timers, p))
            && ((forall m :: 0 <= m < |rt.channel| ==> rt.channel[m].plugin != plugin) ==> Gone(rt', plugin))
  {
  }

  // ------------------------------------------------------ the runtime code

  class HubCapabilityRuntime {
    var timers: map<int, Timer>
    var pendingEvents: map<int, seq<Event>>
    var channel: seq<Completion>
    const capacity: Capacity

    ghost function View(): Runtime
      reads this
    {
      Runtime(timers, pendingEvents, channel)
    }

    constructor (capacity: Capacity)
      ensures View() == Runtime(map[], map[], []) && this.capacity == capacity
    {
      timers, pendingEvents, channel, this.capacity := map[], map[], [], capacity;
    }

    function LocalEvents(plugin: int): (events: seq<Event>)
      reads this
      ensures events == QueueOf(View(), plugin)
    {
      if plugin in pendingEvents then pendingEvents[plugin] else []
    }

    method PushLocalEvent(plugin: int, event: Event)
      modifies this`pendingEvents
      ensures View() == Push(old(View()), plugin, event)
    {
      pendingEvents := pendingEvents[plugin := LocalEvents(plugin) + [event]];
    }

    method OpenTimer(plugin: int, id: int, delay: u64, repeats: bool, now: u64) returns (outcome: Outcome)
      modifies this
      ensures (View(), outcome) == AfterOpen(old(View()), plugin, id, delay, repeats, now, capacity)
    {
      hide Push;
      if delay == 0 {
        return Rejected(InvalidRequest);
      }
      if |LocalEvents(plugin)| + 2 > capacity.events {
        return Rejected(Backpressured);
      }
      timers := timers[id := Timer(plugin, SaturatingAdd(now, delay), if repeats then Some(delay) else None, 0)];
      PushLocalEvent(plugin, Opened(id));
      PushLocalEvent(plugin, Done(id));
      return Accepted;
    }

    method CancelTimer(plugin: int, id: int, operation: int) returns (outcome: Outcome)
      modifies this
      ensures (View(), outcome) == AfterCancel(old(View()), plugin, id, operation, capacity)
    {
      hide Push;
      if id !in timers {
        return Rejected(ResourceNotFound);
      }
      var timer := timers[id];
      timers := timers - {id};
      if timer.plugin != plugin {
        return Rejected(ResourceNotFound);
      }
      if |LocalEvents(plugin)| + 2 > capacity.events {
        return Rejected(Backpressured);
      }
      PushLocalEvent(plugin, Released(id));
      PushLocalEvent(plugin, Done(operation));
      return Accepted;
    }

    method FireTimer(id: int, plugin: int, now: u64)
      modifies this
      ensures View() == Fire(old(View()), id, plugin, now)
    {
      if id in timers {
        var timer := timers[id];
        timer := timer.(sequence := timer.sequence + 1);
        if timer.interval.Some? {
          timers := timers[id := timer.(nextFire := SaturatingAdd(now, timer.interval.value))];
        } else {
          timers := timers - {id};
        }
        PushLocalEvent(plugin, Fired(id, timer.sequence));
      }
    }

    method EnqueueDueTimers(plugin: int, now: u64) returns (outcome: Outcome)
      modifies this
      ensures (View(), outcome) == EnqueueDue(old(View()), plugin, now, capacity)
    {
      hide Fire, FiringOrder;
      var due := DueTimers(timers, plugin, now);
      if |LocalEvents(plugin)| + |due| > capacity.events {
        return Rejected(Backpressured);
      }
      var ids := FiringOrder(timers, due);
      ghost var start := View();
      var i := 0;
      while i < |ids|
        invariant i <= |ids| && FireAll(View(), ids, i, plugin, now) == FireAll(start, ids, 0, plugin, now)
      {
        FireTimer(ids[i], plugin, now);
        i := i + 1;
      }
      return Accepted;
    }

    method DrainWorkerCompletions() returns (outcome: Outcome)
      modifies this
      ensures (View(), outcome) == DrainCompletions(old(View()), capacity)
    {
      hide Push, QueueOf;
      while channel != []
        invariant DrainCompletions(View(), capacity) == DrainCompletions(old(View()), capacity)
        decreases |channel|
      {
        var completion := channel[0];
        channel := channel[1..];
        if |LocalEvents(completion.plugin)| + 1 > capacity.events {
          return Rejected(Backpressured);
        }
        PushKeepsChannel(View(), completion.plugin, Done(completion.operation));
        PushLocalEvent(completion.plugin, Done(completion.operation));
      }
      return Accepted;
    }

    method EnsureRuntimeCapacity(plugin: int) returns (outcome: Outcome)
      modifies this
      ensures (View(), outcome) == CheckCapacity(old(View()), plugin, capacity)
    {
      hide DrainCompletions, Push, QueueOf;
      outcome := DrainWorkerCompletions();
      if outcome.Rejected? {
        return;
      }
      var n := |LocalEvents(plugin)|;
      if n >= capacity.operations {
        if n < capacity.events {
          PushLocalEvent(plugin, Backpressure);
        }
        return Rejected(Backpressured);
      }
    }

    method DrainLocalEvents(plugin: int) returns (events: seq<Event>, outcome: Outcome)
      modifies this
      ensures (View(), events, outcome) == TakeEvents(old(View()), plugin, capacity)
    {
      hide DrainCompletions;
      events := [];
      outcome := DrainWorkerCompletions();
      if outcome.Accepted? {
        events := LocalEvents(plugin);
        pendingEvents := pendingEvents - {plugin};
      }
    }

    method CleanupPlugin(plugin: int) returns (removed: seq<int>)
      modifies this
      ensures View() == AfterCleanup(old(View()), plugin)
      ensures forall id :: id in removed <==> id in OwnTimers(old(timers), plugin)
    {
      hide OwnTimers, Ascending;
      removed := Ascending(OwnTimers(timers, plugin));
      RemoveTimers(removed);
      assert (set id | id in removed) == OwnTimers(old(timers), plugin);
      pendingEvents := pendingEvents - {plugin};
    }

    method RemoveTimers(ids: seq<int>)
      modifies this`timers
      ensures timers == old(timers) - (set id | id in ids)
    {
      var i := 0;
      while i < |ids|
        invariant i <= |ids| && timers == old(timers) - (set id | id in ids[..i])
      {
        timers := timers - {ids[i]};
        assert ids[..i + 1] == ids[..i] + [ids[i]];
        i := i + 1;
      }
      assert ids[..i] == ids;
    }
  }

  lemma PushKeepsChannel(rt: Runtime, plugin: int, event: Event)
    ensures Push(rt, plugin, event).channel == rt.channel
  {
  }
}
