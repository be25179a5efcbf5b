/**
 The stable-baseline mode of the process sampler: a set of processes watched
 before it is trusted, samples that must show exactly that set, and CPU time
 summed without wrap-around. Kernel answers are arbitrary; finite where the
 program loops until the kernel has no more.
 */
module StableSampler {
  import opened Ordered

  const U64_MAX := 0xFFFF_FFFF_FFFF_FFFF
  const PID_MAX := 0x7FFF_FFFF

  type u64 = n: int | 0 <= n <= U64_MAX

  /** What one read of a process shows. */
  datatype Row = Row(pid: int, start: nat, parent: int, exit: nat, user: u64, system: u64, reaped: int, rss: u64)

  datatype Watch = Watch(identity: Row, attempt: nat)

  datatype Timebase = Timebase(numer: nat, denom: nat)

  predicate Same(a: Row, b: Row) {
    a.pid == b.pid && a.start == b.start
  }

  // ------------------------------------------------------------ row lists

  ghost predicate Listed(rows: seq<Row>) {
    && (forall i :: 0 <= i < |rows| ==> 0 < rows[i].pid <= PID_MAX)
    && (forall i, j :: 0 <= i < j < |rows| ==> rows[i].pid != rows[j].pid)
  }

  /** The processes of a list, each by number and start time. */
  function Identities(rows: seq<Row>): set<(int, nat)> {
    if rows == [] then {} else Identities(rows[..|rows| - 1]) + {(rows[|rows| - 1].pid, rows[|rows| - 1].start)}
  }

  function Pids(rows: seq<Row>): set<int> {
    if rows == [] then {} else Pids(rows[..|rows| - 1]) + {rows[|rows| - 1].pid}
  }

  lemma {:induction false} InIdentities(rows: seq<Row>, x: (int, nat)) returns (i: nat)
    requires x in Identities(rows)
    ensures i < |rows| && x == (rows[i].pid, rows[i].start)
  {
    var n := |rows| - 1;
    if x == (rows[n].pid, rows[n].start) {
      i := n;
    } else {
      i := InIdentities(rows[..n], x);
    }
  }

  lemma {:induction false} IdentityIsIn(rows: seq<Row>, i: nat)
    requires i < |rows|
    ensures (rows[i].pid, rows[i].start) in Identities(rows) && rows[i].pid in Pids(rows)
  {
    if i < |rows| - 1 {
      IdentityIsIn(rows[..|rows| - 1], i);
    }
  }

  lemma {:induction false} PidsOfList(rows: seq<Row>, pid: int)
    requires pid in Pids(rows)
    ensures exists i :: 0 <= i < |rows| && rows[i].pid == pid
  {
    var n := |rows| - 1;
    if pid == rows[n].pid {
    } else {
      PidsOfList(rows[..n], pid);
      var i :| 0 <= i < n && rows[..n][i].pid == pid;
      assert rows[i].pid == pid;
    }
  }

  lemma {:induction false} IdentitiesCount(rows: seq<Row>)
    requires Listed(rows)
    ensures |Identities(rows)| == |rows| && |Pids(rows)| == |rows|
  {
    if rows != [] {
      var n := |rows| - 1;
      var init := rows[..n];
      IdentitiesCount(init);
      if rows[n].pid in Pids(init) {
        PidsOfList(init, rows[n].pid);
      }
      if (rows[n].pid, rows[n].start) in Identities(init) {
        var i := InIdentities(init, (rows[n].pid, rows[n].start));
      }
    }
  }

  /** The process numbers up to `n`. */
  function PidsUpTo(n: nat): (pids: set<int>)
    ensures forall x :: x in pids <==> 1 <= x <= n
    ensures |pids| == n
  {
    if n == 0 then {} else PidsUpTo(n - 1) + {n}
  }

  /** There are no more processes than process numbers. */
  lemma ListedIsBounded(rows: seq<Row>)
    requires Listed(rows)
    ensures |rows| <= PID_MAX
  {
    hide PidsUpTo;
    IdentitiesCount(rows);
    var all, pids := PidsUpTo(PID_MAX), Pids(rows);
    forall x | x in pids ensures x in all {
      PidsOfList(rows, x);
    }
    assert all == pids + (all - pids);
  }

  /** The match the program keeps: the last row of the same process. */
  function LastMatch(row: Row, rows: seq<Row>): Option<Row> {
    if rows == [] then None
    else if Same(row, rows[|rows| - 1]) then Some(rows[|rows| - 1])
    else LastMatch(row, rows[..|rows| - 1])
  }

  lemma {:induction false} LastMatchIsListed(row: Row, rows: seq<Row>)
    ensures var m := LastMatch(row, rows);
            m.Some? ==> Same(row, m.value) && exists i :: 0 <= i < |rows| && rows[i] == m.value
  {
    if rows != [] {
      LastMatchIsListed(row, rows[..|rows| - 1]);
      var m := LastMatch(row, rows);
      if m.Some? {
        if Same(row, rows[|rows| - 1]) {
          assert rows[|rows| - 1] == m.value;
        } else {
          var i :| 0 <= i < |rows| - 1 && rows[..|rows| - 1][i] == m.value;
          assert rows[i] == m.value;
        }
      }
    }
  }

  /** Set equality by counting: as many rows, and each expected process found, is the same set of processes. */
  lemma CountedSetsAreEqual(expected: seq<Row>, actual: seq<Row>)
    requires Listed(expected) && Listed(actual) && |expected| == |actual|
    requires forall i :: 0 <= i < |expected| ==> LastMatch(expected[i], actual).Some?
    ensures Identities(expected) == Identities(actual)
  {
    IdentitiesCount(expected);
    IdentitiesCount(actual);
    var e, a := Identities(expected), Identities(actual);
    forall x | x in e ensures x in a {
      var i := InIdentities(expected, x);
      LastMatchIsListed(expected[i], actual);
      var j :| 0 <= j < |actual| && actual[j] == LastMatch(expected[i], actual).value;
      IdentityIsIn(actual, j);
    }
    assert a == e + (a - e);
    assert |a - e| == 0;
  }

  // ----------------------------------------------------------- arithmetic

  /** The exact time of a number of ticks, rounded down. */
  function Nanoseconds(ticks: nat, base: Timebase): nat
    requires base.denom > 0
  {
    ticks * base.numer / base.denom
  }

  method TicksToNs(ticks: u64, base: Timebase) returns (ns: Option<u64>)
    ensures ns.Some? <==> base.numer > 0 && base.denom > 0 && Nanoseconds(ticks, base) <= U64_MAX
    ensures ns.Some? ==> ns.value == Nanoseconds(ticks, base)
  {
    if base.denom == 0 || base.numer == 0 {
      return None;
    }
    var value := ticks * base.numer / base.denom;
    if value > U64_MAX {
      return None;
    }
    return Some(value);
  }

  lemma ProductRises(a: nat, b: nat, n: nat)
    requires a <= b
    ensures a * n <= b * n
  {
  }

  lemma QuotientRises(p: nat, q: nat, d: nat)
    requires p * d < q * d + d
    ensures p <= q
  {
    if p > q {
      ProductRises(q + 1, p, d);
      assert false;
    }
  }

  lemma DivisionRises(a: nat, b: nat, d: nat)
    requires a <= b && d > 0
    ensures a / d <= b / d
  {
    assert a == a / d * d + a % d && b == b / d * d + b % d;
    QuotientRises(a / d, b / d, d);
  }

  lemma NanosecondsRise(a: nat, b: nat, base: Timebase)
    requires a <= b && base.denom > 0
    ensures Nanoseconds(a, base) <= Nanoseconds(b, base)
  {
    ProductRises(a, b, base.numer);
    DivisionRises(a * base.numer, b * base.numer, base.denom);
  }

  function RssSum(rows: seq<Row>): nat {
    if rows == [] then 0 else RssSum(rows[..|rows| - 1]) + rows[|rows| - 1].rss
  }

  lemma {:induction false} RssRises(rows: seq<Row>, n: nat)
    requires n <= |rows|
    ensures RssSum(rows[..n]) <= RssSum(rows)
    decreases |rows|
  {
    if n < |rows| {
      RssRises(rows[..|rows| - 1], n);
      assert rows[..|rows| - 1][..n] == rows[..n];
    } else {
      assert rows[..n] == rows;
    }
  }

  /** The resident sizes, added up unless the sum would wrap. */
  method StableRss(rows: seq<Row>) returns (sum: Option<u64>)
    ensures sum.Some? <==> RssSum(rows) <= U64_MAX
    ensures sum.Some? ==> sum.value == RssSum(rows)
  {
    var total: u64 := 0;
    var i := 0;
    while i < |rows|
      invariant i <= |rows| && total == RssSum(rows[..i])
    {
      assert rows[..i + 1][..i] == rows[..i];
      RssRises(rows, i + 1);
      if rows[i].rss > U64_MAX - total {
        return None;
      }
      total := total + rows[i].rss;
      i := i + 1;
    }
    assert rows[..i] == rows;
    return Some(total);
  }

  /** One process's own counters at both ends, when they can be compared. */
  predicate Comparable(row: Row, last: seq<Row>) {
    var end := LastMatch(row, last);
    end.Some? && end.value.user >= row.user && end.value.system >= row.system
  }

  function Delta(row: Row, last: seq<Row>): nat
    requires Comparable(row, last)
  {
    var end := LastMatch(row, last).value;
    (end.user - row.user) + (end.system - row.system)
  }

  function DeltaSum(first: seq<Row>, last: seq<Row>): nat
    requires forall i :: 0 <= i < |first| ==> Comparable(first[i], last)
  {
    if first == [] then 0 else DeltaSum(first[..|first| - 1], last) + Delta(first[|first| - 1], last)
  }

  lemma {:induction false} DeltasRise(first: seq<Row>, last: seq<Row>, n: nat)
    requires n <= |first| && forall i :: 0 <= i < |first| ==> Comparable(first[i], last)
    ensures DeltaSum(first[..n], last) <= DeltaSum(first, last)
    decreases |first|
  {
    if n < |first| {
      DeltasRise(first[..|first| - 1], last, n);
      assert first[..|first| - 1][..n] == first[..n];
    } else {
      assert first[..n] == first;
    }
  }

  predicate Measurable(first: seq<Row>, last: seq<Row>, base: Timebase) {
    && base.numer > 0 && base.denom > 0
    && (forall i :: 0 <= i < |first| ==> Comparable(first[i], last))
    && DeltaSum(first, last) <= U64_MAX && Nanoseconds(DeltaSum(first, last), base) <= U64_MAX
  }

  method FindLast(row: Row, rows: seq<Row>) returns (found: Option<Row>)
    ensures found == LastMatch(row, rows)
  {
    found := None;
    var j := 0;
    while j < |rows|
      invariant j <= |rows| && found == LastMatch(row, rows[..j])
    {
      assert rows[..j + 1][..j] == rows[..j];
      if Same(row, rows[j]) {
        found := Some(rows[j]);
      }
      j := j + 1;
    }
    assert rows[..j] == rows;
  }

  /** The CPU ticks of all processes between two samples, and their time; refused exactly when they cannot be exact. */
  method StableCpu(first: seq<Row>, last: seq<Row>, base: Timebase) returns (r: Option<(u64, u64)>)
    requires base.numer > 0 && base.denom > 0
    ensures r.Some? <==> Measurable(first, last, base)
    ensures r.Some? ==> r.value.0 == DeltaSum(first, last) && r.value.1 == Nanoseconds(DeltaSum(first, last), base)
  {
    var sum: u64 := 0;
    var i := 0;
    while i < |first|
      invariant i <= |first| && (forall j :: 0 <= j < i ==> Comparable(first[j], last))
      invariant sum == DeltaSum(first[..i], last)
    {
      var end := FindLast(first[i], last);
      if end.None? || end.value.user < first[i].user || end.value.system < first[i].system {
        assert !Comparable(first[i], last);
        return None;
      }
      var user: u64, system: u64 := end.value.user - first[i].user, end.value.system - first[i].system;
      assert first[..i + 1][..i] == first[..i];
      assert DeltaSum(first[..i + 1], last) == sum + user + system;
      if Measurable(first, last, base) {
        DeltasRise(first, last, i + 1);
        NanosecondsRise(user + system, DeltaSum(first, last), base);
      }
      if user > U64_MAX - system || user + system > U64_MAX - sum {
        return None;
      }
      var ns := TicksToNs(user + system, base);
      if ns.None? {
        return None;
      }
      sum := sum + (user + system);
      i := i + 1;
    }
    assert first[..i] == first;
    var ns := TicksToNs(sum, base);
    if ns.None? {
      return None;
    }
    return Some((sum, ns.value));
  }

  // ------------------------------------------------------------- baseline

  /** A process is watched, by a watch that some earlier attempt registered. */
  predicate WatchedBefore(watches: seq<Watch>, row: Row, attempt: nat) {
    exists i :: 0 <= i < |watches| && Same(row, watches[i].identity) && watches[i].attempt < attempt
  }

  ghost predicate AllWatchedBefore(watches: seq<Watch>, rows: seq<Row>, attempt: nat) {
    forall i :: 0 <= i < |rows| ==> WatchedBefore(watches, rows[i], attempt)
  }

  /** A failure is never taken back, and there is none before the start. */
  predicate FailureKept(before: bool, started: bool, after: bool) {
    (before ==> after) && (!started ==> after == before)
  }

  /** A participant is unchanged: same parent, still live, and no child reaped. */
  predicate Unchanged(row: Row, rows: seq<Row>) {
    var m := LastMatch(row, rows);
    m.Some? && m.value.parent == row.parent && m.value.exit == 0 && m.value.reaped == row.reaped
  }

  /** The sampler's flags and watches. `events` counts the lifecycle events drained since the start. */
  class StableBaseline {
    var invalid: bool
    var dirty: bool
    var started: bool
    var failed: bool
    var alreadyWatched: bool
    var attempt: nat
    var watches: seq<Watch>
    var rootStarts: map<int, nat>
    ghost var events: nat

    /** Once sampling has started, an event or a reported error is never forgotten. */
    ghost predicate Valid()
      reads this
    {
      && (events > 0 ==> started && failed)
      && (forall i :: 0 <= i < |watches| ==> watches[i].attempt <= attempt)
    }

    constructor ()
      ensures Valid() && !started && !failed && events == 0 && watches == []
    {
      invalid, dirty, started, failed, alreadyWatched := false, false, false, false, false;
      attempt, watches, rootStarts, events := 0, [], map[], 0;
    }

    method Report()
      requires Valid()
      modifies this`invalid, this`dirty, this`failed
      ensures Valid() && invalid && dirty && failed == (old(failed) || started)
    {
      invalid, dirty := true, true;
      if started {
        failed := true;
      }
    }

    /** Empties the event queue; true when the kernel then had none left. */
    method Drain() returns (ok: bool)
      requires Valid()
      modifies this`invalid, this`dirty, this`failed, this`events
      ensures Valid() && events >= old(events)
      ensures FailureKept(old(failed), started, failed) && (old(invalid) ==> invalid) && (old(dirty) ==> dirty)
      ensures started && (!ok || events > old(events)) ==> failed
      ensures !started ==> events == old(events)
    {
      var batches: seq<nat> := *;
      var error: bool := *;
      var i := 0;
      while i < |batches|
        invariant Valid() && events >= old(events)
        invariant FailureKept(old(failed), started, failed) && (old(dirty) ==> dirty) && invalid == old(invalid)
        invariant started && events > old(events) ==> failed
        invariant !started ==> events == old(events)
      {
        if batches[i] > 0 {
          dirty := true;
          if started {
            failed := true;
            events := events + batches[i];
          }
        }
        i := i + 1;
      }
      if error {
        Report();
        return false;
      }
      return true;
    }

    /** One read of a process, which may fail. */
    method ReadRow(pid: int) returns (row: Option<Row>)
      modifies this`invalid
      ensures old(invalid) ==> invalid
      ensures row.None? ==> invalid
      ensures row.Some? ==> row.value.pid == pid
    {
      var read: Row := *;
      var ok: bool := *;
      if !ok {
        invalid := true;
        return None;
      }
      return Some(read.(pid := pid));
    }

    /** Makes sure a process is watched; a new watch spoils the pass. */
    method WatchRow(row: Row) returns (ok: bool)
      requires Valid()
      modifies this`invalid, this`dirty, this`failed, this`alreadyWatched, this`watches
      ensures Valid()
      ensures FailureKept(old(failed), started, failed) && (old(invalid) ==> invalid)
      ensures alreadyWatched ==> old(alreadyWatched)
      ensures ok ==> old(watches) <= watches
      ensures ok && alreadyWatched ==> WatchedBefore(watches, row, attempt)
      ensures ok && started ==> watches == old(watches)
    {
      if row.exit != 0 {
        Report();
        return false;
      }
      var i := 0;
      while i < |watches|
        invariant i <= |watches|
      {
        if Same(row, watches[i].identity) {
          if watches[i].attempt >= attempt {
            alreadyWatched := false;
          }
          return true;
        }
        i := i + 1;
      }
      if started {
        Report();
        return false;
      }
      alreadyWatched := false;
      var registered: bool := *;
      if !registered {
        Report();
        return false;
      }
      var after := ReadRow(row.pid);
      if after.None? {
        return false;
      }
      if !Same(row, after.value) {
        invalid := true;
        return false;
      }
      var memory: bool := *;
      if !memory {
        invalid := true;
        watches := [];
        return false;
      }
      watches := watches + [Watch(after.value, attempt)];
      return true;
    }

    /** Adds a process to a list unless its number is there already. */
    method AppendRow(rows: seq<Row>, row: Row) returns (ok: bool, rows': seq<Row>)
      requires Valid() && Listed(rows) && 0 < row.pid <= PID_MAX
      modifies this`invalid, this`dirty, this`failed, this`alreadyWatched, this`watches
      ensures Valid()
      ensures FailureKept(old(failed), started, failed) && (old(invalid) ==> invalid)
      ensures alreadyWatched ==> old(alreadyWatched)
      ensures Listed(rows') && (ok ==> rows' == rows || rows' == rows + [row])
      ensures ok && !invalid ==> exists i :: 0 <= i < |rows'| && Same(rows'[i], row)
      ensures ok && started ==> watches == old(watches)
      ensures ok && alreadyWatched && AllWatchedBefore(old(watches), rows, attempt) ==>
                AllWatchedBefore(watches, rows', attempt)
    {
      rows' := rows;
      ok := WatchRow(row);
      if !ok {
        return;
      }
      if AllWatchedBefore(old(watches), rows, attempt) {
        StillWatched(old(watches), watches, rows, attempt);
      }
      var i := 0;
      while i < |rows|
        invariant i <= |rows| && forall j :: 0 <= j < i ==> rows[j].pid != row.pid
      {
        if rows[i].pid == row.pid {
          if !Same(rows[i], row) {
            invalid := true;
          }
          return;
        }
        i := i + 1;
      }
      var memory: bool := *;
      if !memory {
        invalid := true;
        return false, [];
      }
      rows' := rows + [row];
      assert Same(rows'[|rows|], row);
    }

    /** Reads one process and its children between two reads of itself; none when anything moved meanwhile. */
    method VisitRow(parent: Row) returns (after: Option<Row>, children: seq<Row>)
      requires Valid()
      modifies this`invalid, this`dirty, this`failed
      ensures Valid()
      ensures FailureKept(old(failed), started, failed) && (old(invalid) ==> invalid)
      ensures after.Some? ==> Same(parent, after.value)
      ensures after.Some? ==> forall i :: 0 <= i < |children| ==> 0 < children[i].pid <= PID_MAX
    {
      children := [];
      var before := ReadRow(parent.pid);
      if before.None? {
        return None, [];
      }
      if !Same(parent, before.value) {
        invalid := true;
        return None, [];
      }
      var pids: seq<int> := *;
      var listed: bool := *;
      if !listed {
        invalid := true;
        return None, [];
      }
      var i := 0;
      while i < |pids|
        invariant Valid() && i <= |pids| && FailureKept(old(failed), started, failed) && (old(invalid) ==> invalid)
        invariant forall j :: 0 <= j < |children| ==> 0 < children[j].pid <= PID_MAX
      {
        if pids[i] <= 0 || pids[i] > PID_MAX {
          return None, [];
        }
        var child := ReadRow(pids[i]);
        if child.None? {
          return None, [];
        }
        if child.value.parent != parent.pid || child.value.start < before.value.start {
          Report();
          return None, [];
        }
        children := children + [child.value];
        i := i + 1;
      }
      after := ReadRow(parent.pid);
      if after.Some? && !Same(parent, after.value) {
        invalid := true;
        after := None;
      }
    }

    /** Lists the roots, each still the process it was when first read. */
    method DiscoverRoots(roots: seq<int>) returns (ok: bool, rows: seq<Row>)
      requires Valid() && forall i :: 0 <= i < |roots| ==> 0 < roots[i] <= PID_MAX
      modifies this`invalid, this`dirty, this`failed, this`alreadyWatched, this`watches, this`rootStarts
      ensures Valid() && Listed(rows)
      ensures FailureKept(old(failed), started, failed) && (old(invalid) ==> invalid)
      ensures ok && started ==> watches == old(watches)
      ensures ok && alreadyWatched ==> AllWatchedBefore(watches, rows, attempt)
    {
      hide AllWatchedBefore;
      rows := [];
      NoneUnwatched(watches, attempt);
      var root := 0;
      while root < |roots|
        invariant Valid() && Listed(rows) && FailureKept(old(failed), started, failed) && (old(invalid) ==> invalid)
        invariant started ==> watches == old(watches)
        invariant alreadyWatched ==> AllWatchedBefore(watches, rows, attempt)
      {
        var row := ReadRow(roots[root]);
        if row.None? {
          return false, rows;
        }
        if roots[root] !in rootStarts {
          rootStarts := rootStarts[roots[root] := row.value.start];
        }
        if rootStarts[roots[root]] != row.value.start {
          Report();
          return false, rows;
        }
        ok, rows := AppendRow(rows, row.value);
        if !ok {
          return;
        }
        root := root + 1;
      }
      ok := true;
    }

    /** Walks the process trees of the roots, watching every process it lists. */
    method Discover(roots: seq<int>) returns (complete: bool, rows: seq<Row>)
      requires Valid() && forall i :: 0 <= i < |roots| ==> 0 < roots[i] <= PID_MAX
      modifies this`invalid, this`dirty, this`failed, this`alreadyWatched, this`watches, this`rootStarts
      ensures Valid() && Listed(rows)
      ensures FailureKept(old(failed), started, failed) && (old(invalid) ==> invalid)
      ensures complete ==> !invalid
      ensures complete && started ==> watches == old(watches)
      ensures complete && alreadyWatched ==> AllWatchedBefore(watches, rows, attempt)
    {
      hide AllWatchedBefore, Listed;
      var ok;
      ok, rows := DiscoverRoots(roots);
      if !ok {
        return false, rows;
      }
      var index := 0;
      ListedIsBounded(rows);
      while index < |rows|
        invariant Valid() && Listed(rows) && FailureKept(old(failed), started, failed) && (old(invalid) ==> invalid)
        invariant index <= |rows| <= PID_MAX
        invariant started ==> watches == old(watches)
        invariant alreadyWatched ==> AllWatchedBefore(watches, rows, attempt)
        decreases PID_MAX - index
      {
        var after, children := VisitRow(rows[index]);
        if after.None? {
          return false, rows;
        }
        ghost var before := rows;
        rows := rows[index := after.value];
        Replaced(watches, before, rows, index, attempt);
        ok, rows := AppendRows(rows, children);
        if !ok {
          return false, rows;
        }
        ListedIsBounded(rows);
        index := index + 1;
      }
      return !invalid, rows;
    }

    method AppendRows(rows: seq<Row>, children: seq<Row>) returns (ok: bool, rows': seq<Row>)
      requires Valid() && Listed(rows) && forall i :: 0 <= i < |children| ==> 0 < children[i].pid <= PID_MAX
      requires alreadyWatched ==> AllWatchedBefore(watches, rows, attempt)
      modifies this`invalid, this`dirty, this`failed, this`alreadyWatched, this`watches
      ensures Valid()
      ensures FailureKept(old(failed), started, failed) && (old(invalid) ==> invalid)
      ensures Listed(rows') && (ok ==> |rows'| >= |rows|)
      ensures ok && started ==> watches == old(watches)
      ensures ok && alreadyWatched ==> AllWatchedBefore(watches, rows', attempt)
    {
      rows' := rows;
      var i := 0;
      while i < |children|
        invariant Valid() && Listed(rows') && |rows'| >= |rows| && FailureKept(old(failed), started, failed) && (old(invalid) ==> invalid)
        invariant started ==> watches == old(watches)
        invariant alreadyWatched ==> AllWatchedBefore(watches, rows', attempt)
      {
        ok, rows' := AppendRow(rows', children[i]);
        if !ok {
          return;
        }
        i := i + 1;
      }
      ok := true;
    }

    /** Whether a sample shows the participants and nothing else, all unchanged. */
    method SameSet(expected: seq<Row>, actual: seq<Row>) returns (same: bool)
      requires Valid() && Listed(expected) && Listed(actual)
      modifies this`invalid, this`dirty, this`failed
      ensures Valid() && FailureKept(old(failed), started, failed) && (old(invalid) ==> invalid)
      ensures same <==> |expected| == |actual| && forall i :: 0 <= i < |expected| ==> Unchanged(expected[i], actual)
      ensures same ==> Identities(expected) == Identities(actual)
    {
      if |expected| != |actual| {
        Report();
        return false;
      }
      var i := 0;
      while i < |expected|
        invariant Valid() && failed == old(failed) && invalid == old(invalid)
        invariant i <= |expected| && forall j :: 0 <= j < i ==> Unchanged(expected[j], actual)
      {
        var found := FindLast(expected[i], actual);
        if found.None? || found.value.parent != expected[i].parent || found.value.exit != 0
           || found.value.reaped != expected[i].reaped {
          assert !Unchanged(expected[i], actual);
          Report();
          return false;
        }
        i := i + 1;
      }
      CountedSetsAreEqual(expected, actual);
      return true;
    }

    /** Repeats passes until one is complete, quiet and over processes watched before it. */
    method Setup(roots: seq<int>, attempts: nat) returns (ready: bool, participants: seq<Row>)
      requires Valid() && !started && !failed && watches == [] && events == 0
      requires forall i :: 0 <= i < |roots| ==> 0 < roots[i] <= PID_MAX
      modifies this
      ensures Valid() && !started && !failed && events == 0 && Listed(participants)
      ensures ready ==> !invalid && AllWatchedBefore(watches, participants, attempt)
    {
      ready, participants := false, [];
      attempt := 1;
      while attempt <= attempts
        invariant Valid() && !started && !failed && events == 0 && Listed(participants) && !ready
        decreases attempts + 1 - attempt
      {
        var drained := Drain();
        if !drained {
          return;
        }
        dirty, alreadyWatched, invalid := false, true, false;
        var complete;
        complete, participants := Discover(roots);
        drained := Drain();
        ready := complete && drained && !dirty && !invalid && alreadyWatched;
        if ready || !drained {
          return;
        }
        attempt := attempt + 1;
      }
    }

    /** Takes the samples; `kept` are the rows of each, the failure flag tells whether to trust them. */
    method TakeSamples(roots: seq<int>, samples: nat, participants: seq<Row>) returns (kept: seq<seq<Row>>)
      requires Valid() && started && Listed(participants) && forall i :: 0 <= i < |roots| ==> 0 < roots[i] <= PID_MAX
      requires events > 0 ==> failed
      modifies this
      ensures Valid() && started && |kept| <= samples
      ensures attempt == old(attempt) && (!failed ==> watches == old(watches))
      ensures old(invalid) ==> invalid
      ensures !failed ==> forall s :: 0 <= s < |kept| ==> Trusted(participants, kept[s])
      ensures !failed ==> events == 0
    {
      kept := [];
      while |kept| < samples
        invariant Valid() && started && |kept| <= samples && attempt == old(attempt)
        invariant (!failed ==> watches == old(watches)) && (old(invalid) ==> invalid)
        invariant !failed ==> forall s :: 0 <= s < |kept| ==> Trusted(participants, kept[s])
        decreases samples - |kept|
      {
        var drained := Drain();
        if !drained {
          return;
        }
        var complete, rows := Discover(roots);
        var same := false;
        if complete {
          same := SameSet(participants, rows);
        }
        var rss := StableRss(rows);
        if !same || rss.None? || invalid {
          failed := true;
        }
        kept := kept + [rows];
        var written: bool := *;
        if !written {
          failed := true;
          return;
        }
        if !complete || |kept| == samples {
          return;
        }
      }
    }

    /**
     A whole run. When it reports a valid interval: every participant was
     watched before the final setup pass, every sample showed exactly the
     participants, unchanged, no lifecycle event was drained after the start,
     and the ticks and time are the exact sum of the counters' differences.
     */
    method RunStable(roots: seq<int>, samples: nat, attempts: nat, base: Timebase)
      returns (valid: bool, ticks: u64, ns: u64, participants: seq<Row>, kept: seq<seq<Row>>)
      requires Valid() && !started && !failed && watches == [] && events == 0
      requires forall i :: 0 <= i < |roots| ==> 0 < roots[i] <= PID_MAX
      requires samples >= 2 && base.numer > 0 && base.denom > 0
      modifies this
      ensures Valid()
      ensures valid ==> started && !failed && !invalid && events == 0
      ensures valid ==> AllWatchedBefore(watches, participants, attempt)
      ensures valid ==> |kept| == samples && forall s :: 0 <= s < |kept| ==> Trusted(participants, kept[s])
      ensures valid ==> Measurable(kept[0], kept[samples - 1], base)
      ensures valid ==> ticks == DeltaSum(kept[0], kept[samples - 1]) && ns == Nanoseconds(ticks, base)
    {
      valid, ticks, ns, kept := false, 0, 0, [];
      var ready;
      ready, participants := Setup(roots, attempts);
      if !ready {
        Report();
        return;
      }
      var memory: bool := *;
      if !memory {
        invalid := true;
        return;
      }
      started := true;
      kept := TakeSamples(roots, samples, participants);
      if |kept| != samples || |kept[0]| != |participants| || |kept[samples - 1]| != |participants| {
        failed := true;
      }
      if !failed {
        var cpu := StableCpu(kept[0], kept[samples - 1], base);
        if cpu.None? {
          failed, invalid := true, true;
        } else {
          ticks, ns := cpu.value.0, cpu.value.1;
        }
      }
      var drained := Drain();
      if !drained || invalid {
        failed := true;
      }
      valid := !failed && !invalid && |kept| == samples;
    }
  }

  /** A sample that shows exactly the participants, each unchanged. */
  ghost predicate Trusted(participants: seq<Row>, rows: seq<Row>) {
    && Listed(rows) && Identities(rows) == Identities(participants) && RssSum(rows) <= U64_MAX
    && (forall i :: 0 <= i < |participants| ==> Unchanged(participants[i], rows))
  }

  lemma NoneUnwatched(watches: seq<Watch>, attempt: nat)
    ensures AllWatchedBefore(watches, [], attempt)
  {
  }

  lemma Replaced(watches: seq<Watch>, rows: seq<Row>, rows': seq<Row>, index: nat, attempt: nat)
    requires index < |rows| && Listed(rows) && |rows'| == |rows| && Same(rows[index], rows'[index])
    requires forall i :: 0 <= i < |rows| && i != index ==> rows'[i] == rows[i]
    ensures Listed(rows')
    ensures AllWatchedBefore(watches, rows, attempt) ==> AllWatchedBefore(watches, rows', attempt)
  {
    if AllWatchedBefore(watches, rows, attempt) {
      forall i | 0 <= i < |rows'| ensures WatchedBefore(watches, rows'[i], attempt) {
        assert WatchedBefore(watches, rows[i], attempt);
      }
    }
  }

  lemma StillWatched(watches: seq<Watch>, watches': seq<Watch>, rows: seq<Row>, attempt: nat)
    requires watches <= watches' && AllWatchedBefore(watches, rows, attempt)
    ensures AllWatchedBefore(watches', rows, attempt)
  {
    forall i | 0 <= i < |rows| ensures WatchedBefore(watches', rows[i], attempt) {
      assert WatchedBefore(watches, rows[i], attempt);
      var j :| 0 <= j < |watches| && Same(rows[i], watches[j].identity) && watches[j].attempt < attempt;
      assert watches'[j] == watches[j];
    }
  }
}
