/**
 The first-snapshot gate: it holds until every spawn the hub has answered is
 projected, and rereads the journal at most once for each recovery key.
 */
module SpawnGate {
  import opened Ordered

  type u64 = n: int | 0 <= n < 0x1_0000_0000_0000_0000

  datatype Cursor = Cursor(source: int, sequence: u64)

  /** A journal change that inserts or removes the row of a session, or is of a kind the projection skips. */
  datatype JournalChange =
    | Inserted(cursor: Cursor, id: int)
    | Dropped(cursor: Cursor, id: int)
    | Skipped(cursor: Cursor)

  /**
   The projection's and the journal's progress with the answered spawns. The
   last three fields are history: every answered spawn, every spawn retired
   because it was projected, and the keys of the journal rereads since the
   last recovery.
   */
  datatype Gate = Gate(
    rows: set<int>,
    cursor: Option<Cursor>,
    complete: bool,
    gap: bool,
    recovering: bool,
    pending: seq<JournalChange>,
    watermark: Option<Cursor>,
    confirmed: bool,
    acknowledged: set<int>,
    runtimeAcknowledged: set<int>,
    recoverAt: Option<Cursor>,
    answered: set<int>,
    retired: set<int>,
    rereads: seq<Cursor>)

  const EMPTY_GATE := Gate({}, None, false, false, false, [], None, false, {}, {}, None, {}, {}, [])

  // ---------------------------------------------------------- operations

  predicate Reaches(cursor: Option<Cursor>, watermark: Option<Cursor>) {
    && cursor.Some? && watermark.Some?
    && cursor.value.source == watermark.value.source && cursor.value.sequence >= watermark.value.sequence
  }

  /** `projection_caught_up`. */
  predicate CaughtUp(g: Gate) {
    && g.complete && !g.gap && !g.recovering && g.pending == []
    && Reaches(g.cursor, g.watermark) && g.confirmed && g.acknowledged <= g.rows
  }

  function Synced(g: Gate): Gate {
    g.(acknowledged := g.acknowledged + g.runtimeAcknowledged)
  }

  /** The gate with some awaited spawns retired. */
  function Without(g: Gate, ids: set<int>): Gate {
    g.(acknowledged := g.acknowledged - ids, runtimeAcknowledged := g.runtimeAcknowledged - ids, retired := g.retired + ids)
  }

  /** `retire_projected_spawn_acks`. */
  function Retired(g: Gate): Gate {
    Without(g, g.acknowledged * g.rows)
  }

  predicate AtWatermark(g: Gate) {
    g.confirmed || Reaches(g.cursor, g.watermark)
  }

  function RecoverKey(g: Gate): Option<Cursor> {
    if g.watermark.Some? then g.watermark
    else if g.cursor.Some? then Some(Cursor(g.cursor.value.source, 0))
    else None
  }

  function Rewound(cursor: Option<Cursor>): Option<Cursor> {
    if cursor.Some? then Some(Cursor(cursor.value.source, 0)) else None
  }

  /** `start_omitted_row_recover`: reread the journal once for this key. */
  function RecoverOmitted(g: Gate): Gate {
    var key := RecoverKey(g);
    if key.None? || g.recoverAt == key then g
    else g.(recoverAt := key, confirmed := false, rereads := g.rereads + [key.value], cursor := Rewound(g.cursor))
  }

  /** `refresh_projection_if_inventory_ahead`: the state the gate leaves, and its answer. */
  function Check(g: Gate): (Gate, bool) {
    var g1 := Retired(Synced(g));
    if !(g1.acknowledged <= g1.rows) && AtWatermark(g1) then (RecoverOmitted(g1), false) else (g1, CaughtUp(g1))
  }

  // ----------------------------------------------------------------- runs

  datatype Step =
    | Answer(id: int)
    | Mutate
    | Pull(changes: seq<JournalChange>, watermark: Cursor, next: Cursor, woke: bool)
    | Apply(n: nat)
    | BaselinePage(snapshot: Cursor, ids: set<int>, last: bool)
    | StartRecovery
    | StartPages
    | CheckGate

  function RowsAfterChange(rows: set<int>, change: JournalChange): set<int> {
    match change
    case Inserted(_, id) => rows + {id}
    case Dropped(_, id) => rows - {id}
    case Skipped(_) => rows
  }

  function ApplyFirst(g: Gate, n: nat): Gate
    decreases n
  {
    if n == 0 || g.pending == [] then g
    else
      ApplyFirst(g.(rows := RowsAfterChange(g.rows, g.pending[0]), cursor := Some(g.pending[0].cursor),
                    pending := g.pending[1..]), n - 1)
  }

  function Sealed(g: Gate, snapshot: Cursor): Gate {
    var g1 := g.(complete := true, gap := false, recovering := false, cursor := Some(snapshot));
    var g2 := Retired(Synced(g1)).(confirmed := false);
    if g2.acknowledged <= g2.rows then g2 else RecoverOmitted(g2)
  }

  function Next(g: Gate, step: Step): Gate {
    match step
    case Answer(id) => g.(acknowledged := g.acknowledged + {id}, runtimeAcknowledged := g.runtimeAcknowledged + {id},
                          answered := g.answered + {id})
    case Mutate => g.(confirmed := false)
    case Pull(changes, watermark, next, woke) =>
      g.(watermark := Some(watermark), confirmed := changes == [] && next == watermark && !woke,
         pending := g.pending + changes)
    case Apply(n) => if g.complete then Retired(ApplyFirst(g, n)) else g.(pending := [])
    case BaselinePage(snapshot, ids, last) =>
      var g1 := g.(rows := g.rows + ids);
      if last then Sealed(g1, snapshot) else g1
    case StartRecovery =>
      g.(rows := {}, cursor := None, complete := false, gap := true, recovering := false, pending := [],
         watermark := None, confirmed := false, recoverAt := None, rereads := [])
    case StartPages => g.(recovering := true)
    case CheckGate => Check(g).0
  }

  ghost predicate IsRun(gates: seq<Gate>, steps: seq<Step>) {
    && |gates| == |steps| + 1 && gates[0] == EMPTY_GATE
    && (forall i :: 0 <= i < |steps| ==> gates[i + 1] == Next(gates[i], steps[i]))
  }

  // ------------------------------------------------------ one-step effects

  lemma {:induction false} ApplyFirstEffect(g: Gate, n: nat)
    ensures var g' := ApplyFirst(g, n); g' == g.(rows := g'.rows, cursor := g'.cursor, pending := g'.pending)
    decreases n
  {
    if n > 0 && g.pending != [] {
      ApplyFirstEffect(g.(rows := RowsAfterChange(g.rows, g.pending[0]), cursor := Some(g.pending[0].cursor),
                          pending := g.pending[1..]), n - 1);
    }
  }

  /** A spawn leaves the awaited set only when the state that drops it projects it. */
  lemma StepAwaits(g: Gate, step: Step)
    ensures var g' := Next(g, step);
            && g.acknowledged - g'.rows <= g'.acknowledged
            && g'.retired - g.retired <= g'.rows && g.retired <= g'.retired
            && (g.answered <= g.acknowledged + g.retired ==> g'.answered <= g'.acknowledged + g'.retired)
  {
    if step.Apply? {
      ApplyFirstEffect(g, step.n);
    }
  }

  // ------------------------------------------------------------- theorems

  lemma {:induction false} AnsweredIsKept(gates: seq<Gate>, steps: seq<Step>, i: nat)
    requires IsRun(gates, steps) && i < |gates|
    ensures gates[i].answered <= gates[i].acknowledged + gates[i].retired
  {
    if i > 0 {
      AnsweredIsKept(gates, steps, i - 1);
      StepAwaits(gates[i - 1], steps[i - 1]);
    }
  }

  lemma {:induction false} RetiredWasProjected(gates: seq<Gate>, steps: seq<Step>, i: nat, id: int) returns (j: nat)
    requires IsRun(gates, steps) && i < |gates| && id in gates[i].retired
    ensures j <= i && id in gates[j].rows
  {
    StepAwaits(gates[i - 1], steps[i - 1]);
    if id in gates[i - 1].retired {
      j := RetiredWasProjected(gates, steps, i - 1, id);
    } else {
      j := i;
    }
  }

  /** In every run, an open gate means that each spawn answered so far is projected, or was projected earlier. */
  lemma OpenGateHasAnsweredSpawns(gates: seq<Gate>, steps: seq<Step>, i: nat, id: int) returns (j: nat)
    requires IsRun(gates, steps) && i < |gates| && Check(gates[i]).1
    requires id in gates[i].answered
    ensures j <= i && id in gates[j].rows
  {
    AnsweredIsKept(gates, steps, i);
    if id in gates[i].rows {
      j := i;
    } else {
      j := RetiredWasProjected(gates, steps, i, id);
    }
  }

  // ---------------------------------------------------- awaited, exactly

  /** The last of the first `n` pending changes that names a session: whether it inserts its row. */
  function LastNaming(pending: seq<JournalChange>, n: nat, id: int): Option<bool>
    requires n <= |pending|
  {
    if n == 0 then None
    else
      match pending[n - 1]
      case Inserted(_, x) => if x == id then Some(true) else LastNaming(pending, n - 1, id)
      case Dropped(_, x) => if x == id then Some(false) else LastNaming(pending, n - 1, id)
      case Skipped(_) => LastNaming(pending, n - 1, id)
  }

  lemma {:induction false} LastNamingFront(pending: seq<JournalChange>, n: nat, id: int)
    requires 0 < n <= |pending|
    ensures var rest := LastNaming(pending[1..], n - 1, id);
            LastNaming(pending, n, id) == if rest.Some? then rest else LastNaming(pending, 1, id)
  {
    if n > 1 {
      LastNamingFront(pending, n - 1, id);
    }
  }

  function Least(a: nat, b: nat): nat {
    if a <= b then a else b
  }

  /** A slice projects a session whose last applied change inserts it, or which it leaves alone and was projected. */
  lemma {:induction false} SliceRows(g: Gate, n: nat, id: int)
    ensures var naming := LastNaming(g.pending, Least(n, |g.pending|), id);
            id in ApplyFirst(g, n).rows <==> if naming.Some? then naming.value else id in g.rows
    decreases n
  {
    if n > 0 && g.pending != [] {
      var g1 := g.(rows := RowsAfterChange(g.rows, g.pending[0]), cursor := Some(g.pending[0].cursor), pending := g.pending[1..]);
      SliceRows(g1, n - 1, id);
      LastNamingFront(g.pending, Least(n, |g.pending|), id);
    }
  }

  /**
   What an apply slice leaves awaited: exactly the answered spawns whose last
   change in it removes their row, or which it does not name and which had no
   row. A session that comes and goes within one slice stays awaited.
   */
  lemma SliceLeavesAwaitedIff(g: Gate, n: nat, id: int)
    requires g.complete
    ensures var naming := LastNaming(g.pending, Least(n, |g.pending|), id);
            id in Next(g, Apply(n)).acknowledged
            <==> id in g.acknowledged && (naming == Some(false) || (naming.None? && id !in g.rows))
  {
    ApplyFirstEffect(g, n);
    SliceRows(g, n, id);
  }

  /** The steps that retire the answered spawns the state after them projects. */
  predicate Retires(g: Gate, step: Step) {
    (step.Apply? && g.complete) || (step.BaselinePage? && step.last) || step.CheckGate?
  }

  /** A step leaves a spawn awaited if and only if it answers it, or it was awaited and the step does not retire it. */
  lemma StepLeavesAwaitedIff(g: Gate, step: Step, id: int)
    requires g.runtimeAcknowledged <= g.acknowledged
    ensures var g' := Next(g, step);
            && g'.runtimeAcknowledged <= g'.acknowledged
            && (id in g'.acknowledged
                <==> step == Answer(id) || (id in g.acknowledged && !(Retires(g, step) && id in g'.rows)))
  {
    if step.Apply? {
      ApplyFirstEffect(g, step.n);
    }
  }

  lemma {:induction false} RuntimeIsAcknowledged(gates: seq<Gate>, steps: seq<Step>, i: nat)
    requires IsRun(gates, steps) && i < |gates|
    ensures gates[i].runtimeAcknowledged <= gates[i].acknowledged
  {
    if i > 0 {
      RuntimeIsAcknowledged(gates, steps, i - 1);
      StepLeavesAwaitedIff(gates[i - 1], steps[i - 1], 0);
    }
  }

  /** Over a run, a spawn not answered again is still awaited if and only if no retirement so far found it projected. */
  lemma {:induction false} StillAwaitedIff(gates: seq<Gate>, steps: seq<Step>, i: nat, j: nat, id: int)
    requires IsRun(gates, steps) && i <= j < |gates| && id in gates[i].acknowledged
    requires forall m :: i <= m < j ==> steps[m] != Answer(id)
    ensures id in gates[j].acknowledged
            <==> forall m :: i <= m < j && Retires(gates[m], steps[m]) ==> id !in gates[m + 1].rows
    decreases j
  {
    hide Next, Retires;
    if i < j {
      StillAwaitedIff(gates, steps, i, j - 1, id);
      RuntimeIsAcknowledged(gates, steps, j - 1);
      StepLeavesAwaitedIff(gates[j - 1], steps[j - 1], id);
      assert gates[j - 1 + 1] == Next(gates[j - 1], steps[j - 1]);
    }
  }

  /** The gate opens if and only if the journal is consumed and confirmed and every awaited spawn is projected. */
  lemma GateOpensIff(gates: seq<Gate>, steps: seq<Step>, i: nat)
    requires IsRun(gates, steps) && i < |gates|
    ensures var g := gates[i];
            Check(g).1
            <==> && g.complete && !g.gap && !g.recovering && g.pending == [] && g.confirmed
                 && Reaches(g.cursor, g.watermark) && g.acknowledged <= g.rows
  {
    RuntimeIsAcknowledged(gates, steps, i);
    var g := gates[i];
    var g1 := Retired(Synced(g));
    assert g1.acknowledged == g.acknowledged - g.rows;
    assert g1.acknowledged <= g1.rows <==> g1.acknowledged == {};
    assert g.acknowledged <= g.rows <==> g.acknowledged - g.rows == {};
  }

  /** So a spawn that no retirement finds projected, and that has no row now, shuts the gate however long the run is. */
  lemma UnprojectedSpawnShutsGate(gates: seq<Gate>, steps: seq<Step>, i: nat, j: nat, id: int)
    requires IsRun(gates, steps) && i <= j < |gates| && id in gates[i].acknowledged && id !in gates[j].rows
    requires forall m :: i <= m < j ==> steps[m] != Answer(id)
    requires forall m :: i <= m < j && Retires(gates[m], steps[m]) ==> id !in gates[m + 1].rows
    ensures !Check(gates[j]).1
  {
    hide IsRun, Next, Retires, Check;
    StillAwaitedIff(gates, steps, i, j, id);
    GateOpensIff(gates, steps, j);
  }

  /** A session answered, and then inserted and dropped by the two changes of one slice, after which the journal is quiet. */
  function GoneInOneSlice(id: int): seq<Step> {
    var first, second := Cursor(0, 1), Cursor(0, 2);
    [BaselinePage(Cursor(0, 0), {}, true), Answer(id), Pull([Inserted(first, id), Dropped(second, id)], second, second, false),
     Apply(16), Pull([], second, second, false)]
  }

  /** The gate after the first three steps. */
  function PulledGate(id: int): Gate {
    Gate({}, Some(Cursor(0, 0)), true, false, false, GoneInOneSlice(id)[2].changes, Some(Cursor(0, 2)), false,
         {id}, {id}, None, {id}, {}, [])
  }

  lemma PulledGateReached(id: int)
    ensures var steps := GoneInOneSlice(id);
            Next(Next(Next(EMPTY_GATE, steps[0]), steps[1]), steps[2]) == PulledGate(id)
  {
    var g1 := Next(EMPTY_GATE, GoneInOneSlice(id)[0]);
    assert g1 == EMPTY_GATE.(complete := true, cursor := Some(Cursor(0, 0)));
  }

  lemma SliceLeavesAnswered(id: int)
    ensures var g := Next(PulledGate(id), Apply(16));
            g.acknowledged == {id} && id !in g.rows && g.pending == [] && g.cursor == Some(Cursor(0, 2))
            && g.complete && !g.gap && !g.recovering && g.runtimeAcknowledged == {id}
  {
    var g := PulledGate(id);
    hide LastNaming, ApplyFirst, PulledGate;
    PulledIs(id);
    SliceRows(g, 16, id);
    ApplyFirstEffect(g, 16);
    ApplyTwo(g, 14);
  }

  lemma PulledIs(id: int)
    ensures var g := PulledGate(id);
            && g.complete && !g.gap && !g.recovering && |g.pending| == 2 && g.pending[1].cursor == Cursor(0, 2)
            && g.acknowledged == {id} && g.runtimeAcknowledged == {id} && LastNaming(g.pending, 2, id) == Some(false)
  {
  }

  /** The run of it ends caught up in every other respect, with the gate shut on that spawn. */
  lemma GoneInOneSliceShutsGate(id: int) returns (gates: seq<Gate>)
    ensures IsRun(gates, GoneInOneSlice(id))
    ensures var g := gates[5]; !Check(g).1 && CaughtUp(g.(acknowledged := {}))
  {
    var steps := GoneInOneSlice(id);
    var g1 := Next(EMPTY_GATE, steps[0]);
    var g2 := Next(g1, steps[1]);
    var g3, g4 := PulledGate(id), Next(PulledGate(id), Apply(16));
    PulledGateReached(id);
    SliceLeavesAnswered(id);
    var g5 := Next(g4, steps[4]);
    gates := [EMPTY_GATE, g1, g2, g3, g4, g5];
    QuietPullShuts(g4, id, steps[4]);
  }

  lemma QuietPullShuts(g: Gate, id: int, step: Step)
    requires g.acknowledged == {id} && id !in g.rows && g.pending == [] && g.cursor == Some(Cursor(0, 2))
    requires g.complete && !g.gap && !g.recovering && g.runtimeAcknowledged == {id}
    requires step == Pull([], Cursor(0, 2), Cursor(0, 2), false)
    ensures var g' := Next(g, step); !Check(g').1 && CaughtUp(g'.(acknowledged := {}))
  {
  }

  lemma ApplyTwo(g: Gate, n: nat)
    requires |g.pending| == 2
    ensures ApplyFirst(g, n + 2).pending == [] && ApplyFirst(g, n + 2).cursor == Some(g.pending[1].cursor)
  {
    var g1 := g.(rows := RowsAfterChange(g.rows, g.pending[0]), cursor := Some(g.pending[0].cursor), pending := g.pending[1..]);
    var g2 := g1.(rows := RowsAfterChange(g1.rows, g1.pending[0]), cursor := Some(g1.pending[0].cursor), pending := []);
    assert ApplyFirst(g, n + 2) == ApplyFirst(g1, n + 1);
    assert g1.pending[1..] == [];
    assert ApplyFirst(g1, n + 1) == ApplyFirst(g2, n);
  }

  // -------------------------------------------------------------- rereads

  /** The last reread is remembered, and no reread repeats the key just before it. */
  predicate RereadsTracked(g: Gate) {
    && g.recoverAt == (if g.rereads == [] then None else Some(g.rereads[|g.rereads| - 1]))
    && (forall i :: 0 < i < |g.rereads| ==> g.rereads[i] != g.rereads[i - 1])
  }

  lemma RecoverOmittedTracks(g: Gate)
    requires RereadsTracked(g)
    ensures RereadsTracked(RecoverOmitted(g))
  {
  }

  lemma StepTracksRereads(g: Gate, step: Step)
    requires RereadsTracked(g)
    ensures RereadsTracked(Next(g, step))
  {
    hide RecoverOmitted;
    match step
    case Apply(n) =>
      ApplyFirstEffect(g, n);
    case BaselinePage(snapshot, ids, last) =>
      var g1 := g.(rows := g.rows + ids, complete := true, gap := false, recovering := false, cursor := Some(snapshot));
      RecoverOmittedTracks(Retired(Synced(g1)).(confirmed := false));
    case CheckGate =>
      RecoverOmittedTracks(Retired(Synced(g)));
    case _ =>
  }

  lemma {:induction false} NoKeyRereadTwiceInARow(gates: seq<Gate>, steps: seq<Step>, i: nat)
    requires IsRun(gates, steps) && i < |gates|
    ensures RereadsTracked(gates[i])
  {
    if i > 0 {
      NoKeyRereadTwiceInARow(gates, steps, i - 1);
      StepTracksRereads(gates[i - 1], steps[i - 1]);
    }
  }

  /** One journal source whose watermark does not move back between recoveries. */
  predicate Monotone(g: Gate, step: Step, source: int) {
    match step
    case Pull(changes, watermark, _, _) =>
      && watermark.source == source && (g.watermark.Some? ==> g.watermark.value.sequence <= watermark.sequence)
      && (forall i :: 0 <= i < |changes| ==> changes[i].cursor.source == source)
    case BaselinePage(snapshot, _, _) => snapshot.source == source
    case _ => true
  }

  function KeyBound(g: Gate): u64 {
    if g.watermark.Some? then g.watermark.value.sequence else 0
  }

  /** The reread keys of one source rise, up to the present watermark. */
  predicate RereadsRise(g: Gate, source: int) {
    && (forall i :: 0 <= i < |g.rereads| ==> g.rereads[i].source == source && g.rereads[i].sequence <= KeyBound(g))
    && (forall i, j :: 0 <= i < j < |g.rereads| ==> g.rereads[i].sequence < g.rereads[j].sequence)
    && (g.cursor.Some? ==> g.cursor.value.source == source)
    && (g.watermark.Some? ==> g.watermark.value.source == source)
    && (forall i :: 0 <= i < |g.pending| ==> g.pending[i].cursor.source == source)
  }

  lemma {:induction false} ApplyFirstRises(g: Gate, n: nat, source: int)
    requires RereadsRise(g, source)
    ensures RereadsRise(ApplyFirst(g, n), source)
    decreases n
  {
    if n > 0 && g.pending != [] {
      ApplyFirstRises(g.(rows := RowsAfterChange(g.rows, g.pending[0]), cursor := Some(g.pending[0].cursor),
                         pending := g.pending[1..]), n - 1, source);
    }
  }

  lemma RecoverOmittedRises(g: Gate, source: int)
    requires RereadsTracked(g) && RereadsRise(g, source)
    ensures RereadsRise(RecoverOmitted(g), source)
  {
    var g' := RecoverOmitted(g);
    var n := |g.rereads|;
    if g'.rereads != g.rereads && n > 0 {
      assert g.rereads[n - 1] != g'.rereads[n];
      forall i | 0 <= i < n ensures g.rereads[i].sequence < g'.rereads[n].sequence {
        assert i < n - 1 ==> g.rereads[i].sequence < g.rereads[n - 1].sequence;
      }
    }
  }

  /** Only these fields matter to the rise of the rereads. */
  lemma RisesAlike(g: Gate, g': Gate, source: int)
    requires RereadsRise(g, source)
    requires g'.rereads == g.rereads && g'.watermark == g.watermark && g'.pending == g.pending
    requires g'.cursor == g.cursor || g'.cursor.None? || g'.cursor.value.source == source
    ensures RereadsRise(g', source)
  {
  }

  lemma PullRises(g: Gate, step: Step, source: int)
    requires step.Pull? && RereadsRise(g, source) && Monotone(g, step, source)
    ensures RereadsRise(Next(g, step), source)
  {
  }

  lemma StepRises(g: Gate, step: Step, source: int)
    requires RereadsTracked(g) && RereadsRise(g, source) && Monotone(g, step, source)
    ensures RereadsRise(Next(g, step), source)
  {
    match step
    case Pull(_, _, _, _) =>
      PullRises(g, step, source);
    case Apply(n) =>
      ApplySliceRises(g, n, source);
    case BaselinePage(snapshot, ids, last) =>
      SealRises(g.(rows := g.rows + ids), snapshot, source);
    case CheckGate =>
      CheckRises(g, source);
    case _ =>
      hide RereadsRise;
      if !step.StartRecovery? {
        RisesAlike(g, Next(g, step), source);
      } else {
        EmptyRises(Next(g, step), source);
      }
  }

  lemma EmptyRises(g: Gate, source: int)
    requires g.rereads == [] && g.watermark.None? && g.pending == [] && g.cursor.None?
    ensures RereadsRise(g, source)
  {
  }

  lemma ApplySliceRises(g: Gate, n: nat, source: int)
    requires RereadsRise(g, source)
    ensures RereadsRise(Next(g, Apply(n)), source)
  {
    if g.complete {
      ApplyFirstRises(g, n, source);
      hide RereadsRise, ApplyFirst;
      RisesAlike(ApplyFirst(g, n), Retired(ApplyFirst(g, n)), source);
    }
  }

  lemma SealRises(g: Gate, snapshot: Cursor, source: int)
    requires RereadsTracked(g) && RereadsRise(g, source) && snapshot.source == source
    ensures RereadsRise(Sealed(g, snapshot), source)
  {
    hide RereadsRise, RecoverOmitted;
    var g1 := g.(complete := true, gap := false, recovering := false, cursor := Some(snapshot));
    var g2 := Retired(Synced(g1)).(confirmed := false);
    RisesAlike(g, g2, source);
    RecoverOmittedRises(g2, source);
  }

  lemma CheckRises(g: Gate, source: int)
    requires RereadsTracked(g) && RereadsRise(g, source)
    ensures RereadsRise(Check(g).0, source)
  {
    hide RereadsRise, RecoverOmitted;
    var g1 := Retired(Synced(g));
    RisesAlike(g, g1, source);
    RecoverOmittedRises(g1, source);
  }

  lemma {:induction false} RunRises(gates: seq<Gate>, steps: seq<Step>, i: nat, source: int)
    requires IsRun(gates, steps) && i < |gates|
    requires forall m :: 0 <= m < |steps| ==> Monotone(gates[m], steps[m], source)
    ensures RereadsRise(gates[i], source)
  {
    if i > 0 {
      RunRises(gates, steps, i - 1, source);
      NoKeyRereadTwiceInARow(gates, steps, i - 1);
      StepRises(gates[i - 1], steps[i - 1], source);
    }
  }

  /** With a watermark that never moves back, the journal is reread at most once for each key between recoveries. */
  lemma EachKeyRereadOnce(gates: seq<Gate>, steps: seq<Step>, i: nat, source: int, a: nat, b: nat)
    requires IsRun(gates, steps) && i < |gates|
    requires forall m :: 0 <= m < |steps| ==> Monotone(gates[m], steps[m], source)
    requires a < b < |gates[i].rereads|
    ensures gates[i].rereads[a] != gates[i].rereads[b]
  {
    RunRises(gates, steps, i, source);
  }

  // --------------------------------------------------------- confirmation

  lemma StepConfirms(g: Gate, step: Step)
    requires !g.confirmed && Next(g, step).confirmed
    ensures step.Pull? && step.changes == [] && step.next == step.watermark && !step.woke
  {
    if step.Apply? {
      ApplyFirstEffect(g, step.n);
    }
  }

  /** After a reread, a mutation or a seal withdrew the confirmation, only a later empty pull at the watermark opens the gate. */
  lemma {:induction false} OpenGateNeedsLaterPull(gates: seq<Gate>, steps: seq<Step>, i: nat, j: nat) returns (m: nat)
    requires IsRun(gates, steps) && i <= j < |gates| && !gates[i].confirmed && Check(gates[j]).1
    ensures i <= m < j && steps[m].Pull? && steps[m].changes == [] && steps[m].next == steps[m].watermark && !steps[m].woke
  {
    m := ConfirmingPull(gates, steps, i, j);
  }

  lemma {:induction false} ConfirmingPull(gates: seq<Gate>, steps: seq<Step>, i: nat, j: nat) returns (m: nat)
    requires IsRun(gates, steps) && i <= j < |gates| && !gates[i].confirmed && gates[j].confirmed
    ensures i <= m < j && steps[m].Pull? && steps[m].changes == [] && steps[m].next == steps[m].watermark && !steps[m].woke
    decreases j
  {
    if gates[j - 1].confirmed {
      m := ConfirmingPull(gates, steps, i, j - 1);
    } else {
      StepConfirms(gates[j - 1], steps[j - 1]);
      m := j - 1;
    }
  }

  // ------------------------------------------------------ the owner's code

  lemma WithoutNone(g: Gate)
    ensures Without(g, {}) == g
  {
  }

  lemma WithoutTwice(g: Gate, ids: set<int>, id: int)
    ensures Without(Without(g, ids), {id}) == Without(g, ids + {id})
  {
    assert g.acknowledged - ids - {id} == g.acknowledged - (ids + {id});
    assert g.runtimeAcknowledged - ids - {id} == g.runtimeAcknowledged - (ids + {id});
    assert g.retired + ids + {id} == g.retired + (ids + {id});
  }

  /** The owner-loop fields behind the gate. */
  class GateState {
    var rows: set<int>
    var cursor: Option<Cursor>
    var complete: bool
    var gap: bool
    var recovering: bool
    var pending: seq<JournalChange>
    var watermark: Option<Cursor>
    var confirmed: bool
    var acknowledged: set<int>
    var runtimeAcknowledged: set<int>
    var recoverAt: Option<Cursor>
    ghost var answered: set<int>
    ghost var retired: set<int>
    ghost var rereads: seq<Cursor>

    ghost function View(): Gate
      reads this
    {
      Gate(rows, cursor, complete, gap, recovering, pending, watermark, confirmed, acknowledged, runtimeAcknowledged,
           recoverAt, answered, retired, rereads)
    }

    method SyncAcknowledged()
      modifies this`acknowledged
      ensures View() == Synced(old(View()))
    {
      acknowledged := acknowledged + runtimeAcknowledged;
    }

    method RetireSpawn(id: int)
      modifies this`acknowledged, this`runtimeAcknowledged, this`retired
      ensures View() == Without(old(View()), {id})
    {
      acknowledged := acknowledged - {id};
      runtimeAcknowledged := runtimeAcknowledged - {id};
      retired := retired + {id};
    }

    method RetireProjected()
      modifies this`acknowledged, this`runtimeAcknowledged, this`retired
      ensures View() == Retired(old(View()))
    {
      hide Without, View;
      ghost var g := View();
      var projected := ProjectedSpawns();
      ghost var done: set<int> := {};
      WithoutNone(g);
      var i := 0;
      while i < |projected|
        invariant i <= |projected| && View() == Without(g, done)
        invariant done <= g.acknowledged * g.rows && forall j :: 0 <= j < i ==> projected[j] in done
      {
        assert projected[i] in projected;
        RetireSpawn(projected[i]);
        WithoutTwice(g, done, projected[i]);
        done := done + {projected[i]};
        i := i + 1;
      }
      assert done == g.acknowledged * g.rows;
    }

    function ProjectedSpawns(): (ids: seq<int>)
      reads this
      ensures forall k :: k in ids <==> k in View().acknowledged * View().rows
    {
      Ascending(acknowledged * rows)
    }

    predicate ProjectionCaughtUp()
      reads this
    {
      && complete && !gap && !recovering && pending == []
      && Reaches(cursor, watermark) && confirmed && acknowledged <= rows
    }

    method StartOmittedRowRecover()
      modifies this`recoverAt, this`confirmed, this`cursor, this`rereads
      ensures View() == RecoverOmitted(old(View()))
    {
      var key := watermark;
      if key.None? && cursor.Some? {
        key := Some(Cursor(cursor.value.source, 0));
      }
      if key.None? || recoverAt == key {
        return;
      }
      recoverAt := key;
      rereads := rereads + [key.value];
      if cursor.Some? {
        cursor := Some(Cursor(cursor.value.source, 0));
      }
      confirmed := false;
    }

    method RefreshIfInventoryAhead() returns (open: bool)
      modifies this
      ensures (View(), open) == Check(old(View()))
    {
      hide RecoverOmitted, Retired, Synced;
      SyncAcknowledged();
      RetireProjected();
      if !(acknowledged <= rows) && (confirmed || Reaches(cursor, watermark)) {
        StartOmittedRowRecover();
        return false;
      }
      return ProjectionCaughtUp();
    }
  }
}
