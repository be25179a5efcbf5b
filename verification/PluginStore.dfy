/**
 The plugin store of one plugin: single writes with an incremental quota
 check, batches with a full recount, and revisions that count writes.
 */
module PluginStore {
  import opened Ordered

  // ---------------------------------------------------------------- state

  /** Keys are only compared; the negative ones stand for those that are not valid store keys. */
  type Key = int

  /** A JSON payload; `bytes` is the length of its encoding. */
  datatype Payload = Payload(content: int, bytes: nat)

  datatype Record = Record(schema: nat, revision: nat, payload: Payload)

  type Records = map<Key, Record>

  datatype Limits = Limits(maxKeys: nat, maxRecordBytes: nat, maxPluginBytes: nat)

  datatype Error = InvalidRequest | NotFound | RevisionConflict | PatchRejected | QuotaExceeded | CapabilityDenied | StoreFailed

  datatype Result<T> = Ok(value: T) | Err(error: Error)

  /** A merge patch is its effect on a payload, which may be to reject it. */
  datatype Mutation =
    | Set(key: Key, schema: nat, payload: Payload, expected: nat)
    | Patch(key: Key, effect: Payload -> Option<Payload>, expected: nat)
    | Delete(key: Key, expected: nat)

  predicate ValidKey(key: Key) {
    key >= 0
  }

  function TotalBytes(records: Records): nat {
    if records == map[] then 0
    else
      var key := Least(records.Keys);
      records[key].payload.bytes + TotalBytes(records - {key})
  }

  /** A record's revision, or zero when there is no record. */
  function RevisionAt(records: Records, key: Key): nat {
    if key in records then records[key].revision else 0
  }

  // ------------------------------------------------------ revision, quota

  function RevisionForWrite(current: Option<Record>, expected: Option<nat>): Result<nat> {
    if current.Some? && expected.Some? && current.value.revision != expected.value then Err(RevisionConflict)
    else if current.None? && expected.Some? && expected.value != 0 then Err(RevisionConflict)
    else if current.Some? then Ok(current.value.revision + 1)
    else Ok(1)
  }

  function Lookup(records: Records, key: Key): Option<Record> {
    if key in records then Some(records[key]) else None
  }

  /** The incremental check of a single write. */
  function WriteFits(records: Records, key: Key, payload: Payload, limits: Limits): bool {
    && payload.bytes <= limits.maxRecordBytes
    && (key in records || |records| + 1 <= limits.maxKeys)
    && TotalBytes(records - {key}) + payload.bytes <= limits.maxPluginBytes
  }

  /** The recount after a batch. */
  predicate SnapshotFits(records: Records, limits: Limits) {
    |records| <= limits.maxKeys && TotalBytes(records) <= limits.maxPluginBytes
  }

  // --------------------------------------------------------- single writes

  function SetRecord(records: Records, key: Key, schema: nat, payload: Payload, expected: Option<nat>, limits: Limits)
    : Result<Record>
  {
    if !ValidKey(key) then Err(InvalidRequest)
    else
      var revision := RevisionForWrite(Lookup(records, key), expected);
      if revision.Err? then Err(revision.error)
      else if !WriteFits(records, key, payload, limits) then Err(QuotaExceeded)
      else Ok(Record(schema, revision.value, payload))
  }

  function PatchRecord(records: Records, key: Key, effect: Payload -> Option<Payload>, expected: Option<nat>,
                       limits: Limits): Result<Record>
  {
    if !ValidKey(key) then Err(InvalidRequest)
    else if key !in records then Err(NotFound)
    else
      var current := records[key];
      var revision := RevisionForWrite(Some(current), expected);
      if revision.Err? then Err(revision.error)
      else
        var payload := effect(current.payload);
        if payload.None? then Err(PatchRejected)
        else if !WriteFits(records, key, payload.value, limits) then Err(QuotaExceeded)
        else Ok(current.(revision := revision.value, payload := payload.value))
  }

  function DeleteRecord(records: Records, key: Key): Result<Record> {
    if !ValidKey(key) then Err(InvalidRequest) else if key !in records then Err(NotFound) else Ok(records[key])
  }

  // -------------------------------------------------------------- batches

  /** What one mutation leaves at its key: a record, or none when it deletes. */
  function Effect(records: Records, mutation: Mutation, limits: Limits): Result<Option<Record>> {
    var key := mutation.key;
    if !mutation.Set? && key !in records then Err(NotFound)
    else
      var revision := RevisionForWrite(Lookup(records, key), Some(mutation.expected));
      if revision.Err? then Err(revision.error)
      else
        match mutation
        case Set(_, schema, payload, _) =>
          if payload.bytes > limits.maxRecordBytes then Err(QuotaExceeded)
          else Ok(Some(Record(schema, revision.value, payload)))
        case Patch(_, effect, _) =>
          var payload := effect(records[key].payload);
          if payload.None? then Err(PatchRejected)
          else if payload.value.bytes > limits.maxRecordBytes then Err(QuotaExceeded)
          else Ok(Some(records[key].(revision := revision.value, payload := payload.value)))
        case Delete(_, _) => Ok(None)
  }

  function Put(records: Records, key: Key, record: Option<Record>): Records {
    if record.Some? then records[key := record.value] else records - {key}
  }

  /** A failure names the mutation it is about, counted from one, unless it is about the whole batch. */
  datatype BatchResult = Committed(candidate: Records) | Failed(error: Error, index: Option<nat>)

  function ApplyFrom(records: Records, mutations: seq<Mutation>, i: nat, seen: set<Key>, limits: Limits): BatchResult
    requires i <= |mutations|
    decreases |mutations| - i
  {
    if i == |mutations| then if SnapshotFits(records, limits) then Committed(records) else Failed(QuotaExceeded, None)
    else
      var key := mutations[i].key;
      if !ValidKey(key) || key in seen then Failed(InvalidRequest, Some(i + 1))
      else
        var effect := Effect(records, mutations[i], limits);
        if effect.Err? then Failed(effect.error, Some(i + 1))
        else ApplyFrom(Put(records, key, effect.value), mutations, i + 1, seen + {key}, limits)
  }

  /** `apply_plugin_store_batch`. */
  function ApplyBatch(records: Records, mutations: seq<Mutation>, limits: Limits): BatchResult {
    if mutations == [] then Failed(InvalidRequest, None) else ApplyFrom(records, mutations, 0, {}, limits)
  }

  datatype StoreOp = PutOp(key: Key, record: Record) | DeleteOp(key: Key)

  function OpFor(candidate: Records, key: Key): StoreOp {
    if key in candidate then PutOp(key, candidate[key]) else DeleteOp(key)
  }

  function OpsFor(candidate: Records, mutations: seq<Mutation>): (ops: seq<StoreOp>)
    ensures |ops| == |mutations| && forall i :: 0 <= i < |mutations| ==> ops[i] == OpFor(candidate, mutations[i].key)
  {
    if mutations == [] then []
    else OpsFor(candidate, mutations[..|mutations| - 1]) + [OpFor(candidate, mutations[|mutations| - 1].key)]
  }

  function ApplyOps(records: Records, ops: seq<StoreOp>): Records {
    if ops == [] then records
    else
      var before := ApplyOps(records, ops[..|ops| - 1]);
      match ops[|ops| - 1]
      case PutOp(key, record) => before[key := record]
      case DeleteOp(key) => before - {key}
  }

  // --------------------------------------------------- batch: a reference

  /** What is wrong with one mutation of a batch, judged against the records before the batch alone. */
  function Offence(records: Records, mutations: seq<Mutation>, i: nat, limits: Limits): Option<Error>
    requires i < |mutations|
  {
    var key := mutations[i].key;
    if !ValidKey(key) || (exists j :: 0 <= j < i && mutations[j].key == key) then Some(InvalidRequest)
    else
      var effect := Effect(records, mutations[i], limits);
      if effect.Err? then Some(effect.error) else None
  }

  /** The keys of the first `n` mutations. */
  function KeysOf(mutations: seq<Mutation>, n: nat): set<Key>
    requires n <= |mutations|
  {
    set i | 0 <= i < n :: mutations[i].key
  }

  /** The records with each of the first `n` mutations' effects, each taken from the records before the batch. */
  ghost predicate IsCandidate(records: Records, mutations: seq<Mutation>, n: nat, limits: Limits, candidate: Records)
    requires n <= |mutations|
  {
    && (forall i :: 0 <= i < n ==> Offence(records, mutations, i, limits).None?)
    && (forall i :: 0 <= i < n ==> Effect(records, mutations[i], limits) == Ok(Lookup(candidate, mutations[i].key)))
    && (forall key :: key !in KeysOf(mutations, n) ==> Lookup(candidate, key) == Lookup(records, key))
  }

  lemma EffectAtKey(records: Records, records': Records, mutation: Mutation, limits: Limits)
    requires Lookup(records, mutation.key) == Lookup(records', mutation.key)
    ensures Effect(records, mutation, limits) == Effect(records', mutation, limits)
  {
  }

  lemma CandidateGrows(records: Records, mutations: seq<Mutation>, n: nat, limits: Limits, candidate: Records)
    requires n < |mutations| && IsCandidate(records, mutations, n, limits, candidate)
    requires Offence(records, mutations, n, limits).None?
    ensures var key := mutations[n].key;
            && Effect(candidate, mutations[n], limits) == Effect(records, mutations[n], limits)
            && IsCandidate(records, mutations, n + 1, limits,
                           Put(candidate, key, Effect(records, mutations[n], limits).value))
  {
    hide Effect;
    var key := mutations[n].key;
    assert key !in KeysOf(mutations, n);
    EffectAtKey(candidate, records, mutations[n], limits);
    var effect := Effect(records, mutations[n], limits);
    var candidate' := Put(candidate, key, effect.value);
    assert forall k :: k != key ==> Lookup(candidate', k) == Lookup(candidate, k);
    forall k | k !in KeysOf(mutations, n + 1) ensures Lookup(candidate', k) == Lookup(records, k) {
      assert mutations[n].key in KeysOf(mutations, n + 1);
      KeysGrow(mutations, n, k);
    }
  }

  lemma KeysGrow(mutations: seq<Mutation>, n: nat, key: Key)
    requires n < |mutations|
    ensures key in KeysOf(mutations, n + 1) <==> key in KeysOf(mutations, n) || key == mutations[n].key
  {
    if key in KeysOf(mutations, n) {
      var i :| 0 <= i < n && mutations[i].key == key;
      assert 0 <= i < n + 1 && mutations[i].key == key;
    }
  }

  /** The loop computes the reference from any point it reaches. */
  lemma {:induction false} ApplyFromMeaning(records: Records, mutations: seq<Mutation>, i: nat, limits: Limits,
                                            candidate: Records)
    requires i <= |mutations| && IsCandidate(records, mutations, i, limits, candidate)
    ensures var r := ApplyFrom(candidate, mutations, i, KeysOf(mutations, i), limits);
            match r
            case Committed(c) => IsCandidate(records, mutations, |mutations|, limits, c) && SnapshotFits(c, limits)
            case Failed(error, None) =>
              && (forall j :: 0 <= j < |mutations| ==> Offence(records, mutations, j, limits).None?)
              && error == QuotaExceeded
              && exists c :: IsCandidate(records, mutations, |mutations|, limits, c) && !SnapshotFits(c, limits)
            case Failed(error, Some(index)) =>
              && i < index <= |mutations| && Offence(records, mutations, index - 1, limits) == Some(error)
              && (forall j :: 0 <= j < index - 1 ==> Offence(records, mutations, j, limits).None?)
    decreases |mutations| - i
  {
    hide Effect, SnapshotFits;
    if i < |mutations| {
      var key := mutations[i].key;
      SeenBefore(mutations, i, key);
      if ValidKey(key) && key !in KeysOf(mutations, i) {
        EffectAtKey(candidate, records, mutations[i], limits);
        if Offence(records, mutations, i, limits).None? {
          CandidateGrows(records, mutations, i, limits, candidate);
          SeenGrows(mutations, i);
          ApplyFromMeaning(records, mutations, i + 1, limits,
                           Put(candidate, key, Effect(records, mutations[i], limits).value));
        }
      }
    }
  }

  lemma SeenBefore(mutations: seq<Mutation>, n: nat, key: Key)
    requires n <= |mutations|
    ensures key in KeysOf(mutations, n) <==> exists j :: 0 <= j < n && mutations[j].key == key
  {
  }

  lemma SeenGrows(mutations: seq<Mutation>, n: nat)
    requires n < |mutations|
    ensures KeysOf(mutations, n + 1) == KeysOf(mutations, n) + {mutations[n].key}
  {
    forall key ensures key in KeysOf(mutations, n + 1) <==> key in KeysOf(mutations, n) + {mutations[n].key} {
      KeysGrow(mutations, n, key);
    }
  }

  /**
   What a batch does: it commits if and only if no mutation offends and the
   recount fits, and then to exactly the reference; it fails otherwise, naming
   the first offending mutation, or none when only the recount fails.
   */
  lemma BatchMeaning(records: Records, mutations: seq<Mutation>, limits: Limits)
    requires mutations != []
    ensures match ApplyBatch(records, mutations, limits)
            case Committed(candidate) =>
              IsCandidate(records, mutations, |mutations|, limits, candidate) && SnapshotFits(candidate, limits)
            case Failed(error, None) =>
              && error == QuotaExceeded
              && (forall j :: 0 <= j < |mutations| ==> Offence(records, mutations, j, limits).None?)
              && exists c :: IsCandidate(records, mutations, |mutations|, limits, c) && !SnapshotFits(c, limits)
            case Failed(error, Some(index)) =>
              && 0 < index <= |mutations| && Offence(records, mutations, index - 1, limits) == Some(error)
              && (forall j :: 0 <= j < index - 1 ==> Offence(records, mutations, j, limits).None?)
  {
    assert KeysOf(mutations, 0) == {};
    ApplyFromMeaning(records, mutations, 0, limits, records);
  }

  /** There is one candidate only, so the reference leaves a batch no choice. */
  lemma CandidateIsUnique(records: Records, mutations: seq<Mutation>, n: nat, limits: Limits, c: Records, c': Records)
    requires n <= |mutations|
    requires IsCandidate(records, mutations, n, limits, c) && IsCandidate(records, mutations, n, limits, c')
    ensures c == c'
  {
    hide Effect;
    forall key ensures Lookup(c, key) == Lookup(c', key) {
      if key in KeysOf(mutations, n) {
        SeenBefore(mutations, n, key);
        var i :| 0 <= i < n && mutations[i].key == key;
        assert Lookup(c, mutations[i].key) == Lookup(c', mutations[i].key);
      }
    }
    SameLookups(c, c');
  }

  // ------------------------------------------------ batch: the store calls

  lemma {:induction false} OpsReach(records: Records, candidate: Records, mutations: seq<Mutation>, n: nat, key: Key)
    requires n <= |mutations|
    ensures var r := ApplyOps(records, OpsFor(candidate, mutations)[..n]);
            Lookup(r, key) == if key in KeysOf(mutations, n) then Lookup(candidate, key) else Lookup(records, key)
  {
    var ops := OpsFor(candidate, mutations);
    if n > 0 {
      assert ops[..n][..n - 1] == ops[..n - 1];
      OpsReach(records, candidate, mutations, n - 1, key);
      KeysGrow(mutations, n - 1, key);
    }
  }

  /** The translated put and delete calls turn the stored records into exactly the candidate. */
  lemma OpsCommitCandidate(records: Records, mutations: seq<Mutation>, limits: Limits)
    requires ApplyBatch(records, mutations, limits).Committed?
    ensures var candidate := ApplyBatch(records, mutations, limits).candidate;
            ApplyOps(records, OpsFor(candidate, mutations)) == candidate
  {
    hide Effect, ApplyBatch, SnapshotFits;
    BatchNeedsMutations(records, mutations, limits);
    BatchMeaning(records, mutations, limits);
    var candidate := ApplyBatch(records, mutations, limits).candidate;
    var ops := OpsFor(candidate, mutations);
    assert ops[..|mutations|] == ops;
    var stored := ApplyOps(records, ops);
    forall key ensures Lookup(stored, key) == Lookup(candidate, key) {
      OpsReach(records, candidate, mutations, |mutations|, key);
    }
    SameLookups(stored, candidate);
  }

  lemma BatchNeedsMutations(records: Records, mutations: seq<Mutation>, limits: Limits)
    requires ApplyBatch(records, mutations, limits).Committed?
    ensures mutations != []
  {
  }

  lemma SameLookups(a: Records, b: Records)
    requires forall key :: Lookup(a, key) == Lookup(b, key)
    ensures a == b
  {
    forall key ensures key in a <==> key in b { assert Lookup(a, key) == Lookup(b, key); }
    forall key | key in a ensures a[key] == b[key] { assert Lookup(a, key) == Lookup(b, key); }
  }

  // --------------------------------------------------------------- quotas

  lemma {:induction false} TotalWithout(records: Records, key: Key)
    requires key in records
    ensures TotalBytes(records) == records[key].payload.bytes + TotalBytes(records - {key})
    decreases |records|
  {
    var least := Least(records.Keys);
    if key != least {
      TotalWithout(records - {least}, key);
      assert records - {least} - {key} == records - {key} - {least};
      LeastStays(records, least, key);
    }
  }

  lemma LeastStays(records: Records, least: Key, key: Key)
    requires least in records && key in records && least != key && least == Least(records.Keys)
    ensures least in records - {key} && Least((records - {key}).Keys) == least
  {
  }

  lemma TotalWith(records: Records, key: Key, record: Record)
    ensures TotalBytes(records[key := record]) == TotalBytes(records - {key}) + record.payload.bytes
  {
    TotalWithout(records[key := record], key);
    assert records[key := record] - {key} == records - {key};
  }

  lemma CountWith(records: Records, key: Key, record: Record)
    ensures |records[key := record]| == if key in records then |records| else |records| + 1
    ensures |records - {key}| == if key in records then |records| - 1 else |records|
  {
    assert records[key := record].Keys == records.Keys + {key};
    assert (records - {key}).Keys == records.Keys - {key};
  }

  /** What every stored plugin namespace keeps. */
  predicate QuotaHolds(records: Records, limits: Limits) {
    && SnapshotFits(records, limits)
    && (forall key :: key in records ==> ValidKey(key) && records[key].payload.bytes <= limits.maxRecordBytes)
  }

  /** The incremental check of a single write is the recount of what the write would store. */
  lemma IncrementalCheckIsRecount(records: Records, key: Key, record: Record, limits: Limits)
    requires SnapshotFits(records, limits)
    ensures WriteFits(records, key, record.payload, limits)
            <==> record.payload.bytes <= limits.maxRecordBytes && SnapshotFits(records[key := record], limits)
  {
    TotalWith(records, key, record);
    CountWith(records, key, record);
  }

  // ------------------------------------------- single writes and batches

  predicate Agrees(single: Result<Record>, batch: BatchResult, records: Records, key: Key) {
    match single
    case Ok(record) => batch == Committed(records[key := record])
    case Err(error) => batch.Failed? && batch.error == error
  }

  lemma OneMutationBatch(records: Records, mutation: Mutation, limits: Limits)
    ensures ApplyBatch(records, [mutation], limits)
            == if !ValidKey(mutation.key) then Failed(InvalidRequest, Some(1))
               else
                 var effect := Effect(records, mutation, limits);
                 if effect.Err? then Failed(effect.error, Some(1))
                 else
                   var candidate := Put(records, mutation.key, effect.value);
                   if SnapshotFits(candidate, limits) then Committed(candidate) else Failed(QuotaExceeded, None)
  {
    hide Effect, SnapshotFits;
    var effect := Effect(records, mutation, limits);
    if ValidKey(mutation.key) && effect.Ok? {
      var candidate := Put(records, mutation.key, effect.value);
      assert ApplyFrom(records, [mutation], 0, {}, limits)
          == ApplyFrom(candidate, [mutation], 1, {mutation.key}, limits);
    }
  }

  /**
   A replacement in a namespace that holds too many keys already, of a record
   at its expected revision, with a payload inside both byte quotas. The
   single write lets it through; the recount of a batch refuses it.
   */
  predicate ReplacesInOverfull(records: Records, key: Key, payload: Payload, expected: nat, limits: Limits) {
    && ValidKey(key) && key in records && records[key].revision == expected && |records| > limits.maxKeys
    && payload.bytes <= limits.maxRecordBytes && TotalBytes(records - {key}) + payload.bytes <= limits.maxPluginBytes
  }

  /**
   A set with an expected revision and the one-mutation batch of it have the
   same outcome, except that the single set still replaces a record in a
   namespace that already holds too many keys.
   */
  lemma SetAgreesWithBatchIff(records: Records, key: Key, schema: nat, payload: Payload, expected: nat, limits: Limits)
    ensures var single := SetRecord(records, key, schema, payload, Some(expected), limits);
            var batch := ApplyBatch(records, [Set(key, schema, payload, expected)], limits);
            Agrees(single, batch, records, key) <==> !ReplacesInOverfull(records, key, payload, expected, limits)
  {
    OneMutationBatch(records, Set(key, schema, payload, expected), limits);
    hide ApplyBatch, TotalBytes;
    var revision := RevisionForWrite(Lookup(records, key), Some(expected));
    if revision.Ok? {
      var record := Record(schema, revision.value, payload);
      TotalWith(records, key, record);
      CountWith(records, key, record);
    }
  }

  /** The same for a patch. */
  lemma PatchAgreesWithBatchIff(records: Records, key: Key, effect: Payload -> Option<Payload>, expected: nat,
                                limits: Limits)
    ensures var single := PatchRecord(records, key, effect, Some(expected), limits);
            var batch := ApplyBatch(records, [Patch(key, effect, expected)], limits);
            Agrees(single, batch, records, key)
            <==> !(key in records && effect(records[key].payload).Some?
                   && ReplacesInOverfull(records, key, effect(records[key].payload).value, expected, limits))
  {
    hide ApplyBatch, TotalBytes;
    OneMutationBatch(records, Patch(key, effect, expected), limits);
    if key in records && records[key].revision == expected {
      var payload := effect(records[key].payload);
      if payload.Some? {
        var record := records[key].(revision := records[key].revision + 1, payload := payload.value);
        TotalWith(records, key, record);
        CountWith(records, key, record);
      }
    }
  }

  /** Two records under a limit of one key: the set replaces one of them, and the batch of it fails. */
  lemma OverfullSetDisagrees(schema: nat, payload: Payload)
    ensures var record := Record(schema, 1, payload);
            var limits := Limits(1, payload.bytes, 2 * payload.bytes);
            var records := map[0 := record, 1 := record];
            && SetRecord(records, 0, schema, payload, Some(1), limits) == Ok(record.(revision := 2))
            && ApplyBatch(records, [Set(0, schema, payload, 1)], limits) == Failed(QuotaExceeded, None)
  {
    var record := Record(schema, 1, payload);
    var records := map[0 := record, 1 := record];
    assert records - {0} == map[1 := record] && map[1 := record] - {1} == map[];
    assert TotalBytes(map[1 := record]) == payload.bytes by { TotalWithout(map[1 := record], 1); }
    OneMutationBatch(records, Set(0, schema, payload, 1), Limits(1, payload.bytes, 2 * payload.bytes));
    CountWith(records, 0, record.(revision := 2));
    assert records.Keys == {0, 1};
  }

  // ----------------------------------------------------------------- runs

  /** The records, and (history) how often each was written since it was created. */
  datatype Store = Store(records: Records, writes: map<Key, nat>)

  const EMPTY_STORE := Store(map[], map[])

  /** `stored` says whether the database accepted the call. */
  datatype Step =
    | SetStep(key: Key, schema: nat, payload: Payload, expected: Option<nat>, stored: bool)
    | PatchStep(key: Key, effect: Payload -> Option<Payload>, expected: Option<nat>, stored: bool)
    | DeleteStep(key: Key, stored: bool)
    | BatchStep(mutations: seq<Mutation>, stored: bool)

  function WritesAt(writes: map<Key, nat>, key: Key): nat {
    if key in writes then writes[key] else 0
  }

  function Counted(writes: map<Key, nat>, key: Key, deletes: bool): map<Key, nat> {
    if deletes then writes - {key} else writes[key := WritesAt(writes, key) + 1]
  }

  function CountedAll(writes: map<Key, nat>, mutations: seq<Mutation>, n: nat): map<Key, nat>
    requires n <= |mutations|
  {
    if n == 0 then writes
    else Counted(CountedAll(writes, mutations, n - 1), mutations[n - 1].key, mutations[n - 1].Delete?)
  }

  function Written(s: Store, key: Key, r: Result<Record>): Store {
    if r.Ok? then Store(s.records[key := r.value], Counted(s.writes, key, false)) else s
  }

  function Next(s: Store, step: Step, limits: Limits): Store {
    if !step.stored then s
    else
      match step
      case SetStep(key, schema, payload, expected, _) =>
        Written(s, key, SetRecord(s.records, key, schema, payload, expected, limits))
      case PatchStep(key, effect, expected, _) =>
        Written(s, key, PatchRecord(s.records, key, effect, expected, limits))
      case DeleteStep(key, _) =>
        if DeleteRecord(s.records, key).Ok? then Store(s.records - {key}, Counted(s.writes, key, true)) else s
      case BatchStep(mutations, _) =>
        var r := ApplyBatch(s.records, mutations, limits);
        if r.Committed? then
          Store(ApplyOps(s.records, OpsFor(r.candidate, mutations)), CountedAll(s.writes, mutations, |mutations|))
        else s
  }

  /** Every record's revision is the number of writes since its creation. */
  ghost predicate RevisionsCount(s: Store) {
    && (forall key :: RevisionAt(s.records, key) == WritesAt(s.writes, key))
    && (forall key :: key in s.records ==> s.records[key].revision > 0)
  }

  ghost predicate StoreInvariant(s: Store, limits: Limits) {
    QuotaHolds(s.records, limits) && RevisionsCount(s)
  }

  lemma WriteKeepsQuota(records: Records, key: Key, record: Record, limits: Limits)
    requires QuotaHolds(records, limits) && ValidKey(key) && WriteFits(records, key, record.payload, limits)
    ensures QuotaHolds(records[key := record], limits)
  {
    IncrementalCheckIsRecount(records, key, record, limits);
    hide SnapshotFits;
  }

  lemma WriteKeeps(s: Store, key: Key, record: Record, limits: Limits)
    requires StoreInvariant(s, limits) && ValidKey(key)
    requires WriteFits(s.records, key, record.payload, limits) && record.revision == RevisionAt(s.records, key) + 1
    ensures StoreInvariant(Written(s, key, Ok(record)), limits)
  {
    hide SnapshotFits, WriteFits, QuotaHolds;
    WriteKeepsQuota(s.records, key, record, limits);
    var s' := Written(s, key, Ok(record));
    forall k ensures RevisionAt(s'.records, k) == WritesAt(s'.writes, k) {
      assert RevisionAt(s.records, k) == WritesAt(s.writes, k);
    }
  }

  lemma DeleteKeepsQuota(records: Records, key: Key, limits: Limits)
    requires QuotaHolds(records, limits) && key in records
    ensures QuotaHolds(records - {key}, limits)
  {
    TotalWithout(records, key);
    CountWith(records, key, records[key]);
    hide TotalBytes;
  }

  lemma DeleteKeeps(s: Store, key: Key, limits: Limits)
    requires StoreInvariant(s, limits) && key in s.records
    ensures StoreInvariant(Store(s.records - {key}, Counted(s.writes, key, true)), limits)
  {
    hide QuotaHolds;
    DeleteKeepsQuota(s.records, key, limits);
    var s' := Store(s.records - {key}, Counted(s.writes, key, true));
    forall k ensures RevisionAt(s'.records, k) == WritesAt(s'.writes, k) {
      assert RevisionAt(s.records, k) == WritesAt(s.writes, k);
    }
  }

  lemma {:induction false} CountedAllAt(writes: map<Key, nat>, mutations: seq<Mutation>, n: nat, key: Key, i: int)
    requires n <= |mutations| && -1 <= i < n
    requires forall a, b :: 0 <= a < b < n ==> mutations[a].key != mutations[b].key
    requires if i < 0 then key !in KeysOf(mutations, n) else mutations[i].key == key
    ensures WritesAt(CountedAll(writes, mutations, n), key)
            == if i < 0 then WritesAt(writes, key) else if mutations[i].Delete? then 0 else WritesAt(writes, key) + 1
  {
    if n > 0 {
      KeysGrow(mutations, n - 1, key);
      if i == n - 1 {
        assert key !in KeysOf(mutations, n - 1);
        CountedAllAt(writes, mutations, n - 1, key, -1);
      } else {
        CountedAllAt(writes, mutations, n - 1, key, i);
      }
    }
  }

  lemma EffectRevision(records: Records, mutation: Mutation, limits: Limits)
    requires Effect(records, mutation, limits).Ok?
    ensures var r := Effect(records, mutation, limits).value;
            && (r.None? <==> mutation.Delete?)
            && RevisionAt(records, mutation.key) == mutation.expected
            && (r.Some? ==> r.value.revision == RevisionAt(records, mutation.key) + 1
                            && r.value.payload.bytes <= limits.maxRecordBytes)
  {
  }

  /** A committed batch keeps the quota, and leaves at each key one more revision, none, or what was there. */
  lemma CandidateKeeps(records: Records, mutations: seq<Mutation>, limits: Limits, candidate: Records, key: Key) returns (i: int)
    requires IsCandidate(records, mutations, |mutations|, limits, candidate)
    ensures -1 <= i < |mutations|
    ensures if i < 0 then key !in KeysOf(mutations, |mutations|) && Lookup(candidate, key) == Lookup(records, key)
            else
              && mutations[i].key == key && ValidKey(key) && RevisionAt(records, key) == mutations[i].expected
              && (mutations[i].Delete? ==> key !in candidate)
              && (!mutations[i].Delete? ==> key in candidate && candidate[key].revision == RevisionAt(records, key) + 1
                                            && candidate[key].payload.bytes <= limits.maxRecordBytes)
  {
    SeenBefore(mutations, |mutations|, key);
    if key in KeysOf(mutations, |mutations|) {
      i :| 0 <= i < |mutations| && mutations[i].key == key;
      assert Offence(records, mutations, i, limits).None?;
      assert Effect(records, mutations[i], limits) == Ok(Lookup(candidate, mutations[i].key));
      EffectRevision(records, mutations[i], limits);
    } else {
      i := -1;
    }
  }

  lemma CandidateDistinct(records: Records, mutations: seq<Mutation>, limits: Limits, candidate: Records)
    requires IsCandidate(records, mutations, |mutations|, limits, candidate)
    ensures forall a, b :: 0 <= a < b < |mutations| ==> mutations[a].key != mutations[b].key
  {
    hide Effect;
    forall a, b | 0 <= a < b < |mutations| ensures mutations[a].key != mutations[b].key {
      assert Offence(records, mutations, b, limits).None?;
    }
  }

  lemma CommitKeeps(s: Store, mutations: seq<Mutation>, limits: Limits, candidate: Records)
    requires StoreInvariant(s, limits)
    requires IsCandidate(s.records, mutations, |mutations|, limits, candidate) && SnapshotFits(candidate, limits)
    ensures StoreInvariant(Store(candidate, CountedAll(s.writes, mutations, |mutations|)), limits)
  {
    hide SnapshotFits, IsCandidate, CountedAll;
    var s' := Store(candidate, CountedAll(s.writes, mutations, |mutations|));
    CandidateDistinct(s.records, mutations, limits, candidate);
    forall key
      ensures RevisionAt(s'.records, key) == WritesAt(s'.writes, key)
      ensures key in candidate ==>
                ValidKey(key) && candidate[key].payload.bytes <= limits.maxRecordBytes && candidate[key].revision > 0
    {
      var i := CandidateKeeps(s.records, mutations, limits, candidate, key);
      CountedAllAt(s.writes, mutations, |mutations|, key, i);
      assert RevisionAt(s.records, key) == WritesAt(s.writes, key);
    }
  }

  lemma BatchKeeps(s: Store, mutations: seq<Mutation>, limits: Limits)
    requires StoreInvariant(s, limits)
    ensures StoreInvariant(Next(s, BatchStep(mutations, true), limits), limits)
  {
    hide StoreInvariant, ApplyBatch, ApplyOps, IsCandidate, SnapshotFits;
    if ApplyBatch(s.records, mutations, limits).Committed? {
      BatchNeedsMutations(s.records, mutations, limits);
      OpsCommitCandidate(s.records, mutations, limits);
      BatchMeaning(s.records, mutations, limits);
      CommitKeeps(s, mutations, limits, ApplyBatch(s.records, mutations, limits).candidate);
    }
  }

  lemma StepKeeps(s: Store, step: Step, limits: Limits)
    requires StoreInvariant(s, limits)
    ensures StoreInvariant(Next(s, step, limits), limits)
  {
    hide StoreInvariant, WriteFits, ApplyBatch;
    if step.stored {
      match step
      case SetStep(key, schema, payload, expected, _) =>
        var r := SetRecord(s.records, key, schema, payload, expected, limits);
        if r.Ok? { WriteKeeps(s, key, r.value, limits); }
      case PatchStep(key, effect, expected, _) =>
        var r := PatchRecord(s.records, key, effect, expected, limits);
        if r.Ok? { WriteKeeps(s, key, r.value, limits); }
      case DeleteStep(key, _) =>
        if key in s.records { DeleteKeeps(s, key, limits); }
      case BatchStep(mutations, _) =>
        BatchKeeps(s, mutations, limits);
    }
  }

  ghost predicate IsRun(stores: seq<Store>, steps: seq<Step>, limits: Limits) {
    && |stores| == |steps| + 1 && stores[0] == EMPTY_STORE
    && (forall i :: 0 <= i < |steps| ==> stores[i + 1] == Next(stores[i], steps[i], limits))
  }

  /** In every state of every run the quotas hold and each revision counts the writes since creation. */
  lemma {:induction false} RunKeeps(stores: seq<Store>, steps: seq<Step>, limits: Limits, i: nat)
    requires IsRun(stores, steps, limits) && i < |stores|
    ensures QuotaHolds(stores[i].records, limits) && RevisionsCount(stores[i])
  {
    if i > 0 {
      RunKeeps(stores, steps, limits, i - 1);
      StepKeeps(stores[i - 1], steps[i - 1], limits);
    }
  }

  /** So in every reachable state a single write and its one-mutation batch have the same outcome. */
  lemma ReachableSetAgreesWithBatch(stores: seq<Store>, steps: seq<Step>, limits: Limits, i: nat,
                                    key: Key, schema: nat, payload: Payload, expected: nat)
    requires IsRun(stores, steps, limits) && i < |stores|
    ensures var records := stores[i].records;
            Agrees(SetRecord(records, key, schema, payload, Some(expected), limits),
                   ApplyBatch(records, [Set(key, schema, payload, expected)], limits), records, key)
  {
    RunKeeps(stores, steps, limits, i);
    SetAgreesWithBatchIff(stores[i].records, key, schema, payload, expected, limits);
  }

  lemma ReachablePatchAgreesWithBatch(stores: seq<Store>, steps: seq<Step>, limits: Limits, i: nat,
                                      key: Key, effect: Payload -> Option<Payload>, expected: nat)
    requires IsRun(stores, steps, limits) && i < |stores|
    ensures var records := stores[i].records;
            Agrees(PatchRecord(records, key, effect, Some(expected), limits),
                   ApplyBatch(records, [Patch(key, effect, expected)], limits), records, key)
  {
    RunKeeps(stores, steps, limits, i);
    PatchAgreesWithBatchIff(stores[i].records, key, effect, expected, limits);
  }

  // ------------------------------------------------------ compare and set

  /** Whether a step is a successful write of `key` that carried the expected revision. */
  predicate Wins(s: Store, step: Step, limits: Limits, key: Key, expected: nat) {
    && step.stored
    && match step
       case SetStep(k, schema, payload, e, _) =>
         k == key && e == Some(expected) && SetRecord(s.records, k, schema, payload, e, limits).Ok?
       case PatchStep(k, effect, e, _) =>
         k == key && e == Some(expected) && PatchRecord(s.records, k, effect, e, limits).Ok?
       case DeleteStep(_, _) => false
       case BatchStep(mutations, _) =>
         && ApplyBatch(s.records, mutations, limits).Committed?
         && exists i :: 0 <= i < |mutations| && mutations[i].key == key && mutations[i].expected == expected
  }

  /** A winner found its expected revision, and a record it leaves has the next one. */
  lemma WinnerAdvances(s: Store, step: Step, limits: Limits, key: Key, expected: nat)
    requires Wins(s, step, limits, key, expected)
    ensures RevisionAt(s.records, key) == expected
    ensures var s' := Next(s, step, limits); key in s'.records ==> RevisionAt(s'.records, key) == expected + 1
  {
    hide WriteFits, ApplyBatch, ApplyOps, IsCandidate, SnapshotFits;
    if step.BatchStep? {
      var mutations := step.mutations;
      var candidate := ApplyBatch(s.records, mutations, limits).candidate;
      OpsCommitCandidate(s.records, mutations, limits);
      BatchMeaning(s.records, mutations, limits);
      var at :| 0 <= at < |mutations| && mutations[at].key == key && mutations[at].expected == expected;
      SeenBefore(mutations, |mutations|, key);
      CandidateDistinct(s.records, mutations, limits, candidate);
      var i := CandidateKeeps(s.records, mutations, limits, candidate, key);
      assert i == at;
    }
  }

  /** While a record stays, its revision never moves back. */
  lemma RevisionRises(s: Store, step: Step, limits: Limits, key: Key)
    requires key in Next(s, step, limits).records
    ensures RevisionAt(s.records, key) <= RevisionAt(Next(s, step, limits).records, key)
  {
    hide WriteFits, ApplyBatch, ApplyOps, IsCandidate, SnapshotFits;
    if step.BatchStep? && step.stored && ApplyBatch(s.records, step.mutations, limits).Committed? {
      var mutations := step.mutations;
      BatchNeedsMutations(s.records, mutations, limits);
      OpsCommitCandidate(s.records, mutations, limits);
      BatchMeaning(s.records, mutations, limits);
      var i := CandidateKeeps(s.records, mutations, limits, ApplyBatch(s.records, mutations, limits).candidate, key);
    }
  }

  lemma {:induction false} RevisionRisesOverRun(stores: seq<Store>, steps: seq<Step>, limits: Limits, i: nat, j: nat, key: Key)
    requires IsRun(stores, steps, limits) && i <= j < |stores|
    requires forall m :: i <= m <= j ==> key in stores[m].records
    ensures RevisionAt(stores[i].records, key) <= RevisionAt(stores[j].records, key)
    decreases j
  {
    if i < j {
      RevisionRisesOverRun(stores, steps, limits, i, j - 1, key);
      assert stores[j - 1 + 1] == Next(stores[j - 1], steps[j - 1], limits);
      RevisionRises(stores[j - 1], steps[j - 1], limits, key);
    }
  }

  /** Of all writes that carry the same expected revision, single or batched, one wins while the record stays. */
  lemma AtMostOneWinner(stores: seq<Store>, steps: seq<Step>, limits: Limits, i: nat, j: nat, key: Key, expected: nat)
    requires IsRun(stores, steps, limits) && i < j < |steps|
    requires forall m :: i < m <= j ==> key in stores[m].records
    requires Wins(stores[i], steps[i], limits, key, expected)
    ensures !Wins(stores[j], steps[j], limits, key, expected)
  {
    hide Wins, Next;
    WinnerAdvances(stores[i], steps[i], limits, key, expected);
    RevisionRisesOverRun(stores, steps, limits, i + 1, j, key);
    if Wins(stores[j], steps[j], limits, key, expected) {
      WinnerAdvances(stores[j], steps[j], limits, key, expected);
    }
  }

  // ------------------------------------------------------------- the loop

  /** The batch loop, over a working copy of the records. */
  method ApplyPluginStoreBatch(stored: Records, mutations: seq<Mutation>, limits: Limits) returns (r: BatchResult)
    ensures r == ApplyBatch(stored, mutations, limits)
  {
    hide Effect, SnapshotFits;
    if |mutations| == 0 {
      return Failed(InvalidRequest, None);
    }
    var records, seen, index := stored, {}, 0;
    while index < |mutations|
      invariant index <= |mutations|
      invariant ApplyFrom(records, mutations, index, seen, limits) == ApplyFrom(stored, mutations, 0, {}, limits)
    {
      var key := mutations[index].key;
      if !ValidKey(key) || key in seen {
        return Failed(InvalidRequest, Some(index + 1));
      }
      seen := seen + {key};
      var effect := Effect(records, mutations[index], limits);
      if effect.Err? {
        return Failed(effect.error, Some(index + 1));
      }
      records := Put(records, key, effect.value);
      index := index + 1;
    }
    if !SnapshotFits(records, limits) {
      return Failed(QuotaExceeded, None);
    }
    return Committed(records);
  }
}
