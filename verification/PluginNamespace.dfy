/**
 One database for all plugins: namespace texts that no two plugins share, and
 so an owner check that never fires and operations that stay in their plugin.
 */
module PluginNamespace {
  import opened Ordered
  import opened PluginStore

  // ------------------------------------------------------------- encoding

  type byte = n: int | 0 <= n < 256

  predicate PassesThrough(b: byte) {
    'a' as int <= b <= 'z' as int || '0' as int <= b <= '9' as int || b == '-' as int
  }

  function HexDigit(n: int): (c: char)
    requires 0 <= n < 16
    ensures '0' <= c <= '9' || 'a' <= c <= 'f'
  {
    if n < 10 then ('0' as int + n) as char else ('a' as int + n - 10) as char
  }

  function EncodeByte(b: byte): (text: string)
    ensures text != []
  {
    if PassesThrough(b) then [b as char] else ['_', HexDigit(b / 16), HexDigit(b % 16)]
  }

  /** `plugin_namespace_text`. */
  function Encode(key: seq<byte>): string {
    if key == [] then [] else Encode(key[..|key| - 1]) + EncodeByte(key[|key| - 1])
  }

  function HexValue(c: char): Option<int> {
    if '0' <= c <= '9' then Some(c as int - '0' as int)
    else if 'a' <= c <= 'f' then Some(c as int - 'a' as int + 10)
    else None
  }

  /** Reads a namespace text back, from its front. */
  function Decode(text: string): Option<seq<byte>> {
    if text == [] then Some([])
    else if text[0] != '_' then
      if text[0] as int >= 256 then None
      else
        var rest := Decode(text[1..]);
        if rest.None? then None else Some([text[0] as int] + rest.value)
    else if |text| < 3 || HexValue(text[1]).None? || HexValue(text[2]).None? then None
    else
      var rest := Decode(text[3..]);
      if rest.None? then None else Some([HexValue(text[1]).value * 16 + HexValue(text[2]).value] + rest.value)
  }

  lemma {:induction false} EncodeFront(b: byte, key: seq<byte>)
    ensures Encode([b] + key) == EncodeByte(b) + Encode(key)
  {
    hide EncodeByte;
    var whole := [b] + key;
    if key == [] {
      assert whole[..0] == [];
    } else {
      assert whole[..|whole| - 1] == [b] + key[..|key| - 1];
      EncodeFront(b, key[..|key| - 1]);
    }
  }

  lemma HexRoundTrip(n: int)
    requires 0 <= n < 16
    ensures HexValue(HexDigit(n)) == Some(n)
  {
  }

  lemma DecodeByte(b: byte, text: string)
    requires Decode(text).Some?
    ensures Decode(EncodeByte(b) + text) == Some([b] + Decode(text).value)
  {
    var whole := EncodeByte(b) + text;
    if PassesThrough(b) {
      assert whole[1..] == text;
    } else {
      HexRoundTrip(b / 16);
      HexRoundTrip(b % 16);
      assert whole[3..] == text;
    }
  }

  /** Every plugin identity can be read back from its namespace text. */
  lemma {:induction false} DecodeEncode(key: seq<byte>)
    ensures Decode(Encode(key)) == Some(key)
  {
    if key != [] {
      EncodeFront(key[0], key[1..]);
      assert key == [key[0]] + key[1..];
      DecodeEncode(key[1..]);
      DecodeByte(key[0], Encode(key[1..]));
    }
  }

  /** So two plugins share a namespace only if they are the same plugin. */
  lemma EncodeIsInjective(a: seq<byte>, b: seq<byte>)
    ensures Encode(a) == Encode(b) ==> a == b
  {
    DecodeEncode(a);
    DecodeEncode(b);
  }

  predicate NamespaceChar(c: char) {
    'a' <= c <= 'z' || '0' <= c <= '9' || c == '-' || c == '_'
  }

  /** The text uses only characters the database accepts, and so never starts with a dot. */
  lemma {:induction false} EncodeAlphabet(key: seq<byte>)
    ensures forall i :: 0 <= i < |Encode(key)| ==> NamespaceChar(Encode(key)[i])
    ensures |key| <= |Encode(key)| <= 3 * |key|
  {
    if key != [] {
      EncodeAlphabet(key[..|key| - 1]);
    }
  }

  method PluginNamespaceText(key: seq<byte>) returns (text: string)
    ensures text == Encode(key)
  {
    text := [];
    var i := 0;
    while i < |key|
      invariant i <= |key| && text == Encode(key[..i])
    {
      assert key[..i + 1][..i] == key[..i];
      if PassesThrough(key[i]) {
        text := text + [key[i] as char];
      } else {
        text := text + ['_', HexDigit(key[i] / 16), HexDigit(key[i] % 16)];
      }
      i := i + 1;
    }
    assert key[..i] == key;
  }

  // ------------------------------------------------------------- database

  datatype Owned = Owned(owner: seq<byte>, record: Record)

  type Namespace = map<Key, Owned>
  type Database = map<string, Namespace>

  function NamespaceOf(db: Database, plugin: seq<byte>): Namespace {
    if Encode(plugin) in db then db[Encode(plugin)] else map[]
  }

  function RecordsOf(db: Database, plugin: seq<byte>): Records {
    var stored := NamespaceOf(db, plugin);
    map key | key in stored :: stored[key].record
  }

  predicate AllOwnedBy(stored: Namespace, plugin: seq<byte>) {
    forall key :: key in stored ==> stored[key].owner == plugin
  }

  /** A delete reads the one record; every other operation reads the whole namespace. */
  predicate OwnerChecked(stored: Namespace, plugin: seq<byte>, step: Step) {
    if step.DeleteStep? then step.key in stored ==> stored[step.key].owner == plugin else AllOwnedBy(stored, plugin)
  }

  /** The namespace after `plugin` changed its records; a record it writes carries its name. */
  function Stored(stored: Namespace, plugin: seq<byte>, records: Records): Namespace {
    map key | key in records ::
      if key in stored && stored[key].record == records[key] then stored[key] else Owned(plugin, records[key])
  }

  /** One operation of one plugin; a plugin whose namespace text is too long, or which meets a foreign record, gets nothing. */
  function DbNext(db: Database, plugin: seq<byte>, step: Step, limits: Limits, longest: nat): Database {
    var stored := NamespaceOf(db, plugin);
    if |Encode(plugin)| > longest || !OwnerChecked(stored, plugin, step) then db
    else
      var records := Next(Store(RecordsOf(db, plugin), map[]), step, limits).records;
      db[Encode(plugin) := Stored(stored, plugin, records)]
  }

  /** Every record lies in the namespace of its owner. */
  ghost predicate OwnersMatch(db: Database) {
    forall text, key :: text in db && key in db[text] ==> Encode(db[text][key].owner) == text
  }

  /** The owner check never rejects a plugin's own namespace. */
  lemma OwnerCheckPasses(db: Database, plugin: seq<byte>)
    requires OwnersMatch(db)
    ensures AllOwnedBy(NamespaceOf(db, plugin), plugin)
  {
    var stored := NamespaceOf(db, plugin);
    forall key | key in stored ensures stored[key].owner == plugin {
      EncodeIsInjective(stored[key].owner, plugin);
    }
  }

  lemma StepKeepsOwners(db: Database, plugin: seq<byte>, step: Step, limits: Limits, longest: nat)
    requires OwnersMatch(db)
    ensures OwnersMatch(DbNext(db, plugin, step, limits, longest))
  {
    hide Next, Encode;
  }

  /** A plugin's operation acts on its own records exactly as on a store of its own. */
  lemma OwnRecordsFollowStore(db: Database, plugin: seq<byte>, step: Step, limits: Limits, longest: nat)
    requires OwnersMatch(db) && |Encode(plugin)| <= longest
    ensures RecordsOf(DbNext(db, plugin, step, limits, longest), plugin)
            == Next(Store(RecordsOf(db, plugin), map[]), step, limits).records
  {
    OwnerCheckPasses(db, plugin);
    hide Next, Encode;
    var records := Next(Store(RecordsOf(db, plugin), map[]), step, limits).records;
    assert RecordsOf(DbNext(db, plugin, step, limits, longest), plugin) == records;
  }

  /** And leaves every other plugin's records as they were. */
  lemma OthersUntouched(db: Database, plugin: seq<byte>, step: Step, limits: Limits, longest: nat, other: seq<byte>)
    requires other != plugin
    ensures NamespaceOf(DbNext(db, plugin, step, limits, longest), other) == NamespaceOf(db, other)
  {
    EncodeIsInjective(plugin, other);
    hide Next, Encode;
  }

  datatype PluginStep = PluginStep(plugin: seq<byte>, step: Step, limits: Limits)

  ghost predicate IsDbRun(dbs: seq<Database>, steps: seq<PluginStep>, longest: nat) {
    && |dbs| == |steps| + 1 && dbs[0] == map[]
    && (forall i :: 0 <= i < |steps| ==> dbs[i + 1] == DbNext(dbs[i], steps[i].plugin, steps[i].step, steps[i].limits, longest))
  }

  /** From an empty database, over every interleaving of plugins, no owner check ever rejects. */
  lemma {:induction false} OwnersAlwaysMatch(dbs: seq<Database>, steps: seq<PluginStep>, longest: nat, i: nat, plugin: seq<byte>)
    requires IsDbRun(dbs, steps, longest) && i < |dbs|
    ensures OwnersMatch(dbs[i]) && AllOwnedBy(NamespaceOf(dbs[i], plugin), plugin)
  {
    if i > 0 {
      OwnersAlwaysMatch(dbs, steps, longest, i - 1, plugin);
      StepKeepsOwners(dbs[i - 1], steps[i - 1].plugin, steps[i - 1].step, steps[i - 1].limits, longest);
    }
    OwnerCheckPasses(dbs[i], plugin);
  }

  /** What a plugin would store with the database to itself: its own steps, in order, and nothing else. */
  function Alone(steps: seq<PluginStep>, plugin: seq<byte>): Store {
    if steps == [] then EMPTY_STORE
    else
      var store, last := Alone(steps[..|steps| - 1], plugin), steps[|steps| - 1];
      if last.plugin == plugin then Next(store, last.step, last.limits) else store
  }

  /** Write counts are history: they change nothing about the records. */
  lemma NextIgnoresWrites(s: Store, step: Step, limits: Limits)
    ensures Next(s, step, limits).records == Next(Store(s.records, map[]), step, limits).records
  {
  }

  lemma NoRoomNoRecords(db: Database, plugin: seq<byte>, step: Step, limits: Limits, longest: nat)
    requires |Encode(plugin)| > longest
    ensures DbNext(db, plugin, step, limits, longest) == db
  {
  }

  /**
   Isolation over whole runs: in every interleaving of plugins, a plugin finds
   exactly the records it would have alone, or none at all when its namespace
   text is too long.
   */
  lemma {:induction false} RecordsAreThoseAlone(dbs: seq<Database>, steps: seq<PluginStep>, longest: nat, i: nat, plugin: seq<byte>)
    requires IsDbRun(dbs, steps, longest) && i < |dbs|
    ensures RecordsOf(dbs[i], plugin) == if |Encode(plugin)| <= longest then Alone(steps[..i], plugin).records else map[]
  {
    hide Next, Encode, DbNext;
    if i > 0 {
      RecordsAreThoseAlone(dbs, steps, longest, i - 1, plugin);
      OwnersAlwaysMatch(dbs, steps, longest, i - 1, plugin);
      var db, last := dbs[i - 1], steps[i - 1];
      assert dbs[i - 1 + 1] == DbNext(db, last.plugin, last.step, last.limits, longest);
      assert steps[..i][..i - 1] == steps[..i - 1];
      if last.plugin != plugin {
        OthersUntouched(db, last.plugin, last.step, last.limits, longest, plugin);
      } else if |Encode(plugin)| <= longest {
        OwnRecordsFollowStore(db, plugin, last.step, last.limits, longest);
        NextIgnoresWrites(Alone(steps[..i - 1], plugin), last.step, last.limits);
      } else {
        NoRoomNoRecords(db, plugin, last.step, last.limits, longest);
      }
    }
  }

  /** A plugin's own limits bound its records, whatever limits the others have. */
  lemma QuotaHoldsPerPlugin(dbs: seq<Database>, steps: seq<PluginStep>, longest: nat, i: nat, plugin: seq<byte>, limits: Limits)
    requires IsDbRun(dbs, steps, longest) && i < |dbs|
    requires forall j :: 0 <= j < i && steps[j].plugin == plugin ==> steps[j].limits == limits
    ensures QuotaHolds(RecordsOf(dbs[i], plugin), limits)
  {
    hide Encode, Alone, RecordsOf;
    RecordsAreThoseAlone(dbs, steps, longest, i, plugin);
    AloneKeeps(steps[..i], plugin, limits);
  }

  lemma {:induction false} AloneKeeps(steps: seq<PluginStep>, plugin: seq<byte>, limits: Limits)
    requires forall j :: 0 <= j < |steps| && steps[j].plugin == plugin ==> steps[j].limits == limits
    ensures StoreInvariant(Alone(steps, plugin), limits)
  {
    hide Next, StoreInvariant;
    if steps == [] {
      EmptyKeeps(limits);
    } else {
      AloneKeeps(steps[..|steps| - 1], plugin, limits);
      StepKeeps(Alone(steps[..|steps| - 1], plugin), steps[|steps| - 1].step, limits);
    }
  }

  lemma EmptyKeeps(limits: Limits)
    ensures StoreInvariant(EMPTY_STORE, limits)
  {
  }

  // -------------------------------------------------------------- reading

  /** The records of a namespace up to a cursor. */
  function ReadSoFar(stored: Namespace, after: Option<Key>): Records {
    map key | key in stored && Passed(after, key) :: stored[key].record
  }

  predicate OwnedSoFar(stored: Namespace, after: Option<Key>, plugin: seq<byte>) {
    forall key :: key in stored && Passed(after, key) ==> stored[key].owner == plugin
  }

  /** Decodes one page of items into the records, stopping at the first foreign one. */
  method ReadPage(stored: Namespace, page: seq<Key>, plugin: seq<byte>, before: Records) returns (r: Result<Records>)
    requires forall i :: 0 <= i < |page| ==> page[i] in stored
    ensures r.Ok? <==> forall i :: 0 <= i < |page| ==> stored[page[i]].owner == plugin
    ensures r.Ok? ==> r.value.Keys == before.Keys + (set key | key in page)
    ensures r.Ok? ==> forall key :: key in r.value ==>
                        r.value[key] == if key in page then stored[key].record else before[key]
    ensures r.Err? ==> r.error == CapabilityDenied
  {
    var records := before;
    var i := 0;
    while i < |page|
      invariant i <= |page| && forall j :: 0 <= j < i ==> stored[page[j]].owner == plugin
      invariant records.Keys == before.Keys + (set key | key in page[..i])
      invariant forall key :: key in records ==> records[key] == if key in page[..i] then stored[key].record else before[key]
    {
      if stored[page[i]].owner != plugin {
        return Err(CapabilityDenied);
      }
      records := records[page[i] := stored[page[i]].record];
      assert page[..i + 1] == page[..i] + [page[i]];
      i := i + 1;
    }
    assert page[..i] == page;
    return Ok(records);
  }

  /** Reads a whole namespace page by page, whatever page sizes the database chooses, and checks every owner. */
  method ReadRecords(stored: Namespace, plugin: seq<byte>) returns (r: Result<Records>)
    ensures r == if AllOwnedBy(stored, plugin) then Ok(map key | key in stored :: stored[key].record)
                 else Err(CapabilityDenied)
  {
    hide Page, ReadSoFar, OwnedSoFar;
    var records: Records := map[];
    var after: Option<Key> := None;
    NothingPassed(stored, plugin);
    while true
      invariant records == ReadSoFar(stored, after) && OwnedSoFar(stored, after, plugin)
      decreases |Beyond(stored.Keys, after)|
    {
      var items: nat :| items >= 1;
      var page := Page(stored.Keys, after, items);
      PageProperties(stored.Keys, after, items);
      var read := ReadPage(stored, page, plugin, records);
      if read.Err? {
        return read;
      }
      AddedByPage(stored, after, page, records, read.value, plugin);
      records := read.value;
      if |Beyond(stored.Keys, after)| <= items {
        LastPageRead(stored, after, page, items, records, plugin);
        return Ok(records);
      }
      NextPageRead(stored, after, page, items, records, plugin);
      after := Some(page[|page| - 1]);
    }
  }

  lemma NothingPassed(stored: Namespace, plugin: seq<byte>)
    ensures ReadSoFar(stored, None) == map[] && OwnedSoFar(stored, None, plugin)
  {
  }

  /** What reading one more page leaves. */
  ghost predicate PageAdded(stored: Namespace, after: Option<Key>, page: seq<Key>, records: Records, plugin: seq<byte>) {
    && (forall key :: key in page ==> key in stored && stored[key].owner == plugin)
    && OwnedSoFar(stored, after, plugin)
    && records.Keys == ReadSoFar(stored, after).Keys + (set key | key in page)
    && (forall key :: key in records && key in stored ==> records[key] == stored[key].record)
  }

  lemma AddedByPage(stored: Namespace, after: Option<Key>, page: seq<Key>, before: Records, records: Records, plugin: seq<byte>)
    requires forall i :: 0 <= i < |page| ==> page[i] in stored && stored[page[i]].owner == plugin
    requires before == ReadSoFar(stored, after) && OwnedSoFar(stored, after, plugin)
    requires records.Keys == before.Keys + (set key | key in page)
    requires forall key :: key in records ==> records[key] == if key in page then stored[key].record else before[key]
    ensures PageAdded(stored, after, page, records, plugin)
  {
  }

  lemma LastPageRead(stored: Namespace, after: Option<Key>, page: seq<Key>, items: nat, records: Records, plugin: seq<byte>)
    requires page == Page(stored.Keys, after, items) && |Beyond(stored.Keys, after)| <= items
    requires PageAdded(stored, after, page, records, plugin)
    ensures AllOwnedBy(stored, plugin) && records == map key | key in stored :: stored[key].record
  {
    hide Page;
    WholeNamespaceRead(stored, after, page, items);
    forall key ensures key in records <==> key in stored {
      assert key in records.Keys <==> key in ReadSoFar(stored, after).Keys || key in page;
    }
  }

  lemma NextPageRead(stored: Namespace, after: Option<Key>, page: seq<Key>, items: nat, records: Records, plugin: seq<byte>)
    requires page == Page(stored.Keys, after, items) && |page| > 0
    requires PageAdded(stored, after, page, records, plugin)
    ensures var last := page[|page| - 1];
            && records == ReadSoFar(stored, Some(last)) && OwnedSoFar(stored, Some(last), plugin)
            && |Beyond(stored.Keys, Some(last))| < |Beyond(stored.Keys, after)|
  {
    hide Page;
    PageAdvances(stored.Keys, after, page, items);
    var read := ReadSoFar(stored, Some(page[|page| - 1]));
    forall key ensures key in records <==> key in read {
      assert key in records.Keys <==> key in ReadSoFar(stored, after).Keys || key in page;
    }
  }

  lemma WholeNamespaceRead(stored: Namespace, after: Option<Key>, page: seq<Key>, items: nat)
    requires page == Page(stored.Keys, after, items) && |Beyond(stored.Keys, after)| <= items
    ensures forall key :: key in stored && !Passed(after, key) ==> key in page
  {
    forall key | key in stored && !Passed(after, key) ensures key in page {
      assert key in Beyond(stored.Keys, after);
    }
  }

  lemma PageAdvances(keys: set<Key>, after: Option<Key>, page: seq<Key>, items: nat)
    requires page == Page(keys, after, items) && |page| > 0
    ensures |Beyond(keys, Some(page[|page| - 1]))| < |Beyond(keys, after)|
    ensures forall key :: key in keys ==> (Passed(Some(page[|page| - 1]), key) <==> Passed(after, key) || key in page)
  {
    PageProperties(keys, after, items);
    var last := page[|page| - 1];
    var before, left := Beyond(keys, after), Beyond(keys, Some(last));
    assert last in before && last !in left && left <= before;
    assert before == left + (before - left);
    assert |before - left| > 0 by { assert last in before - left; }
    forall key | key in keys ensures Passed(Some(last), key) <==> Passed(after, key) || key in page {
      if key in page {
        var i :| 0 <= i < |page| && page[i] == key;
        assert i < |page| - 1 ==> page[i] < page[|page| - 1];
      }
    }
  }
}
