/** The case-history store (services/storageService.ts): two lists of
    history entries, one per application mode, each kept under its own key
    of the browser's key-value storage, newest first. The key-value storage
    is a map from key to the stored list; JSON serialisation is abstracted
    away, so a stored list reads back as written. */
module Storage {
  import opened Wrappers
  import opened Types

  const ClinicStorageKey := "clinix_history_clinic"
  const PublicStorageKey := "clinix_history_public"

  function StorageKey(mode: AppMode): string {
    if mode == Clinic then ClinicStorageKey else PublicStorageKey
  }

  function OtherMode(mode: AppMode): (other: AppMode)
    ensures other != mode
  {
    if mode == Clinic then Public else Clinic
  }

  /** The two modes never share a key, so writing one partition cannot
      touch the other. */
  lemma StorageKeysDistinct(mode: AppMode)
    ensures StorageKey(mode) != StorageKey(OtherMode(mode))
  {
  }

  // ------------------------------------------------------------ new entries

  /** JavaScript truthiness of an optional string property. */
  predicate Truthy(s: Option<string>) {
    s.Some? && s.value != ""
  }

  /** `data.caseId || data.id || freshId`. */
  function EntryId(data: CaseRecord, freshId: string): string {
    if Truthy(data.caseId) then data.caseId.value
    else if Truthy(data.id) then data.id.value
    else freshId
  }

  /** `data.timestamp || now`. */
  function EntryTimestamp(data: CaseRecord, now: string): string {
    if Truthy(data.timestamp) then data.timestamp.value else now
  }

  /** The entry `saveHistoryEntry` builds: identifier and timestamp taken
      from the result when it carries them, both embedded back into the
      result, everything else kept. */
  function MakeEntry(mode: AppMode, data: CaseRecord, summary: string, tags: seq<string>,
                     freshId: string, now: string): (e: HistoryEntry)
    ensures e.id == (if Truthy(data.caseId) then data.caseId.value
                     else if Truthy(data.id) then data.id.value
                     else freshId)
    ensures e.timestamp == (if Truthy(data.timestamp) then data.timestamp.value else now)
    ensures e.kind == mode && e.summary == summary && e.tags == tags
    ensures e.data.payload == data.payload
    ensures e.data.caseId == Some(e.id) && e.data.id == Some(e.id)
    ensures e.data.timestamp == Some(e.timestamp)
  {
    var id := EntryId(data, freshId);
    var timestamp := EntryTimestamp(data, now);
    HistoryEntry(id, timestamp, mode, summary, tags,
                 data.(caseId := Some(id), id := Some(id), timestamp := Some(timestamp)))
  }

  /** An identifier and timestamp already present survive saving unchanged. */
  lemma BackfillKeepsPresentFields(mode: AppMode, data: CaseRecord, summary: string,
                                   tags: seq<string>, freshId: string, now: string)
    requires Truthy(data.caseId) && Truthy(data.timestamp)
    requires data.id == data.caseId
    ensures MakeEntry(mode, data, summary, tags, freshId, now).data == data
  {
  }

  // ------------------------------------------------------- list operations

  predicate HasId(entries: seq<HistoryEntry>, id: string) {
    exists i :: 0 <= i < |entries| && entries[i].id == id
  }

  /** `e` is the first entry of `entries` whose identifier is `id`. */
  predicate FirstWithId(entries: seq<HistoryEntry>, id: string, e: HistoryEntry) {
    exists i :: 0 <= i < |entries| && entries[i] == e && e.id == id &&
      forall j :: 0 <= j < i ==> entries[j].id != id
  }

  /** `entries.find(e => e.id === id)`. */
  function FindById(entries: seq<HistoryEntry>, id: string): (r: Option<HistoryEntry>)
    ensures r.None? <==> !HasId(entries, id)
    ensures r.Some? ==> FirstWithId(entries, id, r.value)
  {
    if entries == [] then None
    else if entries[0].id == id then
      assert FirstWithId(entries, id, entries[0]) by {
        assert 0 < |entries| && entries[0].id == id;
      }
      Some(entries[0])
    else
      var r := FindById(entries[1..], id);
      assert HasId(entries, id) ==> HasId(entries[1..], id) by {
        if HasId(entries, id) {
          var i :| 0 <= i < |entries| && entries[i].id == id;
          assert entries[1..][i - 1].id == id;
        }
      }
      assert r.Some? ==> FirstWithId(entries, id, r.value) by {
        if r.Some? {
          var i :| 0 <= i < |entries[1..]| && entries[1..][i] == r.value && r.value.id == id &&
            forall j :: 0 <= j < i ==> entries[1..][j].id != id;
          assert entries[i + 1] == r.value;
          assert forall j :: 0 <= j < i + 1 ==> entries[j].id != id by {
            forall j | 0 <= j < i + 1 ensures entries[j].id != id {
              if j > 0 { assert entries[j] == entries[1..][j - 1]; }
            }
          }
        }
      }
      r
  }

  /** `entries.filter(e => e.id !== id)`. */
  function RemoveId(entries: seq<HistoryEntry>, id: string): (r: seq<HistoryEntry>)
    ensures forall e :: e in r <==> e in entries && e.id != id
    ensures |r| <= |entries|
  {
    if entries == [] then []
    else
      var rest := RemoveId(entries[1..], id);
      assert forall e :: e in entries <==> e == entries[0] || e in entries[1..];
      if entries[0].id != id then [entries[0]] + rest else rest
  }

  /** Filtering keeps the relative order: it distributes over concatenation. */
  lemma {:induction false} RemoveIdDistributes(a: seq<HistoryEntry>, b: seq<HistoryEntry>, id: string)
    ensures RemoveId(a + b, id) == RemoveId(a, id) + RemoveId(b, id)
    decreases |a|
  {
    if a != [] {
      assert (a + b)[1..] == a[1..] + b;
      RemoveIdDistributes(a[1..], b, id);
    } else {
      assert a + b == b;
    }
  }

  /** Entries with other identifiers are kept, in order and with their
      multiplicities; so filtering a list without `id` changes nothing. */
  lemma {:induction false} RemoveIdKeepsOthers(entries: seq<HistoryEntry>, id: string)
    requires !HasId(entries, id)
    ensures RemoveId(entries, id) == entries
    decreases |entries|
  {
    if entries != [] {
      forall i | 0 <= i < |entries[1..]| ensures entries[1..][i].id != id {
        assert entries[1..][i] == entries[i + 1];
      }
      RemoveIdKeepsOthers(entries[1..], id);
      assert entries[0].id != id;
      assert entries == [entries[0]] + entries[1..];
    }
  }

  // --------------------------------------------------------------- the store

  /** The browser's key-value storage, restricted to history lists. */
  class LocalHistoryStore {
    var storage: map<string, seq<HistoryEntry>>

    constructor ()
      ensures storage == map[]
      ensures GetHistoryEntries(Clinic) == [] && GetHistoryEntries(Public) == []
    {
      storage := map[];
    }

    /** `getHistoryEntries`: the stored list, or the empty list when the key
        was never written or has been removed. */
    function GetHistoryEntries(mode: AppMode): (r: seq<HistoryEntry>)
      reads this
      ensures StorageKey(mode) !in storage ==> r == []
      ensures StorageKey(mode) in storage ==> r == storage[StorageKey(mode)]
    {
      var key := StorageKey(mode);
      if key in storage then storage[key] else []
    }

    /** `saveHistoryEntry`: builds the entry and writes it back in front of
        the mode's existing list. */
    method SaveHistoryEntry(mode: AppMode, data: CaseRecord, summary: string, tags: seq<string>,
                            freshId: string, now: string)
      modifies this
      ensures storage == old(storage)[StorageKey(mode) :=
        [MakeEntry(mode, data, summary, tags, freshId, now)] + old(GetHistoryEntries(mode))]
      ensures GetHistoryEntries(mode) ==
        [MakeEntry(mode, data, summary, tags, freshId, now)] + old(GetHistoryEntries(mode))
      ensures GetHistoryEntries(OtherMode(mode)) == old(GetHistoryEntries(OtherMode(mode)))
      ensures var e := MakeEntry(mode, data, summary, tags, freshId, now);
        FindEntryById(e.id).Some? && FindEntryById(e.id).value.id == e.id
      ensures var e := MakeEntry(mode, data, summary, tags, freshId, now);
        mode == Clinic || !HasId(old(GetHistoryEntries(Clinic)), e.id) ==> FindEntryById(e.id) == Some(e)
    {
      var key := StorageKey(mode);
      var existing := GetHistoryEntries(mode);
      var entry := MakeEntry(mode, data, summary, tags, freshId, now);
      storage := storage[key := [entry] + existing];
      StorageKeysDistinct(mode);
      assert ([entry] + existing)[0] == entry;
    }

    /** `deleteHistoryEntry`: rewrites the mode's list without the entries
        carrying `id`. */
    method DeleteHistoryEntry(mode: AppMode, id: string)
      modifies this
      ensures storage == old(storage)[StorageKey(mode) := RemoveId(old(GetHistoryEntries(mode)), id)]
      ensures GetHistoryEntries(mode) == RemoveId(old(GetHistoryEntries(mode)), id)
      ensures !HasId(GetHistoryEntries(mode), id)
      ensures GetHistoryEntries(OtherMode(mode)) == old(GetHistoryEntries(OtherMode(mode)))
    {
      var key := StorageKey(mode);
      var entries := GetHistoryEntries(mode);
      var updated := RemoveId(entries, id);
      storage := storage[key := updated];
      StorageKeysDistinct(mode);
      forall i | 0 <= i < |updated| ensures updated[i].id != id {
        assert updated[i] in updated;
      }
    }

    /** `clearHistory`: removes the mode's key altogether. */
    method ClearHistory(mode: AppMode)
      modifies this
      ensures storage == old(storage) - {StorageKey(mode)}
      ensures GetHistoryEntries(mode) == []
      ensures GetHistoryEntries(OtherMode(mode)) == old(GetHistoryEntries(OtherMode(mode)))
    {
      storage := storage - {StorageKey(mode)};
      StorageKeysDistinct(mode);
    }

    /** `findEntryById`: the first clinic entry with the identifier if there
        is one, else the first public one, else nothing. */
    function FindEntryById(id: string): (r: Option<HistoryEntry>)
      reads this
      ensures HasId(GetHistoryEntries(Clinic), id) ==>
        r.Some? && FirstWithId(GetHistoryEntries(Clinic), id, r.value)
      ensures !HasId(GetHistoryEntries(Clinic), id) && HasId(GetHistoryEntries(Public), id) ==>
        r.Some? && FirstWithId(GetHistoryEntries(Public), id, r.value)
      ensures r.None? <==> !HasId(GetHistoryEntries(Clinic), id) && !HasId(GetHistoryEntries(Public), id)
    {
      var foundClinic := FindById(GetHistoryEntries(Clinic), id);
      if foundClinic.Some? then foundClinic else FindById(GetHistoryEntries(Public), id)
    }
  }
}
