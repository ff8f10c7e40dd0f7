// The storage routing of web_scraping/services/storage_service.py: which
// backends a processed batch is written to, in what order the stored
// locations and errors are reported, and where reads are served from. Every
// backend write is an oracle; the routing around the oracles is the model.
module StorageService {
  import opened Wrappers
  import opened Text
  import opened Json
  import opened DataProcessor

  /** The primary_storage string: "cloud_sql", "firestore", "both", or any
    * other string, which no branch of the service recognises. */
  datatype Primary = CloudSqlStore | FirestoreStore | BothStores | OtherStore(name: string)

  function PrimaryOf(name: string): (p: Primary)
    ensures p.OtherStore? ==> p.name == name
  {
    if name == "cloud_sql" then CloudSqlStore
    else if name == "firestore" then FirestoreStore
    else if name == "both" then BothStores
    else OtherStore(name)
  }

  /** StorageConfig; ttl_days is optional. */
  datatype StorageConfig = StorageConfig(
    primaryStorage: Primary,
    cacheEnabled: bool,
    vectorSearchEnabled: bool,
    ttlDays: Option<int>,
    criticality: int)

  /** StorageConfig(primary_storage=p) with every other field at its default. */
  function ConfigFor(primary: Primary): StorageConfig
  {
    StorageConfig(primary, true, true, None, 5)
  }

  /** The default table built by the service's constructor. */
  function DefaultConfigs(): map<string, StorageConfig>
  {
    map[
      "tramites" := StorageConfig(CloudSqlStore, true, true, None, 8),
      "pqrsd" := StorageConfig(CloudSqlStore, true, true, None, 7),
      "pico_placa" := StorageConfig(FirestoreStore, true, false, Some(1), 10),
      "notificaciones" := StorageConfig(FirestoreStore, true, false, Some(7), 9),
      "programas_sociales" := StorageConfig(BothStores, true, true, None, 7),
      "temporal" := StorageConfig(FirestoreStore, false, false, Some(3), 3)
    ]
  }

  /** `custom_config or self.storage_configs.get(data_type)`, falling back to
    * cloud_sql with cache and vector search on. A dataclass instance is always
    * truthy, so any custom configuration wins. */
  function ResolveConfig(custom: Option<StorageConfig>, configs: map<string, StorageConfig>, dataType: string): (c: StorageConfig)
    ensures custom.Some? ==> c == custom.value
    ensures custom.None? && dataType in configs ==> c == configs[dataType]
    ensures custom.None? && dataType !in configs ==> c.primaryStorage == CloudSqlStore && c.cacheEnabled && c.vectorSearchEnabled
  {
    if custom.Some? then custom.value
    else if dataType in configs then configs[dataType]
    else ConfigFor(CloudSqlStore)
  }

  /** `if config.ttl_days:` -- None and 0 are both falsy. */
  predicate HasTtl(c: StorageConfig)
  {
    c.ttlDays.Some? && c.ttlDays.value != 0
  }

  /** The backends and what each write returns: the SQL batch save, whether a
    * Firestore manager exists and which per-record document sets succeed,
    * whether a vector-search manager exists and whether embedding generation
    * and the upsert succeed, and whether the cache entry is saved. */
  datatype Backends = Backends(
    sqlOk: bool,
    hasFirestore: bool,
    setOk: nat -> bool,
    hasVector: bool,
    embedOk: bool,
    upsertOk: bool,
    cacheOk: bool)

  // ---------------------------------------------------------------------
  // Firestore writes
  // ---------------------------------------------------------------------

  /** `{**record, "source": source, "data_type": data_type, "stored_at": now}` */
  function Payload(r: Record, source: string, dataType: string, now: string): Record
  {
    SetKey(SetKey(SetKey(r, "source", Str(source)), "data_type", Str(dataType)), "stored_at", Str(now))
  }

  /** The stored document is the record with its source, data type and storage
    * time set, every other field unchanged. */
  lemma PayloadSpec(r: Record, source: string, dataType: string, now: string)
    ensures var p := Payload(r, source, dataType, now);
      Get(p, "source") == Some(Str(source)) && Get(p, "data_type") == Some(Str(dataType))
      && Get(p, "stored_at") == Some(Str(now))
      && forall k | k != "source" && k != "data_type" && k != "stored_at" :: Get(p, k) == Get(r, k)
  {
  }

  /** One Firestore write: a temporary save through the manager (with its data
    * type and TTL) or a plain document set in the collection. */
  datatype FirestoreWrite =
    | TemporarySave(dataType: string, payload: Record, ttlDays: int)
    | DocumentSet(collection: string, payload: Record)

  /** The write the source issues for one record. */
  function WriteFor(r: Record, source: string, dataType: string, config: StorageConfig, now: string): FirestoreWrite
  {
    var p := Payload(r, source, dataType, now);
    if HasTtl(config) then TemporarySave(source + "_" + dataType, p, config.ttlDays.value)
    else DocumentSet(source + "_" + dataType, p)
  }

  /** The position of the first document set that fails among the first n, or n. */
  function FirstFailure(setOk: nat -> bool, n: nat): (f: nat)
    ensures f <= n
    ensures forall i | 0 <= i < f :: setOk(i)
    ensures f < n ==> !setOk(f)
  {
    if n == 0 then 0
    else
      var f := FirstFailure(setOk, n - 1);
      if f < n - 1 then f else if setOk(n - 1) then n else n - 1
  }

  /** The first failure is the first index whose set fails. */
  lemma {:induction false} FirstFailureAt(setOk: nat -> bool, n: nat, i: nat)
    requires i <= n && forall j | 0 <= j < i :: setOk(j)
    requires i < n ==> !setOk(i)
    ensures FirstFailure(setOk, n) == i
    decreases n
  {
    if n > 0 {
      FirstFailureAt(setOk, n - 1, if i < n then i else n - 1);
    }
  }

  /** Whether _store_in_firestore reports success. A temporary save swallows its
    * own errors, so the TTL path succeeds whenever a manager exists; the
    * document path succeeds iff every set succeeds. */
  predicate FirestoreStored(hasManager: bool, config: StorageConfig, setOk: nat -> bool, n: nat)
  {
    hasManager && (HasTtl(config) || FirstFailure(setOk, n) == n)
  }

  /** make(data[i], i) for every record. */
  function Each<T>(data: seq<Record>, make: (Record, nat) -> T): (es: seq<T>)
    ensures |es| == |data|
    ensures forall i | 0 <= i < |data| :: es[i] == make(data[i], i)
  {
    seq(|data|, i requires 0 <= i < |data| => make(data[i], i))
  }

  /** One iteration of a loop that handles every record. */
  lemma EachStep<T>(data: seq<Record>, i: nat, make: (Record, nat) -> T)
    requires i < |data|
    ensures Each(data[..i + 1], make) == Each(data[..i], make) + [make(data[i], i)]
  {
    var pre := data[..i + 1];
    assert pre[..i] == data[..i] && pre[i] == data[i];
    assert Each(pre, make)[..i] == Each(pre[..i], make);
  }

  function WriteMaker(source: string, dataType: string, config: StorageConfig, now: string): (Record, nat) -> FirestoreWrite
  {
    (r: Record, i: nat) => WriteFor(r, source, dataType, config, now)
  }

  /** The writes _store_in_firestore issues: none without a manager, every
    * record's on the TTL path, and on the document path every record's up to
    * and including the first failing one. */
  function FirestoreWrites(data: seq<Record>, source: string, dataType: string, config: StorageConfig,
                           hasManager: bool, setOk: nat -> bool, now: string): (ws: seq<FirestoreWrite>)
    ensures |ws| <= |data|
  {
    if !hasManager then []
    else
      var f := FirstFailure(setOk, |data|);
      var n := if HasTtl(config) || f == |data| then |data| else f + 1;
      Each(data[..n], WriteMaker(source, dataType, config, now))
  }

  /** The writes of the TTL path: one temporary save per record. */
  lemma FirestoreWritesTtl(data: seq<Record>, source: string, dataType: string, config: StorageConfig,
                           setOk: nat -> bool, now: string)
    requires HasTtl(config)
    ensures FirestoreWrites(data, source, dataType, config, true, setOk, now)
      == Each(data, WriteMaker(source, dataType, config, now))
  {
    assert data[..|data|] == data;
  }

  /** The writes of the document path when the set of record i is the first to fail,
    * or i is the batch's length and none fails. */
  lemma FirestoreWritesSets(data: seq<Record>, source: string, dataType: string, config: StorageConfig,
                            setOk: nat -> bool, now: string, i: nat)
    requires !HasTtl(config) && i <= |data| && forall j | 0 <= j < i :: setOk(j)
    requires i < |data| ==> !setOk(i)
    ensures FirstFailure(setOk, |data|) == i
    ensures FirestoreWrites(data, source, dataType, config, true, setOk, now)
      == Each(data[..if i < |data| then i + 1 else i], WriteMaker(source, dataType, config, now))
  {
    FirstFailureAt(setOk, |data|, i);
  }

  /** One record of the document path: the writes so far grow by that record's set. */
  lemma SetStep(data: seq<Record>, i: nat, source: string, dataType: string, config: StorageConfig, now: string,
                writes: seq<FirestoreWrite>)
    requires !HasTtl(config) && i < |data|
    requires writes == Each(data[..i], WriteMaker(source, dataType, config, now))
    ensures writes + [DocumentSet(source + "_" + dataType, Payload(data[i], source, dataType, now))]
      == Each(data[..i + 1], WriteMaker(source, dataType, config, now))
  {
    EachStep(data, i, WriteMaker(source, dataType, config, now));
    DocumentSetAt(data[i], i, source, dataType, config, now);
  }

  /** The write of one record on the TTL path. */
  lemma TemporarySaveAt(r: Record, i: nat, source: string, dataType: string, config: StorageConfig, now: string)
    requires HasTtl(config)
    ensures WriteMaker(source, dataType, config, now)(r, i)
      == TemporarySave(source + "_" + dataType, Payload(r, source, dataType, now), config.ttlDays.value)
  {
  }

  /** The write of one record on the document path. */
  lemma DocumentSetAt(r: Record, i: nat, source: string, dataType: string, config: StorageConfig, now: string)
    requires !HasTtl(config)
    ensures WriteMaker(source, dataType, config, now)(r, i)
      == DocumentSet(source + "_" + dataType, Payload(r, source, dataType, now))
  {
  }

  /** The TTL path of _store_in_firestore: one temporary save per record. */
  method SaveTemporaries(data: seq<Record>, source: string, dataType: string, config: StorageConfig, now: string)
    returns (writes: seq<FirestoreWrite>)
    requires HasTtl(config)
    ensures writes == Each(data, WriteMaker(source, dataType, config, now))
  {
    ghost var maker := WriteMaker(source, dataType, config, now);
    writes := [];
    var i := 0;
    while i < |data|
      invariant 0 <= i <= |data|
      invariant writes == Each(data[..i], maker)
    {
      EachStep(data, i, maker);
      TemporarySaveAt(data[i], i, source, dataType, config, now);
      var payload := Payload(data[i], source, dataType, now);
      writes := writes + [TemporarySave(source + "_" + dataType, payload, config.ttlDays.value)];
      i := i + 1;
    }
    assert data[..|data|] == data;
  }

  /** The document path of _store_in_firestore: one document set per record,
    * stopping at the first that fails. */
  method SetDocuments(data: seq<Record>, source: string, dataType: string, config: StorageConfig,
                      setOk: nat -> bool, now: string)
    returns (ok: bool, writes: seq<FirestoreWrite>)
    requires !HasTtl(config)
    ensures ok == (FirstFailure(setOk, |data|) == |data|)
    ensures writes == FirestoreWrites(data, source, dataType, config, true, setOk, now)
  {
    writes := [];
    var i := 0;
    while i < |data|
      invariant 0 <= i <= |data|
      invariant forall j | 0 <= j < i :: setOk(j)
      invariant writes == Each(data[..i], WriteMaker(source, dataType, config, now))
    {
      SetStep(data, i, source, dataType, config, now, writes);
      writes := writes + [DocumentSet(source + "_" + dataType, Payload(data[i], source, dataType, now))];
      if !setOk(i) {
        FirestoreWritesSets(data, source, dataType, config, setOk, now, i);
        return false, writes;
      }
      i := i + 1;
    }
    FirestoreWritesSets(data, source, dataType, config, setOk, now, |data|);
    ok := true;
  }

  /** _store_in_firestore */
  method StoreInFirestore(data: seq<Record>, source: string, dataType: string, config: StorageConfig,
                          hasManager: bool, setOk: nat -> bool, now: string)
    returns (ok: bool, writes: seq<FirestoreWrite>)
    ensures ok == FirestoreStored(hasManager, config, setOk, |data|)
    ensures writes == FirestoreWrites(data, source, dataType, config, hasManager, setOk, now)
  {
    if !hasManager {
      return false, [];
    }
    if HasTtl(config) {
      writes := SaveTemporaries(data, source, dataType, config, now);
      FirestoreWritesTtl(data, source, dataType, config, setOk, now);
      return true, writes;
    }
    ok, writes := SetDocuments(data, source, dataType, config, setOk, now);
  }

  /** Without a manager nothing is written; with a TTL every record is saved
    * once with that TTL and the store succeeds; without one the store succeeds
    * iff every record's document set succeeds, and no record after the first
    * failure is written. */
  lemma FirestoreWritesSpec(data: seq<Record>, source: string, dataType: string, config: StorageConfig,
                            hasManager: bool, setOk: nat -> bool, now: string)
    ensures var ws := FirestoreWrites(data, source, dataType, config, hasManager, setOk, now);
      (!hasManager ==> ws == [] && !FirestoreStored(hasManager, config, setOk, |data|))
      && (hasManager && HasTtl(config) ==>
            FirestoreStored(hasManager, config, setOk, |data|) && |ws| == |data|
            && forall i | 0 <= i < |ws| :: ws[i].TemporarySave? && ws[i].ttlDays == config.ttlDays.value)
      && (hasManager && !HasTtl(config) ==>
          (FirestoreStored(hasManager, config, setOk, |data|) <==> forall i | 0 <= i < |data| :: setOk(i))
          && (forall i | 0 <= i < |ws| :: ws[i].DocumentSet? && (i < |ws| - 1 ==> setOk(i))))
  {
    if hasManager && !HasTtl(config) {
      var f := FirstFailure(setOk, |data|);
      if f < |data| {
        assert !setOk(f);
      }
    }
  }

  // ---------------------------------------------------------------------
  // Vector search
  // ---------------------------------------------------------------------

  /** An f-string rendering of a value: a string renders as itself; `str` is
    * Python's str() for every other value. */
  function Render(v: Value, str: Value -> string): string
  {
    if v.Str? then v.s else str(v)
  }

  /** `d.get(k, default)` */
  function GetOr(r: Record, k: string, default: Value): Value
  {
    match Get(r, k)
    case Some(v) => v
    case None => default
  }

  /** What the vector writer collects for one record: its text, its metadata
    * and its id. */
  datatype VectorEntry = VectorEntry(text: string, metadata: Record, id: string)

  function EntryFor(r: Record, i: nat, source: string, dataType: string, now: string, str: Value -> string): VectorEntry
  {
    var prefix := source + "_" + dataType + "_";
    VectorEntry(
      ExtractTextForEmbedding(r),
      [("source", Str(source)), ("data_type", Str(dataType)),
       ("record_id", GetOr(r, "id", Str(prefix + NatToString(i)))),
       ("content_hash", GetOr(r, "content_hash", Str(""))),
       ("extracted_at", GetOr(r, "extracted_at", Str(""))),
       ("stored_at", Str(now))],
      prefix + Render(GetOr(r, "content_hash", Str(NatToString(i))), str))
  }

  /** A record is indexed when its embedding text is not blank. */
  predicate Indexable(r: Record)
  {
    Strip(ExtractTextForEmbedding(r)) != []
  }

  /** make(data[i], i) for the records that `keep` selects, in order. */
  function Collect<T>(data: seq<Record>, keep: Record -> bool, make: (Record, nat) -> T): (es: seq<T>)
    ensures |es| <= |data|
    decreases |data|
  {
    if data == [] then []
    else
      var n := |data| - 1;
      Collect(data[..n], keep, make) + (if keep(data[n]) then [make(data[n], n)] else [])
  }

  /** Every collected item comes from a selected record, and every selected
    * record gives one. */
  lemma {:induction false} CollectSpec<T>(data: seq<Record>, keep: Record -> bool, make: (Record, nat) -> T)
    ensures forall e | e in Collect(data, keep, make) :: exists i | 0 <= i < |data| :: keep(data[i]) && e == make(data[i], i)
    ensures forall i | 0 <= i < |data| && keep(data[i]) :: make(data[i], i) in Collect(data, keep, make)
    decreases |data|
  {
    if data != [] {
      var n := |data| - 1;
      var init := data[..n];
      CollectSpec(init, keep, make);
      forall e | e in Collect(data, keep, make)
        ensures exists i | 0 <= i < |data| :: keep(data[i]) && e == make(data[i], i)
      {
        if e in Collect(init, keep, make) {
          var i :| 0 <= i < |init| && keep(init[i]) && e == make(init[i], i);
          assert init[i] == data[i];
        } else {
          assert keep(data[n]) && e == make(data[n], n);
        }
      }
      forall i | 0 <= i < |data| && keep(data[i]) ensures make(data[i], i) in Collect(data, keep, make) {
        if i < n {
          assert init[i] == data[i];
        }
      }
    }
  }

  /** One iteration of a loop that collects. */
  lemma CollectStep<T>(data: seq<Record>, i: nat, keep: Record -> bool, make: (Record, nat) -> T)
    requires i < |data|
    ensures Collect(data[..i + 1], keep, make) ==
      Collect(data[..i], keep, make) + (if keep(data[i]) then [make(data[i], i)] else [])
  {
    var pre := data[..i + 1];
    assert pre[..i] == data[..i] && pre[i] == data[i];
  }

  function EntryMaker(source: string, dataType: string, now: string, str: Value -> string): (Record, nat) -> VectorEntry
  {
    (r: Record, i: nat) => EntryFor(r, i, source, dataType, now, str)
  }

  /** The entries of the indexable records, in order. */
  function VectorEntries(data: seq<Record>, source: string, dataType: string, now: string, str: Value -> string): seq<VectorEntry>
  {
    Collect(data, Indexable, EntryMaker(source, dataType, now, str))
  }

  /** Every entry has a non-blank text taken from one record, and every
    * record with a non-blank text has its entry. */
  lemma VectorEntriesSpec(data: seq<Record>, source: string, dataType: string, now: string, str: Value -> string)
    ensures forall e | e in VectorEntries(data, source, dataType, now, str) ::
      Strip(e.text) != [] && exists i | 0 <= i < |data| :: e == EntryFor(data[i], i, source, dataType, now, str)
    ensures forall i | 0 <= i < |data| && Indexable(data[i]) ::
      EntryFor(data[i], i, source, dataType, now, str) in VectorEntries(data, source, dataType, now, str)
  {
    var make := EntryMaker(source, dataType, now, str);
    CollectSpec(data, Indexable, make);
    forall e | e in VectorEntries(data, source, dataType, now, str)
      ensures Strip(e.text) != [] && exists i | 0 <= i < |data| :: e == EntryFor(data[i], i, source, dataType, now, str)
    {
      var i :| 0 <= i < |data| && Indexable(data[i]) && e == make(data[i], i);
      assert e == EntryFor(data[i], i, source, dataType, now, str);
    }
  }

  /** Whether _store_in_vector_search reports success: never without a
    * manager, always when there is nothing to index (no embedding is asked
    * for), and otherwise iff both the embedding call and the upsert succeed. */
  predicate VectorStored(hasManager: bool, entries: nat, embedOk: bool, upsertOk: bool)
  {
    hasManager && (entries == 0 || (embedOk && upsertOk))
  }

  /** texts, metadata and ids hold, position by position, the text, the
    * metadata and the id of the entries. */
  predicate Parallel(texts: seq<string>, metadata: seq<Record>, ids: seq<string>, entries: seq<VectorEntry>)
  {
    |texts| == |entries| && |metadata| == |entries| && |ids| == |entries|
    && forall k | 0 <= k < |entries| :: entries[k] == VectorEntry(texts[k], metadata[k], ids[k])
  }

  lemma ParallelAppend(texts: seq<string>, metadata: seq<Record>, ids: seq<string>, entries: seq<VectorEntry>,
                       e: VectorEntry)
    requires Parallel(texts, metadata, ids, entries)
    ensures Parallel(texts + [e.text], metadata + [e.metadata], ids + [e.id], entries + [e])
  {
    var es := entries + [e];
    forall k | 0 <= k < |es|
      ensures es[k] == VectorEntry((texts + [e.text])[k], (metadata + [e.metadata])[k], (ids + [e.id])[k])
    {
      if k < |entries| {
        assert es[k] == entries[k];
      }
    }
  }

  /** One record of the indexing loop: its entry is added iff its text is not blank. */
  lemma IndexStep(data: seq<Record>, i: nat, source: string, dataType: string, now: string, str: Value -> string)
    requires i < |data|
    ensures var e := EntryFor(data[i], i, source, dataType, now, str);
      VectorEntries(data[..i + 1], source, dataType, now, str)
      == VectorEntries(data[..i], source, dataType, now, str) + (if Strip(e.text) != [] then [e] else [])
  {
    CollectStep(data, i, Indexable, EntryMaker(source, dataType, now, str));
  }

  /** The loop of _store_in_vector_search: one text, metadata and id per
    * record whose embedding text is not blank. */
  method IndexRecords(data: seq<Record>, source: string, dataType: string, now: string, str: Value -> string)
    returns (texts: seq<string>, metadata: seq<Record>, ids: seq<string>)
    ensures Parallel(texts, metadata, ids, VectorEntries(data, source, dataType, now, str))
  {
    texts, metadata, ids := [], [], [];
    ghost var entries: seq<VectorEntry> := [];
    var i := 0;
    while i < |data|
      invariant 0 <= i <= |data|
      invariant entries == VectorEntries(data[..i], source, dataType, now, str)
      invariant Parallel(texts, metadata, ids, entries)
    {
      var entry := EntryFor(data[i], i, source, dataType, now, str);
      IndexStep(data, i, source, dataType, now, str);
      if Strip(entry.text) != [] {
        ParallelAppend(texts, metadata, ids, entries, entry);
        texts, metadata, ids := texts + [entry.text], metadata + [entry.metadata], ids + [entry.id];
        entries := entries + [entry];
      }
      i := i + 1;
    }
    assert data[..|data|] == data;
  }

  /** _store_in_vector_search: the three parallel lists and the outcome. */
  method StoreInVectorSearch(data: seq<Record>, source: string, dataType: string, now: string, str: Value -> string,
                             hasManager: bool, embedOk: bool, upsertOk: bool)
    returns (ok: bool, texts: seq<string>, metadata: seq<Record>, ids: seq<string>)
    ensures ok == VectorStored(hasManager, |VectorEntries(data, source, dataType, now, str)|, embedOk, upsertOk)
    ensures hasManager ==> Parallel(texts, metadata, ids, VectorEntries(data, source, dataType, now, str))
    ensures !hasManager ==> texts == [] && metadata == [] && ids == []
  {
    if !hasManager {
      return false, [], [], [];
    }
    texts, metadata, ids := IndexRecords(data, source, dataType, now, str);
    if texts != [] {
      if !embedOk {
        return false, texts, metadata, ids;
      }
      return upsertOk, texts, metadata, ids;
    }
    return true, texts, metadata, ids;
  }

  // ---------------------------------------------------------------------
  // store_data
  // ---------------------------------------------------------------------

  datatype Backend = CloudSql | Firestore | VectorSearch | Cache

  function LocationName(b: Backend): string
  {
    match b
    case CloudSql => "cloud_sql"
    case Firestore => "firestore"
    case VectorSearch => "vector_search"
    case Cache => "cache"
  }

  /** The position of each backend in store_data's call order. */
  function Rank(b: Backend): nat
  {
    match b
    case CloudSql => 0
    case Firestore => 1
    case VectorSearch => 2
    case Cache => 3
  }

  /** The errors store_data reports; a cache failure and a primary failure in
    * the `both` mode report nothing. */
  datatype StoreError = CloudSqlFailed | FirestoreFailed | VectorSearchFailed

  function ErrorText(e: StoreError): string
  {
    match e
    case CloudSqlFailed => "Failed to store in Cloud SQL"
    case FirestoreFailed => "Failed to store in Firestore"
    case VectorSearchFailed => "Failed to store in Vector Search"
  }

  datatype StoreResult =
    | ProcessingFailed(processingErrors: seq<string>)
    | Stored(success: bool, locations: seq<Backend>, errors: seq<StoreError>,
             quality: Quality, duplicateCount: nat, recordCount: nat)

  /** Which backend writes succeed for one batch. */
  datatype Outcomes = Outcomes(sql: bool, firestore: bool, vector: bool, cache: bool)

  function OutcomesOf(c: StorageConfig, b: Backends, data: seq<Record>,
                      source: string, dataType: string, now: string, str: Value -> string): Outcomes
  {
    Outcomes(b.sqlOk,
             FirestoreStored(b.hasFirestore, c, b.setOk, |data|),
             VectorStored(b.hasVector, |VectorEntries(data, source, dataType, now, str)|, b.embedOk, b.upsertOk),
             b.hasFirestore && b.cacheOk)
  }

  predicate Succeeds(x: Backend, o: Outcomes)
  {
    match x
    case CloudSql => o.sql
    case Firestore => o.firestore
    case VectorSearch => o.vector
    case Cache => o.cache
  }

  predicate SqlAttempted(c: StorageConfig) { c.primaryStorage == CloudSqlStore || c.primaryStorage == BothStores }
  predicate FirestoreAttempted(c: StorageConfig) { c.primaryStorage == FirestoreStore || c.primaryStorage == BothStores }
  /** Vector search runs only when enabled and a manager exists. */
  predicate VectorAttempted(c: StorageConfig, b: Backends) { c.vectorSearchEnabled && b.hasVector }
  /** Caching runs only when enabled and a Firestore manager exists. */
  predicate CacheAttempted(c: StorageConfig, b: Backends) { c.cacheEnabled && b.hasFirestore }

  /** The primary backends each mode calls, in order. */
  function PrimaryAttempts(c: StorageConfig): seq<Backend>
  {
    match c.primaryStorage
    case CloudSqlStore => [CloudSql]
    case FirestoreStore => [Firestore]
    case BothStores => [CloudSql, Firestore]
    case OtherStore(_) => []
  }

  /** The backends store_data calls, in its order. */
  function Attempts(c: StorageConfig, b: Backends): seq<Backend>
  {
    PrimaryAttempts(c)
    + (if VectorAttempted(c, b) then [VectorSearch] else [])
    + (if CacheAttempted(c, b) then [Cache] else [])
  }

  /** The attempted backends that succeed, in order. */
  function Successful(xs: seq<Backend>, o: Outcomes): seq<Backend>
    decreases |xs|
  {
    if xs == [] then []
    else
      var n := |xs| - 1;
      Successful(xs[..n], o) + (if Succeeds(xs[n], o) then [xs[n]] else [])
  }

  /** A backend is among the successful ones iff it was attempted and succeeded. */
  lemma {:induction false} SuccessfulSpec(xs: seq<Backend>, o: Outcomes)
    ensures forall x :: x in Successful(xs, o) <==> x in xs && Succeeds(x, o)
    decreases |xs|
  {
    if xs != [] {
      var n := |xs| - 1;
      SuccessfulSpec(xs[..n], o);
      assert xs == xs[..n] + [xs[n]];
    }
  }

  /** The error a failed attempt reports, if any. */
  function Reported(x: Backend, c: StorageConfig): Option<StoreError>
  {
    match x
    case CloudSql => if c.primaryStorage == CloudSqlStore then Some(CloudSqlFailed) else None
    case Firestore => if c.primaryStorage == FirestoreStore then Some(FirestoreFailed) else None
    case VectorSearch => Some(VectorSearchFailed)
    case Cache => None
  }

  /** The errors of the failed attempts, in order. */
  function Failures(xs: seq<Backend>, c: StorageConfig, o: Outcomes): seq<StoreError>
    decreases |xs|
  {
    if xs == [] then []
    else
      var n := |xs| - 1;
      var e := Reported(xs[n], c);
      Failures(xs[..n], c, o) + (if !Succeeds(xs[n], o) && e.Some? then [e.value] else [])
  }

  /** Calling one more backend extends the locations and errors by its own. */
  lemma AttemptStep(xs: seq<Backend>, x: Backend, c: StorageConfig, o: Outcomes)
    ensures Successful(xs + [x], o) == Successful(xs, o) + (if Succeeds(x, o) then [x] else [])
    ensures Failures(xs + [x], c, o) == Failures(xs, c, o)
      + (if !Succeeds(x, o) && Reported(x, c).Some? then [Reported(x, c).value] else [])
  {
    assert (xs + [x])[..|xs|] == xs;
  }

  /** store_data after the configuration is resolved. A failed processing stops
    * before any backend is called. Otherwise the locations are the attempts
    * that succeed and the errors those of the attempts that fail, both in call
    * order, and success means some location was stored. */
  function StoreOutcome(c: StorageConfig, p: ProcessingResult, o: Outcomes, b: Backends): StoreResult
  {
    if !p.success then ProcessingFailed(p.errors)
    else
      var xs := Attempts(c, b);
      var locations := Successful(xs, o);
      Stored(locations != [], locations, Failures(xs, c, o),
             p.quality, p.duplicateCount, |p.processedData|)
  }

  /** The primary-storage branch of store_data. */
  method StorePrimary(c: StorageConfig, data: seq<Record>, b: Backends, ghost o: Outcomes,
                      source: string, dataType: string, now: string)
    returns (storedLocations: seq<Backend>, errors: seq<StoreError>, attempted: seq<Backend>)
    requires o.sql == b.sqlOk && o.firestore == FirestoreStored(b.hasFirestore, c, b.setOk, |data|)
    ensures attempted == PrimaryAttempts(c)
    ensures storedLocations == Successful(attempted, o) && errors == Failures(attempted, c, o)
  {
    storedLocations, errors, attempted := [], [], [];
    if c.primaryStorage == CloudSqlStore {
      AttemptStep([], CloudSql, c, o);
      attempted := [CloudSql];
      if b.sqlOk {
        storedLocations := [CloudSql];
      } else {
        errors := [CloudSqlFailed];
      }
    } else if c.primaryStorage == FirestoreStore {
      AttemptStep([], Firestore, c, o);
      attempted := [Firestore];
      var firestoreSuccess, _ := StoreInFirestore(data, source, dataType, c, b.hasFirestore, b.setOk, now);
      if firestoreSuccess {
        storedLocations := [Firestore];
      } else {
        errors := [FirestoreFailed];
      }
    } else if c.primaryStorage == BothStores {
      AttemptStep([], CloudSql, c, o);
      AttemptStep([CloudSql], Firestore, c, o);
      attempted := [CloudSql, Firestore];
      var firestoreSuccess, _ := StoreInFirestore(data, source, dataType, c, b.hasFirestore, b.setOk, now);
      if b.sqlOk {
        storedLocations := storedLocations + [CloudSql];
      }
      if firestoreSuccess {
        storedLocations := storedLocations + [Firestore];
      }
    }
  }

  /** The backend calls of store_data on a processed batch. Besides the
    * locations and errors, it returns the backends it called, in order. */
  method StoreProcessed(c: StorageConfig, data: seq<Record>, b: Backends,
                        source: string, dataType: string, now: string, str: Value -> string)
    returns (storedLocations: seq<Backend>, errors: seq<StoreError>, attempted: seq<Backend>)
    ensures var o := OutcomesOf(c, b, data, source, dataType, now, str);
      attempted == Attempts(c, b)
      && storedLocations == Successful(attempted, o)
      && errors == Failures(attempted, c, o)
  {
    ghost var o := OutcomesOf(c, b, data, source, dataType, now, str);
    storedLocations, errors, attempted := StorePrimary(c, data, b, o, source, dataType, now);
    ghost var primary := attempted;
    if c.vectorSearchEnabled && b.hasVector {
      var vectorSuccess, _, _, _ := StoreInVectorSearch(data, source, dataType, now, str, b.hasVector, b.embedOk, b.upsertOk);
      storedLocations, errors, attempted := Called(VectorSearch, vectorSuccess, c, o, storedLocations, errors, attempted);
    }
    ghost var beforeCache := attempted;
    assert beforeCache == primary + (if VectorAttempted(c, b) then [VectorSearch] else []);
    if c.cacheEnabled && b.hasFirestore {
      storedLocations, errors, attempted := Called(Cache, b.cacheOk, c, o, storedLocations, errors, attempted);
    }
    assert attempted == beforeCache + (if CacheAttempted(c, b) then [Cache] else []);
  }

  /** One more backend call: its location is stored when it succeeds, and its
    * error, if it reports one, is added when it fails. */
  method Called(x: Backend, ok: bool, c: StorageConfig, ghost o: Outcomes,
                storedLocations: seq<Backend>, errors: seq<StoreError>, attempted: seq<Backend>)
    returns (storedLocations': seq<Backend>, errors': seq<StoreError>, attempted': seq<Backend>)
    requires ok == Succeeds(x, o)
    requires storedLocations == Successful(attempted, o) && errors == Failures(attempted, c, o)
    ensures attempted' == attempted + [x]
    ensures storedLocations' == Successful(attempted', o) && errors' == Failures(attempted', c, o)
  {
    AttemptStep(attempted, x, c, o);
    attempted' := attempted + [x];
    storedLocations', errors' := storedLocations, errors;
    if ok {
      storedLocations' := storedLocations + [x];
    } else if Reported(x, c).Some? {
      errors' := errors + [Reported(x, c).value];
    }
  }

  /** store_data. The batch is processed by process_scraped_data (with its
    * clock, date parser, digest and database-save oracles); `now` also stamps
    * the Firestore writes and the vector metadata. Besides the result, the
    * method returns the backends it called, in order. */
  method StoreData(source: string, dataType: string, raw: seq<Value>, custom: Option<StorageConfig>,
                   configs: map<string, StorageConfig>, b: Backends, now: string,
                   strptime: string -> Option<string>, md5: Fingerprint -> string, saved: bool, str: Value -> string)
    returns (result: StoreResult, attempted: seq<Backend>)
    ensures var c := ResolveConfig(custom, configs, dataType);
      var p := ProcessScrapedData(raw, now, strptime, md5, saved);
      result == StoreOutcome(c, p, OutcomesOf(c, b, p.processedData, source, dataType, now, str), b)
      && attempted == (if p.success then Attempts(c, b) else [])
  {
    var config := ResolveConfig(custom, configs, dataType);
    var processing := ProcessScrapedData(raw, now, strptime, md5, saved);
    if !processing.success {
      return ProcessingFailed(processing.errors), [];
    }
    var storedLocations, errors;
    storedLocations, errors, attempted := StoreProcessed(config, processing.processedData, b, source, dataType, now, str);
    result := Stored(|storedLocations| > 0, storedLocations, errors,
                     processing.quality, processing.duplicateCount, |processing.processedData|);
  }

  /** Each mode calls only its own primary backends, in the fixed call order. */
  lemma AttemptsSpec(c: StorageConfig, b: Backends)
    ensures var xs := Attempts(c, b);
      (forall i, j | 0 <= i < j < |xs| :: Rank(xs[i]) < Rank(xs[j]))
      && (CloudSql in xs <==> SqlAttempted(c))
      && (Firestore in xs <==> FirestoreAttempted(c))
      && (VectorSearch in xs <==> VectorAttempted(c, b))
      && (Cache in xs <==> CacheAttempted(c, b))
  {
  }

  /** Filtering keeps a strictly increasing call order. */
  lemma {:induction false} SuccessfulOrdered(xs: seq<Backend>, o: Outcomes)
    requires forall i, j | 0 <= i < j < |xs| :: Rank(xs[i]) < Rank(xs[j])
    ensures forall i, j | 0 <= i < j < |Successful(xs, o)| :: Rank(Successful(xs, o)[i]) < Rank(Successful(xs, o)[j])
    decreases |xs|
  {
    if xs != [] {
      var n := |xs| - 1;
      var init := xs[..n];
      assert forall i, j | 0 <= i < j < |init| :: Rank(init[i]) < Rank(init[j]) by {
        forall i, j | 0 <= i < j < |init| ensures Rank(init[i]) < Rank(init[j]) {
          assert init[i] == xs[i] && init[j] == xs[j];
        }
      }
      SuccessfulOrdered(init, o);
      SuccessfulSpec(init, o);
      forall y | y in Successful(init, o) ensures Rank(y) < Rank(xs[n]) {
        var k :| 0 <= k < |init| && init[k] == y;
        assert xs[k] == y;
      }
    }
  }

  /** Every reported error is that of a failed attempt. */
  lemma {:induction false} FailuresFrom(xs: seq<Backend>, c: StorageConfig, o: Outcomes)
    ensures forall e | e in Failures(xs, c, o) :: exists x | x in xs :: !Succeeds(x, o) && Reported(x, c) == Some(e)
    decreases |xs|
  {
    if xs != [] {
      var n := |xs| - 1;
      FailuresFrom(xs[..n], c, o);
      assert forall x | x in xs[..n] :: x in xs;
      assert xs[n] in xs;
    }
  }

  /** A failed attempt that reports an error has it listed. */
  lemma {:induction false} FailuresHas(xs: seq<Backend>, x: Backend, c: StorageConfig, o: Outcomes)
    requires x in xs && !Succeeds(x, o) && Reported(x, c).Some?
    ensures Reported(x, c).value in Failures(xs, c, o)
    decreases |xs|
  {
    var n := |xs| - 1;
    if xs[n] != x {
      assert x in xs[..n] by {
        var k :| 0 <= k < |xs| && xs[k] == x;
        assert xs[..n][k] == x;
      }
      FailuresHas(xs[..n], x, c, o);
    }
  }

  /** The stored locations appear in call order (cloud_sql, firestore,
    * vector_search, cache) without repetition; success holds iff a location
    * was stored; a backend is stored iff it was attempted and succeeded; an
    * error is reported only for a failed attempt; and `both` reports no
    * primary failure. */
  lemma StoreOutcomeSpec(c: StorageConfig, p: ProcessingResult, o: Outcomes, b: Backends)
    requires p.success
    ensures var r := StoreOutcome(c, p, o, b);
      r.Stored?
      && (forall i, j | 0 <= i < j < |r.locations| :: Rank(r.locations[i]) < Rank(r.locations[j]))
      && (r.success <==> r.locations != [])
      && (forall x :: x in r.locations <==> x in Attempts(c, b) && Succeeds(x, o))
      && (forall e | e in r.errors :: exists x | x in Attempts(c, b) :: !Succeeds(x, o) && Reported(x, c) == Some(e))
      && (c.primaryStorage == BothStores ==> CloudSqlFailed !in r.errors && FirestoreFailed !in r.errors)
  {
    var xs := Attempts(c, b);
    assert StoreOutcome(c, p, o, b).locations == Successful(xs, o);
    assert StoreOutcome(c, p, o, b).errors == Failures(xs, c, o);
    AttemptsSpec(c, b);
    SuccessfulOrdered(xs, o);
    SuccessfulSpec(xs, o);
    FailuresFrom(xs, c, o);
    if c.primaryStorage == BothStores {
      BothReportsNoPrimary(xs, c, o);
    }
  }

  /** In the `both` mode a primary failure is never reported. */
  lemma BothReportsNoPrimary(xs: seq<Backend>, c: StorageConfig, o: Outcomes)
    requires c.primaryStorage == BothStores
    ensures CloudSqlFailed !in Failures(xs, c, o) && FirestoreFailed !in Failures(xs, c, o)
  {
    FailuresFrom(xs, c, o);
    forall e | e in Failures(xs, c, o) ensures e == VectorSearchFailed {
      var x :| x in xs && !Succeeds(x, o) && Reported(x, c) == Some(e);
    }
  }

  /** A failed processing calls no backend and reports the processing errors. */
  lemma ProcessingFailureStoresNothing(c: StorageConfig, p: ProcessingResult, o: Outcomes, b: Backends)
    requires !p.success
    ensures StoreOutcome(c, p, o, b) == ProcessingFailed(p.errors)
  {
  }

  /** As written (the save run on the already running event loop), every
    * call of store_data ends in "Data processing failed" with the processing
    * errors, and no backend is called. */
  lemma StoreDataAsWrittenStoresNothing(c: StorageConfig, raw: seq<Value>, now: string,
                                        strptime: string -> Option<string>, md5: Fingerprint -> string,
                                        batchSaved: bool, o: Outcomes, b: Backends)
    ensures var p := ProcessScrapedData(raw, now, strptime, md5, SaveToDatabaseAsWritten(true, batchSaved));
      !p.success && StoreOutcome(c, p, o, b) == ProcessingFailed(p.errors)
  {
    var p := ProcessScrapedData(raw, now, strptime, md5, SaveToDatabaseAsWritten(true, batchSaved));
    ProcessingFailsAsWritten(raw, now, strptime, md5, batchSaved);
    ProcessingFailureStoresNothing(c, p, o, b);
  }

  /** With the save awaited as intended, a batch the database accepted and
    * that neither crashes validation nor holds a datetime reaches the
    * backends: store_data reports the locations of the attempts that
    * succeeded, and succeeds iff one did. */
  lemma SavedBatchReachesBackends(c: StorageConfig, raw: seq<Value>, now: string,
                                  strptime: string -> Option<string>, md5: Fingerprint -> string,
                                  o: Outcomes, b: Backends)
    requires forall i | 0 <= i < |Cleaned(raw, now)| :: !UrlCrashes(Cleaned(raw, now)[i])
    requires Validate(Cleaned(raw, now), strptime).Validated?
             && AllHashable(Validate(Cleaned(raw, now), strptime).records)
    ensures var p := ProcessScrapedData(raw, now, strptime, md5, true);
      var r := StoreOutcome(c, p, o, b);
      && p.success && r.Stored?
      && (forall x :: x in r.locations <==> x in Attempts(c, b) && Succeeds(x, o))
      && (r.success <==> r.locations != [])
  {
    PipelineOutcome(raw, now, strptime, md5, true);
    StoreOutcomeSpec(c, ProcessScrapedData(raw, now, strptime, md5, true), o, b);
  }

  /** A vector-search failure adds its error and no location, and the primary
    * locations stay as they would be had it succeeded. */
  lemma VectorFailureKeepsPrimary(c: StorageConfig, p: ProcessingResult, o: Outcomes, b: Backends)
    requires p.success && VectorAttempted(c, b) && !o.vector
    ensures var r := StoreOutcome(c, p, o, b);
      var r' := StoreOutcome(c, p, o.(vector := true), b);
      VectorSearchFailed in r.errors && VectorSearch !in r.locations
      && (CloudSql in r.locations <==> CloudSql in r'.locations)
      && (Firestore in r.locations <==> Firestore in r'.locations)
      && (SqlAttempted(c) && o.sql ==> CloudSql in r.locations)
      && (FirestoreAttempted(c) && o.firestore ==> Firestore in r.locations)
  {
    var xs := Attempts(c, b);
    AttemptsSpec(c, b);
    SuccessfulSpec(xs, o);
    SuccessfulSpec(xs, o.(vector := true));
    FailuresHas(xs, VectorSearch, c, o);
  }

  // ---------------------------------------------------------------------
  // retrieve_data
  // ---------------------------------------------------------------------

  /** Where retrieve_data's answer comes from. */
  datatype Retrieved = FromCache(data: Value) | FromRows(rows: seq<Record>)

  /** A value Python's len() accepts: a string, a list or a dict. */
  predicate Sized(v: Value)
  {
    v.Str? || v.List? || v.Object?
  }

  /** retrieve_data: a cache hit whose entry is non-empty and holds 'data' is
    * returned first, once the debug line has taken len() of it; a 'data'
    * without a length makes that len() raise, and the handler answers [].
    * Otherwise the configuration table (no custom config here) picks Cloud
    * SQL, Firestore, or Cloud SQL then Firestore when the SQL answer is
    * empty; any other primary storage gives no rows. The cache entry and the
    * rows of each store are oracles. */
  function RetrieveData(dataType: string, useCache: bool, hasFirestore: bool, cached: Option<Record>,
                        configs: map<string, StorageConfig>, sqlRows: seq<Record>, firestoreRows: seq<Record>): (r: Retrieved)
    ensures useCache && hasFirestore && cached.Some? && cached.value != [] && HasKey(cached.value, "data") ==>
      r == (if Sized(Get(cached.value, "data").value) then FromCache(Get(cached.value, "data").value) else FromRows([]))
    ensures r.FromCache? ==> Sized(r.data)
  {
    if useCache && hasFirestore && cached.Some? && cached.value != [] && HasKey(cached.value, "data") then
      var data := Get(cached.value, "data").value;
      if Sized(data) then FromCache(data) else FromRows([])
    else
      var c := if dataType in configs then configs[dataType] else ConfigFor(CloudSqlStore);
      if c.primaryStorage == CloudSqlStore then FromRows(sqlRows)
      else if c.primaryStorage == FirestoreStore then FromRows(firestoreRows)
      else if c.primaryStorage == BothStores then FromRows(if sqlRows != [] then sqlRows else firestoreRows)
      else FromRows([])
  }

  /** Without a cache hit, the read follows the write routing: a `both` type
    * answers from Cloud SQL when it has rows and from Firestore otherwise, an
    * unknown type reads Cloud SQL, and an unrecognised primary storage gives
    * nothing. */
  lemma RetrieveDataFallback(dataType: string, useCache: bool, hasFirestore: bool, cached: Option<Record>,
                             configs: map<string, StorageConfig>, sqlRows: seq<Record>, firestoreRows: seq<Record>)
    requires !(useCache && hasFirestore && cached.Some? && cached.value != [] && HasKey(cached.value, "data"))
    ensures var r := RetrieveData(dataType, useCache, hasFirestore, cached, configs, sqlRows, firestoreRows);
      (dataType !in configs ==> r == FromRows(sqlRows))
      && (dataType in configs && configs[dataType].primaryStorage == BothStores ==>
            r == FromRows(if sqlRows != [] then sqlRows else firestoreRows))
      && (dataType in configs && configs[dataType].primaryStorage.OtherStore? ==> r == FromRows([]))
  {
  }
}
