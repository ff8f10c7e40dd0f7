// The Firestore document store used for short-lived data: temporary
// batches, cache entries and user sessions, each document stamped with an
// `expires_at` time. The database is a map from collection name to a map
// from document id to document; the clock is an explicit `now` (seconds).
module FirestoreConfig {
  import opened Wrappers
  import opened Text
  import opened Json

  const TemporaryData: string := "temporary_data"
  const Cache: string := "cache"
  const UserSessions: string := "user_sessions"
  const VectorEmbeddings: string := "vector_embeddings"

  const SecondsPerDay: int := 86400

  /** default_ttl_days of the collection table; vector_embeddings has none. */
  function DefaultTtlDays(collection: string): Option<int>
  {
    if collection == TemporaryData then Some(7)
    else if collection == Cache then Some(1)
    else if collection == UserSessions then Some(30)
    else None
  }

  /** The collections whose documents expire. */
  const TtlCollections: seq<string> := [TemporaryData, Cache, UserSessions]

  /** get_collection_ref: the collection actually addressed. */
  function CollectionName(prefix: string, name: string): (full: string)
    ensures StartsWith(full, prefix + "_")
  {
    var full := prefix + "_" + name;
    assert full[..|prefix + "_"|] == prefix + "_";
    full
  }

  /** Two names address the same collection only if they are equal. */
  lemma CollectionNameInjective(prefix: string, a: string, b: string)
    requires CollectionName(prefix, a) == CollectionName(prefix, b)
    ensures a == b
  {
    var n := |prefix + "_"|;
    assert a == CollectionName(prefix, a)[n..];
    assert b == CollectionName(prefix, b)[n..];
  }

  /** `ttl_days or default`: both None and 0 fall back to the default. */
  function TtlDays(ttlDays: Option<int>, default: int): int
  {
    if ttlDays.None? || ttlDays.value == 0 then default else ttlDays.value
  }

  /** utcnow() + timedelta(days=...), in seconds. */
  function ExpiresAt(now: int, ttlDays: Option<int>, default: int): int
  {
    now + TtlDays(ttlDays, default) * SecondsPerDay
  }

  /** A missing or zero TTL gives the collection's default lifetime; any
    * other TTL is used as given. */
  lemma ExpiresAtSpec(now: int, ttlDays: Option<int>, default: int)
    ensures ttlDays.None? || ttlDays == Some(0) ==> ExpiresAt(now, ttlDays, default) == now + default * 86400
    ensures ttlDays.Some? && ttlDays.value != 0 ==> ExpiresAt(now, ttlDays, default) == now + ttlDays.value * 86400
  {
  }

  /** {**data, k1: v1, k2: v2, ...}: later keys override earlier ones. */
  function WithFields(data: Record, extra: seq<(string, Value)>): (r: Record)
    decreases |extra|
  {
    if extra == [] then data
    else WithFields(SetKey(data, extra[0].0, extra[0].1), extra[1..])
  }

  /** A key of the added fields takes its last added value; any other key
    * keeps the value it had. */
  lemma {:induction false} WithFieldsGet(data: Record, extra: seq<(string, Value)>, k: string)
    ensures Get(WithFields(data, extra), k) == if Get(extra, k).Some? then Get(Reverse(extra), k) else Get(data, k)
    decreases |extra|
  {
    if extra != [] {
      WithFieldsGet(SetKey(data, extra[0].0, extra[0].1), extra[1..], k);
      ReverseGetSome(extra[1..], k);
      ReverseCons(extra);
      GetAppend(Reverse(extra[1..]), [extra[0]], k);
      GetAppend([extra[0]], extra[1..], k);
      assert [extra[0]] + extra[1..] == extra;
    }
  }

  function Reverse<T>(s: seq<T>): (r: seq<T>)
    ensures |r| == |s|
  {
    if s == [] then [] else Reverse(s[1..]) + [s[0]]
  }

  lemma ReverseCons<T>(s: seq<T>)
    requires s != []
    ensures Reverse(s) == Reverse(s[1..]) + [s[0]]
  {
  }

  lemma {:induction false} ReverseGetSome(s: seq<(string, Value)>, k: string)
    ensures Get(Reverse(s), k).Some? <==> Get(s, k).Some?
  {
    if s != [] {
      ReverseGetSome(s[1..], k);
      GetAppend(Reverse(s[1..]), [s[0]], k);
    }
  }

  /** Looking up a key in a concatenation looks in the first part first. */
  lemma {:induction false} GetAppend(a: Record, b: Record, k: string)
    ensures Get(a + b, k) == if Get(a, k).Some? then Get(a, k) else Get(b, k)
  {
    if a != [] {
      assert (a + b)[1..] == a[1..] + b;
      GetAppend(a[1..], b, k);
    } else {
      assert a + b == b;
    }
  }

  /** set(doc, merge=True): the written fields replace those of an existing
    * document, whose other fields are kept; a new document is just the
    * written fields. */
  function Merge(existing: Option<Record>, doc: Record): Record
  {
    if existing.None? then doc else WithFields(existing.value, doc)
  }

  /** The document the TTL checks of the get_* accessors see. */
  datatype Read =
    | Missing          // no such document
    | Expired          // expires_at < now: deleted, None returned
    | Unreadable       // expires_at is not a datetime: the comparison raises, None returned
    | Found(doc: Record)

  /** get_temporary_data / get_cache_entry / get_user_session on one document. */
  function ReadAt(doc: Option<Record>, now: int): (r: Read)
    ensures r.Found? ==> Some(r.doc) == doc
  {
    if doc.None? then Missing
    else
      match Get(doc.value, "expires_at")
      case None => Found(doc.value)
      case Some(Time(t)) => if t < now then Expired else Found(doc.value)
      case Some(_) => Unreadable
  }

  /** A document is returned unless it is missing, has expired strictly
    * before now, or carries an expiry that is not a time; a document that
    * expires exactly now is still returned. */
  lemma ReadAtSpec(doc: Record, t: int, now: int)
    requires Get(doc, "expires_at") == Some(Time(t))
    ensures ReadAt(Some(doc), now) == if t < now then Expired else Found(doc)
    ensures t == now ==> ReadAt(Some(doc), now) == Found(doc)
  {
  }

  /** What the get_* accessors return. */
  function Returned(r: Read): Option<Record>
  {
    if r.Found? then Some(r.doc) else None
  }

  /** The expired documents, as the `expires_at < now` query selects them:
    * only time-valued expiries compare. */
  predicate ExpiredDoc(doc: Record, now: int)
  {
    match Get(doc, "expires_at")
    case Some(Time(t)) => t < now
    case _ => false
  }

  function ExpiredIds(docs: map<string, Record>, now: int): set<string>
  {
    set id | id in docs && ExpiredDoc(docs[id], now)
  }

  /** The documents the clean-up keeps. */
  function Unexpired(docs: map<string, Record>, now: int): (kept: map<string, Record>)
    ensures forall id | id in kept :: id in docs && kept[id] == docs[id] && !ExpiredDoc(docs[id], now)
    ensures forall id | id in docs && !ExpiredDoc(docs[id], now) :: id in kept
  {
    map id | id in docs && !ExpiredDoc(docs[id], now) :: docs[id]
  }

  /** The documents of the temporary collection as save_temporary_data writes them. */
  function TemporaryDoc(dataType: string, data: Record, now: int, ttlDays: Option<int>): Record
  {
    WithFields(data, [("data_type", Str(dataType)), ("created_at", Time(now)),
                      ("expires_at", Time(ExpiresAt(now, ttlDays, 7)))])
  }

  function CacheDoc(cacheKey: string, data: Record, now: int, ttlDays: Option<int>): Record
  {
    WithFields(data, [("cache_key", Str(cacheKey)), ("created_at", Time(now)),
                      ("expires_at", Time(ExpiresAt(now, ttlDays, 1)))])
  }

  function SessionDoc(sessionId: string, data: Record, now: int, ttlDays: Option<int>): Record
  {
    WithFields(data, [("session_id", Str(sessionId)), ("updated_at", Time(now)),
                      ("expires_at", Time(ExpiresAt(now, ttlDays, 30)))])
  }

  /** A stamped document carries the stamp's fields, and every other field
    * of the data as given. */
  lemma {:induction false} StampedFields(data: Record, stamp: seq<(string, Value)>, k: string)
    requires DistinctKeys(stamp)
    ensures Get(stamp, k).Some? ==> Get(WithFields(data, stamp), k) == Get(stamp, k)
    ensures Get(stamp, k).None? ==> Get(WithFields(data, stamp), k) == Get(data, k)
    decreases |stamp|
  {
    WithFieldsGet(data, stamp, k);
    if Get(stamp, k).Some? {
      DistinctReverseGet(stamp, k);
    }
  }

  /** A key that no pair carries is not found. */
  lemma {:induction false} GetAbsent(s: seq<(string, Value)>, k: string)
    requires forall i | 0 <= i < |s| :: s[i].0 != k
    ensures Get(s, k).None?
  {
    if s != [] {
      GetAbsent(s[1..], k);
    }
  }

  /** With distinct keys, the first and the last pair with a key are the same. */
  lemma {:induction false} DistinctReverseGet(s: seq<(string, Value)>, k: string)
    requires DistinctKeys(s)
    ensures Get(Reverse(s), k) == Get(s, k)
  {
    if s != [] {
      DistinctReverseGet(s[1..], k);
      GetAppend(Reverse(s[1..]), [s[0]], k);
      ReverseGetSome(s[1..], k);
      if s[0].0 == k {
        GetAbsent(s[1..], k);
      }
    }
  }

  /** A Python dict: no key appears twice. */
  predicate DistinctKeys(r: seq<(string, Value)>)
  {
    forall i, j | 0 <= i < j < |r| :: r[i].0 != r[j].0
  }

  lemma {:induction false} SetKeyDistinct(r: Record, k: string, v: Value)
    requires DistinctKeys(r)
    ensures DistinctKeys(SetKey(r, k, v))
  {
    SetKeyKeys(r, k, v);
    var r' := SetKey(r, k, v);
    forall i, j | 0 <= i < j < |r'| ensures r'[i].0 != r'[j].0 {
      assert Keys(r')[i] == r'[i].0 && Keys(r')[j] == r'[j].0;
      if k !in Keys(r) && j == |r| {
        assert Keys(r)[i] == r[i].0;
      } else {
        assert Keys(r)[i] == r[i].0 && Keys(r)[j] == r[j].0;
      }
    }
  }

  lemma {:induction false} WithFieldsDistinct(data: Record, extra: seq<(string, Value)>)
    requires DistinctKeys(data)
    ensures DistinctKeys(WithFields(data, extra))
    decreases |extra|
  {
    if extra != [] {
      SetKeyDistinct(data, extra[0].0, extra[0].1);
      WithFieldsDistinct(SetKey(data, extra[0].0, extra[0].1), extra[1..]);
    }
  }

  /** A merge write: the written document's fields win, the stored
    * document's other fields survive. */
  lemma MergeGet(existing: Option<Record>, doc: Record, k: string)
    requires DistinctKeys(doc)
    ensures Get(Merge(existing, doc), k)
            == if Get(doc, k).Some? || existing.None? then Get(doc, k) else Get(existing.value, k)
  {
    if existing.Some? {
      WithFieldsGet(existing.value, doc, k);
      DistinctReverseGet(doc, k);
    }
  }

  /** The stamps of a cache document. */
  lemma CacheDocFields(cacheKey: string, data: Record, now: int, ttlDays: Option<int>, k: string)
    requires DistinctKeys(data)
    ensures var doc := CacheDoc(cacheKey, data, now, ttlDays);
      && DistinctKeys(doc)
      && Get(doc, "cache_key") == Some(Str(cacheKey))
      && Get(doc, "expires_at") == Some(Time(ExpiresAt(now, ttlDays, 1)))
      && (k != "cache_key" && k != "created_at" && k != "expires_at" ==> Get(doc, k) == Get(data, k))
  {
    var e := ExpiresAt(now, ttlDays, 1);
    var stamp := [("cache_key", Str(cacheKey)), ("created_at", Time(now)), ("expires_at", Time(e))];
    WithFieldsDistinct(data, stamp);
    assert "cache_key" != "expires_at" && "created_at"[1] != "expires_at"[1];
    assert Get(stamp[2..], "expires_at") == Some(Time(e));
    assert Get(stamp[1..], "expires_at") == Some(Time(e));
    StampedFields(data, stamp, "cache_key");
    StampedFields(data, stamp, "expires_at");
    StampedFields(data, stamp, k);
  }

  /** Saving a cache entry and reading it back before it expires returns
    * the data with the key and the time stamps added, over whatever was
    * stored under the key before. */
  lemma CacheRoundTrip(existing: Option<Record>, cacheKey: string, data: Record, now: int, ttlDays: Option<int>,
                       later: int, k: string)
    requires DistinctKeys(data)
    requires now <= later <= ExpiresAt(now, ttlDays, 1)
    ensures ReadAt(Some(Merge(existing, CacheDoc(cacheKey, data, now, ttlDays))), later).Found?
    ensures var d := ReadAt(Some(Merge(existing, CacheDoc(cacheKey, data, now, ttlDays))), later).doc;
      && Get(d, "cache_key") == Some(Str(cacheKey))
      && Get(d, "expires_at") == Some(Time(ExpiresAt(now, ttlDays, 1)))
      && (k != "cache_key" && k != "created_at" && k != "expires_at" && Get(data, k).Some?
          ==> Get(d, k) == Get(data, k))
  {
    var doc := CacheDoc(cacheKey, data, now, ttlDays);
    var merged := Merge(existing, doc);
    CacheDocFields(cacheKey, data, now, ttlDays, k);
    MergeGet(existing, doc, "cache_key");
    MergeGet(existing, doc, "expires_at");
    MergeGet(existing, doc, k);
    FreshRead(merged, later, ExpiresAt(now, ttlDays, 1));
  }

  /** A document whose expiry is not yet past reads back as it is. */
  lemma FreshRead(doc: Record, later: int, e: int)
    requires Get(doc, "expires_at") == Some(Time(e)) && later <= e
    ensures ReadAt(Some(doc), later) == Found(doc)
  {
  }

  // ---------------------------------------------------------------------
  // The database: collection name -> document id -> document
  // ---------------------------------------------------------------------

  type Db = map<string, map<string, Record>>

  /** The documents of a collection; one never written is empty. */
  function DocsOf(db: Db, full: string): map<string, Record>
  {
    if full in db then db[full] else map[]
  }

  function DocOf(db: Db, full: string, id: string): Option<Record>
  {
    if id in DocsOf(db, full) then Some(DocsOf(db, full)[id]) else None
  }

  /** The database after writing one document. */
  function Put(db: Db, full: string, id: string, doc: Record): Db
  {
    db[full := DocsOf(db, full)[id := doc]]
  }

  /** The database after deleting one document. */
  function Delete(db: Db, full: string, id: string): Db
  {
    db[full := DocsOf(db, full) - {id}]
  }

  /** The database after the clean-up of one collection. */
  function Cleaned(db: Db, full: string, now: int): Db
  {
    if full in db then db[full := Unexpired(db[full], now)] else db
  }

  /** The database after cleanup_all_expired under the given prefix. */
  function CleanedAll(db: Db, prefix: string, now: int): Db
  {
    Cleaned(Cleaned(Cleaned(db, CollectionName(prefix, TemporaryData), now),
                    CollectionName(prefix, Cache), now),
            CollectionName(prefix, UserSessions), now)
  }

  /** The documents whose ids are not among those given. */
  function Without(docs: map<string, Record>, gone: set<string>): map<string, Record>
  {
    map id | id in docs && id !in gone :: docs[id]
  }

  lemma WithoutStep(docs: map<string, Record>, gone: set<string>, id: string)
    ensures Without(docs, gone + {id}) == Without(docs, gone) - {id}
  {
  }

  /** Deleting one more of the ids still to go extends the deleted set by it. */
  lemma DeleteStep(db: Db, full: string, docs: map<string, Record>, ids: set<string>, remaining: set<string>, id: string)
    requires remaining <= ids && id in remaining
    ensures Delete(db[full := Without(docs, ids - remaining)], full, id)
            == db[full := Without(docs, ids - (remaining - {id}))]
    ensures |ids - (remaining - {id})| == |ids - remaining| + 1
  {
    var gone := ids - remaining;
    assert ids - (remaining - {id}) == gone + {id};
    WithoutStep(docs, gone, id);
  }

  /** The client's view of the database, under one collection prefix. */
  class FirestoreManager {
    const prefix: string
    var store: Db

    constructor(collectionPrefix: string, initial: Db)
      ensures prefix == collectionPrefix && store == initial
    {
      prefix := collectionPrefix;
      store := initial;
    }

    /** save_temporary_data: a new document, stamped with its type, creation
      * time and expiry (7 days unless given), under the id the database
      * generates (newId, which no document of the collection has yet). The
      * id is returned, or None when the write fails. */
    method SaveTemporaryData(dataType: string, data: Record, ttlDays: Option<int>, now: int,
                             newId: string, writeOk: bool) returns (id: Option<string>)
      requires newId !in DocsOf(store, CollectionName(prefix, TemporaryData))
      modifies this
      ensures writeOk ==> id == Some(newId)
                          && store == Put(old(store), CollectionName(prefix, TemporaryData), newId, TemporaryDoc(dataType, data, now, ttlDays))
      ensures writeOk ==> var full := CollectionName(prefix, TemporaryData);
        DocsOf(store, full).Keys == DocsOf(old(store), full).Keys + {newId}
        && forall other | other in DocsOf(old(store), full) :: DocOf(store, full, other) == DocOf(old(store), full, other)
      ensures !writeOk ==> id.None? && store == old(store)
    {
      if !writeOk {
        return None;
      }
      var doc := WithFields(data, [("data_type", Str(dataType)), ("created_at", Time(now)),
                                   ("expires_at", Time(ExpiresAt(now, ttlDays, DefaultTtlDays(TemporaryData).value)))]);
      store := Put(store, CollectionName(prefix, TemporaryData), newId, doc);
      return Some(newId);
    }

    /** A merge write of one document; false when the write fails. */
    method SaveMerged(name: string, id: string, doc: Record, writeOk: bool) returns (ok: bool)
      modifies this
      ensures ok == writeOk
      ensures writeOk ==> var full := CollectionName(prefix, name);
        store == Put(old(store), full, id, Merge(DocOf(old(store), full, id), doc))
      ensures !writeOk ==> store == old(store)
    {
      if !writeOk {
        return false;
      }
      var full := CollectionName(prefix, name);
      store := Put(store, full, id, Merge(DocOf(store, full, id), doc));
      return true;
    }

    /** save_cache_entry: merges the data, stamped with the key and an
      * expiry 1 day ahead unless given, into the document named by the key. */
    method SaveCacheEntry(cacheKey: string, data: Record, ttlDays: Option<int>, now: int, writeOk: bool)
      returns (ok: bool)
      modifies this
      ensures ok == writeOk
      ensures writeOk ==> var full := CollectionName(prefix, Cache);
        store == Put(old(store), full, cacheKey, Merge(DocOf(old(store), full, cacheKey), CacheDoc(cacheKey, data, now, ttlDays)))
      ensures !writeOk ==> store == old(store)
    {
      ok := SaveMerged(Cache, cacheKey, CacheDoc(cacheKey, data, now, ttlDays), writeOk);
    }

    /** save_user_session: the same for sessions, 30 days unless given. */
    method SaveUserSession(sessionId: string, sessionData: Record, ttlDays: Option<int>, now: int, writeOk: bool)
      returns (ok: bool)
      modifies this
      ensures ok == writeOk
      ensures writeOk ==> var full := CollectionName(prefix, UserSessions);
        store == Put(old(store), full, sessionId, Merge(DocOf(old(store), full, sessionId), SessionDoc(sessionId, sessionData, now, ttlDays)))
      ensures !writeOk ==> store == old(store)
    {
      ok := SaveMerged(UserSessions, sessionId, SessionDoc(sessionId, sessionData, now, ttlDays), writeOk);
    }

    /** The shared body of the get_* accessors: an expired document is
      * deleted and None returned. */
    method GetFresh(name: string, id: string, now: int) returns (r: Option<Record>)
      modifies this
      ensures var full := CollectionName(prefix, name);
        var read := ReadAt(DocOf(old(store), full, id), now);
        && r == Returned(read)
        && store == if read.Expired? then Delete(old(store), full, id) else old(store)
    {
      var full := CollectionName(prefix, name);
      var read := ReadAt(DocOf(store, full, id), now);
      if read.Expired? {
        store := Delete(store, full, id);
        return None;
      }
      return Returned(read);
    }

    method GetTemporaryData(docId: string, now: int) returns (r: Option<Record>)
      modifies this
      ensures var full := CollectionName(prefix, TemporaryData);
        var read := ReadAt(DocOf(old(store), full, docId), now);
        && r == Returned(read)
        && store == if read.Expired? then Delete(old(store), full, docId) else old(store)
    {
      r := GetFresh(TemporaryData, docId, now);
    }

    method GetCacheEntry(cacheKey: string, now: int) returns (r: Option<Record>)
      modifies this
      ensures var full := CollectionName(prefix, Cache);
        var read := ReadAt(DocOf(old(store), full, cacheKey), now);
        && r == Returned(read)
        && store == if read.Expired? then Delete(old(store), full, cacheKey) else old(store)
    {
      r := GetFresh(Cache, cacheKey, now);
    }

    method GetUserSession(sessionId: string, now: int) returns (r: Option<Record>)
      modifies this
      ensures var full := CollectionName(prefix, UserSessions);
        var read := ReadAt(DocOf(old(store), full, sessionId), now);
        && r == Returned(read)
        && store == if read.Expired? then Delete(old(store), full, sessionId) else old(store)
    {
      r := GetFresh(UserSessions, sessionId, now);
    }

    /** Deletes the given documents of a collection one by one, counting them. */
    method DeleteEach(full: string, ids: set<string>) returns (count: nat)
      requires full in store && ids <= store[full].Keys
      modifies this
      ensures count == |ids|
      ensures store == old(store)[full := Without(old(store)[full], ids)]
    {
      var docs := store[full];
      var remaining := ids;
      count := 0;
      assert Without(docs, ids - remaining) == docs;
      while remaining != {}
        invariant remaining <= ids
        invariant store == old(store)[full := Without(docs, ids - remaining)]
        invariant count == |ids - remaining|
        decreases |remaining|
      {
        var id :| id in remaining;
        DeleteStep(old(store), full, docs, ids, remaining, id);
        store := Delete(store, full, id);
        remaining := remaining - {id};
        count := count + 1;
      }
      assert ids - remaining == ids;
    }

    /** cleanup_expired_documents: deletes, one by one, every document of
      * the collection whose expiry is before now, and counts them. */
    method CleanupExpiredDocuments(name: string, now: int) returns (count: nat)
      modifies this
      ensures count == |ExpiredIds(DocsOf(old(store), CollectionName(prefix, name)), now)|
      ensures store == Cleaned(old(store), CollectionName(prefix, name), now)
    {
      var full := CollectionName(prefix, name);
      if full !in store {
        assert ExpiredIds(DocsOf(store, full), now) == {};
        return 0;
      }
      var docs := store[full];
      count := DeleteEach(full, ExpiredIds(docs, now));
      assert Without(docs, ExpiredIds(docs, now)) == Unexpired(docs, now);
    }

    /** cleanup_all_expired: the clean-up of the three expiring
      * collections in turn, with the count of each. */
    method CleanupAllExpired(now: int) returns (results: seq<(string, int)>)
      modifies this
      ensures store == CleanedAll(old(store), prefix, now)
      ensures results == CleanupCounts(old(store), prefix, now)
    {
      CollectionNamesDistinct(prefix);
      var n1 := CleanupExpiredDocuments(TemporaryData, now);
      var n2 := CleanupExpiredDocuments(Cache, now);
      var n3 := CleanupExpiredDocuments(UserSessions, now);
      results := [(TemporaryData, n1), (Cache, n2), (UserSessions, n3)];
    }
  }

  /** The counts cleanup_all_expired reports: each collection's expired
    * documents, counted when its turn comes. */
  function CleanupCounts(db: Db, prefix: string, now: int): seq<(string, int)>
  {
    var t := CollectionName(prefix, TemporaryData);
    var c := CollectionName(prefix, Cache);
    var u := CollectionName(prefix, UserSessions);
    var db1 := Cleaned(db, t, now);
    var db2 := Cleaned(db1, c, now);
    [(TemporaryData, |ExpiredIds(DocsOf(db, t), now)|),
     (Cache, |ExpiredIds(DocsOf(db1, c), now)|),
     (UserSessions, |ExpiredIds(DocsOf(db2, u), now)|)]
  }

  /** The three expiring collections are stored apart from each other and from the embeddings. */
  lemma CollectionNamesDistinct(prefix: string)
    ensures CollectionName(prefix, TemporaryData) != CollectionName(prefix, Cache)
    ensures CollectionName(prefix, TemporaryData) != CollectionName(prefix, UserSessions)
    ensures CollectionName(prefix, Cache) != CollectionName(prefix, UserSessions)
    ensures forall c | c in TtlCollections :: CollectionName(prefix, VectorEmbeddings) != CollectionName(prefix, c)
  {
    forall a, b | a in TtlCollections + [VectorEmbeddings] && b in TtlCollections + [VectorEmbeddings] && a != b
      ensures CollectionName(prefix, a) != CollectionName(prefix, b)
    {
      if CollectionName(prefix, a) == CollectionName(prefix, b) {
        CollectionNameInjective(prefix, a, b);
      }
    }
  }

  /** cleanup_all_expired cleans each of the three expiring collections as
    * if it were cleaned alone, reports each one's expired count, and
    * leaves every other collection, the vector embeddings included, as it was. */
  lemma CleanedAllSpec(db: Db, prefix: string, now: int)
    ensures forall c | c in TtlCollections ::
      DocsOf(CleanedAll(db, prefix, now), CollectionName(prefix, c)) == Unexpired(DocsOf(db, CollectionName(prefix, c)), now)
    ensures forall i | 0 <= i < 3 ::
      CleanupCounts(db, prefix, now)[i] == (TtlCollections[i], |ExpiredIds(DocsOf(db, CollectionName(prefix, TtlCollections[i])), now)|)
    ensures forall full | full != CollectionName(prefix, TemporaryData) && full != CollectionName(prefix, Cache)
                          && full != CollectionName(prefix, UserSessions) ::
      DocsOf(CleanedAll(db, prefix, now), full) == DocsOf(db, full)
    ensures DocsOf(CleanedAll(db, prefix, now), CollectionName(prefix, VectorEmbeddings))
            == DocsOf(db, CollectionName(prefix, VectorEmbeddings))
  {
    CollectionNamesDistinct(prefix);
    var t := CollectionName(prefix, TemporaryData);
    var c := CollectionName(prefix, Cache);
    var u := CollectionName(prefix, UserSessions);
    var db1 := Cleaned(db, t, now);
    var db2 := Cleaned(db1, c, now);
    CleanedDocs(db, t, now, c);
    CleanedDocs(db, t, now, u);
    CleanedDocs(db1, c, now, u);
    forall x ensures DocsOf(CleanedAll(db, prefix, now), x)
                     == if x in {t, c, u} then Unexpired(DocsOf(db, x), now) else DocsOf(db, x)
    {
      CleanedDocs(db, t, now, x);
      CleanedDocs(db1, c, now, x);
      CleanedDocs(db2, u, now, x);
    }
  }

  /** Cleaning one collection changes that collection alone. */
  lemma CleanedDocs(db: Db, full: string, now: int, other: string)
    ensures DocsOf(Cleaned(db, full, now), other)
            == if other == full then Unexpired(DocsOf(db, full), now) else DocsOf(db, other)
  {
    if full !in db {
      assert Unexpired(DocsOf(db, full), now) == map[];
    }
  }

  /** After a clean-up, no document of the collection reads as expired at
    * that time, every document still fresh is kept, and the kept and the
    * deleted documents together are all the documents there were. */
  lemma CleanupLeavesNothingExpired(docs: map<string, Record>, now: int, id: string)
    ensures id in Unexpired(docs, now) ==> !ReadAt(Some(Unexpired(docs, now)[id]), now).Expired?
    ensures id in docs && !ReadAt(Some(docs[id]), now).Expired? ==> id in Unexpired(docs, now)
    ensures |Unexpired(docs, now)| + |ExpiredIds(docs, now)| == |docs|
  {
    var kept := Unexpired(docs, now);
    var gone := ExpiredIds(docs, now);
    assert kept.Keys + gone == docs.Keys;
    assert kept.Keys * gone == {};
    assert |kept.Keys + gone| == |kept.Keys| + |gone|;
  }
}
