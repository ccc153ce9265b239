/** The MongoDB-backed WhatsApp credential store. Three near-identical copies
    exist: app/extensions/mongodb-auth-state.ts (`mongodbAuthState`, with
    `removeCreds`), app/extensions/use-mongodb-auth-state.ts and
    app/extension/use-mongodb-auth-state.ts (`useMongoDBAuthState`, without
    it). They share one adapter here and differ only in their factories.

    A collection is a map from `_id` to a document; the BufferJSON
    replacer/reviver pair and the protobuf conversion of
    `app-state-sync-key` values are taken to round-trip exactly, so a
    document is modelled as the value it stores. */
module AuthState {
  import opened Wrappers

  /** A stored document: the JSON form of a credential value. */
  datatype Doc = Doc(json: string)

  /** One signal-key write of `keys.set`: the key and the value, `None`
      standing for a falsy value (null or undefined). */
  type Write = (string, Option<Doc>)

  /** The root record's key, `creds-<sessionId>`. */
  function RootKey(sessionId: string): string
  {
    "creds-" + sessionId
  }

  /** A signal-data key, `<category>-<id>-<sessionId>`. */
  function SignalKey(category: string, id: string, sessionId: string): string
  {
    category + "-" + id + "-" + sessionId
  }

  /** Within one session no signal key is the root key. */
  lemma SignalKeyNeverRoot(category: string, id: string, sessionId: string)
    ensures SignalKey(category, id, sessionId) != RootKey(sessionId)
  {
    var k := SignalKey(category, id, sessionId);
    if |k| == |RootKey(sessionId)| {
      assert |category| + |id| == 4;
      assert k[|category|] == '-';
      assert RootKey(sessionId)[|category|] != '-';
    }
  }

  /** The signal key is not one-to-one in (category, id): a dash may move
      between the two. */
  lemma SignalKeyAmbiguous(sessionId: string)
    ensures SignalKey("a-b", "c", sessionId) == SignalKey("a", "b-c", sessionId)
  {
  }

  /** The documents of a collection, empty when it does not exist. */
  function Collection(collections: map<string, map<string, Doc>>, name: string): map<string, Doc>
  {
    if name in collections then collections[name] else map[]
  }

  /** One write applied: a value is upserted, a falsy one deletes. */
  function Apply(docs: map<string, Doc>, w: Write): (r: map<string, Doc>)
    ensures w.1.Some? ==> w.0 in r && r[w.0] == w.1.value
    ensures w.1.None? ==> w.0 !in r
    ensures forall k :: k != w.0 ==> (k in r <==> k in docs) && (k in r ==> r[k] == docs[k])
  {
    match w.1
    case Some(d) => docs[w.0 := d]
    case None => docs - {w.0}
  }

  /** The writes applied in order. */
  function ApplyWrites(docs: map<string, Doc>, writes: seq<Write>): map<string, Doc>
    decreases |writes|
  {
    if |writes| == 0 then docs
    else Apply(ApplyWrites(docs, writes[..|writes| - 1]), writes[|writes| - 1])
  }

  /** A document lookup, `None` for an absent `_id` (`findOne` gives null). */
  function Lookup(docs: map<string, Doc>, key: string): (r: Option<Doc>)
    ensures r.Some? <==> key in docs
    ensures r.Some? ==> r.value == docs[key]
  {
    if key in docs then Some(docs[key]) else None
  }

  /** The value of the last write to `key`, `None` if there is none. */
  function LastWrite(writes: seq<Write>, key: string): (r: Option<Option<Doc>>)
    ensures r.None? <==> forall i :: 0 <= i < |writes| ==> writes[i].0 != key
    ensures r.Some? ==> exists i :: 0 <= i < |writes| && writes[i] == (key, r.value)
                                    && forall j :: i < j < |writes| ==> writes[j].0 != key
    decreases |writes|
  {
    if |writes| == 0 then None
    else if writes[|writes| - 1].0 == key then
      var i := |writes| - 1;
      assert writes[i] == (key, writes[i].1);
      Some(writes[i].1)
    else
      var front := writes[..|writes| - 1];
      var r := LastWrite(front, key);
      if r.Some? then
        var i :| 0 <= i < |front| && front[i] == (key, r.value)
                 && forall j :: i < j < |front| ==> front[j].0 != key;
        assert writes[i] == (key, r.value);
        r
      else r
  }

  /** After a batch of writes a key holds what its last write put there, and
      a key no write mentions is as it was. */
  lemma {:induction false} LastWriteWins(docs: map<string, Doc>, writes: seq<Write>, key: string)
    ensures Lookup(ApplyWrites(docs, writes), key) ==
      match LastWrite(writes, key)
      case None => Lookup(docs, key)
      case Some(v) => v
    decreases |writes|
  {
    if |writes| > 0 {
      LastWriteWins(docs, writes[..|writes| - 1], key);
    }
  }

  /** The writes of `keys.set(data)` for one category, in order. */
  function Entries(category: string, items: seq<(string, Option<Doc>)>, sessionId: string)
    : (r: seq<Write>)
    ensures |r| == |items|
    ensures forall j :: 0 <= j < |items| ==>
      r[j] == (SignalKey(category, items[j].0, sessionId), items[j].1)
    decreases |items|
  {
    if |items| == 0 then []
    else
      var last := items[|items| - 1];
      Entries(category, items[..|items| - 1], sessionId)
      + [(SignalKey(category, last.0, sessionId), last.1)]
  }

  /** The writes of `keys.set(data)`: category by category, id by id. */
  function Flatten(data: seq<(string, seq<(string, Option<Doc>)>)>, sessionId: string)
    : seq<Write>
    decreases |data|
  {
    if |data| == 0 then []
    else
      var last := data[|data| - 1];
      Flatten(data[..|data| - 1], sessionId) + Entries(last.0, last.1, sessionId)
  }

  /** The writes of `keys.set(data)` are exactly one per (category, id)
      entry of `data`. */
  lemma {:induction false} FlattenMember(data: seq<(string, seq<(string, Option<Doc>)>)>,
                                         sessionId: string, w: Write)
    ensures w in Flatten(data, sessionId) <==>
      exists i, j :: 0 <= i < |data| && 0 <= j < |data[i].1|
                     && w == (SignalKey(data[i].0, data[i].1[j].0, sessionId), data[i].1[j].1)
    decreases |data|
  {
    if |data| > 0 {
      var n := |data| - 1;
      var front := data[..n];
      FlattenMember(front, sessionId, w);
      var e := Entries(data[n].0, data[n].1, sessionId);
      assert Flatten(data, sessionId) == Flatten(front, sessionId) + e;
      if w in Flatten(data, sessionId) {
        if w in e {
          var j :| 0 <= j < |e| && e[j] == w;
          assert w == (SignalKey(data[n].0, data[n].1[j].0, sessionId), data[n].1[j].1);
        } else {
          var i, j :| 0 <= i < |front| && 0 <= j < |front[i].1|
                      && w == (SignalKey(front[i].0, front[i].1[j].0, sessionId), front[i].1[j].1);
          assert front[i] == data[i];
        }
      }
      if exists i, j :: 0 <= i < |data| && 0 <= j < |data[i].1|
                        && w == (SignalKey(data[i].0, data[i].1[j].0, sessionId), data[i].1[j].1) {
        var i, j :| 0 <= i < |data| && 0 <= j < |data[i].1|
                    && w == (SignalKey(data[i].0, data[i].1[j].0, sessionId), data[i].1[j].1);
        if i == n {
          assert e[j] == w;
        } else {
          assert front[i] == data[i];
        }
      }
    }
  }

  /** `keys.set` never touches the session's root credentials record. */
  lemma KeysSetKeepsRoot(docs: map<string, Doc>, data: seq<(string, seq<(string, Option<Doc>)>)>,
                         sessionId: string)
    ensures Lookup(ApplyWrites(docs, Flatten(data, sessionId)), RootKey(sessionId))
         == Lookup(docs, RootKey(sessionId))
  {
    var writes := Flatten(data, sessionId);
    forall k | 0 <= k < |writes| ensures writes[k].0 != RootKey(sessionId) {
      FlattenMember(data, sessionId, writes[k]);
      var i, j :| 0 <= i < |data| && 0 <= j < |data[i].1|
                  && writes[k] == (SignalKey(data[i].0, data[i].1[j].0, sessionId), data[i].1[j].1);
      SignalKeyNeverRoot(data[i].0, data[i].1[j].0, sessionId);
    }
    LastWriteWins(docs, writes, RootKey(sessionId));
  }

  lemma ApplyWritesSnoc(docs: map<string, Doc>, writes: seq<Write>, w: Write)
    ensures ApplyWrites(docs, writes + [w]) == Apply(ApplyWrites(docs, writes), w)
  {
    assert (writes + [w])[..|writes|] == writes;
  }

  /** The database: collections by name. */
  class Database {
    var collections: map<string, map<string, Doc>>

    constructor(collections: map<string, map<string, Doc>>)
      ensures this.collections == collections
    {
      this.collections := collections;
    }

    /** `ensureCollectionExists`: creates an empty collection only when no
        collection has that name. */
    method EnsureCollectionExists(name: string)
      modifies this
      ensures name in collections
      ensures collections == if name in old(collections) then old(collections)
                             else old(collections)[name := map[]]
    {
      if name !in collections {
        collections := collections[name := map[]];
      }
    }
  }

  /** Calling `ensureCollectionExists` a second time changes nothing. */
  method EnsureCollectionTwice(db: Database, name: string)
    modifies db
    ensures db.collections == if name in old(db.collections) then old(db.collections)
                              else old(db.collections)[name := map[]]
  {
    db.EnsureCollectionExists(name);
    ghost var once := db.collections;
    db.EnsureCollectionExists(name);
    assert db.collections == once;
  }

  /** The adapter one factory call returns: its collection, its session, the
      credentials it holds, and its key store. */
  class Adapter {
    const db: Database
    const collectionName: string
    const sessionId: string
    /** Whether this copy offers `removeCreds`. */
    const hasRemoveCreds: bool
    var creds: Doc

    constructor(db: Database, collectionName: string, sessionId: string,
                hasRemoveCreds: bool, creds: Doc)
      ensures this.db == db && this.collectionName == collectionName
      ensures this.sessionId == sessionId && this.hasRemoveCreds == hasRemoveCreds
      ensures this.creds == creds
    {
      this.db := db;
      this.collectionName := collectionName;
      this.sessionId := sessionId;
      this.hasRemoveCreds := hasRemoveCreds;
      this.creds := creds;
    }

    function Documents(): map<string, Doc>
      reads db
    {
      Collection(db.collections, collectionName)
    }

    /** `readData(key)`: the stored document, null when absent. */
    function ReadData(key: string): (r: Option<Doc>)
      reads db
      ensures r.Some? <==> key in Documents()
      ensures r.Some? ==> r.value == Documents()[key]
    {
      Lookup(Documents(), key)
    }

    /** `writeData(data, key)`: `replaceOne` with upsert. Reading the key
        back gives the data; every other key reads as before. */
    method WriteData(data: Doc, key: string)
      modifies db
      ensures db.collections == old(db.collections)[collectionName := old(Documents())[key := data]]
      ensures ReadData(key) == Some(data)
      ensures forall k :: k != key ==> ReadData(k) == old(ReadData(k))
    {
      db.collections := db.collections[collectionName := Documents()[key := data]];
    }

    /** `removeData(key)`: `deleteOne`. */
    method RemoveData(key: string)
      modifies db
      ensures db.collections == old(db.collections)[collectionName := old(Documents()) - {key}]
      ensures ReadData(key) == None
      ensures forall k :: k != key ==> ReadData(k) == old(ReadData(k))
    {
      db.collections := db.collections[collectionName := Documents() - {key}];
    }

    /** `keys.get(type, ids)`: one entry per requested id, holding the stored
        value of `<type>-<id>-<sessionId>`, null when there is none. */
    method KeysGet(category: string, ids: seq<string>) returns (data: map<string, Option<Doc>>)
      ensures data.Keys == set id | id in ids
      ensures forall id :: id in ids ==> data[id] == ReadData(SignalKey(category, id, sessionId))
    {
      data := map[];
      var i := 0;
      while i < |ids|
        invariant 0 <= i <= |ids|
        invariant data.Keys == set id | id in ids[..i]
        invariant forall id :: id in data ==> data[id] == ReadData(SignalKey(category, id, sessionId))
      {
        var value := ReadData(SignalKey(category, ids[i], sessionId));
        data := data[ids[i] := value];
        assert ids[..i + 1] == ids[..i] + [ids[i]];
        i := i + 1;
      }
      assert ids[..i] == ids;
    }

    /** One task of `keys.set`: `value ? writeData(value, key) : removeData(key)`. */
    method SetEntry(key: string, value: Option<Doc>)
      modifies db
      ensures Documents() == Apply(old(Documents()), (key, value))
      ensures db.collections - {collectionName} == old(db.collections) - {collectionName}
    {
      if value.Some? {
        WriteData(value.value, key);
      } else {
        RemoveData(key);
      }
    }

    /** `keys.set(data)`: for every category and id, a value is upserted
        under its signal key and a falsy value deletes the key. */
    method KeysSet(data: seq<(string, seq<(string, Option<Doc>)>)>)
      modifies db
      ensures Documents() == ApplyWrites(old(Documents()), Flatten(data, sessionId))
      ensures db.collections - {collectionName} == old(db.collections) - {collectionName}
    {
      ghost var start := Documents();
      var i := 0;
      while i < |data|
        invariant 0 <= i <= |data|
        invariant Documents() == ApplyWrites(start, Flatten(data[..i], sessionId))
        invariant db.collections - {collectionName} == old(db.collections) - {collectionName}
      {
        var category := data[i].0;
        var items := data[i].1;
        ghost var done := Flatten(data[..i], sessionId);
        assert items[..0] == [];
        assert done + Entries(category, items[..0], sessionId) == done;
        var j := 0;
        while j < |items|
          invariant 0 <= j <= |items|
          invariant Documents() == ApplyWrites(start, done + Entries(category, items[..j], sessionId))
          invariant db.collections - {collectionName} == old(db.collections) - {collectionName}
        {
          var id := items[j].0;
          var value := items[j].1;
          var key := SignalKey(category, id, sessionId);
          ghost var before := done + Entries(category, items[..j], sessionId);
          SetEntry(key, value);
          assert items[..j + 1][..j] == items[..j];
          assert done + Entries(category, items[..j + 1], sessionId) == before + [(key, value)];
          ApplyWritesSnoc(start, before, (key, value));
          j := j + 1;
        }
        assert items[..j] == items;
        assert data[..i + 1][..i] == data[..i];
        i := i + 1;
      }
      assert data[..i] == data;
    }

    /** `saveCreds`: the held credentials overwrite the root record. */
    method SaveCreds()
      modifies db
      ensures ReadData(RootKey(sessionId)) == Some(creds)
      ensures forall k :: k != RootKey(sessionId) ==> ReadData(k) == old(ReadData(k))
    {
      WriteData(creds, RootKey(sessionId));
    }

    /** `removeCreds`: deletes the root record (in `mongodbAuthState` only). */
    method RemoveCreds()
      requires hasRemoveCreds
      modifies db
      ensures ReadData(RootKey(sessionId)) == None
      ensures forall k :: k != RootKey(sessionId) ==> ReadData(k) == old(ReadData(k))
    {
      RemoveData(RootKey(sessionId));
    }
  }

  /** The part shared by the three factories: the collection is ensured,
      then the credentials are the stored root record or, when there is none,
      the fresh `initAuthCreds()` value `initCreds`. */
  method Open(db: Database, collectionName: string, sessionId: string, hasRemoveCreds: bool,
              initCreds: Doc)
    returns (a: Adapter)
    modifies db
    ensures fresh(a) && a.db == db && a.collectionName == collectionName
    ensures a.sessionId == sessionId && a.hasRemoveCreds == hasRemoveCreds
    ensures collectionName in db.collections
    ensures db.collections == if collectionName in old(db.collections) then old(db.collections)
                              else old(db.collections)[collectionName := map[]]
    ensures a.creds == Lookup(Collection(old(db.collections), collectionName), RootKey(sessionId))
                         .GetOr(initCreds)
  {
    db.EnsureCollectionExists(collectionName);
    var stored := Lookup(Collection(db.collections, collectionName), RootKey(sessionId));
    var creds := if stored.Some? then stored.value else initCreds;
    a := new Adapter(db, collectionName, sessionId, hasRemoveCreds, creds);
  }

  /** `mongodbAuthState` (app/extensions/mongodb-auth-state.ts). */
  method MongodbAuthState(db: Database, collectionName: string, sessionId: string, initCreds: Doc)
    returns (a: Adapter)
    modifies db
    ensures fresh(a) && a.db == db && a.collectionName == collectionName
    ensures a.sessionId == sessionId && a.hasRemoveCreds
    ensures collectionName in db.collections
    ensures a.creds == Lookup(Collection(old(db.collections), collectionName), RootKey(sessionId))
                         .GetOr(initCreds)
  {
    a := Open(db, collectionName, sessionId, true, initCreds);
  }

  /** `useMongoDBAuthState` (app/extensions/use-mongodb-auth-state.ts). */
  method UseMongoDBAuthState(db: Database, collectionName: string, sessionId: string, initCreds: Doc)
    returns (a: Adapter)
    modifies db
    ensures fresh(a) && a.db == db && a.collectionName == collectionName
    ensures a.sessionId == sessionId && !a.hasRemoveCreds
    ensures collectionName in db.collections
    ensures a.creds == Lookup(Collection(old(db.collections), collectionName), RootKey(sessionId))
                         .GetOr(initCreds)
  {
    a := Open(db, collectionName, sessionId, false, initCreds);
  }

  /** The older `useMongoDBAuthState` (app/extension/use-mongodb-auth-state.ts). */
  method LegacyUseMongoDBAuthState(db: Database, collectionName: string, sessionId: string,
                                   initCreds: Doc)
    returns (a: Adapter)
    modifies db
    ensures fresh(a) && a.db == db && a.collectionName == collectionName
    ensures a.sessionId == sessionId && !a.hasRemoveCreds
    ensures collectionName in db.collections
    ensures a.creds == Lookup(Collection(old(db.collections), collectionName), RootKey(sessionId))
                         .GetOr(initCreds)
  {
    a := Open(db, collectionName, sessionId, false, initCreds);
  }

  /** Saved credentials are what the next adapter for the session starts
      from; after `removeCreds` the next adapter starts from fresh ones. */
  method SaveThenRemove(db: Database, collectionName: string, sessionId: string, initCreds: Doc)
    returns (a: Adapter, b: Adapter, c: Adapter)
    modifies db
    ensures b.creds == a.creds
    ensures c.creds == initCreds
  {
    a := MongodbAuthState(db, collectionName, sessionId, initCreds);
    a.SaveCreds();
    b := MongodbAuthState(db, collectionName, sessionId, initCreds);
    a.RemoveCreds();
    c := MongodbAuthState(db, collectionName, sessionId, initCreds);
  }
}
