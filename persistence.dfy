/** What `is_duplicate` (main.py:113-128) and `store_url` (main.py:171-201) do
    to the Redis keyspace, as functions of the keyspace before the call. The
    URL is given already normalized (`n`) together with its fingerprint (`h`).
    A transport failure of the k-th Redis command of a call is `FailsAt(k)`:
    that command raises and has no effect, and the commands before it stay done. */
module Persistence {

  import opened Wrappers
  import opened KeyValue

  const UrlsKey := "claude-sdk:urls"
  const TimelineKey := "claude-sdk:urls:timeline"

  function UrlKey(h: string): string
  {
    "claude-sdk:url:" + h
  }

  function MetadataKey(h: string): string
  {
    "claude-sdk:url:" + h + ":metadata"
  }

  datatype Fault = Healthy | FailsAt(command: nat)

  /** The fault hits one of the four writes of `store_url`. */
  predicate HitsStore(fault: Fault)
  {
    fault.FailsAt? && 1 <= fault.command <= 4
  }

  /** The two signals `is_duplicate` ORs: the per-fingerprint key exists, or the
      normalized URL is a member of the URL set. */
  predicate Known(db: Db, n: string, h: string)
  {
    db.Exists(UrlKey(h)) || n in db.SetMembers(UrlsKey)
  }

  /** The reply of `is_duplicate`'s two reads (EXISTS, then SISMEMBER); None when
      either raises. Both reads run before the OR is taken. */
  function DuplicateCheck(db: Db, n: string, h: string, fault: Fault): (r: Option<bool>)
    ensures r.Some? ==> (r.value <==> Known(db, n, h))
    ensures r.None? <==> (fault == FailsAt(1) || fault == FailsAt(2) || db.SIsMember(UrlsKey, n).None?)
  {
    if fault == FailsAt(1) then None
    else
      var hashKnown := db.Exists(UrlKey(h));
      if fault == FailsAt(2) then None
      else
        match db.SIsMember(UrlsKey, n)
        case None => None
        case Some(inSet) => Some(hashKnown || inSet)
  }

  /** The caller's metadata with the three fields `store_url` writes into it. */
  function Stamp(metadata: map<string, string>, n: string, collectedAt: string, h: string): (m: map<string, string>)
    ensures m.Keys == metadata.Keys + {"url", "collected_at", "hash"}
    ensures m["url"] == n && m["collected_at"] == collectedAt && m["hash"] == h
    ensures forall k :: k in metadata && k !in {"url", "collected_at", "hash"} ==> m[k] == metadata[k]
  {
    metadata["url" := n]["collected_at" := collectedAt]["hash" := h]
  }

  datatype Written = Written(db: Db, ok: bool)

  /** The four ordered writes of `store_url`: SADD to the URL set, HSET of the
      metadata, ZADD to the timeline, SET of the lookup key; the first one that
      raises stops the sequence. */
  function Persist(db: Db, n: string, h: string, fields: map<string, string>, now: int, fault: Fault): Written
  {
    if fault == FailsAt(1) then Written(db, false)
    else match db.SAdd(UrlsKey, n)
    case None => Written(db, false)
    case Some(db1) =>
      if fault == FailsAt(2) then Written(db1, false)
      else match db1.HSet(MetadataKey(h), fields)
      case None => Written(db1, false)
      case Some(db2) =>
        if fault == FailsAt(3) then Written(db2, false)
        else match db2.ZAdd(TimelineKey, h, now)
        case None => Written(db2, false)
        case Some(db3) =>
          if fault == FailsAt(4) then Written(db3, false)
          else Written(db3.Set(UrlKey(h), n), true)
  }

  /** The keys `store_url` writes hold the types its commands expect (or are absent). */
  predicate WellTyped(db: Db, h: string)
  {
    && (UrlsKey in db.keys ==> db.keys[UrlsKey].Members?)
    && (MetadataKey(h) in db.keys ==> db.keys[MetadataKey(h)].Fields?)
    && (TimelineKey in db.keys ==> db.keys[TimelineKey].Scores?)
  }

  /** With a 16-character fingerprint the four keys are pairwise distinct. */
  lemma KeysDistinct(h: string)
    requires |h| == 16
    ensures |UrlsKey| == 15 && |TimelineKey| == 24 && |UrlKey(h)| == 31 && |MetadataKey(h)| == 40
  {
  }

  /** `store_url` succeeds exactly when no write raises: no transport fault and no
      key of the wrong type. */
  lemma {:induction false} PersistOkIff(db: Db, n: string, h: string, fields: map<string, string>, now: int, fault: Fault)
    requires |h| == 16
    ensures Persist(db, n, h, fields, now, fault).ok <==> !HitsStore(fault) && WellTyped(db, h)
  {
    KeysDistinct(h);
    if !HitsStore(fault) && WellTyped(db, h) {
      var db1 := db.SAdd(UrlsKey, n).value;
      assert db1.keys == db.keys[UrlsKey := db1.keys[UrlsKey]];
      var db2 := db1.HSet(MetadataKey(h), fields).value;
      assert db2.keys == db1.keys[MetadataKey(h) := db2.keys[MetadataKey(h)]];
    }
  }

  /** What a successful `store_url` leaves behind: the URL in the set, the
      stamped metadata merged into the hash, the timeline scoring the fingerprint
      with the timestamp, the lookup key holding the URL; no other key touched;
      and the URL now reported as a duplicate. */
  lemma {:induction false} PersistEffect(db: Db, n: string, h: string, fields: map<string, string>, now: int, fault: Fault)
    requires |h| == 16
    requires Persist(db, n, h, fields, now, fault).ok
    ensures var db' := Persist(db, n, h, fields, now, fault).db;
      && db'.SetMembers(UrlsKey) == db.SetMembers(UrlsKey) + {n}
      && db'.HashFields(MetadataKey(h)) == db.HashFields(MetadataKey(h)) + fields
      && db'.ZMembers(TimelineKey) == db.ZMembers(TimelineKey)[h := now]
      && db'.keys[UrlKey(h)] == Str(n)
      && (forall k :: k !in {UrlsKey, MetadataKey(h), TimelineKey, UrlKey(h)} ==>
            (k in db'.keys <==> k in db.keys) && (k in db.keys ==> db'.keys[k] == db.keys[k]))
      && DuplicateCheck(db', n, h, Healthy) == Some(true)
  {
    KeysDistinct(h);
    var db1 := db.SAdd(UrlsKey, n).value;
    var db2 := db1.HSet(MetadataKey(h), fields).value;
    var db3 := db2.ZAdd(TimelineKey, h, now).value;
    assert db1.keys == db.keys[UrlsKey := db1.keys[UrlsKey]];
    assert db2.keys == db1.keys[MetadataKey(h) := db2.keys[MetadataKey(h)]];
    assert db3.keys == db2.keys[TimelineKey := db3.keys[TimelineKey]];
  }

  /** The keyspace after all four writes succeed. */
  function AllWritten(db: Db, n: string, h: string, fields: map<string, string>, now: int): Db
  {
    Db(db.keys[UrlsKey := Members(db.SetMembers(UrlsKey) + {n})]
              [MetadataKey(h) := Fields(db.HashFields(MetadataKey(h)) + fields)]
              [TimelineKey := Scores(db.ZMembers(TimelineKey)[h := now])]
              [UrlKey(h) := Str(n)])
  }

  lemma PersistHealthy(db: Db, n: string, h: string, fields: map<string, string>, now: int, fault: Fault)
    requires |h| == 16 && WellTyped(db, h) && !HitsStore(fault)
    ensures Persist(db, n, h, fields, now, fault) == Written(AllWritten(db, n, h, fields, now), true)
  {
    KeysDistinct(h);
    var db1 := db.SAdd(UrlsKey, n).value;
    var db2 := db1.HSet(MetadataKey(h), fields).value;
    assert db2.HashFields(MetadataKey(h)) == db.HashFields(MetadataKey(h)) + fields;
    var db3 := db2.ZAdd(TimelineKey, h, now).value;
    assert db3.ZMembers(TimelineKey) == db.ZMembers(TimelineKey)[h := now];
  }

  /** Doing all four writes a second time, with the same arguments, is a no-op. */
  lemma {:induction false} AllWrittenFixpoint(db: Db, n: string, h: string, fields: map<string, string>, now: int)
    requires |h| == 16
    ensures var db' := AllWritten(db, n, h, fields, now);
      AllWritten(db', n, h, fields, now) == db'
  {
    KeysDistinct(h);
    var db' := AllWritten(db, n, h, fields, now);
    var m := db'.keys;
    assert m[UrlsKey] == Members(db.SetMembers(UrlsKey) + {n});
    assert m[MetadataKey(h)] == Fields(db.HashFields(MetadataKey(h)) + fields);
    assert m[TimelineKey] == Scores(db.ZMembers(TimelineKey)[h := now]);
    assert db'.SetMembers(UrlsKey) + {n} == db'.SetMembers(UrlsKey);
    assert db'.HashFields(MetadataKey(h)) + fields == db'.HashFields(MetadataKey(h));
    assert db'.ZMembers(TimelineKey)[h := now] == db'.ZMembers(TimelineKey);
    // Each write stores the value its key already holds.
    assert m[UrlsKey := Members(db'.SetMembers(UrlsKey) + {n})] == m;
    assert m[MetadataKey(h) := Fields(db'.HashFields(MetadataKey(h)) + fields)] == m;
    assert m[TimelineKey := Scores(db'.ZMembers(TimelineKey)[h := now])] == m;
    assert m[UrlKey(h) := Str(n)] == m;
  }

  /** The four writes for one URL leave any URL with another normalized form
      and another fingerprint exactly as known as before, and keep the keys a
      store of it would write of the types the commands expect. */
  lemma AllWrittenKeepsOthers(db: Db, n: string, h: string, fields: map<string, string>, now: int, n': string, h': string)
    requires |h| == 16 && |h'| == 16 && n' != n && h' != h
    ensures var db' := AllWritten(db, n, h, fields, now);
      && (Known(db', n', h') <==> Known(db, n', h'))
      && (WellTyped(db, h') ==> WellTyped(db', h'))
  {
    KeysDistinct(h);
    KeysDistinct(h');
    assert UrlKey(h)[15..] == h && UrlKey(h')[15..] == h';
    assert MetadataKey(h)[15..31] == h && MetadataKey(h')[15..31] == h';
  }

  /** Storing a URL that was just stored, with the same metadata and timestamp,
      changes nothing. */
  lemma {:induction false} PersistIdempotent(db: Db, n: string, h: string, fields: map<string, string>, now: int)
    requires |h| == 16
    requires Persist(db, n, h, fields, now, Healthy).ok
    ensures var db' := Persist(db, n, h, fields, now, Healthy).db;
      Persist(db', n, h, fields, now, Healthy) == Written(db', true)
  {
    KeysDistinct(h);
    PersistOkIff(db, n, h, fields, now, Healthy);
    PersistHealthy(db, n, h, fields, now, Healthy);
    var db' := AllWritten(db, n, h, fields, now);
    assert WellTyped(db', h);
    PersistHealthy(db', n, h, fields, now, Healthy);
    AllWrittenFixpoint(db, n, h, fields, now);
  }

  /** Whatever fault strikes, `store_url` only adds `n` to the URL set,
      removes no member from it and deletes no key. */
  lemma {:induction false} PersistUrlBounds(db: Db, n: string, h: string, fields: map<string, string>, now: int, fault: Fault)
    requires |h| == 16
    ensures var db' := Persist(db, n, h, fields, now, fault).db;
      && db.SetMembers(UrlsKey) <= db'.SetMembers(UrlsKey) <= db.SetMembers(UrlsKey) + {n}
      && db.keys.Keys <= db'.keys.Keys
  {
    KeysDistinct(h);
    if fault != FailsAt(1) && db.SAdd(UrlsKey, n).Some? {
      var db1 := db.SAdd(UrlsKey, n).value;
      if fault != FailsAt(2) && db1.HSet(MetadataKey(h), fields).Some? {
        var db2 := db1.HSet(MetadataKey(h), fields).value;
        assert db2.keys == db1.keys[MetadataKey(h) := db2.keys[MetadataKey(h)]];
        assert db2.SetMembers(UrlsKey) == db1.SetMembers(UrlsKey);
        if fault != FailsAt(3) && db2.ZAdd(TimelineKey, h, now).Some? {
          var db3 := db2.ZAdd(TimelineKey, h, now).value;
          assert db3.keys == db2.keys[TimelineKey := db3.keys[TimelineKey]];
          assert db3.SetMembers(UrlsKey) == db1.SetMembers(UrlsKey);
        }
      }
    }
  }

  /** Whatever fault strikes, `store_url` only adds `h` to the timeline and
      removes nothing from it. */
  lemma {:induction false} PersistTimelineBounds(db: Db, n: string, h: string, fields: map<string, string>, now: int, fault: Fault)
    requires |h| == 16
    ensures var db' := Persist(db, n, h, fields, now, fault).db;
      db.ZMembers(TimelineKey).Keys <= db'.ZMembers(TimelineKey).Keys <= db.ZMembers(TimelineKey).Keys + {h}
  {
    KeysDistinct(h);
    if fault != FailsAt(1) && db.SAdd(UrlsKey, n).Some? {
      var db1 := db.SAdd(UrlsKey, n).value;
      assert db1.keys == db.keys[UrlsKey := db1.keys[UrlsKey]];
      assert db1.ZMembers(TimelineKey) == db.ZMembers(TimelineKey);
      if fault != FailsAt(2) && db1.HSet(MetadataKey(h), fields).Some? {
        var db2 := db1.HSet(MetadataKey(h), fields).value;
        assert db2.keys == db1.keys[MetadataKey(h) := db2.keys[MetadataKey(h)]];
        assert db2.ZMembers(TimelineKey) == db.ZMembers(TimelineKey);
        if fault != FailsAt(3) && db2.ZAdd(TimelineKey, h, now).Some? {
          var db3 := db2.ZAdd(TimelineKey, h, now).value;
          assert db3.ZMembers(TimelineKey).Keys == db.ZMembers(TimelineKey).Keys + {h};
        }
      }
    }
  }

  /** Storing the same URL again, whatever the new metadata and timestamp and
      wherever the second call fails, leaves the number of URLs in the set and
      the number of fingerprints on the timeline unchanged. */
  lemma {:induction false} StoreAgainKeepsCounts(db: Db, n: string, h: string, fields: map<string, string>, now: int,
                                                 fields': map<string, string>, now': int, fault': Fault)
    requires |h| == 16
    requires Persist(db, n, h, fields, now, Healthy).ok
    ensures var db1 := Persist(db, n, h, fields, now, Healthy).db;
      var db2 := Persist(db1, n, h, fields', now', fault').db;
      && |db2.SetMembers(UrlsKey)| == |db1.SetMembers(UrlsKey)|
      && |db2.ZMembers(TimelineKey).Keys| == |db1.ZMembers(TimelineKey).Keys|
  {
    var db1 := Persist(db, n, h, fields, now, Healthy).db;
    PersistEffect(db, n, h, fields, now, Healthy);
    PersistUrlBounds(db1, n, h, fields', now', fault');
    PersistTimelineBounds(db1, n, h, fields', now', fault');
    var db2 := Persist(db1, n, h, fields', now', fault').db;
    assert db2.SetMembers(UrlsKey) == db1.SetMembers(UrlsKey);
    assert db2.ZMembers(TimelineKey).Keys == db1.ZMembers(TimelineKey).Keys;
  }

  /** No write of `store_url` deletes a key or a set member: whatever was
      reported as a duplicate before still is. */
  lemma PersistMonotone(db: Db, n: string, h: string, fields: map<string, string>, now: int, fault: Fault)
    requires |h| == 16
    ensures forall n', h' :: Known(db, n', h') ==> Known(Persist(db, n, h, fields, now, fault).db, n', h')
  {
    PersistUrlBounds(db, n, h, fields, now, fault);
  }

  /** A `store_url` whose metadata, timeline or lookup write raises has already
      added the URL to the set: it reports failure, yet every later duplicate
      check finds the URL, so it is never stored again. */
  lemma {:induction false} FailedStoreStillBlocks(db: Db, n: string, h: string, fields: map<string, string>, now: int, k: nat)
    requires |h| == 16
    requires WellTyped(db, h) && 2 <= k <= 4
    ensures var w := Persist(db, n, h, fields, now, FailsAt(k));
      !w.ok && DuplicateCheck(w.db, n, h, Healthy) == Some(true)
  {
    KeysDistinct(h);
    var db1 := db.SAdd(UrlsKey, n).value;
    assert db1.keys == db.keys[UrlsKey := db1.keys[UrlsKey]];
    assert n in db1.SetMembers(UrlsKey);
    if k > 2 {
      var db2 := db1.HSet(MetadataKey(h), fields).value;
      assert db2.keys == db1.keys[MetadataKey(h) := db2.keys[MetadataKey(h)]];
      assert n in db2.SetMembers(UrlsKey);
      if k > 3 {
        var db3 := db2.ZAdd(TimelineKey, h, now).value;
        assert db3.keys == db2.keys[TimelineKey := db3.keys[TimelineKey]];
        assert n in db3.SetMembers(UrlsKey);
      }
    }
  }
}
