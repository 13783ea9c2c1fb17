/** An in-memory model of the Redis keyspace the collector talks to: one map
    from key to a typed value, and the commands the collector issues. A
    command applied to a key that holds another type is refused (Redis's
    WRONGTYPE reply), which the client raises as an exception. */
module KeyValue {

  import opened Wrappers

  datatype Value =
    | Str(text: string)
    | Members(elems: set<string>)
    | Fields(entries: map<string, string>)
    | Scores(ranks: map<string, int>)

  datatype Db = Db(keys: map<string, Value>) {

    /** EXISTS */
    predicate Exists(key: string)
    {
      key in keys
    }

    /** The members of a set key; empty when the key is absent or not a set. */
    function SetMembers(key: string): set<string>
    {
      if key in keys && keys[key].Members? then keys[key].elems else {}
    }

    /** The members and scores of a sorted-set key; empty when absent or of another type. */
    function ZMembers(key: string): map<string, int>
    {
      if key in keys && keys[key].Scores? then keys[key].ranks else map[]
    }

    /** The fields of a hash key; empty when absent or of another type. */
    function HashFields(key: string): map<string, string>
    {
      if key in keys && keys[key].Fields? then keys[key].entries else map[]
    }

    /** SISMEMBER; None is the WRONGTYPE reply. */
    function SIsMember(key: string, member: string): (r: Option<bool>)
      ensures r.Some? ==> (r.value <==> member in SetMembers(key))
      ensures r.None? <==> key in keys && !keys[key].Members?
    {
      if key !in keys then Some(false)
      else if keys[key].Members? then Some(member in keys[key].elems)
      else None
    }

    /** SADD of one member. */
    function SAdd(key: string, member: string): (r: Option<Db>)
      ensures r.Some? <==> (key !in keys || keys[key].Members?)
      ensures r.Some? ==> r.value.SetMembers(key) == SetMembers(key) + {member}
      ensures r.Some? ==> key in r.value.keys && r.value.keys == keys[key := r.value.keys[key]]
    {
      if key !in keys then Some(Db(keys[key := Members({member})]))
      else if keys[key].Members? then Some(Db(keys[key := Members(keys[key].elems + {member})]))
      else None
    }

    /** HSET with a mapping: the given fields are written over the existing ones. */
    function HSet(key: string, entries: map<string, string>): (r: Option<Db>)
      ensures r.Some? <==> (key !in keys || keys[key].Fields?)
      ensures r.Some? ==> r.value.HashFields(key) == HashFields(key) + entries
      ensures r.Some? ==> key in r.value.keys && r.value.keys == keys[key := r.value.keys[key]]
    {
      if key !in keys then Some(Db(keys[key := Fields(entries)]))
      else if keys[key].Fields? then Some(Db(keys[key := Fields(keys[key].entries + entries)]))
      else None
    }

    /** ZADD of one member: inserts it or replaces its score. */
    function ZAdd(key: string, member: string, score: int): (r: Option<Db>)
      ensures r.Some? <==> (key !in keys || keys[key].Scores?)
      ensures r.Some? ==> r.value.ZMembers(key) == ZMembers(key)[member := score]
      ensures r.Some? ==> key in r.value.keys && r.value.keys == keys[key := r.value.keys[key]]
    {
      if key !in keys then Some(Db(keys[key := Scores(map[member := score])]))
      else if keys[key].Scores? then Some(Db(keys[key := Scores(keys[key].ranks[member := score])]))
      else None
    }

    /** SET: replaces whatever the key held. */
    function Set(key: string, text: string): (r: Db)
      ensures r.keys.Keys == keys.Keys + {key} && r.keys[key] == Str(text)
      ensures forall k :: k in keys && k != key ==> r.keys[k] == keys[k]
    {
      Db(keys[key := Str(text)])
    }
  }

  /** The client object: the keyspace it reaches, updated in place by each command. */
  class Redis {

    var db: Db

    constructor ()
      ensures db == Db(map[])
    {
      db := Db(map[]);
    }

    method Exists(key: string) returns (b: bool)
      ensures b == db.Exists(key)
    {
      b := key in db.keys;
    }

    /** SISMEMBER; `ok` is false on the WRONGTYPE reply. */
    method SIsMember(key: string, member: string) returns (ok: bool, b: bool)
      ensures ok == db.SIsMember(key, member).Some?
      ensures ok ==> b == db.SIsMember(key, member).value
    {
      var r := db.SIsMember(key, member);
      ok := r.Some?;
      b := ok && r.value;
    }

    method SAdd(key: string, member: string) returns (ok: bool)
      modifies this
      ensures ok == old(db).SAdd(key, member).Some?
      ensures db == if ok then old(db).SAdd(key, member).value else old(db)
    {
      var r := db.SAdd(key, member);
      ok := r.Some?;
      if ok {
        db := r.value;
      }
    }

    method HSet(key: string, entries: map<string, string>) returns (ok: bool)
      modifies this
      ensures ok == old(db).HSet(key, entries).Some?
      ensures db == if ok then old(db).HSet(key, entries).value else old(db)
    {
      var r := db.HSet(key, entries);
      ok := r.Some?;
      if ok {
        db := r.value;
      }
    }

    method ZAdd(key: string, member: string, score: int) returns (ok: bool)
      modifies this
      ensures ok == old(db).ZAdd(key, member, score).Some?
      ensures db == if ok then old(db).ZAdd(key, member, score).value else old(db)
    {
      var r := db.ZAdd(key, member, score);
      ok := r.Some?;
      if ok {
        db := r.value;
      }
    }

    method Set(key: string, text: string)
      modifies this
      ensures db == old(db).Set(key, text)
    {
      db := db.Set(key, text);
    }
  }
}
