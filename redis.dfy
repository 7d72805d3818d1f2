/**
 * The Redis commands the service issues (GET, SETEX, DELETE, RPUSH, INCR, LRANGE and a
 * SCAN by key prefix), first as functions on a key space, then as the methods of a
 * `Store` that holds it. Values are read back as text, as a client that decodes
 * responses returns them. Expiry is recorded per key but time never passes.
 */
module Redis {
  import opened Wrappers
  import opened Strings
  import opened Numbers
  import opened JsonValues

  /**
   * A stored value: a string, a list of strings, or the text `json.dumps` made of a JSON
   * array (kept as the array: loading that text gives the array back).
   */
  datatype Value = Str(s: string) | List(items: seq<string>) | JsonText(doc: seq<Json>)

  /** A key's value and its time to live in seconds, `None` for a key that never expires. */
  datatype Entry = Entry(value: Value, ttl: Option<nat>)

  type Db = map<string, Entry>

  /** The errors Redis answers with for these commands. */
  datatype RedisError = WrongType | NotAnInteger | IncrOverflow

  /** GET: a missing key reads as `None`; a list cannot be read as a string. */
  function Read(db: Db, key: string): (r: Result<Option<Value>, RedisError>)
    ensures key !in db ==> r == Ok(None)
    ensures key in db && !db[key].value.List? ==> r == Ok(Some(db[key].value))
    ensures key in db && db[key].value.List? ==> r == Err(WrongType)
  {
    if key !in db then Ok(None)
    else if db[key].value.List? then Err(WrongType)
    else Ok(Some(db[key].value))
  }

  /** LRANGE key 0 -1: the whole list, empty for a missing key. */
  function Range(db: Db, key: string): (r: Result<seq<string>, RedisError>)
    ensures key !in db ==> r == Ok([])
    ensures key in db && db[key].value.List? ==> r == Ok(db[key].value.items)
    ensures key in db && !db[key].value.List? ==> r == Err(WrongType)
  {
    if key !in db then Ok([])
    else match db[key].value
      case List(items) => Ok(items)
      case _ => Err(WrongType)
  }

  /** RPUSH: append to the list, creating it without an expiry when the key is missing. */
  function Pushed(db: Db, key: string, x: string): Result<Db, RedisError> {
    if key !in db then Ok(db[key := Entry(List([x]), None)])
    else match db[key].value
      case List(items) => Ok(db[key := Entry(List(items + [x]), db[key].ttl)])
      case _ => Err(WrongType)
  }

  /**
   * INCR: a missing key counts from 0 and is created without an expiry; an existing key
   * keeps its expiry and must hold a 64-bit integer below the maximum.
   */
  function Incremented(db: Db, key: string): Result<(Db, int), RedisError> {
    if key !in db then Ok((db[key := Entry(Str("1"), None)], 1))
    else match db[key].value
      case Str(s) =>
        (match RedisInt(s)
         case None => Err(NotAnInteger)
         case Some(n) =>
           if n == Int64Max then Err(IncrOverflow)
           else Ok((db[key := Entry(Str(IntToString(n + 1)), db[key].ttl)], n + 1)))
      case List(_) => Err(WrongType)
      case JsonText(_) => Err(NotAnInteger)
  }

  /** SCAN MATCH `prefix*`: the keys that start with `prefix`. */
  function Matching(db: Db, prefix: string): (keys: set<string>)
    ensures forall k :: k in keys <==> k in db && StartsWith(k, prefix)
  {
    set k | k in db && StartsWith(k, prefix)
  }

  /** An appended element is read back at the end of the list, the rest unchanged, and the expiry is kept. */
  lemma PushAppends(db: Db, key: string, x: string)
    requires Pushed(db, key, x).Ok?
    ensures var after := Pushed(db, key, x).value;
      && Range(after, key) == Ok(Range(db, key).value + [x])
      && after[key].ttl == (if key in db then db[key].ttl else None)
      && forall k :: k != key ==> (k in after <==> k in db) && (k in db ==> after[k] == db[k])
  {
    if key !in db {
      assert Range(db, key).value + [x] == [x];
    }
  }

  /** RPUSH changes only its own key. */
  lemma PushOnlyKey(db: Db, key: string, x: string)
    requires Pushed(db, key, x).Ok?
    ensures Pushed(db, key, x).value == db[key := Pushed(db, key, x).value[key]]
  {
  }

  /** INCR changes only its own key. */
  lemma IncrementOnlyKey(db: Db, key: string)
    requires Incremented(db, key).Ok?
    ensures Incremented(db, key).value.0 == db[key := Incremented(db, key).value.0[key]]
  {
  }

  /** INCR of a counter written as `str(n)` stores and returns `n + 1`, and keeps the expiry; a missing counter becomes 1. */
  lemma IncrementCounts(db: Db, key: string, n: int)
    requires key in db && db[key].value == Str(IntToString(n))
    requires Int64Min <= n < Int64Max
    ensures Incremented(db, key) == Ok((db[key := Entry(Str(IntToString(n + 1)), db[key].ttl)], n + 1))
  {
    RedisIntOfIntToString(n);
  }

  /** An INCR that succeeds leaves text that Redis, and Python's `int`, read back as the returned value. */
  lemma IncrementReadsBack(db: Db, key: string)
    requires Incremented(db, key).Ok?
    ensures var (after, n) := Incremented(db, key).value;
      && after[key].value == Str(IntToString(n))
      && RedisInt(after[key].value.s) == Some(n)
      && PyInt(after[key].value.s) == Some(n)
  {
    var (after, n) := Incremented(db, key).value;
    if key in db {
      RedisIntIsCanonical(db[key].value.s);
    } else {
      assert after[key].value == Str(IntToString(1));
    }
    RedisIntOfIntToString(n);
    PyIntOfIntToString(n);
  }

  /** The key space, changed one command at a time. */
  class Store {
    var db: Db

    constructor (initial: Db)
      ensures db == initial
    {
      db := initial;
    }

    method Get(key: string) returns (r: Result<Option<Value>, RedisError>)
      ensures r == Read(db, key)
    {
      if key !in db {
        r := Ok(None);
      } else if db[key].value.List? {
        r := Err(WrongType);
      } else {
        r := Ok(Some(db[key].value));
      }
    }

    /** SETEX: the value, with an expiry of `seconds`. */
    method SetEx(key: string, seconds: nat, v: Value)
      modifies this
      ensures db == old(db)[key := Entry(v, Some(seconds))]
    {
      db := db[key := Entry(v, Some(seconds))];
    }

    method Delete(key: string)
      modifies this
      ensures db == old(db) - {key}
    {
      db := db - {key};
    }

    /** RPUSH; on success the store is `Pushed`, otherwise unchanged. */
    method RPush(key: string, x: string) returns (r: Result<nat, RedisError>)
      modifies this
      ensures r.Ok? <==> Pushed(old(db), key, x).Ok?
      ensures r.Ok? ==> db == Pushed(old(db), key, x).value && r.value == |Range(db, key).value|
      ensures r.Err? ==> db == old(db) && r.error == Pushed(old(db), key, x).error
    {
      match Pushed(db, key, x) {
        case Ok(after) =>
          db := after;
          r := Ok(|Range(db, key).value|);
        case Err(e) =>
          r := Err(e);
      }
    }

    /** INCR; on success the store is the one `Incremented` gives, otherwise unchanged. */
    method Incr(key: string) returns (r: Result<int, RedisError>)
      modifies this
      ensures r.Ok? <==> Incremented(old(db), key).Ok?
      ensures r.Ok? ==> (db, r.value) == Incremented(old(db), key).value
      ensures r.Err? ==> db == old(db) && r.error == Incremented(old(db), key).error
    {
      match Incremented(db, key) {
        case Ok((after, n)) =>
          db := after;
          r := Ok(n);
        case Err(e) =>
          r := Err(e);
      }
    }

    method LRange(key: string) returns (r: Result<seq<string>, RedisError>)
      ensures r == Range(db, key)
    {
      r := Range(db, key);
    }

    /** `scan_iter(prefix + "*")`, taken as the set of keys it yields. */
    method ScanIter(prefix: string) returns (keys: set<string>)
      ensures keys == Matching(db, prefix)
    {
      keys := set k | k in db && StartsWith(k, prefix);
    }
  }
}
