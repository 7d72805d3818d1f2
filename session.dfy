/**
 * Per-user sessions in the key store: every key of a user is `wa:{phone}:{key}`, and
 * `clear_session` deletes every key under the user's prefix.
 */
module Session {
  import opened Wrappers
  import opened Strings
  import opened Redis
  import opened Constants

  /** `rkey`: the store key of one session field. */
  function RKey(phone: string, key: string): string {
    "wa:" + phone + ":" + key
  }

  /** The prefix `clear_session` scans for. */
  function SessionPrefix(phone: string): string {
    "wa:" + phone + ":"
  }

  /** The key space once a user's session is cleared. */
  function Cleared(db: Db, phone: string): (r: Db)
    ensures forall k :: k in r <==> k in db && !StartsWith(k, SessionPrefix(phone))
    ensures forall k :: k in r ==> r[k] == db[k]
  {
    map k | k in db && !StartsWith(k, SessionPrefix(phone)) :: db[k]
  }

  /** Every session key of a user starts with the user's prefix. */
  lemma RKeyInSession(phone: string, key: string)
    ensures StartsWith(RKey(phone, key), SessionPrefix(phone))
  {
    assert RKey(phone, key)[..|SessionPrefix(phone)|] == SessionPrefix(phone);
  }

  /** Different fields of one session are different keys. */
  lemma RKeyInjective(phone: string, a: string, b: string)
    ensures RKey(phone, a) == RKey(phone, b) ==> a == b
  {
    var n := |phone| + 4;
    assert RKey(phone, a)[n..] == a && RKey(phone, b)[n..] == b;
  }

  /** The session fields of two different phones without `:` never share a key, nor a prefix. */
  lemma SessionsDisjoint(p: string, q: string, key: string)
    requires ':' !in p && ':' !in q && p != q
    ensures !StartsWith(RKey(q, key), SessionPrefix(p))
  {
    var k, pre := RKey(q, key), SessionPrefix(p);
    if |p| < |q| {
      // the prefix ends in `:` where the key still has a character of `q`
      assert pre[3 + |p|] == ':' && k[3 + |p|] == q[|p|];
    } else if |p| == |q| {
      assert pre[3..3 + |p|] == p && k[3..3 + |q|] == q;
      assert |k| >= |pre| ==> k[..|pre|][3..3 + |p|] == k[3..3 + |p|];
    } else {
      // the key has its `:` where the prefix still has a character of `p`
      assert pre[3 + |q|] == p[|q|] && k[3 + |q|] == ':';
    }
  }

  /** `clear_session(phone)` removes every session field of `phone`. */
  lemma ClearedRemovesSession(db: Db, phone: string, key: string)
    ensures RKey(phone, key) !in Cleared(db, phone)
  {
    RKeyInSession(phone, key);
  }

  /** Clearing one phone's session leaves another phone's fields as they were. */
  lemma ClearedKeepsOtherPhones(db: Db, p: string, q: string, key: string)
    requires ':' !in p && ':' !in q && p != q
    ensures RKey(q, key) in Cleared(db, p) <==> RKey(q, key) in db
    ensures RKey(q, key) in db ==> Cleared(db, p)[RKey(q, key)] == db[RKey(q, key)]
  {
    SessionsDisjoint(p, q, key);
  }

  /**
   * Without the restriction to phones free of `:`, the prefix scan overreaches: clearing
   * phone `1` removes the `state` of phone `1:2`.
   */
  lemma ColonPhoneOverreach(db: Db)
    requires RKey("1:2", "state") in db
    ensures RKey("1:2", "state") !in Cleared(db, "1")
  {
    assert RKey("1:2", "state")[..|SessionPrefix("1")|] == SessionPrefix("1");
  }

  /** Clearing a cleared session changes nothing. */
  lemma ClearIdempotent(db: Db, phone: string)
    ensures Cleared(Cleared(db, phone), phone) == Cleared(db, phone)
  {
  }

  /** `clear_session`: delete, one by one, every key the prefix scan yields. */
  method ClearSession(store: Store, phone: string)
    modifies store
    ensures store.db == Cleared(old(store.db), phone)
  {
    var prefix := SessionPrefix(phone);
    var keys := store.ScanIter(prefix);
    while keys != {}
      invariant forall k :: k in keys ==> k in old(store.db) && StartsWith(k, prefix)
      invariant forall k :: k in store.db <==> k in old(store.db) && (k in keys || !StartsWith(k, prefix))
      invariant forall k :: k in store.db ==> store.db[k] == old(store.db)[k]
      decreases keys
    {
      var k :| k in keys;
      store.Delete(k);
      keys := keys - {k};
    }
  }
}
