/**
 * The MySQL key directory with its optional read-through cache. The APIToken
 * table is a map from its primary key, Mail, to the stored row; the cache
 * maps a mail to its parsed key.
 */
module BackendMySQL {
  import opened Keys

  class MySQLBackend {
    /** Rows of the APIToken table, keyed by the primary key Mail. */
    var store: map<string, APIToken>
    var userCache: map<string, PublicKey>
    const enableCache: bool
    const parse: KeyParser

    /**
     * Cache coherence: with the cache disabled it stays empty; every cached
     * key is the parse of the row stored for that mail.
     */
    ghost predicate Valid()
      reads this
    {
      && (!enableCache ==> userCache == map[])
      && forall mail | mail in userCache :: mail in store && parse(store[mail].publicKey) == Some(userCache[mail])
    }

    /** NewMySQLBackend over a table that already holds `rows`; the cache starts empty. */
    constructor (rows: map<string, APIToken>, enableCache: bool, parse: KeyParser)
      ensures Valid() && store == rows && userCache == map[]
      ensures this.enableCache == enableCache && this.parse == parse
    {
      store := rows;
      userCache := map[];
      this.enableCache := enableCache;
      this.parse := parse;
    }

    /** getPublicKeyWithoutCache: None when no row exists for mail or its PEM does not parse. */
    function GetPublicKeyWithoutCache(mail: string): (key: Option<PublicKey>)
      reads this
      ensures mail !in store ==> key == None
      ensures key.Some? ==> mail in store && parse(store[mail].publicKey) == key
    {
      if mail in store then parse(store[mail].publicKey) else None
    }

    /**
     * GetPublicKey: with the cache enabled, a hit answers from the cache and a
     * miss fills it from the table when a key is found. Whatever the path,
     * the answer is the table's.
     */
    method GetPublicKey(mail: string) returns (key: Option<PublicKey>)
      requires Valid()
      modifies this`userCache
      ensures Valid()
      ensures key == GetPublicKeyWithoutCache(mail)
      ensures !enableCache ==> userCache == old(userCache)
      ensures enableCache && mail in old(userCache) ==> key == Some(old(userCache)[mail]) && userCache == old(userCache)
      ensures enableCache && mail !in old(userCache) && key.Some? ==> userCache == old(userCache)[mail := key.value]
      ensures key == None ==> userCache == old(userCache)
    {
      if enableCache {
        if mail !in userCache {
          var k := GetPublicKeyWithoutCache(mail);
          if k.Some? {
            userCache := userCache[mail := k.value];
          } else {
            return None;
          }
        }
        return Some(userCache[mail]);
      }
      key := GetPublicKeyWithoutCache(mail);
    }

    /**
     * INSERT of a new row. Mail is the primary key, so inserting a mail that
     * already has a row fails and leaves the table as it was. The cache is
     * never touched.
     */
    method Add(t: APIToken) returns (err: Option<BackendError>)
      requires Valid()
      modifies this`store
      ensures Valid()
      ensures t.mail in old(store) ==> err == Some(DuplicateEntry(t.mail)) && store == old(store)
      ensures t.mail !in old(store) ==> err == None && store == old(store)[t.mail := t]
      ensures userCache == old(userCache)
    {
      if t.mail in store {
        return Some(DuplicateEntry(t.mail));
      }
      store := store[t.mail := t];
      err := None;
    }

    /** Drops the cache entry first (when the cache is on), then the row. */
    method Remove(mail: string) returns (err: Option<BackendError>)
      requires Valid()
      modifies this`userCache, this`store
      ensures Valid()
      ensures err == None
      ensures userCache == old(userCache) - {mail}
      ensures store == old(store) - {mail}
      ensures GetPublicKeyWithoutCache(mail) == None
    {
      if enableCache {
        userCache := userCache - {mail};
      }
      store := store - {mail};
      err := None;
    }
  }
}
