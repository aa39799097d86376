/** `lib/metadata.ts`: what is stored about each issued token. With
    Upstash configured every operation is one Redis command (sent through
    `fetch`, which is outside the model); otherwise the records live in the
    module variable `localCache`, loaded lazily from `data/meta.json`. The
    cache is modelled with its key order, because `listExpired` returns
    `Object.values`, which follows insertion order for keys like tokens
    (they are not array indices). Writing the file back is left out. */
module Metadata {
  import opened Common

  datatype Source = Draw | Upload

  /** `TokenMeta`; the two times are ISO strings. */
  datatype TokenMeta = TokenMeta(token: string, imageKey: string, createdAt: string, expiresAt: string,
                                 palette: seq<string>, source: Source)

  /** The Redis commands `saveMeta`, `getMeta` and `deleteMeta` send. */
  datatype Command =
    | SetEx(key: string, value: TokenMeta, seconds: real)
    | Get(key: string)
    | Del(key: string)

  const KeyPrefix := "myreal:"

  /** `myreal:${token}` */
  function UpstashKey(token: string): (key: string)
    ensures StartsWith(key, KeyPrefix) && key[|KeyPrefix|..] == token
  {
    KeyPrefix + token
  }

  /** `Math.max(60, env.tokenTtlHours * 3600)`: the record's lifetime in
      seconds, never below a minute. */
  function UpstashTtl(ttlHours: real): (seconds: real)
    ensures seconds >= 60.0 && seconds >= ttlHours * 3600.0
    ensures seconds == 60.0 || seconds == ttlHours * 3600.0
  {
    MaxReal(60.0, ttlHours * 3600.0)
  }

  /** Distinct tokens map to distinct Redis keys. */
  lemma UpstashKeyInjective(t1: string, t2: string)
    requires UpstashKey(t1) == UpstashKey(t2)
    ensures t1 == t2
  {
    assert t1 == UpstashKey(t1)[|KeyPrefix|..];
  }

  predicate NoDuplicates(keys: seq<string>)
  {
    forall i, j :: 0 <= i < j < |keys| ==> keys[i] != keys[j]
  }

  /** A parsed `meta.json`: its keys in file order and its records. */
  datatype Snapshot = Snapshot(keys: seq<string>, entries: map<string, TokenMeta>)

  predicate WellFormed(s: Snapshot)
  {
    && NoDuplicates(s.keys)
    && (forall k :: k in s.keys ==> k in s.entries)
    && (forall k :: k in s.entries ==> k in s.keys)
  }

  /** `keys` without `k`. */
  function Without(keys: seq<string>, k: string): (r: seq<string>)
    ensures forall x :: x in r <==> x in keys && x != k
    ensures NoDuplicates(keys) ==> NoDuplicates(r)
  {
    if |keys| == 0 then []
    else if keys[0] == k then Without(keys[1..], k)
    else
      var rest := Without(keys[1..], k);
      assert NoDuplicates(keys) ==> NoDuplicates([keys[0]] + rest) by {
        if NoDuplicates(keys) {
          assert NoDuplicates(keys[1..]) && keys[0] !in keys[1..];
          NoDuplicatesCons(keys[0], rest);
        }
      }
      [keys[0]] + rest
  }

  lemma NoDuplicatesSnoc(r: seq<string>, x: string)
    requires NoDuplicates(r) && x !in r
    ensures NoDuplicates(r + [x])
  {
  }

  lemma NoDuplicatesCons(x: string, r: seq<string>)
    requires NoDuplicates(r) && x !in r
    ensures NoDuplicates([x] + r)
  {
    var s := [x] + r;
    forall i, j | 0 <= i < j < |s|
      ensures s[i] != s[j]
    {
      if i > 0 {
        assert s[i] == r[i - 1] && s[j] == r[j - 1];
      } else {
        assert s[j] == r[j - 1];
      }
    }
  }

  /** `now > new Date(meta.expiresAt).getTime()`; `timeOf` stands for the
      date parser, `None` for an invalid date (NaN compares false). */
  predicate IsExpired(m: TokenMeta, now: int, timeOf: string -> Option<int>)
  {
    timeOf(m.expiresAt).Some? && now > timeOf(m.expiresAt).value
  }

  /** The records under `keys`, in that order, that have expired. */
  function ExpiredEntries(keys: seq<string>, entries: map<string, TokenMeta>, now: int, timeOf: string -> Option<int>): (r: seq<TokenMeta>)
    requires forall k :: k in keys ==> k in entries
    ensures |r| <= |keys|
    ensures forall i :: 0 <= i < |r| ==> IsExpired(r[i], now, timeOf)
  {
    if |keys| == 0 then []
    else
      var m := entries[keys[0]];
      var rest := ExpiredEntries(keys[1..], entries, now, timeOf);
      if IsExpired(m, now, timeOf) then [m] + rest else rest
  }

  /** `listExpired` finds exactly the expired records: each record it
      returns is stored and expired, and each stored expired record is
      returned. */
  lemma {:induction false} ExpiredEntriesExact(keys: seq<string>, entries: map<string, TokenMeta>, now: int,
                                               timeOf: string -> Option<int>, m: TokenMeta)
    requires forall k :: k in keys ==> k in entries
    ensures m in ExpiredEntries(keys, entries, now, timeOf) <==>
      IsExpired(m, now, timeOf) && exists k :: k in keys && entries[k] == m
  {
    if |keys| > 0 {
      ExpiredEntriesExact(keys[1..], entries, now, timeOf, m);
      if entries[keys[0]] == m {
        assert keys[0] in keys;
      }
      if exists k :: k in keys && entries[k] == m {
        var k :| k in keys && entries[k] == m;
        if k != keys[0] {
          assert k in keys[1..];
        }
      }
    }
  }

  /** The module variables `localCache` (`loaded` is `localCache !== null`)
      with the key order of the cached object. */
  class MetaStore {
    var loaded: bool
    var keys: seq<string>
    var entries: map<string, TokenMeta>

    ghost predicate Valid()
      reads this
    {
      WellFormed(Snapshot(keys, entries))
    }

    constructor()
      ensures Valid() && !loaded && entries == map[]
    {
      loaded, keys, entries := false, [], map[];
    }

    /** `loadLocal`: the first call reads the file (`file` is its parsed
        content, `None` when it is missing or not JSON, which gives an
        empty cache); later calls keep what is cached. */
    method LoadLocal(file: Option<Snapshot>)
      requires Valid() && (file.Some? ==> WellFormed(file.value))
      modifies this
      ensures Valid() && loaded
      ensures old(loaded) ==> keys == old(keys) && entries == old(entries)
      ensures !old(loaded) && file.Some? ==> keys == file.value.keys && entries == file.value.entries
      ensures !old(loaded) && file.None? ==> keys == [] && entries == map[]
    {
      if loaded {
        return;
      }
      match file {
        case Some(s) => keys, entries := s.keys, s.entries;
        case None => keys, entries := [], map[];
      }
      loaded := true;
    }

    /** `saveMeta`: with Upstash (`ttlHours` set) the `SET ... EX` command
        is sent; otherwise the record is stored under its token, a new
        token going last. */
    method SaveMeta(meta: TokenMeta, upstashTtlHours: Option<real>, file: Option<Snapshot>) returns (cmd: Option<Command>)
      requires Valid() && (file.Some? ==> WellFormed(file.value))
      modifies this
      ensures Valid()
      ensures upstashTtlHours.Some? ==>
        && cmd == Some(SetEx(UpstashKey(meta.token), meta, UpstashTtl(upstashTtlHours.value)))
        && loaded == old(loaded) && keys == old(keys) && entries == old(entries)
      ensures upstashTtlHours.None? ==> cmd.None? && loaded && entries == Loaded(old(loaded), old(entries), file)[meta.token := meta]
      ensures upstashTtlHours.None? ==> keys == (var ks := LoadedKeys(old(loaded), old(keys), file);
                                                  if meta.token in ks then ks else ks + [meta.token])
    {
      if upstashTtlHours.Some? {
        return Some(SetEx(UpstashKey(meta.token), meta, UpstashTtl(upstashTtlHours.value)));
      }
      LoadLocal(file);
      if meta.token !in entries {
        NoDuplicatesSnoc(keys, meta.token);
        keys := keys + [meta.token];
      }
      entries := entries[meta.token := meta];
      return None;
    }

    /** `getMeta`: with Upstash the `GET` command is sent and `reply` is the
        parsed answer; otherwise the cached record. */
    method GetMeta(token: string, upstash: bool, reply: Option<TokenMeta>, file: Option<Snapshot>)
      returns (cmd: Option<Command>, m: Option<TokenMeta>)
      requires Valid() && (file.Some? ==> WellFormed(file.value))
      modifies this
      ensures Valid()
      ensures upstash ==> (
        && cmd == Some(Get(UpstashKey(token))) && m == reply
        && loaded == old(loaded) && keys == old(keys) && entries == old(entries))
      ensures !upstash ==> (
        && cmd.None? && loaded
        && keys == LoadedKeys(old(loaded), old(keys), file) && entries == Loaded(old(loaded), old(entries), file)
        && m == (if token in entries then Some(entries[token]) else None))
    {
      if upstash {
        return Some(Get(UpstashKey(token))), reply;
      }
      LoadLocal(file);
      if token in entries {
        return None, Some(entries[token]);
      }
      return None, None;
    }

    /** `deleteMeta`: with Upstash the `DEL` command; otherwise the record
        is removed from the cache. */
    method DeleteMeta(token: string, upstash: bool, file: Option<Snapshot>) returns (cmd: Option<Command>)
      requires Valid() && (file.Some? ==> WellFormed(file.value))
      modifies this
      ensures Valid()
      ensures upstash ==> (
        && cmd == Some(Del(UpstashKey(token)))
        && loaded == old(loaded) && keys == old(keys) && entries == old(entries))
      ensures !upstash ==> (
        && cmd.None? && loaded
        && entries == Loaded(old(loaded), old(entries), file) - {token}
        && keys == Without(LoadedKeys(old(loaded), old(keys), file), token))
    {
      if upstash {
        return Some(Del(UpstashKey(token)));
      }
      LoadLocal(file);
      keys := Without(keys, token);
      entries := entries - {token};
      return None;
    }

    /** `listExpired(now)`: nothing with Upstash; otherwise the expired
        records in key order. */
    method ListExpired(now: int, upstash: bool, file: Option<Snapshot>, timeOf: string -> Option<int>)
      returns (expired: seq<TokenMeta>)
      requires Valid() && (file.Some? ==> WellFormed(file.value))
      modifies this
      ensures Valid()
      ensures upstash ==> expired == [] && loaded == old(loaded) && keys == old(keys) && entries == old(entries)
      ensures !upstash ==> (
        && loaded
        && keys == LoadedKeys(old(loaded), old(keys), file) && entries == Loaded(old(loaded), old(entries), file)
        && expired == ExpiredEntries(keys, entries, now, timeOf))
    {
      if upstash {
        return [];
      }
      LoadLocal(file);
      expired := ExpiredEntries(keys, entries, now, timeOf);
    }
  }

  /** The cache after `loadLocal`. */
  function Loaded(wasLoaded: bool, entries: map<string, TokenMeta>, file: Option<Snapshot>): map<string, TokenMeta>
  {
    if wasLoaded then entries else if file.Some? then file.value.entries else map[]
  }

  function LoadedKeys(wasLoaded: bool, keys: seq<string>, file: Option<Snapshot>): seq<string>
  {
    if wasLoaded then keys else if file.Some? then file.value.keys else []
  }

  /** Reading back in the local branch: after `saveMeta(meta)`,
      `getMeta(meta.token)` returns `meta`, and a different token's record
      is what it was before the save. */
  method SaveThenGet(store: MetaStore, meta: TokenMeta, other: string)
    returns (saved: Option<TokenMeta>, otherAfter: Option<TokenMeta>)
    requires store.Valid() && store.loaded && other != meta.token
    modifies store
    ensures saved == Some(meta)
    ensures otherAfter == (if other in old(store.entries) then Some(old(store.entries)[other]) else None)
  {
    var _ := store.SaveMeta(meta, None, None);
    var _, m := store.GetMeta(meta.token, false, None, None);
    var _, o := store.GetMeta(other, false, None, None);
    return m, o;
  }

  /** In the local branch, `getMeta` after `deleteMeta` finds nothing,
      and a different token's record is untouched. */
  method DeleteThenGet(store: MetaStore, token: string, other: string)
    returns (deleted: Option<TokenMeta>, otherAfter: Option<TokenMeta>)
    requires store.Valid() && store.loaded && other != token
    modifies store
    ensures deleted == None
    ensures otherAfter == (if other in old(store.entries) then Some(old(store.entries)[other]) else None)
  {
    var _ := store.DeleteMeta(token, false, None);
    var _, m := store.GetMeta(token, false, None, None);
    var _, o := store.GetMeta(other, false, None, None);
    return m, o;
  }
}
