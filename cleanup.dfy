/** `scripts/cleanup.ts`: the periodic job that removes expired pictures.
    It lists the expired records, keeps those past the retention period or
    the token expiry, and for each one deletes the stored image and then the
    record. Whether `deleteImage` throws for a key is a parameter; the log
    lines are the events of the model. */
module Cleanup {
  import opened Common
  import opened Metadata

  /** What happened, in order: an image was deleted, a record was deleted,
      or an entry failed (`deleteImage` threw, so its record was kept). */
  datatype Event = ImageDeleted(key: string) | MetaDeleted(token: string) | Failed

  /** The filter of `run`: older than the retention period, or expired.
      `retentionMs` is `None` when the setting is NaN. */
  predicate Selected(m: TokenMeta, now: int, retentionMs: Option<real>, timeOf: string -> Option<int>)
  {
    || (timeOf(m.createdAt).Some? && retentionMs.Some? && (now - timeOf(m.createdAt).value) as real > retentionMs.value)
    || IsExpired(m, now, timeOf)
  }

  function Select(expired: seq<TokenMeta>, now: int, retentionMs: Option<real>, timeOf: string -> Option<int>): (r: seq<TokenMeta>)
    ensures |r| <= |expired|
    ensures forall i :: 0 <= i < |r| ==> Selected(r[i], now, retentionMs, timeOf)
  {
    if |expired| == 0 then []
    else
      var rest := Select(expired[1..], now, retentionMs, timeOf);
      if Selected(expired[0], now, retentionMs, timeOf) then [expired[0]] + rest else rest
  }

  /** The second half of the filter repeats `listExpired`'s own test, so
      every record it returns is selected. */
  lemma {:induction false} SelectKeepsExpired(expired: seq<TokenMeta>, now: int, retentionMs: Option<real>, timeOf: string -> Option<int>)
    requires forall i :: 0 <= i < |expired| ==> IsExpired(expired[i], now, timeOf)
    ensures Select(expired, now, retentionMs, timeOf) == expired
  {
    if |expired| > 0 {
      SelectKeepsExpired(expired[1..], now, retentionMs, timeOf);
      assert [expired[0]] + expired[1..] == expired;
    }
  }

  /** The events for one entry: the image goes first, then the record;
      when the image deletion throws, only the failure. */
  function EntryEvents(m: TokenMeta, fails: string -> bool): seq<Event>
  {
    if fails(m.imageKey) then [Failed] else [ImageDeleted(m.imageKey), MetaDeleted(m.token)]
  }

  /** The events of the loop over `toDelete`. */
  function CleanupLog(toDelete: seq<TokenMeta>, fails: string -> bool): seq<Event>
  {
    if |toDelete| == 0 then []
    else CleanupLog(toDelete[..|toDelete| - 1], fails) + EntryEvents(toDelete[|toDelete| - 1], fails)
  }

  /** Every record deletion comes right after an image deletion. */
  predicate RecordsFollowImages(log: seq<Event>)
  {
    forall p :: 0 <= p < |log| && log[p].MetaDeleted? ==> p > 0 && log[p - 1].ImageDeleted?
  }

  /** A record is only deleted right after an image. */
  lemma {:induction false} RecordAfterImage(toDelete: seq<TokenMeta>, fails: string -> bool)
    ensures RecordsFollowImages(CleanupLog(toDelete, fails))
  {
    if |toDelete| > 0 {
      var init := CleanupLog(toDelete[..|toDelete| - 1], fails);
      var last := EntryEvents(toDelete[|toDelete| - 1], fails);
      RecordAfterImage(toDelete[..|toDelete| - 1], fails);
      assert RecordsFollowImages(init);
      var log := init + last;
      forall p | 0 <= p < |log| && log[p].MetaDeleted?
        ensures p > 0 && log[p - 1].ImageDeleted?
      {
        if p < |init| {
          assert init[p] == log[p];
          assert p > 0 && init[p - 1].ImageDeleted?;
          assert log[p - 1] == init[p - 1];
        } else {
          assert log[p] == last[p - |init|];
          assert p - |init| == 1;
          assert log[p - 1] == last[0];
        }
      }
      assert RecordsFollowImages(log);
    }
  }

  /** A record is deleted exactly when some selected entry with that token
      had its image deleted: a failure skips that entry's record and does
      not stop the later entries. */
  lemma {:induction false} RecordDeletedIff(toDelete: seq<TokenMeta>, fails: string -> bool, token: string)
    ensures MetaDeleted(token) in CleanupLog(toDelete, fails) <==>
      exists i :: 0 <= i < |toDelete| && toDelete[i].token == token && !fails(toDelete[i].imageKey)
  {
    if |toDelete| > 0 {
      var init := toDelete[..|toDelete| - 1];
      RecordDeletedIff(init, fails, token);
      if exists i :: 0 <= i < |init| && init[i].token == token && !fails(init[i].imageKey) {
        var i :| 0 <= i < |init| && init[i].token == token && !fails(init[i].imageKey);
        assert toDelete[i] == init[i];
      }
      if exists i :: 0 <= i < |toDelete| && toDelete[i].token == token && !fails(toDelete[i].imageKey) {
        var i :| 0 <= i < |toDelete| && toDelete[i].token == token && !fails(toDelete[i].imageKey);
        if i < |init| {
          assert init[i] == toDelete[i];
        }
      }
    }
  }

  /** `run()` at time `now`. `retentionHours` is `env.imageRetentionHours`
      (`None` for NaN). It returns the selection, the events and the count
      it logs. */
  method Run(store: MetaStore, now: int, upstash: bool, file: Option<Snapshot>, retentionHours: Option<real>,
             timeOf: string -> Option<int>, fails: string -> bool)
    returns (toDelete: seq<TokenMeta>, log: seq<Event>, count: nat)
    requires store.Valid() && (file.Some? ==> WellFormed(file.value))
    modifies store
    ensures store.Valid()
    ensures upstash ==> toDelete == []
    ensures !upstash ==> toDelete == ExpiredEntries(LoadedKeys(old(store.loaded), old(store.keys), file),
                                                    Loaded(old(store.loaded), old(store.entries), file), now, timeOf)
    ensures log == CleanupLog(toDelete, fails)
    ensures count == |toDelete|
    ensures !upstash ==> store.entries == Loaded(old(store.loaded), old(store.entries), file) - DeletedTokens(toDelete, fails)
    ensures !upstash ==> forall i :: 0 <= i < |toDelete| && !fails(toDelete[i].imageKey) ==> toDelete[i].token !in store.entries
  {
    var expired := store.ListExpired(now, upstash, file, timeOf);
    var retentionMs := if retentionHours.Some? then Some(retentionHours.value * 60.0 * 60.0 * 1000.0) else None;
    toDelete := Select(expired, now, retentionMs, timeOf);
    SelectKeepsExpired(expired, now, retentionMs, timeOf);
    log := DeleteEach(store, toDelete, upstash, fails);
    count := |toDelete|;
  }

  /** The `for` loop of `run`: each entry in turn, a failure caught and
      logged. */
  method DeleteEach(store: MetaStore, toDelete: seq<TokenMeta>, upstash: bool, fails: string -> bool)
    returns (log: seq<Event>)
    requires store.Valid() && (!upstash ==> store.loaded)
    modifies store
    ensures store.Valid()
    ensures log == CleanupLog(toDelete, fails)
    ensures upstash ==> store.loaded == old(store.loaded) && store.entries == old(store.entries)
    ensures !upstash ==> store.entries == old(store.entries) - DeletedTokens(toDelete, fails)
    ensures !upstash ==> forall i :: 0 <= i < |toDelete| && !fails(toDelete[i].imageKey) ==> toDelete[i].token !in store.entries
  {
    log := [];
    var i := 0;
    while i < |toDelete|
      invariant 0 <= i <= |toDelete|
      invariant store.Valid() && (!upstash ==> store.loaded)
      invariant upstash ==> store.loaded == old(store.loaded) && store.entries == old(store.entries)
      invariant log == CleanupLog(toDelete[..i], fails)
      invariant !upstash ==> store.entries == old(store.entries) - DeletedTokens(toDelete[..i], fails)
      invariant !upstash ==> Purged(toDelete[..i], fails, store.entries)
    {
      ghost var before := store.entries;
      var events := DeleteEntry(store, toDelete[i], upstash, fails);
      log := log + events;
      CleanupLogStep(toDelete, i, fails);
      if !upstash {
        PurgedStep(toDelete, i, fails, before, store.entries);
        DeletedStep(toDelete, i, fails, old(store.entries), before, store.entries);
      }
      i := i + 1;
    }
    assert toDelete[..i] == toDelete;
  }

  /** The tokens whose records the loop deletes: those of the entries
      whose image deletion did not throw. */
  function DeletedTokens(toDelete: seq<TokenMeta>, fails: string -> bool): set<string>
  {
    if |toDelete| == 0 then {}
    else
      var last := toDelete[|toDelete| - 1];
      DeletedTokens(toDelete[..|toDelete| - 1], fails) + (if fails(last.imageKey) then {} else {last.token})
  }

  /** A token is deleted exactly when some entry carrying it had its
      image deleted. */
  lemma {:induction false} DeletedTokensIff(toDelete: seq<TokenMeta>, fails: string -> bool, token: string)
    ensures token in DeletedTokens(toDelete, fails) <==>
      exists i :: 0 <= i < |toDelete| && toDelete[i].token == token && !fails(toDelete[i].imageKey)
  {
    if |toDelete| > 0 {
      var init := toDelete[..|toDelete| - 1];
      DeletedTokensIff(init, fails, token);
      if exists i :: 0 <= i < |init| && init[i].token == token && !fails(init[i].imageKey) {
        var i :| 0 <= i < |init| && init[i].token == token && !fails(init[i].imageKey);
        assert toDelete[i] == init[i];
      }
      if exists i :: 0 <= i < |toDelete| && toDelete[i].token == token && !fails(toDelete[i].imageKey) {
        var i :| 0 <= i < |toDelete| && toDelete[i].token == token && !fails(toDelete[i].imageKey);
        if i < |init| {
          assert init[i] == toDelete[i];
        }
      }
    }
  }

  /** One more entry removes its own token, unless its image deletion
      threw. */
  lemma DeletedStep(toDelete: seq<TokenMeta>, i: nat, fails: string -> bool,
                    start: map<string, TokenMeta>, before: map<string, TokenMeta>, after: map<string, TokenMeta>)
    requires i < |toDelete| && before == start - DeletedTokens(toDelete[..i], fails)
    requires after == if fails(toDelete[i].imageKey) then before else before - {toDelete[i].token}
    ensures after == start - DeletedTokens(toDelete[..i + 1], fails)
  {
    assert toDelete[..i + 1][..i] == toDelete[..i];
    var d := DeletedTokens(toDelete[..i + 1], fails);
    assert d == DeletedTokens(toDelete[..i], fails) + (if fails(toDelete[i].imageKey) then {} else {toDelete[i].token});
  }

  /** No record is left for an entry of `done` whose image was deleted. */
  predicate Purged(done: seq<TokenMeta>, fails: string -> bool, entries: map<string, TokenMeta>)
  {
    forall j :: 0 <= j < |done| && !fails(done[j].imageKey) ==> done[j].token !in entries
  }

  /** Records only removed keep earlier deletions, and entry i's own
      deletion extends them. */
  lemma PurgedStep(toDelete: seq<TokenMeta>, i: nat, fails: string -> bool,
                   before: map<string, TokenMeta>, after: map<string, TokenMeta>)
    requires i < |toDelete| && Purged(toDelete[..i], fails, before) && after.Keys <= before.Keys
    requires !fails(toDelete[i].imageKey) ==> toDelete[i].token !in after
    ensures Purged(toDelete[..i + 1], fails, after)
  {
    var done := toDelete[..i + 1];
    forall j | 0 <= j < |done| && !fails(done[j].imageKey)
      ensures done[j].token !in after
    {
      if j < i {
        assert done[j] == toDelete[..i][j];
      }
    }
  }

  lemma CleanupLogStep(toDelete: seq<TokenMeta>, i: nat, fails: string -> bool)
    requires i < |toDelete|
    ensures CleanupLog(toDelete[..i + 1], fails) == CleanupLog(toDelete[..i], fails) + EntryEvents(toDelete[i], fails)
  {
    assert toDelete[..i + 1][..i] == toDelete[..i];
  }

  /** One round of that loop: the image is deleted, then the record; when
      deleting the image fails, only the failure is logged and the local
      records stay as they were. */
  method DeleteEntry(store: MetaStore, meta: TokenMeta, upstash: bool, fails: string -> bool)
    returns (events: seq<Event>)
    requires store.Valid() && (!upstash ==> store.loaded)
    modifies store
    ensures store.Valid() && (!upstash ==> store.loaded)
    ensures events == EntryEvents(meta, fails)
    ensures upstash ==> store.loaded == old(store.loaded) && store.entries == old(store.entries)
    ensures !upstash ==> store.entries == if fails(meta.imageKey) then old(store.entries) else old(store.entries) - {meta.token}
  {
    if fails(meta.imageKey) {
      events := [Failed];
    } else {
      events := [ImageDeleted(meta.imageKey)];
      var _ := store.DeleteMeta(meta.token, upstash, None);
      events := events + [MetaDeleted(meta.token)];
    }
  }
}
