/** What fail-open mode does for a batch that the dispatcher fails. docs/usage.md promises recent stale responses;
    the code answers OK exactly where the cache still held an unexpired entry before the batch was sent. */
module Outage {
  import opened Text
  import opened Protocol
  import opened Wire
  import opened AgentModel
  import opened AgentLedger
  import opened AgentCache
  import opened AgentOrigins

  function Misses(settings: Settings, cache: map<string, CacheEntry>, items: seq<Pending>, now: int): seq<Pending> {
    if items == [] then []
    else
      var last := items[|items| - 1];
      Misses(settings, cache, items[..|items| - 1], now) + if Fresh(settings, cache, last.request, now) then []
                                                             else [last]
  }

  lemma {:induction false} HitsAndMisses(settings: Settings, cache: map<string, CacheEntry>, items: seq<Pending>,
                                         now: int)
    ensures multiset(items) == multiset(Hits(settings, cache, items, now))
            + multiset(Misses(settings, cache, items, now))
    ensures forall x :: x in Hits(settings, cache, items, now) ==> Fresh(settings, cache, x.request, now)
    ensures forall x :: x in Misses(settings, cache, items, now) ==> !Fresh(settings, cache, x.request, now)
  {
    hide Fresh;
    if items != [] {
      HitsAndMisses(settings, cache, items[..|items| - 1], now);
      LastMultiset(items);
    }
  }

  /** The units of a chunk hold exactly the requests that the cache could not answer. */
  lemma {:induction false} UnitsAreMisses(config: Config, core: Core, items: seq<Pending>, now: int)
    requires config.settings.CacheEnabled() || core.cache == map[]
    ensures UnitItems(Prepare(config, core, items, now).units)
            == multiset(Misses(config.settings, core.cache, items, now))
    ensures core.outbox <= Prepare(config, core, items, now).core.outbox
    ensures Sent(Prepare(config, core, items, now).core.outbox)
            == Sent(core.outbox) + Hits(config.settings, core.cache, items, now)
  {
    hide Prepare, UnitItems, Hits, Misses;
    PrepareGroups(config, core, items, now);
    var hits := PrepareLedger(config, core, items, now);
    HitsAndMisses(config.settings, core.cache, items, now);
    var prep := Prepare(config, core, items, now);
    assert multiset(Sent(core.outbox)) + hits
           == multiset(Sent(core.outbox)) + multiset(Hits(config.settings, core.cache, items, now));
    CancelLeft(multiset(Sent(core.outbox)), hits, multiset(Hits(config.settings, core.cache, items, now)));
    CancelLeft(hits, UnitItems(prep.units), multiset(Misses(config.settings, core.cache, items, now)));
  }

  lemma {:induction false} CancelLeft<T>(a: multiset<T>, b: multiset<T>, c: multiset<T>)
    requires a + b == a + c
    ensures b == c
  {
    forall x ensures b[x] == c[x] {
      assert (a + b)[x] == (a + c)[x];
    }
  }

  /** The answers a failed batch leaves behind: every request of the chunk has one, and it is OK if and only if the
      cache held an unexpired entry for the request when the chunk was prepared. */
  lemma {:induction false} OutageAnswers(config: Config, core: Core, chunk: seq<Pending>, prepareAt: int, code: Code,
                                         message: Message,
                                         times: seq<int>, dispatches: seq<Dispatch>)
    requires CoreOK(config, core, dispatches, prepareAt)
    requires forall i :: 0 <= i < |chunk| ==> Normalized(chunk[i].request)
    ensures var prep := Prepare(config, core, chunk, prepareAt);
            var after := FailUnits(config, prep.core, prep.units, code, message, times);
            && core.outbox <= after.outbox
            && multiset(Sent(after.outbox)) == multiset(Sent(core.outbox)) + multiset(chunk)
            && forall i :: |core.outbox| <= i < |after.outbox| ==>
                 (after.outbox[i].result.ok <==> Fresh(config.settings, core.cache, after.outbox[i].item.request,
                                                       prepareAt))
  {
    hide Prepare, FailUnits, UnitItems, Fresh, Hits, Misses, SendsOK, StoresOK, UnitsOK, LastStore, ErrorResult;
    var settings, cache := config.settings, core.cache;
    var prep := Prepare(config, core, chunk, prepareAt);
    var after := FailUnits(config, prep.core, prep.units, code, message, times);
    UnitsAreMisses(config, core, chunk, prepareAt);
    PrepareGroups(config, core, chunk, prepareAt);
    PrepareOK(config, core, chunk, prepareAt, dispatches, prepareAt);
    HitsAndMisses(settings, cache, chunk, prepareAt);
    FailUnitsLedger(config, prep.core, prep.units, code, message, times);
    FailUnitsErrors(config, prep.core, prep.units, code, message, times);
    forall i | |core.outbox| <= i < |after.outbox|
      ensures after.outbox[i].result.ok <==> Fresh(settings, cache, after.outbox[i].item.request, prepareAt)
    {
      if i < |prep.core.outbox| {
        HitSend(config, core, chunk, prepareAt, dispatches, i);
        assert after.outbox[i] == prep.core.outbox[i];
      } else {
        assert IsError(config, after.outbox[i], code, Redacted(message));
        NewItem(prep.core.outbox, after.outbox, UnitItems(prep.units), i);
        assert after.outbox[i].item in Misses(settings, cache, chunk, prepareAt);
      }
    }
  }

  /** A send that Prepare makes is a cache hit, and what it carries is OK. */
  lemma {:induction false} HitSend(config: Config, core: Core, chunk: seq<Pending>, prepareAt: int,
                                   dispatches: seq<Dispatch>, i: nat)
    requires CoreOK(config, core, dispatches, prepareAt)
    requires forall j :: 0 <= j < |chunk| ==> Normalized(chunk[j].request)
    requires |core.outbox| <= i < |Prepare(config, core, chunk, prepareAt).core.outbox|
    ensures var send := Prepare(config, core, chunk, prepareAt).core.outbox[i];
            send.result.ok && Fresh(config.settings, core.cache, send.item.request, prepareAt)
  {
    HitWasFresh(config, core, chunk, prepareAt, dispatches, i);
    HitIsOK(config, core, chunk, prepareAt, dispatches, i);
  }

  lemma {:induction false} HitWasFresh(config: Config, core: Core, chunk: seq<Pending>, prepareAt: int,
                                       dispatches: seq<Dispatch>, i: nat)
    requires CoreOK(config, core, dispatches, prepareAt)
    requires |core.outbox| <= i < |Prepare(config, core, chunk, prepareAt).core.outbox|
    ensures Fresh(config.settings, core.cache, Prepare(config, core, chunk, prepareAt).core.outbox[i].item.request,
                  prepareAt)
  {
    hide CoreOK, Prepare, Fresh, Hits, UnitsOK, IndexOK, KeysAbsent, SameLookups;
    var prep := Prepare(config, core, chunk, prepareAt);
    CacheOffIsEmpty(config, core, dispatches, prepareAt);
    PrepareGroups(config, core, chunk, prepareAt);
    HitsAndMisses(config.settings, core.cache, chunk, prepareAt);
    var send := prep.core.outbox[i];
    assert Sent(prep.core.outbox)[i] == Hits(config.settings, core.cache, chunk, prepareAt)[i - |core.outbox|];
    assert send.item in Hits(config.settings, core.cache, chunk, prepareAt);
  }

  lemma {:induction false} HitIsOK(config: Config, core: Core, chunk: seq<Pending>, prepareAt: int,
                                   dispatches: seq<Dispatch>, i: nat)
    requires CoreOK(config, core, dispatches, prepareAt)
    requires forall j :: 0 <= j < |chunk| ==> Normalized(chunk[j].request)
    requires |core.outbox| <= i < |Prepare(config, core, chunk, prepareAt).core.outbox|
    ensures Prepare(config, core, chunk, prepareAt).core.outbox[i].result.ok
  {
    hide Prepare, CacheLogged, LastStore, Sanitize, CacheKey, Cacheable, AnsweredBy;
    var prep := Prepare(config, core, chunk, prepareAt);
    PrepareOK(config, core, chunk, prepareAt, dispatches, prepareAt);
    var send := prep.core.outbox[i];
    assert SendOK(config, send, prep.core.stores, dispatches);
    FreshSendsComeFromCache(config, core, chunk, prepareAt, i);
    assert StoreOK(config, prep.core.stores[send.origin.store], dispatches, prepareAt);
  }

  lemma {:induction false} CacheOffIsEmpty(config: Config, core: Core, dispatches: seq<Dispatch>, clock: int)
    requires CoreOK(config, core, dispatches, clock)
    ensures config.settings.CacheEnabled() || core.cache == map[]
  {
  }

  lemma {:induction false} FreshSendsComeFromCache(config: Config, core: Core, items: seq<Pending>, now: int, i: nat)
    requires |core.outbox| <= i < |Prepare(config, core, items, now).core.outbox|
    ensures Prepare(config, core, items, now).core.outbox[i].origin.FromCache?
  {
    hide CacheKey, FindEntry, AfterLookup, LastStore;
    if items != [] {
      var before := Prepare(config, core, items[..|items| - 1], now);
      if i < |before.core.outbox| {
        FreshSendsComeFromCache(config, core, items[..|items| - 1], now, i);
      }
    }
  }

  lemma {:induction false} NewItem(a: seq<Send>, b: seq<Send>, items: multiset<Pending>, i: nat)
    requires a <= b && multiset(Sent(b)) == multiset(Sent(a)) + items && |a| <= i < |b|
    ensures b[i].item in items
  {
    var tail := Sent(b)[|a|..];
    assert Sent(b) == Sent(a) + tail;
    assert multiset(Sent(b)) == multiset(Sent(a)) + multiset(tail);
    CancelLeft(multiset(Sent(a)), items, multiset(tail));
    assert tail[i - |a|] == b[i].item;
    assert tail[i - |a|] in multiset(tail);
  }

  /** The guard by itself is sound: it would serve what the cache still holds under the key, if that is not older than
      the stale limit, and whatever it would serve is the last store of the key. */
  lemma {:induction false} StaleGuardSound(config: Config, core: Core, unit: Unit, at: int)
    requires CacheLogged(config.settings, core.cache, core.stores)
    ensures var last, settings, stale := LastStore(core.stores, unit.cacheKey), config.settings,
                                         RecoverStale(config, core, unit, at);
            && (stale.Some? ==> last.Some? && stale.value == core.stores[last.value].result)
            && (stale.Some? <==>
                  && settings.failOpen && unit.cacheable && settings.cacheTTL > 0 && settings.cacheMaxEntries > 0
                  && settings.staleIfErrorTTL > 0 && unit.cacheKey in core.cache && last.Some?
                  && core.stores[last.value].at != 0 && at - core.stores[last.value].at <= settings.staleIfErrorTTL)
  {
    hide LastStore;
    if unit.cacheKey in core.cache {
      assert EntryLogged(config.settings, unit.cacheKey, core.cache[unit.cacheKey], core.stores);
    }
  }

  /** What failing a unit says to its primary: what the guard would serve, unless the error is that the batch is too
      large, or the error itself. */
  lemma {:induction false} StaleUnlessTooLarge(config: Config, core: Core, unit: Unit, code: Code, message: Message,
                                               at: int)
    ensures var after := FailUnit(config, core, unit, code, message, at);
            var stale := RecoverStale(config, core, unit, at);
            && |after.outbox| > |core.outbox| && after.outbox[..|core.outbox|] == core.outbox
            && after.outbox[|core.outbox|].item == unit.primary
            && after.outbox[|core.outbox|].result
               == if CodeText(code) != "BATCH_TOO_LARGE" && stale.Some?
                  then stale.value.(requestID := unit.primary.request.requestID)
                  else ErrorResult(config.redaction, unit.primary.request.requestID, code, Redacted(message))
  {
    hide ErrorResult, RecoverStale, AnswerDuplicates;
    TooLargeText(code);
    forall c: Core, result, origin {
      DuplicatesAppend(c, unit.duplicates, result, origin);
    }
  }

  lemma {:induction false} TooLargeText(code: Code)
    ensures CodeText(code) == "BATCH_TOO_LARGE" <==> code == BatchTooLarge
  {
    assert code != BatchTooLarge ==> CodeText(code)[0] != 'B';
  }

  lemma {:induction false} DuplicatesAppend(core: Core, duplicates: seq<Pending>, result: RequestResult,
                                            origin: Origin)
    ensures core.outbox <= AnswerDuplicates(core, duplicates, result, origin).outbox
  {
    if duplicates != [] {
      DuplicatesAppend(core, duplicates[..|duplicates| - 1], result, origin);
    }
  }
}
