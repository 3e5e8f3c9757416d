/** Who is answered: every operation of the agent moves each of its items onto the outbox exactly once and
    counts it once. */
module AgentLedger {
  import opened Text
  import opened Protocol
  import opened Wire
  import opened AgentModel

  function Sent(outbox: seq<Send>): (items: seq<Pending>)
    ensures |items| == |outbox| && forall i :: 0 <= i < |items| ==> items[i] == outbox[i].item
  {
    seq(|outbox|, i requires 0 <= i < |outbox| => outbox[i].item)
  }

  function CountOK(outbox: seq<Send>): nat {
    if outbox == [] then 0
    else CountOK(outbox[..|outbox| - 1]) + if outbox[|outbox| - 1].result.ok then 1 else 0
  }

  /** The requests of a list of units, primaries and duplicates. */
  function UnitItems(units: seq<Unit>): multiset<Pending> {
    if units == [] then multiset{}
    else
      var last := units[|units| - 1];
      UnitItems(units[..|units| - 1]) + multiset{last.primary} + multiset(last.duplicates)
  }

  /** From a to b exactly these items were answered, each counted once as completed or failed. */
  ghost predicate Ledger(a: Core, b: Core, items: multiset<Pending>) {
    && a.outbox <= b.outbox
    && multiset(Sent(b.outbox)) == multiset(Sent(a.outbox)) + items
    && b.counters.completed - CountOK(b.outbox) == a.counters.completed - CountOK(a.outbox)
    && b.counters.completed + b.counters.failed - |b.outbox| == a.counters.completed + a.counters.failed - |a.outbox|
    && b.counters.submitted == a.counters.submitted && b.counters.localRejected == a.counters.localRejected
  }

  /** The counters that only dispatchBatch itself changes. */
  ghost predicate SameDispatchCounters(a: Core, b: Core) {
    && a.counters.dispatchedBatches == b.counters.dispatchedBatches
    && a.counters.dispatchedRequests == b.counters.dispatchedRequests
    && a.counters.cacheHits == b.counters.cacheHits && a.counters.deduplicated == b.counters.deduplicated
  }

  lemma {:induction false} AnswerLedger(core: Core, item: Pending, result: RequestResult, origin: Origin)
    ensures Ledger(core, Answer(core, item, result, origin), multiset{item})
    ensures SameDispatchCounters(core, Answer(core, item, result, origin))
  {
    var after := Answer(core, item, result, origin);
    assert Sent(after.outbox) == Sent(core.outbox) + [item];
    assert after.outbox[..|core.outbox|] == core.outbox;
  }

  lemma {:induction false} LedgerSame(a: Core, b: Core)
    requires SameBooks(a, b)
    ensures Ledger(a, b, multiset{})
  {
  }

  /** The two cores agree on everything a ledger looks at. */
  ghost predicate SameBooks(a: Core, b: Core) {
    && a.outbox == b.outbox
    && a.counters.completed == b.counters.completed && a.counters.failed == b.counters.failed
    && a.counters.submitted == b.counters.submitted && a.counters.localRejected == b.counters.localRejected
  }

  lemma {:induction false} LedgerFrom(a: Core, a': Core, b: Core, items: multiset<Pending>)
    requires SameBooks(a, a') && Ledger(a', b, items)
    ensures Ledger(a, b, items)
  {
  }

  lemma {:induction false} Rebalance<T>(front: multiset<T>, last: multiset<T>, kept: multiset<T>, kept': multiset<T>,
                                        earlier: multiset<T>, gone: multiset<T>)
    requires front == kept + earlier && kept' + gone == kept + last
    ensures front + last == kept' + (earlier + gone)
  {
    forall x ensures (front + last)[x] == (kept' + (earlier + gone))[x] {
      assert (kept' + gone)[x] == (kept + last)[x];
    }
  }

  lemma {:induction false} LedgerChain(a: Core, b: Core, c: Core, left: multiset<Pending>, right: multiset<Pending>)
    requires Ledger(a, b, left) && Ledger(b, c, right)
    ensures Ledger(a, c, left + right)
  {
  }

  lemma {:induction false} DuplicatesLedger(core: Core, duplicates: seq<Pending>, result: RequestResult, origin: Origin)
    ensures Ledger(core, AnswerDuplicates(core, duplicates, result, origin), multiset(duplicates))
    ensures SameDispatchCounters(core, AnswerDuplicates(core, duplicates, result, origin))
  {
    hide Ledger;
    if duplicates == [] {
      LedgerSame(core, core);
      assert multiset(duplicates) == multiset{};
    } else {
      var last := |duplicates| - 1;
      var before := AnswerDuplicates(core, duplicates[..last], result, origin);
      var clone := CloneFor(result, duplicates[last].request.requestID);
      DuplicatesLedger(core, duplicates[..last], result, origin);
      AnswerLedger(before, duplicates[last], clone, origin);
      LedgerChain(core, before, Answer(before, duplicates[last], clone, origin),
                  multiset(duplicates[..last]), multiset{duplicates[last]});
      LastMultiset(duplicates);
    }
  }

  lemma {:induction false} ErrorsLedger(core: Core, items: seq<Pending>, redaction: Redaction, code: Code,
                                        message: Message)
    ensures Ledger(core, AnswerError(core, items, redaction, code, message), multiset(items))
    ensures SameDispatchCounters(core, AnswerError(core, items, redaction, code, message))
  {
    if items != [] {
      var last := |items| - 1;
      var before := AnswerError(core, items[..last], redaction, code, message);
      var result := ErrorResult(redaction, items[last].request.requestID, code, message);
      ErrorsLedger(core, items[..last], redaction, code, message);
      AnswerLedger(before, items[last], result, Local);
      LedgerChain(core, before, Answer(before, items[last], result, Local), multiset(items[..last]),
                  multiset{items[last]});
      assert items == items[..last] + [items[last]];
    }
  }

  /** One unit: its primary and its duplicates, in that order. */
  lemma {:induction false} UnitLedger(core: Core, middle: Core, unit: Unit, result: RequestResult, origin: Origin)
    requires Ledger(core, middle, multiset{unit.primary}) && SameDispatchCounters(core, middle)
    ensures Ledger(core, AnswerDuplicates(middle, unit.duplicates, result, origin), UnitItems([unit]))
    ensures SameDispatchCounters(core, AnswerDuplicates(middle, unit.duplicates, result, origin))
  {
    DuplicatesLedger(middle, unit.duplicates, result, origin);
    LedgerChain(core, middle, AnswerDuplicates(middle, unit.duplicates, result, origin), multiset{unit.primary},
                multiset(unit.duplicates));
    OneUnit(unit);
  }

  lemma {:induction false} OneUnit(unit: Unit)
    ensures UnitItems([unit]) == multiset{unit.primary} + multiset(unit.duplicates)
  {
    assert UnitItems([unit][..0]) == multiset{};
  }

  lemma {:induction false} FailUnitLedger(config: Config, core: Core, unit: Unit, code: Code, message: Message, at: int)
    ensures Ledger(core, FailUnit(config, core, unit, code, message, at), UnitItems([unit]))
    ensures SameDispatchCounters(core, FailUnit(config, core, unit, code, message, at))
  {
    var stale := if Recoverable(code) then RecoverStale(config, core, unit, at) else None;
    if stale.Some? {
      var result := CloneFor(stale.value, unit.primary.request.requestID);
      AnswerLedger(CountFailOpen(core), unit.primary, result, FromStale(at));
      UnitLedger(core, Answer(CountFailOpen(core), unit.primary, result, FromStale(at)), unit, result, FromStale(at));
    } else {
      var result := ErrorResult(config.redaction, unit.primary.request.requestID, code, Redacted(message));
      AnswerLedger(core, unit.primary, result, Local);
      UnitLedger(core, Answer(core, unit.primary, result, Local), unit, result, Local);
    }
  }

  lemma {:induction false} FailUnitsLedger(config: Config, core: Core, units: seq<Unit>, code: Code, message: Message,
                                           times: seq<int>)
    ensures Ledger(core, FailUnits(config, core, units, code, message, times), UnitItems(units))
    ensures SameDispatchCounters(core, FailUnits(config, core, units, code, message, times))
  {
    if units != [] {
      var last := |units| - 1;
      var before := FailUnits(config, core, units[..last], code, message, times);
      FailUnitsLedger(config, core, units[..last], code, message, times);
      FailUnitLedger(config, before, units[last], code, message, TimeAt(times, last));
      OneUnit(units[last]);
      LedgerChain(core, before, FailUnits(config, core, units, code, message, times), UnitItems(units[..last]),
                  UnitItems([units[last]]));
    }
  }

  lemma {:induction false} DeliverResultLedger(config: Config, core: Core, unit: Unit, raw: RequestResult,
                                               origin: Origin, batch: nat, env: UnitEnv)
    ensures Ledger(core, DeliverResult(config, core, unit, raw, origin, batch, env), UnitItems([unit]))
    ensures SameDispatchCounters(core, DeliverResult(config, core, unit, raw, origin, batch, env))
  {
    var result := Sanitize(config.redaction, raw);
    var sent := Answer(core, unit.primary, result, origin);
    AnswerLedger(core, unit.primary, result, origin);
    var stored := StoreResult(config, sent, unit, CloneFor(result, unit.primary.request.requestID), batch, raw, env);
    UnitLedger(core, stored, unit, result, origin);
  }

  lemma {:induction false} DeliverUnitLedger(config: Config, core: Core, unit: Unit,
                                             results: map<string, RequestResult>, batch: nat, env: UnitEnv)
    ensures Ledger(core, DeliverUnit(config, core, unit, results, batch, env), UnitItems([unit]))
    ensures SameDispatchCounters(core, DeliverUnit(config, core, unit, results, batch, env))
  {
    var request := unit.primary.request;
    if request.requestID in results {
      var raw := results[request.requestID];
      DeliverResultLedger(config, core, unit, raw, FromBatch(batch, request, raw), batch, env);
    } else {
      var stale := RecoverStale(config, core, unit, env.lookupAt);
      if stale.Some? {
        DeliverResultLedger(config, CountFailOpen(core), unit, CloneFor(stale.value, request.requestID),
                            FromStale(env.lookupAt), batch, env);
      } else {
        var missing := ErrorResult(config.redaction, request.requestID, ResultPackageNotFound, ResultMissing);
        DeliverResultLedger(config, core, unit, missing, Local, batch, env);
      }
    }
  }

  lemma {:induction false} DeliverUnitsLedger(config: Config, core: Core, units: seq<Unit>,
                                              results: map<string, RequestResult>,
                                              batch: nat, env: seq<UnitEnv>)
    ensures Ledger(core, DeliverUnits(config, core, units, results, batch, env), UnitItems(units))
    ensures SameDispatchCounters(core, DeliverUnits(config, core, units, results, batch, env))
  {
    if units != [] {
      var last := |units| - 1;
      var before := DeliverUnits(config, core, units[..last], results, batch, env);
      DeliverUnitsLedger(config, core, units[..last], results, batch, env);
      DeliverUnitLedger(config, before, units[last], results, batch, EnvAt(env, last));
      OneUnit(units[last]);
      LedgerChain(core, before, DeliverUnits(config, core, units, results, batch, env), UnitItems(units[..last]),
                  UnitItems([units[last]]));
    }
  }

  lemma {:induction false} AppendMultiset<T>(s: seq<T>, x: T)
    ensures multiset(s + [x]) == multiset(s) + multiset{x}
  {
  }

  lemma {:induction false} LastMultiset<T>(s: seq<T>)
    requires s != []
    ensures multiset(s) == multiset(s[..|s| - 1]) + multiset{s[|s| - 1]}
  {
    assert s == s[..|s| - 1] + [s[|s| - 1]];
  }

  ghost predicate PickFrame(a: Core, b: Core) {
    && SameDispatchCounters(a, b) && b.cache == a.cache && b.stores == a.stores
    && b.counters.failOpenServed == a.counters.failOpenServed
  }

  /** Picking an item: it joins the chunk, stays behind, or is answered. */
  lemma {:induction false} PickItemLedger(config: Config, pick: Pick, item: Pending) returns (gone: multiset<Pending>)
    ensures Ledger(pick.core, PickItem(config, pick, item).core, gone)
    ensures PickFrame(pick.core, PickItem(config, pick, item).core)
    ensures var after := PickItem(config, pick, item);
            multiset(after.chunk) + multiset(after.remaining) + gone
            == multiset(pick.chunk) + multiset(pick.remaining) + multiset{item}
  {
    hide CacheKey, EstimatedSize, ErrorResult;
    AppendMultiset(pick.chunk, item);
    AppendMultiset(pick.remaining, item);
    var result := ErrorResult(config.redaction, item.request.requestID, BatchTooLarge, RequestTooBig);
    AnswerLedger(pick.core, item, result, Local);
    gone := if PickItem(config, pick, item).core == pick.core then multiset{} else multiset{item};
  }

  lemma {:induction false} PickLedger(config: Config, core: Core, pending: seq<Pending>)
    returns (rejected: multiset<Pending>)
    ensures Ledger(core, PickChunk(config, core, pending).core, rejected)
    ensures PickFrame(core, PickChunk(config, core, pending).core)
    ensures var pick := PickChunk(config, core, pending);
            multiset(pending) == multiset(pick.chunk) + multiset(pick.remaining) + rejected
  {
    hide Ledger, PickItem;
    LedgerSame(core, core);
    if pending == [] {
      rejected := multiset{};
    } else {
      var last := |pending| - 1;
      var before := PickChunk(config, core, pending[..last]);
      var earlier := PickLedger(config, core, pending[..last]);
      var gone := PickItemLedger(config, before, pending[last]);
      LedgerChain(core, before.core, PickItem(config, before, pending[last]).core, earlier, gone);
      LastMultiset(pending);
      var after := PickItem(config, before, pending[last]);
      Rebalance(multiset(pending[..last]), multiset{pending[last]}, multiset(before.chunk) + multiset(before.remaining),
                multiset(after.chunk) + multiset(after.remaining), earlier, gone);
      rejected := earlier + gone;
    }
  }

  // ----- Prepare -----

  lemma {:induction false} UnitItemsUpdate(units: seq<Unit>, idx: nat, item: Pending)
    requires idx < |units|
    ensures UnitItems(units[idx := units[idx].(duplicates := units[idx].duplicates + [item])])
            == UnitItems(units) + multiset{item}
  {
    var last := |units| - 1;
    var updated := units[idx := units[idx].(duplicates := units[idx].duplicates + [item])];
    if idx == last {
      assert updated[..last] == units[..last];
    } else {
      UnitItemsUpdate(units[..last], idx, item);
      assert updated[..last] == units[..last][idx := units[idx].(duplicates := units[idx].duplicates + [item])];
    }
  }

  lemma {:induction false} NoUnits()
    ensures UnitItems([]) == multiset{}
  {
  }

  lemma {:induction false} UnitItemsAppend(units: seq<Unit>, unit: Unit)
    ensures UnitItems(units + [unit]) == UnitItems(units) + multiset{unit.primary} + multiset(unit.duplicates)
  {
    assert (units + [unit])[..|units|] == units;
  }

  /** The counters that cache hits and duplicates add to. */
  function Absorbed(core: Core): nat {
    core.counters.cacheHits + core.counters.deduplicated
  }

  ghost predicate SamePrepareFrame(a: Core, b: Core) {
    && a.stores == b.stores
    && a.counters.failOpenServed == b.counters.failOpenServed
    && a.counters.dispatchedBatches == b.counters.dispatchedBatches
    && a.counters.dispatchedRequests == b.counters.dispatchedRequests
  }

  lemma {:induction false} PrepareItemLedger(config: Config, prep: Prep, item: Pending, now: int)
    returns (hit: multiset<Pending>)
    ensures Ledger(prep.core, PrepareItem(config, prep, item, now).core, hit)
    ensures SamePrepareFrame(prep.core, PrepareItem(config, prep, item, now).core)
    ensures var after := PrepareItem(config, prep, item, now);
            && UnitItems(after.units) + hit == UnitItems(prep.units) + multiset{item}
            && Absorbed(after.core) + |after.units| == Absorbed(prep.core) + |prep.units| + 1
            && after.core.counters.cacheHits == prep.core.counters.cacheHits + |hit|
  {
    hide CacheKey, ErrorResult, UnitItems, Ledger;
    var key := CacheKey(item.request);
    var found := FindEntry(prep.core.cache, config.settings, key, now);
    hit := multiset{};
    if Cacheable(item.request) && found.Some? {
      var counted := prep.core.(counters := prep.core.counters.(cacheHits := prep.core.counters.cacheHits + 1));
      var store := LastStore(prep.core.stores, key).GetOr(0);
      AnswerLedger(counted, item, CloneFor(found.value, item.request.requestID),
                   FromCache(store, now, |prep.core.stores|));
      LedgerFrom(prep.core, counted, PrepareItem(config, prep, item, now).core, multiset{item});
      hit := multiset{item};
    } else if Cacheable(item.request) && key in prep.dedupeIndex && prep.dedupeIndex[key] < |prep.units| {
      LedgerSame(prep.core, PrepareItem(config, prep, item, now).core);
      UnitItemsUpdate(prep.units, prep.dedupeIndex[key], item);
    } else {
      LedgerSame(prep.core, PrepareItem(config, prep, item, now).core);
      UnitItemsAppend(prep.units, Unit(item, [], if Cacheable(item.request) then key else "", Cacheable(item.request)));
    }
  }

  lemma {:induction false} PrepareLedger(config: Config, core: Core, items: seq<Pending>, now: int)
    returns (hits: multiset<Pending>)
    ensures Ledger(core, Prepare(config, core, items, now).core, hits)
    ensures SamePrepareFrame(core, Prepare(config, core, items, now).core)
    ensures var prep := Prepare(config, core, items, now);
            && multiset(items) == hits + UnitItems(prep.units)
            && |items| == Absorbed(prep.core) - Absorbed(core) + |prep.units|
            && prep.core.counters.cacheHits == core.counters.cacheHits + |hits|
  {
    hide Ledger, PrepareItem, UnitItems;
    LedgerSame(core, core);
    NoUnits();
    if items == [] {
      hits := multiset{};
    } else {
      var last := |items| - 1;
      var before := Prepare(config, core, items[..last], now);
      var earlier := PrepareLedger(config, core, items[..last], now);
      var hit := PrepareItemLedger(config, before, items[last], now);
      LedgerChain(core, before.core, PrepareItem(config, before, items[last], now).core, earlier, hit);
      LastMultiset(items);
      var after := PrepareItem(config, before, items[last], now);
      Rebalance(multiset(items[..last]), multiset{items[last]}, UnitItems(before.units), UnitItems(after.units),
                earlier, hit);
      hits := earlier + hit;
    }
  }
}
