/** How a batch is chosen from the buffer: a greedy partition that keeps order, never starves and stays within the
    limits that are checked again before the batch is sent. */
module Chunk {
  import opened Text
  import opened Protocol
  import opened Json
  import opened Wire
  import opened AgentModel
  import opened AgentLedger

  /** What one pick does with a buffered request. */
  datatype Fate = Taken | Left | Refused

  function Select(pending: seq<Pending>, fates: seq<Fate>, fate: Fate): seq<Pending>
    requires |pending| == |fates|
  {
    if pending == [] then []
    else
      var last := |pending| - 1;
      Select(pending[..last], fates[..last], fate) + if fates[last] == fate then [pending[last]] else []
  }

  lemma {:induction false} SelectAppend(pending: seq<Pending>, fates: seq<Fate>, item: Pending, fate: Fate,
                                        wanted: Fate)
    requires |pending| == |fates|
    ensures Select(pending + [item], fates + [fate], wanted)
            == Select(pending, fates, wanted) + if fate == wanted then [item] else []
  {
    assert (pending + [item])[..|pending|] == pending && (fates + [fate])[..|pending|] == fates;
  }

  /** Each fate is the right one for the chunk that was chosen: only a request that exceeds the limit alone is refused,
      the head never stays behind, and nothing that stays behind could still have been added. */
  ghost predicate FatesOK(config: Config, pick: Pick, pending: seq<Pending>, fates: seq<Fate>) {
    var settings := config.settings;
    && |fates| == |pending|
    && (pending != [] ==> fates[0] != Left)
    && (forall i :: 0 <= i < |fates| && fates[i] == Refused ==>
          EstimatedSize([pending[i].request], settings) > settings.maxBatchBytes)
    && (forall i :: 0 <= i < |fates| && fates[i] == Left ==>
          |pick.chunk| == settings.maxBatchRequests
          || EstimatedSize(Requests(pick.chunk) + [pending[i].request], settings) > settings.maxBatchBytes)
  }

  ghost predicate ChunkOK(config: Config, chunk: seq<Pending>) {
    && |chunk| <= config.settings.maxBatchRequests
    && (chunk != [] ==> EstimatedSize(Requests(chunk), config.settings) <= config.settings.maxBatchBytes)
  }

  lemma {:induction false} RequestsAppend(items: seq<Pending>, item: Pending)
    ensures Requests(items + [item]) == Requests(items) + [item.request]
  {
  }

  function FateOf(config: Config, pick: Pick, item: Pending): Fate {
    if |pick.chunk| >= config.settings.maxBatchRequests then Left
    else if EstimatedSize(Requests(pick.chunk + [item]), config.settings) <= config.settings.maxBatchBytes then Taken
    else if pick.chunk == [] then Refused
    else Left
  }

  /** Taking one more request keeps what stayed behind too large. */
  lemma {:induction false} StillTooLarge(config: Config, chunk: seq<Pending>, item: Pending, left: RequestItem)
    requires EstimatedSize(Requests(chunk) + [left], config.settings) > config.settings.maxBatchBytes
    ensures EstimatedSize(Requests(chunk + [item]) + [left], config.settings) > config.settings.maxBatchBytes
  {
    RequestsAppend(chunk, item);
    EstimateMonotone(Requests(chunk), [item.request], left, config.settings);
    hide EstimatedSize;
  }

  lemma {:induction false} PickItemFate(config: Config, pick: Pick, pending: seq<Pending>, fates: seq<Fate>,
                                        item: Pending)
    requires config.settings.maxBatchRequests > 0
    requires ChunkOK(config, pick.chunk) && FatesOK(config, pick, pending, fates)
    requires pending == [] ==> pick.chunk == []
    ensures ChunkOK(config, PickItem(config, pick, item).chunk)
    ensures FatesOK(config, PickItem(config, pick, item), pending + [item], fates + [FateOf(config, pick, item)])
  {
    hide EstimatedSize, ErrorResult;
    var after := PickItem(config, pick, item);
    RequestsAppend(pick.chunk, item);
    assert pick.chunk == [] ==> Requests(pick.chunk) + [item.request] == [item.request];
    forall i | 0 <= i < |fates| && fates[i] == Left && after.chunk != pick.chunk
      ensures EstimatedSize(Requests(after.chunk) + [pending[i].request],
                            config.settings) > config.settings.maxBatchBytes
    {
      StillTooLarge(config, pick.chunk, item, pending[i].request);
    }
  }

  /** A pick splits the buffer three ways and keeps the order of arrival within each part. */
  lemma {:induction false} PickFates(config: Config, core: Core, pending: seq<Pending>) returns (fates: seq<Fate>)
    requires config.settings.maxBatchRequests > 0
    ensures |fates| == |pending|
    ensures var pick := PickChunk(config, core, pending);
            && ChunkOK(config, pick.chunk) && FatesOK(config, pick, pending, fates)
            && pick.chunk == Select(pending, fates, Taken)
            && pick.remaining == Select(pending, fates, Left)
            && Sent(pick.core.outbox) == Sent(core.outbox) + Select(pending, fates, Refused)
  {
    hide EstimatedSize, ErrorResult, FatesOK, ChunkOK;
    if pending == [] {
      fates := [];
      NothingPicked(config, core);
    } else {
      var last := |pending| - 1;
      var before := PickChunk(config, core, pending[..last]);
      var earlier := PickFates(config, core, pending[..last]);
      var fate := FateOf(config, before, pending[last]);
      fates := earlier + [fate];
      assert pending == pending[..last] + [pending[last]];
      PickItemFate(config, before, pending[..last], earlier, pending[last]);
      SelectAppend(pending[..last], earlier, pending[last], fate, Taken);
      SelectAppend(pending[..last], earlier, pending[last], fate, Left);
      SelectAppend(pending[..last], earlier, pending[last], fate, Refused);
    }
  }

  lemma {:induction false} NothingPicked(config: Config, core: Core)
    requires config.settings.maxBatchRequests > 0
    ensures ChunkOK(config, []) && FatesOK(config, Pick(core, [], []), [], [])
  {
  }

  // ----- progress -----

  lemma {:induction false} SelectIndex(pending: seq<Pending>, fates: seq<Fate>, k: nat) returns (index: nat)
    requires |pending| == |fates| && k < |pending| && fates[0] != Left && fates[k] == Left
    ensures index < k && index < |Select(pending, fates, Left)| && Select(pending, fates, Left)[index] == pending[k]
    ensures Select(pending[..k], fates[..k], Left) == Select(pending, fates, Left)[..index]
    decreases |pending|
  {
    var last := |pending| - 1;
    if k == last {
      SelectShorter(pending[..last], fates[..last]);
      index := |Select(pending[..last], fates[..last], Left)|;
    } else {
      index := SelectIndex(pending[..last], fates[..last], k);
      assert pending[..last][..k] == pending[..k] && fates[..last][..k] == fates[..k];
    }
  }

  lemma {:induction false} SelectShorter(pending: seq<Pending>, fates: seq<Fate>)
    requires |pending| == |fates|
    ensures |Select(pending, fates, Left)| <= |pending|
    ensures pending != [] && fates[0] != Left ==> |Select(pending, fates, Left)| < |pending|
  {
    if pending != [] {
      SelectShorter(pending[..|pending| - 1], fates[..|pending| - 1]);
    }
  }

  lemma {:induction false} SelectFrom(pending: seq<Pending>, fates: seq<Fate>, fate: Fate)
    requires |pending| == |fates|
    ensures forall x :: x in Select(pending, fates, fate)
              ==> exists i :: 0 <= i < |pending| && pending[i] == x && fates[i] == fate
  {
    if pending != [] {
      var last := |pending| - 1;
      SelectFrom(pending[..last], fates[..last], fate);
      forall x | x in Select(pending, fates, fate) ensures exists i :: 0 <= i < |pending| && pending[i] == x
                                                             && fates[i] == fate {
        if x in Select(pending[..last], fates[..last], fate) {
          var i :| 0 <= i < last && pending[..last][i] == x && fates[..last][i] == fate;
          assert pending[i] == x && fates[i] == fate;
        } else {
          assert pending[last] == x && fates[last] == fate;
        }
      }
    }
  }

  /** The buffer after one pick for each list of arrivals, which are received after that pick. */
  function Buffer(config: Config, core: Core, pending: seq<Pending>, arrivals: seq<seq<Pending>>): seq<Pending>
    decreases |arrivals|
  {
    if arrivals == [] then pending
    else
      var pick := PickChunk(config, core, pending);
      Buffer(config, pick.core, pick.remaining + arrivals[0], arrivals[1..])
  }

  lemma {:induction false} StaysGone(config: Config, core: Core, pending: seq<Pending>, arrivals: seq<seq<Pending>>,
                                     item: Pending)
    requires config.settings.maxBatchRequests > 0
    requires item !in pending && forall a :: a in arrivals ==> item !in a
    ensures item !in Buffer(config, core, pending, arrivals)
    decreases |arrivals|
  {
    hide PickChunk, FatesOK, ChunkOK;
    if arrivals != [] {
      var pick := PickChunk(config, core, pending);
      var fates := PickFates(config, core, pending);
      SelectFrom(pending, fates, Left);
      assert arrivals[0] in arrivals;
      StaysGone(config, pick.core, pick.remaining + arrivals[0], arrivals[1..], item);
    }
  }

  /** A request with k others ahead of it is out of the buffer after k + 1 picks, whatever arrives behind it and
      whatever overtakes it. */
  lemma {:induction false} LeavesWithin(config: Config, core: Core, pending: seq<Pending>,
                                        arrivals: seq<seq<Pending>>, k: nat)
    requires config.settings.maxBatchRequests > 0
    requires k < |pending| && k + 1 <= |arrivals|
    requires forall i :: 0 <= i < |pending| && i != k ==> pending[i] != pending[k]
    requires forall a :: a in arrivals ==> pending[k] !in a
    ensures pending[k] !in Buffer(config, core, pending, arrivals)
    decreases k
  {
    hide PickChunk, ChunkOK, EstimatedSize;
    var item := pending[k];
    var pick := PickChunk(config, core, pending);
    var fates := PickFates(config, core, pending);
    var next := pick.remaining + arrivals[0];
    SelectFrom(pending, fates, Left);
    assert arrivals[0] in arrivals;
    if fates[k] == Left {
      var index := SelectIndex(pending, fates, k);
      assert next[index] == item;
      OnceInSelect(pending, fates, k, index);
      LeavesWithin(config, pick.core, next, arrivals[1..], index);
    } else {
      StaysGone(config, pick.core, next, arrivals[1..], item);
    }
  }

  lemma {:induction false} OnceInSelect(pending: seq<Pending>, fates: seq<Fate>, k: nat, index: nat)
    requires |pending| == |fates| && k < |pending| && fates[k] == Left
    requires forall i :: 0 <= i < |pending| && i != k ==> pending[i] != pending[k]
    requires index < |Select(pending, fates, Left)| && Select(pending, fates, Left)[index] == pending[k]
    ensures forall i :: 0 <= i < |Select(pending, fates, Left)| && i != index
              ==> Select(pending, fates, Left)[i] != pending[k]
    decreases |pending|
  {
    var last := |pending| - 1;
    var front, ffront := pending[..last], fates[..last];
    SelectFrom(front, ffront, Left);
    if k < last {
      assert index < |Select(front, ffront, Left)|;
      OnceInSelect(front, ffront, k, index);
    } else {
      var kept := Select(front, ffront, Left);
      forall i | 0 <= i < |kept| ensures kept[i] != pending[k] {
        assert kept[i] in kept;
      }
      assert Select(pending, fates, Left) == kept + [pending[last]];
    }
  }

  // ----- the size check before sending -----

  /** An item adds its own request to the batch, or nothing. */
  lemma {:induction false} PrepareItemPrimaries(config: Config, prep: Prep, item: Pending, now: int)
    ensures var after := PrepareItem(config, prep, item, now);
            || (|after.units| == |prep.units| && Primaries(after.units) == Primaries(prep.units))
            || (|after.units| == |prep.units| + 1 && Primaries(after.units) == Primaries(prep.units) + [item.request])
  {
    hide CacheKey, FindEntry, AfterLookup, Cacheable, LastStore, AgentModel.Answer;
    var after := PrepareItem(config, prep, item, now);
    if |after.units| == |prep.units| {
      assert Primaries(after.units) == Primaries(prep.units);
    } else {
      assert Primaries(after.units) == Primaries(prep.units) + [item.request];
    }
  }

  lemma {:induction false} PrimariesCost(config: Config, core: Core, items: seq<Pending>, now: int)
    ensures var units := Prepare(config, core, items, now).units;
            && |units| <= |items|
            && Cost(Primaries(units)) + 2 * (|items| - |units|) <= Cost(Requests(items))
            && (|units| == |items| ==> Primaries(units) == Requests(items))
  {
    hide PrepareItem, ItemCost, Cost;
    if items == [] {
      assert Primaries([]) == [] && Requests([]) == [];
    } else {
      var last := |items| - 1;
      PrimariesCost(config, core, items[..last], now);
      var before := Prepare(config, core, items[..last], now);
      PrepareItemPrimaries(config, before, items[last], now);
      RequestsAppend(items[..last], items[last]);
      assert items == items[..last] + [items[last]];
      CostAppend(Requests(items[..last]), items[last].request);
      CostAppend(Primaries(before.units), items[last].request);
      ItemCostBound(items[last].request);
    }
  }

  lemma {:induction false} EstimateByCost(a: seq<RequestItem>, b: seq<RequestItem>, settings: Settings)
    requires a != [] && b != []
    ensures EstimatedSize(a, settings) - Cost(a) == EstimatedSize(b, settings) - Cost(b)
  {
    hide EstimatedSize, FixedSize, Cost;
    EstimateParts(a, settings);
    EstimateParts(b, settings);
  }

  /** With an identifier of the usual length, a chunk that was admitted fails the check before sending exactly when it
      was estimated to fill the limit and nothing in it was a cache hit or a duplicate. */
  lemma {:induction false} RecheckFailsIff(config: Config, core: Core, chunk: seq<Pending>, now: int, batchID: string,
                                           sentAt: string)
    requires ChunkOK(config, chunk) && Prepare(config, core, chunk, now).units != []
    requires PlainAscii(batchID) && |batchID| == RANDOM_ID_LENGTH && PlainAscii(sentAt) && |sentAt| == 20
    ensures var units := Prepare(config, core, chunk, now).units;
            BatchSizeBytes(MakeBatch(Primaries(units), config.settings, batchID,
                                     sentAt)) > config.settings.maxBatchBytes
            <==> EstimatedSize(Requests(chunk), config.settings) == config.settings.maxBatchBytes && |units| == |chunk|
  {
    hide BatchSizeBytes, MakeBatch, EstimatedSize, Prepare, Cost, PlainAscii;
    var units := Prepare(config, core, chunk, now).units;
    PrimariesCost(config, core, chunk, now);
    SizeGap(Primaries(units), config.settings, batchID, sentAt);
    EstimateByCost(Primaries(units), Requests(chunk), config.settings);
  }
}
