/** The two texts the agent derives from requests: the cache key and the encoded batch whose bytes are counted
    (client/internal/agent/agent.go). */
module Wire {
  import opened Text
  import opened Protocol
  import opened Json

  const PLACEHOLDER_BATCH_ID := "batch-sizing-0000000000000000"
  const PLACEHOLDER_SENT_AT := "2026-01-01T00:00:00Z"
  const MILLISECOND := 1_000_000
  const RANDOM_ID_LENGTH := 30 // "batch-" and 24 hexadecimal digits

  /** Durations are in nanoseconds. */
  datatype Settings = Settings(
    batchInterval: int, requestTimeout: int, maxResponseBytes: int,
    workerConcurrency: int, maxWorkerConcurrency: int,
    maxBatchRequests: int, maxBatchBytes: int, maxQueueRequests: int,
    cacheTTL: int, cacheMaxEntries: int, staleIfErrorTTL: int, backpressureCooldown: int, failOpen: bool)
  {
    /** What the agent's constructor leaves behind. */
    predicate Valid() {
      && batchInterval > 0 && requestTimeout > 0 && maxResponseBytes > 0
      && 0 < workerConcurrency <= maxWorkerConcurrency <= 8
      && maxBatchRequests > 0 && maxBatchBytes > 0 && maxQueueRequests > 0
      && cacheTTL >= 0 && cacheMaxEntries >= 0 && staleIfErrorTTL >= 0 && backpressureCooldown > 0
    }

    predicate CacheEnabled() {
      cacheTTL > 0 && cacheMaxEntries > 0
    }
  }

  // ----- cache keys -----

  predicate Cacheable(request: RequestItem) {
    (request.httpMethod == "GET" || request.httpMethod == "HEAD")
    && !(request.body.Some? && request.body.value.data != "")
  }

  function KeyTail(headers: map<string, string>): string {
    if headers == map[] then "}" else ",\"headers\":" + (EncodeMap(headers) + "}")
  }

  function KeyText(httpMethod: string, url: string, headers: map<string, string>): string {
    "{\"method\":" + (EncodeString(httpMethod) + (",\"url\":" + (EncodeString(url) + KeyTail(headers))))
  }

  /** "" stands for a request that has no key. */
  function CacheKey(request: RequestItem): (key: string)
    ensures key != "" <==> Cacheable(request)
    ensures key != ""
            <==> request.httpMethod in {"GET", "HEAD"} && (request.body.Some? ==> request.body.value.data == "")
  {
    if Cacheable(request) then KeyText(request.httpMethod, request.url, request.headers) else ""
  }

  function ParseKeyTail(s: string): Option<map<string, string>> {
    if s == "}" then Some(map[])
    else
      match Strip(",\"headers\":", s)
      case None => None
      case Some(braced) =>
        match Strip("{", braced)
        case None => None
        case Some(members) =>
          match ParseMembers(members)
          case None => None
          case Some((headers, rest)) => if rest == "}" then Some(headers) else None
  }

  function ParseURLPart(s: string): Option<(string, map<string, string>)> {
    match Strip(",\"url\":", s)
    case None => None
    case Some(text) =>
      match ParseString(text)
      case None => None
      case Some((url, tail)) =>
        match ParseKeyTail(tail)
        case None => None
        case Some(headers) => Some((url, headers))
  }

  /** Reads a cache key back. */
  function ParseKey(s: string): Option<(string, string, map<string, string>)> {
    match Strip("{\"method\":", s)
    case None => None
    case Some(text) =>
      match ParseString(text)
      case None => None
      case Some((httpMethod, tail)) =>
        match ParseURLPart(tail)
        case None => None
        case Some((url, headers)) => Some((httpMethod, url, headers))
  }

  lemma {:induction false} KeyTailRoundTrip(headers: map<string, string>)
    ensures ParseKeyTail(KeyTail(headers)) == Some(headers)
  {
    if headers != map[] {
      StripLiteral(",\"headers\":", EncodeMap(headers) + "}");
      MapRoundTrip(headers, "}");
      StripLiteral("{", EncodeMembers(SortedKeys(headers.Keys), headers) + ("}" + "}"));
    }
  }

  lemma {:induction false} URLPartRoundTrip(url: string, headers: map<string, string>)
    ensures ParseURLPart(",\"url\":" + (EncodeString(url) + KeyTail(headers))) == Some((url, headers))
  {
    StripLiteral(",\"url\":", EncodeString(url) + KeyTail(headers));
    StringRoundTrip(url, KeyTail(headers));
    KeyTailRoundTrip(headers);
  }

  /** A cache key can be read back, whatever characters its parts hold. */
  lemma {:induction false} KeyRoundTrip(httpMethod: string, url: string, headers: map<string, string>)
    ensures ParseKey(KeyText(httpMethod, url, headers)) == Some((httpMethod, url, headers))
  {
    var tail := ",\"url\":" + (EncodeString(url) + KeyTail(headers));
    StripLiteral("{\"method\":", EncodeString(httpMethod) + tail);
    StringRoundTrip(httpMethod, tail);
    URLPartRoundTrip(url, headers);
  }

  lemma {:induction false} CacheKeyInjective(a: RequestItem, b: RequestItem)
    requires Cacheable(a) && Cacheable(b)
    ensures CacheKey(a) == CacheKey(b) <==> a.httpMethod == b.httpMethod && a.url == b.url && a.headers == b.headers
  {
    KeyRoundTrip(a.httpMethod, a.url, a.headers);
    KeyRoundTrip(b.httpMethod, b.url, b.headers);
  }

  /** A Go string that need not be UTF-8, read as range does: characters, and single bytes that begin none. */
  datatype GoChar = Scalar(c: char) | Stray(byte: int)

  /** What encoding/json writes for one of them: a stray byte becomes an escape, which a character never does that is
      U+FFFD itself. */
  function Piece(c: GoChar): string {
    match c
    case Scalar(c) => Escape(c)
    case Stray(_) => "\\ufffd"
  }

  function Pieces(s: seq<GoChar>): string {
    if s == [] then "" else Piece(s[0]) + Pieces(s[1..])
  }

  function EncodeGoString(s: seq<GoChar>): string {
    "\"" + Pieces(s) + "\""
  }

  function GoKeyText(httpMethod: string, url: seq<GoChar>, headers: map<string, string>): string {
    "{\"method\":" + (EncodeString(httpMethod) + (",\"url\":" + (EncodeGoString(url) + KeyTail(headers))))
  }

  /** The same up to which stray bytes they hold. */
  predicate SamePieces(u: seq<GoChar>, v: seq<GoChar>) {
    |u| == |v| && forall i :: 0 <= i < |u| ==> u[i] == v[i] || (u[i].Stray? && v[i].Stray?)
  }

  /** What a JSON reader makes of it: each stray byte becomes U+FFFD. */
  function Replaced(s: seq<GoChar>): string {
    if s == [] then "" else [if s[0].Scalar? then s[0].c else '\U{FFFD}'] + Replaced(s[1..])
  }

  /** How long a piece is can be seen from its first two characters, and its first is never the closing quote. */
  lemma {:induction false} PieceLength(c: GoChar, tail: string)
    ensures var s := Piece(c) + tail;
            && s[0] != '"'
            && (s[0] != '\\' ==> |Piece(c)| == 1)
            && (s[0] == '\\' ==> |s| > 1 && |Piece(c)| == if s[1] == 'u' then 6 else 2)
  {
    match c
    case Scalar(c) => assert NeedsUnicodeEscape(c) ==> |Hex4(c as int)| == 4;
    case Stray(_) =>
  }

  lemma {:induction false} PieceMeans(c: GoChar, tail: string)
    ensures ParseChars(Piece(c) + tail) == Prepend(Replaced([c])[0], ParseChars(tail))
  {
    match c
    case Scalar(c) => ParseEscaped(c, tail);
    case Stray(_) =>
      var s := "\\ufffd" + tail;
      assert s[2..6] == Hex4(0xFFFD) && s[6..] == tail;
      Hex4RoundTrip(0xFFFD);
  }

  lemma {:induction false} PieceInjective(a: GoChar, b: GoChar)
    requires Piece(a) == Piece(b)
    ensures a == b || (a.Stray? && b.Stray?)
  {
    PieceMeans(a, "\"");
    PieceMeans(b, "\"");
    assert ParseChars("\"") == Some(("", "\""[1..]));
    hide Hex4, ParseChars;
    assert Replaced([a])[0] == Replaced([b])[0];
  }

  lemma {:induction false} PiecesApart(u: seq<GoChar>, v: seq<GoChar>, s: string, t: string)
    requires Pieces(u) + "\"" + s == Pieces(v) + "\"" + t
    ensures SamePieces(u, v) && s == t
  {
    hide Piece;
    if u != [] && v != [] {
      var a, b := Pieces(u[1..]) + "\"" + s, Pieces(v[1..]) + "\"" + t;
      FirstPiece(u, s);
      FirstPiece(v, t);
      assert Piece(u[0]) == (Piece(u[0]) + a)[..|Piece(u[0])|];
      assert a == (Piece(u[0]) + a)[|Piece(u[0])|..] && b == (Piece(v[0]) + b)[|Piece(v[0])|..];
      PieceInjective(u[0], v[0]);
      PiecesApart(u[1..], v[1..], s, t);
      assert u == [u[0]] + u[1..] && v == [v[0]] + v[1..];
    } else if u != [] {
      FirstPiece(u, s);
      assert false;
    } else if v != [] {
      FirstPiece(v, t);
      assert false;
    } else {
      assert (Pieces(u) + "\"" + s)[1..] == s && (Pieces(v) + "\"" + t)[1..] == t;
    }
  }

  lemma {:induction false} FirstPiece(u: seq<GoChar>, s: string)
    requires u != []
    ensures var tail, text := Pieces(u[1..]) + "\"" + s, Pieces(u) + "\"" + s;
            && text == Piece(u[0]) + tail && text[0] != '"'
            && (text[0] != '\\' ==> |Piece(u[0])| == 1)
            && (text[0] == '\\' ==> |text| > 1 && |Piece(u[0])| == if text[1] == 'u' then 6 else 2)
  {
    hide Piece;
    PieceLength(u[0], Pieces(u[1..]) + "\"" + s);
  }

  lemma {:induction false} SamePiecesSameText(u: seq<GoChar>, v: seq<GoChar>)
    requires SamePieces(u, v)
    ensures Pieces(u) == Pieces(v)
  {
    if u != [] {
      assert Piece(u[0]) == Piece(v[0]);
      SamePiecesSameText(u[1..], v[1..]);
    }
  }

  /** Two keys whose URLs may hold stray bytes are equal if and only if they agree but for which bytes those are. A
      stray byte and a character U+FFFD do not share a key. */
  lemma {:induction false} StrayKeysCollide(a: string, u: seq<GoChar>, h: map<string, string>,
                                            b: string, v: seq<GoChar>, k: map<string, string>)
    ensures GoKeyText(a, u, h) == GoKeyText(b, v, k) <==> a == b && SamePieces(u, v) && h == k
    ensures GoKeyText(a, [Stray(0xFE)], h) == GoKeyText(a, [Stray(0xFF)], h)
    ensures GoKeyText(a, [Stray(0xFE)], h) != GoKeyText(a, [Scalar('\U{FFFD}')], h)
  {
    GoKeysApart(a, u, h, b, v, k);
    GoKeysApart(a, [Stray(0xFE)], h, a, [Stray(0xFF)], h);
    GoKeysApart(a, [Stray(0xFE)], h, a, [Scalar('\U{FFFD}')], h);
    hide GoKeyText;
    assert [Stray(0xFE)][0] != [Scalar('\U{FFFD}')][0];
  }

  lemma {:induction false} GoKeysApart(a: string, u: seq<GoChar>, h: map<string, string>,
                                       b: string, v: seq<GoChar>, k: map<string, string>)
    ensures GoKeyText(a, u, h) == GoKeyText(b, v, k) <==> a == b && SamePieces(u, v) && h == k
  {
    hide Pieces, EncodeString, ParseString, SamePieces, KeyTail, ParseKeyTail;
    if GoKeyText(a, u, h) == GoKeyText(b, v, k) {
      var s, t := ",\"url\":" + (EncodeGoString(u) + KeyTail(h)), ",\"url\":" + (EncodeGoString(v) + KeyTail(k));
      StripLiteral("{\"method\":", EncodeString(a) + s);
      StripLiteral("{\"method\":", EncodeString(b) + t);
      StringRoundTrip(a, s);
      StringRoundTrip(b, t);
      StripLiteral(",\"url\":", EncodeGoString(u) + KeyTail(h));
      StripLiteral(",\"url\":", EncodeGoString(v) + KeyTail(k));
      assert (EncodeGoString(u) + KeyTail(h))[1..] == Pieces(u) + "\"" + KeyTail(h);
      assert (EncodeGoString(v) + KeyTail(k))[1..] == Pieces(v) + "\"" + KeyTail(k);
      PiecesApart(u, v, KeyTail(h), KeyTail(k));
      KeyTailRoundTrip(h);
      KeyTailRoundTrip(k);
    }
    if SamePieces(u, v) {
      SamePiecesSameText(u, v);
    }
  }

  /** A reader of the encoded text gets U+FFFD for every stray byte. */
  lemma {:induction false} StrayReadsReplaced(s: seq<GoChar>, rest: string)
    ensures ParseString(EncodeGoString(s) + rest) == Some((Replaced(s), rest))
  {
    PiecesRead(s, rest);
    assert (EncodeGoString(s) + rest)[1..] == Pieces(s) + "\"" + rest;
  }

  lemma {:induction false} PiecesRead(s: seq<GoChar>, rest: string)
    ensures ParseChars(Pieces(s) + "\"" + rest) == Some((Replaced(s), rest))
  {
    if s == [] {
      assert Pieces(s) + "\"" + rest == "\"" + rest;
    } else {
      var tail := Pieces(s[1..]) + "\"" + rest;
      assert Pieces(s) + "\"" + rest == Piece(s[0]) + tail;
      PieceMeans(s[0], tail);
      PiecesRead(s[1..], rest);
      hide Piece, ParseChars;
      assert Replaced([s[0]])[0] == Replaced(s)[0];
    }
  }

  function Scalars(s: string): seq<GoChar> {
    if s == "" then [] else [Scalar(s[0])] + Scalars(s[1..])
  }

  /** Without stray bytes the encoding is that of a string of characters. */
  lemma {:induction false} ScalarsEncode(s: string)
    ensures EncodeGoString(Scalars(s)) == EncodeString(s)
  {
    ScalarPieces(s);
  }

  lemma {:induction false} ScalarPieces(s: string)
    ensures Pieces(Scalars(s)) == EncodeChars(s)
  {
    hide Escape;
    if s != "" {
      assert Scalars(s)[1..] == Scalars(s[1..]);
      ScalarPieces(s[1..]);
    }
  }

  // ----- encoded batches -----

  function BodyText(body: Option<BodyData>): string {
    match body
    case None => "null"
    case Some(b) => "{\"encoding\":" + EncodeString(b.encoding) + ",\"data\":" + EncodeString(b.data) + "}"
  }

  function ItemText(item: RequestItem): string {
    "{\"request_id\":" + EncodeString(item.requestID)
    + ",\"method\":" + EncodeString(item.httpMethod)
    + ",\"url\":" + EncodeString(item.url)
    + (if item.headers == map[] then "" else ",\"headers\":" + EncodeMap(item.headers))
    + ",\"body\":" + BodyText(item.body) + "}"
  }

  function ItemsText(items: seq<RequestItem>): string {
    if items == [] then ""
    else if |items| == 1 then ItemText(items[0])
    else ItemsText(items[..|items| - 1]) + ("," + ItemText(items[|items| - 1]))
  }

  function HeadTail(client: ClientMeta, limits: BatchLimits): string {
    ",\"client\":{\"batch_interval_ms\":" + Decimal(client.batchIntervalMS)
    + ",\"route_mode\":" + EncodeString(client.routeMode)
    + "},\"limits\":{" + ("\"max_response_bytes_per_request\":" + Decimal(limits.maxResponseBytesPerRequest))
    + ",\"request_timeout_ms\":" + Decimal(limits.requestTimeoutMS)
    + ",\"worker_concurrency\":" + Decimal(limits.workerConcurrency)
    + "},\"requests\":["
  }

  function BatchText(batch: RequestBatch): string {
    "{\"protocol\":" + EncodeString(batch.protocol)
    + (",\"batch_id\":" + EncodeString(batch.batchID))
    + (",\"sent_at\":" + EncodeString(batch.sentAt))
    + HeadTail(batch.client, batch.limits)
    + ItemsText(batch.requests)
    + "]}"
  }

  /** len(json.Marshal(batch)); encoding these types cannot fail. */
  function BatchSizeBytes(batch: RequestBatch): nat {
    ByteLen(BatchText(batch))
  }

  function MakeBatch(items: seq<RequestItem>, settings: Settings, batchID: string, sentAt: string): RequestBatch {
    RequestBatch(
      REQUEST_BATCH_PROTOCOL, batchID, sentAt,
      ClientMeta(settings.batchInterval / MILLISECOND, ROUTE_MODE_WHOLE_DEVICE),
      BatchLimits(
        settings.maxResponseBytes, settings.requestTimeout / MILLISECOND,
        if settings.workerConcurrency < settings.maxWorkerConcurrency then settings.workerConcurrency
        else settings.maxWorkerConcurrency),
      items)
  }

  /** What a batch of these requests says, setting by setting: durations in whole milliseconds, and as many workers as
      are wanted, since the settings keep that within its maximum. */
  ghost predicate Composed(batch: RequestBatch, items: seq<RequestItem>, settings: Settings, batchID: string,
                           sentAt: string) {
    && batch.protocol == "actionrelay.request_batch.v1" && batch.batchID == batchID && batch.sentAt == sentAt
    && batch.client.routeMode == "whole_device"
    && batch.client.batchIntervalMS * 1_000_000 <= settings.batchInterval
       < (batch.client.batchIntervalMS + 1) * 1_000_000
    && batch.limits.maxResponseBytesPerRequest == settings.maxResponseBytes
    && batch.limits.requestTimeoutMS * 1_000_000 <= settings.requestTimeout
       < (batch.limits.requestTimeoutMS + 1) * 1_000_000
    && batch.limits.workerConcurrency == settings.workerConcurrency
    && batch.requests == items
  }

  lemma {:induction false} MakesComposed(items: seq<RequestItem>, settings: Settings, batchID: string, sentAt: string)
    requires settings.Valid()
    ensures Composed(MakeBatch(items, settings, batchID, sentAt), items, settings, batchID, sentAt)
  {
  }

  lemma {:induction false} SizingComposed(items: seq<RequestItem>, settings: Settings) returns (batch: RequestBatch)
    requires settings.Valid()
    ensures Composed(batch, items, settings, "batch-sizing-0000000000000000", "2026-01-01T00:00:00Z")
    ensures EstimatedSize(items, settings) == BatchSizeBytes(batch)
  {
    hide BatchSizeBytes;
    batch := SizingBatch(items, settings);
    MakesComposed(items, settings, batch.batchID, batch.sentAt);
  }

  function PlaceholderID(): (id: string)
    ensures |id| == 29 && PlainAscii(id)
  {
    PLACEHOLDER_BATCH_ID
  }

  function PlaceholderTime(): (time: string)
    ensures |time| == 20 && PlainAscii(time)
  {
    PLACEHOLDER_SENT_AT
  }

  function SizingBatch(items: seq<RequestItem>, settings: Settings): (batch: RequestBatch)
    ensures batch == MakeBatch(items, settings, batch.batchID, batch.sentAt)
    ensures |batch.batchID| == 29 && |batch.sentAt| == 20 && PlainAscii(batch.batchID) && PlainAscii(batch.sentAt)
  {
    MakeBatch(items, settings, PlaceholderID(), PlaceholderTime())
  }

  /** The size the agent expects of a batch while it is still choosing the items. */
  function EstimatedSize(items: seq<RequestItem>, settings: Settings): nat {
    BatchSizeBytes(SizingBatch(items, settings))
  }

  /** What one item adds: its text and a comma. */
  function ItemCost(item: RequestItem): nat {
    ByteLen(ItemText(item)) + 1
  }

  function Cost(items: seq<RequestItem>): nat {
    if items == [] then 0 else Cost(items[..|items| - 1]) + ItemCost(items[|items| - 1])
  }

  lemma {:induction false} EmptyCost()
    ensures Cost([]) == 0
  {
  }

  lemma {:induction false} CostAppend(items: seq<RequestItem>, item: RequestItem)
    ensures Cost(items + [item]) == Cost(items) + ItemCost(item)
  {
    assert (items + [item])[..|items|] == items;
  }

  lemma {:induction false} ItemCostBound(item: RequestItem)
    ensures ItemCost(item) >= 2
  {
    assert ItemText(item) != "";
  }

  lemma {:induction false} ItemsSize(items: seq<RequestItem>)
    ensures ByteLen(ItemsText(items)) == if items == [] then 0 else Cost(items) - 1
    ensures Cost(items) >= 2 * |items|
  {
    if items != [] {
      var last := |items| - 1;
      ItemsSize(items[..last]);
      ItemCostBound(items[last]);
      if |items| > 1 {
        ByteLenConcat(ItemsText(items[..last]), "," + ItemText(items[last]));
        ByteLenConcat(",", ItemText(items[last]));
        assert ByteLen(",") == 1;
      } else {
        assert Cost(items[..last]) == 0;
      }
    }
  }

  function Overhead(batch: RequestBatch): nat {
    ByteLen("{\"protocol\":" + EncodeString(batch.protocol))
    + ByteLen(",\"batch_id\":" + EncodeString(batch.batchID))
    + ByteLen(",\"sent_at\":" + EncodeString(batch.sentAt))
    + ByteLen(HeadTail(batch.client, batch.limits)) + 2
  }

  lemma {:induction false} Concat6(a: string, b: string, c: string, d: string, e: string, f: string)
    ensures ByteLen(a + b + c + d + e + f)
            == ByteLen(a) + ByteLen(b) + ByteLen(c) + ByteLen(d) + ByteLen(e) + ByteLen(f)
  {
    ByteLenConcat(a + b + c + d + e, f);
    ByteLenConcat(a + b + c + d, e);
    ByteLenConcat(a + b + c, d);
    ByteLenConcat(a + b, c);
    ByteLenConcat(a, b);
  }

  lemma {:induction false} BatchSizeParts(batch: RequestBatch)
    ensures BatchSizeBytes(batch) == Overhead(batch) + if batch.requests == [] then 0 else Cost(batch.requests) - 1
  {
    hide EncodeString, HeadTail, ItemsText, Cost;
    ItemsSize(batch.requests);
    Concat6("{\"protocol\":" + EncodeString(batch.protocol), ",\"batch_id\":" + EncodeString(batch.batchID),
            ",\"sent_at\":" + EncodeString(batch.sentAt), HeadTail(batch.client, batch.limits),
            ItemsText(batch.requests), "]}");
    ByteLenAscii("]}");
  }

  lemma {:induction false} PlainFieldSize(prefix: string, s: string)
    requires PlainAscii(s)
    ensures ByteLen(prefix + EncodeString(s)) == ByteLen(prefix) + |s| + 2
  {
    ByteLenConcat(prefix, EncodeString(s));
    EncodePlain(s);
  }

  lemma {:induction false} SizeShift(a: RequestBatch, b: RequestBatch)
    requires PlainAscii(a.batchID) && PlainAscii(a.sentAt) && PlainAscii(b.batchID) && PlainAscii(b.sentAt)
    requires b == a.(batchID := b.batchID, sentAt := b.sentAt)
    ensures BatchSizeBytes(a) - |a.batchID| - |a.sentAt| == BatchSizeBytes(b) - |b.batchID| - |b.sentAt|
  {
    hide BatchSizeBytes, EncodeString, HeadTail, Cost;
    BatchSizeParts(a);
    BatchSizeParts(b);
    PlainFieldSize(",\"batch_id\":", a.batchID);
    PlainFieldSize(",\"batch_id\":", b.batchID);
    PlainFieldSize(",\"sent_at\":", a.sentAt);
    PlainFieldSize(",\"sent_at\":", b.sentAt);
  }

  /** The batch that is sent differs from the one that was sized by the length of its identifier. */
  lemma {:induction false} SizeGap(items: seq<RequestItem>, settings: Settings, batchID: string, sentAt: string)
    requires PlainAscii(batchID) && PlainAscii(sentAt) && |sentAt| == 20
    ensures BatchSizeBytes(MakeBatch(items, settings, batchID, sentAt))
            == EstimatedSize(items, settings) + |batchID| - 29
  {
    hide BatchSizeBytes, PlaceholderID, PlaceholderTime;
    var sizing := SizingBatch(items, settings);
    SizeShift(MakeBatch(items, settings, batchID, sentAt), sizing);
  }

  lemma {:induction false} CostConcat(a: seq<RequestItem>, b: seq<RequestItem>)
    ensures Cost(a + b) == Cost(a) + Cost(b)
  {
    hide ItemCost;
    if b == [] {
      assert a + b == a;
    } else {
      var last := |b| - 1;
      CostConcat(a, b[..last]);
      assert (a + b)[..|a + b| - 1] == a + b[..last];
    }
  }

  /** The part of an estimate that the items do not change. */
  function FixedSize(settings: Settings): nat {
    Overhead(SizingBatch([], settings))
  }

  lemma {:induction false} EstimateParts(items: seq<RequestItem>, settings: Settings)
    ensures EstimatedSize(items, settings) == FixedSize(settings) + if items == [] then 0 else Cost(items) - 1
  {
    BatchSizeParts(SizingBatch(items, settings));
    hide BatchSizeBytes, Cost, ByteLen, HeadTail, EncodeString;
  }

  /** Adding items never makes a batch smaller, and a batch of one more item is strictly larger. */
  lemma {:induction false} EstimateMonotone(a: seq<RequestItem>, b: seq<RequestItem>, item: RequestItem,
                                            settings: Settings)
    ensures EstimatedSize(a + [item], settings) <= EstimatedSize(a + b + [item], settings)
    ensures EstimatedSize(a, settings) < EstimatedSize(a + [item], settings)
  {
    hide EstimatedSize, FixedSize, Cost, ItemCost;
    EstimateParts(a, settings);
    EstimateParts(a + [item], settings);
    EstimateParts(a + b + [item], settings);
    CostAppend(a, item);
    CostAppend(a + b, item);
    CostConcat(a, b);
    ItemCostBound(item);
    EmptyCost();
  }
}
