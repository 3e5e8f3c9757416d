/** What the bytes of a batch stand for: the encoded text reads back as the batch; and how long it is, field by
    field. */
module BatchReader {
  import opened Text
  import opened Protocol
  import opened Json
  import opened Wire

  // ----- reading numbers -----

  function DigitValue(c: char): Option<int> {
    if '0' <= c <= '9' then Some(c as int - '0' as int) else None
  }

  function ParseDigits(s: string, value: int): (int, string) {
    if s == "" || DigitValue(s[0]).None? then (value, s)
    else ParseDigits(s[1..], value * 10 + DigitValue(s[0]).value)
  }

  /** Reads an integer; gives it and what follows it. */
  function ParseInt(s: string): Option<(int, string)> {
    if s != "" && s[0] == '-' then
      var (value, rest) := ParseDigits(s[1..], 0);
      Some((-value, rest))
    else if s != "" && DigitValue(s[0]).Some? then Some(ParseDigits(s, 0))
    else None
  }

  predicate NoDigitFirst(s: string) {
    s == "" || DigitValue(s[0]).None?
  }

  lemma {:induction false} DigitRead(d: int, rest: string, value: int)
    requires 0 <= d < 10
    ensures ParseDigits(["0123456789"[d]] + rest, value) == ParseDigits(rest, value * 10 + d)
  {
    assert (["0123456789"[d]] + rest)[1..] == rest;
  }

  lemma {:induction false} DigitsRead(n: nat, rest: string)
    ensures ParseDigits(Decimal(n) + rest, 0) == ParseDigits(rest, n)
    ensures Decimal(n) != "" && DigitValue(Decimal(n)[0]).Some?
    decreases n
  {
    hide ParseDigits;
    if n < 10 {
      DigitRead(n, rest, 0);
    } else {
      var digit := ["0123456789"[n % 10]];
      DigitsRead(n / 10, digit + rest);
      DigitRead(n % 10, rest, n / 10);
      assert Decimal(n) + rest == Decimal(n / 10) + (digit + rest);
    }
  }

  lemma {:induction false} IntRead(n: int, rest: string)
    requires NoDigitFirst(rest)
    ensures ParseInt(Decimal(n) + rest) == Some((n, rest))
  {
    if n < 0 {
      DigitsRead(-n, rest);
      assert Decimal(n) + rest == "-" + (Decimal(-n) + rest);
      assert ("-" + (Decimal(-n) + rest))[1..] == Decimal(-n) + rest;
    } else {
      DigitsRead(n, rest);
      hide ParseDigits, Decimal;
      assert (Decimal(n) + rest)[0] == Decimal(n)[0];
      NotAMinus(Decimal(n)[0]);
    }
  }

  lemma {:induction false} NotAMinus(c: char)
    requires DigitValue(c).Some?
    ensures c != '-'
  {
  }

  // ----- reading fields -----

  /** Reads a field of text after its name. */
  function TextField(name: string, s: string): Option<(string, string)> {
    match Strip(name, s)
    case None => None
    case Some(text) => ParseString(text)
  }

  function IntField(name: string, s: string): Option<(int, string)> {
    match Strip(name, s)
    case None => None
    case Some(text) => ParseInt(text)
  }

  lemma {:induction false} TextFieldRead(name: string, value: string, rest: string)
    ensures TextField(name, name + EncodeString(value) + rest) == Some((value, rest))
  {
    hide ParseString, EncodeString;
    assert name + EncodeString(value) + rest == name + (EncodeString(value) + rest);
    StripLiteral(name, EncodeString(value) + rest);
    StringRoundTrip(value, rest);
  }

  lemma {:induction false} IntFieldRead(name: string, value: int, rest: string)
    requires NoDigitFirst(rest)
    ensures IntField(name, name + Decimal(value) + rest) == Some((value, rest))
  {
    hide ParseInt, Decimal, NoDigitFirst;
    assert name + Decimal(value) + rest == name + (Decimal(value) + rest);
    StripLiteral(name, Decimal(value) + rest);
    IntRead(value, rest);
  }

  function ParseBody(s: string): Option<(Option<BodyData>, string)> {
    if Strip("null", s).Some? then Some((None, Strip("null", s).value))
    else
      match TextField("{\"encoding\":", s)
      case None => None
      case Some((encoding, afterEncoding)) =>
        match TextField(",\"data\":", afterEncoding)
        case None => None
        case Some((data, afterData)) =>
          match Strip("}", afterData)
          case None => None
          case Some(rest) => Some((Some(BodyData(encoding, data)), rest))
  }

  lemma {:induction false} BodyRead(body: Option<BodyData>, rest: string)
    ensures ParseBody(BodyText(body) + rest) == Some((body, rest))
  {
    hide TextField, EncodeString;
    match body
    case None => StripLiteral("null", rest);
    case Some(b) =>
      var tail := "}" + rest;
      var middle := ",\"data\":" + EncodeString(b.data) + tail;
      var text := "{\"encoding\":" + EncodeString(b.encoding) + middle;
      assert BodyText(body) + rest == text;
      assert text[0] == '{' && "null"[0] == 'n';
      TextFieldRead("{\"encoding\":", b.encoding, middle);
      TextFieldRead(",\"data\":", b.data, tail);
      StripLiteral("}", rest);
  }

  /** Reads the headers of a request, which are absent if there are none. */
  function ParseHeaders(s: string): Option<(map<string, string>, string)> {
    match Strip(",\"headers\":", s)
    case None => Some((map[], s))
    case Some(braced) =>
      match Strip("{", braced)
      case None => None
      case Some(members) => ParseMembers(members)
  }

  function HeadersText(headers: map<string, string>): string {
    if headers == map[] then "" else ",\"headers\":" + EncodeMap(headers)
  }

  lemma {:induction false} NoHeaders(rest: string)
    requires |rest| > 2 && rest[2] == 'b'
    ensures Strip(",\"headers\":", rest).None?
  {
    assert ",\"headers\":"[2] == 'h';
  }

  lemma {:induction false} HeadersRead(headers: map<string, string>, rest: string)
    requires |rest| > 2 && rest[2] == 'b'
    ensures ParseHeaders(HeadersText(headers) + rest) == Some((headers, rest))
  {
    hide ParseMembers, EncodeMembers, EncodeMap;
    if headers == map[] {
      NoHeaders(rest);
      assert HeadersText(headers) + rest == rest;
    } else {
      var members := EncodeMembers(SortedKeys(headers.Keys), headers) + ("}" + rest);
      MapRoundTrip(headers, rest);
      StripLiteral(",\"headers\":", EncodeMap(headers) + rest);
      StripLiteral("{", members);
      Join3(",\"headers\":", EncodeMap(headers), rest);
    }
  }

  function ParseItem(s: string): Option<(RequestItem, string)> {
    match TextField("{\"request_id\":", s)
    case None => None
    case Some((requestID, afterID)) =>
      match TextField(",\"method\":", afterID)
      case None => None
      case Some((httpMethod, afterMethod)) =>
        match TextField(",\"url\":", afterMethod)
        case None => None
        case Some((url, afterURL)) =>
          match ParseHeaders(afterURL)
          case None => None
          case Some((headers, afterHeaders)) =>
            match Strip(",\"body\":", afterHeaders)
            case None => None
            case Some(bodyText) =>
              match ParseBody(bodyText)
              case None => None
              case Some((body, afterBody)) =>
                match Strip("}", afterBody)
                case None => None
                case Some(rest) => Some((RequestItem(requestID, httpMethod, url, headers, body), rest))
  }

  lemma {:induction false} ItemRegroup(item: RequestItem, rest: string)
    ensures var bodyTail := ",\"body\":" + (BodyText(item.body) + ("}" + rest));
            var headersTail := HeadersText(item.headers) + bodyTail;
            var urlTail := ",\"url\":" + EncodeString(item.url) + headersTail;
            var methodTail := ",\"method\":" + EncodeString(item.httpMethod) + urlTail;
            ItemText(item) + rest == "{\"request_id\":" + EncodeString(item.requestID) + methodTail
  {
    hide EncodeString, BodyText, EncodeMap;
    var id, m, u := EncodeString(item.requestID), EncodeString(item.httpMethod), EncodeString(item.url);
    var h, b := HeadersText(item.headers), BodyText(item.body);
    assert ItemText(item)
           == "{\"request_id\":" + id + ",\"method\":" + m + ",\"url\":" + u + h + ",\"body\":" + b + "}";
  }

  lemma {:induction false} ItemRead(item: RequestItem, rest: string)
    ensures ParseItem(ItemText(item) + rest) == Some((item, rest))
  {
    hide TextField, ParseHeaders, ParseBody, HeadersText, BodyText, EncodeString, ItemText;
    var tail := "}" + rest;
    var bodyTail := ",\"body\":" + (BodyText(item.body) + tail);
    var headersTail := HeadersText(item.headers) + bodyTail;
    var urlTail := ",\"url\":" + EncodeString(item.url) + headersTail;
    var methodTail := ",\"method\":" + EncodeString(item.httpMethod) + urlTail;
    ItemRegroup(item, rest);
    TextFieldRead("{\"request_id\":", item.requestID, methodTail);
    TextFieldRead(",\"method\":", item.httpMethod, urlTail);
    TextFieldRead(",\"url\":", item.url, headersTail);
    assert bodyTail[2] == 'b';
    HeadersRead(item.headers, bodyTail);
    StripLiteral(",\"body\":", BodyText(item.body) + tail);
    BodyRead(item.body, tail);
    StripLiteral("}", rest);
  }

  // ----- reading the list -----

  /** Reads the items that follow the first, up to the end of the batch. */
  function ParseTail(s: string): Option<seq<RequestItem>>
    decreases |s|
  {
    if s == "]}" then Some([])
    else
      match Strip(",", s)
      case None => None
      case Some(text) =>
        match ParseItem(text)
        case None => None
        case Some((item, rest)) =>
          if |rest| >= |s| then None
          else
            match ParseTail(rest)
            case None => None
            case Some(items) => Some([item] + items)
  }

  function ParseItems(s: string): Option<seq<RequestItem>> {
    if s == "]}" then Some([])
    else
      match ParseItem(s)
      case None => None
      case Some((item, rest)) =>
        match ParseTail(rest)
        case None => None
        case Some(items) => Some([item] + items)
  }

  function TailText(items: seq<RequestItem>): string {
    if items == [] then "" else "," + ItemText(items[0]) + TailText(items[1..])
  }

  lemma {:induction false} TailAppend(items: seq<RequestItem>, item: RequestItem)
    ensures TailText(items + [item]) == TailText(items) + ("," + ItemText(item))
  {
    hide ItemText;
    if items == [] {
      assert [item][1..] == [] && TailText([]) == "";
      assert items + [item] == [item];
    } else {
      assert (items + [item])[1..] == items[1..] + [item];
      TailAppend(items[1..], item);
      Join3("," + ItemText(items[0]), TailText(items[1..]), "," + ItemText(item));
    }
  }

  lemma {:induction false} Join3(a: string, b: string, c: string)
    ensures a + (b + c) == a + b + c
  {
  }

  lemma {:induction false} ItemsAsTail(items: seq<RequestItem>)
    requires items != []
    ensures ItemsText(items) == ItemText(items[0]) + TailText(items[1..])
  {
    hide ItemText;
    var last := |items| - 1;
    if last > 0 {
      ItemsAsTail(items[..last]);
      assert items[..last][1..] == items[1..last] && items[1..] == items[1..last] + [items[last]];
      TailAppend(items[1..last], items[last]);
      Join3(ItemText(items[0]), TailText(items[1..last]), "," + ItemText(items[last]));
    } else {
      assert TailText([]) == "";
    }
  }

  lemma {:induction false} TailRead(items: seq<RequestItem>)
    ensures ParseTail(TailText(items) + "]}") == Some(items)
  {
    hide ParseItem, ItemText;
    if items == [] {
      assert TailText(items) + "]}" == "]}";
    } else {
      var rest := TailText(items[1..]) + "]}";
      TailRead(items[1..]);
      ItemRead(items[0], rest);
      TailOn(items[0], items[1..], rest);
      assert TailText(items) + "]}" == "," + (ItemText(items[0]) + rest);
      assert [items[0]] + items[1..] == items;
    }
  }

  lemma {:induction false} TailOn(item: RequestItem, items: seq<RequestItem>, rest: string)
    requires ParseItem(ItemText(item) + rest) == Some((item, rest)) && ParseTail(rest) == Some(items)
    ensures ParseTail("," + (ItemText(item) + rest)) == Some([item] + items)
  {
    hide ParseItem, ItemText;
    var s := "," + (ItemText(item) + rest);
    StripLiteral(",", ItemText(item) + rest);
    assert s[0] == ',' && "]}"[0] == ']';
  }

  lemma {:induction false} ItemsRead(items: seq<RequestItem>)
    ensures ParseItems(ItemsText(items) + "]}") == Some(items)
  {
    hide ParseItem, ItemText, ParseTail;
    if items == [] {
      assert ItemsText(items) + "]}" == "]}";
    } else {
      ItemsAsTail(items);
      var rest := TailText(items[1..]) + "]}";
      TailRead(items[1..]);
      ItemRead(items[0], rest);
      Join3(ItemText(items[0]), TailText(items[1..]), "]}");
      ItemBegins(items[0]);
      assert (ItemText(items[0]) + rest)[0] == '{' && "]}"[0] == ']';
      assert [items[0]] + items[1..] == items;
    }
  }

  lemma {:induction false} ItemBegins(item: RequestItem)
    ensures ItemText(item) != "" && ItemText(item)[0] == '{'
  {
    hide EncodeString, BodyText, EncodeMap;
  }

  // ----- reading a batch -----

  function ParseClient(s: string): Option<(ClientMeta, string)> {
    match IntField(",\"client\":{\"batch_interval_ms\":", s)
    case None => None
    case Some((interval, afterInterval)) =>
      match TextField(",\"route_mode\":", afterInterval)
      case None => None
      case Some((mode, rest)) => Some((ClientMeta(interval, mode), rest))
  }

  function ParseLimits(s: string): Option<(BatchLimits, string)> {
    match Strip("},\"limits\":{", s)
    case None => None
    case Some(fields) =>
      match IntField("\"max_response_bytes_per_request\":", fields)
      case None => None
      case Some((bytes, afterBytes)) =>
        match IntField(",\"request_timeout_ms\":", afterBytes)
        case None => None
        case Some((timeout, afterTimeout)) =>
          match IntField(",\"worker_concurrency\":", afterTimeout)
          case None => None
          case Some((workers, rest)) => Some((BatchLimits(bytes, timeout, workers), rest))
  }

  function ParseBatch(s: string): Option<RequestBatch> {
    match TextField("{\"protocol\":", s)
    case None => None
    case Some((protocol, afterProtocol)) =>
      match TextField(",\"batch_id\":", afterProtocol)
      case None => None
      case Some((batchID, afterID)) =>
        match TextField(",\"sent_at\":", afterID)
        case None => None
        case Some((sentAt, afterSent)) =>
          match ParseClient(afterSent)
          case None => None
          case Some((client, afterClient)) =>
            match ParseLimits(afterClient)
            case None => None
            case Some((limits, afterLimits)) =>
              match Strip("},\"requests\":[", afterLimits)
              case None => None
              case Some(list) =>
                match ParseItems(list)
                case None => None
                case Some(items) => Some(RequestBatch(protocol, batchID, sentAt, client, limits, items))
  }

  function ClientText(client: ClientMeta): string {
    ",\"client\":{\"batch_interval_ms\":" + Decimal(client.batchIntervalMS)
    + (",\"route_mode\":" + EncodeString(client.routeMode))
  }

  function LimitsText(limits: BatchLimits): string {
    "},\"limits\":{" + ("\"max_response_bytes_per_request\":" + Decimal(limits.maxResponseBytesPerRequest))
    + (",\"request_timeout_ms\":" + Decimal(limits.requestTimeoutMS))
    + (",\"worker_concurrency\":" + Decimal(limits.workerConcurrency))
  }

  lemma {:induction false} ClientRead(client: ClientMeta, rest: string)
    ensures ParseClient(ClientText(client) + rest) == Some((client, rest))
  {
    hide IntField, TextField, Decimal, EncodeString;
    var tail := ",\"route_mode\":" + EncodeString(client.routeMode) + rest;
    assert ClientText(client) + rest
           == ",\"client\":{\"batch_interval_ms\":" + Decimal(client.batchIntervalMS) + tail;
    assert tail[0] == ',';
    IntFieldRead(",\"client\":{\"batch_interval_ms\":", client.batchIntervalMS, tail);
    TextFieldRead(",\"route_mode\":", client.routeMode, rest);
  }

  lemma {:induction false} LimitsRead(limits: BatchLimits, rest: string)
    requires NoDigitFirst(rest)
    ensures ParseLimits(LimitsText(limits) + rest) == Some((limits, rest))
  {
    hide IntField, Decimal;
    var workers := ",\"worker_concurrency\":" + Decimal(limits.workerConcurrency) + rest;
    var timeout := ",\"request_timeout_ms\":" + Decimal(limits.requestTimeoutMS) + workers;
    var bytes := "\"max_response_bytes_per_request\":" + Decimal(limits.maxResponseBytesPerRequest) + timeout;
    assert LimitsText(limits) + rest == "},\"limits\":{" + bytes;
    assert workers[0] == ',' && timeout[0] == ',';
    StripLiteral("},\"limits\":{", bytes);
    IntFieldRead("\"max_response_bytes_per_request\":", limits.maxResponseBytesPerRequest, timeout);
    IntFieldRead(",\"request_timeout_ms\":", limits.requestTimeoutMS, workers);
    IntFieldRead(",\"worker_concurrency\":", limits.workerConcurrency, rest);
  }

  lemma {:induction false} HeadTailParts(client: ClientMeta, limits: BatchLimits)
    ensures HeadTail(client, limits) == ClientText(client) + LimitsText(limits) + "},\"requests\":["
  {
    hide Decimal, EncodeString;
  }

  lemma {:induction false} BatchRegroup(batch: RequestBatch)
    ensures var list := "},\"requests\":[" + (ItemsText(batch.requests) + "]}");
            var clientTail := ClientText(batch.client) + (LimitsText(batch.limits) + list);
            var sentTail := ",\"sent_at\":" + EncodeString(batch.sentAt) + clientTail;
            var idTail := ",\"batch_id\":" + EncodeString(batch.batchID) + sentTail;
            BatchText(batch) == "{\"protocol\":" + EncodeString(batch.protocol) + idTail
  {
    hide EncodeString, ItemsText, HeadTail, ClientText, LimitsText;
    HeadTailParts(batch.client, batch.limits);
  }

  /** The text whose bytes the agent counts, and which it sends, says all of the batch: it reads back as the same. */
  lemma {:induction false} BatchRoundTrip(batch: RequestBatch)
    ensures ParseBatch(BatchText(batch)) == Some(batch)
  {
    hide TextField, ParseClient, ParseLimits, ParseItems, EncodeString, ItemsText, ClientText, LimitsText, BatchText;
    var items := ItemsText(batch.requests) + "]}";
    var list := "},\"requests\":[" + items;
    var limitsTail := LimitsText(batch.limits) + list;
    var clientTail := ClientText(batch.client) + limitsTail;
    var sentTail := ",\"sent_at\":" + EncodeString(batch.sentAt) + clientTail;
    var idTail := ",\"batch_id\":" + EncodeString(batch.batchID) + sentTail;
    BatchRegroup(batch);
    TextFieldRead("{\"protocol\":", batch.protocol, idTail);
    TextFieldRead(",\"batch_id\":", batch.batchID, sentTail);
    TextFieldRead(",\"sent_at\":", batch.sentAt, clientTail);
    ClientRead(batch.client, limitsTail);
    assert list[0] == '}';
    LimitsRead(batch.limits, list);
    StripLiteral("},\"requests\":[", items);
    ItemsRead(batch.requests);
  }

  // ----- how long the text is -----

  /** The bytes that encoding/json writes for one character of a string. */
  function CharBytes(c: char): nat {
    if c in "\"\\\n\r\t\U{8}\U{C}" then 2
    else if c < ' ' || c in "<>&\U{2028}\U{2029}" then 6
    else if c as int < 0x80 then 1
    else if c as int < 0x800 then 2
    else if c as int < 0x1_0000 then 3
    else 4
  }

  function CharsBytes(s: string): nat {
    if s == "" then 0 else CharBytes(s[0]) + CharsBytes(s[1..])
  }

  /** A string between its quotes. */
  function Quoted(s: string): nat {
    CharsBytes(s) + 2
  }

  function Digits(n: nat): nat {
    if n < 10 then 1 else Digits(n / 10) + 1
  }

  function IntBytes(n: int): nat {
    if n < 0 then Digits(-n) + 1 else Digits(n)
  }

  function MembersBytes(keys: seq<string>, m: map<string, string>): nat
    requires forall k :: k in keys ==> k in m
  {
    if keys == [] then 0 else Quoted(keys[0]) + Quoted(m[keys[0]]) + 2 + MembersBytes(keys[1..], m)
  }

  /** The field of headers: its name, the braces, and for each header two strings, a colon and, but for the last, a
      comma. */
  function HeadersBytes(headers: map<string, string>): nat {
    if headers == map[] then 0 else MembersBytes(SortedKeys(headers.Keys), headers) + 12
  }

  function BodyBytes(body: Option<BodyData>): nat {
    match body
    case None => 4
    case Some(data) => Quoted(data.encoding) + Quoted(data.data) + 21
  }

  function ItemBytes(item: RequestItem): nat {
    Quoted(item.requestID) + Quoted(item.httpMethod) + Quoted(item.url) + HeadersBytes(item.headers)
    + BodyBytes(item.body) + 40
  }

  /** The items and the commas between them. */
  function ItemsBytes(items: seq<RequestItem>): nat {
    if items == [] then 0
    else ItemsBytes(items[..|items| - 1]) + ItemBytes(items[|items| - 1]) + if |items| > 1 then 1 else 0
  }

  lemma {:induction false} CharSize(c: char)
    ensures ByteLen(Escape(c)) == CharBytes(c)
  {
    if NeedsUnicodeEscape(c) || |Escape(c)| == 2 {
      EscapeAscii(c);
      ByteLenAscii(Escape(c));
    } else {
      assert Escape(c) == [c] && [c][1..] == "";
    }
  }

  lemma {:induction false} EscapeAscii(c: char)
    requires |Escape(c)| > 1
    ensures forall i :: 0 <= i < |Escape(c)| ==> Escape(c)[i] as int < 0x80
  {
    if |Escape(c)| == 6 {
      HexAscii(c as int);
    }
  }

  lemma {:induction false} HexAscii(n: int)
    requires 0 <= n < 0x1_0000
    ensures |Hex4(n)| == 4 && forall i :: 0 <= i < 4 ==> Hex4(n)[i] as int < 0x80
  {
  }

  lemma {:induction false} CharsSize(s: string)
    ensures ByteLen(EncodeChars(s)) == CharsBytes(s)
  {
    hide Escape, CharBytes;
    if s != "" {
      CharsSize(s[1..]);
      CharSize(s[0]);
      ByteLenConcat(Escape(s[0]), EncodeChars(s[1..]));
    }
  }

  lemma {:induction false} QuotedSize(s: string)
    ensures ByteLen(EncodeString(s)) == Quoted(s)
  {
    hide EncodeChars;
    CharsSize(s);
    ByteLenConcat("\"" + EncodeChars(s), "\"");
    ByteLenConcat("\"", EncodeChars(s));
    ByteLenAscii("\"");
  }

  lemma {:induction false} DigitsSize(n: nat)
    ensures ByteLen(Decimal(n)) == Digits(n)
    decreases n
  {
    ByteLenAscii(["0123456789"[n % 10]]);
    if n >= 10 {
      DigitsSize(n / 10);
      ByteLenConcat(Decimal(n / 10), ["0123456789"[n % 10]]);
    } else {
      assert n % 10 == n;
    }
  }

  lemma {:induction false} IntSize(n: int)
    ensures ByteLen(Decimal(n)) == IntBytes(n)
  {
    if n < 0 {
      DigitsSize(-n);
      ByteLenConcat("-", Decimal(-n));
      ByteLenAscii("-");
    } else {
      DigitsSize(n);
    }
  }

  /** A name in quotes, without characters that need an escape, and what follows it. */
  lemma {:induction false} NamedSize(name: string, value: string)
    requires forall i :: 0 <= i < |name| ==> name[i] as int < 0x80
    ensures ByteLen(name + value) == |name| + ByteLen(value)
  {
    ByteLenConcat(name, value);
    ByteLenAscii(name);
  }

  lemma {:induction false} MemberSize(key: string, value: string)
    ensures ByteLen(EncodeMember(key, value)) == Quoted(key) + Quoted(value) + 1
  {
    hide EncodeString, Quoted;
    QuotedSize(key);
    QuotedSize(value);
    ByteLenConcat(EncodeString(key) + ":", EncodeString(value));
    ByteLenConcat(EncodeString(key), ":");
    ByteLenAscii(":");
  }

  lemma {:induction false} MembersSize(keys: seq<string>, m: map<string, string>)
    requires forall k :: k in keys ==> k in m
    ensures ByteLen(EncodeMembers(keys, m)) + (if keys == [] then 0 else 1) == MembersBytes(keys, m)
    decreases |keys|
  {
    hide EncodeMember, Quoted;
    if keys != [] {
      MembersSize(keys[1..], m);
      MemberSize(keys[0], m[keys[0]]);
      if |keys| > 1 {
        var rest := EncodeMembers(keys[1..], m);
        ByteLenConcat(EncodeMember(keys[0], m[keys[0]]), "," + rest);
        NamedSize(",", rest);
      } else {
        assert keys[1..] == [];
      }
    }
  }

  lemma {:induction false} MapSize(m: map<string, string>)
    requires m != map[]
    ensures ByteLen(EncodeMap(m)) == MembersBytes(SortedKeys(m.Keys), m) + 1
  {
    hide EncodeMembers, MembersBytes;
    var keys := SortedKeys(m.Keys);
    RestrictSorted(m);
    MembersSize(keys, m);
    var members := EncodeMembers(keys, m);
    ByteLenConcat("{" + members, "}");
    NamedSize("{", members);
    ByteLenAscii("}");
  }

  lemma {:induction false} NothingSize()
    ensures ByteLen("") == 0
  {
  }

  lemma {:induction false} HeadersSize(headers: map<string, string>)
    ensures ByteLen(HeadersText(headers)) == HeadersBytes(headers)
  {
    hide EncodeMap, MembersBytes, ByteLen, SortedKeys;
    if headers == map[] {
      NothingSize();
    } else {
      MapSize(headers);
      NamedSize(",\"headers\":", EncodeMap(headers));
    }
  }

  lemma {:induction false} BodySize(body: Option<BodyData>)
    ensures ByteLen(BodyText(body)) == BodyBytes(body)
  {
    hide EncodeString, Quoted;
    match body
    case None => ByteLenAscii("null");
    case Some(b) =>
      var encoding, data := EncodeString(b.encoding), EncodeString(b.data);
      QuotedSize(b.encoding);
      QuotedSize(b.data);
      assert BodyText(body) == "{\"encoding\":" + (encoding + (",\"data\":" + (data + "}")));
      NamedSize("{\"encoding\":", encoding + (",\"data\":" + (data + "}")));
      ByteLenConcat(encoding, ",\"data\":" + (data + "}"));
      NamedSize(",\"data\":", data + "}");
      ByteLenConcat(data, "}");
      ByteLenAscii("}");
  }

  lemma {:induction false} FieldSize(name: string, value: string, rest: string)
    requires forall i :: 0 <= i < |name| ==> name[i] as int < 0x80
    ensures ByteLen(name + EncodeString(value) + rest) == |name| + Quoted(value) + ByteLen(rest)
  {
    hide EncodeString, Quoted;
    QuotedSize(value);
    NamedSize(name, EncodeString(value));
    ByteLenConcat(name + EncodeString(value), rest);
  }

  lemma {:induction false} ItemSize(item: RequestItem)
    ensures ByteLen(ItemText(item)) == ItemBytes(item)
  {
    hide EncodeString, Quoted, HeadersText, HeadersBytes, BodyText, BodyBytes, ItemText;
    var body, headers := BodyText(item.body), HeadersText(item.headers);
    var bodyTail := ",\"body\":" + (body + "}");
    var headersTail := headers + bodyTail;
    var urlTail := ",\"url\":" + EncodeString(item.url) + headersTail;
    var methodTail := ",\"method\":" + EncodeString(item.httpMethod) + urlTail;
    ItemRegroup(item, "");
    assert ItemText(item) + "" == ItemText(item) && "}" + "" == "}";
    FieldSize("{\"request_id\":", item.requestID, methodTail);
    FieldSize(",\"method\":", item.httpMethod, urlTail);
    FieldSize(",\"url\":", item.url, headersTail);
    ByteLenConcat(headers, bodyTail);
    HeadersSize(item.headers);
    NamedSize(",\"body\":", body + "}");
    ByteLenConcat(body, "}");
    BodySize(item.body);
    ByteLenAscii("}");
  }

  lemma {:induction false} CostIsItems(items: seq<RequestItem>)
    ensures Cost(items) == ItemsBytes(items) + if items == [] then 0 else 1
  {
    hide ItemText, ItemBytes;
    if items != [] {
      CostIsItems(items[..|items| - 1]);
      ItemSize(items[|items| - 1]);
    }
  }

  function LimitsBytes(limits: BatchLimits): nat {
    IntBytes(limits.maxResponseBytesPerRequest) + IntBytes(limits.requestTimeoutMS) + IntBytes(limits.workerConcurrency)
  }

  lemma {:induction false} IntFieldSize(name: string, value: int)
    requires forall i :: 0 <= i < |name| ==> name[i] as int < 0x80
    ensures ByteLen(name + Decimal(value)) == |name| + IntBytes(value)
  {
    hide Decimal, IntBytes;
    IntSize(value);
    NamedSize(name, Decimal(value));
  }

  lemma {:induction false} ClientSize(client: ClientMeta)
    ensures ByteLen(ClientText(client)) == IntBytes(client.batchIntervalMS) + Quoted(client.routeMode) + 45
  {
    hide Decimal, EncodeString, IntBytes, Quoted;
    var mode := ",\"route_mode\":" + EncodeString(client.routeMode);
    IntFieldSize(",\"client\":{\"batch_interval_ms\":", client.batchIntervalMS);
    QuotedSize(client.routeMode);
    NamedSize(",\"route_mode\":", EncodeString(client.routeMode));
    ByteLenConcat(",\"client\":{\"batch_interval_ms\":" + Decimal(client.batchIntervalMS), mode);
  }

  lemma {:induction false} BytesFieldSize(value: int)
    ensures ByteLen("},\"limits\":{" + ("\"max_response_bytes_per_request\":" + Decimal(value))) == IntBytes(value) + 45
  {
    hide Decimal, IntBytes;
    var field := "\"max_response_bytes_per_request\":" + Decimal(value);
    IntFieldSize("\"max_response_bytes_per_request\":", value);
    NamedSize("},\"limits\":{", field);
  }

  lemma {:induction false} LimitsSize(limits: BatchLimits)
    ensures ByteLen(LimitsText(limits)) == LimitsBytes(limits) + 89
  {
    hide Decimal, IntBytes;
    var bytes := "},\"limits\":{"
      + ("\"max_response_bytes_per_request\":" + Decimal(limits.maxResponseBytesPerRequest));
    var timeout := ",\"request_timeout_ms\":" + Decimal(limits.requestTimeoutMS);
    var workers := ",\"worker_concurrency\":" + Decimal(limits.workerConcurrency);
    BytesFieldSize(limits.maxResponseBytesPerRequest);
    IntFieldSize(",\"request_timeout_ms\":", limits.requestTimeoutMS);
    IntFieldSize(",\"worker_concurrency\":", limits.workerConcurrency);
    ByteLenConcat(bytes + timeout, workers);
    ByteLenConcat(bytes, timeout);
  }

  lemma {:induction false} HeadTailSize(client: ClientMeta, limits: BatchLimits)
    ensures ByteLen(HeadTail(client, limits))
            == IntBytes(client.batchIntervalMS) + Quoted(client.routeMode) + LimitsBytes(limits) + 148
  {
    hide HeadTail, ClientText, LimitsText, IntBytes, Quoted, LimitsBytes;
    HeadTailParts(client, limits);
    ClientSize(client);
    LimitsSize(limits);
    RequestsSize(ClientText(client) + LimitsText(limits));
    ByteLenConcat(ClientText(client), LimitsText(limits));
  }

  lemma {:induction false} RequestsSize(before: string)
    ensures ByteLen(before + "},\"requests\":[") == ByteLen(before) + 14
  {
    AsciiAfter(before, "},\"requests\":[");
  }

  lemma {:induction false} AsciiAfter(before: string, s: string)
    requires forall i :: 0 <= i < |s| ==> s[i] as int < 0x80
    ensures ByteLen(before + s) == ByteLen(before) + |s|
  {
    ByteLenConcat(before, s);
    ByteLenAscii(s);
  }

  /** What the bytes of a batch come to, field by field. */
  lemma {:induction false} BatchBytes(batch: RequestBatch)
    ensures BatchSizeBytes(batch)
            == Quoted(batch.protocol) + Quoted(batch.batchID) + Quoted(batch.sentAt)
               + IntBytes(batch.client.batchIntervalMS) + Quoted(batch.client.routeMode) + LimitsBytes(batch.limits)
               + ItemsBytes(batch.requests) + 185
  {
    hide BatchSizeBytes, EncodeString, HeadTail, Cost, Quoted, IntBytes, LimitsBytes;
    BatchSizeParts(batch);
    QuotedSize(batch.protocol);
    NamedSize("{\"protocol\":", EncodeString(batch.protocol));
    QuotedSize(batch.batchID);
    NamedSize(",\"batch_id\":", EncodeString(batch.batchID));
    QuotedSize(batch.sentAt);
    NamedSize(",\"sent_at\":", EncodeString(batch.sentAt));
    HeadTailSize(batch.client, batch.limits);
    CostIsItems(batch.requests);
  }

  // ----- bodies within the limit -----

  function BodyLength(item: RequestItem): nat {
    if item.body.None? then 0 else |item.body.value.data|
  }

  function BodyLengths(items: seq<RequestItem>): nat {
    if items == [] then 0 else BodyLengths(items[..|items| - 1]) + BodyLength(items[|items| - 1])
  }

  lemma {:induction false} CharsAtLeast(s: string)
    ensures CharsBytes(s) >= |s|
  {
    if s != "" {
      CharsAtLeast(s[1..]);
    }
  }

  lemma {:induction false} ItemsAtLeast(items: seq<RequestItem>)
    ensures ItemsBytes(items) >= BodyLengths(items)
  {
    if items != [] {
      var last := items[|items| - 1];
      ItemsAtLeast(items[..|items| - 1]);
      if last.body.Some? {
        CharsAtLeast(last.body.value.data);
      }
    }
  }

  /** A batch within a limit holds no more characters of body data than that. */
  lemma {:induction false} BodiesWithin(batch: RequestBatch, limit: nat)
    requires BatchSizeBytes(batch) <= limit
    ensures BodyLengths(batch.requests) <= limit
  {
    hide BatchSizeBytes;
    BatchBytes(batch);
    ItemsAtLeast(batch.requests);
  }
}
