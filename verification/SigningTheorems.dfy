/** What the receiver of a signed request can rely on: it recovers the time and the parameters, and it
    can rebuild the text that was signed from what was sent. */
module SigningTheorems {
  import opened Text
  import opened Splitting
  import opened Calendar
  import opened Json
  import opened Encoder
  import opened EncoderTheorems
  import opened Signing

  // --- percent-encoding (section 2.1 of RFC 3986) ---

  function HexValue(c: char): Option<nat> {
    if '0' <= c <= '9' then Some(c as int - '0' as int)
    else if 'A' <= c <= 'F' then Some(c as int - 'A' as int + 10)
    else if 'a' <= c <= 'f' then Some(c as int - 'a' as int + 10)
    else None
  }

  function PercentDecode(s: string): string {
    if s == [] then []
    else if s[0] == '%' && |s| >= 3 && HexValue(s[1]).Some? && HexValue(s[2]).Some? then
      [(16 * HexValue(s[1]).value + HexValue(s[2]).value) as char] + PercentDecode(s[3..])
    else [s[0]] + PercentDecode(s[1..])
  }

  function EncodeChar(c: char): string { if c == ':' then "%3A" else [c] }

  function EncodeColons(s: string): string {
    if s == [] then [] else EncodeChar(s[0]) + EncodeColons(s[1..])
  }

  lemma {:induction false} DecodeEncoded(s: string)
    requires '%' !in s
    ensures PercentDecode(EncodeColons(s)) == s
  {
    if s != [] {
      DecodeEncoded(s[1..]);
      var rest := EncodeColons(s[1..]);
      if s[0] == ':' {
        assert ("%3A" + rest)[3..] == rest;
      } else {
        assert ([s[0]] + rest)[1..] == rest;
      }
    }
  }

  lemma {:induction false} EncodeAppend(a: string, b: string)
    ensures EncodeColons(a + b) == EncodeColons(a) + EncodeColons(b)
  {
    if a == [] {
      assert a + b == b;
    } else {
      EncodeAppend(a[1..], b);
      assert (a + b)[1..] == a[1..] + b;
      Concat(EncodeChar(a[0]), EncodeColons(a[1..]), EncodeColons(b), [], []);
    }
  }

  lemma {:induction false} EncodePlain(s: string)
    requires ':' !in s
    ensures EncodeColons(s) == s
  {
    if s != [] {
      EncodePlain(s[1..]);
    }
  }

  lemma ThreeHoldNo(a: string, b: string, d: string, separator: char, c: char)
    requires c !in a && c !in b && c !in d && separator != c
    ensures c !in a + [separator] + b + [separator] + d
  {
  }

  lemma DateTextHoldsNo(d: Date, c: char)
    requires !IsDigit(c) && c != '-'
    ensures c !in DateText(d)
  {
    DigitsHoldNo(PrintPadded(d.year, 4), c);
    DigitsHoldNo(PrintPadded(d.month, 2), c);
    DigitsHoldNo(PrintPadded(d.day, 2), c);
    ThreeHoldNo(PrintPadded(d.year, 4), PrintPadded(d.month, 2), PrintPadded(d.day, 2), '-', c);
  }

  lemma TimeTextHoldsNo(t: Time, c: char)
    requires !IsDigit(c) && c != ':'
    ensures c !in TimeText(t, ":")
  {
    DigitsHoldNo(PrintPadded(t.hours, 2), c);
    DigitsHoldNo(PrintPadded(t.minutes, 2), c);
    DigitsHoldNo(PrintPadded(t.seconds, 2), c);
    ThreeHoldNo(PrintPadded(t.hours, 2), PrintPadded(t.minutes, 2), PrintPadded(t.seconds, 2), ':', c);
  }

  lemma EncodeTime(t: Time)
    ensures EncodeColons(TimeText(t, ":")) == TimeText(t, "%3A")
  {
    var h, m, s := PrintPadded(t.hours, 2), PrintPadded(t.minutes, 2), PrintPadded(t.seconds, 2);
    DigitsHoldNo(h, ':');
    DigitsHoldNo(m, ':');
    DigitsHoldNo(s, ':');
    EncodePlain(h);
    EncodePlain(m);
    EncodePlain(s);
    EncodeColon();
    EncodeAppend(h, ":");
    EncodeAppend(h + ":", m);
    EncodeAppend(h + ":" + m, ":");
    EncodeAppend(h + ":" + m + ":", s);
  }

  lemma EncodeColon()
    ensures EncodeColons(":") == "%3A"
  {
    assert ":"[1..] == [];
  }

  /** The signed timestamp is the percent-encoded timestamp of the message, and decodes to it. */
  lemma TimestampsAgree(now: nat)
    ensures EncodedTimestamp(now) == EncodeColons(Timestamp(now))
    ensures PercentDecode(EncodedTimestamp(now)) == Timestamp(now)
  {
    var m := MomentOf(now);
    DateTextHoldsNo(m.date, ':');
    DateTextHoldsNo(m.date, '%');
    TimeTextHoldsNo(m.time, '%');
    EncodePlain(DateText(m.date) + "T");
    EncodeAppend(DateText(m.date) + "T", TimeText(m.time, ":"));
    EncodeTime(m.time);
    DecodeEncoded(Timestamp(now));
  }

  // --- reading a timestamp ---

  function ReadNumbers(parts: seq<string>): Option<(nat, nat, nat)> {
    if |parts| == 3 && IsDigits(parts[0]) && IsDigits(parts[1]) && IsDigits(parts[2]) then
      Some((ValueOf(parts[0]), ValueOf(parts[1]), ValueOf(parts[2])))
    else None
  }

  function ReadTimestamp(s: string): Option<Moment> {
    var halves := Parts(s, 'T');
    if |halves| != 2 then None
    else
      var date, time := ReadNumbers(Parts(halves[0], '-')), ReadNumbers(Parts(halves[1], ':'));
      if date.Some? && time.Some? then
        Some(Moment(Date(date.value.0, date.value.1, date.value.2), Time(time.value.0, time.value.1, time.value.2)))
      else None
  }

  lemma ThreeNumbers(x: nat, y: nat, z: nat, width: nat, c: char)
    requires !IsDigit(c)
    ensures ReadNumbers(Parts(PrintPadded(x, width) + [c] + PrintPadded(y, 2) + [c] + PrintPadded(z, 2), c))
      == Some((x, y, z))
  {
    var a, b, d := PrintPadded(x, width), PrintPadded(y, 2), PrintPadded(z, 2);
    DigitsHoldNo(a, c);
    DigitsHoldNo(b, c);
    DigitsHoldNo(d, c);
    PartsAppend(a + [c] + b, d, c);
    PartsAppend(a, b, c);
    OnePart(a, c);
    OnePart(b, c);
    OnePart(d, c);
    PaddedThenValue(x, width);
    PaddedThenValue(y, 2);
    PaddedThenValue(z, 2);
  }

  lemma StampReadsBack(m: Moment)
    ensures ReadTimestamp(Stamp(m, ":")) == Some(m)
  {
    DateTextHoldsNo(m.date, 'T');
    TimeTextHoldsNo(m.time, 'T');
    PartsStep(DateText(m.date), TimeText(m.time, ":"), 'T');
    OnePart(TimeText(m.time, ":"), 'T');
    ThreeNumbers(m.date.year, m.date.month, m.date.day, 4, '-');
    ThreeNumbers(m.time.hours, m.time.minutes, m.time.seconds, 2, ':');
  }

  /** The timestamp says exactly the second it was made from. */
  lemma TimestampIsExact(now: nat)
    ensures var m := ReadTimestamp(Timestamp(now)); m.Some? && ValidMoment(m.value) && Recombine(m.value) == now
  {
    StampReadsBack(MomentOf(now));
    MomentRoundTrip(now);
  }

  /** Its text: four digits for the year, two for all else. */
  lemma TimestampText(now: nat)
    ensures var m := MomentOf(now);
            Timestamp(now) ==
            (PrintPadded(m.date.year, 4) + "-" + PrintPadded(m.date.month, 2) + "-" + PrintPadded(m.date.day, 2)) +
            "T" +
            (PrintPadded(m.time.hours, 2) + ":" + PrintPadded(m.time.minutes, 2) + ":" + PrintPadded(m.time.seconds, 2))
  {
  }

  /** Up to the year 9999, and no longer, it has the fixed width of its pattern. */
  lemma TimestampWidth(now: nat)
    ensures |Timestamp(now)| == 19 <==> now < END
  {
    var m := MomentOf(now);
    FourDigitYears(now);
    MomentRoundTrip(now);
    assert Power10(2) == 100 && Power10(4) == 10000;
    PaddedLength(m.date.month, 2);
    PaddedLength(m.date.day, 2);
    PaddedLength(m.time.hours, 2);
    PaddedLength(m.time.minutes, 2);
    PaddedLength(m.time.seconds, 2);
    if m.date.year < 10000 {
      PaddedLength(m.date.year, 4);
    } else {
      LongNumber(m.date.year);
    }
  }

  lemma LongNumber(n: nat)
    requires n >= 10000
    ensures |PrintPadded(n, 4)| > 4
  {
    assert |Print(n)| == |Print(n / 10)| + 1 == |Print(n / 10 / 10)| + 2;
    assert |Print(n / 10 / 10)| == |Print(n / 10 / 10 / 10)| + 1 == |Print(n / 10 / 10 / 10 / 10)| + 2;
  }

  // --- the parameters of a query ---

  function PairText(p: Param): string { p.key + "=" + p.value }

  function Texts(params: seq<Param>): (texts: seq<string>)
    ensures |texts| == |params| && forall i :: 0 <= i < |params| ==> texts[i] == PairText(params[i])
  {
    if params == [] then [] else [PairText(params[0])] + Texts(params[1..])
  }

  function ParsePair(s: string): Param {
    var pos := Find(s, '=', 0);
    if pos >= 0 then Param(s[..pos], s[pos + 1..]) else Param(s, "")
  }

  function ParsePairs(texts: seq<string>): (params: seq<Param>)
    ensures |params| == |texts| && forall i :: 0 <= i < |texts| ==> params[i] == ParsePair(texts[i])
  {
    if texts == [] then [] else [ParsePair(texts[0])] + ParsePairs(texts[1..])
  }

  /** A reference reader for queries. */
  function ParseQuery(s: string): seq<Param> { ParsePairs(Parts(s, '&')) }

  predicate CleanKeys(params: seq<Param>) {
    forall i :: 0 <= i < |params| ==> '=' !in params[i].key && '&' !in params[i].key
  }

  predicate CleanValues(params: seq<Param>) {
    forall i :: 0 <= i < |params| ==> '&' !in params[i].value
  }

  lemma PairComesBack(p: Param)
    requires '=' !in p.key
    ensures ParsePair(PairText(p)) == p
  {
    FindAfter([], p.key, '=', p.value);
    assert PairText(p) == [] + p.key + ['='] + p.value;
    assert PairText(p)[..|p.key|] == p.key && PairText(p)[|p.key| + 1..] == p.value;
  }

  lemma PairHoldsNo(p: Param)
    requires '&' !in p.key
    ensures '&' !in PairText(p) <==> '&' !in p.value
  {
    assert forall i :: 0 <= i < |p.value| ==> p.value[i] == PairText(p)[|p.key| + 1 + i];
  }

  /** A query reads back as its parameters exactly if no value holds an ampersand. */
  lemma QueryReadsBack(params: seq<Param>)
    requires params != [] && CleanKeys(params)
    ensures ParseQuery(Join(Texts(params), '&')) == params <==> CleanValues(params)
  {
    var texts := Texts(params);
    if CleanValues(params) {
      forall i | 0 <= i < |params|
        ensures '&' !in texts[i] && ParsePair(texts[i]) == params[i]
      {
        PairHoldsNo(params[i]);
        PairComesBack(params[i]);
      }
      PartsUnique(texts, '&');
    }
    var query := Join(texts, '&');
    var parts := Parts(query, '&');
    if ParseQuery(query) == params {
      PartsHoldNone(query, '&');
      forall i | 0 <= i < |params|
        ensures '&' !in params[i].value
      {
        assert '&' !in parts[i];
        assert ParsePair(parts[i]) == params[i];
      }
    }
  }

  // --- the signed query ---

  function SignedParams(key: string, now: nat): seq<Param> {
    [Param("AccessKeyId", key), Param("SignatureMethod", "HmacSHA256"),
     Param("SignatureVersion", "2"), Param("Timestamp", EncodedTimestamp(now))]
  }

  lemma {:induction false} RenderedIsJoined(params: seq<Param>)
    requires params != []
    ensures RenderParams(params) == "&" + Join(Texts(params), '&')
  {
    if |params| == 1 {
      assert params[1..] == [];
      assert Texts(params) == [PairText(params[0])];
    } else {
      RenderedIsJoined(params[1..]);
      JoinStep(PairText(params[0]), Texts(params[1..]), '&');
    }
  }

  /** The signed text is the four parameters of every request and those of the query. */
  lemma SignedTextIsJoined(key: string, now: nat, params: seq<Param>)
    ensures SignedText(key, now, RenderParams(params)) == Join(Texts(SignedParams(key, now) + params), '&')
  {
    var signed := SignedParams(key, now);
    FourPairs(key, now);
    WithoutQuery(key, now, RenderParams(params));
    if params == [] {
      assert signed + params == signed;
    } else {
      RenderedIsJoined(params);
      FurtherParams(signed, params, SignedText(key, now, ""), RenderParams(params));
    }
  }

  lemma FurtherParams(a: seq<Param>, b: seq<Param>, front: string, rest: string)
    requires a != [] && b != []
    requires front == Join(Texts(a), '&') && rest == "&" + Join(Texts(b), '&')
    ensures front + rest == Join(Texts(a + b), '&')
  {
    assert Texts(a + b) == Texts(a) + Texts(b);
    JoinAppend(Texts(a), Texts(b), '&');
    Regroup(front, "&", Join(Texts(b), '&'));
  }

  lemma WithoutQuery(key: string, now: nat, query: string)
    ensures SignedText(key, now, query) == SignedText(key, now, "") + query
  {
  }

  lemma FourPairs(key: string, now: nat)
    ensures SignedText(key, now, "") == Join(Texts(SignedParams(key, now)), '&')
  {
    var params := SignedParams(key, now);
    var a, b, c, d := PairText(params[0]), PairText(params[1]), PairText(params[2]), PairText(params[3]);
    assert Texts(params) == [a, b, c, d];
    JoinFour(a, b, c, d, '&');
    FixedPairs();
  }

  lemma FixedPairs()
    ensures "SignatureMethod=HmacSHA256&" == "SignatureMethod" + "=" + "HmacSHA256" + "&"
    ensures "SignatureVersion=2&" == "SignatureVersion" + "=" + "2" + "&"
    ensures "AccessKeyId=" == "AccessKeyId" + "=" && "Timestamp=" == "Timestamp" + "="
  {
  }

  lemma JoinFour(a: string, b: string, c: string, d: string, x: char)
    ensures Join([a, b, c, d], x) == (a + [x]) + (b + [x]) + (c + [x]) + d
    ensures Join([a, b, c, d], x) == a + [x] + b + [x] + c + [x] + d
  {
    JoinStep(c, [d], x);
    JoinStep(b, [c, d], x);
    JoinStep(a, [b, c, d], x);
    assert [c] + [d] == [c, d] && [b] + [c, d] == [b, c, d] && [a] + [b, c, d] == [a, b, c, d];
  }

  /** What follows the question mark of a signed query, read back: its parameters and then the signature. */
  lemma SignedQueryReadsBack(key: string, now: nat, params: seq<Param>, signature: string)
    requires CleanKeys(params)
    ensures var sent := SignedText(key, now, RenderParams(params)) + ("&Signature=" + signature);
      ParseQuery(sent) == SignedParams(key, now) + params + [Param("Signature", signature)]
      <==> '&' !in key && CleanValues(params) && '&' !in signature
  {
    var all := SignedParams(key, now) + params;
    var last := Param("Signature", signature);
    SignedTextIsJoined(key, now, params);
    SignatureText(signature);
    FurtherParams(all, [last], Join(Texts(all), '&'), "&Signature=" + signature);
    CleanSignedParams(key, now);
    CleanAppend(SignedParams(key, now), params);
    CleanAppend(all, [last]);
    CleanOne(last);
    QueryReadsBack(all + [last]);
  }

  lemma SignatureText(signature: string)
    ensures "&Signature=" + signature == "&" + Join(Texts([Param("Signature", signature)]), '&')
    ensures '=' !in "Signature" && '&' !in "Signature"
  {
    assert "&Signature=" == "&" + "Signature" + "=";
    assert Texts([Param("Signature", signature)]) == [PairText(Param("Signature", signature))];
  }

  lemma CleanAppend(a: seq<Param>, b: seq<Param>)
    ensures CleanKeys(a + b) <==> CleanKeys(a) && CleanKeys(b)
    ensures CleanValues(a + b) <==> CleanValues(a) && CleanValues(b)
  {
    var all := a + b;
    assert forall i :: 0 <= i < |b| ==> all[|a| + i] == b[i];
    assert forall i :: 0 <= i < |a| ==> all[i] == a[i];
  }

  lemma CleanOne(p: Param)
    ensures CleanKeys([p]) <==> '=' !in p.key && '&' !in p.key
    ensures CleanValues([p]) <==> '&' !in p.value
  {
    assert [p][0] == p;
  }

  lemma SignedConstants()
    ensures '=' !in "AccessKeyId" && '&' !in "AccessKeyId"
    ensures '=' !in "SignatureMethod" && '&' !in "SignatureMethod"
    ensures '=' !in "SignatureVersion" && '&' !in "SignatureVersion"
    ensures '=' !in "Timestamp" && '&' !in "Timestamp"
    ensures '&' !in "HmacSHA256" && '&' !in "2"
  {
  }

  lemma CleanSignedParams(key: string, now: nat)
    ensures CleanKeys(SignedParams(key, now))
    ensures CleanValues(SignedParams(key, now)) <==> '&' !in key
  {
    var params := SignedParams(key, now);
    TimestampHoldsNo(now);
    SignedConstants();
    CleanOne(params[0]);
    CleanOne(params[1]);
    CleanOne(params[2]);
    CleanOne(params[3]);
    CleanAppend([params[0]], [params[1]]);
    CleanAppend([params[2]], [params[3]]);
    CleanAppend([params[0]] + [params[1]], [params[2]] + [params[3]]);
    assert params == [params[0]] + [params[1]] + ([params[2]] + [params[3]]);
  }

  lemma TimestampHoldsNo(now: nat)
    ensures '&' !in EncodedTimestamp(now)
  {
    var m := MomentOf(now);
    TimestampsAgree(now);
    DateTextHoldsNo(m.date, '&');
    TimeTextHoldsNo(m.time, '&');
    EncodedHoldsNo(Timestamp(now), '&');
  }

  lemma {:induction false} EncodedHoldsNo(s: string, c: char)
    requires c !in s && c !in "%3A"
    ensures c !in EncodeColons(s)
  {
    if s != [] {
      EncodedHoldsNo(s[1..], c);
    }
  }

  // --- the order of the parameters ---

  /** Order by character code. */
  predicate Less(a: string, b: string) {
    if b == [] then false
    else if a == [] then true
    else if a[0] != b[0] then a[0] < b[0]
    else Less(a[1..], b[1..])
  }

  predicate Ascending(params: seq<Param>) {
    forall i :: 0 < i < |params| ==> Less(params[i - 1].key, params[i].key)
  }

  lemma {:induction false} LessAt(a: string, b: string, k: nat)
    requires k < |a| && k < |b| && a[..k] == b[..k] && a[k] < b[k]
    ensures Less(a, b)
  {
    if k > 0 {
      assert a[..k][0] == b[..k][0];
      assert a[1..][..k - 1] == a[..k][1..] == b[..k][1..] == b[1..][..k - 1];
      LessAt(a[1..], b[1..], k - 1);
    }
  }

  lemma FixedKeys()
    ensures Less("AccessKeyId", "SignatureMethod") && Less("SignatureMethod", "SignatureVersion")
    ensures Less("SignatureVersion", "Timestamp")
  {
    LessAt("SignatureMethod", "SignatureVersion", 9);
  }

  lemma QueryKeys()
    ensures Less("client_order_id", "contract_code") && Less("contract_code", "margin_mode") &&
      Less("margin_mode", "order_id")
  {
    LessAt("client_order_id", "contract_code", 1);
  }

  lemma BetweenKeys()
    ensures Less("Timestamp", "client_order_id") && Less("Timestamp", "contract_code")
  {
  }

  lemma AscendAppend(a: seq<Param>, b: seq<Param>)
    requires a != [] && b != [] && Ascending(a) && Ascending(b) && Less(a[|a| - 1].key, b[0].key)
    ensures Ascending(a + b)
  {
    forall i | 0 < i < |a + b|
      ensures Less((a + b)[i - 1].key, (a + b)[i].key)
    {
      if i > |a| {
        assert (a + b)[i - 1] == b[i - 1 - |a|] && (a + b)[i] == b[i - |a|];
      }
    }
  }

  lemma InfoKeysAscend(clientOrderId: string, externalOrderId: string, symbol: string, marginMode: string)
    ensures Ascending(InfoQueryParams(clientOrderId, externalOrderId, symbol, marginMode))
  {
    QueryKeys();
  }

  lemma FixedKeysAscend(key: string, now: nat)
    ensures Ascending(SignedParams(key, now))
  {
    FixedKeys();
  }

  /** The query for one order is signed with its parameters in the order the exchange asks for. */
  lemma SignedKeysAscend(key: string, now: nat, clientOrderId: string, externalOrderId: string, symbol: string,
    marginMode: string)
    ensures Ascending(SignedParams(key, now) + InfoQueryParams(clientOrderId, externalOrderId, symbol, marginMode))
  {
    FixedKeysAscend(key, now);
    InfoKeysAscend(clientOrderId, externalOrderId, symbol, marginMode);
    BetweenKeys();
    AscendAppend(SignedParams(key, now), InfoQueryParams(clientOrderId, externalOrderId, symbol, marginMode));
  }

  predicate CleanInfo(clientOrderId: string, externalOrderId: string, symbol: string, marginMode: string) {
    '&' !in (if externalOrderId == [] then clientOrderId else externalOrderId) && '&' !in symbol && '&' !in marginMode
  }

  lemma InfoConstants()
    ensures '=' !in "client_order_id" && '&' !in "client_order_id"
    ensures '=' !in "contract_code" && '&' !in "contract_code"
    ensures '=' !in "margin_mode" && '&' !in "margin_mode"
    ensures '=' !in "order_id" && '&' !in "order_id"
  {
  }

  lemma InfoIsClean(clientOrderId: string, externalOrderId: string, symbol: string, marginMode: string)
    ensures var params := InfoQueryParams(clientOrderId, externalOrderId, symbol, marginMode);
      CleanKeys(params) && (CleanValues(params) <==> CleanInfo(clientOrderId, externalOrderId, symbol, marginMode))
  {
    var params := InfoQueryParams(clientOrderId, externalOrderId, symbol, marginMode);
    InfoConstants();
    CleanOne(params[0]);
    CleanOne(params[1]);
    CleanOne(params[2]);
    CleanAppend([params[0]], [params[1]]);
    CleanAppend([params[0]] + [params[1]], [params[2]]);
    assert params == [params[0]] + [params[1]] + [params[2]];
  }

  /** The signed query for one order reads back as the key, the time and the order it was made for. */
  lemma OrderQueryReadsBack(key: string, now: nat, clientOrderId: string, externalOrderId: string, symbol: string,
                            marginMode: string, signature: string)
    ensures var params := InfoQueryParams(clientOrderId, externalOrderId, symbol, marginMode);
      var sent := SignedText(key, now, RenderParams(params)) + ("&Signature=" + signature);
      ParseQuery(sent) == SignedParams(key, now) + params + [Param("Signature", signature)]
      <==> '&' !in key && CleanInfo(clientOrderId, externalOrderId, symbol, marginMode) && '&' !in signature
  {
    InfoIsClean(clientOrderId, externalOrderId, symbol, marginMode);
    SignedQueryReadsBack(key, now, InfoQueryParams(clientOrderId, externalOrderId, symbol, marginMode), signature);
  }

  // --- what the exchange can check ---

  /** Without the last parameter a sent query is the signed text again, whatever its values are. */
  lemma SignedTextIsSent(signed: string, signature: string)
    requires '&' !in signature
    ensures var parts := Parts(signed + ("&Signature=" + signature), '&');
      |parts| > 1 && parts[|parts| - 1] == "Signature=" + signature && Join(parts[..|parts| - 1], '&') == signed
  {
    var last := "Signature=" + signature;
    assert "&Signature=" == "&" + "Signature=";
    Regroup(signed, "&", last);
    Regroup("&", "Signature=", signature);
    PartsAppend(signed, last, '&');
    OnePart(last, '&');
    JoinOfParts(signed, '&');
    var parts := Parts(signed, '&') + [last];
    assert parts[..|parts| - 1] == Parts(signed, '&');
  }

  /** The text a login was signed with, out of the fields of its message. */
  function Rebuilt(members: seq<Member>): string {
    ("AccessKeyId=" + OrEmpty(TextAt(members, "AccessKeyId")) + "&")
    + ("SignatureMethod=" + OrEmpty(TextAt(members, "SignatureMethod")) + "&")
    + ("SignatureVersion=" + OrEmpty(TextAt(members, "SignatureVersion")) + "&")
    + ("Timestamp=" + EncodeColons(OrEmpty(TextAt(members, "Timestamp"))))
  }

  lemma LoginFront(key: string)
    ensures var front := [Entry("op", "auth"), Entry("type", "api"), Entry("AccessKeyId", key),
      Entry("SignatureMethod", "HmacSHA256")];
      TextAt(front, "op") == Some("auth") && TextAt(front, "type") == Some("api") &&
      TextAt(front, "AccessKeyId") == Some(key) &&
      TextAt(front, "SignatureMethod") == Some("HmacSHA256") &&
      Lookup(front, "SignatureVersion") == Lookup(front, "Timestamp") == Lookup(front, "Signature") == None
  {
    var front := [Entry("op", "auth"), Entry("type", "api"), Entry("AccessKeyId", key),
      Entry("SignatureMethod", "HmacSHA256")];
    LookupAt(front, 0);
    LookupAt(front, 1);
    LookupAt(front, 2);
    LookupAt(front, 3);
    LookupNone(front, "SignatureVersion");
    LookupNone(front, "Timestamp");
    LookupNone(front, "Signature");
  }

  lemma LoginBack(now: nat, signature: string)
    ensures var back := [Entry("SignatureVersion", "2"), Entry("Timestamp", Timestamp(now)),
      Entry("Signature", signature)];
      TextAt(back, "SignatureVersion") == Some("2") && TextAt(back, "Timestamp") == Some(Timestamp(now)) &&
      TextAt(back, "Signature") == Some(signature)
  {
    var back := [Entry("SignatureVersion", "2"), Entry("Timestamp", Timestamp(now)), Entry("Signature", signature)];
    LookupAt(back, 0);
    LookupAt(back, 1);
    LookupAt(back, 2);
  }

  lemma LoginLookup(key: string, now: nat, signature: string)
    ensures var fields := LoginFields(key, now, signature);
      TextAt(fields, "op") == Some("auth") && TextAt(fields, "type") == Some("api") &&
      TextAt(fields, "AccessKeyId") == Some(key) &&
      TextAt(fields, "SignatureMethod") == Some("HmacSHA256") && TextAt(fields, "SignatureVersion") == Some("2") &&
      TextAt(fields, "Timestamp") == Some(Timestamp(now)) && TextAt(fields, "Signature") == Some(signature)
  {
    var front := [Entry("op", "auth"), Entry("type", "api"), Entry("AccessKeyId", key),
      Entry("SignatureMethod", "HmacSHA256")];
    var back := [Entry("SignatureVersion", "2"), Entry("Timestamp", Timestamp(now)), Entry("Signature", signature)];
    assert front == [front[0]] + [front[1], front[2], front[3]];
    LoginFront(key);
    LoginBack(now, signature);
    LookupAppend(front, back, "op");
    LookupAppend(front, back, "type");
    LookupAppend(front, back, "AccessKeyId");
    LookupAppend(front, back, "SignatureMethod");
    LookupAppend(front, back, "SignatureVersion");
    LookupAppend(front, back, "Timestamp");
    LookupAppend(front, back, "Signature");
  }

  /** The fields of a login message give the signature and determine the text it is for. */
  lemma LoginIsRebuilt(key: string, now: nat, signature: string)
    ensures Rebuilt(LoginFields(key, now, signature)) == SignedText(key, now, "")
    ensures TextAt(LoginFields(key, now, signature), "Signature") == Some(signature)
  {
    LoginLookup(key, now, signature);
    TimestampsAgree(now);
    SignedPieces(key, EncodedTimestamp(now));
  }

  lemma PlainConstants()
    ensures Plain("op") && Plain("auth") && Plain("type") && Plain("api") && Plain("HmacSHA256") && Plain("2")
    ensures Plain("AccessKeyId") && Plain("SignatureMethod") && Plain("SignatureVersion")
    ensures Plain("Timestamp") && Plain("Signature")
  {
  }

  lemma PlainTimestamp(now: nat)
    ensures Plain(Timestamp(now))
  {
    var m := MomentOf(now);
    PlainThree(PrintPadded(m.date.year, 4), PrintPadded(m.date.month, 2), PrintPadded(m.date.day, 2), '-');
    PlainThree(PrintPadded(m.time.hours, 2), PrintPadded(m.time.minutes, 2), PrintPadded(m.time.seconds, 2), ':');
  }

  lemma PlainThree(a: string, b: string, d: string, c: char)
    requires IsDigits(a) && IsDigits(b) && IsDigits(d) && PlainChar(c)
    ensures Plain(a + [c] + b + [c] + d)
  {
    forall i | 0 <= i < |a + [c] + b + [c] + d|
      ensures PlainChar((a + [c] + b + [c] + d)[i])
    {
      var ch := (a + [c] + b + [c] + d)[i];
      assert IsDigit(ch) || ch == c;
    }
  }

  /** The login message reads back exactly if key and signature need no escaping. */
  lemma LoginReadsBack(key: string, now: nat, signature: string)
    ensures Read(Render(Obj(LoginFields(key, now, signature)))) == Some(Obj(LoginFields(key, now, signature)))
       <==> Plain(key) && Plain(signature)
  {
    var fields := LoginFields(key, now, signature);
    ReadsBackExactly(Obj(fields));
    LoginFrontValid(fields[..4], key);
    LoginBackValid(fields[4..], now, signature);
    ValidAppend(fields[..4], fields[4..]);
    assert fields == fields[..4] + fields[4..];
  }

  lemma LoginFrontValid(front: seq<Member>, key: string)
    requires front == [Entry("op", "auth"), Entry("type", "api"), Entry("AccessKeyId", key),
      Entry("SignatureMethod", "HmacSHA256")]
    ensures Valid(Obj(front)) <==> Plain(key)
  {
    var values := ["auth", "api", key, "HmacSHA256"];
    PlainConstants();
    ValidTexts(["op", "type", "AccessKeyId", "SignatureMethod"], values, front);
    assert values[2] == key;
  }

  lemma LoginBackValid(back: seq<Member>, now: nat, signature: string)
    requires back == [Entry("SignatureVersion", "2"), Entry("Timestamp", Timestamp(now)), Entry("Signature", signature)]
    ensures Valid(Obj(back)) <==> Plain(signature)
  {
    var values := ["2", Timestamp(now), signature];
    PlainConstants();
    PlainTimestamp(now);
    ValidTexts(["SignatureVersion", "Timestamp", "Signature"], values, back);
    assert values[2] == signature;
  }

  lemma SignedPieces(key: string, stamp: string)
    ensures ("AccessKeyId=" + key + "&") + ("SignatureMethod=" + "HmacSHA256" + "&") + ("SignatureVersion=" + "2" + "&")
            + ("Timestamp=" + stamp)
         == ("AccessKeyId=" + key + "&") + "SignatureMethod=HmacSHA256&" + "SignatureVersion=2&"
           + ("Timestamp=" + stamp) + ""
  {
    assert "SignatureMethod=" + "HmacSHA256" + "&" == "SignatureMethod=HmacSHA256&";
    assert "SignatureVersion=" + "2" + "&" == "SignatureVersion=2&";
  }

  // --- by name ---

  /** The parameter occurs, and only with this value. */
  predicate Says(params: seq<Param>, key: string, value: string) {
    Param(key, value) in params && forall p :: p in params && p.key == key ==> p.value == value
  }

  predicate Lacks(params: seq<Param>, key: string) { forall p :: p in params ==> p.key != key }

  lemma SaysThree(a: seq<Param>, b: seq<Param>, c: seq<Param>, key: string, value: string)
    ensures Says(a, key, value) && Lacks(b, key) && Lacks(c, key) ==> Says(a + b + c, key, value)
    ensures Lacks(a, key) && Says(b, key, value) && Lacks(c, key) ==> Says(a + b + c, key, value)
    ensures Lacks(a, key) && Lacks(b, key) && Says(c, key, value) ==> Says(a + b + c, key, value)
    ensures Lacks(a, key) && Lacks(b, key) && Lacks(c, key) ==> Lacks(a + b + c, key)
  {
    assert forall p :: p in a + b + c <==> p in a || p in b || p in c;
  }

  lemma SaysFour(a: Param, b: Param, c: Param, d: Param)
    requires a.key != b.key && a.key != c.key && a.key != d.key && b.key != c.key && b.key != d.key && c.key != d.key
    ensures var params := [a, b, c, d];
            && Says(params, a.key, a.value) && Says(params, b.key, b.value)
            && Says(params, c.key, c.value) && Says(params, d.key, d.value)
  {
    var params := [a, b, c, d];
    assert params[0] == a && params[1] == b && params[2] == c && params[3] == d;
    assert forall p :: p in params <==> p == a || p == b || p == c || p == d;
    assert forall p: Param :: Param(p.key, p.value) == p;
  }

  lemma FixedKeysDiffer()
    ensures "AccessKeyId" != "SignatureMethod" && "AccessKeyId" != "SignatureVersion" && "AccessKeyId" != "Timestamp"
    ensures "SignatureMethod" != "SignatureVersion" && "SignatureMethod" != "Timestamp"
    ensures "SignatureVersion" != "Timestamp"
  {
    assert "SignatureMethod"[9] != "SignatureVersion"[9];
  }

  lemma SignedSays(key: string, now: nat)
    ensures var a := SignedParams(key, now);
            && Says(a, "AccessKeyId", key) && Says(a, "SignatureMethod", "HmacSHA256")
            && Says(a, "SignatureVersion", "2") && Says(a, "Timestamp", EncodedTimestamp(now))
  {
    FixedKeysDiffer();
    SaysFour(Param("AccessKeyId", key), Param("SignatureMethod", "HmacSHA256"), Param("SignatureVersion", "2"),
             Param("Timestamp", EncodedTimestamp(now)));
  }

  lemma LacksFour(a: Param, b: Param, c: Param, d: Param, key: string)
    requires a.key != key && b.key != key && c.key != key && d.key != key
    ensures Lacks([a, b, c, d], key)
  {
  }

  lemma SignedLacks(key: string, now: nat, other: string)
    requires other !in {"AccessKeyId", "SignatureMethod", "SignatureVersion", "Timestamp"}
    ensures Lacks(SignedParams(key, now), other)
  {
    var a := SignedParams(key, now);
    LacksFour(a[0], a[1], a[2], a[3], other);
  }

  lemma InfoSays(clientOrderId: string, externalOrderId: string, symbol: string, marginMode: string)
    ensures var b := InfoQueryParams(clientOrderId, externalOrderId, symbol, marginMode);
            && Says(b, "contract_code", symbol) && Says(b, "margin_mode", marginMode)
            && (externalOrderId == "" ==> Says(b, "client_order_id", clientOrderId) && Lacks(b, "order_id"))
            && (externalOrderId != "" ==> Says(b, "order_id", externalOrderId) && Lacks(b, "client_order_id"))
  {
    var b := InfoQueryParams(clientOrderId, externalOrderId, symbol, marginMode);
    assert b[0] in b && b[1] in b && b[2] in b;
  }

  lemma InfoLacks(clientOrderId: string, externalOrderId: string, symbol: string, marginMode: string)
    ensures var b := InfoQueryParams(clientOrderId, externalOrderId, symbol, marginMode);
            Lacks(b, "AccessKeyId") && Lacks(b, "SignatureMethod") && Lacks(b, "SignatureVersion") &&
            Lacks(b, "Timestamp") && Lacks(b, "Signature")
  {
  }

  lemma SignatureSays(signature: string)
    ensures var c := [Param("Signature", signature)];
            && Says(c, "Signature", signature)
            && Lacks(c, "AccessKeyId") && Lacks(c, "SignatureMethod") && Lacks(c, "SignatureVersion")
            && Lacks(c, "Timestamp")
  {
    var c := [Param("Signature", signature)];
    assert c[0] in c;
  }

  /** Three lists of parameters that name different things. */
  lemma SaidOnce(key: string, now: nat, b: seq<Param>, signature: string, name: string, value: string)
    requires name !in {"AccessKeyId", "SignatureMethod", "SignatureVersion", "Timestamp", "Signature"}
    ensures Says(b, name, value) ==> Says(SignedParams(key, now) + b + [Param("Signature", signature)], name, value)
    ensures Lacks(b, name) ==> Lacks(SignedParams(key, now) + b + [Param("Signature", signature)], name)
  {
    SignedLacks(key, now, name);
    assert Lacks([Param("Signature", signature)], name);
    SaysThree(SignedParams(key, now), b, [Param("Signature", signature)], name, value);
  }

  /** What the exchange reads in the sent query `q` for one order, by name: the order ... */
  lemma OrderQueryByName(key: string, now: nat, clientOrderId: string, externalOrderId: string, symbol: string,
                         marginMode: string, signature: string, q: seq<Param>)
    requires '&' !in key && '&' !in symbol && '&' !in marginMode && '&' !in signature
    requires '&' !in (if externalOrderId == "" then clientOrderId else externalOrderId)
    requires var query := InfoQuery(clientOrderId, externalOrderId, symbol, marginMode);
             q == ParseQuery(SignedText(key, now, query) + ("&Signature=" + signature))
    ensures Says(q, "contract_code", symbol) && Says(q, "margin_mode", marginMode)
    ensures if externalOrderId == "" then Says(q, "client_order_id", clientOrderId) && Lacks(q, "order_id")
            else Says(q, "order_id", externalOrderId) && Lacks(q, "client_order_id")
  {
    var b := InfoQueryParams(clientOrderId, externalOrderId, symbol, marginMode);
    OrderQueryReadsBack(key, now, clientOrderId, externalOrderId, symbol, marginMode, signature);
    InfoSays(clientOrderId, externalOrderId, symbol, marginMode);
    SaidOnce(key, now, b, signature, "contract_code", symbol);
    SaidOnce(key, now, b, signature, "margin_mode", marginMode);
    SaidOnce(key, now, b, signature, "client_order_id", clientOrderId);
    SaidOnce(key, now, b, signature, "order_id", externalOrderId);
  }

  /** ... and who asks for it, and when. */
  lemma SignerByName(key: string, now: nat, clientOrderId: string, externalOrderId: string, symbol: string,
                     marginMode: string, signature: string, q: seq<Param>)
    requires '&' !in key && '&' !in symbol && '&' !in marginMode && '&' !in signature
    requires '&' !in (if externalOrderId == "" then clientOrderId else externalOrderId)
    requires var query := InfoQuery(clientOrderId, externalOrderId, symbol, marginMode);
             q == ParseQuery(SignedText(key, now, query) + ("&Signature=" + signature))
    ensures Says(q, "AccessKeyId", key) && Says(q, "SignatureMethod", "HmacSHA256") && Says(q, "SignatureVersion", "2")
    ensures Says(q, "Timestamp", EncodedTimestamp(now)) && Says(q, "Signature", signature)
  {
    var a, b := SignedParams(key, now), InfoQueryParams(clientOrderId, externalOrderId, symbol, marginMode);
    var c := [Param("Signature", signature)];
    OrderQueryReadsBack(key, now, clientOrderId, externalOrderId, symbol, marginMode, signature);
    SignedSays(key, now);
    SignedLacks(key, now, "Signature");
    InfoLacks(clientOrderId, externalOrderId, symbol, marginMode);
    SignatureSays(signature);
    SaysThree(a, b, c, "AccessKeyId", key);
    SaysThree(a, b, c, "SignatureMethod", "HmacSHA256");
    SaysThree(a, b, c, "SignatureVersion", "2");
    SaysThree(a, b, c, "Timestamp", EncodedTimestamp(now));
    SaysThree(a, b, c, "Signature", signature);
  }

  /** The text the digest is over can be taken apart again at its line breaks. */
  lemma PayloadReadsBack(httpMethod: string, hostname: string, path: string, text: string)
    ensures Parts(httpMethod + "\n" + hostname + "\n" + path + "\n" + text, '\n') == [httpMethod, hostname, path, text]
       <==> '\n' !in httpMethod && '\n' !in hostname && '\n' !in path && '\n' !in text
  {
    var parts := [httpMethod, hostname, path, text];
    JoinFour(httpMethod, hostname, path, text, '\n');
    PartsExactly(parts, '\n');
    assert parts[0] == httpMethod && parts[1] == hostname && parts[2] == path && parts[3] == text;
  }

}
