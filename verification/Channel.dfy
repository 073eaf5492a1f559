/** Channel names and the routing of market-data messages: what is taken out of a channel name, and
    which handler a message on a subscribed channel reaches. */
module Channel {
  import opened Text
  import opened Splitting
  import Subscriptions

  datatype Range = Range(lo: nat, hi: nat)

  /** The position of the next dot, or of the end. */
  function End(s: string, from: nat): (pos: nat)
    requires from <= |s|
    ensures from <= pos <= |s|
  {
    var pos := Find(s, '.', from);
    if pos >= 0 then pos else |s|
  }

  function SymbolRange(channel: string): (r: Range)
    ensures r.lo <= r.hi <= |channel|
  {
    var sep1 := Find(channel, '.', 0);
    if sep1 >= 0 then Range(sep1 + 1, End(channel, sep1 + 1)) else Range(0, |channel|)
  }

  function TopicRange(channel: string): (r: Range)
    ensures r.lo <= r.hi <= |channel|
  {
    var sep1 := Find(channel, '.', 0);
    if sep1 >= 0 then
      var sep2 := Find(channel, '.', sep1 + 1);
      if sep2 >= 0 then Range(sep2 + 1, End(channel, sep2 + 1)) else Range(sep1 + 1, |channel|)
    else Range(0, |channel|)
  }

  function Sub(s: string, r: Range): string
    requires r.lo <= r.hi <= |s|
  {
    s[r.lo..r.hi]
  }

  function ExtractSymbol(channel: string): string { Sub(channel, SymbolRange(channel)) }

  function ExtractTopic(channel: string): string { Sub(channel, TopicRange(channel)) }

  predicate Extracted(parts: seq<string>, symbol: string, topic: string) {
    parts != [] &&
    symbol == parts[if |parts| > 1 then 1 else 0] &&
    topic == parts[if |parts| > 2 then 2 else |parts| - 1]
  }

  // Where the dots are.

  lemma FirstDot(a: string, rest: string)
    requires '.' !in a
    ensures Find(a + "." + rest, '.', 0) == |a|
  {
    FindAfter([], a, '.', rest);
    assert [] + a + ['.'] + rest == a + "." + rest;
  }

  lemma SecondDot(a: string, b: string, tail: string)
    requires '.' !in a && '.' !in b
    ensures var channel := a + "." + b + "." + tail;
      Find(channel, '.', 0) == |a| && Find(channel, '.', |a| + 1) == |a| + 1 + |b|
  {
    FirstDot(a, b + "." + tail);
    Associate(a + ".", b, ".", tail);
    FindAfter(a + ".", b, '.', tail);
  }

  lemma NoSecondDot(a: string, b: string)
    requires '.' !in a && '.' !in b
    ensures Find(a + "." + b, '.', 0) == |a| && Find(a + "." + b, '.', |a| + 1) == -1
  {
    FirstDot(a, b);
    FindAfter(a + ".", b, '.', []);
  }

  /** Behind a text, the first of the joined parts ends at the next dot. */
  lemma FirstOfJoined(before: string, parts: seq<string>)
    requires parts != [] && NoneHolds(parts, '.')
    ensures End(before + Join(parts, '.'), |before|) == |before| + |parts[0]|
    ensures |parts[0]| <= |Join(parts, '.')| && Join(parts, '.')[..|parts[0]|] == parts[0]
  {
    var part := parts[0];
    if |parts| == 1 {
      FindAfter(before, part, '.', []);
    } else {
      var rest := Join(parts[1..], '.');
      FindAfter(before, part, '.', rest);
      Associate(before, part, ".", rest);
      assert (part + "." + rest)[..|part|] == part;
    }
  }

  lemma FrontOf(before: string, joined: string, n: nat)
    requires n <= |joined|
    ensures Sub(before + joined, Range(|before|, |before| + n)) == joined[..n]
  {
  }

  // What is cut out, by the number of parts.

  lemma ExtractsOne(a: string)
    requires '.' !in a
    ensures ExtractSymbol(a) == a == ExtractTopic(a)
  {
    HasFirst(a, '.');
    assert a[0..|a|] == a;
  }

  lemma ExtractsTwo(a: string, b: string)
    requires '.' !in a && '.' !in b
    ensures ExtractSymbol(a + "." + b) == b == ExtractTopic(a + "." + b)
  {
    NoSecondDot(a, b);
    FrontOf(a + ".", b, |b|);
    assert b[..|b|] == b;
  }

  lemma TopicBehind(a: string, b: string, tail: string)
    requires '.' !in a && '.' !in b
    ensures var front := a + "." + b + ".";
      TopicRange(front + tail) == Range(|front|, End(front + tail, |front|))
    ensures SymbolRange(a + "." + b + "." + tail) == Range(|a| + 1, |a| + 1 + |b|)
  {
    SecondDot(a, b, tail);
  }

  lemma ExtractsMany(a: string, b: string, others: seq<string>)
    requires '.' !in a && '.' !in b && others != [] && NoneHolds(others, '.')
    ensures var channel := a + "." + b + "." + Join(others, '.');
      ExtractSymbol(channel) == b && ExtractTopic(channel) == others[0]
  {
    var front, tail := a + "." + b + ".", Join(others, '.');
    TopicBehind(a, b, tail);
    Associate(a + ".", b, ".", tail);
    FrontOf(a + ".", b + "." + tail, |b|);
    assert (b + "." + tail)[..|b|] == b;
    FirstOfJoined(front, others);
    FrontOf(front, tail, |others[0]|);
  }

  lemma JoinThree(a: string, b: string, others: seq<string>)
    requires others != []
    ensures Join([a, b] + others, '.') == a + "." + b + "." + Join(others, '.')
  {
    JoinAppend([a, b], others, '.');
    JoinStep(a, [b], '.');
    assert [a, b] == [a] + [b];
  }

  lemma SplitThree(parts: seq<string>)
    requires |parts| > 2 && NoneHolds(parts, '.')
    ensures parts == [parts[0], parts[1]] + parts[2..] && parts[2..][0] == parts[2] && NoneHolds(parts[2..], '.')
  {
  }

  lemma ExtractsJoined(parts: seq<string>)
    requires parts != [] && NoneHolds(parts, '.')
    ensures Extracted(parts, ExtractSymbol(Join(parts, '.')), ExtractTopic(Join(parts, '.')))
  {
    if |parts| == 1 {
      ExtractsOne(parts[0]);
    } else if |parts| == 2 {
      ExtractsTwo(parts[0], parts[1]);
      JoinStep(parts[0], [parts[1]], '.');
      assert parts == [parts[0]] + [parts[1]];
    } else {
      SplitThree(parts);
      JoinThree(parts[0], parts[1], parts[2..]);
      ExtractsMany(parts[0], parts[1], parts[2..]);
    }
  }

  /** The code's searches pick the second and the third part, or the last one there is. */
  lemma ExtractsParts(channel: string)
    ensures Extracted(Parts(channel, '.'), ExtractSymbol(channel), ExtractTopic(channel))
  {
    JoinOfParts(channel, '.');
    PartsHoldNone(channel, '.');
    ExtractsJoined(Parts(channel, '.'));
  }

  // --- subscribed channels ---

  function Name(symbol: string, theme: string): string { "market" + "." + symbol + "." + theme }

  lemma NameParts(symbol: string, theme: string)
    ensures Parts(Name(symbol, theme), '.') == ["market"] + Parts(symbol, '.') + Parts(theme, '.')
  {
    PartsAppend("market" + "." + symbol, theme, '.');
    PartsStep("market", symbol, '.');
  }

  /** A name has more than one part exactly if it has a dot. */
  lemma DottedParts(s: string)
    ensures |Parts(s, '.')| == 1 <==> '.' !in s
    ensures '.' !in s ==> Parts(s, '.') == [s]
    ensures '.' in s ==> |Parts(s, '.')[0]| < |s|
  {
    JoinOfParts(s, '.');
    PartsHoldNone(s, '.');
    if '.' !in s {
      OnePart(s, '.');
    }
  }

  /** The symbol comes back exactly if it has no dot in it. */
  lemma SymbolComesBack(symbol: string, theme: string)
    ensures ExtractSymbol(Name(symbol, theme)) == symbol <==> '.' !in symbol
  {
    NameParts(symbol, theme);
    ExtractsParts(Name(symbol, theme));
    DottedParts(symbol);
  }

  /** The topic is the first part of the theme, unless a dot in the symbol comes before it. */
  lemma TopicComesBack(symbol: string, theme: string)
    ensures '.' in symbol ==> |Parts(symbol, '.')| > 1
    ensures ExtractTopic(Name(symbol, theme)) == if '.' in symbol then Parts(symbol, '.')[1] else Parts(theme, '.')[0]
  {
    NameParts(symbol, theme);
    ExtractsParts(Name(symbol, theme));
    DottedParts(symbol);
  }

  // --- routing ---

  datatype Topic = Undefined | Unknown | BBO | Depth | Trade | Detail | EstimatedRate | PremiumIndex | Basis | Index |
    Account | Positions | MatchOrders | Orders

  function TopicOf(s: string): Topic {
    if s == "" then Undefined
    else if s == "bbo" then BBO
    else if s == "depth" then Depth
    else if s == "trade" then Trade
    else if s == "detail" then Detail
    else if s == "estimated_rate" then EstimatedRate
    else if s == "premium_index" then PremiumIndex
    else if s == "basis" then Basis
    else if s == "index" then Index
    else if s == "account" then Account
    else if s == "positions" then Positions
    else if s == "match_orders" then MatchOrders
    else if s == "orders" then Orders
    else Unknown
  }

  datatype Status = NoStatus | UnknownStatus | Ok | Error

  datatype Frame = Frame(ping: bool, status: Status, channel: string, subbed: string)

  datatype Handler = OnPing | OnSubbed | OnError | OnTopic(topic: Topic)

  /** A message is handled, or left alone (false), or it ends the process. */
  datatype Outcome = Handled(handler: Handler) | NotHandled | Fatal

  function Dispatch(frame: Frame, allowUnknown: bool): Outcome {
    if frame.ping then Handled(OnPing)
    else
      match frame.status
      case NoStatus =>
        (match TopicOf(ExtractTopic(frame.channel))
         case Undefined => Fatal
         case Unknown => if allowUnknown then NotHandled else Fatal
         case Account => NotHandled
         case Positions => NotHandled
         case MatchOrders => NotHandled
         case Orders => NotHandled
         case topic => Handled(OnTopic(topic)))
      case UnknownStatus => if allowUnknown then NotHandled else Fatal
      case Ok => if frame.subbed != "" then Handled(OnSubbed) else Fatal
      case Error => Handled(OnError)
  }

  datatype Kind = MarketStream | WebStream

  /** The other kind's topics have a handler that ends the process. */
  predicate Accepts(kind: Kind, topic: Topic) {
    match kind
    case MarketStream => topic == BBO || topic == Depth || topic == Trade || topic == Detail
    case WebStream => topic == EstimatedRate || topic == PremiumIndex || topic == Basis || topic == Index
  }

  function Themes(kind: Kind): seq<Subscriptions.Theme> {
    match kind
    case MarketStream => Subscriptions.MARKET_THEMES
    case WebStream => Subscriptions.WEB_THEMES
  }

  /** Which updates are asked for with each theme. */
  function Wanted(kind: Kind): seq<Topic> {
    match kind
    case MarketStream => [BBO, Depth, Trade, Detail]
    case WebStream => [Basis, EstimatedRate, Index]
  }

  function Update(channel: string): Frame { Frame(false, NoStatus, channel, "") }

  predicate Survives(kind: Kind, channel: string, allowUnknown: bool) {
    var outcome := Dispatch(Update(channel), allowUnknown);
    outcome.Handled? && outcome.handler.OnTopic? && Accepts(kind, outcome.handler.topic)
  }

  lemma TopicNames()
    ensures TopicOf("bbo") == BBO && TopicOf("depth") == Depth && TopicOf("trade") == Trade
    ensures TopicOf("detail") == Detail && TopicOf("estimated_rate") == EstimatedRate
    ensures TopicOf("premium_index") == PremiumIndex && TopicOf("basis") == Basis && TopicOf("index") == Index
    ensures TopicOf("account") == Account && TopicOf("positions") == Positions
    ensures TopicOf("match_orders") == MatchOrders && TopicOf("orders") == Orders && TopicOf("") == Undefined
  {
  }

  lemma OtherNames(name: string)
    requires name !in {"", "bbo", "depth", "trade", "detail", "estimated_rate", "premium_index", "basis", "index",
                       "account", "positions", "match_orders", "orders"}
    ensures TopicOf(name) == Unknown
  {
  }

  /** What a frame is before its channel counts: a ping, an acknowledgement, an error. */
  lemma FramesByStatus(status: Status, channel: string, subbed: string, allowUnknown: bool)
    ensures Dispatch(Frame(true, status, channel, subbed), allowUnknown) == Handled(OnPing)
    ensures Dispatch(Frame(false, Error, channel, subbed), allowUnknown) == Handled(OnError)
    ensures subbed != "" ==> Dispatch(Frame(false, Ok, channel, subbed), allowUnknown) == Handled(OnSubbed)
    ensures Dispatch(Frame(false, Ok, channel, ""), allowUnknown) == Fatal
    ensures Dispatch(Frame(false, UnknownStatus, channel, subbed), allowUnknown) ==
            if allowUnknown then NotHandled else Fatal
  {
  }

  /** Without a status the topic of the channel decides: market data has a handler each, private topics
      are left alone, and anything else is an error unless it may be unknown. */
  lemma FramesByTopic(channel: string, subbed: string, allowUnknown: bool)
    ensures var name, r := ExtractTopic(channel), Dispatch(Frame(false, NoStatus, channel, subbed), allowUnknown);
            && (name == "bbo" ==> r == Handled(OnTopic(BBO)))
            && (name == "depth" ==> r == Handled(OnTopic(Depth)))
            && (name == "trade" ==> r == Handled(OnTopic(Trade)))
            && (name == "detail" ==> r == Handled(OnTopic(Detail)))
            && (name == "estimated_rate" ==> r == Handled(OnTopic(EstimatedRate)))
            && (name == "premium_index" ==> r == Handled(OnTopic(PremiumIndex)))
            && (name == "basis" ==> r == Handled(OnTopic(Basis)))
            && (name == "index" ==> r == Handled(OnTopic(Index)))
            && (name in {"account", "positions", "match_orders", "orders"} ==> r == NotHandled)
            && (name == "" ==> r == Fatal)
            && (name !in {"", "bbo", "depth", "trade", "detail", "estimated_rate", "premium_index", "basis", "index",
                          "account", "positions", "match_orders", "orders"} ==>
                  r == if allowUnknown then NotHandled else Fatal)
  {
    var name := ExtractTopic(channel);
    TopicNames();
    if name !in {"", "bbo", "depth", "trade", "detail", "estimated_rate", "premium_index", "basis", "index",
                 "account", "positions", "match_orders", "orders"}
    {
      OtherNames(name);
    }
  }

  /** The handlers that do not end the process. */
  lemma AcceptedTopics(topic: Topic)
    ensures Accepts(MarketStream, topic) <==> topic in {BBO, Depth, Trade, Detail}
    ensures Accepts(WebStream, topic) <==> topic in {EstimatedRate, PremiumIndex, Basis, Index}
  {
  }

  lemma FirstPart(theme: string, head: string)
    requires |head| < |theme| && theme[|head|] == '.' && '.' !in head
    requires forall i :: 0 <= i < |head| ==> theme[i] == head[i]
    ensures Parts(theme, '.')[0] == head
  {
    var rest := theme[|head| + 1..];
    PartsStep(head, rest, '.');
    assert theme == head + "." + rest;
  }

  lemma FirstOfDepth()
    ensures Parts("depth.size_150.high_freq", '.')[0] == "depth"
  {
    FirstPart("depth.size_150.high_freq", "depth");
  }

  lemma FirstMarketParts()
    ensures Parts("bbo", '.')[0] == "bbo" && Parts("detail", '.')[0] == "detail"
    ensures Parts("trade.detail", '.')[0] == "trade"
  {
    OnePart("bbo", '.');
    OnePart("detail", '.');
    FirstPart("trade.detail", "trade");
  }

  lemma FirstWebParts()
    ensures Parts("basis.1min.open", '.')[0] == "basis"
    ensures Parts("index.1min", '.')[0] == "index"
  {
    FirstPart("basis.1min.open", "basis");
    FirstPart("index.1min", "index");
  }

  lemma FirstOfRate()
    ensures Parts("estimated_rate.1min", '.')[0] == "estimated_rate"
  {
    FirstPart("estimated_rate.1min", "estimated_rate");
  }

  lemma SurvivesByTopic(kind: Kind, channel: string, allowUnknown: bool)
    ensures Survives(kind, channel, allowUnknown) <==> Accepts(kind, TopicOf(ExtractTopic(channel)))
  {
  }

  lemma ThemeNames()
    ensures var themes := Themes(MarketStream);
            && |themes| == 4 && themes[0].name == "bbo" && themes[1].name == "depth.size_150.high_freq"
            && themes[2].name == "trade.detail" && themes[3].name == "detail"
    ensures var themes := Themes(WebStream);
            && |themes| == 3 && themes[0].name == "basis.1min.open" && themes[1].name == "estimated_rate.1min"
            && themes[2].name == "index.1min"
  {
  }

  lemma MarketThemesAreWanted(t: nat)
    requires t < |Themes(MarketStream)|
    ensures |Wanted(MarketStream)| == |Themes(MarketStream)|
    ensures TopicOf(Parts(Themes(MarketStream)[t].name, '.')[0]) == Wanted(MarketStream)[t]
  {
    ThemeNames();
    TopicNames();
    FirstMarketParts();
    FirstOfDepth();
    assert t == 0 || t == 1 || t == 2 || t == 3;
  }

  lemma WebThemesAreWanted(t: nat)
    requires t < |Themes(WebStream)|
    ensures |Wanted(WebStream)| == |Themes(WebStream)|
    ensures TopicOf(Parts(Themes(WebStream)[t].name, '.')[0]) == Wanted(WebStream)[t]
  {
    ThemeNames();
    TopicNames();
    FirstWebParts();
    FirstOfRate();
    assert t == 0 || t == 1 || t == 2;
  }

  lemma ThemesAreWanted(kind: Kind, t: nat)
    requires t < |Themes(kind)|
    ensures |Wanted(kind)| == |Themes(kind)| && TopicOf(Parts(Themes(kind)[t].name, '.')[0]) == Wanted(kind)[t]
    ensures Accepts(kind, Wanted(kind)[t])
  {
    match kind
    case MarketStream => MarketThemesAreWanted(t);
    case WebStream => WebThemesAreWanted(t);
  }

  /** An update on the channel of a theme reaches the handler for what was asked for. */
  lemma UpdatesReachTheirHandler(kind: Kind, t: nat, symbol: string, allowUnknown: bool)
    requires t < |Themes(kind)| && '.' !in symbol
    ensures |Wanted(kind)| == |Themes(kind)|
    ensures Dispatch(Update(Name(symbol, Themes(kind)[t].name)), allowUnknown) == Handled(OnTopic(Wanted(kind)[t]))
  {
    ThemesAreWanted(kind, t);
    TopicComesBack(symbol, Themes(kind)[t].name);
  }

  /** An update on a channel the stream has subscribed to reaches one of its own handlers, whatever
      the setting; with a dot in the symbol that depends on what comes behind the dot. */
  lemma SubscribedChannelsAreHandled(kind: Kind, t: nat, symbol: string, allowUnknown: bool)
    requires t < |Themes(kind)|
    ensures '.' in symbol ==> |Parts(symbol, '.')| > 1
    ensures Survives(kind, Name(symbol, Themes(kind)[t].name), allowUnknown)
       <==> '.' !in symbol || Accepts(kind, TopicOf(Parts(symbol, '.')[1]))
  {
    var channel := Name(symbol, Themes(kind)[t].name);
    SurvivesByTopic(kind, channel, allowUnknown);
    TopicComesBack(symbol, Themes(kind)[t].name);
    ThemesAreWanted(kind, t);
  }

  /** Without dots the two kinds of stream never get each other's updates. */
  lemma KindsAreSeparate(kind: Kind, other: Kind, t: nat, symbol: string, allowUnknown: bool)
    requires t < |Themes(kind)| && '.' !in symbol
    ensures Survives(other, Name(symbol, Themes(kind)[t].name), allowUnknown) <==> other == kind
  {
    SurvivesByTopic(other, Name(symbol, Themes(kind)[t].name), allowUnknown);
    TopicComesBack(symbol, Themes(kind)[t].name);
    ThemesAreWanted(kind, t);
  }
}
