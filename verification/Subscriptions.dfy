/** Symbols, slices and subscriptions: new symbols are appended to one list, the list is cut into
    slices of a fixed size, and every slice is served by one market-data stream and one web-socket
    stream. `SubscriptionObjects` holds the objects. */
module Subscriptions {
  import opened Arithmetic

  type Symbol = string

  datatype Theme = Theme(name: string, incremental: bool)

  const MARKET_THEMES: seq<Theme> := [
    Theme("bbo", false),
    Theme("depth.size_150.high_freq", true),
    Theme("trade.detail", false),
    Theme("detail", false)
  ]

  const WEB_THEMES: seq<Theme> := [
    Theme("basis.1min.open", false),
    Theme("estimated_rate.1min", false),
    Theme("index.1min", false)
  ]

  datatype Request = Request(id: nat, theme: Theme, symbol: Symbol)

  const ID_SCALE := 1_000_000

  const STREAM_IDS := 65536  // the counter is 16 bits wide

  /** One stream; `serial` counts the streams ever created, `sent` all requests since its creation,
      the current session's from `session` on. */
  datatype Stream = Stream(index: nat, serial: nat, ready: bool, sent: seq<Request>, session: nat) {
    function StreamId(): (id: nat)
      ensures id < STREAM_IDS
    {
      serial % STREAM_IDS
    }

    function RequestId(): nat { StreamId() * ID_SCALE + |sent| }

    function InSession(): seq<Request> { if session <= |sent| then sent[session..] else [] }
  }

  datatype Gateway = Gateway(created: nat, symbols: seq<Symbol>, all: set<Symbol>, market: seq<Stream>,
    web: seq<Stream>)

  function Init(others: nat): Gateway { Gateway(others, [], {}, [], []) }

  // --- slices ---

  function Slice(symbols: seq<Symbol>, size: nat, index: nat): seq<Symbol>
    requires size > 0
  {
    SliceFrom(symbols, size, index, 0)
  }

  /** The part of a slice that starts at position `start` of the whole list. */
  function SliceFrom(symbols: seq<Symbol>, size: nat, index: nat, start: nat): (slice: seq<Symbol>)
    requires size > 0
    ensures |slice| <= size
  {
    var hi := Min(index * size + size, |symbols|);
    var lo := Max(index * size, start);
    if lo < hi then symbols[lo..hi] else []
  }

  function NumSlices(count: nat, size: nat): nat
    requires size > 0
  {
    (count + size - 1) / size
  }

  // --- streams ---

  function ThemeRequests(id: nat, theme: Theme, symbols: seq<Symbol>): seq<Request> {
    if symbols == [] then []
    else
      var before := ThemeRequests(id, theme, symbols[..|symbols| - 1]);
      before + [Request(id + |before| + 1, theme, symbols[|symbols| - 1])]
  }

  function AllRequests(id: nat, themes: seq<Theme>, symbols: seq<Symbol>): seq<Request> {
    if themes == [] then []
    else
      var before := AllRequests(id, themes[..|themes| - 1], symbols);
      before + ThemeRequests(id + |before|, themes[|themes| - 1], symbols)
  }

  function Subscribe(s: Stream, themes: seq<Theme>, symbols: seq<Symbol>): Stream {
    s.(sent := s.sent + AllRequests(s.RequestId(), themes, symbols))
  }

  function SubscribeFrom(s: Stream, themes: seq<Theme>, symbols: seq<Symbol>, size: nat, start: nat): Stream
    requires size > 0
  {
    if s.ready then Subscribe(s, themes, SliceFrom(symbols, size, s.index, start)) else s
  }

  function OnReady(s: Stream, themes: seq<Theme>, symbols: seq<Symbol>, size: nat): Stream
    requires size > 0
  {
    SubscribeFrom(s.(ready := true, session := |s.sent|), themes, symbols, size, 0)
  }

  function OnDisconnected(s: Stream): Stream { s.(ready := false) }

  // --- the controller ---

  function Create(streams: seq<Stream>, created: nat, count: nat): (r: seq<Stream>)
    ensures |r| == Max(|streams|, count)
    decreases count - |streams|
  {
    if |streams| < count then
      Create(streams + [Stream(|streams|, created + 1, false, [], 0)], created + 1, count)
    else streams
  }

  function SubscribeAll(streams: seq<Stream>, themes: seq<Theme>, symbols: seq<Symbol>, size: nat,
    start: nat): (r: seq<Stream>)
    requires size > 0
  {
    seq(|streams|, i requires 0 <= i < |streams| => SubscribeFrom(streams[i], themes, symbols, size, start))
  }

  /** SymbolsUpdate: append, create the missing streams, subscribe what is new. */
  function OnSymbols(g: Gateway, size: nat, added: seq<Symbol>): Gateway
    requires size > 0
  {
    var h := Grow(g, size, added);
    h.(market := SubscribeAll(h.market, MARKET_THEMES, h.symbols, size, |g.symbols|),
       web := SubscribeAll(h.web, WEB_THEMES, h.symbols, size, |g.symbols|))
  }

  function Grow(g: Gateway, size: nat, added: seq<Symbol>): Gateway
    requires size > 0
  {
    var symbols := g.symbols + added;
    var count := NumSlices(|symbols|, size);
    var market := Create(g.market, g.created, count);
    var created := g.created + (|market| - |g.market|);
    var web := Create(g.web, created, count);
    Gateway(created + (|web| - |g.web|), symbols, g.all, market, web)
  }

  /** The symbols that are not known yet, each once, in their order. */
  function NewSymbols(items: seq<Symbol>, known: set<Symbol>): seq<Symbol> {
    if items == [] then []
    else
      var before, last := NewSymbols(items[..|items| - 1], known), items[|items| - 1];
      if last in known || last in before then before else before + [last]
  }

  /** An instrument of the contract list; `discard` is the configuration's verdict on the symbol. */
  datatype Contract = Contract(status: int, code: Symbol, discard: bool) {
    predicate IsUsable() { status == 1 && !discard }
  }

  function Usable(items: seq<Contract>): seq<Symbol> {
    if items == [] then []
    else
      var before, last := Usable(items[..|items| - 1]), items[|items| - 1];
      if last.status != 1 || last.discard then before else before + [last.code]
  }

  datatype Event =
    | ClientSubscribe(symbols: seq<Symbol>)
    | ContractInfo(contracts: seq<Contract>)
    | MarketReady(index: nat)
    | MarketDisconnected(index: nat)
    | WebReady(index: nat)
    | WebDisconnected(index: nat)

  predicate Enabled(g: Gateway, e: Event) {
    match e
    case MarketReady(i) => i < |g.market|
    case MarketDisconnected(i) => i < |g.market|
    case WebReady(i) => i < |g.web|
    case WebDisconnected(i) => i < |g.web|
    case _ => true
  }

  function Learn(g: Gateway, items: seq<Symbol>): Gateway {
    g.(all := g.all + (set s | s in items))
  }

  function Step(g: Gateway, size: nat, e: Event): Gateway
    requires size > 0 && Enabled(g, e)
  {
    match e
    case ClientSubscribe(items) => OnSymbols(Learn(g, items), size, NewSymbols(items, g.all))
    case ContractInfo(contracts) =>
      var items := Usable(contracts);
      var added := NewSymbols(items, g.all);
      if added == [] then Learn(g, items) else OnSymbols(Learn(g, items), size, added)
    case MarketReady(i) => g.(market := g.market[i := OnReady(g.market[i], MARKET_THEMES, g.symbols, size)])
    case MarketDisconnected(i) => g.(market := g.market[i := OnDisconnected(g.market[i])])
    case WebReady(i) => g.(web := g.web[i := OnReady(g.web[i], WEB_THEMES, g.symbols, size)])
    case WebDisconnected(i) => g.(web := g.web[i := OnDisconnected(g.web[i])])
  }

  ghost predicate ValidRun(g: Gateway, size: nat, es: seq<Event>)
    requires size > 0
    decreases |es|, 0
  {
    es == [] ||
    (ValidRun(g, size, es[..|es| - 1]) && Enabled(Run(g, size, es[..|es| - 1]), es[|es| - 1]))
  }

  ghost function Run(g: Gateway, size: nat, es: seq<Event>): Gateway
    requires size > 0 && ValidRun(g, size, es)
    decreases |es|, 1
  {
    if es == [] then g else Step(Run(g, size, es[..|es| - 1]), size, es[|es| - 1])
  }
}
