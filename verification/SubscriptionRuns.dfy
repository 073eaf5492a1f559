/** What every run of symbol updates, reconnects and subscriptions keeps. */
module SubscriptionRuns {
  import opened Arithmetic
  import opened Subscriptions

  predicate NoDuplicates<T(==)>(s: seq<T>) { forall i, j :: 0 <= i < j < |s| ==> s[i] != s[j] }

  // --- what has been asked for ---

  function Asked(requests: seq<Request>): multiset<(Theme, Symbol)> {
    if requests == [] then multiset{}
    else
      var last := requests[|requests| - 1];
      Asked(requests[..|requests| - 1]) + multiset{(last.theme, last.symbol)}
  }

  function Row(theme: Theme, symbols: seq<Symbol>): multiset<(Theme, Symbol)> {
    if symbols == [] then multiset{}
    else Row(theme, symbols[..|symbols| - 1]) + multiset{(theme, symbols[|symbols| - 1])}
  }

  /** Every theme for every symbol. */
  function Table(themes: seq<Theme>, symbols: seq<Symbol>): multiset<(Theme, Symbol)> {
    if themes == [] then multiset{}
    else Table(themes[..|themes| - 1], symbols) + Row(themes[|themes| - 1], symbols)
  }

  lemma {:induction false} AskedAppend(a: seq<Request>, b: seq<Request>)
    ensures Asked(a + b) == Asked(a) + Asked(b)
  {
    if b == [] {
      assert a + b == a;
    } else {
      assert (a + b)[..|a + b| - 1] == a + b[..|b| - 1];
      AskedAppend(a, b[..|b| - 1]);
    }
  }

  lemma {:induction false} RowAsked(id: nat, theme: Theme, symbols: seq<Symbol>)
    ensures Asked(ThemeRequests(id, theme, symbols)) == Row(theme, symbols)
  {
    if symbols != [] {
      var before, r := ThemeRequests(id, theme, symbols[..|symbols| - 1]), ThemeRequests(id, theme, symbols);
      RowAsked(id, theme, symbols[..|symbols| - 1]);
      assert r[..|r| - 1] == before;
    }
  }

  lemma LastThemeAsked(id: nat, themes: seq<Theme>, symbols: seq<Symbol>)
    requires themes != []
    ensures Asked(AllRequests(id, themes, symbols)) ==
            Asked(AllRequests(id, themes[..|themes| - 1], symbols)) + Row(themes[|themes| - 1], symbols)
  {
    var before, last := AllRequests(id, themes[..|themes| - 1], symbols), themes[|themes| - 1];
    AskedAppend(before, ThemeRequests(id + |before|, last, symbols));
    RowAsked(id + |before|, last, symbols);
  }

  lemma {:induction false} TableAsked(id: nat, themes: seq<Theme>, symbols: seq<Symbol>)
    ensures Asked(AllRequests(id, themes, symbols)) == Table(themes, symbols)
  {
    if themes != [] {
      LastThemeAsked(id, themes, symbols);
      TableAsked(id, themes[..|themes| - 1], symbols);
    }
  }

  lemma {:induction false} RowAppend(theme: Theme, a: seq<Symbol>, b: seq<Symbol>)
    ensures Row(theme, a + b) == Row(theme, a) + Row(theme, b)
  {
    if b == [] {
      assert a + b == a;
    } else {
      assert (a + b)[..|a + b| - 1] == a + b[..|b| - 1];
      RowAppend(theme, a, b[..|b| - 1]);
    }
  }

  lemma {:induction false} TableAppend(themes: seq<Theme>, a: seq<Symbol>, b: seq<Symbol>)
    ensures Table(themes, a + b) == Table(themes, a) + Table(themes, b)
  {
    if themes != [] {
      TableAppend(themes[..|themes| - 1], a, b);
      RowAppend(themes[|themes| - 1], a, b);
    }
  }

  lemma {:induction false} RowCount(theme: Theme, symbols: seq<Symbol>, t: Theme, s: Symbol)
    requires NoDuplicates(symbols)
    ensures Row(theme, symbols)[(t, s)] == if t == theme && s in symbols then 1 else 0
  {
    if symbols != [] {
      var before, last := symbols[..|symbols| - 1], symbols[|symbols| - 1];
      RowCount(theme, before, t, s);
      assert s in symbols <==> s in before || s == last;
      assert last !in before;
    }
  }

  /** The table asks for every theme and symbol exactly once. */
  lemma {:induction false} TableCount(themes: seq<Theme>, symbols: seq<Symbol>, t: Theme, s: Symbol)
    requires NoDuplicates(themes) && NoDuplicates(symbols)
    ensures Table(themes, symbols)[(t, s)] == if t in themes && s in symbols then 1 else 0
  {
    if themes != [] {
      var before, last := themes[..|themes| - 1], themes[|themes| - 1];
      TableCount(before, symbols, t, s);
      RowCount(last, symbols, t, s);
      assert t in themes <==> t in before || t == last;
      assert last !in before;
    }
  }

  // --- slices ---

  /** An update adds to every slice exactly what a ready stream then subscribes. */
  lemma SliceGrows(symbols: seq<Symbol>, added: seq<Symbol>, size: nat, index: nat)
    requires size > 0
    ensures Slice(symbols + added, size, index) ==
            Slice(symbols, size, index) + SliceFrom(symbols + added, size, index, |symbols|)
  {
  }

  function Joined(symbols: seq<Symbol>, size: nat, count: nat): seq<Symbol>
    requires size > 0
  {
    if count == 0 then [] else Joined(symbols, size, count - 1) + Slice(symbols, size, count - 1)
  }

  lemma {:induction false} JoinedIsPrefix(symbols: seq<Symbol>, size: nat, count: nat)
    requires size > 0
    ensures Joined(symbols, size, count) == symbols[..Min(count * size, |symbols|)]
  {
    if count > 0 {
      JoinedIsPrefix(symbols, size, count - 1);
      assert (count - 1) * size + size == count * size;
    }
  }

  lemma NumSlicesEnough(count: nat, size: nat)
    requires size > 0
    ensures count <= NumSlices(count, size) * size < count + size
  {
    var a := count + size - 1;
    assert a == a / size * size + a % size;
  }

  /** The slices of all streams, put together, are the symbol list, and no slice is too long. */
  lemma SlicesPartition(symbols: seq<Symbol>, size: nat, index: nat)
    requires size > 0
    ensures Joined(symbols, size, NumSlices(|symbols|, size)) == symbols
    ensures |Slice(symbols, size, index)| <= size
  {
    NumSlicesEnough(|symbols|, size);
    JoinedIsPrefix(symbols, size, NumSlices(|symbols|, size));
  }

  lemma Times(a: nat, b: nat, size: nat)
    requires a < b
    ensures a * size + size <= b * size
  {
    assert b * size == a * size + (b - a) * size;
    assert (b - a) * size == size + (b - a - 1) * size;
  }

  /** Two different slices share no symbol. */
  lemma SlicesDisjoint(symbols: seq<Symbol>, size: nat, i: nat, j: nat, s: Symbol)
    requires size > 0 && i < j && NoDuplicates(symbols)
    ensures !(s in Slice(symbols, size, i) && s in Slice(symbols, size, j))
  {
    Times(i, j, size);
  }

  lemma SliceKeepsNoDuplicates(symbols: seq<Symbol>, size: nat, index: nat)
    requires size > 0 && NoDuplicates(symbols)
    ensures NoDuplicates(Slice(symbols, size, index))
  {
  }

  // --- the invariant ---

  /** The requests carry the numbers after `id`, without a gap. */
  predicate Numbered(requests: seq<Request>, id: nat) {
    forall j :: 0 <= j < |requests| ==> requests[j].id == id + j + 1
  }

  ghost predicate StreamInv(s: Stream, index: nat, themes: seq<Theme>, symbols: seq<Symbol>, size: nat)
    requires size > 0
  {
    && s.index == index
    && s.session <= |s.sent|
    && (s.ready ==> Asked(s.InSession()) == Table(themes, Slice(symbols, size, index)))
    && Numbered(s.sent, s.StreamId() * ID_SCALE)
  }

  ghost predicate StreamsInv(streams: seq<Stream>, themes: seq<Theme>, symbols: seq<Symbol>, size: nat)
    requires size > 0
  {
    forall i :: 0 <= i < |streams| ==> StreamInv(streams[i], i, themes, symbols, size)
  }

  /** Every stream was created at a moment of its own. */
  ghost predicate SerialsInv(market: seq<Stream>, web: seq<Stream>, created: nat) {
    && (forall i :: 0 <= i < |market| ==> market[i].serial <= created)
    && (forall i :: 0 <= i < |web| ==> web[i].serial <= created)
    && (forall i, j :: 0 <= i < j < |market| ==> market[i].serial != market[j].serial)
    && (forall i, j :: 0 <= i < j < |web| ==> web[i].serial != web[j].serial)
    && (forall i, j :: 0 <= i < |market| && 0 <= j < |web| ==> market[i].serial != web[j].serial)
  }

  ghost predicate Inv(g: Gateway, size: nat)
    requires size > 0
  {
    && g.all == (set s | s in g.symbols)
    && NoDuplicates(g.symbols)
    && |g.market| == |g.web| == NumSlices(|g.symbols|, size)
    && StreamsInv(g.market, MARKET_THEMES, g.symbols, size)
    && StreamsInv(g.web, WEB_THEMES, g.symbols, size)
    && SerialsInv(g.market, g.web, g.created)
  }

  // --- steps ---

  lemma {:induction false} NewSymbolsAreNew(items: seq<Symbol>, known: set<Symbol>)
    ensures var r := NewSymbols(items, known);
            NoDuplicates(r) && (forall s :: s in r <==> s in items && s !in known)
  {
    if items != [] {
      var before := items[..|items| - 1];
      NewSymbolsAreNew(before, known);
      assert forall s :: s in items <==> s in before || s == items[|items| - 1];
    }
  }

  lemma NumberedAppend(a: seq<Request>, b: seq<Request>, id: nat)
    requires Numbered(a, id) && Numbered(b, id + |a|)
    ensures Numbered(a + b, id)
  {
  }

  lemma {:induction false} ThemeIds(id: nat, theme: Theme, symbols: seq<Symbol>)
    ensures Numbered(ThemeRequests(id, theme, symbols), id)
  {
    if symbols != [] {
      var before := ThemeRequests(id, theme, symbols[..|symbols| - 1]);
      ThemeIds(id, theme, symbols[..|symbols| - 1]);
      NumberedAppend(before, [Request(id + |before| + 1, theme, symbols[|symbols| - 1])], id);
    }
  }

  lemma {:induction false} AllIds(id: nat, themes: seq<Theme>, symbols: seq<Symbol>)
    ensures Numbered(AllRequests(id, themes, symbols), id)
  {
    if themes != [] {
      var before := AllRequests(id, themes[..|themes| - 1], symbols);
      AllIds(id, themes[..|themes| - 1], symbols);
      ThemeIds(id + |before|, themes[|themes| - 1], symbols);
      NumberedAppend(before, ThemeRequests(id + |before|, themes[|themes| - 1], symbols), id);
    }
  }

  lemma SessionAppend(s: Stream, more: seq<Request>)
    requires s.session <= |s.sent|
    ensures s.(sent := s.sent + more).InSession() == s.InSession() + more
  {
  }

  lemma SubscribeAsks(s: Stream, themes: seq<Theme>, symbols: seq<Symbol>)
    requires s.session <= |s.sent|
    ensures Asked(Subscribe(s, themes, symbols).InSession()) == Asked(s.InSession()) + Table(themes, symbols)
  {
    var more := AllRequests(s.RequestId(), themes, symbols);
    SessionAppend(s, more);
    AskedAppend(s.InSession(), more);
    TableAsked(s.RequestId(), themes, symbols);
  }

  lemma SubscribeNumbers(s: Stream, themes: seq<Theme>, symbols: seq<Symbol>)
    requires Numbered(s.sent, s.StreamId() * ID_SCALE)
    ensures Numbered(Subscribe(s, themes, symbols).sent, s.StreamId() * ID_SCALE)
  {
    AllIds(s.RequestId(), themes, symbols);
    NumberedAppend(s.sent, AllRequests(s.RequestId(), themes, symbols), s.StreamId() * ID_SCALE);
  }

  lemma ReadyKeeps(s: Stream, themes: seq<Theme>, symbols: seq<Symbol>, size: nat)
    requires size > 0 && StreamInv(s, s.index, themes, symbols, size)
    ensures StreamInv(OnReady(s, themes, symbols, size), s.index, themes, symbols, size)
    ensures OnReady(s, themes, symbols, size).ready && OnReady(s, themes, symbols, size).serial == s.serial
  {
    var t := s.(ready := true, session := |s.sent|);
    SubscribeAsks(t, themes, Slice(symbols, size, s.index));
    SubscribeNumbers(t, themes, Slice(symbols, size, s.index));
  }

  lemma UpdateKeeps(s: Stream, themes: seq<Theme>, symbols: seq<Symbol>, added: seq<Symbol>, size: nat)
    requires size > 0 && StreamInv(s, s.index, themes, symbols, size)
    ensures var all := symbols + added;
            StreamInv(SubscribeFrom(s, themes, all, size, |symbols|), s.index, themes, all, size)
  {
    var part := SliceFrom(symbols + added, size, s.index, |symbols|);
    SubscribeAsks(s, themes, part);
    SubscribeNumbers(s, themes, part);
    SliceGrows(symbols, added, size, s.index);
    TableAppend(themes, Slice(symbols, size, s.index), part);
  }

  /** The created streams are the old ones and new ones that are not ready, with fresh serials. */
  lemma {:induction false} CreateExtends(streams: seq<Stream>, created: nat, count: nat)
    ensures var r := Create(streams, created, count);
            && r[..|streams|] == streams
            && forall i :: |streams| <= i < |r| ==>
                             r[i] == Stream(i, created + 1 + i - |streams|, false, [], 0)
    decreases count - |streams|
  {
    if |streams| < count {
      var more := streams + [Stream(|streams|, created + 1, false, [], 0)];
      CreateExtends(more, created + 1, count);
      var r := Create(more, created + 1, count);
      assert r[..|more|][..|streams|] == streams;
      assert r[|streams|] == r[..|more|][|streams|];
    }
  }

  /** The streams kept their serials, and the new ones have the next ones. */
  ghost predicate Aged(r: seq<Stream>, streams: seq<Stream>, created: nat) {
    forall i :: 0 <= i < |r| ==>
                  r[i].serial == (if i < |streams| then streams[i].serial else created + 1 + i - |streams|)
  }

  lemma UpdateAllKeeps(streams: seq<Stream>, created: nat, count: nat, themes: seq<Theme>, symbols: seq<Symbol>,
                       added: seq<Symbol>, size: nat)
    requires size > 0 && StreamsInv(streams, themes, symbols, size)
    ensures var r := SubscribeAll(Create(streams, created, count), themes, symbols + added, size, |symbols|);
            && StreamsInv(r, themes, symbols + added, size)
            && |r| == Max(|streams|, count)
            && Aged(r, streams, created)
  {
    var all := Create(streams, created, count);
    CreateExtends(streams, created, count);
    forall i | 0 <= i < |all|
      ensures var known := symbols + added;
              StreamInv(SubscribeFrom(all[i], themes, known, size, |symbols|), i, themes, known, size)
    {
      if i < |streams| {
        assert all[i] == all[..|streams|][i] == streams[i];
        UpdateKeeps(streams[i], themes, symbols, added, size);
      }
    }
  }

  lemma NumSlicesMonotone(a: nat, b: nat, size: nat)
    requires size > 0 && a <= b
    ensures NumSlices(a, size) <= NumSlices(b, size)
  {
    NumSlicesEnough(a, size);
    NumSlicesEnough(b, size);
    if NumSlices(b, size) < NumSlices(a, size) {
      Times(NumSlices(b, size), NumSlices(a, size), size);
    }
  }

  lemma ListKeeps(symbols: seq<Symbol>, items: seq<Symbol>)
    requires NoDuplicates(symbols)
    ensures var all := set s | s in symbols;
            var next := symbols + NewSymbols(items, all);
            NoDuplicates(next) && all + (set s | s in items) == (set s | s in next)
  {
    var all := set s | s in symbols;
    var added := NewSymbols(items, all);
    NewSymbolsAreNew(items, all);
    forall i, j | 0 <= i < j < |symbols + added|
      ensures (symbols + added)[i] != (symbols + added)[j]
    {
      if i < |symbols| <= j {
        assert (symbols + added)[i] in symbols && (symbols + added)[j] in added;
      }
    }
    assert forall s :: s in symbols + added <==> s in symbols || s in added;
  }

  lemma SerialsKeep(g: Gateway, market: seq<Stream>, web: seq<Stream>, count: nat)
    requires SerialsInv(g.market, g.web, g.created)
    requires |g.market| == |g.web| <= count == |market| == |web|
    requires Aged(market, g.market, g.created) && Aged(web, g.web, g.created + count - |g.market|)
    ensures SerialsInv(market, web, g.created + 2 * (count - |g.market|))
  {
  }

  /** Streams of one kind after an update with `count` slices. */
  function Updated(streams: seq<Stream>, created: nat, count: nat, themes: seq<Theme>, symbols: seq<Symbol>,
                   added: seq<Symbol>, size: nat): (r: seq<Stream>)
    requires size > 0
    ensures |r| == Max(|streams|, count)
  {
    SubscribeAll(Create(streams, created, count), themes, symbols + added, size, |symbols|)
  }

  lemma OnSymbolsParts(g: Gateway, size: nat, added: seq<Symbol>)
    requires size > 0 && |g.market| == |g.web|
    ensures var t := OnSymbols(g, size, added); var count := NumSlices(|g.symbols + added|, size);
            && t.symbols == g.symbols + added
            && t.market == Updated(g.market, g.created, count, MARKET_THEMES, g.symbols, added, size)
            && t.web == Updated(g.web, g.created + |t.market| - |g.market|, count, WEB_THEMES, g.symbols, added, size)
            && t.created == g.created + 2 * (|t.market| - |g.market|)
  {
  }

  lemma StreamsKeep(g: Gateway, size: nat, added: seq<Symbol>)
    requires size > 0 && |g.market| == |g.web| == NumSlices(|g.symbols|, size)
    requires StreamsInv(g.market, MARKET_THEMES, g.symbols, size) && StreamsInv(g.web, WEB_THEMES, g.symbols, size)
    requires SerialsInv(g.market, g.web, g.created)
    ensures var t := OnSymbols(g, size, added);
            && |t.market| == |t.web| == NumSlices(|t.symbols|, size)
            && StreamsInv(t.market, MARKET_THEMES, t.symbols, size)
            && StreamsInv(t.web, WEB_THEMES, t.symbols, size)
            && SerialsInv(t.market, t.web, t.created)
  {
    var t, count := OnSymbols(g, size, added), NumSlices(|g.symbols + added|, size);
    OnSymbolsParts(g, size, added);
    NumSlicesMonotone(|g.symbols|, |g.symbols + added|, size);
    UpdateAllKeeps(g.market, g.created, count, MARKET_THEMES, g.symbols, added, size);
    UpdateAllKeeps(g.web, g.created + count - |g.market|, count, WEB_THEMES, g.symbols, added, size);
    SerialsKeep(g, t.market, t.web, count);
  }

  lemma SymbolsKeep(g: Gateway, size: nat, items: seq<Symbol>)
    requires size > 0 && Inv(g, size)
    ensures Inv(OnSymbols(Learn(g, items), size, NewSymbols(items, g.all)), size)
  {
    ListKeeps(g.symbols, items);
    StreamsKeep(Learn(g, items), size, NewSymbols(items, g.all));
  }

  lemma {:induction false} UsableExactly(items: seq<Contract>, s: Symbol)
    ensures s in Usable(items) <==> exists i :: 0 <= i < |items| && items[i].code == s && items[i].IsUsable()
  {
    if items != [] {
      UsableExactly(items[..|items| - 1], s);
    }
  }

  /** Replacing a stream by one of the same age and place. */
  lemma ReplaceKeeps(streams: seq<Stream>, i: nat, t: Stream, themes: seq<Theme>, symbols: seq<Symbol>, size: nat)
    requires size > 0 && StreamsInv(streams, themes, symbols, size) && i < |streams|
    requires StreamInv(t, i, themes, symbols, size) && t.serial == streams[i].serial
    ensures StreamsInv(streams[i := t], themes, symbols, size)
    ensures forall j :: 0 <= j < |streams| ==> streams[i := t][j].serial == streams[j].serial
  {
  }

  lemma MarketStreamKeeps(g: Gateway, size: nat, i: nat, t: Stream)
    requires size > 0 && Inv(g, size) && i < |g.market|
    requires StreamInv(t, i, MARKET_THEMES, g.symbols, size) && t.serial == g.market[i].serial
    ensures Inv(g.(market := g.market[i := t]), size)
  {
    ReplaceKeeps(g.market, i, t, MARKET_THEMES, g.symbols, size);
  }

  lemma WebStreamKeeps(g: Gateway, size: nat, i: nat, t: Stream)
    requires size > 0 && Inv(g, size) && i < |g.web|
    requires StreamInv(t, i, WEB_THEMES, g.symbols, size) && t.serial == g.web[i].serial
    ensures Inv(g.(web := g.web[i := t]), size)
  {
    ReplaceKeeps(g.web, i, t, WEB_THEMES, g.symbols, size);
  }

  lemma StreamEventKeeps(g: Gateway, size: nat, e: Event)
    requires size > 0 && Inv(g, size) && Enabled(g, e) && !e.ClientSubscribe? && !e.ContractInfo?
    ensures Inv(Step(g, size, e), size)
  {
    match e
    case MarketReady(i) =>
      ReadyKeeps(g.market[i], MARKET_THEMES, g.symbols, size);
      MarketStreamKeeps(g, size, i, OnReady(g.market[i], MARKET_THEMES, g.symbols, size));
    case MarketDisconnected(i) => MarketStreamKeeps(g, size, i, OnDisconnected(g.market[i]));
    case WebReady(i) =>
      ReadyKeeps(g.web[i], WEB_THEMES, g.symbols, size);
      WebStreamKeeps(g, size, i, OnReady(g.web[i], WEB_THEMES, g.symbols, size));
    case WebDisconnected(i) => WebStreamKeeps(g, size, i, OnDisconnected(g.web[i]));
  }

  lemma StepKeeps(g: Gateway, size: nat, e: Event)
    requires size > 0 && Inv(g, size) && Enabled(g, e)
    ensures Inv(Step(g, size, e), size)
  {
    match e
    case ClientSubscribe(items) => SymbolsKeep(g, size, items);
    case ContractInfo(contracts) =>
      SymbolsKeep(g, size, Usable(contracts));
      NewSymbolsAreNew(Usable(contracts), g.all);
    case _ => StreamEventKeeps(g, size, e);
  }

  lemma {:induction false} RunKeeps(others: nat, size: nat, es: seq<Event>)
    requires size > 0 && ValidRun(Init(others), size, es)
    ensures Inv(Run(Init(others), size, es), size)
  {
    if es == [] {
      NumSlicesEnough(0, size);
      assert NumSlices(0, size) == 0;
    } else {
      RunKeeps(others, size, es[..|es| - 1]);
      StepKeeps(Run(Init(others), size, es[..|es| - 1]), size, es[|es| - 1]);
    }
  }

  // --- the main results ---

  /** Some run from the start ends here. */
  ghost predicate Reachable(others: nat, size: nat, g: Gateway)
    requires size > 0
  {
    exists es :: ValidRun(Init(others), size, es) && Run(Init(others), size, es) == g
  }

  lemma ReachableKeeps(others: nat, size: nat, g: Gateway)
    requires size > 0 && Reachable(others, size, g)
    ensures Inv(g, size)
  {
    var es :| ValidRun(Init(others), size, es) && Run(Init(others), size, es) == g;
    RunKeeps(others, size, es);
  }

  lemma StreamHasItsSlice(s: Stream, themes: seq<Theme>, symbols: seq<Symbol>, size: nat, t: Theme, sym: Symbol)
    requires size > 0 && StreamInv(s, s.index, themes, symbols, size) && s.ready
    requires NoDuplicates(themes) && NoDuplicates(symbols)
    ensures Asked(s.InSession())[(t, sym)] == if t in themes && sym in Slice(symbols, size, s.index) then 1 else 0
  {
    SliceKeepsNoDuplicates(symbols, size, s.index);
    TableCount(themes, Slice(symbols, size, s.index), t, sym);
  }

  /** Whatever updates, creations, connects and disconnects came before: in its current session a
      ready stream has asked for every theme of every symbol of its slice once, and for nothing else. */
  lemma ReadyStreamHasItsSlice(others: nat, size: nat, g: Gateway, i: nat, t: Theme, s: Symbol)
    requires size > 0 && Reachable(others, size, g) && i < |g.market|
    ensures i < |g.web|
    ensures g.market[i].ready ==> Asked(g.market[i].InSession())[(t, s)] ==
                                  if t in MARKET_THEMES && s in Slice(g.symbols, size, i) then 1 else 0
    ensures g.web[i].ready ==> Asked(g.web[i].InSession())[(t, s)] ==
                               if t in WEB_THEMES && s in Slice(g.symbols, size, i) then 1 else 0
  {
    ReachableKeeps(others, size, g);
    assert NoDuplicates(MARKET_THEMES) && NoDuplicates(WEB_THEMES);
    if g.market[i].ready {
      StreamHasItsSlice(g.market[i], MARKET_THEMES, g.symbols, size, t, s);
    }
    if g.web[i].ready {
      StreamHasItsSlice(g.web[i], WEB_THEMES, g.symbols, size, t, s);
    }
  }

  /** The published symbols are exactly the known ones, each once, and together the slices of the
      existing streams are the whole list. */
  lemma SymbolsAreCovered(others: nat, size: nat, g: Gateway)
    requires size > 0 && Reachable(others, size, g)
    ensures g.all == (set s | s in g.symbols) && NoDuplicates(g.symbols)
    ensures |g.market| == |g.web| && Joined(g.symbols, size, |g.market|) == g.symbols
  {
    ReachableKeeps(others, size, g);
    SlicesPartition(g.symbols, size, 0);
  }

  lemma {:induction false} NoNewSymbols(items: seq<Symbol>, known: set<Symbol>)
    requires forall s :: s in items ==> s in known
    ensures NewSymbols(items, known) == []
  {
    if items != [] {
      NoNewSymbols(items[..|items| - 1], known);
    }
  }

  lemma AllUsableKnown(contracts: seq<Contract>, known: set<Symbol>)
    requires forall i :: 0 <= i < |contracts| && contracts[i].IsUsable() ==> contracts[i].code in known
    ensures NewSymbols(Usable(contracts), known) == []
    ensures known + (set s | s in Usable(contracts)) == known
  {
    forall s | s in Usable(contracts)
      ensures s in known
    {
      UsableExactly(contracts, s);
    }
    NoNewSymbols(Usable(contracts), known);
  }

  /** A contract list without new usable symbols changes nothing. */
  lemma RefreshIsIdle(others: nat, size: nat, g: Gateway, contracts: seq<Contract>)
    requires size > 0 && Reachable(others, size, g)
    requires forall i :: 0 <= i < |contracts| && contracts[i].IsUsable() ==> contracts[i].code in g.symbols
    ensures Step(g, size, ContractInfo(contracts)) == g
  {
    ReachableKeeps(others, size, g);
    AllUsableKnown(contracts, g.all);
  }

  lemma RequestsApart(a: Stream, b: Stream, k: nat, l: nat)
    requires a.serial != b.serial && a.serial < STREAM_IDS && b.serial < STREAM_IDS
    requires Numbered(a.sent, a.StreamId() * ID_SCALE) && Numbered(b.sent, b.StreamId() * ID_SCALE)
    ensures a.StreamId() != b.StreamId()
    ensures k < |a.sent| <= ID_SCALE && l < |b.sent| <= ID_SCALE ==> a.sent[k].id != b.sent[l].id
  {
    if k < |a.sent| <= ID_SCALE && l < |b.sent| <= ID_SCALE {
      assert a.sent[k].id == a.serial * ID_SCALE + k + 1 && b.sent[l].id == b.serial * ID_SCALE + l + 1;
    }
  }

  lemma StreamOf(g: Gateway, size: nat, i: nat)
    requires size > 0 && Inv(g, size) && i < |g.market + g.web|
    ensures var s := (g.market + g.web)[i];
            && s.serial <= g.created && Numbered(s.sent, s.StreamId() * ID_SCALE)
            && forall j :: 0 <= j < i ==> (g.market + g.web)[j].serial != s.serial
  {
  }

  lemma StreamIdsCoincide(a: Stream, b: Stream)
    ensures a.StreamId() == b.StreamId() <==> (b.serial - a.serial) % STREAM_IDS == 0
  {
  }

  /** The 16-bit ids of two streams coincide exactly if their places in the order of creation differ
      by a multiple of 65536. */
  lemma StreamIdsAreDistinct(others: nat, size: nat, g: Gateway, i: nat, j: nat)
    requires size > 0 && Reachable(others, size, g) && i < j < |g.market + g.web|
    ensures var a, b := (g.market + g.web)[i], (g.market + g.web)[j];
      a.StreamId() == b.StreamId() <==> a.serial != b.serial && (b.serial - a.serial) % STREAM_IDS == 0
  {
    ReachableKeeps(others, size, g);
    StreamOf(g, size, j);
    StreamIdsCoincide((g.market + g.web)[i], (g.market + g.web)[j]);
  }

  /** Up to 65535 streams have different ids, and as long as no stream sends more than a million
      requests, no two requests of different streams carry the same id. */
  lemma IdsAreDistinct(others: nat, size: nat, g: Gateway, i: nat, j: nat, k: nat, l: nat)
    requires size > 0 && Reachable(others, size, g) && i < j < |g.market + g.web| && g.created < STREAM_IDS
    ensures var a, b := (g.market + g.web)[i], (g.market + g.web)[j];
      a.StreamId() != b.StreamId() &&
      (k < |a.sent| <= ID_SCALE && l < |b.sent| <= ID_SCALE ==> a.sent[k].id != b.sent[l].id)
  {
    ReachableKeeps(others, size, g);
    var all := g.market + g.web;
    StreamOf(g, size, i);
    StreamOf(g, size, j);
    RequestsApart(all[i], all[j], k, l);
  }

  /** Within a stream, ids never repeat, over all its sessions. */
  lemma OwnIdsAreDistinct(others: nat, size: nat, g: Gateway, i: nat, k: nat, l: nat)
    requires size > 0 && Reachable(others, size, g)
    requires i < |g.market + g.web| && k < l < |(g.market + g.web)[i].sent|
    ensures var sent := (g.market + g.web)[i].sent; sent[l].id - sent[k].id == l - k
  {
    ReachableKeeps(others, size, g);
    StreamOf(g, size, i);
  }
}
