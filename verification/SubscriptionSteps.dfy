/** What every single event does in every reachable state, in terms of the event and the state alone:
    which symbols are published, which streams are created, and which requests are sent. */
module SubscriptionSteps {
  import opened Arithmetic
  import opened Subscriptions
  import opened SubscriptionRuns

  // --- symbols ---

  lemma SliceNumber(p: nat, size: nat, count: nat)
    requires size > 0 && p < count
    ensures p / size * size + p % size == p && p % size < size && p / size < NumSlices(count, size)
  {
    NumSlicesEnough(count, size);
    var i, n := p / size, NumSlices(count, size);
    if i >= n {
      Times(n, i + 1, size);
    }
  }

  lemma HasASlice(symbols: seq<Symbol>, size: nat, s: Symbol)
    requires size > 0 && s in symbols
    ensures exists i :: 0 <= i < NumSlices(|symbols|, size) && s in Slice(symbols, size, i)
  {
    var p :| 0 <= p < |symbols| && symbols[p] == s;
    SliceNumber(p, size, |symbols|);
    SliceAt(symbols, size, p / size, p % size);
  }

  lemma AllHaveStreams(g: Gateway, size: nat)
    requires size > 0 && |g.market| == NumSlices(|g.symbols|, size)
    ensures forall s :: s in g.symbols ==> exists i :: 0 <= i < |g.market| && s in Slice(g.symbols, size, i)
  {
    forall s | s in g.symbols
      ensures exists i :: 0 <= i < |g.market| && s in Slice(g.symbols, size, i)
    {
      HasASlice(g.symbols, size, s);
    }
  }

  lemma LearnedIsPublished(g: Gateway, size: nat, items: seq<Symbol>)
    requires size > 0 && Inv(g, size)
    ensures var t := OnSymbols(Learn(g, items), size, NewSymbols(items, g.all));
            g.symbols <= t.symbols && forall s :: s in t.symbols <==> s in g.symbols || s in items
  {
    NewSymbolsAreNew(items, g.all);
  }

  /** A client subscription publishes exactly the symbols it names, beside those published before. */
  lemma ClientSymbolsArePublished(others: nat, size: nat, g: Gateway, items: seq<Symbol>)
    requires size > 0 && Reachable(others, size, g)
    ensures var t := Step(g, size, ClientSubscribe(items));
            && g.symbols <= t.symbols
            && (forall s :: s in t.symbols <==> s in g.symbols || s in items)
            && (forall s :: s in t.symbols ==> exists i :: 0 <= i < |t.market| && s in Slice(t.symbols, size, i))
  {
    ReachableKeeps(others, size, g);
    StepKeeps(g, size, ClientSubscribe(items));
    LearnedIsPublished(g, size, items);
    AllHaveStreams(Step(g, size, ClientSubscribe(items)), size);
  }

  lemma ContractSymbols(g: Gateway, size: nat, contracts: seq<Contract>)
    requires size > 0 && Inv(g, size)
    ensures var t := Step(g, size, ContractInfo(contracts));
            g.symbols <= t.symbols && forall s :: s in t.symbols <==> s in g.symbols || s in Usable(contracts)
  {
    LearnedIsPublished(g, size, Usable(contracts));
    NewSymbolsAreNew(Usable(contracts), g.all);
    if NewSymbols(Usable(contracts), g.all) == [] {
      forall s | s in Usable(contracts)
        ensures s in g.symbols
      {
        assert s !in NewSymbols(Usable(contracts), g.all);
      }
    }
  }

  /** A contract list publishes exactly the live contracts that are not discarded. */
  lemma ContractsArePublished(others: nat, size: nat, g: Gateway, contracts: seq<Contract>, s: Symbol)
    requires size > 0 && Reachable(others, size, g)
    ensures var t := Step(g, size, ContractInfo(contracts));
            && g.symbols <= t.symbols
            && (s in t.symbols <==>
                  || s in g.symbols
                  || exists i :: 0 <= i < |contracts| && contracts[i] == Contract(1, s, false))
            && (s in t.symbols ==> exists i :: 0 <= i < |t.market| && s in Slice(t.symbols, size, i))
  {
    ReachableKeeps(others, size, g);
    StepKeeps(g, size, ContractInfo(contracts));
    AllHaveStreams(Step(g, size, ContractInfo(contracts)), size);
    ContractSymbols(g, size, contracts);
    UsableExactly(contracts, s);
  }

  /** With new symbols, a contract list acts like a client that names its usable codes in their order. */
  lemma ContractsActLikeAClient(g: Gateway, size: nat, contracts: seq<Contract>)
    requires size > 0 && NewSymbols(Usable(contracts), g.all) != []
    ensures Step(g, size, ContractInfo(contracts)) == Step(g, size, ClientSubscribe(Usable(contracts)))
  {
  }

  lemma UsableInOrder(contracts: seq<Contract>, last: Contract)
    ensures Usable(contracts + [last]) ==
            if last.status == 1 && !last.discard then Usable(contracts) + [last.code] else Usable(contracts)
  {
    var all := contracts + [last];
    assert all[..|all| - 1] == contracts && all[|all| - 1] == last;
  }

  /** Where a symbol is named first. */
  function First(items: seq<Symbol>, s: Symbol): (i: nat)
    requires s in items
    ensures i < |items| && items[i] == s && s !in items[..i]
  {
    if items[0] == s then 0 else 1 + First(items[1..], s)
  }

  lemma {:induction false} FirstIs(items: seq<Symbol>, s: Symbol, i: nat)
    requires i < |items| && items[i] == s && s !in items[..i]
    ensures First(items, s) == i
  {
    if i > 0 {
      assert items[..i][0] == items[0] && items[1..][..i - 1] == items[..i][1..];
      FirstIs(items[1..], s, i - 1);
    }
  }

  lemma FirstBefore(items: seq<Symbol>, last: Symbol, s: Symbol)
    requires s in items
    ensures First(items + [last], s) == First(items, s)
  {
    var i := First(items, s);
    assert (items + [last])[..i] == items[..i];
    FirstIs(items + [last], s, i);
  }

  /** New symbols keep the order in which they are named first. */
  lemma {:induction false} NewSymbolsInOrder(items: seq<Symbol>, known: set<Symbol>, a: nat, b: nat)
    requires a < b < |NewSymbols(items, known)|
    ensures var r := NewSymbols(items, known);
            r[a] in items && r[b] in items && First(items, r[a]) < First(items, r[b])
  {
    var before, last := items[..|items| - 1], items[|items| - 1];
    var r := NewSymbols(items, known);
    assert items == before + [last];
    NewSymbolsAreNew(before, known);
    NewSymbolsAreNew(items, known);
    FirstBefore(before, last, r[a]);
    if b < |NewSymbols(before, known)| {
      NewSymbolsInOrder(before, known, a, b);
      FirstBefore(before, last, r[b]);
    }
  }

  /** A client's new symbols number `a` and `b` are published in the order in which it named them. */
  lemma ClientSymbolsInOrder(size: nat, g: Gateway, items: seq<Symbol>, a: nat, b: nat)
    requires size > 0 && a < b && |g.symbols| + b < |Step(g, size, ClientSubscribe(items)).symbols|
    ensures var all, n := Step(g, size, ClientSubscribe(items)).symbols, |g.symbols|;
            all[n + a] in items && all[n + b] in items && First(items, all[n + a]) < First(items, all[n + b])
  {
    assert Step(g, size, ClientSubscribe(items)).symbols == g.symbols + NewSymbols(items, g.all);
    NewSymbolsInOrder(items, g.all, a, b);
    Behind(g.symbols, NewSymbols(items, g.all), a);
    Behind(g.symbols, NewSymbols(items, g.all), b);
  }

  lemma Behind(symbols: seq<Symbol>, added: seq<Symbol>, i: nat)
    requires i < |added|
    ensures (symbols + added)[|symbols| + i] == added[i]
  {
  }

  // --- slices and streams ---

  /** A slice is the range of its number; every stream has symbols to serve. */
  lemma SlicesAreRanges(others: nat, size: nat, g: Gateway, i: nat, j: nat)
    requires size > 0 && Reachable(others, size, g)
    ensures j < |Slice(g.symbols, size, i)| <==> j < size && i * size + j < |g.symbols|
    ensures j < |Slice(g.symbols, size, i)| ==> Slice(g.symbols, size, i)[j] == g.symbols[i * size + j]
    ensures i < |g.market| ==> i < |g.web| && Slice(g.symbols, size, i) != []
  {
    ReachableKeeps(others, size, g);
    SliceAt(g.symbols, size, i, j);
    if i < |g.market| {
      SliceAt(g.symbols, size, i, 0);
      StreamsAreNeeded(|g.symbols|, size, i);
    }
  }

  lemma SliceAt(symbols: seq<Symbol>, size: nat, i: nat, j: nat)
    requires size > 0
    ensures j < |Slice(symbols, size, i)| <==> j < size && i * size + j < |symbols|
    ensures j < |Slice(symbols, size, i)| ==> Slice(symbols, size, i)[j] == symbols[i * size + j]
  {
    assert i * size >= 0;
  }

  lemma StreamsAreNeeded(count: nat, size: nat, i: nat)
    requires size > 0 && i < NumSlices(count, size)
    ensures i * size < count
  {
    var n := NumSlices(count, size);
    NumSlicesEnough(count, size);
    if i < n - 1 {
      Times(i, n - 1, size);
    }
    assert (n - 1) * size + size == n * size;
  }

  /** What an update makes of the streams that were there. */
  ghost predicate Continues(s: Stream, t: Stream) {
    && t.index == s.index && t.serial == s.serial && t.ready == s.ready && t.session == s.session
    && s.sent <= t.sent
    && (!s.ready ==> t.sent == s.sent)
  }

  lemma UpdatedStreams(streams: seq<Stream>, created: nat, count: nat, themes: seq<Theme>, symbols: seq<Symbol>,
                       added: seq<Symbol>, size: nat, i: nat)
    requires size > 0 && i < |Updated(streams, created, count, themes, symbols, added, size)|
    ensures var r := Updated(streams, created, count, themes, symbols, added, size);
            && (i < |streams| ==> Continues(streams[i], r[i]))
            && (i >= |streams| ==> r[i] == Stream(i, created + 1 + i - |streams|, false, [], 0))
  {
    var all := Create(streams, created, count);
    CreateExtends(streams, created, count);
    if i < |streams| {
      assert all[i] == all[..|streams|][i] == streams[i];
    }
  }

  lemma Counts(others: nat, size: nat, g: Gateway)
    requires size > 0 && Reachable(others, size, g)
    ensures |g.market| == |g.web| == NumSlices(|g.symbols|, size)
    ensures g.all == (set s | s in g.symbols)
    ensures forall i :: 0 <= i < |g.market| ==> g.market[i].index == i == g.web[i].index
  {
    ReachableKeeps(others, size, g);
  }

  /** Old streams go on in their sessions; new ones are numbered in the order of their creation, the
      market-data streams first, and have sent nothing yet. */
  lemma ClientMarketStreams(others: nat, size: nat, g: Gateway, items: seq<Symbol>, i: nat)
    requires size > 0 && Reachable(others, size, g) && i < |Step(g, size, ClientSubscribe(items)).market|
    ensures var t := Step(g, size, ClientSubscribe(items));
            && |g.market| <= |t.market|
            && (i < |g.market| ==> Continues(g.market[i], t.market[i]))
            && (i >= |g.market| ==> t.market[i] == Stream(i, g.created + 1 + i - |g.market|, false, [], 0))
  {
    Counts(others, size, g);
    var added := NewSymbols(items, g.all);
    var count := NumSlices(|g.symbols + added|, size);
    OnSymbolsParts(Learn(g, items), size, added);
    UpdatedStreams(g.market, g.created, count, MARKET_THEMES, g.symbols, added, size, i);
  }

  lemma ClientCounts(others: nat, size: nat, g: Gateway, items: seq<Symbol>)
    requires size > 0 && Reachable(others, size, g)
    ensures var t := Step(g, size, ClientSubscribe(items));
            && |g.web| == |g.market| <= |t.market| == |t.web| == NumSlices(|g.symbols + NewSymbols(items, g.all)|, size)
            && t.created == g.created + (|t.market| - |g.market|) + (|t.web| - |g.web|)
  {
    Counts(others, size, g);
    var added := NewSymbols(items, g.all);
    OnSymbolsParts(Learn(g, items), size, added);
    NumSlicesMonotone(|g.symbols|, |g.symbols + added|, size);
  }

  lemma ClientWeb(g: Gateway, size: nat, items: seq<Symbol>)
    requires size > 0 && |g.market| == |g.web|
    ensures var t := Step(g, size, ClientSubscribe(items));
            var added := NewSymbols(items, g.all);
            t.web == Updated(g.web, g.created + |t.market| - |g.market|, NumSlices(|g.symbols + added|, size),
                             WEB_THEMES, g.symbols, added, size)
  {
    OnSymbolsParts(Learn(g, items), size, NewSymbols(items, g.all));
  }

  lemma ClientWebStreams(others: nat, size: nat, g: Gateway, items: seq<Symbol>, i: nat, created: nat)
    requires size > 0 && Reachable(others, size, g) && i < |Step(g, size, ClientSubscribe(items)).web|
    requires created == g.created + |Step(g, size, ClientSubscribe(items)).market| - |g.market|
    ensures var t := Step(g, size, ClientSubscribe(items));
            && (i < |g.web| ==> Continues(g.web[i], t.web[i]))
            && (i >= |g.web| ==> t.web[i] == Stream(i, created + 1 + i - |g.web|, false, [], 0))
  {
    Counts(others, size, g);
    ClientWebUpdated(g, size, items, i, created);
  }

  lemma ClientWebUpdated(g: Gateway, size: nat, items: seq<Symbol>, i: nat, created: nat)
    requires size > 0 && |g.market| == |g.web| && i < |Step(g, size, ClientSubscribe(items)).web|
    requires created == g.created + |Step(g, size, ClientSubscribe(items)).market| - |g.market|
    ensures var t := Step(g, size, ClientSubscribe(items));
            && (i < |g.web| ==> Continues(g.web[i], t.web[i]))
            && (i >= |g.web| ==> t.web[i] == Stream(i, created + 1 + i - |g.web|, false, [], 0))
  {
    ClientWeb(g, size, items);
    var added := NewSymbols(items, g.all);
    UpdatedStreams(g.web, created, NumSlices(|g.symbols + added|, size), WEB_THEMES, g.symbols, added, size, i);
  }

  // --- requests ---

  /** Connects and disconnects change one stream: it becomes ready in a new session, or loses readiness. */
  lemma ConnectionsAreLocal(g: Gateway, size: nat, i: nat)
    requires size > 0
    ensures i < |g.market| ==>
              var t, s := Step(g, size, MarketReady(i)), g.market[i]; var r := t.market[i];
              && t == g.(market := g.market[i := r])
              && r == Stream(s.index, s.serial, true, r.sent, |s.sent|) && s.sent <= r.sent
    ensures i < |g.web| ==>
              var t, s := Step(g, size, WebReady(i)), g.web[i]; var r := t.web[i];
              && t == g.(web := g.web[i := r])
              && r == Stream(s.index, s.serial, true, r.sent, |s.sent|) && s.sent <= r.sent
    ensures i < |g.market| ==>
              Step(g, size, MarketDisconnected(i)) == g.(market := g.market[i := g.market[i].(ready := false)])
    ensures i < |g.web| ==>
              Step(g, size, WebDisconnected(i)) == g.(web := g.web[i := g.web[i].(ready := false)])
  {
  }

  /** The themes by name: these four, and these three, are asked for by a ready stream, once for every
      symbol of its slice. */
  lemma ThemesByName(others: nat, size: nat, g: Gateway, i: nat, t: Theme, s: Symbol)
    requires size > 0 && Reachable(others, size, g) && i < |g.market|
    ensures i < |g.web|
    ensures g.market[i].ready ==>
              Asked(g.market[i].InSession())[(t, s)] ==
              if s in Slice(g.symbols, size, i) &&
                 (t == Theme("bbo", false) || t == Theme("depth.size_150.high_freq", true) ||
                  t == Theme("trade.detail", false) || t == Theme("detail", false)) then 1 else 0
    ensures g.web[i].ready ==>
              Asked(g.web[i].InSession())[(t, s)] ==
              if s in Slice(g.symbols, size, i) &&
                 (t == Theme("basis.1min.open", false) || t == Theme("estimated_rate.1min", false) ||
                  t == Theme("index.1min", false)) then 1 else 0
  {
    ReadyStreamHasItsSlice(others, size, g, i, t, s);
  }

  /** Request number `k` of a stream, over all sessions, has the stream's id times a million plus `k + 1`. */
  lemma RequestIds(others: nat, size: nat, g: Gateway, i: nat, k: nat)
    requires size > 0 && Reachable(others, size, g) && i < |g.market + g.web| && k < |(g.market + g.web)[i].sent|
    ensures var s := (g.market + g.web)[i]; s.sent[k].id == s.serial % 65_536 * 1_000_000 + k + 1
  {
    ReachableKeeps(others, size, g);
    StreamOf(g, size, i);
  }
}
