/** The objects: streams that count their requests, and the controller that owns them. Every method
    is proved to compute the function of `Subscriptions` it stands for. */
module SubscriptionObjects {
  import opened Subscriptions

  /** A market-data stream or a web-socket stream; they differ in their themes only. */
  class SubscriptionStream {
    const index: nat
    const streamId: nat
    const themes: seq<Theme>
    ghost const serial: nat
    var ready: bool
    var requestId: nat
    ghost var sent: seq<Request>
    ghost var session: nat

    constructor (index: nat, streamId: nat, themes: seq<Theme>, ghost serial: nat)
      requires streamId == serial % STREAM_IDS
      ensures View() == Stream(index, serial, false, [], 0) && Valid() && this.themes == themes
    {
      this.index := index;
      this.streamId := streamId;
      this.themes := themes;
      this.serial := serial;
      ready := false;
      requestId := streamId * ID_SCALE;
      sent := [];
      session := 0;
    }

    ghost function View(): Stream
      reads this
    {
      Stream(index, serial, ready, sent, session)
    }

    ghost predicate Valid()
      reads this
    {
      streamId == View().StreamId() && requestId == View().RequestId()
    }

    method SubscribeTheme(symbols: seq<Symbol>, theme: Theme)
      modifies this`requestId, this`sent
      ensures sent == old(sent) + ThemeRequests(old(requestId), theme, symbols)
      ensures requestId == old(requestId) + |ThemeRequests(old(requestId), theme, symbols)|
    {
      for i := 0 to |symbols|
        invariant sent == old(sent) + ThemeRequests(old(requestId), theme, symbols[..i])
        invariant requestId == old(requestId) + |ThemeRequests(old(requestId), theme, symbols[..i])|
      {
        requestId := requestId + 1;
        sent := sent + [Request(requestId, theme, symbols[i])];
        assert symbols[..i + 1][..i] == symbols[..i];
      }
      assert symbols[..|symbols|] == symbols;
    }

    method SubscribeThemes(symbols: seq<Symbol>)
      modifies this`requestId, this`sent
      ensures sent == old(sent) + AllRequests(old(requestId), themes, symbols)
      ensures requestId == old(requestId) + |AllRequests(old(requestId), themes, symbols)|
    {
      for i := 0 to |themes|
        invariant sent == old(sent) + AllRequests(old(requestId), themes[..i], symbols)
        invariant requestId == old(requestId) + |AllRequests(old(requestId), themes[..i], symbols)|
      {
        SubscribeTheme(symbols, themes[i]);
        assert themes[..i + 1][..i] == themes[..i];
      }
      assert themes[..|themes|] == themes;
    }

    method SubscribeSymbols(symbols: seq<Symbol>)
      requires Valid()
      modifies this`requestId, this`sent
      ensures Valid() && View() == Subscribe(old(View()), themes, symbols)
    {
      if symbols == [] {
        NothingToAsk(requestId, themes);
        return;
      }
      SubscribeThemes(symbols);
    }

    method SubscribeNew(symbols: seq<Symbol>, size: nat, start: nat)
      requires Valid() && size > 0
      modifies this`requestId, this`sent
      ensures Valid() && View() == SubscribeFrom(old(View()), themes, symbols, size, start)
    {
      if ready {
        SubscribeSymbols(SliceFrom(symbols, size, index, start));
      }
    }

    method Ready(symbols: seq<Symbol>, size: nat)
      requires Valid() && size > 0
      modifies this
      ensures Valid() && View() == OnReady(old(View()), themes, symbols, size)
    {
      ready := true;
      session := |sent|;
      SubscribeNew(symbols, size, 0);
    }

    method Disconnected()
      requires Valid()
      modifies this
      ensures Valid() && View() == OnDisconnected(old(View()))
    {
      ready := false;
    }
  }

  lemma {:induction false} NothingToAsk(id: nat, themes: seq<Theme>)
    ensures AllRequests(id, themes, []) == []
  {
    if themes != [] {
      NothingToAsk(id, themes[..|themes| - 1]);
    }
  }

  /** The controller's list of streams of one kind, one stream for every slice. */
  class StreamList {
    const themes: seq<Theme>
    var streams: seq<SubscriptionStream>
    ghost var Repr: set<object>

    ghost predicate Valid()
      reads this, Repr
    {
      && this in Repr
      && (forall i :: 0 <= i < |streams| ==>
                        streams[i] in Repr && streams[i].Valid() && streams[i].themes == themes)
      && (forall i, j :: 0 <= i < j < |streams| ==> streams[i] != streams[j])
    }

    ghost function View(): (r: seq<Stream>)
      requires Valid()
      reads this, Repr
      ensures |r| == |streams| && forall i :: 0 <= i < |r| ==> r[i] == streams[i].View()
    {
      seq(|streams|, i requires 0 <= i < |streams| && Valid() reads this, Repr => streams[i].View())
    }

    constructor (themes: seq<Theme>)
      ensures Valid() && fresh(Repr) && View() == [] && this.themes == themes
    {
      this.themes := themes;
      streams := [];
      Repr := {this};
    }

    method Add(streamId: nat, ghost serial: nat)
      requires Valid() && streamId == serial % STREAM_IDS
      modifies this
      ensures Valid() && fresh(Repr - old(Repr))
      ensures View() == old(View()) + [Stream(|old(View())|, serial, false, [], 0)]
    {
      var stream := new SubscriptionStream(|streams|, streamId, themes, serial);
      streams := streams + [stream];
      Repr := Repr + {stream};
    }

    /** Creates the missing streams, with the next ids of a 16-bit counter. */
    method Ensure(count: nat, streamId: nat, ghost created: nat) returns (nextId: nat, ghost nextCreated: nat)
      requires Valid() && streamId == created % STREAM_IDS
      modifies this
      ensures Valid() && fresh(Repr - old(Repr))
      ensures View() == Create(old(View()), created, count)
      ensures nextCreated == created + |View()| - |old(View())| && nextId == nextCreated % STREAM_IDS
    {
      nextId, nextCreated := streamId, created;
      while |streams| < count
        invariant Valid() && fresh(Repr - old(Repr))
        invariant Create(View(), nextCreated, count) == Create(old(View()), created, count)
        invariant nextCreated == created + |View()| - |old(View())| && nextId == nextCreated % STREAM_IDS
      {
        nextId := if nextId + 1 == STREAM_IDS then 0 else nextId + 1;
        nextCreated := nextCreated + 1;
        Add(nextId, nextCreated);
      }
    }

    method SubscribeNew(symbols: seq<Symbol>, size: nat, start: nat)
      requires Valid() && size > 0
      modifies Repr
      ensures Valid() && Repr == old(Repr)
      ensures View() == SubscribeAll(old(View()), themes, symbols, size, start)
    {
      ghost var all := streams;
      for i := 0 to |streams|
        invariant Valid() && Repr == old(Repr) && streams == all == old(streams)
        invariant forall j :: 0 <= j < i ==>
          streams[j].View() == SubscribeFrom(old(streams[j].View()), themes, symbols, size, start)
        invariant forall j :: i <= j < |streams| ==> streams[j].View() == old(streams[j].View())
      {
        streams[i].SubscribeNew(symbols, size, start);
      }
    }
  }

  class Controller {
    const size: nat  // the configured number of symbols per stream
    const marketData: StreamList
    const webSocket: StreamList
    var streamId: nat
    var symbols: seq<Symbol>
    var allSymbols: set<Symbol>
    ghost var created: nat

    ghost predicate Valid()
      reads this, marketData, marketData.Repr, webSocket, webSocket.Repr
    {
      && size > 0
      && streamId == created % STREAM_IDS
      && marketData.Valid() && marketData.themes == MARKET_THEMES
      && webSocket.Valid() && webSocket.themes == WEB_THEMES
      && marketData.Repr !! webSocket.Repr
      && this !in marketData.Repr + webSocket.Repr
    }

    ghost function View(): Gateway
      requires Valid()
      reads this, marketData, marketData.Repr, webSocket, webSocket.Repr
    {
      Gateway(created, symbols, allSymbols, marketData.View(), webSocket.View())
    }

    constructor (size: nat, others: nat)
      requires size > 0
      ensures Valid() && View() == Init(others) && this.size == size
    {
      this.size := size;
      marketData := new StreamList(MARKET_THEMES);
      webSocket := new StreamList(WEB_THEMES);
      streamId := others % STREAM_IDS;
      symbols, allSymbols := [], {};
      created := others;
    }

    method EnsureSymbolSlices(count: nat)
      requires Valid()
      modifies this`streamId, this`created, marketData, webSocket
      ensures Valid() && fresh(marketData.Repr - old(marketData.Repr)) && fresh(webSocket.Repr - old(webSocket.Repr))
      ensures marketData.View() == Create(old(marketData.View()), old(created), count)
      ensures var between := old(created) + |marketData.View()| - |old(marketData.View())|;
              && webSocket.View() == Create(old(webSocket.View()), between, count)
              && created == between + |webSocket.View()| - |old(webSocket.View())|
    {
      EnsureMarketData(count);
      EnsureWebSockets(count);
    }

    method EnsureMarketData(count: nat)
      requires Valid()
      modifies this`streamId, this`created, marketData
      ensures Valid() && fresh(marketData.Repr - old(marketData.Repr))
      ensures webSocket.Repr == old(webSocket.Repr) && webSocket.View() == old(webSocket.View())
      ensures marketData.View() == Create(old(marketData.View()), old(created), count)
      ensures created == old(created) + |marketData.View()| - |old(marketData.View())|
    {
      streamId, created := marketData.Ensure(count, streamId, created);
    }

    method EnsureWebSockets(count: nat)
      requires Valid()
      modifies this`streamId, this`created, webSocket
      ensures Valid() && fresh(webSocket.Repr - old(webSocket.Repr))
      ensures marketData.Repr == old(marketData.Repr) && marketData.View() == old(marketData.View())
      ensures webSocket.View() == Create(old(webSocket.View()), old(created), count)
      ensures created == old(created) + |webSocket.View()| - |old(webSocket.View())|
    {
      streamId, created := webSocket.Ensure(count, streamId, created);
    }

    /** The handler of a symbols update: append, create the missing streams, subscribe what is new. */
    method SymbolsUpdate(added: seq<Symbol>)
      requires Valid()
      modifies this`streamId, this`created, this`symbols, marketData.Repr, webSocket.Repr
      ensures Valid() && View() == OnSymbols(old(View()), size, added)
    {
      var start := |symbols|;
      AppendSymbols(added);
      SubscribeStreams(start);
    }

    method AppendSymbols(added: seq<Symbol>)
      requires Valid()
      modifies this`streamId, this`created, this`symbols, marketData, webSocket
      ensures Valid() && fresh(marketData.Repr - old(marketData.Repr)) && fresh(webSocket.Repr - old(webSocket.Repr))
      ensures View() == Grow(old(View()), size, added)
    {
      symbols := symbols + added;
      EnsureSymbolSlices(NumSlices(|symbols|, size));
    }

    method SubscribeStreams(start: nat)
      requires Valid()
      modifies marketData.Repr, webSocket.Repr
      ensures Valid() && marketData.Repr == old(marketData.Repr) && webSocket.Repr == old(webSocket.Repr)
      ensures marketData.View() == SubscribeAll(old(marketData.View()), MARKET_THEMES, symbols, size, start)
      ensures webSocket.View() == SubscribeAll(old(webSocket.View()), WEB_THEMES, symbols, size, start)
    {
      marketData.SubscribeNew(symbols, size, start);
      assert webSocket.View() == old(webSocket.View());
      webSocket.SubscribeNew(symbols, size, start);
    }

    /** Keeps the symbols that are not known yet. */
    method LearnSymbols(items: seq<Symbol>) returns (added: seq<Symbol>)
      modifies this`allSymbols
      ensures added == NewSymbols(items, old(allSymbols))
      ensures allSymbols == old(allSymbols) + (set s | s in items)
    {
      added := [];
      for i := 0 to |items|
        invariant allSymbols == old(allSymbols) + (set s | s in items[..i])
        invariant added == NewSymbols(items[..i], old(allSymbols))
        invariant forall s :: s in allSymbols <==> s in old(allSymbols) || s in added
      {
        assert items[..i + 1][..i] == items[..i];
        if items[i] !in allSymbols {
          allSymbols := allSymbols + {items[i]};
          added := added + [items[i]];
        }
      }
      assert items[..|items|] == items;
    }

    method ClientSubscribe(items: seq<Symbol>)
      requires Valid()
      modifies this, marketData.Repr, webSocket.Repr
      ensures Valid() && View() == Step(old(View()), size, Event.ClientSubscribe(items))
    {
      var added := LearnSymbols(items);
      SymbolsUpdate(added);
    }

    /** The same for a contract list: instruments that are not trading or discarded are skipped. */
    method LearnContracts(contracts: seq<Contract>) returns (added: seq<Symbol>)
      modifies this`allSymbols
      ensures added == NewSymbols(Usable(contracts), old(allSymbols))
      ensures allSymbols == old(allSymbols) + (set s | s in Usable(contracts))
    {
      added := [];
      for i := 0 to |contracts|
        invariant allSymbols == old(allSymbols) + (set s | s in Usable(contracts[..i]))
        invariant added == NewSymbols(Usable(contracts[..i]), old(allSymbols))
        invariant forall s :: s in allSymbols <==> s in old(allSymbols) || s in added
      {
        var item := contracts[i];
        assert contracts[..i + 1][..i] == contracts[..i];
        if item.status != 1 {
          continue;
        }
        if item.discard {
          continue;
        }
        ghost var usable := Usable(contracts[..i]);
        assert Usable(contracts[..i + 1]) == usable + [item.code];
        assert (usable + [item.code])[..|usable|] == usable;
        if item.code !in allSymbols {
          allSymbols := allSymbols + {item.code};
          added := added + [item.code];
        }
      }
      assert contracts[..|contracts|] == contracts;
    }

    method ContractInfo(contracts: seq<Contract>)
      requires Valid()
      modifies this, marketData.Repr, webSocket.Repr
      ensures Valid() && View() == Step(old(View()), size, Event.ContractInfo(contracts))
    {
      var added := LearnContracts(contracts);
      if added != [] {
        SymbolsUpdate(added);
      }
    }
  }
}
