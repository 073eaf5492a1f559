/** What every single event does in every reachable state, in terms of the event and the state alone:
    what is sent, what is kept, and what an observer sees. The histories the theorems speak about say
    what happened. */
module RecoverySteps {
  import opened Recovery
  import opened RecoveryHistory
  import opened RecoveryRuns
  import RecoverySessions

  /** The part of the invariants that is about the state alone. */
  ghost predicate Facts(c: Config, s: State) {
    var d, q, r := s.drop, s.shared, s.rest;
    q.fatal.Alive? ==>
      && (d.stage.Done? <==> d.status.Ready?)
      && (d.stage.Undefined? <==> !d.status.Ready? && !d.status.Downloading?)
      && d.awaited == (if d.stage.Undefined? || d.stage.Done? then 0 else 1)
      && (q.staleOrders.pending <==> q.details != {})
      && r.counter == |r.infoSent|
      && r.openSent == (if q.openOrders.inFlight then 1 else 0)
      && !(q.openOrders.inFlight && q.staleOrders.inFlight)
      && (r.counter > 0 ==> q.staleOrders.inFlight)
      && (c.marginMode.Isolated? ==> d.stage.Undefined?)
  }

  lemma FactsHold(c: Config, s: State)
    requires Reachable(c, s)
    ensures Facts(c, s)
  {
    ReachableKeeps(c, s);
  }

  // --- the connection of the drop copy ---

  lemma ConnectionIsNoted(c: Config, s: State)
    requires Reachable(c, s)
    ensures Enabled(s, SocketReady) ==>
              var t := Step(c, s, SocketReady);
              && t.rest == s.rest
              && t.drop == Drop(LoginSent, Undefined, 0, s.drop.nextCheck)
              && t.shared == s.shared.(log := Then(s.shared.log, Published(LoginSent, Undefined)))
    ensures Enabled(s, SocketDisconnected) ==>
              var t := Step(c, s, SocketDisconnected);
              && t.rest == s.rest
              && t.drop == Drop(Disconnected, Undefined, 0, s.drop.nextCheck)
              && t.shared == s.shared.(log := Then(s.shared.log, Published(Disconnected, s.drop.stage)))
  {
    FactsHold(c, s);
  }

  /** An accepted login starts the download; a refused one ends the process unless it may be retried. */
  lemma LoginIsAnswered(c: Config, s: State, accepted: bool)
    requires Reachable(c, s) && Enabled(s, AuthReply(accepted))
    ensures var t := Step(c, s, AuthReply(accepted));
            && t.rest == s.rest
            && (!accepted && c.retryLogon ==> t == s)
            && (!accepted && !c.retryLogon ==> t == s.(shared := s.shared.(fatal := LoginRefused)))
            && (accepted && c.marginMode.Isolated? ==> t.shared.fatal.IsolatedUntested?)
            && (accepted && c.marginMode.Cross? ==>
                  && t.drop == Drop(Downloading, SubscribeBalances, 1, s.drop.nextCheck)
                  && t.shared == s.shared.(log := Then(Then(s.shared.log, AuthAccepted),
                                                       Published(Downloading, SubscribeBalances))))
  {
    FactsHold(c, s);
    var q := s.shared.(log := Then(s.shared.log, AuthAccepted));
    AdvanceEarly(c, DropSide(s.drop, q));
  }

  /** A subscription reply moves the download on exactly from the stage of its topic. */
  lemma SubscriptionIsAcknowledged(c: Config, s: State, topic: Topic, from: Stage, next: Stage)
    requires Reachable(c, s) && Enabled(s, SubReply(topic))
    requires (topic, from, next) == (Account, SubscribeBalances, SubscribePositions) ||
             (topic, from, next) == (Positions, SubscribePositions, SubscribeMatchOrders) ||
             (topic, from, next) == (MatchOrders, SubscribeMatchOrders, SubscribeOrders) ||
             (topic, from, next) == (Orders, SubscribeOrders, GetOpenOrders)
    ensures var t := Step(c, s, SubReply(topic));
            var noted := Then(s.shared.log, Acked(topic));
            && t.rest == s.rest
            && (s.drop.stage != from ==> t == s.(shared := s.shared.(log := noted)))
            && (s.drop.stage == from ==>
                  && t.drop == Drop(Downloading, next, 1, s.drop.nextCheck)
                  && t.shared.log == Then(noted, Published(Downloading, next))
                  && t.shared.details == s.shared.details && t.shared.staleOrders == s.shared.staleOrders
                  && t.shared.openOrders == (if topic.Orders? then Slot(true, s.shared.openOrders.inFlight, false)
                                             else s.shared.openOrders))
  {
    FactsHold(c, s);
    if s.drop.stage == from {
      TopicMovesOn(c, DropSide(s.drop, s.shared), topic);
    }
  }

  lemma TopicMovesOn(c: Config, v: DropSide, topic: Topic)
    requires c.marginMode.Cross? && !topic.OtherTopic? && v.drop.stage == StageOf(topic) && v.drop.awaited == 1
    ensures var w := OnSub(c, v, topic);
            && w.drop == Drop(Downloading, v.drop.stage.Next(), 1, v.drop.nextCheck)
            && w.shared == v.shared.(openOrders := AskedIn(v.drop.stage.Next(), v.shared.openOrders),
                                     log := Then(Then(v.shared.log, Acked(topic)),
                                                 Published(Downloading, v.drop.stage.Next())))
  {
    AdvanceEarly(c, DropSide(v.drop.(awaited := 0), v.shared.(log := Then(v.shared.log, Acked(topic)))));
  }

  lemma OtherTopicsAreNoted(c: Config, s: State)
    requires Reachable(c, s) && Enabled(s, SubReply(OtherTopic))
    ensures Step(c, s, SubReply(OtherTopic)) == s.(shared := s.shared.(log := Then(s.shared.log, Acked(OtherTopic))))
  {
    FactsHold(c, s);
  }

  // --- the timer of the drop copy ---

  /** Without a refreshed connection, and while the download waits for something else, nothing happens. */
  lemma TimerWithoutEffect(c: Config, s: State, refreshed: bool, now: int, found: seq<Key>, periodic: seq<Key>)
    requires Reachable(c, s) && s.shared.fatal.Alive?
    requires !refreshed || s.drop.stage.Index() <= 4 ||
             (s.drop.stage.GetOpenOrders? && !s.shared.openOrders.response) ||
             (s.drop.stage.GetStaleOrders? && !s.shared.staleOrders.response)
    ensures Step(c, s, DropTimer(refreshed, now, found, periodic)) == s
  {
    FactsHold(c, s);
  }

  /** The answer to the open orders lets the scan fill the set; what is in it then is asked for. */
  lemma ScanAsksForAll(c: Config, s: State, now: int, found: seq<Key>, periodic: seq<Key>)
    requires Reachable(c, s) && s.shared.fatal.Alive?
    requires s.drop.stage.GetOpenOrders? && s.shared.openOrders.response
    requires s.shared.details + Keys(found) != {}
    ensures var t := Step(c, s, DropTimer(true, now, found, periodic));
            && t.rest == s.rest
            && t.drop == Drop(Downloading, GetStaleOrders, 1, s.drop.nextCheck)
            && (forall k :: k in t.shared.details <==> k in s.shared.details || k in found)
            && t.shared.openOrders == s.shared.openOrders
            && t.shared.staleOrders == Slot(true, s.shared.staleOrders.inFlight, false)
            && t.shared.fatal.Alive?
            && t.shared.log == Then(Then(s.shared.log, DownloadScan(Keys(found) - s.shared.details, t.shared.details)),
                                    Published(Downloading, GetStaleOrders))
  {
    FactsHold(c, s);
    var q := s.shared.(details := s.shared.details + Keys(found));
    var w := DropSide(s.drop.(awaited := 0), q.Emit(DownloadScan(Keys(found) - s.shared.details, q.details)));
    assert CheckRequestQueue(c, DropSide(s.drop, s.shared), Keys(found)) == Advance(c, w);
    AdvanceLate(c, w);
  }

  /** A commit with keys in the set ends the process. */
  lemma KeysLeftAreFatal(c: Config, s: State, now: int, found: seq<Key>, periodic: seq<Key>)
    requires Reachable(c, s) && s.shared.fatal.Alive?
    requires s.drop.stage.GetStaleOrders? && s.shared.staleOrders.response && s.shared.details != {}
    ensures Step(c, s, DropTimer(true, now, found, periodic)) == s.(shared := s.shared.(fatal := StaleKeysLeft))
  {
    FactsHold(c, s);
  }

  /** What the observer has seen when the queue check leaves the drop copy READY. */
  function SeenWhenReady(s: State): History {
    match s.drop.stage
    case GetOpenOrders => Then(Then(s.shared.log, DownloadScan({}, {})), Published(Ready, Done))
    case GetStaleOrders => Then(s.shared.log, Published(Ready, Done))
    case _ => s.shared.log
  }

  ghost predicate IsOrGetsReady(s: State, found: seq<Key>) {
    || s.drop.stage.Done?
    || (s.drop.stage.GetOpenOrders? && s.shared.openOrders.response && s.shared.details == {} && found == [])
    || (s.drop.stage.GetStaleOrders? && s.shared.staleOrders.response && s.shared.details == {})
  }

  lemma QueueGetsReady(c: Config, s: State, found: seq<Key>)
    requires s.drop.stage.Done? ==> s.drop == Drop(Ready, Done, 0, s.drop.nextCheck)
    requires !s.drop.stage.Done? ==> s.drop.awaited == 1
    requires s.shared.fatal.Alive? && c.marginMode.Cross? && IsOrGetsReady(s, found)
    ensures CheckRequestQueue(c, DropSide(s.drop, s.shared), Keys(found)) ==
            DropSide(Drop(Ready, Done, 0, s.drop.nextCheck), s.shared.(log := SeenWhenReady(s)))
  {
    var w := DropSide(s.drop.(awaited := 0), s.shared);
    if s.drop.stage.GetOpenOrders? {
      var o := DownloadScan({}, {});
      assert s.shared.details + Keys(found) == {} == Keys(found) - s.shared.details;
      var x := w.(shared := w.shared.Emit(o));
      assert CheckRequestQueue(c, DropSide(s.drop, s.shared), Keys(found)) == Advance(c, x);
      AdvanceLate(c, x);
    } else if s.drop.stage.GetStaleOrders? {
      assert CheckRequestQueue(c, DropSide(s.drop, s.shared), Keys(found)) == Advance(c, w);
      AdvanceLate(c, w);
    }
  }

  lemma ReadyScans(c: Config, v: DropSide, now: int, periodic: seq<Key>)
    requires v.drop == Drop(Ready, Done, 0, v.drop.nextCheck)
    ensures var w := CheckStaleOrders(c, v, now, Keys(periodic));
            && (now <= v.drop.nextCheck ==> w == v)
            && (now > v.drop.nextCheck ==>
                  && w.drop == Drop(Ready, Done, 0, now + c.checkStaleOrderFreq)
                  && w.shared.fatal == v.shared.fatal && w.shared.openOrders == v.shared.openOrders
                  && (forall k :: k in w.shared.details <==> k in v.shared.details || k in periodic)
                  && w.shared.log == Then(v.shared.log, PeriodicScan(Keys(periodic) - v.shared.details))
                  && w.shared.staleOrders ==
                       if forall k :: k in periodic ==> k in v.shared.details then v.shared.staleOrders
                       else Slot(true, v.shared.staleOrders.inFlight, false))
  {
    NewKeys(v.shared.details, periodic);
  }

  /** The timer that makes the drop copy READY, and any timer when it is READY, scans once the interval
      has passed since the last periodic scan, and asks for a batch exactly if a key is new. */
  lemma ReadyScansPeriodically(c: Config, s: State, now: int, found: seq<Key>, periodic: seq<Key>)
    requires Reachable(c, s) && s.shared.fatal.Alive? && IsOrGetsReady(s, found)
    ensures var t := Step(c, s, DropTimer(true, now, found, periodic));
            && t.rest == s.rest && t.shared.fatal.Alive? && t.shared.openOrders == s.shared.openOrders
            && (now <= s.drop.nextCheck ==>
                  && t.drop == Drop(Ready, Done, 0, s.drop.nextCheck)
                  && t.shared == s.shared.(log := SeenWhenReady(s)))
            && (now > s.drop.nextCheck ==>
                  && t.drop == Drop(Ready, Done, 0, now + c.checkStaleOrderFreq)
                  && (forall k :: k in t.shared.details <==> k in s.shared.details || k in periodic)
                  && t.shared.log == Then(SeenWhenReady(s), PeriodicScan(Keys(periodic) - s.shared.details))
                  && t.shared.staleOrders ==
                       if forall k :: k in periodic ==> k in s.shared.details then s.shared.staleOrders
                       else Slot(true, s.shared.staleOrders.inFlight, false))
  {
    FactsHold(c, s);
    QueueGetsReady(c, s, found);
    ReadyScans(c, CheckRequestQueue(c, DropSide(s.drop, s.shared), Keys(found)), now, periodic);
  }

  lemma NewKeys(details: set<Key>, periodic: seq<Key>)
    ensures Keys(periodic) - details == {} <==> forall k :: k in periodic ==> k in details
  {
    assert forall k :: k in Keys(periodic) <==> k in periodic;
    if Keys(periodic) - details == {} {
      forall k | k in periodic
        ensures k in details
      {
        assert k !in Keys(periodic) - details;
      }
    }
  }

  // --- the order entry ---

  /** Connects and disconnects of the HTTP client leave everything in flight in flight. */
  lemma StatusIsReadiness(c: Config, s: State, ready: bool)
    requires Reachable(c, s) && s.shared.fatal.Alive?
    ensures Step(c, s, RestStatus(ready)) == s.(rest := s.rest.(ready := ready))
  {
  }

  /** Open orders go first, from a ready stream and with no request of the account in flight. */
  lemma OpenOrdersGoFirst(c: Config, s: State, canStale: bool, known: set<Key>)
    requires Reachable(c, s) && s.shared.fatal.Alive? && s.rest.ready
    requires !s.shared.openOrders.inFlight && !s.shared.staleOrders.inFlight && s.shared.openOrders.pending
    ensures var t := Step(c, s, RestTimer(true, true, canStale, known));
            && t.drop == s.drop
            && t.rest == Rest(true, 0, 1, multiset{})
            && t.shared == s.shared.(openOrders := Slot(false, true, s.shared.openOrders.response),
                                     log := Then(s.shared.log, OpenSent))
  {
    FactsHold(c, s);
  }

  /** Otherwise, and without a batch to send, the timer does nothing. */
  lemma NothingToLaunch(c: Config, s: State, refreshed: bool, canOpen: bool, canStale: bool, known: set<Key>)
    requires Reachable(c, s) && s.shared.fatal.Alive?
    requires !refreshed || !s.rest.ready || s.shared.openOrders.inFlight || s.shared.staleOrders.inFlight ||
             (!(s.shared.openOrders.pending && canOpen) && !(s.shared.staleOrders.pending && canStale))
    ensures Step(c, s, RestTimer(refreshed, canOpen, canStale, known)) == s
  {
  }

  /** A batch asks for exactly the keys that name a known order, takes all keys out of the set, and is
      stuck exactly if it asks for nothing. */
  lemma BatchAsksForKnownOrders(c: Config, s: State, canOpen: bool, known: set<Key>)
    requires Reachable(c, s) && s.shared.fatal.Alive? && s.rest.ready
    requires !s.shared.openOrders.inFlight && !s.shared.staleOrders.inFlight
    requires s.shared.staleOrders.pending && !(s.shared.openOrders.pending && canOpen)
    ensures var t := Step(c, s, RestTimer(true, canOpen, true, known));
            && t.drop == s.drop && t.shared.fatal.Alive?
            && t.rest.infoSent == multiset(s.shared.details * known)
            && t.rest.counter == |s.shared.details * known|
            && t.rest.openSent == 0 && t.rest.ready
            && t.shared.details == {}
            && t.shared.openOrders == s.shared.openOrders
            && t.shared.staleOrders == Slot(false, true, s.shared.staleOrders.response)
            && t.shared.log == Then(s.shared.log, BatchSent(s.shared.details * known, s.shared.details - known))
            && (RecoverySessions.Stuck(t) <==> s.shared.details !! known)
  {
    FactsHold(c, s);
    assert s.rest == Rest(true, 0, 0, multiset{});
    BatchGoesOut(RestSide(s.rest, s.shared), canOpen, known);
    NoneKnown(s.shared.details, known);
  }

  lemma BatchGoesOut(v: RestSide, canOpen: bool, known: set<Key>)
    requires v.rest == Rest(true, 0, 0, multiset{})
    requires !v.shared.openOrders.inFlight && !v.shared.staleOrders.inFlight
    requires v.shared.staleOrders.pending && !(v.shared.openOrders.pending && canOpen)
    ensures var found := v.shared.details * known;
            OnRestTimer(v, true, canOpen, true, known) ==
            RestSide(Rest(true, |found|, 0, multiset(found)),
                     v.shared.(details := {}, staleOrders := Slot(false, true, v.shared.staleOrders.response),
                               log := Then(v.shared.log, BatchSent(found, v.shared.details - known))))
  {
    NoneKnown(v.shared.details, known);
  }

  lemma NoneKnown(details: set<Key>, known: set<Key>)
    ensures |details * known| == 0 <==> details !! known
    ensures multiset{} + multiset(details * known) == multiset(details * known)
  {
    assert details * known == {} <==> details !! known by {
      assert forall k :: k in details * known <==> k in details && k in known;
    }
  }

  /** Whatever becomes of the open-orders request, it is committed; only a redirection ends the process. */
  lemma OpenReplyCommits(c: Config, s: State, outcome: Outcome)
    requires Reachable(c, s) && Enabled(s, OpenReply(outcome))
    ensures var t := Step(c, s, OpenReply(outcome));
            && t.drop == s.drop
            && t.rest == Rest(s.rest.ready, 0, 0, multiset{})
            && (outcome == Redirection ==> t.shared == s.shared.(fatal := Redirected))
            && (outcome != Redirection ==>
                  t.shared == s.shared.(openOrders := Slot(s.shared.openOrders.pending, false, true),
                                        log := Then(s.shared.log, OpenCommitted)))
  {
    FactsHold(c, s);
  }

  /** An answer to an order-info request is counted, and the last one commits the batch. */
  lemma InfoReplyCounts(c: Config, s: State, key: Key, outcome: Outcome)
    requires Reachable(c, s) && Enabled(s, InfoReply(key, outcome))
    ensures var t := Step(c, s, InfoReply(key, outcome));
            var answered := Then(s.shared.log, InfoAnswered(key));
            && t.drop == s.drop && t.rest.ready == s.rest.ready && t.rest.openSent == 0
            && t.rest.infoSent == s.rest.infoSent - multiset{key}
            && (outcome == Redirection ==> t.shared == s.shared.(fatal := Redirected))
            && (outcome != Redirection ==> t.rest.counter == |s.rest.infoSent| - 1)
            && (outcome != Redirection && |s.rest.infoSent| > 1 ==> t.shared == s.shared.(log := answered))
            && (outcome != Redirection && |s.rest.infoSent| == 1 ==>
                  t.shared == s.shared.(staleOrders := Slot(s.shared.staleOrders.pending, false, true),
                                        log := Then(answered, StaleCommitted)))
  {
    FactsHold(c, s);
    TakeOne(s.rest.infoSent, key);
  }
}
