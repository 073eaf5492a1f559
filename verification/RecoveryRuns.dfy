/** What every run of the recovery protocol keeps. */
module RecoveryRuns {
  import opened Recovery
  import opened RecoveryHistory

  function MilestoneOf(stage: Stage): Milestone {
    match stage
    case Undefined => Opened
    case SubscribeBalances => LoggedIn
    case SubscribePositions => BalancesAcked
    case SubscribeMatchOrders => PositionsAcked
    case SubscribeOrders => MatchOrdersAcked
    case GetOpenOrders => OrdersAcked
    case GetStaleOrders => ScannedStale
    case Done => Opened
  }

  ghost predicate DropInv(v: DropSide) {
    var d, q := v.drop, v.shared;
    && Orderly(q.log)
    && q.details == Waiting(q.log)
    && (q.staleOrders.pending <==> q.details != {})
    && LastStage(q.log) <= d.stage.Index()
    && (q.fatal.Alive? ==>
          && (d.stage.Done? <==> d.status.Ready?)
          && (d.stage.Undefined? <==> !d.status.Ready? && !d.status.Downloading?)
          && d.awaited == (if d.stage.Undefined? || d.stage.Done? then 0 else 1)
          && Reached(MilestoneOf(d.stage), q.log)
          && (d.stage.GetOpenOrders? && q.openOrders.response ==> Reached(OpenAnswered, q.log))
          && (d.stage.GetStaleOrders? && q.staleOrders.response ==> Reached(StaleAnswered, q.log)))
  }

  function WireNow(v: RestSide): Wire {
    if v.shared.openOrders.inFlight then OpenFlight
    else if !v.shared.staleOrders.inFlight then Idle
    else if v.rest.counter == 0 then Stuck
    else Batch(v.rest.infoSent)
  }

  ghost predicate RestInv(v: RestSide) {
    && !WireOf(v.shared.log).Bad?
    && (v.shared.fatal.Alive? ==>
          && v.rest.counter == |v.rest.infoSent|
          && v.rest.openSent == (if v.shared.openOrders.inFlight then 1 else 0)
          && !(v.shared.openOrders.inFlight && v.shared.staleOrders.inFlight)
          && (v.rest.counter > 0 ==> v.shared.staleOrders.inFlight)
          && WireOf(v.shared.log) == WireNow(v))
    && !v.shared.fatal.UnexpectedAck?
  }

  ghost predicate Inv(s: State) {
    DropInv(DropSide(s.drop, s.shared)) && RestInv(RestSide(s.rest, s.shared))
  }

  /** What the drop copy leaves to the order entry. */
  ghost predicate SameTraffic(q: Shared, r: Shared) {
    && q.openOrders.inFlight == r.openOrders.inFlight
    && q.staleOrders.inFlight == r.staleOrders.inFlight
    && WireOf(q.log) == WireOf(r.log)
  }

  ghost predicate Quiet(q: Shared) { !WireOf(q.log).Closing? && !WireOf(q.log).Bad? && q.fatal.Alive? }

  /** Entering the open-orders stage asks for the open orders. */
  function AskedIn(entered: Stage, openOrders: Slot): Slot {
    if entered.GetOpenOrders? then openOrders.Ask() else openOrders
  }

  /** Up to the open-orders stage, the download enters exactly the next stage and waits there. */
  lemma AdvanceEarly(c: Config, v: DropSide)
    requires v.drop.stage.Index() <= 4
    ensures c.marginMode.Isolated? ==>
              Advance(c, v) == DropSide(v.drop.(stage := v.drop.stage.Next()), v.shared.(fatal := IsolatedUntested))
    ensures c.marginMode.Cross? ==>
              && Advance(c, v).drop == Drop(Downloading, v.drop.stage.Next(), 1, v.drop.nextCheck)
              && Advance(c, v).shared == v.shared.Emit(Published(Downloading, v.drop.stage.Next()))
                                         .(openOrders := AskedIn(v.drop.stage.Next(), v.shared.openOrders))
  {
  }

  /** From the open-orders stage on, it stops for stale orders exactly if there are any. */
  lemma AdvanceLate(c: Config, v: DropSide)
    requires v.drop.stage.GetOpenOrders? || v.drop.stage.GetStaleOrders?
    requires c.marginMode.Cross? && v.shared.fatal.Alive?
    ensures v.drop.stage.GetStaleOrders? || v.shared.details == {} ==>
              Advance(c, v) == AtDone(v)
    ensures v.drop.stage.GetOpenOrders? && v.shared.details != {} ==>
              Advance(c, v) == AtStale(v)
    decreases 7 - v.drop.stage.Index()
  {
    if v.drop.stage.GetOpenOrders? && v.shared.details == {} {
      var w := v.(drop := v.drop.(stage := GetStaleOrders, awaited := 0));
      assert Callback(c, v.(drop := v.drop.(stage := GetStaleOrders))) == w;
      assert Advance(c, v) == Advance(c, w);
      AdvanceLate(c, w);
    }
  }

  /** The part of the invariant that holds in the middle of a handler, too. */
  ghost predicate Between(v: DropSide) {
    && Quiet(v.shared)
    && Orderly(v.shared.log)
    && v.shared.details == Waiting(v.shared.log)
    && LastStage(v.shared.log) <= v.drop.stage.Index()
  }

  ghost predicate Kept(q: Shared, v: DropSide) {
    DropInv(v) && SameTraffic(q, v.shared) && !v.shared.fatal.UnexpectedAck?
  }

  lemma EarlyKeeps(c: Config, v: DropSide)
    requires Between(v) && v.drop.stage.Index() <= 4
    requires v.shared.staleOrders.pending <==> v.shared.details != {}
    requires Reached(MilestoneOf(v.drop.stage.Next()), v.shared.log)
    ensures Kept(v.shared, Advance(c, v))
  {
    AdvanceEarly(c, v);
  }

  /** The two stops of `AdvanceLate`. */
  function AtDone(v: DropSide): DropSide {
    DropSide(Drop(Ready, Done, 0, v.drop.nextCheck), v.shared.Emit(Published(Ready, Done)))
  }

  function AtStale(v: DropSide): DropSide {
    DropSide(Drop(Downloading, GetStaleOrders, 1, v.drop.nextCheck),
             v.shared.Emit(Published(Downloading, GetStaleOrders)).(staleOrders := v.shared.staleOrders.Ask()))
  }

  lemma DoneKeeps(v: DropSide)
    requires Between(v) && v.drop.stage.Index() < 7
    requires v.shared.details == {} && !v.shared.staleOrders.pending && Recovered(v.shared.log)
    ensures Kept(v.shared, AtDone(v))
  {
  }

  lemma StaleKeeps(v: DropSide)
    requires Between(v) && v.drop.stage.Index() < 6
    requires v.shared.details != {} && Reached(ScannedStale, v.shared.log)
    ensures Kept(v.shared, AtStale(v))
  {
  }

  lemma LateKeeps(c: Config, v: DropSide)
    requires Between(v) && (v.drop.stage.GetOpenOrders? || v.drop.stage.GetStaleOrders?) && c.marginMode.Cross?
    requires v.drop.stage.GetStaleOrders? ==> v.shared.details == {}
    requires v.shared.details == {} ==> !v.shared.staleOrders.pending
    requires Reached(if v.drop.stage.GetStaleOrders? then StaleAnswered
                     else if v.shared.details == {} then ScannedClean else ScannedStale, v.shared.log)
    ensures Kept(v.shared, Advance(c, v))
  {
    AdvanceLate(c, v);
    if v.shared.details == {} {
      DoneKeeps(v);
    } else {
      StaleKeeps(v);
    }
  }

  predicate IsNote(o: Obs) { o.AuthAccepted? || o.Acked? }

  /** A login or subscription reply noted in the history is a milestone if its turn has come. */
  lemma NoteReaches(m: Milestone, next: Milestone, h: History, o: Obs)
    requires Reached(m, h) && !Ends(o)
    ensures Reached(m, Then(h, o))
    ensures next.Previous() == m && next.Matches(o) ==> Reached(next, Then(h, o))
  {
  }

  lemma NoteBetween(v: DropSide, o: Obs)
    requires Between(v) && IsNote(o)
    ensures Between(v.(shared := v.shared.Emit(o)))
  {
  }

  lemma NoteKeeps(v: DropSide, o: Obs)
    requires DropInv(v) && Quiet(v.shared) && IsNote(o)
    ensures Kept(v.shared, v.(shared := v.shared.Emit(o))) && Between(v.(shared := v.shared.Emit(o)))
  {
    NoteBetween(v, o);
    NoteReaches(MilestoneOf(v.drop.stage), Opened, v.shared.log, o);
    if v.drop.stage.GetOpenOrders? && v.shared.openOrders.response {
      NoteReaches(OpenAnswered, Opened, v.shared.log, o);
    }
    if v.drop.stage.GetStaleOrders? && v.shared.staleOrders.response {
      NoteReaches(StaleAnswered, Opened, v.shared.log, o);
    }
  }

  lemma LoginKeeps(c: Config, v: DropSide, accepted: bool)
    requires DropInv(v) && Quiet(v.shared) && v.drop.status.LoginSent?
    ensures Kept(v.shared, OnAuth(c, v, accepted))
  {
    NoteKeeps(v, AuthAccepted);
    if accepted {
      NoteReaches(Opened, LoggedIn, v.shared.log, AuthAccepted);
      EarlyKeeps(c, v.(shared := v.shared.Emit(AuthAccepted)));
    }
  }

  lemma SubKeeps(c: Config, v: DropSide, topic: Topic)
    requires DropInv(v) && Quiet(v.shared)
    ensures Kept(v.shared, OnSub(c, v, topic))
  {
    NoteKeeps(v, Acked(topic));
    if !topic.OtherTopic? && StageOf(topic) == v.drop.stage {
      NoteReaches(MilestoneOf(v.drop.stage), MilestoneOf(v.drop.stage.Next()), v.shared.log, Acked(topic));
      var x := DropSide(v.drop.(awaited := 0), v.shared.Emit(Acked(topic)));
      assert OnSub(c, v, topic) == Advance(c, x);
      EarlyKeeps(c, x);
    }
  }

  lemma AddNew(before: set<Key>, found: set<Key>)
    ensures (before - {}) + (found - before) == before + found
  {
  }

  lemma ScanKeeps(v: DropSide, found: set<Key>, o: Obs)
    requires DropInv(v) && Quiet(v.shared) && v.drop.stage.GetOpenOrders? && v.shared.openOrders.response
    requires o == DownloadScan(found - v.shared.details, v.shared.details + found)
    ensures var q := v.shared.(details := v.shared.details + found).Emit(o);
            && Between(DropSide(v.drop.(awaited := 0), q)) && SameTraffic(v.shared, q)
            && Reached(if q.details == {} then ScannedClean else ScannedStale, q.log)
  {
    ScanWaits(v.shared.log, v.shared.details, found);
    ScanIsReached(v.shared.log, found - v.shared.details, v.shared.details + found);
  }

  lemma ScanWaits(h: History, details: set<Key>, found: set<Key>)
    requires Waiting(h) == details
    ensures Waiting(Then(h, DownloadScan(found - details, details + found))) == details + found
  {
    AddNew(details, found);
  }

  lemma ScanIsReached(h: History, added: set<Key>, total: set<Key>)
    requires Reached(OpenAnswered, h)
    ensures Reached(if total == {} then ScannedClean else ScannedStale, Then(h, DownloadScan(added, total)))
  {
  }

  lemma OpenQueueKeeps(c: Config, v: DropSide, found: set<Key>)
    requires DropInv(v) && Quiet(v.shared) && c.marginMode.Cross?
    requires v.drop.stage.GetOpenOrders? && v.shared.openOrders.response
    ensures Kept(v.shared, CheckRequestQueue(c, v, found))
  {
    var o := DownloadScan(found - v.shared.details, v.shared.details + found);
    var w := DropSide(v.drop.(awaited := 0), v.shared.(details := v.shared.details + found).Emit(o));
    ScanKeeps(v, found, o);
    LateKeeps(c, w);
    assert CheckRequestQueue(c, v, found) == Advance(c, w);
  }

  lemma StaleQueueKeeps(c: Config, v: DropSide, found: set<Key>)
    requires DropInv(v) && Quiet(v.shared) && c.marginMode.Cross?
    requires v.drop.stage.GetStaleOrders? && v.shared.staleOrders.response && v.shared.details == {}
    ensures Kept(v.shared, CheckRequestQueue(c, v, found))
  {
    var w := v.(drop := v.drop.(awaited := 0));
    LateKeeps(c, w);
    assert CheckRequestQueue(c, v, found) == Advance(c, w);
  }

  lemma QueueKeeps(c: Config, v: DropSide, found: set<Key>)
    requires DropInv(v) && Quiet(v.shared) && c.marginMode.Cross?
    ensures Kept(v.shared, CheckRequestQueue(c, v, found))
  {
    if v.drop.stage.GetOpenOrders? && v.shared.openOrders.response {
      OpenQueueKeeps(c, v, found);
    } else if v.drop.stage.GetStaleOrders? && v.shared.staleOrders.response && v.shared.details == {} {
      StaleQueueKeeps(c, v, found);
    }
  }

  lemma PeriodicKeeps(c: Config, v: DropSide, now: int, found: set<Key>)
    requires DropInv(v) && Quiet(v.shared) && v.drop.status.Ready?
    ensures DropInv(CheckStaleOrders(c, v, now, found)) &&
      SameTraffic(v.shared, CheckStaleOrders(c, v, now, found).shared)
    ensures CheckStaleOrders(c, v, now, found).shared.fatal.Alive?
  {
    AddNew(v.shared.details, found);
  }

  lemma ConnectionKeeps(v: DropSide)
    requires DropInv(v) && Quiet(v.shared)
    ensures Kept(v.shared, OnSocketDisconnected(v)) && OnSocketDisconnected(v).shared.fatal.Alive?
    ensures v.drop.stage.Undefined? ==> Kept(v.shared, OnSocketReady(v)) && OnSocketReady(v).shared.fatal.Alive?
  {
  }

  /** HTTP traffic is no setback for the download, and its answers are the milestones it waits for. */
  lemma TrafficKeepsDrop(v: DropSide, o: Obs)
    requires DropInv(v) && v.shared.fatal.Alive?
    requires o.OpenSent? || o.OpenCommitted? || o.InfoAnswered? || o.StaleCommitted?
    ensures DropInv(v.(shared := v.shared.Emit(o)))
    ensures o.OpenCommitted? && v.drop.stage.GetOpenOrders? ==> Reached(OpenAnswered, Then(v.shared.log, o))
    ensures o.StaleCommitted? && v.drop.stage.GetStaleOrders? ==> Reached(StaleAnswered, Then(v.shared.log, o))
  {
  }

  lemma BatchWaits(h: History, details: set<Key>, known: set<Key>)
    requires Waiting(h) == details && Orderly(h)
    ensures var o := BatchSent(details * known, details - known);
            Waiting(Then(h, o)) == {} && Orderly(Then(h, o))
  {
    var found, lost := details * known, details - known;
    assert found + lost == details && found !! lost;
    assert details - (found + lost) + {} == {};
  }

  lemma BatchKeepsDrop(v: DropSide, known: set<Key>)
    requires DropInv(v) && v.shared.fatal.Alive?
    ensures DropInv(DropSide(v.drop, LaunchStaleOrders(RestSide(Rest(true, 0, 0, multiset{}), v.shared), known).shared))
  {
    var h, o := v.shared.log, BatchSent(v.shared.details * known, v.shared.details - known);
    BatchWaits(h, v.shared.details, known);
    NoteReaches(MilestoneOf(v.drop.stage), Opened, h, o);
    if v.drop.stage.GetOpenOrders? && v.shared.openOrders.response {
      NoteReaches(OpenAnswered, Opened, h, o);
    }
    if v.drop.stage.GetStaleOrders? && v.shared.staleOrders.response {
      NoteReaches(StaleAnswered, Opened, h, o);
    }
  }

  lemma BatchKeepsRest(v: RestSide, known: set<Key>)
    requires RestInv(v) && v.shared.fatal.Alive? && v.shared.CanLaunch()
    ensures RestInv(LaunchStaleOrders(v, known))
  {
    var found := v.shared.details * known;
    assert v.rest.infoSent == multiset{};
    assert multiset{} + multiset(found) == multiset(found);
    assert found != {} <==> |found| > 0;
  }

  lemma InfoReplyKeeps(s: State, key: Key, outcome: Outcome)
    requires Inv(s) && s.shared.fatal.Alive? && key in s.rest.infoSent
    ensures Inv(WithRest(s, OnInfoReply(RestSide(s.rest, s.shared), key, outcome)))
  {
    if !outcome.Redirection? {
      var v := DropSide(s.drop, s.shared);
      var w := v.(shared := v.shared.Emit(InfoAnswered(key)));
      TrafficKeepsDrop(v, InfoAnswered(key));
      TrafficKeepsDrop(w, StaleCommitted);
      InfoReplyKeepsRest(RestSide(s.rest, s.shared), key, outcome);
    }
  }

  lemma TakeOne(sent: multiset<Key>, key: Key)
    requires key in sent
    ensures |sent - multiset{key}| == |sent| - 1
    ensures |sent| == 1 <==> sent - multiset{key} == multiset{}
  {
    assert sent == (sent - multiset{key}) + multiset{key};
  }

  lemma InfoReplyKeepsRest(v: RestSide, key: Key, outcome: Outcome)
    requires RestInv(v) && v.shared.fatal.Alive? && key in v.rest.infoSent && !outcome.Redirection?
    ensures RestInv(OnInfoReply(v, key, outcome)) && v.rest.counter > 0
  {
    TakeOne(v.rest.infoSent, key);
    assert WireOf(v.shared.log) == Batch(v.rest.infoSent);
  }

  /** An account that is not in cross margin never gets past the login. */
  ghost predicate LoginOnly(c: Config, s: State) {
    c.marginMode.Isolated? && s.shared.fatal.Alive? ==> s.drop.stage.Undefined?
  }

  lemma DropTimerKeeps(c: Config, s: State, refreshed: bool, now: int, found: set<Key>, periodic: set<Key>)
    requires Inv(s) && s.shared.fatal.Alive? && c.marginMode.Cross?
    ensures Inv(WithDrop(s, OnDropTimer(c, DropSide(s.drop, s.shared), refreshed, now, found, periodic)))
  {
    var d := DropSide(s.drop, s.shared);
    var w := CheckRequestQueue(c, d, found);
    QueueKeeps(c, d, found);
    if w.shared.fatal.Alive? && w.drop.status.Ready? {
      PeriodicKeeps(c, w, now, periodic);
    }
  }

  lemma RestTimerKeeps(s: State, refreshed: bool, canOpen: bool, canStale: bool, known: set<Key>)
    requires Inv(s) && s.shared.fatal.Alive?
    ensures Inv(WithRest(s, OnRestTimer(RestSide(s.rest, s.shared), refreshed, canOpen, canStale, known)))
  {
    var v := RestSide(s.rest, s.shared);
    if refreshed && s.rest.ready && s.shared.CanLaunch() {
      if s.shared.openOrders.pending && canOpen {
        TrafficKeepsDrop(DropSide(s.drop, s.shared), OpenSent);
        assert OnRestTimer(v, refreshed, canOpen, canStale, known) == LaunchOpenOrders(v);
      } else {
        BatchKeepsDrop(DropSide(s.drop, s.shared), known);
        BatchKeepsRest(v, known);
      }
    }
  }

  lemma StepKeeps(c: Config, s: State, e: Event)
    requires Inv(s) && LoginOnly(c, s) && Enabled(s, e)
    ensures Inv(Step(c, s, e)) && LoginOnly(c, Step(c, s, e))
  {
    var d := DropSide(s.drop, s.shared);
    match e
    case SocketReady => ConnectionKeeps(d);
    case SocketDisconnected => ConnectionKeeps(d);
    case AuthReply(accepted) => LoginKeeps(c, d, accepted);
    case SubReply(topic) => SubKeeps(c, d, topic);
    case DropTimer(refreshed, now, found, periodic) =>
      if c.marginMode.Cross? {
        DropTimerKeeps(c, s, refreshed, now, Keys(found), Keys(periodic));
      }
    case RestStatus(_) =>
    case RestTimer(refreshed, canOpen, canStale, known) => RestTimerKeeps(s, refreshed, canOpen, canStale, known);
    case OpenReply(outcome) => TrafficKeepsDrop(d, OpenCommitted);
    case InfoReply(key, outcome) => InfoReplyKeeps(s, key, outcome);
  }

  /** The main invariant, over every interleaving of every event. */
  lemma {:induction false} RunKeeps(c: Config, es: seq<Event>)
    requires ValidRun(c, Init(), es)
    ensures Inv(Run(c, Init(), es)) && LoginOnly(c, Run(c, Init(), es))
  {
    if es != [] {
      var before := es[..|es| - 1];
      RunKeeps(c, before);
      StepKeeps(c, Run(c, Init(), before), es[|es| - 1]);
    }
  }

  // --- the main results ---

  /** Some run from the start ends here. */
  ghost predicate Reachable(c: Config, s: State) {
    exists es :: ValidRun(c, Init(), es) && Run(c, Init(), es) == s
  }

  lemma ReachableKeeps(c: Config, s: State)
    requires Reachable(c, s)
    ensures Inv(s) && LoginOnly(c, s)
  {
    var es :| ValidRun(c, Init(), es) && Run(c, Init(), es) == s;
    RunKeeps(c, es);
  }

  /** The counter is the number of order-info requests without an answer, so an answer always
      finds it above zero: the fatal branch of the reply handler is unreachable. */
  lemma CounterIsOutstanding(c: Config, s: State)
    requires Reachable(c, s)
    ensures !s.shared.fatal.UnexpectedAck?
    ensures s.shared.fatal.Alive? ==> s.rest.counter == |s.rest.infoSent|
  {
    ReachableKeeps(c, s);
  }

  /** A key that a scan ever added is in the set unless a later batch has taken it; while there are
      keys, a batch is pending, and a batch takes all of them. */
  lemma NoStaleOrderLost(c: Config, s: State, k: Key)
    requires Reachable(c, s)
    ensures k in s.shared.details <==> EverAdded(s.shared.log, k) && !HandedSince(s.shared.log, k)
    ensures s.shared.details != {} <==> s.shared.staleOrders.pending
    ensures Orderly(s.shared.log)
  {
    ReachableKeeps(c, s);
    AddedWaitsOrHanded(s.shared.log, k);
  }

  /** The stale orders are committed right after the last answer of a batch that found at least one
      order, and never otherwise. */
  lemma CommitsAreExact(c: Config, s: State)
    requires Reachable(c, s)
    ensures CommitsExact(s.shared.log)
  {
    ReachableKeeps(c, s);
    WireMeansExactCommits(s.shared.log);
  }

  /** The last answer of a batch commits it, whatever the answer says; an earlier one does not. */
  lemma LastAnswerCommits(c: Config, s: State, k: Key, outcome: Outcome)
    requires Reachable(c, s) && Enabled(s, InfoReply(k, outcome)) && !outcome.Redirection?
    ensures var t := Step(c, s, InfoReply(k, outcome));
            && t.shared.fatal.Alive?
            && (var answered := Then(s.shared.log, InfoAnswered(k));
                t.shared.log == if |s.rest.infoSent| == 1 then Then(answered, StaleCommitted) else answered)
            && (t.shared.staleOrders.inFlight <==> |s.rest.infoSent| > 1)
            && (|s.rest.infoSent| == 1 ==> t.shared.staleOrders.response)
  {
    ReachableKeeps(c, s);
  }

  /** Requests of the two kinds are never in flight together, and the traffic follows `Wire`. */
  lemma TrafficIsOrderly(c: Config, s: State)
    requires Reachable(c, s)
    ensures !WireOf(s.shared.log).Bad?
    ensures s.shared.fatal.Alive? ==>
              && !(s.rest.openSent > 0 && |s.rest.infoSent| > 0)
              && s.rest.openSent <= 1
              && (WireOf(s.shared.log).Idle? <==> s.shared.CanLaunch())
  {
    ReachableKeeps(c, s);
  }

  /** READY is published only when the session has logged in, had its four subscriptions
      acknowledged and its open orders answered, in this order, and then found no stale key or had a
      batch committed; within a session the published stages strictly rise. */
  lemma ReadyOnlyWhenRecovered(c: Config, s: State)
    requires Reachable(c, s)
    ensures Orderly(s.shared.log)
    ensures s.shared.fatal.Alive? ==> (s.drop.status.Ready? <==> s.drop.stage.Done?)
  {
    ReachableKeeps(c, s);
  }
}
