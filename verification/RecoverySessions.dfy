/** One session of the drop copy, from the login that was sent to the next disconnect: what the
    state at login decides about the rest of the session. Each condition is exact. */
module RecoverySessions {
  import opened Recovery
  import opened RecoveryHistory
  import opened RecoveryRuns

  /** A state a session starts from. */
  ghost predicate AtLogin(s: State) { Inv(s) && s.shared.fatal.Alive? && s.drop.status.LoginSent? }

  ghost predicate InSession(es: seq<Event>) { forall i :: 0 <= i < |es| ==> !es[i].SocketDisconnected? }

  /** The session can get from `s` to `t`. */
  ghost predicate Leads(c: Config, s: State, es: seq<Event>, t: State) {
    InSession(es) && Arrives(c, s, es, t)
  }

  ghost predicate Arrives(c: Config, s: State, es: seq<Event>, t: State) {
    ValidRun(c, s, es) && Run(c, s, es) == t
  }

  /** A batch in which no key named a known order: it is in flight and nobody will answer it. */
  ghost predicate Stuck(s: State) { s.shared.staleOrders.inFlight && s.rest.counter == 0 }

  // --- safety: what no run of the session can do ---

  /** No key waits before the open orders are in, and none is left behind afterwards. */
  ghost predicate StaleInStep(s: State) {
    var d, q := s.drop, s.shared;
    && !q.fatal.StaleKeysLeft?
    && (d.stage.Index() <= 5 ==> !q.staleOrders.pending)
    && (d.stage.GetOpenOrders? && (q.openOrders.inFlight || q.openOrders.response) ==> !q.staleOrders.inFlight)
    && (d.stage.GetStaleOrders? && q.staleOrders.pending ==> !q.staleOrders.inFlight && !q.staleOrders.response)
  }

  /** The open orders the download accepts were requested after it had asked for them. */
  ghost predicate OpenInStep(s: State) {
    var d, q := s.drop, s.shared;
    && (d.stage.Index() <= 4 ==> !q.openOrders.pending && !q.openOrders.inFlight)
    && (d.stage.GetOpenOrders? && q.openOrders.pending ==> !q.openOrders.inFlight && !q.openOrders.response)
    && (d.stage.GetOpenOrders? && !q.openOrders.pending ==> SentSinceAsked(q.log))
    && (d.stage.Index() >= 6 ==> SentSinceAsked(q.log))
  }

  /** A batch the download accepts was sent after its scan; read together with `StaleInStep`. */
  ghost predicate StaleCurrent(s: State) {
    var d, q := s.drop, s.shared;
    && (d.stage.GetStaleOrders? && !q.staleOrders.pending ==> BatchSentSinceScan(q.log))
    && (d.stage.GetStaleOrders? && q.staleOrders.response ==> ScanSettled(q.log))
    && (d.stage.Done? ==> ScanSettled(q.log))
  }

  /** The open-orders request cannot be launched, so the download cannot get past it. */
  ghost predicate StuckBeforeOpen(s: State) {
    && Stuck(s)
    && !s.shared.fatal.StaleKeysLeft?
    && s.drop.stage.Index() <= 5
    && (s.drop.stage.GetOpenOrders? ==> !s.shared.openOrders.response)
  }

  /** What a login or subscription reply can do before the open-orders stage. */
  lemma EarlyStages(c: Config, s: State, e: Event)
    requires Inv(s) && c.marginMode.Cross? && Enabled(s, e) && s.drop.stage.Index() <= 4
    requires e.AuthReply? || e.SubReply?
    ensures var t := Step(c, s, e);
            && t.rest == s.rest && t.shared.staleOrders == s.shared.staleOrders && t.shared.details == s.shared.details
            && !t.shared.fatal.StaleKeysLeft?
            && if t.drop.stage == s.drop.stage then
                 && t.shared.openOrders == s.shared.openOrders
                 && SentSinceAsked(t.shared.log) == SentSinceAsked(s.shared.log)
               else
                 && t.drop.stage == s.drop.stage.Next()
                 && t.shared.openOrders == AskedIn(t.drop.stage, s.shared.openOrders)
  {
    var d := DropSide(s.drop, s.shared);
    match e
    case AuthReply(accepted) =>
      AdvanceEarly(c, d.(shared := d.shared.Emit(AuthAccepted)));
    case SubReply(topic) =>
      AdvanceEarly(c, DropSide(d.drop.(awaited := 0), d.shared.Emit(Acked(topic))));
  }

  /** What the replies to subscriptions can do from then on: nothing. */
  lemma LateReplies(c: Config, s: State, topic: Topic)
    requires Enabled(s, SubReply(topic)) && s.drop.stage.Index() >= 5
    ensures Step(c, s, SubReply(topic)) == s.(shared := s.shared.Emit(Acked(topic)))
    ensures SentSinceAsked(Step(c, s, SubReply(topic)).shared.log) == SentSinceAsked(s.shared.log)
    ensures SameStale(s.shared.log, Step(c, s, SubReply(topic)).shared.log)
  {
  }

  ghost predicate SameOpen(s: State, t: State) {
    && t.rest == s.rest
    && t.shared.openOrders == s.shared.openOrders
    && SentSinceAsked(t.shared.log) == SentSinceAsked(s.shared.log)
  }

  ghost predicate SameStale(h: History, k: History) {
    BatchSentSinceScan(k) == BatchSentSinceScan(h) && ScanSettled(k) == ScanSettled(h)
  }

  /** What the queue check does in the open-orders stage with an answer: it leaves with the keys found. */
  ghost predicate OpenQueued(q: Shared, found: set<Key>, w: DropSide) {
    && w.shared.fatal.Alive?
    && w.shared.details == q.details + found
    && ScanSettled(w.shared.log) == (w.shared.details == {})
    && !BatchSentSinceScan(w.shared.log)
    && if w.shared.details == {} then
         w.drop.stage.Done? && w.drop.status.Ready? && w.shared.staleOrders == q.staleOrders
       else
         w.drop.stage.GetStaleOrders? && w.drop.status.Downloading? && w.shared.staleOrders == q.staleOrders.Ask()
  }

  /** And in the stale-orders stage: it leaves, unless keys wait. */
  ghost predicate StaleQueued(q: Shared, w: DropSide) {
    && w.shared.staleOrders == q.staleOrders
    && w.shared.details == q.details
    && if q.details == {} then
         && w.drop.stage.Done? && w.drop.status.Ready? && w.shared.fatal.Alive?
         && w.shared.log == Then(q.log, Published(Ready, Done))
       else
         w.shared.fatal.StaleKeysLeft? && w.shared.log == q.log
  }

  lemma OpenQueueStages(c: Config, s: State, found: set<Key>)
    requires c.marginMode.Cross? && s.shared.fatal.Alive? && s.drop.awaited == 1
    requires s.drop.stage.GetOpenOrders? && s.shared.openOrders.response
    ensures var w := CheckRequestQueue(c, DropSide(s.drop, s.shared), found);
            SameOpen(s, WithDrop(s, w)) && OpenQueued(s.shared, found, w)
  {
    var d := DropSide(s.drop, s.shared);
    var q := s.shared.(details := s.shared.details + found);
    var w := DropSide(s.drop.(awaited := 0), q.Emit(DownloadScan(found - s.shared.details, q.details)));
    assert CheckRequestQueue(c, d, found) == Advance(c, w);
    AdvanceLate(c, w);
  }

  lemma StaleQueueStages(c: Config, s: State, found: set<Key>)
    requires c.marginMode.Cross? && s.shared.fatal.Alive? && s.drop.awaited == 1
    requires s.drop.stage.GetStaleOrders? && s.shared.staleOrders.response
    ensures var w := CheckRequestQueue(c, DropSide(s.drop, s.shared), found);
            SameOpen(s, WithDrop(s, w)) && StaleQueued(s.shared, w)
  {
    if s.shared.details == {} {
      var w := DropSide(s.drop.(awaited := 0), s.shared);
      assert CheckRequestQueue(c, DropSide(s.drop, s.shared), found) == Advance(c, w);
      AdvanceLate(c, w);
    }
  }

  /** The queue check: leave the open-orders stage with the keys found, or the stale-orders stage with none. */
  lemma QueueStages(c: Config, s: State, found: set<Key>)
    requires Inv(s) && c.marginMode.Cross? && s.shared.fatal.Alive?
    ensures var d := DropSide(s.drop, s.shared);
            var w := CheckRequestQueue(c, d, found);
            && SameOpen(s, WithDrop(s, w))
            && if s.drop.stage.GetOpenOrders? && s.shared.openOrders.response then OpenQueued(s.shared, found, w)
               else if s.drop.stage.GetStaleOrders? && s.shared.staleOrders.response then StaleQueued(s.shared, w)
               else w == d
  {
    if s.drop.stage.GetOpenOrders? && s.shared.openOrders.response {
      OpenQueueStages(c, s, found);
    } else if s.drop.stage.GetStaleOrders? && s.shared.staleOrders.response {
      StaleQueueStages(c, s, found);
    }
  }

  lemma PeriodicStages(c: Config, s: State, now: int, found: set<Key>)
    ensures var w := CheckStaleOrders(c, DropSide(s.drop, s.shared), now, found);
            && SameOpen(s, WithDrop(s, w)) && SameStale(s.shared.log, w.shared.log)
            && w.drop.stage == s.drop.stage && w.drop.status == s.drop.status && w.shared.fatal == s.shared.fatal
            && w.shared.staleOrders.inFlight == s.shared.staleOrders.inFlight
  {
  }

  // What the HTTP side can do to the two requests.

  predicate IsHttp(e: Event) { e.RestStatus? || e.RestTimer? || e.OpenReply? || e.InfoReply? }

  ghost predicate OpenMoved(q: Shared, r: Shared) {
    || r.openOrders == q.openOrders
    || (q.openOrders.pending && q.CanLaunch() && r.openOrders == q.openOrders.Launch())
    || (q.openOrders.inFlight && r.openOrders == q.openOrders.Commit())
  }

  ghost predicate StaleMoved(q: Shared, counter: nat, r: Shared) {
    || r.staleOrders == q.staleOrders
    || (q.staleOrders.pending && q.CanLaunch() && r.staleOrders == q.staleOrders.Launch() && !r.openOrders.inFlight)
    || (q.staleOrders.inFlight && r.staleOrders == q.staleOrders.Commit() && counter > 0)
  }

  /** What these moves leave in the history. */
  ghost predicate TrafficNoted(q: Shared, r: Shared) {
    && SentSinceAsked(r.log) == (SentSinceAsked(q.log) || (r.openOrders != q.openOrders && r.openOrders.inFlight))
    && BatchSentSinceScan(r.log) ==
         (BatchSentSinceScan(q.log) || (r.staleOrders.inFlight && !q.staleOrders.inFlight))
    && ScanSettled(r.log) ==
         (ScanSettled(q.log) || (q.staleOrders.inFlight && !r.staleOrders.inFlight && BatchSentSinceScan(q.log)))
  }

  ghost predicate Traffic(s: State, t: State) {
    && t.drop == s.drop
    && !t.shared.fatal.StaleKeysLeft?
    && OpenMoved(s.shared, t.shared)
    && StaleMoved(s.shared, s.rest.counter, t.shared)
    && TrafficNoted(s.shared, t.shared)
    && (Stuck(s) ==> Stuck(t) && t.shared.openOrders == s.shared.openOrders)
  }

  lemma LaunchStaleStages(s: State, known: set<Key>)
    requires s.shared.fatal.Alive? && s.shared.staleOrders.pending && s.shared.CanLaunch()
    ensures Traffic(s, WithRest(s, LaunchStaleOrders(RestSide(s.rest, s.shared), known)))
  {
  }

  lemma RestTimerStages(s: State, refreshed: bool, canOpen: bool, canStale: bool, known: set<Key>)
    requires s.shared.fatal.Alive?
    ensures Traffic(s, WithRest(s, OnRestTimer(RestSide(s.rest, s.shared), refreshed, canOpen, canStale, known)))
  {
    var v := RestSide(s.rest, s.shared);
    if refreshed && s.rest.ready {
      if s.shared.openOrders.pending && s.shared.CanLaunch() && canOpen {
        assert OnRestTimer(v, refreshed, canOpen, canStale, known) == LaunchOpenOrders(v);
      } else if s.shared.staleOrders.pending && s.shared.CanLaunch() && canStale {
        LaunchStaleStages(s, known);
      }
    }
  }

  lemma AnswerNoted(h: History, key: Key)
    ensures var k := Then(h, InfoAnswered(key));
            SentSinceAsked(k) == SentSinceAsked(h) && SameStale(h, k)
    ensures var k := Then(Then(h, InfoAnswered(key)), StaleCommitted);
            && SentSinceAsked(k) == SentSinceAsked(h)
            && BatchSentSinceScan(k) == BatchSentSinceScan(h)
            && ScanSettled(k) == (ScanSettled(h) || BatchSentSinceScan(h))
  {
  }

  /** An answer counts down, and the last one commits. */
  lemma InfoReplyMoves(v: RestSide, key: Key, outcome: Outcome)
    requires v.rest.counter > 0 && v.shared.staleOrders.inFlight && !outcome.Redirection?
    ensures var w := OnInfoReply(v, key, outcome);
            && w.shared.fatal == v.shared.fatal && w.shared.openOrders == v.shared.openOrders
            && w.rest.counter == v.rest.counter - 1
            && if w.rest.counter == 0 then
                 && w.shared.staleOrders == v.shared.staleOrders.Commit()
                 && w.shared.log == Then(Then(v.shared.log, InfoAnswered(key)), StaleCommitted)
               else
                 w.shared.staleOrders == v.shared.staleOrders && w.shared.log == Then(v.shared.log, InfoAnswered(key))
  {
  }

  lemma InfoReplyStages(s: State, key: Key, outcome: Outcome)
    requires Inv(s) && s.shared.fatal.Alive? && key in s.rest.infoSent
    ensures Traffic(s, WithRest(s, OnInfoReply(RestSide(s.rest, s.shared), key, outcome)))
  {
    if !outcome.Redirection? {
      InfoReplyMoves(RestSide(s.rest, s.shared), key, outcome);
      AnswerNoted(s.shared.log, key);
    }
  }

  lemma TrafficStages(c: Config, s: State, e: Event)
    requires Inv(s) && Enabled(s, e) && IsHttp(e)
    ensures Traffic(s, Step(c, s, e))
  {
    match e
    case RestTimer(refreshed, canOpen, canStale, known) => RestTimerStages(s, refreshed, canOpen, canStale, known);
    case OpenReply(_) =>
    case InfoReply(key, outcome) => InfoReplyStages(s, key, outcome);
    case RestStatus(_) =>
  }

  lemma StaleTraffic(s: State, t: State)
    requires StaleInStep(s) && Traffic(s, t)
    ensures StaleInStep(t)
    ensures StaleCurrent(s) ==> StaleCurrent(t)
  {
  }

  lemma StaleTimer(c: Config, s: State, refreshed: bool, now: int, found: set<Key>, periodic: set<Key>)
    requires Inv(s) && c.marginMode.Cross? && s.shared.fatal.Alive? && StaleInStep(s)
    ensures var t := WithDrop(s, OnDropTimer(c, DropSide(s.drop, s.shared), refreshed, now, found, periodic));
            StaleInStep(t) && (StaleCurrent(s) ==> StaleCurrent(t))
  {
    var w := CheckRequestQueue(c, DropSide(s.drop, s.shared), found);
    QueueStages(c, s, found);
    assert StaleInStep(WithDrop(s, w)) && (StaleCurrent(s) ==> StaleCurrent(WithDrop(s, w)));
    QueueKeeps(c, DropSide(s.drop, s.shared), found);
    PeriodicStages(c, WithDrop(s, w), now, periodic);
  }

  lemma StaleStep(c: Config, s: State, e: Event)
    requires Inv(s) && c.marginMode.Cross? && Enabled(s, e) && !e.SocketDisconnected? && StaleInStep(s)
    ensures StaleInStep(Step(c, s, e))
    ensures StaleCurrent(s) ==> StaleCurrent(Step(c, s, e))
  {
    if IsHttp(e) {
      TrafficStages(c, s, e);
      StaleTraffic(s, Step(c, s, e));
    }
    match e
    case AuthReply(_) => EarlyStages(c, s, e);
    case SubReply(topic) =>
      if s.drop.stage.Index() <= 4 {
        EarlyStages(c, s, e);
      } else {
        LateReplies(c, s, topic);
      }
    case DropTimer(refreshed, now, found, periodic) => StaleTimer(c, s, refreshed, now, Keys(found), Keys(periodic));
    case _ =>
  }

  lemma OpenTimer(c: Config, s: State, refreshed: bool, now: int, found: set<Key>, periodic: set<Key>)
    requires Inv(s) && c.marginMode.Cross? && s.shared.fatal.Alive? && OpenInStep(s)
    ensures OpenInStep(WithDrop(s, OnDropTimer(c, DropSide(s.drop, s.shared), refreshed, now, found, periodic)))
  {
    var w := CheckRequestQueue(c, DropSide(s.drop, s.shared), found);
    QueueStages(c, s, found);
    assert OpenInStep(WithDrop(s, w));
    PeriodicStages(c, WithDrop(s, w), now, periodic);
  }

  lemma OpenTraffic(s: State, t: State)
    requires OpenInStep(s) && Traffic(s, t)
    ensures OpenInStep(t)
  {
  }

  lemma OpenStep(c: Config, s: State, e: Event)
    requires Inv(s) && c.marginMode.Cross? && Enabled(s, e) && !e.SocketDisconnected? && OpenInStep(s)
    ensures OpenInStep(Step(c, s, e))
  {
    if IsHttp(e) {
      TrafficStages(c, s, e);
      OpenTraffic(s, Step(c, s, e));
    }
    match e
    case AuthReply(_) => EarlyStages(c, s, e);
    case SubReply(topic) =>
      if s.drop.stage.Index() <= 4 {
        EarlyStages(c, s, e);
      } else {
        LateReplies(c, s, topic);
      }
    case DropTimer(refreshed, now, found, periodic) => OpenTimer(c, s, refreshed, now, Keys(found), Keys(periodic));
    case _ =>
  }

  lemma StuckTimer(c: Config, s: State, refreshed: bool, now: int, found: set<Key>, periodic: set<Key>)
    requires Inv(s) && c.marginMode.Cross? && s.shared.fatal.Alive? && Stuck(s)
    ensures var t := WithDrop(s, OnDropTimer(c, DropSide(s.drop, s.shared), refreshed, now, found, periodic));
            Stuck(t) && (StuckBeforeOpen(s) ==> StuckBeforeOpen(t))
  {
    var w := CheckRequestQueue(c, DropSide(s.drop, s.shared), found);
    QueueStages(c, s, found);
    PeriodicStages(c, WithDrop(s, w), now, periodic);
  }

  lemma StuckStep(c: Config, s: State, e: Event)
    requires Inv(s) && c.marginMode.Cross? && Enabled(s, e) && Stuck(s)
    ensures Stuck(Step(c, s, e))
    ensures StuckBeforeOpen(s) ==> StuckBeforeOpen(Step(c, s, e))
  {
    if IsHttp(e) {
      TrafficStages(c, s, e);
    }
    match e
    case AuthReply(_) => EarlyStages(c, s, e);
    case SubReply(topic) =>
      if s.drop.stage.Index() <= 4 {
        EarlyStages(c, s, e);
      } else {
        LateReplies(c, s, topic);
      }
    case DropTimer(refreshed, now, found, periodic) => StuckTimer(c, s, refreshed, now, Keys(found), Keys(periodic));
    case _ =>
  }

  lemma {:induction false} SessionKeeps(c: Config, s: State, es: seq<Event>)
    requires AtLogin(s) && c.marginMode.Cross? && ValidRun(c, s, es) && InSession(es)
    ensures var t := Run(c, s, es);
            && Inv(t)
            && (StaleInStep(s) ==> StaleInStep(t))
            && (StaleInStep(s) && StaleCurrent(s) ==> StaleCurrent(t))
            && (OpenInStep(s) ==> OpenInStep(t))
            && (StuckBeforeOpen(s) ==> StuckBeforeOpen(t))
  {
    if es != [] {
      var before, e := es[..|es| - 1], es[|es| - 1];
      assert !e.SocketDisconnected?;
      SessionKeeps(c, s, before);
      var t := Run(c, s, before);
      StepKeeps(c, t, e);
      if StaleInStep(t) {
        StaleStep(c, t, e);
      }
      if OpenInStep(t) {
        OpenStep(c, t, e);
      }
      if StuckBeforeOpen(t) {
        StuckStep(c, t, e);
      }
    }
  }

  // --- reachability: what the session can be driven to ---

  lemma RunSnoc(c: Config, s: State, es: seq<Event>, e: Event)
    requires ValidRun(c, s, es) && Enabled(Run(c, s, es), e)
    ensures ValidRun(c, s, es + [e]) && Run(c, s, es + [e]) == Step(c, Run(c, s, es), e)
  {
    assert (es + [e])[..|es + [e]| - 1] == es;
  }

  /** Adds one event to a path. */
  lemma Extend(c: Config, s: State, es: seq<Event>, t: State, e: Event) returns (es': seq<Event>, t': State)
    requires Leads(c, s, es, t) && Inv(t) && c.marginMode.Cross? && Enabled(t, e) && !e.SocketDisconnected?
    ensures t' == Step(c, t, e) && Leads(c, s, es', t') && Inv(t')
  {
    RunSnoc(c, s, es, e);
    es', t' := es + [e], Step(c, t, e);
    StepKeeps(c, t, e);
  }

  /** All answers to the batch in flight arrive. */
  lemma {:induction false} AnswerBatch(c: Config, s: State, es: seq<Event>, t: State)
    returns (es': seq<Event>, t': State)
    requires Leads(c, s, es, t) && Inv(t) && c.marginMode.Cross? && t.shared.fatal.Alive?
    requires t.shared.staleOrders.inFlight && t.rest.counter > 0
    ensures Leads(c, s, es', t') && Inv(t') && t'.shared.fatal.Alive?
    ensures t'.drop == t.drop && t'.shared.openOrders == t.shared.openOrders && t'.shared.details == t.shared.details
    ensures t'.shared.staleOrders == t.shared.staleOrders.Commit() && t'.rest.ready == t.rest.ready
    ensures SentSinceAsked(t'.shared.log) == SentSinceAsked(t.shared.log)
    ensures !BatchSentSinceScan(t.shared.log) ==> SameStale(t.shared.log, t'.shared.log)
    decreases t.rest.counter
  {
    var k :| k in t.rest.infoSent;
    TrafficStages(c, t, InfoReply(k, Success));
    es', t' := Extend(c, s, es, t, InfoReply(k, Success));
    if t'.rest.counter > 0 {
      es', t' := AnswerBatch(c, s, es', t');
    }
  }

  /** Everything in flight is answered. */
  lemma AnswerAll(c: Config, s: State, es: seq<Event>, t: State) returns (es': seq<Event>, t': State)
    requires Leads(c, s, es, t) && Inv(t) && c.marginMode.Cross? && t.shared.fatal.Alive? && !Stuck(t)
    ensures Leads(c, s, es', t') && Inv(t') && t'.shared.fatal.Alive? && t'.shared.CanLaunch()
    ensures t'.drop == t.drop && t'.shared.details == t.shared.details
    ensures t'.shared.openOrders.pending == t.shared.openOrders.pending
    ensures t'.shared.staleOrders.pending == t.shared.staleOrders.pending
  {
    if t.shared.staleOrders.inFlight {
      es', t' := AnswerBatch(c, s, es, t);
    } else if t.shared.openOrders.inFlight {
      es', t' := Extend(c, s, es, t, OpenReply(Success));
    } else {
      es', t' := es, t;
    }
  }

  /** The reply the download waits for in the stages before the open orders. */
  ghost predicate Awaited(t: State, e: Event) {
    if t.drop.stage.Undefined? then t.drop.status.LoginSent? && e == AuthReply(true)
    else e.SubReply? && !e.topic.OtherTopic? && StageOf(e.topic) == t.drop.stage
  }

  lemma ForwardStep(c: Config, t: State, e: Event)
    requires Inv(t) && c.marginMode.Cross? && t.shared.fatal.Alive? && t.drop.stage.Index() <= 4 && Awaited(t, e)
    ensures Enabled(t, e) && Step(c, t, e).drop.stage == t.drop.stage.Next() && Step(c, t, e).shared.fatal.Alive?
    ensures Step(c, t, e).drop.stage.GetOpenOrders? ==> !SentSinceAsked(Step(c, t, e).shared.log)
  {
    var q := t.shared.Emit(if e.AuthReply? then AuthAccepted else Acked(e.topic));
    var v := DropSide(t.drop.(awaited := 0), q);
    assert Step(c, t, e) == WithDrop(t, Advance(c, v));
    AdvanceEarly(c, v);
  }

  /** One awaited reply moves the download one stage on. */
  lemma Forward(c: Config, s: State, es: seq<Event>, t: State, e: Event) returns (es': seq<Event>, t': State)
    requires Leads(c, s, es, t) && Inv(t) && c.marginMode.Cross? && t.shared.fatal.Alive? && t.drop.stage.Index() <= 4
    requires Awaited(t, e)
    ensures Leads(c, s, es', t') && Inv(t') && t'.shared.fatal.Alive?
    ensures t'.drop.stage == t.drop.stage.Next() && t'.rest == t.rest
    ensures t'.shared.details == t.shared.details && t'.shared.staleOrders == t.shared.staleOrders
    ensures t'.shared.openOrders == AskedIn(t'.drop.stage, t.shared.openOrders)
    ensures t'.drop.stage.GetOpenOrders? ==> !SentSinceAsked(t'.shared.log)
  {
    ForwardStep(c, t, e);
    EarlyStages(c, t, e);
    es', t' := Extend(c, s, es, t, e);
  }

  /** Login and the four subscriptions. */
  lemma Login(c: Config, s: State, es: seq<Event>, t: State) returns (es': seq<Event>, t': State)
    requires Leads(c, s, es, t) && AtLogin(t) && c.marginMode.Cross?
    ensures Leads(c, s, es', t') && Inv(t') && t'.shared.fatal.Alive?
    ensures t'.drop.stage.GetOpenOrders? && t'.rest == t.rest && !SentSinceAsked(t'.shared.log)
    ensures t'.shared.details == t.shared.details && t'.shared.staleOrders == t.shared.staleOrders
    ensures t'.shared.openOrders == t.shared.openOrders.Ask()
  {
    es', t' := Forward(c, s, es, t, AuthReply(true));
    es', t' := Forward(c, s, es', t', SubReply(Account));
    es', t' := Forward(c, s, es', t', SubReply(Positions));
    es', t' := Forward(c, s, es', t', SubReply(MatchOrders));
    es', t' := Forward(c, s, es', t', SubReply(Orders));
  }

  /** The open-orders request is sent. */
  lemma SendOpen(c: Config, s: State, es: seq<Event>, t: State) returns (es': seq<Event>, t': State)
    requires Leads(c, s, es, t) && Inv(t) && c.marginMode.Cross? && t.shared.fatal.Alive?
    requires t.shared.openOrders.pending && t.shared.CanLaunch()
    ensures Leads(c, s, es', t') && Inv(t') && t'.shared.fatal.Alive? && t'.drop == t.drop
    ensures t'.shared.openOrders == t.shared.openOrders.Launch() && t'.rest.ready
    ensures t'.shared.details == t.shared.details && t'.shared.staleOrders == t.shared.staleOrders
  {
    es', t' := Extend(c, s, es, t, RestStatus(true));
    es', t' := Extend(c, s, es', t', RestTimer(true, true, false, {}));
  }

  lemma AnswerOpen(c: Config, s: State, es: seq<Event>, t: State) returns (es': seq<Event>, t': State)
    requires Leads(c, s, es, t) && Inv(t) && c.marginMode.Cross? && t.shared.fatal.Alive? &&
      t.shared.openOrders.inFlight
    ensures Leads(c, s, es', t') && Inv(t') && t'.shared.fatal.Alive? && t'.drop == t.drop
    ensures t'.shared.openOrders == t.shared.openOrders.Commit() && t'.rest.ready == t.rest.ready
    ensures t'.shared.details == t.shared.details && t'.shared.staleOrders == t.shared.staleOrders
    ensures SentSinceAsked(t'.shared.log) == SentSinceAsked(t.shared.log)
  {
    TrafficStages(c, t, OpenReply(Success));
    es', t' := Extend(c, s, es, t, OpenReply(Success));
  }

  /** A batch is sent that finds exactly one of the keys. */
  lemma SendBatch(c: Config, s: State, es: seq<Event>, t: State, withOpen: bool) returns (es': seq<Event>, t': State)
    requires Leads(c, s, es, t) && Inv(t) && c.marginMode.Cross? && t.shared.fatal.Alive?
    requires t.shared.staleOrders.pending && t.shared.CanLaunch() && !(withOpen && t.shared.openOrders.pending)
    ensures Leads(c, s, es', t') && Inv(t') && t'.shared.fatal.Alive? && t'.drop == t.drop
    ensures t'.shared.details == {} && t'.shared.staleOrders == t.shared.staleOrders.Launch() && t'.rest.counter == 1
    ensures t'.shared.openOrders == t.shared.openOrders && t'.rest.ready
    ensures SentSinceAsked(t'.shared.log) == SentSinceAsked(t.shared.log)
    ensures ScanSettled(t'.shared.log) == ScanSettled(t.shared.log)
  {
    var k :| k in t.shared.details;
    assert t.shared.details * {k} == {k};
    es', t' := Extend(c, s, es, t, RestStatus(true));
    TrafficStages(c, t', RestTimer(true, withOpen, true, {k}));
    es', t' := Extend(c, s, es', t', RestTimer(true, withOpen, true, {k}));
  }

  /** The drop copy's timer, with `found` as the stale orders; too early for the periodic check. */
  lemma Tick(c: Config, s: State, es: seq<Event>, t: State, found: seq<Key>) returns (es': seq<Event>, t': State)
    requires Leads(c, s, es, t) && Inv(t) && c.marginMode.Cross? && t.shared.fatal.Alive?
    ensures Leads(c, s, es', t') && Inv(t')
    ensures var w := CheckRequestQueue(c, DropSide(t.drop, t.shared), Keys(found));
            t' == WithDrop(t, w)
  {
    QueueStages(c, t, Keys(found));
    var w := CheckRequestQueue(c, DropSide(t.drop, t.shared), Keys(found));
    es', t' := Extend(c, s, es, t, DropTimer(true, w.drop.nextCheck, found, []));
  }

  /** From an accepted open-orders reply to READY, with a batch if stale keys wait. */
  lemma Finish(c: Config, s: State, es: seq<Event>, t: State) returns (es': seq<Event>, t': State)
    requires Leads(c, s, es, t) && Inv(t) && c.marginMode.Cross? && t.shared.fatal.Alive?
    requires t.drop.stage.GetOpenOrders? && t.shared.openOrders.response && t.shared.CanLaunch()
    ensures Leads(c, s, es', t') && t'.drop.status.Ready? && t'.shared.fatal.Alive?
    ensures SentSinceAsked(t'.shared.log) == SentSinceAsked(t.shared.log)
  {
    QueueStages(c, t, {});
    assert Keys([]) == {};
    es', t' := Tick(c, s, es, t, []);
    if t'.drop.stage.GetStaleOrders? {
      es', t' := SendBatch(c, s, es', t', false);
      es', t' := AnswerBatch(c, s, es', t');
      QueueStages(c, t', {});
      es', t' := Tick(c, s, es', t', []);
    }
  }

  // --- the exact conditions ---

  /** From login to an answered open-orders request. */
  lemma UpToOpenOrders(c: Config, s: State, es: seq<Event>, t: State) returns (es': seq<Event>, t': State)
    requires Leads(c, s, es, t) && AtLogin(t) && c.marginMode.Cross? && !Stuck(t)
    ensures Leads(c, s, es', t') && Inv(t') && t'.shared.fatal.Alive?
    ensures t'.drop.stage.GetOpenOrders? && t'.shared.CanLaunch()
    ensures t'.shared.openOrders == Slot(false, false, true)
    ensures t'.shared.details == t.shared.details && t'.shared.staleOrders.pending == t.shared.staleOrders.pending
  {
    es', t' := AnswerAll(c, s, es, t);
    es', t' := Login(c, s, es', t');
    es', t' := SendOpen(c, s, es', t');
    es', t' := AnswerOpen(c, s, es', t');
  }

  /** A session can become READY exactly if no stuck batch is left over from before. */
  lemma ReadyPossibleExactly(c: Config, s: State)
    requires AtLogin(s) && c.marginMode.Cross?
    ensures (exists es, t :: Leads(c, s, es, t) && t.drop.status.Ready? && t.shared.fatal.Alive?) <==> !Stuck(s)
  {
    if Stuck(s) {
      forall es, t | Leads(c, s, es, t) && t.shared.fatal.Alive?
        ensures !t.drop.status.Ready?
      {
        SessionKeeps(c, s, es);
        assert Inv(t) && StuckBeforeOpen(t);
      }
    } else {
      var es, t := UpToOpenOrders(c, s, [], s);
      es, t := Finish(c, s, es, t);
    }
  }

  /** The download can find keys left over after its batch, which ends the process, exactly if a
      stale-orders request was already pending at login and no batch is stuck. */
  lemma StaleKeysLeftExactly(c: Config, s: State)
    requires AtLogin(s) && c.marginMode.Cross?
    ensures (exists es, t :: Leads(c, s, es, t) && t.shared.fatal.StaleKeysLeft?)
       <==> s.shared.staleOrders.pending && !Stuck(s)
  {
    if s.shared.staleOrders.pending && !Stuck(s) {
      var k :| k in s.shared.details;
      var es, t := UpToOpenOrders(c, s, [], s);
      es, t := SendBatch(c, s, es, t, true);  // the old keys leave the set ...
      QueueStages(c, t, Keys([k]));
      assert k in Keys([k]);
      es, t := Tick(c, s, es, t, [k]);        // ... a new scan fills it again ...
      es, t := AnswerBatch(c, s, es, t);      // ... and the old batch is taken for the answer
      QueueStages(c, t, {});
      es, t := Tick(c, s, es, t, []);
    } else {
      forall es, t | Leads(c, s, es, t)
        ensures !t.shared.fatal.StaleKeysLeft?
      {
        SessionKeeps(c, s, es);
        assert StaleInStep(s) || StuckBeforeOpen(s);
      }
    }
  }

  /** An open-orders request from before the session is answered in it, and the answer counts. */
  lemma ReadyOnOldAnswer(c: Config, s: State) returns (es: seq<Event>, t: State)
    requires AtLogin(s) && c.marginMode.Cross? && !Stuck(s) &&
      (s.shared.openOrders.pending || s.shared.openOrders.inFlight)
    ensures Leads(c, s, es, t) && t.drop.status.Ready? && t.shared.fatal.Alive? && !SentSinceAsked(t.shared.log)
  {
    es, t := [], s;
    if !s.shared.openOrders.inFlight {
      es, t := AnswerAll(c, s, es, t);
      es, t := SendOpen(c, s, es, t);
    }
    es, t := Login(c, s, es, t);
    es, t := AnswerOpen(c, s, es, t);
    es, t := Finish(c, s, es, t);
  }

  /** READY always rests on open orders requested after all four subscriptions exactly if no older
      request was pending or in flight at login (or READY is out of reach). */
  lemma OpenOrdersCurrentExactly(c: Config, s: State)
    requires AtLogin(s) && c.marginMode.Cross?
    ensures (forall es, t :: Leads(c, s, es, t) && t.drop.status.Ready? && t.shared.fatal.Alive? ==>
      SentSinceAsked(t.shared.log))
       <==> (!s.shared.openOrders.pending && !s.shared.openOrders.inFlight) || Stuck(s)
  {
    if (!s.shared.openOrders.pending && !s.shared.openOrders.inFlight) || Stuck(s) {
      forall es, t | Leads(c, s, es, t) && t.drop.status.Ready? && t.shared.fatal.Alive?
        ensures SentSinceAsked(t.shared.log)
      {
        SessionKeeps(c, s, es);
        assert OpenInStep(s) || StuckBeforeOpen(s);
        assert Inv(t);
      }
    } else {
      var es, t := ReadyOnOldAnswer(c, s);
    }
  }

  /** A batch from before the session goes out late, and its commit is taken for the answer to the
      keys of the scan; these are asked for in a batch that READY does not wait for. */
  lemma ReadyOnOldBatch(c: Config, s: State) returns (es: seq<Event>, t: State)
    requires AtLogin(s) && c.marginMode.Cross? && s.shared.staleOrders.pending && !Stuck(s)
    ensures Leads(c, s, es, t) && t.shared.log.Then? && t.shared.log.last == Published(Ready, Done)
    ensures t.drop.status.Ready? && t.shared.fatal.Alive? && !ScanSettled(t.shared.log)
    ensures t.shared.staleOrders.inFlight && t.rest.counter > 0
  {
    var k :| k in s.shared.details;
    es, t := UpToOpenOrders(c, s, [], s);
    es, t := SendBatch(c, s, es, t, true);   // the old batch goes out ...
    QueueStages(c, t, Keys([k]));
    assert k in Keys([k]);
    es, t := Tick(c, s, es, t, [k]);         // ... the scan finds a key again ...
    es, t := AnswerBatch(c, s, es, t);       // ... the old batch is committed ...
    es, t := SendBatch(c, s, es, t, true);   // ... and the new one sent
    QueueStages(c, t, {});
    assert Keys([]) == {};
    es, t := Tick(c, s, es, t, []);
  }

  /** READY always rests on a scan without keys or on the commit of a batch sent after the scan,
      exactly if no batch was asked for at login (or READY is out of reach). */
  lemma StaleOrdersCurrentExactly(c: Config, s: State)
    requires AtLogin(s) && c.marginMode.Cross?
    ensures (forall es, t :: Leads(c, s, es, t) && t.drop.status.Ready? && t.shared.fatal.Alive? ==>
      ScanSettled(t.shared.log))
       <==> !s.shared.staleOrders.pending || Stuck(s)
  {
    if !s.shared.staleOrders.pending || Stuck(s) {
      forall es, t | Leads(c, s, es, t) && t.drop.status.Ready? && t.shared.fatal.Alive?
        ensures ScanSettled(t.shared.log)
      {
        SessionKeeps(c, s, es);
        assert (StaleInStep(s) && StaleCurrent(s)) || StuckBeforeOpen(s);
        assert Inv(t);
      }
    } else {
      var es, t := ReadyOnOldBatch(c, s);
    }
  }

  // --- the conditions are met by runs from the start ---

  lemma {:induction false} RunAppend(c: Config, s: State, es: seq<Event>, fs: seq<Event>)
    requires ValidRun(c, s, es) && ValidRun(c, Run(c, s, es), fs)
    ensures ValidRun(c, s, es + fs) && Run(c, s, es + fs) == Run(c, Run(c, s, es), fs)
  {
    if fs == [] {
      assert es + fs == es;
    } else {
      var before, e := fs[..|fs| - 1], fs[|fs| - 1];
      RunAppend(c, s, es, before);
      RunSnoc(c, s, es + before, e);
      SplitLast(es, fs);
    }
  }

  lemma SplitLast(es: seq<Event>, fs: seq<Event>)
    requires fs != []
    ensures es + fs == es + fs[..|fs| - 1] + [fs[|fs| - 1]]
  {
  }

  /** The periodic check of a ready session finds a key. */
  lemma FindKey(c: Config, s: State, es: seq<Event>, t: State, key: Key) returns (es': seq<Event>, t': State)
    requires Leads(c, s, es, t) && Inv(t) && c.marginMode.Cross? && t.shared.fatal.Alive?
    requires t.drop.stage.Done? && t.shared.details == {}
    ensures Leads(c, s, es', t') && Inv(t') && t'.shared.fatal.Alive? && t'.shared.CanLaunch() == t.shared.CanLaunch()
    ensures t'.shared.staleOrders.pending && t'.shared.details == {key}
  {
    var v := DropSide(t.drop, t.shared);
    assert CheckRequestQueue(c, v, Keys([])) == v;
    assert Keys([key]) - {} == {key} == {} + Keys([key]);
    es', t' := Extend(c, s, es, t, DropTimer(true, t.drop.nextCheck + 1, [], [key]));
  }

  /** Starts the gateway, brings the first session to READY and lets the periodic check find a key. */
  lemma FirstSession(c: Config, key: Key) returns (es: seq<Event>, t: State)
    requires c.marginMode.Cross?
    ensures Leads(c, Init(), es, t) && Inv(t) && t.shared.fatal.Alive?
    ensures t.shared.staleOrders.pending && t.shared.CanLaunch() && t.shared.details == {key}
  {
    es, t := Extend(c, Init(), [], Init(), SocketReady);
    es, t := UpToOpenOrders(c, Init(), es, t);
    QueueStages(c, t, Keys([]));
    es, t := Tick(c, Init(), es, t, []);
    es, t := FindKey(c, Init(), es, t, key);
  }

  lemma Follow(c: Config, s: State, es: seq<Event>, t: State, e: Event) returns (es': seq<Event>, t': State)
    requires Arrives(c, s, es, t) && Inv(t) && c.marginMode.Cross? && Enabled(t, e)
    ensures t' == Step(c, t, e) && Arrives(c, s, es', t') && Inv(t')
  {
    RunSnoc(c, s, es, e);
    es', t' := es + [e], Step(c, t, e);
    StepKeeps(c, t, e);
  }

  /** The next session, after a disconnect, at its login. */
  lemma Reconnect(c: Config, es: seq<Event>, t: State) returns (es': seq<Event>, t': State)
    requires Arrives(c, Init(), es, t) && Inv(t) && t.shared.fatal.Alive? && c.marginMode.Cross?
    ensures Arrives(c, Init(), es', t') && AtLogin(t')
    ensures t'.rest == t.rest && t'.shared.details == t.shared.details
    ensures t'.shared.staleOrders == t.shared.staleOrders && t'.shared.openOrders == t.shared.openOrders
  {
    es', t' := Follow(c, Init(), es, t, SocketDisconnected);
    es', t' := Follow(c, Init(), es', t', SocketReady);
  }

  /** A reconnect while stale keys wait can end the process. */
  lemma ReconnectCanBeFatal(c: Config)
    requires c.marginMode.Cross?
    ensures exists s :: Reachable(c, s) && s.shared.fatal.StaleKeysLeft?
  {
    var es, t := FirstSession(c, Key(1, 1));
    es, t := Reconnect(c, es, t);
    StaleKeysLeftExactly(c, t);
    var fs, u :| Leads(c, t, fs, u) && u.shared.fatal.StaleKeysLeft?;
    RunAppend(c, Init(), es, fs);
    assert Reachable(c, u);
  }

  /** READY can be published while the keys of the session's own scan are unanswered. */
  lemma OldBatchCanCount(c: Config)
    requires c.marginMode.Cross?
    ensures exists s :: Reachable(c, s) && s.shared.fatal.Alive? && !ScanSettled(s.shared.log) && s.rest.counter > 0 &&
                        s.shared.log.Then? && s.shared.log.last == Published(Ready, Done)
  {
    var es, t := FirstSession(c, Key(1, 1));
    es, t := Reconnect(c, es, t);
    var fs, u := ReadyOnOldBatch(c, t);
    RunAppend(c, Init(), es, fs);
    assert Reachable(c, u);
  }

  /** No open-orders request went out since the download asked for one. */
  predicate OpenIsOld(s: State) { !SentSinceAsked(s.shared.log) }

  /** READY can rest on open orders that were requested in an earlier session. */
  lemma OldOpenOrdersCanCount(c: Config)
    requires c.marginMode.Cross?
    ensures exists s :: Reachable(c, s) && s.shared.fatal.Alive? && s.drop.status.Ready? && OpenIsOld(s)
  {
    var es, t := Extend(c, Init(), [], Init(), SocketReady);
    es, t := Login(c, Init(), es, t);
    es, t := SendOpen(c, Init(), es, t);
    es, t := Reconnect(c, es, t);
    var fs, u := ReadyOnOldAnswer(c, t);
    RunAppend(c, Init(), es, fs);
    assert Reachable(c, u);
  }

  /** A batch that finds no known order is reachable, and no later session becomes READY. */
  lemma EmptyBatchIsForever(c: Config)
    requires c.marginMode.Cross?
    ensures exists s :: Reachable(c, s) && AtLogin(s) && Stuck(s)
  {
    var es, t := FirstSession(c, Key(1, 1));
    es, t := Extend(c, Init(), es, t, RestStatus(true));
    es, t := Extend(c, Init(), es, t, RestTimer(true, false, true, {}));
    es, t := Reconnect(c, es, t);
    assert Reachable(c, t);
  }

  /** A stuck batch stays stuck through every event, and once the session it belongs to has ended
      the account is never READY again. */
  lemma {:induction false} StuckStays(c: Config, s: State, es: seq<Event>)
    requires Inv(s) && c.marginMode.Cross? && s.shared.fatal.Alive? && Stuck(s) && ValidRun(c, s, es)
    ensures var t := Run(c, s, es);
            && Inv(t) && Stuck(t)
            && (t.shared.fatal.Alive? ==> WireOf(t.shared.log).Stuck?)
            && (s.drop.stage.Undefined? ==> StuckBeforeOpen(t) && (t.shared.fatal.Alive? ==> !t.drop.status.Ready?))
  {
    if es != [] {
      var before, e := es[..|es| - 1], es[|es| - 1];
      StuckStays(c, s, before);
      var t := Run(c, s, before);
      StepKeeps(c, t, e);
      StuckStep(c, t, e);
    }
  }
}
