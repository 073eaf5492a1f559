/** The order recovery protocol of one account: the v5 drop copy (web socket) and the v5 order
    entry (HTTP) share one `Request` object, and their timers, replies and reconnects interleave.

    Every handler is a function on values here; `RecoveryObjects` holds the objects whose methods
    are proved to compute these functions, and `RecoveryRuns` the theorems about whole runs. */
module Recovery {
  import opened Margin

  datatype Key = Key(userId: nat, orderId: nat)

  datatype Config = Config(marginMode: AccountMode, retryLogon: bool, checkStaleOrderFreq: nat)

  datatype ConnectionStatus = NoStatus | Disconnected | LoginSent | Downloading | Ready

  datatype Stage =
    | Undefined
    | SubscribeBalances
    | SubscribePositions
    | SubscribeMatchOrders
    | SubscribeOrders
    | GetOpenOrders
    | GetStaleOrders
    | Done
  {
    function Index(): (i: nat)
      ensures i <= 7 && (i == 7 <==> Done?)
    {
      match this
      case Undefined => 0
      case SubscribeBalances => 1
      case SubscribePositions => 2
      case SubscribeMatchOrders => 3
      case SubscribeOrders => 4
      case GetOpenOrders => 5
      case GetStaleOrders => 6
      case Done => 7
    }

    function Next(): (s: Stage)
      requires !Done?
      ensures s.Index() == Index() + 1
    {
      match this
      case Undefined => SubscribeBalances
      case SubscribeBalances => SubscribePositions
      case SubscribePositions => SubscribeMatchOrders
      case SubscribeMatchOrders => SubscribeOrders
      case SubscribeOrders => GetOpenOrders
      case GetOpenOrders => GetStaleOrders
      case GetStaleOrders => Done
    }
  }

  datatype Topic = Account | Positions | MatchOrders | Orders | OtherTopic

  /** Why the process was ended by `log::fatal`. */
  datatype Fatal = Alive | IsolatedUntested | LoginRefused | StaleKeysLeft | UnexpectedAck | Redirected

  /** What happened to an HTTP request: only a redirection is not turned into a handled error. */
  datatype Outcome = Success | ClientError | ServerError | NetworkFailure | DecodeFailure | Redirection

  /** The library's request slot: `Ask` marks it pending and forgets an earlier response, `Launch`
      puts it in flight, `Commit` answers the request in flight, if there is one. */
  datatype Slot = Slot(pending: bool, inFlight: bool, response: bool) {
    function Ask(): Slot { this.(pending := true, response := false) }

    function Launch(): Slot { this.(pending := false, inFlight := true) }

    function Commit(): Slot {
      if inFlight then this.(inFlight := false, response := true) else this
    }
  }

  /** What an outside observer sees, in order. */
  datatype Obs =
    | Published(status: ConnectionStatus, stage: Stage)
    | AuthAccepted
    | Acked(topic: Topic)
    | DownloadScan(added: set<Key>, total: set<Key>)
    | PeriodicScan(added: set<Key>)
    | OpenSent
    | OpenCommitted
    | BatchSent(found: set<Key>, lost: set<Key>)
    | InfoAnswered(key: Key)
    | StaleCommitted

  datatype History = Empty | Then(before: History, last: Obs)

  datatype Drop = Drop(status: ConnectionStatus, stage: Stage, awaited: nat, nextCheck: int)

  datatype Shared = Shared(openOrders: Slot, staleOrders: Slot, details: set<Key>, fatal: Fatal, log: History) {
    function Emit(o: Obs): Shared { this.(log := Then(log, o)) }

    // Request::ready
    predicate CanLaunch() { !openOrders.inFlight && !staleOrders.inFlight }
  }

  /** The HTTP side, with the requests its client has sent and not yet answered. */
  datatype Rest = Rest(ready: bool, counter: nat, openSent: nat, infoSent: multiset<Key>)

  datatype DropSide = DropSide(drop: Drop, shared: Shared)

  datatype RestSide = RestSide(rest: Rest, shared: Shared)

  datatype State = State(drop: Drop, shared: Shared, rest: Rest)

  function Keys(found: seq<Key>): set<Key> { set k | k in found }

  function Init(): State {
    State(
      Drop(NoStatus, Undefined, 0, 0),
      Shared(Slot(false, false, false), Slot(false, false, false), {}, Alive, Empty),
      Rest(false, 0, 0, multiset{}))
  }

  // --- the drop copy ---

  function Publish(v: DropSide, status: ConnectionStatus): DropSide {
    DropSide(v.drop.(status := status), v.shared.Emit(Published(status, v.drop.stage)))
  }

  /** The download callback for the current stage, with the number of replies to wait for. */
  function Callback(c: Config, v: DropSide): DropSide {
    if c.marginMode.Isolated? then
      v.(shared := v.shared.(fatal := IsolatedUntested))
    else
      match v.drop.stage
      case Undefined =>
        v.(drop := v.drop.(awaited := 0))
      case GetOpenOrders =>
        var w := Publish(v, Downloading);
        DropSide(w.drop.(awaited := 1), w.shared.(openOrders := w.shared.openOrders.Ask()))
      case GetStaleOrders =>
        if v.shared.details == {} then
          v.(drop := v.drop.(awaited := 0))
        else
          var w := Publish(v, Downloading);
          DropSide(w.drop.(awaited := 1), w.shared.(staleOrders := w.shared.staleOrders.Ask()))
      case Done =>
        var w := Publish(v, Ready);
        w.(drop := w.drop.(awaited := 0))
      case _ =>
        var w := Publish(v, Downloading);
        w.(drop := w.drop.(awaited := 1))
  }

  /** The library's download: enter the next stage, and the one after it while nothing is awaited. */
  function Advance(c: Config, v: DropSide): DropSide
    decreases 7 - v.drop.stage.Index()
  {
    if v.drop.stage.Done? then v
    else
      var w := Callback(c, v.(drop := v.drop.(stage := v.drop.stage.Next())));
      if w.shared.fatal.Alive? && w.drop.awaited == 0 then Advance(c, w) else w
  }

  /** A reply counts only in the stage it belongs to. */
  function Check(c: Config, v: DropSide, stage: Stage): DropSide {
    if v.drop.stage != stage || v.drop.awaited == 0 then v
    else
      var w := v.(drop := v.drop.(awaited := v.drop.awaited - 1));
      if w.drop.awaited == 0 then Advance(c, w) else w
  }

  function OnSocketReady(v: DropSide): DropSide { Publish(v, LoginSent) }

  function OnSocketDisconnected(v: DropSide): DropSide {
    var w := Publish(v, Disconnected);
    w.(drop := w.drop.(stage := Undefined, awaited := 0))
  }

  function OnAuth(c: Config, v: DropSide, accepted: bool): DropSide {
    if accepted then Advance(c, v.(shared := v.shared.Emit(AuthAccepted)))
    else if c.retryLogon then v
    else v.(shared := v.shared.(fatal := LoginRefused))
  }

  function StageOf(topic: Topic): Stage {
    match topic
    case Account => SubscribeBalances
    case Positions => SubscribePositions
    case MatchOrders => SubscribeMatchOrders
    case Orders => SubscribeOrders
    case OtherTopic => Undefined
  }

  // The error code of the reply is logged and otherwise ignored.
  function OnSub(c: Config, v: DropSide, topic: Topic): DropSide {
    var w := v.(shared := v.shared.Emit(Acked(topic)));
    if topic.OtherTopic? then w else Check(c, w, StageOf(topic))
  }

  function CheckRequestQueue(c: Config, v: DropSide, found: set<Key>): DropSide {
    match v.drop.stage
    case GetOpenOrders =>
      if v.shared.openOrders.response then
        var q := v.shared.(details := v.shared.details + found);
        Check(c, v.(shared := q.Emit(DownloadScan(found - v.shared.details, q.details))), GetOpenOrders)
      else v
    case GetStaleOrders =>
      if !v.shared.staleOrders.response then v
      else if v.shared.details != {} then v.(shared := v.shared.(fatal := StaleKeysLeft))
      else Check(c, v, GetStaleOrders)
    case _ => v
  }

  function CheckStaleOrders(c: Config, v: DropSide, now: int, found: set<Key>): DropSide {
    if v.drop.nextCheck >= now then v
    else
      var added := found - v.shared.details;
      var q := v.shared.(details := v.shared.details + found).Emit(PeriodicScan(added));
      DropSide(v.drop.(nextCheck := now + c.checkStaleOrderFreq),
               if added == {} then q else q.(staleOrders := q.staleOrders.Ask()))
  }

  function OnDropTimer(c: Config, v: DropSide, refreshed: bool, now: int, found: set<Key>,
    periodic: set<Key>): DropSide {
    if !refreshed then v
    else
      var w := CheckRequestQueue(c, v, found);
      if w.shared.fatal.Alive? && w.drop.status.Ready? then CheckStaleOrders(c, w, now, periodic) else w
  }

  // --- the order entry ---

  function LaunchOpenOrders(v: RestSide): RestSide {
    RestSide(v.rest.(openSent := v.rest.openSent + 1),
             v.shared.(openOrders := v.shared.openOrders.Launch()).Emit(OpenSent))
  }

  /** Drains the key set: one order-info request for every key that names a known order. */
  function LaunchStaleOrders(v: RestSide, known: set<Key>): RestSide {
    var found := v.shared.details * known;
    RestSide(v.rest.(counter := v.rest.counter + |found|, infoSent := v.rest.infoSent + multiset(found)),
             v.shared.(staleOrders := v.shared.staleOrders.Launch(), details := {})
             .Emit(BatchSent(found, v.shared.details - known)))
  }

  function OnRestTimer(v: RestSide, refreshed: bool, canOpen: bool, canStale: bool, known: set<Key>): RestSide {
    if !refreshed || !v.rest.ready then v
    else
      var w := if v.shared.openOrders.pending && v.shared.CanLaunch() && canOpen then LaunchOpenOrders(v) else v;
      if w.shared.staleOrders.pending && w.shared.CanLaunch() && canStale then LaunchStaleOrders(w, known) else w
  }

  function OnOpenReply(v: RestSide, outcome: Outcome): RestSide
    requires v.rest.openSent > 0
  {
    var w := v.(rest := v.rest.(openSent := v.rest.openSent - 1));
    if outcome.Redirection? then w.(shared := w.shared.(fatal := Redirected))
    else w.(shared := w.shared.(openOrders := w.shared.openOrders.Commit()).Emit(OpenCommitted))
  }

  function OnInfoReply(v: RestSide, key: Key, outcome: Outcome): RestSide {
    var w := v.(rest := v.rest.(infoSent := v.rest.infoSent - multiset{key}));
    if outcome.Redirection? then w.(shared := w.shared.(fatal := Redirected))
    else if w.rest.counter == 0 then w.(shared := w.shared.(fatal := UnexpectedAck))
    else
      var x := RestSide(w.rest.(counter := w.rest.counter - 1), w.shared.Emit(InfoAnswered(key)));
      if x.rest.counter == 0 then
        x.(shared := x.shared.(staleOrders := x.shared.staleOrders.Commit()).Emit(StaleCommitted))
      else x
  }

  // --- runs ---

  datatype Event =
    | SocketReady
    | SocketDisconnected
    | AuthReply(accepted: bool)
    | SubReply(topic: Topic)
    | DropTimer(refreshed: bool, now: int, found: seq<Key>, periodic: seq<Key>)
    | RestStatus(ready: bool)
    | RestTimer(refreshed: bool, canOpen: bool, canStale: bool, known: set<Key>)
    | OpenReply(outcome: Outcome)
    | InfoReply(key: Key, outcome: Outcome)

  /** What the environment may do: nothing after the process ended, a login is sent once per
      connection and answered after it was sent, every HTTP request is answered once. */
  predicate Enabled(s: State, e: Event) {
    && s.shared.fatal.Alive?
    && match e
       case SocketReady => s.drop.status.NoStatus? || s.drop.status.Disconnected?
       case AuthReply(_) => s.drop.status.LoginSent?
       case OpenReply(_) => s.rest.openSent > 0
       case InfoReply(k, _) => k in s.rest.infoSent
       case _ => true
  }

  function WithDrop(s: State, v: DropSide): State { State(v.drop, v.shared, s.rest) }

  function WithRest(s: State, v: RestSide): State { State(s.drop, v.shared, v.rest) }

  function Step(c: Config, s: State, e: Event): State
    requires Enabled(s, e)
  {
    var d := DropSide(s.drop, s.shared);
    var r := RestSide(s.rest, s.shared);
    match e
    case SocketReady => WithDrop(s, OnSocketReady(d))
    case SocketDisconnected => WithDrop(s, OnSocketDisconnected(d))
    case AuthReply(accepted) => WithDrop(s, OnAuth(c, d, accepted))
    case SubReply(topic) => WithDrop(s, OnSub(c, d, topic))
    case DropTimer(refreshed, now, found, periodic) =>
      WithDrop(s, OnDropTimer(c, d, refreshed, now, Keys(found), Keys(periodic)))
    case RestStatus(ready) => s.(rest := s.rest.(ready := ready))
    case RestTimer(refreshed, canOpen, canStale, known) =>
      WithRest(s, OnRestTimer(r, refreshed, canOpen, canStale, known))
    case OpenReply(outcome) => WithRest(s, OnOpenReply(r, outcome))
    case InfoReply(key, outcome) => WithRest(s, OnInfoReply(r, key, outcome))
  }

  /** The states a sequence of events leads through, last event first. */
  ghost predicate ValidRun(c: Config, s: State, es: seq<Event>)
    decreases |es|, 0
  {
    es == [] ||
    (ValidRun(c, s, es[..|es| - 1]) && Enabled(Run(c, s, es[..|es| - 1]), es[|es| - 1]))
  }

  ghost function Run(c: Config, s: State, es: seq<Event>): State
    requires ValidRun(c, s, es)
    decreases |es|, 1
  {
    if es == [] then s else Step(c, Run(c, s, es[..|es| - 1]), es[|es| - 1])
  }
}
