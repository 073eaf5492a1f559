/** The objects of the recovery protocol. Two streams change one shared `Request`; every method is
    proved to compute the handler of the same name in `Recovery`. Where the source calls
    `log::fatal`, the method records the reason and returns. */
module RecoveryObjects {
  import opened Recovery

  class Request {
    var openOrders: Slot
    var staleOrders: Slot
    var detailsStaleOrders: set<Key>
    var fatal: Fatal
    ghost var log: History

    constructor ()
      ensures View() == Init().shared
    {
      openOrders := Slot(false, false, false);
      staleOrders := Slot(false, false, false);
      detailsStaleOrders := {};
      fatal := Alive;
      log := Empty;
    }

    ghost function View(): Shared
      reads this
    {
      Shared(openOrders, staleOrders, detailsStaleOrders, fatal, log)
    }

    predicate CanLaunch()
      reads this
    {
      !openOrders.inFlight && !staleOrders.inFlight
    }
  }

  class DropCopy5 {
    const config: Config
    const request: Request
    var connectionStatus: ConnectionStatus
    var stage: Stage
    var awaited: nat
    var nextCheckStaleOrders: int

    constructor (config: Config, request: Request)
      ensures View().drop == Init().drop && this.config == config && this.request == request
    {
      this.config := config;
      this.request := request;
      connectionStatus := NoStatus;
      stage := Undefined;
      awaited := 0;
      nextCheckStaleOrders := 0;
    }

    ghost function View(): DropSide
      reads this, request
    {
      DropSide(Drop(connectionStatus, stage, awaited, nextCheckStaleOrders), request.View())
    }

    method SetStatus(status: ConnectionStatus)
      modifies this`connectionStatus, request`log
      ensures View() == Publish(old(View()), status)
    {
      connectionStatus := status;
      request.log := Then(request.log, Published(status, stage));
    }

    /** The download callback: starts the work of the stage and says how many replies it needs. */
    method Download() returns (replies: nat)
      modifies this`connectionStatus, request
      ensures View().(drop := View().drop.(awaited := replies)) == Callback(config, old(View()))
    {
      replies := awaited;
      if config.marginMode.Isolated? {
        request.fatal := IsolatedUntested;
        return;
      }
      match stage
      case Undefined =>
        replies := 0;
      case SubscribeBalances =>
        SetStatus(Downloading);
        replies := 1;
      case SubscribePositions =>
        SetStatus(Downloading);
        replies := 1;
      case SubscribeMatchOrders =>
        SetStatus(Downloading);
        replies := 1;
      case SubscribeOrders =>
        SetStatus(Downloading);
        replies := 1;
      case GetOpenOrders =>
        SetStatus(Downloading);
        request.openOrders := request.openOrders.Ask();
        replies := 1;
      case GetStaleOrders =>
        if request.detailsStaleOrders == {} {
          replies := 0;
        } else {
          SetStatus(Downloading);
          request.staleOrders := request.staleOrders.Ask();
          replies := 1;
        }
      case Done =>
        SetStatus(Ready);
        replies := 0;
    }

    method AdvanceDownload()
      modifies this, request
      ensures View() == Advance(config, old(View()))
    {
      while stage != Done
        invariant Advance(config, View()) == Advance(config, old(View()))
        decreases 7 - stage.Index()
      {
        stage := stage.Next();
        awaited := Download();
        if request.fatal != Alive || awaited > 0 {
          return;
        }
      }
    }

    method CheckDownload(expected: Stage)
      modifies this, request
      ensures View() == Check(config, old(View()), expected)
    {
      if stage == expected && awaited > 0 {
        awaited := awaited - 1;
        if awaited == 0 {
          AdvanceDownload();
        }
      }
    }

    method SocketReady()
      modifies this, request
      ensures View() == OnSocketReady(old(View()))
    {
      SetStatus(LoginSent);
    }

    method SocketDisconnected()
      modifies this, request
      ensures View() == OnSocketDisconnected(old(View()))
    {
      SetStatus(Disconnected);
      stage, awaited := Undefined, 0;
    }

    method Auth(errCode: int)
      modifies this, request
      ensures View() == OnAuth(config, old(View()), errCode == 0)
    {
      if errCode == 0 {
        request.log := Then(request.log, AuthAccepted);
        AdvanceDownload();
      } else if !config.retryLogon {
        request.fatal := LoginRefused;
      }
    }

    method Sub(topic: Topic)
      modifies this, request
      ensures View() == OnSub(config, old(View()), topic)
    {
      request.log := Then(request.log, Acked(topic));
      match topic
      case Account => CheckDownload(SubscribeBalances);
      case Positions => CheckDownload(SubscribePositions);
      case MatchOrders => CheckDownload(SubscribeMatchOrders);
      case Orders => CheckDownload(SubscribeOrders);
      case OtherTopic =>
    }

    /** Inserts the keys of all stale orders and tells whether one of them is new. */
    method InsertStaleOrders(found: seq<Key>) returns (any: bool)
      modifies request`detailsStaleOrders
      ensures request.detailsStaleOrders == old(request.detailsStaleOrders) + Keys(found)
      ensures any <==> Keys(found) - old(request.detailsStaleOrders) != {}
    {
      var counter := 0;
      for i := 0 to |found|
        invariant request.detailsStaleOrders == old(request.detailsStaleOrders) + Keys(found[..i])
        invariant counter > 0 <==> exists j :: 0 <= j < i && found[j] !in old(request.detailsStaleOrders)
        invariant counter >= 0
      {
        assert found[..i + 1] == found[..i] + [found[i]];
        if found[i] !in request.detailsStaleOrders {
          request.detailsStaleOrders := request.detailsStaleOrders + {found[i]};
          counter := counter + 1;
        }
      }
      assert found[..|found|] == found;
      any := counter > 0;
      if any {
        ghost var j :| 0 <= j < |found| && found[j] !in old(request.detailsStaleOrders);
        assert found[j] in Keys(found) - old(request.detailsStaleOrders);
      }
    }

    method CheckQueue(found: seq<Key>)
      modifies this, request
      ensures View() == CheckRequestQueue(config, old(View()), Keys(found))
    {
      if stage == GetOpenOrders {
        if request.openOrders.response {
          ghost var before := request.detailsStaleOrders;
          var _ := InsertStaleOrders(found);
          request.log := Then(request.log, DownloadScan(Keys(found) - before, request.detailsStaleOrders));
          CheckDownload(GetOpenOrders);
        }
      } else if stage == GetStaleOrders {
        if request.staleOrders.response {
          if request.detailsStaleOrders != {} {
            request.fatal := StaleKeysLeft;
            return;
          }
          CheckDownload(stage);
        }
      }
    }

    method CheckPeriodically(now: int, found: seq<Key>)
      modifies this, request
      ensures View() == CheckStaleOrders(config, old(View()), now, Keys(found))
    {
      if nextCheckStaleOrders < now {
        nextCheckStaleOrders := now + config.checkStaleOrderFreq;
        ghost var before := request.detailsStaleOrders;
        var any := InsertStaleOrders(found);
        request.log := Then(request.log, PeriodicScan(Keys(found) - before));
        if any {
          request.staleOrders := request.staleOrders.Ask();
        }
      }
    }

    method Timer(refreshed: bool, now: int, found: seq<Key>, periodic: seq<Key>)
      modifies this, request
      ensures View() == OnDropTimer(config, old(View()), refreshed, now, Keys(found), Keys(periodic))
    {
      if refreshed {
        CheckQueue(found);
        if request.fatal == Alive && connectionStatus == Ready {
          CheckPeriodically(now, periodic);
        }
      }
    }
  }

  lemma TakeKey(taken: set<Key>, known: set<Key>, key: Key)
    requires key !in taken
    ensures var found := (taken + {key}) * known;
            && |found| == |taken * known| + (if key in known then 1 else 0)
            && multiset(found) == multiset(taken * known) + if key in known then multiset{key} else multiset{}
  {
    if key in known {
      assert (taken + {key}) * known == taken * known + {key};
    } else {
      assert (taken + {key}) * known == taken * known;
    }
  }

  class OrderEntryREST5 {
    const request: Request
    var ready: bool
    var downloadStaleOrdersCounter: nat
    // what the HTTP client has sent and not yet answered
    var openSent: nat
    var infoSent: multiset<Key>

    constructor (request: Request)
      ensures View().rest == Init().rest && this.request == request
    {
      this.request := request;
      ready := false;
      downloadStaleOrdersCounter := 0;
      openSent := 0;
      infoSent := multiset{};
    }

    ghost function View(): RestSide
      reads this, request
    {
      RestSide(Rest(ready, downloadStaleOrdersCounter, openSent, infoSent), request.View())
    }

    /** One order-info request for every key that names a known order; the set ends up empty. */
    method DrainStaleOrders(known: set<Key>)
      modifies this`infoSent, this`downloadStaleOrdersCounter, request`detailsStaleOrders
      ensures var found := old(request.detailsStaleOrders) * known;
              && infoSent == old(infoSent) + multiset(found)
              && downloadStaleOrdersCounter == old(downloadStaleOrdersCounter) + |found|
      ensures request.detailsStaleOrders == {}
    {
      var todo := request.detailsStaleOrders;
      ghost var taken := {};
      while todo != {}
        invariant taken + todo == request.detailsStaleOrders == old(request.detailsStaleOrders) && taken !! todo
        invariant downloadStaleOrdersCounter == old(downloadStaleOrdersCounter) + |taken * known|
        invariant infoSent == old(infoSent) + multiset(taken * known)
        decreases todo
      {
        var key :| key in todo;
        RequestOrderInfo(key, known);
        TakeKey(taken, known, key);
        taken, todo := taken + {key}, todo - {key};
      }
      assert taken == old(request.detailsStaleOrders);
      request.detailsStaleOrders := {};
    }

    /** Asks for one order, if the key names a known one. */
    method RequestOrderInfo(key: Key, known: set<Key>)
      modifies this`infoSent, this`downloadStaleOrdersCounter
      ensures infoSent == old(infoSent) + if key in known then multiset{key} else multiset{}
      ensures downloadStaleOrdersCounter == old(downloadStaleOrdersCounter) + if key in known then 1 else 0
    {
      if key in known {
        infoSent := infoSent + multiset{key};
        downloadStaleOrdersCounter := downloadStaleOrdersCounter + 1;
      }
    }

    method SendStaleOrders(known: set<Key>)
      modifies this, request
      ensures View() == LaunchStaleOrders(old(View()), known)
    {
      ghost var before := request.detailsStaleOrders;
      request.staleOrders := request.staleOrders.Launch();
      DrainStaleOrders(known);
      request.log := Then(request.log, BatchSent(before * known, before - known));
    }

    method SendOpenOrders()
      modifies this, request
      ensures View() == LaunchOpenOrders(old(View()))
    {
      request.openOrders := request.openOrders.Launch();
      openSent := openSent + 1;
      request.log := Then(request.log, OpenSent);
    }

    method Timer(refreshed: bool, canOpen: bool, canStale: bool, known: set<Key>)
      modifies this, request
      ensures View() == OnRestTimer(old(View()), refreshed, canOpen, canStale, known)
    {
      if refreshed && ready {
        if request.openOrders.pending && request.CanLaunch() && canOpen {
          SendOpenOrders();
        }
        if request.staleOrders.pending && request.CanLaunch() && canStale {
          SendStaleOrders(known);
        }
      }
    }

    method Status(ready: bool)
      modifies this
      ensures View() == RestSide(old(View()).rest.(ready := ready), old(View()).shared)
    {
      this.ready := ready;
    }

    method OpenOrdersAck(outcome: Outcome)
      requires openSent > 0
      modifies this, request
      ensures View() == OnOpenReply(old(View()), outcome)
    {
      openSent := openSent - 1;
      if outcome == Redirection {
        request.fatal := Redirected;
        return;
      }
      request.openOrders := request.openOrders.Commit();
      request.log := Then(request.log, OpenCommitted);
    }

    method OrderInfoAck(key: Key, outcome: Outcome)
      modifies this, request
      ensures View() == OnInfoReply(old(View()), key, outcome)
    {
      infoSent := infoSent - multiset{key};
      if outcome == Redirection {
        request.fatal := Redirected;
        return;
      }
      if downloadStaleOrdersCounter > 0 {
        downloadStaleOrdersCounter := downloadStaleOrdersCounter - 1;
        request.log := Then(request.log, InfoAnswered(key));
      } else {
        request.fatal := UnexpectedAck;
        return;
      }
      if downloadStaleOrdersCounter == 0 {
        request.staleOrders := request.staleOrders.Commit();
        request.log := Then(request.log, StaleCommitted);
      }
    }
  }

  /** One account: its two streams and the object they share. */
  class AccountStreams {
    const dropCopy: DropCopy5
    const orderEntry: OrderEntryREST5

    ghost predicate Valid() { dropCopy.request == orderEntry.request }

    ghost function View(): State
      reads dropCopy, orderEntry, dropCopy.request, orderEntry.request
    {
      State(dropCopy.View().drop, dropCopy.request.View(), orderEntry.View().rest)
    }

    constructor (config: Config)
      ensures Valid() && View() == Init() && dropCopy.config == config
    {
      var request := new Request();
      dropCopy := new DropCopy5(config, request);
      orderEntry := new OrderEntryREST5(request);
    }

    /** The streams together take the steps whose runs `RecoveryRuns` is about. */
    method Handle(e: Event)
      requires Valid() && Enabled(View(), e)
      modifies dropCopy, orderEntry, dropCopy.request
      ensures View() == Step(dropCopy.config, old(View()), e)
    {
      match e
      case SocketReady => dropCopy.SocketReady();
      case SocketDisconnected => dropCopy.SocketDisconnected();
      case AuthReply(accepted) => dropCopy.Auth(if accepted then 0 else 1);
      case SubReply(topic) => dropCopy.Sub(topic);
      case DropTimer(refreshed, now, found, periodic) => dropCopy.Timer(refreshed, now, found, periodic);
      case RestStatus(ready) => orderEntry.Status(ready);
      case RestTimer(refreshed, canOpen, canStale, known) => orderEntry.Timer(refreshed, canOpen, canStale, known);
      case OpenReply(outcome) => orderEntry.OpenOrdersAck(outcome);
      case InfoReply(key, outcome) => orderEntry.OrderInfoAck(key, outcome);
    }
  }
}
