/** What the observable history of the recovery protocol has to look like, stated on the history
    alone: no definition here looks at the state of the gateway. */
module RecoveryHistory {
  import opened Recovery

  // --- the traffic with the exchange ---

  /** The HTTP traffic of one account: at most one kind of request in flight, a batch is answered
      key by key, and the answer to the last key is followed at once by the commit. */
  datatype Wire = Idle | OpenFlight | Batch(left: multiset<Key>) | Closing | Stuck | Bad {
    function Next(o: Obs): Wire {
      match o
      case OpenSent => if Idle? then OpenFlight else Bad
      case OpenCommitted => if OpenFlight? then Idle else Bad
      case BatchSent(found, _) =>
        if !Idle? then Bad else if found == {} then Stuck else Batch(multiset(found))
      case InfoAnswered(k) =>
        if !Batch? || k !in left then Bad
        else if left - multiset{k} == multiset{} then Closing
        else Batch(left - multiset{k})
      case StaleCommitted => if Closing? then Idle else Bad
      case _ => if Closing? then Bad else this
    }
  }

  function WireOf(h: History): Wire {
    if h.Empty? then Idle else WireOf(h.before).Next(h.last)
  }

  /** The last batch asked for the orders `found`, and since then nothing but answers came. */
  ghost predicate OpenBatch(h: History, found: set<Key>, left: multiset<Key>) {
    match h
    case Empty => false
    case Then(before, BatchSent(f, _)) => f == found != {} && left == multiset(found)
    case Then(before, InfoAnswered(k)) => OpenBatch(before, found, left + multiset{k})
    case Then(before, o) => !IsTraffic(o) && OpenBatch(before, found, left)
  }

  predicate IsTraffic(o: Obs) {
    o.OpenSent? || o.OpenCommitted? || o.BatchSent? || o.InfoAnswered? || o.StaleCommitted?
  }

  /** Every commit of the stale orders closes a batch that found an order: every key of it has been
      answered, the last one just before. */
  ghost predicate CommitsExact(h: History) {
    h.Empty? ||
    (CommitsExact(h.before) &&
     (h.last.StaleCommitted? ==>
        && h.before.Then? && h.before.last.InfoAnswered?
        && exists found :: OpenBatch(h.before, found, multiset{})))
  }

  // --- the stale keys ---

  /** The keys a scan reports as new. */
  function Added(o: Obs): set<Key> {
    match o
    case DownloadScan(added, _) => added
    case PeriodicScan(added) => added
    case _ => {}
  }

  /** The keys a batch hands to `find_order`. */
  function Handed(o: Obs): set<Key> {
    match o
    case BatchSent(found, lost) => found + lost
    case _ => {}
  }

  function Waiting(h: History): set<Key> {
    if h.Empty? then {} else (Waiting(h.before) - Handed(h.last)) + Added(h.last)
  }

  predicate EverAdded(h: History, k: Key) { h.Then? && (k in Added(h.last) || EverAdded(h.before, k)) }

  /** After the last scan that added the key, a batch handed it over. */
  predicate HandedSince(h: History, k: Key) {
    h.Then? && k !in Added(h.last) && (k in Handed(h.last) || HandedSince(h.before, k))
  }

  // --- the download ---

  predicate Ends(o: Obs) { o.Published? && o.status.Disconnected? }

  datatype Milestone =
    | Opened
    | LoggedIn
    | BalancesAcked
    | PositionsAcked
    | MatchOrdersAcked
    | OrdersAcked
    | OpenAnswered
    | ScannedClean
    | ScannedStale
    | StaleAnswered
  {
    function Previous(): Milestone {
      match this
      case Opened => Opened
      case LoggedIn => Opened
      case BalancesAcked => LoggedIn
      case PositionsAcked => BalancesAcked
      case MatchOrdersAcked => PositionsAcked
      case OrdersAcked => MatchOrdersAcked
      case OpenAnswered => OrdersAcked
      case ScannedClean => OpenAnswered
      case ScannedStale => OpenAnswered
      case StaleAnswered => ScannedStale
    }

    predicate Matches(o: Obs) {
      match this
      case Opened => false
      case LoggedIn => o.AuthAccepted?
      case BalancesAcked => o == Acked(Account)
      case PositionsAcked => o == Acked(Positions)
      case MatchOrdersAcked => o == Acked(MatchOrders)
      case OrdersAcked => o == Acked(Orders)
      case OpenAnswered => o.OpenCommitted?
      case ScannedClean => o.DownloadScan? && o.total == {}
      case ScannedStale => o.DownloadScan? && o.total != {}
      case StaleAnswered => o.StaleCommitted?
    }
  }

  /** Since the session began, all milestones up to `m` have occurred, in their order. */
  predicate Reached(m: Milestone, h: History)
    decreases h
  {
    m.Opened? ||
    (h.Then? && !Ends(h.last) &&
     (Reached(m, h.before) || (m.Matches(h.last) && Reached(m.Previous(), h.before))))
  }

  predicate Recovered(h: History) { Reached(ScannedClean, h) || Reached(StaleAnswered, h) }

  predicate ShowsStage(o: Obs) { o.Published? && (o.status.Downloading? || o.status.Ready?) }

  /** The last download stage published in the session. */
  function LastStage(h: History): nat {
    if h.Empty? || Ends(h.last) then 0
    else if ShowsStage(h.last) then h.last.stage.Index()
    else LastStage(h.before)
  }

  /** An open-orders request went out after the download last asked for one. */
  predicate SentSinceAsked(h: History) {
    h.Then? && (h.last.OpenSent? || (h.last != Published(Downloading, GetOpenOrders) && SentSinceAsked(h.before)))
  }

  /** A batch went out after the last scan of a download. */
  predicate BatchSentSinceScan(h: History) {
    h.Then? && (h.last.BatchSent? || (!h.last.DownloadScan? && BatchSentSinceScan(h.before)))
  }

  /** The last scan of a download found no key, or a batch sent after it was committed. */
  predicate ScanSettled(h: History) {
    && h.Then?
    && match h.last
       case DownloadScan(_, total) => total == {}
       case StaleCommitted => BatchSentSinceScan(h.before) || ScanSettled(h.before)
       case _ => ScanSettled(h.before)
  }

  // --- together ---

  /** A batch takes all keys that wait; READY comes only when recovered; stages rise. */
  predicate Allowed(h: History, o: Obs) {
    && (o.BatchSent? ==> o.found !! o.lost && o.found + o.lost == Waiting(h))
    && (o.Published? && o.status.Ready? ==> Recovered(h))
    && (ShowsStage(o) ==> LastStage(h) < o.stage.Index())
  }

  /** Every entry was allowed when it was made. */
  predicate Orderly(h: History) { h.Empty? || (Orderly(h.before) && Allowed(h.before, h.last)) }

  // --- what the wire and the waiting keys mean ---

  function LeftOf(w: Wire): multiset<Key> { if w.Batch? then w.left else multiset{} }

  lemma LeftAfter(w: Wire, o: Obs)
    requires (w.Batch? || w.Closing?) && (w.Next(o).Batch? || w.Next(o).Closing?)
    ensures IsTraffic(o) ==> o.InfoAnswered?
    ensures LeftOf(w) == (if o.InfoAnswered? then LeftOf(w.Next(o)) + multiset{o.key} else LeftOf(w.Next(o)))
  {
    if o.InfoAnswered? {
      assert w.left == w.left - multiset{o.key} + multiset{o.key};
    }
  }

  lemma {:induction false} BatchIsOpen(h: History) returns (found: set<Key>)
    requires WireOf(h).Batch? || WireOf(h).Closing?
    ensures OpenBatch(h, found, LeftOf(WireOf(h)))
  {
    if h.last.BatchSent? {
      found := h.last.found;
    } else {
      found := BatchIsOpen(h.before);
      LeftAfter(WireOf(h.before), h.last);
    }
  }

  lemma {:induction false} WireMeansExactCommits(h: History)
    requires !WireOf(h).Bad?
    ensures CommitsExact(h)
  {
    if h.Then? {
      WireMeansExactCommits(h.before);
      if h.last.StaleCommitted? {
        var found := BatchIsOpen(h.before);
      }
    }
  }

  /** A key that was added waits exactly as long as no batch has taken it. */
  lemma {:induction false} AddedWaitsOrHanded(h: History, k: Key)
    ensures k in Waiting(h) <==> EverAdded(h, k) && !HandedSince(h, k)
  {
    if h.Then? {
      AddedWaitsOrHanded(h.before, k);
    }
  }
}
