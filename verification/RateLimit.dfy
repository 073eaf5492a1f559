/** The request throttle: an automaton over response headers and statuses that says until when (on
    the system clock, in nanoseconds) no request may be sent. */
module RateLimit {
  import opened Arithmetic

  const MILLISECOND := 1_000_000
  const DEFAULT_BACKOFF := 5_000 * MILLISECOND
  const BLOCKED_BACKOFF := 600_000 * MILLISECOND

  const FORBIDDEN := 403
  const TOO_MANY_REQUESTS := 429

  datatype Header = Unknown | Interval | Limit | Remaining | Reset

  // reset is the time, in milliseconds of the realtime clock, at which the budget is refilled
  datatype Params = Params(interval: int, limit: int, remaining: int, reset: int) {
    predicate Exhausted() { remaining <= 0 && reset != 0 }
  }

  datatype State = State(enabled: bool, params: Params, suspendUntil: int)

  datatype Event =
    | MessageHeader(name: string, value: int, now: int, nowUtc: int)
    | MessageEnd(status: int, now: int)

  function Lower(c: char): char {
    if 'A' <= c <= 'Z' then (c as int + 32) as char else c
  }

  function LowerText(s: string): (r: string)
    ensures |r| == |s|
  {
    if s == [] then [] else [Lower(s[0])] + LowerText(s[1..])
  }

  function ParseHeader(name: string): Header {
    var key := LowerText(name);
    if key == "ratelimit-interval" then Interval
    else if key == "ratelimit-limit" then Limit
    else if key == "ratelimit-remaining" then Remaining
    else if key == "ratelimit-reset" then Reset
    else Unknown
  }

  function Init(enabled: bool): State { State(enabled, Params(0, 0, 0, 0), 0) }

  function UpdateSuspendUntil(s: State, now: int, nowUtc: int): State {
    if !s.enabled then s
    else if s.params.remaining > 0 || s.params.reset == 0 then s.(suspendUntil := 0)
    else
      var timestamp := s.params.reset * MILLISECOND;
      if nowUtc < timestamp then s.(suspendUntil := Max(s.suspendUntil, now + (timestamp - nowUtc)))
      else s.(suspendUntil := Max(s.suspendUntil, now + DEFAULT_BACKOFF))
  }

  function OnHeader(s: State, name: string, value: int, now: int, nowUtc: int): State {
    match ParseHeader(name)
    case Unknown => s
    case Interval => s.(params := s.params.(interval := value))
    case Limit => s.(params := s.params.(limit := value))
    case Remaining =>
      if s.params.remaining == value then s
      else UpdateSuspendUntil(s.(params := s.params.(remaining := value)), now, nowUtc)
    case Reset =>
      if s.params.reset == value then s
      else UpdateSuspendUntil(s.(params := s.params.(reset := value)), now, nowUtc)
  }

  function OnEnd(s: State, status: int, now: int): State {
    if !s.enabled then s
    else if status == FORBIDDEN then s.(suspendUntil := Max(s.suspendUntil, now + BLOCKED_BACKOFF))
    else if status == TOO_MANY_REQUESTS && s.suspendUntil == 0 then s.(suspendUntil := now + DEFAULT_BACKOFF)
    else s
  }

  function Step(s: State, e: Event): State {
    match e
    case MessageHeader(name, value, now, nowUtc) => OnHeader(s, name, value, now, nowUtc)
    case MessageEnd(status, now) => OnEnd(s, status, now)
  }

  function Run(s: State, es: seq<Event>): State {
    if es == [] then s else Step(Run(s, es[..|es| - 1]), es[|es| - 1])
  }

  // --- the object ---

  class Throttle {
    const enabled: bool
    var params: Params
    var suspendUntil: int

    constructor (enabled: bool)
      ensures View() == Init(enabled)
    {
      this.enabled := enabled;
      params := Params(0, 0, 0, 0);
      suspendUntil := 0;
    }

    ghost function View(): State
      reads this
    {
      State(enabled, params, suspendUntil)
    }

    method UpdateSuspension(now: int, nowUtc: int)
      modifies this`suspendUntil
      ensures View() == UpdateSuspendUntil(old(View()), now, nowUtc)
    {
      if !enabled {
        return;
      }
      if params.remaining > 0 || params.reset == 0 {
        suspendUntil := 0;
      } else {
        var timestamp := params.reset * MILLISECOND;
        if nowUtc < timestamp {
          var period := timestamp - nowUtc;
          suspendUntil := Max(suspendUntil, now + period);
        } else {
          suspendUntil := Max(suspendUntil, now + DEFAULT_BACKOFF);
        }
      }
    }

    method MessageHeader(name: string, value: int, now: int, nowUtc: int)
      modifies this
      ensures View() == Step(old(View()), Event.MessageHeader(name, value, now, nowUtc))
    {
      match ParseHeader(name)
      case Unknown =>
      case Interval => params := params.(interval := value);
      case Limit => params := params.(limit := value);
      case Remaining =>
        if params.remaining != value {
          params := params.(remaining := value);
          UpdateSuspension(now, nowUtc);
        }
      case Reset =>
        if params.reset != value {
          params := params.(reset := value);
          UpdateSuspension(now, nowUtc);
        }
    }

    method MessageEnd(status: int, now: int)
      modifies this
      ensures View() == Step(old(View()), Event.MessageEnd(status, now))
    {
      if !enabled {
        return;
      }
      if status == FORBIDDEN {
        suspendUntil := Max(suspendUntil, now + BLOCKED_BACKOFF);
      } else if status == TOO_MANY_REQUESTS {
        if suspendUntil == 0 {
          suspendUntil := now + DEFAULT_BACKOFF;
        }
      }
    }
  }

  // --- what every run keeps ---

  /** The system clock counts from zero and the realtime clock is ahead of it by `offset`. */
  predicate SameOffset(es: seq<Event>, offset: int) {
    forall i :: 0 <= i < |es| ==> es[i].now >= 0 && (es[i].MessageHeader? ==> es[i].nowUtc == es[i].now + offset)
  }

  /** While the budget is reported as exhausted, nothing may be sent before the reported reset time:
      for every order of headers and every 403 or 429 in between. */
  lemma {:induction false} ExhaustedMeansSuspended(es: seq<Event>, offset: int)
    requires SameOffset(es, offset)
    ensures var s := Run(Init(true), es);
            s.enabled && (s.params.Exhausted() ==> s.suspendUntil >= s.params.reset * MILLISECOND - offset)
  {
    if es != [] {
      ExhaustedMeansSuspended(es[..|es| - 1], offset);
      var e := es[|es| - 1];
      assert e.now >= 0 && (e.MessageHeader? ==> e.nowUtc == e.now + offset);
    }
  }

  predicate Accepted(es: seq<Event>) {
    forall i :: 0 <= i < |es| ==>
                  && es[i].now >= 0
                  && (es[i].MessageEnd? ==> es[i].status != FORBIDDEN && es[i].status != TOO_MANY_REQUESTS)
  }

  /** Without rejected requests the throttle is active exactly while the budget is exhausted. */
  lemma {:induction false} ActiveExactlyWhenExhausted(es: seq<Event>)
    requires Accepted(es)
    ensures var s := Run(Init(true), es);
            s.enabled && s.suspendUntil >= 0 && (s.suspendUntil != 0 <==> s.params.Exhausted())
  {
    if es != [] {
      ActiveExactlyWhenExhausted(es[..|es| - 1]);
    }
  }

  /** A disabled throttle never suspends. */
  lemma {:induction false} DisabledNeverSuspends(es: seq<Event>)
    ensures Run(Init(false), es).suspendUntil == 0 && !Run(Init(false), es).enabled
  {
    if es != [] {
      DisabledNeverSuspends(es[..|es| - 1]);
    }
  }

  /** The one kind of event that takes a suspension back: a changed header that ends exhaustion. */
  predicate Clears(s: State, e: Event) {
    && e.MessageHeader?
    && ((ParseHeader(e.name).Remaining? && e.value != s.params.remaining) ||
        (ParseHeader(e.name).Reset? && e.value != s.params.reset))
    && !Step(s, e).params.Exhausted()
  }

  lemma OnlyClearingLowers(s: State, e: Event)
    requires e.now >= 0
    ensures s.enabled && Clears(s, e) ==> Step(s, e).suspendUntil == 0
    ensures Step(s, e).suspendUntil < s.suspendUntil ==> s.enabled && Clears(s, e)
  {
  }

  ghost predicate NeverCleared(s: State, es: seq<Event>) {
    forall i :: 0 <= i < |es| ==> es[i].now >= 0 && !Clears(Run(s, es[..i]), es[i])
  }

  /** A suspension lasts through any number of events until one of them clears it. */
  lemma {:induction false} SuspensionLasts(s: State, es: seq<Event>)
    requires NeverCleared(s, es)
    ensures Run(s, es).suspendUntil >= s.suspendUntil
  {
    if es != [] {
      var before := es[..|es| - 1];
      forall i | 0 <= i < |before|
        ensures before[i].now >= 0 && !Clears(Run(s, before[..i]), before[i])
      {
        assert before[..i] == es[..i];
      }
      SuspensionLasts(s, before);
      OnlyClearingLowers(Run(s, before), es[|es| - 1]);
    }
  }

  /** After a 403, nothing may be sent for ten minutes, unless a header reports a fresh budget. */
  lemma BlockedForTenMinutes(s: State, now: int, es: seq<Event>)
    requires s.enabled && NeverCleared(OnEnd(s, FORBIDDEN, now), es)
    ensures Run(OnEnd(s, FORBIDDEN, now), es).suspendUntil >= now + BLOCKED_BACKOFF
  {
    SuspensionLasts(OnEnd(s, FORBIDDEN, now), es);
  }

  /** A 429 makes the throttle back off exactly if no earlier suspension is on record: one that has
      already expired, and was never cleared, keeps it from backing off again. */
  lemma BackOffExactly(s: State, now: int)
    requires s.enabled && now >= 0
    ensures var t := OnEnd(s, TOO_MANY_REQUESTS, now);
            && (t.suspendUntil > now <==> s.suspendUntil == 0 || s.suspendUntil > now)
            && (t.suspendUntil >= now + DEFAULT_BACKOFF
              <==> s.suspendUntil == 0 || s.suspendUntil >= now + DEFAULT_BACKOFF)
  {
  }

  /** Such a record is reachable: the second of two 429 an hour apart is not backed off from. */
  lemma SecondRejectionIgnored()
    ensures exists es, now :: var s := Run(Init(true), es);
              now >= 0 && 0 < s.suspendUntil <= now && OnEnd(s, TOO_MANY_REQUESTS, now).suspendUntil <= now
  {
    var first := MessageEnd(TOO_MANY_REQUESTS, 1_000 * MILLISECOND);
    assert Run(Init(true), []) == Init(true);
    assert [first][..0] == [];
    assert Run(Init(true), [first]) == Step(Init(true), first);
    var now := 3_601_000 * MILLISECOND;
    assert OnEnd(Run(Init(true), [first]), TOO_MANY_REQUESTS, now).suspendUntil <= now;
  }

  // --- every single event, with its names, numbers and units ---

  /** Equal but for capital letters in the name. */
  predicate SameLetters(name: string, key: string) {
    && |name| == |key|
    && forall i :: 0 <= i < |name| ==>
                     name[i] == key[i] || ('A' <= name[i] <= 'Z' && name[i] as int + 32 == key[i] as int)
  }

  lemma {:induction false} LowerAt(name: string, i: nat)
    requires i < |name|
    ensures LowerText(name)[i] == Lower(name[i])
  {
    if i > 0 {
      LowerAt(name[1..], i - 1);
    }
  }

  lemma LowerTextIs(name: string, key: string)
    requires forall i :: 0 <= i < |key| ==> !('A' <= key[i] <= 'Z')
    ensures LowerText(name) == key <==> SameLetters(name, key)
  {
    forall i | 0 <= i < |name|
      ensures LowerText(name)[i] == Lower(name[i])
    {
      LowerAt(name, i);
    }
    if SameLetters(name, key) {
      assert forall i :: 0 <= i < |name| ==> LowerText(name)[i] == key[i];
    }
  }

  lemma HeaderNames(name: string)
    ensures ParseHeader(name).Interval? <==> SameLetters(name, "ratelimit-interval")
    ensures ParseHeader(name).Limit? <==> SameLetters(name, "ratelimit-limit")
    ensures ParseHeader(name).Remaining? <==> SameLetters(name, "ratelimit-remaining")
    ensures ParseHeader(name).Reset? <==> SameLetters(name, "ratelimit-reset")
  {
    LowerTextIs(name, "ratelimit-interval");
    LowerTextIs(name, "ratelimit-limit");
    LowerTextIs(name, "ratelimit-remaining");
    LowerTextIs(name, "ratelimit-reset");
  }

  /** A header is recognized in any capitalization, and its value is kept. */
  lemma HeadersAreKept(s: State, name: string, value: int, now: int, nowUtc: int)
    ensures var t := Step(s, MessageHeader(name, value, now, nowUtc));
            && t.enabled == s.enabled
            && (SameLetters(name, "ratelimit-interval") ==> t == s.(params := s.params.(interval := value)))
            && (SameLetters(name, "ratelimit-limit") ==> t == s.(params := s.params.(limit := value)))
            && (SameLetters(name, "ratelimit-remaining") ==> t.params == s.params.(remaining := value))
            && (SameLetters(name, "ratelimit-reset") ==> t.params == s.params.(reset := value))
            && (t != s ==> SameLetters(name, "ratelimit-interval") || SameLetters(name, "ratelimit-limit") ||
                           SameLetters(name, "ratelimit-remaining") || SameLetters(name, "ratelimit-reset"))
            && (t.params.remaining == s.params.remaining && t.params.reset == s.params.reset ==>
                  t.suspendUntil == s.suspendUntil)
            && (t.params.reset == s.params.reset || SameLetters(name, "ratelimit-reset"))
  {
    HeaderNames(name);
  }

  /** What a changed budget makes of the suspension, in nanoseconds: nothing is left of it with budget;
      without, it lasts up to the reset time, or five seconds if that has passed. */
  lemma ChangedBudgetDecides(s: State, name: string, value: int, now: int, offset: int)
    requires s.enabled
    requires (SameLetters(name, "ratelimit-remaining") && value != s.params.remaining) ||
             (SameLetters(name, "ratelimit-reset") && value != s.params.reset)
    ensures var t := Step(s, MessageHeader(name, value, now, now + offset));
            var until := if t.params.reset * 1_000_000 > now + offset then t.params.reset * 1_000_000 - offset
                         else now + 5_000_000_000;
            t.suspendUntil == if t.params.remaining > 0 || t.params.reset == 0 then 0
                              else if s.suspendUntil < until then until
                              else s.suspendUntil
  {
    HeaderNames(name);
  }

  /** 403 means ten minutes, 429 five seconds unless a suspension is on record; nothing else counts. */
  lemma StatusDecides(s: State, status: int, now: int)
    requires s.enabled
    ensures Step(s, MessageEnd(status, now)) ==
            s.(suspendUntil :=
                 if status == 403 && s.suspendUntil < now + 600_000_000_000 then now + 600_000_000_000
                 else if status == 429 && s.suspendUntil == 0 then now + 5_000_000_000
                 else s.suspendUntil)
  {
  }

  ghost predicate Reported(es: seq<Event>, reset: int) {
    exists i ::
      0 <= i < |es| && es[i].MessageHeader? && SameLetters(es[i].name, "ratelimit-reset") && es[i].value == reset
  }

  ghost predicate Forbidden(es: seq<Event>, now: int) {
    exists i :: 0 <= i < |es| && es[i].MessageEnd? && es[i].status == 403 && es[i].now == now
  }

  ghost predicate Happened(es: seq<Event>, now: int) { exists i :: 0 <= i < |es| && es[i].now == now }

  /** There is a reason for a suspension up to `until`. */
  ghost predicate Justified(es: seq<Event>, offset: int, until: int) {
    || until == 0
    || (exists reset :: Reported(es, reset) && until == reset * 1_000_000 - offset)
    || (exists now :: Happened(es, now) && until == now + 5_000_000_000)
    || (exists now :: Forbidden(es, now) && until == now + 600_000_000_000)
  }

  lemma OneMoreEvent(es: seq<Event>)
    requires es != []
    ensures var before, e := es[..|es| - 1], es[|es| - 1];
            && (forall r :: Reported(before, r) ==> Reported(es, r))
            && (forall now :: Forbidden(before, now) ==> Forbidden(es, now))
            && (forall now :: Happened(before, now) ==> Happened(es, now))
            && Happened(es, e.now)
            && (e.MessageEnd? && e.status == 403 ==> Forbidden(es, e.now))
            && (e.MessageHeader? && SameLetters(e.name, "ratelimit-reset") ==> Reported(es, e.value))
  {
    var before := es[..|es| - 1];
    forall r | Reported(before, r)
      ensures Reported(es, r)
    {
      var i :| 0 <= i < |before| && before[i].MessageHeader? && SameLetters(before[i].name, "ratelimit-reset") &&
        before[i].value == r;
      assert es[i] == before[i];
    }
    forall now | Forbidden(before, now)
      ensures Forbidden(es, now)
    {
      var i :| 0 <= i < |before| && before[i].MessageEnd? && before[i].status == 403 && before[i].now == now;
      assert es[i] == before[i];
    }
    forall now | Happened(before, now)
      ensures Happened(es, now)
    {
      var i :| 0 <= i < |before| && before[i].now == now;
      assert es[i] == before[i];
    }
  }

  /** A suspension never outlasts its reason: it ends at a reported reset time, five seconds after an
      event, or ten minutes after a 403. */
  lemma {:induction false} SuspensionIsJustified(es: seq<Event>, offset: int)
    requires SameOffset(es, offset)
    ensures var s := Run(Init(true), es);
            s.enabled && Justified(es, offset, s.suspendUntil) && (s.params.reset == 0 || Reported(es, s.params.reset))
  {
    if es != [] {
      var before, e := es[..|es| - 1], es[|es| - 1];
      SuspensionIsJustified(before, offset);
      var s := Run(Init(true), before);
      assert e.MessageHeader? ==> e.nowUtc == e.now + offset;
      if e.MessageHeader? {
        HeaderIsJustified(es, offset, s);
      } else {
        StatusIsJustified(es, offset, s);
      }
    }
  }

  lemma HeaderIsJustified(es: seq<Event>, offset: int, s: State)
    requires es != [] && es[|es| - 1].MessageHeader? && es[|es| - 1].nowUtc == es[|es| - 1].now + offset
    requires var before := es[..|es| - 1];
             && s.enabled && Justified(before, offset, s.suspendUntil)
             && (s.params.reset == 0 || Reported(before, s.params.reset))
    ensures var t := Step(s, es[|es| - 1]);
            t.enabled && Justified(es, offset, t.suspendUntil) && (t.params.reset == 0 || Reported(es, t.params.reset))
  {
    var e := es[|es| - 1];
    OneMoreEvent(es);
    HeadersAreKept(s, e.name, e.value, e.now, e.nowUtc);
    if (SameLetters(e.name, "ratelimit-remaining") && e.value != s.params.remaining) ||
       (SameLetters(e.name, "ratelimit-reset") && e.value != s.params.reset)
    {
      ChangedBudgetDecides(s, e.name, e.value, e.now, offset);
    }
  }

  lemma StatusIsJustified(es: seq<Event>, offset: int, s: State)
    requires es != [] && es[|es| - 1].MessageEnd?
    requires var before := es[..|es| - 1];
             && s.enabled && Justified(before, offset, s.suspendUntil)
             && (s.params.reset == 0 || Reported(before, s.params.reset))
    ensures var t := Step(s, es[|es| - 1]);
            t.enabled && Justified(es, offset, t.suspendUntil) && (t.params.reset == 0 || Reported(es, t.params.reset))
  {
    OneMoreEvent(es);
    StatusDecides(s, es[|es| - 1].status, es[|es| - 1].now);
  }
}
