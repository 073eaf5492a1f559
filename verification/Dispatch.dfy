/** The dispatchers of private messages. Each walks over the fields of a message until a helper asks
    it to stop, and calls a handler on the way. A message is the sequence of its fields; hashed key
    comparisons are comparisons. */
module Dispatch {
  import opened Text
  import opened Splitting

  datatype Field = Field(key: string, value: string)

  datatype Handler = Close2 | Error2 | Ping | Auth | Sub | Response | Response5
    | FundingRate | Accounts | Positions | MatchOrders | Orders
    | AccountsCross | PositionsCross | MatchOrdersCross | OrdersCross
    | Account5 | Positions5 | MatchOrders5 | Orders5

  /** True and false are the dispatcher's results; otherwise the process ends. */
  datatype Outcome = True | False | Fatal

  datatype Operator = UndefinedOp | UnknownOp | CloseOp | ErrorOp | PingOp | AuthOp | SubOp | NotifyOp

  function OperatorOf(s: string): Operator {
    if s == "" then UndefinedOp
    else if s == "close" then CloseOp
    else if s == "error" then ErrorOp
    else if s == "ping" then PingOp
    else if s == "auth" then AuthOp
    else if s == "sub" then SubOp
    else if s == "notify" then NotifyOp
    else UnknownOp
  }

  // --- topics ---

  function FindLast(s: string, c: char, to: nat): (pos: int)
    requires to <= |s|
    ensures -1 <= pos < to && (pos >= 0 ==> s[pos] == c)
  {
    if to == 0 then -1 else if s[to - 1] == c then to - 1 else FindLast(s, c, to - 1)
  }

  function ExtractTopicHelper(topic: string): string {
    var separator1 := Find(topic, '.', 0);
    var first := if separator1 >= 0 then topic[..separator1] else topic;
    if first != "public" then first
    else
      var separator2 := FindLast(topic, '.', |topic|);
      topic[separator2 + 1..]
  }

  const TOPICS2: map<string, Handler> := map[
    "funding_rate" := FundingRate,
    "accounts" := Accounts, "positions" := Positions, "matchOrders" := MatchOrders, "orders" := Orders,
    "accounts_cross" := AccountsCross, "positions_cross" := PositionsCross,
    "matchOrders_cross" := MatchOrdersCross, "orders_cross" := OrdersCross
  ]

  const TOPICS5: map<string, Handler> := map[
    "account" := Account5, "positions" := Positions5, "match_orders" := MatchOrders5, "orders" := Orders5
  ]

  function Topic2Handler(topic: string): Option<Handler> {
    if topic in TOPICS2 then Some(TOPICS2[topic]) else None
  }

  function Topic5Handler(topic: string): Option<Handler> {
    if topic in TOPICS5 then Some(TOPICS5[topic]) else None
  }

  // --- what a field means on its own ---

  datatype Verdict = Ignore | Stop(handler: Option<Handler>) | Die

  function OperatorVerdict(s: string): Verdict {
    match OperatorOf(s)
    case UndefinedOp => Die
    case UnknownOp => Stop(None)
    case CloseOp => Stop(Some(Close2))
    case ErrorOp => Stop(Some(Error2))
    case PingOp => Stop(Some(Ping))
    case AuthOp => Stop(Some(Auth))
    case SubOp => Stop(Some(Sub))
    case NotifyOp => Ignore
  }

  function Verdict2(f: Field): Verdict {
    if f.key == "op" then OperatorVerdict(f.value)
    else if f.key == "topic" then Stop(Topic2Handler(ExtractTopicHelper(f.value)))
    else Ignore
  }

  function Verdict3(f: Field): Verdict {
    if f.key == "op" then (if OperatorOf(f.value) == SubOp then Ignore else OperatorVerdict(f.value))
    else if f.key == "status" then Stop(Some(Response))
    else Ignore
  }

  function Verdict5(f: Field): Verdict {
    if f.key == "op" then OperatorVerdict(f.value)
    else if f.key == "cid" then Stop(Some(Response5))
    else if f.key == "topic" then Stop(Topic5Handler(f.value))
    else Ignore
  }

  /** The message means what its first meaningful field means. */
  function Decide(verdict: Field -> Verdict, message: seq<Field>): Verdict {
    if message == [] then Ignore
    else if verdict(message[0]) != Ignore then verdict(message[0])
    else Decide(verdict, message[1..])
  }

  function Conclude(v: Verdict, allowUnknown: bool): (Outcome, seq<Handler>) {
    match v
    case Die => (Fatal, [])
    case Stop(Some(handler)) => (True, [handler])
    case _ => (if allowUnknown then False else Fatal, [])
  }

  /** What the dispatchers return, and the handlers they call. */
  function Result2(message: seq<Field>, allowUnknown: bool): (Outcome, seq<Handler>) {
    Conclude(Decide(Verdict2, message), allowUnknown)
  }

  function Result3(message: seq<Field>, allowUnknown: bool): (Outcome, seq<Handler>) {
    Conclude(Decide(Verdict3, message), allowUnknown)
  }

  function Result5(message: seq<Field>, allowUnknown: bool): (Outcome, seq<Handler>) {
    Conclude(Decide(Verdict5, message), allowUnknown)
  }

  lemma {:induction false} DecideSnoc(verdict: Field -> Verdict, message: seq<Field>, f: Field)
    ensures Decide(verdict, message + [f])
      == if Decide(verdict, message) != Ignore then Decide(verdict, message) else verdict(f)
  {
    if message == [] {
      assert [f][1..] == [];
      assert message + [f] == [f];
    } else {
      assert (message + [f])[1..] == message[1..] + [f];
      DecideSnoc(verdict, message[1..], f);
    }
  }

  lemma {:induction false} DecideEarly(verdict: Field -> Verdict, message: seq<Field>, n: nat)
    requires n <= |message| && Decide(verdict, message[..n]) != Ignore
    ensures Decide(verdict, message) == Decide(verdict, message[..n])
  {
    if n > 0 && verdict(message[0]) == Ignore {
      assert message[..n][1..] == message[1..][..n - 1];
      DecideEarly(verdict, message[1..], n - 1);
    }
  }

  // --- the dispatchers ---

  /** One dispatch at work: its result so far and the handlers it has called. */
  class Run {
    var result: bool
    var dead: bool
    var calls: seq<Handler>

    constructor ()
      ensures !result && !dead && calls == []
    {
      result, dead, calls := false, false, [];
    }

    method Call(handler: Handler)
      modifies this
      ensures result && calls == old(calls) + [handler] && dead == old(dead)
    {
      calls := calls + [handler];
      result := true;
    }

    /** The state after a helper that found `v`, given that no handler had been called before. */
    predicate Did(v: Verdict, stop: bool)
      reads this
    {
      dead == (v == Die) && stop == v.Stop? &&
      result == (v.Stop? && v.handler.Some?) &&
      calls == if v.Stop? && v.handler.Some? then [v.handler.value] else []
    }

    method OperatorField(value: string) returns (stop: bool)
      requires !result && !dead && calls == []
      modifies this
      ensures Did(OperatorVerdict(value), stop)
    {
      match OperatorOf(value) {
        case UndefinedOp =>
          dead := true;
          return false;
        case UnknownOp =>
        case CloseOp => Call(Close2);
        case ErrorOp => Call(Error2);
        case PingOp => Call(Ping);
        case AuthOp => Call(Auth);
        case SubOp => Call(Sub);
        case NotifyOp => return false;
      }
      return true;
    }

    method Topic2(topic: string)
      requires !result && !dead && calls == []
      modifies this
      ensures Did(Stop(Topic2Handler(topic)), true)
    {
      if topic == "funding_rate" {
        Call(FundingRate);
      } else if topic == "accounts" {
        Call(Accounts);
      } else if topic == "positions" {
        Call(Positions);
      } else if topic == "matchOrders" {
        Call(MatchOrders);
      } else if topic == "orders" {
        Call(Orders);
      } else if topic == "accounts_cross" {
        Call(AccountsCross);
      } else if topic == "positions_cross" {
        Call(PositionsCross);
      } else if topic == "matchOrders_cross" {
        Call(MatchOrdersCross);
      } else if topic == "orders_cross" {
        Call(OrdersCross);
      }
    }

    method Topic5(topic: string)
      requires !result && !dead && calls == []
      modifies this
      ensures Did(Stop(Topic5Handler(topic)), true)
    {
      if topic == "account" {
        Call(Account5);
      } else if topic == "positions" {
        Call(Positions5);
      } else if topic == "match_orders" {
        Call(MatchOrders5);
      } else if topic == "orders" {
        Call(Orders5);
      }
    }

    method Helper2(f: Field) returns (stop: bool)
      requires !result && !dead && calls == []
      modifies this
      ensures Did(Verdict2(f), stop)
    {
      if f.key == "op" {
        stop := OperatorField(f.value);
      } else if f.key == "topic" {
        Topic2(ExtractTopicHelper(f.value));
        stop := true;
      } else {
        stop := result;
      }
    }

    method Helper3(f: Field) returns (stop: bool)
      requires !result && !dead && calls == []
      modifies this
      ensures Did(Verdict3(f), stop)
    {
      if f.key == "op" {
        match OperatorOf(f.value) {
          case UndefinedOp =>
            dead := true;
            return false;
          case UnknownOp =>
          case CloseOp => Call(Close2);
          case ErrorOp => Call(Error2);
          case PingOp => Call(Ping);
          case AuthOp => Call(Auth);
          case SubOp => return false;
          case NotifyOp => return false;
        }
        return true;
      } else if f.key == "status" {
        Call(Response);
      }
      return result;
    }

    method Helper5(f: Field) returns (stop: bool)
      requires !result && !dead && calls == []
      modifies this
      ensures Did(Verdict5(f), stop)
    {
      if f.key == "op" {
        stop := OperatorField(f.value);
      } else if f.key == "cid" {
        Call(Response5);
        stop := result;
      } else if f.key == "topic" {
        Topic5(f.value);
        stop := true;
      } else {
        stop := result;
      }
    }

    function Finish(allowUnknown: bool): Outcome
      reads this
    {
      if dead then Fatal
      else if result || allowUnknown then (if result then True else False)
      else Fatal
    }
  }

  /** What every dispatcher promises: at most one handler, and true exactly when one was called. */
  predicate Promise(outcome: Outcome, calls: seq<Handler>) {
    |calls| <= 1 && (outcome == True <==> |calls| == 1)
  }

  method Dispatch2(message: seq<Field>, allowUnknown: bool) returns (outcome: Outcome, calls: seq<Handler>)
    ensures (outcome, calls) == Result2(message, allowUnknown)
    ensures Promise(outcome, calls)
  {
    var run := new Run();
    var i := 0;
    var stop := false;
    while i < |message| && !stop && !run.dead
      invariant i <= |message|
      invariant run.Did(Decide(Verdict2, message[..i]), stop)
      modifies run
    {
      DecideSnoc(Verdict2, message[..i], message[i]);
      assert message[..i] + [message[i]] == message[..i + 1];
      stop := run.Helper2(message[i]);
      i := i + 1;
    }
    EndOfLoop(Verdict2, message, i);
    return run.Finish(allowUnknown), run.calls;
  }

  method Dispatch3(message: seq<Field>, allowUnknown: bool) returns (outcome: Outcome, calls: seq<Handler>)
    ensures (outcome, calls) == Result3(message, allowUnknown)
    ensures Promise(outcome, calls)
  {
    var run := new Run();
    var i := 0;
    var stop := false;
    while i < |message| && !stop && !run.dead
      invariant i <= |message|
      invariant run.Did(Decide(Verdict3, message[..i]), stop)
      modifies run
    {
      DecideSnoc(Verdict3, message[..i], message[i]);
      assert message[..i] + [message[i]] == message[..i + 1];
      stop := run.Helper3(message[i]);
      i := i + 1;
    }
    EndOfLoop(Verdict3, message, i);
    return run.Finish(allowUnknown), run.calls;
  }

  method Dispatch5(message: seq<Field>, allowUnknown: bool) returns (outcome: Outcome, calls: seq<Handler>)
    ensures (outcome, calls) == Result5(message, allowUnknown)
    ensures Promise(outcome, calls)
  {
    var run := new Run();
    var i := 0;
    var stop := false;
    while i < |message| && !stop && !run.dead
      invariant i <= |message|
      invariant run.Did(Decide(Verdict5, message[..i]), stop)
      modifies run
    {
      DecideSnoc(Verdict5, message[..i], message[i]);
      assert message[..i] + [message[i]] == message[..i + 1];
      stop := run.Helper5(message[i]);
      i := i + 1;
    }
    EndOfLoop(Verdict5, message, i);
    return run.Finish(allowUnknown), run.calls;
  }

  lemma EndOfLoop(verdict: Field -> Verdict, message: seq<Field>, i: nat)
    requires i <= |message| && (i == |message| || Decide(verdict, message[..i]) != Ignore)
    ensures Decide(verdict, message) == Decide(verdict, message[..i])
  {
    if i == |message| {
      assert message[..i] == message;
    } else {
      DecideEarly(verdict, message, i);
    }
  }

  // --- only the meaningful fields count ---

  function Only(keep: Field -> bool, message: seq<Field>): seq<Field> {
    if message == [] then []
    else (if keep(message[0]) then [message[0]] else []) + Only(keep, message[1..])
  }

  /** Fields that mean nothing may come anywhere. */
  lemma {:induction false} OthersDoNotCount(verdict: Field -> Verdict, keep: Field -> bool, message: seq<Field>)
    requires forall f :: !keep(f) ==> verdict(f) == Ignore
    ensures Decide(verdict, message) == Decide(verdict, Only(keep, message))
  {
    if message != [] {
      OthersDoNotCount(verdict, keep, message[1..]);
      var rest := Only(keep, message[1..]);
      if keep(message[0]) {
        assert ([message[0]] + rest)[1..] == rest;
      } else {
        assert [] + rest == rest;
      }
    }
  }

  predicate IsKey2(f: Field) { f.key == "op" || f.key == "topic" }
  predicate IsKey3(f: Field) { f.key == "op" || f.key == "status" }
  predicate IsKey5(f: Field) { f.key == "op" || f.key == "cid" || f.key == "topic" }

  /** Two messages with the same decisive fields in the same order have the same result. */
  lemma OnlyDecisiveFields(m1: seq<Field>, m2: seq<Field>)
    ensures Only(IsKey2, m1) == Only(IsKey2, m2) ==> Decide(Verdict2, m1) == Decide(Verdict2, m2)
    ensures Only(IsKey3, m1) == Only(IsKey3, m2) ==> Decide(Verdict3, m1) == Decide(Verdict3, m2)
    ensures Only(IsKey5, m1) == Only(IsKey5, m2) ==> Decide(Verdict5, m1) == Decide(Verdict5, m2)
  {
    OthersDoNotCount(Verdict2, IsKey2, m1);
    OthersDoNotCount(Verdict2, IsKey2, m2);
    OthersDoNotCount(Verdict3, IsKey3, m1);
    OthersDoNotCount(Verdict3, IsKey3, m2);
    OthersDoNotCount(Verdict5, IsKey5, m1);
    OthersDoNotCount(Verdict5, IsKey5, m2);
  }

  // --- the order of the fields ---

  predicate SameMeaning(verdict: Field -> Verdict, message: seq<Field>) {
    forall f, g :: f in message && g in message && verdict(f) != Ignore && verdict(g) != Ignore ==>
      verdict(f) == verdict(g)
  }

  lemma {:induction false} DecidedBySome(verdict: Field -> Verdict, message: seq<Field>)
    ensures Decide(verdict, message) == Ignore <==> forall f :: f in message ==> verdict(f) == Ignore
    ensures Decide(verdict, message) != Ignore ==> exists f :: f in message && verdict(f) == Decide(verdict, message)
  {
    if message != [] {
      DecidedBySome(verdict, message[1..]);
      assert message == [message[0]] + message[1..];
    }
  }

  function Fronted(message: seq<Field>, i: nat): seq<Field>
    requires i < |message|
  {
    [message[i]] + (message[..i] + message[i + 1..])
  }

  lemma FrontedIsReordered(message: seq<Field>, i: nat)
    requires i < |message|
    ensures multiset(Fronted(message, i)) == multiset(message)
  {
    assert message == message[..i] + [message[i]] + message[i + 1..];
  }

  /** The order of the fields is irrelevant exactly if no two fields mean different things. */
  lemma OrderIsIrrelevantExactly(verdict: Field -> Verdict, message: seq<Field>)
    ensures (forall other: seq<Field> :: multiset(other) == multiset(message) ==>
      Decide(verdict, other) == Decide(verdict, message))
       <==> SameMeaning(verdict, message)
  {
    if SameMeaning(verdict, message) {
      forall other: seq<Field> | multiset(other) == multiset(message)
        ensures Decide(verdict, other) == Decide(verdict, message)
      {
        assert forall f :: f in other <==> f in multiset(other) <==> f in multiset(message) <==> f in message;
        DecidedBySome(verdict, other);
        DecidedBySome(verdict, message);
      }
    } else {
      var f, g :| f in message && g in message && verdict(f) != Ignore && verdict(g) != Ignore &&
        verdict(f) != verdict(g);
      var i :| 0 <= i < |message| && message[i] == f;
      var j :| 0 <= j < |message| && message[j] == g;
      FrontedIsReordered(message, i);
      FrontedIsReordered(message, j);
      assert Decide(verdict, Fronted(message, i)) == verdict(f);
      assert Decide(verdict, Fronted(message, j)) == verdict(g);
    }
  }

  function OpField(op: string): Field { Field("op", op) }
  function TopicField(topic: string): Field { Field("topic", topic) }

  lemma {:induction false} DecideTwo(verdict: Field -> Verdict, f: Field, g: Field)
    ensures Decide(verdict, [f, g]) == if verdict(f) != Ignore then verdict(f) else verdict(g)
  {
    assert [f, g][1..] == [g] && [g][1..] == [];
    assert Decide(verdict, [g]) == verdict(g);
  }

  /** When the operator and the topic may change places: for a notification, or where both are unknown. */
  predicate Exchangeable(op: string, topicKnown: bool, allowUnknown: bool) {
    OperatorOf(op) == NotifyOp ||
    (!topicKnown && (OperatorOf(op) == UnknownOp || (OperatorOf(op) == UndefinedOp && !allowUnknown)))
  }

  predicate IsOperatorHandler(h: Handler) { h == Close2 || h == Error2 || h == Ping || h == Auth || h == Sub }

  lemma TopicHandlers(topic: string)
    ensures var h := Topic2Handler(topic); h.Some? ==> !IsOperatorHandler(h.value)
    ensures var h := Topic5Handler(topic); h.Some? ==> !IsOperatorHandler(h.value)
  {
  }

  lemma Exchange(op: string, handler: Option<Handler>, allowUnknown: bool)
    requires handler.Some? ==> !IsOperatorHandler(handler.value)
    ensures var first := if OperatorVerdict(op) != Ignore then OperatorVerdict(op) else Stop(handler);
      (Conclude(first, allowUnknown) == Conclude(Stop(handler), allowUnknown)) ==
      Exchangeable(op, handler.Some?, allowUnknown)
  {
  }

  lemma FieldVerdicts(op: string, topic: string)
    ensures Verdict2(OpField(op)) == Verdict5(OpField(op)) == OperatorVerdict(op)
    ensures Verdict2(TopicField(topic)) == Stop(Topic2Handler(ExtractTopicHelper(topic)))
    ensures Verdict5(TopicField(topic)) == Stop(Topic5Handler(topic))
  {
  }

  lemma OpAndTopic2(op: string, topic: string, m1: seq<Field>, m2: seq<Field>, allowUnknown: bool)
    requires Only(IsKey2, m1) == [OpField(op), TopicField(topic)]
    requires Only(IsKey2, m2) == [TopicField(topic), OpField(op)]
    ensures Conclude(Decide(Verdict2, m1), allowUnknown) == Conclude(Decide(Verdict2, m2), allowUnknown)
       <==> Exchangeable(op, Topic2Handler(ExtractTopicHelper(topic)).Some?, allowUnknown)
  {
    OthersDoNotCount(Verdict2, IsKey2, m1);
    OthersDoNotCount(Verdict2, IsKey2, m2);
    DecideTwo(Verdict2, OpField(op), TopicField(topic));
    DecideTwo(Verdict2, TopicField(topic), OpField(op));
    var handler := Topic2Handler(ExtractTopicHelper(topic));
    TopicHandlers(ExtractTopicHelper(topic));
    FieldVerdicts(op, topic);
    Exchange(op, handler, allowUnknown);
  }

  lemma OpAndTopic5(op: string, topic: string, m1: seq<Field>, m2: seq<Field>, allowUnknown: bool)
    requires Only(IsKey5, m1) == [OpField(op), TopicField(topic)]
    requires Only(IsKey5, m2) == [TopicField(topic), OpField(op)]
    ensures Conclude(Decide(Verdict5, m1), allowUnknown) == Conclude(Decide(Verdict5, m2), allowUnknown)
       <==> Exchangeable(op, Topic5Handler(topic).Some?, allowUnknown)
  {
    OthersDoNotCount(Verdict5, IsKey5, m1);
    OthersDoNotCount(Verdict5, IsKey5, m2);
    DecideTwo(Verdict5, OpField(op), TopicField(topic));
    DecideTwo(Verdict5, TopicField(topic), OpField(op));
    var handler := Topic5Handler(topic);
    TopicHandlers(topic);
    FieldVerdicts(op, topic);
    Exchange(op, handler, allowUnknown);
  }

  // --- topics by parts ---

  lemma {:induction false} FindLastIs(s: string, c: char, hi: nat, pos: nat)
    requires pos <= hi <= |s| && Without(s, c, pos, hi)
    ensures pos > 0 && s[pos - 1] == c ==> FindLast(s, c, hi) == pos - 1
    ensures pos == 0 ==> FindLast(s, c, hi) == -1
  {
    if pos < hi {
      FindLastIs(s, c, hi - 1, pos);
    }
  }

  function Last(parts: seq<string>): string
    requires parts != []
  {
    parts[|parts| - 1]
  }

  function BehindLast(s: string): string { s[FindLast(s, '.', |s|) + 1..] }

  /** The last dot of `s` is behind `front`. */
  lemma LastDot(s: string, front: nat)
    requires front < |s| && s[front] == '.' && Without(s, '.', front + 1, |s|)
    ensures FindLast(s, '.', |s|) == front
  {
    FindLastIs(s, '.', |s|, front + 1);
  }

  lemma WithoutDot(s: string)
    requires '.' !in s
    ensures BehindLast(s) == s
  {
    FindLastIs(s, '.', |s|, 0);
  }

  lemma BehindLastPart(s: string, front: string, last: string)
    requires '.' !in last && s == front + "." + last
    ensures BehindLast(s) == last
  {
    assert forall i :: |front| < i < |s| ==> s[i] == last[i - |front| - 1];
    LastDot(s, |front|);
  }

  lemma LastPart(s: string)
    ensures Last(Parts(s, '.')) == BehindLast(s)
  {
    var parts := Parts(s, '.');
    JoinOfParts(s, '.');
    PartsHoldNone(s, '.');
    var front, last := parts[..|parts| - 1], Last(parts);
    if front == [] {
      assert parts == [last];
      WithoutDot(last);
    } else {
      assert parts == front + [last];
      JoinAppend(front, [last], '.');
      BehindLastPart(s, Join(front, '.'), last);
    }
  }

  function UpToFirst(s: string): string {
    var pos := Find(s, '.', 0);
    if pos >= 0 then s[..pos] else s
  }

  lemma FirstPart(s: string)
    ensures Parts(s, '.')[0] == UpToFirst(s)
  {
    var parts := Parts(s, '.');
    JoinOfParts(s, '.');
    PartsHoldNone(s, '.');
    var head := parts[0];
    if |parts| == 1 {
      FindAfter([], head, '.', []);
      assert [] + head == s;
    } else {
      var rest := Join(parts[1..], '.');
      FindAfter([], head, '.', rest);
      assert [] + head + ['.'] + rest == s;
      assert s[..|head|] == head;
    }
  }

  /** The topic is the first part of a name, or its last part where the first is `public`. */
  lemma TopicIsPart(topic: string)
    ensures var parts := Parts(topic, '.');
      ExtractTopicHelper(topic) == if parts[0] == "public" then Last(parts) else parts[0]
  {
    FirstPart(topic);
    LastPart(topic);
  }

  lemma PublicTopic(symbol: string, theme: string)
    requires '.' !in theme
    ensures ExtractTopicHelper("public" + "." + (symbol + "." + theme)) == theme
  {
    PartsStep("public", symbol + "." + theme, '.');
    TopicIsPart("public" + "." + (symbol + "." + theme));
    LastPart("public" + "." + (symbol + "." + theme));
    Associate("public" + ".", symbol, ".", theme);
    BehindLastPart("public" + "." + symbol + "." + theme, "public" + "." + symbol, theme);
  }

  /** Whatever the symbol, with dots or without, its funding rate reaches the handler. */
  lemma FundingRateIsHandled(symbol: string)
    ensures Verdict2(TopicField("public." + symbol + ".funding_rate")) == Stop(Some(FundingRate))
  {
    assert "public." == "public" + "." && ".funding_rate" == "." + "funding_rate";
    Regroup("public" + "." + symbol, ".", "funding_rate");
    Regroup("public" + ".", symbol, "." + "funding_rate");
    Regroup(symbol, ".", "funding_rate");
    PublicTopic(symbol, "funding_rate");
    FieldVerdicts("", "public." + symbol + ".funding_rate");
  }
}
