/** Which handler a private message reaches, by the texts of its fields. */
module Answers {
  import opened Text
  import opened Splitting
  import opened Dispatch

  lemma {:induction false} FirstDecides(verdict: Field -> Verdict, message: seq<Field>, i: nat)
    requires i < |message| && verdict(message[i]) != Ignore
    requires forall j :: 0 <= j < i ==> verdict(message[j]) == Ignore
    ensures Decide(verdict, message) == verdict(message[i])
  {
    if i > 0 {
      assert verdict(message[0]) == Ignore;
      FirstDecides(verdict, message[1..], i - 1);
    }
  }

  lemma {:induction false} NoneDecides(verdict: Field -> Verdict, message: seq<Field>)
    requires forall f :: f in message ==> verdict(f) == Ignore
    ensures Decide(verdict, message) == Ignore
  {
    if message != [] {
      assert verdict(message[0]) == Ignore;
      NoneDecides(verdict, message[1..]);
    }
  }

  /** Without any meaningful field no handler is called. */
  lemma NothingIsAnswered(message: seq<Field>, allowUnknown: bool)
    ensures var nothing := (if allowUnknown then False else Fatal, []);
            && ((forall f :: f in message ==> f.key != "topic" && (f.key == "op" ==> f.value == "notify")) ==>
                  Result2(message, allowUnknown) == nothing)
            && ((forall f :: f in message ==>
                   f.key != "status" && (f.key == "op" ==> f.value == "notify" || f.value == "sub")) ==>
                  Result3(message, allowUnknown) == nothing)
            && ((forall f :: f in message ==>
                   f.key != "cid" && f.key != "topic" && (f.key == "op" ==> f.value == "notify")) ==>
                  Result5(message, allowUnknown) == nothing)
  {
    if forall f :: f in message ==> f.key != "topic" && (f.key == "op" ==> f.value == "notify") {
      NoneDecides(Verdict2, message);
    }
    if forall f :: f in message ==> f.key != "status" && (f.key == "op" ==> f.value == "notify" || f.value == "sub") {
      NoneDecides(Verdict3, message);
    }
    if forall f :: f in message ==> f.key != "cid" && f.key != "topic" && (f.key == "op" ==> f.value == "notify") {
      NoneDecides(Verdict5, message);
    }
  }

  /** An operator that comes first: its own handler, or none for a text that is none of these. */
  lemma OperatorIsAnswered2(message: seq<Field>, i: nat, allowUnknown: bool)
    requires i < |message|
    requires forall j :: 0 <= j < i ==>
                      (message[j].key == "op" && message[j].value == "notify") ||
                      (message[j].key != "op" && message[j].key != "topic")
    requires message[i].key == "op" && message[i].value != "notify"
    ensures var v, r := message[i].value, Result2(message, allowUnknown);
            && (v == "close" ==> r == (True, [Close2]))
            && (v == "error" ==> r == (True, [Error2]))
            && (v == "ping" ==> r == (True, [Ping]))
            && (v == "auth" ==> r == (True, [Auth]))
            && (v == "sub" ==> r == (True, [Sub]))
            && (v == "" ==> r == (Fatal, []))
            && (v != "" && v != "close" && v != "error" && v != "ping" && v != "auth" && v != "sub" ==>
                  r == (if allowUnknown then False else Fatal, []))
  {
    FirstDecides(Verdict2, message, i);
  }

  lemma Topics(topic: string)
    ensures var h := Topic2Handler(topic);
            && (topic == "funding_rate" ==> h == Some(FundingRate))
            && (topic == "accounts" ==> h == Some(Accounts))
            && (topic == "positions" ==> h == Some(Positions))
            && (topic == "matchOrders" ==> h == Some(MatchOrders))
            && (topic == "orders" ==> h == Some(Orders))
            && (topic == "accounts_cross" ==> h == Some(AccountsCross))
            && (topic == "positions_cross" ==> h == Some(PositionsCross))
            && (topic == "matchOrders_cross" ==> h == Some(MatchOrdersCross))
            && (topic == "orders_cross" ==> h == Some(OrdersCross))
            && (topic !in {"funding_rate", "accounts", "positions", "matchOrders", "orders", "accounts_cross",
                           "positions_cross", "matchOrders_cross", "orders_cross"} ==>
                  h == None)
    ensures var h := Topic5Handler(topic);
            && (topic == "account" ==> h == Some(Account5))
            && (topic == "positions" ==> h == Some(Positions5))
            && (topic == "match_orders" ==> h == Some(MatchOrders5))
            && (topic == "orders" ==> h == Some(Orders5))
            && (topic !in {"account", "positions", "match_orders", "orders"} ==> h == None)
  {
  }

  /** A topic that comes first: its own handler, or none. */
  lemma TopicIsAnswered2(message: seq<Field>, i: nat, topic: string, allowUnknown: bool)
    requires i < |message|
    requires forall j :: 0 <= j < i ==>
                      (message[j].key == "op" && message[j].value == "notify") ||
                      (message[j].key != "op" && message[j].key != "topic")
    requires message[i].key == "topic"
    requires Parts(message[i].value, '.')[0] != "public" ==> topic == Parts(message[i].value, '.')[0]
    requires Parts(message[i].value, '.')[0] == "public" ==> topic == Last(Parts(message[i].value, '.'))
    ensures var r := Result2(message, allowUnknown);
            && (topic == "funding_rate" ==> r == (True, [FundingRate]))
            && (topic == "accounts" ==> r == (True, [Accounts]))
            && (topic == "positions" ==> r == (True, [Positions]))
            && (topic == "matchOrders" ==> r == (True, [MatchOrders]))
            && (topic == "orders" ==> r == (True, [Orders]))
            && (topic == "accounts_cross" ==> r == (True, [AccountsCross]))
            && (topic == "positions_cross" ==> r == (True, [PositionsCross]))
            && (topic == "matchOrders_cross" ==> r == (True, [MatchOrdersCross]))
            && (topic == "orders_cross" ==> r == (True, [OrdersCross]))
            && (topic !in {"funding_rate", "accounts", "positions", "matchOrders", "orders", "accounts_cross",
                           "positions_cross", "matchOrders_cross", "orders_cross"} ==>
                  r == (if allowUnknown then False else Fatal, []))
  {
    FirstDecides(Verdict2, message, i);
    TopicIsPart(message[i].value);
    Topics(topic);
  }

  /** An operator that comes first: its own handler, or none for a text that is none of these. */
  lemma OperatorIsAnswered3(message: seq<Field>, i: nat, allowUnknown: bool)
    requires i < |message|
    requires forall j :: 0 <= j < i ==>
                      (message[j].key == "op" && (message[j].value == "notify" || message[j].value == "sub")) ||
                      (message[j].key != "op" && message[j].key != "status")
    requires message[i].key == "op" && message[i].value != "notify" && message[i].value != "sub"
    ensures var v, r := message[i].value, Result3(message, allowUnknown);
            && (v == "close" ==> r == (True, [Close2]))
            && (v == "error" ==> r == (True, [Error2]))
            && (v == "ping" ==> r == (True, [Ping]))
            && (v == "auth" ==> r == (True, [Auth]))
            && (v == "" ==> r == (Fatal, []))
            && (v != "" && v != "close" && v != "error" && v != "ping" && v != "auth" ==>
                  r == (if allowUnknown then False else Fatal, []))
  {
    FirstDecides(Verdict3, message, i);
  }

  /** A status that comes first: the response handler. */
  lemma StatusIsAnswered3(message: seq<Field>, i: nat, allowUnknown: bool)
    requires i < |message|
    requires forall j :: 0 <= j < i ==>
                      (message[j].key == "op" && (message[j].value == "notify" || message[j].value == "sub")) ||
                      (message[j].key != "op" && message[j].key != "status")
    requires message[i].key == "status"
    ensures Result3(message, allowUnknown) == (True, [Response])
  {
    FirstDecides(Verdict3, message, i);
  }

  /** An operator that comes first: its own handler, or none for a text that is none of these. */
  lemma OperatorIsAnswered5(message: seq<Field>, i: nat, allowUnknown: bool)
    requires i < |message|
    requires forall j :: 0 <= j < i ==>
                      (message[j].key == "op" && message[j].value == "notify") ||
                      (message[j].key != "op" && message[j].key != "cid" && message[j].key != "topic")
    requires message[i].key == "op" && message[i].value != "notify"
    ensures var v, r := message[i].value, Result5(message, allowUnknown);
            && (v == "close" ==> r == (True, [Close2]))
            && (v == "error" ==> r == (True, [Error2]))
            && (v == "ping" ==> r == (True, [Ping]))
            && (v == "auth" ==> r == (True, [Auth]))
            && (v == "sub" ==> r == (True, [Sub]))
            && (v == "" ==> r == (Fatal, []))
            && (v != "" && v != "close" && v != "error" && v != "ping" && v != "auth" && v != "sub" ==>
                  r == (if allowUnknown then False else Fatal, []))
  {
    FirstDecides(Verdict5, message, i);
  }

  /** A correlation id that comes first: the response handler, whatever else the message holds. */
  lemma CidIsAnswered5(message: seq<Field>, i: nat, allowUnknown: bool)
    requires i < |message|
    requires forall j :: 0 <= j < i ==>
                      (message[j].key == "op" && message[j].value == "notify") ||
                      (message[j].key != "op" && message[j].key != "cid" && message[j].key != "topic")
    requires message[i].key == "cid"
    ensures Result5(message, allowUnknown) == (True, [Response5])
  {
    FirstDecides(Verdict5, message, i);
  }

  /** A topic that comes first: its own handler, or none. */
  lemma TopicIsAnswered5(message: seq<Field>, i: nat, allowUnknown: bool)
    requires i < |message|
    requires forall j :: 0 <= j < i ==>
                      (message[j].key == "op" && message[j].value == "notify") ||
                      (message[j].key != "op" && message[j].key != "cid" && message[j].key != "topic")
    requires message[i].key == "topic"
    ensures var topic, r := message[i].value, Result5(message, allowUnknown);
            && (topic == "account" ==> r == (True, [Account5]))
            && (topic == "positions" ==> r == (True, [Positions5]))
            && (topic == "match_orders" ==> r == (True, [MatchOrders5]))
            && (topic == "orders" ==> r == (True, [Orders5]))
            && (topic != "account" && topic != "positions" && topic != "match_orders" && topic != "orders" ==>
                  r == (if allowUnknown then False else Fatal, []))
  {
    FirstDecides(Verdict5, message, i);
    Topics(message[i].value);
  }
}
