/** What a receiver gets out of an encoded request: the fields that were meant, each one only where it
    was given, and the same ones over HTTP and over the web-socket. */
module EncoderTheorems {
  import opened Text
  import opened Json
  import opened Cid
  import opened Encoder
  import opened Margin

  // --- members by name ---

  predicate Unlike(members: seq<Member>, key: string) {
    forall i :: 0 <= i < |members| ==> members[i].key != key
  }

  lemma {:induction false} LookupAt(members: seq<Member>, i: nat)
    requires i < |members| && Unlike(members[..i], members[i].key)
    ensures Lookup(members, members[i].key) == Some(members[i].value)
  {
    if i > 0 {
      assert members[..i][0] == members[0];
      assert members[1..][..i - 1] == members[..i][1..];
      LookupAt(members[1..], i - 1);
    }
  }

  lemma {:induction false} LookupNone(members: seq<Member>, key: string)
    requires Unlike(members, key)
    ensures Lookup(members, key) == None
  {
    if members != [] {
      LookupNone(members[1..], key);
    }
  }

  lemma {:induction false} LookupAppend(a: seq<Member>, b: seq<Member>, key: string)
    ensures Lookup(a + b, key) == if Lookup(a, key).Some? then Lookup(a, key) else Lookup(b, key)
  {
    if a == [] {
      assert a + b == b;
    } else {
      assert (a + b)[1..] == a[1..] + b;
      LookupAppend(a[1..], b, key);
    }
  }

  lemma LookupThree(a: seq<Member>, b: seq<Member>, c: seq<Member>, key: string)
    ensures Lookup(a + b + c, key) ==
      if Lookup(a, key).Some? then Lookup(a, key)
      else if Lookup(b, key).Some? then Lookup(b, key)
      else Lookup(c, key)
  {
    LookupAppend(a, b, key);
    LookupAppend(a + b, c, key);
  }

  lemma {:induction false} LookupValid(members: seq<Member>, key: string)
    requires Valid(Obj(members)) && Lookup(members, key).Some?
    ensures Valid(Lookup(members, key).value)
  {
    if members[0].key != key {
      assert Valid(Obj(members[1..]));
      LookupValid(members[1..], key);
    }
  }

  /** A text member, where there is one. */
  function TextAt(members: seq<Member>, key: string): Option<string> {
    var v := Lookup(members, key);
    if v.Some? && v.value.Str? then Some(v.value.text) else None
  }

  function NumberAt(members: seq<Member>, key: string): Option<string> {
    var v := Lookup(members, key);
    if v.Some? && v.value.Num? then Some(v.value.text) else None
  }

  function OrEmpty(s: Option<string>): string { if s.Some? then s.value else "" }

  predicate PlainOption(s: Option<string>) { s.Some? ==> Plain(s.value) }

  lemma TextAtPlain(members: seq<Member>, key: string)
    requires Valid(Obj(members))
    ensures PlainOption(TextAt(members, key)) && Plain(OrEmpty(TextAt(members, key)))
    ensures NumberAt(members, key).Some? ==> IsNumeral(NumberAt(members, key).value)
  {
    if Lookup(members, key).Some? {
      LookupValid(members, key);
    }
  }

  lemma LookupMaybe(key: string, value: Option<string>, other: string)
    ensures TextAt(Maybe(key, value), key) == value
    ensures other != key ==> Lookup(Maybe(key, value), other) == None
  {
    if value.Some? {
      assert Maybe(key, value)[1..] == [];
    }
  }

  lemma ValidAppend(a: seq<Member>, b: seq<Member>)
    ensures Valid(Obj(a + b)) <==> Valid(Obj(a)) && Valid(Obj(b))
  {
    if Valid(Obj(a + b)) {
      forall i | 0 <= i < |b|
        ensures Plain(b[i].key) && Valid(b[i].value)
      {
        assert b[i] == (a + b)[|a| + i];
      }
      forall i | 0 <= i < |a|
        ensures Plain(a[i].key) && Valid(a[i].value)
      {
        assert a[i] == (a + b)[i];
      }
    }
  }

  lemma ValidMaybe(key: string, value: Option<string>)
    requires Plain(key)
    ensures Valid(Obj(Maybe(key, value))) <==> PlainOption(value)
  {
    if value.Some? {
      assert Maybe(key, value)[0] == Entry(key, value.value);
    }
  }

  /** With harmless keys only the texts matter. */
  lemma ValidTexts(keys: seq<string>, values: seq<string>, members: seq<Member>)
    requires |keys| == |values| == |members|
    requires forall i :: 0 <= i < |keys| ==> Plain(keys[i]) && members[i] == Entry(keys[i], values[i])
    ensures Valid(Obj(members)) <==> forall i :: 0 <= i < |values| ==> Plain(values[i])
  {
    if Valid(Obj(members)) {
      forall i | 0 <= i < |values|
        ensures Plain(values[i])
      {
        assert Valid(members[i].value);
      }
    }
  }

  lemma PlainKeys()
    ensures Plain("contract_code") && Plain("client_order_id") && Plain("order_id") && Plain("direction")
    ensures Plain("order_price_type") && Plain("volume") && Plain("margin_mode") && Plain("side") && Plain("type")
    ensures Plain("offset") && Plain("price") && Plain("lever_rate")
    ensures Plain("reduce_only") && Plain("time_in_force") && Plain("position_side")
  {
    PlainNames();
  }

  lemma PlainNames()
    ensures Plain("offset") && Plain("price") && Plain("lever_rate")
    ensures Plain("reduce_only") && Plain("time_in_force") && Plain("position_side")
  {
  }

  lemma ValidNumber(key: string, value: string)
    requires Plain(key)
    ensures Valid(Obj([Member(key, Num(value))])) <==> IsNumeral(value)
  {
    var members := [Member(key, Num(value))];
    assert members[0] == Member(key, Num(value));
  }

  // --- creating an order, v1 ---

  function DecodeCreate(members: seq<Member>): (CreateV1, string) {
    (CreateV1(OrEmpty(TextAt(members, "contract_code")), OrEmpty(TextAt(members, "direction")),
              OrEmpty(TextAt(members, "order_price_type")), OrEmpty(TextAt(members, "volume")),
              TextAt(members, "offset"), TextAt(members, "price"), NumberAt(members, "lever_rate")),
     OrEmpty(TextAt(members, "client_order_id")))
  }

  /** What is sent: a missing leverage is sent as 1. */
  function Sent(o: CreateV1): CreateV1 {
    o.(leverage := Some(if o.leverage.Some? then o.leverage.value else "1"))
  }

  predicate PlainCreate(o: CreateV1, requestId: string) {
    Plain(o.symbol) && Plain(requestId) && Plain(o.direction) && Plain(o.orderPriceType) && Plain(o.volume) &&
    PlainOption(o.offset) && PlainOption(o.price) && (o.leverage.Some? ==> IsNumeral(o.leverage.value))
  }

  lemma CreateBaseLookup(o: CreateV1, requestId: string)
    ensures var base := CreateBase(o, requestId);
      TextAt(base, "contract_code") == Some(o.symbol) && TextAt(base, "client_order_id") == Some(requestId) &&
      TextAt(base, "direction") == Some(o.direction) && TextAt(base, "order_price_type") == Some(o.orderPriceType) &&
      TextAt(base, "volume") == Some(o.volume)
    ensures var base := CreateBase(o, requestId);
      Lookup(base, "offset") == Lookup(base, "price") == Lookup(base, "lever_rate") == None
  {
    var base := CreateBase(o, requestId);
    LookupAt(base, 0);
    LookupAt(base, 1);
    LookupAt(base, 2);
    LookupAt(base, 3);
    LookupAt(base, 4);
    LookupNone(base, "offset");
    LookupNone(base, "price");
    LookupNone(base, "lever_rate");
  }

  lemma CreateLookup(o: CreateV1, requestId: string, key: string)
    ensures Lookup(CreateFields(o, requestId), key) ==
      var inBase := Lookup(CreateBase(o, requestId), key);
      var inOffset := Lookup(Maybe("offset", o.offset), key);
      var inPrice := Lookup(Maybe("price", o.price), key);
      if inBase.Some? then inBase
      else if inOffset.Some? then inOffset
      else if inPrice.Some? then inPrice
      else if key == "lever_rate" then Some(Num(Sent(o).leverage.value))
      else None
  {
    var base, offset, price := CreateBase(o, requestId), Maybe("offset", o.offset), Maybe("price", o.price);
    var last := [Member("lever_rate", Num(Sent(o).leverage.value))];
    LookupAppend(base, offset, key);
    LookupAppend(base + offset, price, key);
    LookupAppend(base + offset + price, last, key);
    assert last[1..] == [];
  }

  /** The field list says exactly what the request says. */
  lemma CreateIsDecoded(o: CreateV1, requestId: string)
    ensures DecodeCreate(CreateFields(o, requestId)) == (Sent(o), requestId)
  {
    CreateBaseLookup(o, requestId);
    CreateLookup(o, requestId, "contract_code");
    CreateLookup(o, requestId, "client_order_id");
    CreateLookup(o, requestId, "direction");
    CreateLookup(o, requestId, "order_price_type");
    CreateLookup(o, requestId, "volume");
    CreateLookup(o, requestId, "offset");
    CreateLookup(o, requestId, "price");
    CreateLookup(o, requestId, "lever_rate");
    LookupMaybe("offset", o.offset, "price");
    LookupMaybe("offset", o.offset, "lever_rate");
    LookupMaybe("price", o.price, "offset");
    LookupMaybe("price", o.price, "lever_rate");
  }

  lemma CreateValid(o: CreateV1, requestId: string)
    ensures Valid(Obj(CreateFields(o, requestId))) <==> PlainCreate(o, requestId)
  {
    var base, offset, price := CreateBase(o, requestId), Maybe("offset", o.offset), Maybe("price", o.price);
    var leverage := Sent(o).leverage.value;
    PlainKeys();
    assert IsNumeral("0") && IsNumeral("1");
    ValidAppend(base, offset);
    ValidAppend(base + offset, price);
    ValidAppend(base + offset + price, [Member("lever_rate", Num(leverage))]);
    ValidMaybe("offset", o.offset);
    ValidMaybe("price", o.price);
    ValidNumber("lever_rate", leverage);
    CreateBaseValid(o, requestId);
  }

  lemma CreateBaseValid(o: CreateV1, requestId: string)
    ensures Valid(Obj(CreateBase(o, requestId))) <==>
      Plain(o.symbol) && Plain(requestId) && Plain(o.direction) && Plain(o.orderPriceType) && Plain(o.volume)
  {
    PlainKeys();
    var values := [o.symbol, requestId, o.direction, o.orderPriceType, o.volume];
    ValidTexts(["contract_code", "client_order_id", "direction", "order_price_type", "volume"], values,
      CreateBase(o, requestId));
    assert values[0] == o.symbol && values[1] == requestId && values[2] == o.direction && values[3] == o.orderPriceType;
    assert values[4] == o.volume;
  }

  function ReadCreate(text: string): Option<(CreateV1, string)> {
    var v := Read(text);
    if v.Some? && v.value.Obj? then Some(DecodeCreate(v.value.members)) else None
  }

  /** Reading the body of a create request gives back the request, exactly if its texts need no
      escaping and its leverage is a numeral. */
  lemma CreateRoundTrip(o: CreateV1, requestId: string)
    ensures ReadCreate(Render(Obj(CreateFields(o, requestId)))) == Some((Sent(o), requestId))
      <==> PlainCreate(o, requestId)
  {
    var v := Obj(CreateFields(o, requestId));
    CreateValid(o, requestId);
    CreateIsDecoded(o, requestId);
    ReadsBackExactly(v);
    if ReadCreate(Render(v)) == Some((Sent(o), requestId)) {
      DecodedIsPlain(Read(Render(v)).value.members);
    }
  }

  lemma DecodedIsPlain(members: seq<Member>)
    requires Valid(Obj(members))
    ensures var (o, requestId) := DecodeCreate(members); PlainCreate(o, requestId)
  {
    TextAtPlain(members, "contract_code");
    TextAtPlain(members, "client_order_id");
    TextAtPlain(members, "direction");
    TextAtPlain(members, "order_price_type");
    TextAtPlain(members, "volume");
    TextAtPlain(members, "offset");
    TextAtPlain(members, "price");
    TextAtPlain(members, "lever_rate");
  }

  // --- creating an order, v5 ---

  function DecodeCreateV5(members: seq<Member>): (CreateV5, string) {
    (CreateV5(OrEmpty(TextAt(members, "contract_code")), TextAt(members, "margin_mode"),
              OrEmpty(TextAt(members, "side")), OrEmpty(TextAt(members, "type")), false,
              OrEmpty(TextAt(members, "volume")), NumberAt(members, "reduce_only") == Some("1"),
              TextAt(members, "time_in_force"), TextAt(members, "position_side"), TextAt(members, "price")),
     OrEmpty(TextAt(members, "client_order_id")))
  }

  /** What is sent: the default margin mode where there is none, and no time in force for a market
      order. Whether it is one shows only in the order type. */
  function SentV5(o: CreateV5, defaultMarginMode: string): CreateV5 {
    o.(marginMode := Some(if o.marginMode.Some? then o.marginMode.value else defaultMarginMode),
       timeInForce := if o.market then None else o.timeInForce,
       market := false)
  }

  predicate PlainCreateV5(o: CreateV5, requestId: string) {
    Plain(o.symbol) && PlainOption(o.marginMode) && Plain(requestId) && Plain(o.side) && Plain(o.orderType) &&
    Plain(o.volume) && PlainOption(o.timeInForce) && PlainOption(o.positionSide) && PlainOption(o.price)
  }

  lemma HeadV5Lookup(o: CreateV5, requestId: string, marginMode: string)
    ensures var front := CreateHeadV5(o, requestId, marginMode);
      TextAt(front, "contract_code") == Some(o.symbol) && TextAt(front, "margin_mode") == Some(marginMode) &&
      TextAt(front, "client_order_id") == Some(requestId)
    ensures var front := CreateHeadV5(o, requestId, marginMode);
      Lookup(front, "side") == Lookup(front, "type") == Lookup(front, "volume") == Lookup(front, "reduce_only") ==
      Lookup(front, "time_in_force") == Lookup(front, "position_side") == Lookup(front, "price") == None
  {
    var front := CreateHeadV5(o, requestId, marginMode);
    LookupAt(front, 0);
    LookupAt(front, 1);
    LookupAt(front, 2);
    LookupNone(front, "side");
    LookupNone(front, "type");
    LookupNone(front, "volume");
    LookupNone(front, "reduce_only");
    LookupNone(front, "time_in_force");
    LookupNone(front, "position_side");
    LookupNone(front, "price");
  }

  function Terms(o: CreateV5): seq<Member> {
    [Entry("side", o.side), Entry("type", o.orderType), Entry("volume", o.volume)]
  }

  function Flag(o: CreateV5): seq<Member> {
    [Member("reduce_only", Num(if o.reduceOnly then "1" else "0"))]
  }

  lemma TermsLookup(o: CreateV5)
    ensures TextAt(Terms(o), "side") == Some(o.side) && TextAt(Terms(o), "type") == Some(o.orderType)
    ensures TextAt(Terms(o), "volume") == Some(o.volume)
    ensures Lookup(Terms(o), "reduce_only") == Lookup(Terms(o), "time_in_force") == Lookup(Terms(o), "position_side") ==
      Lookup(Terms(o), "price") == None
  {
    LookupAt(Terms(o), 0);
    LookupAt(Terms(o), 1);
    LookupAt(Terms(o), 2);
    LookupNone(Terms(o), "reduce_only");
    LookupNone(Terms(o), "time_in_force");
    LookupNone(Terms(o), "position_side");
    LookupNone(Terms(o), "price");
  }

  lemma BaseV5Lookup(o: CreateV5, requestId: string, defaultMarginMode: string)
    ensures var base := CreateBaseV5(o, requestId, defaultMarginMode);
      TextAt(base, "contract_code") == Some(o.symbol) &&
      TextAt(base, "margin_mode") == SentV5(o, defaultMarginMode).marginMode &&
      TextAt(base, "client_order_id") == Some(requestId) &&
      TextAt(base, "side") == Some(o.side) && TextAt(base, "type") == Some(o.orderType) &&
      TextAt(base, "volume") == Some(o.volume) && (NumberAt(base, "reduce_only") == Some("1") <==> o.reduceOnly)
    ensures var base := CreateBaseV5(o, requestId, defaultMarginMode);
      Lookup(base, "time_in_force") == Lookup(base, "position_side") == Lookup(base, "price") == None
  {
    var front := CreateHeadV5(o, requestId, SentV5(o, defaultMarginMode).marginMode.value);
    HeadV5Lookup(o, requestId, SentV5(o, defaultMarginMode).marginMode.value);
    TermsLookup(o);
    LookupAt(Flag(o), 0);
    LookupThree(front, Terms(o), Flag(o), "contract_code");
    LookupThree(front, Terms(o), Flag(o), "margin_mode");
    LookupThree(front, Terms(o), Flag(o), "client_order_id");
    LookupThree(front, Terms(o), Flag(o), "side");
    LookupThree(front, Terms(o), Flag(o), "type");
    LookupThree(front, Terms(o), Flag(o), "volume");
    LookupThree(front, Terms(o), Flag(o), "reduce_only");
    LookupThree(front, Terms(o), Flag(o), "time_in_force");
    LookupThree(front, Terms(o), Flag(o), "position_side");
    LookupThree(front, Terms(o), Flag(o), "price");
    LookupNone(Flag(o), "time_in_force");
    LookupNone(Flag(o), "position_side");
    LookupNone(Flag(o), "price");
  }

  lemma CreateV5Lookup(o: CreateV5, requestId: string, defaultMarginMode: string, key: string)
    ensures Lookup(CreateFieldsV5(o, requestId, defaultMarginMode), key) ==
      var inBase := Lookup(CreateBaseV5(o, requestId, defaultMarginMode), key);
      var inTimeInForce := Lookup(Maybe("time_in_force", SentV5(o, defaultMarginMode).timeInForce), key);
      var inSide := Lookup(Maybe("position_side", o.positionSide), key);
      if inBase.Some? then inBase
      else if inTimeInForce.Some? then inTimeInForce
      else if inSide.Some? then inSide
      else Lookup(Maybe("price", o.price), key)
  {
    var base := CreateBaseV5(o, requestId, defaultMarginMode);
    var timeInForce := Maybe("time_in_force", SentV5(o, defaultMarginMode).timeInForce);
    var side := Maybe("position_side", o.positionSide);
    LookupThree(base, timeInForce, side, key);
    LookupAppend(base + timeInForce + side, Maybe("price", o.price), key);
  }

  lemma OptionsV5Decoded(o: CreateV5, requestId: string, defaultMarginMode: string)
    ensures var fields := CreateFieldsV5(o, requestId, defaultMarginMode);
      TextAt(fields, "time_in_force") == SentV5(o, defaultMarginMode).timeInForce &&
      TextAt(fields, "position_side") == o.positionSide && TextAt(fields, "price") == o.price
  {
    var timeInForce := SentV5(o, defaultMarginMode).timeInForce;
    BaseV5Lookup(o, requestId, defaultMarginMode);
    CreateV5Lookup(o, requestId, defaultMarginMode, "time_in_force");
    CreateV5Lookup(o, requestId, defaultMarginMode, "position_side");
    CreateV5Lookup(o, requestId, defaultMarginMode, "price");
    LookupMaybe("time_in_force", timeInForce, "position_side");
    LookupMaybe("time_in_force", timeInForce, "price");
    LookupMaybe("position_side", o.positionSide, "time_in_force");
    LookupMaybe("position_side", o.positionSide, "price");
    LookupMaybe("price", o.price, "time_in_force");
    LookupMaybe("price", o.price, "position_side");
  }

  lemma CreateV5IsDecoded(o: CreateV5, requestId: string, defaultMarginMode: string)
    ensures DecodeCreateV5(CreateFieldsV5(o, requestId, defaultMarginMode)) == (SentV5(o, defaultMarginMode), requestId)
  {
    BaseV5Lookup(o, requestId, defaultMarginMode);
    OptionsV5Decoded(o, requestId, defaultMarginMode);
    CreateV5Lookup(o, requestId, defaultMarginMode, "contract_code");
    CreateV5Lookup(o, requestId, defaultMarginMode, "margin_mode");
    CreateV5Lookup(o, requestId, defaultMarginMode, "client_order_id");
    CreateV5Lookup(o, requestId, defaultMarginMode, "side");
    CreateV5Lookup(o, requestId, defaultMarginMode, "type");
    CreateV5Lookup(o, requestId, defaultMarginMode, "volume");
    CreateV5Lookup(o, requestId, defaultMarginMode, "reduce_only");
  }

  lemma HeadV5Valid(o: CreateV5, requestId: string, marginMode: string)
    ensures Valid(Obj(CreateHeadV5(o, requestId, marginMode)))
      <==> Plain(o.symbol) && Plain(marginMode) && Plain(requestId)
  {
    var values := [o.symbol, marginMode, requestId];
    PlainKeys();
    ValidTexts(["contract_code", "margin_mode", "client_order_id"], values, CreateHeadV5(o, requestId, marginMode));
    assert values[0] == o.symbol && values[1] == marginMode && values[2] == requestId;
  }

  lemma TermsValid(o: CreateV5)
    ensures Valid(Obj(Terms(o))) <==> Plain(o.side) && Plain(o.orderType) && Plain(o.volume)
  {
    var values := [o.side, o.orderType, o.volume];
    PlainKeys();
    ValidTexts(["side", "type", "volume"], values, Terms(o));
    assert values[0] == o.side && values[1] == o.orderType && values[2] == o.volume;
  }

  lemma BaseV5Valid(o: CreateV5, requestId: string, defaultMarginMode: string)
    ensures Valid(Obj(CreateBaseV5(o, requestId, defaultMarginMode))) <==>
      Plain(o.symbol) && PlainOption(SentV5(o, defaultMarginMode).marginMode) && Plain(requestId) &&
      Plain(o.side) && Plain(o.orderType) && Plain(o.volume)
  {
    var marginMode := SentV5(o, defaultMarginMode).marginMode.value;
    var front := CreateHeadV5(o, requestId, marginMode);
    HeadV5Valid(o, requestId, marginMode);
    TermsValid(o);
    PlainNames();
    assert IsNumeral("0") && IsNumeral("1");
    ValidNumber("reduce_only", if o.reduceOnly then "1" else "0");
    ValidAppend(front, Terms(o));
    ValidAppend(front + Terms(o), Flag(o));
  }

  lemma CreateV5Valid(o: CreateV5, requestId: string, defaultMarginMode: string)
    ensures Valid(Obj(CreateFieldsV5(o, requestId, defaultMarginMode)))
      <==> PlainCreateV5(SentV5(o, defaultMarginMode), requestId)
  {
    var base := CreateBaseV5(o, requestId, defaultMarginMode);
    var timeInForce := Maybe("time_in_force", if o.market then None else o.timeInForce);
    var side := Maybe("position_side", o.positionSide);
    PlainKeys();
    BaseV5Valid(o, requestId, defaultMarginMode);
    ValidAppend(base, timeInForce);
    ValidAppend(base + timeInForce, side);
    ValidAppend(base + timeInForce + side, Maybe("price", o.price));
    ValidMaybe("time_in_force", if o.market then None else o.timeInForce);
    ValidMaybe("position_side", o.positionSide);
    ValidMaybe("price", o.price);
  }

  function ReadCreateV5(text: string): Option<(CreateV5, string)> {
    var v := Read(text);
    if v.Some? && v.value.Obj? then Some(DecodeCreateV5(v.value.members)) else None
  }

  lemma CreateV5RoundTrip(o: CreateV5, requestId: string, defaultMarginMode: string)
    ensures var body := Render(Obj(CreateFieldsV5(o, requestId, defaultMarginMode)));
            var sent := SentV5(o, defaultMarginMode);
            ReadCreateV5(body) == Some((sent, requestId)) <==> PlainCreateV5(sent, requestId)
  {
    var v := Obj(CreateFieldsV5(o, requestId, defaultMarginMode));
    CreateV5Valid(o, requestId, defaultMarginMode);
    CreateV5IsDecoded(o, requestId, defaultMarginMode);
    ReadsBackExactly(v);
    if ReadCreateV5(Render(v)) == Some((SentV5(o, defaultMarginMode), requestId)) {
      DecodedV5IsPlain(Read(Render(v)).value.members);
    }
  }

  lemma DecodedV5IsPlain(members: seq<Member>)
    requires Valid(Obj(members))
    ensures var (o, requestId) := DecodeCreateV5(members); PlainCreateV5(o, requestId)
  {
    TextAtPlain(members, "contract_code");
    TextAtPlain(members, "margin_mode");
    TextAtPlain(members, "client_order_id");
    TextAtPlain(members, "side");
    TextAtPlain(members, "type");
    TextAtPlain(members, "volume");
    TextAtPlain(members, "time_in_force");
    TextAtPlain(members, "position_side");
    TextAtPlain(members, "price");
  }

  /** The fields of a creation by name, over v1 ... */
  lemma CreateByName(o: CreateV1, requestId: string)
    ensures var fields := CreateFields(o, requestId);
            && TextAt(fields, "contract_code") == Some(o.symbol)
            && TextAt(fields, "client_order_id") == Some(requestId)
            && TextAt(fields, "direction") == Some(o.direction)
            && TextAt(fields, "order_price_type") == Some(o.orderPriceType)
            && TextAt(fields, "volume") == Some(o.volume)
            && TextAt(fields, "offset") == o.offset
            && TextAt(fields, "price") == o.price
            && NumberAt(fields, "lever_rate") == Some(if o.leverage.Some? then o.leverage.value else "1")
  {
    CreateBaseLookup(o, requestId);
    CreateLookup(o, requestId, "contract_code");
    CreateLookup(o, requestId, "client_order_id");
    CreateLookup(o, requestId, "direction");
    CreateLookup(o, requestId, "order_price_type");
    CreateLookup(o, requestId, "volume");
    CreateIsDecoded(o, requestId);
  }

  /** ... and over v5: a market order has no time in force. */
  lemma CreateV5ByName(o: CreateV5, requestId: string, defaultMarginMode: string)
    ensures var fields := CreateFieldsV5(o, requestId, defaultMarginMode);
            && TextAt(fields, "contract_code") == Some(o.symbol)
            && TextAt(fields, "margin_mode") ==
                 (if o.marginMode.Some? then o.marginMode else Some(defaultMarginMode))
            && TextAt(fields, "client_order_id") == Some(requestId)
            && TextAt(fields, "side") == Some(o.side)
            && TextAt(fields, "type") == Some(o.orderType)
            && TextAt(fields, "volume") == Some(o.volume)
            && NumberAt(fields, "reduce_only") == Some(if o.reduceOnly then "1" else "0")
            && TextAt(fields, "time_in_force") == (if o.market then None else o.timeInForce)
            && TextAt(fields, "position_side") == o.positionSide
            && TextAt(fields, "price") == o.price
  {
    BaseV5Lookup(o, requestId, defaultMarginMode);
    ReduceOnlyFlag(o, requestId, defaultMarginMode);
    OptionsV5Decoded(o, requestId, defaultMarginMode);
    CreateV5Lookup(o, requestId, defaultMarginMode, "contract_code");
    CreateV5Lookup(o, requestId, defaultMarginMode, "margin_mode");
    CreateV5Lookup(o, requestId, defaultMarginMode, "client_order_id");
    CreateV5Lookup(o, requestId, defaultMarginMode, "side");
    CreateV5Lookup(o, requestId, defaultMarginMode, "type");
    CreateV5Lookup(o, requestId, defaultMarginMode, "volume");
    CreateV5Lookup(o, requestId, defaultMarginMode, "reduce_only");
  }

  lemma ReduceOnlyFlag(o: CreateV5, requestId: string, defaultMarginMode: string)
    ensures var base := CreateBaseV5(o, requestId, defaultMarginMode);
            NumberAt(base, "reduce_only") == Some(if o.reduceOnly then "1" else "0")
  {
    var marginMode := SentV5(o, defaultMarginMode).marginMode.value;
    HeadV5Lookup(o, requestId, marginMode);
    TermsLookup(o);
    LookupAt(Flag(o), 0);
    LookupThree(CreateHeadV5(o, requestId, marginMode), Terms(o), Flag(o), "reduce_only");
  }

  // --- cancelling ---

  datatype Target = ByClientId(symbol: string, id: string) | ByOrderId(symbol: string,
    id: string) | AllOf(symbol: string)

  function DecodeCancel(members: seq<Member>): Target {
    var symbol, client, order :=
      OrEmpty(TextAt(members, "contract_code")), TextAt(members, "client_order_id"), TextAt(members, "order_id");
    if order.Some? then ByOrderId(symbol, order.value)
    else if client.Some? then ByClientId(symbol, client.value)
    else AllOf(symbol)
  }

  /** The exchange's own id is used as soon as it is known. */
  function TargetOf(o: Cancel): Target {
    if o.externalOrderId == [] then ByClientId(o.symbol, o.clientOrderId) else ByOrderId(o.symbol, o.externalOrderId)
  }

  lemma CancelIsDecoded(o: Cancel)
    ensures DecodeCancel(CancelFields(o)) == TargetOf(o)
  {
    LookupAt(CancelFields(o), 0);
    LookupAt(CancelFields(o), 1);
    if o.externalOrderId == [] {
      LookupNone(CancelFields(o), "order_id");
    }
  }

  lemma CancelAllIsDecoded(symbol: string)
    ensures DecodeCancel(CancelAllFields(symbol)) == AllOf(symbol)
  {
    LookupAt(CancelAllFields(symbol), 0);
    LookupNone(CancelAllFields(symbol), "order_id");
    LookupNone(CancelAllFields(symbol), "client_order_id");
  }

  lemma CancelValid(o: Cancel)
    ensures Valid(Obj(CancelFields(o))) <==> Plain(TargetOf(o).symbol) && Plain(TargetOf(o).id)
  {
    PlainKeys();
    var values := [o.symbol, TargetOf(o).id];
    ValidTexts(["contract_code", if o.externalOrderId == [] then "client_order_id" else "order_id"], values,
      CancelFields(o));
    assert values[0] == o.symbol && values[1] == TargetOf(o).id;
  }

  lemma CancelAllValid(symbol: string)
    ensures Valid(Obj(CancelAllFields(symbol))) <==> Plain(symbol)
  {
    PlainKeys();
    ValidTexts(["contract_code"], [symbol], CancelAllFields(symbol));
    assert [symbol][0] == symbol;
  }

  predicate PlainTarget(t: Target) { Plain(t.symbol) && (!t.AllOf? ==> Plain(t.id)) }

  function ReadCancel(text: string): Option<Target> {
    var v := Read(text);
    if v.Some? && v.value.Obj? then Some(DecodeCancel(v.value.members)) else None
  }

  lemma CancelRoundTrip(o: Cancel)
    ensures ReadCancel(Render(Obj(CancelFields(o)))) == Some(TargetOf(o)) <==> PlainTarget(TargetOf(o))
  {
    CancelIsDecoded(o);
    CancelValid(o);
    TargetRoundTrip(CancelFields(o));
  }

  lemma CancelAllRoundTrip(symbol: string)
    ensures ReadCancel(Render(Obj(CancelAllFields(symbol)))) == Some(AllOf(symbol)) <==> Plain(symbol)
  {
    CancelAllIsDecoded(symbol);
    CancelAllValid(symbol);
    TargetRoundTrip(CancelAllFields(symbol));
  }

  lemma TargetRoundTrip(members: seq<Member>)
    requires PlainTarget(DecodeCancel(members)) <==> Valid(Obj(members))
    ensures ReadCancel(Render(Obj(members))) == Some(DecodeCancel(members)) <==> Valid(Obj(members))
  {
    var v := Obj(members);
    ReadsBackExactly(v);
    if ReadCancel(Render(v)) == Some(DecodeCancel(members)) {
      var got := Read(Render(v)).value.members;
      TextAtPlain(got, "contract_code");
      TextAtPlain(got, "client_order_id");
      TextAtPlain(got, "order_id");
    }
  }

  // --- the web-socket envelope ---

  datatype Received = Received(op: string, split: Split, fields: seq<Member>)

  /** A request as its receiver takes it apart, the correlation id included. */
  function Receive(text: string): Option<Received> {
    var v := Read(text);
    if v.Some? && v.value.Obj? then
      var op, cid, data := TextAt(v.value.members, "op"), TextAt(v.value.members, "cid"),
        Lookup(v.value.members, "data");
      if op.Some? && cid.Some? && data.Some? && data.value.Obj? then
        Some(Received(op.value, SplitCid(cid.value), data.value.members))
      else None
    else None
  }

  lemma RequestLookup(op: string, cid: string, fields: seq<Member>)
    ensures var members := WsRequest(op, cid, fields).members;
      TextAt(members, "op") == Some(op) && TextAt(members, "cid") == Some(cid) &&
        Lookup(members, "data") == Some(Obj(fields))
  {
    var members := WsRequest(op, cid, fields).members;
    LookupAt(members, 0);
    LookupAt(members, 1);
    LookupAt(members, 2);
  }

  lemma RequestValid(op: string, cid: string, fields: seq<Member>)
    ensures Valid(WsRequest(op, cid, fields)) <==> Plain(op) && Plain(cid) && Valid(Obj(fields))
  {
    var v := WsRequest(op, cid, fields);
    assert v.members[0] == Entry("op", op) && v.members[1] == Entry("cid", cid) &&
      v.members[2] == Member("data", Obj(fields));
    assert Plain("op") && Plain("cid") && Plain("data");
  }

  lemma PlainCid(op: char, requestId: string, version: nat)
    ensures Plain(PrintCid(op, requestId, version)) <==> PlainChar(op) && Plain(requestId)
  {
    var cid := PrintCid(op, requestId, version);
    assert cid == [op, ':'] + requestId + [':'] + Print(version);
    if Plain(cid) {
      assert PlainChar(cid[0]);
      forall i | 0 <= i < |requestId|
        ensures PlainChar(requestId[i])
      {
        assert cid[i + 2] == requestId[i];
      }
    }
    if PlainChar(op) && Plain(requestId) {
      DigitsArePlain(Print(version));
    }
  }

  lemma DigitsArePlain(s: string)
    requires IsDigits(s)
    ensures Plain(s)
  {
    forall i | 0 <= i < |s|
      ensures PlainChar(s[i])
    {
      assert IsDigit(s[i]);
    }
  }

  lemma SplitIsPlain(cid: string)
    requires Plain(cid)
    ensures Plain(SplitCid(cid).requestId) && ':' !in SplitCid(cid).requestId
  {
    FindIsFirst(cid, ':', Find(cid, ':', 0) + 1);
  }

  /** A web-socket request is received as it was meant, exactly if its texts need no escaping and its
      request id holds no colon. */
  lemma RequestRoundTrip(op: string, opCode: char, requestId: string, version: nat, fields: seq<Member>)
    requires PlainChar(opCode) && opCode != ':' && version < UINT32_LIMIT
    ensures Receive(Render(WsRequest(op, PrintCid(opCode, requestId, version), fields)))
         == Some(Received(op, Split(TypeOf([opCode]), requestId, Some(version)), fields))
       <==> Plain(op) && Plain(requestId) && ':' !in requestId && Valid(Obj(fields))
  {
    var cid := PrintCid(opCode, requestId, version);
    var v := WsRequest(op, cid, fields);
    ReadsBackExactly(v);
    RequestLookup(op, cid, fields);
    RequestValid(op, cid, fields);
    PlainCid(opCode, requestId, version);
    SplitUndoesPrint(opCode, requestId, version);
    if Receive(Render(v)) == Some(Received(op, Split(TypeOf([opCode]), requestId, Some(version)), fields)) {
      var got := Read(Render(v)).value.members;
      TextAtPlain(got, "op");
      TextAtPlain(got, "cid");
      SplitIsPlain(TextAt(got, "cid").value);
      LookupValid(got, "data");
    }
  }

  /** Both transports carry the same order, and the id in the envelope is the order's own. */
  lemma TransportsAgree(o: CreateV5, requestId: string, defaultMarginMode: string)
    requires PlainCreateV5(SentV5(o, defaultMarginMode), requestId) && ':' !in requestId
    ensures var fields := CreateFieldsV5(o, requestId, defaultMarginMode);
      var received := Receive(Render(WsRequest("place_order", PrintCid(OP_CREATE_ORDER, requestId, 1), fields)));
      received.Some? && ReadCreateV5(Render(Obj(fields))) == Some(DecodeCreateV5(received.value.fields)) &&
      received.value.split == Split(CreateOrder, DecodeCreateV5(received.value.fields).1, Some(1))
  {
    var fields := CreateFieldsV5(o, requestId, defaultMarginMode);
    CreateV5Valid(o, requestId, defaultMarginMode);
    CreateV5IsDecoded(o, requestId, defaultMarginMode);
    CreateV5RoundTrip(o, requestId, defaultMarginMode);
    PlainOperations();
    RequestRoundTrip("place_order", OP_CREATE_ORDER, requestId, 1, fields);
  }

  lemma Operations(mode: MarginMode)
    ensures mode.Isolated? ==> CreateOp(mode) == Some("create_order") && CancelOp(mode) == Some("cancel") &&
                               CancelAllOp(mode) == Some("cancelall")
    ensures mode.Cross? ==> CreateOp(mode) == Some("create_cross_order") && CancelOp(mode) == Some("cross_cancel") &&
                            CancelAllOp(mode) == Some("cross_cancelall")
    ensures !mode.Isolated? && !mode.Cross? ==> CreateOp(mode) == CancelOp(mode) == CancelAllOp(mode) == None
  {
  }

  lemma PlainOperations()
    ensures Plain("create_order") && Plain("create_cross_order") && Plain("cancel") && Plain("cross_cancel")
    ensures Plain("cancelall") && Plain("cross_cancelall") && Plain("place_order")
  {
  }

  /** A v1 creation is received as one: operation by margin mode, the request's id, and the order. */
  lemma CreateIsReceived(o: CreateV1, requestId: string, mode: MarginMode)
    requires (mode.Isolated? || mode.Cross?) && PlainCreate(o, requestId) && ':' !in requestId
    ensures CreateOp(mode).Some?
    ensures var fields := CreateFields(o, requestId);
            var r := Receive(Render(WsRequest(CreateOp(mode).value, PrintCid(OP_CREATE_ORDER, requestId, 1), fields)));
            && r.Some?
            && r.value.op == (if mode.Isolated? then "create_order" else "create_cross_order")
            && r.value.split == Split(CreateOrder, requestId, Some(1))
            && DecodeCreate(r.value.fields) == (Sent(o), requestId)
  {
    Operations(mode);
    PlainOperations();
    CreateValid(o, requestId);
    CreateIsDecoded(o, requestId);
    RequestRoundTrip(CreateOp(mode).value, OP_CREATE_ORDER, requestId, 1, CreateFields(o, requestId));
  }

  /** A v1 cancellation: the order it is for, and the version of the request. */
  lemma CancelIsReceived(o: Cancel, requestId: string, mode: MarginMode)
    requires (mode.Isolated? || mode.Cross?) && PlainTarget(TargetOf(o)) && Plain(requestId) && ':' !in requestId
    requires o.version < 4_294_967_296
    ensures CancelOp(mode).Some?
    ensures var fields := CancelFields(o);
            var cid := PrintCid(OP_CANCEL_ORDER, requestId, o.version);
            var r := Receive(Render(WsRequest(CancelOp(mode).value, cid, fields)));
            && r.Some?
            && r.value.op == (if mode.Isolated? then "cancel" else "cross_cancel")
            && r.value.split == Split(CancelOrder, requestId, Some(o.version))
            && DecodeCancel(r.value.fields) == (if o.externalOrderId == "" then ByClientId(o.symbol, o.clientOrderId)
                                                else ByOrderId(o.symbol, o.externalOrderId))
  {
    Operations(mode);
    PlainOperations();
    CancelValid(o);
    CancelIsDecoded(o);
    RequestRoundTrip(CancelOp(mode).value, OP_CANCEL_ORDER, requestId, o.version, CancelFields(o));
  }

  lemma CancelAllIsReceived(symbol: string, requestId: string, mode: MarginMode)
    requires (mode.Isolated? || mode.Cross?) && Plain(symbol) && Plain(requestId) && ':' !in requestId
    ensures CancelAllOp(mode).Some?
    ensures var fields := CancelAllFields(symbol);
            var cid := PrintCid(OP_CANCEL_ALL_ORDERS, requestId, 0);
            var r := Receive(Render(WsRequest(CancelAllOp(mode).value, cid, fields)));
            && r.Some?
            && r.value.op == (if mode.Isolated? then "cancelall" else "cross_cancelall")
            && r.value.split == Split(UndefinedType, requestId, Some(0))
            && DecodeCancel(r.value.fields) == AllOf(symbol)
  {
    Operations(mode);
    PlainOperations();
    CancelAllValid(symbol);
    CancelAllIsDecoded(symbol);
    RequestRoundTrip(CancelAllOp(mode).value, OP_CANCEL_ALL_ORDERS, requestId, 0, CancelAllFields(symbol));
  }
}
