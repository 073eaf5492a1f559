/** The order encoders. A request has an intended list of fields; the encoders write it piece by
    piece into a caller's buffer. Enumerators and decimal numbers come as the texts they map to. */
module Encoder {
  import opened Text
  import opened Json
  import opened Cid
  import opened Margin

  /** A create request: `offset`, `price` and `leverage` are absent where undefined or not a number. */
  datatype CreateV1 = CreateV1(
    symbol: string, direction: string, orderPriceType: string, volume: string,
    offset: Option<string>, price: Option<string>, leverage: Option<string>)

  datatype CreateV5 = CreateV5(
    symbol: string, marginMode: Option<string>, side: string, orderType: string, market: bool, volume: string,
    reduceOnly: bool, timeInForce: Option<string>, positionSide: Option<string>, price: Option<string>)

  datatype Cancel = Cancel(symbol: string, externalOrderId: string, clientOrderId: string, version: nat)

  // --- the intended fields ---

  function Entry(key: string, value: string): Member { Member(key, Str(value)) }

  function Maybe(key: string, value: Option<string>): seq<Member> {
    if value.Some? then [Entry(key, value.value)] else []
  }

  function CreateBase(o: CreateV1, requestId: string): seq<Member> {
    [Entry("contract_code", o.symbol),
     Entry("client_order_id", requestId),
     Entry("direction", o.direction),
     Entry("order_price_type", o.orderPriceType),
     Entry("volume", o.volume)]
  }

  function CreateFields(o: CreateV1, requestId: string): seq<Member> {
    CreateBase(o, requestId)
    + Maybe("offset", o.offset)
    + Maybe("price", o.price)
    + [Member("lever_rate", Num(if o.leverage.Some? then o.leverage.value else "1"))]
  }

  function CreateHeadV5(o: CreateV5, requestId: string, marginMode: string): seq<Member> {
    [Entry("contract_code", o.symbol),
     Entry("margin_mode", marginMode),
     Entry("client_order_id", requestId)]
  }

  function CreateBaseV5(o: CreateV5, requestId: string, defaultMarginMode: string): seq<Member> {
    CreateHeadV5(o, requestId, if o.marginMode.Some? then o.marginMode.value else defaultMarginMode)
    + [Entry("side", o.side), Entry("type", o.orderType), Entry("volume", o.volume)]
    + [Member("reduce_only", Num(if o.reduceOnly then "1" else "0"))]
  }

  function CreateFieldsV5(o: CreateV5, requestId: string, defaultMarginMode: string): seq<Member> {
    CreateBaseV5(o, requestId, defaultMarginMode)
    + Maybe("time_in_force", if o.market then None else o.timeInForce)
    + Maybe("position_side", o.positionSide)
    + Maybe("price", o.price)
  }

  function CancelFields(o: Cancel): seq<Member> {
    [Entry("contract_code", o.symbol),
     if o.externalOrderId == [] then Entry("client_order_id", o.clientOrderId) else Entry("order_id",
       o.externalOrderId)]
  }

  function CancelAllFields(symbol: string): seq<Member> { [Entry("contract_code", symbol)] }

  /** The web-socket request: an operation and a correlation id around the same fields. */
  function WsRequest(op: string, cid: string, fields: seq<Member>): Json {
    Obj([Entry("op", op), Entry("cid", cid), Member("data", Obj(fields))])
  }

  /** Only two margin modes have an operation; for the others the process ends. */
  function OpFor(mode: MarginMode, isolated: string, cross: string): Option<string> {
    match mode
    case Isolated => Some(isolated)
    case Cross => Some(cross)
    case _ => None
  }

  function CreateOp(mode: MarginMode): Option<string> { OpFor(mode, "create_order", "create_cross_order") }
  function CancelOp(mode: MarginMode): Option<string> { OpFor(mode, "cancel", "cross_cancel") }
  function CancelAllOp(mode: MarginMode): Option<string> { OpFor(mode, "cancelall", "cross_cancelall") }

  /** The query part that asks for one order, by client order id or by external order id. */
  datatype Param = Param(key: string, value: string)

  function InfoQueryParams(clientOrderId: string, externalOrderId: string, symbol: string,
    marginMode: string): seq<Param> {
    if externalOrderId == [] then
      [Param("client_order_id", clientOrderId), Param("contract_code", symbol), Param("margin_mode", marginMode)]
    else
      [Param("contract_code", symbol), Param("margin_mode", marginMode), Param("order_id", externalOrderId)]
  }

  function RenderParams(params: seq<Param>): string {
    if params == [] then []
    else ParamText(params[0]) + RenderParams(params[1..])
  }

  // --- the buffer ---

  class Buffer {
    var text: string
    /** The object being written: what was written in front of its members, and these. */
    ghost var head: string
    ghost var members: seq<Member>

    ghost predicate Open()
      reads this
    {
      text == head + RenderMembers(members)
    }

    constructor () { text := ""; }

    method Clear()
      modifies this
      ensures text == []
    {
      text := [];
    }

    method Append(s: string)
      modifies this`text
      ensures text == old(text) + s
    {
      text := text + s;
    }

    method OpenObject()
      modifies this
      ensures Open() && head == "{" && members == []
    {
      Clear();
      Append("{");
      head, members := text, [];
    }

    /** `{"op":"{}","cid":"{}:{}:{}","data":{` */
    method OpenRequest(op: string, opCode: char, requestId: string, version: nat)
      modifies this
      ensures Open() && head == WsHead(op, PrintCid(opCode, requestId, version)) && members == []
    {
      Clear();
      Append("{\"op\":\"" + op + "\",");
      Append("\"cid\":\"" + ([opCode] + ":" + requestId + ":" + Print(version)) + "\",");
      Append("\"data\":{");
      head, members := text, [];
    }

    /** The pattern `"key":"{}"` at the start of an object. */
    method First(key: string, value: string)
      requires Open() && members == []
      modifies this
      ensures Open() && head == old(head) && members == [Entry(key, value)]
    {
      Append("\"" + key + "\":" + ("\"" + value + "\""));
      members := [Entry(key, value)];
      assert RenderMembers(members) == RenderMember(Entry(key, value)) == Quote(key) + ":" + Quote(value);
    }

    /** The pattern `,"key":"{}"`. */
    method Next(key: string, value: string)
      requires Open() && members != []
      modifies this
      ensures Open() && head == old(head) && members == old(members) + [Entry(key, value)]
    {
      Append("," + ("\"" + key + "\":" + ("\"" + value + "\"")));
      RenderSnoc(members, Entry(key, value));
      members := members + [Entry(key, value)];
    }

    /** The pattern `,"key":{}`. */
    method NextNumber(key: string, value: string)
      requires Open() && members != []
      modifies this
      ensures Open() && head == old(head) && members == old(members) + [Member(key, Num(value))]
    {
      Append("," + ("\"" + key + "\":" + value));
      RenderSnoc(members, Member(key, Num(value)));
      members := members + [Member(key, Num(value))];
    }

    /** The same, only where there is a value. */
    method NextIf(key: string, value: Option<string>)
      requires Open() && members != []
      modifies this
      ensures Open() && head == old(head) && members == old(members) + Maybe(key, value)
    {
      if value.Some? {
        Next(key, value.value);
      }
    }

    method CloseObject()
      requires Open() && head == "{"
      modifies this`text
      ensures text == Render(Obj(members))
    {
      Append("}");
    }

    method CloseRequest(ghost op: string, ghost cid: string)
      requires Open() && head == WsHead(op, cid)
      modifies this`text
      ensures text == Render(WsRequest(op, cid, members))
    {
      Append("}}");
      RequestIsEnvelope(op, cid, members);
    }
  }

  function WsHead(op: string, cid: string): string {
    "{\"op\":\"" + op + "\"," + ("\"cid\":\"" + cid + "\",") + "\"data\":{"
  }

  /** The envelope, character for character. */
  function Envelope(op: string, cid: string, body: string): string {
    "{\"op\":\"" + op + "\",\"cid\":\"" + cid + "\",\"data\":" + body + "}"
  }

  lemma ThreeMembers(a: Member, b: Member, c: Member)
    ensures RenderMembers([a, b, c]) == RenderMember(a) + ("," + RenderMember(b)) + ("," + RenderMember(c))
  {
    RenderSnoc([a], b);
    RenderSnoc([a, b], c);
    assert [a] + [b] == [a, b] && [a, b] + [c] == [a, b, c];
    assert RenderMembers([a]) == RenderMember(a);
  }

  lemma RequestIsEnvelope(op: string, cid: string, members: seq<Member>)
    ensures Render(WsRequest(op, cid, members)) == WsHead(op, cid) + RenderMembers(members) + "}}"
    ensures Render(WsRequest(op, cid, members)) == Envelope(op, cid, Render(Obj(members)))
  {
    var data := Member("data", Obj(members));
    var body := RenderMembers(members);
    ThreeMembers(Entry("op", op), Entry("cid", cid), data);
    assert RenderMember(Entry("op", op)) == "\"op\":" + Quote(op);
    assert RenderMember(Entry("cid", cid)) == "\"cid\":" + Quote(cid);
    assert RenderMember(data) == "\"data\":" + ("{" + body + "}");
    WsText(op, cid, body);
    EnvelopeText(op, cid, body);
  }

  lemma QuotedPieces(op: string, cid: string)
    ensures "{" + ("\"op\":" + Quote(op)) == "{\"op\":\"" + op + "\""
    ensures "," + ("\"cid\":" + Quote(cid)) == ",\"cid\":\"" + cid + "\""
  {
  }

  lemma WsText(op: string, cid: string, body: string)
    ensures "{" + ("\"op\":" + Quote(op) + ("," + ("\"cid\":" + Quote(cid)))
      + ("," + ("\"data\":" + ("{" + body + "}")))) + "}"
            == WsHead(op, cid) + body + "}}"
  {
    QuotedPieces(op, cid);
  }

  lemma EnvelopeText(op: string, cid: string, body: string)
    ensures WsHead(op, cid) + body + "}}" == Envelope(op, cid, "{" + body + "}")
  {
  }

  lemma Snoc3(front: seq<Member>, a: Member, b: Member, c: Member)
    ensures front + [a] + [b] + [c] == front + [a, b, c]
    ensures [a] + [b] + [c] == [a, b, c]
  {
  }

  lemma CreateBaseSteps(o: CreateV1, requestId: string)
    ensures CreateBase(o, requestId) ==
      [Entry("contract_code", o.symbol)] + [Entry("client_order_id", requestId)] + [Entry("direction", o.direction)]
      + [Entry("order_price_type", o.orderPriceType)] + [Entry("volume", o.volume)]
  {
  }

  // --- REST bodies ---

  method CreateOrder(buffer: Buffer, o: CreateV1, requestId: string)
    modifies buffer
    ensures buffer.text == Render(Obj(CreateFields(o, requestId)))
  {
    buffer.OpenObject();
    buffer.First("contract_code", o.symbol);
    buffer.Next("client_order_id", requestId);
    buffer.Next("direction", o.direction);
    buffer.Next("order_price_type", o.orderPriceType);
    buffer.Next("volume", o.volume);
    CreateBaseSteps(o, requestId);
    buffer.NextIf("offset", o.offset);
    buffer.NextIf("price", o.price);
    buffer.NextNumber("lever_rate", if o.leverage.Some? then o.leverage.value else "1");
    buffer.CloseObject();
  }

  method CancelOrder(buffer: Buffer, o: Cancel)
    modifies buffer
    ensures buffer.text == Render(Obj(CancelFields(o)))
  {
    buffer.OpenObject();
    buffer.First("contract_code", o.symbol);
    if o.externalOrderId == [] {
      buffer.Next("client_order_id", o.clientOrderId);
    } else {
      buffer.Next("order_id", o.externalOrderId);
    }
    assert buffer.members == CancelFields(o);
    buffer.CloseObject();
  }

  method CancelAllOrders(buffer: Buffer, symbol: string)
    modifies buffer
    ensures buffer.text == Render(Obj(CancelAllFields(symbol)))
  {
    buffer.OpenObject();
    buffer.First("contract_code", symbol);
    buffer.CloseObject();
  }

  method CreateOrderV5(buffer: Buffer, o: CreateV5, requestId: string, defaultMarginMode: string)
    modifies buffer
    ensures buffer.text == Render(Obj(CreateFieldsV5(o, requestId, defaultMarginMode)))
  {
    buffer.OpenObject();
    var marginMode := if o.marginMode.None? then defaultMarginMode else o.marginMode.value;
    buffer.First("contract_code", o.symbol);
    buffer.Next("margin_mode", marginMode);
    buffer.Next("client_order_id", requestId);
    ghost var front := buffer.members;
    Snoc3([], Entry("contract_code", o.symbol), Entry("margin_mode", marginMode), Entry("client_order_id", requestId));
    buffer.Next("side", o.side);
    buffer.Next("type", o.orderType);
    buffer.Next("volume", o.volume);
    Snoc3(front, Entry("side", o.side), Entry("type", o.orderType), Entry("volume", o.volume));
    buffer.NextNumber("reduce_only", if o.reduceOnly then "1" else "0");
    assert buffer.members == CreateBaseV5(o, requestId, defaultMarginMode);
    buffer.NextIf("time_in_force", if !o.market then o.timeInForce else None);
    buffer.NextIf("position_side", o.positionSide);
    buffer.NextIf("price", o.price);
    buffer.CloseObject();
  }

  // --- web-socket requests ---

  /** Where the margin mode has no operation the process ends, before the buffer is touched. */
  method CreateOrderWs(buffer: Buffer, o: CreateV1, requestId: string, marginMode: MarginMode) returns (alive: bool)
    modifies buffer
    ensures alive == CreateOp(marginMode).Some?
    ensures alive ==>
      buffer.text == Render(WsRequest(CreateOp(marginMode).value, PrintCid(OP_CREATE_ORDER, requestId, 1),
        CreateFields(o, requestId)))
    ensures !alive ==> buffer.text == old(buffer.text)
  {
    var op: string;
    match marginMode {
      case Isolated => op := "create_order";
      case Cross => op := "create_cross_order";
      case _ => return false;
    }
    buffer.OpenRequest(op, OP_CREATE_ORDER, requestId, 1);
    buffer.First("contract_code", o.symbol);
    buffer.Next("client_order_id", requestId);
    buffer.Next("direction", o.direction);
    buffer.Next("order_price_type", o.orderPriceType);
    buffer.Next("volume", o.volume);
    CreateBaseSteps(o, requestId);
    buffer.NextIf("offset", o.offset);
    buffer.NextIf("price", o.price);
    buffer.NextNumber("lever_rate", if o.leverage.Some? then o.leverage.value else "1");
    buffer.CloseRequest(op, PrintCid(OP_CREATE_ORDER, requestId, 1));
    return true;
  }

  method CancelOrderWs(buffer: Buffer, o: Cancel, requestId: string, marginMode: MarginMode) returns (alive: bool)
    modifies buffer
    ensures alive == CancelOp(marginMode).Some?
    ensures alive ==>
      buffer.text == Render(WsRequest(CancelOp(marginMode).value, PrintCid(OP_CANCEL_ORDER, requestId, o.version),
        CancelFields(o)))
    ensures !alive ==> buffer.text == old(buffer.text)
  {
    var op: string;
    match marginMode {
      case Isolated => op := "cancel";
      case Cross => op := "cross_cancel";
      case _ => return false;
    }
    buffer.OpenRequest(op, OP_CANCEL_ORDER, requestId, o.version);
    buffer.First("contract_code", o.symbol);
    if o.externalOrderId == [] {
      buffer.Next("client_order_id", o.clientOrderId);
    } else {
      buffer.Next("order_id", o.externalOrderId);
    }
    assert buffer.members == CancelFields(o);
    buffer.CloseRequest(op, PrintCid(OP_CANCEL_ORDER, requestId, o.version));
    return true;
  }

  method CancelAllOrdersWs(buffer: Buffer, requestId: string, symbol: string, marginMode: MarginMode)
    returns (alive: bool)
    modifies buffer
    ensures alive == CancelAllOp(marginMode).Some?
    ensures alive ==>
      buffer.text == Render(WsRequest(CancelAllOp(marginMode).value, PrintCid(OP_CANCEL_ALL_ORDERS, requestId, 0),
        CancelAllFields(symbol)))
    ensures !alive ==> buffer.text == old(buffer.text)
  {
    var op: string;
    match marginMode {
      case Isolated => op := "cancelall";
      case Cross => op := "cross_cancelall";
      case _ => return false;
    }
    buffer.OpenRequest(op, OP_CANCEL_ALL_ORDERS, requestId, 0);
    buffer.First("contract_code", symbol);
    buffer.CloseRequest(op, PrintCid(OP_CANCEL_ALL_ORDERS, requestId, 0));
    return true;
  }

  method CreateOrderWsV5(buffer: Buffer, o: CreateV5, requestId: string, defaultMarginMode: string)
    modifies buffer
    ensures buffer.text ==
      Render(WsRequest("place_order", PrintCid(OP_CREATE_ORDER, requestId, 1),
        CreateFieldsV5(o, requestId, defaultMarginMode)))
  {
    buffer.OpenRequest("place_order", OP_CREATE_ORDER, requestId, 1);
    var marginMode := if o.marginMode.None? then defaultMarginMode else o.marginMode.value;
    buffer.First("contract_code", o.symbol);
    buffer.Next("margin_mode", marginMode);
    buffer.Next("client_order_id", requestId);
    ghost var front := buffer.members;
    Snoc3([], Entry("contract_code", o.symbol), Entry("margin_mode", marginMode), Entry("client_order_id", requestId));
    buffer.Next("side", o.side);
    buffer.Next("type", o.orderType);
    buffer.Next("volume", o.volume);
    Snoc3(front, Entry("side", o.side), Entry("type", o.orderType), Entry("volume", o.volume));
    buffer.NextNumber("reduce_only", if o.reduceOnly then "1" else "0");
    assert buffer.members == CreateBaseV5(o, requestId, defaultMarginMode);
    buffer.NextIf("time_in_force", if !o.market then o.timeInForce else None);
    buffer.NextIf("position_side", o.positionSide);
    buffer.NextIf("price", o.price);
    buffer.CloseRequest("place_order", PrintCid(OP_CREATE_ORDER, requestId, 1));
  }

  method CancelOrderWsV5(buffer: Buffer, o: Cancel, requestId: string)
    modifies buffer
    ensures buffer.text == Render(WsRequest("cancel_order", PrintCid(OP_CANCEL_ORDER, requestId, o.version),
      CancelFields(o)))
  {
    buffer.OpenRequest("cancel_order", OP_CANCEL_ORDER, requestId, o.version);
    buffer.First("contract_code", o.symbol);
    if o.externalOrderId == [] {
      buffer.Next("client_order_id", o.clientOrderId);
    } else {
      buffer.Next("order_id", o.externalOrderId);
    }
    assert buffer.members == CancelFields(o);
    buffer.CloseRequest("cancel_order", PrintCid(OP_CANCEL_ORDER, requestId, o.version));
  }

  method CancelAllOrdersWsV5(buffer: Buffer, requestId: string, symbol: string)
    modifies buffer
    ensures buffer.text ==
      Render(WsRequest("cancel_all_orders", PrintCid(OP_CANCEL_ALL_ORDERS, requestId, 0), CancelAllFields(symbol)))
  {
    buffer.OpenRequest("cancel_all_orders", OP_CANCEL_ALL_ORDERS, requestId, 0);
    buffer.First("contract_code", symbol);
    buffer.CloseRequest("cancel_all_orders", PrintCid(OP_CANCEL_ALL_ORDERS, requestId, 0));
  }

  // --- the order-info query ---

  method CreateOrderInfoQuery(buffer: Buffer, clientOrderId: string, externalOrderId: string, symbol: string,
    marginMode: string)
    modifies buffer
    ensures buffer.text == InfoQuery(clientOrderId, externalOrderId, symbol, marginMode)
  {
    buffer.Clear();
    if externalOrderId == [] {
      buffer.Append("&client_order_id=" + clientOrderId);
    }
    buffer.Append("&contract_code=" + symbol + ("&margin_mode=" + marginMode));
    if externalOrderId != [] {
      buffer.Append("&order_id=" + externalOrderId);
    }
    InfoQueryText(clientOrderId, externalOrderId, symbol, marginMode);
  }

  lemma InfoQueryText(clientOrderId: string, externalOrderId: string, symbol: string, marginMode: string)
    ensures RenderParams([Param("client_order_id", clientOrderId), Param("contract_code", symbol),
      Param("margin_mode", marginMode)])
      == [] + ("&client_order_id=" + clientOrderId) + ("&contract_code=" + symbol + ("&margin_mode=" + marginMode))
    ensures RenderParams([Param("contract_code", symbol), Param("margin_mode", marginMode),
      Param("order_id", externalOrderId)])
      == [] + ("&contract_code=" + symbol + ("&margin_mode=" + marginMode)) + ("&order_id=" + externalOrderId)
  {
    var client, code, mode, order := Param("client_order_id", clientOrderId), Param("contract_code", symbol),
      Param("margin_mode", marginMode), Param("order_id", externalOrderId);
    ThreeParams(client, code, mode);
    ThreeParams(code, mode, order);
    ParamTexts(clientOrderId, externalOrderId, symbol, marginMode);
    Nothing(ParamText(client));
    Nothing(ParamText(code) + ParamText(mode));
  }

  lemma Nothing(s: string)
    ensures [] + s == s
  {
  }

  lemma ParamTexts(clientOrderId: string, externalOrderId: string, symbol: string, marginMode: string)
    ensures ParamText(Param("client_order_id", clientOrderId)) == "&client_order_id=" + clientOrderId
    ensures ParamText(Param("contract_code", symbol)) == "&contract_code=" + symbol
    ensures ParamText(Param("margin_mode", marginMode)) == "&margin_mode=" + marginMode
    ensures ParamText(Param("order_id", externalOrderId)) == "&order_id=" + externalOrderId
  {
    assert "&" + "client_order_id" + "=" == "&client_order_id=" && "&" + "contract_code" + "=" == "&contract_code=";
    assert "&" + "margin_mode" + "=" == "&margin_mode=" && "&" + "order_id" + "=" == "&order_id=";
  }

  function InfoQuery(clientOrderId: string, externalOrderId: string, symbol: string, marginMode: string): string {
    RenderParams(InfoQueryParams(clientOrderId, externalOrderId, symbol, marginMode))
  }

  function ParamText(p: Param): string { "&" + p.key + "=" + p.value }

  lemma ThreeParams(a: Param, b: Param, c: Param)
    ensures RenderParams([a, b, c]) == ParamText(a) + (ParamText(b) + ParamText(c))
    ensures RenderParams([a, b, c]) == (ParamText(a) + ParamText(b)) + ParamText(c)
  {
    assert [a, b, c][1..] == [b, c] && [b, c][1..] == [c] && [c][1..] == [];
    assert RenderParams([c]) == ParamText(c);
    assert RenderParams([b, c]) == ParamText(b) + ParamText(c);
  }
}
