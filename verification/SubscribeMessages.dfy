/** The text of a subscription request, and what its receiver reads out of it. */
module SubscribeMessages {
  import opened Text
  import opened Splitting
  import opened Json
  import opened Encoder
  import opened EncoderTheorems
  import opened Channel
  import S = Subscriptions

  function DataType(theme: S.Theme): Option<string> {
    if theme.incremental then Some("incremental") else None
  }

  function SubscribeFields(r: S.Request): seq<Member> {
    [Entry("sub", Name(r.symbol, r.theme.name))] + Maybe("data_type", DataType(r.theme)) + [Entry("id", Print(r.id))]
  }

  method WriteSubscribe(buffer: Buffer, r: S.Request)
    modifies buffer
    ensures buffer.text == Render(Obj(SubscribeFields(r)))
  {
    buffer.OpenObject();
    buffer.First("sub", "market" + "." + r.symbol + "." + r.theme.name);
    if r.theme.incremental {
      buffer.Next("data_type", "incremental");
    } else {
      assert buffer.members + [] == buffer.members;
    }
    buffer.Next("id", Print(r.id));
    buffer.CloseObject();
  }

  // --- the receiver ---

  /** The parts of the channel are the source, the symbol and the theme. */
  function Decode(members: seq<Member>): Option<S.Request> {
    var parts := Parts(OrEmpty(TextAt(members, "sub")), '.');
    var id := OrEmpty(TextAt(members, "id"));
    if |parts| > 2 && IsDigits(id) then
      Some(S.Request(ValueOf(id), S.Theme(Join(parts[2..], '.'), TextAt(members, "data_type") == Some("incremental")),
        parts[1]))
    else None
  }

  function Receive(text: string): Option<S.Request> {
    var v := Read(text);
    if v.Some? && v.value.Obj? then Decode(v.value.members) else None
  }

  lemma FieldsLookup(r: S.Request)
    ensures var fields := SubscribeFields(r);
      && TextAt(fields, "sub") == Some(Name(r.symbol, r.theme.name))
      && TextAt(fields, "id") == Some(Print(r.id))
      && TextAt(fields, "data_type") == DataType(r.theme)
  {
    var front, id := [Entry("sub", Name(r.symbol, r.theme.name))], [Entry("id", Print(r.id))];
    var dataType := Maybe("data_type", DataType(r.theme));
    LookupThree(front, dataType, id, "sub");
    LookupThree(front, dataType, id, "data_type");
    LookupThree(front, dataType, id, "id");
    LookupAt(front, 0);
    LookupAt(id, 0);
    LookupNone(front, "data_type");
    LookupNone(front, "id");
    LookupNone(id, "data_type");
    LookupMaybe("data_type", DataType(r.theme), "id");
  }

  /** The channel names symbol and theme exactly if the symbol has no dot. */
  lemma NameDecodes(symbol: string, theme: string)
    requires '.' !in symbol
    ensures var parts := Parts(Name(symbol, theme), '.');
      |parts| > 2 && parts[1] == symbol && Join(parts[2..], '.') == theme
  {
    NameParts(symbol, theme);
    DottedParts(symbol);
    JoinOfParts(theme, '.');
    var rest := Parts(theme, '.');
    assert (["market"] + [symbol] + rest)[2..] == rest;
  }

  // --- texts without escapes ---

  lemma MessageKeys()
    ensures Plain("sub") && Plain("data_type") && Plain("id") && Plain("incremental")
  {
  }

  lemma PlainName(symbol: string, theme: string)
    ensures Plain(Name(symbol, theme)) <==> Plain(symbol) && Plain(theme)
  {
    var name := Name(symbol, theme);
    assert forall i :: 0 <= i < |symbol| ==> name[7 + i] == symbol[i];
    assert forall i :: 0 <= i < |theme| ==> name[8 + |symbol| + i] == theme[i];
    if Plain(symbol) && Plain(theme) {
      PlainConcat("market" + "." + symbol + ".", theme);
      PlainConcat("market.", symbol);
      PlainConcat("market." + symbol, ".");
      assert "market" + "." == "market.";
    }
  }

  lemma PlainConcat(a: string, b: string)
    requires Plain(b)
    ensures Plain(a) ==> Plain(a + b)
  {
  }

  lemma FieldsValid(r: S.Request)
    ensures Valid(Obj(SubscribeFields(r))) <==> Plain(r.symbol) && Plain(r.theme.name)
  {
    var front := [Entry("sub", Name(r.symbol, r.theme.name))];
    var dataType := Maybe("data_type", DataType(r.theme));
    MessageKeys();
    PlainName(r.symbol, r.theme.name);
    DigitsArePlain(Print(r.id));
    ValidMaybe("sub", Some(Name(r.symbol, r.theme.name)));
    ValidMaybe("id", Some(Print(r.id)));
    ValidMaybe("data_type", DataType(r.theme));
    ValidAppend(front, dataType);
    ValidAppend(front + dataType, [Entry("id", Print(r.id))]);
  }

  predicate AllPlain(parts: seq<string>) { forall i :: 0 <= i < |parts| ==> Plain(parts[i]) }

  lemma {:induction false} PartsArePlain(s: string, c: char)
    requires Plain(s)
    ensures AllPlain(Parts(s, c))
  {
    if s != [] {
      var rest := Parts(s[1..], c);
      PartsArePlain(s[1..], c);
      if s[0] != c {
        WidenIsPlain(s[0], rest);
      }
    }
  }

  lemma WidenIsPlain(x: char, parts: seq<string>)
    requires parts != [] && PlainChar(x) && AllPlain(parts)
    ensures AllPlain(Widen(x, parts))
  {
    PlainConcat([x], parts[0]);
    assert Widen(x, parts)[0] == [x] + parts[0];
    assert forall i :: 0 < i < |parts| ==> Widen(x, parts)[i] == parts[i];
  }

  lemma {:induction false} JoinIsPlain(parts: seq<string>, c: char)
    requires parts != [] && AllPlain(parts) && PlainChar(c)
    ensures Plain(Join(parts, c))
  {
    if |parts| > 1 {
      JoinIsPlain(parts[1..], c);
      PlainConcat(parts[0], [c]);
      PlainConcat(parts[0] + [c], Join(parts[1..], c));
    }
  }

  lemma DecodedIsPlain(members: seq<Member>)
    requires Valid(Obj(members)) && Decode(members).Some?
    ensures var r := Decode(members).value; Plain(r.symbol) && Plain(r.theme.name) && '.' !in r.symbol
  {
    var channel := OrEmpty(TextAt(members, "sub"));
    TextAtPlain(members, "sub");
    PartsArePlain(channel, '.');
    PartsHoldNone(channel, '.');
    JoinIsPlain(Parts(channel, '.')[2..], '.');
  }

  /** The exchange reads the request that was meant out of its text, exactly if symbol and theme need
      no escaping and the symbol has no dot. */
  lemma SubscribeRoundTrip(r: S.Request)
    ensures Receive(Render(Obj(SubscribeFields(r)))) == Some(r)
       <==> Plain(r.symbol) && Plain(r.theme.name) && '.' !in r.symbol
  {
    var v := Obj(SubscribeFields(r));
    ReadsBackExactly(v);
    FieldsValid(r);
    if Plain(r.symbol) && Plain(r.theme.name) && '.' !in r.symbol {
      FieldsLookup(r);
      NameDecodes(r.symbol, r.theme.name);
      PrintThenValue(r.id);
    }
    if Receive(Render(v)) == Some(r) {
      DecodedIsPlain(Read(Render(v)).value.members);
    }
  }
}
