/** JSON texts as the gateway writes them, and a reference reader for them (RFC 8259): objects,
    numbers, and strings that need no escaping. */
module Json {
  import opened Text

  datatype Json = Str(text: string) | Num(text: string) | Obj(members: seq<Member>)

  datatype Member = Member(key: string, value: Json)

  // --- writing ---

  function Quote(s: string): string { "\"" + s + "\"" }

  function Render(v: Json): string
    decreases v
  {
    match v
    case Str(text) => Quote(text)
    case Num(text) => text
    case Obj(members) => "{" + RenderMembers(members) + "}"
  }

  function RenderMember(m: Member): string
    decreases m
  {
    Quote(m.key) + ":" + Render(m.value)
  }

  function RenderMembers(members: seq<Member>): string
    decreases members
  {
    if members == [] then []
    else if |members| == 1 then RenderMember(members[0])
    else RenderMember(members[0]) + "," + RenderMembers(members[1..])
  }

  /** A further member goes behind a comma. */
  lemma {:induction false} RenderSnoc(members: seq<Member>, m: Member)
    requires members != []
    ensures RenderMembers(members + [m]) == RenderMembers(members) + ("," + RenderMember(m))
  {
    var all := members + [m];
    assert all[1..] == members[1..] + [m];
    if |members| == 1 {
      assert all[1..] == [m];
    } else {
      RenderSnoc(members[1..], m);
      assert RenderMembers(all) == RenderMember(members[0]) + "," + RenderMembers(all[1..]);
    }
  }

  // --- what can be read back ---

  /** Section 7: no quotation mark, reverse solidus or control character. */
  predicate PlainChar(c: char) { c != '"' && c != '\\' && c >= ' ' }

  predicate Plain(s: string) { forall i :: 0 <= i < |s| ==> PlainChar(s[i]) }

  function SkipDigits(s: string): (n: nat)
    ensures n <= |s|
  {
    if s == [] || !IsDigit(s[0]) then 0 else 1 + SkipDigits(s[1..])
  }

  /** Section 6: number = [ minus ] int [ frac ] [ exp ]. */
  predicate IsNumber(s: string) {
    var whole := if s != [] && s[0] == '-' then s[1..] else s;
    var n := SkipDigits(whole);
    n > 0 && (whole[0] == '0' ==> n == 1) && IsFraction(whole[n..])
  }

  predicate IsFraction(s: string) {
    if s != [] && s[0] == '.' then
      var n := SkipDigits(s[1..]);
      n > 0 && IsExponent(s[1..][n..])
    else
      IsExponent(s)
  }

  predicate IsExponent(s: string) {
    s == [] ||
    ((s[0] == 'e' || s[0] == 'E') &&
     var rest := if |s| > 1 && (s[1] == '+' || s[1] == '-') then s[2..] else s[1..];
     rest != [] && SkipDigits(rest) == |rest|)
  }

  predicate NumberChar(c: char) { IsDigit(c) || c == '-' || c == '+' || c == '.' || c == 'e' || c == 'E' }

  predicate IsNumeral(s: string) {
    s != [] && (forall i :: 0 <= i < |s| ==> NumberChar(s[i])) && IsNumber(s)
  }

  predicate Valid(v: Json)
    decreases v
  {
    match v
    case Str(text) => Plain(text)
    case Num(text) => IsNumeral(text)
    case Obj(members) => forall i :: 0 <= i < |members| ==> Plain(members[i].key) && Valid(members[i].value)
  }

  // --- reading ---

  /** The characters up to the closing quotation mark, and what follows it. */
  function ReadString(s: string): (r: Option<(string, string)>)
    ensures r.Some? ==> |r.value.1| < |s| && Plain(r.value.0)
  {
    if s == [] then None
    else if s[0] == '"' then Some(([], s[1..]))
    else if !PlainChar(s[0]) then None
    else
      match ReadString(s[1..])
      case None => None
      case Some(r) => Some(([s[0]] + r.0, r.1))
  }

  function NumberLength(s: string): (n: nat)
    ensures n <= |s| && forall i :: 0 <= i < n ==> NumberChar(s[i])
  {
    if s == [] || !NumberChar(s[0]) then 0 else 1 + NumberLength(s[1..])
  }

  function ReadValue(s: string): (r: Option<(Json, string)>)
    ensures r.Some? ==> |r.value.1| < |s| && Valid(r.value.0)
    decreases |s|, 2
  {
    if s == [] then None
    else if s[0] == '"' then
      match ReadString(s[1..])
      case None => None
      case Some(r) => Some((Str(r.0), r.1))
    else if s[0] == '{' then
      if |s| > 1 && s[1] == '}' then Some((Obj([]), s[2..]))
      else
        match ReadMembers(s[1..])
        case None => None
        case Some(r) => Some((Obj(r.0), r.1))
    else
      var n := NumberLength(s);
      if IsNumeral(s[..n]) then Some((Num(s[..n]), s[n..])) else None
  }

  function ReadMember(s: string): (r: Option<(Member, string)>)
    ensures r.Some? ==> |r.value.1| < |s| && Plain(r.value.0.key) && Valid(r.value.0.value)
    decreases |s|, 0
  {
    if s == [] || s[0] != '"' then None
    else
      match ReadString(s[1..])
      case None => None
      case Some(key) =>
        if key.1 == [] || key.1[0] != ':' then None
        else
          match ReadValue(key.1[1..])
          case None => None
          case Some(value) => Some((Member(key.0, value.0), value.1))
  }

  /** One or more members, up to and including the closing brace. */
  function ReadMembers(s: string): (r: Option<(seq<Member>, string)>)
    ensures r.Some? ==> |r.value.1| < |s|
    ensures r.Some? ==> forall i :: 0 <= i < |r.value.0| ==> Plain(r.value.0[i].key) && Valid(r.value.0[i].value)
    decreases |s|, 1
  {
    match ReadMember(s)
    case None => None
    case Some(m) =>
      if m.1 == [] then None
      else if m.1[0] == '}' then Some(([m.0], m.1[1..]))
      else if m.1[0] == ',' then
        match ReadMembers(m.1[1..])
        case None => None
        case Some(more) => Some(([m.0] + more.0, more.1))
      else None
  }

  /** A whole text. */
  function Read(s: string): Option<Json> {
    match ReadValue(s)
    case None => None
    case Some(r) => if r.1 == [] then Some(r.0) else None
  }

  // --- reading undoes writing ---

  lemma {:induction false} ReadStringBack(text: string, rest: string)
    requires Plain(text)
    ensures ReadString(text + "\"" + rest) == Some((text, rest))
  {
    var s := text + "\"" + rest;
    if text == [] {
      assert s == ['"'] + rest;
    } else {
      assert s[1..] == text[1..] + "\"" + rest;
      ReadStringBack(text[1..], rest);
      assert text == [text[0]] + text[1..];
    }
  }

  lemma {:induction false} NumberLengthBack(text: string, rest: string)
    requires forall i :: 0 <= i < |text| ==> NumberChar(text[i])
    requires rest == [] || !NumberChar(rest[0])
    ensures NumberLength(text + rest) == |text|
  {
    if text == [] {
      assert text + rest == rest;
    } else {
      assert (text + rest)[1..] == text[1..] + rest;
      NumberLengthBack(text[1..], rest);
    }
  }

  lemma ReadNumBack(text: string, rest: string)
    requires IsNumeral(text) && (rest == [] || !NumberChar(rest[0]))
    ensures ReadValue(text + rest) == Some((Num(text), rest))
  {
    var s := text + rest;
    NumberLengthBack(text, rest);
    assert s[0] == text[0];
    assert s[..|text|] == text && s[|text|..] == rest;
  }

  lemma {:induction false} ReadValueBack(v: Json, rest: string)
    requires Valid(v) && (rest == [] || !NumberChar(rest[0]))
    ensures ReadValue(Render(v) + rest) == Some((v, rest))
    decreases v, 0
  {
    var s := Render(v) + rest;
    match v
    case Str(text) =>
      ReadStringBack(text, rest);
      assert s[1..] == text + "\"" + rest;
    case Num(text) => ReadNumBack(text, rest);
    case Obj(members) =>
      if members == [] {
        assert v == Obj([]) && Render(v) == "{" + RenderMembers([]) + "}" == "{}";
        assert s[2..] == rest;
      } else {
        var inner := RenderMembers(members) + "}" + rest;
        assert s == "{" + inner;
        assert s[1..] == inner;
        assert inner[0] == '"' by {
          assert inner[0] == RenderMember(members[0])[0];
        }
        ReadMembersBack(members, rest);
      }
  }

  lemma {:induction false} ReadMemberBack(m: Member, tail: string)
    requires Plain(m.key) && Valid(m.value) && (tail == [] || !NumberChar(tail[0]))
    ensures ReadMember(RenderMember(m) + tail) == Some((m, tail))
    decreases m, 1
  {
    var s := RenderMember(m) + tail;
    var value := Render(m.value) + tail;
    assert s[1..] == m.key + "\"" + (":" + value);
    ReadStringBack(m.key, ":" + value);
    assert (":" + value)[1..] == value;
    ReadValueBack(m.value, tail);
  }

  lemma Concat(a: string, b: string, c: string, d: string, e: string)
    ensures a + b + c + d + e == a + (b + (c + d + e))
    ensures a + b + c == a + (b + c)
  {
  }

  lemma LastMember(s: string, m: Member, rest: string)
    requires ReadMember(s) == Some((m, "}" + rest))
    ensures ReadMembers(s) == Some(([m], rest))
  {
    assert ("}" + rest)[1..] == rest;
  }

  lemma FurtherMember(s: string, m: Member, inner: string, more: seq<Member>, rest: string)
    requires ReadMember(s) == Some((m, "," + inner)) && ReadMembers(inner) == Some((more, rest))
    ensures ReadMembers(s) == Some(([m] + more, rest))
  {
    assert ("," + inner)[1..] == inner;
  }

  lemma {:induction false} ReadMembersBack(members: seq<Member>, rest: string)
    requires members != []
    requires forall i :: 0 <= i < |members| ==> Plain(members[i].key) && Valid(members[i].value)
    ensures ReadMembers(RenderMembers(members) + "}" + rest) == Some((members, rest))
    decreases members, 2
  {
    var m, more := members[0], members[1..];
    if |members| == 1 {
      ReadMemberBack(m, "}" + rest);
      LastMember(RenderMember(m) + ("}" + rest), m, rest);
      Concat(RenderMember(m), "}", rest, [], []);
      assert members == [m];
    } else {
      var inner := RenderMembers(more) + "}" + rest;
      ReadMemberBack(m, "," + inner);
      assert forall i :: 0 <= i < |more| ==> more[i] == members[i + 1];
      ReadMembersBack(more, rest);
      FurtherMember(RenderMember(m) + ("," + inner), m, inner, more, rest);
      Concat(RenderMember(m), ",", RenderMembers(more), "}", rest);
      assert members == [m] + more;
    }
  }

  /** A written value is read back unchanged exactly if its strings need no escaping and its
      numbers are numerals. */
  lemma ReadsBackExactly(v: Json)
    ensures Read(Render(v)) == Some(v) <==> Valid(v)
  {
    if Valid(v) {
      ReadValueBack(v, []);
      assert Render(v) + [] == Render(v);
    }
  }

  // --- looking at members ---

  function Lookup(members: seq<Member>, key: string): Option<Json> {
    if members == [] then None
    else if members[0].key == key then Some(members[0].value)
    else Lookup(members[1..], key)
  }
}
