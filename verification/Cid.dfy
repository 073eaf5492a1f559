/** The correlation id of a web-socket request: operation, request id and version, separated by
    colons, and how a response's id is taken apart again. */
module Cid {
  import opened Text

  datatype RequestType = UndefinedType | CreateOrder | CancelOrder

  const OP_CREATE_ORDER := 'P'
  const OP_CANCEL_ORDER := 'C'
  const OP_CANCEL_ALL_ORDERS := 'X'

  const UINT32_LIMIT := 0x1_0000_0000

  /** The parsed version is None where the number parser rejects the text. */
  datatype Split = Split(requestType: RequestType, requestId: string, version: Option<nat>)

  function PrintCid(op: char, requestId: string, version: nat): string {
    [op] + ":" + requestId + ":" + Print(version)
  }

  function TypeOf(op: string): RequestType {
    if op == [OP_CREATE_ORDER] then CreateOrder
    else if op == [OP_CANCEL_ORDER] then CancelOrder
    else UndefinedType
  }

  function ParseUint32(s: string): Option<nat> {
    if s != [] && IsDigits(s) && ValueOf(s) < UINT32_LIMIT then Some(ValueOf(s)) else None
  }

  function SplitCid(cid: string): Split {
    var pos1 := Find(cid, ':', 0);
    if pos1 >= 0 then
      var requestType := TypeOf(cid[..pos1]);
      var pos2 := Find(cid, ':', pos1 + 1);
      if pos2 >= 0 then
        Split(requestType, cid[pos1 + 1..pos2], ParseUint32(cid[pos2 + 1..]))
      else
        Split(UndefinedType, "", Some(0))
    else
      Split(UndefinedType, "", Some(0))
  }

  /** Every text with two colons is split at the first two of them. */
  lemma SplitAtFirstColons(op: string, requestId: string, rest: string)
    requires ':' !in op && ':' !in requestId
    ensures SplitCid(op + ":" + requestId + ":" + rest) == Split(TypeOf(op), requestId, ParseUint32(rest))
  {
    var cid := op + ":" + requestId + ":" + rest;
    var prefix := op + ":";
    FindAfter([], op, ':', requestId + ":" + rest);
    assert cid == [] + op + [':'] + (requestId + ":" + rest);
    FindAfter(prefix, requestId, ':', rest);
    assert cid == prefix + requestId + [':'] + rest;
    assert cid[..|op|] == op;
    assert cid[|op| + 1..|prefix| + |requestId|] == requestId;
    assert cid[|prefix| + |requestId| + 1..] == rest;
  }

  /** A text with fewer colons yields nothing. */
  lemma SplitWithoutColons(op: string, rest: string)
    requires ':' !in op && ':' !in rest
    ensures SplitCid(op) == Split(UndefinedType, "", Some(0)) == SplitCid(op + ":" + rest)
  {
    assert op == [] + op && op + ":" + rest == [] + op + [':'] + rest == (op + ":") + rest;
    FindAfter([], op, ':', rest);
    FindAfter(op + ":", rest, ':', []);
  }

  lemma PrintedVersion(version: nat)
    ensures ParseUint32(Print(version)) == if version < UINT32_LIMIT then Some(version) else None
  {
    PrintThenValue(version);
  }

  /** Splitting undoes printing exactly for request ids without a colon. */
  lemma SplitUndoesPrint(op: char, requestId: string, version: nat)
    requires op != ':' && version < UINT32_LIMIT
    ensures SplitCid(PrintCid(op, requestId, version)) == Split(TypeOf([op]), requestId, Some(version))
       <==> ':' !in requestId
  {
    PrintedVersion(version);
    if ':' !in requestId {
      SplitAtFirstColons([op], requestId, Print(version));
    } else {
      HasFirst(requestId, ':');
      var pos := Find(requestId, ':', 0);
      var head, tail := requestId[..pos], requestId[pos + 1..] + ":" + Print(version);
      assert requestId == head + ":" + requestId[pos + 1..];
      assert PrintCid(op, requestId, version) == [op] + ":" + head + ":" + tail;
      FindIsFirst(requestId, ':', 0);
      SplitAtFirstColons([op], head, tail);
      assert |head| < |requestId|;
    }
  }

  /** The ids as they are sent. */
  lemma CidTexts(requestId: string, version: nat)
    ensures PrintCid(OP_CREATE_ORDER, requestId, 1) == "P:" + requestId + ":1"
    ensures PrintCid(OP_CANCEL_ORDER, requestId, version) == "C:" + requestId + ":" + Print(version)
    ensures PrintCid(OP_CANCEL_ALL_ORDERS, requestId, 0) == "X:" + requestId + ":0"
  {
    assert [OP_CREATE_ORDER] + ":" == "P:" && [OP_CANCEL_ORDER] + ":" == "C:" && [OP_CANCEL_ALL_ORDERS] + ":" == "X:";
    assert Print(1) == "1" && Print(0) == "0";
    Regroup("P:" + requestId, ":", "1");
    Regroup("X:" + requestId, ":", "0");
    assert ":" + "1" == ":1" && ":" + "0" == ":0";
  }

  /** What the receiver of a response learns for each of the three kinds of request. */
  lemma SplitRecognizes(requestId: string, version: nat)
    requires ':' !in requestId && version < 4_294_967_296
    ensures SplitCid("P:" + requestId + ":" + Print(version)) == Split(CreateOrder, requestId, Some(version))
    ensures SplitCid("C:" + requestId + ":" + Print(version)) == Split(CancelOrder, requestId, Some(version))
    ensures SplitCid("X:" + requestId + ":" + Print(version)) == Split(UndefinedType, requestId, Some(version))
  {
    SplitUndoesPrint('P', requestId, version);
    SplitUndoesPrint('C', requestId, version);
    SplitUndoesPrint('X', requestId, version);
    assert ['P'] + ":" == "P:" && ['C'] + ":" == "C:" && ['X'] + ":" == "X:";
  }

  predicate LastColonAt(s: string, p: nat) {
    p < |s| && s[p] == ':' && forall i :: p < i < |s| ==> s[i] != ':'
  }

  lemma LastColonSplits(a: string, x: string)
    requires ':' !in x
    ensures LastColonAt(a + ":" + x, |a|)
    ensures (a + ":" + x)[..|a|] == a && (a + ":" + x)[|a| + 1..] == x
  {
  }

  /** Different requests have different ids, whatever the request ids look like. */
  lemma PrintCidInjective(op1: char, id1: string, version1: nat, op2: char, id2: string, version2: nat)
    requires PrintCid(op1, id1, version1) == PrintCid(op2, id2, version2)
    ensures op1 == op2 && id1 == id2 && version1 == version2
  {
    DigitsHoldNo(Print(version1), ':');
    DigitsHoldNo(Print(version2), ':');
    var a, b := [op1] + ":" + id1, [op2] + ":" + id2;
    LastColonSplits(a, Print(version1));
    LastColonSplits(b, Print(version2));
    PrintInjective(version1, version2);
    assert op1 == a[0] && op2 == b[0];
    assert id1 == a[2..] && id2 == b[2..];
  }
}
