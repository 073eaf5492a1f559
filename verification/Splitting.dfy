/** Texts made of parts with a separator in between, and how they are taken apart. */
module Splitting {
  import opened Text

  function Join(parts: seq<string>, c: char): string
    requires parts != []
  {
    if |parts| == 1 then parts[0] else parts[0] + [c] + Join(parts[1..], c)
  }

  predicate NoneHolds(parts: seq<string>, c: char) { forall i :: 0 <= i < |parts| ==> c !in parts[i] }

  /** The first of some parts with one more character in front. */
  function Widen(x: char, parts: seq<string>): (r: seq<string>)
    requires parts != []
    ensures r != []
  {
    [[x] + parts[0]] + parts[1..]
  }

  /** The parts between the separators. */
  function Parts(s: string, c: char): (parts: seq<string>)
    ensures parts != []
  {
    if s == [] then [[]]
    else if s[0] == c then [[]] + Parts(s[1..], c)
    else Widen(s[0], Parts(s[1..], c))
  }

  // --- parts joined are the text ---

  lemma JoinStep(head: string, rest: seq<string>, c: char)
    requires rest != []
    ensures Join([head] + rest, c) == head + [c] + Join(rest, c)
  {
    assert ([head] + rest)[1..] == rest;
  }

  lemma JoinWiden(x: char, parts: seq<string>, c: char)
    requires parts != []
    ensures Join(Widen(x, parts), c) == [x] + Join(parts, c)
  {
    var head, rest := parts[0], parts[1..];
    assert parts == [head] + rest;
    if rest == [] {
      assert Widen(x, parts) == [[x] + head];
    } else {
      JoinStep([x] + head, rest, c);
      JoinStep(head, rest, c);
      Associate([x], head, [c], Join(rest, c));
    }
  }

  lemma Associate(x: string, head: string, c: string, rest: string)
    ensures x + head + c + rest == x + (head + c + rest)
  {
  }

  lemma {:induction false} JoinOfParts(s: string, c: char)
    ensures Join(Parts(s, c), c) == s
  {
    if s != [] {
      var rest := Parts(s[1..], c);
      JoinOfParts(s[1..], c);
      if s[0] == c {
        JoinStep([], rest, c);
      } else {
        JoinWiden(s[0], rest, c);
      }
    }
  }

  lemma NoneHoldsStep(head: string, rest: seq<string>, c: char)
    requires c !in head && NoneHolds(rest, c)
    ensures NoneHolds([head] + rest, c)
  {
  }

  lemma NoneHoldsWiden(x: char, parts: seq<string>, c: char)
    requires parts != [] && x != c && NoneHolds(parts, c)
    ensures NoneHolds(Widen(x, parts), c)
  {
    assert c !in [x] + parts[0];
    NoneHoldsStep([x] + parts[0], parts[1..], c);
  }

  lemma {:induction false} PartsHoldNone(s: string, c: char)
    ensures NoneHolds(Parts(s, c), c)
  {
    if s != [] {
      PartsHoldNone(s[1..], c);
      if s[0] == c {
        NoneHoldsStep([], Parts(s[1..], c), c);
      } else {
        NoneHoldsWiden(s[0], Parts(s[1..], c), c);
      }
    }
  }

  // --- a text of joined parts has these parts ---

  lemma {:induction false} OnePart(s: string, c: char)
    requires c !in s
    ensures Parts(s, c) == [s]
  {
    if s != [] {
      assert s == [s[0]] + s[1..];
      OnePart(s[1..], c);
    }
  }

  lemma {:induction false} PartsStep(head: string, rest: string, c: char)
    requires c !in head
    ensures Parts(head + [c] + rest, c) == [head] + Parts(rest, c)
  {
    var s := head + [c] + rest;
    if head == [] {
      assert s[1..] == rest;
    } else {
      assert s[1..] == head[1..] + [c] + rest;
      PartsStep(head[1..], rest, c);
      WidenFirst(head, Parts(rest, c));
    }
  }

  lemma WidenFirst(head: string, rest: seq<string>)
    requires head != []
    ensures Widen(head[0], [head[1..]] + rest) == [head] + rest
  {
    assert [head[0]] + head[1..] == head;
    assert ([head[1..]] + rest)[1..] == rest;
  }

  lemma {:induction false} PartsUnique(parts: seq<string>, c: char)
    requires parts != [] && NoneHolds(parts, c)
    ensures Parts(Join(parts, c), c) == parts
  {
    if |parts| == 1 {
      OnePart(parts[0], c);
    } else {
      PartsStep(parts[0], Join(parts[1..], c), c);
      PartsUnique(parts[1..], c);
      assert parts == [parts[0]] + parts[1..];
    }
  }

  /** Joined parts come back exactly if none holds the separator. */
  lemma PartsExactly(parts: seq<string>, c: char)
    requires parts != []
    ensures Parts(Join(parts, c), c) == parts <==> NoneHolds(parts, c)
  {
    if NoneHolds(parts, c) {
      PartsUnique(parts, c);
    } else {
      PartsHoldNone(Join(parts, c), c);
    }
  }

  lemma {:induction false} JoinAppend(a: seq<string>, b: seq<string>, c: char)
    requires a != [] && b != []
    ensures Join(a + b, c) == Join(a, c) + [c] + Join(b, c)
  {
    if |a| == 1 {
      assert a == [a[0]];
      JoinStep(a[0], b, c);
    } else {
      var head, rest := a[0], a[1..];
      assert a == [head] + rest && a + b == [head] + (rest + b);
      JoinAppend(rest, b, c);
      JoinStep(head, rest + b, c);
      Associate(head + [c], Join(rest, c), [c], Join(b, c));
    }
  }

  lemma PartsAppend(a: string, b: string, c: char)
    ensures Parts(a + [c] + b, c) == Parts(a, c) + Parts(b, c)
  {
    var p, q := Parts(a, c), Parts(b, c);
    JoinOfParts(a, c);
    JoinOfParts(b, c);
    PartsHoldNone(a, c);
    PartsHoldNone(b, c);
    JoinAppend(p, q, c);
    assert NoneHolds(p + q, c);
    PartsUnique(p + q, c);
  }
}
