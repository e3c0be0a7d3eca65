/** JSON texts (sections 2 to 7 of RFC 8259), printed with any insignificant white space, and their framing. */
module JsonText {
  import opened Common
  import opened Utf8
  import opened JsonFraming

  /** One unit of string content: a byte as it is, or an escape (the hex digits of `\u` follow as plain bytes). */
  datatype Unit = Plain(b: byte) | Escaped(b: byte)

  datatype Json =
    | Null
    | True
    | False
    | Number(digits: seq<byte>)
    | String(units: seq<Unit>)
    | Array(inner: seq<byte>, elements: seq<Element>)
    | Object(inner: seq<byte>, members: seq<Member>)

  datatype Element = Element(before: seq<byte>, value: Json, after: seq<byte>)

  datatype Member =
    Member(
      before: seq<byte>, key: seq<Unit>, colonBefore: seq<byte>, colonAfter: seq<byte>, value: Json, after: seq<byte>)

  predicate AllSpace(w: seq<byte>) { forall k :: 0 <= k < |w| ==> IsSpace(w[k]) }

  /** Digits, signs, point and exponent. */
  predicate IsNumberByte(b: byte) { 0x30 <= b <= 0x39 || b in {0x2B, 0x2D, 0x2E, 0x45, 0x65} }

  predicate GoodUnits(us: seq<Unit>) {
    forall k :: 0 <= k < |us| && us[k].Plain? ==> us[k].b != QUOTE && us[k].b != BACKSLASH
  }

  predicate WellFormed(v: Json)
    decreases v
  {
    match v
    case Number(digits) => forall k :: 0 <= k < |digits| ==> IsNumberByte(digits[k])
    case String(units) => GoodUnits(units)
    case Array(inner, elements) =>
      AllSpace(inner) && forall e :: e in elements ==> AllSpace(e.before) && WellFormed(e.value) && AllSpace(e.after)
    case Object(inner, members) =>
      && AllSpace(inner)
      && forall m :: m in members ==>
           && AllSpace(m.before) && GoodUnits(m.key) && AllSpace(m.colonBefore)
           && AllSpace(m.colonAfter) && WellFormed(m.value) && AllSpace(m.after)
    case _ => true
  }

  function PrintUnits(us: seq<Unit>): seq<byte> {
    if us == [] then []
    else (if us[0].Plain? then [us[0].b] else [BACKSLASH, us[0].b]) + PrintUnits(us[1..])
  }

  function PrintString(us: seq<Unit>): seq<byte> { [QUOTE] + PrintUnits(us) + [QUOTE] }

  function Comma(more: bool): seq<byte> { if more then [0x2C] else [] }

  function Print(v: Json): seq<byte>
    decreases v, 0
  {
    match v
    case Null => [0x6E, 0x75, 0x6C, 0x6C]
    case True => [0x74, 0x72, 0x75, 0x65]
    case False => [0x66, 0x61, 0x6C, 0x73, 0x65]
    case Number(digits) => digits
    case String(units) => PrintString(units)
    case Array(inner, elements) => [0x5B] + (inner + PrintElements(elements)) + [0x5D]
    case Object(inner, members) => [0x7B] + (inner + PrintMembers(members)) + [0x7D]
  }

  function PrintElements(es: seq<Element>): seq<byte>
    decreases es
  {
    if es == [] then []
    else
      es[0].before + Print(es[0].value) + es[0].after + Comma(|es| > 1) + PrintElements(es[1..])
  }

  function PrintMembers(ms: seq<Member>): seq<byte>
    decreases ms
  {
    if ms == [] then []
    else
      var m := ms[0];
      m.before + PrintString(m.key) + m.colonBefore + [0x3A] + m.colonAfter + Print(m.value) + m.after
      + Comma(|ms| > 1) + PrintMembers(ms[1..])
  }

  // The scanner passes over a text: it ends as it started and nothing is framed on the way.

  predicate Passes(st: Lex, t: seq<byte>, st': Lex)
    decreases |t|
  {
    if t == [] then st == st' else !Completes(st, t[0]) && Passes(Next(st, t[0]), t[1..], st')
  }

  lemma {:induction false} PassesConcat(st: Lex, a: seq<byte>, mid: Lex, b: seq<byte>, st': Lex)
    requires Passes(st, a, mid) && Passes(mid, b, st')
    ensures Passes(st, a + b, st')
    decreases |a|
  {
    if a == [] {
      assert a + b == b;
    } else {
      assert (a + b)[1..] == a[1..] + b;
      PassesConcat(Next(st, a[0]), a[1..], mid, b, st');
    }
  }

  lemma {:induction false} EndAfterPass(st: Lex, a: seq<byte>, st': Lex, b: seq<byte>)
    requires Passes(st, a, st')
    ensures ContainerEnd(st, a + b) == Shift(|a|, ContainerEnd(st', b))
    decreases |a|
  {
    if a == [] {
      assert a + b == b;
    } else {
      assert (a + b)[1..] == a[1..] + b;
      EndAfterPass(Next(st, a[0]), a[1..], st', b);
    }
  }

  /** Nested at depth `d`, outside strings. */
  function At(d: int): Lex { Lex(d, false, false) }

  predicate Inert(b: byte) { b != QUOTE && !Opens(b) && !Closes(b) }

  lemma {:induction false} PassInert(st: Lex, t: seq<byte>)
    requires !st.inString && forall k :: 0 <= k < |t| ==> Inert(t[k])
    ensures Passes(st, t, st)
    decreases |t|
  {
    if t != [] {
      PassInert(st, t[1..]);
    }
  }

  lemma {:induction false} PassUnits(d: int, us: seq<Unit>)
    requires GoodUnits(us)
    ensures Passes(Lex(d, true, false), PrintUnits(us), Lex(d, true, false))
    decreases |us|
  {
    var st := Lex(d, true, false);
    if us != [] {
      PassUnits(d, us[1..]);
      var first := if us[0].Plain? then [us[0].b] else [BACKSLASH, us[0].b];
      assert Passes(st, first, st) by {
        if us[0].Escaped? {
          assert first[1..] == [us[0].b] && first[1..][1..] == [];
        } else {
          assert first[1..] == [];
        }
      }
      PassesConcat(st, first, st, PrintUnits(us[1..]), st);
    }
  }

  lemma PassOne(st: Lex, b: byte)
    requires !Completes(st, b)
    ensures Passes(st, [b], Next(st, b))
  {
    assert [b][1..] == [];
  }

  lemma PassString(d: int, us: seq<Unit>)
    requires GoodUnits(us)
    ensures Passes(At(d), PrintString(us), At(d))
  {
    hide Passes, PrintUnits;
    var inside := Lex(d, true, false);
    PassOne(At(d), QUOTE);
    PassUnits(d, us);
    PassOne(inside, QUOTE);
    PassesConcat(At(d), [QUOTE], inside, PrintUnits(us), inside);
    PassesConcat(At(d), [QUOTE] + PrintUnits(us), inside, [QUOTE], At(d));
  }

  lemma PassComma(d: int, more: bool)
    ensures Passes(At(d), Comma(more), At(d))
  {
    PassInert(At(d), Comma(more));
  }

  /** Parts that each leave the scanner where it was do so together. */
  lemma PassTwo(st: Lex, a: seq<byte>, b: seq<byte>)
    requires Passes(st, a, st) && Passes(st, b, st)
    ensures Passes(st, a + b, st)
  {
    PassesConcat(st, a, st, b, st);
  }

  /** A whole value inside a container leaves the scanner where it was. */
  lemma {:induction false} PassValue(d: int, v: Json)
    requires WellFormed(v) && 1 <= d
    ensures Passes(At(d), Print(v), At(d))
    decreases v, 0
  {
    hide Passes;
    match v {
      case Array(inner, elements) =>
        PassBody(d + 1, inner, PrintElements(elements)) by { PassElements(d + 1, elements); }
        PassContainer(d, 0x5B, inner + PrintElements(elements), 0x5D);
      case Object(inner, members) =>
        PassBody(d + 1, inner, PrintMembers(members)) by { PassMembers(d + 1, members); }
        PassContainer(d, 0x7B, inner + PrintMembers(members), 0x7D);
      case _ => PassScalar(d, v);
    }
  }

  lemma PassScalar(d: int, v: Json)
    requires WellFormed(v) && !IsContainer(v)
    ensures Passes(At(d), Print(v), At(d))
  {
    hide Passes, PrintString;
    match v {
      case String(units) => PassString(d, units);
      case _ => PassInert(At(d), Print(v));
    }
  }

  lemma PassBody(d: int, inner: seq<byte>, body: seq<byte>)
    requires AllSpace(inner) && Passes(At(d), body, At(d))
    ensures Passes(At(d), inner + body, At(d))
  {
    PassInert(At(d), inner);
    PassTwo(At(d), inner, body);
  }

  lemma PassContainer(d: int, open: byte, body: seq<byte>, close: byte)
    requires 1 <= d && Opens(open) && Closes(close) && Passes(At(d + 1), body, At(d + 1))
    ensures Passes(At(d), [open] + body + [close], At(d))
  {
    hide Passes;
    PassOne(At(d), open);
    PassesConcat(At(d), [open], At(d + 1), body, At(d + 1));
    PassOne(At(d + 1), close);
    PassesConcat(At(d), [open] + body, At(d + 1), [close], At(d));
  }

  lemma {:induction false} PassElements(d: int, es: seq<Element>)
    requires 1 <= d && forall e :: e in es ==> AllSpace(e.before) && WellFormed(e.value) && AllSpace(e.after)
    ensures Passes(At(d), PrintElements(es), At(d))
    decreases es
  {
    hide Passes;
    if es == [] {
      PassInert(At(d), []);
    } else {
      var e := es[0];
      assert e in es;
      PassValue(d, e.value);
      PassElements(d, es[1..]);
      PassInert(At(d), e.before);
      PassInert(At(d), e.after);
      PassComma(d, |es| > 1);
      PassTwo(At(d), e.before, Print(e.value));
      PassTwo(At(d), e.before + Print(e.value), e.after);
      PassTwo(At(d), e.before + Print(e.value) + e.after, Comma(|es| > 1));
      PassTwo(At(d), e.before + Print(e.value) + e.after + Comma(|es| > 1), PrintElements(es[1..]));
    }
  }

  lemma PassKey(d: int, m: Member)
    requires AllSpace(m.before) && GoodUnits(m.key) && AllSpace(m.colonBefore) && AllSpace(m.colonAfter)
    ensures Passes(At(d), m.before + PrintString(m.key) + m.colonBefore + [0x3A] + m.colonAfter, At(d))
  {
    hide Passes, PrintString;
    PassInert(At(d), m.before);
    PassString(d, m.key);
    PassInert(At(d), m.colonBefore);
    PassInert(At(d), [0x3A]);
    PassInert(At(d), m.colonAfter);
    PassTwo(At(d), m.before, PrintString(m.key));
    PassTwo(At(d), m.before + PrintString(m.key), m.colonBefore);
    PassTwo(At(d), m.before + PrintString(m.key) + m.colonBefore, [0x3A]);
    PassTwo(At(d), m.before + PrintString(m.key) + m.colonBefore + [0x3A], m.colonAfter);
  }

  lemma {:induction false} PassMembers(d: int, ms: seq<Member>)
    requires 1 <= d
    requires forall m :: m in ms ==>
               && AllSpace(m.before) && GoodUnits(m.key) && AllSpace(m.colonBefore)
               && AllSpace(m.colonAfter) && WellFormed(m.value) && AllSpace(m.after)
    ensures Passes(At(d), PrintMembers(ms), At(d))
    decreases ms
  {
    hide Passes, PrintString;
    if ms == [] {
      PassInert(At(d), []);
    } else {
      var m := ms[0];
      assert m in ms;
      var key := m.before + PrintString(m.key) + m.colonBefore + [0x3A] + m.colonAfter;
      PassKey(d, m);
      PassValue(d, m.value);
      PassMembers(d, ms[1..]);
      PassInert(At(d), m.after);
      PassComma(d, |ms| > 1);
      PassTwo(At(d), key, Print(m.value));
      PassTwo(At(d), key + Print(m.value), m.after);
      PassTwo(At(d), key + Print(m.value) + m.after, Comma(|ms| > 1));
      PassTwo(At(d), key + Print(m.value) + m.after + Comma(|ms| > 1), PrintMembers(ms[1..]));
    }
  }

  predicate IsContainer(v: Json) { v.Array? || v.Object? }

  /** From the outside, a printed container ends exactly at its last byte, whatever follows. */
  lemma ContainerFramesWhole(open: byte, body: seq<byte>, close: byte, t: seq<byte>)
    requires Opens(open) && Closes(close) && Passes(At(1), body, At(1))
    ensures JsonEnd([open] + body + [close] + t) == Some(|body| + 2)
  {
    hide Passes, ContainerEnd;
    PassOne(OUTSIDE, open);
    PassesConcat(OUTSIDE, [open], At(1), body, At(1));
    var front := [open] + body;
    EndAfterPass(OUTSIDE, front, At(1), [close] + t);
    assert front + ([close] + t) == [open] + body + [close] + t;
    CloseEnds(close, t);
  }

  lemma CloseEnds(close: byte, t: seq<byte>)
    requires Closes(close)
    ensures ContainerEnd(At(1), [close] + t) == Some(1)
  {
  }

  lemma ValueFramesWhole(v: Json, t: seq<byte>)
    requires WellFormed(v) && IsContainer(v)
    ensures JsonEnd(Print(v) + t) == Some(|Print(v)|)
    ensures Print(v) != [] && !IsSpace(Print(v)[0])
  {
    hide Passes, JsonEnd;
    match v {
      case Array(inner, elements) =>
        PassBody(1, inner, PrintElements(elements)) by { PassElements(1, elements); }
        ContainerFramesWhole(0x5B, inner + PrintElements(elements), 0x5D, t);
      case Object(inner, members) =>
        PassBody(1, inner, PrintMembers(members)) by { PassMembers(1, members); }
        ContainerFramesWhole(0x7B, inner + PrintMembers(members), 0x7D, t);
    }
  }

  /** No proper prefix of a printed container is ever framed. */
  lemma PrefixIsNeverFramed(v: Json, p: seq<byte>)
    requires WellFormed(v) && IsContainer(v) && p < Print(v)
    ensures JsonEnd(p).None?
  {
    hide JsonEnd, Print;
    ValueFramesWhole(v, []);
    assert Print(v) + [] == Print(v);
    assert p + Print(v)[|p|..] == Print(v);
    if JsonEnd(p).Some? {
      JsonEndStable(p, Print(v)[|p|..]);
    }
  }

  // Streams of documents.

  datatype Document = Document(gap: seq<byte>, value: Json)

  predicate GoodDocuments(docs: seq<Document>) {
    forall k :: 0 <= k < |docs| ==> AllSpace(docs[k].gap) && WellFormed(docs[k].value) && IsContainer(docs[k].value)
  }

  function Stream(docs: seq<Document>, tail: seq<byte>): seq<byte> {
    if docs == [] then tail else docs[0].gap + (Print(docs[0].value) + Stream(docs[1..], tail))
  }

  function Texts(docs: seq<Document>): seq<seq<byte>> {
    if docs == [] then [] else [Print(docs[0].value)] + Texts(docs[1..])
  }

  lemma {:induction false} SkipGap(w: seq<byte>, t: seq<byte>)
    requires AllSpace(w)
    ensures SkipSpaces(w + t) == SkipSpaces(t)
  {
    if w == [] {
      assert w + t == t;
    } else {
      assert (w + t)[1..] == w[1..] + t;
      SkipGap(w[1..], t);
    }
  }

  lemma FrameHead(parses: seq<byte> -> bool, gap: seq<byte>, v: Json, t: seq<byte>)
    requires AllSpace(gap) && WellFormed(v) && IsContainer(v) && parses(Print(v))
    ensures Frame(parses, gap + (Print(v) + t)) == Prepend([Print(v)], Frame(parses, t))
  {
    hide JsonEnd, Print, SkipSpaces;
    var b := Print(v) + t;
    ValueFramesWhole(v, t);
    SkipGap(gap, b);
    SolidFront(b);
    assert b[..|Print(v)|] == Print(v) && b[|Print(v)|..] == t;
  }

  lemma SolidFront(b: seq<byte>)
    requires b != [] && !IsSpace(b[0])
    ensures SkipSpaces(b) == b
  {
  }

  lemma {:induction false} FrameStream(parses: seq<byte> -> bool, docs: seq<Document>, tail: seq<byte>)
    requires GoodDocuments(docs) && AllSpace(tail)
    requires forall k :: 0 <= k < |docs| ==> parses(Print(docs[k].value))
    ensures Frame(parses, Stream(docs, tail)) == Framed(Texts(docs), [])
    decreases |docs|
  {
    hide Frame, Print;
    if docs == [] {
      BlankFramesNothing(parses, tail);
    } else {
      FrameStream(parses, docs[1..], tail);
      FrameHead(parses, docs[0].gap, docs[0].value, Stream(docs[1..], tail));
    }
  }

  lemma BlankFramesNothing(parses: seq<byte> -> bool, w: seq<byte>)
    requires AllSpace(w)
    ensures Frame(parses, w) == Framed([], [])
  {
    assert w + [] == w;
    SkipGap(w, []);
  }

  /**
   Round trip: printed objects and arrays separated by white space, cut into any chunks, come back one by one,
   byte for byte and in order, with nothing left over.
   */
  lemma FramingRoundTrip(parses: seq<byte> -> bool, docs: seq<Document>, tail: seq<byte>, chunks: seq<seq<byte>>)
    requires GoodDocuments(docs) && AllSpace(tail)
    requires forall k :: 0 <= k < |docs| ==> parses(Print(docs[k].value))
    requires Flatten(chunks) == Stream(docs, tail)
    ensures FrameAll(parses, [], chunks) == Drains(Texts(docs), [], false)
  {
    hide Frame, Print, Stream, FrameAll;
    assert [] + Flatten(chunks) == Flatten(chunks);
    FrameStream(parses, docs, tail);
    FrameChunking(parses, [], chunks);
  }
}
