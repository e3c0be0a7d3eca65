/** UTF-8 as `std::str::from_utf8` sees it (section 3 of RFC 3629): the longest valid prefix of a byte buffer. */
module Utf8 {
  import opened Common
  import opened Text

  type byte = b: int | 0 <= b < 256

  predicate Continues(b: byte) { 0x80 <= b <= 0xBF }

  function Encode(c: char): (bs: seq<byte>)
    ensures |bs| == Utf8Len(c)
  {
    var v := c as int;
    var q := v / 0x40;
    var r := q / 0x40;
    if v < 0x80 then [v]
    else if v < 0x800 then [0xC0 + q, 0x80 + v % 0x40]
    else if v < 0x10000 then [0xE0 + r, 0x80 + q % 0x40, 0x80 + v % 0x40]
    else [0xF0 + r / 0x40, 0x80 + r % 0x40, 0x80 + q % 0x40, 0x80 + v % 0x40]
  }

  function EncodeAll(s: string): (bs: seq<byte>) {
    if s == "" then [] else Encode(s[0]) + EncodeAll(s[1..])
  }

  function Decode2(b0: byte, b1: byte): Option<char> {
    if 0xC2 <= b0 <= 0xDF && Continues(b1) then Some(((b0 - 0xC0) * 0x40 + (b1 - 0x80)) as char) else None
  }

  function Decode3(b0: byte, b1: byte, b2: byte): Option<char> {
    if !(0xE0 <= b0 <= 0xEF && Continues(b1) && Continues(b2)) then None
    else
      var v := ((b0 - 0xE0) * 0x40 + (b1 - 0x80)) * 0x40 + (b2 - 0x80);
      // Overlong forms and surrogates are not valid.
      if v < 0x800 || 0xD800 <= v <= 0xDFFF then None else Some(v as char)
  }

  function Decode4(b0: byte, b1: byte, b2: byte, b3: byte): Option<char> {
    if !(0xF0 <= b0 <= 0xF4 && Continues(b1) && Continues(b2) && Continues(b3)) then None
    else
      var v := (((b0 - 0xF0) * 0x40 + (b1 - 0x80)) * 0x40 + (b2 - 0x80)) * 0x40 + (b3 - 0x80);
      if v < 0x10000 || v > 0x10FFFF then None else Some(v as char)
  }

  /** The scalar at the front of the buffer, if a complete valid one is there. */
  function DecodeOne(bs: seq<byte>): (r: Option<char>)
    ensures r.Some? ==> Utf8Len(r.value) <= |bs|
  {
    if bs == [] then None
    else if bs[0] < 0x80 then Some(bs[0] as char)
    else if bs[0] < 0xE0 then if |bs| < 2 then None else Decode2(bs[0], bs[1])
    else if bs[0] < 0xF0 then if |bs| < 3 then None else Decode3(bs[0], bs[1], bs[2])
    else if |bs| < 4 then None else Decode4(bs[0], bs[1], bs[2], bs[3])
  }

  datatype Split = Split(text: string, rest: seq<byte>)

  /** `split_valid_utf8`: valid text, and the bytes from the first scalar that is broken or not yet complete. */
  function SplitValid(bs: seq<byte>): Split
    decreases |bs|
  {
    match DecodeOne(bs)
    case None => Split("", bs)
    case Some(c) =>
      var tail := SplitValid(bs[Utf8Len(c)..]);
      Split([c] + tail.text, tail.rest)
  }

  lemma Digit64(q: int, d: int)
    requires 0 <= d < 0x40
    ensures (q * 0x40 + d) / 0x40 == q && (q * 0x40 + d) % 0x40 == d
  {
  }

  lemma DecodeEncode(c: char, t: seq<byte>)
    ensures DecodeOne(Encode(c) + t) == Some(c)
  {
    hide Decode2, Decode3, Decode4;
    var v := c as int;
    var bs := Encode(c) + t;
    var q := v / 0x40;
    var r := q / 0x40;
    if v < 0x80 {
      assert bs[0] == v;
    } else if v < 0x800 {
      assert bs[0] == 0xC0 + q && bs[1] == 0x80 + v % 0x40;
      DecodeDigits2(c);
    } else if v < 0x10000 {
      assert bs[0] == 0xE0 + r && bs[1] == 0x80 + q % 0x40 && bs[2] == 0x80 + v % 0x40;
      DecodeDigits3(c);
    } else {
      assert bs[0] == 0xF0 + r / 0x40 && bs[1] == 0x80 + r % 0x40;
      assert bs[2] == 0x80 + q % 0x40 && bs[3] == 0x80 + v % 0x40;
      DecodeDigits4(c);
    }
  }

  lemma DecodeDigits2(c: char)
    requires 0x80 <= c as int < 0x800
    ensures var v := c as int; Decode2(0xC0 + v / 0x40, 0x80 + v % 0x40) == Some(c)
  {
  }

  lemma DecodeDigits3(c: char)
    requires 0x800 <= c as int < 0x10000
    ensures var v := c as int; var q := v / 0x40;
            Decode3(0xE0 + q / 0x40, 0x80 + q % 0x40, 0x80 + v % 0x40) == Some(c)
  {
    var q := c as int / 0x40;
    assert c as int == q * 0x40 + c as int % 0x40;
    assert q == q / 0x40 * 0x40 + q % 0x40;
  }

  lemma DecodeDigits4(c: char)
    requires 0x10000 <= c as int
    ensures var v := c as int; var q := v / 0x40; var r := q / 0x40;
            Decode4(0xF0 + r / 0x40, 0x80 + r % 0x40, 0x80 + q % 0x40, 0x80 + v % 0x40) == Some(c)
  {
    var q := c as int / 0x40;
    var r := q / 0x40;
    assert c as int == q * 0x40 + c as int % 0x40;
    assert q == r * 0x40 + q % 0x40;
    assert r == r / 0x40 * 0x40 + r % 0x40;
  }

  lemma EncodeDecode2(b0: byte, b1: byte)
    requires Decode2(b0, b1).Some?
    ensures Encode(Decode2(b0, b1).value) == [b0, b1]
  {
    Digit64(b0 - 0xC0, b1 - 0x80);
  }

  lemma EncodeDecode3(b0: byte, b1: byte, b2: byte)
    requires Decode3(b0, b1, b2).Some?
    ensures Encode(Decode3(b0, b1, b2).value) == [b0, b1, b2]
  {
    Digit64((b0 - 0xE0) * 0x40 + (b1 - 0x80), b2 - 0x80);
    Digit64(b0 - 0xE0, b1 - 0x80);
  }

  lemma EncodeDecode4(b0: byte, b1: byte, b2: byte, b3: byte)
    requires Decode4(b0, b1, b2, b3).Some?
    ensures Encode(Decode4(b0, b1, b2, b3).value) == [b0, b1, b2, b3]
  {
    Digit64(((b0 - 0xF0) * 0x40 + (b1 - 0x80)) * 0x40 + (b2 - 0x80), b3 - 0x80);
    Digit64((b0 - 0xF0) * 0x40 + (b1 - 0x80), b2 - 0x80);
    Digit64(b0 - 0xF0, b1 - 0x80);
  }

  lemma EncodeDecode(bs: seq<byte>)
    requires DecodeOne(bs).Some?
    ensures var c := DecodeOne(bs).value; bs[..Utf8Len(c)] == Encode(c)
  {
    hide Encode, Decode2, Decode3, Decode4;
    if bs[0] < 0x80 {
      EncodeAscii(bs[0]);
    } else if bs[0] < 0xE0 {
      EncodeDecode2(bs[0], bs[1]);
    } else if bs[0] < 0xF0 {
      EncodeDecode3(bs[0], bs[1], bs[2]);
    } else {
      EncodeDecode4(bs[0], bs[1], bs[2], bs[3]);
    }
  }

  lemma EncodeAscii(b: byte)
    requires b < 0x80
    ensures Encode(b as char) == [b]
  {
  }

  lemma DecodeIsStable(a: seq<byte>, b: seq<byte>)
    requires DecodeOne(a).Some?
    ensures DecodeOne(a + b) == DecodeOne(a)
  {
  }

  lemma EncodeCons(c: char, t: string)
    ensures EncodeAll([c] + t) == Encode(c) + EncodeAll(t)
  {
    assert ([c] + t)[1..] == t;
  }

  lemma {:induction false} SplitIsExact(bs: seq<byte>)
    ensures bs == EncodeAll(SplitValid(bs).text) + SplitValid(bs).rest
    decreases |bs|
  {
    hide Encode, DecodeOne, EncodeAll, Utf8Len;
    if DecodeOne(bs).Some? {
      var c := DecodeOne(bs).value;
      var n := Utf8Len(c);
      var tail := SplitValid(bs[n..]);
      SplitIsExact(bs[n..]);
      EncodeDecode(bs);
      EncodeCons(c, tail.text);
      Rejoin(bs, n, Encode(c), EncodeAll(tail.text), tail.rest);
    } else {
      EncodeNothing();
    }
  }

  lemma EncodeNothing()
    ensures EncodeAll("") == []
  {
  }

  lemma Rejoin(bs: seq<byte>, n: nat, a: seq<byte>, b: seq<byte>, c: seq<byte>)
    requires n <= |bs| && bs[..n] == a && bs[n..] == b + c
    ensures bs == (a + b) + c
  {
    assert bs == bs[..n] + bs[n..];
  }

  /** No longer prefix is valid: every text encoded at the front of the buffer is a prefix of the split text. */
  lemma {:induction false} SplitIsLongest(bs: seq<byte>, t: string)
    requires EncodeAll(t) <= bs
    ensures t <= SplitValid(bs).text
    decreases |t|
  {
    hide Encode, DecodeOne;
    if t != "" {
      var c, n := t[0], Utf8Len(t[0]);
      var after := bs[n..];
      assert bs[..n] == EncodeAll(t)[..n] == Encode(c);
      assert bs == Encode(c) + after;
      DecodeEncode(c, after);
      assert EncodeAll(t)[n..] == EncodeAll(t[1..]);
      assert EncodeAll(t[1..]) <= after;
      SplitIsLongest(after, t[1..]);
      assert t == [c] + t[1..];
    }
  }

  lemma {:induction false} EncodedLength(s: string)
    ensures |EncodeAll(s)| == ByteLen(s)
  {
    if s != "" {
      EncodedLength(s[1..]);
      assert s == [s[0]] + s[1..];
      ByteLenConcat([s[0]], s[1..]);
      assert [s[0]][..0] == "";
    }
  }

  lemma SplitConserves(bs: seq<byte>)
    ensures |bs| == ByteLen(SplitValid(bs).text) + |SplitValid(bs).rest|
  {
    SplitIsExact(bs);
    EncodedLength(SplitValid(bs).text);
  }

  /** Decoding in two steps, wherever the cut falls, decodes the same text and leaves the same bytes. */
  lemma {:induction false} SplitCompose(a: seq<byte>, b: seq<byte>)
    ensures var first := SplitValid(a);
            var second := SplitValid(first.rest + b);
            SplitValid(a + b) == Split(first.text + second.text, second.rest)
    decreases |a|
  {
    hide DecodeOne, Utf8Len;
    if DecodeOne(a).Some? {
      var c := DecodeOne(a).value;
      var n := Utf8Len(c);
      DecodeIsStable(a, b);
      assert (a + b)[n..] == a[n..] + b;
      SplitCompose(a[n..], b);
      var second := SplitValid(SplitValid(a).rest + b);
      assert [c] + (SplitValid(a[n..]).text + second.text) == ([c] + SplitValid(a[n..]).text) + second.text;
    } else {
      assert "" + SplitValid(a + b).text == SplitValid(a + b).text;
    }
  }
}
