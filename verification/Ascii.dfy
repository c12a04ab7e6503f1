// ASCII escapes of bytes: escape_default and its double-ended iterator (src/libcore/ascii.rs).
module Ascii {
  import opened Basics

  /** The byte of an ASCII character. */
  function B(c: char): byte
    requires c as int < 128
  {
    c as int as byte
  }

  function Hexify(b: byte): byte
    requires b < 16
  {
    if b <= 9 then B('0') + b else B('a') + b - 10
  }

  /** The data of the escape, four bytes, and how many of them count. */
  function Escaped(c: byte): (seq<byte>, nat) {
    if c == B('\t') then ([B('\\'), B('t'), 0, 0], 2)
    else if c == B('\r') then ([B('\\'), B('r'), 0, 0], 2)
    else if c == B('\n') then ([B('\\'), B('n'), 0, 0], 2)
    else if c == B('\\') then ([B('\\'), B('\\'), 0, 0], 2)
    else if c == B('\'') then ([B('\\'), B('\''), 0, 0], 2)
    else if c == B('\"') then ([B('\\'), B('\"'), 0, 0], 2)
    else if 0x20 <= c <= 0x7e then ([c, 0, 0, 0], 1)
    else ([B('\\'), B('x'), Hexify(c / 16), Hexify(c % 16)], 4)
  }

  /** The bytes that escape_default(c) yields. */
  function Escape(c: byte): seq<byte> {
    Escaped(c).0[..Escaped(c).1]
  }

  function EscapeAll(s: seq<byte>): seq<byte> {
    if s == [] then [] else Escape(s[0]) + EscapeAll(s[1..])
  }

  // ---------------------------------------------------------------------------------------------
  // A reader of escaped text, written from the notation of byte literals alone.

  function HexDigit(b: byte): Option<byte> {
    if B('0') <= b <= B('9') then Some(b - B('0'))
    else if B('a') <= b <= B('f') then Some(b - B('a') + 10)
    else None
  }

  /** The byte at the front of the text, and how many bytes stand for it. */
  function ReadOne(t: seq<byte>): Option<(byte, nat)> {
    if t == [] then None
    else if t[0] != B('\\') then Some((t[0], 1))
    else if |t| == 1 then None
    else if t[1] == B('t') then Some((9, 2))
    else if t[1] == B('n') then Some((10, 2))
    else if t[1] == B('r') then Some((13, 2))
    else if t[1] == B('\\') || t[1] == B('\'') || t[1] == B('\"') then Some((t[1], 2))
    else if t[1] == B('x') && |t| >= 4 && HexDigit(t[2]).Some? && HexDigit(t[3]).Some? then
      Some((16 * (HexDigit(t[2]).value % 16) + HexDigit(t[3]).value % 16, 4))
    else None
  }

  function ReadAll(t: seq<byte>): Option<seq<byte>>
    decreases |t|
  {
    if t == [] then Some([])
    else
      match ReadOne(t)
      case None => None
      case Some((c, n)) =>
        if n > |t| then None
        else
          match ReadAll(t[n..])
          case None => None
          case Some(rest) => Some([c] + rest)
  }

  lemma HexRoundTrip(b: byte)
    requires b < 16
    ensures HexDigit(Hexify(b)) == Some(b)
  {
  }

  /** An escape is read back as its byte, whatever follows it. */
  lemma ReadOneEscape(c: byte, rest: seq<byte>)
    ensures ReadOne(Escape(c) + rest) == Some((c, |Escape(c)|))
  {
    if Escaped(c).1 == 4 {
      HexRoundTrip(c / 16);
      HexRoundTrip(c % 16);
      var t := Escape(c) + rest;
      assert t[0] == B('\\') && t[1] == B('x') && t[2] == Hexify(c / 16) && t[3] == Hexify(c % 16);
    }
  }

  lemma ReadAllStep(t: seq<byte>, c: byte, n: nat, rest: seq<byte>)
    requires ReadOne(t) == Some((c, n)) && 0 < n <= |t| && ReadAll(t[n..]) == Some(rest)
    ensures ReadAll(t) == Some([c] + rest)
  {
    hide ReadOne;
  }

  /** Which bytes stand for themselves, which get a letter after a backslash, and which two hex digits. Together with
      ReadOneEscape this leaves one escape for each byte. */
  lemma EscapeLength(c: byte)
    ensures |Escape(c)| == 1 <==> 32 <= c <= 126 && c != 34 && c != 39 && c != 92
    ensures |Escape(c)| == 2 <==> c == 9 || c == 10 || c == 13 || c == 34 || c == 39 || c == 92
    ensures |Escape(c)| == 1 || |Escape(c)| == 2 || |Escape(c)| == 4
  {
    assert B('\t') == 9 && B('\n') == 10 && B('\r') == 13 && B('\"') == 34 && B('\'') == 39 && B('\\') == 92;
  }

  /** Escaping is uniquely decodable: the concatenated escapes of any bytes are read back as those bytes. */
  lemma {:induction false} EscapeRoundTrip(s: seq<byte>)
    ensures ReadAll(EscapeAll(s)) == Some(s)
    decreases |s|
  {
    if s != [] {
      var e, rest := Escape(s[0]), EscapeAll(s[1..]);
      ReadOneEscape(s[0], rest);
      EscapeRoundTrip(s[1..]);
      assert (e + rest)[|e|..] == rest;
      assert EscapeAll(s) == e + rest;
      hide Escape, ReadOne, EscapeAll;
      ReadAllStep(e + rest, s[0], |e|, s[1..]);
      assert s == [s[0]] + s[1..];
    }
  }

  /** Hence two byte strings with the same escape are equal. */
  lemma EscapeInjective(s: seq<byte>, t: seq<byte>)
    requires EscapeAll(s) == EscapeAll(t)
    ensures s == t
  {
    EscapeRoundTrip(s);
    EscapeRoundTrip(t);
  }

  /** All output is printable ASCII. */
  lemma {:induction false} EscapePrintable(s: seq<byte>)
    ensures forall i :: 0 <= i < |EscapeAll(s)| ==> 0x20 <= EscapeAll(s)[i] <= 0x7e
    decreases |s|
  {
    if s != [] {
      EscapePrintable(s[1..]);
    }
  }

  // ---------------------------------------------------------------------------------------------
  // The iterator.

  class EscapeDefault {
    const data: seq<byte>
    var start: nat
    var end: nat

    ghost predicate Valid()
      reads this
    {
      start <= end <= |data|
    }

    /** What is left to yield. */
    ghost function Left(): seq<byte>
      requires Valid()
      reads this
    {
      data[start..end]
    }

    /** escape_default. */
    constructor (c: byte)
      ensures Valid() && Left() == Escape(c)
    {
      data, start, end := Escaped(c).0, 0, Escaped(c).1;
    }

    method Next() returns (r: Option<byte>)
      requires Valid()
      modifies this
      ensures Valid()
      ensures old(Left()) == [] ==> r == None && Left() == []
      ensures old(Left()) != [] ==> r.Some? && old(Left()) == [r.value] + Left()
    {
      if start == end {
        return None;
      }
      start := start + 1;
      return Some(data[start - 1]);
    }

    method NextBack() returns (r: Option<byte>)
      requires Valid()
      modifies this
      ensures Valid()
      ensures old(Left()) == [] ==> r == None && Left() == []
      ensures old(Left()) != [] ==> r.Some? && old(Left()) == Left() + [r.value]
    {
      if start == end {
        return None;
      }
      end := end - 1;
      return Some(data[end]);
    }

    method SizeHint() returns (low: nat, high: Option<nat>)
      requires Valid()
      ensures low == |Left()| && high == Some(|Left()|)
    {
      return end - start, Some(end - start);
    }

    /** last, which takes the iterator with it. */
    method Last() returns (r: Option<byte>)
      requires Valid()
      modifies this
      ensures r == if old(Left()) == [] then None else Some(old(Left())[|old(Left())| - 1])
    {
      r := NextBack();
    }
  }

  function Reverse(s: seq<byte>): seq<byte> {
    if s == [] then [] else Reverse(s[1..]) + [s[0]]
  }

  lemma ReversePush(s: seq<byte>, x: byte)
    ensures Reverse(s + [x]) == [x] + Reverse(s)
    decreases |s|
  {
    if s == [] {
      assert s + [x] == [x];
    } else {
      ReversePush(s[1..], x);
      assert (s + [x])[1..] == s[1..] + [x];
    }
  }

  /** Any interleaving of next and next_back yields each byte of the escape once: those from the front in order, those
      from the back in reverse, and in the middle what has not been asked for. */
  method Interleave(c: byte, fromBack: seq<bool>) returns (front: seq<byte>, back: seq<byte>, it: EscapeDefault)
    ensures it.Valid() && Escape(c) == front + it.Left() + Reverse(back)
    ensures |front| + |back| == if |fromBack| <= |Escape(c)| then |fromBack| else |Escape(c)|
  {
    it := new EscapeDefault(c);
    front, back := [], [];
    for i := 0 to |fromBack|
      invariant fresh(it) && it.Valid() && Escape(c) == front + it.Left() + Reverse(back)
      invariant |front| + |back| == if i <= |Escape(c)| then i else |Escape(c)|
    {
      hide Escape, Reverse;
      ghost var left := it.Left();
      ReversedLength(back);
      if fromBack[i] {
        var b := it.NextBack();
        if b.Some? {
          TakeBack(front, it.Left(), b.value, back);
          back := back + [b.value];
        }
      } else {
        var b := it.Next();
        if b.Some? {
          TakeFront(front, b.value, it.Left(), back);
          front := front + [b.value];
        }
      }
    }
  }

  lemma TakeFront(front: seq<byte>, b: byte, left: seq<byte>, back: seq<byte>)
    ensures front + ([b] + left) + Reverse(back) == front + [b] + left + Reverse(back)
  {
    hide Reverse;
  }

  lemma TakeBack(front: seq<byte>, left: seq<byte>, b: byte, back: seq<byte>)
    ensures front + (left + [b]) + Reverse(back) == front + left + Reverse(back + [b])
    ensures |Reverse(back + [b])| == |back| + 1
  {
    ReversePush(back, b);
    ReversedLength(back);
    hide Reverse;
  }

  lemma ReversedLength(s: seq<byte>)
    ensures |Reverse(s)| == |s|
  {
  }
}
