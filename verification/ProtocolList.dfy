/** Lists of protocol names as structured fields: the printer and parser of strings, parameters and lists, after
    sections 4.1.1 and 4.2.1 of RFC 9651. */
module ProtocolList {
  import opened Types
  import Utf8

  const TAB: Byte := 0x09
  const SPACE: Byte := 0x20
  const QUOTE: Byte := 0x22
  const PERCENT: Byte := 0x25
  const STAR: Byte := 0x2A
  const COMMA: Byte := 0x2C
  const MINUS: Byte := 0x2D
  const DOT: Byte := 0x2E
  const COLON: Byte := 0x3A
  const SEMICOLON: Byte := 0x3B
  const EQUALS: Byte := 0x3D
  const QUESTION: Byte := 0x3F
  const AT: Byte := 0x40
  const BACKSLASH: Byte := 0x5C

  predicate IsPrintable(b: Byte) {
    0x20 <= b <= 0x7E
  }

  predicate IsDigit(b: Byte) {
    0x30 <= b <= 0x39
  }

  predicate IsLower(b: Byte) {
    0x61 <= b <= 0x7A
  }

  predicate IsAlphanumeric(b: Byte) {
    IsDigit(b) || IsLower(b) || 0x41 <= b <= 0x5A
  }

  /** Classes of bytes that are skipped or taken in a run. */
  datatype Class = Spaces | Blanks | Digits | KeyBytes | TokenBytes | NotColon

  predicate In(c: Class, b: Byte) {
    match c
    case Spaces => b == SPACE
    case Blanks => b == SPACE || b == TAB
    case Digits => IsDigit(b)
    case KeyBytes => IsLower(b) || IsDigit(b) || b == 0x5F || b == MINUS || b == DOT || b == STAR
    case TokenBytes =>
      IsAlphanumeric(b) || b in {0x21, 0x23, 0x24, 0x25, 0x26, 0x27, 0x2A, 0x2B, 0x2D, 0x2E, 0x5E, 0x5F, 0x60, 0x7C, 0x7E, 0x3A, 0x2F}
    case NotColon => b != COLON
  }

  /** How many bytes at the front are of a class. */
  function Run(c: Class, s: Bytes): (n: nat)
    ensures n <= |s|
  {
    if s == [] || !In(c, s[0]) then 0 else 1 + Run(c, s[1..])
  }

  function Skip(c: Class, s: Bytes): Bytes {
    s[Run(c, s)..]
  }

  // ----- printing

  function EscapeByte(b: Byte): Bytes {
    if b == BACKSLASH || b == QUOTE then [BACKSLASH, b] else [b]
  }

  function Escape(p: Bytes): Bytes {
    if p == [] then [] else EscapeByte(p[0]) + Escape(p[1..])
  }

  predicate AllPrintable(p: Bytes) {
    forall i :: 0 <= i < |p| ==> IsPrintable(p[i])
  }

  function EncodeItems(ps: seq<Bytes>): Bytes
    requires ps != []
  {
    [QUOTE] + Escape(ps[0]) + [QUOTE] + if |ps| == 1 then [] else [COMMA, SPACE] + EncodeItems(ps[1..])
  }

  /** The header value for a list of names, or None when a name holds an unprintable byte. */
  function EncodeList(ps: seq<Bytes>): Option<Bytes> {
    if !forall i :: 0 <= i < |ps| ==> AllPrintable(ps[i]) then None
    else if ps == [] then Some([])
    else Some(EncodeItems(ps))
  }

  // ----- parsing

  datatype Piece = Piece(value: Bytes, rest: Bytes)

  function Cons(b: Byte, p: Option<Piece>): Option<Piece> {
    if p.None? then None else Some(p.value.(value := [b] + p.value.value))
  }

  /** A string after its opening quote. */
  function StringBody(s: Bytes): (r: Option<Piece>)
    ensures r.Some? ==> |r.value.rest| < |s|
    decreases |s|
  {
    if s == [] then None
    else if s[0] == BACKSLASH && |s| > 1 then
      if s[1] == QUOTE || s[1] == BACKSLASH then Cons(s[1], StringBody(s[2..])) else None
    else if s[0] == QUOTE then Some(Piece([], s[1..]))
    else if IsPrintable(s[0]) then Cons(s[0], StringBody(s[1..]))
    else None
  }

  function ParseString(s: Bytes): (r: Option<Piece>)
    ensures r.Some? ==> |r.value.rest| < |s|
  {
    if s == [] || s[0] != QUOTE then None else StringBody(s[1..])
  }

  datatype Number = Number(isDecimal: bool, rest: Bytes)

  function Unsigned(s: Bytes): Bytes {
    if s != [] && s[0] == MINUS then s[1..] else s
  }

  function DiscardDigits(s: Bytes): (r: Option<Number>)
    ensures r.Some? ==> |r.value.rest| < |s|
  {
    var n := Run(Digits, s);
    var rest := s[n..];
    if n == 0 then None
    else if rest == [] || rest[0] != DOT then if n <= 15 then Some(Number(false, rest)) else None
    else
      var m := Run(Digits, rest[1..]);
      if n <= 12 && 1 <= m <= 3 then Some(Number(true, rest[1..][m..])) else None
  }

  function DiscardNumber(s: Bytes): (r: Option<Number>)
    ensures r.Some? ==> |r.value.rest| < |s|
  {
    DiscardDigits(Unsigned(s))
  }

  function HexDigit(b: Byte): Option<nat> {
    if IsDigit(b) then Some(b - 0x30) else if 0x61 <= b <= 0x66 then Some(b - 0x61 + 10) else None
  }

  /** A display string after its opening quote. */
  function DisplayBody(s: Bytes): (r: Option<Piece>)
    ensures r.Some? ==> |r.value.rest| < |s|
    decreases |s|
  {
    if s == [] then None
    else if s[0] == PERCENT then
      if |s| < 3 || HexDigit(s[1]).None? || HexDigit(s[2]).None? then None
      else Cons(HexDigit(s[1]).value * 16 + HexDigit(s[2]).value, DisplayBody(s[3..]))
    else if s[0] == QUOTE then Some(Piece([], s[1..]))
    else if IsPrintable(s[0]) then Cons(s[0], DisplayBody(s[1..]))
    else None
  }

  /** The length of a byte sequence's content without its padding. */
  function Unpadded(content: Bytes): (n: nat)
    ensures n <= |content|
  {
    if content == [] then 0 else if content[|content| - 1] != EQUALS then |content| else Unpadded(content[..|content| - 1])
  }

  predicate IsBase64(content: Bytes) {
    var n := Unpadded(content);
    && (forall i :: 0 <= i < n ==> IsAlphanumeric(content[i]) || content[i] == 0x2B || content[i] == 0x2F)
    && |content| - n <= 2 && n % 4 != 1 && (|content| == n || |content| % 4 == 0)
  }

  /** The value of a parameter, after its equals sign. */
  function DiscardValue(s: Bytes): (r: Option<Bytes>)
    ensures r.Some? ==> |r.value| < |s|
  {
    if s == [] then None
    else if s[0] == MINUS || IsDigit(s[0]) then
      var n := DiscardNumber(s);
      if n.None? then None else Some(n.value.rest)
    else if s[0] == QUOTE then
      var p := ParseString(s);
      if p.None? then None else Some(p.value.rest)
    else if s[0] == STAR || IsLower(s[0]) || 0x41 <= s[0] <= 0x5A then Some(Skip(TokenBytes, s[1..]))
    else if s[0] == COLON then
      var n := Run(NotColon, s[1..]);
      if n == |s| - 1 || !IsBase64(s[1..1 + n]) then None else Some(s[n + 2..])
    else if s[0] == QUESTION then if |s| > 1 && (s[1] == 0x30 || s[1] == 0x31) then Some(s[2..]) else None
    else if s[0] == AT then
      var n := DiscardNumber(s[1..]);
      if n.None? || n.value.isDecimal then None else Some(n.value.rest)
    else if s[0] == PERCENT then
      if |s| < 2 || s[1] != QUOTE then None
      else
        var p := DisplayBody(s[2..]);
        if p.None? || !Utf8.IsValid(p.value.value) then None else Some(p.value.rest)
    else None
  }

  /** One parameter, after its semicolon: a key, and perhaps a value. */
  function DiscardParameter(s: Bytes): (r: Option<Bytes>)
    ensures r.Some? ==> |r.value| <= |s|
  {
    var key := Skip(Spaces, s);
    if key == [] || !(IsLower(key[0]) || key[0] == STAR) then None
    else
      var rest := Skip(KeyBytes, key);
      if rest == [] || rest[0] != EQUALS then Some(rest) else DiscardValue(rest[1..])
  }

  function DiscardParameters(s: Bytes): (r: Option<Bytes>)
    ensures r.Some? ==> |r.value| <= |s|
    decreases |s|
  {
    if s == [] || s[0] != SEMICOLON then Some(s)
    else
      var rest := DiscardParameter(s[1..]);
      if rest.None? then None else DiscardParameters(rest.value)
  }

  /** One list member and the blanks behind it. */
  function ParseItem(s: Bytes): (r: Option<Piece>)
    ensures r.Some? ==> |r.value.rest| < |s|
  {
    var p := ParseString(s);
    if p.None? then None
    else
      var rest := DiscardParameters(p.value.rest);
      if rest.None? then None else Some(Piece(p.value.value, Skip(Blanks, rest.value)))
  }

  function ParseItems(s: Bytes): Option<seq<Bytes>>
    decreases |s|
  {
    var p := ParseItem(s);
    if p.None? then None
    else if p.value.rest == [] then Some([p.value.value])
    else if p.value.rest[0] != COMMA then None
    else
      var next := Skip(Blanks, p.value.rest[1..]);
      if next == [] then None
      else
        var more := ParseItems(next);
        if more.None? then None else Some([p.value.value] + more.value)
  }

  function ParseList(header: Bytes): Option<seq<Bytes>> {
    var s := Skip(Spaces, header);
    if s == [] then None else ParseItems(s)
  }

  /** The end of the value, or a list separator. */
  predicate Separates(t: Bytes) {
    t == [] || t[0] == COMMA
  }

  // ----- round trip

  lemma {:induction false} StringRoundTrip(p: Bytes, rest: Bytes)
    requires AllPrintable(p)
    ensures StringBody(Escape(p) + [QUOTE] + rest) == Some(Piece(p, rest))
    decreases |p|
  {
    var s := Escape(p) + [QUOTE] + rest;
    if p == [] {
      assert s == [QUOTE] + rest && s[1..] == rest;
    } else {
      var e := EscapeByte(p[0]);
      var tail := Escape(p[1..]) + [QUOTE] + rest;
      assert s == e + tail && s[|e|..] == tail;
      StringRoundTrip(p[1..], rest);
      assert p == [p[0]] + p[1..];
    }
  }

  lemma SkipNothing(c: Class, s: Bytes)
    requires s == [] || !In(c, s[0])
    ensures Skip(c, s) == s
  {
  }

  lemma QuotedString(p: Bytes, more: Bytes)
    requires AllPrintable(p)
    ensures ParseString([QUOTE] + Escape(p) + [QUOTE] + more) == Some(Piece(p, more))
  {
    hide StringBody, Escape;
    var s := [QUOTE] + Escape(p) + [QUOTE] + more;
    assert s[1..] == Escape(p) + [QUOTE] + more;
    StringRoundTrip(p, more);
  }

  lemma NoParameters(more: Bytes)
    requires Separates(more)
    ensures DiscardParameters(more) == Some(more) && Skip(Blanks, more) == more
  {
    SkipNothing(Blanks, more);
  }

  lemma ItemRoundTrip(p: Bytes, more: Bytes)
    requires AllPrintable(p) && Separates(more)
    ensures ParseItem([QUOTE] + Escape(p) + [QUOTE] + more) == Some(Piece(p, more))
  {
    hide ParseString, Escape, Skip, DiscardParameters, AllPrintable;
    QuotedString(p, more);
    NoParameters(more);
  }

  lemma {:induction false} ItemsRoundTrip(ps: seq<Bytes>)
    requires ps != [] && forall i :: 0 <= i < |ps| ==> AllPrintable(ps[i])
    ensures ParseItems(EncodeItems(ps)) == Some(ps)
    decreases |ps|
  {
    hide ParseItem, Escape, Run, AllPrintable;
    var p := ps[0];
    var more := if |ps| == 1 then [] else [COMMA, SPACE] + EncodeItems(ps[1..]);
    ItemRoundTrip(p, more);
    if |ps| == 1 {
      assert ps == [p];
    } else {
      var next := EncodeItems(ps[1..]);
      assert more[1..] == [SPACE] + next;
      SkipOneSpace(next);
      ItemsRoundTrip(ps[1..]);
      assert ps == [p] + ps[1..];
    }
  }

  lemma SkipOneSpace(s: Bytes)
    requires s != [] && !In(Blanks, s[0])
    ensures Skip(Blanks, [SPACE] + s) == s
  {
    var t := [SPACE] + s;
    assert t[1..] == s;
    assert Run(Blanks, t) == 1 + Run(Blanks, s);
    assert Run(Blanks, s) == 0;
  }

  /** Printing fails only on unprintable bytes, and what is printed reads back as it was. */
  lemma ListRoundTrip(ps: seq<Bytes>)
    requires ps != []
    ensures EncodeList(ps).Some? <==> forall i :: 0 <= i < |ps| ==> AllPrintable(ps[i])
    ensures EncodeList(ps).Some? ==> ParseList(EncodeList(ps).value) == Some(ps)
  {
    if EncodeList(ps).Some? {
      ItemsRoundTrip(ps);
      var s := EncodeItems(ps);
      assert s[0] == QUOTE;
      SkipNothing(Spaces, s);
    }
  }

  // ----- what parses does not depend on a list separator behind it

  lemma {:induction false} RunLocal(c: Class, s: Bytes, t: Bytes)
    requires Separates(t) && c != NotColon
    ensures Run(c, s + t) == Run(c, s)
    decreases |s|
  {
    if s == [] {
      assert s + t == t;
    } else if In(c, s[0]) {
      assert (s + t)[1..] == s[1..] + t;
      RunLocal(c, s[1..], t);
    }
  }

  lemma SkipLocal(c: Class, s: Bytes, t: Bytes)
    requires Separates(t) && c != NotColon
    ensures Skip(c, s + t) == Skip(c, s) + t
  {
    hide Run;
    RunLocal(c, s, t);
  }

  function Shift(p: Option<Piece>, t: Bytes): Option<Piece> {
    if p.None? then None else Some(p.value.(rest := p.value.rest + t))
  }

  lemma {:induction false} StringLocal(s: Bytes, t: Bytes)
    requires StringBody(s).Some?
    ensures StringBody(s + t) == Shift(StringBody(s), t)
    decreases |s|
  {
    if s[0] == BACKSLASH && |s| > 1 {
      assert (s + t)[2..] == s[2..] + t;
      StringLocal(s[2..], t);
    } else {
      assert (s + t)[1..] == s[1..] + t;
      if s[0] != QUOTE {
        StringLocal(s[1..], t);
      }
    }
  }

  lemma {:induction false} DisplayLocal(s: Bytes, t: Bytes)
    requires DisplayBody(s).Some?
    ensures DisplayBody(s + t) == Shift(DisplayBody(s), t)
    decreases |s|
  {
    if s[0] == PERCENT {
      assert (s + t)[3..] == s[3..] + t;
      DisplayLocal(s[3..], t);
    } else {
      assert (s + t)[1..] == s[1..] + t;
      if s[0] != QUOTE {
        DisplayLocal(s[1..], t);
      }
    }
  }

  lemma CutLocal(s: Bytes, t: Bytes, n: nat)
    requires n <= |s|
    ensures (s + t)[n..] == s[n..] + t
  {
  }

  lemma DigitsLocal(s: Bytes, t: Bytes)
    requires DiscardDigits(s).Some? && Separates(t)
    ensures DiscardDigits(s + t) == Some(DiscardDigits(s).value.(rest := DiscardDigits(s).value.rest + t))
  {
    hide Run;
    RunLocal(Digits, s, t);
    var n := Run(Digits, s);
    var rest := s[n..];
    CutLocal(s, t, n);
    if rest != [] && rest[0] == DOT {
      CutLocal(rest, t, 1);
      RunLocal(Digits, rest[1..], t);
      CutLocal(rest[1..], t, Run(Digits, rest[1..]));
    }
  }

  lemma NumberLocal(s: Bytes, t: Bytes)
    requires DiscardNumber(s).Some? && Separates(t)
    ensures DiscardNumber(s + t) == Some(DiscardNumber(s).value.(rest := DiscardNumber(s).value.rest + t))
  {
    hide DiscardDigits;
    assert s != [];
    assert Unsigned(s + t) == Unsigned(s) + t by {
      CutLocal(s, t, 1);
    }
    DigitsLocal(Unsigned(s), t);
  }

  lemma {:induction false} ColonLocal(s: Bytes, t: Bytes)
    requires Run(NotColon, s) < |s|
    ensures Run(NotColon, s + t) == Run(NotColon, s)
    decreases |s|
  {
    if s[0] != COLON {
      assert (s + t)[1..] == s[1..] + t;
      ColonLocal(s[1..], t);
    }
  }

  lemma BinaryLocal(s: Bytes, t: Bytes)
    requires s != [] && s[0] == COLON && DiscardValue(s).Some?
    ensures DiscardValue(s + t) == Some(DiscardValue(s).value + t)
  {
    hide Run, IsBase64;
    var n := Run(NotColon, s[1..]);
    assert (s + t)[1..] == s[1..] + t;
    ColonLocal(s[1..], t);
    assert (s + t)[1..1 + n] == s[1..1 + n];
    assert (s + t)[n + 2..] == s[n + 2..] + t;
  }

  lemma ValueLocal(s: Bytes, t: Bytes)
    requires DiscardValue(s).Some? && Separates(t)
    ensures DiscardValue(s + t) == Some(DiscardValue(s).value + t)
  {
    hide Run, Skip, IsBase64, StringBody, DisplayBody, DiscardNumber, Utf8.IsValid;
    assert (s + t)[1..] == s[1..] + t;
    if s[0] == MINUS || IsDigit(s[0]) {
      NumberLocal(s, t);
    } else if s[0] == QUOTE {
      StringLocal(s[1..], t);
    } else if s[0] == STAR || IsLower(s[0]) || 0x41 <= s[0] <= 0x5A {
      SkipLocal(TokenBytes, s[1..], t);
    } else if s[0] == COLON {
      BinaryLocal(s, t);
    } else if s[0] == AT {
      NumberLocal(s[1..], t);
    } else {
      assert (s + t)[2..] == s[2..] + t;
      if s[0] == PERCENT {
        DisplayLocal(s[2..], t);
      }
    }
  }

  lemma ParameterLocal(s: Bytes, t: Bytes)
    requires DiscardParameter(s).Some? && Separates(t)
    ensures DiscardParameter(s + t) == Some(DiscardParameter(s).value + t)
  {
    hide Skip, DiscardValue;
    SkipLocal(Spaces, s, t);
    var key := Skip(Spaces, s);
    SkipLocal(KeyBytes, key, t);
    var rest := Skip(KeyBytes, key);
    if rest != [] && rest[0] == EQUALS {
      assert (rest + t)[1..] == rest[1..] + t;
      ValueLocal(rest[1..], t);
    }
  }

  lemma {:induction false} ParametersLocal(s: Bytes, t: Bytes)
    requires DiscardParameters(s).Some? && Separates(t)
    ensures DiscardParameters(s + t) == Some(DiscardParameters(s).value + t)
    decreases |s|
  {
    hide DiscardParameter;
    if s == [] {
      assert s + t == t;
    } else if s[0] == SEMICOLON {
      assert (s + t)[1..] == s[1..] + t;
      ParameterLocal(s[1..], t);
      ParametersLocal(DiscardParameter(s[1..]).value, t);
    }
  }

  lemma ItemLocal(s: Bytes, t: Bytes)
    requires ParseItem(s).Some? && Separates(t)
    ensures ParseItem(s + t) == Shift(ParseItem(s), t)
  {
    hide StringBody, DiscardParameters, Skip;
    assert (s + t)[1..] == s[1..] + t;
    StringLocal(s[1..], t);
    var rest := ParseString(s).value.rest;
    ParametersLocal(rest, t);
    SkipLocal(Blanks, DiscardParameters(rest).value, t);
  }

  // ----- repeated header fields

  /** The values of a header field that occurs several times, joined as one. */
  function Combine(values: seq<Bytes>): Bytes
    requires values != []
  {
    if |values| == 1 then values[0] else values[0] + [COMMA, SPACE] + Combine(values[1..])
  }

  /** The blanks after a separator lead to where the next value's own parse starts. */
  lemma {:induction false} NextValue(b: Bytes)
    requires ParseList(b).Some?
    ensures var next := Skip(Blanks, [SPACE] + b); next != [] && ParseItems(next) == ParseList(b)
  {
    hide ParseItems;
    StartsQuoted(b);
    LeadingSpaces(b);
    assert ([SPACE] + b)[1..] == b;
    assert Run(Blanks, [SPACE] + b) == 1 + Run(Blanks, b);
    hide Run;
    assert ([SPACE] + b)[1 + Run(Blanks, b)..] == b[Run(Blanks, b)..];
  }

  lemma StartsQuoted(b: Bytes)
    requires ParseList(b).Some?
    ensures var s := Skip(Spaces, b); s != [] && s[0] == QUOTE
  {
    hide Run, StringBody, DiscardParameters;
  }

  lemma {:induction false} LeadingSpaces(b: Bytes)
    requires var s := Skip(Spaces, b); s != [] && s[0] == QUOTE
    ensures Run(Blanks, b) == Run(Spaces, b)
    decreases |b|
  {
    if b[0] == SPACE {
      LeadingSpaces(b[1..]);
    }
  }

  lemma {:induction false} ItemsConcat(s: Bytes, b: Bytes)
    requires ParseItems(s).Some? && ParseList(b).Some?
    ensures ParseItems(s + ([COMMA, SPACE] + b)) == Some(ParseItems(s).value + ParseList(b).value)
    decreases |s|
  {
    hide ParseItem, Run, ParseList;
    var t := [COMMA, SPACE] + b;
    var p := ParseItem(s).value;
    ItemLocal(s, t);
    if p.rest == [] {
      assert p.rest + t == t && t[1..] == [SPACE] + b;
      NextValue(b);
    } else {
      assert (p.rest + t)[1..] == p.rest[1..] + t;
      SkipLocal(Blanks, p.rest[1..], t);
      var next := Skip(Blanks, p.rest[1..]);
      ItemsConcat(next, b);
      assert [p.value] + (ParseItems(next).value + ParseList(b).value) == [p.value] + ParseItems(next).value + ParseList(b).value;
    }
  }

  lemma ListConcat(a: Bytes, b: Bytes)
    requires ParseList(a).Some? && ParseList(b).Some?
    ensures ParseList(a + [COMMA, SPACE] + b) == Some(ParseList(a).value + ParseList(b).value)
  {
    hide ParseItems, Run;
    var t := [COMMA, SPACE] + b;
    assert a + [COMMA, SPACE] + b == a + t;
    SkipLocal(Spaces, a, t);
    ItemsConcat(Skip(Spaces, a), b);
  }

  function Flatten(lists: seq<seq<Bytes>>): seq<Bytes> {
    if lists == [] then [] else lists[0] + Flatten(lists[1..])
  }

  /** If every occurrence of the field parses alone, parameters and all, the combined value parses to the
      concatenation of the lists. */
  lemma {:induction false} CombinedParses(values: seq<Bytes>, lists: seq<seq<Bytes>>)
    requires values != [] && |lists| == |values|
    requires forall i :: 0 <= i < |values| ==> ParseList(values[i]) == Some(lists[i])
    ensures ParseList(Combine(values)) == Some(Flatten(lists))
    decreases |values|
  {
    hide ParseList;
    if |values| == 1 {
      assert lists[1..] == [] && lists[0] + [] == lists[0];
    } else {
      CombinedParses(values[1..], lists[1..]);
      ListConcat(values[0], Combine(values[1..]));
    }
  }
}
