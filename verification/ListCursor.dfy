/** The printer and the parsers of module ProtocolList as the source runs them: a buffer grown byte by byte, and
    a cursor that moves over the header value. */
module ListCursor {
  import opened Types
  import opened P = ProtocolList
  import Utf8

  /** Print a list of names, or give up at the first unprintable byte. */
  method Encode(protocols: seq<Bytes>) returns (r: Option<Bytes>)
    ensures r == P.EncodeList(protocols)
  {
    hide P.Escape, P.EncodeItems;
    var buffer: Bytes := [];
    var i := 0;
    while i < |protocols|
      invariant 0 <= i <= |protocols| && forall k :: 0 <= k < i ==> AllPrintable(protocols[k])
      invariant buffer == Printed(protocols[..i])
    {
      if i > 0 {
        buffer := buffer + [COMMA, SPACE];
      }
      buffer := buffer + [QUOTE];
      var body := EscapeName(protocols[i]);
      if body.None? {
        return None;
      }
      PrintNext(protocols, i);
      buffer := buffer + body.value + [QUOTE];
      i := i + 1;
    }
    assert protocols[..i] == protocols;
    PrintedAll(protocols);
    return Some(buffer);
  }

  method EscapeName(name: Bytes) returns (r: Option<Bytes>)
    ensures r.Some? <==> AllPrintable(name)
    ensures r.Some? ==> r.value == P.Escape(name)
  {
    hide P.Escape;
    var buffer: Bytes := [];
    var i := 0;
    EscapeFrom(name);
    while i < |name|
      invariant 0 <= i <= |name| && forall k :: 0 <= k < i ==> IsPrintable(name[k])
      invariant buffer + P.Escape(name[i..]) == P.Escape(name)
    {
      EscapeNext(buffer, name, i);
      var byte := name[i];
      if byte == BACKSLASH || byte == QUOTE {
        buffer := buffer + [BACKSLASH];
      }
      if !IsPrintable(byte) {
        return None;
      }
      buffer := buffer + [byte];
      i := i + 1;
    }
    EscapeFrom([]);
    assert name[i..] == [] && buffer + [] == buffer;
    return Some(buffer);
  }

  lemma EscapeFrom(name: Bytes)
    ensures [] + P.Escape(name[0..]) == P.Escape(name) && P.Escape([]) == []
  {
    assert name[0..] == name;
  }

  lemma EscapeNext(buffer: Bytes, name: Bytes, i: nat)
    requires i < |name|
    ensures buffer + P.Escape(name[i..]) == buffer + EscapeByte(name[i]) + P.Escape(name[i + 1..])
  {
    assert name[i..][1..] == name[i + 1..];
  }

  /** The names printed so far. */
  function Printed(ps: seq<Bytes>): Bytes
    decreases |ps|
  {
    if ps == [] then []
    else
      var n := |ps| - 1;
      Printed(ps[..n]) + (if n > 0 then [COMMA, SPACE] else []) + [QUOTE] + P.Escape(ps[n]) + [QUOTE]
  }

  lemma PrintNext(ps: seq<Bytes>, i: nat)
    requires i < |ps|
    ensures Printed(ps[..i + 1]) == Printed(ps[..i]) + (if i > 0 then [COMMA, SPACE] else []) + [QUOTE] + P.Escape(ps[i]) + [QUOTE]
  {
    assert ps[..i + 1][..i] == ps[..i];
  }

  /** Printing from the front and from the back agree. */
  lemma {:induction false} PrintedFront(ps: seq<Bytes>)
    requires |ps| > 1
    ensures Printed(ps) == [QUOTE] + P.Escape(ps[0]) + [QUOTE] + [COMMA, SPACE] + Printed(ps[1..])
    decreases |ps|
  {
    hide P.Escape;
    var n := |ps| - 1;
    var last := [QUOTE] + P.Escape(ps[n]) + [QUOTE];
    assert ps[1..][..n - 1] == ps[..n][1..] && ps[1..][n - 1] == ps[n];
    if n == 1 {
      assert ps[..1][..0] == [] && Printed(ps[..1]) == [QUOTE] + P.Escape(ps[0]) + [QUOTE];
      assert ps[1..][..0] == [];
    } else {
      PrintedFront(ps[..n]);
      assert ps[..n][0] == ps[0];
    }
  }

  lemma PrintedOne(ps: seq<Bytes>)
    requires |ps| == 1
    ensures Printed(ps) == P.EncodeItems(ps)
  {
    hide P.Escape;
    assert ps[..0] == [] && Printed([]) == [];
  }

  lemma EncodedFront(ps: seq<Bytes>)
    requires |ps| > 1
    ensures P.EncodeItems(ps) == [QUOTE] + P.Escape(ps[0]) + [QUOTE] + [COMMA, SPACE] + P.EncodeItems(ps[1..])
  {
    hide P.Escape;
  }

  lemma {:induction false} PrintedAll(ps: seq<Bytes>)
    ensures ps == [] ==> Printed(ps) == []
    ensures ps != [] ==> Printed(ps) == P.EncodeItems(ps)
    decreases |ps|
  {
    hide P.Escape, P.EncodeItems;
    if |ps| == 1 {
      PrintedOne(ps);
    } else if |ps| > 1 {
      PrintedFront(ps);
      EncodedFront(ps);
      hide Printed;
      PrintedAll(ps[1..]);
    }
  }

  /** A cursor over a header value. */
  class Cursor {
    const data: Bytes
    var pos: nat

    predicate Valid()
      reads this
    {
      pos <= |data|
    }

    function Rest(): Bytes
      requires Valid()
      reads this
    {
      data[pos..]
    }

    constructor (data: Bytes)
      ensures Valid() && Rest() == data && this.data == data
    {
      this.data := data;
      pos := 0;
    }

    function Peek(): (b: Byte)
      requires Valid() && pos < |data|
      reads this
      ensures Rest() != [] && b == Rest()[0]
    {
      data[pos]
    }

    method Advance(n: nat)
      requires Valid() && n <= |Rest()|
      modifies this
      ensures Valid() && pos == old(pos) + n && Rest() == old(Rest())[n..]
    {
      pos := pos + n;
    }

    method SkipRun(c: Class) returns (n: nat)
      requires Valid()
      modifies this
      ensures Valid() && n == Run(c, old(Rest())) && pos == old(pos) + n && Rest() == P.Skip(c, old(Rest()))
    {
      n := 0;
      ghost var start := Rest();
      while pos < |data| && In(c, data[pos])
        invariant Valid() && n <= |start| && Rest() == start[n..] && pos == old(pos) + n
        invariant Run(c, start) == n + Run(c, start[n..])
        decreases |data| - pos
      {
        assert start[n..][1..] == start[n + 1..];
        pos := pos + 1;
        n := n + 1;
      }
    }

    method ParseString() returns (value: Option<Bytes>)
      requires Valid()
      modifies this
      ensures Valid()
      ensures match P.ParseString(old(Rest()))
              case None => value == None
              case Some(p) => value == Some(p.value) && Rest() == p.rest
    {
      if pos == |data| || data[pos] != QUOTE {
        return None;
      }
      pos := pos + 1;
      ghost var start := Rest();
      assert start == old(Rest())[1..];
      var text: Bytes := [];
      Ahead([], StringBody(start));
      while pos < |data|
        invariant Valid() && StringBody(start) == After(text, StringBody(Rest()))
        decreases |data| - pos
      {
        ghost var here := Rest();
        var byte := data[pos];
        pos := pos + 1;
        assert Rest() == here[1..];
        if byte == BACKSLASH && pos < |data| {
          var next := data[pos];
          pos := pos + 1;
          assert Rest() == here[2..];
          if next != QUOTE && next != BACKSLASH {
            return None;
          }
          Ahead(text + [next], StringBody(Rest()));
          text := text + [next];
        } else if byte == QUOTE {
          assert text + [] == text;
          return Some(text);
        } else if IsPrintable(byte) {
          Ahead(text + [byte], StringBody(Rest()));
          text := text + [byte];
        } else {
          return None;
        }
      }
      return None;
    }

    method DiscardNumber() returns (isDecimal: Option<bool>)
      requires Valid()
      modifies this
      ensures Valid()
      ensures match P.DiscardNumber(old(Rest()))
              case None => isDecimal == None
              case Some(n) => isDecimal == Some(n.isDecimal) && Rest() == n.rest
    {
      hide DiscardDigits;
      if pos < |data| && Peek() == MINUS {
        Advance(1);
      }
      isDecimal := DiscardUnsigned();
    }

    method DiscardUnsigned() returns (isDecimal: Option<bool>)
      requires Valid()
      modifies this
      ensures Valid()
      ensures match DiscardDigits(old(Rest()))
              case None => isDecimal == None
              case Some(n) => isDecimal == Some(n.isDecimal) && Rest() == n.rest
    {
      hide Run;
      var n := SkipRun(Digits);
      if n == 0 {
        return None;
      }
      if pos == |data| || Peek() != DOT {
        return if n <= 15 then Some(false) else None;
      }
      Advance(1);
      var m := SkipRun(Digits);
      return if n <= 12 && 1 <= m <= 3 then Some(true) else None;
    }

    method DiscardDisplay() returns (value: Option<Bytes>)
      requires Valid()
      modifies this
      ensures Valid()
      ensures match DisplayBody(old(Rest()))
              case None => value == None
              case Some(p) => value == Some(p.value) && Rest() == p.rest
    {
      ghost var start := Rest();
      var text: Bytes := [];
      Ahead([], DisplayBody(start));
      while pos < |data|
        invariant Valid() && DisplayBody(start) == After(text, DisplayBody(Rest()))
        decreases |data| - pos
      {
        ghost var here := Rest();
        var byte := data[pos];
        pos := pos + 1;
        assert Rest() == here[1..];
        if byte == PERCENT {
          if pos + 2 > |data| {
            return None;
          }
          var high, low := HexDigit(data[pos]), HexDigit(data[pos + 1]);
          if high.None? || low.None? {
            return None;
          }
          pos := pos + 2;
          assert Rest() == here[3..];
          Ahead(text + [high.value * 16 + low.value], DisplayBody(Rest()));
          text := text + [high.value * 16 + low.value];
        } else if byte == QUOTE {
          assert text + [] == text;
          return Some(text);
        } else if IsPrintable(byte) {
          Ahead(text + [byte], DisplayBody(Rest()));
          text := text + [byte];
        } else {
          return None;
        }
      }
      return None;
    }

    method DiscardValue() returns (ok: bool)
      requires Valid()
      modifies this
      ensures Valid()
      ensures match P.DiscardValue(old(Rest())) case None => !ok case Some(rest) => ok && Rest() == rest
    {
      hide Run, StringBody, DisplayBody, DiscardDigits, IsBase64, Utf8.IsValid;
      if pos == |data| {
        return false;
      }
      var first := Peek();
      if first == MINUS || IsDigit(first) {
        var n := DiscardNumber();
        return n.Some?;
      } else if first == QUOTE {
        var p := ParseString();
        return p.Some?;
      } else if first == COLON {
        ok := DiscardBinary();
        return;
      }
      ghost var start := Rest();
      Advance(1);
      if first == STAR || IsLower(first) || 0x41 <= first <= 0x5A {
        var _ := SkipRun(TokenBytes);
        return true;
      } else if first == QUESTION {
        if pos == |data| || (Peek() != 0x30 && Peek() != 0x31) {
          return false;
        }
        Advance(1);
        assert Rest() == start[2..];
        return true;
      } else if first == AT {
        var n := DiscardNumber();
        return n.Some? && !n.value;
      } else if first == PERCENT {
        if pos == |data| || Peek() != QUOTE {
          return false;
        }
        Advance(1);
        assert Rest() == start[2..];
        var p := DiscardDisplay();
        return p.Some? && Utf8.IsValid(p.value);
      }
      return false;
    }

    /** A byte sequence, with its colons. */
    method DiscardBinary() returns (ok: bool)
      requires Valid() && Rest() != [] && Rest()[0] == COLON
      modifies this
      ensures Valid()
      ensures match P.DiscardValue(old(Rest())) case None => !ok case Some(rest) => ok && Rest() == rest
    {
      hide Run, IsBase64;
      ghost var start := Rest();
      Advance(1);
      var from := pos;
      var n := SkipRun(NotColon);
      if pos == |data| {
        return false;
      }
      assert data[from..pos] == start[1..1 + n];
      ok := IsBase64(data[from..pos]);
      Advance(1);
      assert Rest() == start[n + 2..];
    }

    method DiscardParameters() returns (ok: bool)
      requires Valid()
      modifies this
      ensures Valid()
      ensures match P.DiscardParameters(old(Rest())) case None => !ok case Some(rest) => ok && Rest() == rest
    {
      hide P.DiscardParameter;
      ghost var start := Rest();
      while pos < |data| && Peek() == SEMICOLON
        invariant Valid() && P.DiscardParameters(start) == P.DiscardParameters(Rest())
        decreases |Rest()|
      {
        Advance(1);
        var one := DiscardParameter();
        if !one {
          return false;
        }
      }
      return true;
    }

    /** One parameter, after its semicolon. */
    method DiscardParameter() returns (ok: bool)
      requires Valid()
      modifies this
      ensures Valid()
      ensures match P.DiscardParameter(old(Rest())) case None => !ok case Some(rest) => ok && Rest() == rest
    {
      hide Run, P.DiscardValue, Skip;
      var _ := SkipRun(Spaces);
      if pos == |data| || !(IsLower(Peek()) || Peek() == STAR) {
        return false;
      }
      var _ := SkipRun(KeyBytes);
      if pos == |data| || Peek() != EQUALS {
        return true;
      }
      Advance(1);
      ok := DiscardValue();
    }

    /** The list loop: a string with its parameters, blanks, and then the end or a separator. */
    method ParseItems() returns (protocols: Option<seq<Bytes>>)
      requires Valid()
      modifies this
      ensures Valid() && protocols == P.ParseItems(old(Rest()))
    {
      hide P.ParseItem;
      var found: seq<Bytes> := [];
      ghost var start := Rest();
      Listed([], P.ParseItems(start));
      while true
        invariant Valid() && P.ParseItems(start) == Behind(found, P.ParseItems(Rest()))
        decreases |Rest()|
      {
        var item := ParseItem();
        if item.None? {
          return None;
        }
        Listed(found + [item.value], P.ParseItems(if pos < |data| then P.Skip(Blanks, Rest()[1..]) else []));
        found := found + [item.value];
        if pos == |data| {
          return Some(found);
        }
        if Peek() != COMMA {
          return None;
        }
        Advance(1);
        var _ := SkipRun(Blanks);
        if pos == |data| {
          return None;
        }
      }
    }

    method ParseItem() returns (value: Option<Bytes>)
      requires Valid()
      modifies this
      ensures Valid()
      ensures match P.ParseItem(old(Rest()))
              case None => value == None
              case Some(p) => value == Some(p.value) && Rest() == p.rest
    {
      hide P.ParseString, P.DiscardParameters, Skip;
      value := ParseString();
      if value.None? {
        return;
      }
      var ok := DiscardParameters();
      if !ok {
        return None;
      }
      var _ := SkipRun(Blanks);
    }
  }

  /** Parse a header value as a list of names. */
  method ParseList(header: Bytes) returns (r: Option<seq<Bytes>>)
    ensures r == P.ParseList(header)
  {
    hide P.ParseItems;
    var cursor := new Cursor(header);
    var _ := cursor.SkipRun(Spaces);
    if cursor.pos == |header| {
      return None;
    }
    r := cursor.ParseItems();
  }

  /** The names found so far in front of the rest of a list. */
  function Behind(found: seq<Bytes>, rest: Option<seq<Bytes>>): Option<seq<Bytes>> {
    if rest.None? then None else Some(found + rest.value)
  }

  lemma Listed(found: seq<Bytes>, rest: Option<seq<Bytes>>)
    ensures Behind([], rest) == rest
    ensures found != [] ==> Behind(found, rest) == Behind(found[..|found| - 1], Behind([found[|found| - 1]], rest))
    ensures found != [] ==> found[..|found| - 1] + [found[|found| - 1]] == found
  {
    if rest.Some? && found != [] {
      var front := found[..|found| - 1];
      var last := found[|found| - 1];
      assert found == front + [last];
      assert front + ([last] + rest.value) == front + [last] + rest.value;
    }
    assert rest.Some? ==> [] + rest.value == rest.value;
  }

  /** The value read so far in front of the rest of a string. */
  function After(text: Bytes, p: Option<Piece>): Option<Piece> {
    if p.None? then None else Some(p.value.(value := text + p.value.value))
  }

  lemma Ahead(text: Bytes, p: Option<Piece>)
    ensures text != [] ==> After(text, p) == After(text[..|text| - 1], Cons(text[|text| - 1], p))
    ensures After([], p) == p
  {
    if p.Some? && text != [] {
      var front := text[..|text| - 1];
      var last := text[|text| - 1];
      assert text == front + [last];
      assert front + ([last] + p.value.value) == front + [last] + p.value.value;
    }
    assert p.Some? ==> [] + p.value.value == p.value.value;
  }
}
