/** The scanner, on the tokens of strict assembly. */
module YulScanner {
  import opened Instructions
  import opened Items
  import opened Machine
  import opened Utf8
  import opened Yul

  // ----- one token -----

  datatype Found = Found(token: Token, length: nat) | NoToken

  /** The end of the run of word characters from position i on. */
  function WordEnd(s: string, i: nat): (r: nat)
    requires i <= |s|
    ensures i <= r <= |s| && (forall k :: i <= k < r ==> IsIdentifierPart(s[k]) || s[k] == '.')
    ensures r < |s| ==> !IsIdentifierPart(s[r]) && s[r] != '.'
    decreases |s| - i
  {
    if i < |s| && (IsIdentifierPart(s[i]) || s[i] == '.') then WordEnd(s, i + 1) else i
  }

  function DigitsEnd(s: string, i: nat, hex: bool): (r: nat)
    requires i <= |s|
    ensures i <= r <= |s| && forall k :: i <= k < r ==> if hex then IsHexDigit(s[k]) else IsDigit(s[k])
    ensures r < |s| ==> if hex then !IsHexDigit(s[r]) else !IsDigit(s[r])
    decreases |s| - i
  {
    if i < |s| && (if hex then IsHexDigit(s[i]) else IsDigit(s[i])) then DigitsEnd(s, i + 1, hex) else i
  }

  /** A decimal number without leading zeros, or a hexadecimal one; nothing that could continue it may follow. */
  function NumberAt(s: string): Found
    requires |s| > 0 && IsDigit(s[0])
  {
    var hex := |s| >= 2 && s[0] == '0' && s[1] == 'x';
    var n := DigitsEnd(s, if hex then 2 else 0, hex);
    if (hex && n == 2) || (!hex && s[0] == '0' && n > 1) then NoToken
    else if n < |s| && (IsIdentifierPart(s[n]) || s[n] == '.') then NoToken
    else Found(Number(s[..n]), n)
  }

  function HexValue(c: char): int {
    if IsDigit(c) then c as int - '0' as int
    else if 'a' <= c <= 'f' then c as int - 'a' as int + 10
    else if 'A' <= c <= 'F' then c as int - 'A' as int + 10
    else -1
  }

  predicate AreHexDigits(s: string, i: nat, n: nat) { i + n <= |s| && forall k :: i <= k < i + n ==> IsHexDigit(s[k]) }

  /** Line feed to carriage return, or one of the longer line breaks of Unicode in UTF-8. */
  predicate IsLineBreak(s: string, i: nat)
    requires i < |s|
  {
    || '\n' <= s[i] <= '\r'
    || (i + 1 < |s| && s[i] as int == 0xc2 && s[i + 1] as int == 0x85)
    || (i + 2 < |s| && s[i] as int == 0xe2 && s[i + 1] as int == 0x80 && (s[i + 2] as int == 0xa8 || s[i + 2] as int == 0xa9))
  }

  /** One escape after a backslash: the characters it stands for, and where it ends. */
  datatype Escape = Escaped(chars: string, next: nat) | BadEscape

  function CharOf(code: int): char
    requires 0 <= code < 256
  {
    code as char
  }

  function Chars(bytes: seq<Octet>): (r: string)
    ensures |r| == |bytes|
  {
    seq(|bytes|, i requires 0 <= i < |bytes| => CharOf(bytes[i]))
  }

  function EscapeAt(s: string, i: nat): (r: Escape)
    ensures r.Escaped? ==> i < r.next <= |s|
  {
    if i >= |s| then BadEscape
    else
      var c := s[i];
      if c == '\n' then Escaped("", i + 1)
      else if c == '\'' || c == '"' || c == '\\' then Escaped([c], i + 1)
      else if c == 'b' then Escaped([CharOf(8)], i + 1)
      else if c == 'f' then Escaped([CharOf(12)], i + 1)
      else if c == 'n' then Escaped(['\n'], i + 1)
      else if c == 'r' then Escaped(['\r'], i + 1)
      else if c == 't' then Escaped(['\t'], i + 1)
      else if c == 'v' then Escaped([CharOf(11)], i + 1)
      else if c == 'x' && AreHexDigits(s, i + 1, 2) then Escaped([CharOf(HexValue(s[i + 1]) * 16 + HexValue(s[i + 2]))], i + 3)
      else if c == 'u' && AreHexDigits(s, i + 1, 4) then
        var code := ((HexValue(s[i + 1]) * 16 + HexValue(s[i + 2])) * 16 + HexValue(s[i + 3])) * 16 + HexValue(s[i + 4]);
        Escaped(Chars(EncodeCodePoint(code)), i + 5)
      else BadEscape
  }

  /** The value of a string literal, and where it ends. */
  datatype Scanned = Scanned(value: string, next: nat) | Unterminated

  function TextAt(s: string, i: nat, quote: char): (r: Scanned)
    ensures r.Scanned? ==> i < r.next <= |s|
    decreases |s| - i
  {
    if i >= |s| then Unterminated
    else if s[i] == quote then Scanned("", i + 1)
    else if IsLineBreak(s, i) then Unterminated
    else if s[i] == '\\' then
      var e := EscapeAt(s, i + 1);
      if e.BadEscape? then Unterminated
      else
        var rest := TextAt(s, e.next, quote);
        if rest.Unterminated? then rest else Scanned(e.chars + rest.value, rest.next)
    else
      var rest := TextAt(s, i + 1, quote);
      if rest.Unterminated? then rest else Scanned([s[i]] + rest.value, rest.next)
  }

  predicate NextIs(s: string, c: char) { |s| > 1 && s[1] == c }

  function TokenAt(s: string): (r: Found)
    requires |s| > 0 && !IsWhite(s[0])
    ensures r.Found? ==> 0 < r.length <= |s|
  {
    var c := s[0];
    if c == '{' then Found(LBrace, 1)
    else if c == '}' then Found(RBrace, 1)
    else if c == '(' then Found(LParen, 1)
    else if c == ')' then Found(RParen, 1)
    else if c == ',' then Found(Comma, 1)
    else if c == ':' then (if NextIs(s, '=') then Found(Assign, 2) else Found(Colon, 1))
    else if c == '-' then (if NextIs(s, '-') || NextIs(s, '=') then NoToken else Found(Minus, 1))
    else if c == '>' then (if NextIs(s, '>') || NextIs(s, '=') then NoToken else Found(Greater, 1))
    else if c == '"' || c == '\'' then
      var r := TextAt(s, 1, c);
      if r.Unterminated? then NoToken else Found(Text(r.value), r.next)
    else if IsIdentifierStart(c) then
      var n := WordEnd(s, 0);
      if s[..n] == "hex" then NoToken else Found(Word(s[..n]), n)
    else if IsDigit(c) then NumberAt(s)
    else NoToken
  }

  // ----- all tokens -----

  function Before(t: Token, rest: Option<seq<Token>>): Option<seq<Token>> {
    if rest.None? then None else Some([t] + rest.value)
  }

  /** The tokens of a text; None if it has one that no strict assembly has. */
  function Lex(s: string): Option<seq<Token>>
    decreases |s|
  {
    if s == "" then Some([])
    else if IsWhite(s[0]) then Lex(s[1..])
    else
      var f := TokenAt(s);
      if f.NoToken? then None else Before(f.token, Lex(s[f.length..]))
  }

  method ScanWord(s: string, start: nat) returns (next: nat)
    requires start <= |s|
    ensures next == start + WordEnd(s[start..], 0)
  {
    next := start;
    while next < |s| && (IsIdentifierPart(s[next]) || s[next] == '.')
      invariant start <= next <= |s| && forall k :: start <= k < next ==> IsIdentifierPart(s[k]) || s[k] == '.'
    {
      next := next + 1;
    }
    WordEndIs(s[start..], next - start);
  }

  lemma {:induction false} WordEndIs(s: string, n: nat)
    requires n <= |s| && (forall k :: 0 <= k < n ==> IsIdentifierPart(s[k]) || s[k] == '.')
    requires n < |s| ==> !IsIdentifierPart(s[n]) && s[n] != '.'
    ensures WordEnd(s, 0) == n
  {
  }

  lemma {:induction false} DigitsEndIs(s: string, i: nat, n: nat, hex: bool)
    requires i <= n <= |s| && (forall k :: i <= k < n ==> if hex then IsHexDigit(s[k]) else IsDigit(s[k]))
    requires n < |s| ==> if hex then !IsHexDigit(s[n]) else !IsDigit(s[n])
    ensures DigitsEnd(s, i, hex) == n
  {
  }

  method ScanNumber(s: string) returns (r: Found)
    requires |s| > 0 && IsDigit(s[0])
    ensures r == NumberAt(s)
  {
    var hex := |s| >= 2 && s[0] == '0' && s[1] == 'x';
    var first := if hex then 2 else 0;
    var n := first;
    while n < |s| && (if hex then IsHexDigit(s[n]) else IsDigit(s[n]))
      invariant first <= n <= |s| && forall k :: first <= k < n ==> if hex then IsHexDigit(s[k]) else IsDigit(s[k])
    {
      n := n + 1;
    }
    DigitsEndIs(s, first, n, hex);
    if hex && n == 2 { return NoToken; }
    if !hex && s[0] == '0' && n > 1 { return NoToken; }
    if n < |s| && (IsIdentifierPart(s[n]) || s[n] == '.') { return NoToken; }
    r := Found(Number(s[..n]), n);
  }

  function Prepend(value: string, r: Scanned): Scanned {
    if r.Unterminated? then r else Scanned(value + r.value, r.next)
  }

  method ScanText(s: string, quote: char) returns (r: Scanned)
    requires |s| > 0
    ensures r == TextAt(s, 1, quote)
  {
    hide EscapeAt, IsLineBreak;
    var i, value := 1, "";
    PrependNothing(TextAt(s, 1, quote));
    while i < |s| && s[i] != quote && !IsLineBreak(s, i)
      invariant 1 <= i <= |s| && TextAt(s, 1, quote) == Prepend(value, TextAt(s, i, quote))
      decreases |s| - i
    {
      PrependTwice(value, s, i, quote);
      if s[i] == '\\' {
        var e := EscapeAt(s, i + 1);
        if e.BadEscape? { return Unterminated; }
        value, i := value + e.chars, e.next;
      } else {
        value, i := value + [s[i]], i + 1;
      }
    }
    if i >= |s| || s[i] != quote { return Unterminated; }
    assert value + "" == value;
    r := Scanned(value, i + 1);
  }

  lemma {:induction false} PrependNothing(r: Scanned)
    ensures Prepend("", r) == r
  {
    if r.Scanned? { assert "" + r.value == r.value; }
  }

  lemma {:induction false} PrependTwice(value: string, s: string, i: nat, quote: char)
    requires i < |s| && s[i] != quote && !IsLineBreak(s, i)
    ensures Prepend(value, TextAt(s, i, quote)) ==
            if s[i] == '\\' then
              var e := EscapeAt(s, i + 1);
              if e.BadEscape? then Unterminated else Prepend(value + e.chars, TextAt(s, e.next, quote))
            else Prepend(value + [s[i]], TextAt(s, i + 1, quote))
  {
    hide EscapeAt, IsLineBreak;
    if s[i] == '\\' {
      var e := EscapeAt(s, i + 1);
      if e.Escaped? {
        var rest := TextAt(s, e.next, quote);
        if rest.Scanned? { assert value + (e.chars + rest.value) == value + e.chars + rest.value; }
      }
    } else {
      var rest := TextAt(s, i + 1, quote);
      if rest.Scanned? { assert value + ([s[i]] + rest.value) == value + [s[i]] + rest.value; }
    }
  }

  method ScanToken(s: string) returns (r: Found)
    requires |s| > 0 && !IsWhite(s[0])
    ensures r == TokenAt(s)
  {
    hide TextAt, NumberAt, WordEnd;
    var c := s[0];
    match c
    case '{' => r := Found(LBrace, 1);
    case '}' => r := Found(RBrace, 1);
    case '(' => r := Found(LParen, 1);
    case ')' => r := Found(RParen, 1);
    case ',' => r := Found(Comma, 1);
    case ':' => r := if NextIs(s, '=') then Found(Assign, 2) else Found(Colon, 1);
    case '-' => r := if NextIs(s, '-') || NextIs(s, '=') then NoToken else Found(Minus, 1);
    case '>' => r := if NextIs(s, '>') || NextIs(s, '=') then NoToken else Found(Greater, 1);
    case _ =>
      if c == '"' || c == '\'' {
        var t := ScanText(s, c);
        r := if t.Unterminated? then NoToken else Found(Text(t.value), t.next);
      } else if IsIdentifierStart(c) {
        var n := ScanWord(s, 0);
        assert s[0..] == s;
        r := if s[..n] == "hex" then NoToken else Found(Word(s[..n]), n);
      } else if IsDigit(c) {
        r := ScanNumber(s);
      } else {
        r := NoToken;
      }
  }

  function Appended(ts: seq<Token>, rest: Option<seq<Token>>): Option<seq<Token>> {
    if rest.None? then None else Some(ts + rest.value)
  }

  method Tokens(text: string) returns (r: Option<seq<Token>>)
    ensures r == Lex(text)
  {
    hide TokenAt;
    var s, tokens := text, [];
    AppendedNothing(Lex(text));
    while s != ""
      invariant Lex(text) == Appended(tokens, Lex(s))
      decreases |s|
    {
      if IsWhite(s[0]) {
        s := s[1..];
      } else {
        var f := ScanToken(s);
        if f.NoToken? { return None; }
        AppendedNext(tokens, f.token, Lex(s[f.length..]));
        s, tokens := s[f.length..], tokens + [f.token];
      }
    }
    assert tokens + [] == tokens;
    r := Some(tokens);
  }

  lemma {:induction false} AppendedNothing(rest: Option<seq<Token>>)
    ensures Appended([], rest) == rest
  {
    if rest.Some? { assert [] + rest.value == rest.value; }
  }

  lemma {:induction false} AppendedNext(ts: seq<Token>, t: Token, rest: Option<seq<Token>>)
    ensures Appended(ts, Before(t, rest)) == Appended(ts + [t], rest)
  {
    if rest.Some? { assert ts + ([t] + rest.value) == ts + [t] + rest.value; }
  }
}
