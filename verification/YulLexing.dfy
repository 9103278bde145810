/** Scanning texts put together from parts. */
module YulLexing {
  import opened Items
  import opened Machine
  import opened Utf8
  import opened Yul
  import opened YulScanner

  /** Characters that end a word or a number, and that no token but a text literal continues. */
  predicate IsDelimiter(c: char) { IsWhite(c) || c == '(' || c == ')' || c == '{' || c == '}' || c == ',' }

  predicate Apart(a: string, b: string) { a == "" || b == "" || IsDelimiter(b[0]) || IsDelimiter(a[|a| - 1]) }

  /** What follows a token does not become part of it. */
  predicate StopsLike(a: string, b: string, b': string) {
    b' == "" || (b != "" && b[0] == b'[0]) || (a != "" && Apart(a, b'))
  }

  // ----- one token in other surroundings -----

  lemma {:induction false} WordStays(a: string, b: string, b': string, t: Token)
    requires a != "" && IsIdentifierStart(a[0]) && TokenAt(a + b) == Found(t, |a|) && StopsLike(a, b, b')
    ensures TokenAt(a + b') == Found(t, |a|)
  {
    hide TextAt, NumberAt;
    assert (a + b)[..|a|] == a && (a + b')[..|a|] == a;
    assert forall k :: 0 <= k < |a| ==> (a + b)[k] == a[k] == (a + b')[k];
    if b != "" { assert (a + b)[|a|] == b[0]; }
    if b' != "" { assert (a + b')[|a|] == b'[0]; }
    WordEndIs(a + b', |a|);
  }

  lemma {:induction false} NumberStays(a: string, b: string, b': string, t: Token)
    requires a != "" && IsDigit(a[0]) && TokenAt(a + b) == Found(t, |a|) && StopsLike(a, b, b')
    ensures TokenAt(a + b') == Found(t, |a|)
  {
    hide TextAt, WordEnd;
    var s, s' := a + b, a + b';
    assert s[..|a|] == a && s'[..|a|] == a;
    assert forall k :: 0 <= k < |a| ==> s[k] == a[k] == s'[k];
    if b != "" { assert s[|a|] == b[0]; }
    if b' != "" { assert s'[|a|] == b'[0]; }
    var hex := |s| >= 2 && s[0] == '0' && s[1] == 'x';
    NotJustZero(a, b, t);
    assert hex ==> |a| > 2;
    assert hex == (|s'| >= 2 && s'[0] == '0' && s'[1] == 'x');
    DigitsEndIs(s', if hex then 2 else 0, |a|, hex);
  }

  lemma {:induction false} NotJustZero(a: string, b: string, t: Token)
    requires a != "" && IsDigit(a[0]) && TokenAt(a + b) == Found(t, |a|)
    ensures var s := a + b; if |s| >= 2 && s[0] == '0' && s[1] == 'x' then |a| > 2 else |a| >= 2 ==> a[1] != 'x'
  {
    hide TextAt, WordEnd;
    var s := a + b;
    assert forall k :: 0 <= k < |a| ==> s[k] == a[k];
  }

  lemma {:induction false} EscapeStays(s: string, s': string, i: nat)
    requires EscapeAt(s, i).Escaped? && EscapeAt(s, i).next <= |s'|
    requires s[..EscapeAt(s, i).next] == s'[..EscapeAt(s, i).next]
    ensures EscapeAt(s', i) == EscapeAt(s, i)
  {
    hide Chars, EncodeCodePoint;
    var n := EscapeAt(s, i).next;
    assert forall k :: 0 <= k < n ==> s[k] == s[..n][k] == s'[..n][k] == s'[k];
  }

  lemma {:induction false} TextStays(s: string, s': string, i: nat, quote: char)
    requires quote == '"' || quote == '\''
    requires TextAt(s, i, quote).Scanned? && TextAt(s, i, quote).next <= |s'|
    requires s[..TextAt(s, i, quote).next] == s'[..TextAt(s, i, quote).next]
    ensures TextAt(s', i, quote) == TextAt(s, i, quote)
    decreases |s| - i
  {
    hide EscapeAt;
    var n := TextAt(s, i, quote).next;
    assert forall k :: 0 <= k < n ==> s[k] == s[..n][k] == s'[..n][k] == s'[k];
    if s[i] != quote {
      QuoteBeforeEnd(s, i, quote);
      assert IsLineBreak(s', i) == IsLineBreak(s, i);
      if s[i] == '\\' {
        var e := EscapeAt(s, i + 1);
        assert s[..e.next] == s[..n][..e.next] && s'[..e.next] == s'[..n][..e.next];
        EscapeStays(s, s', i + 1);
        TextStays(s, s', e.next, quote);
      } else {
        TextStays(s, s', i + 1, quote);
      }
    }
  }

  /** A text literal ends right after its quote. */
  lemma {:induction false} QuoteBeforeEnd(s: string, i: nat, quote: char)
    requires TextAt(s, i, quote).Scanned?
    ensures s[TextAt(s, i, quote).next - 1] == quote
    decreases |s| - i
  {
    hide EscapeAt, IsLineBreak;
    if s[i] == quote {
    } else if s[i] == '\\' {
      QuoteBeforeEnd(s, EscapeAt(s, i + 1).next, quote);
    } else {
      QuoteBeforeEnd(s, i + 1, quote);
    }
  }

  lemma {:induction false} QuotedStays(a: string, b: string, b': string, t: Token)
    requires a != "" && (a[0] == '"' || a[0] == '\'') && TokenAt(a + b) == Found(t, |a|)
    ensures TokenAt(a + b') == Found(t, |a|)
  {
    hide TextAt, WordEnd, NumberAt;
    assert (a + b)[..|a|] == a && (a + b')[..|a|] == a;
    TextStays(a + b, a + b', 1, a[0]);
  }

  lemma {:induction false} TokenStays(a: string, b: string, b': string, t: Token)
    requires a != "" && !IsWhite(a[0]) && TokenAt(a + b) == Found(t, |a|) && StopsLike(a, b, b')
    ensures TokenAt(a + b') == Found(t, |a|)
  {
    hide TextAt, WordEnd, NumberAt;
    var c := a[0];
    assert (a + b)[0] == c && (a + b')[0] == c;
    if c == '"' || c == '\'' {
      QuotedStays(a, b, b', t);
    } else if IsIdentifierStart(c) {
      WordStays(a, b, b', t);
    } else if IsDigit(c) {
      NumberStays(a, b, b', t);
    } else if |a| == 1 {
      if b' != "" { assert (a + b')[1] == b'[0]; }
      if b != "" { assert (a + b)[1] == b[0]; }
    } else {
      assert (a + b)[1] == a[1] == (a + b')[1];
    }
  }

  // ----- concatenation -----

  lemma {:induction false} LexConcat(a: string, b: string)
    requires Lex(a).Some? && Lex(b).Some? && Apart(a, b)
    ensures Lex(a + b) == Some(Lex(a).value + Lex(b).value)
    decreases |a|
  {
    hide TokenAt, Apart;
    if a == "" {
      assert a + b == b && Lex(a).value + Lex(b).value == Lex(b).value;
    } else if IsWhite(a[0]) {
      assert (a + b)[1..] == a[1..] + b;
      LaterApart(a, b, 1);
      LexConcat(a[1..], b);
    } else {
      var f := TokenAt(a);
      var n := f.length;
      var rest := a[n..];
      assert a == a[..n] + rest && a + b == a[..n] + (rest + b);
      LaterApart(a, b, n);
      TokenStays(a[..n], rest, rest + b, f.token);
      assert (a + b)[n..] == rest + b;
      LexConcat(rest, b);
      assert [f.token] + (Lex(rest).value + Lex(b).value) == [f.token] + Lex(rest).value + Lex(b).value;
    }
  }

  lemma {:induction false} LaterApart(a: string, b: string, n: nat)
    requires Apart(a, b) && 0 < n <= |a|
    ensures Apart(a[n..], b) && StopsLike(a[..n], a[n..], a[n..] + b)
  {
    if n < |a| { assert (a[n..] + b)[0] == a[n]; } else { assert a[n..] == "" && a[n..] + b == b && a[..n] == a; }
  }

  // ----- newlines -----

  /** Every backslash is followed by something that is not a newline. */
  predicate Clean(s: string) { forall i :: 0 <= i < |s| && s[i] == '\\' ==> i + 1 < |s| && s[i + 1] != '\n' }

  lemma {:induction false} CleanConcat(a: string, b: string)
    requires Clean(a) && Clean(b)
    ensures Clean(a + b)
  {
    var s := a + b;
    forall i | 0 <= i < |s| && s[i] == '\\' ensures i + 1 < |s| && s[i + 1] != '\n' {
      if i < |a| { assert a[i] == '\\'; assert s[i + 1] == a[i + 1]; } else { assert b[i - |a|] == '\\'; assert s[i + 1] == b[i - |a| + 1]; }
    }
  }

  lemma {:induction false} CleanTail(s: string, n: nat)
    requires Clean(s) && n <= |s|
    ensures Clean(s[n..])
  {
  }

  function Indent(s: string): (r: string)
    ensures r == "" <==> s == ""
    ensures s != "" ==> r[0] == s[0]
    decreases |s|
  {
    if s == "" then "" else (if s[0] == '\n' then "\n    " else [s[0]]) + Indent(s[1..])
  }

  lemma {:induction false} IndentOneLine(a: string, b: string)
    requires '\n' !in a
    ensures Indent(a + b) == a + Indent(b)
    decreases |a|
  {
    if a == "" {
      assert a + b == b;
    } else {
      assert (a + b)[1..] == a[1..] + b;
      IndentOneLine(a[1..], b);
      assert a == [a[0]] + a[1..];
    }
  }

  lemma {:induction false} IndentClean(s: string)
    requires Clean(s)
    ensures Clean(Indent(s))
    decreases |s|
  {
    if s != "" {
      CleanTail(s, 1);
      IndentClean(s[1..]);
      var r, rest := Indent(s), Indent(s[1..]);
      if s[0] == '\\' {
        assert s[1] != '\n' && rest[0] == s[1];
        forall i | 0 <= i < |r| && r[i] == '\\' ensures i + 1 < |r| && r[i + 1] != '\n' {
          if i > 0 { assert rest[i - 1] == '\\'; }
        }
      } else {
        CleanConcat(if s[0] == '\n' then "\n    " else [s[0]], rest);
      }
    }
  }

  lemma {:induction false} TextHasNoNewline(s: string, i: nat, quote: char)
    requires TextAt(s, i, quote).Scanned? && Clean(s) && (quote == '"' || quote == '\'')
    ensures '\n' !in s[i..TextAt(s, i, quote).next]
    decreases |s| - i
  {
    hide EscapeAt;
    var n := TextAt(s, i, quote).next;
    if s[i] == quote {
    } else if s[i] == '\\' {
      var e := EscapeAt(s, i + 1);
      EscapeHasNoNewline(s, i + 1);
      TextHasNoNewline(s, e.next, quote);
      assert s[i..n] == [s[i]] + s[i + 1..e.next] + s[e.next..n];
    } else {
      TextHasNoNewline(s, i + 1, quote);
      assert s[i..n] == [s[i]] + s[i + 1..n];
    }
  }

  lemma {:induction false} EscapeHasNoNewline(s: string, i: nat)
    requires EscapeAt(s, i).Escaped? && s[i] != '\n'
    ensures '\n' !in s[i..EscapeAt(s, i).next]
  {
    hide Chars, EncodeCodePoint;
  }

  lemma {:induction false} TokenHasNoNewline(s: string)
    requires s != "" && !IsWhite(s[0]) && Clean(s) && TokenAt(s).Found?
    ensures '\n' !in s[..TokenAt(s).length]
  {
    hide TextAt;
    var n := TokenAt(s).length;
    if s[0] == '"' || s[0] == '\'' {
      TextHasNoNewline(s, 1, s[0]);
      assert s[..n] == [s[0]] + s[1..n];
    }
  }

  /** Indenting the lines of a text does not change its tokens: no newline is ever inside one. */
  lemma {:induction false} LexIndent(s: string)
    requires Lex(s).Some? && Clean(s)
    ensures Lex(Indent(s)) == Lex(s)
    decreases |s|
  {
    hide TokenAt, Clean;
    if s == "" {
    } else if IsWhite(s[0]) {
      CleanTail(s, 1);
      LexIndent(s[1..]);
      SkipWhite(if s[0] == '\n' then "\n    " else [s[0]], Indent(s[1..]));
    } else {
      var f := TokenAt(s);
      var n := f.length;
      var a, rest := s[..n], s[n..];
      assert s == a + rest;
      TokenHasNoNewline(s);
      IndentOneLine(a, rest);
      TokenStays(a, rest, Indent(rest), f.token);
      CleanTail(s, n);
      LexIndent(rest);
      assert (a + Indent(rest))[n..] == Indent(rest);
    }
  }

  lemma {:induction false} SkipWhite(w: string, s: string)
    requires forall i :: 0 <= i < |w| ==> IsWhite(w[i])
    ensures Lex(w + s) == Lex(s)
    decreases |w|
  {
    hide TokenAt;
    if w == "" {
      assert w + s == s;
    } else {
      assert (w + s)[1..] == w[1..] + s;
      SkipWhite(w[1..], s);
    }
  }
}
