/** The lexical part of the statements the operator prints: quoting, and the reading of quoted text, words, numbers
    and marks by sections 5.2 and 5.3 of ISO/IEC 9075-2. */
module SqlText {
  import opened Machines
  import opened Strings

  datatype Token =
    | Word(text: string)
    | Delimited(text: string)
    | Literal(text: string)
    | Number(value: nat)
    | Mark(mark: char)

  predicate Letter(c: char)
  {
    'A' <= c <= 'Z' || 'a' <= c <= 'z' || c == '_'
  }

  predicate WordChar(c: char)
  {
    Letter(c) || IsDigit(c)
  }

  predicate IsWord(s: string)
  {
    s != "" && Letter(s[0]) && forall c | c in s :: WordChar(c)
  }

  predicate HasNul(s: string)
  {
    '\0' in s
  }

  /** Every quote doubled. */
  function Doubled(s: string, quote: char): string
  {
    if s == "" then "" else (if s[0] == quote then [quote, quote] else [s[0]]) + Doubled(s[1..], quote)
  }

  function Quoted(s: string, quote: char): string
  {
    [quote] + Doubled(s, quote) + [quote]
  }

  /** A delimited identifier, for names without NUL. */
  function Identifier(name: string): string
  {
    Quoted(name, '"')
  }

  /** A character string literal, or nothing when the wire protocol cannot carry it. */
  function LiteralOf(value: string): Option<string>
  {
    if HasNul(value) then None else Some(Quoted(value, '\''))
  }

  /** A literal cannot be had exactly for a text with a NUL. */
  lemma LiteralExactlyWithoutNul(value: string)
    ensures LiteralOf(value).None? <==> exists i :: 0 <= i < |value| && value[i] as int == 0
  {
  }

  /** What stands before the closing quote, and what follows it. */
  function Unquoted(s: string, quote: char): (r: Option<(string, string)>)
    ensures r.Some? ==> |r.value.1| < |s|
    decreases |s|
  {
    if s == "" then None
    else if s[0] == quote && (|s| == 1 || s[1] != quote) then Some(("", s[1..]))
    else
      match Unquoted(if s[0] == quote then s[2..] else s[1..], quote)
      case None => None
      case Some((text, rest)) => Some(([s[0]] + text, rest))
  }

  /** How many characters at the front satisfy `p`. */
  function Span(s: string, p: char -> bool): (n: nat)
    ensures n <= |s| && (s != "" && p(s[0]) ==> n > 0)
  {
    if s != "" && p(s[0]) then 1 + Span(s[1..], p) else 0
  }

  function Lex(s: string): Option<seq<Token>>
    decreases |s|
  {
    if s == "" then Some([])
    else if s[0] == ' ' then Lex(s[1..])
    else if Letter(s[0]) then Before([Word(s[..Span(s, WordChar)])], Lex(s[Span(s, WordChar)..]))
    else if IsDigit(s[0]) then Before([Number(DecimalValue(s[..Span(s, IsDigit)]))], Lex(s[Span(s, IsDigit)..]))
    else if s[0] == '"' || s[0] == '\'' then
      match Unquoted(s[1..], s[0])
      case None => None
      case Some((text, rest)) => Before([if s[0] == '"' then Delimited(text) else Literal(text)], Lex(rest))
    else if s[0] in "(),-" then Before([Mark(s[0])], Lex(s[1..]))
    else None
  }

  function Before(tokens: seq<Token>, rest: Option<seq<Token>>): Option<seq<Token>>
  {
    if rest.None? then None else Some(tokens + rest.value)
  }

  /** Where a token before cannot run on. */
  predicate Closed(rest: string)
  {
    rest == "" || rest[0] in " ,)"
  }

  /** `s` is read as `tokens` wherever it stands. */
  ghost predicate Lexes(s: string, tokens: seq<Token>)
  {
    forall rest {:trigger s + rest} | Closed(rest) :: Lex(s + rest) == Before(tokens, Lex(rest))
  }

  lemma LexesWhole(s: string, tokens: seq<Token>)
    requires Lexes(s, tokens)
    ensures Lex(s) == Some(tokens)
  {
    assert s + "" == s && Closed("");
    assert tokens + [] == tokens;
  }

  lemma LexMark(mark: char, rest: string)
    requires mark in "(),-"
    ensures Lex([mark] + rest) == Before([Mark(mark)], Lex(rest))
  {
    assert ([mark] + rest)[1..] == rest;
  }

  lemma LexSpace(rest: string)
    ensures Lex(" " + rest) == Lex(rest)
  {
    assert (" " + rest)[1..] == rest;
  }

  lemma BeforeTwice(first: seq<Token>, second: seq<Token>, rest: Option<seq<Token>>)
    ensures Before(first, Before(second, rest)) == Before(first + second, rest)
  {
    assert rest.Some? ==> first + (second + rest.value) == first + second + rest.value;
  }

  lemma {:induction false} SpanOf(s: string, rest: string, p: char -> bool)
    requires (forall c | c in s :: p(c)) && (rest == "" || !p(rest[0]))
    ensures Span(s + rest, p) == |s|
  {
    if s == "" {
      assert s + rest == rest;
    } else {
      assert (s + rest)[1..] == s[1..] + rest;
      SpanOf(s[1..], rest, p);
    }
  }

  lemma LexesWord(word: string)
    requires IsWord(word)
    ensures Lexes(word, [Word(word)])
  {
    forall rest | Closed(rest) ensures Lex(word + rest) == Before([Word(word)], Lex(rest)) {
      SpanOf(word, rest, WordChar);
      assert (word + rest)[..|word|] == word && (word + rest)[|word|..] == rest;
    }
  }

  lemma {:induction false} UnquotedOf(s: string, quote: char, rest: string)
    requires rest == "" || rest[0] != quote
    ensures Unquoted(Doubled(s, quote) + [quote] + rest, quote) == Some((s, rest))
  {
    var all := Doubled(s, quote) + [quote] + rest;
    if s == "" {
      assert all == [quote] + rest;
    } else {
      UnquotedOf(s[1..], quote, rest);
      var next := if s[0] == quote then 2 else 1;
      assert all[next..] == Doubled(s[1..], quote) + [quote] + rest;
      assert all[0] == s[0] && (s[0] == quote ==> all[1] == quote);
      assert s == [s[0]] + s[1..];
    }
  }

  lemma LexesQuoted(text: string, quote: char)
    requires quote == '"' || quote == '\''
    ensures Lexes(Quoted(text, quote), [if quote == '"' then Delimited(text) else Literal(text)])
  {
    forall rest | Closed(rest)
      ensures Lex(Quoted(text, quote) + rest)
              == Before([if quote == '"' then Delimited(text) else Literal(text)], Lex(rest))
    {
      LexQuoted(text, quote, rest);
    }
  }

  lemma LexQuoted(text: string, quote: char, rest: string)
    requires (quote == '"' || quote == '\'') && Closed(rest)
    ensures Lex(Quoted(text, quote) + rest)
            == Before([if quote == '"' then Delimited(text) else Literal(text)], Lex(rest))
  {
    UnquotedOf(text, quote, rest);
    var s := Quoted(text, quote) + rest;
    assert s[0] == quote && s[1..] == Doubled(text, quote) + [quote] + rest;
  }

  function IntegerTokens(i: int): seq<Token>
  {
    if i < 0 then [Mark('-'), Number(-i)] else [Number(i)]
  }

  lemma LexesDecimal(n: nat)
    ensures Lexes(Decimal(n), [Number(n)])
  {
    DecimalReads(n);
    forall rest | Closed(rest) ensures Lex(Decimal(n) + rest) == Before([Number(n)], Lex(rest)) {
      SpanOf(Decimal(n), rest, IsDigit);
      assert (Decimal(n) + rest)[..|Decimal(n)|] == Decimal(n) && (Decimal(n) + rest)[|Decimal(n)|..] == rest;
    }
  }

  lemma LexesInteger(i: int)
    ensures Lexes(Integer(i), IntegerTokens(i))
  {
    LexesDecimal(if i < 0 then -i else i);
    if i < 0 {
      LexesMarked('-', Decimal(-i), [Number(-i)]);
      assert Integer(i) == ['-'] + Decimal(-i) && IntegerTokens(i) == [Mark('-')] + [Number(-i)];
    }
  }

  lemma LexesMarked(mark: char, s: string, tokens: seq<Token>)
    requires mark in "(),-" && Lexes(s, tokens)
    ensures Lexes([mark] + s, [Mark(mark)] + tokens)
  {
    forall rest | Closed(rest) ensures Lex([mark] + s + rest) == Before([Mark(mark)] + tokens, Lex(rest)) {
      assert [mark] + s + rest == [mark] + (s + rest);
      LexMark(mark, s + rest);
      BeforeTwice([Mark(mark)], tokens, Lex(rest));
    }
  }

  lemma LexesThenMark(s: string, tokens: seq<Token>, mark: char)
    requires mark in ",)" && Lexes(s, tokens)
    ensures Lexes(s + [mark], tokens + [Mark(mark)])
  {
    forall rest | Closed(rest) ensures Lex(s + [mark] + rest) == Before(tokens + [Mark(mark)], Lex(rest)) {
      assert s + [mark] + rest == s + ([mark] + rest);
      LexMark(mark, rest);
      BeforeTwice(tokens, [Mark(mark)], Lex(rest));
    }
  }

  lemma LexSpaced(a: string, rest: string, first: seq<Token>)
    requires Lexes(a, first)
    ensures Lex(a + " " + rest) == Before(first, Lex(rest))
  {
    assert a + " " + rest == a + (" " + rest);
    LexSpace(rest);
  }

  lemma LexesSpaced(a: string, first: seq<Token>, b: string, second: seq<Token>)
    requires Lexes(a, first) && Lexes(b, second)
    ensures Lexes(a + " " + b, first + second)
  {
    forall rest | Closed(rest) ensures Lex(a + " " + b + rest) == Before(first + second, Lex(rest)) {
      LexSpaced(a, b + rest, first);
      assert a + " " + b + rest == a + " " + (b + rest);
      BeforeTwice(first, second, Lex(rest));
    }
  }

  /** The same with text and tokens written out. */
  lemma LexesBoth(a: string, first: seq<Token>, b: string, second: seq<Token>, text: string, tokens: seq<Token>)
    requires Lexes(a, first) && Lexes(b, second) && text == a + " " + b && tokens == first + second
    ensures Lexes(text, tokens)
  {
    LexesSpaced(a, first, b, second);
  }

  lemma LexesTwoWords(a: string, b: string, text: string)
    requires IsWord(a) && IsWord(b) && text == a + " " + b
    ensures Lexes(text, [Word(a), Word(b)])
  {
    LexesWord(a);
    LexesWord(b);
    LexesBoth(a, [Word(a)], b, [Word(b)], text, [Word(a), Word(b)]);
  }

  lemma LexesListed(a: string, first: seq<Token>, b: string, second: seq<Token>)
    requires Lexes(a, first) && Lexes(b, second)
    ensures Lexes(a + ", " + b, first + [Mark(',')] + second)
  {
    LexesThenMark(a, first, ',');
    LexesSpaced(a + ",", first + [Mark(',')], b, second);
    assert a + ", " + b == a + "," + " " + b;
  }
}
