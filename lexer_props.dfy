/** Properties of one step of the lexer (`Scan`) and of the whole token
    stream (`Items`): what each token covers, the accepted shapes of the
    literals, longest match for operators, case-insensitive keywords, and
    that the end of input is stable. */
module LexerProperties {
  import opened VhdlText
  import opened VhdlLexer

  // ------------------------------------------------------------ offsets

  /** The byte offset of a later character is the offset of an earlier one
      plus the bytes in between. */
  lemma OffsetSplit(s: seq<char>, a: nat, b: nat)
    requires a <= b <= |s|
    ensures Offset(s, b) == Offset(s, a) + ByteLen(s[a..b])
  {
    assert s[..b] == s[..a] + s[a..b];
    ByteLenAppend(s[..a], s[a..b]);
  }

  /** Byte offsets grow with the index: a span built from two offsets is
      never reversed. */
  lemma OffsetMonotone(s: seq<char>, a: nat, b: nat)
    requires a <= b <= |s|
    ensures Offset(s, a) <= Offset(s, b)
    ensures a < b ==> Offset(s, a) < Offset(s, b)
  {
    OffsetSplit(s, a, b);
    ByteLenAtLeastLength(s[a..b]);
  }

  // ------------------------------------------------------- what is consumed

  /** Index of the first character after the whitespace `next_token` skips. */
  function TokenStart(s: seq<char>, i: nat): (j: nat)
    requires i <= |s|
    ensures i <= j <= |s|
    ensures forall k :: i <= k < j ==> IsWhitespace(s[k])
    ensures j < |s| ==> !IsWhitespace(s[j])
  {
    ScanWhile(s, i, WhitespaceChars)
  }

  /** Every result other than Eof, token or error, spans exactly the bytes
      of the characters it consumed: from the first character after the
      skipped whitespace to the first character it left. */
  lemma ScanSpanIsConsumed(s: seq<char>, i: nat)
    requires i <= |s| && !IsEof(Scan(s, i).result)
    ensures SpanOf(Scan(s, i).result) == Span(Offset(s, TokenStart(s, i)), Offset(s, Scan(s, i).next))
  {
  }

  /** The text of every token other than a comment is exactly the characters
      it consumed, quotes included; a comment's text leaves out its first
      hyphen. */
  lemma ScanTextIsConsumed(s: seq<char>, i: nat)
    requires i <= |s| && Scan(s, i).result.Ok? && !IsEof(Scan(s, i).result)
    ensures Scan(s, i).result.value.kind != Comment ==>
      Scan(s, i).result.value.text == s[TokenStart(s, i)..Scan(s, i).next]
    ensures Scan(s, i).result.value.kind == Comment ==>
      TokenStart(s, i) < Scan(s, i).next &&
      Scan(s, i).result.value.text == s[TokenStart(s, i) + 1..Scan(s, i).next]
  {
    DispatchText(s, TokenStart(s, i));
  }

  /** Span and text agree: for every token other than a comment, the span is
      as long as the UTF-8 encoding of its text. */
  lemma ScanSpanLengthIsTextBytes(s: seq<char>, i: nat)
    requires i <= |s| && Scan(s, i).result.Ok? && !IsEof(Scan(s, i).result)
    requires Scan(s, i).result.value.kind != Comment
    ensures Scan(s, i).result.value.span.start <= Scan(s, i).result.value.span.end
    ensures Scan(s, i).result.value.span.Len() == ByteLen(Scan(s, i).result.value.text)
  {
    ScanSpanIsConsumed(s, i);
    ScanTextIsConsumed(s, i);
    OffsetSplit(s, TokenStart(s, i), Scan(s, i).next);
  }

  // ------------------------------------------------------------ end of input

  /** Once only whitespace is left, `next_token` returns Eof with an empty
      span at the end of the input and leaves the cursor there, so calling it
      again returns the same Eof token. */
  lemma {:induction false} EofIsStable(s: seq<char>, i: nat)
    requires i <= |s| && IsEof(Scan(s, i).result)
    ensures Scan(s, i).result.value.span.IsEmpty()
    ensures Scan(s, Scan(s, i).next) == Scan(s, i)
  {
    assert Scan(s, i).next == |s|;
    assert ScanWhile(s, |s|, WhitespaceChars) == |s|;
  }

  /** The iterator ends exactly when only whitespace is left. */
  lemma ItemsEmptyIffOnlyWhitespace(s: seq<char>, i: nat)
    requires i <= |s|
    ensures Items(s, i) == [] <==> forall k :: i <= k < |s| ==> IsWhitespace(s[k])
  {
    var j := TokenStart(s, i);
    if j < |s| {
      assert !IsWhitespace(s[j]);
    }
  }

  /** The iterator yields at most one item per character of input, since
      every item consumes at least one character. */
  lemma {:induction false} ItemsAtMostOnePerCharacter(s: seq<char>, i: nat)
    requires i <= |s|
    ensures |Items(s, i)| <= |s| - i
    decreases |s| - i
  {
    ItemsStep(s, i);
    if !IsEof(Scan(s, i).result) {
      ItemsAtMostOnePerCharacter(s, Scan(s, i).next);
    }
  }

  // ------------------------------------------------------------------ symbols

  /** After whitespace, a character that starts no other token is read as
      a symbol. */
  lemma ScanFindsSymbol(s: seq<char>, i: nat)
    requires i <= |s| && TokenStart(s, i) < |s|
    requires var ch := s[TokenStart(s, i)];
      !(IsAlphabetic(ch) || ch == '_' || IsAsciiDigit(ch) || ch == '"' || ch == '\'') &&
      !(ch == '-' && PeekAt(s, TokenStart(s, i)) == Some('-'))
    ensures Scan(s, i) == SymbolAt(s, TokenStart(s, i), Offset(s, TokenStart(s, i)))
  {
  }

  /** `try_symbol` as `next_token` uses it at `j`. */
  lemma SymbolAtShape(s: seq<char>, j: nat, start: nat)
    requires j < |s|
    ensures j + 1 < |s| && IsTwoCharOperator(s[j], s[j + 1]) ==>
        SymbolAt(s, j, start).next == j + 2 && SymbolAt(s, j, start).result.Ok? && SymbolAt(s, j, start).result.value.text == s[j..j + 2]
    ensures IsSymbolChar(s[j]) && !(j + 1 < |s| && IsTwoCharOperator(s[j], s[j + 1])) ==>
        SymbolAt(s, j, start).next == j + 1 && SymbolAt(s, j, start).result.Ok? && SymbolAt(s, j, start).result.value.text == [s[j]]
    ensures !IsSymbolChar(s[j]) ==>
        SymbolAt(s, j, start) == LexStep(Err(LexError(UnexpectedCharacter(s[j]), Span(start, Offset(s, j + 1)))), j + 1)
  {
    TrySymbolMeaning(s[j], PeekAt(s, j));
  }

  /** Longest match: a two-character operator at the token start is taken as
      one token of two characters; any other symbol character is a token of
      its own; a character no rule accepts is an "unexpected character"
      error that consumes exactly that character. */
  lemma ScanSymbol(s: seq<char>, i: nat)
    requires i <= |s|
    requires TokenStart(s, i) < |s|
    requires var ch := s[TokenStart(s, i)];
      !(IsAlphabetic(ch) || ch == '_' || IsAsciiDigit(ch) || ch == '"' || ch == '\'') &&
      !(ch == '-' && PeekAt(s, TokenStart(s, i)) == Some('-'))
    ensures var j := TokenStart(s, i);
      j + 1 < |s| && IsTwoCharOperator(s[j], s[j + 1]) ==>
        Scan(s, i).next == j + 2 && Scan(s, i).result.Ok? && Scan(s, i).result.value.text == s[j..j + 2]
    ensures var j := TokenStart(s, i);
      IsSymbolChar(s[j]) && !(j + 1 < |s| && IsTwoCharOperator(s[j], s[j + 1])) ==>
        Scan(s, i).next == j + 1 && Scan(s, i).result.Ok? && Scan(s, i).result.value.text == [s[j]]
    ensures var j := TokenStart(s, i);
      !IsSymbolChar(s[j]) ==>
        Scan(s, i).next == j + 1 &&
        Scan(s, i).result == Err(LexError(UnexpectedCharacter(s[j]), Span(Offset(s, j), Offset(s, j + 1))))
  {
    ScanFindsSymbol(s, i);
    SymbolAtShape(s, TokenStart(s, i), Offset(s, TokenStart(s, i)));
  }


  /** The kinds of the two-character operators, and of a lone first
      character of each of them. */
  lemma TrySymbolOperators()
    ensures TrySymbol(':', Some('=')) == Some((Assignment, 2))
    ensures TrySymbol('=', Some('>')) == Some((Association, 2))
    ensures TrySymbol('/', Some('=')) == Some((Neq, 2))
    ensures TrySymbol('<', Some('=')) == Some((Lte, 2))
    ensures TrySymbol('>', Some('=')) == Some((Gte, 2))
    ensures TrySymbol('*', Some('*')) == Some((Power, 2))
    ensures TrySymbol(':', None) == Some((Colon, 1))
    ensures TrySymbol('=', None) == Some((Eq, 1))
    ensures TrySymbol('<', None) == Some((Lt, 1))
    ensures TrySymbol('>', None) == Some((Gt, 1))
    ensures TrySymbol('*', None) == Some((Star, 1))
    ensures TrySymbol('/', None) == Some((Slash, 1))
  {
  }

  // ----------------------------------------------------------------- keywords

  /** Classification reads only the lower-cased text: texts that agree after
      lower-casing get the same kind, and so does the lower-cased text itself. */
  lemma KeywordCaseInsensitive(a: string, b: string)
    requires Lower(a) == Lower(b)
    ensures KeywordOrIdentifier(a) == KeywordOrIdentifier(b)
    ensures KeywordOrIdentifier(a) == KeywordOrIdentifier(Lower(a))
  {
    LowerIdempotent(a);
  }

  /** After whitespace, a letter or `_` starts an identifier. */
  lemma ScanFindsIdentifier(s: seq<char>, i: nat)
    requires i <= |s| && TokenStart(s, i) < |s|
    requires IsAlphabetic(s[TokenStart(s, i)]) || s[TokenStart(s, i)] == '_'
    ensures Scan(s, i) == IdentifierAt(s, TokenStart(s, i), Offset(s, TokenStart(s, i)))
  {
  }

  /** `lex_identifier` from a letter or `_` at `j`. */
  lemma IdentifierAtShape(s: seq<char>, j: nat, start: nat)
    requires j < |s| && (IsAlphabetic(s[j]) || s[j] == '_')
    ensures var k := IdentifierAt(s, j, start).next;
      && j < k
      && IdentifierAt(s, j, start).result == Ok(Token(KeywordOrIdentifier(s[j..k]), Span(start, Offset(s, k)), s[j..k]))
      && (forall m :: j <= m < k ==> IsAlphanumeric(s[m]) || s[m] == '_')
      && (k < |s| ==> !(IsAlphanumeric(s[k]) || s[k] == '_'))
  {
  }

  /** An identifier token keeps the text as written, in its original case,
      and its kind is the keyword classification of that text. */
  lemma ScanIdentifier(s: seq<char>, i: nat)
    requires i <= |s| && TokenStart(s, i) < |s|
    requires IsAlphabetic(s[TokenStart(s, i)]) || s[TokenStart(s, i)] == '_'
    ensures var j := TokenStart(s, i); var k := Scan(s, i).next;
      && j < k
      && Scan(s, i).result == Ok(Token(KeywordOrIdentifier(s[j..k]), Span(Offset(s, j), Offset(s, k)), s[j..k]))
      && (forall m :: j <= m < k ==> IsAlphanumeric(s[m]) || s[m] == '_')
      && (k < |s| ==> !(IsAlphanumeric(s[k]) || s[k] == '_'))
  {
    ScanFindsIdentifier(s, i);
    IdentifierAtShape(s, TokenStart(s, i), Offset(s, TokenStart(s, i)));
  }


  // ----------------------------------------------------------------- literals

  /** After whitespace, an ASCII digit starts a number. */
  lemma ScanFindsNumber(s: seq<char>, i: nat)
    requires i <= |s| && TokenStart(s, i) < |s| && IsAsciiDigit(s[TokenStart(s, i)])
    ensures Scan(s, i) == NumberAt(s, TokenStart(s, i), Offset(s, TokenStart(s, i)))
  {
  }

  /** `lex_number` from a digit at `j`. */
  lemma NumberAtShape(s: seq<char>, j: nat, start: nat)
    requires j < |s| && IsAsciiDigit(s[j])
    ensures var k := NumberAt(s, j, start).next;
      && NumberAt(s, j, start).result == Ok(Token(Number, Span(start, Offset(s, k)), s[j..k]))
      && (forall m :: j <= m < k ==> IsAsciiDigit(s[m]) || s[m] in {'.', '_', 'e'})
      && (k < |s| ==> !(IsAsciiDigit(s[k]) || s[k] in {'.', '_', 'e'}))
  {
    var k := ScanWhile(s, j, NumberChars);
    forall m | j <= m <= k && m < |s|
      ensures IsNumberChar(s[m]) <==> IsAsciiDigit(s[m]) || s[m] in {'.', '_', 'e'}
    {
    }
  }

  /** A number takes ASCII digits, `.`, `_` and lower-case `e` only, and stops
      at the first other character (an upper-case `E` among them). */
  lemma ScanNumber(s: seq<char>, i: nat)
    requires i <= |s| && TokenStart(s, i) < |s| && IsAsciiDigit(s[TokenStart(s, i)])
    ensures var j := TokenStart(s, i); var k := Scan(s, i).next;
      && Scan(s, i).result == Ok(Token(Number, Span(Offset(s, j), Offset(s, k)), s[j..k]))
      && (forall m :: j <= m < k ==> IsAsciiDigit(s[m]) || s[m] in {'.', '_', 'e'})
      && (k < |s| ==> !(IsAsciiDigit(s[k]) || s[k] in {'.', '_', 'e'}))
  {
    ScanFindsNumber(s, i);
    NumberAtShape(s, TokenStart(s, i), Offset(s, TokenStart(s, i)));
  }


  /** After whitespace, two hyphens start a comment. */
  lemma ScanFindsComment(s: seq<char>, i: nat)
    requires i <= |s| && TokenStart(s, i) + 1 < |s|
    requires s[TokenStart(s, i)] == '-' && s[TokenStart(s, i) + 1] == '-'
    ensures Scan(s, i) == CommentAt(s, TokenStart(s, i), Offset(s, TokenStart(s, i)))
  {
  }

  /** `lex_comment` from the first of two hyphens at `j`. */
  lemma CommentAtShape(s: seq<char>, j: nat, start: nat)
    requires j + 1 < |s| && s[j] == '-' && s[j + 1] == '-'
    ensures var k := CommentAt(s, j, start).next;
      && j + 1 <= k
      && CommentAt(s, j, start).result == Ok(Token(Comment, Span(start, Offset(s, k)), s[j + 1..k]))
      && (forall m :: j + 1 <= m < k ==> s[m] != '\n')
      && (k < |s| ==> s[k] == '\n')
  {
  }

  /** A comment starts at the first of two hyphens, its text starts at the
      second and runs up to the end of the line; the newline is left for the
      next token. */
  lemma ScanComment(s: seq<char>, i: nat)
    requires i <= |s| && TokenStart(s, i) + 1 < |s|
    requires s[TokenStart(s, i)] == '-' && s[TokenStart(s, i) + 1] == '-'
    ensures var j := TokenStart(s, i); var k := Scan(s, i).next;
      && j + 1 <= k
      && Scan(s, i).result == Ok(Token(Comment, Span(Offset(s, j), Offset(s, k)), s[j + 1..k]))
      && (forall m :: j + 1 <= m < k ==> s[m] != '\n')
      && (k < |s| ==> s[k] == '\n')
  {
    ScanFindsComment(s, i);
    CommentAtShape(s, TokenStart(s, i), Offset(s, TokenStart(s, i)));
  }


  /** After whitespace, a single quote starts a character literal. */
  lemma ScanFindsCharacter(s: seq<char>, i: nat)
    requires i <= |s| && TokenStart(s, i) < |s| && s[TokenStart(s, i)] == '\''
    ensures Scan(s, i) == CharacterAt(s, TokenStart(s, i), Offset(s, TokenStart(s, i)))
  {
  }

  /** `lex_character` from the opening quote at `j`. */
  lemma CharacterAtShape(s: seq<char>, j: nat, start: nat)
    requires j < |s| && s[j] == '\''
    ensures j + 2 < |s| && s[j + 2] == '\'' ==>
        CharacterAt(s, j, start) == LexStep(Ok(Token(CharacterLiteral, Span(start, Offset(s, j + 3)), s[j..j + 3])), j + 3)
    ensures !(j + 2 < |s| && s[j + 2] == '\'') ==>
        var next := if j + 1 < |s| then j + 2 else j + 1;
        CharacterAt(s, j, start) == LexStep(Err(LexError("invalid character literal", Span(start, Offset(s, next)))), next)
  {
    if j + 2 < |s| && s[j + 2] == '\'' {
      assert s[j..j + 3] == ['\'', s[j + 1], '\''];
    }
  }

  /** A character literal is accepted only as quote, one character, quote,
      and its text is those three characters; anything else after a quote is
      an "invalid character literal" error, after which lexing resumes past
      the character following the quote, if there is one. */
  lemma ScanCharacterLiteral(s: seq<char>, i: nat)
    requires i <= |s| && TokenStart(s, i) < |s| && s[TokenStart(s, i)] == '\''
    ensures var j := TokenStart(s, i);
      j + 2 < |s| && s[j + 2] == '\'' ==>
        Scan(s, i) == LexStep(Ok(Token(CharacterLiteral, Span(Offset(s, j), Offset(s, j + 3)), s[j..j + 3])), j + 3)
    ensures var j := TokenStart(s, i);
      !(j + 2 < |s| && s[j + 2] == '\'') ==>
        var next := if j + 1 < |s| then j + 2 else j + 1;
        Scan(s, i) == LexStep(Err(LexError("invalid character literal", Span(Offset(s, j), Offset(s, next)))), next)
  {
    ScanFindsCharacter(s, i);
    CharacterAtShape(s, TokenStart(s, i), Offset(s, TokenStart(s, i)));
  }


  /** `lex_string_literal` from the opening quote at `j`, when it finds the
      closing quote. */
  lemma StringAtOk(s: seq<char>, j: nat)
    requires j < |s| && s[j] == '"'
    ensures var st := StringAt(s, j, Offset(s, j)); var k := st.next;
      st.result.Ok? ==>
        && j + 2 <= k
        && st.result == Ok(Token(StringLiteral, Span(Offset(s, j), Offset(s, k)), s[j..k]))
        && s[k - 1] == '"'
        && (forall m :: j < m < k - 1 ==> s[m] != '"')
  {
    var k := ScanWhile(s, j + 1, NotQuote);
    if k < |s| {
      StringAtClosed(s, j, Offset(s, j), k);
      assert s[j..k + 1] == [s[j]] + s[j + 1..k + 1] by {
        assert s[j..k + 1][0] == s[j];
        assert s[j..k + 1][1..] == s[j + 1..k + 1];
      }
    }
  }

  /** `lex_string_literal` from the opening quote at `j` fails exactly when
      no closing quote follows, and then runs to the end of the input. */
  lemma StringAtErr(s: seq<char>, j: nat)
    requires j < |s| && s[j] == '"'
    ensures StringAt(s, j, Offset(s, j)).result.Err? <==> forall m :: j < m < |s| ==> s[m] != '"'
    ensures StringAt(s, j, Offset(s, j)).result.Err? ==>
        StringAt(s, j, Offset(s, j)) == LexStep(Err(LexError("unclosed string literal", Span(Offset(s, j), Offset(s, |s|)))), |s|)
  {
    var k := ScanWhile(s, j + 1, NotQuote);
    if k == |s| {
      StringAtUnclosed(s, j, Offset(s, j));
    }
  }

  /** After whitespace, a double quote starts a string literal. */
  lemma ScanFindsString(s: seq<char>, i: nat)
    requires i <= |s| && TokenStart(s, i) < |s| && s[TokenStart(s, i)] == '"'
    ensures Scan(s, i) == StringAt(s, TokenStart(s, i), Offset(s, TokenStart(s, i)))
  {
  }

  /** What `lex_string_literal` promises when it starts at the quote at `j`:
      the literal runs to the first double quote after the opening one and
      its text includes both quotes; without a closing quote it is an
      "unclosed string literal" error whose span and consumption run to the
      end of the input. */
  ghost predicate StringLiteralOutcome(s: seq<char>, j: nat, st: LexStep)
    requires j < |s|
  {
    && (st.result.Ok? ==>
          && j + 2 <= st.next <= |s|
          && st.result == Ok(Token(StringLiteral, Span(Offset(s, j), Offset(s, st.next)), s[j..st.next]))
          && s[st.next - 1] == '"'
          && (forall m :: j < m < st.next - 1 ==> s[m] != '"'))
    && (st.result.Err? <==> forall m :: j < m < |s| ==> s[m] != '"')
    && (st.result.Err? ==>
          st == LexStep(Err(LexError("unclosed string literal", Span(Offset(s, j), Offset(s, |s|)))), |s|))
  }

  lemma StringAtOutcome(s: seq<char>, j: nat)
    requires j < |s| && s[j] == '"'
    ensures StringLiteralOutcome(s, j, StringAt(s, j, Offset(s, j)))
  {
    StringAtOk(s, j);
    StringAtErr(s, j);
  }

  /** A double quote after whitespace starts a string literal with the
      outcome above. */
  lemma ScanStringLiteral(s: seq<char>, i: nat)
    requires i <= |s| && TokenStart(s, i) < |s| && s[TokenStart(s, i)] == '"'
    ensures StringLiteralOutcome(s, TokenStart(s, i), Scan(s, i))
  {
    ScanFindsString(s, i);
    StringAtOutcome(s, TokenStart(s, i));
  }

  /** The text of a token read from `j` on, whichever routine reads it. */
  lemma DispatchText(s: seq<char>, j: nat)
    requires j < |s|
    ensures var st := Dispatch(s, j, Offset(s, j));
      st.result.Ok? && st.result.value.kind != Comment ==> st.result.value.text == s[j..st.next]
    ensures var st := Dispatch(s, j, Offset(s, j));
      st.result.Ok? && st.result.value.kind == Comment ==> j < st.next && st.result.value.text == s[j + 1..st.next]
  {
    var ch, start := s[j], Offset(s, j);
    if IsAlphabetic(ch) || ch == '_' {
      IdentifierAtShape(s, j, start);
      KeywordOrIdentifierMeaning(s[j..IdentifierAt(s, j, start).next]);
    } else if IsAsciiDigit(ch) {
      NumberAtShape(s, j, start);
    } else if ch == '"' {
      StringAtOk(s, j);
    } else if ch == '\'' {
      CharacterAtShape(s, j, start);
    } else if ch == '-' && PeekAt(s, j) == Some('-') {
      CommentAtShape(s, j, start);
    } else {
      SymbolAtShape(s, j, start);
    }
  }
}
