/** The VHDL lexer: a cursor over the characters of the source that tracks
    the UTF-8 byte offset of the current character and hands out one token
    (or one lexical error) per call.

    The pure function `Scan(s, i)` is the specification of one call of
    `next_token` made when `i` characters of `s` have been consumed; the
    `Lexer` class is the cursor itself, and every method of it is proved to
    leave the cursor where `Scan` says and to return what `Scan` says. */
module VhdlLexer {
  import opened VhdlText

  datatype TokenKind =
    // identifiers and literals
    | Identifier | Number | BitStringLiteral | CharacterLiteral | StringLiteral
    // keywords
    | Entity | Architecture | Port | Signal | Process | Begin | End | If | Then
    | Else | Elsif | Case | When | Is | Of | Others | Library | Use | In | Out
    | Inout | Buffer | Generic | Map | Component | To | Downto
    // types
    | StdLogic | StdLogicVector | Integer | Boolean
    // operators
    | Assignment | Association | Eq | Neq | Lt | Lte | Gt | Gte | Plus | Minus
    | Star | Slash | Power | Ampersand | And | Or | Not | Xor | Nand | Nor
    // delimiters
    | LeftParen | RightParen | Semicolon | Colon | Comma | Dot | Apostrophe
    // special tokens
    | Comment | Eof | Unknown

  /** Half-open range of byte offsets into the source. */
  datatype Span = Span(start: nat, end: nat) {
    function Len(): (n: nat)
      requires start <= end
      ensures start + n == end
    {
      end - start
    }

    predicate IsEmpty()
      requires start <= end
    {
      Len() == 0
    }
  }

  datatype Token = Token(kind: TokenKind, span: Span, text: string)

  datatype LexError = LexError(message: string, span: Span)

  type LexResult = Result<Token, LexError>

  // ------------------------------------------------------------ lookups

  /** The six two-character operators. */
  predicate IsTwoCharOperator(ch: char, next: char) {
    || (ch == ':' && next == '=')
    || (ch == '=' && next == '>')
    || (ch == '/' && next == '=')
    || (ch == '<' && next == '=')
    || (ch == '>' && next == '=')
    || (ch == '*' && next == '*')
  }

  /** The fourteen one-character symbols. */
  predicate IsSymbolChar(ch: char) {
    || ch == ':' || ch == '=' || ch == '<' || ch == '>' || ch == '+' || ch == '-' || ch == '*'
    || ch == '/' || ch == '&' || ch == '(' || ch == ')' || ch == ';' || ch == ',' || ch == '.'
  }

  /** The symbol starting with `ch` when `next` follows it, and how many
      characters it takes; two-character operators are tried first. */
  function TrySymbol(ch: char, next: Option<char>): Option<(TokenKind, nat)> {
    if next.Some? && (ch, next.value) == (':', '=') then Some((Assignment, 2))
    else if next.Some? && (ch, next.value) == ('=', '>') then Some((Association, 2))
    else if next.Some? && (ch, next.value) == ('/', '=') then Some((Neq, 2))
    else if next.Some? && (ch, next.value) == ('<', '=') then Some((Lte, 2))
    else if next.Some? && (ch, next.value) == ('>', '=') then Some((Gte, 2))
    else if next.Some? && (ch, next.value) == ('*', '*') then Some((Power, 2))
    else if ch == ':' then Some((Colon, 1))
    else if ch == '=' then Some((Eq, 1))
    else if ch == '<' then Some((Lt, 1))
    else if ch == '>' then Some((Gt, 1))
    else if ch == '+' then Some((Plus, 1))
    else if ch == '-' then Some((Minus, 1))
    else if ch == '*' then Some((Star, 1))
    else if ch == '/' then Some((Slash, 1))
    else if ch == '&' then Some((Ampersand, 1))
    else if ch == '(' then Some((LeftParen, 1))
    else if ch == ')' then Some((RightParen, 1))
    else if ch == ';' then Some((Semicolon, 1))
    else if ch == ',' then Some((Comma, 1))
    else if ch == '.' then Some((Dot, 1))
    else None
  }

  /** A symbol is recognised exactly for the fourteen symbol characters, and
      it takes two characters exactly when a two-character operator starts
      at `ch`, so the longest operator wins. */
  lemma TrySymbolMeaning(ch: char, next: Option<char>)
    ensures TrySymbol(ch, next).Some? <==> IsSymbolChar(ch)
    ensures TrySymbol(ch, next).Some? && TrySymbol(ch, next).value.1 == 2 <==> next.Some? && IsTwoCharOperator(ch, next.value)
    ensures TrySymbol(ch, next).Some? ==> TrySymbol(ch, next).value.1 == 1 || TrySymbol(ch, next).value.1 == 2
  {
  }

  /** The token kinds the keyword table can produce. */
  predicate IsKeywordKind(k: TokenKind) {
    !(k.Identifier? || k.Number? || k.BitStringLiteral? || k.CharacterLiteral? ||
      k.StringLiteral? || k.Comment? || k.Eof? || k.Unknown?)
  }

  type KeywordKind = k: TokenKind | IsKeywordKind(k) witness Entity

  // The keyword table (lower-case spelling and kind), in small parts.

  const DesignUnitKeywords: seq<(string, KeywordKind)> := [
    ("entity", Entity),
    ("architecture", Architecture),
    ("component", Component),
    ("port", Port)
  ]

  const StructureKeywords: seq<(string, KeywordKind)> := [
    ("generic", Generic),
    ("map", Map),
    ("signal", Signal),
    ("process", Process)
  ]

  const BlockKeywords: seq<(string, KeywordKind)> := [
    ("begin", Begin),
    ("end", End),
    ("if", If),
    ("then", Then)
  ]

  const BranchKeywords: seq<(string, KeywordKind)> := [
    ("else", Else),
    ("elsif", Elsif),
    ("case", Case),
    ("when", When)
  ]

  const ClauseKeywords: seq<(string, KeywordKind)> := [
    ("is", Is),
    ("of", Of),
    ("others", Others)
  ]

  const LibraryKeywords: seq<(string, KeywordKind)> := [
    ("library", Library),
    ("use", Use),
    ("to", To),
    ("downto", Downto)
  ]

  const DirectionKeywords: seq<(string, KeywordKind)> := [
    ("in", In),
    ("out", Out),
    ("inout", Inout),
    ("buffer", Buffer)
  ]

  const TypeKeywords: seq<(string, KeywordKind)> := [
    ("std_logic", StdLogic),
    ("std_logic_vector", StdLogicVector),
    ("integer", Integer),
    ("boolean", Boolean)
  ]

  const LogicKeywords: seq<(string, KeywordKind)> := [
    ("and", And),
    ("or", Or),
    ("not", Not)
  ]

  const OtherLogicKeywords: seq<(string, KeywordKind)> := [
    ("xor", Xor),
    ("nand", Nand),
    ("nor", Nor)
  ]

  const Keywords: seq<(string, KeywordKind)> :=
    DesignUnitKeywords + StructureKeywords + BlockKeywords + BranchKeywords + ClauseKeywords
    + LibraryKeywords + DirectionKeywords + TypeKeywords + LogicKeywords + OtherLogicKeywords

  /** The kind paired with `key` by the first entry of `table` that has it. */
  function Lookup(table: seq<(string, KeywordKind)>, key: string): Option<KeywordKind> {
    if table == [] then None
    else if table[0].0 == key then Some(table[0].1)
    else Lookup(table[1..], key)
  }

  /** Lookup finds an entry with the key exactly when the table has one. */
  lemma {:induction false} LookupMeaning(table: seq<(string, KeywordKind)>, key: string)
    ensures Lookup(table, key).Some? ==> (key, Lookup(table, key).value) in table
    ensures Lookup(table, key).None? ==> forall e :: e in table ==> e.0 != key
  {
    if table != [] && table[0].0 != key {
      LookupMeaning(table[1..], key);
      assert forall e :: e in table ==> e == table[0] || e in table[1..];
    }
  }

  /** `keyword_or_identifier`: the keyword whose spelling is the lower-cased
      `text`, or Identifier when the table has no such spelling. */
  function KeywordOrIdentifier(text: string): TokenKind {
    match Lookup(Keywords, Lower(text))
    case Some(kind) => kind
    case None => Identifier
  }

  /** An identifier is classified by its lower-cased spelling: a spelling the
      keyword table lists becomes that keyword, any other an Identifier. */
  lemma KeywordOrIdentifierMeaning(text: string)
    ensures (forall e :: e in Keywords ==> e.0 != Lower(text)) ==> KeywordOrIdentifier(text) == Identifier
    ensures (exists e :: e in Keywords && e.0 == Lower(text)) ==> (Lower(text), KeywordOrIdentifier(text)) in Keywords
    ensures KeywordOrIdentifier(text) != Identifier ==> IsKeywordKind(KeywordOrIdentifier(text)) && (Lower(text), KeywordOrIdentifier(text)) in Keywords
  {
    LookupMeaning(Keywords, Lower(text));
  }

  // --------------------------------------------------- character classes

  /** The character predicates `consume_while` and the loops of the lexer
      run with. */
  datatype CharClass = WhitespaceChars | IdentifierChars | NumberChars | NotNewline | NotQuote

  predicate InClass(cls: CharClass, c: char) {
    match cls
    case WhitespaceChars => IsWhitespace(c)
    case IdentifierChars => IsIdentifierChar(c)
    case NumberChars => IsNumberChar(c)
    case NotNewline => c != '\n'
    case NotQuote => c != '"'
  }

  predicate IsIdentifierChar(c: char) { IsAlphanumeric(c) || c == '_' }

  /** The characters a number consumes: the source tests "is ASCII lower-case
      and one of e, E", so only a lower-case `e` is accepted. */
  predicate IsNumberChar(c: char) {
    IsAsciiDigit(c) || c == '.' || c == '_' || (IsAsciiLower(c) && (c == 'e' || c == 'E'))
  }


  // ------------------------------------------------------- specification

  /** Byte offset of the character at index `i`. */
  function Offset(s: seq<char>, i: nat): nat
    requires i <= |s|
  {
    ByteLen(s[..i])
  }

  /** Index of the first character at or after `i` that `p` rejects. */
  function ScanWhile(s: seq<char>, i: nat, cls: CharClass): (j: nat)
    requires i <= |s|
    ensures i <= j <= |s|
    ensures forall k :: i <= k < j ==> InClass(cls, s[k])
    ensures j < |s| ==> !InClass(cls, s[j])
    decreases |s| - i
  {
    if i < |s| && InClass(cls, s[i]) then ScanWhile(s, i + 1, cls) else i
  }

  /** Index after `i` once `advance` has run: one character on, unless at the end. */
  function Next(s: seq<char>, i: nat): nat
    requires i <= |s|
  {
    if i < |s| then i + 1 else i
  }

  function PeekAt(s: seq<char>, i: nat): Option<char> {
    if i + 1 < |s| then Some(s[i + 1]) else None
  }

  /** One step of the lexer: what it returns and how many characters it has
      consumed afterwards. */
  datatype LexStep = LexStep(result: LexResult, next: nat)

  /** The span a lexer result carries, token or error. */
  function SpanOf(r: LexResult): Span {
    match r
    case Ok(t) => t.span
    case Err(e) => e.span
  }

  function IdentifierAt(s: seq<char>, j: nat, start: nat): (st: LexStep)
    requires j <= |s|
    ensures !IsEof(st.result)
  {
    var k := ScanWhile(s, j, IdentifierChars);
    LexStep(Ok(Token(KeywordOrIdentifier(s[j..k]), Span(start, Offset(s, k)), s[j..k])), k)
  }

  function NumberAt(s: seq<char>, j: nat, start: nat): LexStep
    requires j <= |s|
  {
    var k := ScanWhile(s, j, NumberChars);
    LexStep(Ok(Token(Number, Span(start, Offset(s, k)), s[j..k])), k)
  }

  /** Steps from the first hyphen to the second, then takes everything up to
      the newline: the text begins with the second hyphen. */
  function CommentAt(s: seq<char>, j: nat, start: nat): LexStep
    requires j <= |s|
  {
    var j1 := Next(s, j);
    var k := ScanWhile(s, j1, NotNewline);
    LexStep(Ok(Token(Comment, Span(start, Offset(s, k)), s[j1..k])), k)
  }

  function CharacterAt(s: seq<char>, j: nat, start: nat): LexStep
    requires j <= |s|
  {
    var j1 := Next(s, j);
    if j1 < |s| then
      if j1 + 1 < |s| && s[j1 + 1] == '\'' then
        LexStep(Ok(Token(CharacterLiteral, Span(start, Offset(s, j1 + 2)), ['\'', s[j1], '\''])), j1 + 2)
      else
        LexStep(Err(LexError("invalid character literal", Span(start, Offset(s, j1 + 1)))), j1 + 1)
    else
      LexStep(Err(LexError("invalid character literal", Span(start, Offset(s, j1)))), j1)
  }

  function StringAt(s: seq<char>, j: nat, start: nat): (st: LexStep)
    requires j <= |s|
    ensures st.next <= |s|
  {
    var j1 := Next(s, j);
    var k := ScanWhile(s, j1, NotQuote);
    if k < |s| then
      LexStep(Ok(Token(StringLiteral, Span(start, Offset(s, k + 1)), ['"'] + s[j1..k + 1])), k + 1)
    else
      LexStep(Err(LexError("unclosed string literal", Span(start, Offset(s, k)))), k)
  }

  function UnexpectedCharacter(ch: char): string {
    "unexpected character: '" + [ch] + "'"
  }

  function SymbolAt(s: seq<char>, j: nat, start: nat): (st: LexStep)
    requires j < |s|
    ensures j < st.next <= |s|
  {
    TrySymbolMeaning(s[j], PeekAt(s, j));
    match TrySymbol(s[j], PeekAt(s, j))
    case Some((kind, len)) =>
      var k := if j + len <= |s| then j + len else |s|;
      LexStep(Ok(Token(kind, Span(start, Offset(s, k)), s[j..k])), k)
    case None =>
      LexStep(Err(LexError(UnexpectedCharacter(s[j]), Span(start, Offset(s, j + 1)))), j + 1)
  }

  predicate IsEof(r: LexResult) {
    r.Ok? && r.value.kind == Eof
  }

  /** The token or error that starts with the character at `j` (not
      whitespace, not the end), where `start` is the byte offset of `j`. */
  function Dispatch(s: seq<char>, j: nat, start: nat): (st: LexStep)
    requires j < |s|
    ensures j < st.next <= |s|
    ensures !IsEof(st.result)
  {
    var ch := s[j];
    if IsAlphabetic(ch) || ch == '_' then IdentifierAt(s, j, start)
    else if IsAsciiDigit(ch) then NumberAt(s, j, start)
    else if ch == '"' then StringAt(s, j, start)
    else if ch == '\'' then CharacterAt(s, j, start)
    else if ch == '-' && PeekAt(s, j) == Some('-') then CommentAt(s, j, start)
    else SymbolAt(s, j, start)
  }

  lemma StringAtClosed(s: seq<char>, j: nat, start: nat, k: nat)
    requires j <= |s| && ScanWhile(s, Next(s, j), NotQuote) == k < |s|
    ensures StringAt(s, j, start)
         == LexStep(Ok(Token(StringLiteral, Span(start, Offset(s, k + 1)), ['"'] + s[Next(s, j)..k + 1])), k + 1)
  {
  }

  lemma StringAtUnclosed(s: seq<char>, j: nat, start: nat)
    requires j <= |s| && ScanWhile(s, Next(s, j), NotQuote) == |s|
    ensures StringAt(s, j, start) == LexStep(Err(LexError("unclosed string literal", Span(start, Offset(s, |s|)))), |s|)
  {
  }

  /** `next_token` when `i` characters of `s` have been consumed: skip
      whitespace, then dispatch on the first character. Every result other
      than Eof, token or error, consumes at least one character; Eof is
      returned exactly when only whitespace is left, with an empty span at
      the end of the input. */
  function Scan(s: seq<char>, i: nat): (st: LexStep)
    requires i <= |s|
    ensures ScanWhile(s, i, WhitespaceChars) <= st.next <= |s|
    ensures IsEof(st.result) <==> ScanWhile(s, i, WhitespaceChars) == |s|
    ensures IsEof(st.result) ==> st.next == |s| && st.result.value == Token(Eof, Span(Offset(s, |s|), Offset(s, |s|)), "")
    ensures !IsEof(st.result) ==> st.next > ScanWhile(s, i, WhitespaceChars)
  {
    var j := ScanWhile(s, i, WhitespaceChars);
    if j == |s| then LexStep(Ok(Token(Eof, Span(Offset(s, j), Offset(s, j)), "")), j)
    else Dispatch(s, j, Offset(s, j))
  }

  /** What the iterator yields for one result of `next_token`: Eof ends the
      iteration, everything else is passed on. */
  function ItemOf(r: LexResult): (item: Option<LexResult>)
    ensures item.None? <==> IsEof(r)
    ensures item.Some? ==> item.value == r
  {
    if IsEof(r) then None else Some(r)
  }

  /** The items the iterator yields from index `i` to the end; it is finite
      because every item consumes input. */
  function Items(s: seq<char>, i: nat): (items: seq<LexResult>)
    requires i <= |s|
    ensures forall k :: 0 <= k < |items| ==> !IsEof(items[k])
    decreases |s| - i
  {
    var st := Scan(s, i);
    if IsEof(st.result) then [] else [st.result] + Items(s, st.next)
  }

  /** The tokens of the items that are not errors (`filter_map(Result::ok)`). */
  function OkTokens(items: seq<LexResult>): (toks: seq<Token>)
    ensures |toks| <= |items|
  {
    if items == [] then []
    else (if items[0].Ok? then [items[0].value] else []) + OkTokens(items[1..])
  }

  lemma {:induction false} OffsetStep(s: seq<char>, i: nat)
    requires i < |s|
    ensures Offset(s, i + 1) == Offset(s, i) + Utf8Len(s[i])
  {
    assert s[..i + 1][..i] == s[..i];
  }

  // -------------------------------------------------------------- cursor

  class Lexer {
    /** The whole input and the number of characters consumed so far. */
    ghost const source: seq<char>
    ghost var index: nat

    /** Byte offset of the current character. */
    var position: nat
    /** The characters after the current one (the `Chars` iterator). */
    var chars: seq<char>
    var currentChar: Option<char>

    ghost predicate Valid()
      reads this
    {
      && index <= |source|
      && position == Offset(source, index)
      && currentChar == (if index < |source| then Some(source[index]) else None)
      && chars == (if index < |source| then source[index + 1..] else [])
    }

    constructor (src: seq<char>)
      ensures Valid() && source == src && index == 0 && position == 0
    {
      source := src;
      index := 0;
      position := 0;
      if |src| > 0 {
        currentChar := Some(src[0]);
        chars := src[1..];
      } else {
        currentChar := None;
        chars := [];
      }
    }

    function Current(): (c: Option<char>)
      reads this
      requires Valid()
      ensures c.Some? <==> index < |source|
      ensures c.Some? ==> c.value == source[index]
    {
      currentChar
    }

    function Peek(): (c: Option<char>)
      reads this
      requires Valid()
      ensures c == PeekAt(source, index)
    {
      if |chars| > 0 then Some(chars[0]) else None
    }

    method Advance()
      requires Valid()
      modifies this
      ensures Valid() && index == Next(source, old(index))
      ensures position == old(position) + if old(index) < |source| then Utf8Len(source[old(index)]) else 0
    {
      if currentChar.Some? {
        OffsetStep(source, index);
        position := position + Utf8Len(currentChar.value);
        index := index + 1;
        if |chars| > 0 {
          currentChar := Some(chars[0]);
          chars := chars[1..];
        } else {
          currentChar := None;
        }
      }
    }

    method ConsumeWhile(start: nat, pred: CharClass) returns (result: string, span: Span)
      requires Valid()
      modifies this
      ensures Valid() && index == ScanWhile(source, old(index), pred)
      ensures result == source[old(index)..index] && span == Span(start, position)
    {
      result := "";
      while Current().Some?
        invariant Valid() && old(index) <= index
        invariant ScanWhile(source, index, pred) == ScanWhile(source, old(index), pred)
        invariant result == source[old(index)..index]
        decreases |source| - index
      {
        var ch := Current().value;
        if InClass(pred, ch) {
          SliceSnoc(source, old(index), index);
          result := result + [ch];
          Advance();
        } else {
          break;
        }
      }
      span := Span(start, position);
    }

    method SkipWhitespace()
      requires Valid()
      modifies this
      ensures Valid() && index == ScanWhile(source, old(index), WhitespaceChars)
    {
      while Current().Some?
        invariant Valid() && old(index) <= index
        invariant ScanWhile(source, index, WhitespaceChars) == ScanWhile(source, old(index), WhitespaceChars)
        decreases |source| - index
      {
        if IsWhitespace(Current().value) {
          Advance();
        } else {
          break;
        }
      }
    }

    method LexIdentifier(start: nat) returns (token: Token)
      requires Valid()
      modifies this
      ensures Valid() && LexStep(Ok(token), index) == IdentifierAt(source, old(index), start)
    {
      var text, span := ConsumeWhile(start, IdentifierChars);
      token := Token(KeywordOrIdentifier(text), span, text);
    }

    method LexNumber(start: nat) returns (token: Token)
      requires Valid()
      modifies this
      ensures Valid() && LexStep(Ok(token), index) == NumberAt(source, old(index), start)
    {
      var text, span := ConsumeWhile(start, NumberChars);
      token := Token(Number, span, text);
    }

    method LexComment(start: nat) returns (token: Token)
      requires Valid()
      modifies this
      ensures Valid() && LexStep(Ok(token), index) == CommentAt(source, old(index), start)
    {
      Advance();
      var text, span := ConsumeWhile(start, NotNewline);
      token := Token(Comment, span, text);
    }

    method LexCharacter(start: nat) returns (r: LexResult)
      requires Valid()
      modifies this
      ensures Valid() && LexStep(r, index) == CharacterAt(source, old(index), start)
    {
      Advance();
      ghost var j1 := index;
      var text := "'";
      var c := Current();
      if c.Some? {
        text := text + [c.value];
        Advance();
        if Current() == Some('\'') {
          assert j1 + 1 < |source| && source[j1 + 1] == '\'';
          text := text + ['\''];
          Advance();
          assert text == ['\'', source[j1], '\''] && index == j1 + 2;
          return Ok(Token(CharacterLiteral, Span(start, position), text));
        }
        assert index == j1 + 1;
      }
      r := Err(LexError("invalid character literal", Span(start, position)));
    }

    method LexStringLiteral(start: nat) returns (r: LexResult)
      requires Valid()
      modifies this
      ensures Valid() && LexStep(r, index) == StringAt(source, old(index), start)
    {
      ghost var j := index;
      Advance();
      ghost var j1 := index;
      assert j1 == Next(source, j);
      var text := "\"";
      while Current().Some?
        invariant Valid() && j1 <= index
        invariant ScanWhile(source, index, NotQuote) == ScanWhile(source, j1, NotQuote)
        invariant text == ['"'] + source[j1..index]
        decreases |source| - index
      {
        ghost var k := index;
        var ch := Current().value;
        SliceSnoc(source, j1, k);
        AppendAssoc(['"'], source[j1..k], [ch]);
        text := text + [ch];
        Advance();
        if ch == '"' {
          assert ScanWhile(source, k, NotQuote) == k;
          StringAtClosed(source, j, start, k);
          return Ok(Token(StringLiteral, Span(start, position), text));
        }
      }
      StringAtUnclosed(source, j, start);
      r := Err(LexError("unclosed string literal", Span(start, position)));
    }

    /** The symbol branch of `next_token`: the longest symbol at the current
        character, or an "unexpected character" error after consuming it. */
    method LexSymbol(start: nat) returns (r: LexResult)
      requires Valid() && index < |source|
      modifies this
      ensures Valid() && LexStep(r, index) == SymbolAt(source, old(index), start)
    {
      var ch := Current().value;
      var symbol := TrySymbol(ch, Peek());
      if symbol.Some? {
        var (kind, len) := symbol.value;
        ghost var j := index;
        var text := "";
        for n := 0 to len
          invariant Valid() && index == (if j + n <= |source| then j + n else |source|)
          invariant text == source[j..index]
        {
          var cur := Current();
          if cur.Some? {
            text := text + [cur.value];
            Advance();
          }
        }
        r := Ok(Token(kind, Span(start, position), text));
      } else {
        Advance();
        r := Err(LexError(UnexpectedCharacter(ch), Span(start, position)));
      }
    }

    /** `next_token`. */
    method NextToken() returns (r: LexResult)
      requires Valid()
      modifies this
      ensures Valid() && LexStep(r, index) == Scan(source, old(index))
    {
      SkipWhitespace();
      ghost var j := index;
      var start := position;
      var c := Current();
      if c.None? {
        return Ok(Token(Eof, Span(start, start), ""));
      }
      var ch := c.value;
      if IsAlphabetic(ch) || ch == '_' {
        var token := LexIdentifier(start);
        r := Ok(token);
      } else if IsAsciiDigit(ch) {
        var token := LexNumber(start);
        r := Ok(token);
      } else if ch == '"' {
        r := LexStringLiteral(start);
      } else if ch == '\'' {
        r := LexCharacter(start);
      } else if ch == '-' && Peek() == Some('-') {
        var token := LexComment(start);
        r := Ok(token);
      } else {
        r := LexSymbol(start);
      }
      assert LexStep(r, index) == Dispatch(source, j, start);
    }

    /** `Iterator::next`: the result of `next_token`, with Eof ending the iteration. */
    method NextItem() returns (item: Option<LexResult>)
      requires Valid()
      modifies this
      ensures Valid() && index == Scan(source, old(index)).next
      ensures item == ItemOf(Scan(source, old(index)).result)
    {
      var r := NextToken();
      if r.Ok? && r.value.kind == Eof {
        item := None;
      } else {
        item := Some(r);
      }
    }
  }

  lemma ItemsStep(s: seq<char>, i: nat)
    requires i <= |s|
    ensures IsEof(Scan(s, i).result) ==> Items(s, i) == []
    ensures !IsEof(Scan(s, i).result) ==> Items(s, i) == [Scan(s, i).result] + Items(s, Scan(s, i).next)
  {
  }

  lemma OkTokensCons(r: LexResult, rest: seq<LexResult>)
    ensures OkTokens([r] + rest) == (if r.Ok? then [r.value] else []) + OkTokens(rest)
  {
    assert ([r] + rest)[1..] == rest;
  }

  /** One iteration of the collecting loop: an item that is not Eof
      contributes its token (when it is one) in front of the tokens of the
      remaining input; Eof ends the sequence. */
  lemma OkTokensStep(s: seq<char>, i: nat, item: Option<LexResult>, next: nat)
    requires i <= |s| && next == Scan(s, i).next && item == ItemOf(Scan(s, i).result)
    ensures item.None? ==> OkTokens(Items(s, i)) == []
    ensures item.Some? ==> i < next <= |s|
    ensures item.Some? ==> OkTokens(Items(s, i)) == (if item.value.Ok? then [item.value.value] else []) + OkTokens(Items(s, next))
  {
    ItemsStep(s, i);
    if item.Some? {
      OkTokensCons(item.value, Items(s, next));
    }
  }

  /** The tokens `analyze_vhdl` keeps from the lexer: every successfully lexed
      token, in order, with lexical errors dropped. */
  method LexOkTokens(source: seq<char>) returns (tokens: seq<Token>)
    ensures tokens == OkTokens(Items(source, 0))
  {
    var lexer := new Lexer(source);
    tokens := [];
    while true
      invariant lexer.Valid() && lexer.source == source
      invariant tokens + OkTokens(Items(source, lexer.index)) == OkTokens(Items(source, 0))
      decreases |source| - lexer.index
    {
      ghost var before := lexer.index;
      var item := lexer.NextItem();
      OkTokensStep(source, before, item, lexer.index);
      if item.None? {
        return;
      }
      var found := if item.value.Ok? then [item.value.value] else [];
      AppendAssoc(tokens, found, OkTokens(Items(source, lexer.index)));
      tokens := tokens + found;
    }
  }
}
