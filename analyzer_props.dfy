/** Properties of the analyzer's specification: the token filter, the
    cursor operations, the skip policies, port-group expansion, vector
    bounds, default values and the top-level loop. */
module AnalyzerProperties {
  import opened VhdlText
  import opened VhdlLexer
  import opened VhdlAnalyzer

  // ------------------------------------------------------------- filtering

  /** Filtering distributes over concatenation, so it keeps the order of the
      tokens it keeps. */
  lemma {:induction false} SignificantAppend(a: seq<Token>, b: seq<Token>)
    ensures Significant(a + b) == Significant(a) + Significant(b)
    decreases |a|
  {
    if a == [] {
      assert a + b == b;
    } else {
      assert (a + b)[1..] == a[1..] + b;
      SignificantAppend(a[1..], b);
      AppendAssoc(if IsSignificant(a[0]) then [a[0]] else [], Significant(a[1..]), Significant(b));
    }
  }

  /** A token survives the filter exactly when it is in the input and is
      neither a comment nor Eof. */
  lemma {:induction false} SignificantMembers(input: seq<Token>, t: Token)
    ensures t in Significant(input) <==> t in input && IsSignificant(t)
    decreases |input|
  {
    if input != [] {
      SignificantMembers(input[1..], t);
      assert input == [input[0]] + input[1..];
    }
  }

  // ------------------------------------------------------ cursor operations

  /** Past the end, `current` is the Eof sentinel with the empty span (0, 0). */
  lemma AtPastEnd(toks: seq<Token>, p: nat)
    requires p >= |toks|
    ensures At(toks, p) == Token(Eof, Span(0, 0), "")
  {
  }

  /** `advance` moves one token on while there is one and never goes past the end. */
  lemma AdvBounds(toks: seq<Token>, p: nat)
    requires p <= |toks|
    ensures Adv(toks, p) <= |toks|
    ensures p < |toks| ==> Adv(toks, p) == p + 1
    ensures p == |toks| ==> Adv(toks, p) == p
  {
  }

  /** `expect` succeeds exactly on a token of the expected kind, returning it
      and moving one on; on a mismatch it leaves the position alone and
      reports the kind and text of the token found, with its span. */
  lemma ExpectOutcome(toks: seq<Token>, p: nat, kind: TokenKind)
    requires p <= |toks|
    ensures ExpectAt(toks, p, kind).result.Ok? <==> At(toks, p).kind == kind
    ensures ExpectAt(toks, p, kind).result.Ok? ==>
      ExpectAt(toks, p, kind).result.value == At(toks, p) && ExpectAt(toks, p, kind).pos == Adv(toks, p)
    ensures ExpectAt(toks, p, kind).result.Err? ==>
      ExpectAt(toks, p, kind).pos == p &&
      ExpectAt(toks, p, kind).result.error ==
        AnalyzeError(ExpectedToken(kind, At(toks, p).kind, At(toks, p).text), At(toks, p).span)
  {
  }

  /** `eat` reports whether the current token has the kind and moves past it
      only then. */
  lemma EatOutcome(toks: seq<Token>, p: nat, kind: TokenKind)
    requires p <= |toks|
    ensures EatAt(toks, p, kind).0 <==> At(toks, p).kind == kind
    ensures EatAt(toks, p, kind).1 == if At(toks, p).kind == kind then Adv(toks, p) else p
  {
  }

  /** `skip_until` stops at the first token whose kind is listed, or at the
      end: every token it passes is neither listed nor Eof. */
  lemma {:induction false} SkipUntilFirst(toks: seq<Token>, p: nat, kinds: seq<TokenKind>)
    requires p <= |toks|
    ensures var q := SkipUntilAt(toks, p, kinds);
      && (At(toks, q).kind == Eof || At(toks, q).kind in kinds)
      && (forall m :: p <= m < q ==> toks[m].kind != Eof && toks[m].kind !in kinds)
    decreases |toks| - p
  {
    if !(At(toks, p).kind == Eof || At(toks, p).kind in kinds) {
      SkipUntilFirst(toks, p + 1, kinds);
    }
  }

  // ------------------------------------------------------------- directions

  predicate IsDirectionKind(k: TokenKind) {
    k == TokenKind.In || k == TokenKind.Out || k == TokenKind.Inout || k == TokenKind.Buffer
  }

  /** Only `in`, `out`, `inout` and `buffer` are directions; anything else is
      an "expected port direction" error that consumes nothing. */
  lemma DirectionOutcome(toks: seq<Token>, p: nat)
    requires p <= |toks|
    ensures DirectionAt(toks, p).result.Ok? <==> IsDirectionKind(At(toks, p).kind)
    ensures DirectionAt(toks, p).result.Ok? ==> DirectionAt(toks, p).pos == p + 1
    ensures DirectionAt(toks, p).result.Err? ==>
      DirectionAt(toks, p) == Parse(Err(AnalyzeError(ExpectedDirection(At(toks, p).text), At(toks, p).span)), p)
  {
  }

  // ------------------------------------------------------------------ types

  /** `std_logic_vector(a X b)` takes the high bound from the first number
      and the low bound from the second, whether X is `downto`, `to` or
      absent. */
  lemma VectorBoundsByPosition(toks: seq<Token>, p: nat)
    requires p + 4 < |toks|
    requires toks[p].kind == TokenKind.StdLogicVector && toks[p + 1].kind == LeftParen
    requires toks[p + 2].kind == Number
    ensures var hasDir := toks[p + 3].kind == Downto || toks[p + 3].kind == To;
      var lowAt := if hasDir then p + 4 else p + 3;
      lowAt + 1 < |toks| && toks[lowAt].kind == Number && toks[lowAt + 1].kind == RightParen ==>
        TypeAt(toks, p) == Parse(Ok(VhdlType.StdLogicVector(BoundOf(toks[p + 2].text), BoundOf(toks[lowAt].text))), lowAt + 2)
  {
  }

  /** Without a parenthesised range a vector has bounds (0, 0). */
  lemma VectorWithoutRange(toks: seq<Token>, p: nat)
    requires p < |toks| && toks[p].kind == TokenKind.StdLogicVector && At(toks, p + 1).kind != LeftParen
    ensures TypeAt(toks, p) == Parse(Ok(VhdlType.StdLogicVector(0, 0)), p + 1)
  {
  }

  /** A bound is read back as the number it was written as, and text that is
      not an i64 (too large, or not a number) reads as 0. */
  lemma BoundRoundTrip(i: int)
    requires I64Min <= i <= I64Max
    ensures BoundOf(IntToString(i)) == i
  {
    ParseI64OfIntToString(i);
  }

  lemma BoundOfMalformed(text: string)
    requires ParseI64(text).None?
    ensures BoundOf(text) == 0
  {
  }

  /** Keyword types map to their type, an identifier to `Other` with its text,
      `std_logic_vector` goes on to its optional range, and anything else is
      an "expected type" error that consumes nothing. */
  lemma TypeOutcome(toks: seq<Token>, p: nat)
    requires p <= |toks|
    ensures At(toks, p).kind == Identifier ==> TypeAt(toks, p) == Parse(Ok(Other(At(toks, p).text)), p + 1)
    ensures At(toks, p).kind == TokenKind.StdLogicVector ==> TypeAt(toks, p) == VectorRangeAt(toks, p + 1)
    ensures At(toks, p).kind == TokenKind.StdLogic ==> TypeAt(toks, p) == Parse(Ok(VhdlType.StdLogic), p + 1)
    ensures At(toks, p).kind == TokenKind.Integer ==> TypeAt(toks, p) == Parse(Ok(VhdlType.Integer), p + 1)
    ensures At(toks, p).kind == TokenKind.Boolean ==> TypeAt(toks, p) == Parse(Ok(VhdlType.Boolean), p + 1)
    ensures TypeAt(toks, p).result.Err? && TypeAt(toks, p).pos == p <==>
      !(At(toks, p).kind in {Identifier, TokenKind.StdLogic, TokenKind.StdLogicVector, TokenKind.Integer, TokenKind.Boolean})
  {
  }

  // ------------------------------------------------------------ port groups

  /** From `q` on, `names[i]` is the identifier after the `i`-th comma: the
      tokens run `, names[0] , names[1] ...`. */
  ghost predicate CommaNames(toks: seq<Token>, q: nat, names: seq<string>) {
    forall i :: 0 <= i < |names| ==>
      q + 2 * i + 1 < |toks| && toks[q + 2 * i].kind == Comma &&
      toks[q + 2 * i + 1].kind == Identifier && names[i] == toks[q + 2 * i + 1].text
  }

  /** One port per name, in order, all with the direction and type of the
      first and with span `span`. */
  ghost predicate OnePortPerName(ports: seq<PortDef>, names: seq<string>, span: Span) {
    && |ports| == |names|
    && forall i :: 0 <= i < |ports| ==> ports[i] == PortDef(names[i], ports[0].direction, ports[0].vhdlType, span)
  }

  /** The tokens of a group starting at `p` as `ports` records them:
      `name0 , name1 , ... namek :`, with one port per name in that order,
      all sharing the direction, type and span (the span of the token at
      `p`). */
  ghost predicate GroupLayoutOf(toks: seq<Token>, p: nat, ports: seq<PortDef>) {
    && |ports| >= 1
    && p + 2 * |ports| - 1 < |toks| && toks[p + 2 * |ports| - 1].kind == Colon
    && forall i :: 0 <= i < |ports| ==>
         && p + 2 * i < |toks|
         && toks[p + 2 * i].kind == Identifier
         && ports[i].name == toks[p + 2 * i].text
         && ports[i].direction == ports[0].direction
         && ports[i].vhdlType == ports[0].vhdlType
         && ports[i].span == toks[p].span
         && (i > 0 ==> toks[p + 2 * i - 1].kind == Comma)
  }

  /** The names after a group's first one: each is an identifier preceded by
      a comma, and the list ends at the first token that is not a comma. */
  lemma {:induction false} MoreNamesShape(toks: seq<Token>, q: nat)
    requires q <= |toks| && MoreNamesAt(toks, q).result.Ok?
    ensures var names := MoreNamesAt(toks, q).result.value;
      && MoreNamesAt(toks, q).pos == q + 2 * |names|
      && At(toks, q + 2 * |names|).kind != Comma
      && CommaNames(toks, q, names)
    decreases |toks| - q
  {
    if At(toks, q).kind == Comma {
      var name := ExpectAt(toks, q + 1, Identifier);
      var rest := MoreNamesAt(toks, name.pos);
      MoreNamesShape(toks, name.pos);
      var names := MoreNamesAt(toks, q).result.value;
      assert names == [name.result.value.text] + rest.result.value;
      forall i | 0 <= i < |names|
        ensures q + 2 * i + 1 < |toks| && toks[q + 2 * i].kind == Comma &&
                toks[q + 2 * i + 1].kind == Identifier && names[i] == toks[q + 2 * i + 1].text
      {
        if i > 0 {
          assert names[i] == rest.result.value[i - 1];
          assert q + 2 * i == (q + 2) + 2 * (i - 1);
        }
      }
    }
  }

  /** What a successful `parse_port_group` read: a first name, more names
      after commas, a colon, and one port per name sharing the rest. */
  lemma PortGroupParts(toks: seq<Token>, p: nat)
    requires p <= |toks| && PortGroupAt(toks, p).result.Ok?
    ensures p < |toks| && toks[p].kind == Identifier
    ensures MoreNamesAt(toks, p + 1).result.Ok?
    ensures At(toks, MoreNamesAt(toks, p + 1).pos).kind == Colon
    ensures OnePortPerName(PortGroupAt(toks, p).result.value, [toks[p].text] + MoreNamesAt(toks, p + 1).result.value, toks[p].span)
  {
  }

  /** The layout of a group's tokens, from the shape of its names: the
      first name at `p`, the others each after a comma, then the colon. */
  lemma GroupLayout(toks: seq<Token>, p: nat, rest: seq<string>, ports: seq<PortDef>)
    requires p < |toks| && toks[p].kind == Identifier
    requires At(toks, (p + 1) + 2 * |rest|).kind == Colon
    requires CommaNames(toks, p + 1, rest)
    requires OnePortPerName(ports, [toks[p].text] + rest, toks[p].span)
    ensures GroupLayoutOf(toks, p, ports)
  {
    forall i | 0 <= i < |ports|
      ensures p + 2 * i < |toks| && toks[p + 2 * i].kind == Identifier && ports[i].name == toks[p + 2 * i].text
      ensures i > 0 ==> toks[p + 2 * i - 1].kind == Comma
    {
      if i > 0 {
        LaterNameLayout(toks, p, rest, i - 1);
      }
    }
  }

  /** The name after the first, at index `k + 1` of the group, sits after
      its comma. */
  lemma LaterNameLayout(toks: seq<Token>, p: nat, rest: seq<string>, k: nat)
    requires CommaNames(toks, p + 1, rest) && k < |rest|
    ensures p + 2 * (k + 1) < |toks| && toks[p + 2 * (k + 1)].kind == Identifier
    ensures rest[k] == toks[p + 2 * (k + 1)].text && toks[p + 2 * (k + 1) - 1].kind == Comma
  {
    assert p + 2 * (k + 1) == (p + 1) + 2 * k + 1;
  }

  /** A group `n0, n1, ..., nk : dir type` yields one port per name, in the
      order written, every one with the same direction, type and span (the
      span of the group's first token). */
  lemma PortGroupExpansion(toks: seq<Token>, p: nat)
    requires p <= |toks| && PortGroupAt(toks, p).result.Ok?
    ensures GroupLayoutOf(toks, p, PortGroupAt(toks, p).result.value)
  {
    PortGroupParts(toks, p);
    MoreNamesShape(toks, p + 1);
    GroupLayout(toks, p, MoreNamesAt(toks, p + 1).result.value, PortGroupAt(toks, p).result.value);
  }

  /** The port list is the concatenation of its groups, each followed by an
      optional `;`. */
  lemma PortListStep(toks: seq<Token>, p: nat)
    requires p <= |toks| && At(toks, p).kind != RightParen && At(toks, p).kind != Eof
    requires PortGroupAt(toks, p).result.Ok?
    ensures var g := PortGroupAt(toks, p);
      var q := if At(toks, g.pos).kind == Semicolon then g.pos + 1 else g.pos;
      PortListAt(toks, p) == PrefixSeq(g.result.value, PortListAt(toks, q))
  {
    PortListUnfold(toks, p);
    EatOptional(toks, PortGroupAt(toks, p).pos, Semicolon);
  }

  /** One step of `parse_port_list`: a group, then `eat(;)`, then the rest. */
  lemma PortListUnfold(toks: seq<Token>, p: nat)
    requires p <= |toks| && At(toks, p).kind != RightParen && At(toks, p).kind != Eof
    requires PortGroupAt(toks, p).result.Ok?
    ensures var g := PortGroupAt(toks, p);
      PortListAt(toks, p) == PrefixSeq(g.result.value, PortListAt(toks, EatAt(toks, g.pos, Semicolon).1))
  {
  }

  /** `eat` moves past the token exactly when it has the kind asked for. */
  lemma EatOptional(toks: seq<Token>, q: nat, kind: TokenKind)
    requires q <= |toks| && kind != Eof
    ensures EatAt(toks, q, kind).0 == (At(toks, q).kind == kind)
    ensures EatAt(toks, q, kind).1 == if At(toks, q).kind == kind then q + 1 else q
  {
  }

  // --------------------------------------------------------------- entities

  /** An entity without a port clause has no ports; its declaration ends at
      the next `;`, whatever precedes it. */
  lemma EntityWithoutPorts(toks: seq<Token>, p: nat)
    requires p + 2 < |toks|
    requires toks[p].kind == Entity && toks[p + 1].kind == Identifier && toks[p + 2].kind == Is
    requires At(toks, p + 3).kind != Port
    ensures var q := SkipUntilAt(toks, p + 3, [Semicolon]);
      EntityAt(toks, p) ==
        Parse(Ok(EntityDef(toks[p + 1].text, [], Span(toks[p].span.start, At(toks, q).span.end))), Adv(toks, q))
  {
  }

  /** The `) ;` that closes a port clause after its list `l`. */
  function ClosePortClause(toks: seq<Token>, l: Parse<seq<PortDef>>): Parse<seq<PortDef>>
    requires l.pos <= |toks|
  {
    if l.result.Err? then l else
    var close := ExpectAt(toks, l.pos, RightParen);
    if close.result.Err? then Fail(close) else
    var semi := ExpectAt(toks, close.pos, Semicolon);
    if semi.result.Err? then Fail(semi) else
    Parse(Ok(l.result.value), semi.pos)
  }

  /** `port ( list ) ;`: after `port` a `(` is required, reported at the
      token found in its place; after it come the list and its closing. */
  lemma PortClauseOutcome(toks: seq<Token>, q: nat)
    requires q < |toks| && toks[q].kind == Port
    ensures At(toks, q + 1).kind != LeftParen ==>
      PortClauseAt(toks, q) ==
        Parse(Err(AnalyzeError(ExpectedToken(LeftParen, At(toks, q + 1).kind, At(toks, q + 1).text), At(toks, q + 1).span)), q + 1)
    ensures At(toks, q + 1).kind == LeftParen ==> PortClauseAt(toks, q) == ClosePortClause(toks, PortListAt(toks, q + 2))
  {
  }

  /** The list ends the clause only with `)` and then `;`, each missing one
      reported at the token found in its place; an error inside the list is
      passed on. */
  lemma ClosePortClauseOutcome(toks: seq<Token>, l: Parse<seq<PortDef>>)
    requires l.pos <= |toks|
    ensures l.result.Err? ==> ClosePortClause(toks, l) == l
    ensures l.result.Ok? && At(toks, l.pos).kind != RightParen ==>
      ClosePortClause(toks, l) ==
        Parse(Err(AnalyzeError(ExpectedToken(RightParen, At(toks, l.pos).kind, At(toks, l.pos).text), At(toks, l.pos).span)), l.pos)
    ensures l.result.Ok? && l.pos < |toks| && toks[l.pos].kind == RightParen && At(toks, l.pos + 1).kind != Semicolon ==>
      ClosePortClause(toks, l) ==
        Parse(Err(AnalyzeError(ExpectedToken(Semicolon, At(toks, l.pos + 1).kind, At(toks, l.pos + 1).text), At(toks, l.pos + 1).span)), l.pos + 1)
    ensures l.result.Ok? && l.pos + 1 < |toks| && toks[l.pos].kind == RightParen && toks[l.pos + 1].kind == Semicolon ==>
      ClosePortClause(toks, l) == Parse(Ok(l.result.value), l.pos + 2)
  {
  }

  /** After `entity N is`, the entity is the port clause's ports, with the
      declaration ending at the first `;` after it; a port clause error is
      passed on. */
  lemma EntityHead(toks: seq<Token>, p: nat)
    requires p + 2 < |toks|
    requires toks[p].kind == Entity && toks[p + 1].kind == Identifier && toks[p + 2].kind == Is
    ensures var c := PortClauseAt(toks, p + 3);
      c.result.Err? ==> EntityAt(toks, p) == Parse(Err(c.result.error), c.pos)
    ensures var c := PortClauseAt(toks, p + 3);
      c.result.Ok? ==>
        var q := SkipUntilAt(toks, c.pos, [Semicolon]);
        EntityAt(toks, p) ==
          Parse(Ok(EntityDef(toks[p + 1].text, c.result.value, Span(toks[p].span.start, At(toks, q).span.end))), Adv(toks, q))
  {
    assert ExpectAt(toks, p, Entity) == Parse(Ok(toks[p]), p + 1);
    assert ExpectAt(toks, p + 1, Identifier) == Parse(Ok(toks[p + 1]), p + 2);
    assert ExpectAt(toks, p + 2, Is) == Parse(Ok(toks[p + 2]), p + 3);
  }

  /** When nothing after the port clause stops `skip_until(;)`, the
      entity's span ends at the sentinel's offset 0, so its end can precede
      its start. */
  lemma EntitySpanAtEndOfInput(toks: seq<Token>, p: nat)
    requires p + 2 < |toks|
    requires toks[p].kind == Entity && toks[p + 1].kind == Identifier && toks[p + 2].kind == Is
    requires PortClauseAt(toks, p + 3).result.Ok?
    requires SkipUntilAt(toks, PortClauseAt(toks, p + 3).pos, [Semicolon]) == |toks|
    ensures EntityAt(toks, p).result.Ok?
    ensures EntityAt(toks, p).result.value.span == Span(toks[p].span.start, 0)
    ensures EntityAt(toks, p).pos == |toks|
  {
  }

  /** `skip_until` reaches the end exactly when no token from `p` on is
      listed or Eof. */
  lemma {:induction false} SkipUntilReachesEnd(toks: seq<Token>, p: nat, kinds: seq<TokenKind>)
    requires p <= |toks|
    ensures SkipUntilAt(toks, p, kinds) == |toks| <==>
      forall m :: p <= m < |toks| ==> toks[m].kind != Eof && toks[m].kind !in kinds
    decreases |toks| - p
  {
    if p < |toks| && !(toks[p].kind == Eof || toks[p].kind in kinds) {
      SkipUntilReachesEnd(toks, p + 1, kinds);
    }
  }

  // ------------------------------------------------------------ architectures

  /** The declarative part ends at `begin` or at the end of the tokens,
      passes over every token that does not start a signal declaration, and
      collects each signal declaration in order, an error in one ending it. */
  lemma DeclarationsSkip(toks: seq<Token>, p: nat)
    requires p <= |toks|
    ensures At(toks, p).kind == Begin || At(toks, p).kind == Eof ==> DeclarationsAt(toks, p) == Parse(Ok([]), p)
    ensures At(toks, p).kind !in {Begin, Eof, Signal} ==> DeclarationsAt(toks, p) == DeclarationsAt(toks, p + 1)
    ensures At(toks, p).kind == Signal && SignalDeclAt(toks, p).result.Err? ==>
      DeclarationsAt(toks, p) == Parse(Err(SignalDeclAt(toks, p).result.error), SignalDeclAt(toks, p).pos)
    ensures At(toks, p).kind == Signal && SignalDeclAt(toks, p).result.Ok? ==>
      DeclarationsAt(toks, p) == PrefixSeq([SignalDeclAt(toks, p).result.value], DeclarationsAt(toks, SignalDeclAt(toks, p).pos))
  {
  }

  /** A declarative part that parses stops at `begin` or at the end of the
      tokens, so nothing after `begin` is read as a declaration. */
  lemma {:induction false} DeclarationsEnd(toks: seq<Token>, p: nat)
    requires p <= |toks| && DeclarationsAt(toks, p).result.Ok?
    ensures At(toks, DeclarationsAt(toks, p).pos).kind == Begin || At(toks, DeclarationsAt(toks, p).pos).kind == Eof
    decreases |toks| - p
  {
    DeclarationsSkip(toks, p);
    var k := At(toks, p).kind;
    if k == Signal {
      DeclarationsEnd(toks, SignalDeclAt(toks, p).pos);
    } else if k != Begin && k != Eof {
      DeclarationsEnd(toks, p + 1);
    }
  }

  /** `signal n : T [:= v] ;` is the signal n of type T with its default
      value, spanning from `signal` to the `;`; without the `;` it is an
      error at the token found instead. A type error is passed on. */
  lemma SignalDeclOutcome(toks: seq<Token>, p: nat)
    requires p + 2 < |toks|
    requires toks[p].kind == Signal && toks[p + 1].kind == Identifier && toks[p + 2].kind == Colon
    ensures TypeAt(toks, p + 3).result.Err? ==>
      SignalDeclAt(toks, p) == Parse(Err(TypeAt(toks, p + 3).result.error), TypeAt(toks, p + 3).pos)
    ensures TypeAt(toks, p + 3).result.Ok? ==>
      var ty := TypeAt(toks, p + 3);
      var dv := DefaultValueAt(toks, ty.pos);
      SignalDeclEnd(toks, p, ty.result.value, dv.0, dv.1)
  {
  }

  /** What a signal declaration whose type `ty` and default `dv` have been
      read gives, by the token at `q` where its `;` should be. */
  ghost predicate SignalDeclEnd(toks: seq<Token>, p: nat, ty: VhdlType, dv: Option<string>, q: nat)
    requires p + 2 < |toks| && q <= |toks|
  {
    && (At(toks, q).kind == Semicolon ==>
          SignalDeclAt(toks, p) ==
            Parse(Ok(SignalDef(toks[p + 1].text, ty, dv, Span(toks[p].span.start, toks[q].span.end))), q + 1))
    && (At(toks, q).kind != Semicolon ==>
          SignalDeclAt(toks, p) ==
            Parse(Err(AnalyzeError(ExpectedToken(Semicolon, At(toks, q).kind, At(toks, q).text), At(toks, q).span)), q))
  }

  /** `architecture A of E is decls ...`: the architecture is named A, is of
      entity E, its signals are the declarations before `begin`, and it ends
      after `end architecture ... ;` (or at the end), its span closing with
      the last token it consumed. An error in the declarations is passed on. */
  lemma ArchitectureOutcome(toks: seq<Token>, p: nat)
    requires p + 4 < |toks|
    requires toks[p].kind == Architecture && toks[p + 1].kind == Identifier && toks[p + 2].kind == Of
    requires toks[p + 3].kind == Identifier && toks[p + 4].kind == Is
    ensures DeclarationsAt(toks, p + 5).result.Err? ==>
      ArchitectureAt(toks, p) == Parse(Err(DeclarationsAt(toks, p + 5).result.error), DeclarationsAt(toks, p + 5).pos)
    ensures DeclarationsAt(toks, p + 5).result.Ok? ==>
      var q := SkipEndArchitectureAt(toks, DeclarationsAt(toks, p + 5).pos);
      && p + 5 <= q <= |toks|
      && ArchitectureAt(toks, p) ==
           Parse(Ok(ArchitectureDef(toks[p + 1].text, toks[p + 3].text, DeclarationsAt(toks, p + 5).result.value,
                                    Span(toks[p].span.start, toks[q - 1].span.end))), q)
  {
    ArchitectureHead(toks, p);
  }

  /** `architecture A of E is` reads the two names and stops after `is`. */
  lemma ArchitectureHead(toks: seq<Token>, p: nat)
    requires p + 4 < |toks|
    requires toks[p].kind == Architecture && toks[p + 1].kind == Identifier && toks[p + 2].kind == Of
    requires toks[p + 3].kind == Identifier && toks[p + 4].kind == Is
    ensures ArchitectureHeadAt(toks, p) == Parse(Ok((toks[p + 1].text, toks[p + 3].text)), p + 5)
  {
  }

  /** An `end` immediately followed by `architecture`. */
  predicate EndArchitectureAt(toks: seq<Token>, n: nat) {
    At(toks, n).kind == End && At(toks, n + 1).kind == Architecture
  }

  /** The body is skipped to just past the `;` that follows the first
      `end architecture`. */
  lemma {:induction false} SkipEndArchitectureStopsAtFirst(toks: seq<Token>, p: nat, m: nat)
    requires p <= m < |toks| && EndArchitectureAt(toks, m)
    requires forall n :: p <= n < m ==> toks[n].kind != Eof && !EndArchitectureAt(toks, n)
    ensures SkipEndArchitectureAt(toks, p) == Adv(toks, SkipUntilAt(toks, m, [Semicolon]))
    decreases m - p
  {
    if p < m {
      SkipEndArchitectureStopsAtFirst(toks, p + 1, m);
    }
  }

  /** Without any `end architecture`, the body runs to the end of the tokens. */
  lemma {:induction false} SkipEndArchitectureToEnd(toks: seq<Token>, p: nat)
    requires p <= |toks|
    requires forall n :: p <= n < |toks| ==> toks[n].kind != Eof && !EndArchitectureAt(toks, n)
    ensures SkipEndArchitectureAt(toks, p) == |toks|
    decreases |toks| - p
  {
    if p < |toks| {
      SkipEndArchitectureToEnd(toks, p + 1);
    }
  }

  // ------------------------------------------------------------------ values

  /** The texts of a run of tokens. */
  function Texts(ts: seq<Token>): (r: seq<string>)
    ensures |r| == |ts|
  {
    if ts == [] then [] else [ts[0].text] + Texts(ts[1..])
  }

  /** A default value collects the texts of the tokens up to where
      `skip_until(;)` would stop. */
  lemma {:induction false} DefaultPartsUntilSemicolon(toks: seq<Token>, p: nat)
    requires p <= |toks|
    ensures var q := SkipUntilAt(toks, p, [Semicolon]);
      DefaultPartsAt(toks, p) == (Texts(toks[p..q]), q)
    decreases |toks| - p
  {
    if !(At(toks, p).kind == Semicolon || At(toks, p).kind == Eof) {
      DefaultPartsUntilSemicolon(toks, p + 1);
      var q := SkipUntilAt(toks, p + 1, [Semicolon]);
      assert SkipUntilAt(toks, p, [Semicolon]) == q;
      assert toks[p..q][1..] == toks[p + 1..q];
    }
  }

  /** `:= v1 v2 ... ;` gives the texts between `:=` and `;` joined by single
      spaces; without `:=` there is no default value. */
  lemma DefaultValueOutcome(toks: seq<Token>, p: nat)
    requires p <= |toks|
    ensures At(toks, p).kind != Assignment ==> DefaultValueAt(toks, p) == (None, p)
    ensures At(toks, p).kind == Assignment ==>
      var q := SkipUntilAt(toks, p + 1, [Semicolon]);
      DefaultValueAt(toks, p) == (Some(Join(Texts(toks[p + 1..q]), " ")), q)
  {
    if At(toks, p).kind == Assignment {
      DefaultPartsUntilSemicolon(toks, p + 1);
    }
  }

  // ------------------------------------------------------------------ driver

  /** Tokens that start neither an entity nor an architecture are skipped
      silently, and the first error of a construct ends the analysis. */
  lemma AnalyzeStep(toks: seq<Token>, p: nat)
    requires p <= |toks|
    ensures At(toks, p).kind == Eof ==> AnalyzeAt(toks, p) == Parse(Ok(AnalyzeResult([], [])), p)
    ensures At(toks, p).kind !in {Eof, Entity, Architecture} ==> AnalyzeAt(toks, p) == AnalyzeAt(toks, p + 1)
    ensures At(toks, p).kind == Entity && EntityAt(toks, p).result.Err? ==>
      AnalyzeAt(toks, p).result == Err(EntityAt(toks, p).result.error)
    ensures At(toks, p).kind == Architecture && ArchitectureAt(toks, p).result.Err? ==>
      AnalyzeAt(toks, p).result == Err(ArchitectureAt(toks, p).result.error)
    ensures At(toks, p).kind == Entity && EntityAt(toks, p).result.Ok? ==>
      AnalyzeAt(toks, p) == PrefixResult([EntityAt(toks, p).result.value], [], AnalyzeAt(toks, EntityAt(toks, p).pos))
    ensures At(toks, p).kind == Architecture && ArchitectureAt(toks, p).result.Ok? ==>
      AnalyzeAt(toks, p) == PrefixResult([], [ArchitectureAt(toks, p).result.value], AnalyzeAt(toks, ArchitectureAt(toks, p).pos))
  {
  }

  /** Tokens without any `entity` or `architecture` analyze to an empty
      result. */
  lemma {:induction false} AnalyzeNothing(toks: seq<Token>, p: nat)
    requires p <= |toks|
    requires forall m :: p <= m < |toks| ==> toks[m].kind != Entity && toks[m].kind != Architecture
    ensures AnalyzeAt(toks, p).result == Ok(AnalyzeResult([], []))
    decreases |toks| - p
  {
    AnalyzeStep(toks, p);
    if At(toks, p).kind != Eof {
      AnalyzeNothing(toks, p + 1);
    }
  }
}
