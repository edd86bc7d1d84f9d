/** The analyzer: a recursive-descent parser over the significant tokens
    (comments and Eof removed) that extracts entity declarations with their
    ports and architecture bodies with their signal declarations.

    Every parsing routine has a pure specification over the token sequence
    and a position (`EntityAt(toks, p)` and so on) that gives both the
    result and the position the cursor is left at, error or not. The
    `Analyzer` class is the cursor itself, and each of its methods is proved
    to return what its specification returns and to leave `pos` where it
    says. */
module VhdlAnalyzer {
  import opened VhdlText
  import opened VhdlLexer

  // ------------------------------------------------------------ data model

  datatype PortDirection = In | Out | Inout | Buffer

  /** A type reference; vector bounds are i64 values. */
  datatype VhdlType =
    | StdLogic
    | StdLogicVector(high: int, low: int)
    | Integer
    | Boolean
    | Other(name: string)

  datatype PortDef = PortDef(name: string, direction: PortDirection, vhdlType: VhdlType, span: Span)

  datatype SignalDef = SignalDef(name: string, vhdlType: VhdlType, defaultValue: Option<string>, span: Span)

  datatype EntityDef = EntityDef(name: string, ports: seq<PortDef>, span: Span)

  datatype ArchitectureDef = ArchitectureDef(name: string, entityName: string, signals: seq<SignalDef>, span: Span)

  datatype AnalyzeResult = AnalyzeResult(entities: seq<EntityDef>, architectures: seq<ArchitectureDef>)

  /** What an error reports; its rendering as text is not modelled. */
  datatype ErrorReason =
    | ExpectedToken(expected: TokenKind, foundKind: TokenKind, foundText: string)
    | ExpectedDirection(foundText: string)
    | ExpectedType(foundText: string)

  datatype AnalyzeError = AnalyzeError(reason: ErrorReason, span: Span)

  /** The outcome of a parsing routine and the position it leaves the cursor at. */
  datatype Parse<T> = Parse(result: Result<T, AnalyzeError>, pos: nat)

  // ---------------------------------------------------------------- tokens

  /** The token returned past the end of the token sequence. */
  const EofToken: Token := Token(Eof, Span(0, 0), "")

  predicate IsSignificant(t: Token) {
    t.kind != Comment && t.kind != Eof
  }

  /** The tokens `Analyzer::new` keeps: all but comments and Eof, in order. */
  function Significant(input: seq<Token>): (r: seq<Token>)
    ensures |r| <= |input|
    ensures forall k :: 0 <= k < |r| ==> IsSignificant(r[k])
  {
    if input == [] then []
    else (if IsSignificant(input[0]) then [input[0]] else []) + Significant(input[1..])
  }

  /** `current` at position `p` (`peek(offset)` is `At(toks, p + offset)`). */
  function At(toks: seq<Token>, p: nat): Token {
    if p < |toks| then toks[p] else EofToken
  }

  /** Position after `advance`: one on, but never past the end. */
  function Adv(toks: seq<Token>, p: nat): nat {
    if p < |toks| then p + 1 else p
  }

  // ------------------------------------------------------- cursor operations

  function ExpectAt(toks: seq<Token>, p: nat, kind: TokenKind): (r: Parse<Token>)
    requires p <= |toks|
    ensures p <= r.pos <= |toks|
    ensures r.result.Ok? && kind != Eof ==> r.pos == p + 1
  {
    var t := At(toks, p);
    if t.kind == kind then Parse(Ok(t), Adv(toks, p))
    else Parse(Err(AnalyzeError(ExpectedToken(kind, t.kind, t.text), t.span)), p)
  }

  function EatAt(toks: seq<Token>, p: nat, kind: TokenKind): (r: (bool, nat)) {
    if At(toks, p).kind == kind then (true, Adv(toks, p)) else (false, p)
  }

  /** Position of the first token at or after `p` whose kind is in `kinds`,
      stopping at the end. */
  function SkipUntilAt(toks: seq<Token>, p: nat, kinds: seq<TokenKind>): (q: nat)
    requires p <= |toks|
    ensures p <= q <= |toks|
    decreases |toks| - p
  {
    if At(toks, p).kind == Eof || At(toks, p).kind in kinds then p
    else SkipUntilAt(toks, p + 1, kinds)
  }

  // ------------------------------------------------------ result plumbing

  /** An error of one routine passed on by the routine that called it. */
  function Fail<T, U>(r: Parse<T>): Parse<U>
    requires r.result.Err?
  {
    Parse(Err(r.result.error), r.pos)
  }

  /** `xs` in front of the sequence a successful routine produced. */
  function PrefixSeq<T>(xs: seq<T>, r: Parse<seq<T>>): Parse<seq<T>> {
    match r.result
    case Ok(v) => Parse(Ok(xs + v), r.pos)
    case Err(_) => r
  }

  // -------------------------------------------------------------- entities

  function EntityAt(toks: seq<Token>, p: nat): (r: Parse<EntityDef>)
    requires p <= |toks|
    ensures p <= r.pos <= |toks|
    ensures r.result.Ok? ==> p < r.pos
  {
    var start := At(toks, p).span;
    var kw := ExpectAt(toks, p, Entity);
    if kw.result.Err? then Fail(kw) else
    var name := ExpectAt(toks, kw.pos, Identifier);
    if name.result.Err? then Fail(name) else
    var isKw := ExpectAt(toks, name.pos, Is);
    if isKw.result.Err? then Fail(isKw) else
    var ports := PortClauseAt(toks, isKw.pos);
    if ports.result.Err? then Fail(ports) else
    var q := SkipUntilAt(toks, ports.pos, [Semicolon]);
    Parse(Ok(EntityDef(name.result.value.text, ports.result.value, Span(start.start, At(toks, q).span.end))), Adv(toks, q))
  }

  /** The optional `port ( ... ) ;` clause of an entity. */
  function PortClauseAt(toks: seq<Token>, p: nat): (r: Parse<seq<PortDef>>)
    requires p <= |toks|
    ensures p <= r.pos <= |toks|
  {
    if At(toks, p).kind != Port then Parse(Ok([]), p) else
    var open := ExpectAt(toks, p + 1, LeftParen);
    if open.result.Err? then Fail(open) else
    var list := PortListAt(toks, open.pos);
    if list.result.Err? then list else
    var close := ExpectAt(toks, list.pos, RightParen);
    if close.result.Err? then Fail(close) else
    var semi := ExpectAt(toks, close.pos, Semicolon);
    if semi.result.Err? then Fail(semi) else
    Parse(Ok(list.result.value), semi.pos)
  }

  /** Port groups up to `)` or the end, each optionally followed by `;`. */
  function PortListAt(toks: seq<Token>, p: nat): (r: Parse<seq<PortDef>>)
    requires p <= |toks|
    ensures p <= r.pos <= |toks|
    decreases |toks| - p
  {
    if At(toks, p).kind == RightParen || At(toks, p).kind == Eof then Parse(Ok([]), p) else
    var group := PortGroupAt(toks, p);
    if group.result.Err? then group else
    var q := EatAt(toks, group.pos, Semicolon).1;
    PrefixSeq(group.result.value, PortListAt(toks, q))
  }

  /** `name {, name} : direction type`, one port per name. */
  function PortGroupAt(toks: seq<Token>, p: nat): (r: Parse<seq<PortDef>>)
    requires p <= |toks|
    ensures p <= r.pos <= |toks|
    ensures r.result.Ok? ==> p < r.pos
  {
    var span := At(toks, p).span;
    var first := ExpectAt(toks, p, Identifier);
    if first.result.Err? then Fail(first) else
    var more := MoreNamesAt(toks, first.pos);
    if more.result.Err? then Fail(more) else
    var colon := ExpectAt(toks, more.pos, Colon);
    if colon.result.Err? then Fail(colon) else
    var dir := DirectionAt(toks, colon.pos);
    if dir.result.Err? then Fail(dir) else
    var ty := TypeAt(toks, dir.pos);
    if ty.result.Err? then Fail(ty) else
    Parse(Ok(Expand([first.result.value.text] + more.result.value, dir.result.value, ty.result.value, span)), ty.pos)
  }

  /** The names after the first one of a group, each introduced by a comma. */
  function MoreNamesAt(toks: seq<Token>, p: nat): (r: Parse<seq<string>>)
    requires p <= |toks|
    ensures p <= r.pos <= |toks|
    decreases |toks| - p
  {
    if At(toks, p).kind != Comma then Parse(Ok([]), p) else
    var name := ExpectAt(toks, p + 1, Identifier);
    if name.result.Err? then Fail(name) else
    PrefixSeq([name.result.value.text], MoreNamesAt(toks, name.pos))
  }

  /** One port per name, in order, sharing direction, type and span. */
  function Expand(names: seq<string>, dir: PortDirection, ty: VhdlType, span: Span): (ports: seq<PortDef>) {
    seq(|names|, i requires 0 <= i < |names| => PortDef(names[i], dir, ty, span))
  }

  function DirectionAt(toks: seq<Token>, p: nat): (r: Parse<PortDirection>)
    requires p <= |toks|
    ensures p <= r.pos <= |toks|
  {
    var t := At(toks, p);
    match t.kind
    case In => Parse(Ok(PortDirection.In), Adv(toks, p))
    case Out => Parse(Ok(PortDirection.Out), Adv(toks, p))
    case Inout => Parse(Ok(PortDirection.Inout), Adv(toks, p))
    case Buffer => Parse(Ok(PortDirection.Buffer), Adv(toks, p))
    case _ => Parse(Err(AnalyzeError(ExpectedDirection(t.text), t.span)), p)
  }

  /** A vector bound: the number's text read as an i64, or 0 when it is not one. */
  function BoundOf(text: string): (b: int)
    ensures I64Min <= b <= I64Max
  {
    ParseI64(text).GetOr(0)
  }

  function TypeAt(toks: seq<Token>, p: nat): (r: Parse<VhdlType>)
    requires p <= |toks|
    ensures p <= r.pos <= |toks|
  {
    var t := At(toks, p);
    match t.kind
    case StdLogic => Parse(Ok(VhdlType.StdLogic), Adv(toks, p))
    case StdLogicVector => VectorRangeAt(toks, Adv(toks, p))
    case Integer => Parse(Ok(VhdlType.Integer), Adv(toks, p))
    case Boolean => Parse(Ok(VhdlType.Boolean), Adv(toks, p))
    case Identifier => Parse(Ok(Other(t.text)), Adv(toks, p))
    case _ => Parse(Err(AnalyzeError(ExpectedType(t.text), t.span)), p)
  }

  /** The optional `( high [downto | to] low )` after `std_logic_vector`. */
  function VectorRangeAt(toks: seq<Token>, p: nat): (r: Parse<VhdlType>)
    requires p <= |toks|
    ensures p <= r.pos <= |toks|
  {
    if At(toks, p).kind != LeftParen then Parse(Ok(VhdlType.StdLogicVector(0, 0)), p) else
    var high := ExpectAt(toks, p + 1, Number);
    if high.result.Err? then Fail(high) else
    var q := if At(toks, high.pos).kind == Downto || At(toks, high.pos).kind == To then Adv(toks, high.pos) else high.pos;
    var low := ExpectAt(toks, q, Number);
    if low.result.Err? then Fail(low) else
    var close := ExpectAt(toks, low.pos, RightParen);
    if close.result.Err? then Fail(close) else
    Parse(Ok(VhdlType.StdLogicVector(BoundOf(high.result.value.text), BoundOf(low.result.value.text))), close.pos)
  }

  // --------------------------------------------------------- architectures

  function ArchitectureAt(toks: seq<Token>, p: nat): (r: Parse<ArchitectureDef>)
    requires p <= |toks|
    ensures p <= r.pos <= |toks|
    ensures r.result.Ok? ==> p < r.pos
  {
    var start := At(toks, p).span;
    var head := ArchitectureHeadAt(toks, p);
    if head.result.Err? then Fail(head) else
    var decls := DeclarationsAt(toks, head.pos);
    if decls.result.Err? then Fail(decls) else
    var q := SkipEndArchitectureAt(toks, decls.pos);
    var end := LastSpanBefore(toks, q, start);
    Parse(Ok(ArchitectureDef(head.result.value.0, head.result.value.1, decls.result.value, Span(start.start, end.end))), q)
  }

  /** `architecture <name> of <entity> is`: the two names. */
  function ArchitectureHeadAt(toks: seq<Token>, p: nat): (r: Parse<(string, string)>)
    requires p <= |toks|
    ensures p <= r.pos <= |toks|
    ensures r.result.Ok? ==> p < r.pos
  {
    var kw := ExpectAt(toks, p, Architecture);
    if kw.result.Err? then Fail(kw) else
    var name := ExpectAt(toks, kw.pos, Identifier);
    if name.result.Err? then Fail(name) else
    var ofKw := ExpectAt(toks, name.pos, Of);
    if ofKw.result.Err? then Fail(ofKw) else
    var entity := ExpectAt(toks, ofKw.pos, Identifier);
    if entity.result.Err? then Fail(entity) else
    var isKw := ExpectAt(toks, entity.pos, Is);
    if isKw.result.Err? then Fail(isKw) else
    Parse(Ok((name.result.value.text, entity.result.value.text)), isKw.pos)
  }

  /** The span of the token before position `q` (`q.saturating_sub(1)`), or
      `default` when there is no such token. */
  function LastSpanBefore(toks: seq<Token>, q: nat, default: Span): Span {
    var k := if q >= 1 then q - 1 else 0;
    if k < |toks| then toks[k].span else default
  }

  /** The declarative part up to `begin` or the end: signal declarations are
      parsed, every other token is skipped. */
  function DeclarationsAt(toks: seq<Token>, p: nat): (r: Parse<seq<SignalDef>>)
    requires p <= |toks|
    ensures p <= r.pos <= |toks|
    decreases |toks| - p
  {
    var k := At(toks, p).kind;
    if k == Begin || k == Eof then Parse(Ok([]), p)
    else if k == Signal then
      var sig := SignalDeclAt(toks, p);
      if sig.result.Err? then Fail(sig) else
      PrefixSeq([sig.result.value], DeclarationsAt(toks, sig.pos))
    else DeclarationsAt(toks, p + 1)
  }

  /** Skips to just after `end architecture ... ;`, or to the end. */
  function SkipEndArchitectureAt(toks: seq<Token>, p: nat): (q: nat)
    requires p <= |toks|
    ensures p <= q <= |toks|
    decreases |toks| - p
  {
    if At(toks, p).kind == Eof then p
    else if At(toks, p).kind == End && At(toks, p + 1).kind == Architecture then
      Adv(toks, SkipUntilAt(toks, p, [Semicolon]))
    else SkipEndArchitectureAt(toks, p + 1)
  }

  function SignalDeclAt(toks: seq<Token>, p: nat): (r: Parse<SignalDef>)
    requires p <= |toks|
    ensures p <= r.pos <= |toks|
    ensures r.result.Ok? ==> p < r.pos
  {
    var start := At(toks, p).span;
    var kw := ExpectAt(toks, p, Signal);
    if kw.result.Err? then Fail(kw) else
    var name := ExpectAt(toks, kw.pos, Identifier);
    if name.result.Err? then Fail(name) else
    var colon := ExpectAt(toks, name.pos, Colon);
    if colon.result.Err? then Fail(colon) else
    var ty := TypeAt(toks, colon.pos);
    if ty.result.Err? then Fail(ty) else
    var dv := DefaultValueAt(toks, ty.pos);
    var end := At(toks, dv.1).span;
    var semi := ExpectAt(toks, dv.1, Semicolon);
    if semi.result.Err? then Fail(semi) else
    Parse(Ok(SignalDef(name.result.value.text, ty.result.value, dv.0, Span(start.start, end.end))), semi.pos)
  }

  /** The optional `:= value` of a signal declaration. */
  function DefaultValueAt(toks: seq<Token>, p: nat): (r: (Option<string>, nat))
    requires p <= |toks|
    ensures p <= r.1 <= |toks|
  {
    if At(toks, p).kind != Assignment then (None, p)
    else
      var parts := DefaultPartsAt(toks, p + 1);
      (Some(Join(parts.0, " ")), parts.1)
  }

  /** The texts of the tokens up to `;` or the end. */
  function DefaultPartsAt(toks: seq<Token>, p: nat): (r: (seq<string>, nat))
    requires p <= |toks|
    ensures p <= r.1 <= |toks|
    decreases |toks| - p
  {
    if At(toks, p).kind == Semicolon || At(toks, p).kind == Eof then ([], p)
    else
      var rest := DefaultPartsAt(toks, p + 1);
      ([toks[p].text] + rest.0, rest.1)
  }

  // ---------------------------------------------------------------- driver

  /** Entities and architectures in `r` with `es` and `archs` in front of them. */
  function PrefixResult(es: seq<EntityDef>, archs: seq<ArchitectureDef>, r: Parse<AnalyzeResult>): Parse<AnalyzeResult> {
    match r.result
    case Ok(v) => Parse(Ok(AnalyzeResult(es + v.entities, archs + v.architectures)), r.pos)
    case Err(_) => r
  }

  /** `analyze` from position `p`: entities and architectures in source
      order, every other token skipped, the first error ending the run. */
  function AnalyzeAt(toks: seq<Token>, p: nat): (r: Parse<AnalyzeResult>)
    requires p <= |toks|
    ensures p <= r.pos <= |toks|
    decreases |toks| - p
  {
    var k := At(toks, p).kind;
    if k == Eof then Parse(Ok(AnalyzeResult([], [])), p)
    else if k == Entity then
      var e := EntityAt(toks, p);
      if e.result.Err? then Fail(e) else
      PrefixResult([e.result.value], [], AnalyzeAt(toks, e.pos))
    else if k == Architecture then
      var a := ArchitectureAt(toks, p);
      if a.result.Err? then Fail(a) else
      PrefixResult([], [a.result.value], AnalyzeAt(toks, a.pos))
    else AnalyzeAt(toks, p + 1)
  }

  /** `analyze_vhdl`: the analysis of the tokens the lexer produced without
      error, comments removed. */
  function AnalyzeSource(source: string): Result<AnalyzeResult, AnalyzeError> {
    AnalyzeAt(Significant(OkTokens(Items(source, 0))), 0).result
  }

  // ---------------------------------------------------------------- cursor

  class Analyzer {
    const tokens: seq<Token>
    var pos: nat

    ghost predicate Valid()
      reads this
    {
      pos <= |tokens|
    }

    /** `Analyzer::new`: comments and Eof tokens are dropped. */
    constructor (input: seq<Token>)
      ensures Valid() && tokens == Significant(input) && pos == 0
    {
      tokens := Significant(input);
      pos := 0;
    }

    function Current(): (t: Token)
      reads this
    {
      At(tokens, pos)
    }

    function Peek(offset: nat): (t: Token)
      reads this
    {
      At(tokens, pos + offset)
    }

    method Advance()
      requires Valid()
      modifies this
      ensures Valid() && pos == Adv(tokens, old(pos))
    {
      if pos < |tokens| {
        pos := pos + 1;
      }
    }

    method Expect(kind: TokenKind) returns (r: Result<Token, AnalyzeError>)
      requires Valid()
      modifies this
      ensures Valid() && Parse(r, pos) == ExpectAt(tokens, old(pos), kind)
    {
      var token := Current();
      if token.kind == kind {
        Advance();
        r := Ok(token);
      } else {
        r := Err(AnalyzeError(ExpectedToken(kind, token.kind, token.text), token.span));
      }
    }

    method Eat(kind: TokenKind) returns (eaten: bool)
      requires Valid()
      modifies this
      ensures Valid() && (eaten, pos) == EatAt(tokens, old(pos), kind)
    {
      if Current().kind == kind {
        Advance();
        eaten := true;
      } else {
        eaten := false;
      }
    }

    method SkipUntil(kinds: seq<TokenKind>)
      requires Valid()
      modifies this
      ensures Valid() && pos == SkipUntilAt(tokens, old(pos), kinds)
    {
      while Current().kind != Eof
        invariant Valid() && old(pos) <= pos
        invariant SkipUntilAt(tokens, pos, kinds) == SkipUntilAt(tokens, old(pos), kinds)
        decreases |tokens| - pos
      {
        if Current().kind in kinds {
          return;
        }
        Advance();
      }
    }

    method ParseEntity() returns (r: Result<EntityDef, AnalyzeError>)
      requires Valid()
      modifies this
      ensures Valid() && Parse(r, pos) == EntityAt(tokens, old(pos))
    {
      var start := Current().span;
      var kw := Expect(Entity);
      if kw.Err? {
        return Err(kw.error);
      }
      var name := Expect(Identifier);
      if name.Err? {
        return Err(name.error);
      }
      var isKw := Expect(Is);
      if isKw.Err? {
        return Err(isKw.error);
      }
      ghost var clause := pos;
      var ports := [];
      if Current().kind == Port {
        Advance();
        var open := Expect(LeftParen);
        if open.Err? {
          return Err(open.error);
        }
        var list := ParsePortList();
        if list.Err? {
          return Err(list.error);
        }
        ports := list.value;
        var close := Expect(RightParen);
        if close.Err? {
          return Err(close.error);
        }
        var semi := Expect(Semicolon);
        if semi.Err? {
          return Err(semi.error);
        }
      }
      assert Parse(Ok(ports), pos) == PortClauseAt(tokens, clause);
      SkipUntil([Semicolon]);
      var end := Current().span;
      Advance();
      r := Ok(EntityDef(name.value.text, ports, Span(start.start, end.end)));
    }

    method ParsePortList() returns (r: Result<seq<PortDef>, AnalyzeError>)
      requires Valid()
      modifies this
      ensures Valid() && Parse(r, pos) == PortListAt(tokens, old(pos))
    {
      var ports := [];
      PrefixSeqEmpty(PortListAt(tokens, pos));
      while Current().kind != RightParen && Current().kind != Eof
        invariant Valid() && old(pos) <= pos
        invariant PortListAt(tokens, old(pos)) == PrefixSeq(ports, PortListAt(tokens, pos))
        decreases |tokens| - pos
      {
        ghost var before := pos;
        var group := ParsePortGroup();
        if group.Err? {
          return Err(group.error);
        }
        var _ := Eat(Semicolon);
        PrefixSeqAssoc(ports, group.value, PortListAt(tokens, pos));
        ports := ports + group.value;
      }
      assert PortListAt(tokens, pos) == Parse(Ok([]), pos);
      assert ports + [] == ports;
      r := Ok(ports);
    }

    method ParsePortGroup() returns (r: Result<seq<PortDef>, AnalyzeError>)
      requires Valid()
      modifies this
      ensures Valid() && Parse(r, pos) == PortGroupAt(tokens, old(pos))
    {
      var span := Current().span;
      var first := Expect(Identifier);
      if first.Err? {
        return Err(first.error);
      }
      ghost var namesStart := pos;
      var names := [first.value.text];
      assert names[1..] == [];
      PrefixSeqEmpty(MoreNamesAt(tokens, pos));
      while true
        invariant Valid() && namesStart <= pos && |names| >= 1 && names[0] == first.value.text
        invariant MoreNamesAt(tokens, namesStart) == PrefixSeq(names[1..], MoreNamesAt(tokens, pos))
        decreases |tokens| - pos
      {
        var more := Eat(Comma);
        if !more {
          break;
        }
        var name := Expect(Identifier);
        if name.Err? {
          return Err(name.error);
        }
        PrefixSeqAssoc(names[1..], [name.value.text], MoreNamesAt(tokens, pos));
        assert (names + [name.value.text])[1..] == names[1..] + [name.value.text];
        names := names + [name.value.text];
      }
      assert MoreNamesAt(tokens, pos) == Parse(Ok([]), pos);
      assert names[1..] + [] == names[1..];
      assert names == [first.value.text] + names[1..];
      var colon := Expect(Colon);
      if colon.Err? {
        return Err(colon.error);
      }
      var direction := ParseDirection();
      if direction.Err? {
        return Err(direction.error);
      }
      var vhdlType := ParseType();
      if vhdlType.Err? {
        return Err(vhdlType.error);
      }
      r := Ok(Expand(names, direction.value, vhdlType.value, span));
    }

    method ParseDirection() returns (r: Result<PortDirection, AnalyzeError>)
      requires Valid()
      modifies this
      ensures Valid() && Parse(r, pos) == DirectionAt(tokens, old(pos))
    {
      var token := Current();
      match token.kind {
        case In =>
          Advance();
          r := Ok(PortDirection.In);
        case Out =>
          Advance();
          r := Ok(PortDirection.Out);
        case Inout =>
          Advance();
          r := Ok(PortDirection.Inout);
        case Buffer =>
          Advance();
          r := Ok(PortDirection.Buffer);
        case _ =>
          r := Err(AnalyzeError(ExpectedDirection(token.text), token.span));
      }
    }

    method ParseType() returns (r: Result<VhdlType, AnalyzeError>)
      requires Valid()
      modifies this
      ensures Valid() && Parse(r, pos) == TypeAt(tokens, old(pos))
    {
      var token := Current();
      match token.kind {
        case StdLogic =>
          Advance();
          r := Ok(VhdlType.StdLogic);
        case StdLogicVector =>
          Advance();
          r := ParseVectorRange();
        case Integer =>
          Advance();
          r := Ok(VhdlType.Integer);
        case Boolean =>
          Advance();
          r := Ok(VhdlType.Boolean);
        case Identifier =>
          Advance();
          r := Ok(Other(token.text));
        case _ =>
          r := Err(AnalyzeError(ExpectedType(token.text), token.span));
      }
    }

    /** The part of `parse_type` after `std_logic_vector`. */
    method ParseVectorRange() returns (r: Result<VhdlType, AnalyzeError>)
      requires Valid()
      modifies this
      ensures Valid() && Parse(r, pos) == VectorRangeAt(tokens, old(pos))
    {
      if Current().kind != LeftParen {
        return Ok(VhdlType.StdLogicVector(0, 0));
      }
      Advance();
      var high := Expect(Number);
      if high.Err? {
        return Err(high.error);
      }
      if Current().kind == Downto || Current().kind == To {
        Advance();
      }
      var low := Expect(Number);
      if low.Err? {
        return Err(low.error);
      }
      var close := Expect(RightParen);
      if close.Err? {
        return Err(close.error);
      }
      r := Ok(VhdlType.StdLogicVector(ParseI64(high.value.text).GetOr(0), ParseI64(low.value.text).GetOr(0)));
    }

    method ParseArchitecture() returns (r: Result<ArchitectureDef, AnalyzeError>)
      requires Valid()
      modifies this
      ensures Valid() && Parse(r, pos) == ArchitectureAt(tokens, old(pos))
    {
      var start := Current().span;
      var names := ParseArchitectureHead();
      if names.Err? {
        return Err(names.error);
      }
      var signals := ParseDeclarations();
      if signals.Err? {
        return Err(signals.error);
      }
      SkipUntilEndArchitecture();
      var endPos := if pos >= 1 then pos - 1 else 0;
      var end := if endPos < |tokens| then tokens[endPos].span else start;
      r := Ok(ArchitectureDef(names.value.0, names.value.1, signals.value, Span(start.start, end.end)));
    }

    /** The opening of `parse_architecture`, up to `is`. */
    method ParseArchitectureHead() returns (r: Result<(string, string), AnalyzeError>)
      requires Valid()
      modifies this
      ensures Valid() && Parse(r, pos) == ArchitectureHeadAt(tokens, old(pos))
    {
      var kw := Expect(Architecture);
      if kw.Err? {
        return Err(kw.error);
      }
      var archName := Expect(Identifier);
      if archName.Err? {
        return Err(archName.error);
      }
      var ofKw := Expect(Of);
      if ofKw.Err? {
        return Err(ofKw.error);
      }
      var entityName := Expect(Identifier);
      if entityName.Err? {
        return Err(entityName.error);
      }
      var isKw := Expect(Is);
      if isKw.Err? {
        return Err(isKw.error);
      }
      r := Ok((archName.value.text, entityName.value.text));
    }

    /** The loop of `parse_architecture` over the declarative part. */
    method ParseDeclarations() returns (r: Result<seq<SignalDef>, AnalyzeError>)
      requires Valid()
      modifies this
      ensures Valid() && Parse(r, pos) == DeclarationsAt(tokens, old(pos))
    {
      var signals := [];
      PrefixSeqEmpty(DeclarationsAt(tokens, pos));
      while Current().kind != Begin && Current().kind != Eof
        invariant Valid() && old(pos) <= pos
        invariant DeclarationsAt(tokens, old(pos)) == PrefixSeq(signals, DeclarationsAt(tokens, pos))
        decreases |tokens| - pos
      {
        ghost var before := pos;
        if Current().kind == Signal {
          var signal := ParseSignalDecl();
          if signal.Err? {
            return Err(signal.error);
          }
          assert DeclarationsAt(tokens, before) == PrefixSeq([signal.value], DeclarationsAt(tokens, pos));
          PrefixSeqAssoc(signals, [signal.value], DeclarationsAt(tokens, pos));
          signals := signals + [signal.value];
        } else {
          Advance();
        }
      }
      assert signals + [] == signals;
      r := Ok(signals);
    }

    method SkipUntilEndArchitecture()
      requires Valid()
      modifies this
      ensures Valid() && pos == SkipEndArchitectureAt(tokens, old(pos))
    {
      while Current().kind != Eof
        invariant Valid() && old(pos) <= pos
        invariant SkipEndArchitectureAt(tokens, pos) == SkipEndArchitectureAt(tokens, old(pos))
        decreases |tokens| - pos
      {
        if Current().kind == End && Peek(1).kind == Architecture {
          SkipUntil([Semicolon]);
          Advance();
          return;
        }
        Advance();
      }
    }

    method ParseSignalDecl() returns (r: Result<SignalDef, AnalyzeError>)
      requires Valid()
      modifies this
      ensures Valid() && Parse(r, pos) == SignalDeclAt(tokens, old(pos))
    {
      var start := Current().span;
      var kw := Expect(Signal);
      if kw.Err? {
        return Err(kw.error);
      }
      var name := Expect(Identifier);
      if name.Err? {
        return Err(name.error);
      }
      var colon := Expect(Colon);
      if colon.Err? {
        return Err(colon.error);
      }
      var vhdlType := ParseType();
      if vhdlType.Err? {
        return Err(vhdlType.error);
      }
      ghost var valueStart := pos;
      var defaultValue := None;
      if Current().kind == Assignment {
        Advance();
        var value := ParseDefaultValue();
        defaultValue := Some(value);
      }
      assert (defaultValue, pos) == DefaultValueAt(tokens, valueStart);
      var end := Current().span;
      var semi := Expect(Semicolon);
      if semi.Err? {
        return Err(semi.error);
      }
      r := Ok(SignalDef(name.value.text, vhdlType.value, defaultValue, Span(start.start, end.end)));
    }

    method ParseDefaultValue() returns (value: string)
      requires Valid()
      modifies this
      ensures Valid() && (value, pos) == (Join(DefaultPartsAt(tokens, old(pos)).0, " "), DefaultPartsAt(tokens, old(pos)).1)
    {
      var parts := [];
      assert [] + DefaultPartsAt(tokens, pos).0 == DefaultPartsAt(tokens, pos).0;
      while Current().kind != Semicolon && Current().kind != Eof
        invariant Valid() && old(pos) <= pos
        invariant DefaultPartsAt(tokens, old(pos)) == (parts + DefaultPartsAt(tokens, pos).0, DefaultPartsAt(tokens, pos).1)
        decreases |tokens| - pos
      {
        AppendAssoc(parts, [Current().text], DefaultPartsAt(tokens, pos + 1).0);
        parts := parts + [Current().text];
        Advance();
      }
      assert parts + [] == parts;
      value := Join(parts, " ");
    }

    /** `analyze`. */
    method Analyze() returns (r: Result<AnalyzeResult, AnalyzeError>)
      requires Valid()
      modifies this
      ensures Valid() && Parse(r, pos) == AnalyzeAt(tokens, old(pos))
    {
      var entities := [];
      var architectures := [];
      PrefixResultEmpty(AnalyzeAt(tokens, pos));
      while Current().kind != Eof
        invariant Valid() && old(pos) <= pos
        invariant AnalyzeAt(tokens, old(pos)) == PrefixResult(entities, architectures, AnalyzeAt(tokens, pos))
        decreases |tokens| - pos
      {
        ghost var before := pos;
        var kind := Current().kind;
        if kind == Entity {
          var entity := ParseEntity();
          if entity.Err? {
            return Err(entity.error);
          }
          assert AnalyzeAt(tokens, before) == PrefixResult([entity.value], [], AnalyzeAt(tokens, pos));
          PrefixResultAssoc(entities, [entity.value], architectures, [], AnalyzeAt(tokens, pos));
          assert architectures + [] == architectures;
          entities := entities + [entity.value];
        } else if kind == Architecture {
          var arch := ParseArchitecture();
          if arch.Err? {
            return Err(arch.error);
          }
          assert AnalyzeAt(tokens, before) == PrefixResult([], [arch.value], AnalyzeAt(tokens, pos));
          PrefixResultAssoc(entities, [], architectures, [arch.value], AnalyzeAt(tokens, pos));
          assert entities + [] == entities;
          architectures := architectures + [arch.value];
        } else {
          Advance();
        }
      }
      assert entities + [] == entities && architectures + [] == architectures;
      r := Ok(AnalyzeResult(entities, architectures));
    }
  }

  lemma PrefixSeqEmpty<T>(r: Parse<seq<T>>)
    ensures PrefixSeq([], r) == r
  {
    if r.result.Ok? {
      assert [] + r.result.value == r.result.value;
    }
  }

  lemma PrefixSeqAssoc<T>(xs: seq<T>, ys: seq<T>, r: Parse<seq<T>>)
    ensures PrefixSeq(xs, PrefixSeq(ys, r)) == PrefixSeq(xs + ys, r)
  {
    if r.result.Ok? {
      AppendAssoc(xs, ys, r.result.value);
    }
  }

  lemma PrefixResultEmpty(r: Parse<AnalyzeResult>)
    ensures PrefixResult([], [], r) == r
  {
    if r.result.Ok? {
      assert [] + r.result.value.entities == r.result.value.entities;
      assert [] + r.result.value.architectures == r.result.value.architectures;
    }
  }

  lemma PrefixResultAssoc(es: seq<EntityDef>, es': seq<EntityDef>, archs: seq<ArchitectureDef>, archs': seq<ArchitectureDef>, r: Parse<AnalyzeResult>)
    ensures PrefixResult(es, archs, PrefixResult(es', archs', r)) == PrefixResult(es + es', archs + archs', r)
  {
    if r.result.Ok? {
      AppendAssoc(es, es', r.result.value.entities);
      AppendAssoc(archs, archs', r.result.value.architectures);
    }
  }

  /** `analyze_vhdl`: lex, keep the tokens lexed without error, drop comments
      and analyze. */
  method AnalyzeVhdl(source: string) returns (r: Result<AnalyzeResult, AnalyzeError>)
    ensures r == AnalyzeSource(source)
  {
    var tokens := LexOkTokens(source);
    var analyzer := new Analyzer(tokens);
    r := analyzer.Analyze();
  }
}
