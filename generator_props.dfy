/** Properties of the generated testbench: separators, port selection, the
    input hints, the processes that appear only with a clock or a reset, and
    the type rendering. */
module GeneratorProperties {
  import opened VhdlText
  import opened VhdlAnalyzer
  import opened TestbenchGenerator

  // ------------------------------------------------------------- separators

  /** Taking the first item off: it keeps its separator when more follow. */
  lemma SeparatedCons(items: seq<string>, sep: string)
    requires |items| >= 2
    ensures Separated(items, sep) == [items[0] + sep] + Separated(items[1..], sep)
  {
    var r, t := Separated(items, sep), Separated(items[1..], sep);
    assert forall i :: 1 <= i < |items| ==> r[i] == t[i - 1];
  }

  lemma UnlinesSingle(x: string)
    ensures Unlines([x]) == x + "\n"
  {
    UnlinesSnoc([], x);
    assert [] + [x] == [x];
  }

  lemma JoinLinesStep(a: string, sep: string, j: string)
    ensures ((a + sep) + "\n") + (j + "\n") == ((a + (sep + "\n")) + j) + "\n"
  {
    AppendAssoc(a, sep, "\n");
    AppendAssoc(a + (sep + "\n"), j, "\n");
  }

  /** Lines with a separator after all but the last are the items joined by
      the separator and a newline. */
  lemma {:induction false} SeparatedJoin(items: seq<string>, sep: string)
    requires |items| > 0
    ensures Unlines(Separated(items, sep)) == Join(items, sep + "\n") + "\n"
    decreases |items|
  {
    if |items| == 1 {
      assert items[0] + "" == items[0];
      assert Separated(items, sep) == [items[0]];
      UnlinesSingle(items[0]);
    } else {
      var rest := items[1..];
      SeparatedCons(items, sep);
      SeparatedJoin(rest, sep);
      UnlinesAppend([items[0] + sep], Separated(rest, sep));
      UnlinesSingle(items[0] + sep);
      JoinLinesStep(items[0], sep, Join(rest, sep + "\n"));
    }
  }

  /** Separated lines between other lines: the items joined by the separator
      and a newline. */
  lemma FramedLines(pre: seq<string>, items: seq<string>, sep: string, post: seq<string>)
    requires |items| > 0
    ensures Unlines(pre + Separated(items, sep) + post) ==
      Unlines(pre) + Join(items, sep + "\n") + "\n" + Unlines(post)
  {
    var sl := Separated(items, sep);
    UnlinesAppend(pre + sl, post);
    UnlinesAppend(pre, sl);
    SeparatedJoin(items, sep);
    AppendAssoc(Unlines(pre), Join(items, sep + "\n"), "\n");
  }

  lemma Regroup<T>(a: T, b: T, m: seq<T>, c: T, post: seq<T>)
    ensures [a] + ([b] + m + [c]) + post == [a, b] + m + ([c] + post)
  {
  }

  /** With ports, the component's port lines are the declarations joined by
      ";" and a newline; without ports there is no port clause. */
  lemma ComponentText(e: EntityDef)
    ensures e.ports == [] ==> ComponentLines(e) == ["    component " + e.name + " is", "    end component " + e.name + ";"]
    ensures e.ports != [] ==>
      Unlines(ComponentLines(e)) ==
        Unlines(["    component " + e.name + " is", "        port ("])
        + Join(ComponentItems(e.ports), ";\n") + "\n"
        + Unlines(["        );", "    end component " + e.name + ";"])
  {
    if e.ports != [] {
      var head, tail := "    component " + e.name + " is", "    end component " + e.name + ";";
      var sl := Separated(ComponentItems(e.ports), ";");
      Regroup(head, "        port (", sl, "        );", [tail]);
      assert ComponentLines(e) == [head] + (["        port ("] + sl + ["        );"]) + [tail];
      assert ["        );"] + [tail] == ["        );", tail];
      assert ";" + "\n" == ";\n";
      FramedLines([head, "        port ("], ComponentItems(e.ports), ";", ["        );", tail]);
    }
  }

  /** With ports, the port map associates each port with the signal of the
      same name, joined by "," and a newline; without ports the instance is
      closed by a lone ";". */
  lemma DutText(e: EntityDef)
    ensures e.ports == [] ==> DutLines(e) == ["    uut: " + e.name, "    ;"]
    ensures e.ports != [] ==>
      Unlines(DutLines(e)) ==
        Unlines(["    uut: " + e.name, "        port map ("])
        + Join(PortAssociations(e.ports), ",\n") + "\n"
        + Unlines(["        );"])
  {
    if e.ports != [] {
      var sl := Separated(PortAssociations(e.ports), ",");
      Regroup("    uut: " + e.name, "        port map (", sl, "        );", []);
      assert DutLines(e) == ["    uut: " + e.name] + (["        port map ("] + sl + ["        );"]);
      AppendEmpty(["    uut: " + e.name] + (["        port map ("] + sl + ["        );"]));
      AppendEmpty(["        );"]);
      assert "," + "\n" == ",\n";
      FramedLines(["    uut: " + e.name, "        port map ("], PortAssociations(e.ports), ",", ["        );"]);
    }
  }

  // --------------------------------------------------------- port selection

  /** `find` gives the name of the first port `pick` accepts, and nothing
      exactly when it accepts none. */
  lemma {:induction false} FindPortFirst(ports: seq<PortDef>, pick: PortDef -> bool)
    ensures FindPort(ports, pick).None? <==> forall i :: 0 <= i < |ports| ==> !pick(ports[i])
    ensures FindPort(ports, pick).Some? ==>
      exists i :: 0 <= i < |ports| && pick(ports[i]) && FindPort(ports, pick).value == ports[i].name &&
        forall j :: 0 <= j < i ==> !pick(ports[j])
    decreases |ports|
  {
    if ports != [] && !pick(ports[0]) {
      FindPortFirst(ports[1..], pick);
      if FindPort(ports, pick).Some? {
        var i :| 0 <= i < |ports[1..]| && pick(ports[1..][i]) && FindPort(ports[1..], pick).value == ports[1..][i].name &&
          forall j :: 0 <= j < i ==> !pick(ports[1..][j]);
        assert pick(ports[i + 1]) && forall j :: 0 <= j < i + 1 ==> !pick(ports[j]);
      }
    }
  }

  /** The clock is the first `in` port whose lower-cased name contains
      "clk"; there is none exactly when no port qualifies. */
  lemma FindClockPortFirst(ports: seq<PortDef>)
    ensures FindClockPort(ports).None? <==>
      forall i :: 0 <= i < |ports| ==> !(ports[i].direction == In && LowerContains(ports[i].name, "clk"))
    ensures FindClockPort(ports).Some? ==>
      exists i :: 0 <= i < |ports| && ports[i].direction == In && LowerContains(ports[i].name, "clk") &&
        FindClockPort(ports).value == ports[i].name &&
        forall j :: 0 <= j < i ==> !(ports[j].direction == In && LowerContains(ports[j].name, "clk"))
  {
    FindPortFirst(ports, IsClockCandidate);
  }

  /** The reset is the first `in` port whose lower-cased name contains "rst"
      or "reset"; there is none exactly when no port qualifies. */
  lemma FindResetPortFirst(ports: seq<PortDef>)
    ensures FindResetPort(ports).None? <==> forall i :: 0 <= i < |ports| ==> !IsResetCandidate(ports[i])
    ensures FindResetPort(ports).Some? ==>
      exists i :: 0 <= i < |ports| && ports[i].direction == In &&
        (LowerContains(ports[i].name, "rst") || LowerContains(ports[i].name, "reset")) &&
        FindResetPort(ports).value == ports[i].name &&
        forall j :: 0 <= j < i ==> !IsResetCandidate(ports[j])
  {
    FindPortFirst(ports, IsResetCandidate);
  }

  // ------------------------------------------------------------------ hints

  /** A port is hinted exactly when it is an `in` or `inout` port other than
      the chosen clock and reset. */
  lemma {:induction false} HintPortsMembers(ports: seq<PortDef>, clk: Option<string>, rst: Option<string>, p: PortDef)
    ensures p in HintPorts(ports, clk, rst) <==>
      p in ports && (p.direction == In || p.direction == Inout) && Some(p.name) != clk && Some(p.name) != rst
    decreases |ports|
  {
    if ports != [] {
      HintPortsMembers(ports[1..], clk, rst, p);
      assert ports == [ports[0]] + ports[1..];
    }
  }

  /** Filtering keeps the port order: the hints of a concatenation are the
      hints of its parts, in order. */
  lemma {:induction false} HintPortsAppend(a: seq<PortDef>, b: seq<PortDef>, clk: Option<string>, rst: Option<string>)
    ensures HintPorts(a + b, clk, rst) == HintPorts(a, clk, rst) + HintPorts(b, clk, rst)
    decreases |a|
  {
    if a == [] {
      assert a + b == b;
    } else {
      assert (a + b)[1..] == a[1..] + b;
      HintPortsAppend(a[1..], b, clk, rst);
      AppendAssoc(if IsHintPort(a[0], clk, rst) then [a[0]] else [], HintPorts(a[1..], clk, rst), HintPorts(b, clk, rst));
    }
  }

  // -------------------------------------------------------------- testbench

  /** The testbench entity is the entity's name with "_tb", and the text
      ends with the end of its architecture. */
  lemma TestbenchNaming(e: EntityDef, config: TbConfig)
    ensures var lines := TestbenchLines(e, config);
      && |lines| > 9
      && lines[4] == "entity " + e.name + "_tb is"
      && lines[5] == "end entity " + e.name + "_tb;"
      && lines[7] == "architecture testbench of " + e.name + "_tb is"
      && lines[|lines| - 1] == "end architecture testbench;"
  {
  }

  const ClockMarker: string := "    clk_process: process"

  const ResetMarker: string := "        -- リセット"

  /** A line that is neither the clock process marker nor the reset marker. */
  predicate NoMarker(l: string) {
    l != ClockMarker && l != ResetMarker
  }

  /** The lengths and a few characters that tell the markers from other lines. */
  lemma MarkerShape()
    ensures |ClockMarker| == 24 && ClockMarker[4] == 'c' && ClockMarker[5] == 'l'
    ensures |ResetMarker| == 15 && ResetMarker[4] == ' ' && ResetMarker[8] == '-' && ResetMarker[11] == 'リ'
  {
  }

  lemma PreambleHasNoMarker(tb: string)
    ensures forall l :: l in Preamble(tb) ==> NoMarker(l)
  {
    MarkerShape();
  }

  /** A line indented by twelve spaces is neither marker. */
  lemma IndentedHasNoMarker(x: string, sep: string)
    ensures NoMarker("            " + x + sep)
  {
    var l := "            " + x + sep;
    assert l[4] == ' ' && l[8] == ' ';
  }

  lemma ComponentHasNoMarker(e: EntityDef)
    ensures forall l :: l in ComponentLines(e) ==> NoMarker(l)
  {
    MarkerShape();
    var items := Separated(ComponentItems(e.ports), ";");
    forall l | l in items
      ensures NoMarker(l)
    {
      var i :| 0 <= i < |items| && items[i] == l;
      IndentedHasNoMarker(PortDeclaration(e.ports[i]), if i + 1 < |items| then ";" else "");
    }
  }

  lemma SignalsHaveNoMarker(ports: seq<PortDef>)
    ensures forall l :: l in SignalLines(ports) ==> NoMarker(l)
  {
    forall l | l in SignalLines(ports)
      ensures NoMarker(l)
    {
      var i :| 0 <= i < |ports| && SignalLines(ports)[i] == l;
      assert l[4] == 's' && l[5] == 'i';
    }
  }

  lemma DutHasNoMarker(e: EntityDef)
    ensures forall l :: l in DutLines(e) ==> NoMarker(l)
  {
    MarkerShape();
    var items := Separated(PortAssociations(e.ports), ",");
    forall l | l in items
      ensures NoMarker(l)
    {
      var i :| 0 <= i < |items| && items[i] == l;
      IndentedHasNoMarker(e.ports[i].name + " => " + e.ports[i].name, if i + 1 < |items| then "," else "");
    }
  }

  /** The clock process has the clock marker and never the reset marker. */
  lemma ClockSectionMarkers(clk: Option<string>, period: nat)
    ensures ClockMarker in ClockSection(clk, period) <==> clk.Some?
    ensures ResetMarker !in ClockSection(clk, period)
  {
    if clk.Some? {
      var lines := ClockLines(clk.value, period);
      assert ClockSection(clk, period)[1] == ClockMarker;
      assert |lines[3]| > 15 && |lines[5]| > 15;
      assert lines[4][8] == 'w' && lines[6][8] == 'w';
    }
  }

  /** Both waits of the clock process last half the period, rounded down,
      so together they make up the period, less one for an odd period. */
  lemma ClockHalfPeriod(clk: string, period: nat)
    ensures var l := ClockLines(clk, period);
      l[4] == l[6] &&
      exists half: nat {:trigger NatToString(half)} ::
        l[4] == "        wait for " + NatToString(half) + " ns;" && half + half <= period <= half + half + 1
  {
    var half := period / 2;
    assert ClockLines(clk, period)[4] == "        wait for " + NatToString(half) + " ns;";
  }

  lemma TypeDefaultValueNonEmpty(t: VhdlType)
    ensures |TypeDefaultValue(t)| >= 1
  {
  }

  /** The initial value depends only on the kind of type: a vector's bounds
      do not matter, and a type the analyzer does not know starts like a
      `std_logic`. */
  lemma TypeDefaultValueByKind(t: VhdlType, u: VhdlType)
    ensures t.StdLogicVector? && u.StdLogicVector? ==> TypeDefaultValue(t) == TypeDefaultValue(u)
    ensures t.Other? && u.StdLogic? ==> TypeDefaultValue(t) == TypeDefaultValue(u)
    ensures t.StdLogicVector? != u.StdLogicVector? ==> TypeDefaultValue(t) != TypeDefaultValue(u)
  {
  }

  /** A hint line is longer than the reset marker and indented where the
      clock marker is not. */
  lemma HintLineHasNoMarker(p: PortDef)
    ensures NoMarker(HintLine(p))
  {
    TypeDefaultValueNonEmpty(p.vhdlType);
    var l := "        -- " + p.name + " <= " + TypeDefaultValue(p.vhdlType) + ";";
    assert l == HintLine(p);
    assert |l| >= 17 && l[4] == ' ';
  }

  /** The input hints never carry a marker. */
  lemma HintSectionHasNoMarker(hints: seq<PortDef>, period: nat)
    ensures forall l :: l in HintSection(hints, period) ==> NoMarker(l)
  {
    if hints != [] {
      var w := "        -- wait for " + NatToString(period) + " ns;";
      assert |w| >= 25 && w[4] == ' ';
      forall l | l in HintLines(hints)
        ensures NoMarker(l)
      {
        var i :| 0 <= i < |hints| && HintLines(hints)[i] == l;
        HintLineHasNoMarker(hints[i]);
      }
      assert HintSection(hints, period) == ["        -- 入力信号の例:"] + HintLines(hints) + [w, ""];
    }
  }

  /** The reset pulse starts with the reset marker and has no other marker. */
  lemma ResetLinesMarkers(rst: Option<string>, period: nat)
    ensures ResetMarker in ResetLines(rst, period) <==> rst.Some?
    ensures ClockMarker !in ResetLines(rst, period)
  {
    if rst.Some? {
      assert ResetLines(rst, period)[0] == ResetMarker;
      forall l | l in ResetLines(rst, period)
        ensures l != ClockMarker
      {
        assert l == "" || l[4] == ' ';
      }
    }
  }

  /** The fixed lines of the stimulus carry no marker. */
  lemma StimulusFixedLines(period: nat)
    ensures ClockMarker !in StimulusHead && ResetMarker !in StimulusHead
    ensures ClockMarker !in StimulusTail && ResetMarker !in StimulusTail
    ensures var todo := ["        -- TODO: テストパターンを記述", "        wait for " + NatToString(period * 10) + " ns;", ""];
      ClockMarker !in todo && ResetMarker !in todo
  {
    var w := "        wait for " + NatToString(period * 10) + " ns;";
    assert w[8] == 'w';
  }

  /** The stimulus has the reset marker exactly when there is a reset, and
      never the clock marker. */
  lemma StimulusMarkers(ports: seq<PortDef>, clk: Option<string>, rst: Option<string>, period: nat)
    ensures ResetMarker in StimulusLines(ports, clk, rst, period) <==> rst.Some?
    ensures ClockMarker !in StimulusLines(ports, clk, rst, period)
  {
    var hints := HintPorts(ports, clk, rst);
    HintSectionHasNoMarker(hints, period);
    ResetLinesMarkers(rst, period);
    StimulusFixedLines(period);
  }

  /** The clock process appears exactly when a clock port was found. */
  lemma ClockProcessIffClockPort(e: EntityDef, config: TbConfig)
    ensures ClockMarker in TestbenchLines(e, config) <==> FindClockPort(e.ports).Some?
  {
    var clk := FindClockPort(e.ports);
    var rst := FindResetPort(e.ports);
    PreambleHasNoMarker(TestbenchName(e));
    ComponentHasNoMarker(e);
    SignalsHaveNoMarker(e.ports);
    DutHasNoMarker(e);
    ClockSectionMarkers(clk, config.clockPeriodNs);
    StimulusMarkers(e.ports, clk, rst, config.clockPeriodNs);
  }

  /** The reset pulse appears exactly when a reset port was found. */
  lemma ResetPulseIffResetPort(e: EntityDef, config: TbConfig)
    ensures ResetMarker in TestbenchLines(e, config) <==> FindResetPort(e.ports).Some?
  {
    var clk := FindClockPort(e.ports);
    var rst := FindResetPort(e.ports);
    PreambleHasNoMarker(TestbenchName(e));
    ComponentHasNoMarker(e);
    SignalsHaveNoMarker(e.ports);
    DutHasNoMarker(e);
    ClockSectionMarkers(clk, config.clockPeriodNs);
    StimulusMarkers(e.ports, clk, rst, config.clockPeriodNs);
  }

  // ------------------------------------------------------------------ types

  lemma IntToStringHasNoSpace(i: int)
    ensures forall k :: 0 <= k < |IntToString(i)| ==> IntToString(i)[k] != ' '
  {
    var d := NatToString(if i < 0 then -i else i);
    assert forall k :: 0 <= k < |d| ==> IsAsciiDigit(d[k]);
  }

  /** A word without spaces that is followed by a space is determined by the
      text it starts. */
  lemma WordBeforeSpace(a: string, r: string, a': string, r': string)
    requires a + r == a' + r'
    requires |r| > 0 && r[0] == ' ' && |r'| > 0 && r'[0] == ' '
    requires forall k :: 0 <= k < |a| ==> a[k] != ' '
    requires forall k :: 0 <= k < |a'| ==> a'[k] != ' '
    ensures a == a' && r == r'
  {
    assert a == (a + r)[..|a|];
    assert a' == (a' + r')[..|a'|];
    assert r == (a + r)[|a|..];
    assert r' == (a' + r')[|a'|..];
  }

  /** The two bounds can be read back from the text of a vector type. */
  lemma VectorTextParts(a: string, b: string, a': string, b': string)
    requires "std_logic_vector(" + a + " downto " + b + ")" == "std_logic_vector(" + a' + " downto " + b' + ")"
    requires forall k :: 0 <= k < |a| ==> a[k] != ' '
    requires forall k :: 0 <= k < |a'| ==> a'[k] != ' '
    ensures a == a' && b == b'
  {
    var p, m := "std_logic_vector(", " downto ";
    var s := p + a + m + b + ")";
    AppendAssoc(p + a, m + b, ")");
    AppendAssoc(p + a, m, b);
    AppendAssoc(p, a, m + b + ")");
    AppendAssoc(p + a', m + b', ")");
    AppendAssoc(p + a', m, b');
    AppendAssoc(p, a', m + b' + ")");
    assert s[17..] == a + (m + b + ")");
    assert s[17..] == a' + (m + b' + ")");
    WordBeforeSpace(a, m + b + ")", a', m + b' + ")");
    assert b + ")" == (m + b + ")")[8..];
    assert b' + ")" == (m + b' + ")")[8..];
    assert b == (b + ")")[..|b|];
    assert b' == (b' + ")")[..|b'|];
  }

  /** The rendering of a vector determines its bounds. */
  lemma VectorTextInjective(h: int, l: int, h': int, l': int)
    requires I64Min <= h <= I64Max && I64Min <= l <= I64Max
    requires I64Min <= h' <= I64Max && I64Min <= l' <= I64Max
    requires TypeToVhdl(VhdlType.StdLogicVector(h, l)) == TypeToVhdl(VhdlType.StdLogicVector(h', l'))
    ensures h == h' && l == l'
  {
    IntToStringHasNoSpace(h);
    IntToStringHasNoSpace(h');
    VectorTextParts(IntToString(h), IntToString(l), IntToString(h'), IntToString(l'));
    ParseI64OfIntToString(h);
    ParseI64OfIntToString(h');
    ParseI64OfIntToString(l);
    ParseI64OfIntToString(l');
  }

  /** Apart from `Other`, which is written as its own name, different types
      are written differently. */
  lemma TypeToVhdlInjective(t: VhdlType, u: VhdlType)
    requires !t.Other? && !u.Other?
    requires t.StdLogicVector? ==> I64Min <= t.high <= I64Max && I64Min <= t.low <= I64Max
    requires u.StdLogicVector? ==> I64Min <= u.high <= I64Max && I64Min <= u.low <= I64Max
    requires TypeToVhdl(t) == TypeToVhdl(u)
    ensures t == u
  {
    if t.StdLogicVector? && u.StdLogicVector? {
      VectorTextInjective(t.high, t.low, u.high, u.low);
    }
  }
}
