/** The testbench generator: from an entity's ports it writes a VHDL
    testbench with a component declaration, one signal per port, the
    instance of the design under test, a clock process when there is a clock
    input, and a stimulus process with an optional reset pulse and hints for
    the other inputs.

    Every piece of text is specified as the list of lines it consists of;
    `Unlines` turns such a list into the text, each line ended by "\n". The
    methods build their text by appending, as the generator does, and are
    proved to produce exactly those lines. */
module TestbenchGenerator {
  import opened VhdlText
  import opened VhdlAnalyzer

  /** Generator settings: the clock period in nanoseconds (a u64). */
  datatype TbConfig = TbConfig(clockPeriodNs: nat)

  const DefaultConfig: TbConfig := TbConfig(10)

  const U64Max: nat := 0xFFFF_FFFF_FFFF_FFFF

  /** The stimulus prints `period * 2` and `period * 10`; both must fit a u64. */
  predicate PeriodFits(period: nat) {
    period * 10 <= U64Max
  }

  // ------------------------------------------------------------------ lines

  /** The text made of `lines`, each followed by a newline. */
  function Unlines(lines: seq<string>): string
    decreases |lines|
  {
    if lines == [] then ""
    else Unlines(lines[..|lines| - 1]) + lines[|lines| - 1] + "\n"
  }

  /** Appending one line to the text is appending it to the lines. */
  lemma UnlinesSnoc(lines: seq<string>, line: string)
    ensures Unlines(lines + [line]) == Unlines(lines) + line + "\n"
  {
    assert (lines + [line])[..|lines|] == lines;
  }

  lemma {:induction false} UnlinesAppend(a: seq<string>, b: seq<string>)
    ensures Unlines(a + b) == Unlines(a) + Unlines(b)
    decreases |b|
  {
    if b == [] {
      assert a + b == a;
    } else {
      var init := b[..|b| - 1];
      var last := b[|b| - 1];
      assert b == init + [last];
      assert a + b == (a + init) + [last];
      UnlinesAppend(a, init);
      UnlinesSnoc(a + init, last);
      UnlinesSnoc(init, last);
      AppendAssoc(Unlines(a), Unlines(init), last);
      AppendAssoc(Unlines(a), Unlines(init) + last, "\n");
    }
  }

  /** Every item followed by `sep` except the last (`if i + 1 < len`). */
  function Separated(items: seq<string>, sep: string): (r: seq<string>)
    ensures |r| == |items|
  {
    seq(|items|, i requires 0 <= i < |items| => items[i] + (if i + 1 < |items| then sep else ""))
  }

  // ------------------------------------------------------------------ types

  /** `type_to_vhdl`: a vector is always written `downto`, high bound first. */
  function TypeToVhdl(t: VhdlType): string {
    match t
    case StdLogic => "std_logic"
    case StdLogicVector(high, low) => "std_logic_vector(" + IntToString(high) + " downto " + IntToString(low) + ")"
    case Integer => "integer"
    case Boolean => "boolean"
    case Other(name) => name
  }

  /** `type_default_value`: the initial value of a signal of type `t`. */
  function TypeDefaultValue(t: VhdlType): string {
    match t
    case StdLogic => "'0'"
    case StdLogicVector(_, _) => "(others => '0')"
    case Integer => "0"
    case Boolean => "false"
    case Other(_) => "'0'"
  }

  function DirectionKeyword(d: PortDirection): string {
    match d
    case In => "in"
    case Out => "out"
    case Inout => "inout"
    case Buffer => "buffer"
  }

  // ------------------------------------------------------- clock and reset

  /** Whether `pat` occurs in `name` once it is lower-cased. */
  predicate LowerContains(name: string, pat: string) {
    Contains(Lower(name), pat)
  }

  predicate IsClockCandidate(p: PortDef) {
    p.direction == In && LowerContains(p.name, "clk")
  }

  predicate IsResetCandidate(p: PortDef) {
    p.direction == In && (LowerContains(p.name, "rst") || LowerContains(p.name, "reset"))
  }

  /** The name of the first port `pick` accepts (`iter().find(..).map(name)`). */
  function FindPort(ports: seq<PortDef>, pick: PortDef -> bool): Option<string> {
    if ports == [] then None
    else if pick(ports[0]) then Some(ports[0].name)
    else FindPort(ports[1..], pick)
  }

  /** `find_clock_port`. */
  function FindClockPort(ports: seq<PortDef>): Option<string> {
    FindPort(ports, IsClockCandidate)
  }

  /** `find_reset_port`. */
  function FindResetPort(ports: seq<PortDef>): Option<string> {
    FindPort(ports, IsResetCandidate)
  }

  // -------------------------------------------------------------- component

  function PortDeclaration(p: PortDef): string {
    p.name + " : " + DirectionKeyword(p.direction) + " " + TypeToVhdl(p.vhdlType)
  }

  /** The port lines of the component, before their separators. */
  function ComponentItems(ports: seq<PortDef>): (r: seq<string>)
    ensures |r| == |ports|
  {
    seq(|ports|, i requires 0 <= i < |ports| => "            " + PortDeclaration(ports[i]))
  }

  function ComponentLines(e: EntityDef): seq<string> {
    ["    component " + e.name + " is"]
    + (if e.ports == [] then []
       else ["        port ("] + Separated(ComponentItems(e.ports), ";") + ["        );"])
    + ["    end component " + e.name + ";"]
  }

  /** `gen_component`. */
  method GenComponent(e: EntityDef) returns (s: string)
    ensures s == Unlines(ComponentLines(e))
  {
    var head := "    component " + e.name + " is";
    var tail := "    end component " + e.name + ";";
    s := "";
    s := s + head + "\n";
    UnlinesSnoc([], head);
    ghost var lines := [head];
    if |e.ports| > 0 {
      ghost var items := Separated(ComponentItems(e.ports), ";");
      s := s + "        port (" + "\n";
      UnlinesSnoc(lines, "        port (");
      lines := lines + ["        port ("];
      var i := 0;
      while i < |e.ports|
        invariant 0 <= i <= |e.ports|
        invariant s == Unlines(lines + items[..i])
      {
        var port := e.ports[i];
        var sep := if i + 1 < |e.ports| then ";" else "";
        var line := "            " + PortDeclaration(port) + sep;
        PrefixSnoc(lines, items, i);
        UnlinesSnoc(lines + items[..i], line);
        s := s + line + "\n";
        i := i + 1;
      }
      TakeAll(items, i);
      s := s + "        );" + "\n";
      UnlinesSnoc(lines + items, "        );");
      AppendAssoc([head], ["        port ("], items);
      AppendAssoc([head], ["        port ("] + items, ["        );"]);
      lines := lines + items + ["        );"];
    } else {
      assert lines == [head] + [];
    }
    s := s + tail + "\n";
    UnlinesSnoc(lines, tail);
    assert lines + [tail] == ComponentLines(e);
  }

  // ---------------------------------------------------------------- signals

  function SignalDeclaration(p: PortDef): string {
    "    signal " + p.name + " : " + TypeToVhdl(p.vhdlType) + " := " + TypeDefaultValue(p.vhdlType) + ";"
  }

  function SignalLines(ports: seq<PortDef>): (r: seq<string>)
    ensures |r| == |ports|
  {
    seq(|ports|, i requires 0 <= i < |ports| => SignalDeclaration(ports[i]))
  }

  /** `gen_signals`. */
  method GenSignals(ports: seq<PortDef>) returns (s: string)
    ensures s == Unlines(SignalLines(ports))
  {
    ghost var lines := SignalLines(ports);
    s := "";
    for i := 0 to |ports|
      invariant s == Unlines(lines[..i])
    {
      var port := ports[i];
      var line := "    signal " + port.name + " : " + TypeToVhdl(port.vhdlType) + " := " + TypeDefaultValue(port.vhdlType) + ";";
      assert line == lines[i];
      UnlinesSnoc(lines[..i], line);
      assert lines[..i + 1] == lines[..i] + [line];
      s := s + line + "\n";
    }
    assert lines[..|ports|] == lines;
  }

  // ----------------------------------------------------------- DUT instance

  function PortAssociations(ports: seq<PortDef>): (r: seq<string>)
    ensures |r| == |ports|
  {
    seq(|ports|, i requires 0 <= i < |ports| => "            " + ports[i].name + " => " + ports[i].name)
  }

  function DutLines(e: EntityDef): seq<string> {
    ["    uut: " + e.name]
    + (if e.ports == [] then ["    ;"]
       else ["        port map ("] + Separated(PortAssociations(e.ports), ",") + ["        );"])
  }

  /** `gen_dut_instance`. */
  method GenDutInstance(e: EntityDef) returns (s: string)
    ensures s == Unlines(DutLines(e))
  {
    var head := "    uut: " + e.name;
    s := "";
    s := s + head + "\n";
    UnlinesSnoc([], head);
    ghost var lines := [head];
    if |e.ports| > 0 {
      ghost var items := Separated(PortAssociations(e.ports), ",");
      s := s + "        port map (" + "\n";
      UnlinesSnoc(lines, "        port map (");
      lines := lines + ["        port map ("];
      var i := 0;
      while i < |e.ports|
        invariant 0 <= i <= |e.ports|
        invariant s == Unlines(lines + items[..i])
      {
        var port := e.ports[i];
        var sep := if i + 1 < |e.ports| then "," else "";
        var line := "            " + port.name + " => " + port.name + sep;
        PrefixSnoc(lines, items, i);
        UnlinesSnoc(lines + items[..i], line);
        s := s + line + "\n";
        i := i + 1;
      }
      TakeAll(items, i);
      s := s + "        );" + "\n";
      UnlinesSnoc(lines + items, "        );");
      AppendAssoc([head], ["        port map ("], items);
      AppendAssoc([head], ["        port map ("] + items, ["        );"]);
    } else {
      s := s + "    ;" + "\n";
      UnlinesSnoc(lines, "    ;");
    }
  }

  // ------------------------------------------------------------------ clock

  function ClockLines(clk: string, period: nat): seq<string> {
    var half := NatToString(period / 2);
    [ "    -- クロック生成 (周期 " + NatToString(period) + " ns)",
      "    clk_process: process",
      "    begin",
      "        " + clk + " <= '0';",
      "        wait for " + half + " ns;",
      "        " + clk + " <= '1';",
      "        wait for " + half + " ns;",
      "    end process clk_process;" ]
  }

  /** `gen_clock_process`. */
  method GenClockProcess(clk: string, period: nat) returns (s: string)
    ensures s == Unlines(ClockLines(clk, period))
  {
    var half := period / 2;
    ghost var lines: seq<string> := [];
    s := "";
    var line := "    -- クロック生成 (周期 " + NatToString(period) + " ns)";
    UnlinesSnoc(lines, line);
    s, lines := s + line + "\n", lines + [line];
    line := "    clk_process: process";
    UnlinesSnoc(lines, line);
    s, lines := s + line + "\n", lines + [line];
    line := "    begin";
    UnlinesSnoc(lines, line);
    s, lines := s + line + "\n", lines + [line];
    line := "        " + clk + " <= '0';";
    UnlinesSnoc(lines, line);
    s, lines := s + line + "\n", lines + [line];
    line := "        wait for " + NatToString(half) + " ns;";
    UnlinesSnoc(lines, line);
    s, lines := s + line + "\n", lines + [line];
    line := "        " + clk + " <= '1';";
    UnlinesSnoc(lines, line);
    s, lines := s + line + "\n", lines + [line];
    line := "        wait for " + NatToString(half) + " ns;";
    UnlinesSnoc(lines, line);
    s, lines := s + line + "\n", lines + [line];
    line := "    end process clk_process;";
    UnlinesSnoc(lines, line);
    s, lines := s + line + "\n", lines + [line];
    assert lines == ClockLines(clk, period);
  }

  // --------------------------------------------------------------- stimulus

  /** An input worth a hint: `in` or `inout`, and neither the chosen clock
      nor the chosen reset (a missing one excludes nothing). */
  predicate IsHintPort(p: PortDef, clk: Option<string>, rst: Option<string>) {
    (p.direction == In || p.direction == Inout) && Some(p.name) != clk && Some(p.name) != rst
  }

  /** The ports the stimulus lists as hints, in port order. */
  function HintPorts(ports: seq<PortDef>, clk: Option<string>, rst: Option<string>): (r: seq<PortDef>)
    ensures |r| <= |ports|
  {
    if ports == [] then []
    else (if IsHintPort(ports[0], clk, rst) then [ports[0]] else []) + HintPorts(ports[1..], clk, rst)
  }

  function ResetLines(rst: Option<string>, period: nat): seq<string> {
    match rst
    case None => []
    case Some(r) =>
      [ "        -- リセット",
        "        " + r + " <= '1';",
        "        wait for " + NatToString(period * 2) + " ns;",
        "        " + r + " <= '0';",
        "        wait for " + NatToString(period * 2) + " ns;",
        "" ]
  }

  function HintLine(p: PortDef): string {
    "        -- " + p.name + " <= " + TypeDefaultValue(p.vhdlType) + ";"
  }

  function HintLines(hints: seq<PortDef>): (r: seq<string>)
    ensures |r| == |hints|
  {
    seq(|hints|, i requires 0 <= i < |hints| => HintLine(hints[i]))
  }

  function HintSection(hints: seq<PortDef>, period: nat): seq<string> {
    if hints == [] then []
    else ["        -- 入力信号の例:"] + HintLines(hints) + ["        -- wait for " + NatToString(period) + " ns;", ""]
  }

  const StimulusHead: seq<string> := ["    -- テストシナリオ", "    stim_process: process", "    begin"]

  const StimulusTail: seq<string> :=
    [ "        -- シミュレーション終了",
      "        assert false report \"Simulation finished\" severity note;",
      "        wait;",
      "    end process stim_process;" ]

  function StimulusLines(ports: seq<PortDef>, clk: Option<string>, rst: Option<string>, period: nat): seq<string> {
    StimulusHead
    + ResetLines(rst, period)
    + ["        -- TODO: テストパターンを記述", "        wait for " + NatToString(period * 10) + " ns;", ""]
    + HintSection(HintPorts(ports, clk, rst), period)
    + StimulusTail
  }

  /** Appends `line` and a newline to the text of `lines`. */
  method PushLine(s: string, ghost lines: seq<string>, line: string) returns (s': string, ghost lines': seq<string>)
    requires s == Unlines(lines)
    ensures lines' == lines + [line] && s' == Unlines(lines')
  {
    UnlinesSnoc(lines, line);
    s', lines' := s + line + "\n", lines + [line];
  }

  /** The reset pulse of `gen_stimulus_process`, when there is a reset port. */
  method PushResetPulse(s: string, ghost lines: seq<string>, rst: Option<string>, period: nat)
    returns (s': string, ghost lines': seq<string>)
    requires s == Unlines(lines) && PeriodFits(period)
    ensures lines' == lines + ResetLines(rst, period) && s' == Unlines(lines')
  {
    s', lines' := s, lines;
    if rst.Some? {
      var r := rst.value;
      var wait := "        wait for " + NatToString(period * 2) + " ns;";
      s', lines' := PushLine(s', lines', "        -- リセット");
      s', lines' := PushLine(s', lines', "        " + r + " <= '1';");
      s', lines' := PushLine(s', lines', wait);
      s', lines' := PushLine(s', lines', "        " + r + " <= '0';");
      s', lines' := PushLine(s', lines', wait);
      s', lines' := PushLine(s', lines', "");
      Snoc6(lines, "        -- リセット", "        " + r + " <= '1';", wait, "        " + r + " <= '0';", wait, "");
    } else {
      AppendEmpty(lines);
    }
  }

  /** The input hints of `gen_stimulus_process`, when there are any. */
  method PushHints(s: string, ghost lines: seq<string>, inputPorts: seq<PortDef>, period: nat)
    returns (s': string, ghost lines': seq<string>)
    requires s == Unlines(lines)
    ensures lines' == lines + HintSection(inputPorts, period) && s' == Unlines(lines')
  {
    s', lines' := s, lines;
    ghost var hints := HintLines(inputPorts);
    if |inputPorts| > 0 {
      var intro := "        -- 入力信号の例:";
      s', lines' := PushLine(s', lines', intro);
      ghost var before := lines';
      for i := 0 to |inputPorts|
        invariant lines' == before + hints[..i]
        invariant s' == Unlines(lines')
      {
        var port := inputPorts[i];
        PrefixSnoc(before, hints, i);
        s', lines' := PushLine(s', lines', "        -- " + port.name + " <= " + TypeDefaultValue(port.vhdlType) + ";");
      }
      TakeAll(hints, |inputPorts|);
      var shortWait := "        -- wait for " + NatToString(period) + " ns;";
      s', lines' := PushLine(s', lines', shortWait);
      s', lines' := PushLine(s', lines', "");
      Snoc2(before + hints, shortWait, "");
      AppendAssoc(lines, [intro], hints);
      AppendAssoc(lines, [intro] + hints, [shortWait, ""]);
    } else {
      AppendEmpty(lines);
    }
  }

  /** `gen_stimulus_process`. */
  method GenStimulusProcess(ports: seq<PortDef>, clk: Option<string>, rst: Option<string>, period: nat) returns (s: string)
    requires PeriodFits(period)
    ensures s == Unlines(StimulusLines(ports, clk, rst, period))
  {
    ghost var lines: seq<string> := [];
    s := "";
    s, lines := PushLine(s, lines, "    -- テストシナリオ");
    s, lines := PushLine(s, lines, "    stim_process: process");
    s, lines := PushLine(s, lines, "    begin");
    Snoc3([], "    -- テストシナリオ", "    stim_process: process", "    begin");
    AppendEmpty(StimulusHead);

    s, lines := PushResetPulse(s, lines, rst, period);
    ghost var mark := lines;

    var todo := "        -- TODO: テストパターンを記述";
    var longWait := "        wait for " + NatToString(period * 10) + " ns;";
    s, lines := PushLine(s, lines, todo);
    s, lines := PushLine(s, lines, longWait);
    s, lines := PushLine(s, lines, "");
    Snoc3(mark, todo, longWait, "");

    var inputPorts := HintPorts(ports, clk, rst);
    s, lines := PushHints(s, lines, inputPorts, period);
    mark := lines;

    s, lines := PushLine(s, lines, "        -- シミュレーション終了");
    s, lines := PushLine(s, lines, "        assert false report \"Simulation finished\" severity note;");
    s, lines := PushLine(s, lines, "        wait;");
    s, lines := PushLine(s, lines, "    end process stim_process;");
    Snoc4(mark, "        -- シミュレーション終了", "        assert false report \"Simulation finished\" severity note;",
      "        wait;", "    end process stim_process;");
  }

  // -------------------------------------------------------------- testbench

  function TestbenchName(e: EntityDef): string {
    e.name + "_tb"
  }

  function Preamble(tb: string): seq<string> {
    [ "library ieee;", "use ieee.std_logic_1164.all;", "use ieee.numeric_std.all;", "",
      "entity " + tb + " is", "end entity " + tb + ";", "",
      "architecture testbench of " + tb + " is", "" ]
  }

  function ClockSection(clk: Option<string>, period: nat): seq<string> {
    match clk
    case None => []
    case Some(c) => ClockLines(c, period) + [""]
  }

  /** The lines of the whole testbench for `e`. */
  function TestbenchLines(e: EntityDef, config: TbConfig): seq<string> {
    Preamble(TestbenchName(e)) + TestbenchBody(e, config)
  }

  /** Everything after the preamble: declarations, then the statements. */
  function TestbenchBody(e: EntityDef, config: TbConfig): seq<string> {
    var clk := FindClockPort(e.ports);
    var rst := FindResetPort(e.ports);
    ComponentLines(e) + [""]
    + SignalLines(e.ports) + [""]
    + ["begin", ""]
    + DutLines(e) + [""]
    + ClockSection(clk, config.clockPeriodNs)
    + StimulusLines(e.ports, clk, rst, config.clockPeriodNs) + [""]
    + ["end architecture testbench;"]
  }

  /** Appends a whole piece of text whose lines are `piece`. */
  method PushText(s: string, ghost lines: seq<string>, text: string, ghost piece: seq<string>) returns (s': string, ghost lines': seq<string>)
    requires s == Unlines(lines) && text == Unlines(piece)
    ensures lines' == lines + piece && s' == Unlines(lines')
  {
    UnlinesAppend(lines, piece);
    s', lines' := s + text, lines + piece;
  }

  /** The library clauses and the empty testbench entity that open the
      testbench. */
  method PushPreamble(tbName: string) returns (out: string, ghost lines: seq<string>)
    ensures lines == Preamble(tbName) && out == Unlines(lines)
  {
    lines := [];
    out := "";
    out, lines := PushLine(out, lines, "library ieee;");
    out, lines := PushLine(out, lines, "use ieee.std_logic_1164.all;");
    out, lines := PushLine(out, lines, "use ieee.numeric_std.all;");
    out, lines := PushLine(out, lines, "");
    out, lines := PushLine(out, lines, "entity " + tbName + " is");
    out, lines := PushLine(out, lines, "end entity " + tbName + ";");
    out, lines := PushLine(out, lines, "");
    out, lines := PushLine(out, lines, "architecture testbench of " + tbName + " is");
    out, lines := PushLine(out, lines, "");
  }

  /** The clock process of `generate_testbench`, when there is a clock port. */
  method PushClockProcess(s: string, ghost lines: seq<string>, clk: Option<string>, period: nat)
    returns (s': string, ghost lines': seq<string>)
    requires s == Unlines(lines)
    ensures lines' == lines + ClockSection(clk, period) && s' == Unlines(lines')
  {
    s', lines' := s, lines;
    if clk.Some? {
      var clock := GenClockProcess(clk.value, period);
      s', lines' := PushText(s', lines', clock, ClockLines(clk.value, period));
      s', lines' := PushLine(s', lines', "");
      AppendAssoc(lines, ClockLines(clk.value, period), [""]);
    } else {
      AppendEmpty(lines);
    }
  }

  /** `generate_testbench`. */
  method GenerateTestbench(e: EntityDef, config: TbConfig) returns (out: string)
    requires PeriodFits(config.clockPeriodNs)
    ensures out == Unlines(TestbenchLines(e, config))
  {
    var tbName := e.name + "_tb";
    var clkPort := FindClockPort(e.ports);
    var rstPort := FindResetPort(e.ports);
    ghost var pre;
    out, pre := PushPreamble(tbName);
    // `lines` is the text so far, `body` what follows the preamble.
    ghost var lines := pre;

    var component := GenComponent(e);
    out, lines := PushText(out, lines, component, ComponentLines(e));
    ghost var body := ComponentLines(e);
    out, lines := PushLine(out, lines, "");
    AppendAssoc(pre, body, [""]);
    body := body + [""];

    var signals := GenSignals(e.ports);
    out, lines := PushText(out, lines, signals, SignalLines(e.ports));
    AppendAssoc(pre, body, SignalLines(e.ports));
    body := body + SignalLines(e.ports);
    out, lines := PushLine(out, lines, "");
    AppendAssoc(pre, body, [""]);
    body := body + [""];

    out, lines := PushLine(out, lines, "begin");
    out, lines := PushLine(out, lines, "");
    Snoc2(pre + body, "begin", "");
    AppendAssoc(pre, body, ["begin", ""]);
    body := body + ["begin", ""];

    var dut := GenDutInstance(e);
    out, lines := PushText(out, lines, dut, DutLines(e));
    AppendAssoc(pre, body, DutLines(e));
    body := body + DutLines(e);
    out, lines := PushLine(out, lines, "");
    AppendAssoc(pre, body, [""]);
    body := body + [""];

    out, lines := PushClockProcess(out, lines, clkPort, config.clockPeriodNs);
    AppendAssoc(pre, body, ClockSection(clkPort, config.clockPeriodNs));
    body := body + ClockSection(clkPort, config.clockPeriodNs);

    var stimulus := GenStimulusProcess(e.ports, clkPort, rstPort, config.clockPeriodNs);
    out, lines := PushText(out, lines, stimulus, StimulusLines(e.ports, clkPort, rstPort, config.clockPeriodNs));
    AppendAssoc(pre, body, StimulusLines(e.ports, clkPort, rstPort, config.clockPeriodNs));
    body := body + StimulusLines(e.ports, clkPort, rstPort, config.clockPeriodNs);
    out, lines := PushLine(out, lines, "");
    AppendAssoc(pre, body, [""]);
    body := body + [""];

    out, lines := PushLine(out, lines, "end architecture testbench;");
    AppendAssoc(pre, body, ["end architecture testbench;"]);
    body := body + ["end architecture testbench;"];
    assert body == TestbenchBody(e, config);
  }
}
