// The RFECommunicator session (RFExplorer/RFExplorer.py): command framing,
// serial-number and model-name helpers, and the object that drains the
// reader's queue into its device state and the sweep collection.

module Session {
  import opened RFECommon
  import opened PyText
  import opened Configuration
  import Sweep
  import opened SweepCollection
  import Framer

  // ----- command frames -----

  predicate IsAscii(s: string) {
    forall i :: 0 <= i < |s| ==> s[i] as int < 128
  }

  /**
   * What `SendCommand(cmd)` writes: '#', one character holding the frame
   * length, then the command; None where `chr` or the ASCII encoding of the
   * frame raises.
   */
  function CommandFrame(cmd: string): (f: Option<string>)
    ensures f.Some? <==> |cmd| + 2 < 128 && IsAscii(cmd)
  {
    if |cmd| + 2 < 128 && IsAscii(cmd) then Some("#" + [(|cmd| + 2) as char] + cmd) else None
  }

  /** A device-side reading of a frame: the command, when the length character matches. */
  function CommandOfFrame(f: string): Option<string> {
    if |f| >= 2 && f[0] == '#' && f[1] as int == |f| then Some(f[2..]) else None
  }

  /** Every frame `SendCommand` writes reads back as its command, and its length character is its length. */
  lemma CommandFrameRoundTrip(cmd: string)
    requires CommandFrame(cmd).Some?
    ensures CommandOfFrame(CommandFrame(cmd).value) == Some(cmd)
    ensures |CommandFrame(cmd).value| == |cmd| + 2
  {
    var f := CommandFrame(cmd).value;
    assert f[2..] == cmd;
  }

  /** An ASCII frame that reads back as a command is exactly the frame of that command. */
  lemma FrameOfCommandOfFrame(f: string)
    requires IsAscii(f) && CommandOfFrame(f).Some?
    ensures CommandFrame(CommandOfFrame(f).value) == Some(f)
  {
    var cmd := f[2..];
    assert forall i :: 0 <= i < |cmd| ==> cmd[i] == f[i + 2];
    assert f == "#" + [f[1]] + cmd;
  }

  // ----- serial numbers -----

  /** `DecorateSerialNumberRAWString`: four groups of four characters joined by '-', or "" for short input. */
  function DecorateSerialNumber(raw: string): (r: string)
    ensures |raw| < 16 <==> r == ""
    ensures |raw| >= 16 ==> |r| == 19 && r[4] == '-' && r[9] == '-' && r[14] == '-'
  {
    if |raw| >= 16 then raw[..4] + "-" + raw[4..8] + "-" + raw[8..12] + "-" + raw[12..16] else ""
  }

  /** The characters of a decorated serial number, without its three dashes. */
  function SerialCharacters(r: string): string
    requires |r| == 19
  {
    r[..4] + r[5..9] + r[10..14] + r[15..19]
  }

  /** Decorating keeps the first 16 characters in order and adds only the dashes. */
  lemma DecorateSerialNumberKeepsCharacters(raw: string)
    requires |raw| >= 16
    ensures SerialCharacters(DecorateSerialNumber(raw)) == raw[..16]
  {
    var r := DecorateSerialNumber(raw);
    assert r[..4] == raw[..4] && r[5..9] == raw[4..8] && r[10..14] == raw[8..12] && r[15..19] == raw[12..16];
    assert raw[..16] == raw[..4] + raw[4..8] + raw[8..12] + raw[12..16];
  }

  // ----- model names -----

  /** Entry k of the 256-entry model name table: the name of the model with wire value k, else "UNKWN". */
  function ModelTableEntry(k: int): string {
    if k == 0 then "433M"
    else if k == 1 then "868M"
    else if k == 2 then "915M"
    else if k == 3 then "WSUB1G"
    else if k == 4 then "2.4G"
    else if k == 5 then "WSUB3G"
    else if k == 6 then "6G"
    else if k == 60 then "RFE6GEN"
    else if k == 255 then "NONE"
    else "UNKWN"
  }

  const MODEL_TABLE_SIZE: nat := 256

  /** The nine models the table names. */
  predicate Named(m: Model) {
    m in {Model433, Model868, Model915, ModelWSUB1G, Model2400, ModelWSUB3G, Model6G, ModelRFGen, ModelNone}
  }

  /** `GetModelTextFromEnum(n)`: the table entry, None where the index raises. */
  function GetModelTextFromEnum(n: int): (r: Option<string>)
    ensures r.Some? <==> -(MODEL_TABLE_SIZE as int) <= n < MODEL_TABLE_SIZE
    ensures 0 <= n < MODEL_TABLE_SIZE ==> r == Some(ModelTableEntry(n))
  {
    match PyIndex(n, MODEL_TABLE_SIZE)
    case Some(k) => Some(ModelTableEntry(k))
    case None => None
  }

  /**
   * What `GetModelEnumFromText` returns: the model named by the upper-cased
   * text, MODEL_NONE for text the table does not hold, and None for "UNKWN":
   * its first entry sits at index 7, which `eModel(7)` rejects by raising.
   */
  function ModelFromText(text: string): Option<Model> {
    ModelFromUpper(Upper(text))
  }

  /** The lookup on text already upper-cased. */
  function ModelFromUpper(u: string): Option<Model> {
    if u == "433M" then Some(Model433)
    else if u == "868M" then Some(Model868)
    else if u == "915M" then Some(Model915)
    else if u == "WSUB1G" then Some(ModelWSUB1G)
    else if u == "2.4G" then Some(Model2400)
    else if u == "WSUB3G" then Some(ModelWSUB3G)
    else if u == "6G" then Some(Model6G)
    else if u == "RFE6GEN" then Some(ModelRFGen)
    else if u == "NONE" then Some(ModelNone)
    else if u == "UNKWN" then None
    else Some(ModelNone)
  }

  /** The search loop of `GetModelEnumFromText` over the table, first match wins. */
  method GetModelEnumFromText(text: string) returns (r: Option<Model>)
    ensures r == ModelFromText(text)
  {
    var u := Upper(text);
    r := Some(ModelNone);
    var k := 0;
    while k < MODEL_TABLE_SIZE
      invariant 0 <= k <= MODEL_TABLE_SIZE
      invariant forall j :: 0 <= j < k ==> ModelTableEntry(j) != u
    {
      if u == ModelTableEntry(k) {
        assert k <= 7 || k == 60 || k == 255 by {
          assert k > 7 ==> ModelTableEntry(7) != u;
        }
        TableEntryLookup(k);
        return ModelFromInt(k);
      }
      k := k + 1;
    }
    NotInTable(u);
  }

  /** Every index the table names (and the first filler, 7) looks up as its own model value. */
  lemma TableEntryLookup(k: int)
    requires 0 <= k <= 7 || k == 60 || k == 255
    ensures ModelFromUpper(ModelTableEntry(k)) == ModelFromInt(k)
  {
  }

  /** Text matching no table entry looks up as MODEL_NONE. */
  lemma NotInTable(u: string)
    requires forall j :: 0 <= j < MODEL_TABLE_SIZE ==> ModelTableEntry(j) != u
    ensures ModelFromUpper(u) == Some(ModelNone)
  {
    assert ModelTableEntry(0) != u && ModelTableEntry(1) != u && ModelTableEntry(2) != u && ModelTableEntry(3) != u;
    assert ModelTableEntry(4) != u && ModelTableEntry(5) != u && ModelTableEntry(6) != u && ModelTableEntry(7) != u;
    assert ModelTableEntry(60) != u && ModelTableEntry(255) != u;
  }

  /** Name and lookup are inverse on the nine named models. */
  lemma ModelTextRoundTrip(m: Model)
    requires Named(m)
    ensures GetModelTextFromEnum(ModelValue(m)).Some?
    ensures ModelFromText(GetModelTextFromEnum(ModelValue(m)).value) == Some(m)
  {
    var t := ModelTableEntry(ModelValue(m));
    UpperOfUpper(t);
  }

  /** The table's own filler text "UNKWN" makes the lookup raise instead of answering MODEL_NONE. */
  lemma UnknownTextRaises(text: string)
    requires Upper(text) == "UNKWN"
    ensures ModelFromText(text) == None
  {
    assert |"UNKWN"| == 5;
  }

  /** Both spellings of the filler text hit it. */
  lemma UnknownTextSpellings()
    ensures ModelFromText("unkwn") == None && ModelFromText("UNKWN") == None
  {
    assert Upper("unkwn") == "UNKWN";
    UpperOfUpper("UNKWN");
    UnknownTextRaises("unkwn");
    UnknownTextRaises("UNKWN");
  }

  /** The lookup as documented: MODEL_NONE for every text that names no model. */
  function ModelFromTextOrNone(text: string): (m: Model)
    ensures ModelFromText(text).Some? ==> m == ModelFromText(text).value
    ensures ModelFromText(text).None? ==> m == ModelNone
  {
    match ModelFromText(text)
    case Some(m) => m
    case None => ModelNone
  }

  /** The documented lookup is total and still inverts the table on the named models. */
  lemma ModelFromTextOrNoneRoundTrip(m: Model, text: string)
    requires Named(m)
    ensures ModelFromTextOrNone(ModelTableEntry(ModelValue(m))) == m
    ensures Upper(text) == "UNKWN" ==> ModelFromTextOrNone(text) == ModelNone
  {
    ModelTextRoundTrip(m);
  }

  // ----- generator power text -----

  /** `GetRFGenPowerString`: ",1," or ",0," for the high power switch, then the power level. */
  function RFGenPowerString(highPower: bool, powerLevel: int): (s: string)
    ensures |s| > 3 && s[..3] == (if highPower then ",1," else ",0,")
  {
    "," + (if highPower then "1," else "0,") + IntToStr(powerLevel)
  }

  /** The power text reads back as the switch and the level. */
  lemma RFGenPowerStringRoundTrip(highPower: bool, powerLevel: int)
    ensures var s := RFGenPowerString(highPower, powerLevel);
      (s[1] == '1' <==> highPower) && ParseInt(s[3..]) == Some(powerLevel)
  {
    var s := RFGenPowerString(highPower, powerLevel);
    assert s[3..] == IntToStr(powerLevel);
    IntRoundTrip(powerLevel);
  }

  // ----- state the queue drain updates -----

  /** The analyzer's frequency plan and display settings held by the communicator. */
  datatype AnalyzerPlan = AnalyzerPlan(
    startMHZ: real, stepMHZ: real, topDBM: real, bottomDBM: real, steps: int,
    minSpanMHZ: real, maxSpanMHZ: real, offsetDB: real, rbwKHZ: real, calculator: Calculator,
    expansionActive: bool, baudrate: int, thresholdDBM: real, refFreqMHZ: real)

  function InitialAnalyzer(): AnalyzerPlan {
    AnalyzerPlan(0.0, 0.0, -30.0, MIN_AMPLITUDE_DBM, 112, 0.112, 100.0, 0.0, 0.0, CalcNormal, false, 0, 0.0, 0.0)
  }

  /** The signal generator's settings held by the communicator. */
  datatype GeneratorPlan = GeneratorPlan(
    cwMHZ: real, startMHZ: real, stepMHZ: real, stopMHZ: real, sweepSteps: int,
    powerLevel: int, highPower: bool, powerOn: bool, waitMS: int,
    startHighPower: bool, startPowerLevel: int, stopHighPower: bool, stopPowerLevel: int)

  function InitialGenerator(): GeneratorPlan {
    GeneratorPlan(0.0, 0.0, 0.0, 0.0, 1, 0, false, false, 0, false, 0, false, 0)
  }

  /** What the device told about itself, and the read-once event flags. */
  datatype Device = Device(
    mainModel: Model, expansionModel: Model, serialNumber: string, expansionSerialNumber: string,
    firmware: string, dsp: DSP, acknowledge: bool, resetEvent: bool)

  function InitialDevice(): Device {
    Device(ModelNone, ModelNone, "", "", "", DspAuto, false, false)
  }

  function Abs(x: real): real {
    if x < 0.0 then -x else x
  }

  /** Start and step are taken over only when one of them moved by 0.001 MHz or more. */
  function Retuned(p: AnalyzerPlan, c: Config): AnalyzerPlan {
    if Abs(p.startMHZ - c.startMHZ) >= 0.001 || Abs(p.stepMHZ - c.stepMHZ) >= 0.001 then
      p.(startMHZ := c.startMHZ, stepMHZ := c.stepMHZ)
    else p
  }

  /** The block both analyzer paths run: retune, then amplitude range and step count. */
  function SweepPlan(p: AnalyzerPlan, c: Config): AnalyzerPlan {
    Retuned(p, c).(topDBM := c.amplitudeTopDBM, bottomDBM := c.amplitudeBottomDBM, steps := c.freqSpectrumSteps)
  }

  /** The span, offset and bandwidth settings of a non-sniffer configuration; the minimum span depends on the active model. */
  function SpanPlan(p: AnalyzerPlan, c: Config, active: Model): AnalyzerPlan {
    p.(maxSpanMHZ := c.maxSpanMHZ, offsetDB := c.offsetDB, rbwKHZ := c.rbwKHZ, steps := c.freqSpectrumSteps,
       minSpanMHZ := if active == Model2400 || active == Model6G then 2.0 else 0.001 * c.freqSpectrumSteps as real)
  }

  /** The first half of the analyzer branch: sweep plan outside sniffer mode, expansion flag, calculator of a WSUB3G. */
  function AnalyzerHeadPlan(p: AnalyzerPlan, c: Config, active: Model): AnalyzerPlan {
    var p1 := if c.mode != ModeSniffer then SweepPlan(p, c) else p;
    var p2 := p1.(expansionActive := c.expansionBoardActive);
    if active == ModelWSUB3G then p2.(calculator := c.calculator) else p2
  }

  /** The second half: sniffer settings, or the sweep plan again, the calculator again, and the span settings. */
  function AnalyzerTailPlan(p: AnalyzerPlan, c: Config, active: Model): AnalyzerPlan {
    if c.mode == ModeSniffer then
      p.(baudrate := c.baudrate, thresholdDBM := c.thresholdDBM, refFreqMHZ := c.startMHZ)
    else
      var p1 := SweepPlan(p, c);
      SpanPlan(if active == ModelWSUB3G then p1.(calculator := c.calculator) else p1, c, active)
  }

  /** The analyzer plan after a configuration token, with `active` the model the token made active. */
  function AnalyzerUpdate(p: AnalyzerPlan, c: Config, active: Model): AnalyzerPlan {
    AnalyzerTailPlan(AnalyzerHeadPlan(p, c, active), c, active)
  }

  /** The model a configuration makes active: the expansion board's when it reports that board active. */
  function ActiveModelFor(d: Device, c: Config): Model {
    if c.expansionBoardActive then d.expansionModel else d.mainModel
  }

  /** The generator plan after a configuration token, by the configuration's mode. */
  function GeneratorUpdate(g: GeneratorPlan, c: Config): GeneratorPlan {
    var g1 := g.(powerOn := c.genPowerOn);
    match c.mode
    case ModeGenCW =>
      g1.(cwMHZ := c.genCWFreqMHZ, stepMHZ := c.stepMHZ, powerLevel := c.genPowerLevel, highPower := c.genHighPowerSwitch)
    case ModeGenSweepFreq =>
      g1.(startMHZ := c.startMHZ, stepMHZ := c.stepMHZ, sweepSteps := c.freqSpectrumSteps,
        stopMHZ := c.startMHZ + c.freqSpectrumSteps as real * c.stepMHZ,
        powerLevel := c.genPowerLevel, highPower := c.genHighPowerSwitch, waitMS := c.genSweepWaitMS)
    case ModeGenSweepAmp =>
      g1.(cwMHZ := c.genCWFreqMHZ, startHighPower := c.genStartHighPowerSwitch, startPowerLevel := c.genStartPowerLevel,
        stopHighPower := c.genStopHighPowerSwitch, stopPowerLevel := c.genStopPowerLevel, waitMS := c.genSweepWaitMS)
    case ModeNone =>
      if c.startMHZ > 0.0 then
        g1.(cwMHZ := c.genCWFreqMHZ, highPower := c.genHighPowerSwitch, startMHZ := c.startMHZ, stepMHZ := c.stepMHZ,
          sweepSteps := c.freqSpectrumSteps, stopMHZ := c.startMHZ + c.freqSpectrumSteps as real * c.stepMHZ,
          powerLevel := c.genPowerLevel, startHighPower := c.genStartHighPowerSwitch,
          startPowerLevel := c.genStartPowerLevel, stopHighPower := c.genStopHighPowerSwitch,
          stopPowerLevel := c.genStopPowerLevel, waitMS := c.genSweepWaitMS)
      else g1
    case _ => g1
  }

  const CMD_MAX_HOLD: string := "C+\U{0004}"
  const CMD_REALTIME: string := "C+\U{0000}"
  const CMD_REQUEST_CALIBRATION: string := "Cq"

  /** The commands the MODEL_WSUB3G block sends: switch the calculator to max hold, or back. */
  function CalculatorCommands(useMaxHold: bool, calculator: Calculator): seq<string> {
    if useMaxHold then (if calculator != CalcMaxHold then [CMD_MAX_HOLD] else [])
    else (if calculator == CalcMaxHold then [CMD_REALTIME] else [])
  }

  /** The commands the MODEL_WSUB3G block sends once in the first half and, outside sniffer mode, again in the second. */
  function AnalyzerCommands(useMaxHold: bool, c: Config, active: Model): seq<string> {
    var once := if active == ModelWSUB3G then CalculatorCommands(useMaxHold, c.calculator) else [];
    if c.mode == ModeSniffer then once else once + once
  }

  /** The frames of a list of commands. */
  function Frames(cmds: seq<string>): seq<string> {
    if cmds == [] then []
    else
      var f := CommandFrame(cmds[0]);
      (if f.Some? then [f.value] else []) + Frames(cmds[1..])
  }

  // ----- text tokens -----

  /** What a queued text line does to the device state. */
  datatype TextEffect =
    | Acknowledge
    | SetDsp(dsp: DSP)
    | SetSerial(serial: string)
    | SetModels(main: Model, expansion: Model, firmware: string)
    | SetMainThenRaise(main: Model)
    | Reset
    | Ignored
    | Raise

  /** A "#C2-M:" or "#C3-M:" line: both models must decode, the main one is stored before the second is read. */
  function ModelLineEffect(line: string): TextEffect {
    match Column(line, 6, 9).Some? && ModelFromInt(Column(line, 6, 9).value).Some?
    case false => Raise
    case true =>
      var main := ModelFromInt(Column(line, 6, 9).value).value;
      match Column(line, 10, 13)
      case None => SetMainThenRaise(main)
      case Some(n) =>
        match ModelFromInt(n)
        case None => SetMainThenRaise(main)
        case Some(expansion) => SetModels(main, expansion, Slice(line, 14, 19))
  }

  /** The branches of the text case of `ProcessReceivedString`, in their order. */
  function TextEffectOf(line: string): TextEffect {
    if |line| > 3 && line[..4] == ACKNOWLEDGE then Acknowledge
    else if |line| > 4 && line[..4] == "DSP:" then
      match Column(line, 4, 5)
      case None => Raise
      case Some(n) => (match DspFromInt(n) case Some(d) => SetDsp(d) case None => Raise)
    else if |line| > 16 && line[..3] == "#Sn" then SetSerial(Slice(line, 3, 19))
    else if |line| > 5 && (line[..6] == "#C2-M:" || line[..6] == "#C3-M:") then ModelLineEffect(line)
    else if |line| >= 164 && line[..2] == "$q" then Ignored
    else if |line| > 18 && line[..18] == RESET_STRING then Reset
    else Ignored
  }

  predicate TextRaises(line: string) {
    TextEffectOf(line).Raise? || TextEffectOf(line).SetMainThenRaise?
  }

  /** The device state after a text line's effect. */
  function ApplyText(d: Device, e: TextEffect): Device {
    match e
    case Acknowledge => d.(acknowledge := true)
    case SetDsp(dsp) => d.(dsp := dsp)
    case SetSerial(s) => d.(serialNumber := s)
    case SetModels(main, expansion, firmware) => d.(mainModel := main, expansionModel := expansion, firmware := firmware)
    case SetMainThenRaise(main) => d.(mainModel := main)
    case Reset => d.(resetEvent := true)
    case Ignored => d
    case Raise => d
  }

  predicate TokenRaises(t: Framer.Token) {
    t.TextToken? && TextRaises(t.text)
  }

  /** How many tokens one drain takes off the queue: all of them, or up to and including the first that raises. */
  function DrainCount(q: seq<Framer.Token>): (n: nat)
    ensures n <= |q|
    ensures forall i :: 0 <= i < n - 1 ==> !TokenRaises(q[i])
    ensures n < |q| ==> n > 0 && TokenRaises(q[n - 1])
    ensures (forall i :: 0 <= i < |q| ==> !TokenRaises(q[i])) ==> n == |q|
  {
    if q == [] then 0
    else if TokenRaises(q[0]) then 1
    else 1 + DrainCount(q[1..])
  }

  /** The text of the last text token of `q`, or "" when there is none. */
  function LastText(q: seq<Framer.Token>): string {
    if q == [] then ""
    else if q[|q| - 1].TextToken? then q[|q| - 1].text
    else LastText(q[..|q| - 1])
  }

  predicate SweepsWellFormed(q: seq<Framer.Token>) {
    forall i :: 0 <= i < |q| ==> q[i].SweepToken? ==> q[i].sweep.WellFormed()
  }

  // ----- the drain as a function of the session's state -----

  /** The communicator's settings, which no token changes. */
  datatype SessionSettings = SessionSettings(
    intendedAnalyzer: bool, storeSweep: bool, autoCleanConfig: bool, useMaxHold: bool,
    genCalibrationMissing: bool, initialSize: int, autogrow: bool)

  /** The part of the communicator's state that tokens change. */
  datatype SessionState = SessionState(
    mode: Mode, activeModel: Model, analyzer: AnalyzerPlan, generator: GeneratorPlan, sent: seq<string>,
    minFreqMHZ: real, maxFreqMHZ: real, retriesCalibration: int, device: Device, holdMode: bool,
    collection: CollectionState)

  /**
   * A configuration token: the generator branch (calibration request, settings
   * by mode, fixed limits) or the analyzer branch (plan, calculator commands,
   * limits outside sniffer mode, automatic cleaning of the sweeps).
   */
  function ConfigStep(s: SessionSettings, st: SessionState, c: Config): SessionState {
    if IsGeneratorOf(st.device.mainModel, s.intendedAnalyzer, false) then
      var request := s.genCalibrationMissing && st.retriesCalibration < 3;
      st.(mode := c.mode, generator := GeneratorUpdate(st.generator, c), activeModel := st.device.mainModel,
          minFreqMHZ := RFGEN_MIN_FREQ_MHZ, maxFreqMHZ := RFGEN_MAX_FREQ_MHZ,
          sent := st.sent + (if request then Frames([CMD_REQUEST_CALIBRATION]) else []),
          retriesCalibration := if request then st.retriesCalibration + 1 else st.retriesCalibration)
    else
      var active := ActiveModelFor(st.device, c);
      st.(mode := c.mode, activeModel := active, analyzer := AnalyzerUpdate(st.analyzer, c, active),
          sent := st.sent + Frames(AnalyzerCommands(s.useMaxHold, c, active)),
          minFreqMHZ := if c.mode == ModeSniffer then st.minFreqMHZ else c.minFreqMHZ,
          maxFreqMHZ := if c.mode == ModeSniffer then st.maxFreqMHZ else c.maxFreqMHZ,
          collection := if s.autoCleanConfig then Cleaned(s.initialSize) else st.collection)
  }

  /** A sweep token: the new state and whether it asks for a redraw. */
  function SweepStep(s: SessionSettings, st: SessionState, sweep: Sweep.SweepRecord): (SessionState, bool)
    requires HoldWellFormed(st.collection) && sweep.WellFormed()
  {
    if st.mode != ModeTracking && !st.holdMode then
      var stored := AddSpec(if s.storeSweep then st.collection else Cleaned(s.initialSize), s.autogrow, sweep).0;
      (st.(collection := stored, holdMode := stored.upperBound >= MAX_ELEMENTS), true)
    else (st, false)
  }

  /** One token of the drain, dispatched on its kind: the new state and whether it asks for a redraw. */
  function TokenStep(s: SessionSettings, st: SessionState, t: Framer.Token): (r: (SessionState, bool))
    requires HoldWellFormed(st.collection) && (t.SweepToken? ==> t.sweep.WellFormed())
    ensures HoldWellFormed(r.0.collection)
  {
    match t
    case ConfigToken(c) => (ConfigStep(s, st, c), false)
    case SweepToken(sweep) => SweepStep(s, st, sweep)
    case TextToken(line) => (st.(device := ApplyText(st.device, TextEffectOf(line))), false)
  }

  /** The tokens of `q` processed in order: the final state, and whether any of them asked for a redraw. */
  function Drained(s: SessionSettings, st: SessionState, q: seq<Framer.Token>): (r: (SessionState, bool))
    requires HoldWellFormed(st.collection) && SweepsWellFormed(q)
    ensures HoldWellFormed(r.0.collection)
    decreases |q|
  {
    if q == [] then (st, false)
    else
      var n := |q| - 1;
      assert SweepsWellFormed(q[..n]) by {
        assert forall i :: 0 <= i < n ==> q[..n][i] == q[i];
      }
      var (mid, drawn) := Drained(s, st, q[..n]);
      var (last, draw) := TokenStep(s, mid, q[n]);
      (last, drawn || draw)
  }

  // ----- the communicator -----

  /** `IsGenerator(check)`: the main board is an RFE6GEN, or nothing is known yet and no analyzer is intended. */
  predicate IsGeneratorOf(mainModel: Model, intendedAnalyzer: bool, checkModelAvailable: bool) {
    if !checkModelAvailable && mainModel == ModelNone then !intendedAnalyzer
    else mainModel == ModelRFGen
  }

  /** `IsAnalyzer(check)`: the negation of `IsGenerator()`, or a known main board when the model is checked. */
  predicate IsAnalyzerOf(mainModel: Model, intendedAnalyzer: bool, checkModelAvailable: bool) {
    if !checkModelAvailable then !IsGeneratorOf(mainModel, intendedAnalyzer, false) else mainModel != ModelNone
  }

  class Communicator {
    var portConnected: bool
    var queue: seq<Framer.Token>
    var mode: Mode
    var activeModel: Model
    var device: Device
    var analyzer: AnalyzerPlan
    var generator: GeneratorPlan
    var minFreqMHZ: real
    var maxFreqMHZ: real
    var holdMode: bool
    var retriesCalibration: int
    /** The frames written to the port, oldest first. */
    var sent: seq<string>
    var intendedAnalyzer: bool
    var storeSweep: bool
    var autoCleanConfig: bool
    var useMaxHold: bool
    /** Whether the generator calibration object holds no data (`GetCalSize() < 0`). */
    var genCalibrationMissing: bool
    const collection: SweepDataCollection

    predicate Valid()
      reads this`queue, collection
    {
      collection.Valid() && SweepsWellFormed(queue)
    }

    constructor()
      ensures Valid() && fresh(collection)
      ensures !portConnected && queue == [] && mode == ModeSpectrumAnalyzer && activeModel == ModelNone
      ensures device == InitialDevice() && analyzer == InitialAnalyzer() && generator == InitialGenerator()
      ensures minFreqMHZ == 430.0 && maxFreqMHZ == 440.0 && !holdMode && retriesCalibration == 0 && sent == []
      ensures intendedAnalyzer && storeSweep && autoCleanConfig && useMaxHold && genCalibrationMissing
      ensures collection.State() == Cleaned(MAX_ELEMENTS) && collection.autogrow
    {
      portConnected := false;
      queue := [];
      mode := ModeSpectrumAnalyzer;
      activeModel := ModelNone;
      device := InitialDevice();
      analyzer := InitialAnalyzer();
      generator := InitialGenerator();
      minFreqMHZ := 430.0;
      maxFreqMHZ := 440.0;
      holdMode := false;
      retriesCalibration := 0;
      sent := [];
      intendedAnalyzer := true;
      storeSweep := true;
      autoCleanConfig := true;
      useMaxHold := true;
      genCalibrationMissing := true;
      collection := new SweepDataCollection(100 * 1024, true);
    }

    predicate IsGenerator(checkModelAvailable: bool)
      reads this`device, this`intendedAnalyzer
    {
      IsGeneratorOf(device.mainModel, intendedAnalyzer, checkModelAvailable)
    }

    predicate IsAnalyzer(checkModelAvailable: bool)
      reads this`device, this`intendedAnalyzer
    {
      IsAnalyzerOf(device.mainModel, intendedAnalyzer, checkModelAvailable)
    }

    /** The settings the drain reads and never changes. */
    function CurrentSettings(): SessionSettings
      reads this, collection
    {
      SessionSettings(intendedAnalyzer, storeSweep, autoCleanConfig, useMaxHold, genCalibrationMissing,
        collection.initialSize, collection.autogrow)
    }

    /** The state the drain changes. */
    function Snapshot(): SessionState
      reads this, collection
    {
      SessionState(mode, activeModel, analyzer, generator, sent, minFreqMHZ, maxFreqMHZ, retriesCalibration,
        device, holdMode, collection.State())
    }

    /** Writes the frame of `cmd`, or raises without writing when it cannot be encoded. */
    method SendCommand(cmd: string) returns (raised: bool)
      modifies this`sent
      ensures raised <==> CommandFrame(cmd).None?
      ensures sent == old(sent) + Frames([cmd])
    {
      var frame := CommandFrame(cmd);
      if frame.None? {
        return true;
      }
      sent := sent + [frame.value];
      return false;
    }

    /** `Acknowledged`: read-once, the flag is returned and cleared. */
    method Acknowledged() returns (b: bool)
      modifies this`device
      ensures b == old(device.acknowledge) && device == old(device).(acknowledge := false)
    {
      b := device.acknowledge;
      device := device.(acknowledge := false);
    }

    /** `IsResetEvent`: read-once, the flag is returned and cleared. */
    method IsResetEvent() returns (b: bool)
      modifies this`device
      ensures b == old(device.resetEvent) && device == old(device).(resetEvent := false)
    {
      if device.resetEvent {
        device := device.(resetEvent := false);
        return true;
      }
      return false;
    }

    /** The state reset at the end of `ClosePort`, whatever happened on the port before. */
    method ClosePort()
      modifies this`portConnected, this`device, this`retriesCalibration
      ensures !portConnected && retriesCalibration == 0
      ensures device == old(device).(mainModel := ModelNone, expansionModel := ModelNone, serialNumber := "", expansionSerialNumber := "")
    {
      portConnected := false;
      device := device.(mainModel := ModelNone, expansionModel := ModelNone);
      device := device.(serialNumber := "", expansionSerialNumber := "");
      retriesCalibration := 0;
    }

    /** A configuration token, dispatched on `IsGenerator()`; only an analyzer cleans the sweeps. */
    method ProcessConfig(c: Config)
      requires Valid()
      modifies this`mode, this`activeModel, this`analyzer, this`generator, this`sent, this`minFreqMHZ, this`maxFreqMHZ
      modifies this`retriesCalibration, collection
      ensures Valid() && mode == c.mode
      ensures IsGenerator(false) ==>
        (GeneratorConfigured(c, old(generator), old(sent), old(retriesCalibration))
         && analyzer == old(analyzer) && collection.State() == old(collection.State()))
      ensures !IsGenerator(false) ==>
        (AnalyzerConfigured(c, old(analyzer), old(sent), old(minFreqMHZ), old(maxFreqMHZ))
         && generator == old(generator) && retriesCalibration == old(retriesCalibration)
         && collection.State() == (if autoCleanConfig then Cleaned(collection.initialSize) else old(collection.State())))
      ensures collection.initialSize == old(collection.initialSize) && collection.autogrow == old(collection.autogrow)
    {
      if IsGenerator(false) {
        ProcessGeneratorConfig(c);
      } else {
        ProcessAnalyzerConfig(c);
      }
    }

    /** The generator's fields after a configuration token. */
    predicate GeneratorConfigured(c: Config, generator0: GeneratorPlan, sent0: seq<string>, retries0: int)
      reads this
    {
      var request := genCalibrationMissing && retries0 < 3;
      generator == GeneratorUpdate(generator0, c) && activeModel == device.mainModel
      && minFreqMHZ == RFGEN_MIN_FREQ_MHZ && maxFreqMHZ == RFGEN_MAX_FREQ_MHZ
      && sent == sent0 + (if request then Frames([CMD_REQUEST_CALIBRATION]) else [])
      && retriesCalibration == (if request then retries0 + 1 else retries0)
    }

    /** The analyzer's fields after a configuration token. */
    predicate AnalyzerConfigured(c: Config, analyzer0: AnalyzerPlan, sent0: seq<string>, minFreq0: real, maxFreq0: real)
      reads this
    {
      activeModel == ActiveModelFor(device, c)
      && analyzer == AnalyzerUpdate(analyzer0, c, activeModel)
      && sent == sent0 + Frames(AnalyzerCommands(useMaxHold, c, activeModel))
      && minFreqMHZ == (if c.mode == ModeSniffer then minFreq0 else c.minFreqMHZ)
      && maxFreqMHZ == (if c.mode == ModeSniffer then maxFreq0 else c.maxFreqMHZ)
    }

    /** The signal generator branch: calibration request, settings by mode, fixed frequency limits. */
    method ProcessGeneratorConfig(c: Config)
      modifies this`mode, this`activeModel, this`generator, this`sent, this`minFreqMHZ, this`maxFreqMHZ, this`retriesCalibration
      ensures mode == c.mode && GeneratorConfigured(c, old(generator), old(sent), old(retriesCalibration))
    {
      if genCalibrationMissing && retriesCalibration < 3 {
        var _ := SendCommand(CMD_REQUEST_CALIBRATION);
        retriesCalibration := retriesCalibration + 1;
      }
      mode := c.mode;
      generator := GeneratorUpdate(generator, c);
      minFreqMHZ := RFGEN_MIN_FREQ_MHZ;
      maxFreqMHZ := RFGEN_MAX_FREQ_MHZ;
      activeModel := device.mainModel;
    }

    /** The spectrum analyzer branch, then the automatic cleaning of the sweeps. */
    method ProcessAnalyzerConfig(c: Config)
      requires Valid()
      modifies this`mode, this`activeModel, this`analyzer, this`sent, this`minFreqMHZ, this`maxFreqMHZ, collection
      ensures Valid() && mode == c.mode && AnalyzerConfigured(c, old(analyzer), old(sent), old(minFreqMHZ), old(maxFreqMHZ))
      ensures collection.State() == (if autoCleanConfig then Cleaned(collection.initialSize) else old(collection.State()))
      ensures collection.initialSize == old(collection.initialSize) && collection.autogrow == old(collection.autogrow)
    {
      // the embedded calibration list is never filled, so no "Cq" request is sent here
      AnalyzerSettings(c);
      if autoCleanConfig {
        collection.CleanAll();
      }
    }

    /** The settings half of the analyzer branch, in the order the source writes them. */
    method AnalyzerSettings(c: Config)
      modifies this`mode, this`activeModel, this`analyzer, this`sent, this`minFreqMHZ, this`maxFreqMHZ
      ensures mode == c.mode && AnalyzerConfigured(c, old(analyzer), old(sent), old(minFreqMHZ), old(maxFreqMHZ))
    {
      AnalyzerHead(c);
      AnalyzerTail(c);
      FramesAppend(CalculatorCommands(useMaxHold, c.calculator), CalculatorCommands(useMaxHold, c.calculator));
    }

    /** Mode, sweep plan outside sniffer mode, active board, and the first MODEL_WSUB3G block. */
    method AnalyzerHead(c: Config)
      modifies this`mode, this`activeModel, this`analyzer, this`sent
      ensures mode == c.mode && activeModel == ActiveModelFor(device, c)
      ensures analyzer == AnalyzerHeadPlan(old(analyzer), c, activeModel)
      ensures sent == old(sent) + (if activeModel == ModelWSUB3G then Frames(CalculatorCommands(useMaxHold, c.calculator)) else [])
    {
      mode := c.mode;
      if mode != ModeSniffer {
        TakeSweepPlan(c);
      }
      analyzer := analyzer.(expansionActive := c.expansionBoardActive);
      activeModel := if analyzer.expansionActive then device.expansionModel else device.mainModel;
      if activeModel == ModelWSUB3G {
        SyncCalculator(c);
      }
    }

    /** Sniffer settings, or the sweep plan again, the second MODEL_WSUB3G block, limits and span. */
    method AnalyzerTail(c: Config)
      modifies this`analyzer, this`sent, this`minFreqMHZ, this`maxFreqMHZ
      ensures analyzer == AnalyzerTailPlan(old(analyzer), c, activeModel)
      ensures sent == old(sent) + (if c.mode != ModeSniffer && activeModel == ModelWSUB3G
                                  then Frames(CalculatorCommands(useMaxHold, c.calculator)) else [])
      ensures minFreqMHZ == (if c.mode == ModeSniffer then old(minFreqMHZ) else c.minFreqMHZ)
      ensures maxFreqMHZ == (if c.mode == ModeSniffer then old(maxFreqMHZ) else c.maxFreqMHZ)
    {
      if c.mode == ModeSniffer {
        analyzer := analyzer.(baudrate := c.baudrate, thresholdDBM := c.thresholdDBM, refFreqMHZ := c.startMHZ);
      } else {
        TakeSweepPlan(c);
        if activeModel == ModelWSUB3G {
          SyncCalculator(c);
        }
        minFreqMHZ := c.minFreqMHZ;
        maxFreqMHZ := c.maxFreqMHZ;
        analyzer := analyzer.(maxSpanMHZ := c.maxSpanMHZ, offsetDB := c.offsetDB, rbwKHZ := c.rbwKHZ, steps := c.freqSpectrumSteps);
        if activeModel == Model2400 || activeModel == Model6G {
          analyzer := analyzer.(minSpanMHZ := 2.0);
        } else {
          analyzer := analyzer.(minSpanMHZ := 0.001 * analyzer.steps as real);
        }
      }
    }

    /** Retune when start or step moved, then take the amplitude range and the step count. */
    method TakeSweepPlan(c: Config)
      modifies this`analyzer
      ensures analyzer == SweepPlan(old(analyzer), c)
    {
      if Abs(analyzer.startMHZ - c.startMHZ) >= 0.001 || Abs(analyzer.stepMHZ - c.stepMHZ) >= 0.001 {
        analyzer := analyzer.(startMHZ := c.startMHZ, stepMHZ := c.stepMHZ);
      }
      analyzer := analyzer.(topDBM := c.amplitudeTopDBM, bottomDBM := c.amplitudeBottomDBM, steps := c.freqSpectrumSteps);
    }

    /** The MODEL_WSUB3G block: take over the calculator, then keep the device in step with `useMaxHold`. */
    method SyncCalculator(c: Config)
      modifies this`analyzer, this`sent
      ensures analyzer == old(analyzer).(calculator := c.calculator)
      ensures sent == old(sent) + Frames(CalculatorCommands(useMaxHold, c.calculator))
    {
      analyzer := analyzer.(calculator := c.calculator);
      if useMaxHold {
        if analyzer.calculator != CalcMaxHold {
          var _ := SendCommand(CMD_MAX_HOLD);
        }
      } else if analyzer.calculator == CalcMaxHold {
        var _ := SendCommand(CMD_REALTIME);
      }
    }

    /** A sweep token: stored unless tracking or holding; a full collection switches hold on. */
    method ProcessSweep(sweep: Sweep.SweepRecord) returns (draw: bool)
      requires Valid() && sweep.WellFormed()
      modifies this`holdMode, collection
      ensures Valid() && (draw <==> mode != ModeTracking && !old(holdMode))
      ensures !draw ==> holdMode == old(holdMode) && collection.State() == old(collection.State())
      ensures draw ==>
        (holdMode == collection.IsFull()
         && collection.State() == AddSpec(if storeSweep then old(collection.State()) else Cleaned(collection.initialSize),
                                          collection.autogrow, sweep).0)
      ensures collection.initialSize == old(collection.initialSize) && collection.autogrow == old(collection.autogrow)
    {
      draw := false;
      if mode != ModeTracking && !holdMode {
        if !storeSweep {
          collection.CleanAll();
        }
        var _ := collection.Add(sweep);
        draw := true;
        if collection.IsFull() {
          holdMode := true;
        }
      }
    }

    /** A text token: the effect of its branch; true when the branch raises. */
    method ProcessText(line: string) returns (raised: bool)
      modifies this`device
      ensures raised <==> TextRaises(line)
      ensures device == ApplyText(old(device), TextEffectOf(line))
    {
      raised := ApplyTextEffect(TextEffectOf(line));
    }

    /** Applies one text effect to the device fields, in the order the source assigns them. */
    method ApplyTextEffect(effect: TextEffect) returns (raised: bool)
      modifies this`device
      ensures raised <==> effect.Raise? || effect.SetMainThenRaise?
      ensures device == ApplyText(old(device), effect)
    {
      raised := false;
      match effect
      case Acknowledge => device := device.(acknowledge := true);
      case SetDsp(dsp) => device := device.(dsp := dsp);
      case SetSerial(s) => device := device.(serialNumber := s);
      case SetModels(main, expansion, firmware) =>
        device := device.(mainModel := main);
        device := device.(expansionModel := expansion);
        device := device.(firmware := firmware);
      case SetMainThenRaise(main) =>
        device := device.(mainModel := main);
        raised := true;
      case Reset => device := device.(resetEvent := true);
      case Ignored =>
      case Raise => raised := true;
    }

    /** One token taken off the queue by the drain, dispatched on its kind. */
    method ProcessToken(token: Framer.Token) returns (draw: bool, raised: bool)
      requires Valid() && (token.SweepToken? ==> token.sweep.WellFormed())
      modifies this`mode, this`activeModel, this`analyzer, this`generator, this`sent, this`minFreqMHZ, this`maxFreqMHZ
      modifies this`retriesCalibration, this`device, this`holdMode, collection
      ensures Valid() && CurrentSettings() == old(CurrentSettings())
      ensures raised <==> TokenRaises(token)
      ensures (Snapshot(), draw) == TokenStep(CurrentSettings(), old(Snapshot()), token)
    {
      draw, raised := false, false;
      match token
      case ConfigToken(c) =>
        ProcessConfig(c);
      case SweepToken(s) =>
        draw := ProcessSweep(s);
      case TextToken(line) =>
        raised := ProcessText(line);
    }

    /**
     * One turn of the drain loop: the token at position n of the queue as it
     * was when the drain began is taken off and processed.
     */
    method DrainOne(ghost q: seq<Framer.Token>, ghost n: nat, ghost start: SessionState, draw: bool, received: string)
      returns (draw2: bool, received2: string, raised: bool)
      requires Valid() && n < |q| && queue == q[n..] && SweepsWellFormed(q) && HoldWellFormed(start.collection)
      requires received == LastText(q[..n]) && (Snapshot(), draw) == Drained(CurrentSettings(), start, q[..n])
      modifies this`queue, this`mode, this`activeModel, this`analyzer, this`generator, this`sent
      modifies this`minFreqMHZ, this`maxFreqMHZ, this`retriesCalibration, this`device, this`holdMode, collection
      ensures Valid() && queue == q[n + 1..] && CurrentSettings() == old(CurrentSettings())
      ensures received2 == LastText(q[..n + 1]) && (Snapshot(), draw2) == Drained(CurrentSettings(), start, q[..n + 1])
      ensures raised <==> TokenRaises(q[n])
    {
      var token := queue[0];
      assert token == q[n];
      queue := queue[1..];
      var d;
      d, raised := ProcessToken(token);
      LastTextSnoc(q[..n], token);
      assert q[..n + 1] == q[..n] + [token];
      assert q[..n + 1][..n] == q[..n];
      received2 := if token.TextToken? then token.text else received;
      draw2 := draw || d;
    }

    /**
     * `ProcessReceivedString(processAll)`: nothing happens unless the port is
     * connected and all events are asked for; then tokens are taken off the
     * queue in order until it is empty or a token raises, which ends the
     * drain after removing that token.
     */
    method ProcessReceivedString(processAll: bool) returns (draw: bool, received: string)
      requires Valid()
      modifies this`queue, this`mode, this`activeModel, this`analyzer, this`generator, this`sent
      modifies this`minFreqMHZ, this`maxFreqMHZ, this`retriesCalibration, this`device, this`holdMode, collection
      ensures Valid() && CurrentSettings() == old(CurrentSettings())
      ensures !old(portConnected) || !processAll ==>
        !draw && received == "" && unchanged(this) && unchanged(collection)
      ensures old(portConnected) && processAll ==>
        var n := DrainCount(old(queue));
        queue == old(queue)[n..] && received == LastText(old(queue)[..n])
        && (Snapshot(), draw) == Drained(CurrentSettings(), old(Snapshot()), old(queue)[..n])
        && (draw ==> exists i :: 0 <= i < n && old(queue)[i].SweepToken?)
    {
      draw := false;
      received := "";
      if !portConnected || !processAll {
        return;
      }
      ghost var q := queue;
      ghost var start := Snapshot();
      ghost var settings := CurrentSettings();
      ghost var n := 0;
      assert q[..0] == [];
      while queue != []
        invariant Valid() && CurrentSettings() == settings
        invariant 0 <= n <= DrainCount(q) && queue == q[n..]
        invariant forall i :: 0 <= i < n ==> !TokenRaises(q[i])
        invariant received == LastText(q[..n])
        invariant (Snapshot(), draw) == Drained(settings, start, q[..n])
        invariant draw ==> exists i :: 0 <= i < n && q[i].SweepToken?
        decreases |queue|
      {
        DrainAdvance(q, n);
        var raised;
        draw, received, raised := DrainOne(q, n, start, draw, received);
        n := n + 1;
        DrawnOnlyBySweep(settings, start, q[..n]);
        if raised {
          return;
        }
      }
    }
  }

  /** Past n tokens that did not raise, the next one ends the drain exactly when it raises. */
  lemma DrainAdvance(q: seq<Framer.Token>, n: nat)
    requires n < |q| && forall i :: 0 <= i < n ==> !TokenRaises(q[i])
    ensures TokenRaises(q[n]) ==> DrainCount(q) == n + 1
    ensures !TokenRaises(q[n]) ==> n + 1 <= DrainCount(q)
  {
    if n > 0 {
      DrainAdvance(q[1..], n - 1);
    }
  }

  lemma LastTextSnoc(p: seq<Framer.Token>, t: Framer.Token)
    ensures LastText(p + [t]) == if t.TextToken? then t.text else LastText(p)
  {
    assert (p + [t])[..|p|] == p;
  }

  lemma FramesAppend(a: seq<string>, b: seq<string>)
    ensures Frames(a + b) == Frames(a) + Frames(b)
  {
    if a == [] {
      assert a + b == b;
    } else {
      assert (a + b)[0] == a[0];
      assert (a + b)[1..] == a[1..] + b;
      FramesAppend(a[1..], b);
    }
  }

  // ----- properties of the session -----

  /** Without checking the model, `IsAnalyzer()` is exactly the negation of `IsGenerator()`. */
  lemma AnalyzerIsNotGenerator(mainModel: Model, intendedAnalyzer: bool)
    ensures IsAnalyzerOf(mainModel, intendedAnalyzer, false) <==> !IsGeneratorOf(mainModel, intendedAnalyzer, false)
    ensures mainModel == ModelNone ==> (IsGeneratorOf(mainModel, intendedAnalyzer, false) <==> !intendedAnalyzer)
    ensures mainModel != ModelNone ==>
      (IsGeneratorOf(mainModel, intendedAnalyzer, false) <==> IsGeneratorOf(mainModel, intendedAnalyzer, true))
  {
  }

  /** Outside sniffer mode the analyzer ends within 0.001 MHz of the configured start and step, and takes the rest over. */
  lemma AnalyzerFollowsConfig(p: AnalyzerPlan, c: Config, active: Model)
    requires c.mode != ModeSniffer
    ensures var q := AnalyzerUpdate(p, c, active);
      Abs(q.startMHZ - c.startMHZ) < 0.001 && Abs(q.stepMHZ - c.stepMHZ) < 0.001
      && q.topDBM == c.amplitudeTopDBM && q.bottomDBM == c.amplitudeBottomDBM && q.steps == c.freqSpectrumSteps
      && q.maxSpanMHZ == c.maxSpanMHZ && q.offsetDB == c.offsetDB && q.rbwKHZ == c.rbwKHZ
      && q.expansionActive == c.expansionBoardActive
      && q.minSpanMHZ == (if active == Model2400 || active == Model6G then 2.0 else 0.001 * c.freqSpectrumSteps as real)
      && (q.calculator == if active == ModelWSUB3G then c.calculator else p.calculator)
      && q.baudrate == p.baudrate && q.thresholdDBM == p.thresholdDBM && q.refFreqMHZ == p.refFreqMHZ
  {
    var h := AnalyzerHeadPlan(p, c, active);
    RetunedIsClose(p, c);
    RetunedIsClose(h, c);
  }

  /** A retune leaves start and step within 0.001 MHz of the configuration's, and retuning again changes nothing. */
  lemma RetunedIsClose(p: AnalyzerPlan, c: Config)
    ensures Abs(Retuned(p, c).startMHZ - c.startMHZ) < 0.001 && Abs(Retuned(p, c).stepMHZ - c.stepMHZ) < 0.001
    ensures Retuned(Retuned(p, c), c) == Retuned(p, c)
  {
  }

  /** A sniffer configuration keeps the sweep plan and takes baud rate, threshold and reference frequency. */
  lemma SnifferKeepsSweepPlan(p: AnalyzerPlan, c: Config, active: Model)
    requires c.mode == ModeSniffer
    ensures var q := AnalyzerUpdate(p, c, active);
      q == p.(expansionActive := c.expansionBoardActive,
              calculator := if active == ModelWSUB3G then c.calculator else p.calculator,
              baudrate := c.baudrate, thresholdDBM := c.thresholdDBM, refFreqMHZ := c.startMHZ)
  {
  }

  /** A frequency sweep configuration sets the generator's stop frequency to start + steps * step. */
  lemma GeneratorSweepStop(g: GeneratorPlan, c: Config)
    requires c.mode == ModeGenSweepFreq || (c.mode == ModeNone && c.startMHZ > 0.0)
    ensures var h := GeneratorUpdate(g, c);
      h.startMHZ == c.startMHZ && h.stepMHZ == c.stepMHZ && h.sweepSteps == c.freqSpectrumSteps
      && h.stopMHZ == h.startMHZ + h.sweepSteps as real * h.stepMHZ && h.powerOn == c.genPowerOn
  {
  }

  /** Modes the generator branch does not know, and a status without a start frequency, only take the power-on flag. */
  lemma GeneratorIgnoresOtherModes(g: GeneratorPlan, c: Config)
    requires c.mode !in {ModeGenCW, ModeGenSweepFreq, ModeGenSweepAmp, ModeNone} || (c.mode == ModeNone && c.startMHZ <= 0.0)
    ensures GeneratorUpdate(g, c) == g.(powerOn := c.genPowerOn)
  {
  }

  /**
   * The MODEL_WSUB3G block sends nothing exactly when the device calculator
   * already agrees with `useMaxHold`, and otherwise one frame that moves it there.
   */
  lemma CalculatorCommandsSync(useMaxHold: bool, calculator: Calculator)
    ensures CalculatorCommands(useMaxHold, calculator) == [] <==> (useMaxHold <==> calculator == CalcMaxHold)
    ensures CalculatorCommands(useMaxHold, calculator) != [] ==>
      Frames(CalculatorCommands(useMaxHold, calculator)) == [CommandFrame(if useMaxHold then CMD_MAX_HOLD else CMD_REALTIME).value]
  {
    var cmds := CalculatorCommands(useMaxHold, calculator);
    if cmds != [] {
      var cmd := if useMaxHold then CMD_MAX_HOLD else CMD_REALTIME;
      assert cmds == [cmd];
      assert IsAscii(cmd);
      assert Frames(cmds) == [CommandFrame(cmd).value] + Frames([]);
    }
  }

  /** Outside sniffer mode a WSUB3G receives the calculator command twice per configuration; sniffer mode and other models once or never. */
  lemma AnalyzerCommandsCount(useMaxHold: bool, c: Config, active: Model)
    ensures var once := CalculatorCommands(useMaxHold, c.calculator);
      |AnalyzerCommands(useMaxHold, c, active)| ==
        (if active != ModelWSUB3G then 0 else if c.mode == ModeSniffer then |once| else 2 * |once|)
  {
  }

  /** The lines that set the read-once flags and the serial number. */
  lemma TextFlags(line: string)
    ensures |line| > 3 && line[..4] == ACKNOWLEDGE ==> TextEffectOf(line) == Acknowledge
    ensures |line| > 18 && line[..18] == RESET_STRING ==> TextEffectOf(line) == Reset
    ensures |line| > 16 && line[..3] == "#Sn" ==>
      TextEffectOf(line) == SetSerial(Slice(line, 3, 19)) && (|line| >= 19 ==> Slice(line, 3, 19) == line[3..19])
  {
    if |line| > 18 && line[..18] == RESET_STRING {
      assert line[0] == '(' by { assert line[..18][0] == line[0]; }
      assert line[..4][0] == line[0] && line[..3][0] == line[0] && line[..2][0] == line[0] && line[..6][0] == line[0];
    }
    if |line| > 16 && line[..3] == "#Sn" {
      assert line[..4][1] == line[1] == line[..3][1];
      assert line[..4][0] == line[0] == line[..3][0];
    }
  }

  /** Setting a flag through a text line and reading it through the read-once accessor hands it out once. */
  lemma ReadOnceFlags(d: Device)
    ensures ApplyText(d, Acknowledge).acknowledge && ApplyText(d, Reset).resetEvent
    ensures ApplyText(d, Acknowledge).(acknowledge := false) == d.(acknowledge := false)
    ensures ApplyText(d, Reset).(resetEvent := false) == d.(resetEvent := false)
  {
  }

  /** A text line raises only in the DSP and model branches, and a model line raising after the main model keeps that model. */
  lemma TextRaisesOnlyOnBadColumns(line: string)
    requires TextRaises(line)
    ensures (|line| > 4 && line[..4] == "DSP:") || (|line| > 5 && (line[..6] == "#C2-M:" || line[..6] == "#C3-M:"))
    ensures TextEffectOf(line).SetMainThenRaise? ==>
      Column(line, 6, 9).Some? && ModelFromInt(Column(line, 6, 9).value) == Some(TextEffectOf(line).main)
  {
  }

  // ----- properties of the drain -----

  lemma SweepsWellFormedPrefix(q: seq<Framer.Token>, n: nat)
    requires SweepsWellFormed(q) && n <= |q|
    ensures SweepsWellFormed(q[..n])
  {
    assert forall i :: 0 <= i < n ==> q[..n][i] == q[i];
  }

  /** Only a sweep token asks for a redraw. */
  lemma {:induction false} DrawnOnlyBySweep(s: SessionSettings, st: SessionState, q: seq<Framer.Token>)
    requires HoldWellFormed(st.collection) && SweepsWellFormed(q)
    ensures Drained(s, st, q).1 ==> exists i :: 0 <= i < |q| && q[i].SweepToken?
    decreases |q|
  {
    if q != [] {
      var n := |q| - 1;
      SweepsWellFormedPrefix(q, n);
      DrawnOnlyBySweep(s, st, q[..n]);
      if Drained(s, st, q[..n]).1 {
        var i :| 0 <= i < n && q[..n][i].SweepToken?;
        assert q[i] == q[..n][i];
      }
    }
  }

  /**
   * Draining `a` and then, in a later call, `b` leaves the same state and
   * redraw flag as draining `a + b` at once: a drain that stops after a
   * token that raises is continued exactly where it stopped.
   */
  lemma {:induction false} DrainedAppend(s: SessionSettings, st: SessionState, a: seq<Framer.Token>, b: seq<Framer.Token>)
    requires HoldWellFormed(st.collection) && SweepsWellFormed(a) && SweepsWellFormed(b)
    ensures SweepsWellFormed(a + b)
    ensures var (mid, drawn) := Drained(s, st, a);
      var (last, draw) := Drained(s, mid, b);
      Drained(s, st, a + b) == (last, drawn || draw)
    decreases |b|
  {
    SweepsWellFormedConcat(a, b);
    if b == [] {
      assert a + b == a;
    } else {
      var n := |b| - 1;
      var pre := b[..n];
      SweepsWellFormedPrefix(b, n);
      DrainedAppend(s, st, a, pre);
      assert b == pre + [b[n]];
      assert a + b == (a + pre) + [b[n]];
      SweepsWellFormedConcat(a, pre);
      DrainedSnoc(s, st, a + pre, b[n]);
      DrainedSnoc(s, Drained(s, st, a).0, pre, b[n]);
    }
  }

  /** Draining one more token is one more step. */
  lemma DrainedSnoc(s: SessionSettings, st: SessionState, q: seq<Framer.Token>, t: Framer.Token)
    requires HoldWellFormed(st.collection) && SweepsWellFormed(q) && (t.SweepToken? ==> t.sweep.WellFormed())
    ensures SweepsWellFormed(q + [t])
    ensures var (mid, drawn) := Drained(s, st, q);
      var (last, draw) := TokenStep(s, mid, t);
      Drained(s, st, q + [t]) == (last, drawn || draw)
  {
    var qt := q + [t];
    assert forall i :: 0 <= i < |qt| ==> qt[i] == if i < |q| then q[i] else t;
    assert qt[..|q|] == q;
  }

  lemma SweepsWellFormedConcat(a: seq<Framer.Token>, b: seq<Framer.Token>)
    requires SweepsWellFormed(a) && SweepsWellFormed(b)
    ensures SweepsWellFormed(a + b)
  {
    assert forall i :: 0 <= i < |a + b| ==> (a + b)[i] == if i < |a| then a[i] else b[i - |a|];
  }

  /** Once hold mode is on, no token turns it off and no sweep is drawn or stored. */
  lemma {:induction false} HoldModeSticks(s: SessionSettings, st: SessionState, q: seq<Framer.Token>)
    requires HoldWellFormed(st.collection) && SweepsWellFormed(q) && st.holdMode
    ensures Drained(s, st, q).0.holdMode && !Drained(s, st, q).1
    decreases |q|
  {
    if q != [] {
      SweepsWellFormedPrefix(q, |q| - 1);
      HoldModeSticks(s, st, q[..|q| - 1]);
    }
  }

  /** Commands are only ever appended to what was written to the port. */
  lemma {:induction false} SentOnlyGrows(s: SessionSettings, st: SessionState, q: seq<Framer.Token>)
    requires HoldWellFormed(st.collection) && SweepsWellFormed(q)
    ensures var sent := Drained(s, st, q).0.sent;
      |st.sent| <= |sent| && sent[..|st.sent|] == st.sent
    decreases |q|
  {
    if q != [] {
      var n := |q| - 1;
      SweepsWellFormedPrefix(q, n);
      SentOnlyGrows(s, st, q[..n]);
      var mid := Drained(s, st, q[..n]).0;
      var last := TokenStep(s, mid, q[n]).0;
      assert last.sent[..|mid.sent|] == mid.sent;
      assert last.sent[..|st.sent|] == mid.sent[..|st.sent|];
    }
  }

  /** Only text tokens change what is known about the device. */
  lemma {:induction false} DeviceOnlyFromText(s: SessionSettings, st: SessionState, q: seq<Framer.Token>)
    requires HoldWellFormed(st.collection) && SweepsWellFormed(q)
    requires forall i :: 0 <= i < |q| ==> !q[i].TextToken?
    ensures Drained(s, st, q).0.device == st.device
    decreases |q|
  {
    if q != [] {
      var n := |q| - 1;
      SweepsWellFormedPrefix(q, n);
      assert forall i :: 0 <= i < n ==> q[..n][i] == q[i];
      DeviceOnlyFromText(s, st, q[..n]);
    }
  }
}
