// Device configuration lines (RFExplorer/RFEConfiguration.py): "#C2-F"
// analyzer, "#C3-" generator and "#C4-F" sniffer lines decoded at fixed
// column offsets into one configuration record.

module Configuration {
  import opened RFECommon
  import opened PyText

  /** The fields of an `RFEConfiguration` object. */
  datatype Config = Config(
    startMHZ: real,
    stepMHZ: real,
    amplitudeTopDBM: real,
    amplitudeBottomDBM: real,
    freqSpectrumSteps: int,
    expansionBoardActive: bool,
    mode: Mode,
    minFreqMHZ: real,
    maxFreqMHZ: real,
    maxSpanMHZ: real,
    rbwKHZ: real,
    offsetDB: real,
    calculator: Calculator,
    baudrate: int,
    modulation: Modulation,
    thresholdDBM: real,
    genHighPowerSwitch: bool,
    genPowerLevel: int,
    genCWFreqMHZ: real,
    genSweepWaitMS: int,
    genPowerOn: bool,
    genStartHighPowerSwitch: bool,
    genStopHighPowerSwitch: bool,
    genStartPowerLevel: int,
    genStopPowerLevel: int,
    genSweepPowerSteps: int,
    lineString: string)

  /** `RFEConfiguration(None)`: the defaults of a fresh object. */
  function Default(): (c: Config)
    ensures c.mode == ModeNone && c.calculator == CalcUnknown && c.modulation == ModulationNone
    ensures c.rbwKHZ == 0.0 && c.offsetDB == 0.0 && c.genStopPowerLevel == 1 && c.lineString == ""
  {
    Config(0.0, 0.0, 0.0, 0.0, 0, false, ModeNone, 0.0, 0.0, 0.0, 0.0, 0.0, CalcUnknown, 0,
      ModulationNone, 0.0, false, 0, 0.0, 0, false, false, false, 0, 1, 0, "")
  }

  /** `RFEConfiguration(source)`: every decoded field copied, the line text reset. */
  function Copy(source: Config): (c: Config)
    ensures c.lineString == ""
    ensures c.(lineString := source.lineString) == source
  {
    source.(lineString := "")
  }

  /**
   * What `ProcessReceivedString` ends with: a boolean return together with
   * the object's fields, or an exception raised by the error handler itself
   * (it concatenates a string with the None that `print` returns), with the
   * fields assigned before the failing column kept.
   */
  datatype Outcome = Parsed(ok: bool, config: Config) | Raised(config: Config)

  /** `int(s[i:j])`. */
  function Column(s: string, i: nat, j: nat): Option<int> {
    ParseInt(Slice(s, i, j))
  }

  /** `int(ord(s[k]) - 0x30)`: a digit character read as a power level. */
  function LevelAt(s: string, k: nat): Option<int> {
    match CharAt(s, k)
    case None => None
    case Some(ch) => Some(ch as int - 0x30)
  }

  /** `s[k] == '1'`: None where the index is past the end. */
  function FlagAt(s: string, k: nat): Option<bool> {
    match CharAt(s, k)
    case None => None
    case Some(ch) => Some(ch == '1')
  }

  predicate IsAnalyzerLine(s: string) {
    |s| >= 60 && StartsWith(s, "#C2-F")
  }

  predicate IsGeneratorLine(s: string) {
    |s| >= 29 && s[0..4] == "#C3-"
  }

  predicate IsSnifferLine(s: string) {
    |s| >= 10 && StartsWith(s, "#C4-F:")
  }

  /** The three families are told apart by their third character. */
  lemma FamilyMarks(s: string)
    ensures IsAnalyzerLine(s) ==> s[2] == '2'
    ensures IsGeneratorLine(s) ==> s[2] == '3'
    ensures IsSnifferLine(s) ==> s[2] == '4'
  {
    if IsAnalyzerLine(s) {
      assert s[..5][2] == s[2];
    }
    if IsGeneratorLine(s) {
      assert s[0..4][2] == s[2];
    }
    if IsSnifferLine(s) {
      assert s[..6][2] == s[2];
    }
  }

  /** `ProcessReceivedString(line)` applied to an object holding `prior`. */
  function Decode(prior: Config, line: string): (r: Outcome)
    ensures r.config.lineString == line
    ensures !IsAnalyzerLine(line) && !IsGeneratorLine(line) && !IsSnifferLine(line) ==>
      r == Parsed(false, prior.(lineString := line))
    ensures IsGeneratorLine(line) && line[4] !in "*AFG" ==>
      r == Parsed(false, prior.(lineString := line, mode := ModeNone))
  {
    FamilyMarks(line);
    var c := prior.(lineString := line);
    if IsAnalyzerLine(line) then DecodeAnalyzer(c, line)
    else if IsGeneratorLine(line) then
      if line[4] == '*' then DecodeGeneratorStatus(c, line)
      else if line[4] == 'A' then DecodeSweepAmplitude(c, line)
      else if line[4] == 'F' then DecodeSweepFrequency(c, line)
      else if line[4] == 'G' then DecodeCW(c, line)
      else Parsed(false, c.(mode := ModeNone))
    else if IsSnifferLine(line) then DecodeSniffer(c, line)
    else Parsed(false, c)
  }

  /** The columns of a "#C2-F" line up to the span, each as `int()` reads it. */
  datatype AnalyzerColumns = AnalyzerColumns(
    start: Option<int>, step: Option<int>, top: Option<int>, bottom: Option<int>, steps: Option<int>,
    expansion: bool, mode: Option<int>, minFreq: Option<int>, maxFreq: Option<int>, maxSpan: Option<int>)

  function AnalyzerColumnsOf(s: string): AnalyzerColumns
    requires IsAnalyzerLine(s)
  {
    AnalyzerColumns(Column(s, 6, 13), Column(s, 14, 21), Column(s, 22, 26), Column(s, 27, 31),
      Column(s, 32, 36), s[37] == '1', Column(s, 39, 42), Column(s, 43, 50), Column(s, 51, 58),
      Column(s, 59, 66))
  }

  /**
   * The assignments of the "#C2-F" branch in source order: the first column
   * that does not parse (or a mode outside `eMode`) raises, keeping the
   * fields assigned before it.
   */
  function AssignAnalyzer(c: Config, f: AnalyzerColumns): (r: Outcome)
    ensures r.config.lineString == c.lineString
    ensures r.Parsed? ==> r.ok
  {
    match f.start case None => Raised(c) case Some(start) =>
    var c := c.(startMHZ := start as real / 1000.0);
    match f.step case None => Raised(c) case Some(step) =>
    var c := c.(stepMHZ := step as real / 1000000.0);
    match f.top case None => Raised(c) case Some(top) =>
    var c := c.(amplitudeTopDBM := top as real);
    match f.bottom case None => Raised(c) case Some(bottom) =>
    var c := c.(amplitudeBottomDBM := bottom as real);
    match f.steps case None => Raised(c) case Some(steps) =>
    var c := c.(freqSpectrumSteps := steps, expansionBoardActive := f.expansion);
    match f.mode case None => Raised(c) case Some(modeValue) =>
    match ModeFromInt(modeValue) case None => Raised(c) case Some(mode) =>
    var c := c.(mode := mode);
    match f.minFreq case None => Raised(c) case Some(minFreq) =>
    var c := c.(minFreqMHZ := minFreq as real / 1000.0);
    match f.maxFreq case None => Raised(c) case Some(maxFreq) =>
    var c := c.(maxFreqMHZ := maxFreq as real / 1000.0);
    match f.maxSpan case None => Raised(c) case Some(maxSpan) =>
    Parsed(true, c.(maxSpanMHZ := maxSpan as real / 1000.0))
  }

  /** "#C2-F": the analyzer frequency plan, with RBW, offset and calculator only on longer lines. */
  function DecodeAnalyzer(c: Config, s: string): (r: Outcome)
    requires IsAnalyzerLine(s)
    ensures r.config.lineString == c.lineString
    ensures r.Parsed? ==> r.ok
  {
    match AssignAnalyzer(c, AnalyzerColumnsOf(s))
    case Raised(c) => Raised(c)
    case Parsed(_, c) => DecodeAnalyzerTail(c, s)
  }

  /** The optional RBW, offset and calculator columns of a "#C2-F" line. */
  datatype TailColumns = TailColumns(rbw: Option<int>, offset: Option<int>, calculator: Option<int>)

  /**
   * The tail assignments: a line of `n` characters carries the RBW past
   * 66, the offset past 72 and the calculator past 76; a shorter line
   * leaves those fields as they were.
   */
  function AssignAnalyzerTail(c: Config, n: int, f: TailColumns): (r: Outcome)
    ensures r.config.lineString == c.lineString
    ensures r.Parsed? ==> r.ok
  {
    if n <= 66 then Parsed(true, c)
    else
      match f.rbw case None => Raised(c) case Some(rbw) =>
      var c := c.(rbwKHZ := rbw as real);
      if n <= 72 then Parsed(true, c)
      else
        match f.offset case None => Raised(c) case Some(offset) =>
        var c := c.(offsetDB := offset as real);
        if n <= 76 then Parsed(true, c)
        else
          match f.calculator case None => Raised(c) case Some(calcValue) =>
          match CalculatorFromInt(calcValue) case None => Raised(c) case Some(calculator) =>
          Parsed(true, c.(calculator := calculator))
  }

  function DecodeAnalyzerTail(c: Config, s: string): (r: Outcome)
    ensures r.config.lineString == c.lineString
    ensures r.Parsed? ==> r.ok
  {
    AssignAnalyzerTail(c, |s|, TailColumns(Column(s, 67, 72), Column(s, 73, 77), Column(s, 78, 81)))
  }

  /** The columns of a "#C3-*" line: the full generator status. */
  datatype StatusColumns = StatusColumns(
    start: Option<int>, cw: Option<int>, steps: Option<int>, step: Option<int>,
    high: Option<bool>, level: Option<int>, powerSteps: Option<int>,
    startHigh: Option<bool>, startLevel: Option<int>, stopHigh: Option<bool>, stopLevel: Option<int>,
    powerOn: Option<bool>, wait: Option<int>)

  function StatusColumnsOf(s: string): StatusColumns {
    StatusColumns(Column(s, 6, 13), Column(s, 14, 21), Column(s, 22, 26), Column(s, 27, 34),
      FlagAt(s, 35), LevelAt(s, 37), Column(s, 39, 43), FlagAt(s, 44), LevelAt(s, 46),
      FlagAt(s, 48), LevelAt(s, 50), FlagAt(s, 52), Column(s, 54, 59))
  }

  /** The assignments of the "#C3-*" branch in source order; the mode is left as MODE_NONE. */
  function AssignStatus(c: Config, f: StatusColumns): (r: Outcome)
    ensures r.config.lineString == c.lineString
    ensures r.Parsed? ==> r.ok && r.config.mode == ModeNone
  {
    match f.start case None => Raised(c) case Some(start) =>
    var c := c.(startMHZ := start as real / 1000.0);
    match f.cw case None => Raised(c) case Some(cw) =>
    var c := c.(genCWFreqMHZ := cw as real / 1000.0);
    match f.steps case None => Raised(c) case Some(steps) =>
    var c := c.(freqSpectrumSteps := steps);
    match f.step case None => Raised(c) case Some(step) =>
    var c := c.(stepMHZ := step as real / 1000.0);
    match f.high case None => Raised(c) case Some(high) =>
    var c := c.(genHighPowerSwitch := high);
    match f.level case None => Raised(c) case Some(level) =>
    var c := c.(genPowerLevel := level);
    match f.powerSteps case None => Raised(c) case Some(powerSteps) =>
    var c := c.(genSweepPowerSteps := powerSteps);
    match f.startHigh case None => Raised(c) case Some(startHigh) =>
    var c := c.(genStartHighPowerSwitch := startHigh);
    match f.startLevel case None => Raised(c) case Some(startLevel) =>
    var c := c.(genStartPowerLevel := startLevel);
    match f.stopHigh case None => Raised(c) case Some(stopHigh) =>
    var c := c.(genStopHighPowerSwitch := stopHigh);
    match f.stopLevel case None => Raised(c) case Some(stopLevel) =>
    var c := c.(genStopPowerLevel := stopLevel);
    match f.powerOn case None => Raised(c) case Some(powerOn) =>
    var c := c.(genPowerOn := powerOn);
    match f.wait case None => Raised(c) case Some(wait) =>
    Parsed(true, c.(genSweepWaitMS := wait, mode := ModeNone))
  }

  function DecodeGeneratorStatus(c: Config, s: string): (r: Outcome)
    ensures r.config.lineString == c.lineString
    ensures r.Parsed? ==> r.ok && r.config.mode == ModeNone
  {
    AssignStatus(c, StatusColumnsOf(s))
  }

  /** The columns of a "#C3-A" line: an amplitude sweep. */
  datatype SweepAmplitudeColumns = SweepAmplitudeColumns(
    cw: Option<int>, powerSteps: Option<int>, startHigh: Option<bool>, startLevel: Option<int>,
    stopHigh: Option<bool>, stopLevel: Option<int>, powerOn: Option<bool>, wait: Option<int>)

  function SweepAmplitudeColumnsOf(s: string): SweepAmplitudeColumns {
    SweepAmplitudeColumns(Column(s, 6, 13), Column(s, 14, 18), FlagAt(s, 19), LevelAt(s, 21),
      FlagAt(s, 23), LevelAt(s, 25), FlagAt(s, 27), Column(s, 29, 34))
  }

  /** The assignments of the "#C3-A" branch in source order. */
  function AssignSweepAmplitude(c: Config, f: SweepAmplitudeColumns): (r: Outcome)
    ensures r.config.lineString == c.lineString
    ensures r.Parsed? ==> r.ok && r.config.mode == ModeGenSweepAmp
  {
    match f.cw case None => Raised(c) case Some(cw) =>
    var c := c.(genCWFreqMHZ := cw as real / 1000.0);
    match f.powerSteps case None => Raised(c) case Some(powerSteps) =>
    var c := c.(genSweepPowerSteps := powerSteps);
    match f.startHigh case None => Raised(c) case Some(startHigh) =>
    var c := c.(genStartHighPowerSwitch := startHigh);
    match f.startLevel case None => Raised(c) case Some(startLevel) =>
    var c := c.(genStartPowerLevel := startLevel);
    match f.stopHigh case None => Raised(c) case Some(stopHigh) =>
    var c := c.(genStopHighPowerSwitch := stopHigh);
    match f.stopLevel case None => Raised(c) case Some(stopLevel) =>
    var c := c.(genStopPowerLevel := stopLevel);
    match f.powerOn case None => Raised(c) case Some(powerOn) =>
    var c := c.(genPowerOn := powerOn);
    match f.wait case None => Raised(c) case Some(wait) =>
    Parsed(true, c.(genSweepWaitMS := wait, mode := ModeGenSweepAmp))
  }

  function DecodeSweepAmplitude(c: Config, s: string): (r: Outcome)
    ensures r.config.lineString == c.lineString
    ensures r.Parsed? ==> r.ok && r.config.mode == ModeGenSweepAmp
  {
    AssignSweepAmplitude(c, SweepAmplitudeColumnsOf(s))
  }

  /** The columns of a "#C3-F" line: a frequency sweep. */
  datatype SweepFrequencyColumns = SweepFrequencyColumns(
    start: Option<int>, steps: Option<int>, step: Option<int>, high: Option<bool>, level: Option<int>,
    powerOn: Option<bool>, wait: Option<int>)

  function SweepFrequencyColumnsOf(s: string): SweepFrequencyColumns {
    SweepFrequencyColumns(Column(s, 6, 13), Column(s, 14, 18), Column(s, 19, 26), FlagAt(s, 27),
      LevelAt(s, 29), FlagAt(s, 31), Column(s, 33, 38))
  }

  /** The assignments of the "#C3-F" branch in source order. */
  function AssignSweepFrequency(c: Config, f: SweepFrequencyColumns): (r: Outcome)
    ensures r.config.lineString == c.lineString
    ensures r.Parsed? ==> r.ok && r.config.mode == ModeGenSweepFreq
  {
    match f.start case None => Raised(c) case Some(start) =>
    var c := c.(startMHZ := start as real / 1000.0);
    match f.steps case None => Raised(c) case Some(steps) =>
    var c := c.(freqSpectrumSteps := steps);
    match f.step case None => Raised(c) case Some(step) =>
    var c := c.(stepMHZ := step as real / 1000.0);
    match f.high case None => Raised(c) case Some(high) =>
    var c := c.(genHighPowerSwitch := high);
    match f.level case None => Raised(c) case Some(level) =>
    var c := c.(genPowerLevel := level);
    match f.powerOn case None => Raised(c) case Some(powerOn) =>
    var c := c.(genPowerOn := powerOn);
    match f.wait case None => Raised(c) case Some(wait) =>
    Parsed(true, c.(genSweepWaitMS := wait, mode := ModeGenSweepFreq))
  }

  function DecodeSweepFrequency(c: Config, s: string): (r: Outcome)
    ensures r.config.lineString == c.lineString
    ensures r.Parsed? ==> r.ok && r.config.mode == ModeGenSweepFreq
  {
    AssignSweepFrequency(c, SweepFrequencyColumnsOf(s))
  }

  /** The columns of a "#C3-G" line: a continuous wave. */
  datatype CWColumns = CWColumns(
    cw: Option<int>, steps: Option<int>, step: Option<int>, high: Option<bool>, level: Option<int>,
    powerOn: Option<bool>)

  function CWColumnsOf(s: string): CWColumns {
    CWColumns(Column(s, 14, 21), Column(s, 22, 26), Column(s, 27, 34), FlagAt(s, 35), LevelAt(s, 37),
      FlagAt(s, 39))
  }

  /** The assignments of the "#C3-G" branch in source order. */
  function AssignCW(c: Config, f: CWColumns): (r: Outcome)
    ensures r.config.lineString == c.lineString
    ensures r.Parsed? ==> r.ok && r.config.mode == ModeGenCW
  {
    match f.cw case None => Raised(c) case Some(cw) =>
    var c := c.(genCWFreqMHZ := cw as real / 1000.0);
    match f.steps case None => Raised(c) case Some(steps) =>
    var c := c.(freqSpectrumSteps := steps);
    match f.step case None => Raised(c) case Some(step) =>
    var c := c.(stepMHZ := step as real / 1000.0);
    match f.high case None => Raised(c) case Some(high) =>
    var c := c.(genHighPowerSwitch := high);
    match f.level case None => Raised(c) case Some(level) =>
    var c := c.(genPowerLevel := level);
    match f.powerOn case None => Raised(c) case Some(powerOn) =>
    Parsed(true, c.(genPowerOn := powerOn, mode := ModeGenCW))
  }

  function DecodeCW(c: Config, s: string): (r: Outcome)
    ensures r.config.lineString == c.lineString
    ensures r.Parsed? ==> r.ok && r.config.mode == ModeGenCW
  {
    AssignCW(c, CWColumnsOf(s))
  }

  /** `int(round(16e6 / delay))`; None where the delay is 0 (ZeroDivisionError). */
  function Baudrate(delay: int): (b: Option<int>)
    ensures b.None? <==> delay == 0
    ensures b.Some? ==> b.value as real - 0.5 <= FCY_CLOCK as real / delay as real <= b.value as real + 0.5
  {
    if delay == 0 then None else Some(RoundHalfEven(FCY_CLOCK as real / delay as real))
  }

  /** The columns of a "#C4-F:" line, each as the driver reads it. */
  datatype SnifferColumns = SnifferColumns(
    start: Option<int>, expansion: Option<bool>, mode: Option<int>, delay: Option<int>,
    modulation: Option<int>, rbw: Option<int>, threshold: Option<real>)

  function SnifferColumnsOf(s: string): SnifferColumns {
    SnifferColumns(Column(s, 6, 13), FlagAt(s, 14), Column(s, 16, 19), Column(s, 20, 25),
      Column(s, 26, 27), Column(s, 28, 33), ParseFloat(Slice(s, 34, 37)))
  }

  /** The assignments of the "#C4-F:" branch in source order. */
  function AssignSniffer(c: Config, f: SnifferColumns): (r: Outcome)
    ensures r.config.lineString == c.lineString
    ensures r.Parsed? ==> r.ok
  {
    match f.start case None => Raised(c) case Some(start) =>
    var c := c.(startMHZ := start as real / 1000.0);
    match f.expansion case None => Raised(c) case Some(expansion) =>
    var c := c.(expansionBoardActive := expansion);
    match f.mode case None => Raised(c) case Some(modeValue) =>
    match ModeFromInt(modeValue) case None => Raised(c) case Some(mode) =>
    var c := c.(mode := mode);
    match f.delay case None => Raised(c) case Some(delay) =>
    match Baudrate(delay) case None => Raised(c) case Some(baud) =>
    var c := c.(baudrate := baud);
    match f.modulation case None => Raised(c) case Some(modValue) =>
    match ModulationFromInt(modValue) case None => Raised(c) case Some(modulation) =>
    var c := c.(modulation := modulation);
    match f.rbw case None => Raised(c) case Some(rbw) =>
    var c := c.(rbwKHZ := rbw as real);
    match f.threshold case None => Raised(c) case Some(threshold) =>
    Parsed(true, c.(thresholdDBM := -0.5 * threshold))
  }

  /** "#C4-F:": sniffer settings. */
  function DecodeSniffer(c: Config, s: string): (r: Outcome)
    ensures r.config.lineString == c.lineString
    ensures r.Parsed? ==> r.ok
  {
    AssignSniffer(c, SnifferColumnsOf(s))
  }

  // ----- the mutable object -----

  class RFEConfiguration {
    var fields: Config

    /** `RFEConfiguration(objSource)`: a copy of the source, or the defaults for None. */
    constructor(source: Option<Config>)
      ensures fields == (if source.Some? then Copy(source.value) else Default())
    {
      if source.Some? {
        fields := Copy(source.value);
      } else {
        fields := Default();
      }
    }

    /**
     * Decodes a line into this object's fields. `raised` reports the
     * exception the error handler throws; otherwise `ok` is the return value.
     */
    method ProcessReceivedString(line: string) returns (ok: bool, raised: bool)
      modifies this
      ensures var r := Decode(old(fields), line);
        fields == r.config && raised == r.Raised? && (ok <==> r.Parsed? && r.ok)
    {
      var r := Decode(fields, line);
      fields := r.config;
      raised := r.Raised?;
      ok := r.Parsed? && r.ok;
    }
  }

  // ----- properties of the decoder -----

  /** An analyzer line is decoded by the "#C2-F" decoder, over the prior fields with the line recorded. */
  lemma AnalyzerDispatch(prior: Config, s: string)
    requires IsAnalyzerLine(s)
    ensures Decode(prior, s) == DecodeAnalyzer(prior.(lineString := s), s)
  {
  }

  /** A sniffer line is decoded by the "#C4-F:" decoder. */
  lemma SnifferDispatch(prior: Config, s: string)
    requires IsSnifferLine(s)
    ensures Decode(prior, s) == DecodeSniffer(prior.(lineString := s), s)
  {
    FamilyMarks(s);
  }

  /** A "#C2-F" line whose columns all parse stores each column in its field. */
  lemma AnalyzerColumnsStored(c: Config, f: AnalyzerColumns, mode: Mode)
    requires f.start.Some? && f.step.Some? && f.top.Some? && f.bottom.Some? && f.steps.Some?
    requires f.mode.Some? && ModeFromInt(f.mode.value) == Some(mode)
    requires f.minFreq.Some? && f.maxFreq.Some? && f.maxSpan.Some?
    ensures AssignAnalyzer(c, f) == Parsed(true, c.(
      startMHZ := f.start.value as real / 1000.0, stepMHZ := f.step.value as real / 1000000.0,
      amplitudeTopDBM := f.top.value as real, amplitudeBottomDBM := f.bottom.value as real,
      freqSpectrumSteps := f.steps.value, expansionBoardActive := f.expansion, mode := mode,
      minFreqMHZ := f.minFreq.value as real / 1000.0, maxFreqMHZ := f.maxFreq.value as real / 1000.0,
      maxSpanMHZ := f.maxSpan.value as real / 1000.0))
  {
  }

  /** The tail fields are read only when the line reaches them; a fresh object keeps 0.0, 0.0 and UNKNOWN. */
  lemma AnalyzerTailFields(c: Config, n: int, f: TailColumns)
    ensures n <= 66 ==> AssignAnalyzerTail(c, n, f) == Parsed(true, c)
    ensures n <= 72 && AssignAnalyzerTail(c, n, f).Parsed? ==> AssignAnalyzerTail(c, n, f).config.offsetDB == c.offsetDB
    ensures n <= 76 && AssignAnalyzerTail(c, n, f).Parsed? ==>
      AssignAnalyzerTail(c, n, f).config.calculator == c.calculator
    ensures 66 < n && AssignAnalyzerTail(c, n, f).Parsed? ==>
      f.rbw.Some? && AssignAnalyzerTail(c, n, f).config.rbwKHZ == f.rbw.value as real
    ensures 76 < n && AssignAnalyzerTail(c, n, f).Parsed? ==>
      f.calculator.Some? && CalculatorFromInt(f.calculator.value) == Some(AssignAnalyzerTail(c, n, f).config.calculator)
  {
  }

  /** "#C3-" lines dispatch on their fifth character. */
  lemma GeneratorDispatch(prior: Config, s: string)
    requires IsGeneratorLine(s)
    ensures var r := Decode(prior, s);
      (s[4] == '*' && r.Parsed? ==> r.ok && r.config.mode == ModeNone)
      && (s[4] == 'A' && r.Parsed? ==> r.ok && r.config.mode == ModeGenSweepAmp)
      && (s[4] == 'F' && r.Parsed? ==> r.ok && r.config.mode == ModeGenSweepFreq)
      && (s[4] == 'G' && r.Parsed? ==> r.ok && r.config.mode == ModeGenCW)
      && (s[4] !in "*AFG" ==> r == Parsed(false, prior.(lineString := s, mode := ModeNone)))
  {
    FamilyMarks(s);
  }

  /** A bad numeric column raises, keeping the fields written before it. */
  lemma AnalyzerBadStep(c: Config, f: AnalyzerColumns)
    requires f.start.Some? && f.step.None?
    ensures AssignAnalyzer(c, f) == Raised(c.(startMHZ := f.start.value as real / 1000.0))
  {
  }

  /** A mode number outside `eMode` raises after the sweep fields are stored. */
  lemma AnalyzerBadMode(c: Config, f: AnalyzerColumns)
    requires f.start.Some? && f.step.Some? && f.top.Some? && f.bottom.Some? && f.steps.Some?
    requires f.mode.Some? && ModeFromInt(f.mode.value).None?
    ensures AssignAnalyzer(c, f).Raised?
    ensures AssignAnalyzer(c, f).config.freqSpectrumSteps == f.steps.value
    ensures AssignAnalyzer(c, f).config.mode == c.mode
  {
  }

  /** The sniffer line sets the baud rate from the clock divider; a zero divider raises. */
  lemma SnifferBaudrate(c: Config, f: SnifferColumns)
    requires f.start.Some? && f.expansion.Some? && f.mode.Some? && ModeFromInt(f.mode.value).Some?
    requires f.delay.Some?
    ensures f.delay.value == 0 ==> AssignSniffer(c, f).Raised? && AssignSniffer(c, f).config.baudrate == c.baudrate
    ensures AssignSniffer(c, f).Parsed? ==>
      f.delay.value != 0 && AssignSniffer(c, f).config.baudrate == RoundHalfEven(16000000.0 / f.delay.value as real)
  {
  }

  /** Every column of a "#C3-*" line reads. */
  predicate StatusComplete(f: StatusColumns) {
    f.start.Some? && f.cw.Some? && f.steps.Some? && f.step.Some? && f.high.Some? && f.level.Some?
    && f.powerSteps.Some? && f.startHigh.Some? && f.startLevel.Some? && f.stopHigh.Some? && f.stopLevel.Some?
    && f.powerOn.Some? && f.wait.Some?
  }

  /**
   * A "#C3-*" status is stored exactly when every column reads, and then each
   * column lands in its field: frequencies from kHz to MHz, flags and levels
   * as read, and the mode MODE_NONE; otherwise the branch raises.
   */
  lemma StatusColumnsStored(c: Config, f: StatusColumns)
    ensures AssignStatus(c, f).Parsed? <==> StatusComplete(f)
    ensures !StatusComplete(f) ==> AssignStatus(c, f).Raised?
    ensures StatusComplete(f) ==> AssignStatus(c, f) == Parsed(true, c.(
      startMHZ := f.start.value as real / 1000.0, genCWFreqMHZ := f.cw.value as real / 1000.0,
      freqSpectrumSteps := f.steps.value, stepMHZ := f.step.value as real / 1000.0,
      genHighPowerSwitch := f.high.value, genPowerLevel := f.level.value, genSweepPowerSteps := f.powerSteps.value,
      genStartHighPowerSwitch := f.startHigh.value, genStartPowerLevel := f.startLevel.value,
      genStopHighPowerSwitch := f.stopHigh.value, genStopPowerLevel := f.stopLevel.value,
      genPowerOn := f.powerOn.value, genSweepWaitMS := f.wait.value, mode := ModeNone))
  {
  }

  /** A "#C3-*" line is decoded by the status assignments over its columns. */
  lemma GeneratorStatusDispatch(prior: Config, s: string)
    requires IsGeneratorLine(s) && s[4] == '*'
    ensures Decode(prior, s) == AssignStatus(prior.(lineString := s), StatusColumnsOf(s))
  {
    FamilyMarks(s);
  }

  /** Every column of a "#C4-F:" line reads, names a known mode and modulation, and the divider is not 0. */
  predicate SnifferComplete(f: SnifferColumns) {
    f.start.Some? && f.expansion.Some? && f.mode.Some? && ModeFromInt(f.mode.value).Some?
    && f.delay.Some? && f.delay.value != 0 && f.modulation.Some? && ModulationFromInt(f.modulation.value).Some?
    && f.rbw.Some? && f.threshold.Some?
  }

  /**
   * A "#C4-F:" line is stored exactly when it is complete, and then: start
   * from kHz to MHz, the expansion flag, the mode, the baud rate from the
   * clock divider, the modulation, the RBW and -0.5 times the threshold
   * column; otherwise the branch raises.
   */
  lemma SnifferColumnsStored(c: Config, f: SnifferColumns)
    ensures AssignSniffer(c, f).Parsed? <==> SnifferComplete(f)
    ensures !SnifferComplete(f) ==> AssignSniffer(c, f).Raised?
    ensures SnifferComplete(f) ==> AssignSniffer(c, f) == Parsed(true, c.(
      startMHZ := f.start.value as real / 1000.0, expansionBoardActive := f.expansion.value,
      mode := ModeFromInt(f.mode.value).value, baudrate := RoundHalfEven(FCY_CLOCK as real / f.delay.value as real),
      modulation := ModulationFromInt(f.modulation.value).value, rbwKHZ := f.rbw.value as real,
      thresholdDBM := -0.5 * f.threshold.value))
  {
  }

  /** The same, on the line: the columns `[6:13]`, 14, `[16:19]`, `[20:25]`, `[26:27]`, `[28:33]` and `[34:37]`. */
  lemma SnifferLineStored(prior: Config, s: string)
    requires IsSnifferLine(s)
    ensures var f := SnifferColumnsOf(s);
      f.start == Column(s, 6, 13) && f.expansion == FlagAt(s, 14) && f.mode == Column(s, 16, 19)
      && f.delay == Column(s, 20, 25) && f.modulation == Column(s, 26, 27) && f.rbw == Column(s, 28, 33)
      && f.threshold == ParseFloat(Slice(s, 34, 37))
      && Decode(prior, s) == AssignSniffer(prior.(lineString := s), f)
  {
    SnifferDispatch(prior, s);
  }

  // The digit runs in the two generator lines documented in the source.

  lemma Digits0221000()
    ensures RunValue("0221000") == 221000
  {
    RunValueSnoc("", '0');
    assert ['0'] == "0";
    RunValueSnoc("0", '2');
    assert "0" + ['2'] == "02";
    RunValueSnoc("02", '2');
    assert "02" + ['2'] == "022";
    RunValueSnoc("022", '1');
    assert "022" + ['1'] == "0221";
    RunValueSnoc("0221", '0');
    assert "0221" + ['0'] == "02210";
    RunValueSnoc("02210", '0');
    assert "02210" + ['0'] == "022100";
    RunValueSnoc("022100", '0');
    assert "022100" + ['0'] == "0221000";
  }

  lemma Digits0020()
    ensures RunValue("0020") == 20
  {
    RunValueSnoc("", '0');
    assert ['0'] == "0";
    RunValueSnoc("0", '0');
    assert "0" + ['0'] == "00";
    RunValueSnoc("00", '2');
    assert "00" + ['2'] == "002";
    RunValueSnoc("002", '0');
    assert "002" + ['0'] == "0020";
  }

  lemma Digits0000100()
    ensures RunValue("0000100") == 100
  {
    RunValueSnoc("", '0');
    assert ['0'] == "0";
    RunValueSnoc("0", '0');
    assert "0" + ['0'] == "00";
    RunValueSnoc("00", '0');
    assert "00" + ['0'] == "000";
    RunValueSnoc("000", '0');
    assert "000" + ['0'] == "0000";
    RunValueSnoc("0000", '1');
    assert "0000" + ['1'] == "00001";
    RunValueSnoc("00001", '0');
    assert "00001" + ['0'] == "000010";
    RunValueSnoc("000010", '0');
    assert "000010" + ['0'] == "0000100";
  }

  lemma Digits00150()
    ensures RunValue("00150") == 150
  {
    RunValueSnoc("", '0');
    assert ['0'] == "0";
    RunValueSnoc("0", '0');
    assert "0" + ['0'] == "00";
    RunValueSnoc("00", '1');
    assert "00" + ['1'] == "001";
    RunValueSnoc("001", '5');
    assert "001" + ['5'] == "0015";
    RunValueSnoc("0015", '0');
    assert "0015" + ['0'] == "00150";
  }

  lemma Digits0432144()
    ensures RunValue("0432144") == 432144
  {
    RunValueSnoc("", '0');
    assert ['0'] == "0";
    RunValueSnoc("0", '4');
    assert "0" + ['4'] == "04";
    RunValueSnoc("04", '3');
    assert "04" + ['3'] == "043";
    RunValueSnoc("043", '2');
    assert "043" + ['2'] == "0432";
    RunValueSnoc("0432", '1');
    assert "0432" + ['1'] == "04321";
    RunValueSnoc("04321", '4');
    assert "04321" + ['4'] == "043214";
    RunValueSnoc("043214", '4');
    assert "043214" + ['4'] == "0432144";
  }

  /** A "#C3-F" line is decoded by the frequency-sweep assignments over its columns. */
  lemma SweepFrequencyDispatch(prior: Config, s: string)
    requires IsGeneratorLine(s) && s[4] == 'F'
    ensures Decode(prior, s) == DecodeSweepFrequency(prior.(lineString := s), s)
  {
    FamilyMarks(s);
  }

  /** A "#C3-G" line is decoded by the continuous-wave assignments over its columns. */
  lemma CWDispatch(prior: Config, s: string)
    requires IsGeneratorLine(s) && s[4] == 'G'
    ensures Decode(prior, s) == DecodeCW(prior.(lineString := s), s)
  {
    FamilyMarks(s);
  }

  /** A "#C3-A" line is decoded by the amplitude-sweep assignments over its columns. */
  lemma SweepAmplitudeDispatch(prior: Config, s: string)
    requires IsGeneratorLine(s) && s[4] == 'A'
    ensures Decode(prior, s) == DecodeSweepAmplitude(prior.(lineString := s), s)
  {
    FamilyMarks(s);
  }

  /**
   * A "#C3-A" line is stored exactly when every column reads: the CW
   * frequency from kHz to MHz, the power steps, the start and stop switches
   * and levels, the RF-on flag and the wait, in mode MODE_GEN_SWEEP_AMP.
   */
  lemma SweepAmplitudeColumnsStored(c: Config, f: SweepAmplitudeColumns)
    ensures var complete := f.cw.Some? && f.powerSteps.Some? && f.startHigh.Some? && f.startLevel.Some?
      && f.stopHigh.Some? && f.stopLevel.Some? && f.powerOn.Some? && f.wait.Some?;
      (AssignSweepAmplitude(c, f).Parsed? <==> complete)
      && (!complete ==> AssignSweepAmplitude(c, f).Raised?)
      && (complete ==> AssignSweepAmplitude(c, f) == Parsed(true, c.(
        genCWFreqMHZ := f.cw.value as real / 1000.0, genSweepPowerSteps := f.powerSteps.value,
        genStartHighPowerSwitch := f.startHigh.value, genStartPowerLevel := f.startLevel.value,
        genStopHighPowerSwitch := f.stopHigh.value, genStopPowerLevel := f.stopLevel.value,
        genPowerOn := f.powerOn.value, genSweepWaitMS := f.wait.value, mode := ModeGenSweepAmp)))
  {
  }

  /**
   * A "#C3-F" line is stored exactly when every column reads: start and step
   * from kHz to MHz, the step count, switch, level, RF-on flag and wait, in
   * mode MODE_GEN_SWEEP_FREQ.
   */
  lemma SweepFrequencyColumnsStored(c: Config, f: SweepFrequencyColumns)
    ensures var complete := f.start.Some? && f.steps.Some? && f.step.Some? && f.high.Some?
      && f.level.Some? && f.powerOn.Some? && f.wait.Some?;
      (AssignSweepFrequency(c, f).Parsed? <==> complete)
      && (!complete ==> AssignSweepFrequency(c, f).Raised?)
      && (complete ==> AssignSweepFrequency(c, f) == Parsed(true, c.(
        startMHZ := f.start.value as real / 1000.0, freqSpectrumSteps := f.steps.value,
        stepMHZ := f.step.value as real / 1000.0, genHighPowerSwitch := f.high.value,
        genPowerLevel := f.level.value, genPowerOn := f.powerOn.value, genSweepWaitMS := f.wait.value,
        mode := ModeGenSweepFreq)))
  {
  }

  /**
   * A "#C3-G" line is stored exactly when every column reads: the CW
   * frequency and step from kHz to MHz, the step count, switch, level and
   * RF-on flag, in mode MODE_GEN_CW.
   */
  lemma CWColumnsStored(c: Config, f: CWColumns)
    ensures var complete := f.cw.Some? && f.steps.Some? && f.step.Some? && f.high.Some?
      && f.level.Some? && f.powerOn.Some?;
      (AssignCW(c, f).Parsed? <==> complete)
      && (!complete ==> AssignCW(c, f).Raised?)
      && (complete ==> AssignCW(c, f) == Parsed(true, c.(
        genCWFreqMHZ := f.cw.value as real / 1000.0, freqSpectrumSteps := f.steps.value,
        stepMHZ := f.step.value as real / 1000.0, genHighPowerSwitch := f.high.value,
        genPowerLevel := f.level.value, genPowerOn := f.powerOn.value, mode := ModeGenCW)))
  {
  }

  /** A column of plain digits, leading zeros included, reads as their value. */
  lemma DigitColumn(s: string, i: nat, j: nat, d: string)
    requires Slice(s, i, j) == d && |d| > 0 && forall k :: 0 <= k < |d| ==> IsDigit(d[k])
    ensures Column(s, i, j) == Some(RunValue(d))
  {
    DigitsParse(d);
  }

  /** Start column of the sweep-frequency example line. */
  lemma SweepFrequencyExampleStart(s: string)
    requires s == "#C3-F:" + "0221000" + "," + "0020" + "," + "0000100" + ",0,0,1," + "00150"
    ensures Column(s, 6, 13) == Some(221000)
  {
    Digits0221000();
    DigitColumn(s, 6, 13, "0221000");
  }

  /** Step-count column of the sweep-frequency example line. */
  lemma SweepFrequencyExampleSteps(s: string)
    requires s == "#C3-F:" + "0221000" + "," + "0020" + "," + "0000100" + ",0,0,1," + "00150"
    ensures Column(s, 14, 18) == Some(20)
  {
    Digits0020();
    DigitColumn(s, 14, 18, "0020");
  }

  /** Step column of the sweep-frequency example line. */
  lemma SweepFrequencyExampleStep(s: string)
    requires s == "#C3-F:" + "0221000" + "," + "0020" + "," + "0000100" + ",0,0,1," + "00150"
    ensures Column(s, 19, 26) == Some(100)
  {
    Digits0000100();
    DigitColumn(s, 19, 26, "0000100");
  }

  /** Wait column of the sweep-frequency example line. */
  lemma SweepFrequencyExampleWait(s: string)
    requires s == "#C3-F:" + "0221000" + "," + "0020" + "," + "0000100" + ",0,0,1," + "00150"
    ensures Column(s, 33, 38) == Some(150)
  {
    Digits00150();
    DigitColumn(s, 33, 38, "00150");
  }

  /** The columns of the sweep-frequency line documented beside the "#C3-F" branch. */
  lemma SweepFrequencyExampleColumns(s: string)
    requires s == "#C3-F:" + "0221000" + "," + "0020" + "," + "0000100" + ",0,0,1," + "00150"
    ensures SweepFrequencyColumnsOf(s) ==
      SweepFrequencyColumns(Some(221000), Some(20), Some(100), Some(false), Some(0), Some(true), Some(150))
  {
    SweepFrequencyExampleStart(s);
    SweepFrequencyExampleSteps(s);
    SweepFrequencyExampleStep(s);
    SweepFrequencyExampleWait(s);
    assert s[27] == '0' && s[29] == '0' && s[31] == '1';
  }

  /** That line decodes to 221 MHz start, 20 steps of 0.1 MHz, level 0, power on, 150 ms wait. */
  lemma SweepFrequencyExample(s: string)
    requires s == "#C3-F:" + "0221000" + "," + "0020" + "," + "0000100" + ",0,0,1," + "00150"
    ensures Decode(Default(), s) == Parsed(true, Default().(lineString := s,
      startMHZ := 221.0, freqSpectrumSteps := 20, stepMHZ := 0.1, genHighPowerSwitch := false,
      genPowerLevel := 0, genPowerOn := true, genSweepWaitMS := 150, mode := ModeGenSweepFreq))
  {
    SweepFrequencyDispatch(Default(), s);
    SweepFrequencyExampleColumns(s);
  }

  /** Carrier column of the continuous-wave example line. */
  lemma CWExampleFrequency(s: string)
    requires s == "#C3-G:0432144," + "0432144" + "," + "0020" + "," + "0000100" + ",0,0,0"
    ensures Column(s, 14, 21) == Some(432144)
  {
    Digits0432144();
    DigitColumn(s, 14, 21, "0432144");
  }

  /** Step-count column of the continuous-wave example line. */
  lemma CWExampleSteps(s: string)
    requires s == "#C3-G:0432144," + "0432144" + "," + "0020" + "," + "0000100" + ",0,0,0"
    ensures Column(s, 22, 26) == Some(20)
  {
    Digits0020();
    DigitColumn(s, 22, 26, "0020");
  }

  /** Step column of the continuous-wave example line. */
  lemma CWExampleStep(s: string)
    requires s == "#C3-G:0432144," + "0432144" + "," + "0020" + "," + "0000100" + ",0,0,0"
    ensures Column(s, 27, 34) == Some(100)
  {
    Digits0000100();
    DigitColumn(s, 27, 34, "0000100");
  }

  /** The columns of the continuous-wave line documented beside the "#C3-G" branch. */
  lemma CWExampleColumns(s: string)
    requires s == "#C3-G:0432144," + "0432144" + "," + "0020" + "," + "0000100" + ",0,0,0"
    ensures CWColumnsOf(s) == CWColumns(Some(432144), Some(20), Some(100), Some(false), Some(0), Some(false))
  {
    CWExampleFrequency(s);
    CWExampleSteps(s);
    CWExampleStep(s);
  }

  /** That line decodes to a 432.144 MHz carrier, 20 steps of 0.1 MHz, high power, level and power-on all off. */
  lemma CWExample(s: string)
    requires s == "#C3-G:0432144," + "0432144" + "," + "0020" + "," + "0000100" + ",0,0,0"
    ensures Decode(Default(), s) == Parsed(true, Default().(lineString := s,
      genCWFreqMHZ := 432.144, freqSpectrumSteps := 20, stepMHZ := 0.1, genHighPowerSwitch := false,
      genPowerLevel := 0, genPowerOn := false, mode := ModeGenCW))
  {
    CWDispatch(Default(), s);
    CWExampleColumns(s);
  }
}
