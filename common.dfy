// Enumerations and constants shared by the RF Explorer driver
// (RFExplorer/RFE_Common.py), plus an Option type for the values the
// driver reports as "missing" (Python's None).

module RFECommon {

  datatype Option<+T> = None | Some(value: T)

  // ----- constants -----

  const FCY_CLOCK: int := 16 * 1000 * 1000
  const MIN_AMPLITUDE_DBM: real := -120.0
  const MAX_AMPLITUDE_DBM: real := 50.0
  const MAX_SPECTRUM_STEPS: int := 65535
  const MAX_ELEMENTS: int := 1000
  const ACKNOWLEDGE: string := "#ACK"
  const RFGEN_MIN_FREQ_MHZ: real := 23.438
  const RFGEN_MAX_FREQ_MHZ: real := 6000.0
  const RESET_STRING: string := "(C) Ariel Rocholl "

  // ----- eModel -----

  datatype Model =
    | Model433 | Model868 | Model915 | ModelWSUB1G | Model2400 | ModelWSUB3G | Model6G
    | ModelWSUB1GPlus | ModelAudioPro | Model2400Plus | Model4GPlus | Model6GPlus
    | ModelW5G3G | ModelW5G4G | ModelW5G5G
    | ModelRFGen | ModelRFGenExpansion
    | ModelNone

  /** The wire value of a model; `eModel` maps it back to the same model. */
  function ModelValue(m: Model): (n: int)
    ensures ModelFromInt(n) == Some(m)
  {
    match m
    case Model433 => 0
    case Model868 => 1
    case Model915 => 2
    case ModelWSUB1G => 3
    case Model2400 => 4
    case ModelWSUB3G => 5
    case Model6G => 6
    case ModelWSUB1GPlus => 10
    case ModelAudioPro => 11
    case Model2400Plus => 12
    case Model4GPlus => 13
    case Model6GPlus => 14
    case ModelW5G3G => 16
    case ModelW5G4G => 17
    case ModelW5G5G => 18
    case ModelRFGen => 60
    case ModelRFGenExpansion => 61
    case ModelNone => 255
  }

  /** `eModel(n)`: None where Python raises ValueError for a value outside the enumeration. */
  function ModelFromInt(n: int): Option<Model> {
    if n == 0 then Some(Model433)
    else if n == 1 then Some(Model868)
    else if n == 2 then Some(Model915)
    else if n == 3 then Some(ModelWSUB1G)
    else if n == 4 then Some(Model2400)
    else if n == 5 then Some(ModelWSUB3G)
    else if n == 6 then Some(Model6G)
    else if n == 10 then Some(ModelWSUB1GPlus)
    else if n == 11 then Some(ModelAudioPro)
    else if n == 12 then Some(Model2400Plus)
    else if n == 13 then Some(Model4GPlus)
    else if n == 14 then Some(Model6GPlus)
    else if n == 16 then Some(ModelW5G3G)
    else if n == 17 then Some(ModelW5G4G)
    else if n == 18 then Some(ModelW5G5G)
    else if n == 60 then Some(ModelRFGen)
    else if n == 61 then Some(ModelRFGenExpansion)
    else if n == 255 then Some(ModelNone)
    else None
  }

  /** `eModel` accepts exactly the wire values of the models. */
  lemma ModelFromIntInverse(n: int, m: Model)
    ensures ModelFromInt(n) == Some(m) <==> ModelValue(m) == n
  {
  }

  // ----- eMode -----

  datatype Mode =
    | ModeSpectrumAnalyzer | ModeTransmitter | ModeWifiAnalyzer | ModeTracking | ModeSniffer
    | ModeGenCW | ModeGenSweepFreq | ModeGenSweepAmp
    | ModeNone

  /** The wire value of a mode; `eMode` maps it back to the same mode. */
  function ModeValue(m: Mode): (n: int)
    ensures ModeFromInt(n) == Some(m)
  {
    match m
    case ModeSpectrumAnalyzer => 0
    case ModeTransmitter => 1
    case ModeWifiAnalyzer => 2
    case ModeTracking => 5
    case ModeSniffer => 6
    case ModeGenCW => 60
    case ModeGenSweepFreq => 61
    case ModeGenSweepAmp => 62
    case ModeNone => 255
  }

  /** `eMode(n)`: None where Python raises ValueError. */
  function ModeFromInt(n: int): Option<Mode> {
    if n == 0 then Some(ModeSpectrumAnalyzer)
    else if n == 1 then Some(ModeTransmitter)
    else if n == 2 then Some(ModeWifiAnalyzer)
    else if n == 5 then Some(ModeTracking)
    else if n == 6 then Some(ModeSniffer)
    else if n == 60 then Some(ModeGenCW)
    else if n == 61 then Some(ModeGenSweepFreq)
    else if n == 62 then Some(ModeGenSweepAmp)
    else if n == 255 then Some(ModeNone)
    else None
  }

  /** `eMode` accepts exactly the wire values of the modes. */
  lemma ModeFromIntInverse(n: int, m: Mode)
    ensures ModeFromInt(n) == Some(m) <==> ModeValue(m) == n
  {
  }

  // ----- eCalculator -----

  datatype Calculator = CalcNormal | CalcMax | CalcAvg | CalcOverwrite | CalcMaxHold | CalcMaxHistorical | CalcUnknown

  function CalculatorFromInt(n: int): Option<Calculator> {
    if n == 0 then Some(CalcNormal)
    else if n == 1 then Some(CalcMax)
    else if n == 2 then Some(CalcAvg)
    else if n == 3 then Some(CalcOverwrite)
    else if n == 4 then Some(CalcMaxHold)
    else if n == 5 then Some(CalcMaxHistorical)
    else if n == 255 then Some(CalcUnknown)
    else None
  }

  // ----- eModulation -----

  datatype Modulation = ModulationOokRaw | ModulationPskRaw | ModulationOokStd | ModulationPskStd | ModulationNone

  function ModulationFromInt(n: int): Option<Modulation> {
    if n == 0 then Some(ModulationOokRaw)
    else if n == 1 then Some(ModulationPskRaw)
    else if n == 2 then Some(ModulationOokStd)
    else if n == 3 then Some(ModulationPskStd)
    else if n == 255 then Some(ModulationNone)
    else None
  }

  // ----- eDSP -----

  datatype DSP = DspAuto | DspFilter | DspFast | DspNoImg

  function DspFromInt(n: int): Option<DSP> {
    if n == 0 then Some(DspAuto)
    else if n == 1 then Some(DspFilter)
    else if n == 2 then Some(DspFast)
    else if n == 3 then Some(DspNoImg)
    else None
  }
}
