# RF Explorer driver core in Dafny

This project models the protocol core of the RF Explorer Python driver. The driver talks to handheld RF Explorer spectrum analyzers and signal generators over a serial line. The model covers:

- **the receive thread's framer** (`framer.dfy`). One pass of its inner loop cuts one frame off the front of the received text. It handles '#' text and configuration lines, "$S" / "$s" / "$z" sweep frames, "$C" calibration chunks, dropped "$q" / "$Q" screen dumps, "$D" frames that are never consumed, and generic lines. It queues what it decoded and keeps the current configuration.
- **configuration lines** (`configuration.dfy`). "#C2-F" analyzer, "#C3-" generator and "#C4-F" sniffer lines are decoded at fixed columns. The object keeps the fields written before a bad column, and the handler itself raises.
- **sweep records** (`sweep.dfy`). A "$S" payload decodes as `-byte/2 + offset` per point. There are sentinel-returning accessors, peak and minimum searches, the same-configuration test and duplication.
- **the sweep collection** (`sweep_collection.dfy`). It is an insertion-ordered store with a hard cap, growth in chunks of 10000 and a running max-hold record. The eviction path without autogrow fails, and the average / median queries always answer None.
- **amplitude calibration tables** (`amplitude_table.dfy`). In-place passes fill the placeholder entries by interpolation or by copying forward, and set compression defaults.
- **the RFECommunicator session** (`session.dfy`). It covers command framing, the serial-number and model-name helpers, the generator power text, the read-once acknowledge and reset flags, the state reset of `ClosePort`, and the drain of the token queue into device state and the sweep collection.

`common.dfy` holds the enumerations and constants of `RFE_Common.py`. `pytext.dfy` holds the Python primitives the driver depends on, with their edge cases: clamped slices, `IndexError`, `int()`, `float()`, `round()`, `str.find` and `str.upper`.

Python exceptions are modelled explicitly. A raise inside the receive thread's loop ends that thread, which is `ReaderDies` in the framer. A raise inside the session's drain ends the drain after the token that raised. A value that `eModel(n)` / `eMode(n)` rejects is `None`. Integers are unbounded `int`. Frequencies and amplitudes are exact `real`s. The received buffer is latin-1 decoded text, one character per byte.

Where the code and the design description of the driver disagree, the model follows the code:

- `CONST_EEOT` is never consulted. A sweep frame whose CRLF is misplaced is cut at the first CRLF anywhere in the buffer, and the reader raises when there is none.
- A configuration line that parses as False is dropped, not re-queued as a diagnostic line. A bad column makes the decoder's own error handler raise, which ends the reader thread. So decode errors are not always caught.
- Auto-clean empties the sweep collection on every analyzer configuration, not only when the frequency plan changed.
- The max-hold record is sized by the first sweep after a clean and is never resized.
- The collection has no working fixed-window eviction: without autogrow, a full collection refuses the sweep.
- `GetAverage` and `GetMedianAverage` return None for every input.
- Wire values that name no model or mode raise instead of mapping to "unknown".

## Model

| member | source | states |
|---|---|---|
| RFECommon.ModelValue | RFExplorer/RFE_Common.py:63-87 | every model's wire value converts back to that model |
| RFECommon.ModelFromIntInverse | RFExplorer/RFE_Common.py:63-87 | `eModel(n)` yields model m exactly when n is m's value; every other integer raises |
| RFECommon.ModeValue | RFExplorer/RFE_Common.py:89-102 | every mode's wire value converts back to that mode |
| RFECommon.ModeFromIntInverse | RFExplorer/RFE_Common.py:89-102 | `eMode(n)` yields mode m exactly when n is m's value; every other integer raises |
| PyText.Slice | RFExplorer/RFEConfiguration.py:119-135 | `s[i:j]` clamps both ends to the length: the exact subsequence when in range, empty when j <= i |
| PyText.PyIndex | RFExplorer/RFESweepDataCollection.py:93-107 | a Python list index names an existing position, counting from the end when negative, and raises exactly outside [-len, len) |
| PyText.CharAt | RFExplorer/ReceiveSerialThread.py:160 | indexing a string raises exactly past its end and otherwise yields that character |
| PyText.FindCrlfFrom | RFExplorer/ReceiveSerialThread.py:90 | the first "\r\n" at or after a position, or -1 when there is none |
| PyText.FindCrlf | RFExplorer/ReceiveSerialThread.py:90 | `find("\r\n")` is -1 exactly when there is no "\r\n", and otherwise the first one |
| PyText.FindCrlfTerminated | RFExplorer/ReceiveSerialThread.py:90-94 | a line without "\r\n" followed by "\r\n" is found to end right after the line |
| PyText.StripLeftShape | RFExplorer/RFEConfiguration.py:119 | `int()`'s leading strip removes exactly a whitespace prefix |
| PyText.StripRightShape | RFExplorer/RFEConfiguration.py:119 | `int()`'s trailing strip removes exactly a whitespace suffix |
| PyText.StripNoSpace | RFExplorer/RFEConfiguration.py:119 | text without surrounding whitespace is not changed by stripping |
| PyText.IntToStr | RFExplorer/ReceiveSerialThread.py:201 | `str(n)` is a non-empty sign-and-digits text ending in a digit |
| PyText.NatToStr | RFExplorer/ReceiveSerialThread.py:201 | `str(n)` of a natural number is non-empty decimal digits |
| PyText.DigitChar | RFExplorer/ReceiveSerialThread.py:201 | the digit character of k has the value k |
| PyText.NatToStrIsRun | RFExplorer/ReceiveSerialThread.py:201 | the decimal text of n is a digit run whose value is n |
| PyText.AllDigitsIsRun | RFExplorer/RFEConfiguration.py:119-135 | plain digits are a run `int()` accepts |
| PyText.IntRoundTrip | RFExplorer/RFEConfiguration.py:119-135 | `int(str(n)) == n` for every integer |
| PyText.SignedRunRoundTrip | RFExplorer/RFEConfiguration.py:119-135 | the signed decimal text of n reads back as n |
| PyText.RunValueSnoc | RFExplorer/RFEConfiguration.py:119-135 | one more digit shifts the value one decimal place |
| PyText.DigitsParse | RFExplorer/RFEConfiguration.py:119-135 | `int()` of plain digits (leading zeros allowed) is their decimal value |
| PyText.CharInt | RFExplorer/ReceiveSerialThread.py:120-122 | `int()` of one character parses exactly a decimal digit, to 0..9 |
| PyText.Pow10 | RFExplorer/RFEConfiguration.py:201 | powers of ten used by `float()` are at least 1 |
| PyText.Scale | RFExplorer/RFEConfiguration.py:201 | the decimal exponent scale of `float()` is positive |
| PyText.FindChar | RFExplorer/RFEConfiguration.py:201 | the first occurrence of a character, or the length |
| PyText.FindExponent | RFExplorer/RFEConfiguration.py:201 | the first 'e' or 'E', or the length |
| PyText.ParseFloatExtendsParseInt | RFExplorer/RFEConfiguration.py:198-201 | every text `int()` accepts, `float()` accepts with the same value |
| PyText.RunAsFloat | RFExplorer/RFEConfiguration.py:201 | a digit run reads as `float()` with its integer value |
| PyText.RunHasNoMarks | RFExplorer/RFEConfiguration.py:201 | a digit run has no decimal point or exponent |
| PyText.RoundHalfEven | RFExplorer/RFEConfiguration.py:198 | Python 3 `round()`: within one half of x, strictly nearest off a tie, even on a tie |
| PyText.UpperChar | RFExplorer/RFExplorer.py:143-158 | `upper()` of one character keeps ASCII single and gives ASCII text exactly for ASCII and the listed characters |
| PyText.UpperOfUpper | RFExplorer/RFExplorer.py:143-158 | text of capitals, digits and punctuation is its own upper case |
| Configuration.Default | RFExplorer/RFEConfiguration.py:61-90 | a fresh object has mode MODE_NONE, calculator UNKNOWN, modulation NONE, zero RBW and offset, stop power level 1 and an empty line |
| Configuration.Copy | RFExplorer/RFEConfiguration.py:30-60 | a copy holds every decoded field of the source and an empty line text |
| Configuration.FamilyMarks | RFExplorer/RFEConfiguration.py:117-192 | the three line families are told apart by their third character, so at most one branch applies |
| Configuration.Decode | RFExplorer/RFEConfiguration.py:104-208 | the line is always recorded; a line of no family returns False with the fields unchanged; a "#C3-" line with an unknown fifth character returns False and sets MODE_NONE |
| Configuration.AssignAnalyzer | RFExplorer/RFEConfiguration.py:119-128 | the "#C2-F" assignments never return False: they succeed or raise |
| Configuration.DecodeAnalyzer | RFExplorer/RFEConfiguration.py:117-135 | the "#C2-F" branch never returns False: it succeeds or raises |
| Configuration.AssignAnalyzerTail | RFExplorer/RFEConfiguration.py:130-135 | the optional RBW, offset and calculator assignments succeed or raise |
| Configuration.DecodeAnalyzerTail | RFExplorer/RFEConfiguration.py:130-135 | the optional tail columns succeed or raise, keeping the line text |
| Configuration.AssignStatus | RFExplorer/RFEConfiguration.py:138-152 | the "#C3-*" assignments succeed with mode MODE_NONE, or raise |
| Configuration.DecodeGeneratorStatus | RFExplorer/RFEConfiguration.py:138-152 | the "#C3-*" branch succeeds with mode MODE_NONE, or raises |
| Configuration.AssignSweepAmplitude | RFExplorer/RFEConfiguration.py:153-163 | the "#C3-A" assignments succeed with MODE_GEN_SWEEP_AMP, or raise |
| Configuration.DecodeSweepAmplitude | RFExplorer/RFEConfiguration.py:153-163 | the "#C3-A" branch succeeds with MODE_GEN_SWEEP_AMP, or raises |
| Configuration.AssignSweepFrequency | RFExplorer/RFEConfiguration.py:164-176 | the "#C3-F" assignments succeed with MODE_GEN_SWEEP_FREQ, or raise |
| Configuration.DecodeSweepFrequency | RFExplorer/RFEConfiguration.py:164-176 | the "#C3-F" branch succeeds with MODE_GEN_SWEEP_FREQ, or raises |
| Configuration.AssignCW | RFExplorer/RFEConfiguration.py:177-188 | the "#C3-G" assignments succeed with MODE_GEN_CW, or raise |
| Configuration.DecodeCW | RFExplorer/RFEConfiguration.py:177-188 | the "#C3-G" branch succeeds with MODE_GEN_CW, or raises |
| Configuration.Baudrate | RFExplorer/RFEConfiguration.py:197-198 | the baud rate is within one half of 16e6 divided by the delay, and a zero delay raises |
| Configuration.AssignSniffer | RFExplorer/RFEConfiguration.py:194-201 | the "#C4-F:" assignments succeed or raise |
| Configuration.DecodeSniffer | RFExplorer/RFEConfiguration.py:192-201 | the "#C4-F:" branch succeeds or raises |
| Configuration.RFEConfiguration.constructor | RFExplorer/RFEConfiguration.py:30-90 | a new object copies the source, or holds the defaults when there is none |
| Configuration.RFEConfiguration.ProcessReceivedString | RFExplorer/RFEConfiguration.py:104-208 | the object's fields become the decoder's result; it raises exactly when the handler's own exception escapes, and returns True only for a successful decode |
| Configuration.AnalyzerDispatch | RFExplorer/RFEConfiguration.py:115-117 | an analyzer line goes to the "#C2-F" decoder over the prior fields with the line recorded |
| Configuration.SnifferDispatch | RFExplorer/RFEConfiguration.py:192 | a sniffer line goes to the "#C4-F:" decoder |
| Configuration.AnalyzerColumnsStored | RFExplorer/RFEConfiguration.py:119-128 | when all "#C2-F" columns parse, each lands in its field with its unit conversion (kHz and Hz to MHz) |
| Configuration.AnalyzerTailFields | RFExplorer/RFEConfiguration.py:130-135 | RBW, offset and calculator are read only when the line is longer than 66, 72 and 76 characters; shorter lines keep the prior values |
| Configuration.GeneratorDispatch | RFExplorer/RFEConfiguration.py:136-191 | a "#C3-" line picks its mode from the fifth character, and an unknown one returns False with MODE_NONE |
| Configuration.AnalyzerBadStep | RFExplorer/RFEConfiguration.py:119-120 | a step column that does not parse raises with only the start frequency written |
| Configuration.AnalyzerBadMode | RFExplorer/RFEConfiguration.py:123-125 | a mode number outside `eMode` raises after the sweep size is stored, with the mode unchanged |
| Configuration.StatusColumnsStored | RFExplorer/RFEConfiguration.py:138-152 | a "#C3-*" status is stored exactly when all thirteen columns read: start, CW and step from kHz to MHz, the step count, both switches and levels for the current, start and stop settings, RF on, the wait, and MODE_NONE; otherwise it raises |
| Configuration.GeneratorStatusDispatch | RFExplorer/RFEConfiguration.py:136-152 | a "#C3-*" line is decoded by the status assignments over its columns with the line recorded |
| Configuration.SnifferColumnsStored | RFExplorer/RFEConfiguration.py:192-201 | a "#C4-F:" line is stored exactly when its columns read, its mode and modulation are known and the divider is not 0: start from kHz to MHz, expansion flag, mode, baud rate rounded from 16e6 over the divider, modulation, RBW and -0.5 times the threshold; otherwise it raises |
| Configuration.SnifferLineStored | RFExplorer/RFEConfiguration.py:192-201 | the sniffer columns are the slices at 6-13, 14, 16-19, 20-25, 26-27, 28-33 and 34-37 of the line, and the line is decoded by the sniffer assignments over them |
| Configuration.SweepAmplitudeDispatch | RFExplorer/RFEConfiguration.py:153 | a "#C3-A" line is decoded by the amplitude-sweep assignments |
| Configuration.SweepAmplitudeColumnsStored | RFExplorer/RFEConfiguration.py:153-163 | a "#C3-A" line is stored exactly when every column reads, each in its field, with MODE_GEN_SWEEP_AMP; otherwise it raises |
| Configuration.SweepFrequencyColumnsStored | RFExplorer/RFEConfiguration.py:164-176 | a "#C3-F" line is stored exactly when every column reads, each in its field, with MODE_GEN_SWEEP_FREQ; otherwise it raises |
| Configuration.CWColumnsStored | RFExplorer/RFEConfiguration.py:177-188 | a "#C3-G" line is stored exactly when every column reads, each in its field, with MODE_GEN_CW; otherwise it raises |
| Configuration.SnifferBaudrate | RFExplorer/RFEConfiguration.py:197-198 | a zero clock divider raises before the baud rate is written; otherwise the baud rate is rounded 16e6 / delay |
| Configuration.Digits0221000 | RFExplorer/RFEConfiguration.py:166 | the digits "0221000" of the documented line are 221000 |
| Configuration.Digits0020 | RFExplorer/RFEConfiguration.py:166 | the digits "0020" of the documented line are 20 |
| Configuration.Digits0000100 | RFExplorer/RFEConfiguration.py:166 | the digits "0000100" of the documented line are 100 |
| Configuration.Digits00150 | RFExplorer/RFEConfiguration.py:166 | the digits "00150" of the documented line are 150 |
| Configuration.Digits0432144 | RFExplorer/RFEConfiguration.py:179 | the digits "0432144" of the documented line are 432144 |
| Configuration.SweepFrequencyDispatch | RFExplorer/RFEConfiguration.py:164 | a "#C3-F" line goes to the frequency-sweep decoder |
| Configuration.CWDispatch | RFExplorer/RFEConfiguration.py:177 | a "#C3-G" line goes to the continuous-wave decoder |
| Configuration.DigitColumn | RFExplorer/RFEConfiguration.py:119-135 | a column of plain digits, leading zeros included, reads as their value |
| Configuration.SweepFrequencyExampleStart | RFExplorer/RFEConfiguration.py:166-169 | the start column of the documented "#C3-F" line reads 221000 |
| Configuration.SweepFrequencyExampleSteps | RFExplorer/RFEConfiguration.py:166-170 | its step-count column reads 20 |
| Configuration.SweepFrequencyExampleStep | RFExplorer/RFEConfiguration.py:166-171 | its step column reads 100 |
| Configuration.SweepFrequencyExampleWait | RFExplorer/RFEConfiguration.py:166-175 | its wait column reads 150 |
| Configuration.SweepFrequencyExampleColumns | RFExplorer/RFEConfiguration.py:166-175 | every column of the documented "#C3-F" line, as the branch reads them |
| Configuration.SweepFrequencyExample | RFExplorer/RFEConfiguration.py:164-176 | the documented "#C3-F" line decodes to 221 MHz start, 20 steps of 0.1 MHz, level 0, power on, 150 ms wait, MODE_GEN_SWEEP_FREQ |
| Configuration.CWExampleFrequency | RFExplorer/RFEConfiguration.py:179-182 | the carrier column of the documented "#C3-G" line reads 432144 |
| Configuration.CWExampleSteps | RFExplorer/RFEConfiguration.py:179-183 | its step-count column reads 20 |
| Configuration.CWExampleStep | RFExplorer/RFEConfiguration.py:179-184 | its step column reads 100 |
| Configuration.CWExampleColumns | RFExplorer/RFEConfiguration.py:179-187 | every column of the documented "#C3-G" line, as the branch reads them |
| Configuration.CWExample | RFExplorer/RFEConfiguration.py:177-188 | the documented "#C3-G" line decodes to a 432.144 MHz carrier, 20 steps of 0.1 MHz, all switches off, MODE_GEN_CW |
| Sweep.SweepRecord.WithAmplitude | RFExplorer/RFESweepData.py:159-167 | writing a slot keeps the record's shape: start, step and point count unchanged |
| Sweep.SweepRecord.GetAmplitudeDBM | RFExplorer/RFESweepData.py:138-157 | for any int index: -120 dBm at or past the point count; below it the list is read, a negative index from its end, and an index before its start raises |
| Sweep.SweepRecord.WithAmplitudeAt | RFExplorer/RFESweepData.py:159-167 | for any int index: a non-negative index writes as `WithAmplitude`; a negative one below the point count writes from the end of the list, and raises exactly when it lies before its start; the shape is kept |
| Sweep.SweepRecord.EndFrequencyMHZ | RFExplorer/RFESweepData.py:49-53 | the end frequency is start plus step times the number of steps |
| Sweep.SweepRecord.FrequencySpanMHZ | RFExplorer/RFESweepData.py:182-188 | the span is the distance from the start to the end frequency |
| Sweep.Blank | RFExplorer/RFESweepData.py:34-41 | a new sweep has the given start, step and point count, and reads -120 dBm at every point |
| Sweep.DecodedAmplitudes | RFExplorer/RFESweepData.py:111-117 | one amplitude per payload byte |
| Sweep.Decode | RFExplorer/RFESweepData.py:86-124 | decoding succeeds exactly for a "$S" line with one byte per point; on success every point holds minus half its byte plus the offset and nothing else changes; on failure nothing changes |
| Sweep.DecodedRange | RFExplorer/RFESweepData.py:113-117 | a decoded amplitude lies between offset - 127.5 and offset |
| Sweep.DBMToByte | RFExplorer/RFESweepData.py:113-114 | the byte for a byte-level amplitude decodes back to it |
| Sweep.SweepLine | RFExplorer/RFESweepData.py:101 | the "$S" line for n amplitudes has the prefix and n single-byte characters |
| Sweep.DecodeSweepLine | RFExplorer/RFESweepData.py:86-124 | round trip: decoding the line built from byte-level amplitudes gives exactly those amplitudes |
| Sweep.GetAfterSet | RFExplorer/RFESweepData.py:151-167 | reading a slot just written gives the written value; other slots, and writes past the end, leave reads unchanged |
| Sweep.GetAfterSetAt | RFExplorer/RFESweepData.py:151-167 | after a write that does not raise, reading the same index below the point count gives the value, and every other slot keeps its value |
| Sweep.FrequencyStep | RFExplorer/RFESweepData.py:169-180 | neighbouring points are one step apart |
| Sweep.SameConfigurationReflexive | RFExplorer/RFESweepData.py:219-227 | a sweep has the same configuration as itself |
| Sweep.SameConfigurationSymmetric | RFExplorer/RFESweepData.py:219-227 | the comparison is symmetric |
| Sweep.SameConfigurationNotTransitive | RFExplorer/RFESweepData.py:219-227 | the 0.001 MHz tolerance makes the comparison not transitive |
| Sweep.CorrectedAmplitudeDBM | RFExplorer/RFESweepData.py:138-157 | -120 dBm at or past the point count; without a table, the plain read for any int index; with a table the call raises exactly when the index lies before the list's start or the point's whole MHz is below 6101 |
| Sweep.TruncToInt | RFExplorer/RFESweepData.py:153 | `int()` on a float truncates toward zero |
| Sweep.SweepData.Value | RFExplorer/RFESweepData.py:31-41 | a valid object's value is a well-formed record |
| Sweep.SweepData.constructor | RFExplorer/RFESweepData.py:34-41 | a new object holds the blank sweep |
| Sweep.SweepData.SetAmplitudeDBM | RFExplorer/RFESweepData.py:159-167 | for any int index, the object raises exactly when `WithAmplitudeAt` does and then is unchanged; otherwise its value becomes `WithAmplitudeAt` of the old value |
| Sweep.SweepData.ProcessReceivedString | RFExplorer/RFESweepData.py:86-124 | the loop leaves the object holding `Decode` of its old value, with the same verdict |
| Sweep.SweepData.GetPeakDataPoint | RFExplorer/RFESweepData.py:204-217 | index of the first maximal amplitude when some point exceeds -120 dBm, else 0 |
| Sweep.SweepData.GetMinDataPoint | RFExplorer/RFESweepData.py:190-202 | index of the first minimal amplitude when some point is below 50 dBm, else 0 |
| Sweep.SweepData.Duplicate | RFExplorer/RFESweepData.py:229-239 | a new object with an equal value and its own amplitude array |
| SweepCollection.Placeholders | RFExplorer/RFESweepDataCollection.py:146 | `[RFESweepData] * n`: n placeholder slots, none for n <= 0 |
| SweepCollection.Cleaned | RFExplorer/RFESweepDataCollection.py:143-148 | a cleaned store has a list of the initial size, no max-hold and upper bound -1 |
| SweepCollection.MaxUpTo | RFExplorer/RFESweepDataCollection.py:132-136 | the max-hold update keeps the record's start, step and point count |
| SweepCollection.MaxInto | RFExplorer/RFESweepDataCollection.py:132-136 | one `Add`'s max-hold update keeps the record's start, step and point count |
| SweepCollection.MaxIntoKeepsMaxHold | RFExplorer/RFESweepDataCollection.py:132-136 | if a point held the maximum over earlier sweeps, it holds the maximum over them and the new sweep after the update |
| SweepCollection.FoldMaxHold | RFExplorer/RFESweepDataCollection.py:132-136 | the point-by-point loop computes exactly `MaxInto` |
| SweepCollection.SweepDataCollection.constructor | RFExplorer/RFESweepDataCollection.py:31-46 | the initial size is capped at 1000 and the store starts cleaned |
| SweepCollection.SweepDataCollection.GetData | RFExplorer/RFESweepDataCollection.py:84-95 | lookup up to the upper bound with Python indexing (raising past the list, counting back for negatives), None above it |
| SweepCollection.SweepDataCollection.CleanAll | RFExplorer/RFESweepDataCollection.py:143-148 | the state becomes the cleaned state; size and autogrow unchanged |
| SweepCollection.SweepDataCollection.ResizeCollection | RFExplorer/RFESweepDataCollection.py:330-336 | the list gains the given number of placeholder slots at its end; nothing else changes |
| SweepCollection.SweepDataCollection.Add | RFExplorer/RFESweepDataCollection.py:105-141 | the new state and result are `AddSpec` of the old state, including the partial writes of a call that raises |
| SweepCollection.SweepDataCollection.GetAverage | RFExplorer/RFESweepDataCollection.py:210-253 | always None: the guard rejects bad ranges, and for good ones `for` over an int raises and the handler returns None |
| SweepCollection.SweepDataCollection.GetMedianAverage | RFExplorer/RFESweepDataCollection.py:167-208 | always None, for the same two reasons |
| SweepCollectionProperties.AddAll | RFExplorer/RFESweepDataCollection.py:105-141 | calling `Add` once per sweep gives one result per sweep and keeps the max-hold well formed |
| SweepCollectionProperties.FullRejects | RFExplorer/RFESweepDataCollection.py:97-115 | a full store (upper bound at least 1000) refuses and changes nothing |
| SweepCollectionProperties.AddStoresAtEnd | RFExplorer/RFESweepDataCollection.py:105-141 | `Add` succeeds exactly when the store is not full and has a free slot or may grow; then the sweep sits just past the old upper bound and no other slot changes |
| SweepCollectionProperties.EvictionFails | RFExplorer/RFESweepDataCollection.py:119-127 | without autogrow a used-up list sets slot 0 to None and the upper bound to len-2, then fails; the next `Add` stores into the last slot |
| SweepCollectionProperties.EmptyListNeverStores | RFExplorer/RFESweepDataCollection.py:119-131 | without autogrow and with an empty list every `Add` fails, the upper bound swinging between -1 and -2 |
| SweepCollectionProperties.DataStep | RFExplorer/RFESweepDataCollection.py:119-130 | below the cap with autogrow, `Add` stores the next sweep and keeps every earlier one readable at its index |
| SweepCollectionProperties.HoldStep | RFExplorer/RFESweepDataCollection.py:117-136 | a successful `Add` extends the max-hold over the sweeps so far by the new one |
| SweepCollectionProperties.FillFromClean | RFExplorer/RFESweepDataCollection.py:105-148 | from a cleaned autogrowing store, up to 1001 sweeps are all accepted, `GetData(i)` returns the i-th, and the max-hold record holds the pointwise maximum |
| SweepCollectionProperties.ThousandAndOneAccepted | RFExplorer/RFESweepDataCollection.py:97-115 | from a cleaned autogrowing store exactly the first 1001 calls succeed; later calls change nothing |
| AmplitudeTable.LastValidBefore | RFExplorer/RFEAmplitudeTableData.py:115-124 | the anchor the pass remembers before entry j: the last valid index below j (or -1), with nothing valid strictly between it and j |
| AmplitudeTable.FirstValidIn | RFExplorer/RFEAmplitudeTableData.py:129-132 | the next anchor the pass finds in [lo, hi): the first valid index, or hi, with nothing valid before it |
| AmplitudeTable.NormalizedIterating | RFExplorer/RFEAmplitudeTableData.py:107-156 | the table after the iterating fill keeps its length, and the last entry, which `range(len - 1)` never visits, is unchanged |
| AmplitudeTable.NormalizedCopy | RFExplorer/RFEAmplitudeTableData.py:174-185 | the table after the copying fill keeps its length |
| AmplitudeTable.IteratingKeepsAnchors | RFExplorer/RFEAmplitudeTableData.py:121-147 | a valid (loaded) entry keeps its value through the iterating fill |
| AmplitudeTable.IteratingLeadingDefault | RFExplorer/RFEAmplitudeTableData.py:121-128 | placeholders before the first loaded entry become the default correction 0.0 |
| AmplitudeTable.IteratingInterpolates | RFExplorer/RFEAmplitudeTableData.py:134-143 | placeholders between two consecutive anchors lie on the straight line between the anchors, step by step |
| AmplitudeTable.IteratingTrailingCopy | RFExplorer/RFEAmplitudeTableData.py:149-154 | placeholders after the last anchor copy the anchor, up to the second-to-last entry |
| AmplitudeTable.LastValidIsAnchor | RFExplorer/RFEAmplitudeTableData.py:123-124 | a valid entry with only placeholders after it up to j is the anchor remembered at j |
| AmplitudeTable.FirstValidIsAnchor | RFExplorer/RFEAmplitudeTableData.py:130-132 | a valid entry with only placeholders before it in the window is the next anchor found |
| AmplitudeTable.NoValidIn | RFExplorer/RFEAmplitudeTableData.py:149-154 | a window of placeholders has no next anchor |
| AmplitudeTable.FirstValidExtend | RFExplorer/RFEAmplitudeTableData.py:129-132 | growing the window by one entry keeps a found anchor and otherwise finds the new entry if it is valid |
| AmplitudeTable.StepPlaceholder | RFExplorer/RFEAmplitudeTableData.py:125-128 | visiting a placeholder changes no earlier target; the placeholder takes the last anchor, or 0.0 when there is none |
| AmplitudeTable.StepAnchor | RFExplorer/RFEAmplitudeTableData.py:129-147 | visiting a valid entry keeps it, re-targets exactly the placeholders since the previous anchor onto the line to it, and changes nothing else |
| AmplitudeTable.IteratedIsNormalized | RFExplorer/RFEAmplitudeTableData.py:118-156 | an array whose entries hold every visited target and an unchanged last entry is exactly the normalised table |
| AmplitudeTable.AmplitudeTableData.constructor | RFExplorer/RFEAmplitudeTableData.py:36-42 | a new table has 6101 entries per array, all placeholders except the last (0.0), an empty ID and no data flags |
| AmplitudeTable.AmplitudeTableData.Clear | RFExplorer/RFEAmplitudeTableData.py:72-79 | every entry but the last of both arrays becomes a placeholder; the last entries, and the compression flag, are untouched; the ID is emptied |
| AmplitudeTable.AmplitudeTableData.GetAmplitudeCalibration | RFExplorer/RFEAmplitudeTableData.py:81-92 | the result is `CalibrationLookup`: the guard raises below 6101 and gives the default 0.0 from 6101 up |
| AmplitudeTable.CalibrationLookup | RFExplorer/RFEAmplitudeTableData.py:89-92 | None (TypeError from `range(list)`) exactly for indices below 6101, the default correction 0.0 otherwise |
| AmplitudeTable.AmplitudeTableData.GetCompressionAmplitude | RFExplorer/RFEAmplitudeTableData.py:94-105 | raises exactly for indices below 6101 and returns the default compression -10.0 otherwise |
| AmplitudeTable.AmplitudeTableData.NormalizeDataIterating | RFExplorer/RFEAmplitudeTableData.py:107-156 | the array after the in-place pass equals `NormalizedIterating` of the array before it |
| AmplitudeTable.AmplitudeTableData.IteratingPass | RFExplorer/RFEAmplitudeTableData.py:115-154 | the loop leaves every visited entry at its target and the last entry unchanged |
| AmplitudeTable.AmplitudeTableData.VisitEntry | RFExplorer/RFEAmplitudeTableData.py:119-154 | one loop iteration keeps the loop invariant: remembered anchor, targets below n+1, untouched entries above n |
| AmplitudeTable.AmplitudeTableData.VisitAnchor | RFExplorer/RFEAmplitudeTableData.py:121-147 | the valid-entry branches of one iteration keep the loop invariant |
| AmplitudeTable.AmplitudeTableData.VisitPlaceholder | RFExplorer/RFEAmplitudeTableData.py:125-128 | the placeholder branches of one iteration keep the loop invariant |
| AmplitudeTable.AmplitudeTableData.FillBetween | RFExplorer/RFEAmplitudeTableData.py:137-143 | the inner while loop writes the line between the two anchors strictly between them and nothing else |
| AmplitudeTable.AmplitudeTableData.NormalizeAmplitudeCalibrationDataIterating | RFExplorer/RFEAmplitudeTableData.py:158-164 | the calibration array becomes its iterating normalisation; the compression array is unchanged |
| AmplitudeTable.AmplitudeTableData.NormalizeCompressionData | RFExplorer/RFEAmplitudeTableData.py:166-172 | the first and last compression entries become -10.0 if they are placeholders; every other entry and the calibration array are unchanged |
| AmplitudeTable.AmplitudeTableData.NormalizeDataCopy | RFExplorer/RFEAmplitudeTableData.py:174-185 | the calibration array becomes `NormalizedCopy` of itself; the compression array is unchanged |
| AmplitudeTable.CopyKeepsValid | RFExplorer/RFEAmplitudeTableData.py:180-185 | the copying fill keeps valid entries and leaves no placeholder after the first valid entry (below the last) |
| AmplitudeTable.CopyFromNearestLeft | RFExplorer/RFEAmplitudeTableData.py:179-185 | a placeholder takes the nearest valid value to its left |
| Framer.Step | RFExplorer/ReceiveSerialThread.py:79-232 | one pass only ever cuts characters off the front of the buffer, and the current configuration changes only when exactly one configuration is queued, becoming a copy of it |
| Framer.StepText | RFExplorer/ReceiveSerialThread.py:89-112 | a '#' frame consumes a prefix of the buffer; the configuration changes only with a queued configuration |
| Framer.ConfigLine | RFExplorer/ReceiveSerialThread.py:102-108 | a candidate line that raises in decoding ends the reader; True queues the object and makes a copy current; False drops the line and keeps the configuration |
| Framer.StepDollar | RFExplorer/ReceiveSerialThread.py:114-218 | a '$' frame consumes a prefix of the buffer and never changes the configuration |
| Framer.CalibrationSize | RFExplorer/ReceiveSerialThread.py:116-122 | the length a "$Cc" / "$Cb" chunk needs from its digit (None where `int()` raises), and 2 for any other "$C" |
| Framer.StepCalibration | RFExplorer/ReceiveSerialThread.py:116-132 | the reader dies exactly when the size digit does not parse; otherwise at most the consumed prefix is queued as one text line |
| Framer.StepDrop | RFExplorer/ReceiveSerialThread.py:134-141 | "$q"/"$Q" frames queue nothing and are cut exactly through the first "\r\n", or wait for it |
| Framer.SweepHeader | RFExplorer/ReceiveSerialThread.py:150-161 | header size and payload length of "$S" (one byte), "$s" (sixteens, 0 meaning 256) and "$z" (256s plus a digit, None where `int()` raises) |
| Framer.StepSweep | RFExplorer/ReceiveSerialThread.py:150-218 | a sweep frame consumes a prefix of the buffer and never changes the configuration |
| Framer.SweepFrame | RFExplorer/ReceiveSerialThread.py:171-203 | a complete payload leaves exactly the text after the frame; an oversized one with no configuration kills the reader (the message reads the missing configuration); without a configuration a normal one queues nothing |
| Framer.SweepTokens | RFExplorer/ReceiveSerialThread.py:181-195 | a decodable payload becomes one sweep with the configuration's start, step and size and the decoded amplitudes, or nothing for 5 points or fewer; an undecodable one is queued as text |
| Framer.StepLine | RFExplorer/ReceiveSerialThread.py:220-228 | any other frame queues exactly the text before the first "\r\n" and removes it with the "\r\n", or waits |
| Framer.ReceiveThread.constructor | RFExplorer/ReceiveSerialThread.py:35-43 | the reader starts with an empty buffer and queue and no configuration |
| Framer.ReceiveThread.Receive | RFExplorer/ReceiveSerialThread.py:59-232 | one pass appends the new text, then takes the new buffer, configuration and queued tokens from `Step`, or stops running when it raises |
| Framer.StepOverflowAndShort | RFExplorer/ReceiveSerialThread.py:79-85 | a buffer over 66 KiB is emptied (its diagnostic raises at verbose above 5); a buffer of at most one character is left alone |
| Framer.TextFrameIncomplete | RFExplorer/ReceiveSerialThread.py:89-91 | a '#' frame without "\r\n" waits |
| Framer.TextFrame | RFExplorer/ReceiveSerialThread.py:89-112 | a '#' line that is not a configuration is queued as it is, and exactly it and its "\r\n" are consumed |
| Framer.ConfigFrame | RFExplorer/ReceiveSerialThread.py:97-108 | a configuration candidate line is decoded by a fresh configuration object, never queued as text |
| Framer.ConfigCandidates | RFExplorer/ReceiveSerialThread.py:97 | the candidates are the "#C2-F:", "#C4-F:" and "#C3-" lines except "#C3-M", and only '#' lines |
| Framer.DumpFrameStays | RFExplorer/ReceiveSerialThread.py:143-149 | a "$D" frame is never consumed |
| Framer.SweepDispatch | RFExplorer/ReceiveSerialThread.py:150 | buffers opening with "$S", "$s" or "$z" go to the sweep branch |
| Framer.SweepFrameConsumed | RFExplorer/ReceiveSerialThread.py:164-203 | a full-length frame with "\r\n" in place consumes exactly header, payload and "\r\n" and hands the payload on |
| Framer.SweepFrameWaits | RFExplorer/ReceiveSerialThread.py:164-166 | a short sweep frame waits for the rest |
| Framer.SweepFrameMisplaced | RFExplorer/ReceiveSerialThread.py:212-218 | a full-length frame with a misplaced "\r\n" is cut after the first "\r\n" anywhere, and `index` kills the reader when there is none |
| Framer.ShortSweepFrame | RFExplorer/ReceiveSerialThread.py:150-152 | the "$S" frame for a short payload is five characters longer than it |
| Framer.ShortSweepRoundTrip | RFExplorer/ReceiveSerialThread.py:150-203 | framing round trip: a "$S" frame of the expected size comes out as one sweep whose amplitudes are the payload bytes, and only the frame is consumed |
| Framer.TextTokens | RFExplorer/ReceiveSerialThread.py:110-112 | one text token per line, in order |
| Framer.DrainTextLines | RFExplorer/ReceiveSerialThread.py:89-112 | text lines come out in arrival order: one pass per line empties a buffer of plain '#' lines and queues each line once |
| Framer.DrainTextHead | RFExplorer/ReceiveSerialThread.py:59-112 | a pass that queues one line leaves the rest of the buffer to the later passes |
| Session.CommandFrame | RFExplorer/RFExplorer.py:1426-1427 | the frame exists exactly when its length (command + 2) fits below 128 and the command is ASCII; otherwise the send raises |
| Session.CommandFrameRoundTrip | RFExplorer/RFExplorer.py:1420-1427 | every frame written reads back as its command, and its length character equals its length |
| Session.FrameOfCommandOfFrame | RFExplorer/RFExplorer.py:1420-1427 | an ASCII frame that reads back as a command is exactly that command's frame (framing is injective) |
| Session.FramesAppend | RFExplorer/RFExplorer.py:1420-1427 | the frames of two command lists sent one after the other are the concatenation of their frames |
| Session.DecorateSerialNumber | RFExplorer/RFExplorer.py:109-120 | input of 16 or more characters gives 19 characters with dashes at 4, 9 and 14 |
| Session.DecorateSerialNumberKeepsCharacters | RFExplorer/RFExplorer.py:117-118 | removing the three dashes gives back the first 16 input characters in order |
| Session.GetModelTextFromEnum | RFExplorer/RFExplorer.py:133-141 | a name is returned exactly for indexes Python accepts on the 256-entry table (-256..255), and it is the table entry for 0..255 |
| Session.GetModelEnumFromText | RFExplorer/RFExplorer.py:143-158 | the search over the table returns the model the upper-cased text names, MODEL_NONE for text not in the table, and raises for "UNKWN" |
| Session.TableEntryLookup | RFExplorer/RFExplorer.py:122-158 | every named table index (and the first filler index 7) looks up as `eModel` of that index |
| Session.NotInTable | RFExplorer/RFExplorer.py:151-158 | text matching no entry of the table gives MODEL_NONE |
| Session.ModelTextRoundTrip | RFExplorer/RFExplorer.py:122-158 | text of a named model looks up as that model again |
| Session.UnknownTextRaises | RFExplorer/RFExplorer.py:122-158 | any text whose upper case is "UNKWN" makes the lookup raise |
| Session.UnknownTextSpellings | RFExplorer/RFExplorer.py:153-155 | both "unkwn" and "UNKWN" raise |
| Session.ModelFromTextOrNone | RFExplorer/RFExplorer.py:143-158 | the documented total lookup: the model the text names, else MODEL_NONE |
| Session.ModelFromTextOrNoneRoundTrip | RFExplorer/RFExplorer.py:143-158 | the total lookup still inverts the table on the named models and answers MODEL_NONE for "UNKWN" |
| Session.RFGenPowerString | RFExplorer/RFExplorer.py:1482-1495 | the text starts with ",1," for high power and ",0," otherwise |
| Session.RFGenPowerStringRoundTrip | RFExplorer/RFExplorer.py:1482-1495 | the switch and the power level read back from the text |
| Session.DrainCount | RFExplorer/RFExplorer.py:757-1017 | a drain takes all tokens when none raises, otherwise stops right after the first token that raises |
| Session.DrainAdvance | RFExplorer/RFExplorer.py:757-1017 | after n tokens that did not raise, token n ends the drain exactly when it raises |
| Session.LastTextSnoc | RFExplorer/RFExplorer.py:966-967 | the last text received is the newest text token's line, or the earlier value when the new token is not text |
| Session.Communicator.constructor | RFExplorer/RFExplorer.py:165-243 | the initial state: disconnected, empty queue, analyzer mode, no known model, default frequency plans, limits 430-440 MHz, an empty sweep collection with autogrow whose requested size of 102400 is capped at 1000 |
| Session.Communicator.SendCommand | RFExplorer/RFExplorer.py:1420-1429 | the command's frame is appended to what was written; the send raises exactly when no frame exists, and then nothing is written |
| Session.Communicator.Acknowledged | RFExplorer/RFExplorer.py:630-636 | returns the acknowledge flag and clears it, nothing else of the device changes |
| Session.Communicator.IsResetEvent | RFExplorer/RFExplorer.py:274-283 | returns the reset flag and clears it, nothing else of the device changes |
| Session.Communicator.ClosePort | RFExplorer/RFExplorer.py:1257-1267 | afterwards the port is disconnected, both models are MODEL_NONE, both serial numbers empty and the calibration retries 0 |
| Session.Communicator.ProcessConfig | RFExplorer/RFExplorer.py:775-922 | a generator takes the generator settings and may request calibration, leaving analyzer and sweeps alone; an analyzer takes the analyzer settings and cleans the sweeps when auto-clean is on, leaving the generator alone |
| Session.Communicator.ProcessGeneratorConfig | RFExplorer/RFExplorer.py:780-836 | "Cq" is sent and the retry count grows only while calibration is missing and fewer than 3 retries were made; settings follow the mode; limits become the generator's fixed range |
| Session.Communicator.ProcessAnalyzerConfig | RFExplorer/RFExplorer.py:838-922 | the analyzer settings are applied and the sweep collection is cleaned exactly when auto-clean is on |
| Session.Communicator.AnalyzerSettings | RFExplorer/RFExplorer.py:848-918 | active model, analyzer plan, frames sent and frequency limits after the analyzer branch |
| Session.Communicator.AnalyzerHead | RFExplorer/RFExplorer.py:848-876 | mode and active board follow the configuration; the calculator command is sent only for an active WSUB3G |
| Session.Communicator.AnalyzerTail | RFExplorer/RFExplorer.py:879-918 | sniffer mode keeps the frequency limits; other modes take them and send the calculator command again for a WSUB3G |
| Session.Communicator.TakeSweepPlan | RFExplorer/RFExplorer.py:850-858 | the analyzer plan becomes the retuned sweep plan |
| Session.Communicator.SyncCalculator | RFExplorer/RFExplorer.py:865-876 | the calculator is taken over and the frames of the commands that sync it with max hold are sent |
| Session.Communicator.ProcessSweep | RFExplorer/RFExplorer.py:924-963 | a sweep is drawn exactly when not tracking and not holding; then it is added to the collection (cleaned first when sweeps are not stored) and hold turns on exactly when the collection is full; otherwise nothing changes |
| Session.Communicator.ProcessText | RFExplorer/RFExplorer.py:965-1012 | the device changes by the effect of the line's branch, and the call raises exactly for a bad DSP or model line |
| Session.Communicator.ApplyTextEffect | RFExplorer/RFExplorer.py:968-997 | the device after the effect's assignments; raises exactly for the raising effects |
| Session.Communicator.ProcessToken | RFExplorer/RFExplorer.py:775-1012 | a token raises exactly when it is a text line that raises; the mode, active model, plans, sent frames, limits, retries, device, hold mode and sweep collection become `TokenStep` of the old ones, with the redraw flag, and the settings are unchanged |
| Session.Communicator.DrainOne | RFExplorer/RFExplorer.py:760-1012 | the front token is removed and processed; the session state and redraw flag go from `Drained` of the first n tokens to `Drained` of the first n + 1; the last text is kept up to date |
| Session.Communicator.ProcessReceivedString | RFExplorer/RFExplorer.py:745-1019 | nothing changes unless connected and asked for all events; otherwise exactly DrainCount tokens leave the queue, the session state and redraw flag are `Drained` of those tokens from the old state, the returned text is the last text line among them, and a redraw implies a sweep among them |
| Session.TokenStep | RFExplorer/RFExplorer.py:775-1012 | one token of any kind keeps the sweep collection's hold record well formed |
| Session.Drained | RFExplorer/RFExplorer.py:760-1012 | the tokens processed in order keep the hold record well formed |
| Session.DrawnOnlyBySweep | RFExplorer/RFExplorer.py:924-963 | a drain asks for a redraw only when a sweep token is among its tokens |
| Session.DrainedAppend | RFExplorer/RFExplorer.py:745-1019 | draining a queue in two calls, the second continuing where the first stopped, leaves the same state and redraw flag as draining it at once |
| Session.DrainedSnoc | RFExplorer/RFExplorer.py:760-1012 | draining one more token applies one more `TokenStep` |
| Session.HoldModeSticks | RFExplorer/RFExplorer.py:924-963 | once hold mode is on, no token turns it off and no sweep is drawn |
| Session.SentOnlyGrows | RFExplorer/RFExplorer.py:780-922 | the frames written to the port only grow: the old log is a prefix of the new one |
| Session.DeviceOnlyFromText | RFExplorer/RFExplorer.py:965-1012 | a drain without text tokens leaves what is known about the device unchanged |
| Session.AnalyzerIsNotGenerator | RFExplorer/RFExplorer.py:1056-1083 | without a model check, analyzer is the negation of generator; with no known model the intended device decides; with a known model the check makes no difference |
| Session.AnalyzerFollowsConfig | RFExplorer/RFExplorer.py:848-918 | outside sniffer mode, start and step end within 0.001 MHz of the configuration, the other settings equal the configuration's, and the minimum span depends on the model |
| Session.RetunedIsClose | RFExplorer/RFExplorer.py:851-855 | after a retune, start and step are within 0.001 MHz of the configuration, and a second retune changes nothing |
| Session.SnifferKeepsSweepPlan | RFExplorer/RFExplorer.py:879-882 | a sniffer configuration changes only the expansion flag, the calculator, the baud rate, the threshold and the reference frequency |
| Session.GeneratorSweepStop | RFExplorer/RFExplorer.py:796-826 | a frequency sweep sets stop = start + steps * step |
| Session.GeneratorIgnoresOtherModes | RFExplorer/RFExplorer.py:811-831 | other modes, and a status without a start frequency, change only the power-on flag |
| Session.CalculatorCommandsSync | RFExplorer/RFExplorer.py:865-876 | nothing is sent exactly when the device already agrees with max hold; otherwise one frame moves it there |
| Session.AnalyzerCommandsCount | RFExplorer/RFExplorer.py:865-904 | outside sniffer mode a WSUB3G gets the calculator block twice; in sniffer mode once; other models never |
| Session.TextFlags | RFExplorer/RFExplorer.py:968-997 | the acknowledge, reset and serial-number lines have their effects |
| Session.ReadOnceFlags | RFExplorer/RFExplorer.py:630-636 | a flag set by a text line is set, and clearing it by reading gives back the earlier device |
| Session.TextRaisesOnlyOnBadColumns | RFExplorer/RFExplorer.py:970-985 | only DSP and model lines raise, and a model line that raises after decoding the main model has stored it |

## Left out

- Threads, locks and the queue's synchronisation: the reader's outer loop, its sleeps, and the queue and port locks. The queue is a `seq` of tokens, and the framer is one pass at a time.
- Serial-port I/O: port enumeration, `ConnectPort`, the port write inside `SendCommand`, and the commands `ClosePort` sends before closing. `SendCommand` appends its frame to a `sent` log instead of writing it. `ClosePort` models only its closing state reset.
- Wall-clock bookkeeping: capture timestamps, the sweep-speed statistics in the sweep token branch, and `time.sleep`.
- Transcendental float math: the mW / dBm / Watt conversions, `GetChannelPowerDBM`, and the RBW rounding in `UpdateDeviceConfig`.
- File I/O and float formatting: `SaveFileCSV`, `Dump` and `RFEAmplitudeTableData.LoadFile`.
- `GetTopBottomDataRange`: it raises by iterating an int and has no other behaviour.
- `float()` on "inf", "nan" and their spellings: the sniffer threshold is modelled for decimal and exponent forms only.
- `RFE6GEN_CalibrationData`: its file is not part of this model. Whether it holds data is the session field `genCalibrationMissing`, and `InitializeCal` has no modelled effect.
- `ResetIOT_HW` (Raspberry Pi GPIO), the example scripts, and the stale root copy of `RFE_Common.py`.
- The analyzer's embedded calibration offsets: the driver never fills them, so the "Cq" request on the analyzer path is never sent and is not modelled.
- `print` output and the verbose diagnostics. The exception is the diagnostics that raise, which the framer's `verbose` parameter keeps.
- Aliasing between sweeps: the sweep collection stores sweep values. It does not store shared references to `RFESweepData` objects, so a later write through another reference is not reflected in the collection.
- New text arriving in the middle of a drain: `Framer.DrainTextLines` runs passes over a fixed buffer.
- The `bBLOB` and `bString` options of `RFESweepData.ProcessReceivedString`, and the `m_arrBLOB` / `m_sBLOBString` copies they keep: the receive thread passes the communicator's `UseByteBLOB` / `UseStringBLOB` flags (off by default), and no code in the driver reads the copies back, so the model keeps only the amplitudes.

## Findings

| source | as written | input that shows it | evidently intended | confidence | as-written member | corrected member |
|---|---|---|---|---|---|---|
| RFExplorer/RFExplorer.py:153-156 | the first table entry equal to the upper-cased text is converted with `eModel(nInd)`; the filler entries "UNKWN" start at index 7, which is no `eModel` value, so the conversion raises `ValueError` | `GetModelEnumFromText("unkwn")` | text that names no model answers MODEL_NONE, as the function's documentation says | not executed | Session.UnknownTextRaises | Session.ModelFromTextOrNoneRoundTrip |
