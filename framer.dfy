// The receive thread's framer (RFExplorer/ReceiveSerialThread.py): one pass
// of the inner loop of `ReceiveThreadfunc` cuts at most one frame off the
// front of the latin-1 decoded receive buffer and queues what it decoded.

module Framer {
  import opened RFECommon
  import opened PyText
  import opened Configuration
  import Sweep

  /** Above this many buffered characters the whole buffer is discarded. */
  const MAX_BUFFER: int := 66 * 1024

  /** What the reader puts on the queue. */
  datatype Token =
    | ConfigToken(config: Config)
    | SweepToken(sweep: Sweep.SweepRecord)
    | TextToken(text: string)

  /**
   * One pass of the loop: the new buffer, the tokens queued (in order) and
   * the reader's current configuration, or the death of the reader thread
   * when an exception escapes the loop body (nothing catches it there).
   */
  datatype StepResult =
    | Stepped(buffer: string, tokens: seq<Token>, current: Option<Config>)
    | ReaderDies

  /** `t` is what remains of `s` after characters are cut off its front. */
  predicate IsSuffix(t: string, s: string) {
    |t| <= |s| && t == s[|s| - |t|..]
  }

  /** Lines the reader hands to a fresh `RFEConfiguration` instead of queueing them. */
  predicate IsConfigCandidate(line: string) {
    (|line| > 5 && (line[..6] == "#C2-F:" || (line[..4] == "#C3-" && line[4] != 'M')))
    || StartsWith(line, "#C4-F:")
  }

  /**
   * One pass of the loop body over the buffer `s` (new serial text already
   * appended). `verbose` is the communicator's verbose level: some of the
   * diagnostics it enables raise.
   */
  function Step(s: string, current: Option<Config>, verbose: int): (r: StepResult)
    ensures r.Stepped? ==> IsSuffix(r.buffer, s)
    ensures r.Stepped? && r.current != current ==>
      |r.tokens| == 1 && r.tokens[0].ConfigToken? && r.current == Some(Copy(r.tokens[0].config))
  {
    if |s| > MAX_BUFFER then
      if verbose > 5 then ReaderDies else Stepped([], [], current)
    else if |s| <= 1 then Stepped(s, [], current)
    else if s[0] == '#' then StepText(s, current)
    else if s[0] == '$' then StepDollar(s, current, verbose)
    else StepLine(s, current)
  }

  /** A '#' frame: one text line through "\r\n", decoded when it is a configuration. */
  function StepText(s: string, current: Option<Config>): (r: StepResult)
    ensures r.Stepped? ==> IsSuffix(r.buffer, s)
    ensures r.Stepped? && r.current != current ==>
      |r.tokens| == 1 && r.tokens[0].ConfigToken? && r.current == Some(Copy(r.tokens[0].config))
  {
    var p := FindCrlf(s);
    if p < 0 then Stepped(s, [], current)
    else
      var line := s[..p];
      if IsConfigCandidate(line) then ConfigLine(s[p + 2..], Decode(Default(), line), current)
      else Stepped(s[p + 2..], [TextToken(line)], current)
  }

  /**
   * A configuration candidate after `RFEConfiguration(None).ProcessReceivedString`:
   * True queues the object and makes a copy of it current, False drops the
   * line, and an exception ends the reader.
   */
  function ConfigLine(rest: string, outcome: Outcome, current: Option<Config>): (r: StepResult)
    ensures outcome.Raised? <==> r.ReaderDies?
    ensures r.Stepped? ==> r.buffer == rest
    ensures outcome.Parsed? && outcome.ok ==> r == Stepped(rest, [ConfigToken(outcome.config)], Some(Copy(outcome.config)))
    ensures outcome.Parsed? && !outcome.ok ==> r == Stepped(rest, [], current)
  {
    match outcome
    case Raised(_) => ReaderDies
    case Parsed(ok, c) =>
      if ok then Stepped(rest, [ConfigToken(c)], Some(Copy(c))) else Stepped(rest, [], current)
  }

  /** A frame starting with '$', told apart by its second character. */
  function StepDollar(s: string, current: Option<Config>, verbose: int): (r: StepResult)
    requires |s| > 1
    ensures r.Stepped? ==> IsSuffix(r.buffer, s) && r.current == current
  {
    if |s| > 4 && s[1] == 'C' then StepCalibration(s, current)
    else if |s| > 2 && (s[1] == 'q' || s[1] == 'Q') then StepDrop(s, current)
    else if s[1] == 'D' then
      // The diagnostic adds an int to a string.
      if verbose > 5 then ReaderDies else Stepped(s, [], current)
    else if |s| > 2 && (s[1] == 'S' || s[1] == 's' || s[1] == 'z') then StepSweep(s, current, verbose)
    else Stepped(s, [], current)
  }

  /** The length a "$C" calibration chunk needs, CR LF included; None where `int()` raises. */
  function CalibrationSize(s: string): (n: Option<int>)
    requires |s| > 4
    ensures s[2] == 'c' ==> n == (if IsDigit(s[3]) then Some(2 + DigitValue(s[3]) + 4) else None)
    ensures s[2] == 'b' ==> n == (if IsDigit(s[4]) then Some(2 + (DigitValue(s[4]) + 1) * 16 + 10) else None)
    ensures s[2] != 'c' && s[2] != 'b' ==> n == Some(2)
  {
    if s[2] == 'c' then
      match CharInt(s[3]) case None => None case Some(d) => Some(2 + d + 4)
    else if s[2] == 'b' then
      match CharInt(s[4]) case None => None case Some(d) => Some(2 + (d + 1) * 16 + 10)
    else Some(2)
  }

  /**
   * A "$C" chunk once enough characters are buffered: the text before the
   * first "\r\n" is queued and the "\r\n" stays at the front of the buffer.
   * With no "\r\n" at all, `find` returns -1 and the slices keep only the
   * last character.
   */
  function StepCalibration(s: string, current: Option<Config>): (r: StepResult)
    requires |s| > 4
    ensures r.ReaderDies? <==> CalibrationSize(s).None?
    ensures r.Stepped? ==> IsSuffix(r.buffer, s) && r.current == current
    ensures r.Stepped? && r.tokens != [] ==> r.tokens == [TextToken(s[..|s| - |r.buffer|])]
  {
    match CalibrationSize(s)
    case None => ReaderDies
    case Some(size) =>
      if size > 2 && |s| >= size then
        var p := FindCrlf(s);
        if p < 0 then Stepped(s[|s| - 1..], [TextToken(s[..|s| - 1])], current)
        else Stepped(s[p..], [TextToken(s[..p])], current)
      else Stepped(s, [], current)
  }

  /** "$q" and "$Q" frames are dropped through their "\r\n". */
  function StepDrop(s: string, current: Option<Config>): (r: StepResult)
    ensures r.Stepped? && r.tokens == [] && r.current == current
    ensures FindCrlf(s) < 0 ==> r.buffer == s
    ensures FindCrlf(s) >= 0 ==> s == s[..FindCrlf(s)] + "\r\n" + r.buffer
  {
    var p := FindCrlf(s);
    if p < 0 then Stepped(s, [], current)
    else
      assert s == s[..p] + "\r\n" + s[p + 2..];
      Stepped(s[p + 2..], [], current)
  }

  /**
   * Header size and payload length of a sweep frame: "$S" carries the
   * length in one byte, "$s" in sixteens (0 meaning 256), "$z" in a byte of
   * 256s and a decimal digit. None where the header itself raises.
   */
  function SweepHeader(s: string): (h: Option<(nat, nat)>)
    requires |s| > 2
    ensures s[1] == 'z' ==> h == (if |s| > 3 && IsDigit(s[3]) then Some((4, s[2] as int * 256 + DigitValue(s[3]))) else None)
    ensures s[1] == 's' ==> h == Some((3, (if s[2] as int == 0 then 256 else s[2] as int) * 16))
    ensures s[1] != 's' && s[1] != 'z' ==> h == Some((3, s[2] as int))
  {
    var b := s[2] as int;
    if s[1] == 's' then Some((3, (if b == 0 then 256 else b) * 16))
    else if s[1] == 'z' then
      match CharAt(s, 3) case None => None case Some(ch) =>
      match CharInt(ch) case None => None case Some(d) => Some((4, b * 256 + d))
    else Some((3, b))
  }

  /**
   * A sweep frame: consumed only when header, payload and "\r\n" are all
   * there with the "\r\n" in place; a frame of the right length without it
   * is cut after the first "\r\n" anywhere in the buffer (`index` raises
   * when there is none).
   */
  function StepSweep(s: string, current: Option<Config>, verbose: int): (r: StepResult)
    requires |s| > 2
    ensures r.Stepped? ==> IsSuffix(r.buffer, s) && r.current == current
  {
    match SweepHeader(s)
    case None => ReaderDies
    case Some((h, n)) =>
      var lengthOK := |s| >= h + n + 2;
      // The diagnostic at verbose level 10 indexes past the end of a short frame.
      if verbose > 9 && !lengthOK then ReaderDies
      else if !lengthOK then Stepped(s, [], current)
      else if s[h + n] == '\r' && s[h + n + 1] == '\n' then
        SweepFrame(s[h..h + n], s[h + n + 2..], current)
      else
        var p := FindCrlf(s);
        if p < 0 then ReaderDies else Stepped(s[p + 2..], [], current)
  }

  /** A complete sweep payload, decoded with the reader's current configuration. */
  function SweepFrame(payload: string, rest: string, current: Option<Config>): (r: StepResult)
    ensures r.Stepped? ==> r.buffer == rest && r.current == current
    ensures r.ReaderDies? <==> |payload| > MAX_SPECTRUM_STEPS && current.None?
    ensures |payload| <= MAX_SPECTRUM_STEPS && current.None? ==> r == Stepped(rest, [], current)
  {
    if |payload| <= MAX_SPECTRUM_STEPS then
      match current
      case None => Stepped(rest, [], current)
      case Some(c) => Stepped(rest, SweepTokens("$S" + payload, c), current)
    else
      match current
      case None => ReaderDies
      case Some(c) =>
        Stepped(rest, [TextToken("Ignored $S of size " + IntToStr(|payload|) + " expected " + IntToStr(c.freqSpectrumSteps))], current)
  }

  /**
   * A "$S" line decoded into a fresh `RFESweepData` sized by the
   * configuration: queued when it decodes and the configuration has more
   * than 5 points, dropped when it decodes with 5 or fewer, queued as text
   * when it does not decode.
   */
  function SweepTokens(line: string, c: Config): (tokens: seq<Token>)
    ensures Sweep.AcceptsLine(line, c.freqSpectrumSteps) && c.freqSpectrumSteps > 5 ==>
      |tokens| == 1 && tokens[0].SweepToken?
      && tokens[0].sweep.startMHZ == c.startMHZ && tokens[0].sweep.stepMHZ == c.stepMHZ
      && tokens[0].sweep.totalDataPoints == c.freqSpectrumSteps
      && tokens[0].sweep.amplitudes == Sweep.DecodedAmplitudes(line, c.offsetDB)
    ensures Sweep.AcceptsLine(line, c.freqSpectrumSteps) && c.freqSpectrumSteps <= 5 ==> tokens == []
    ensures !Sweep.AcceptsLine(line, c.freqSpectrumSteps) ==> tokens == [TextToken(line)]
  {
    var (ok, sweep) := Sweep.Decode(Sweep.Blank(c.startMHZ, c.stepMHZ, c.freqSpectrumSteps), line, c.offsetDB);
    if ok then (if c.freqSpectrumSteps > 5 then [SweepToken(sweep)] else [])
    else [TextToken(line)]
  }

  /** Any other frame: a text line through "\r\n", or nothing until the "\r\n" arrives. */
  function StepLine(s: string, current: Option<Config>): (r: StepResult)
    ensures r.Stepped? && r.current == current
    ensures FindCrlf(s) < 0 ==> r.buffer == s && r.tokens == []
    ensures FindCrlf(s) >= 0 ==> r.tokens == [TextToken(s[..FindCrlf(s)])] && s == s[..FindCrlf(s)] + "\r\n" + r.buffer
  {
    var p := FindCrlf(s);
    if p < 0 then Stepped(s, [], current)
    else
      assert s == s[..p] + "\r\n" + s[p + 2..];
      Stepped(s[p + 2..], [TextToken(s[..p])], current)
  }

  // ----- the reader thread -----

  /** The reader's state after one pass: the new buffer, configuration, queue and whether it still runs. */
  function Pass(buffer: string, current: Option<Config>, queue: seq<Token>, text: string, verbose: int)
    : (string, Option<Config>, seq<Token>, bool)
  {
    match Step(buffer + text, current, verbose)
    case Stepped(b, tokens, c) => (b, c, queue + tokens, true)
    case ReaderDies => (buffer + text, current, queue, false)
  }

  /** The state `ReceiveThreadfunc` keeps between passes, and the queue it feeds. */
  class ReceiveThread {
    var buffer: string
    var current: Option<Config>
    var queue: seq<Token>
    var running: bool

    constructor()
      ensures buffer == [] && current == None && queue == [] && running
    {
      buffer := [];
      current := None;
      queue := [];
      running := true;
    }

    /** One pass: append what the port delivered, then cut one frame. */
    method Receive(text: string, verbose: int)
      requires running
      modifies this
      ensures (buffer, current, queue, running) == Pass(old(buffer), old(current), old(queue), text, verbose)
    {
      var s := buffer + text;
      var r := Step(s, current, verbose);
      if r.Stepped? {
        buffer := r.buffer;
        current := r.current;
        queue := queue + r.tokens;
      } else {
        buffer := s;
        running := false;
      }
    }
  }

  // ----- properties of the framer -----

  /** An overfull buffer is thrown away; with at most one character nothing happens. */
  lemma StepOverflowAndShort(s: string, current: Option<Config>, verbose: int)
    ensures |s| > MAX_BUFFER && verbose <= 5 ==> Step(s, current, verbose) == Stepped([], [], current)
    ensures |s| > MAX_BUFFER && verbose > 5 ==> Step(s, current, verbose) == ReaderDies
    ensures |s| <= 1 ==> Step(s, current, verbose) == Stepped(s, [], current)
  {
  }

  /** A '#' frame waits for its "\r\n". */
  lemma TextFrameIncomplete(s: string, current: Option<Config>, verbose: int)
    requires 1 < |s| <= MAX_BUFFER && s[0] == '#'
    requires forall i :: 0 <= i < |s| ==> !CrlfAt(s, i)
    ensures Step(s, current, verbose) == Stepped(s, [], current)
  {
  }

  /** A '#' line that is not a configuration is queued as it is, and exactly it and its "\r\n" are consumed. */
  lemma TextFrame(line: string, rest: string, current: Option<Config>, verbose: int)
    requires |line| > 0 && line[0] == '#' && |line| + 2 + |rest| <= MAX_BUFFER
    requires forall i :: 0 <= i < |line| ==> !CrlfAt(line, i)
    requires !IsConfigCandidate(line)
    ensures Step(line + "\r\n" + rest, current, verbose) == Stepped(rest, [TextToken(line)], current)
  {
    var s := line + "\r\n" + rest;
    FindCrlfTerminated(line, rest);
    assert s[..|line|] == line && s[|line| + 2..] == rest;
  }

  /** A configuration line is decoded into a fresh object and never queued as text. */
  lemma ConfigFrame(line: string, rest: string, current: Option<Config>, verbose: int)
    requires |line| > 0 && line[0] == '#' && |line| + 2 + |rest| <= MAX_BUFFER
    requires forall i :: 0 <= i < |line| ==> !CrlfAt(line, i)
    requires IsConfigCandidate(line)
    ensures Step(line + "\r\n" + rest, current, verbose) == ConfigLine(rest, Decode(Default(), line), current)
  {
    var s := line + "\r\n" + rest;
    FindCrlfTerminated(line, rest);
    assert s[..|line|] == line && s[|line| + 2..] == rest;
  }

  /** The candidates are exactly the three families, less the "#C3-M" model line. */
  lemma ConfigCandidates(line: string)
    ensures StartsWith(line, "#C2-F:") ==> IsConfigCandidate(line)
    ensures StartsWith(line, "#C4-F:") ==> IsConfigCandidate(line)
    ensures |line| > 5 && StartsWith(line, "#C3-") ==> (IsConfigCandidate(line) <==> line[4] != 'M')
    ensures line == [] || line[0] != '#' ==> !IsConfigCandidate(line)
  {
    if |line| > 5 && StartsWith(line, "#C3-") {
      assert line[..4] == "#C3-";
      assert line[..6][..4] == line[..4];
      assert line[..6][2] == line[2] == '3';
    }
    if line != [] && line[0] != '#' && |line| > 5 {
      assert line[..6][0] == line[0] && line[..4][0] == line[0];
    }
  }

  /** A "$D" frame is never consumed. */
  lemma DumpFrameStays(s: string, current: Option<Config>, verbose: int)
    requires 1 < |s| <= MAX_BUFFER && s[0] == '$' && s[1] == 'D' && verbose <= 5
    ensures Step(s, current, verbose) == Stepped(s, [], current)
  {
  }

  /** A buffer opening with "$S", "$s" or "$z" is handled by the sweep branch. */
  lemma SweepDispatch(s: string, current: Option<Config>, verbose: int)
    requires 2 < |s| <= MAX_BUFFER && s[0] == '$' && (s[1] == 'S' || s[1] == 's' || s[1] == 'z')
    ensures Step(s, current, verbose) == StepSweep(s, current, verbose)
  {
  }

  /**
   * A complete sweep frame with "\r\n" in place: exactly header, payload and
   * "\r\n" are consumed and the payload goes to `SweepFrame`.
   */
  lemma SweepFrameConsumed(s: string, current: Option<Config>, verbose: int, h: nat, n: nat)
    requires |s| > 2 && SweepHeader(s) == Some((h, n)) && |s| >= h + n + 2
    requires s[h + n] == '\r' && s[h + n + 1] == '\n'
    ensures var (payload, rest) := (s[h..h + n], s[h + n + 2..]);
      StepSweep(s, current, verbose) == SweepFrame(payload, rest, current)
  {
  }

  /** A sweep frame is left alone until header, payload and "\r\n" have all arrived. */
  lemma SweepFrameWaits(s: string, current: Option<Config>, verbose: int, h: nat, n: nat)
    requires |s| > 2 && SweepHeader(s) == Some((h, n)) && |s| < h + n + 2 && verbose <= 9
    ensures StepSweep(s, current, verbose) == Stepped(s, [], current)
  {
  }

  /** A frame of full length whose "\r\n" is misplaced is cut after the first "\r\n", or ends the reader. */
  lemma SweepFrameMisplaced(s: string, current: Option<Config>, verbose: int, h: nat, n: nat)
    requires |s| > 2 && SweepHeader(s) == Some((h, n)) && |s| >= h + n + 2
    requires !(s[h + n] == '\r' && s[h + n + 1] == '\n')
    ensures var p := FindCrlf(s);
      StepSweep(s, current, verbose) == if p < 0 then ReaderDies else Stepped(s[p + 2..], [], current)
  {
  }

  /** The "$S" frame for a payload of fewer than 256 bytes. */
  function ShortSweepFrame(payload: string): (s: string)
    requires |payload| < 256
    ensures |s| == |payload| + 5
  {
    "$S" + [|payload| as char] + payload + "\r\n"
  }

  /**
   * Framing round trip: a "$S" frame built from a payload whose length the
   * current configuration expects, with more than 5 points, comes out as one
   * sweep carrying the payload's bytes as amplitudes, and only the frame is
   * consumed.
   */
  lemma ShortSweepRoundTrip(payload: string, rest: string, c: Config, verbose: int)
    requires 5 < |payload| < 256 && c.freqSpectrumSteps == |payload|
    requires |payload| + 5 + |rest| <= MAX_BUFFER
    ensures var r := Step(ShortSweepFrame(payload) + rest, Some(c), verbose);
      r.Stepped? && r.buffer == rest && r.current == Some(c) && |r.tokens| == 1 && r.tokens[0].SweepToken?
      && r.tokens[0].sweep.totalDataPoints == |payload|
      && forall i :: 0 <= i < |payload| ==>
        r.tokens[0].sweep.AmplitudeDBM(i) == Sweep.ByteToDBM(payload[i], c.offsetDB)
  {
    var s := ShortSweepFrame(payload) + rest;
    var n := |payload|;
    assert s[1] == 'S' && s[2] as int == n;
    assert SweepHeader(s) == Some((3, n));
    assert s[3..3 + n] == payload;
    assert s[3 + n] == '\r' && s[3 + n + 1] == '\n';
    assert s[3 + n + 2..] == rest;
    SweepDispatch(s, Some(c), verbose);
    SweepFrameConsumed(s, Some(c), verbose, 3, n);
    var line := "$S" + payload;
    assert line[..2] == "$S";
    assert Sweep.AcceptsLine(line, c.freqSpectrumSteps);
    var tokens := SweepTokens(line, c);
    forall i | 0 <= i < n
      ensures tokens[0].sweep.AmplitudeDBM(i) == Sweep.ByteToDBM(payload[i], c.offsetDB)
    {
      assert line[2 + i] == payload[i];
    }
  }

  // ----- several passes -----

  /** The reader's passes over a buffer with no new text arriving, stopping early if it dies. */
  function Drain(s: string, current: Option<Config>, verbose: int, passes: nat): StepResult
    decreases passes
  {
    if passes == 0 then Stepped(s, [], current)
    else
      match Step(s, current, verbose)
      case ReaderDies => ReaderDies
      case Stepped(b, t, c) =>
        match Drain(b, c, verbose, passes - 1)
        case ReaderDies => ReaderDies
        case Stepped(b2, t2, c2) => Stepped(b2, t + t2, c2)
  }

  /** The '#' text lines of a buffer, each ended by "\r\n". */
  function JoinLines(lines: seq<string>): string {
    if lines == [] then [] else lines[0] + "\r\n" + JoinLines(lines[1..])
  }

  function TextTokens(lines: seq<string>): (tokens: seq<Token>)
    ensures |tokens| == |lines| && forall k :: 0 <= k < |lines| ==> tokens[k] == TextToken(lines[k])
  {
    if lines == [] then [] else [TextToken(lines[0])] + TextTokens(lines[1..])
  }

  predicate PlainTextLine(line: string) {
    |line| > 0 && line[0] == '#' && !IsConfigCandidate(line)
    && forall i :: 0 <= i < |line| ==> !CrlfAt(line, i)
  }

  /**
   * Text lines come out in the order they arrived: one pass per line drains
   * a buffer of '#' lines that are not configurations completely, queueing
   * each line once.
   */
  lemma {:induction false} DrainTextLines(lines: seq<string>, rest: string, current: Option<Config>, verbose: int)
    requires forall k :: 0 <= k < |lines| ==> PlainTextLine(lines[k])
    requires |JoinLines(lines) + rest| <= MAX_BUFFER
    ensures Drain(JoinLines(lines) + rest, current, verbose, |lines|) == Stepped(rest, TextTokens(lines), current)
    decreases |lines|
  {
    if lines != [] {
      var tail := JoinLines(lines[1..]) + rest;
      assert JoinLines(lines) + rest == lines[0] + "\r\n" + tail;
      TextFrame(lines[0], tail, current, verbose);
      assert forall k :: 0 <= k < |lines[1..]| ==> lines[1..][k] == lines[k + 1];
      DrainTextLines(lines[1..], rest, current, verbose);
      DrainTextHead(JoinLines(lines) + rest, tail, lines[0], current, verbose, |lines|);
    }
  }

  /** A pass that queues one text line and keeps the configuration leaves the rest to the later passes. */
  lemma DrainTextHead(s: string, tail: string, line: string, current: Option<Config>, verbose: int, passes: nat)
    requires passes > 0 && Step(s, current, verbose) == Stepped(tail, [TextToken(line)], current)
    ensures Drain(s, current, verbose, passes) ==
      match Drain(tail, current, verbose, passes - 1)
      case ReaderDies => ReaderDies
      case Stepped(b, t, c) => Stepped(b, [TextToken(line)] + t, c)
  {
  }
}
