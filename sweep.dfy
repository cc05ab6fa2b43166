// One sweep of amplitude readings (RFExplorer/RFESweepData.py): a start
// frequency, a step, a point count and one dBm value per point.

module Sweep {
  import opened RFECommon
  import opened PyText
  import AmplitudeTable

  /** Length of the Python list `[x] * n`: negative counts give an empty list. */
  function ListLength(n: int): nat {
    if n < 0 then 0 else n
  }

  /** The value of a sweep: what an `RFESweepData` object holds at one moment. */
  datatype SweepRecord = SweepRecord(startMHZ: real, stepMHZ: real, totalDataPoints: int, amplitudes: seq<real>)
  {
    predicate WellFormed() {
      |amplitudes| == ListLength(totalDataPoints)
    }

    function TotalSteps(): int {
      totalDataPoints - 1
    }

    /** `GetAmplitudeDBM(i, None, False)`: the stored value, or -120 past the last point. */
    function AmplitudeDBM(i: nat): real
      requires WellFormed()
    {
      if i < totalDataPoints then amplitudes[i] else MIN_AMPLITUDE_DBM
    }

    /**
     * `GetAmplitudeDBM(i, None, False)` for any Python int: an index below the
     * point count reads the list, negative ones from its end, and None stands
     * for the IndexError of an index before its start.
     */
    function GetAmplitudeDBM(i: int): (v: Option<real>)
      requires WellFormed()
      ensures i >= totalDataPoints ==> v == Some(MIN_AMPLITUDE_DBM)
      ensures i >= 0 ==> v == Some(AmplitudeDBM(i))
      ensures i < 0 && i < totalDataPoints ==>
        (v.None? <==> i < -|amplitudes|) && (v.Some? ==> v.value == amplitudes[|amplitudes| + i])
    {
      if i < totalDataPoints then
        match PyIndex(i, |amplitudes|)
        case None => None
        case Some(k) => Some(amplitudes[k])
      else Some(MIN_AMPLITUDE_DBM)
    }

    /** `SetAmplitudeDBM(i, v)`: writes slot i when it exists, otherwise nothing. */
    function WithAmplitude(i: nat, v: real): (r: SweepRecord)
      requires WellFormed()
      ensures r.WellFormed() && r.startMHZ == startMHZ && r.stepMHZ == stepMHZ && r.totalDataPoints == totalDataPoints
    {
      if i < totalDataPoints then this.(amplitudes := amplitudes[i := v]) else this
    }

    /**
     * `SetAmplitudeDBM(i, v)` for any Python int: a negative index below the
     * point count writes from the end of the list; None stands for the
     * IndexError of an index before its start.
     */
    function WithAmplitudeAt(i: int, v: real): (r: Option<SweepRecord>)
      requires WellFormed()
      ensures i >= 0 ==> r == Some(WithAmplitude(i, v))
      ensures r.None? <==> i < totalDataPoints && i < -|amplitudes|
      ensures r.Some? ==>
        r.value.WellFormed() && r.value.startMHZ == startMHZ && r.value.stepMHZ == stepMHZ
        && r.value.totalDataPoints == totalDataPoints
      ensures i >= totalDataPoints ==> r == Some(this)
    {
      if i < totalDataPoints then
        match PyIndex(i, |amplitudes|)
        case None => None
        case Some(k) => Some(this.(amplitudes := amplitudes[k := v]))
      else Some(this)
    }

    /** `GetFrequencyMHZ(i)`: the frequency of point i, or 0.0 past the last point. */
    function FrequencyMHZ(i: int): real {
      if i < totalDataPoints then startMHZ + stepMHZ * i as real else 0.0
    }

    /** `EndFrequencyMHZ`: the frequency of the last point. */
    function EndFrequencyMHZ(): (f: real)
      ensures f == startMHZ + stepMHZ * TotalSteps() as real
    {
      FrequencyMHZ(totalDataPoints - 1)
    }

    /** `GetFrequencySpanMHZ`: the distance from the first to the last point. */
    function FrequencySpanMHZ(): (f: real)
      ensures f == EndFrequencyMHZ() - startMHZ
    {
      stepMHZ * TotalSteps() as real
    }

    /** `IsSameConfiguration`: start and step within 0.001 MHz, same number of steps. */
    predicate IsSameConfiguration(other: SweepRecord) {
      Abs(other.startMHZ - startMHZ) < 0.001 && Abs(other.stepMHZ - stepMHZ) < 0.001
      && other.TotalSteps() == TotalSteps()
    }
  }

  function Abs(x: real): real {
    if x < 0.0 then -x else x
  }

  /** A record as the constructor leaves it: every point at -120 dBm. */
  function Blank(startMHZ: real, stepMHZ: real, totalDataPoints: int): (r: SweepRecord)
    ensures r.WellFormed() && r.TotalSteps() == totalDataPoints - 1
    ensures r.startMHZ == startMHZ && r.stepMHZ == stepMHZ && r.totalDataPoints == totalDataPoints
    ensures forall i: nat :: r.AmplitudeDBM(i) == MIN_AMPLITUDE_DBM
  {
    SweepRecord(startMHZ, stepMHZ, totalDataPoints, seq(ListLength(totalDataPoints), _ => MIN_AMPLITUDE_DBM))
  }

  // ----- decoding a "$S" line -----

  /** The check `ProcessReceivedString` makes before decoding. */
  predicate AcceptsLine(line: string, totalDataPoints: int) {
    |line| > 2 && line[..2] == "$S" && |line| - 2 == totalDataPoints
  }

  /** One payload byte as dBm: half the byte, negated, plus the offset. */
  function ByteToDBM(c: char, offsetDB: real): real {
    (c as int) as real / -2.0 + offsetDB
  }

  /** The amplitudes a well-formed "$S" line carries. */
  function DecodedAmplitudes(line: string, offsetDB: real): (a: seq<real>)
    requires |line| >= 2
    ensures |a| == |line| - 2
  {
    seq(|line| - 2, i requires 0 <= i < |line| - 2 => ByteToDBM(line[2 + i], offsetDB))
  }

  /**
   * `ProcessReceivedString(line, offset)` on a record: on success every
   * amplitude is replaced by the decoded byte; otherwise nothing changes.
   */
  function Decode(r: SweepRecord, line: string, offsetDB: real): (res: (bool, SweepRecord))
    requires r.WellFormed()
    ensures res.1.WellFormed()
    ensures res.0 <==> AcceptsLine(line, r.totalDataPoints)
    ensures !res.0 ==> res.1 == r
    ensures res.0 ==> res.1.startMHZ == r.startMHZ && res.1.stepMHZ == r.stepMHZ && res.1.totalDataPoints == r.totalDataPoints
    ensures res.0 ==> forall i :: 0 <= i < r.totalDataPoints ==> res.1.AmplitudeDBM(i) == ByteToDBM(line[2 + i], offsetDB)
  {
    if AcceptsLine(line, r.totalDataPoints) then (true, r.(amplitudes := DecodedAmplitudes(line, offsetDB)))
    else (false, r)
  }

  /** Text whose characters are single bytes, as the latin-1 decoded serial stream is. */
  predicate Latin1(s: string) {
    forall i :: 0 <= i < |s| ==> s[i] as int < 256
  }

  /** Every decoded amplitude lies between offset - 127.5 and offset. */
  lemma DecodedRange(r: SweepRecord, line: string, offsetDB: real, i: nat)
    requires r.WellFormed() && Latin1(line) && Decode(r, line, offsetDB).0
    requires i < r.totalDataPoints
    ensures offsetDB - 127.5 <= Decode(r, line, offsetDB).1.AmplitudeDBM(i) <= offsetDB
  {
    assert 0 <= line[2 + i] as int < 256;
  }

  /** The byte a device sends for an amplitude that is offset minus a multiple of 0.5. */
  function DBMToByte(dbm: real, offsetDB: real): (c: char)
    requires IsByteLevel(dbm, offsetDB)
    ensures ByteToDBM(c, offsetDB) == dbm && c as int < 256
  {
    ((2.0 * (offsetDB - dbm)).Floor) as char
  }

  predicate IsByteLevel(dbm: real, offsetDB: real) {
    var k := 2.0 * (offsetDB - dbm);
    k == k.Floor as real && 0 <= k.Floor < 256
  }

  /** The "$S" line that carries the given amplitudes. */
  function SweepLine(amplitudes: seq<real>, offsetDB: real): (line: string)
    requires forall i :: 0 <= i < |amplitudes| ==> IsByteLevel(amplitudes[i], offsetDB)
    ensures |line| == |amplitudes| + 2 && line[..2] == "$S" && Latin1(line)
  {
    "$S" + seq(|amplitudes|, i requires 0 <= i < |amplitudes| => DBMToByte(amplitudes[i], offsetDB))
  }

  /** Decoding the line built from byte-level amplitudes gives those amplitudes back. */
  lemma DecodeSweepLine(r: SweepRecord, amplitudes: seq<real>, offsetDB: real)
    requires r.WellFormed() && r.totalDataPoints == |amplitudes| > 0
    requires forall i :: 0 <= i < |amplitudes| ==> IsByteLevel(amplitudes[i], offsetDB)
    ensures Decode(r, SweepLine(amplitudes, offsetDB), offsetDB) == (true, r.(amplitudes := amplitudes))
  {
    var line := SweepLine(amplitudes, offsetDB);
    assert DecodedAmplitudes(line, offsetDB) == amplitudes;
  }

  // ----- lemmas about the accessors -----

  /** Reading back a slot just written gives the written value; other slots are untouched. */
  lemma GetAfterSet(r: SweepRecord, i: nat, v: real, j: nat)
    requires r.WellFormed()
    ensures r.WithAmplitude(i, v).AmplitudeDBM(j) ==
      (if j == i && i < r.totalDataPoints then v else r.AmplitudeDBM(j))
  {
  }

  /**
   * The same for any Python int: after a write that does not raise, reading
   * the same index gives the value when it is below the point count, and
   * any other slot of the list keeps its value.
   */
  lemma GetAfterSetAt(r: SweepRecord, i: int, v: real, j: nat)
    requires r.WellFormed() && r.WithAmplitudeAt(i, v).Some?
    ensures i < r.totalDataPoints ==> r.WithAmplitudeAt(i, v).value.GetAmplitudeDBM(i) == Some(v)
    ensures j < |r.amplitudes| && j != i && j != |r.amplitudes| + i ==>
      r.WithAmplitudeAt(i, v).value.AmplitudeDBM(j) == r.AmplitudeDBM(j)
  {
  }

  /** Neighbouring points are one step apart. */
  lemma FrequencyStep(r: SweepRecord, i: nat)
    requires i + 1 < r.totalDataPoints
    ensures r.FrequencyMHZ(i + 1) - r.FrequencyMHZ(i) == r.stepMHZ
  {
  }

  lemma SameConfigurationReflexive(r: SweepRecord)
    ensures r.IsSameConfiguration(r)
  {
  }

  lemma SameConfigurationSymmetric(r: SweepRecord, s: SweepRecord)
    ensures r.IsSameConfiguration(s) <==> s.IsSameConfiguration(r)
  {
  }

  /** The 0.001 MHz tolerance makes the relation non-transitive. */
  lemma SameConfigurationNotTransitive()
    ensures var a := Blank(100.0, 0.1, 10);
      var b := Blank(100.0008, 0.1, 10);
      var c := Blank(100.0016, 0.1, 10);
      a.IsSameConfiguration(b) && b.IsSameConfiguration(c) && !a.IsSameConfiguration(c)
  {
  }

  /**
   * `GetAmplitudeDBM(i, table, True)`: the stored value plus the table's
   * correction at the point's whole MHz. None where the table lookup raises.
   */
  function CorrectedAmplitudeDBM(r: SweepRecord, i: int, hasTable: bool, useCorrection: bool): (v: Option<real>)
    requires r.WellFormed()
    ensures i >= r.totalDataPoints ==> v == Some(MIN_AMPLITUDE_DBM)
    ensures !(hasTable && useCorrection) ==> v == r.GetAmplitudeDBM(i)
    ensures i < r.totalDataPoints && hasTable && useCorrection ==>
      (v.None? <==> i < -|r.amplitudes| || TruncToInt(r.FrequencyMHZ(i)) < AmplitudeTable.MAX_ENTRY_DATA)
  {
    if i < r.totalDataPoints then
      match PyIndex(i, |r.amplitudes|)
      case None => None
      case Some(k) =>
        if hasTable && useCorrection then
          match AmplitudeTable.CalibrationLookup(TruncToInt(r.FrequencyMHZ(i)))
          case None => None
          case Some(c) => Some(r.amplitudes[k] + c)
        else Some(r.amplitudes[k])
    else Some(MIN_AMPLITUDE_DBM)
  }

  /** Python's `int(x)` on a float: truncation toward zero. */
  function TruncToInt(x: real): (n: int)
    ensures Abs(n as real) <= Abs(x) < Abs(n as real) + 1.0
    ensures (n >= 0) == (x > -1.0)
  {
    if x >= 0.0 then x.Floor else -((-x).Floor)
  }

  // ----- the mutable object -----

  class SweepData {
    var startMHZ: real
    var stepMHZ: real
    var totalDataPoints: int
    var amplitude: array<real>

    ghost predicate Valid()
      reads this
    {
      amplitude.Length == ListLength(totalDataPoints)
    }

    function Value(): (r: SweepRecord)
      reads this, amplitude
      ensures Valid() ==> r.WellFormed()
    {
      SweepRecord(startMHZ, stepMHZ, totalDataPoints, amplitude[..])
    }

    constructor(startFreqMHZ: real, stepFreqMHZ: real, points: int)
      ensures Valid() && fresh(amplitude)
      ensures Value() == Blank(startFreqMHZ, stepFreqMHZ, points)
    {
      startMHZ := startFreqMHZ;
      stepMHZ := stepFreqMHZ;
      totalDataPoints := points;
      amplitude := new real[ListLength(points)](_ => MIN_AMPLITUDE_DBM);
    }

    method SetAmplitudeDBM(i: int, v: real) returns (raised: bool)
      requires Valid()
      modifies amplitude
      ensures Valid()
      ensures raised <==> old(Value()).WithAmplitudeAt(i, v).None?
      ensures Value() == if raised then old(Value()) else old(Value()).WithAmplitudeAt(i, v).value
    {
      raised := false;
      if i < totalDataPoints {
        if 0 <= i {
          amplitude[i] := v;
        } else if -amplitude.Length <= i {
          amplitude[amplitude.Length + i] := v;
        } else {
          raised := true;
        }
      }
    }

    /** Decodes a "$S" line into this record's amplitudes (see `Decode`). */
    method ProcessReceivedString(line: string, offsetDB: real) returns (ok: bool)
      requires Valid()
      modifies amplitude
      ensures Valid() && (ok, Value()) == Decode(old(Value()), line, offsetDB)
    {
      if |line| > 2 && line[..2] == "$S" && |line[2..]| == totalDataPoints {
        var n := 0;
        while n < totalDataPoints
          invariant 0 <= n <= totalDataPoints
          invariant Valid()
          invariant forall j :: 0 <= j < n ==> amplitude[j] == ByteToDBM(line[2 + j], offsetDB)
        {
          var value := (line[2 + n] as int) as real / -2.0;
          var _ := SetAmplitudeDBM(n, value + offsetDB);
          n := n + 1;
        }
        assert amplitude[..] == DecodedAmplitudes(line, offsetDB);
        ok := true;
      } else {
        ok := false;
      }
    }

    /**
     * Index of the first point with the strictly largest amplitude above
     * -120 dBm, or 0 when no point rises above -120 dBm.
     */
    method GetPeakDataPoint() returns (peak: nat)
      requires Valid()
      ensures (forall j :: 0 <= j < amplitude.Length ==> amplitude[j] <= MIN_AMPLITUDE_DBM) ==> peak == 0
      ensures (exists j :: 0 <= j < amplitude.Length && amplitude[j] > MIN_AMPLITUDE_DBM) ==>
        peak < amplitude.Length && amplitude[peak] > MIN_AMPLITUDE_DBM
        && (forall j :: 0 <= j < amplitude.Length ==> amplitude[j] <= amplitude[peak])
        && (forall j :: 0 <= j < peak ==> amplitude[j] < amplitude[peak])
    {
      peak := 0;
      var best := MIN_AMPLITUDE_DBM;
      var n := 0;
      while n < totalDataPoints
        invariant 0 <= n <= amplitude.Length || (totalDataPoints <= 0 && n == 0)
        invariant best >= MIN_AMPLITUDE_DBM
        invariant forall j :: 0 <= j < n ==> amplitude[j] <= best
        invariant best == MIN_AMPLITUDE_DBM ==> peak == 0
        invariant best > MIN_AMPLITUDE_DBM ==>
          (peak < n && amplitude[peak] == best && forall j :: 0 <= j < peak ==> amplitude[j] < best)
      {
        if best < amplitude[n] {
          best := amplitude[n];
          peak := n;
        }
        n := n + 1;
      }
    }

    /**
     * Index of the first point with the strictly smallest amplitude below
     * 50 dBm, or 0 when no point falls below 50 dBm.
     */
    method GetMinDataPoint() returns (low: nat)
      requires Valid()
      ensures (forall j :: 0 <= j < amplitude.Length ==> amplitude[j] >= MAX_AMPLITUDE_DBM) ==> low == 0
      ensures (exists j :: 0 <= j < amplitude.Length && amplitude[j] < MAX_AMPLITUDE_DBM) ==>
        low < amplitude.Length && amplitude[low] < MAX_AMPLITUDE_DBM
        && (forall j :: 0 <= j < amplitude.Length ==> amplitude[j] >= amplitude[low])
        && (forall j :: 0 <= j < low ==> amplitude[j] > amplitude[low])
    {
      low := 0;
      var best := MAX_AMPLITUDE_DBM;
      var n := 0;
      while n < totalDataPoints
        invariant 0 <= n <= amplitude.Length || (totalDataPoints <= 0 && n == 0)
        invariant best <= MAX_AMPLITUDE_DBM
        invariant forall j :: 0 <= j < n ==> amplitude[j] >= best
        invariant best == MAX_AMPLITUDE_DBM ==> low == 0
        invariant best < MAX_AMPLITUDE_DBM ==>
          (low < n && amplitude[low] == best && forall j :: 0 <= j < low ==> amplitude[j] > best)
      {
        if best > amplitude[n] {
          best := amplitude[n];
          low := n;
        }
        n := n + 1;
      }
    }

    /** A new object with the same start, step, point count and an equal, independent amplitude array. */
    method Duplicate() returns (copy: SweepData)
      requires Valid()
      ensures fresh(copy) && fresh(copy.amplitude) && copy.Valid()
      ensures copy.Value() == Value()
    {
      copy := new SweepData(startMHZ, stepMHZ, totalDataPoints);
      copy.amplitude := new real[amplitude.Length](i reads this, amplitude requires 0 <= i < amplitude.Length => amplitude[i]);
      assert copy.amplitude[..] == amplitude[..];
    }
  }
}
