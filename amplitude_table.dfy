// Amplitude calibration tables (RFExplorer/RFEAmplitudeTableData.py): one
// correction value per MHz, where a placeholder marks entries that were not
// loaded, and in-place passes that fill the placeholders.

module AmplitudeTable {
  import opened RFECommon

  const MAX_ENTRY_DATA: int := 6101
  const MIN_ENTRY_DATA: int := 0
  /** Placeholder for an entry without a loaded value (-1e10). */
  const INVALID_DATA: real := -10000000000.0
  const DEFAULT_COMPRESSION: real := -10.0
  const DEFAULT_AMPLITUDE_CORRECTION: real := 0.0

  predicate IsValid(v: real) {
    v != INVALID_DATA
  }

  // ----- reference definitions of the two normalisations -----

  /** Index of the last valid entry strictly before j, or -1. */
  function LastValidBefore(s: seq<real>, j: int): (p: int)
    requires 0 <= j <= |s|
    ensures -1 <= p < j
    ensures p >= 0 ==> IsValid(s[p])
    ensures forall k :: p < k < j ==> !IsValid(s[k])
    decreases j
  {
    if j == 0 then -1
    else if IsValid(s[j - 1]) then j - 1
    else LastValidBefore(s, j - 1)
  }

  /** Index of the first valid entry in [lo, hi), or hi. */
  function FirstValidIn(s: seq<real>, lo: int, hi: int): (q: int)
    requires 0 <= lo <= hi <= |s|
    ensures lo <= q <= hi
    ensures q < hi ==> IsValid(s[q])
    ensures forall k :: lo <= k < q ==> !IsValid(s[k])
    decreases hi - lo
  {
    if lo == hi then hi
    else if IsValid(s[lo]) then lo
    else FirstValidIn(s, lo + 1, hi)
  }

  /** The straight line through (i1, a1) and (i2, a2), evaluated at j. */
  function Interpolate(a1: real, i1: int, a2: real, i2: int, j: int): real
    requires i1 < i2
  {
    a1 + (j - i1) as real * ((a2 - a1) / (i2 - i1) as real)
  }

  /**
   * The value entry j holds once the iterating normalisation has looked at
   * the entries below k: valid entries stay, entries before the first valid
   * one become 0.0, entries between two valid anchors below k lie on the line
   * between them, and entries after the last anchor copy it.
   */
  function Iterated(s: seq<real>, k: int, j: int): real
    requires 0 <= j < k <= |s|
  {
    if IsValid(s[j]) then s[j]
    else
      var p := LastValidBefore(s, j);
      if p < 0 then DEFAULT_AMPLITUDE_CORRECTION
      else
        var q := FirstValidIn(s, j + 1, k);
        if q < k then Interpolate(s[p], p, s[q], q, j) else s[p]
  }

  /** The whole table after `NormalizeDataIterating`; the last entry is never visited. */
  function NormalizedIterating(s: seq<real>): (r: seq<real>)
    ensures |r| == |s|
    ensures |s| > 0 ==> r[|s| - 1] == s[|s| - 1]
  {
    seq(|s|, j requires 0 <= j < |s| => if j < |s| - 1 then Iterated(s, |s| - 1, j) else s[j])
  }

  /** The whole table after `NormalizeDataCopy`: placeholders copy the nearest valid entry to their left. */
  function NormalizedCopy(s: seq<real>): (r: seq<real>)
    ensures |r| == |s|
  {
    seq(|s|, j requires 0 <= j < |s| =>
      if j == |s| - 1 || IsValid(s[j]) then s[j]
      else if LastValidBefore(s, j) < 0 then DEFAULT_AMPLITUDE_CORRECTION
      else s[LastValidBefore(s, j)])
  }

  // ----- properties of the iterating normalisation -----

  /** A valid entry keeps its value through the iterating pass. */
  lemma IteratingKeepsAnchors(s: seq<real>, j: int)
    requires 0 <= j < |s|
    ensures IsValid(s[j]) ==> NormalizedIterating(s)[j] == s[j]
  {
  }

  /** Entries before the first valid entry become the default correction 0.0. */
  lemma IteratingLeadingDefault(s: seq<real>, j: int)
    requires 0 <= j < |s| - 1
    requires forall k :: 0 <= k <= j ==> !IsValid(s[k])
    ensures NormalizedIterating(s)[j] == DEFAULT_AMPLITUDE_CORRECTION
  {
    assert LastValidBefore(s, j) < 0;
  }

  /** Between consecutive valid anchors i1 < i2 < |s|-1, entries lie on the line through them. */
  lemma {:induction false} IteratingInterpolates(s: seq<real>, i1: int, i2: int, j: int)
    requires 0 <= i1 < j < i2 < |s| - 1
    requires IsValid(s[i1]) && IsValid(s[i2])
    requires forall k :: i1 < k < i2 ==> !IsValid(s[k])
    ensures NormalizedIterating(s)[j] == Interpolate(s[i1], i1, s[i2], i2, j)
  {
    LastValidIsAnchor(s, i1, j);
    FirstValidIsAnchor(s, j + 1, i2, |s| - 1);
  }

  /** Placeholders after the last valid anchor copy that anchor, up to the second-to-last entry. */
  lemma {:induction false} IteratingTrailingCopy(s: seq<real>, i1: int, j: int)
    requires 0 <= i1 < j < |s| - 1
    requires IsValid(s[i1])
    requires forall k :: i1 < k < |s| - 1 ==> !IsValid(s[k])
    ensures NormalizedIterating(s)[j] == s[i1]
  {
    LastValidIsAnchor(s, i1, j);
    NoValidIn(s, j + 1, |s| - 1);
  }

  lemma {:induction false} LastValidIsAnchor(s: seq<real>, i1: int, j: int)
    requires 0 <= i1 < j <= |s|
    requires IsValid(s[i1])
    requires forall k :: i1 < k < j ==> !IsValid(s[k])
    ensures LastValidBefore(s, j) == i1
    decreases j
  {
    if j - 1 > i1 {
      LastValidIsAnchor(s, i1, j - 1);
    }
  }

  lemma {:induction false} FirstValidIsAnchor(s: seq<real>, lo: int, i2: int, hi: int)
    requires 0 <= lo <= i2 < hi <= |s|
    requires IsValid(s[i2])
    requires forall k :: lo <= k < i2 ==> !IsValid(s[k])
    ensures FirstValidIn(s, lo, hi) == i2
    decreases i2 - lo
  {
    if lo < i2 {
      FirstValidIsAnchor(s, lo + 1, i2, hi);
    }
  }

  lemma {:induction false} NoValidIn(s: seq<real>, lo: int, hi: int)
    requires 0 <= lo <= hi <= |s|
    requires forall k :: lo <= k < hi ==> !IsValid(s[k])
    ensures FirstValidIn(s, lo, hi) == hi
    decreases hi - lo
  {
    if lo < hi {
      NoValidIn(s, lo + 1, hi);
    }
  }

  /** Extending the window by one entry changes only what depended on the missing anchor. */
  lemma {:induction false} FirstValidExtend(s: seq<real>, lo: int, hi: int)
    requires 0 <= lo <= hi < |s|
    ensures FirstValidIn(s, lo, hi) < hi ==> FirstValidIn(s, lo, hi + 1) == FirstValidIn(s, lo, hi)
    ensures FirstValidIn(s, lo, hi) == hi ==> FirstValidIn(s, lo, hi + 1) == (if IsValid(s[hi]) then hi else hi + 1)
    decreases hi - lo
  {
    if lo < hi && !IsValid(s[lo]) {
      FirstValidExtend(s, lo + 1, hi);
    }
  }

  /** Visiting a placeholder at k leaves the earlier entries' targets as they were. */
  lemma {:induction false} StepPlaceholder(s: seq<real>, k: int)
    requires 0 <= k < |s| && !IsValid(s[k])
    ensures forall j :: 0 <= j < k ==> Iterated(s, k + 1, j) == Iterated(s, k, j)
    ensures Iterated(s, k + 1, k) ==
      (if LastValidBefore(s, k) < 0 then DEFAULT_AMPLITUDE_CORRECTION else s[LastValidBefore(s, k)])
  {
    forall j | 0 <= j < k
      ensures Iterated(s, k + 1, j) == Iterated(s, k, j)
    {
      FirstValidExtend(s, j + 1, k);
    }
    NoValidIn(s, k + 1, k + 1);
  }

  /**
   * Visiting a valid entry at k: the placeholders after the previous anchor p
   * now lie on the line from p to k; everything else keeps its target.
   */
  lemma {:induction false} StepAnchor(s: seq<real>, k: int)
    requires 0 <= k < |s| && IsValid(s[k])
    ensures var p := LastValidBefore(s, k);
      forall j :: 0 <= j < k ==>
        (Iterated(s, k + 1, j) == if 0 <= p < j then Interpolate(s[p], p, s[k], k, j) else Iterated(s, k, j))
    ensures Iterated(s, k + 1, k) == s[k]
  {
    var p := LastValidBefore(s, k);
    forall j | 0 <= j < k
      ensures Iterated(s, k + 1, j) ==
        (if 0 <= p < j then Interpolate(s[p], p, s[k], k, j) else Iterated(s, k, j))
    {
      FirstValidExtend(s, j + 1, k);
      if 0 <= p < j {
        LastValidIsAnchor(s, p, j);
        NoValidIn(s, j + 1, k);
      } else if 0 <= p && !IsValid(s[j]) {
        assert FirstValidIn(s, j + 1, k) <= p;
      }
    }
  }

  lemma IteratedIsNormalized(s: seq<real>, b: seq<real>)
    requires |b| == |s|
    requires forall j :: 0 <= j < |s| - 1 ==> b[j] == Iterated(s, |s| - 1, j)
    requires |s| > 0 ==> b[|s| - 1] == s[|s| - 1]
    ensures b == NormalizedIterating(s)
  {
  }

  // ----- the table object -----

  class AmplitudeTableData {
    const calibration: array<real>
    const compression: array<real>
    var calibrationID: string
    var hasCalibrationData: bool
    var hasCompressionData: bool

    ghost predicate Valid()
      reads this
    {
      calibration.Length == MAX_ENTRY_DATA && compression.Length == MAX_ENTRY_DATA
      && calibration != compression
    }

    /** A fresh table is cleared: only the last entry of each array holds 0.0. */
    constructor()
      ensures Valid() && fresh(calibration) && fresh(compression)
      ensures forall j :: 0 <= j < MAX_ENTRY_DATA - 1 ==> calibration[j] == INVALID_DATA && compression[j] == INVALID_DATA
      ensures calibration[MAX_ENTRY_DATA - 1] == 0.0 && compression[MAX_ENTRY_DATA - 1] == 0.0
      ensures calibrationID == "" && !hasCalibrationData && !hasCompressionData
    {
      calibration := new real[MAX_ENTRY_DATA](_ => 0.0);
      compression := new real[MAX_ENTRY_DATA](_ => 0.0);
      hasCompressionData := false;
      calibrationID := "";
      hasCalibrationData := false;
      new;
      Clear();
    }

    /** Marks every entry but the last of both arrays as not loaded. */
    method Clear()
      requires Valid()
      modifies this, calibration, compression
      ensures Valid()
      ensures forall j :: 0 <= j < MAX_ENTRY_DATA - 1 ==> calibration[j] == INVALID_DATA && compression[j] == INVALID_DATA
      ensures calibration[MAX_ENTRY_DATA - 1] == old(calibration[MAX_ENTRY_DATA - 1])
      ensures compression[MAX_ENTRY_DATA - 1] == old(compression[MAX_ENTRY_DATA - 1])
      ensures calibrationID == "" && !hasCalibrationData && hasCompressionData == old(hasCompressionData)
    {
      calibrationID := "";
      hasCalibrationData := false;
      var n := 0;
      while n < calibration.Length - 1
        invariant 0 <= n <= calibration.Length - 1
        invariant calibrationID == "" && !hasCalibrationData && hasCompressionData == old(hasCompressionData)
        invariant forall j :: 0 <= j < n ==> calibration[j] == INVALID_DATA && compression[j] == INVALID_DATA
        invariant calibration[MAX_ENTRY_DATA - 1] == old(calibration[MAX_ENTRY_DATA - 1])
        invariant compression[MAX_ENTRY_DATA - 1] == old(compression[MAX_ENTRY_DATA - 1])
      {
        calibration[n] := INVALID_DATA;
        compression[n] := INVALID_DATA;
        n := n + 1;
      }
    }

    /**
     * Correction in dB for a frequency in MHz. Indices from 6101 up get the
     * default 0.0; for every smaller index the guard applies `range()` to a
     * list and raises TypeError, reported here as None.
     */
    method GetAmplitudeCalibration(indexMHZ: int) returns (r: Option<real>)
      requires Valid()
      ensures r == CalibrationLookup(indexMHZ)
    {
      if indexMHZ < MAX_ENTRY_DATA {
        r := None;
      } else {
        r := Some(DEFAULT_AMPLITUDE_CORRECTION);
      }
    }

    /** Compression amplitude for a frequency in MHz: the same guard, default -10.0. */
    method GetCompressionAmplitude(indexMHZ: int) returns (r: Option<real>)
      requires Valid()
      ensures r.None? <==> indexMHZ < MAX_ENTRY_DATA
      ensures r.Some? ==> r.value == DEFAULT_COMPRESSION
    {
      if indexMHZ < MAX_ENTRY_DATA {
        r := None;
      } else {
        r := Some(DEFAULT_COMPRESSION);
      }
    }

    /** Fills placeholders by interpolating between valid anchors (see `NormalizedIterating`). */
    static method NormalizeDataIterating(a: array<real>)
      modifies a
      ensures a[..] == NormalizedIterating(old(a[..]))
    {
      ghost var s := a[..];
      IteratingPass(a);
      IteratedIsNormalized(s, a[..]);
    }

    /** The loop of `NormalizeDataIterating`: every entry but the last gets its `Iterated` value. */
    static method IteratingPass(a: array<real>)
      modifies a
      ensures forall j :: 0 <= j < a.Length - 1 ==> a[j] == Iterated(old(a[..]), a.Length - 1, j)
      ensures a.Length > 0 ==> a[a.Length - 1] == old(a[a.Length - 1])
    {
      ghost var s := a[..];
      var amplitude1 := INVALID_DATA;
      var amplitude1Ind := -1;
      var n := 0;
      while n < a.Length - 1
        invariant |s| == a.Length
        invariant 0 <= n <= a.Length && (a.Length == 0 || n <= a.Length - 1)
        invariant amplitude1Ind == LastValidBefore(s, n)
        invariant amplitude1 == (if amplitude1Ind < 0 then INVALID_DATA else s[amplitude1Ind])
        invariant forall j :: 0 <= j < n ==> a[j] == Iterated(s, n, j)
        invariant forall j :: n <= j < a.Length ==> a[j] == s[j]
      {
        amplitude1, amplitude1Ind := VisitEntry(a, s, n, amplitude1, amplitude1Ind);
        n := n + 1;
      }
    }

    /** The loop body: entry n is an anchor or a placeholder; the last anchor seen moves on. */
    static method VisitEntry(a: array<real>, ghost s: seq<real>, n: int, amplitude1: real, amplitude1Ind: int)
      returns (amplitude2: real, amplitude2Ind: int)
      requires |s| == a.Length && 0 <= n < a.Length
      requires amplitude1Ind == LastValidBefore(s, n)
      requires amplitude1 == (if amplitude1Ind < 0 then INVALID_DATA else s[amplitude1Ind])
      requires forall j :: 0 <= j < n ==> a[j] == Iterated(s, n, j)
      requires forall j :: n <= j < a.Length ==> a[j] == s[j]
      modifies a
      ensures amplitude2Ind == LastValidBefore(s, n + 1)
      ensures amplitude2 == (if amplitude2Ind < 0 then INVALID_DATA else s[amplitude2Ind])
      ensures forall j :: 0 <= j <= n ==> a[j] == Iterated(s, n + 1, j)
      ensures forall j :: n < j < a.Length ==> a[j] == s[j]
    {
      var value := a[n];
      if value != INVALID_DATA {
        VisitAnchor(a, s, n, amplitude1, amplitude1Ind);
        amplitude2, amplitude2Ind := value, n;
      } else {
        VisitPlaceholder(a, s, n, amplitude1, amplitude1Ind);
        amplitude2, amplitude2Ind := amplitude1, amplitude1Ind;
      }
    }

    /** One visit of a valid entry at n: the placeholders since the previous anchor are interpolated. */
    static method VisitAnchor(a: array<real>, ghost s: seq<real>, n: int, amplitude1: real, amplitude1Ind: int)
      requires |s| == a.Length && 0 <= n < a.Length && IsValid(s[n])
      requires amplitude1Ind == LastValidBefore(s, n)
      requires amplitude1 == (if amplitude1Ind < 0 then INVALID_DATA else s[amplitude1Ind])
      requires forall j :: 0 <= j < n ==> a[j] == Iterated(s, n, j)
      requires forall j :: n <= j < a.Length ==> a[j] == s[j]
      modifies a
      ensures forall j :: 0 <= j <= n ==> a[j] == Iterated(s, n + 1, j)
      ensures forall j :: n < j < a.Length ==> a[j] == s[j]
    {
      StepAnchor(s, n);
      if amplitude1 != INVALID_DATA && n - amplitude1Ind > 1 {
        FillBetween(a, amplitude1, amplitude1Ind, a[n], n);
      }
    }

    /** One visit of a placeholder at n: it copies the previous anchor, or becomes 0.0 when there is none. */
    static method VisitPlaceholder(a: array<real>, ghost s: seq<real>, n: int, amplitude1: real, amplitude1Ind: int)
      requires |s| == a.Length && 0 <= n < a.Length && !IsValid(s[n])
      requires amplitude1Ind == LastValidBefore(s, n)
      requires amplitude1 == (if amplitude1Ind < 0 then INVALID_DATA else s[amplitude1Ind])
      requires forall j :: 0 <= j < n ==> a[j] == Iterated(s, n, j)
      requires forall j :: n <= j < a.Length ==> a[j] == s[j]
      modifies a
      ensures forall j :: 0 <= j <= n ==> a[j] == Iterated(s, n + 1, j)
      ensures forall j :: n < j < a.Length ==> a[j] == s[j]
    {
      StepPlaceholder(s, n);
      if amplitude1 == INVALID_DATA {
        a[n] := DEFAULT_AMPLITUDE_CORRECTION;
      } else {
        a[n] := amplitude1;
      }
    }

    /** Overwrites the entries strictly between i1 and i2 with the line from (i1, a1) to (i2, a2). */
    static method FillBetween(a: array<real>, a1: real, i1: int, a2: real, i2: int)
      requires 0 <= i1 && i1 + 1 < i2 <= a.Length
      modifies a
      ensures forall j :: i1 < j < i2 ==> a[j] == Interpolate(a1, i1, a2, i2, j)
      ensures forall j :: 0 <= j < a.Length && !(i1 < j < i2) ==> a[j] == old(a[j])
    {
      var delta := (a2 - a1) / (i2 - i1) as real;
      var steps := 1;
      var n2 := i1 + 1;
      while n2 < i2
        invariant i1 + 1 <= n2 <= i2 && steps == n2 - i1
        invariant forall j :: i1 < j < n2 ==> a[j] == Interpolate(a1, i1, a2, i2, j)
        invariant forall j :: 0 <= j < a.Length && !(i1 < j < n2) ==> a[j] == old(a[j])
      {
        a[n2] := a1 + steps as real * delta;
        n2 := n2 + 1;
        steps := steps + 1;
      }
    }

    /** `NormalizeAmplitudeCalibrationDataIterating`: the iterating pass over the calibration array. */
    method NormalizeAmplitudeCalibrationDataIterating()
      requires Valid()
      modifies calibration
      ensures Valid()
      ensures calibration[..] == NormalizedIterating(old(calibration[..]))
      ensures compression[..] == old(compression[..])
    {
      NormalizeDataIterating(calibration);
    }

    /** Sets the two end points of the compression table to -10.0 when they are not loaded. */
    method NormalizeCompressionData()
      requires Valid()
      modifies compression
      ensures Valid()
      ensures compression[MIN_ENTRY_DATA] == (if old(compression[MIN_ENTRY_DATA]) == INVALID_DATA then DEFAULT_COMPRESSION else old(compression[MIN_ENTRY_DATA]))
      ensures compression[MAX_ENTRY_DATA - 1] == (if old(compression[MAX_ENTRY_DATA - 1]) == INVALID_DATA then DEFAULT_COMPRESSION else old(compression[MAX_ENTRY_DATA - 1]))
      ensures forall j :: MIN_ENTRY_DATA < j < MAX_ENTRY_DATA - 1 ==> compression[j] == old(compression[j])
      ensures calibration[..] == old(calibration[..])
    {
      if compression[MIN_ENTRY_DATA] == INVALID_DATA {
        compression[MIN_ENTRY_DATA] := DEFAULT_COMPRESSION;
      }
      if compression[MAX_ENTRY_DATA - 1] == INVALID_DATA {
        compression[MAX_ENTRY_DATA - 1] := DEFAULT_COMPRESSION;
      }
    }

    /** Fills placeholders of the calibration array by copying forward (see `NormalizedCopy`). */
    method NormalizeDataCopy()
      requires Valid()
      modifies calibration
      ensures Valid()
      ensures calibration[..] == NormalizedCopy(old(calibration[..]))
      ensures compression[..] == old(compression[..])
    {
      ghost var s := calibration[..];
      var lastAmplitude := DEFAULT_AMPLITUDE_CORRECTION;
      var n := 0;
      while n < calibration.Length - 1
        invariant 0 <= n <= calibration.Length - 1
        invariant lastAmplitude == (if LastValidBefore(s, n) < 0 then DEFAULT_AMPLITUDE_CORRECTION else s[LastValidBefore(s, n)])
        invariant forall j :: 0 <= j < n ==> calibration[j] == NormalizedCopy(s)[j]
        invariant forall j :: n <= j < calibration.Length ==> calibration[j] == s[j]
      {
        var value := calibration[n];
        if value == INVALID_DATA {
          calibration[n] := lastAmplitude;
        } else {
          lastAmplitude := value;
        }
        n := n + 1;
      }
      assert calibration[..] == NormalizedCopy(s);
    }
  }

  /** What `GetAmplitudeCalibration` yields for an index: None where it raises. */
  function CalibrationLookup(indexMHZ: int): (r: Option<real>)
    ensures r.None? <==> indexMHZ < MAX_ENTRY_DATA
    ensures r.Some? ==> r.value == DEFAULT_AMPLITUDE_CORRECTION
  {
    if indexMHZ < MAX_ENTRY_DATA then None else Some(DEFAULT_AMPLITUDE_CORRECTION)
  }

  // ----- properties of the copying normalisation -----

  /** After copying forward, every entry below the last is valid-or-default and valid entries are kept. */
  lemma CopyKeepsValid(s: seq<real>, j: int)
    requires 0 <= j < |s|
    ensures IsValid(s[j]) ==> NormalizedCopy(s)[j] == s[j]
    ensures j < |s| - 1 && !IsValid(s[j]) && LastValidBefore(s, j) >= 0 ==> IsValid(NormalizedCopy(s)[j])
  {
  }

  /** A placeholder takes the nearest valid value to its left (i1 < j with nothing valid between). */
  lemma CopyFromNearestLeft(s: seq<real>, i1: int, j: int)
    requires 0 <= i1 < j < |s| - 1
    requires IsValid(s[i1]) && !IsValid(s[j])
    requires forall k :: i1 < k < j ==> !IsValid(s[k])
    ensures NormalizedCopy(s)[j] == s[i1]
  {
    LastValidIsAnchor(s, i1, j);
  }
}
