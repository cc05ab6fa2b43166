// The insertion-ordered store of sweeps with a max-hold record
// (RFExplorer/RFESweepDataCollection.py).

module SweepCollection {
  import opened RFECommon
  import opened PyText
  import opened Sweep

  /** Number of slots `ResizeCollection` adds when an autogrowing store is full. */
  const GROW_SLOTS: int := 10 * 1000

  /**
   * One entry of the backing list: the class object the list is filled with
   * (`[RFESweepData] * n`), the `None` the eviction path writes, or a sweep.
   */
  datatype Slot = Placeholder | Null | Stored(sweep: SweepRecord)

  /** What `GetData` does: returns an entry, returns `None`, or raises `IndexError`. */
  datatype Lookup = Found(slot: Slot) | Missing | Raises

  /** The state of a collection that `Add` and `CleanAll` change. */
  datatype CollectionState = CollectionState(data: seq<Slot>, maxHold: Option<SweepRecord>, upperBound: int)

  function Placeholders(n: int): (s: seq<Slot>)
    ensures |s| == ListLength(n) && forall i :: 0 <= i < |s| ==> s[i] == Placeholder
  {
    seq(ListLength(n), _ => Placeholder)
  }

  /** The state `CleanAll` leaves: a fresh list of the initial size, no max-hold, nothing stored. */
  function Cleaned(initialSize: int): (st: CollectionState)
    ensures |st.data| == ListLength(initialSize) && st.maxHold == None && st.upperBound == -1
  {
    CollectionState(Placeholders(initialSize), None, -1)
  }

  predicate HoldWellFormed(st: CollectionState) {
    st.maxHold.Some? ==> st.maxHold.value.WellFormed()
  }

  // ----- max-hold -----

  function Max(a: real, b: real): real {
    if a < b then b else a
  }

  /** The max-hold record after the update loop has visited points 0 .. n-1 of `sweep`. */
  function MaxUpTo(hold: SweepRecord, sweep: SweepRecord, n: int): (r: SweepRecord)
    requires hold.WellFormed() && sweep.WellFormed()
    ensures r.WellFormed() && r.startMHZ == hold.startMHZ && r.stepMHZ == hold.stepMHZ
    ensures r.totalDataPoints == hold.totalDataPoints
  {
    hold.(amplitudes := seq(|hold.amplitudes|, i requires 0 <= i < |hold.amplitudes| =>
      if i < n && sweep.AmplitudeDBM(i) > hold.amplitudes[i] then sweep.AmplitudeDBM(i) else hold.amplitudes[i]))
  }

  /** The max-hold record after one `Add`: the loop runs over the sweep's `TotalSteps` points. */
  function MaxInto(hold: SweepRecord, sweep: SweepRecord): (r: SweepRecord)
    requires hold.WellFormed() && sweep.WellFormed()
    ensures r.WellFormed() && r.startMHZ == hold.startMHZ && r.stepMHZ == hold.stepMHZ
    ensures r.totalDataPoints == hold.totalDataPoints
  {
    MaxUpTo(hold, sweep, sweep.TotalSteps())
  }

  /**
   * The max-hold value at point i for a series of sweeps: at least -120 dBm
   * and at least every sweep that reaches point i through its update loop,
   * and equal to -120 dBm or to one of those values.
   */
  predicate IsMaxHold(v: real, sweeps: seq<SweepRecord>, i: nat)
    requires forall k :: 0 <= k < |sweeps| ==> sweeps[k].WellFormed()
  {
    v >= MIN_AMPLITUDE_DBM
    && (forall k :: 0 <= k < |sweeps| && i < sweeps[k].TotalSteps() ==> sweeps[k].AmplitudeDBM(i) <= v)
    && (v == MIN_AMPLITUDE_DBM || exists k :: 0 <= k < |sweeps| && i < sweeps[k].TotalSteps() && sweeps[k].AmplitudeDBM(i) == v)
  }

  /** One more sweep keeps each max-hold point the maximum over all sweeps so far. */
  lemma MaxIntoKeepsMaxHold(hold: SweepRecord, sweeps: seq<SweepRecord>, sweep: SweepRecord, i: nat)
    requires hold.WellFormed() && sweep.WellFormed()
    requires forall k :: 0 <= k < |sweeps| ==> sweeps[k].WellFormed()
    requires i < hold.totalDataPoints && IsMaxHold(hold.amplitudes[i], sweeps, i)
    ensures IsMaxHold(MaxInto(hold, sweep).amplitudes[i], sweeps + [sweep], i)
  {
    var all := sweeps + [sweep];
    var v := MaxInto(hold, sweep).amplitudes[i];
    assert all[|sweeps|] == sweep;
    assert forall k :: 0 <= k < |sweeps| ==> all[k] == sweeps[k];
    if v != hold.amplitudes[i] {
      assert i < sweep.TotalSteps() && v == sweep.AmplitudeDBM(i);
    } else if v != MIN_AMPLITUDE_DBM {
      var k :| 0 <= k < |sweeps| && i < sweeps[k].TotalSteps() && sweeps[k].AmplitudeDBM(i) == v;
      assert all[k] == sweeps[k];
    }
  }

  /** The update loop of `Add`: point by point, the larger of the held and the new amplitude. */
  method FoldMaxHold(first: SweepRecord, sweep: SweepRecord) returns (hold: SweepRecord)
    requires first.WellFormed() && sweep.WellFormed()
    ensures hold == MaxInto(first, sweep)
  {
    hold := first;
    assert hold.amplitudes == MaxUpTo(first, sweep, 0).amplitudes;
    var n := 0;
    while n < sweep.TotalSteps()
      invariant 0 <= n && (n <= sweep.TotalSteps() || n == 0)
      invariant hold == MaxUpTo(first, sweep, n)
    {
      if sweep.AmplitudeDBM(n) > hold.AmplitudeDBM(n) {
        hold := hold.WithAmplitude(n, sweep.AmplitudeDBM(n));
      }
      assert hold.amplitudes == MaxUpTo(first, sweep, n + 1).amplitudes;
      n := n + 1;
    }
    assert hold.amplitudes == MaxInto(first, sweep).amplitudes;
  }

  // ----- the operations on states -----

  /**
   * `Add(sweep)` on a state: the result flag and the new state, including the
   * partial writes left behind when the call raises and returns False.
   */
  function AddSpec(st: CollectionState, autogrow: bool, sweep: SweepRecord): (CollectionState, bool)
    requires HoldWellFormed(st) && sweep.WellFormed()
  {
    if st.upperBound >= MAX_ELEMENTS then (st, false)
    else
      var hold := if st.maxHold.None? then Blank(sweep.startMHZ, sweep.stepMHZ, sweep.TotalSteps()) else st.maxHold.value;
      if st.upperBound >= |st.data| - 1 && !autogrow then
        // eviction: the store to slot 0 raises on an empty list, the `for` over an int always raises
        if |st.data| == 0 then (CollectionState(st.data, Some(hold), |st.data| - 2), false)
        else (CollectionState(st.data[0 := Null], Some(hold), |st.data| - 2), false)
      else
        var data := if st.upperBound >= |st.data| - 1 then st.data + Placeholders(GROW_SLOTS) else st.data;
        var ub := st.upperBound + 1;
        match PyIndex(ub, |data|)
        case None => (CollectionState(data, Some(hold), ub), false)
        case Some(k) => (CollectionState(data[k := Stored(sweep)], Some(MaxInto(hold, sweep)), ub), true)
  }

  /** `GetData(i)` on a state. */
  function GetDataSpec(st: CollectionState, i: int): Lookup {
    if i <= st.upperBound then
      match PyIndex(i, |st.data|)
      case Some(k) => Found(st.data[k])
      case None => Raises
    else Missing
  }

  // ----- the mutable object -----

  class SweepDataCollection {
    var data: seq<Slot>
    var maxHold: Option<SweepRecord>
    var upperBound: int
    var initialSize: int
    var autogrow: bool

    predicate Valid()
      reads this
    {
      HoldWellFormed(State())
    }

    function State(): CollectionState
      reads this
    {
      CollectionState(data, maxHold, upperBound)
    }

    /** The initial size is capped at 1000 entries; the store starts out cleaned. */
    constructor(collectionSize: int, grow: bool)
      ensures Valid() && autogrow == grow
      ensures initialSize == (if collectionSize > MAX_ELEMENTS then MAX_ELEMENTS else collectionSize)
      ensures State() == Cleaned(initialSize)
    {
      var size := if collectionSize > MAX_ELEMENTS then MAX_ELEMENTS else collectionSize;
      initialSize := size;
      autogrow := grow;
      data := Placeholders(size);
      maxHold := None;
      upperBound := -1;
    }

    function Count(): int
      reads this
    {
      upperBound + 1
    }

    function IsFull(): bool
      reads this
    {
      upperBound >= MAX_ELEMENTS
    }

    function GetData(i: int): (r: Lookup)
      reads this
      ensures r == GetDataSpec(State(), i)
    {
      if i <= upperBound then
        match PyIndex(i, |data|)
        case Some(k) => Found(data[k])
        case None => Raises
      else Missing
    }

    method CleanAll()
      modifies this
      ensures Valid() && State() == Cleaned(initialSize)
      ensures initialSize == old(initialSize) && autogrow == old(autogrow)
    {
      data := Placeholders(initialSize);
      maxHold := None;
      upperBound := -1;
    }

    method ResizeCollection(sizeToAdd: int)
      modifies this
      ensures data == old(data) + Placeholders(sizeToAdd)
      ensures maxHold == old(maxHold) && upperBound == old(upperBound)
      ensures initialSize == old(initialSize) && autogrow == old(autogrow)
    {
      data := data + Placeholders(sizeToAdd);
    }

    /** Adds one sweep (see `AddSpec`) and folds it into the max-hold record. */
    method Add(sweep: SweepRecord) returns (ok: bool)
      requires Valid() && sweep.WellFormed()
      modifies this
      ensures Valid() && (State(), ok) == AddSpec(old(State()), autogrow, sweep)
      ensures initialSize == old(initialSize) && autogrow == old(autogrow)
    {
      if IsFull() {
        return false;
      }
      if maxHold.None? {
        maxHold := Some(Blank(sweep.startMHZ, sweep.stepMHZ, sweep.TotalSteps()));
      }
      if upperBound >= |data| - 1 {
        if autogrow {
          ResizeCollection(GROW_SLOTS);
        } else {
          upperBound := |data| - 2;
          if |data| == 0 {
            return false;
          }
          data := data[0 := Null];
          return false;
        }
      }
      upperBound := upperBound + 1;
      var slot := PyIndex(upperBound, |data|);
      if slot.None? {
        return false;
      }
      data := data[slot.value := Stored(sweep)];
      var hold := FoldMaxHold(maxHold.value, sweep);
      maxHold := Some(hold);
      return true;
    }

    /** `GetAverage(start, end)`: the guard, then the averaging attempt, which always raises. */
    function GetAverage(start: int, end: int): (r: Option<SweepRecord>)
      reads this
      ensures r == None
    {
      if start > upperBound || end > upperBound || start > end then None
      else AveragingAttempt()
    }

    /** `GetMedianAverage(start, end)`: the source repeats the body of `GetAverage` word for word. */
    function GetMedianAverage(start: int, end: int): (r: Option<SweepRecord>)
      reads this
      ensures r == None
    {
      GetAverage(start, end)
    }
  }

  /**
   * The body of both averages: the outer loop is `for nSweepInd in
   * objReturn.TotalSteps`, iterating an int, so it raises before producing a
   * value and the handler returns None.
   */
  function AveragingAttempt(): Option<SweepRecord> {
    None
  }
}

// Properties of `Add`, stated on states and on series of calls.
module SweepCollectionProperties {
  import opened RFECommon
  import opened Sweep
  import opened SweepCollection

  /** The shape every state reached through the constructor and successful calls has. */
  predicate Inv(st: CollectionState) {
    HoldWellFormed(st) && -1 <= st.upperBound < |st.data|
  }

  predicate AllWellFormed(sweeps: seq<SweepRecord>) {
    forall k :: 0 <= k < |sweeps| ==> sweeps[k].WellFormed()
  }

  /** `Add` called once per sweep, in order: the final state and every call's result. */
  function AddAll(st: CollectionState, autogrow: bool, sweeps: seq<SweepRecord>): (CollectionState, seq<bool>)
    requires HoldWellFormed(st) && AllWellFormed(sweeps)
    ensures HoldWellFormed(AddAll(st, autogrow, sweeps).0) && |AddAll(st, autogrow, sweeps).1| == |sweeps|
    decreases |sweeps|
  {
    if sweeps == [] then (st, [])
    else
      var n := |sweeps| - 1;
      var (mid, oks) := AddAll(st, autogrow, sweeps[..n]);
      var (last, ok) := AddSpec(mid, autogrow, sweeps[n]);
      (last, oks + [ok])
  }

  /** A full store refuses a sweep and changes nothing. */
  lemma FullRejects(st: CollectionState, autogrow: bool, sweep: SweepRecord)
    requires HoldWellFormed(st) && sweep.WellFormed() && st.upperBound >= MAX_ELEMENTS
    ensures AddSpec(st, autogrow, sweep) == (st, false)
  {
  }

  /**
   * A successful `Add` writes the sweep just past the old upper bound, raises
   * the upper bound by one and leaves every other slot of the list unchanged;
   * it succeeds exactly when the store is not full and has a free slot or may grow.
   */
  lemma AddStoresAtEnd(st: CollectionState, autogrow: bool, sweep: SweepRecord)
    requires Inv(st) && sweep.WellFormed()
    ensures var (st2, ok) := AddSpec(st, autogrow, sweep);
      (ok <==> st.upperBound < MAX_ELEMENTS && (st.upperBound < |st.data| - 1 || autogrow))
      && (ok ==> (Inv(st2) && st2.upperBound == st.upperBound + 1
                  && GetDataSpec(st2, st2.upperBound) == Found(Stored(sweep))
                  && |st2.data| >= |st.data|
                  && (forall i :: 0 <= i < |st.data| && i != st2.upperBound ==> st2.data[i] == st.data[i])))
  {
  }

  /**
   * Without autogrow a store whose list is used up takes the eviction path:
   * the upper bound drops to len-2 and slot 0 becomes None, the loop over an
   * int raises and the sweep is not stored; the next `Add` then stores into
   * the last slot and succeeds.
   */
  lemma EvictionFails(st: CollectionState, sweep: SweepRecord, next: SweepRecord)
    requires Inv(st) && sweep.WellFormed() && next.WellFormed()
    requires st.upperBound < MAX_ELEMENTS && st.upperBound == |st.data| - 1 && |st.data| > 0
    ensures var (st2, ok) := AddSpec(st, false, sweep);
      !ok && st2.upperBound == |st.data| - 2 && st2.data == st.data[0 := Null]
      && st2.maxHold.Some? && (st.maxHold.Some? ==> st2.maxHold == st.maxHold)
      && var (st3, ok3) := AddSpec(st2, false, next);
        ok3 && st3.upperBound == |st.data| - 1 && st3.data == st2.data[|st.data| - 1 := Stored(next)]
  {
    var (st2, ok) := AddSpec(st, false, sweep);
    assert Inv(st2);
  }

  /**
   * Without autogrow and with an empty list (an initial size of 0 or less),
   * every `Add` fails: the upper bound swings between -1 and -2.
   */
  lemma EmptyListNeverStores(st: CollectionState, sweep: SweepRecord, next: SweepRecord)
    requires HoldWellFormed(st) && sweep.WellFormed() && next.WellFormed()
    requires st.data == [] && st.upperBound == -1
    ensures var (st2, ok) := AddSpec(st, false, sweep);
      !ok && st2.data == [] && st2.upperBound == -2 && st2.maxHold.Some?
      && var (st3, ok3) := AddSpec(st2, false, next);
        !ok3 && st3.data == [] && st3.upperBound == -1
  {
  }

  /** The max-hold record of a store filled from clean with `sweeps`. */
  predicate HoldsMaximum(hold: SweepRecord, sweeps: seq<SweepRecord>)
    requires AllWellFormed(sweeps) && sweeps != []
  {
    hold.WellFormed()
    && hold.startMHZ == sweeps[0].startMHZ && hold.stepMHZ == sweeps[0].stepMHZ
    && hold.totalDataPoints == sweeps[0].TotalSteps()
    && forall i :: 0 <= i < hold.totalDataPoints ==> IsMaxHold(hold.amplitudes[i], sweeps, i)
  }

  /** Below the cap with autogrow, `Add` stores the next sweep and keeps the earlier ones readable. */
  lemma DataStep(mid: CollectionState, pre: seq<SweepRecord>, x: SweepRecord)
    requires Inv(mid) && x.WellFormed() && mid.upperBound == |pre| - 1 && |pre| <= MAX_ELEMENTS
    requires forall k :: 0 <= k < |pre| ==> GetDataSpec(mid, k) == Found(Stored(pre[k]))
    ensures var (st, ok) := AddSpec(mid, true, x);
      ok && Inv(st) && st.upperBound == |pre|
      && (forall k :: 0 <= k <= |pre| ==> GetDataSpec(st, k) == Found(Stored((pre + [x])[k])))
      && GetDataSpec(st, |pre| + 1) == Missing
  {
    AddStoresAtEnd(mid, true, x);
    var (st, ok) := AddSpec(mid, true, x);
    forall k | 0 <= k <= |pre|
      ensures GetDataSpec(st, k) == Found(Stored((pre + [x])[k]))
    {
      if k < |pre| {
        assert GetDataSpec(mid, k) == Found(Stored(pre[k]));
      }
    }
  }

  /** A successful `Add` extends the max-hold over the sweeps so far by one more sweep. */
  lemma HoldStep(mid: CollectionState, pre: seq<SweepRecord>, x: SweepRecord)
    requires HoldWellFormed(mid) && AllWellFormed(pre) && x.WellFormed()
    requires AddSpec(mid, true, x).1
    requires pre == [] <==> mid.maxHold == None
    requires pre != [] ==> HoldsMaximum(mid.maxHold.value, pre)
    ensures AllWellFormed(pre + [x])
    ensures AddSpec(mid, true, x).0.maxHold.Some?
    ensures HoldsMaximum(AddSpec(mid, true, x).0.maxHold.value, pre + [x])
  {
    var hold := if mid.maxHold.None? then Blank(x.startMHZ, x.stepMHZ, x.TotalSteps()) else mid.maxHold.value;
    assert AddSpec(mid, true, x).0.maxHold == Some(MaxInto(hold, x));
    forall i | 0 <= i < hold.totalDataPoints
      ensures IsMaxHold(MaxInto(hold, x).amplitudes[i], pre + [x], i)
    {
      MaxIntoKeepsMaxHold(hold, pre, x, i);
    }
    assert (pre + [x])[0] == if pre == [] then x else pre[0];
  }

  /**
   * Starting from a cleaned store with autogrow, each of up to 1001 sweeps is
   * accepted and `GetData(i)` returns the i-th of them; the max-hold record
   * is sized by the first sweep and holds, at each of its points, the maximum
   * of -120 dBm and every sweep's value there.
   */
  lemma {:induction false} FillFromClean(initialSize: int, sweeps: seq<SweepRecord>)
    requires initialSize <= MAX_ELEMENTS && AllWellFormed(sweeps) && |sweeps| <= MAX_ELEMENTS + 1
    ensures var (st, oks) := AddAll(Cleaned(initialSize), true, sweeps);
      Inv(st) && st.upperBound == |sweeps| - 1
      && (forall k :: 0 <= k < |sweeps| ==> oks[k])
      && (forall k :: 0 <= k < |sweeps| ==> GetDataSpec(st, k) == Found(Stored(sweeps[k])))
      && GetDataSpec(st, |sweeps|) == Missing
      && (sweeps == [] <==> st.maxHold == None)
      && (sweeps != [] ==> HoldsMaximum(st.maxHold.value, sweeps))
    decreases |sweeps|
  {
    if sweeps != [] {
      var n := |sweeps| - 1;
      var pre := sweeps[..n];
      assert AllWellFormed(pre);
      FillFromClean(initialSize, pre);
      var (mid, oks) := AddAll(Cleaned(initialSize), true, pre);
      var (st, ok) := AddSpec(mid, true, sweeps[n]);
      assert AddAll(Cleaned(initialSize), true, sweeps) == (st, oks + [ok]);
      assert sweeps == pre + [sweeps[n]];
      DataStep(mid, pre, sweeps[n]);
      HoldStep(mid, pre, sweeps[n]);
    }
  }

  /**
   * With autogrow, from a cleaned store, exactly the first 1001 calls to
   * `Add` succeed; every later call fails and changes nothing.
   */
  lemma {:induction false} ThousandAndOneAccepted(initialSize: int, sweeps: seq<SweepRecord>)
    requires initialSize <= MAX_ELEMENTS && AllWellFormed(sweeps) && |sweeps| > MAX_ELEMENTS
    ensures var (st, oks) := AddAll(Cleaned(initialSize), true, sweeps);
      (forall k :: 0 <= k < |sweeps| ==> (oks[k] <==> k <= MAX_ELEMENTS))
      && st == AddAll(Cleaned(initialSize), true, sweeps[..MAX_ELEMENTS + 1]).0
    decreases |sweeps|
  {
    var n := |sweeps| - 1;
    var pre := sweeps[..n];
    assert AllWellFormed(pre);
    if n == MAX_ELEMENTS {
      assert sweeps[..MAX_ELEMENTS + 1] == sweeps;
      FillFromClean(initialSize, sweeps);
    } else {
      ThousandAndOneAccepted(initialSize, pre);
      assert pre[..MAX_ELEMENTS + 1] == sweeps[..MAX_ELEMENTS + 1];
      FillFromClean(initialSize, sweeps[..MAX_ELEMENTS + 1]);
      var (mid, oks) := AddAll(Cleaned(initialSize), true, pre);
      FullRejects(mid, true, sweeps[n]);
    }
  }
}
