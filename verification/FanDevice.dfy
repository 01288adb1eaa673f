/** Fans and their temperature curves (src/Device/FAN/FANDevice.cpp). */
module FanDevice {
  import opened Basics
  import opened EcRam

  /** A curve point: temperature threshold and speed. */
  type Point = (int, int)

  datatype FanData = FanData(mode: Option<int>, curve: seq<Point>)

  predicate Sorted(curve: seq<Point>) {
    forall i, j :: 0 <= i < j < |curve| ==> curve[i].0 <= curve[j].0
  }

  predicate SortOf(curve: seq<Point>, points: seq<Point>) {
    Sorted(curve) && multiset(curve) == multiset(points)
  }

  function Insert(p: Point, sorted: seq<Point>): (r: seq<Point>)
    requires Sorted(sorted)
    ensures Sorted(r) && multiset(r) == multiset(sorted) + multiset{p}
  {
    if sorted == [] || p.0 <= sorted[0].0 then [p] + sorted
    else
      var rest := Insert(p, sorted[1..]);
      InsertedBehind(rest, p, sorted);
      [sorted[0]] + rest
  }

  lemma InsertedBehind(rest: seq<Point>, p: Point, sorted: seq<Point>)
    requires sorted != [] && Sorted(sorted) && sorted[0].0 <= p.0
    requires Sorted(rest) && multiset(rest) == multiset(sorted[1..]) + multiset{p}
    ensures Sorted([sorted[0]] + rest) && multiset([sorted[0]] + rest) == multiset(sorted) + multiset{p}
  {
    assert sorted == [sorted[0]] + sorted[1..];
    MembersBounded(rest, p, sorted[1..], sorted[0].0);
  }

  lemma MembersBounded(rest: seq<Point>, p: Point, tail: seq<Point>, low: int)
    requires multiset(rest) == multiset(tail) + multiset{p}
    requires low <= p.0 && forall q :: q in tail ==> low <= q.0
    ensures forall i :: 0 <= i < |rest| ==> low <= rest[i].0
  {
    forall i | 0 <= i < |rest| ensures low <= rest[i].0 {
      assert rest[i] in multiset(rest);
      assert rest[i] == p || rest[i] in multiset(tail);
    }
  }

  function InsertionSort(points: seq<Point>): (r: seq<Point>)
    ensures SortOf(r, points)
  {
    if points == [] then []
    else
      assert points == [points[0]] + points[1..];
      Insert(points[0], InsertionSort(points[1..]))
  }

  /** `std::sort`: some sorted permutation, with equal thresholds in any order. */
  method SortByThreshold(points: seq<Point>) returns (r: seq<Point>)
    ensures SortOf(r, points)
  {
    r := *;
    if !SortOf(r, points) { r := InsertionSort(points); }
  }

  // ---------- what a curve selects ----------

  /** Point i is the last one whose threshold lies strictly below t, or the first point when
      there is none. */
  ghost predicate Selects(curve: seq<Point>, t: int, i: int) {
    && 0 <= i < |curve|
    && (forall j :: i < j < |curve| ==> curve[j].0 >= t)
    && (curve[i].0 < t || i == 0)
  }

  function SpeedFor(curve: seq<Point>, t: int): int
    requires |curve| > 0
  {
    var last := |curve| - 1;
    if t > curve[last].0 || last == 0 then curve[last].1 else SpeedFor(curve[..last], t)
  }

  lemma {:induction false} SpeedForSelects(curve: seq<Point>, t: int) returns (i: int)
    requires |curve| > 0
    ensures Selects(curve, t, i) && SpeedFor(curve, t) == curve[i].1
  {
    var last := |curve| - 1;
    if t > curve[last].0 || last == 0 {
      i := last;
    } else {
      i := SpeedForSelects(curve[..last], t);
      assert forall j :: 0 <= j < last ==> curve[j] == curve[..last][j];
    }
  }

  lemma SelectsUnique(curve: seq<Point>, t: int, i: int, j: int)
    requires Selects(curve, t, i) && Selects(curve, t, j)
    ensures i == j
  {
  }

  /** On a sorted curve the selected threshold is the greatest one strictly below the
      temperature, and the lowest point is used when there is none. */
  lemma SelectionIsGreatestBelow(curve: seq<Point>, t: int)
    requires |curve| > 0 && Sorted(curve)
    ensures exists i :: 0 <= i < |curve| && SpeedFor(curve, t) == curve[i].1 &&
              (if exists k :: 0 <= k < |curve| && curve[k].0 < t
               then curve[i].0 < t && forall k :: 0 <= k < |curve| && curve[k].0 < t ==> curve[k].0 <= curve[i].0
               else forall k :: 0 <= k < |curve| ==> curve[i].0 <= curve[k].0)
  {
    var i := SpeedForSelects(curve, t);
    if k :| 0 <= k < |curve| && curve[k].0 < t {
      assert k <= i;
      assert curve[i].0 < t;
    } else {
      assert i == 0;
    }
  }

  /** If speeds do not fall along the curve, the output does not fall with temperature. */
  lemma SpeedMonotone(curve: seq<Point>, t: int, u: int)
    requires |curve| > 0 && Sorted(curve) && t <= u
    requires forall i, j :: 0 <= i < j < |curve| ==> curve[i].1 <= curve[j].1
    ensures SpeedFor(curve, t) <= SpeedFor(curve, u)
  {
    var i := SpeedForSelects(curve, t);
    var j := SpeedForSelects(curve, u);
    assert i <= j;
  }

  /** Equal thresholds come with equal speeds. */
  ghost predicate Consistent(points: seq<Point>) {
    forall i, j :: 0 <= i < |points| && 0 <= j < |points| && points[i].0 == points[j].0 ==> points[i].1 == points[j].1
  }

  lemma SortSameMembers(curve: seq<Point>, points: seq<Point>)
    requires multiset(curve) == multiset(points)
    ensures |curve| == |points| && forall p :: p in curve <==> p in points
  {
    assert |multiset(curve)| == |curve|;
    forall p ensures p in curve <==> p in points {
      assert p in multiset(curve) <==> p in multiset(points);
    }
  }

  /** The speed only depends on which points there are: any two sorts of the same consistent
      points agree at every temperature, whatever order the client sent them in. */
  lemma ConsistentOrderIndependent(c1: seq<Point>, c2: seq<Point>, points: seq<Point>, t: int)
    requires |points| > 0 && Consistent(points) && SortOf(c1, points) && SortOf(c2, points)
    ensures |c1| > 0 && |c2| > 0 && SpeedFor(c1, t) == SpeedFor(c2, t)
  {
    SortSameMembers(c1, points);
    SortSameMembers(c2, points);
    var i := SpeedForSelects(c1, t);
    var j := SpeedForSelects(c2, t);
    assert c1[i] in points && c2[j] in points;
    var k :| 0 <= k < |c2| && c2[k] == c1[i] by { assert c1[i] in c2; }
    var l :| 0 <= l < |c1| && c1[l] == c2[j] by { assert c2[j] in c1; }
    assert c1[i].0 == c2[j].0;
  }

  function Swap(s: seq<Point>, i: nat, j: nat): seq<Point>
    requires i < j < |s|
  {
    s[i := s[j]][j := s[i]]
  }

  lemma SwapEqualThresholds(c: seq<Point>, m: nat, k: nat)
    requires m < k < |c| && Sorted(c) && c[m].0 == c[k].0
    ensures SortOf(Swap(c, m, k), c)
  {
  }

  /** Swapping the selected point with an equal-threshold one selects the other's speed. */
  lemma SwapChangesSpeed(c: seq<Point>, m: nat, k: nat, t: int)
    requires m < k < |c| && Sorted(c) && c[m].0 == c[k].0 && Selects(c, t, k) && c[k].0 < t
    ensures SpeedFor(c, t) == c[k].1 && SpeedFor(Swap(c, m, k), t) == c[m].1
  {
    var a := SpeedForSelects(c, t);
    SelectsUnique(c, t, a, k);
    var b := SpeedForSelects(Swap(c, m, k), t);
    SelectsUnique(Swap(c, m, k), t, b, k);
  }

  /** Two sorts of inconsistent points that differ at some temperature. */
  lemma InconsistentOrderMatters(points: seq<Point>, i: nat, j: nat) returns (c1: seq<Point>, c2: seq<Point>, t: int)
    requires i < |points| && j < |points| && points[i].0 == points[j].0 && points[i].1 != points[j].1
    ensures |points| > 0 && SortOf(c1, points) && SortOf(c2, points) && |c1| > 0 && |c2| > 0
    ensures SpeedFor(c1, t) != SpeedFor(c2, t)
  {
    c1 := InsertionSort(points);
    t := points[i].0 + 1;
    var m, k := SelectedAndRival(c1, points, i, j, t);
    c2 := Swap(c1, m, k);
    SwapEqualThresholds(c1, m, k);
    SwapChangesSpeed(c1, m, k, t);
  }

  lemma SelectedAndRival(c: seq<Point>, points: seq<Point>, i: nat, j: nat, t: int) returns (m: nat, k: nat)
    requires i < |points| && j < |points| && points[i].0 == points[j].0 && points[i].1 != points[j].1
    requires SortOf(c, points) && t == points[i].0 + 1
    ensures m < k < |c| && c[m].0 == c[k].0 && c[m].1 != c[k].1 && Selects(c, t, k) && c[k].0 < t
  {
    SortSameMembers(c, points);
    k := SpeedForSelects(c, t);
    assert points[i] in c && points[j] in c;
    var a :| 0 <= a < |c| && c[a] == points[i];
    var b :| 0 <= b < |c| && c[b] == points[j];
    m := if c[k].1 == points[i].1 then b else a;
  }

  /** The speed is independent of the client's point order and of how equal thresholds are
      sorted exactly when equal thresholds come with equal speeds. */
  lemma OrderIndependentIffConsistent(points: seq<Point>)
    requires |points| > 0
    ensures (forall c1, c2, t :: SortOf(c1, points) && SortOf(c2, points) && |c1| > 0 && |c2| > 0 ==>
              SpeedFor(c1, t) == SpeedFor(c2, t))
            <==> Consistent(points)
  {
    if Consistent(points) {
      forall c1, c2, t | SortOf(c1, points) && SortOf(c2, points) && |c1| > 0 && |c2| > 0
        ensures SpeedFor(c1, t) == SpeedFor(c2, t)
      {
        ConsistentOrderIndependent(c1, c2, points, t);
      }
    } else {
      var i, j :| 0 <= i < |points| && 0 <= j < |points| && points[i].0 == points[j].0 && points[i].1 != points[j].1;
      var c1, c2, t := InconsistentOrderMatters(points, i, j);
    }
  }

  // ---------- the device ----------

  /** A cell after settings were applied without a failing port: the fixed speed of a single point in manual mode
      comes after the mode, and there is none in automatic mode. */
  ghost predicate SetAsAsked(c: FanControls, data: FanData, before: Ram, after: Ram, a: Address)
    requires c.Ok()
  {
    var manual := if data.mode.Some? then data.mode.value != 0 else before[c.modeAdr[0]] != 0;
    after[a] ==
      if |data.curve| == 1 && manual && a in c.writeAdr then Pwm(c, data.curve[0].1)
      else if data.mode.Some? && a in c.modeAdr
      then (if data.mode.value == 0 then 0 else if c.board == GPD_WIN_MAX2 then 1 else c.maxPWM)
      else before[a]
  }

  class FANDevice {
    const control: FanControls
    const chip: EcChip
    var curve: seq<Point>

    ghost predicate Valid() {
      control.Ok() && control == ControlsOf(control.board)
      && control.addrPort == chip.addrPort && control.dataPort == chip.dataPort
    }

    constructor (board: FanBoard, chip: EcChip)
      requires ControlsOf(board).addrPort == chip.addrPort && ControlsOf(board).dataPort == chip.dataPort
      ensures Valid() && control == ControlsOf(board) && this.chip == chip && curve == []
    {
      BoardsAreOk(board);
      control, this.chip, curve := ControlsOf(board), chip, [];
    }

    predicate HasFanCurve()
      reads this
    {
      |curve| > 1
    }

    /** Return to automatic mode. */
    method PrepareForSleep() returns (ok: bool)
      requires Valid()
      modifies chip
      ensures WrotePrefix(old(chip.ram), chip.ram, control.modeAdr, 0, ok)
      ensures ok ==> control.Auto(chip.ram) && chip.ram == WriteAll(old(chip.ram), control.modeAdr, 0)
      ensures chip.reliable ==> ok
    {
      ok := SetGPDFanMode(chip, Some(0), control);
      assert control.modeAdr[..|control.modeAdr|] == control.modeAdr;
    }

    /** The errors are "mode" and "speed"; a single point is a fixed speed. */
    method ApplySettings(data: FanData) returns (modeError: bool, speedError: bool)
      requires Valid()
      modifies this, chip
      ensures SortOf(curve, data.curve) && |curve| == |data.curve|
      ensures !modeError && data.mode.None? && |data.curve| != 1 ==> chip.ram == old(chip.ram)
      ensures !modeError && data.mode == Some(0) ==> control.Auto(chip.ram)
      ensures !modeError && data.mode.Some? && data.mode.value != 0 ==> control.Manual(chip.ram)
      ensures speedError ==> |data.curve| == 1
      ensures chip.reliable ==> !modeError && !speedError
      ensures chip.reliable ==> chip.ram == SettingsRam(old(chip.ram), data)
      ensures chip.reliable ==> forall a: Address :: SetAsAsked(control, data, old(chip.ram), chip.ram, a)
    {
      hide SetAsAsked;
      SettingsCells(chip.ram, data);
      curve := SortByThreshold(data.curve);
      SortSameMembers(curve, data.curve);
      var ok := SetGPDFanMode(chip, data.mode, control);
      modeError, speedError := !ok, false;
      ghost var middle := chip.ram;
      assert control.modeAdr[..|control.modeAdr|] == control.modeAdr;
      if |curve| == 1 {
        assert curve[0] in data.curve && data.curve == [data.curve[0]];
        ghost var modeRead;
        ok, modeRead := SetGPDFanSpeed(chip, curve[0].1, control);
        speedError := !ok;
        SpeedKeepsManual(control, control, middle, chip.ram, curve[0].1);
      }
    }

    /** RAM after settings were applied without a failing port. */
    ghost function SettingsRam(ram: Ram, data: FanData): Ram
      requires Valid()
    {
      var moded := if data.mode.None? then ram else WriteAll(ram, control.modeAdr, ModeValue(control, data.mode.value));
      if |data.curve| != 1 || control.Auto(moded) then moded
      else WriteAll(moded, control.writeAdr, Pwm(control, data.curve[0].1))
    }

    lemma SettingsCells(ram: Ram, data: FanData)
      requires Valid()
      ensures forall a: Address :: SetAsAsked(control, data, ram, SettingsRam(ram, data), a)
    {
      if data.mode.Some? { WriteAllCells(ram, control.modeAdr, ModeValue(control, data.mode.value)); }
      if |data.curve| == 1 {
        var moded :=
          if data.mode.None? then ram else WriteAll(ram, control.modeAdr, ModeValue(control, data.mode.value));
        WriteAllCells(moded, control.writeAdr, Pwm(control, data.curve[0].1));
      }
      hide WriteAll, Pwm;
    }

    /** RAM after a tick at temperature t without a failing port. */
    ghost function CurveRam(ram: Ram, t: int): Ram
      requires Valid()
      reads this
    {
      if !HasFanCurve() || control.Auto(ram) then ram
      else WriteAll(ram, control.writeAdr, Pwm(control, SpeedFor(curve, t)))
    }

    lemma CurveStep(ram: Ram, t: int)
      requires Valid() && |curve| > 1
      ensures SpeedStep(control, ram, CurveRam(ram, t), SpeedFor(curve, t))
    {
      assert control.writeAdr[..|control.writeAdr|] == control.writeAdr;
    }

    lemma CurveCells(ram: Ram, t: int)
      requires Valid()
      ensures forall a: Address ::
        CurveRam(ram, t)[a] == if |curve| > 1 && ram[control.modeAdr[0]] != 0 && a in control.writeAdr
                               then Pwm(control, SpeedFor(curve, t)) else ram[a]
    {
      if |curve| > 1 { WriteAllCells(ram, control.writeAdr, Pwm(control, SpeedFor(curve, t))); }
    }

    /** One tick of the curve: the speed of the selected point is commanded. */
    method ApplyCurve(temperature: Option<int>) returns (ok: bool)
      requires Valid()
      modifies chip
      ensures temperature.None? || curve == [] ==> !ok && chip.ram == old(chip.ram)
      ensures temperature.Some? && curve != [] ==>
        SpeedStep(control, old(chip.ram), chip.ram, SpeedFor(curve, temperature.value))
      ensures temperature.Some? && curve != [] && chip.reliable && !control.Auto(old(chip.ram)) ==>
        chip.ram == WriteAll(old(chip.ram), control.writeAdr, Pwm(control, SpeedFor(curve, temperature.value)))
      ensures temperature.Some? && HasFanCurve() && chip.reliable ==>
        chip.ram == CurveRam(old(chip.ram), temperature.value)
    {
      if temperature.None? || curve == [] { return false; }
      var dtemp := temperature.value;
      var i := |curve| - 1;
      while i >= 0
        invariant -1 <= i < |curve|
        invariant forall j :: i < j < |curve| ==> curve[j].0 >= dtemp
      {
        if dtemp > curve[i].0 {
          SelectedSpeed(dtemp, i);
          ghost var modeRead;
          ok, modeRead := SetGPDFanSpeed(chip, curve[i].1, control);
          return;
        }
        i := i - 1;
      }
      SelectedSpeed(dtemp, 0);
      ghost var modeRead;
      ok, modeRead := SetGPDFanSpeed(chip, curve[0].1, control);
    }

    lemma SelectedSpeed(t: int, i: int)
      requires Selects(curve, t, i)
      ensures |curve| > 0 && SpeedFor(curve, t) == curve[i].1
    {
      var j := SpeedForSelects(curve, t);
      SelectsUnique(curve, t, i, j);
    }
  }
}
