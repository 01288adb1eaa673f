/** MSR_PKG_POWER_LIMIT: the package power limits of an Intel CPU, in milliwatts
    (src/Device/CPU/Intel/Registers/MSR_PKG_POWER_LIMIT.h). */
module PowerLimit {
  import opened Basics
  import opened Words
  import opened Bitfields
  import opened Registers
  import Rapl

  /** `pl1Enable`, `pl1Clamp`, `pl2Enable`, `pl2Clamp` and `lock` are single bits; a time
      window is the optional pair (y, z) that `getRawTimeWindow` found. */
  datatype PkgPowerLimit = PkgPowerLimit(
    pl1: CInt, pl2: CInt, pl1Enable: bool, pl1Clamp: bool, pl2Enable: bool, pl2Clamp: bool, lock: bool)

  type TimeWindow = Option<(CInt, CInt)>

  /** The units as exponents: a power unit is 1/2^power watts, a time unit 1/2^time seconds. */
  datatype Units = Units(power: nat, time: nat)

  /** Reading MSR_RAPL_POWER_UNIT gives two exponents of 0 to 15. */
  function UnitsOf(reg: Word): (u: Units)
    ensures u.power < 16 && u.time < 16
  {
    Pow2Values();
    Units(GetInt(Field(3, 0), reg), GetInt(Field(19, 16), reg))
  }

  /** `2^y * (1 + z/4) * unit * 1000` truncated: a time window in milliseconds. */
  function WindowMs(y: nat, z: nat, time: nat): nat {
    Rapl.FloorDiv(Pow2(y) * (4 + z) * 250, Pow2(time))
  }

  /** A field narrower than an int reads as the value of its bits. */
  lemma FieldValue(f: Field, w: Word)
    requires f.Ok() && f.Width() < 32
    ensures GetInt(f, w) == Value(w[f.low..f.high + 1])
  {
    var got := GetBitfield(f, w);
    GetBitfieldBits(f, w);
    ValueZeroExtended(got, f.Width());
    assert got[..f.Width()] == w[f.low..f.high + 1];
  }

  /** The power exponent is in bits 0 to 3, the time exponent in bits 16 to 19. */
  lemma UnitsBits(reg: Word)
    ensures UnitsOf(reg).power == Value(reg[0..4]) && UnitsOf(reg).time == Value(reg[16..20])
  {
    FieldValue(Field(3, 0), reg);
    FieldValue(Field(19, 16), reg);
  }

  /** The window is the source's expression over real numbers, truncated. */
  lemma WindowIsSource(y: nat, z: nat, time: nat)
    ensures WindowMs(y, z, time) ==
            (Pow2(y) as real * (1.0 + z as real / 4.0) * (1.0 / Pow2(time) as real) * 1000.0).Floor
  {
    hide *;
    var a := Pow2(y) as real * (1.0 + z as real / 4.0);
    WindowCount(Pow2(y), z);
    Rapl.FloorOfUnits(Pow2(y) * (4 + z) * 250, a, 1000.0, Pow2(time));
    WindowIs(y, z, time);
  }

  lemma WindowIs(y: nat, z: nat, time: nat)
    ensures WindowMs(y, z, time) == Rapl.FloorDiv(Pow2(y) * (4 + z) * 250, Pow2(time))
  {
  }

  lemma WindowCount(y: nat, z: nat)
    ensures y as real * (1.0 + z as real / 4.0) * 1000.0 == (y * (4 + z) * 250) as real
  {
    Rapl.IntProduct(y, 4 + z);
    Rapl.IntProduct(y * (4 + z), 250);
    assert 1.0 + z as real / 4.0 == (4 + z) as real / 4.0;
    QuarterOut(y as real, (4 + z) as real);
  }

  lemma QuarterOut(a: real, b: real)
    ensures a * (b / 4.0) * 1000.0 == a * b * 250.0
  {
    assert b / 4.0 == b * 0.25;
    assert a * (b * 0.25) == a * b * 0.25;
  }

  /** The raw limits are C ints: `static_cast<int>` of anything larger is undefined. */
  predicate Encodable(d: PkgPowerLimit, p: nat) {
    -0x8000_0000 <= Rapl.Enc(d.pl1, p) < 0x8000_0000 && -0x8000_0000 <= Rapl.Enc(d.pl2, p) < 0x8000_0000
  }

  /** The fields the setter writes first and compares afterwards. */
  function PkgFields(): (fs: seq<Field>)
    ensures |fs| == 7 && Ascending(fs)
  {
    [Field(14, 0), Field(15, 15), Field(16, 16), Field(46, 32), Field(47, 47), Field(48, 48), Field(63, 63)]
  }

  function PkgValues(d: PkgPowerLimit, p: nat): (v: seq<CInt>)
    requires Encodable(d, p)
    ensures |v| == 7
  {
    [Rapl.Enc(d.pl1, p), OfBool(d.pl1Enable), OfBool(d.pl1Clamp),
     Rapl.Enc(d.pl2, p), OfBool(d.pl2Enable), OfBool(d.pl2Clamp), OfBool(d.lock)]
  }

  function WindowWrites(y: Field, z: Field, w: TimeWindow): seq<Write> {
    match w
    case None => []
    case Some((wy, wz)) => [Write(y, ToWord(wy)), Write(z, ToWord(wz))]
  }

  predicate TimeField(f: Field) {
    f == Field(21, 17) || f == Field(23, 22) || f == Field(53, 49) || f == Field(55, 54)
  }

  /** The time fields, written only when a window was found and never compared. */
  function TimeWrites(w1: TimeWindow, w2: TimeWindow): (ws: seq<Write>)
    ensures forall w :: w in ws ==> TimeField(w.field)
  {
    WindowWrites(Field(21, 17), Field(23, 22), w1) + WindowWrites(Field(53, 49), Field(55, 54), w2)
  }

  function PkgWrites(d: PkgPowerLimit, p: nat, w1: TimeWindow, w2: TimeWindow): seq<Write>
    requires Encodable(d, p)
  {
    Writes(PkgFields(), PkgValues(d, p)) + TimeWrites(w1, w2)
  }

  lemma LayoutAppend(a: seq<Write>, b: seq<Write>)
    requires Layout(a) && Layout(b)
    requires forall x, y :: x in a && y in b ==> x.field.Disjoint(y.field)
    ensures Layout(a + b)
  {
    var all := a + b;
    forall i, j | 0 <= i < j < |all| ensures all[i].field.Disjoint(all[j].field) {
      if i < |a| <= j {
        assert a[i] in a && b[j - |a|] in b;
      }
    }
  }

  lemma PairLayout(y: Field, z: Field, w: TimeWindow)
    requires y.Ok() && z.Ok() && y.Disjoint(z)
    ensures Layout(WindowWrites(y, z, w))
    ensures forall x :: x in WindowWrites(y, z, w) ==> x.field == y || x.field == z
  {
    hide ToWord;
  }

  lemma TimeLayout(w1: TimeWindow, w2: TimeWindow)
    ensures Layout(TimeWrites(w1, w2))
  {
    hide ToWord;
    PairLayout(Field(21, 17), Field(23, 22), w1);
    PairLayout(Field(53, 49), Field(55, 54), w2);
    hide Layout, WindowWrites;
    LayoutAppend(WindowWrites(Field(21, 17), Field(23, 22), w1), WindowWrites(Field(53, 49), Field(55, 54), w2));
  }

  lemma PkgTimeDisjoint(i: nat, f: Field)
    requires i < 7 && TimeField(f)
    ensures PkgFields()[i].Disjoint(f)
  {
  }

  lemma PkgLayout(d: PkgPowerLimit, p: nat, w1: TimeWindow, w2: TimeWindow)
    requires Encodable(d, p)
    ensures Layout(Writes(PkgFields(), PkgValues(d, p))) && Layout(TimeWrites(w1, w2))
    ensures Layout(PkgWrites(d, p, w1, w2))
  {
    hide PkgFields;
    hide PkgValues;
    hide WindowWrites;
    AscendingIsLayout(PkgFields(), PkgValues(d, p));
    TimeLayout(w1, w2);
    var a, b := Writes(PkgFields(), PkgValues(d, p)), TimeWrites(w1, w2);
    forall x, y | x in a && y in b ensures x.field.Disjoint(y.field) {
      var i :| 0 <= i < |a| && a[i] == x;
      PkgTimeDisjoint(i, y.field);
    }
    LayoutAppend(a, b);
  }

  lemma {:induction false} ApplyAppend(ws: seq<Write>, vs: seq<Write>, data: Word)
    requires forall w :: w in ws + vs ==> w.field.Ok()
    ensures ApplyAll(ws + vs, data) == ApplyAll(vs, ApplyAll(ws, data))
  {
    hide SetBitfield;
    if ws == [] {
      assert ws + vs == vs;
    } else {
      assert (ws + vs)[1..] == ws[1..] + vs;
      ApplyAppend(ws[1..], vs, SetBitfield(ws[0].field, ws[0].value, data));
    }
  }

  /** Values in range are read back through a longer list of writes as well. */
  lemma CheckedFieldsReadBack(d: PkgPowerLimit, p: nat, w1: TimeWindow, w2: TimeWindow, before: Word)
    requires Encodable(d, p)
    ensures Layout(PkgWrites(d, p, w1, w2)) && Layout(Writes(PkgFields(), PkgValues(d, p)))
    ensures Matches(Writes(PkgFields(), PkgValues(d, p)), ApplyAll(PkgWrites(d, p, w1, w2), before))
            <==> InRange(PkgFields(), PkgValues(d, p))
  {
    hide ApplyAll, GetBitfield;
    PkgLayout(d, p, w1, w2);
    var fs, vs := PkgFields(), PkgValues(d, p);
    var a, all := Writes(fs, vs), PkgWrites(d, p, w1, w2);
    var after := ApplyAll(all, before);
    forall k | 0 <= k < 7
      ensures GetBitfield(a[k].field, after) == a[k].value <==> Fits(a[k])
    {
      assert all[k] == a[k];
      FieldReadsBack(all, before, k);
      if Fits(a[k]) {
        assert forall i :: 0 <= i < 64 ==> GetBitfield(a[k].field, after)[i] == a[k].value[i];
      }
    }
    ListCodec(fs, vs, after);
  }

  lemma PkgRange(d: PkgPowerLimit, p: nat)
    requires Encodable(d, p)
    ensures InRange(PkgFields(), PkgValues(d, p)) <==>
            0 <= Rapl.Enc(d.pl1, p) < 0x8000 && 0 <= Rapl.Enc(d.pl2, p) < 0x8000
  {
    Pow2Values();
    var fs, v := PkgFields(), PkgValues(d, p);
    assert fs[0].Width() == 15 && fs[3].Width() == 15;
    forall i | i in {1, 2, 4, 5, 6} ensures 0 <= v[i] < Pow2(fs[i].Width()) {
      assert fs[i].Width() == 1;
    }
    if InRange(fs, v) {
      assert 0 <= v[0] < Pow2(fs[0].Width()) && 0 <= v[3] < Pow2(fs[3].Width());
    }
  }

  /** What the getter makes of the word. */
  function PkgDecode(reg: Word, u: Units): PkgRead {
    PkgRead(
      Rapl.Dec(GetInt(Field(14, 0), reg), u.power), Rapl.Dec(GetInt(Field(46, 32), reg), u.power),
      WindowMs(GetInt(Field(21, 17), reg), GetInt(Field(23, 22), reg), u.time),
      WindowMs(GetInt(Field(53, 49), reg), GetInt(Field(55, 54), reg), u.time),
      GetInt(Field(15, 15), reg) == 1, GetInt(Field(16, 16), reg) == 1,
      GetInt(Field(47, 47), reg) == 1, GetInt(Field(48, 48), reg) == 1, GetInt(Field(63, 63), reg) == 1)
  }

  datatype PkgRead = PkgRead(
    pl1: nat, pl2: nat, pl1Time: nat, pl2Time: nat,
    pl1Enable: bool, pl1Clamp: bool, pl2Enable: bool, pl2Clamp: bool, lock: bool)

  /** The power an accepted limit of mw comes back as: no more than it and less than 1000/2^p + 1 mW below
      for a limit that is not negative; zero, and so more than it, for a negative one. */
  ghost predicate ReadsBackAs(mw: int, got: nat, p: nat) {
    && Rapl.Enc(mw, p) >= 0
    && got == Rapl.Dec(Rapl.Enc(mw, p), p)
    && (got <= mw <==> mw >= 0)
    && (if mw >= 0 then (mw - got - 1) * Pow2(p) < 1000 else got == 0)
  }

  method PkgGet(dev: RegisterDevice, u: Units) returns (r: Option<PkgRead>)
    ensures dev.stores ==> r.Some?
    ensures r.Some? ==> r.value == PkgDecode(dev.reg, u)
  {
    var ok, reg := dev.Read();
    r := if ok then Some(PkgDecode(reg, u)) else None;
  }

  /** The k-th field and value, as the k-th assignment of the setter writes them. */
  lemma PkgElements(data: PkgPowerLimit, p: nat)
    requires Encodable(data, p)
    ensures var fs, vs := PkgFields(), PkgValues(data, p);
      fs[0] == Field(14, 0) && vs[0] == Rapl.Enc(data.pl1, p) &&
      fs[1] == Field(15, 15) && vs[1] == OfBool(data.pl1Enable) &&
      fs[2] == Field(16, 16) && vs[2] == OfBool(data.pl1Clamp) &&
      fs[3] == Field(46, 32) && vs[3] == Rapl.Enc(data.pl2, p) &&
      fs[4] == Field(47, 47) && vs[4] == OfBool(data.pl2Enable) &&
      fs[5] == Field(48, 48) && vs[5] == OfBool(data.pl2Clamp) &&
      fs[6] == Field(63, 63) && vs[6] == OfBool(data.lock)
  {
  }

  method PkgUpdate(data: PkgPowerLimit, p: nat, reg: Word) returns (updated: Word)
    requires Encodable(data, p)
    ensures Done(PkgFields(), PkgValues(data, p), reg, 7, updated)
  {
    var pl1: CInt, pl2: CInt := Rapl.Enc(data.pl1, p), Rapl.Enc(data.pl2, p);
    ghost var fs, vs, before := PkgFields(), PkgValues(data, p), reg;
    PkgElements(data, p);
    assert Done(fs, vs, before, 0, reg);
    hide *;
    updated := Assign(Field(14, 0), pl1, reg, fs, vs, before, 0);
    updated := Assign(Field(15, 15), OfBool(data.pl1Enable), updated, fs, vs, before, 1);
    updated := Assign(Field(16, 16), OfBool(data.pl1Clamp), updated, fs, vs, before, 2);
    updated := Assign(Field(46, 32), pl2, updated, fs, vs, before, 3);
    updated := Assign(Field(47, 47), OfBool(data.pl2Enable), updated, fs, vs, before, 4);
    updated := Assign(Field(48, 48), OfBool(data.pl2Clamp), updated, fs, vs, before, 5);
    updated := Assign(Field(63, 63), OfBool(data.lock), updated, fs, vs, before, 6);
  }

  lemma ApplyTwo(a: Write, b: Write, data: Word)
    requires a.field.Ok() && b.field.Ok()
    ensures ApplyAll([a, b], data) == SetBitfield(b.field, b.value, SetBitfield(a.field, a.value, data))
  {
    assert [a, b] == [a] + [b] && [a] == [] + [a];
    ApplyAllSnoc([], a, data);
    ApplyAllSnoc([a], b, data);
  }

  method WindowUpdate(y: Field, z: Field, w: TimeWindow, reg: Word) returns (updated: Word)
    requires y.Ok() && z.Ok()
    ensures updated == ApplyAll(WindowWrites(y, z, w), reg)
  {
    updated := reg;
    if w.Some? {
      var (wy, wz) := w.value;
      updated := SetBitfield(y, ToWord(wy), updated);
      updated := SetBitfield(z, ToWord(wz), updated);
      ApplyTwo(Write(y, ToWord(wy)), Write(z, ToWord(wz)), reg);
    }
  }

  /** A value written to a field, and fitting it, reads back. */
  lemma FieldStored(ws: seq<Write>, before: Word, f: Field, x: CInt)
    requires Layout(ws) && Write(f, ToWord(x)) in ws && f.Ok() && f.Width() < 32 && 0 <= x < Pow2(f.Width())
    ensures GetInt(f, ApplyAll(ws, before)) == x
  {
    var k :| 0 <= k < |ws| && ws[k] == Write(f, ToWord(x));
    FieldReadsBack(ws, before, k);
    IntFits(f, x);
    var got := GetBitfield(f, ApplyAll(ws, before));
    assert forall i :: 0 <= i < 64 ==> got[i] == ToWord(x)[i];
    MatchedValue(f, x, ApplyAll(ws, before));
  }

  /** The raw counts of both limits. */
  ghost function Counts(reg: Word): (nat, nat) {
    (GetInt(Field(14, 0), reg), GetInt(Field(46, 32), reg))
  }

  /** The limits of d are those that a get decodes from the word. */
  ghost predicate AsRead(d: PkgPowerLimit, p: nat, reg: Word) {
    d.pl1 == PkgDecode(reg, Units(p, 0)).pl1 && d.pl2 == PkgDecode(reg, Units(p, 0)).pl2
  }

  lemma AsReadCounts(d: PkgPowerLimit, p: nat, reg: Word)
    requires AsRead(d, p, reg)
    ensures 0 <= Rapl.Enc(d.pl1, p) == Rapl.Cycle(Counts(reg).0, p) < 0x8000
    ensures 0 <= Rapl.Enc(d.pl2, p) == Rapl.Cycle(Counts(reg).1, p) < 0x8000
    ensures Encodable(d, p)
  {
    hide GetInt, Pow2;
    CountBound(Field(14, 0), reg);
    CountBound(Field(46, 32), reg);
  }

  /** Both limits written back as they were read: each field holds one Cycle of its old count, and the values are
      in range, so that a storing register accepts them. */
  lemma WriteBackIsCycle(d: PkgPowerLimit, p: nat, w1: TimeWindow, w2: TimeWindow, before: Word)
    requires AsRead(d, p, before)
    ensures Encodable(d, p) && InRange(PkgFields(), PkgValues(d, p)) && Layout(PkgWrites(d, p, w1, w2))
    ensures Counts(ApplyAll(PkgWrites(d, p, w1, w2), before)) ==
            (Rapl.Cycle(Counts(before).0, p), Rapl.Cycle(Counts(before).1, p))
  {
    AsReadCounts(d, p, before);
    PkgRange(d, p);
    LimitStored(d, p, w1, w2, before);
    hide *;
  }

  lemma LimitStored(d: PkgPowerLimit, p: nat, w1: TimeWindow, w2: TimeWindow, before: Word)
    requires Encodable(d, p) && 0 <= Rapl.Enc(d.pl1, p) < 0x8000 && 0 <= Rapl.Enc(d.pl2, p) < 0x8000
    ensures Layout(PkgWrites(d, p, w1, w2))
    ensures Counts(ApplyAll(PkgWrites(d, p, w1, w2), before)) == (Rapl.Enc(d.pl1, p), Rapl.Enc(d.pl2, p))
  {
    Pow2Values();
    hide ApplyAll, GetInt, ToWord, Layout, PkgFields, PkgValues, TimeWrites;
    PkgLayout(d, p, w1, w2);
    PkgElements(d, p);
    var ws, checked := PkgWrites(d, p, w1, w2), Writes(PkgFields(), PkgValues(d, p));
    assert ws[0] == checked[0] && ws[3] == checked[3];
    FieldStored(ws, before, Field(14, 0), Rapl.Enc(d.pl1, p));
    FieldStored(ws, before, Field(46, 32), Rapl.Enc(d.pl2, p));
  }

  /** A 15-bit field holds at most 0x7fff. */
  lemma CountBound(f: Field, w: Word)
    requires f.Ok() && f.Width() == 15
    ensures 0 <= GetInt(f, w) < 0x8000
  {
    Pow2Values();
  }

  /** How a window's two fields look after the writes: the pair that was found, or as before. */
  ghost predicate WindowStored(y: Field, z: Field, w: TimeWindow, before: Word, after: Word)
    requires TimeField(y) && TimeField(z)
  {
    match w
    case None => GetInt(y, after) == GetInt(y, before) && GetInt(z, after) == GetInt(z, before)
    case Some((wy, wz)) =>
      0 <= wy < Pow2(y.Width()) && 0 <= wz < Pow2(z.Width()) ==> GetInt(y, after) == wy && GetInt(z, after) == wz
  }

  lemma FieldUntouched(d: PkgPowerLimit, p: nat, w1: TimeWindow, w2: TimeWindow, before: Word, f: Field)
    requires Encodable(d, p) && TimeField(f)
    requires forall w :: w in TimeWrites(w1, w2) ==> w.field != f
    ensures Layout(PkgWrites(d, p, w1, w2))
    ensures GetInt(f, ApplyAll(PkgWrites(d, p, w1, w2), before)) == GetInt(f, before)
  {
    hide PkgFields, PkgValues, ApplyAll, GetBitfield, WindowWrites;
    PkgLayout(d, p, w1, w2);
    var ws := PkgWrites(d, p, w1, w2);
    forall w | w in ws ensures w.field.Disjoint(f) {
      if w !in TimeWrites(w1, w2) {
        var i :| 0 <= i < 7 && Writes(PkgFields(), PkgValues(d, p))[i] == w;
        PkgTimeDisjoint(i, f);
      }
    }
    FieldFrame(ws, before, f);
  }

  /** The time fields of both limits hold the windows found, and stay as they were where none was found. */
  lemma WindowsStored(d: PkgPowerLimit, p: nat, w1: TimeWindow, w2: TimeWindow, before: Word)
    requires Encodable(d, p)
    ensures Layout(PkgWrites(d, p, w1, w2))
    ensures WindowStored(Field(21, 17), Field(23, 22), w1, before, ApplyAll(PkgWrites(d, p, w1, w2), before))
    ensures WindowStored(Field(53, 49), Field(55, 54), w2, before, ApplyAll(PkgWrites(d, p, w1, w2), before))
  {
    PkgLayout(d, p, w1, w2);
    hide ApplyAll, PkgWrites, GetInt, Layout;
    PairWritten(d, p, w1, w2, before, Field(21, 17), Field(23, 22), w1);
    PairWritten(d, p, w1, w2, before, Field(53, 49), Field(55, 54), w2);
  }

  /** The two field pairs, each with its window. */
  ghost predicate IsPair(y: Field, z: Field, w: TimeWindow, w1: TimeWindow, w2: TimeWindow) {
    || (y == Field(21, 17) && z == Field(23, 22) && w == w1)
    || (y == Field(53, 49) && z == Field(55, 54) && w == w2)
  }

  lemma PairInWrites(y: Field, z: Field, w: TimeWindow, w1: TimeWindow, w2: TimeWindow)
    requires IsPair(y, z, w, w1, w2)
    ensures TimeField(y) && TimeField(z) && y.Ok() && z.Ok() && y.Width() < 32 && z.Width() < 32
    ensures w.None? ==> forall x :: x in TimeWrites(w1, w2) ==> x.field != y && x.field != z
    ensures w.Some? ==> Write(y, ToWord(w.value.0)) in TimeWrites(w1, w2)
    ensures w.Some? ==> Write(z, ToWord(w.value.1)) in TimeWrites(w1, w2)
  {
    hide ToWord;
    if w.Some? {
      var mine := WindowWrites(y, z, w);
      assert mine[0] in TimeWrites(w1, w2) && mine[1] in TimeWrites(w1, w2);
    }
  }

  lemma PairWritten(d: PkgPowerLimit, p: nat, w1: TimeWindow, w2: TimeWindow, before: Word, y: Field, z: Field,
                    w: TimeWindow)
    requires Encodable(d, p) && IsPair(y, z, w, w1, w2) && TimeField(y) && TimeField(z)
    requires Layout(PkgWrites(d, p, w1, w2))
    ensures WindowStored(y, z, w, before, ApplyAll(PkgWrites(d, p, w1, w2), before))
  {
    hide Encodable, IsPair, TimeField, Layout, GetInt, ApplyAll, ToWord, Pow2, TimeWrites, PkgFields, PkgValues;
    PairInWrites(y, z, w, w1, w2);
    var ws := PkgWrites(d, p, w1, w2);
    match w {
      case None =>
        FieldUntouched(d, p, w1, w2, before, y);
        FieldUntouched(d, p, w1, w2, before, z);
      case Some((wy, wz)) =>
        if 0 <= wy < Pow2(y.Width()) && 0 <= wz < Pow2(z.Width()) {
          FieldStored(ws, before, y, wy);
          FieldStored(ws, before, z, wz);
        }
    }
  }

  /** A get shows a window that was found and fits its fields as that window's milliseconds. */
  ghost predicate WindowsShown(r: PkgRead, u: Units, w1: TimeWindow, w2: TimeWindow) {
    && (w1.Some? && 0 <= w1.value.0 < 32 && 0 <= w1.value.1 < 4 ==>
          r.pl1Time == WindowMs(w1.value.0, w1.value.1, u.time))
    && (w2.Some? && 0 <= w2.value.0 < 32 && 0 <= w2.value.1 < 4 ==>
          r.pl2Time == WindowMs(w2.value.0, w2.value.1, u.time))
  }

  lemma WindowsRead(u: Units, w1: TimeWindow, w2: TimeWindow, before: Word, after: Word)
    requires WindowStored(Field(21, 17), Field(23, 22), w1, before, after)
    requires WindowStored(Field(53, 49), Field(55, 54), w2, before, after)
    ensures WindowsShown(PkgDecode(after, u), u, w1, w2)
  {
    Pow2Values();
    hide GetInt, WindowMs, Pow2;
  }

  /** True means that a get returns the requested flags and each limit as ReadsBackAs says. A storing
      register ends as the fold of the writes, accepts exactly limits whose raw counts are 15-bit
      numbers, and holds each time window that was found, keeping the old one otherwise. */
  method PkgSet(dev: RegisterDevice, data: PkgPowerLimit, u: Units, w1: TimeWindow, w2: TimeWindow) returns (ok: bool)
    requires Encodable(data, u.power)
    modifies dev
    ensures Layout(PkgWrites(data, u.power, w1, w2))
    ensures dev.stores ==> dev.reg == ApplyAll(PkgWrites(data, u.power, w1, w2), old(dev.reg))
    ensures dev.stores ==>
      (ok <==> 0 <= Rapl.Enc(data.pl1, u.power) < 0x8000 && 0 <= Rapl.Enc(data.pl2, u.power) < 0x8000)
    ensures dev.stores ==> WindowStored(Field(21, 17), Field(23, 22), w1, old(dev.reg), dev.reg)
    ensures dev.stores ==> WindowStored(Field(53, 49), Field(55, 54), w2, old(dev.reg), dev.reg)
    ensures dev.stores ==> WindowsShown(PkgDecode(dev.reg, u), u, w1, w2)
    ensures ok ==> DecodedAs(data, u.power, PkgDecode(dev.reg, u))
  {
    hide *;
    ghost var p := u.power;
    CheckedFieldsReadBack(data, p, w1, w2, dev.reg);
    WindowsStored(data, p, w1, w2, dev.reg);
    PkgRange(data, p);
    ghost var before := dev.reg;
    var read, reg := dev.Read();
    if !read { return false; }
    ok := PkgWriteAndVerify(dev, data, u.power, w1, w2, reg);
    if dev.stores { WindowsRead(u, w1, w2, before, dev.reg); }
    if ok { DecodedLimit(data, u, dev.reg); }
  }

  ghost predicate DecodedAs(d: PkgPowerLimit, p: nat, r: PkgRead) {
    && ReadsBackAs(d.pl1, r.pl1, p) && ReadsBackAs(d.pl2, r.pl2, p)
    && r.pl1Enable == d.pl1Enable && r.pl1Clamp == d.pl1Clamp
    && r.pl2Enable == d.pl2Enable && r.pl2Clamp == d.pl2Clamp && r.lock == d.lock
  }

  lemma LimitReadsBack(mw: int, raw: nat, p: nat)
    requires raw == Rapl.Enc(mw, p)
    ensures ReadsBackAs(mw, Rapl.Dec(raw, p), p)
  {
    if mw >= 0 {
      Rapl.SetGetLoss(mw, p);
    } else {
      assert Rapl.Enc(mw, p) == 0;
    }
  }

  /** A negative limit is accepted, and comes back as zero, exactly when it is above minus one raw count. */
  lemma NegativeAcceptedIff(mw: int, p: nat)
    requires mw < 0
    ensures Rapl.Enc(mw, p) >= 0 <==> -mw * Pow2(p) < 1000
  {
    var a := -mw * Pow2(p);
    if a < 1000 {
      assert Rapl.FloorDiv(a, 1000) == 0;
    }
  }

  /** Asking for -1 mW in eighths of a watt is accepted and gives 0. */
  lemma NegativeWitness()
    ensures Rapl.Enc(-1, 3) == 0 && ReadsBackAs(-1, 0, 3)
  {
    Pow2Values();
    NegativeAcceptedIff(-1, 3);
    LimitReadsBack(-1, 0, 3);
  }

  lemma DecodedLimit(d: PkgPowerLimit, u: Units, reg: Word)
    requires Encodable(d, u.power) && Decode(PkgFields(), reg) == PkgValues(d, u.power)
    ensures DecodedAs(d, u.power, PkgDecode(reg, u))
  {
    hide WindowMs;
    var p := u.power;
    var v, w := Decode(PkgFields(), reg), PkgValues(d, p);
    assert v[0] == w[0] && v[1] == w[1] && v[2] == w[2] && v[3] == w[3];
    assert v[4] == w[4] && v[5] == w[5] && v[6] == w[6];
    LimitReadsBack(d.pl1, v[0], p);
    LimitReadsBack(d.pl2, v[3], p);
  }

  lemma ThreeParts(a: seq<Write>, b: seq<Write>, c: seq<Write>, data: Word)
    requires Layout(a + (b + c))
    ensures forall w :: w in a || w in b || w in c ==> w.field.Ok()
    ensures ApplyAll(c, ApplyAll(b, ApplyAll(a, data))) == ApplyAll(a + (b + c), data)
  {
    hide ApplyAll;
    forall w | w in a || w in b || w in c ensures w.field.Ok() {
      assert w in a + (b + c);
    }
    ApplyAppend(b, c, ApplyAll(a, data));
    ApplyAppend(a, b + c, data);
  }

  /** The word the setter writes: checked fields, then the time windows. */
  method PkgWord(data: PkgPowerLimit, p: nat, w1: TimeWindow, w2: TimeWindow, reg: Word) returns (word: Word)
    requires Encodable(data, p)
    ensures Layout(PkgWrites(data, p, w1, w2))
    ensures word == ApplyAll(PkgWrites(data, p, w1, w2), reg)
  {
    hide PkgFields;
    hide PkgValues;
    hide ApplyAll;
    hide WindowWrites;
    ghost var fs, vs := PkgFields(), PkgValues(data, p);
    PkgLayout(data, p, w1, w2);
    word := PkgUpdate(data, p, reg);
    PartialIsFold(fs, vs, reg, 7);
    assert Writes(fs, vs)[..7] == Writes(fs, vs);
    word := WindowUpdate(Field(21, 17), Field(23, 22), w1, word);
    word := WindowUpdate(Field(53, 49), Field(55, 54), w2, word);
    ThreeParts(Writes(fs, vs), WindowWrites(Field(21, 17), Field(23, 22), w1),
               WindowWrites(Field(53, 49), Field(55, 54), w2), reg);
  }

  method PkgWriteAndVerify(dev: RegisterDevice, data: PkgPowerLimit, p: nat, w1: TimeWindow, w2: TimeWindow, reg: Word)
    returns (ok: bool)
    requires Encodable(data, p)
    modifies dev
    ensures Layout(PkgWrites(data, p, w1, w2)) && Layout(Writes(PkgFields(), PkgValues(data, p)))
    ensures dev.stores ==> dev.reg == ApplyAll(PkgWrites(data, p, w1, w2), reg)
    ensures dev.stores ==> (ok <==> Matches(Writes(PkgFields(), PkgValues(data, p)), dev.reg))
    ensures ok ==> Decode(PkgFields(), dev.reg) == PkgValues(data, p)
  {
    PkgLayout(data, p, w1, w2);
    var checked := Writes(PkgFields(), PkgValues(data, p));
    var word := PkgWord(data, p, w1, w2, reg);
    ok := dev.Write(word);
    if ok {
      var back;
      ok, back := dev.Read();
      ok := ok && Matches(checked, back);
    }
    ListCodec(PkgFields(), PkgValues(data, p), dev.reg);
  }
}
