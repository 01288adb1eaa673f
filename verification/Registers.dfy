/** Register classes that fold field writes into one read, modify, write and read-back
    (src/Device/CPU/Intel/Registers). */
module Registers {
  import opened Basics
  import opened Words
  import opened Bitfields
  import HwpWindow

  /** The values of a C `int`. */
  type CInt = x: int | -0x8000_0000 <= x < 0x8000_0000

  /** One 64-bit register behind `msrDev->read` and `msrDev->write`. Either access may fail,
      and the hardware may ignore or alter written bits, unless it `stores`. */
  class RegisterDevice {
    const stores: bool
    var reg: Word

    constructor (stores: bool, reg: Word)
      ensures this.stores == stores && this.reg == reg
    {
      this.stores, this.reg := stores, reg;
    }

    method Read() returns (ok: bool, out: Word)
      ensures stores ==> ok
      ensures ok ==> out == reg
    {
      out := reg;
      ok := *;
      if stores { ok := true; }
    }

    method Write(value: Word) returns (ok: bool)
      modifies this
      ensures stores ==> ok && reg == value
    {
      ok := *;
      reg := *;
      if stores { ok, reg := true, value; }
    }
  }

  function OfBool(b: bool): CInt { if b then 1 else 0 }

  /** A getter's `static_cast<int>(getBitfield(...))`. */
  function GetInt(f: Field, reg: Word): (r: CInt)
    requires f.Ok() && f.Width() < 32
    ensures 0 <= r < Pow2(f.Width())
  {
    FieldRange(f, reg);
    Value(GetBitfield(f, reg))
  }

  lemma FieldRange(f: Field, reg: Word)
    requires f.Ok() && f.Width() < 32
    ensures Value(GetBitfield(f, reg)) < Pow2(f.Width()) <= 0x8000_0000
  {
    var got := GetBitfield(f, reg);
    GetBitfieldBits(f, reg);
    ValueZeroExtended(got, f.Width());
    ValueBound(got[..f.Width()]);
    Pow2Monotone(f.Width(), 31);
    Pow2Big();
  }

  /** `getBitfield(bit, bit, reg) == 1`. */
  function Flags(v: seq<CInt>): seq<bool> {
    seq(|v|, i requires 0 <= i < |v| => v[i] == 1)
  }

  // ---------- any register, as a list of fields ----------

  /** Fields in ascending order, each narrower than a C `int`. */
  ghost predicate Ascending(fs: seq<Field>) {
    && (forall i :: 0 <= i < |fs| ==> fs[i].low <= fs[i].high < 64 && fs[i].Width() < 32)
    && (forall i, j :: 0 <= i && j == i + 1 && j < |fs| ==> fs[i].high < fs[j].low)
  }

  function Writes(fs: seq<Field>, vs: seq<CInt>): seq<Write>
    requires |fs| == |vs|
  {
    seq(|fs|, i requires 0 <= i < |fs| => Write(fs[i], ToWord(vs[i])))
  }

  function Decode(fs: seq<Field>, reg: Word): seq<CInt>
    requires Ascending(fs)
  {
    seq(|fs|, i requires 0 <= i < |fs| => GetInt(fs[i], reg))
  }

  ghost predicate InRange(fs: seq<Field>, vs: seq<CInt>)
    requires Ascending(fs) && |fs| == |vs|
  {
    forall i :: 0 <= i < |fs| ==> 0 <= vs[i] < Pow2(fs[i].Width())
  }

  lemma {:induction false} AscendingDisjoint(fs: seq<Field>, i: nat, j: nat)
    requires Ascending(fs) && i < j < |fs|
    ensures fs[i].high < fs[j].low
    decreases j
  {
    var h := j - 1;
    assert fs[h].high < fs[j].low;
    if i < h {
      AscendingDisjoint(fs, i, h);
    }
  }

  lemma AscendingIsLayout(fs: seq<Field>, vs: seq<CInt>)
    requires Ascending(fs) && |fs| == |vs|
    ensures Layout(Writes(fs, vs))
  {
    var ws := Writes(fs, vs);
    forall i, j | 0 <= i < j < |ws| ensures ws[i].field.Disjoint(ws[j].field) {
      AscendingDisjoint(fs, i, j);
    }
  }

  /** Comparing every field equal is decoding to the request; fitting is being in range. */
  lemma ListCodec(fs: seq<Field>, vs: seq<CInt>, reg: Word)
    requires Ascending(fs) && |fs| == |vs| && Layout(Writes(fs, vs))
    ensures Matches(Writes(fs, vs), reg) ==> Decode(fs, reg) == vs
    ensures (forall k :: 0 <= k < |fs| ==> Fits(Writes(fs, vs)[k])) <==> InRange(fs, vs)
  {
    var ws := Writes(fs, vs);
    forall k | 0 <= k < |fs|
      ensures GetBitfield(ws[k].field, reg) == ws[k].value ==> GetInt(fs[k], reg) == vs[k]
      ensures Fits(ws[k]) <==> 0 <= vs[k] < Pow2(fs[k].Width())
    {
      MatchedValue(fs[k], vs[k], reg);
      IntFits(fs[k], vs[k]);
    }
  }

  /** A whole register update on a storing device: every listed field reads back the requested
      value modulo its width, and any field disjoint from the layout keeps its contents. */
  lemma StoredRegister(fs: seq<Field>, vs: seq<CInt>, before: Word, g: Field)
    requires Ascending(fs) && |fs| == |vs| && Layout(Writes(fs, vs)) && g.Ok()
    requires forall i :: 0 <= i < |fs| ==> fs[i].Disjoint(g)
    ensures GetBitfield(g, ApplyAll(Writes(fs, vs), before)) == GetBitfield(g, before)
    ensures InRange(fs, vs) ==> Decode(fs, ApplyAll(Writes(fs, vs), before)) == vs
  {
    var ws := Writes(fs, vs);
    FieldFrame(ws, before, g);
    MatchesIffFits(ws, before);
    ListCodec(fs, vs, ApplyAll(ws, before));
  }

  /** The outcome of a verified write of the list ws, whatever the register class: true means
      every field compared equal; a storing register holds the fold and accepts what fits. */
  ghost predicate VerifiedWrite(stores: bool, before: Word, ws: seq<Write>, after: Word, ok: bool)
    requires Layout(ws)
  {
    && (ok ==> Matches(ws, after))
    && (stores ==> after == ApplyAll(ws, before))
    && (stores ==> (ok <==> forall k :: 0 <= k < |ws| ==> Fits(ws[k])))
  }

  /** On a storing register a second identical verified write changes nothing. */
  lemma SecondSetIsNoOp(before: Word, ws: seq<Write>, once: Word, ok1: bool, twice: Word, ok2: bool)
    requires Layout(ws)
    requires VerifiedWrite(true, before, ws, once, ok1) && VerifiedWrite(true, once, ws, twice, ok2)
    ensures twice == once && ok2 == ok1
  {
    ApplyAllIdempotent(ws, before);
  }

  /** The register after the first k assignments of a setter. */
  ghost function Partial(fs: seq<Field>, vs: seq<CInt>, before: Word, k: nat): Word
    requires Ascending(fs) && k <= |fs| == |vs|
  {
    if k == 0 then before
    else SetBitfield(fs[k - 1], ToWord(vs[k - 1]), Partial(fs, vs, before, k - 1))
  }

  lemma {:induction false} PartialIsFold(fs: seq<Field>, vs: seq<CInt>, before: Word, k: nat)
    requires Ascending(fs) && k <= |fs| == |vs|
    ensures Partial(fs, vs, before, k) == ApplyAll(Writes(fs, vs)[..k], before)
  {
    hide SetBitfield;
    if k != 0 {
      var ws := Writes(fs, vs);
      PartialIsFold(fs, vs, before, k - 1);
      assert ws[..k] == ws[..k - 1] + [ws[k - 1]];
      ApplyAllSnoc(ws[..k - 1], ws[k - 1], before);
    }
  }

  ghost predicate Done(fs: seq<Field>, vs: seq<CInt>, before: Word, k: nat, reg: Word) {
    && Ascending(fs) && k <= |fs| == |vs|
    && reg == Partial(fs, vs, before, k)
  }

  lemma DoneNothing(fs: seq<Field>, vs: seq<CInt>, reg: Word)
    requires Ascending(fs) && |fs| == |vs|
    ensures Done(fs, vs, reg, 0, reg)
  {
  }

  /** One `reg = setBitfield(high, low, x, reg)` line, the k-th of a setter. */
  method Assign(f: Field, x: CInt, reg: Word, ghost fs: seq<Field>, ghost vs: seq<CInt>, ghost before: Word,
                ghost k: nat)
    returns (updated: Word)
    requires Done(fs, vs, before, k, reg)
    requires k < |fs| && fs[k] == f && vs[k] == x
    ensures Done(fs, vs, before, k + 1, updated)
  {
    updated := SetBitfield(f, ToWord(x), reg);
  }

  /** The common tail of every setter: write, read back, compare every field. */
  method Finish(dev: RegisterDevice, ghost before: Word, fs: seq<Field>, vs: seq<CInt>, reg: Word) returns (ok: bool)
    requires Done(fs, vs, before, |fs|, reg)
    modifies dev
    ensures Layout(Writes(fs, vs))
    ensures VerifiedWrite(dev.stores, before, Writes(fs, vs), dev.reg, ok)
    ensures ok ==> Decode(fs, dev.reg) == vs
    ensures dev.stores ==> (ok <==> InRange(fs, vs))
  {
    var ws := Writes(fs, vs);
    AscendingIsLayout(fs, vs);
    PartialIsFold(fs, vs, before, |fs|);
    assert ws[..|fs|] == ws;
    MatchesIffFits(ws, before);
    ok := dev.Write(reg);
    if ok {
      var back;
      ok, back := dev.Read();
      ok := ok && Matches(ws, back);
    }
    ListCodec(fs, vs, dev.reg);
  }

  // ---------- MSR_TURBO_RATIO_LIMIT: eight bytes that cover the whole word ----------

  /** maxRatioLimit1C to maxRatioLimit8C. */
  datatype TurboRatioLimit = TurboRatioLimit(ratios: seq<CInt>) {
    predicate Ok() { |ratios| == 8 }
  }

  function TurboFields(): (fs: seq<Field>)
    ensures |fs| == 8 && Ascending(fs)
  {
    seq(8, i requires 0 <= i < 8 => Field(8 * i + 7, 8 * i))
  }

  function TurboValues(d: TurboRatioLimit): seq<CInt> { d.ratios }

  function TurboWrites(d: TurboRatioLimit): seq<Write>
    requires d.Ok()
  {
    Writes(TurboFields(), TurboValues(d))
  }

  function TurboDecode(reg: Word): TurboRatioLimit { TurboRatioLimit(Decode(TurboFields(), reg)) }

  /** The k-th field and value, as the k-th assignment of the setter writes them. */
  lemma TurboElements(data: TurboRatioLimit)
    requires data.Ok()
    ensures |data.ratios| == |TurboValues(data)| == 8
    ensures var fs, vs := TurboFields(), TurboValues(data);
      fs[0] == Field(7, 0) && vs[0] == data.ratios[0] &&
      fs[1] == Field(15, 8) && vs[1] == data.ratios[1] &&
      fs[2] == Field(23, 16) && vs[2] == data.ratios[2] &&
      fs[3] == Field(31, 24) && vs[3] == data.ratios[3] &&
      fs[4] == Field(39, 32) && vs[4] == data.ratios[4] &&
      fs[5] == Field(47, 40) && vs[5] == data.ratios[5] &&
      fs[6] == Field(55, 48) && vs[6] == data.ratios[6] &&
      fs[7] == Field(63, 56) && vs[7] == data.ratios[7]
  {
  }

  method TurboGet(dev: RegisterDevice) returns (r: Option<TurboRatioLimit>)
    ensures dev.stores ==> r.Some?
    ensures r.Some? ==> r.value == TurboDecode(dev.reg)
  {
    var ok, reg := dev.Read();
    r := if ok then Some(TurboDecode(reg)) else None;
  }

  /** The setter's assignments, in its order. */
  method TurboUpdate(data: TurboRatioLimit, reg: Word) returns (updated: Word)
    requires data.Ok()
    ensures Done(TurboFields(), TurboValues(data), reg, 8, updated)
  {
    hide *;
    TurboElements(data);
    ghost var fs, vs, before := TurboFields(), TurboValues(data), reg;
    DoneNothing(fs, vs, reg);
    updated := Assign(Field(7, 0), data.ratios[0], reg, fs, vs, before, 0);
    updated := Assign(Field(15, 8), data.ratios[1], updated, fs, vs, before, 1);
    updated := Assign(Field(23, 16), data.ratios[2], updated, fs, vs, before, 2);
    updated := Assign(Field(31, 24), data.ratios[3], updated, fs, vs, before, 3);
    updated := Assign(Field(39, 32), data.ratios[4], updated, fs, vs, before, 4);
    updated := Assign(Field(47, 40), data.ratios[5], updated, fs, vs, before, 5);
    updated := Assign(Field(55, 48), data.ratios[6], updated, fs, vs, before, 6);
    updated := Assign(Field(63, 56), data.ratios[7], updated, fs, vs, before, 7);
  }

  lemma TurboRange(data: TurboRatioLimit)
    requires data.Ok()
    ensures InRange(TurboFields(), TurboValues(data)) <==> forall i :: 0 <= i < 8 ==> 0 <= data.ratios[i] < 256
  {
    Pow2Values();
    var fs, vs := TurboFields(), TurboValues(data);
    assert forall i :: 0 <= i < 8 ==> fs[i].Width() == 8;
  }

  /** True means the register decodes to the request; a storing register ends as the fold of
      the field writes and accepts exactly the requests whose ratios are bytes. */
  method TurboSet(dev: RegisterDevice, data: TurboRatioLimit) returns (ok: bool)
    requires data.Ok()
    modifies dev
    ensures Layout(TurboWrites(data))
    ensures VerifiedWrite(dev.stores, old(dev.reg), TurboWrites(data), dev.reg, ok)
    ensures ok ==> TurboDecode(dev.reg) == data
    ensures dev.stores ==> (ok <==> forall i :: 0 <= i < 8 ==> 0 <= data.ratios[i] < 256)
  {
    AscendingIsLayout(TurboFields(), TurboValues(data));
    TurboRange(data);
    var read, reg := dev.Read();
    if !read { return false; }
    var updated := TurboUpdate(data, reg);
    ok := Finish(dev, reg, TurboFields(), TurboValues(data), updated);
  }

  // ---------- MSR_POWER_CTL on CU1 parts: sixteen one-bit fields with gaps ----------

  /** bdProcHot, c1eEnable, sapmImcC2Policy, fastBrkSnpEn (bits 0-3), then
      powerPerformancePlatformOverride to hwpAutonomousDisable (bits 18-28), then
      cstatePrewakeDisable (bit 30). */
  datatype PowerCtl = PowerCtl(flags: seq<bool>) {
    predicate Ok() { |flags| == 16 }
  }

  function PowerCtlFields(): (fs: seq<Field>)
    ensures |fs| == 16 && Ascending(fs)
  {
    seq(16, i requires 0 <= i < 16 => var b := if i < 4 then i else if i < 15 then i + 14 else 30; Field(b, b))
  }

  function PowerCtlValues(d: PowerCtl): (v: seq<CInt>)
    requires d.Ok()
    ensures |v| == 16 && Flags(v) == d.flags
  {
    seq(16, i requires 0 <= i < 16 => OfBool(d.flags[i]))
  }

  function PowerCtlWrites(d: PowerCtl): seq<Write>
    requires d.Ok()
  {
    Writes(PowerCtlFields(), PowerCtlValues(d))
  }

  function PowerCtlDecode(reg: Word): PowerCtl { PowerCtl(Flags(Decode(PowerCtlFields(), reg))) }

  /** The k-th field and value, as the k-th assignment of the setter writes them. */
  lemma PowerCtlElements(data: PowerCtl)
    requires data.Ok()
    ensures |data.flags| == 16
    ensures var fs, vs := PowerCtlFields(), PowerCtlValues(data);
      fs[0] == Field(0, 0) && vs[0] == OfBool(data.flags[0]) &&
      fs[1] == Field(1, 1) && vs[1] == OfBool(data.flags[1]) &&
      fs[2] == Field(2, 2) && vs[2] == OfBool(data.flags[2]) &&
      fs[3] == Field(3, 3) && vs[3] == OfBool(data.flags[3]) &&
      fs[4] == Field(18, 18) && vs[4] == OfBool(data.flags[4]) &&
      fs[5] == Field(19, 19) && vs[5] == OfBool(data.flags[5]) &&
      fs[6] == Field(20, 20) && vs[6] == OfBool(data.flags[6]) &&
      fs[7] == Field(21, 21) && vs[7] == OfBool(data.flags[7])
  {
    hide OfBool;
  }

  lemma PowerCtlHighElements(data: PowerCtl)
    requires data.Ok()
    ensures |data.flags| == 16
    ensures var fs, vs := PowerCtlFields(), PowerCtlValues(data);
      fs[8] == Field(22, 22) && vs[8] == OfBool(data.flags[8]) &&
      fs[9] == Field(23, 23) && vs[9] == OfBool(data.flags[9]) &&
      fs[10] == Field(24, 24) && vs[10] == OfBool(data.flags[10]) &&
      fs[11] == Field(25, 25) && vs[11] == OfBool(data.flags[11]) &&
      fs[12] == Field(26, 26) && vs[12] == OfBool(data.flags[12]) &&
      fs[13] == Field(27, 27) && vs[13] == OfBool(data.flags[13]) &&
      fs[14] == Field(28, 28) && vs[14] == OfBool(data.flags[14]) &&
      fs[15] == Field(30, 30) && vs[15] == OfBool(data.flags[15])
  {
    hide OfBool;
  }

  method PowerCtlGet(dev: RegisterDevice) returns (r: Option<PowerCtl>)
    ensures dev.stores ==> r.Some?
    ensures r.Some? ==> r.value == PowerCtlDecode(dev.reg)
  {
    var ok, reg := dev.Read();
    r := if ok then Some(PowerCtlDecode(reg)) else None;
  }

  /** The setter's assignments, in its order: bits 0 to 21, then bits 22 to 30. */
  method PowerCtlUpdate(data: PowerCtl, reg: Word) returns (updated: Word)
    requires data.Ok()
    ensures Done(PowerCtlFields(), PowerCtlValues(data), reg, 16, updated)
  {
    hide *;
    PowerCtlElements(data);
    ghost var fs, vs, before := PowerCtlFields(), PowerCtlValues(data), reg;
    DoneNothing(fs, vs, reg);
    updated := Assign(Field(0, 0), OfBool(data.flags[0]), reg, fs, vs, before, 0);
    updated := Assign(Field(1, 1), OfBool(data.flags[1]), updated, fs, vs, before, 1);
    updated := Assign(Field(2, 2), OfBool(data.flags[2]), updated, fs, vs, before, 2);
    updated := Assign(Field(3, 3), OfBool(data.flags[3]), updated, fs, vs, before, 3);
    updated := Assign(Field(18, 18), OfBool(data.flags[4]), updated, fs, vs, before, 4);
    updated := Assign(Field(19, 19), OfBool(data.flags[5]), updated, fs, vs, before, 5);
    updated := Assign(Field(20, 20), OfBool(data.flags[6]), updated, fs, vs, before, 6);
    updated := Assign(Field(21, 21), OfBool(data.flags[7]), updated, fs, vs, before, 7);
    updated := PowerCtlUpdateHigh(data, updated, before);
  }

  method PowerCtlUpdateHigh(data: PowerCtl, reg: Word, ghost before: Word) returns (updated: Word)
    requires data.Ok() && Done(PowerCtlFields(), PowerCtlValues(data), before, 8, reg)
    ensures Done(PowerCtlFields(), PowerCtlValues(data), before, 16, updated)
  {
    hide *;
    PowerCtlHighElements(data);
    ghost var fs, vs := PowerCtlFields(), PowerCtlValues(data);
    updated := Assign(Field(22, 22), OfBool(data.flags[8]), reg, fs, vs, before, 8);
    updated := Assign(Field(23, 23), OfBool(data.flags[9]), updated, fs, vs, before, 9);
    updated := Assign(Field(24, 24), OfBool(data.flags[10]), updated, fs, vs, before, 10);
    updated := Assign(Field(25, 25), OfBool(data.flags[11]), updated, fs, vs, before, 11);
    updated := Assign(Field(26, 26), OfBool(data.flags[12]), updated, fs, vs, before, 12);
    updated := Assign(Field(27, 27), OfBool(data.flags[13]), updated, fs, vs, before, 13);
    updated := Assign(Field(28, 28), OfBool(data.flags[14]), updated, fs, vs, before, 14);
    updated := Assign(Field(30, 30), OfBool(data.flags[15]), updated, fs, vs, before, 15);
  }

  lemma PowerCtlRange(data: PowerCtl)
    requires data.Ok()
    ensures InRange(PowerCtlFields(), PowerCtlValues(data))
  {
    Pow2Values();
    var fs, vs := PowerCtlFields(), PowerCtlValues(data);
    assert forall i :: 0 <= i < 16 ==> fs[i].Width() == 1 && 0 <= vs[i] < 2;
  }

  /** As for the turbo ratios; flags always fit, so a storing register accepts everything. */
  method PowerCtlSet(dev: RegisterDevice, data: PowerCtl) returns (ok: bool)
    requires data.Ok()
    modifies dev
    ensures Layout(PowerCtlWrites(data))
    ensures VerifiedWrite(dev.stores, old(dev.reg), PowerCtlWrites(data), dev.reg, ok)
    ensures ok ==> PowerCtlDecode(dev.reg) == data
    ensures dev.stores ==> ok
  {
    AscendingIsLayout(PowerCtlFields(), PowerCtlValues(data));
    PowerCtlRange(data);
    var read, reg := dev.Read();
    if !read { return false; }
    var updated := PowerCtlUpdate(data, reg);
    ok := Finish(dev, reg, PowerCtlFields(), PowerCtlValues(data), updated);
  }

  // ---------- MSR_PKG_CST_CONFIG_CONTROL on CU1 parts: fields of mixed widths ----------

  /** The flags are ioMwaitRedirectionEnable (bit 10), cfgLock (bit 15) and
      c3StateAutodemotionEnable to timedMwaitEnable (bits 25-31). */
  datatype PkgCst = PkgCst(packageCStateLimit: CInt, maxCoreCState: CInt, flags: seq<bool>) {
    predicate Ok() { |flags| == 9 }

    predicate InRange() { 0 <= packageCStateLimit < 16 && 0 <= maxCoreCState < 16 }
  }

  function CstFields(): (fs: seq<Field>)
    ensures |fs| == 11 && Ascending(fs)
    ensures forall i :: 2 <= i < 11 ==> fs[i].high == fs[i].low
  {
    seq(11, i requires 0 <= i < 11 =>
      if i < 2 then Field(4 * i + 3, 4 * i)
      else var b := if i == 2 then 10 else if i == 3 then 15 else i + 21; Field(b, b))
  }

  function CstValues(d: PkgCst): (v: seq<CInt>)
    requires d.Ok()
    ensures |v| == 11 && Flags(v[2..]) == d.flags
    ensures forall i :: 2 <= i < 11 ==> v[i] == OfBool(d.flags[i - 2])
  {
    seq(11, i requires 0 <= i < 11 =>
      if i == 0 then d.packageCStateLimit else if i == 1 then d.maxCoreCState else OfBool(d.flags[i - 2]))
  }

  function CstWrites(d: PkgCst): seq<Write>
    requires d.Ok()
  {
    Writes(CstFields(), CstValues(d))
  }

  function CstDecode(reg: Word): PkgCst {
    var v := Decode(CstFields(), reg);
    PkgCst(v[0], v[1], Flags(v[2..]))
  }

  /** The k-th field and value, as the k-th assignment of the setter writes them. */
  lemma CstElements(data: PkgCst)
    requires data.Ok()
    ensures |data.flags| == 9
    ensures var fs, vs := CstFields(), CstValues(data);
      fs[0] == Field(3, 0) && vs[0] == data.packageCStateLimit &&
      fs[1] == Field(7, 4) && vs[1] == data.maxCoreCState &&
      fs[2] == Field(10, 10) && vs[2] == OfBool(data.flags[0]) &&
      fs[3] == Field(15, 15) && vs[3] == OfBool(data.flags[1]) &&
      fs[4] == Field(25, 25) && vs[4] == OfBool(data.flags[2]) &&
      fs[5] == Field(26, 26) && vs[5] == OfBool(data.flags[3]) &&
      fs[6] == Field(27, 27) && vs[6] == OfBool(data.flags[4]) &&
      fs[7] == Field(28, 28) && vs[7] == OfBool(data.flags[5]) &&
      fs[8] == Field(29, 29) && vs[8] == OfBool(data.flags[6]) &&
      fs[9] == Field(30, 30) && vs[9] == OfBool(data.flags[7]) &&
      fs[10] == Field(31, 31) && vs[10] == OfBool(data.flags[8])
  {
  }

  method CstGet(dev: RegisterDevice) returns (r: Option<PkgCst>)
    ensures dev.stores ==> r.Some?
    ensures r.Some? ==> r.value == CstDecode(dev.reg)
  {
    var ok, reg := dev.Read();
    r := if ok then Some(CstDecode(reg)) else None;
  }

  /** The setter's assignments, in its order. */
  method CstUpdate(data: PkgCst, reg: Word) returns (updated: Word)
    requires data.Ok()
    ensures Done(CstFields(), CstValues(data), reg, 11, updated)
  {
    hide *;
    CstElements(data);
    ghost var fs, vs, before := CstFields(), CstValues(data), reg;
    DoneNothing(fs, vs, reg);
    updated := Assign(Field(3, 0), data.packageCStateLimit, reg, fs, vs, before, 0);
    updated := Assign(Field(7, 4), data.maxCoreCState, updated, fs, vs, before, 1);
    updated := Assign(Field(10, 10), OfBool(data.flags[0]), updated, fs, vs, before, 2);
    updated := Assign(Field(15, 15), OfBool(data.flags[1]), updated, fs, vs, before, 3);
    updated := Assign(Field(25, 25), OfBool(data.flags[2]), updated, fs, vs, before, 4);
    updated := Assign(Field(26, 26), OfBool(data.flags[3]), updated, fs, vs, before, 5);
    updated := Assign(Field(27, 27), OfBool(data.flags[4]), updated, fs, vs, before, 6);
    updated := Assign(Field(28, 28), OfBool(data.flags[5]), updated, fs, vs, before, 7);
    updated := Assign(Field(29, 29), OfBool(data.flags[6]), updated, fs, vs, before, 8);
    updated := Assign(Field(30, 30), OfBool(data.flags[7]), updated, fs, vs, before, 9);
    updated := Assign(Field(31, 31), OfBool(data.flags[8]), updated, fs, vs, before, 10);
  }

  lemma CstRange(data: PkgCst)
    requires data.Ok()
    ensures InRange(CstFields(), CstValues(data)) <==> data.InRange()
  {
    Pow2Values();
    var fs, vs := CstFields(), CstValues(data);
    assert forall i :: 2 <= i < 11 ==> fs[i].Width() == 1 && 0 <= vs[i] < 2;
    assert fs[0].Width() == 4 && fs[1].Width() == 4;
  }

  method CstSet(dev: RegisterDevice, data: PkgCst) returns (ok: bool)
    requires data.Ok()
    modifies dev
    ensures Layout(CstWrites(data))
    ensures VerifiedWrite(dev.stores, old(dev.reg), CstWrites(data), dev.reg, ok)
    ensures ok ==> CstDecode(dev.reg) == data
    ensures dev.stores ==> (ok <==> data.InRange())
  {
    AscendingIsLayout(CstFields(), CstValues(data));
    CstRange(data);
    var read, reg := dev.Read();
    if !read { return false; }
    var updated := CstUpdate(data, reg);
    ok := Finish(dev, reg, CstFields(), CstValues(data), updated);
  }

  // ---------- IA32_HWP_REQUEST: twelve fields, the activity window among them ----------

  /** The flags are packageControl (bit 42), then acwValid, eppValid, desiredValid, maxValid
      and minValid (bits 59-63); acw is in microseconds. */
  datatype HwpRequest = HwpRequest(min: CInt, max: CInt, desired: CInt, epp: CInt, acw: CInt, flags: seq<bool>) {
    predicate Ok() { |flags| == 6 }

    predicate InRange() { 0 <= min < 256 && 0 <= max < 256 && 0 <= desired < 256 && 0 <= epp < 256 }
  }

  function HwpFields(): (fs: seq<Field>)
    ensures |fs| == 12 && Ascending(fs)
    ensures forall i :: 6 <= i < 12 ==> fs[i].high == fs[i].low
  {
    seq(12, i requires 0 <= i < 12 =>
      if i < 4 then Field(8 * i + 7, 8 * i)
      else if i == 4 then Field(38, 32)
      else if i == 5 then Field(41, 39)
      else var b := if i == 6 then 42 else i + 52; Field(b, b))
  }

  function HwpWindowOf(acw: CInt): (w: HwpWindow.Window)
    ensures w == HwpWindow.Encoded(acw) && w.Representable()
  {
    HwpWindow.EncodingGood(acw);
    HwpWindow.Encoded(acw)
  }

  function HwpValues(d: HwpRequest): (v: seq<CInt>)
    requires d.Ok()
    ensures |v| == 12 && Flags(v[6..]) == d.flags
    ensures forall i :: 6 <= i < 12 ==> v[i] == OfBool(d.flags[i - 6])
  {
    var w := HwpWindowOf(d.acw);
    seq(12, i requires 0 <= i < 12 =>
      if i == 0 then d.min else if i == 1 then d.max else if i == 2 then d.desired else if i == 3 then d.epp
      else if i == 4 then w.mantissa else if i == 5 then w.exponent else OfBool(d.flags[i - 6]))
  }

  function HwpWrites(d: HwpRequest): seq<Write>
    requires d.Ok()
  {
    Writes(HwpFields(), HwpValues(d))
  }

  /** What the getter returns, except that the window comes as its decoded microseconds. */
  datatype HwpRead = HwpRead(min: CInt, max: CInt, desired: CInt, epp: CInt, acw: nat, flags: seq<bool>)

  function HwpDecode(reg: Word): HwpRead {
    var v := Decode(HwpFields(), reg);
    HwpRead(v[0], v[1], v[2], v[3], HwpWindow.Window(v[5], v[4]).Decoded(), Flags(v[6..]))
  }

  /** The k-th field and value, as the k-th assignment of the setter writes them. */
  lemma HwpElements(data: HwpRequest)
    requires data.Ok()
    ensures |data.flags| == 6
    ensures var fs, vs, w := HwpFields(), HwpValues(data), HwpWindow.Encoded(data.acw);
      fs[0] == Field(7, 0) && vs[0] == data.min &&
      fs[1] == Field(15, 8) && vs[1] == data.max &&
      fs[2] == Field(23, 16) && vs[2] == data.desired &&
      fs[3] == Field(31, 24) && vs[3] == data.epp &&
      fs[4] == Field(38, 32) && vs[4] == w.mantissa &&
      fs[5] == Field(41, 39) && vs[5] == w.exponent &&
      fs[6] == Field(42, 42) && vs[6] == OfBool(data.flags[0]) &&
      fs[7] == Field(59, 59) && vs[7] == OfBool(data.flags[1]) &&
      fs[8] == Field(60, 60) && vs[8] == OfBool(data.flags[2]) &&
      fs[9] == Field(61, 61) && vs[9] == OfBool(data.flags[3]) &&
      fs[10] == Field(62, 62) && vs[10] == OfBool(data.flags[4]) &&
      fs[11] == Field(63, 63) && vs[11] == OfBool(data.flags[5])
  {
  }

  method HwpGet(dev: RegisterDevice) returns (r: Option<HwpRead>)
    ensures dev.stores ==> r.Some?
    ensures r.Some? ==> r.value == HwpDecode(dev.reg)
  {
    var ok, reg := dev.Read();
    r := if ok then Some(HwpDecode(reg)) else None;
  }

  /** The setter's assignments, in its order. */
  method HwpUpdate(data: HwpRequest, reg: Word) returns (updated: Word)
    requires data.Ok()
    ensures Done(HwpFields(), HwpValues(data), reg, 12, updated)
  {
    hide *;
    var w := HwpWindow.USecToRawHWPActivityWindow(data.acw);
    HwpElements(data);
    ghost var fs, vs, before := HwpFields(), HwpValues(data), reg;
    DoneNothing(fs, vs, reg);
    updated := Assign(Field(7, 0), data.min, reg, fs, vs, before, 0);
    updated := Assign(Field(15, 8), data.max, updated, fs, vs, before, 1);
    updated := Assign(Field(23, 16), data.desired, updated, fs, vs, before, 2);
    updated := Assign(Field(31, 24), data.epp, updated, fs, vs, before, 3);
    updated := Assign(Field(38, 32), w.mantissa, updated, fs, vs, before, 4);
    updated := Assign(Field(41, 39), w.exponent, updated, fs, vs, before, 5);
    updated := Assign(Field(42, 42), OfBool(data.flags[0]), updated, fs, vs, before, 6);
    updated := Assign(Field(59, 59), OfBool(data.flags[1]), updated, fs, vs, before, 7);
    updated := Assign(Field(60, 60), OfBool(data.flags[2]), updated, fs, vs, before, 8);
    updated := Assign(Field(61, 61), OfBool(data.flags[3]), updated, fs, vs, before, 9);
    updated := Assign(Field(62, 62), OfBool(data.flags[4]), updated, fs, vs, before, 10);
    updated := Assign(Field(63, 63), OfBool(data.flags[5]), updated, fs, vs, before, 11);
  }

  lemma HwpRange(data: HwpRequest)
    requires data.Ok()
    ensures InRange(HwpFields(), HwpValues(data)) <==> data.InRange()
  {
    Pow2Values();
    HwpElements(data);
    var fs, vs := HwpFields(), HwpValues(data);
    HwpWindow.EncodingGood(data.acw);
    forall i | 4 <= i < 12 ensures 0 <= vs[i] < Pow2(fs[i].Width()) {
      if i >= 6 { assert fs[i].Width() == 1; }
    }
    if InRange(fs, vs) {
      assert forall i :: 0 <= i < 4 ==> 0 <= vs[i] < Pow2(fs[i].Width());
    }
    assert fs[0].Width() == 8 && fs[1].Width() == 8 && fs[2].Width() == 8 && fs[3].Width() == 8;
  }

  /** True means every field reads back as requested, the window as its encoding decodes: no
      more than a thirteenth below the request exactly for requests below the limit. */
  method HwpSet(dev: RegisterDevice, data: HwpRequest) returns (ok: bool)
    requires data.Ok()
    modifies dev
    ensures Layout(HwpWrites(data))
    ensures VerifiedWrite(dev.stores, old(dev.reg), HwpWrites(data), dev.reg, ok)
    ensures ok ==> HwpDecode(dev.reg)
                   == HwpRead(data.min, data.max, data.desired, data.epp, HwpWindow.Encoded(data.acw).Decoded(),
                              data.flags)
    ensures ok ==> (0 <= data.acw < HwpWindow.EXPONENT_LIMIT <==>
      HwpDecode(dev.reg).acw <= data.acw && (data.acw > 0 ==> 13 * HwpDecode(dev.reg).acw > 12 * data.acw))
    ensures dev.stores ==> (ok <==> data.InRange())
  {
    AscendingIsLayout(HwpFields(), HwpValues(data));
    HwpRange(data);
    HwpWindow.EncodingGood(data.acw);
    var read, reg := dev.Read();
    if !read { return false; }
    var updated := HwpUpdate(data, reg);
    ok := Finish(dev, reg, HwpFields(), HwpValues(data), updated);
  }
}
