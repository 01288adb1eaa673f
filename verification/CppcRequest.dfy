/** MSR_CPPC_REQUEST (src/Device/CPU/AMD/Registers/MSR_CPPC_REQUEST.h): a setter whose read-back check
    compares two of its four fields only for being nonzero. */
module CppcRequest {
  import opened Words
  import opened Bitfields
  import opened Registers

  datatype CppcRequest = CppcRequest(maxPerf: CInt, minPerf: CInt, desiredPerf: CInt, epp: CInt)

  function CppcFields(): (fs: seq<Field>)
    ensures |fs| == 4 && Ascending(fs)
  {
    seq(4, i requires 0 <= i < 4 => Field(8 * i + 7, 8 * i))
  }

  function CppcValues(d: CppcRequest): (v: seq<CInt>)
    ensures |v| == 4
  {
    [d.maxPerf, d.minPerf, d.desiredPerf, d.epp]
  }

  function CppcDecode(reg: Word): CppcRequest {
    CppcRequest(GetInt(Field(7, 0), reg), GetInt(Field(15, 8), reg), GetInt(Field(23, 16), reg),
                GetInt(Field(31, 24), reg))
  }

  function Mod256(x: int): CInt {
    x % 256
  }

  predicate InByte(x: int) {
    0 <= x < 256
  }

  /** What is left of x after n halvings. */
  function Quot(x: int, n: nat): int
    decreases n
  {
    if n == 0 then x else Quot(x / 2, n - 1)
  }

  lemma {:induction false} BitsQuot(x: int, n: nat)
    ensures x == Value(Bits(x, n)) + Pow2(n) * Quot(x, n)
    decreases n
  {
    if n != 0 {
      BitsQuot(x / 2, n - 1);
      assert Bits(x, n)[1..] == Bits(x / 2, n - 1);
      var p, q := Pow2(n - 1), Quot(x / 2, n - 1);
      assert 2 * (p * q) == (2 * p) * q;
    }
  }

  /** The low byte of a converted int is its residue modulo 256. */
  lemma LowByte(x: int)
    ensures Value(Bits(x, 8)) == x % 256
  {
    Pow2Values();
    hide *;
    BitsQuot(x, 8);
    ValueBound(Bits(x, 8));
    var v, q := Value(Bits(x, 8)), Quot(x, 8);
    assert 0 <= v < 256 && x == v + 256 * q;
  }

  /** A storing register keeps of every request the residues modulo 256. */
  lemma StoredByte(d: CppcRequest, before: Word, k: nat)
    requires k < 4 && Layout(Writes(CppcFields(), CppcValues(d)))
    ensures GetInt(CppcFields()[k], ApplyAll(Writes(CppcFields(), CppcValues(d)), before)) == Mod256(CppcValues(d)[k])
  {
    var ws := Writes(CppcFields(), CppcValues(d));
    var x := CppcValues(d)[k];
    FieldReadsBack(ws, before, k);
    var got := GetBitfield(ws[k].field, ApplyAll(ws, before));
    assert ws[k].field.Width() == 8 && ws[k].value == ToWord(x);
    ValueZeroExtended(got, 8);
    assert got[..8] == ToWord(x)[..8];
    BitsPrefix(x, 8, 64);
    LowByte(x);
  }

  /** What the setter's comparison asks of the word read back. */
  predicate Accepted(data: CppcRequest, got: CppcRequest) {
    got.maxPerf == data.maxPerf && got.minPerf == data.minPerf &&
    got.desiredPerf != 0 && data.desiredPerf != 0 && got.epp != 0 && data.epp != 0
  }

  lemma CppcElements(d: CppcRequest)
    ensures var fs, vs := CppcFields(), CppcValues(d);
      fs[0] == Field(7, 0) && vs[0] == d.maxPerf && fs[1] == Field(15, 8) && vs[1] == d.minPerf &&
      fs[2] == Field(23, 16) && vs[2] == d.desiredPerf && fs[3] == Field(31, 24) && vs[3] == d.epp
  {
  }

  /** On a storing register: the word becomes the residues; the setter says true exactly for limits that
      are bytes and targets that are no multiples of 256; and true means that the request reads back
      exactly when the two targets are bytes as well. */
  method CppcSet(dev: RegisterDevice, data: CppcRequest) returns (ok: bool)
    modifies dev
    ensures ok ==> Accepted(data, CppcDecode(dev.reg))
    ensures dev.stores ==> dev.reg == CppcFold(data, old(dev.reg)) && CppcDecode(dev.reg) == Residues(data)
    ensures dev.stores ==>
      (ok <==> InByte(data.maxPerf) && InByte(data.minPerf) && Mod256(data.desiredPerf) != 0 && Mod256(data.epp) != 0)
    ensures dev.stores && ok ==> (CppcDecode(dev.reg) == data <==> InByte(data.desiredPerf) && InByte(data.epp))
  {
    hide *;
    Stored(data, dev.reg);
    var read, reg := dev.Read();
    if !read { return false; }
    var word := CppcWord(data, reg);
    ok := dev.Write(word);
    if ok {
      var back;
      ok, back := dev.Read();
      ok := ok && Accepted(data, CppcDecode(back));
    }
    AcceptedIff(data);
  }

  /** The word the setter writes. */
  method CppcWord(data: CppcRequest, reg: Word) returns (word: Word)
    ensures word == CppcFold(data, reg)
  {
    word := CppcUpdate(data, reg);
    PartialIsFold(CppcFields(), CppcValues(data), reg, 4);
    assert Writes(CppcFields(), CppcValues(data))[..4] == Writes(CppcFields(), CppcValues(data));
  }

  function CppcFold(data: CppcRequest, reg: Word): Word {
    ApplyAll(Writes(CppcFields(), CppcValues(data)), reg)
  }

  function Residues(d: CppcRequest): CppcRequest {
    CppcRequest(Mod256(d.maxPerf), Mod256(d.minPerf), Mod256(d.desiredPerf), Mod256(d.epp))
  }

  lemma Stored(data: CppcRequest, before: Word)
    ensures CppcDecode(CppcFold(data, before)) == Residues(data)
  {
    AscendingIsLayout(CppcFields(), CppcValues(data));
    CppcElements(data);
    hide ApplyAll, GetInt, Layout, Writes;
    StoredByte(data, before, 0);
    StoredByte(data, before, 1);
    StoredByte(data, before, 2);
    StoredByte(data, before, 3);
  }

  lemma AcceptedIff(d: CppcRequest)
    ensures Accepted(d, Residues(d)) <==>
            InByte(d.maxPerf) && InByte(d.minPerf) && Mod256(d.desiredPerf) != 0 && Mod256(d.epp) != 0
    ensures Accepted(d, Residues(d)) ==> (Residues(d) == d <==> InByte(d.desiredPerf) && InByte(d.epp))
  {
  }

  /** A desired target of 257 is accepted, and reads back as 1. */
  lemma TargetWitness(before: Word)
    ensures var d := CppcRequest(255, 0, 257, 1);
      Accepted(d, CppcDecode(CppcFold(d, before))) && CppcDecode(CppcFold(d, before)).desiredPerf == 1
  {
    hide CppcFold, CppcDecode;
    Stored(CppcRequest(255, 0, 257, 1), before);
  }

  /** The setter's assignments, in its order. */
  method CppcUpdate(data: CppcRequest, reg: Word) returns (updated: Word)
    ensures Done(CppcFields(), CppcValues(data), reg, 4, updated)
  {
    hide *;
    CppcElements(data);
    ghost var fs, vs, before := CppcFields(), CppcValues(data), reg;
    DoneNothing(fs, vs, reg);
    updated := Assign(Field(7, 0), data.maxPerf, reg, fs, vs, before, 0);
    updated := Assign(Field(15, 8), data.minPerf, updated, fs, vs, before, 1);
    updated := Assign(Field(23, 16), data.desiredPerf, updated, fs, vs, before, 2);
    updated := Assign(Field(31, 24), data.epp, updated, fs, vs, before, 3);
  }
}
