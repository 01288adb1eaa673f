/** The settings cache of RyzenAdj (src/Device/CPU/AMD/SMU/RyzenAdj.cpp): options without a read command
    are shown from the values last asked for. */
module SmuCache {

  datatype Opt =
    | STAPM_LIMIT | FAST_LIMIT | SLOW_LIMIT | APU_SLOW_LIMIT | TCTL_TEMP | APU_SKIN_TEMP_LIMIT | DGPU_SKIN_TEMP_LIMIT
    | VRM_CURRENT | VRMSOC_CURRENT | VRMMAX_CURRENT | VRMSOCMAX_CURRENT | GFX_CLK | MIN_GFXCLK_FREQ | MAX_GFXCLK_FREQ
    | CCLK_SETPOINT | CCLK_BUSY | COPER | COALL

  datatype Support = OK | NOT_SUPPORTED | OTHER_ERROR

  /** The variant held by a cache entry; a typed access to another alternative throws. */
  datatype Entry = Int(i: int) | UInt(u: nat) | List(xs: seq<int>)

  /** A value of a packet: read values are valid, a client may mark one as not to be applied. */
  datatype RWData = RWData(value: int, valid: bool, ignored: bool)

  predicate Requested(d: RWData) {
    d.valid && !d.ignored
  }

  /** What the hardware answers to a read. */
  datatype Reading = Value(v: int) | NotANumber | Failed(e: Support)

  /** The AMD part of a client packet; the power profile is asked for under CCLK_SETPOINT. */
  datatype AMDData = AMDData(package: Opt -> RWData, cores: seq<RWData>)

  datatype Smu = Smu(canRead: Opt -> Support, canWrite: Opt -> Support, windows: bool, coreCount: nat)

  // ---------- options ----------

  /** The options applied one after the other, those past the eleventh on Windows only. */
  function PackageOpt(i: nat): Opt {
    if i == 0 then APU_SLOW_LIMIT else if i == 1 then STAPM_LIMIT else if i == 2 then SLOW_LIMIT
    else if i == 3 then FAST_LIMIT else if i == 4 then TCTL_TEMP else if i == 5 then APU_SKIN_TEMP_LIMIT
    else if i == 6 then DGPU_SKIN_TEMP_LIMIT else if i == 7 then VRM_CURRENT else if i == 8 then VRMSOC_CURRENT
    else if i == 9 then VRMMAX_CURRENT else if i == 10 then VRMSOCMAX_CURRENT else if i == 11 then GFX_CLK
    else if i == 12 then MIN_GFXCLK_FREQ else MAX_GFXCLK_FREQ
  }

  /** The position of an option in that order; 14 for the others. */
  function Rank(o: Opt): nat {
    match o
    case APU_SLOW_LIMIT => 0 case STAPM_LIMIT => 1 case SLOW_LIMIT => 2 case FAST_LIMIT => 3 case TCTL_TEMP => 4
    case APU_SKIN_TEMP_LIMIT => 5 case DGPU_SKIN_TEMP_LIMIT => 6 case VRM_CURRENT => 7 case VRMSOC_CURRENT => 8
    case VRMMAX_CURRENT => 9 case VRMSOCMAX_CURRENT => 10 case GFX_CLK => 11 case MIN_GFXCLK_FREQ => 12
    case MAX_GFXCLK_FREQ => 13 case _ => 14
  }

  lemma RankOfPackageOpt(i: nat)
    requires i < 14
    ensures Rank(PackageOpt(i)) == i
    ensures !PackageOpt(i).COPER? && !PackageOpt(i).CCLK_SETPOINT? && !PackageOpt(i).COALL?
    ensures forall o: Opt :: Rank(o) == i <==> o == PackageOpt(i)
  {
  }

  function PackageCount(s: Smu): nat {
    if s.windows then 14 else 11
  }

  /** Whether the option is offered; the slow APU limit goes by the support of the slow limit. */
  predicate Writable(s: Smu, o: Opt) {
    match o
    case APU_SLOW_LIMIT => s.canWrite(SLOW_LIMIT).OK?
    case CCLK_SETPOINT => s.canWrite(CCLK_SETPOINT).OK? && s.canWrite(CCLK_BUSY).OK?
    case COALL => !s.canWrite(COPER).OK? && s.canWrite(COALL).OK?
    case _ => s.canWrite(o).OK?
  }

  /** The package settings of this system. */
  predicate Offered(s: Smu, o: Opt) {
    (Rank(o) < PackageCount(s) || o.CCLK_SETPOINT? || o.COALL?) && Writable(s, o)
  }

  /** Options with a cache entry: those that cannot be read, the power profile and the curve optimizer. */
  predicate CachedFrom(s: Smu, o: Opt) {
    match o
    case CCLK_SETPOINT => Writable(s, CCLK_SETPOINT)
    case COPER => Writable(s, COPER)
    case COALL => Writable(s, COALL)
    case TCTL_TEMP => s.canRead(o).NOT_SUPPORTED?
    case _ => 5 <= Rank(o) < PackageCount(s) && s.canRead(o).NOT_SUPPORTED?
  }

  function Initial(s: Smu, o: Opt): Entry {
    match o
    case COPER => List(seq(s.coreCount, i => 0))
    case COALL => Int(0)
    case _ => Int(-1)
  }

  // ---------- the cache ----------

  type Cache = map<Opt, Entry>

  /** Each entry has the type it was built with, and the per-core list its length. */
  ghost predicate TypesKept(s: Smu, cache: Cache) {
    && (forall o :: o in cache <==> CachedFrom(s, o))
    && (forall o :: o in cache && !o.COPER? ==> cache[o].Int?)
    && (COPER in cache ==> cache[COPER].List? && |cache[COPER].xs| == s.coreCount)
  }

  /** The last requested value among these packets, or the initial one. */
  function LastRequest(packets: seq<AMDData>, o: Opt, initial: int): int {
    if packets == [] then initial
    else
      var d := packets[|packets| - 1].package(o);
      if Requested(d) then d.value else LastRequest(packets[..|packets| - 1], o, initial)
  }

  function LastCoreRequest(packets: seq<AMDData>, cpu: nat): int
    requires forall i :: 0 <= i < |packets| ==> cpu < |packets[i].cores|
  {
    if packets == [] then 0
    else
      var d := packets[|packets| - 1].cores[cpu];
      if Requested(d) then d.value else LastCoreRequest(packets[..|packets| - 1], cpu)
  }

  function InitialValue(o: Opt): int {
    if o.COALL? then 0 else -1
  }

  predicate Sized(s: Smu, packets: seq<AMDData>) {
    forall i :: 0 <= i < |packets| ==> |packets[i].cores| >= s.coreCount
  }

  /** The cache shows, for every offered option, the last request since start. */
  ghost predicate Shows(s: Smu, cache: Cache, packets: seq<AMDData>)
    requires TypesKept(s, cache) && Sized(s, packets)
  {
    && (forall o :: o in cache && !o.COPER? && Offered(s, o) ==>
          cache[o] == Int(LastRequest(packets, o, InitialValue(o))))
    && (forall o :: o in cache && !o.COPER? && !Offered(s, o) ==> cache[o] == Int(InitialValue(o)))
    && (COPER in cache ==> forall i :: 0 <= i < s.coreCount ==> cache[COPER].xs[i] == LastCoreRequest(packets, i))
  }

  function PackageEntry(s: Smu, before: Cache, p: AMDData, o: Opt): Entry
    requires o in before
  {
    if Offered(s, o) && Requested(p.package(o)) then Int(p.package(o).value) else before[o]
  }

  function CoreEntry(before: int, d: RWData): int {
    if Requested(d) then d.value else before
  }

  /** One packet's effect on the cache. */
  ghost predicate Applied(s: Smu, before: Cache, p: AMDData, after: Cache)
    requires TypesKept(s, before) && TypesKept(s, after) && |p.cores| >= s.coreCount
  {
    && (forall o :: o in before && !o.COPER? ==> after[o] == PackageEntry(s, before, p, o))
    && (COPER in before ==>
          forall i :: 0 <= i < s.coreCount ==> after[COPER].xs[i] == CoreEntry(before[COPER].xs[i], p.cores[i]))
  }

  lemma ShowsNext(s: Smu, before: Cache, packets: seq<AMDData>, p: AMDData, after: Cache)
    requires TypesKept(s, before) && TypesKept(s, after) && Sized(s, packets) && |p.cores| >= s.coreCount
    requires Shows(s, before, packets) && Applied(s, before, p, after)
    ensures Sized(s, packets + [p]) && Shows(s, after, packets + [p])
  {
    hide Offered, CachedFrom;
    var all := packets + [p];
    assert all[..|all| - 1] == packets && all[|all| - 1] == p;
    forall i | COPER in after && 0 <= i < s.coreCount ensures after[COPER].xs[i] == LastCoreRequest(all, i) {
    }
  }

  /** What may be applied or shown without a read command has its entry. */
  lemma EntriesThere(s: Smu, cache: Cache)
    requires TypesKept(s, cache)
    ensures Writable(s, CCLK_SETPOINT) ==> CCLK_SETPOINT in cache && cache[CCLK_SETPOINT].Int?
    ensures Writable(s, COALL) ==> COALL in cache
    ensures Writable(s, COPER) ==> COPER in cache && cache[COPER].List? && |cache[COPER].xs| == s.coreCount
  {
  }

  /** How an option without a read command is shown after these packets. */
  function ShownUnread(s: Smu, packets: seq<AMDData>, o: Opt): RWData {
    if CachedFrom(s, o) then RWData(LastRequest(packets, o, InitialValue(o)), true, false) else RWData(0, false, false)
  }

  /** Of the offered options without a read command exactly the four power limits have no entry. */
  lemma CachedIff(s: Smu, o: Opt)
    requires Offered(s, o) && s.canRead(o).NOT_SUPPORTED?
    ensures CachedFrom(s, o) <==> !(o.STAPM_LIMIT? || o.FAST_LIMIT? || o.SLOW_LIMIT? || o.APU_SLOW_LIMIT?)
  {
  }

  /** So a limit of 25000 mW that was validly asked for is shown as invalid when it cannot be read. */
  lemma UnreadLimitIsLost()
    ensures var s := Smu((o: Opt) => NOT_SUPPORTED, (o: Opt) => OK, false, 0);
      var p := AMDData((o: Opt) => RWData(25000, true, false), []);
      && Offered(s, STAPM_LIMIT) && LastRequest([p], STAPM_LIMIT, InitialValue(STAPM_LIMIT)) == 25000
      && ShownUnread(s, [p], STAPM_LIMIT) == RWData(0, false, false)
  {
  }

  // ---------- encodings for the hardware ----------

  function U32(v: int): nat {
    v % 0x1_0000_0000
  }

  const CURVE_OPTIMIZER_BASE: nat := 0x10_0000

  /** Zero is the base, a negative offset counts down from it. */
  function CurveAll(offt: int): nat {
    if offt == 0 then CURVE_OPTIMIZER_BASE
    else if offt < 0 then U32(CURVE_OPTIMIZER_BASE - U32(-offt))
    else U32(offt)
  }

  /** `cpu << 20 | offt & 0xffff` */
  function CurveCore(cpu: nat, offt: int): nat {
    U32(cpu * 0x10_0000) + offt % 0x1_0000
  }

  /** Offsets below half the base either way stay distinguishable. */
  lemma CurveAllInjective(a: int, b: int)
    requires -0x8_0000 < a < 0x8_0000 && -0x8_0000 < b < 0x8_0000 && CurveAll(a) == CurveAll(b)
    ensures a == b
  {
    CurveAllValue(a);
    CurveAllValue(b);
    hide *;
  }

  lemma CurveAllValue(offt: int)
    requires -0x8_0000 < offt < 0x8_0000
    ensures CurveAll(offt) == if offt <= 0 then 0x10_0000 + offt else offt
  {
    if offt < 0 {
      assert U32(-offt) == -offt;
      assert U32(0x10_0000 + offt) == 0x10_0000 + offt;
    } else {
      assert U32(offt) == offt;
    }
  }

  lemma CurveAllValueIf(offt: int)
    ensures -0x8_0000 < offt < 0x8_0000 ==> CurveAll(offt) == if offt <= 0 then 0x10_0000 + offt else offt
  {
    if -0x8_0000 < offt < 0x8_0000 { CurveAllValue(offt); }
  }

  /** The word names its core and, for 16-bit offsets, its offset. */
  lemma CurveCoreDecodes(cpu: nat, offt: int)
    requires cpu < 4096
    ensures CurveCore(cpu, offt) / 0x10_0000 == cpu
    ensures -0x8000 <= offt < 0x8000 ==>
      offt == (var low := CurveCore(cpu, offt) % 0x1_0000; if low < 0x8000 then low else low - 0x1_0000)
  {
    assert U32(cpu * 0x10_0000) == cpu * 0x10_0000;
    assert cpu * 0x10_0000 == (cpu * 16) * 0x1_0000;
  }

  /** The command a request becomes: the power profile has one for zero and one for everything else. */
  function CommandFor(o: Opt, d: RWData): (Opt, nat) {
    match o
    case CCLK_SETPOINT => (if d.value == 0 then CCLK_SETPOINT else CCLK_BUSY, U32(d.value))
    case COALL => (COALL, CurveAll(d.value))
    case _ => (o, U32(d.value))
  }

  /** What one package option of a packet sends. */
  function SentFor(s: Smu, p: AMDData, o: Opt): seq<(Opt, nat)> {
    if Writable(s, o) && Requested(p.package(o)) then [CommandFor(o, p.package(o))] else []
  }

  /** What the first n options of the order send. */
  function SentBelow(s: Smu, p: AMDData, n: nat): seq<(Opt, nat)> {
    if n == 0 then [] else SentBelow(s, p, n - 1) + SentFor(s, p, PackageOpt(n - 1))
  }

  /** What the first n cores send. */
  function SentByCores(s: Smu, p: AMDData, n: nat): seq<(Opt, nat)>
    requires n <= |p.cores|
  {
    if n == 0 || !Writable(s, COPER) then []
    else
      SentByCores(s, p, n - 1) +
      if Requested(p.cores[n - 1]) then [(COPER, CurveCore(n - 1, p.cores[n - 1].value))] else []
  }

  /** All commands of one packet, in order. */
  function SentByPacket(s: Smu, p: AMDData): seq<(Opt, nat)>
    requires |p.cores| >= s.coreCount
  {
    SentBelow(s, p, PackageCount(s)) + SentFor(s, p, CCLK_SETPOINT) + SentFor(s, p, COALL)
    + SentByCores(s, p, s.coreCount)
  }

  /** The order in which a packet's package settings are sent, and what decides whether they are offered. */
  lemma CommandOrder(s: Smu, p: AMDData)
    requires |p.cores| >= s.coreCount
    ensures SentByPacket(s, p) ==
      SentFor(s, p, APU_SLOW_LIMIT) + SentFor(s, p, STAPM_LIMIT) + SentFor(s, p, SLOW_LIMIT) + SentFor(s, p, FAST_LIMIT)
      + SentFor(s, p, TCTL_TEMP) + SentFor(s, p, APU_SKIN_TEMP_LIMIT) + SentFor(s, p, DGPU_SKIN_TEMP_LIMIT)
      + SentFor(s, p, VRM_CURRENT) + SentFor(s, p, VRMSOC_CURRENT) + SentFor(s, p, VRMMAX_CURRENT)
      + SentFor(s, p, VRMSOCMAX_CURRENT)
      + (if s.windows
         then SentFor(s, p, GFX_CLK) + SentFor(s, p, MIN_GFXCLK_FREQ) + SentFor(s, p, MAX_GFXCLK_FREQ) else [])
      + SentFor(s, p, CCLK_SETPOINT) + SentFor(s, p, COALL) + SentByCores(s, p, s.coreCount)
  {
    hide SentFor, SentByCores;
    FirstFour(s, p);
    FirstEleven(s, p);
    hide PackageOpt;
    if s.windows { LastThree(s, p); }
  }

  lemma FirstFour(s: Smu, p: AMDData)
    ensures SentBelow(s, p, 4) ==
      SentFor(s, p, APU_SLOW_LIMIT) + SentFor(s, p, STAPM_LIMIT) + SentFor(s, p, SLOW_LIMIT) + SentFor(s, p, FAST_LIMIT)
  {
    hide SentFor;
    assert SentBelow(s, p, 0) == [] && SentBelow(s, p, 1) == SentFor(s, p, APU_SLOW_LIMIT);
    assert SentBelow(s, p, 2) == SentBelow(s, p, 1) + SentFor(s, p, STAPM_LIMIT);
    assert SentBelow(s, p, 3) == SentBelow(s, p, 2) + SentFor(s, p, SLOW_LIMIT);
  }

  lemma FirstEleven(s: Smu, p: AMDData)
    ensures SentBelow(s, p, 11) ==
      SentBelow(s, p, 4) + SentFor(s, p, TCTL_TEMP) + SentFor(s, p, APU_SKIN_TEMP_LIMIT)
      + SentFor(s, p, DGPU_SKIN_TEMP_LIMIT) + SentFor(s, p, VRM_CURRENT) + SentFor(s, p, VRMSOC_CURRENT)
      + SentFor(s, p, VRMMAX_CURRENT) + SentFor(s, p, VRMSOCMAX_CURRENT)
  {
    hide SentFor;
    assert SentBelow(s, p, 5) == SentBelow(s, p, 4) + SentFor(s, p, TCTL_TEMP);
    assert SentBelow(s, p, 6) == SentBelow(s, p, 5) + SentFor(s, p, APU_SKIN_TEMP_LIMIT);
    assert SentBelow(s, p, 7) == SentBelow(s, p, 6) + SentFor(s, p, DGPU_SKIN_TEMP_LIMIT);
    assert SentBelow(s, p, 8) == SentBelow(s, p, 7) + SentFor(s, p, VRM_CURRENT);
    assert SentBelow(s, p, 9) == SentBelow(s, p, 8) + SentFor(s, p, VRMSOC_CURRENT);
    assert SentBelow(s, p, 10) == SentBelow(s, p, 9) + SentFor(s, p, VRMMAX_CURRENT);
  }

  lemma LastThree(s: Smu, p: AMDData)
    ensures SentBelow(s, p, 14) ==
      SentBelow(s, p, 11) + (SentFor(s, p, GFX_CLK) + SentFor(s, p, MIN_GFXCLK_FREQ) + SentFor(s, p, MAX_GFXCLK_FREQ))
  {
    hide SentFor;
    assert SentBelow(s, p, 12) == SentBelow(s, p, 11) + SentFor(s, p, GFX_CLK);
    assert SentBelow(s, p, 13) == SentBelow(s, p, 12) + SentFor(s, p, MIN_GFXCLK_FREQ);
  }

  /** Which package settings are offered. */
  lemma OfferedIff(s: Smu, o: Opt)
    ensures Offered(s, o) <==>
      match o
      case APU_SLOW_LIMIT => s.canWrite(SLOW_LIMIT) == OK
      case GFX_CLK => s.windows && s.canWrite(GFX_CLK) == OK
      case MIN_GFXCLK_FREQ => s.windows && s.canWrite(MIN_GFXCLK_FREQ) == OK
      case MAX_GFXCLK_FREQ => s.windows && s.canWrite(MAX_GFXCLK_FREQ) == OK
      case CCLK_SETPOINT => s.canWrite(CCLK_SETPOINT) == OK && s.canWrite(CCLK_BUSY) == OK
      case COALL => s.canWrite(COALL) == OK && s.canWrite(COPER) != OK
      case CCLK_BUSY => false
      case COPER => false
      case _ => s.canWrite(o) == OK
  {
  }

  // ---------- the device ----------

  class RyzenAdj {
    const smu: Smu
    /** Whether the hardware takes a value. */
    const accepts: (Opt, nat) -> bool
    var tableCache: Cache
    /** Commands sent, oldest first. */
    var sent: seq<(Opt, nat)>

    ghost predicate Valid()
      reads this`tableCache
    {
      TypesKept(smu, tableCache)
    }

    constructor (smu: Smu, accepts: (Opt, nat) -> bool)
      ensures this.smu == smu && this.accepts == accepts
      ensures Valid() && Shows(smu, tableCache, []) && sent == []
      ensures forall o :: o in tableCache && !o.COPER? ==> tableCache[o] == Int(if o == COALL then 0 else -1)
      ensures COPER in tableCache ==> tableCache[COPER] == List(seq(smu.coreCount, i => 0))
    {
      this.smu, this.accepts, sent := smu, accepts, [];
      tableCache := map o: Opt | CachedFrom(smu, o) :: Initial(smu, o);
    }

    /** The hardware takes the command. */
    predicate Taken(command: (Opt, nat)) {
      accepts(command.0, command.1)
    }

    method SetRaw(opt: Opt, value: nat) returns (ok: bool)
      modifies this`sent
      ensures ok == accepts(opt, value) && sent == old(sent) + [(opt, value)]
    {
      sent := sent + [(opt, value)];
      ok := accepts(opt, value);
    }

    /** The cache takes the request even when the hardware refuses it. */
    method Set(opt: Opt, data: RWData) returns (ok: bool)
      requires Valid() && !opt.COPER?
      modifies this`tableCache, this`sent
      ensures Valid() && ok == (Requested(data) ==> accepts(opt, U32(data.value)))
      ensures tableCache == if Requested(data) && opt in old(tableCache)
                            then old(tableCache)[opt := Int(data.value)] else old(tableCache)
      ensures sent == old(sent) + if Requested(data) then [(opt, U32(data.value))] else []
      ensures data.valid && !data.ignored ==> sent == old(sent) + [(opt, data.value % 0x1_0000_0000)]
    {
      if !data.valid || data.ignored { return true; }
      if opt in tableCache { tableCache := tableCache[opt := Int(data.value)]; }
      ok := SetRaw(opt, U32(data.value));
    }

    /** The overload for unsigned values stores the other alternative. */
    method SetUnsigned(opt: Opt, data: RWData) returns (ok: bool)
      requires Valid() && data.value >= 0
      modifies this`tableCache, this`sent
      ensures ok == (Requested(data) ==> accepts(opt, U32(data.value)))
      ensures Valid() <==> !(Requested(data) && opt in old(tableCache))
      ensures !Valid() ==> opt in tableCache && tableCache[opt] == UInt(data.value)
    {
      if !data.valid || data.ignored { return true; }
      if opt in tableCache { tableCache := tableCache[opt := UInt(data.value)]; }
      ok := SetRaw(opt, U32(data.value));
    }

    method SetPowerProfile(data: RWData) returns (ok: bool)
      requires Valid() && CCLK_SETPOINT in tableCache
      modifies this`tableCache, this`sent
      ensures Valid()
      ensures ok == (Requested(data) ==> Taken(CommandFor(CCLK_SETPOINT, data)))
      ensures tableCache == if Requested(data)
                            then old(tableCache)[CCLK_SETPOINT := Int(data.value)] else old(tableCache)
      ensures sent == old(sent) + if Requested(data) then [CommandFor(CCLK_SETPOINT, data)] else []
      ensures data.valid && !data.ignored ==>
        sent == old(sent) + [(if data.value == 0 then CCLK_SETPOINT else CCLK_BUSY, data.value % 0x1_0000_0000)]
    {
      if !data.valid || data.ignored { return true; }
      var opt := if data.value == 0 then CCLK_SETPOINT else CCLK_BUSY;
      tableCache := tableCache[CCLK_SETPOINT := Int(data.value)];
      ok := SetRaw(opt, U32(data.value));
    }

    method SetCurveOptimizerAll(data: RWData) returns (ok: bool)
      requires Valid() && COALL in tableCache
      modifies this`tableCache, this`sent
      ensures Valid() && ok == (Requested(data) ==> Taken(CommandFor(COALL, data)))
      ensures tableCache == if Requested(data) then old(tableCache)[COALL := Int(data.value)] else old(tableCache)
      ensures sent == old(sent) + if Requested(data) then [CommandFor(COALL, data)] else []
      ensures data.valid && !data.ignored && -0x8_0000 < data.value < 0x8_0000 ==>
        sent == old(sent) + [(COALL, if data.value <= 0 then 0x10_0000 + data.value else data.value)]
    {
      CurveAllValueIf(data.value);
      if !data.valid || data.ignored { return true; }
      var offt := data.value;
      var co := U32(offt);
      if offt == 0 {
        co := CURVE_OPTIMIZER_BASE;
      } else if offt < 0 {
        co := U32(CURVE_OPTIMIZER_BASE - U32(-1 * offt));
      }
      tableCache := tableCache[COALL := Int(offt)];
      ok := SetRaw(COALL, co);
    }

    method SetCurveOptimizerCore(cpu: nat, data: RWData) returns (ok: bool)
      requires Valid() && COPER in tableCache && cpu < smu.coreCount
      modifies this`tableCache, this`sent
      ensures Valid() && ok == (Requested(data) ==> accepts(COPER, CurveCore(cpu, data.value)))
      ensures tableCache ==
              if Requested(data) then old(tableCache)[COPER := List(old(tableCache)[COPER].xs[cpu := data.value])]
              else old(tableCache)
      ensures sent == old(sent) + if Requested(data) then [(COPER, CurveCore(cpu, data.value))] else []
    {
      if !data.valid || data.ignored { return true; }
      var coList := tableCache[COPER].xs;
      tableCache := tableCache[COPER := List(coList[cpu := data.value])];
      ok := SetRaw(COPER, CurveCore(cpu, data.value));
    }

    // ---------- applying ----------

    /** The package options with rank below n have been applied. */
    ghost predicate AppliedBelow(before: Cache, p: AMDData, n: nat)
      reads this`tableCache
    {
      && tableCache.Keys == before.Keys
      && forall o :: o in before ==>
           tableCache[o] == if Rank(o) < n && Writable(smu, o) && Requested(p.package(o))
                            then Int(p.package(o).value) else before[o]
    }

    /** The option's request fails at the hardware. */
    predicate Fails(p: AMDData, o: Opt) {
      Offered(smu, o) && Requested(p.package(o)) && !Taken(CommandFor(o, p.package(o)))
    }

    /** The errors of the options with rank below n. */
    ghost predicate FailedBelow(errors: set<Opt>, p: AMDData, n: nat) {
      forall o :: o in errors <==>
        Rank(o) < n && Writable(smu, o) && Requested(p.package(o)) && !Taken(CommandFor(o, p.package(o)))
    }

    method ApplyOption(p: AMDData, i: nat, failed: set<Opt>, ghost before: Cache) returns (errors: set<Opt>)
      requires Valid() && i < 14 && AppliedBelow(before, p, i) && FailedBelow(failed, p, i)
      modifies this`tableCache, this`sent
      ensures Valid() && AppliedBelow(before, p, i + 1) && FailedBelow(errors, p, i + 1)
      ensures sent == old(sent) + SentFor(smu, p, PackageOpt(i))
    {
      hide Rank, PackageOpt, Writable, TypesKept, U32, CurveAll;
      errors := failed;
      var o := PackageOpt(i);
      RankOfPackageOpt(i);
      if Writable(smu, o) {
        var ok := Set(o, p.package(o));
        if !ok { errors := errors + {o}; }
      }
    }

    method ApplyOptions(p: AMDData) returns (errors: set<Opt>)
      requires Valid()
      modifies this`tableCache, this`sent
      ensures Valid() && AppliedBelow(old(tableCache), p, PackageCount(smu))
      ensures FailedBelow(errors, p, PackageCount(smu))
      ensures sent == old(sent) + SentBelow(smu, p, PackageCount(smu))
    {
      hide Writable, TypesKept, CommandFor, PackageOpt, SentFor;
      errors := {};
      for i := 0 to PackageCount(smu)
        invariant Valid() && AppliedBelow(old(tableCache), p, i) && FailedBelow(errors, p, i)
        invariant sent == old(sent) + SentBelow(smu, p, i)
      {
        errors := ApplyOption(p, i, errors, old(tableCache));
      }
    }

    lemma OfferedExtras()
      ensures Offered(smu, CCLK_SETPOINT) <==> Writable(smu, CCLK_SETPOINT)
      ensures Offered(smu, COALL) <==> Writable(smu, COALL)
    {
    }

    method ApplyProfileAndCurve(p: AMDData, failed: set<Opt>) returns (errors: set<Opt>)
      requires Valid()
      modifies this`tableCache, this`sent
      ensures Valid() && tableCache.Keys == old(tableCache).Keys
      ensures forall o :: o in old(tableCache) ==> (tableCache[o] ==
        if (o.CCLK_SETPOINT? || o.COALL?) && Writable(smu, o) && Requested(p.package(o))
        then Int(p.package(o).value) else old(tableCache)[o])
      ensures forall o :: o in errors <==> o in failed || ((o.CCLK_SETPOINT? || o.COALL?) && Fails(p, o))
      ensures sent == old(sent) + SentFor(smu, p, CCLK_SETPOINT) + SentFor(smu, p, COALL)
    {
      hide TypesKept, Writable, CommandFor, Offered, Taken;
      EntriesThere(smu, tableCache);
      OfferedExtras();
      errors := failed;
      if Writable(smu, CCLK_SETPOINT) {
        var ok := SetPowerProfile(p.package(CCLK_SETPOINT));
        if !ok { errors := errors + {CCLK_SETPOINT}; }
      }
      if Writable(smu, COALL) {
        var ok := SetCurveOptimizerAll(p.package(COALL));
        if !ok { errors := errors + {COALL}; }
      }
    }

    method ApplyPackageSettings(p: AMDData) returns (errors: set<Opt>)
      requires Valid()
      modifies this`tableCache, this`sent
      ensures Valid() && tableCache.Keys == old(tableCache).Keys
      ensures forall o :: o in old(tableCache) ==> tableCache[o] == PackageEntry(smu, old(tableCache), p, o)
      ensures forall o :: o in errors <==> Fails(p, o)
      ensures sent == old(sent) + SentBelow(smu, p, PackageCount(smu))
                      + SentFor(smu, p, CCLK_SETPOINT) + SentFor(smu, p, COALL)
    {
      hide CommandFor, TypesKept, Writable, SentFor, SentBelow, PackageOpt, Taken;
      errors := ApplyOptions(p);
      errors := ApplyProfileAndCurve(p, errors);
    }

    /** The hardware takes the requests of the first n cores, if they are offered. */
    predicate CoresTaken(p: AMDData, n: nat)
      requires n <= |p.cores|
    {
      Writable(smu, COPER) ==>
        forall k :: 0 <= k < n && Requested(p.cores[k]) ==> accepts(COPER, CurveCore(k, p.cores[k].value))
    }

    /** Core by core; each write changes only its own element of the list. */
    method ApplyCores(p: AMDData) returns (ok: bool)
      requires Valid() && |p.cores| >= smu.coreCount
      modifies this`tableCache, this`sent
      ensures Valid() && tableCache.Keys == old(tableCache).Keys
      ensures forall o :: o in tableCache && !o.COPER? ==> tableCache[o] == old(tableCache)[o]
      ensures COPER in tableCache ==>
        forall k :: 0 <= k < smu.coreCount ==>
          tableCache[COPER].xs[k] == CoreEntry(old(tableCache)[COPER].xs[k], p.cores[k])
      ensures ok <==> CoresTaken(p, smu.coreCount)
      ensures sent == old(sent) + SentByCores(smu, p, smu.coreCount)
    {
      hide CurveCore;
      ok := true;
      for cpu := 0 to smu.coreCount
        invariant Valid() && tableCache.Keys == old(tableCache).Keys
        invariant forall o :: o in tableCache && !o.COPER? ==> tableCache[o] == old(tableCache)[o]
        invariant COPER in tableCache ==>
          forall k :: 0 <= k < cpu ==> tableCache[COPER].xs[k] == CoreEntry(old(tableCache)[COPER].xs[k], p.cores[k])
        invariant COPER in tableCache ==> forall k :: cpu <= k < smu.coreCount ==>
                    tableCache[COPER].xs[k] == old(tableCache)[COPER].xs[k]
        invariant ok <==> CoresTaken(p, cpu)
        invariant sent == old(sent) + SentByCores(smu, p, cpu)
      {
        if Writable(smu, COPER) {
          var set1 := SetCurveOptimizerCore(cpu, p.cores[cpu]);
          if !set1 { ok := false; }
        }
      }
    }

    method ApplySettings(p: AMDData) returns (errors: set<Opt>)
      requires Valid() && |p.cores| >= smu.coreCount
      modifies this`tableCache, this`sent
      ensures Valid() && Applied(smu, old(tableCache), p, tableCache)
      ensures forall o: Opt :: o in errors <==> if o.COPER? then !CoresTaken(p, smu.coreCount) else Fails(p, o)
      ensures sent == old(sent) + SentByPacket(smu, p)
    {
      hide SentBelow, SentFor, SentByCores, CommandFor;
      errors := ApplyPackageSettings(p);
      var ok := ApplyCores(p);
      if !ok { errors := errors + {COPER}; }
    }

    // ---------- reading ----------

    /** What a packet shows for an option. */
    function Shown(w: Opt -> Reading, o: Opt): RWData
      requires o in tableCache ==> tableCache[o].Int?
      reads this`tableCache
    {
      match w(o)
      case Value(v) => RWData(v, true, false)
      case NotANumber => RWData(0, false, false)
      case Failed(e) =>
        if e.NOT_SUPPORTED? && o in tableCache then RWData(tableCache[o].i, true, false) else RWData(0, false, false)
    }

    method Get(w: Opt -> Reading, o: Opt) returns (d: RWData)
      requires Valid() && !o.COPER?
      ensures d == Shown(w, o)
    {
      match w(o) {
        case Failed(e) =>
          if e.NOT_SUPPORTED? && o in tableCache {
            var val := tableCache[o].i;
            return RWData(val, true, false);
          }
          return RWData(0, false, false);
        case Value(v) => return RWData(v, true, false);
        case NotANumber => return RWData(0, false, false);
      }
    }

    /** Fills the offered package settings and the cores; no typed access of the cache can fail. */
    method FillPacketData(w: Opt -> Reading) returns (package: map<Opt, RWData>, cores: seq<RWData>)
      requires Valid()
      ensures forall o :: o in package <==> Offered(smu, o)
      ensures forall o :: o in package && !o.CCLK_SETPOINT? ==> !o.COPER? && package[o] == Shown(w, o)
      ensures forall o :: o in package && !o.CCLK_SETPOINT? ==>
        package[o] == match w(o)
          case Value(v) => RWData(v, true, false)
          case NotANumber => RWData(0, false, false)
          case Failed(e) => if e == NOT_SUPPORTED && o in tableCache then RWData(tableCache[o].i, true, false)
                            else RWData(0, false, false)
      ensures CCLK_SETPOINT in package ==>
        (CCLK_SETPOINT in tableCache && package[CCLK_SETPOINT] == RWData(tableCache[CCLK_SETPOINT].i, true, false))
      ensures Writable(smu, COPER) ==> COPER in tableCache && |cores| == smu.coreCount
      ensures forall k :: 0 <= k < |cores| && COPER in tableCache ==>
        cores[k] == RWData(tableCache[COPER].xs[k], true, false)
      ensures !Writable(smu, COPER) ==> cores == []
    {
      EntriesThere(smu, tableCache);
      hide Writable, PackageOpt;
      package := map[];
      for i := 0 to PackageCount(smu)
        invariant forall o :: o in package <==> Rank(o) < i && Writable(smu, o)
        invariant forall o :: o in package ==> !o.COPER? && package[o] == Shown(w, o)
      {
        RankOfPackageOpt(i);
        var o := PackageOpt(i);
        if Writable(smu, o) {
          var d := Get(w, o);
          package := package[o := d];
        }
      }
      if Writable(smu, CCLK_SETPOINT) {
        package := package[CCLK_SETPOINT := RWData(tableCache[CCLK_SETPOINT].i, true, false)];
      }
      if Writable(smu, COALL) {
        var d := Get(w, COALL);
        package := package[COALL := d];
      }
      cores := [];
      if Writable(smu, COPER) {
        for cpu := 0 to smu.coreCount
          invariant |cores| == cpu && forall k :: 0 <= k < cpu ==>
            cores[k] == RWData(tableCache[COPER].xs[k], true, false)
        {
          cores := cores + [RWData(tableCache[COPER].xs[cpu], true, false)];
        }
      }
    }

    /** Any run of apply passes after start, then a fill: an offered option the hardware cannot read is shown
        as valid exactly when it has a cache entry, and then with the last value asked for, whether or
        not the hardware took it; so is the curve optimizer of every core. */
    method ApplyAllThenFill(packets: seq<AMDData>, w: Opt -> Reading)
      returns (package: map<Opt, RWData>, cores: seq<RWData>)
      requires Valid() && Shows(smu, tableCache, []) && Sized(smu, packets)
      modifies this`tableCache, this`sent
      ensures Valid() && Shows(smu, tableCache, packets)
      ensures forall o :: Offered(smu, o) && w(o) == Failed(NOT_SUPPORTED) ==>
        (o in package && (package[o].valid <==> CachedFrom(smu, o))
         && package[o] == ShownUnread(smu, packets, o))
      ensures Writable(smu, COPER) ==> |cores| == smu.coreCount
      ensures forall k :: 0 <= k < |cores| && k < smu.coreCount ==>
        cores[k] == RWData(LastCoreRequest(packets, k), true, false)
    {
      hide SentByPacket, Applied, CachedFrom, SentBelow, LastRequest, LastCoreRequest, Writable;
      assert packets[..0] == [];
      for i := 0 to |packets|
        invariant Valid() && Sized(smu, packets[..i]) && Shows(smu, tableCache, packets[..i])
      {
        ghost var before := tableCache;
        var _ := ApplySettings(packets[i]);
        ShowsNext(smu, before, packets[..i], packets[i], tableCache);
        assert packets[..i + 1] == packets[..i] + [packets[i]];
      }
      assert packets[..|packets|] == packets;
      package, cores := FillPacketData(w);
    }
  }
}
