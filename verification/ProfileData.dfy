/** What a profile holds and how it is laid out as bytes (src/DiskManagers/ProfileUtils): for each part of
    a packet the order of the fields, the counts, and the per-core and per-thread lists. */
module ProfileData {
  import opened DataStream

  /** A value of one of libPowerTuner's types; their contents do not matter here. */
  type Value = seq<int>

  const NOTHING: Value := []

  datatype Card = Card(index: int)

  /** `live` stands for the fields that a packet shows and loading a profile leaves alone. A profile does
      not save those of threads and of the whole; the maps of devices are saved entry by entry as they
      are, in encodings of their own. */
  datatype QueueSched = QueueSched(scheduler: Value, live: Value)
  datatype IntelGpu = IntelGpu(frequency: Value, boostFrequency: Value, live: Value)
  datatype AmdGpu = AmdGpu(dpmForcePerfLevel: Value, powerDpmState: Value, live: Value)

  datatype LinuxThread = LinuxThread(cpuFrequency: Value, scalingGovernor: Value, cpuOnlineStatus: Value, live: Value)
  datatype LinuxData = LinuxData(
    smtState: Value, cpuIdleGovernor: Value, blockDevicesQueSched: map<string, QueueSched>, miscPMDevices: Value,
    intelGpuData: map<Card, IntelGpu>, amdGpuData: map<Card, AmdGpu>, threadData: seq<LinuxThread>, live: Value)

  datatype IntelCore = IntelCore(pkgCstConfigControl: Value)
  datatype IntelThread = IntelThread(hwpRequest: Value, live: Value)
  datatype IntelData = IntelData(
    pkgPowerLimit: Value, vrCurrentCfg: Value, pp1CurrentCfg: Value, turboPowerCurrentLimit: Value,
    turboRatioLimit: Value, miscProcFeatures: Value, powerCtl: Value, miscPwrMgmt: Value, hwpRequestPkg: Value,
    undervoltData: Value, pp0Priority: Value, pp1Priority: Value, energyPerfBias: Value, hwpEnable: Value,
    hwpPkgCtlPolarity: Value, mchbarPkgRaplLimit: Value, coreData: seq<IntelCore>, threadData: seq<IntelThread>)

  datatype AMDCore = AMDCore(curveOptimizer: Value)
  datatype AMDThread = AMDThread(cppcRequest: Value, pstateCmd: Value, corePerfBoost: Value, live: Value)

  /** The package-wide curve optimizer and the current P-state limit are not saved. */
  datatype AMDData = AMDData(
    stapmLimit: Value, fastLimit: Value, slowLimit: Value, tctlTemp: Value, apuSlow: Value, apuSkinTemp: Value,
    dgpuSkinTemp: Value, vrmCurrent: Value, vrmSocCurrent: Value, vrmMaxCurrent: Value,
    vrmSocMaxCurrent: Value, staticGfxClock: Value, minGfxClock: Value, maxGfxClock: Value,
    powerProfile: Value, cppcEnableBit: Value, coreData: seq<AMDCore>, threadData: seq<AMDThread>,
    curveOptimizer: Value, pstateCurrentLimit: Value)

  datatype LinuxAMDThread = LinuxAMDThread(epp: Value)
  datatype LinuxAMDData = LinuxAMDData(pstateStatus: Value, threadData: seq<LinuxAMDThread>)

  type Fans = map<string, Value>

  // ---------- encodings of single values ----------

  datatype Field =
    | SmtState | CpuIdleGovernor | MiscPMDevices | CpuFrequency | ScalingGovernor | CpuOnlineStatus
    | PkgPowerLimit | VrCurrentCfg | Pp1CurrentCfg | TurboPowerCurrentLimit | TurboRatioLimit
    | MiscProcFeatures | PowerCtl | MiscPwrMgmt | HwpRequestPkg | UndervoltData | Pp0Priority | Pp1Priority
    | EnergyPerfBias | HwpEnable | HwpPkgCtlPolarity | MchbarPkgRaplLimit | PkgCstConfigControl | HwpRequest
    | StapmLimit | FastLimit | SlowLimit | TctlTemp | ApuSlow | ApuSkinTemp | DgpuSkinTemp | VrmCurrent
    | VrmSocCurrent | VrmMaxCurrent | VrmSocMaxCurrent | StaticGfxClock | MinGfxClock | MaxGfxClock
    | PowerProfile | CppcEnableBit | CoreCurveOptimizer | CppcRequest | PstateCmd | CorePerfBoost
    | PstateStatus | Epp

  /** The encodings of the unseen types, field by field. */
  datatype Codecs = Codecs(
    value: Field -> Codec<Value>, queues: Codec<map<string, QueueSched>>, intelGpus: Codec<map<Card, IntelGpu>>,
    amdGpus: Codec<map<Card, AmdGpu>>, fans: Codec<Fans>)

  ghost predicate LawfulCodecs(c: Codecs) {
    (forall f :: Lawful(c.value(f))) && Lawful(c.queues) && Lawful(c.intelGpus) && Lawful(c.amdGpus) && Lawful(c.fans)
  }

  function Put(c: Codecs, f: Field, v: Value, t: bytes): bytes {
    Cat(c.value(f).put(v), t)
  }

  function Get(c: Codecs, f: Field, b: bytes): (Value, bytes) {
    c.value(f).get(b)
  }

  /** Single values one after the other. */
  function PutAll(c: Codecs, items: seq<(Field, Value)>, t: bytes): bytes {
    if items == [] then t else Put(c, items[0].0, items[0].1, PutAll(c, items[1..], t))
  }

  type Item = (Field, Value)

  lemma PutOne(c: Codecs, a: Item, rest: seq<Item>, t: bytes)
    ensures PutAll(c, [a] + rest, t) == Put(c, a.0, a.1, PutAll(c, rest, t))
  {
    assert ([a] + rest)[1..] == rest;
  }

  lemma PutFour(c: Codecs, x: seq<Item>, rest: seq<Item>, t: bytes)
    requires |x| == 4
    ensures PutAll(c, x + rest, t) ==
      Put(c, x[0].0, x[0].1, Put(c, x[1].0, x[1].1, Put(c, x[2].0, x[2].1, Put(c, x[3].0, x[3].1,
      PutAll(c, rest, t)))))
  {
    hide *;
    assert x + rest == [x[0]] + ([x[1]] + ([x[2]] + ([x[3]] + rest)));
    PutOne(c, x[0], [x[1]] + ([x[2]] + ([x[3]] + rest)), t);
    PutOne(c, x[1], [x[2]] + ([x[3]] + rest), t);
    PutOne(c, x[2], [x[3]] + rest, t);
    PutOne(c, x[3], rest, t);
  }

  lemma PutEight(c: Codecs, x: seq<Item>, rest: seq<Item>, t: bytes)
    requires |x| == 8
    ensures PutAll(c, x + rest, t) ==
      Put(c, x[0].0, x[0].1, Put(c, x[1].0, x[1].1, Put(c, x[2].0, x[2].1, Put(c, x[3].0, x[3].1,
      Put(c, x[4].0, x[4].1, Put(c, x[5].0, x[5].1, Put(c, x[6].0, x[6].1, Put(c, x[7].0, x[7].1,
      PutAll(c, rest, t)))))))))
  {
    hide *;
    assert x + rest == x[..4] + (x[4..] + rest);
    PutFour(c, x[..4], x[4..] + rest, t);
    PutFour(c, x[4..], rest, t);
  }

  lemma NoItems(c: Codecs, t: bytes)
    ensures PutAll(c, [], t) == t
  {
  }

  /** Every part of the data carries version 1. */
  function PutVersion(t: bytes): bytes {
    Cat(PutI32(1), t)
  }

  function PutCount(n: nat, t: bytes): bytes {
    Cat(PutSize(n), t)
  }

  lemma ReadBack(c: Codecs)
    requires LawfulCodecs(c)
    ensures forall f: Field, v: Value, t: bytes {:trigger Put(c, f, v, t)} :: Get(c, f, Put(c, f, v, t)) == (v, t)
    ensures forall t: bytes {:trigger PutVersion(t)} :: GetI32(PutVersion(t)) == (1, t)
    ensures forall n: nat, t: bytes {:trigger PutCount(n, t)} :: n < HALF64 ==> GetSize(PutCount(n, t)) == (n, t)
    ensures Lawful(c.queues) && Lawful(c.intelGpus) && Lawful(c.amdGpus) && Lawful(c.fans)
  {
    hide Cat;
    forall f: Field, v: Value, t: bytes ensures Get(c, f, Put(c, f, v, t)) == (v, t) {
      assert Lawful(c.value(f));
    }
    forall t: bytes ensures GetI32(PutVersion(t)) == (1, t) {
      I32ReadsBack(1, t);
    }
    forall n: nat, t: bytes | n < HALF64 ensures GetSize(PutCount(n, t)) == (n, t) {
      SizeReadsBack(n, t);
    }
  }

  lemma CatLaws()
    ensures forall a: bytes, b: bytes, t: bytes :: Cat(Cat(a, b), t) == Cat(a, Cat(b, t))
  {
    forall a: bytes, b: bytes, t: bytes ensures Cat(Cat(a, b), t) == Cat(a, Cat(b, t)) {
      CatAssoc(a, b, t);
    }
  }

  // ---------- Linux data ----------

  function PutLinuxThread(c: Codecs, x: LinuxThread, t: bytes): bytes {
    Put(c, CpuFrequency, x.cpuFrequency,
        Put(c, ScalingGovernor, x.scalingGovernor, Put(c, CpuOnlineStatus, x.cpuOnlineStatus, t)))
  }

  function GetLinuxThread(c: Codecs, b: bytes): (LinuxThread, bytes) {
    var (cpuFrequency, b1) := Get(c, CpuFrequency, b);
    var (scalingGovernor, b2) := Get(c, ScalingGovernor, b1);
    var (cpuOnlineStatus, b3) := Get(c, CpuOnlineStatus, b2);
    (LinuxThread(cpuFrequency, scalingGovernor, cpuOnlineStatus, NOTHING), b3)
  }

  function SavedLinuxThread(x: LinuxThread): LinuxThread {
    x.(live := NOTHING)
  }

  function LinuxThreadElement(c: Codecs): Element<LinuxThread> {
    Element(SavedLinuxThread, (x, t) => PutLinuxThread(c, x, t), b => GetLinuxThread(c, b))
  }

  lemma LinuxThreadRestores(c: Codecs)
    requires LawfulCodecs(c)
    ensures Restores(LinuxThreadElement(c))
  {
    ReadBack(c);
    hide Put, Get, Cat, LawfulCodecs, Lawful;
  }

  lemma LinuxThreadPrefixes(c: Codecs)
    ensures Prefixes(LinuxThreadElement(c))
  {
    CatLaws();
    forall a: bytes ensures Cat(a, []) == a { CatEmpty(a); }
    hide Cat;
  }

  function PutLinux(c: Codecs, d: LinuxData, t: bytes): bytes {
    PutVersion(
      Put(c, SmtState, d.smtState,
      Put(c, CpuIdleGovernor, d.cpuIdleGovernor,
      Cat(c.queues.put(d.blockDevicesQueSched),
      Put(c, MiscPMDevices, d.miscPMDevices,
      Cat(c.intelGpus.put(d.intelGpuData),
      Cat(c.amdGpus.put(d.amdGpuData),
      PutCount(|d.threadData|, PutList(LinuxThreadElement(c), d.threadData, t)))))))))
  }

  function GetLinux(c: Codecs, b: bytes): (LinuxData, bytes) {
    var (_, b1) := GetI32(b);
    var (smtState, b2) := Get(c, SmtState, b1);
    var (cpuIdleGovernor, b3) := Get(c, CpuIdleGovernor, b2);
    var (queues, b4) := c.queues.get(b3);
    var (miscPMDevices, b5) := Get(c, MiscPMDevices, b4);
    var (intelGpus, b6) := c.intelGpus.get(b5);
    var (amdGpus, b7) := c.amdGpus.get(b6);
    var (numThreads, b8) := GetSize(b7);
    var (threads, b9) := GetList(LinuxThreadElement(c), numThreads, b8);
    (LinuxData(smtState, cpuIdleGovernor, queues, miscPMDevices, intelGpus, amdGpus, threads, NOTHING), b9)
  }

  function SavedLinux(c: Codecs, d: LinuxData): LinuxData {
    d.(threadData := Kept(LinuxThreadElement(c), d.threadData), live := NOTHING)
  }

  lemma LinuxReadsBack(c: Codecs, d: LinuxData, t: bytes)
    requires LawfulCodecs(c) && |d.threadData| < HALF64
    ensures GetLinux(c, PutLinux(c, d, t)) == (SavedLinux(c, d), t)
  {
    ReadBack(c);
    LinuxThreadRestores(c);
    ListReadsBack(LinuxThreadElement(c), d.threadData, t);
    hide Put, Get, Cat, LawfulCodecs, PutVersion, PutCount, GetI32, GetSize, LinuxThreadElement, Kept, PutList, GetList;
  }

  method SerializeLinuxData(ds: OutStream, c: Codecs, d: LinuxData)
    modifies ds
    ensures forall t: bytes :: Cat(ds.buf, t) == Cat(old(ds.buf), PutLinux(c, d, t))
  {
    hide Cat, PutI32, PutSize, LinuxThreadElement, PutList, Prefixes;
    ds.Write(PutI32(1));
    ds.Write(c.value(SmtState).put(d.smtState));
    ds.Write(c.value(CpuIdleGovernor).put(d.cpuIdleGovernor));
    ds.Write(c.queues.put(d.blockDevicesQueSched));
    ds.Write(c.value(MiscPMDevices).put(d.miscPMDevices));
    ds.Write(c.intelGpus.put(d.intelGpuData));
    ds.Write(c.amdGpus.put(d.amdGpuData));
    ds.Write(PutSize(|d.threadData|));
    LinuxThreadPrefixes(c);
    ds.WriteList(LinuxThreadElement(c), d.threadData);
  }

  method DeserializeLinuxData(ds: InStream, c: Codecs) returns (d: LinuxData)
    modifies ds
    ensures (d, ds.rest) == GetLinux(c, old(ds.rest))
  {
    hide GetI32, GetSize, LinuxThreadElement, GetList;
    var _ := ds.ReadI32();
    var smtState := ds.Read(c.value(SmtState));
    var cpuIdleGovernor := ds.Read(c.value(CpuIdleGovernor));
    var queues := ds.Read(c.queues);
    var miscPMDevices := ds.Read(c.value(MiscPMDevices));
    var intelGpus := ds.Read(c.intelGpus);
    var amdGpus := ds.Read(c.amdGpus);
    var numThreads := ds.ReadSize();
    var threads := ds.ReadList(LinuxThreadElement(c), numThreads);
    d := LinuxData(smtState, cpuIdleGovernor, queues, miscPMDevices, intelGpus, amdGpus, threads, NOTHING);
  }

  // ---------- fan data ----------

  function PutFans(c: Codecs, d: Fans, t: bytes): bytes {
    PutVersion(Cat(c.fans.put(d), t))
  }

  function GetFans(c: Codecs, b: bytes): (Fans, bytes) {
    var (_, b1) := GetI32(b);
    c.fans.get(b1)
  }

  lemma FansReadBack(c: Codecs, d: Fans, t: bytes)
    requires LawfulCodecs(c)
    ensures GetFans(c, PutFans(c, d, t)) == (d, t)
  {
    ReadBack(c);
    hide Cat, PutVersion, GetI32;
  }

  method SerializeFanData(ds: OutStream, c: Codecs, d: Fans)
    modifies ds
    ensures forall t: bytes :: Cat(ds.buf, t) == Cat(old(ds.buf), PutFans(c, d, t))
  {
    hide Cat, PutI32;
    ds.Write(PutI32(1));
    ds.Write(c.fans.put(d));
  }

  method DeserializeFanData(ds: InStream, c: Codecs) returns (d: Fans)
    modifies ds
    ensures (d, ds.rest) == GetFans(c, old(ds.rest))
  {
    hide GetI32;
    var _ := ds.ReadI32();
    d := ds.Read(c.fans);
  }

  // ---------- Intel data ----------

  function PutIntelCore(c: Codecs, x: IntelCore, t: bytes): bytes {
    Put(c, PkgCstConfigControl, x.pkgCstConfigControl, t)
  }

  function GetIntelCore(c: Codecs, b: bytes): (IntelCore, bytes) {
    var (pkgCstConfigControl, b1) := Get(c, PkgCstConfigControl, b);
    (IntelCore(pkgCstConfigControl), b1)
  }

  function IntelCoreElement(c: Codecs): Element<IntelCore> {
    Element((x: IntelCore) => x, (x, t) => PutIntelCore(c, x, t), b => GetIntelCore(c, b))
  }

  lemma IntelCoreRestores(c: Codecs)
    requires LawfulCodecs(c)
    ensures Restores(IntelCoreElement(c))
  {
    ReadBack(c);
    hide Put, Get, Cat, LawfulCodecs, Lawful;
  }

  lemma IntelCorePrefixes(c: Codecs)
    ensures Prefixes(IntelCoreElement(c))
  {
    CatLaws();
    forall a: bytes ensures Cat(a, []) == a { CatEmpty(a); }
    hide Cat;
  }

  function PutIntelThread(c: Codecs, x: IntelThread, t: bytes): bytes {
    Put(c, HwpRequest, x.hwpRequest, t)
  }

  function GetIntelThread(c: Codecs, b: bytes): (IntelThread, bytes) {
    var (hwpRequest, b1) := Get(c, HwpRequest, b);
    (IntelThread(hwpRequest, NOTHING), b1)
  }

  function SavedIntelThread(x: IntelThread): IntelThread {
    x.(live := NOTHING)
  }

  function IntelThreadElement(c: Codecs): Element<IntelThread> {
    Element(SavedIntelThread, (x, t) => PutIntelThread(c, x, t), b => GetIntelThread(c, b))
  }

  lemma IntelThreadRestores(c: Codecs)
    requires LawfulCodecs(c)
    ensures Restores(IntelThreadElement(c))
  {
    ReadBack(c);
    hide Put, Get, Cat, LawfulCodecs, Lawful;
  }

  lemma IntelThreadPrefixes(c: Codecs)
    ensures Prefixes(IntelThreadElement(c))
  {
    CatLaws();
    forall a: bytes ensures Cat(a, []) == a { CatEmpty(a); }
    hide Cat;
  }

  function PutIntel(c: Codecs, d: IntelData, t: bytes): bytes {
    PutVersion(
      Put(c, PkgPowerLimit, d.pkgPowerLimit,
      Put(c, VrCurrentCfg, d.vrCurrentCfg,
      Put(c, Pp1CurrentCfg, d.pp1CurrentCfg,
      Put(c, TurboPowerCurrentLimit, d.turboPowerCurrentLimit,
      Put(c, TurboRatioLimit, d.turboRatioLimit,
      Put(c, MiscProcFeatures, d.miscProcFeatures,
      Put(c, PowerCtl, d.powerCtl,
      Put(c, MiscPwrMgmt, d.miscPwrMgmt,
      Put(c, HwpRequestPkg, d.hwpRequestPkg,
      Put(c, UndervoltData, d.undervoltData,
      Put(c, Pp0Priority, d.pp0Priority,
      Put(c, Pp1Priority, d.pp1Priority,
      Put(c, EnergyPerfBias, d.energyPerfBias,
      Put(c, HwpEnable, d.hwpEnable,
      Put(c, HwpPkgCtlPolarity, d.hwpPkgCtlPolarity,
      Put(c, MchbarPkgRaplLimit, d.mchbarPkgRaplLimit,
      PutCount(|d.coreData|, PutCount(|d.threadData|,
      PutList(IntelCoreElement(c), d.coreData, PutList(IntelThreadElement(c), d.threadData, t)))))))))))))))))))))
  }

  /** The order of the Intel part in a file. */
  lemma IntelLayout(c: Codecs, d: IntelData, t: bytes)
    ensures PutIntel(c, d, t) == PutVersion(PutAll(c,
      [(PkgPowerLimit, d.pkgPowerLimit), (VrCurrentCfg, d.vrCurrentCfg), (Pp1CurrentCfg, d.pp1CurrentCfg),
       (TurboPowerCurrentLimit, d.turboPowerCurrentLimit), (TurboRatioLimit, d.turboRatioLimit),
       (MiscProcFeatures, d.miscProcFeatures), (PowerCtl, d.powerCtl), (MiscPwrMgmt, d.miscPwrMgmt)]
      + [(HwpRequestPkg, d.hwpRequestPkg), (UndervoltData, d.undervoltData), (Pp0Priority, d.pp0Priority),
       (Pp1Priority, d.pp1Priority), (EnergyPerfBias, d.energyPerfBias), (HwpEnable, d.hwpEnable),
       (HwpPkgCtlPolarity, d.hwpPkgCtlPolarity), (MchbarPkgRaplLimit, d.mchbarPkgRaplLimit)],
      PutCount(|d.coreData|, PutCount(|d.threadData|,
        PutList(IntelCoreElement(c), d.coreData, PutList(IntelThreadElement(c), d.threadData, t))))))
  {
    hide Put, PutCount, PutList, PutVersion, PutAll;
    var rest := PutCount(|d.coreData|, PutCount(|d.threadData|,
      PutList(IntelCoreElement(c), d.coreData, PutList(IntelThreadElement(c), d.threadData, t))));
    var a, b :=
      [(PkgPowerLimit, d.pkgPowerLimit), (VrCurrentCfg, d.vrCurrentCfg), (Pp1CurrentCfg, d.pp1CurrentCfg),
       (TurboPowerCurrentLimit, d.turboPowerCurrentLimit), (TurboRatioLimit, d.turboRatioLimit),
       (MiscProcFeatures, d.miscProcFeatures), (PowerCtl, d.powerCtl), (MiscPwrMgmt, d.miscPwrMgmt)],
      [(HwpRequestPkg, d.hwpRequestPkg), (UndervoltData, d.undervoltData), (Pp0Priority, d.pp0Priority),
       (Pp1Priority, d.pp1Priority), (EnergyPerfBias, d.energyPerfBias), (HwpEnable, d.hwpEnable),
       (HwpPkgCtlPolarity, d.hwpPkgCtlPolarity), (MchbarPkgRaplLimit, d.mchbarPkgRaplLimit)];
    PutEight(c, a, b, rest);
    PutEight(c, b, [], rest);
    assert b + [] == b;
    NoItems(c, rest);
  }

  function GetIntel(c: Codecs, b: bytes): (IntelData, bytes) {
    var (_, b0) := GetI32(b);
    var (pkgPowerLimit, b1) := Get(c, PkgPowerLimit, b0);
    var (vrCurrentCfg, b2) := Get(c, VrCurrentCfg, b1);
    var (pp1CurrentCfg, b3) := Get(c, Pp1CurrentCfg, b2);
    var (turboPowerCurrentLimit, b4) := Get(c, TurboPowerCurrentLimit, b3);
    var (turboRatioLimit, b5) := Get(c, TurboRatioLimit, b4);
    var (miscProcFeatures, b6) := Get(c, MiscProcFeatures, b5);
    var (powerCtl, b7) := Get(c, PowerCtl, b6);
    var (miscPwrMgmt, b8) := Get(c, MiscPwrMgmt, b7);
    var (hwpRequestPkg, b9) := Get(c, HwpRequestPkg, b8);
    var (undervoltData, b10) := Get(c, UndervoltData, b9);
    var (pp0Priority, b11) := Get(c, Pp0Priority, b10);
    var (pp1Priority, b12) := Get(c, Pp1Priority, b11);
    var (energyPerfBias, b13) := Get(c, EnergyPerfBias, b12);
    var (hwpEnable, b14) := Get(c, HwpEnable, b13);
    var (hwpPkgCtlPolarity, b15) := Get(c, HwpPkgCtlPolarity, b14);
    var (mchbarPkgRaplLimit, b16) := Get(c, MchbarPkgRaplLimit, b15);
    var (numCores, b17) := GetSize(b16);
    var (numThreads, b18) := GetSize(b17);
    var (cores, b19) := GetList(IntelCoreElement(c), numCores, b18);
    var (threads, b20) := GetList(IntelThreadElement(c), numThreads, b19);
    (IntelData(
      pkgPowerLimit, vrCurrentCfg, pp1CurrentCfg, turboPowerCurrentLimit, turboRatioLimit, miscProcFeatures,
      powerCtl, miscPwrMgmt, hwpRequestPkg, undervoltData, pp0Priority, pp1Priority, energyPerfBias, hwpEnable,
      hwpPkgCtlPolarity, mchbarPkgRaplLimit, cores, threads), b20)
  }

  function SavedIntel(c: Codecs, d: IntelData): IntelData {
    d.(coreData := Kept(IntelCoreElement(c), d.coreData), threadData := Kept(IntelThreadElement(c), d.threadData))
  }

  lemma IntelReadsBack(c: Codecs, d: IntelData, t: bytes)
    requires LawfulCodecs(c) && |d.coreData| < HALF64 && |d.threadData| < HALF64
    ensures GetIntel(c, PutIntel(c, d, t)) == (SavedIntel(c, d), t)
  {
    ReadBack(c);
    IntelCoreRestores(c);
    IntelThreadRestores(c);
    ListReadsBack(IntelThreadElement(c), d.threadData, t);
    ListReadsBack(IntelCoreElement(c), d.coreData, PutList(IntelThreadElement(c), d.threadData, t));
    hide Put, Get, Cat, LawfulCodecs, PutVersion, PutCount, GetI32, GetSize, Kept, PutList, GetList;
    hide IntelCoreElement, IntelThreadElement;
  }

  method SerializeIntelData(ds: OutStream, c: Codecs, d: IntelData)
    modifies ds
    ensures forall t: bytes :: Cat(ds.buf, t) == Cat(old(ds.buf), PutIntel(c, d, t))
  {
    hide Cat, PutI32, PutSize, IntelCoreElement, IntelThreadElement, PutList, Prefixes;
    ds.Write(PutI32(1));
    ds.Write(c.value(PkgPowerLimit).put(d.pkgPowerLimit));
    ds.Write(c.value(VrCurrentCfg).put(d.vrCurrentCfg));
    ds.Write(c.value(Pp1CurrentCfg).put(d.pp1CurrentCfg));
    ds.Write(c.value(TurboPowerCurrentLimit).put(d.turboPowerCurrentLimit));
    ds.Write(c.value(TurboRatioLimit).put(d.turboRatioLimit));
    ds.Write(c.value(MiscProcFeatures).put(d.miscProcFeatures));
    ds.Write(c.value(PowerCtl).put(d.powerCtl));
    ds.Write(c.value(MiscPwrMgmt).put(d.miscPwrMgmt));
    ds.Write(c.value(HwpRequestPkg).put(d.hwpRequestPkg));
    ds.Write(c.value(UndervoltData).put(d.undervoltData));
    ds.Write(c.value(Pp0Priority).put(d.pp0Priority));
    ds.Write(c.value(Pp1Priority).put(d.pp1Priority));
    ds.Write(c.value(EnergyPerfBias).put(d.energyPerfBias));
    ds.Write(c.value(HwpEnable).put(d.hwpEnable));
    ds.Write(c.value(HwpPkgCtlPolarity).put(d.hwpPkgCtlPolarity));
    ds.Write(c.value(MchbarPkgRaplLimit).put(d.mchbarPkgRaplLimit));
    ds.Write(PutSize(|d.coreData|));
    ds.Write(PutSize(|d.threadData|));
    IntelCorePrefixes(c);
    IntelThreadPrefixes(c);
    ds.WriteList(IntelCoreElement(c), d.coreData);
    ds.WriteList(IntelThreadElement(c), d.threadData);
  }

  method DeserializeIntelData(ds: InStream, c: Codecs) returns (d: IntelData)
    modifies ds
    ensures (d, ds.rest) == GetIntel(c, old(ds.rest))
  {
    hide GetI32, GetSize, IntelCoreElement, IntelThreadElement, GetList;
    var _ := ds.ReadI32();
    var pkgPowerLimit := ds.Read(c.value(PkgPowerLimit));
    var vrCurrentCfg := ds.Read(c.value(VrCurrentCfg));
    var pp1CurrentCfg := ds.Read(c.value(Pp1CurrentCfg));
    var turboPowerCurrentLimit := ds.Read(c.value(TurboPowerCurrentLimit));
    var turboRatioLimit := ds.Read(c.value(TurboRatioLimit));
    var miscProcFeatures := ds.Read(c.value(MiscProcFeatures));
    var powerCtl := ds.Read(c.value(PowerCtl));
    var miscPwrMgmt := ds.Read(c.value(MiscPwrMgmt));
    var hwpRequestPkg := ds.Read(c.value(HwpRequestPkg));
    var undervoltData := ds.Read(c.value(UndervoltData));
    var pp0Priority := ds.Read(c.value(Pp0Priority));
    var pp1Priority := ds.Read(c.value(Pp1Priority));
    var energyPerfBias := ds.Read(c.value(EnergyPerfBias));
    var hwpEnable := ds.Read(c.value(HwpEnable));
    var hwpPkgCtlPolarity := ds.Read(c.value(HwpPkgCtlPolarity));
    var mchbarPkgRaplLimit := ds.Read(c.value(MchbarPkgRaplLimit));
    var numCores := ds.ReadSize();
    var numThreads := ds.ReadSize();
    var cores := ds.ReadList(IntelCoreElement(c), numCores);
    var threads := ds.ReadList(IntelThreadElement(c), numThreads);
    d := IntelData(
      pkgPowerLimit, vrCurrentCfg, pp1CurrentCfg, turboPowerCurrentLimit, turboRatioLimit, miscProcFeatures,
      powerCtl, miscPwrMgmt, hwpRequestPkg, undervoltData, pp0Priority, pp1Priority, energyPerfBias, hwpEnable,
      hwpPkgCtlPolarity, mchbarPkgRaplLimit, cores, threads);
  }

  // ---------- AMD data ----------

  function PutAMDCore(c: Codecs, x: AMDCore, t: bytes): bytes {
    Put(c, CoreCurveOptimizer, x.curveOptimizer, t)
  }

  function GetAMDCore(c: Codecs, b: bytes): (AMDCore, bytes) {
    var (curveOptimizer, b1) := Get(c, CoreCurveOptimizer, b);
    (AMDCore(curveOptimizer), b1)
  }

  function AMDCoreElement(c: Codecs): Element<AMDCore> {
    Element((x: AMDCore) => x, (x, t) => PutAMDCore(c, x, t), b => GetAMDCore(c, b))
  }

  lemma AMDCoreRestores(c: Codecs)
    requires LawfulCodecs(c)
    ensures Restores(AMDCoreElement(c))
  {
    ReadBack(c);
    hide Put, Get, Cat, LawfulCodecs, Lawful;
  }

  lemma AMDCorePrefixes(c: Codecs)
    ensures Prefixes(AMDCoreElement(c))
  {
    CatLaws();
    forall a: bytes ensures Cat(a, []) == a { CatEmpty(a); }
    hide Cat;
  }

  function PutAMDThread(c: Codecs, x: AMDThread, t: bytes): bytes {
    Put(c, CppcRequest, x.cppcRequest, Put(c, PstateCmd, x.pstateCmd, Put(c, CorePerfBoost, x.corePerfBoost, t)))
  }

  function GetAMDThread(c: Codecs, b: bytes): (AMDThread, bytes) {
    var (cppcRequest, b1) := Get(c, CppcRequest, b);
    var (pstateCmd, b2) := Get(c, PstateCmd, b1);
    var (corePerfBoost, b3) := Get(c, CorePerfBoost, b2);
    (AMDThread(cppcRequest, pstateCmd, corePerfBoost, NOTHING), b3)
  }

  function SavedAMDThread(x: AMDThread): AMDThread {
    x.(live := NOTHING)
  }

  function AMDThreadElement(c: Codecs): Element<AMDThread> {
    Element(SavedAMDThread, (x, t) => PutAMDThread(c, x, t), b => GetAMDThread(c, b))
  }

  lemma AMDThreadRestores(c: Codecs)
    requires LawfulCodecs(c)
    ensures Restores(AMDThreadElement(c))
  {
    ReadBack(c);
    hide Put, Get, Cat, LawfulCodecs, Lawful;
  }

  lemma AMDThreadPrefixes(c: Codecs)
    ensures Prefixes(AMDThreadElement(c))
  {
    CatLaws();
    forall a: bytes ensures Cat(a, []) == a { CatEmpty(a); }
    hide Cat;
  }

  function PutAMD(c: Codecs, d: AMDData, t: bytes): bytes {
    PutVersion(
      Put(c, StapmLimit, d.stapmLimit,
      Put(c, FastLimit, d.fastLimit,
      Put(c, SlowLimit, d.slowLimit,
      Put(c, TctlTemp, d.tctlTemp,
      Put(c, ApuSlow, d.apuSlow,
      Put(c, ApuSkinTemp, d.apuSkinTemp,
      Put(c, DgpuSkinTemp, d.dgpuSkinTemp,
      Put(c, VrmCurrent, d.vrmCurrent,
      Put(c, VrmSocCurrent, d.vrmSocCurrent,
      Put(c, VrmMaxCurrent, d.vrmMaxCurrent,
      Put(c, VrmSocMaxCurrent, d.vrmSocMaxCurrent,
      Put(c, StaticGfxClock, d.staticGfxClock,
      Put(c, MinGfxClock, d.minGfxClock,
      Put(c, MaxGfxClock, d.maxGfxClock,
      Put(c, PowerProfile, d.powerProfile,
      Put(c, CppcEnableBit, d.cppcEnableBit,
      PutCount(|d.coreData|, PutCount(|d.threadData|,
      PutList(AMDCoreElement(c), d.coreData, PutList(AMDThreadElement(c), d.threadData, t)))))))))))))))))))))
  }

  /** The order of the AMD part in a file. */
  lemma AMDLayout(c: Codecs, d: AMDData, t: bytes)
    ensures PutAMD(c, d, t) == PutVersion(PutAll(c,
      [(StapmLimit, d.stapmLimit), (FastLimit, d.fastLimit), (SlowLimit, d.slowLimit), (TctlTemp, d.tctlTemp),
       (ApuSlow, d.apuSlow), (ApuSkinTemp, d.apuSkinTemp), (DgpuSkinTemp, d.dgpuSkinTemp), (VrmCurrent, d.vrmCurrent)]
      + [(VrmSocCurrent, d.vrmSocCurrent), (VrmMaxCurrent, d.vrmMaxCurrent), (VrmSocMaxCurrent, d.vrmSocMaxCurrent),
       (StaticGfxClock, d.staticGfxClock), (MinGfxClock, d.minGfxClock), (MaxGfxClock, d.maxGfxClock),
       (PowerProfile, d.powerProfile), (CppcEnableBit, d.cppcEnableBit)],
      PutCount(|d.coreData|, PutCount(|d.threadData|,
        PutList(AMDCoreElement(c), d.coreData, PutList(AMDThreadElement(c), d.threadData, t))))))
  {
    hide Put, PutCount, PutList, PutVersion, PutAll;
    var rest := PutCount(|d.coreData|, PutCount(|d.threadData|,
      PutList(AMDCoreElement(c), d.coreData, PutList(AMDThreadElement(c), d.threadData, t))));
    var a, b :=
      [(StapmLimit, d.stapmLimit), (FastLimit, d.fastLimit), (SlowLimit, d.slowLimit), (TctlTemp, d.tctlTemp),
       (ApuSlow, d.apuSlow), (ApuSkinTemp, d.apuSkinTemp), (DgpuSkinTemp, d.dgpuSkinTemp), (VrmCurrent, d.vrmCurrent)],
      [(VrmSocCurrent, d.vrmSocCurrent), (VrmMaxCurrent, d.vrmMaxCurrent), (VrmSocMaxCurrent, d.vrmSocMaxCurrent),
       (StaticGfxClock, d.staticGfxClock), (MinGfxClock, d.minGfxClock), (MaxGfxClock, d.maxGfxClock),
       (PowerProfile, d.powerProfile), (CppcEnableBit, d.cppcEnableBit)];
    PutEight(c, a, b, rest);
    PutEight(c, b, [], rest);
    assert b + [] == b;
    NoItems(c, rest);
  }

  function GetAMD(c: Codecs, b: bytes): (AMDData, bytes) {
    var (_, b0) := GetI32(b);
    var (stapmLimit, b1) := Get(c, StapmLimit, b0);
    var (fastLimit, b2) := Get(c, FastLimit, b1);
    var (slowLimit, b3) := Get(c, SlowLimit, b2);
    var (tctlTemp, b4) := Get(c, TctlTemp, b3);
    var (apuSlow, b5) := Get(c, ApuSlow, b4);
    var (apuSkinTemp, b6) := Get(c, ApuSkinTemp, b5);
    var (dgpuSkinTemp, b7) := Get(c, DgpuSkinTemp, b6);
    var (vrmCurrent, b8) := Get(c, VrmCurrent, b7);
    var (vrmSocCurrent, b9) := Get(c, VrmSocCurrent, b8);
    var (vrmMaxCurrent, b10) := Get(c, VrmMaxCurrent, b9);
    var (vrmSocMaxCurrent, b11) := Get(c, VrmSocMaxCurrent, b10);
    var (staticGfxClock, b12) := Get(c, StaticGfxClock, b11);
    var (minGfxClock, b13) := Get(c, MinGfxClock, b12);
    var (maxGfxClock, b14) := Get(c, MaxGfxClock, b13);
    var (powerProfile, b15) := Get(c, PowerProfile, b14);
    var (cppcEnableBit, b16) := Get(c, CppcEnableBit, b15);
    var (numCores, b17) := GetSize(b16);
    var (numThreads, b18) := GetSize(b17);
    var (cores, b19) := GetList(AMDCoreElement(c), numCores, b18);
    var (threads, b20) := GetList(AMDThreadElement(c), numThreads, b19);
    (AMDData(
      stapmLimit, fastLimit, slowLimit, tctlTemp, apuSlow, apuSkinTemp, dgpuSkinTemp, vrmCurrent,
      vrmSocCurrent, vrmMaxCurrent, vrmSocMaxCurrent, staticGfxClock, minGfxClock, maxGfxClock, powerProfile,
      cppcEnableBit, cores, threads, NOTHING, NOTHING), b20)
  }

  function SavedAMD(c: Codecs, d: AMDData): AMDData {
    d.(coreData := Kept(AMDCoreElement(c), d.coreData), threadData := Kept(AMDThreadElement(c), d.threadData),
       curveOptimizer := NOTHING, pstateCurrentLimit := NOTHING)
  }

  lemma AMDReadsBack(c: Codecs, d: AMDData, t: bytes)
    requires LawfulCodecs(c) && |d.coreData| < HALF64 && |d.threadData| < HALF64
    ensures GetAMD(c, PutAMD(c, d, t)) == (SavedAMD(c, d), t)
  {
    ReadBack(c);
    AMDCoreRestores(c);
    AMDThreadRestores(c);
    ListReadsBack(AMDThreadElement(c), d.threadData, t);
    ListReadsBack(AMDCoreElement(c), d.coreData, PutList(AMDThreadElement(c), d.threadData, t));
    hide Put, Get, Cat, LawfulCodecs, PutVersion, PutCount, GetI32, GetSize, Kept, PutList, GetList;
    hide AMDCoreElement, AMDThreadElement;
  }

  method SerializeAMDData(ds: OutStream, c: Codecs, d: AMDData)
    modifies ds
    ensures forall t: bytes :: Cat(ds.buf, t) == Cat(old(ds.buf), PutAMD(c, d, t))
  {
    hide Cat, PutI32, PutSize, AMDCoreElement, AMDThreadElement, PutList, Prefixes;
    ds.Write(PutI32(1));
    ds.Write(c.value(StapmLimit).put(d.stapmLimit));
    ds.Write(c.value(FastLimit).put(d.fastLimit));
    ds.Write(c.value(SlowLimit).put(d.slowLimit));
    ds.Write(c.value(TctlTemp).put(d.tctlTemp));
    ds.Write(c.value(ApuSlow).put(d.apuSlow));
    ds.Write(c.value(ApuSkinTemp).put(d.apuSkinTemp));
    ds.Write(c.value(DgpuSkinTemp).put(d.dgpuSkinTemp));
    ds.Write(c.value(VrmCurrent).put(d.vrmCurrent));
    ds.Write(c.value(VrmSocCurrent).put(d.vrmSocCurrent));
    ds.Write(c.value(VrmMaxCurrent).put(d.vrmMaxCurrent));
    ds.Write(c.value(VrmSocMaxCurrent).put(d.vrmSocMaxCurrent));
    ds.Write(c.value(StaticGfxClock).put(d.staticGfxClock));
    ds.Write(c.value(MinGfxClock).put(d.minGfxClock));
    ds.Write(c.value(MaxGfxClock).put(d.maxGfxClock));
    ds.Write(c.value(PowerProfile).put(d.powerProfile));
    ds.Write(c.value(CppcEnableBit).put(d.cppcEnableBit));
    ds.Write(PutSize(|d.coreData|));
    ds.Write(PutSize(|d.threadData|));
    AMDCorePrefixes(c);
    AMDThreadPrefixes(c);
    ds.WriteList(AMDCoreElement(c), d.coreData);
    ds.WriteList(AMDThreadElement(c), d.threadData);
  }

  method DeserializeAMDData(ds: InStream, c: Codecs) returns (d: AMDData)
    modifies ds
    ensures (d, ds.rest) == GetAMD(c, old(ds.rest))
  {
    hide GetI32, GetSize, AMDCoreElement, AMDThreadElement, GetList;
    var _ := ds.ReadI32();
    var stapmLimit := ds.Read(c.value(StapmLimit));
    var fastLimit := ds.Read(c.value(FastLimit));
    var slowLimit := ds.Read(c.value(SlowLimit));
    var tctlTemp := ds.Read(c.value(TctlTemp));
    var apuSlow := ds.Read(c.value(ApuSlow));
    var apuSkinTemp := ds.Read(c.value(ApuSkinTemp));
    var dgpuSkinTemp := ds.Read(c.value(DgpuSkinTemp));
    var vrmCurrent := ds.Read(c.value(VrmCurrent));
    var vrmSocCurrent := ds.Read(c.value(VrmSocCurrent));
    var vrmMaxCurrent := ds.Read(c.value(VrmMaxCurrent));
    var vrmSocMaxCurrent := ds.Read(c.value(VrmSocMaxCurrent));
    var staticGfxClock := ds.Read(c.value(StaticGfxClock));
    var minGfxClock := ds.Read(c.value(MinGfxClock));
    var maxGfxClock := ds.Read(c.value(MaxGfxClock));
    var powerProfile := ds.Read(c.value(PowerProfile));
    var cppcEnableBit := ds.Read(c.value(CppcEnableBit));
    var numCores := ds.ReadSize();
    var numThreads := ds.ReadSize();
    var cores := ds.ReadList(AMDCoreElement(c), numCores);
    var threads := ds.ReadList(AMDThreadElement(c), numThreads);
    d := AMDData(
      stapmLimit, fastLimit, slowLimit, tctlTemp, apuSlow, apuSkinTemp, dgpuSkinTemp, vrmCurrent,
      vrmSocCurrent, vrmMaxCurrent, vrmSocMaxCurrent, staticGfxClock, minGfxClock, maxGfxClock, powerProfile,
      cppcEnableBit, cores, threads, NOTHING, NOTHING);
  }

  // ---------- AMD data on Linux ----------

  function PutLinuxAMDThread(c: Codecs, x: LinuxAMDThread, t: bytes): bytes {
    Put(c, Epp, x.epp, t)
  }

  function GetLinuxAMDThread(c: Codecs, b: bytes): (LinuxAMDThread, bytes) {
    var (epp, b1) := Get(c, Epp, b);
    (LinuxAMDThread(epp), b1)
  }

  function LinuxAMDThreadElement(c: Codecs): Element<LinuxAMDThread> {
    Element((x: LinuxAMDThread) => x, (x, t) => PutLinuxAMDThread(c, x, t), b => GetLinuxAMDThread(c, b))
  }

  lemma LinuxAMDThreadRestores(c: Codecs)
    requires LawfulCodecs(c)
    ensures Restores(LinuxAMDThreadElement(c))
  {
    ReadBack(c);
    hide Put, Get, Cat, LawfulCodecs, Lawful;
  }

  lemma LinuxAMDThreadPrefixes(c: Codecs)
    ensures Prefixes(LinuxAMDThreadElement(c))
  {
    CatLaws();
    forall a: bytes ensures Cat(a, []) == a { CatEmpty(a); }
    hide Cat;
  }

  function PutLinuxAMD(c: Codecs, d: LinuxAMDData, t: bytes): bytes {
    PutVersion(
      Put(c, PstateStatus, d.pstateStatus,
      PutCount(|d.threadData|, PutList(LinuxAMDThreadElement(c), d.threadData, t))))
  }

  function GetLinuxAMD(c: Codecs, b: bytes): (LinuxAMDData, bytes) {
    var (_, b0) := GetI32(b);
    var (pstateStatus, b1) := Get(c, PstateStatus, b0);
    var (numThreads, b2) := GetSize(b1);
    var (threads, b3) := GetList(LinuxAMDThreadElement(c), numThreads, b2);
    (LinuxAMDData(pstateStatus, threads), b3)
  }

  function SavedLinuxAMD(c: Codecs, d: LinuxAMDData): LinuxAMDData {
    d.(threadData := Kept(LinuxAMDThreadElement(c), d.threadData))
  }

  lemma LinuxAMDReadsBack(c: Codecs, d: LinuxAMDData, t: bytes)
    requires LawfulCodecs(c) && |d.threadData| < HALF64
    ensures GetLinuxAMD(c, PutLinuxAMD(c, d, t)) == (SavedLinuxAMD(c, d), t)
  {
    ReadBack(c);
    LinuxAMDThreadRestores(c);
    ListReadsBack(LinuxAMDThreadElement(c), d.threadData, t);
    hide Put, Get, Cat, LawfulCodecs, PutVersion, PutCount, GetI32, GetSize;
    hide LinuxAMDThreadElement, Kept, PutList, GetList;
  }

  method SerializeLinuxAMDData(ds: OutStream, c: Codecs, d: LinuxAMDData)
    modifies ds
    ensures forall t: bytes :: Cat(ds.buf, t) == Cat(old(ds.buf), PutLinuxAMD(c, d, t))
  {
    hide Cat, PutI32, PutSize, LinuxAMDThreadElement, PutList, Prefixes;
    ds.Write(PutI32(1));
    ds.Write(c.value(PstateStatus).put(d.pstateStatus));
    ds.Write(PutSize(|d.threadData|));
    LinuxAMDThreadPrefixes(c);
    ds.WriteList(LinuxAMDThreadElement(c), d.threadData);
  }

  method DeserializeLinuxAMDData(ds: InStream, c: Codecs) returns (d: LinuxAMDData)
    modifies ds
    ensures (d, ds.rest) == GetLinuxAMD(c, old(ds.rest))
  {
    hide GetI32, GetSize, LinuxAMDThreadElement, GetList;
    var _ := ds.ReadI32();
    var pstateStatus := ds.Read(c.value(PstateStatus));
    var numThreads := ds.ReadSize();
    var threads := ds.ReadList(LinuxAMDThreadElement(c), numThreads);
    d := LinuxAMDData(pstateStatus, threads);
  }
}
