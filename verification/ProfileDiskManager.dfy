/** Profile files: printing a packet, accepting a file, and loading it for applying or for display
    (src/DiskManagers/ProfileDiskManager.cpp and the merge functions of ProfileUtils), on Linux. */
module ProfileDiskManager {
  import opened Basics
  import opened DataStream
  import opened ProfileData

  datatype CPUVendor = Intel | AMD | Unknown

  /** The device data of a packet, and equally what a profile file yields. */
  datatype PacketData = PacketData(
    linuxData: LinuxData, fanData: Fans, intelData: Option<IntelData>, amdData: Option<AMDData>,
    linuxAmdData: Option<LinuxAMDData>)

  /** A packet carries the data of this vendor. */
  predicate HasVendorData(v: CPUVendor, p: PacketData) {
    && (v.Intel? ==> p.intelData.Some?)
    && (v.AMD? ==> p.amdData.Some? && p.linuxAmdData.Some?)
  }

  // ---------- the data of a profile ----------

  function PutDisk(c: Codecs, v: CPUVendor, p: PacketData): bytes
    requires HasVendorData(v, p)
  {
    PutLinux(c, p.linuxData, PutFans(c, p.fanData,
      match v
      case Intel => PutIntel(c, p.intelData.value, [])
      case AMD => PutAMD(c, p.amdData.value, PutLinuxAMD(c, p.linuxAmdData.value, []))
      case Unknown => []))
  }

  function GetDisk(c: Codecs, v: CPUVendor, b: bytes): (d: PacketData)
    ensures HasVendorData(v, d)
  {
    var (linuxD, b1) := GetLinux(c, b);
    var (fanD, b2) := GetFans(c, b1);
    match v
    case Intel => PacketData(linuxD, fanD, Some(GetIntel(c, b2).0), None, None)
    case AMD =>
      var (amdD, b3) := GetAMD(c, b2);
      PacketData(linuxD, fanD, None, Some(amdD), Some(GetLinuxAMD(c, b3).0))
    case Unknown => PacketData(linuxD, fanD, None, None, None)
  }

  /** What a profile of this vendor keeps of a packet. */
  function Saved(c: Codecs, v: CPUVendor, p: PacketData): PacketData
    requires HasVendorData(v, p)
  {
    PacketData(
      SavedLinux(c, p.linuxData), p.fanData,
      if v.Intel? then Some(SavedIntel(c, p.intelData.value)) else None,
      if v.AMD? then Some(SavedAMD(c, p.amdData.value)) else None,
      if v.AMD? then Some(SavedLinuxAMD(c, p.linuxAmdData.value)) else None)
  }

  /** List sizes are qsizetype values. */
  predicate Sized(p: PacketData) {
    && |p.linuxData.threadData| < HALF64
    && (p.intelData.Some? ==> |p.intelData.value.coreData| < HALF64 && |p.intelData.value.threadData| < HALF64)
    && (p.amdData.Some? ==> |p.amdData.value.coreData| < HALF64 && |p.amdData.value.threadData| < HALF64)
    && (p.linuxAmdData.Some? ==> |p.linuxAmdData.value.threadData| < HALF64)
  }

  lemma DiskReadsBack(c: Codecs, v: CPUVendor, p: PacketData)
    requires LawfulCodecs(c) && HasVendorData(v, p) && Sized(p)
    ensures GetDisk(c, v, PutDisk(c, v, p)) == Saved(c, v, p)
  {
    hide LawfulCodecs, PutLinux, GetLinux, PutFans, GetFans;
    hide PutIntel, GetIntel, PutAMD, GetAMD, PutLinuxAMD, GetLinuxAMD;
    hide SavedLinux, SavedIntel, SavedAMD, SavedLinuxAMD;
    var t := match v
      case Intel => PutIntel(c, p.intelData.value, [])
      case AMD => PutAMD(c, p.amdData.value, PutLinuxAMD(c, p.linuxAmdData.value, []))
      case Unknown => [];
    LinuxReadsBack(c, p.linuxData, PutFans(c, p.fanData, t));
    FansReadBack(c, p.fanData, t);
    match v {
      case Intel => IntelReadsBack(c, p.intelData.value, []);
      case AMD =>
        AMDReadsBack(c, p.amdData.value, PutLinuxAMD(c, p.linuxAmdData.value, []));
        LinuxAMDReadsBack(c, p.linuxAmdData.value, []);
      case Unknown =>
    }
  }

  lemma DiskNotEmpty(c: Codecs, v: CPUVendor, p: PacketData)
    requires HasVendorData(v, p)
    ensures PutDisk(c, v, p) != []
  {
    hide PutFans, PutIntel, PutAMD, PutLinuxAMD, PutList, PutCount, Put;
    assert |PutI32(1)| == 4;
  }

  // ---------- the file around it ----------

  /** "PWTPF" */
  const SIGNATURE: seq<unit> := [80, 87, 84, 80, 70]
  const FILE_VERSION: int := 1

  datatype File = File(signature: seq<unit>, version: int, hash: bytes, checksum: bytes, data: bytes)

  function PrintFile(f: File): bytes
    requires 0 - HALF32 <= f.version < HALF32
  {
    Cat(PutString(f.signature),
        Cat(PutI32(f.version), Cat(PutBytes(f.hash), Cat(PutBytes(f.checksum), PutBytes(f.data)))))
  }

  /** The items of a file, in order. */
  lemma FileLayout(f: File)
    requires 0 - HALF32 <= f.version < HALF32
    ensures PrintFile(f) ==
      PutString(f.signature) + PutI32(f.version) + PutBytes(f.hash) + PutBytes(f.checksum) + PutBytes(f.data)
  {
    hide PutString, PutI32, PutBytes;
  }

  /** The parts of the data, in order. */
  lemma DiskLayout(c: Codecs, p: PacketData)
    ensures PutDisk(c, Unknown, p) == PutLinux(c, p.linuxData, PutFans(c, p.fanData, []))
    ensures HasVendorData(Intel, p) ==>
      PutDisk(c, Intel, p) == PutLinux(c, p.linuxData, PutFans(c, p.fanData, PutIntel(c, p.intelData.value, [])))
    ensures HasVendorData(AMD, p) ==>
      PutDisk(c, AMD, p) ==
        PutLinux(c, p.linuxData, PutFans(c, p.fanData,
          PutAMD(c, p.amdData.value, PutLinuxAMD(c, p.linuxAmdData.value, []))))
  {
    hide PutLinux, PutFans, PutIntel, PutAMD, PutLinuxAMD;
  }

  function ParseFile(b: bytes): File {
    var (signature, b1) := GetString(b);
    var (version, b2) := GetI32(b1);
    var (hash, b3) := GetBytes(b2);
    var (checksum, b4) := GetBytes(b3);
    File(signature, version, hash, checksum, GetBytes(b4).0)
  }

  predicate FileSized(f: File) {
    && 2 * |f.signature| < HALF64 && |f.hash| < HALF64 && |f.checksum| < HALF64 && |f.data| < HALF64
    && 0 - HALF32 <= f.version < HALF32
  }

  lemma FileReadsBack(f: File)
    requires FileSized(f)
    ensures ParseFile(PrintFile(f)) == f
  {
    hide PutString, GetString, PutI32, GetI32, PutBytes, GetBytes, Cat;
    var b5 := PutBytes(f.data);
    var b4 := Cat(PutBytes(f.checksum), b5);
    var b3 := Cat(PutBytes(f.hash), b4);
    var b2 := Cat(PutI32(f.version), b3);
    StringReadsBack(f.signature, b2);
    I32ReadsBack(f.version, b3);
    BytesReadBack(f.hash, b4);
    BytesReadBack(f.checksum, b5);
    BytesReadBack(f.data, []);
    CatEmpty(b5);
  }

  // ---------- merging a profile into a live packet ----------

  /** Devices of the live packet take the profile's values; devices it does not have are skipped. */
  function Merged<K, V>(take: (V, V) -> V, profile: map<K, V>, live: map<K, V>): map<K, V> {
    map k | k in live :: if k in profile then take(profile[k], live[k]) else live[k]
  }

  function TakeQueue(profile: QueueSched, live: QueueSched): QueueSched {
    live.(scheduler := profile.scheduler)
  }

  function TakeIntelGpu(profile: IntelGpu, live: IntelGpu): IntelGpu {
    live.(frequency := profile.frequency, boostFrequency := profile.boostFrequency)
  }

  function TakeAmdGpu(profile: AmdGpu, live: AmdGpu): AmdGpu {
    live.(dpmForcePerfLevel := profile.dpmForcePerfLevel, powerDpmState := profile.powerDpmState)
  }

  /** Element by element over lists of the same length. */
  function Zipped<T>(take: (T, T) -> T, profile: seq<T>, live: seq<T>): (r: seq<T>)
    requires |profile| == |live|
    ensures |r| == |live|
  {
    seq(|live|, i requires 0 <= i < |live| => take(profile[i], live[i]))
  }

  function MergeLinux(profile: LinuxData, live: LinuxData): LinuxData
    requires |profile.threadData| == |live.threadData|
  {
    profile.(blockDevicesQueSched := Merged(TakeQueue, profile.blockDevicesQueSched, live.blockDevicesQueSched),
             intelGpuData := Merged(TakeIntelGpu, profile.intelGpuData, live.intelGpuData),
             amdGpuData := Merged(TakeAmdGpu, profile.amdGpuData, live.amdGpuData),
             threadData := Zipped((p: LinuxThread, l: LinuxThread) => p.(live := l.live), profile.threadData,
                                  live.threadData),
             live := live.live)
  }

  function MergeIntel(profile: IntelData, live: IntelData): IntelData
    requires |profile.coreData| == |live.coreData| && |profile.threadData| == |live.threadData|
  {
    profile.(threadData := Zipped((p: IntelThread, l: IntelThread) => p.(live := l.live), profile.threadData,
                                  live.threadData))
  }

  function MergeAMD(profile: AMDData, live: AMDData): AMDData
    requires |profile.coreData| == |live.coreData| && |profile.threadData| == |live.threadData|
  {
    profile.(threadData := Zipped((p: AMDThread, l: AMDThread) => p.(live := l.live), profile.threadData,
                                  live.threadData),
             curveOptimizer := live.curveOptimizer, pstateCurrentLimit := live.pstateCurrentLimit)
  }

  /** Block devices of the live packet with the profile's scheduler. */
  ghost predicate QueuesTaken(profile: map<string, QueueSched>, live: map<string, QueueSched>,
                              m: map<string, QueueSched>)
  {
    && m.Keys == live.Keys
    && (forall k :: k in m ==>
          m[k] == QueueSched((if k in profile then profile[k] else live[k]).scheduler, live[k].live))
  }

  /** Intel GPUs of the live packet with the profile's frequencies. */
  ghost predicate IntelGpusTaken(profile: map<Card, IntelGpu>, live: map<Card, IntelGpu>, m: map<Card, IntelGpu>) {
    && m.Keys == live.Keys
    && (forall k :: k in m ==>
          var from := if k in profile then profile[k] else live[k];
          m[k] == IntelGpu(from.frequency, from.boostFrequency, live[k].live))
  }

  /** AMD GPUs of the live packet with the profile's level and state. */
  ghost predicate AmdGpusTaken(profile: map<Card, AmdGpu>, live: map<Card, AmdGpu>, m: map<Card, AmdGpu>) {
    && m.Keys == live.Keys
    && (forall k :: k in m ==>
          var from := if k in profile then profile[k] else live[k];
          m[k] == AmdGpu(from.dpmForcePerfLevel, from.powerDpmState, live[k].live))
  }

  /** What a merged Linux part shows: the profile's settings, for the devices of the live packet, and everything
      else as it was. */
  ghost predicate LinuxTaken(profile: LinuxData, live: LinuxData, m: LinuxData)
    requires |profile.threadData| == |live.threadData|
  {
    && m.smtState == profile.smtState && m.cpuIdleGovernor == profile.cpuIdleGovernor
    && m.miscPMDevices == profile.miscPMDevices && m.live == live.live
    && QueuesTaken(profile.blockDevicesQueSched, live.blockDevicesQueSched, m.blockDevicesQueSched)
    && IntelGpusTaken(profile.intelGpuData, live.intelGpuData, m.intelGpuData)
    && AmdGpusTaken(profile.amdGpuData, live.amdGpuData, m.amdGpuData)
    && |m.threadData| == |live.threadData|
    && (forall i :: 0 <= i < |m.threadData| ==>
          var from := profile.threadData[i];
          m.threadData[i] == LinuxThread(from.cpuFrequency, from.scalingGovernor, from.cpuOnlineStatus,
                                         live.threadData[i].live))
  }

  /** A merged Intel part: the profile's sixteen package fields, cores and thread requests. */
  ghost predicate IntelTaken(profile: IntelData, live: IntelData, m: IntelData)
    requires |profile.coreData| == |live.coreData| && |profile.threadData| == |live.threadData|
  {
    && m.(threadData := profile.threadData) == profile
    && |m.threadData| == |live.threadData|
    && (forall i :: 0 <= i < |m.threadData| ==>
          m.threadData[i] == IntelThread(profile.threadData[i].hwpRequest, live.threadData[i].live))
  }

  /** A merged AMD part: the same, but what a profile does not hold is the live packet's. */
  ghost predicate AMDTaken(profile: AMDData, live: AMDData, m: AMDData)
    requires |profile.coreData| == |live.coreData| && |profile.threadData| == |live.threadData|
  {
    && m.curveOptimizer == live.curveOptimizer && m.pstateCurrentLimit == live.pstateCurrentLimit
    && m.(threadData := profile.threadData, curveOptimizer := profile.curveOptimizer,
          pstateCurrentLimit := profile.pstateCurrentLimit) == profile
    && |m.threadData| == |live.threadData|
    && (forall i :: 0 <= i < |m.threadData| ==>
          var from := profile.threadData[i];
          m.threadData[i] == AMDThread(from.cppcRequest, from.pstateCmd, from.corePerfBoost, live.threadData[i].live))
  }

  lemma MergedDevices<K, V>(take: (V, V) -> V, profile: map<K, V>, live: map<K, V>, m: map<K, V>)
    ensures m == Merged(take, profile, live) <==>
      m.Keys == live.Keys && forall k :: k in m ==> m[k] == if k in profile then take(profile[k], live[k]) else live[k]
  {
    var merged := Merged(take, profile, live);
    if m.Keys == live.Keys
       && forall k :: k in m ==> m[k] == if k in profile then take(profile[k], live[k]) else live[k]
    {
      assert forall k :: k in m ==> m[k] == merged[k];
      assert m == merged;
    }
  }

  lemma DevicesIff(profile: LinuxData, live: LinuxData, m: LinuxData)
    ensures QueuesTaken(profile.blockDevicesQueSched, live.blockDevicesQueSched, m.blockDevicesQueSched) <==>
            m.blockDevicesQueSched == Merged(TakeQueue, profile.blockDevicesQueSched, live.blockDevicesQueSched)
    ensures IntelGpusTaken(profile.intelGpuData, live.intelGpuData, m.intelGpuData) <==>
            m.intelGpuData == Merged(TakeIntelGpu, profile.intelGpuData, live.intelGpuData)
    ensures AmdGpusTaken(profile.amdGpuData, live.amdGpuData, m.amdGpuData) <==>
            m.amdGpuData == Merged(TakeAmdGpu, profile.amdGpuData, live.amdGpuData)
  {
    MergedDevices(TakeQueue, profile.blockDevicesQueSched, live.blockDevicesQueSched, m.blockDevicesQueSched);
    MergedDevices(TakeIntelGpu, profile.intelGpuData, live.intelGpuData, m.intelGpuData);
    MergedDevices(TakeAmdGpu, profile.amdGpuData, live.amdGpuData, m.amdGpuData);
    hide Merged;
  }

  lemma MergeLinuxIff(profile: LinuxData, live: LinuxData, m: LinuxData)
    requires |profile.threadData| == |live.threadData|
    ensures LinuxTaken(profile, live, m) <==> m == MergeLinux(profile, live)
  {
    DevicesIff(profile, live, m);
    hide Merged, QueuesTaken, IntelGpusTaken, AmdGpusTaken;
    if LinuxTaken(profile, live, m) {
      assert m.threadData == MergeLinux(profile, live).threadData;
    }
  }

  lemma MergeIntelIff(profile: IntelData, live: IntelData, m: IntelData)
    requires |profile.coreData| == |live.coreData| && |profile.threadData| == |live.threadData|
    ensures IntelTaken(profile, live, m) <==> m == MergeIntel(profile, live)
  {
    var merged := MergeIntel(profile, live);
    if IntelTaken(profile, live, m) {
      assert m.threadData == merged.threadData;
      assert m == profile.(threadData := m.threadData);
    }
  }

  lemma MergeAMDIff(profile: AMDData, live: AMDData, m: AMDData)
    requires |profile.coreData| == |live.coreData| && |profile.threadData| == |live.threadData|
    ensures AMDTaken(profile, live, m) <==> m == MergeAMD(profile, live)
  {
    var merged := MergeAMD(profile, live);
    if AMDTaken(profile, live, m) {
      assert m.threadData == merged.threadData;
      assert m == profile.(threadData := m.threadData, curveOptimizer := m.curveOptimizer,
                           pstateCurrentLimit := m.pstateCurrentLimit);
    }
  }

  /** What a packet shows after a profile was loaded over it. */
  ghost predicate ProfileShown(v: CPUVendor, profile: PacketData, live: PacketData, m: PacketData)
    requires HasVendorData(v, profile) && HasVendorData(v, live) && SameCounts(v, profile, live)
  {
    && m.fanData == profile.fanData
    && LinuxTaken(profile.linuxData, live.linuxData, m.linuxData)
    && (if v.Intel?
        then m.intelData.Some? && IntelTaken(profile.intelData.value, live.intelData.value, m.intelData.value)
        else m.intelData == live.intelData)
    && (if v.AMD?
        then
          && m.amdData.Some? && AMDTaken(profile.amdData.value, live.amdData.value, m.amdData.value)
          && m.linuxAmdData == profile.linuxAmdData
        else m.amdData == live.amdData && m.linuxAmdData == live.linuxAmdData)
  }

  lemma MergeAllIff(v: CPUVendor, profile: PacketData, live: PacketData, m: PacketData)
    requires HasVendorData(v, profile) && HasVendorData(v, live) && SameCounts(v, profile, live)
    ensures ProfileShown(v, profile, live, m) <==> m == MergeAll(v, profile, live)
  {
    hide LinuxTaken, IntelTaken, AMDTaken, MergeLinux, MergeIntel, MergeAMD;
    MergeLinuxIff(profile.linuxData, live.linuxData, m.linuxData);
    match v {
      case Intel => if m.intelData.Some? {
        MergeIntelIff(profile.intelData.value, live.intelData.value, m.intelData.value);
      }
      case AMD => if m.amdData.Some? {
        MergeAMDIff(profile.amdData.value, live.amdData.value, m.amdData.value);
      }
      case Unknown =>
    }
  }

  predicate LinuxCountsMatch(profile: PacketData, live: PacketData) {
    |profile.linuxData.threadData| == |live.linuxData.threadData|
  }

  predicate IntelCountsMatch(profile: PacketData, live: PacketData)
    requires HasVendorData(Intel, profile) && HasVendorData(Intel, live)
  {
    && |profile.intelData.value.coreData| == |live.intelData.value.coreData|
    && |profile.intelData.value.threadData| == |live.intelData.value.threadData|
  }

  predicate AMDCountsMatch(profile: PacketData, live: PacketData)
    requires HasVendorData(AMD, profile) && HasVendorData(AMD, live)
  {
    && |profile.amdData.value.coreData| == |live.amdData.value.coreData|
    && |profile.amdData.value.threadData| == |live.amdData.value.threadData|
  }

  predicate LinuxAMDCountsMatch(profile: PacketData, live: PacketData)
    requires HasVendorData(AMD, profile) && HasVendorData(AMD, live)
  {
    |profile.linuxAmdData.value.threadData| == |live.linuxAmdData.value.threadData|
  }

  /** The profile was made on a device with as many cores and threads. */
  predicate SameCounts(v: CPUVendor, profile: PacketData, live: PacketData)
    requires HasVendorData(v, profile) && HasVendorData(v, live)
  {
    && LinuxCountsMatch(profile, live)
    && (v.Intel? ==> IntelCountsMatch(profile, live))
    && (v.AMD? ==> AMDCountsMatch(profile, live) && LinuxAMDCountsMatch(profile, live))
  }

  function MergeAll(v: CPUVendor, profile: PacketData, live: PacketData): PacketData
    requires HasVendorData(v, profile) && HasVendorData(v, live) && SameCounts(v, profile, live)
  {
    live.(linuxData := MergeLinux(profile.linuxData, live.linuxData),
          fanData := profile.fanData,
          intelData := if v.Intel? then Some(MergeIntel(profile.intelData.value, live.intelData.value))
                       else live.intelData,
          amdData := if v.AMD? then Some(MergeAMD(profile.amdData.value, live.amdData.value)) else live.amdData,
          linuxAmdData := if v.AMD? then profile.linuxAmdData else live.linuxAmdData)
  }

  /** Merging a profile made from exactly this packet changes nothing, although the profile holds
      only the saved fields. */
  lemma MergeSavedIsIdentity(c: Codecs, v: CPUVendor, p: PacketData)
    requires HasVendorData(v, p)
    ensures HasVendorData(v, Saved(c, v, p)) && SameCounts(v, Saved(c, v, p), p)
    ensures MergeAll(v, Saved(c, v, p), p) == p
  {
    var s := Saved(c, v, p);
    assert MergeLinux(s.linuxData, p.linuxData) == p.linuxData;
    match v {
      case Intel => assert MergeIntel(s.intelData.value, p.intelData.value) == p.intelData.value;
      case AMD =>
        assert MergeAMD(s.amdData.value, p.amdData.value) == p.amdData.value;
        assert s.linuxAmdData.value.threadData == p.linuxAmdData.value.threadData;
      case Unknown =>
    }
  }

  /** Loading a profile a second time changes nothing more. */
  lemma MergeTwice(v: CPUVendor, profile: PacketData, live: PacketData)
    requires HasVendorData(v, profile) && HasVendorData(v, live) && SameCounts(v, profile, live)
    ensures SameCounts(v, profile, MergeAll(v, profile, live))
    ensures MergeAll(v, profile, MergeAll(v, profile, live)) == MergeAll(v, profile, live)
  {
    var m := MergeAll(v, profile, live);
    assert MergeLinux(profile.linuxData, m.linuxData) == m.linuxData;
    match v {
      case Intel => assert MergeIntel(profile.intelData.value, m.intelData.value) == m.intelData.value;
      case AMD => assert MergeAMD(profile.amdData.value, m.amdData.value) == m.amdData.value;
      case Unknown =>
    }
  }

  // ---------- the manager ----------

  /** A packet whose parts are assigned in place. */
  class Packet {
    var linuxData: LinuxData
    var fanData: Fans
    var intelData: Option<IntelData>
    var amdData: Option<AMDData>
    var linuxAmdData: Option<LinuxAMDData>

    constructor (p: PacketData)
      ensures Data() == p
    {
      linuxData, fanData := p.linuxData, p.fanData;
      intelData, amdData, linuxAmdData := p.intelData, p.amdData, p.linuxAmdData;
    }

    function Data(): PacketData
      reads this
    {
      PacketData(linuxData, fanData, intelData, amdData, linuxAmdData)
    }
  }

  class ProfileDiskManager {
    const codecs: Codecs
    const cpuVendor: CPUVendor
    const deviceHash: bytes
    const sha256: bytes -> bytes
    /** Whether the profiles folder is there. */
    const available: bool
    var files: map<string, bytes>

    constructor (codecs: Codecs, cpuVendor: CPUVendor, deviceHash: bytes, sha256: bytes -> bytes, available: bool,
                 files: map<string, bytes>)
      ensures this.codecs == codecs && this.cpuVendor == cpuVendor && this.deviceHash == deviceHash
      ensures this.sha256 == sha256 && this.available == available && this.files == files
    {
      this.codecs, this.cpuVendor, this.deviceHash, this.sha256 := codecs, cpuVendor, deviceHash, sha256;
      this.available, this.files := available, files;
    }

    predicate Accepts(f: File) {
      f.signature == SIGNATURE && f.version <= FILE_VERSION && f.hash == deviceHash && f.checksum == sha256(f.data)
    }

    function ProfileOf(data: bytes): File {
      File(SIGNATURE, FILE_VERSION, deviceHash, sha256(data), data)
    }

    /** The profile a file yields: none when the file is not accepted here or holds no data. */
    function ReadFile(b: bytes): Option<PacketData> {
      var f := ParseFile(b);
      if Accepts(f) && f.data != [] then Some(GetDisk(codecs, cpuVendor, f.data)) else None
    }

    function ReadName(name: string): Option<PacketData>
      reads this`files
    {
      if available && name in files then ReadFile(files[name]) else None
    }

    ghost predicate Encodable(p: PacketData) {
      && LawfulCodecs(codecs) && HasVendorData(cpuVendor, p) && Sized(p)
      && FileSized(ProfileOf(PutDisk(codecs, cpuVendor, p)))
    }

    function FileOf(p: PacketData): bytes
      requires HasVendorData(cpuVendor, p)
    {
      PrintFile(ProfileOf(PutDisk(codecs, cpuVendor, p)))
    }

    /** The round trip: the file printed for a packet is accepted on this device and yields exactly
        the saved fields, for any number of cores and threads. */
    lemma ProfileRoundTrip(p: PacketData)
      requires Encodable(p)
      ensures ReadFile(FileOf(p)) == Some(Saved(codecs, cpuVendor, p))
    {
      hide PutDisk, GetDisk, Saved, LawfulCodecs, PrintFile, ParseFile, FileSized, Sized;
      DiskReadsBack(codecs, cpuVendor, p);
      DiskNotEmpty(codecs, cpuVendor, p);
      FileReadsBack(ProfileOf(PutDisk(codecs, cpuVendor, p)));
    }

    /** Of all files printed with any header around any data, exactly these are accepted: right
        signature, no later version, this device, and a checksum that matches the data. */
    lemma AcceptedIff(f: File)
      requires FileSized(f)
      ensures ReadFile(PrintFile(f)).Some? <==>
              f.signature == [80, 87, 84, 80, 70] && f.version <= 1 && f.hash == deviceHash
              && f.checksum == sha256(f.data) && f.data != []
    {
      hide PrintFile, ParseFile, GetDisk;
      FileReadsBack(f);
    }

    method CreateProfileFromPacket(packet: PacketData) returns (file: bytes)
      requires HasVendorData(cpuVendor, packet)
      ensures file == FileOf(packet)
      ensures var data := PutDisk(codecs, cpuVendor, packet);
        file == PutString([80, 87, 84, 80, 70]) + PutI32(1) + PutBytes(deviceHash) + PutBytes(sha256(data))
                + PutBytes(data)
    {
      FileLayout(ProfileOf(PutDisk(codecs, cpuVendor, packet)));
      hide Cat, PutLinux, PutFans, PutIntel, PutAMD, PutLinuxAMD, PutString, PutI32, PutBytes;
      var ds := new OutStream();
      SerializeLinuxData(ds, codecs, packet.linuxData);
      SerializeFanData(ds, codecs, packet.fanData);
      match cpuVendor {
        case Intel => SerializeIntelData(ds, codecs, packet.intelData.value);
        case AMD =>
          SerializeAMDData(ds, codecs, packet.amdData.value);
          SerializeLinuxAMDData(ds, codecs, packet.linuxAmdData.value);
        case Unknown =>
      }
      var data := ds.buf;
      assert data == PutDisk(codecs, cpuVendor, packet) by {
        CatEmpty(data);
        CatEmpty(PutDisk(codecs, cpuVendor, packet));
        assert Cat(data, []) == Cat([], PutDisk(codecs, cpuVendor, packet));
      }
      var fds := new OutStream();
      fds.Write(PutString(SIGNATURE));
      fds.Write(PutI32(FILE_VERSION));
      fds.Write(PutBytes(deviceHash));
      fds.Write(PutBytes(sha256(data)));
      fds.Write(PutBytes(data));
      file := fds.buf;
      assert file == FileOf(packet) by {
        CatEmpty(file);
        CatEmpty(FileOf(packet));
        CatEmpty(PutBytes(data));
        assert Cat(file, []) == Cat([], FileOf(packet));
      }
    }

    /** Reads the file step by step and gives up with no data at the first mismatch. */
    method GetProfileData(name: string) returns (data: bytes)
      ensures data == if name in files && Accepts(ParseFile(files[name])) then ParseFile(files[name]).data else []
    {
      hide GetString, GetI32, GetBytes;
      if name !in files { return []; }
      var ds := new InStream(files[name]);
      var signature := ds.ReadString();
      if signature != SIGNATURE { return []; }
      var version := ds.ReadI32();
      if version > FILE_VERSION { return []; }
      var hash := ds.ReadBytes();
      if hash != deviceHash { return []; }
      var checksum := ds.ReadBytes();
      data := ds.ReadBytes();
      if checksum != sha256(data) { return []; }
    }

    method GetDiskData(data: bytes) returns (d: PacketData)
      ensures d == GetDisk(codecs, cpuVendor, data)
    {
      hide GetLinux, GetFans, GetIntel, GetAMD, GetLinuxAMD;
      var ds := new InStream(data);
      var linuxD := DeserializeLinuxData(ds, codecs);
      var fanD := DeserializeFanData(ds, codecs);
      match cpuVendor {
        case Intel =>
          var intelD := DeserializeIntelData(ds, codecs);
          d := PacketData(linuxD, fanD, Some(intelD), None, None);
        case AMD =>
          var amdD := DeserializeAMDData(ds, codecs);
          var linuxAmdD := DeserializeLinuxAMDData(ds, codecs);
          d := PacketData(linuxD, fanD, None, Some(amdD), Some(linuxAmdD));
        case Unknown =>
          d := PacketData(linuxD, fanD, None, None, None);
      }
    }

    /** Writing a whole file succeeds or leaves the folder as it was. */
    method Save(name: string, packet: PacketData, diskOk: bool) returns (ok: bool)
      requires HasVendorData(cpuVendor, packet)
      modifies this`files
      ensures ok == (available && diskOk)
      ensures files == if ok then old(files)[name := FileOf(packet)] else old(files)
    {
      if !available { return false; }
      var file := CreateProfileFromPacket(packet);
      if !diskOk { return false; }
      files := files[name := file];
      ok := true;
    }

    /** For applying: the packet becomes what the file yields, or stays as it was. */
    method Load(name: string, packet: Packet) returns (ok: bool)
      modifies packet
      ensures ok == ReadName(name).Some?
      ensures packet.Data() == if ok then ReadName(name).value else old(packet.Data())
    {
      hide ParseFile, GetDisk;
      if !available { return false; }
      var data := GetProfileData(name);
      if data == [] { return false; }
      var profile := GetDiskData(data);
      packet.linuxData := profile.linuxData;
      packet.intelData := profile.intelData;
      packet.amdData := profile.amdData;
      packet.linuxAmdData := profile.linuxAmdData;
      packet.fanData := profile.fanData;
      ok := true;
    }

    /** A saved profile is what a later load applies, as long as nothing else is written under its name. */
    lemma LoadAfterSave(name: string, p: PacketData)
      requires available && Encodable(p) && name in files && files[name] == FileOf(p)
      ensures ReadName(name) == Some(Saved(codecs, cpuVendor, p))
    {
      hide FileOf, ReadFile, Saved, Encodable;
      ProfileRoundTrip(p);
    }

    /** For display: the profile's fields over the live packet. A profile from a device with other counts
        is refused, but by then the fan data, and for a later count other parts, are already replaced:
        the packet is as before exactly when it already held what was replaced. */
    method LoadForDisplay(name: string, packet: Packet) returns (ok: bool)
      requires HasVendorData(cpuVendor, packet.Data())
      modifies packet
      ensures ok <==> ReadName(name).Some? && SameCounts(cpuVendor, ReadName(name).value, old(packet.Data()))
      ensures ok ==> ProfileShown(cpuVendor, ReadName(name).value, old(packet.Data()), packet.Data())
      ensures ok ==> packet.Data() == MergeAll(cpuVendor, ReadName(name).value, old(packet.Data()))
      ensures ReadName(name).None? ==> packet.Data() == old(packet.Data())
      ensures ReadName(name).Some? && !ok ==>
        (PartlyLoaded(ReadName(name).value, old(packet.Data()), packet.Data())
         && (packet.Data() == old(packet.Data()) <==> AlreadyHeld(ReadName(name).value, old(packet.Data()))))
    {
      hide ParseFile, GetDisk, MergeLinux, MergeIntel, MergeAMD, LinuxTaken, IntelTaken, AMDTaken, ProfileShown;
      ghost var live := packet.Data();
      if !available { return false; }
      var data := GetProfileData(name);
      if data == [] { return false; }
      var profile := GetDiskData(data);
      packet.fanData := profile.fanData;
      if |profile.linuxData.threadData| != |packet.linuxData.threadData| { return false; }
      LoadLinuxProfileToDaemonPacket(profile.linuxData, packet);
      match cpuVendor {
        case Intel =>
          if |profile.intelData.value.coreData| != |packet.intelData.value.coreData| { return false; }
          if |profile.intelData.value.threadData| != |packet.intelData.value.threadData| { return false; }
          LoadIntelProfileToDaemonPacket(profile.intelData.value, packet);
        case AMD =>
          if |profile.amdData.value.coreData| != |packet.amdData.value.coreData| { return false; }
          if |profile.amdData.value.threadData| != |packet.amdData.value.threadData| { return false; }
          LoadAMDProfileToDaemonPacket(profile.amdData.value, packet);
          if |profile.linuxAmdData.value.threadData| != |packet.linuxAmdData.value.threadData| { return false; }
          LoadLinuxAMDProfileToDaemonPacket(profile.linuxAmdData.value, packet);
        case Unknown =>
      }
      ok := true;
      MergeAllIff(cpuVendor, profile, live, packet.Data());
    }

    /** What a refused profile leaves behind. */
    ghost predicate PartlyLoaded(profile: PacketData, before: PacketData, after: PacketData)
      requires HasVendorData(cpuVendor, profile) && HasVendorData(cpuVendor, before)
    {
      && after.fanData == profile.fanData
      && after.intelData == before.intelData
      && after.linuxAmdData == before.linuxAmdData
      && (if !LinuxCountsMatch(profile, before)
          then after.linuxData == before.linuxData && after.amdData == before.amdData
          else
            && after.linuxData == MergeLinux(profile.linuxData, before.linuxData)
            && after.amdData == if cpuVendor.AMD? && AMDCountsMatch(profile, before)
                                then Some(MergeAMD(profile.amdData.value, before.amdData.value)) else before.amdData)
    }

    /** The parts that a refused profile replaces are the same in the packet already. */
    ghost predicate AlreadyHeld(profile: PacketData, before: PacketData)
      requires HasVendorData(cpuVendor, profile) && HasVendorData(cpuVendor, before)
    {
      && before.fanData == profile.fanData
      && (LinuxCountsMatch(profile, before) ==> before.linuxData == MergeLinux(profile.linuxData, before.linuxData))
      && (cpuVendor.AMD? && LinuxCountsMatch(profile, before) && AMDCountsMatch(profile, before) ==>
            before.amdData == Some(MergeAMD(profile.amdData.value, before.amdData.value)))
    }

    /** For every manager there is an accepted file and a live packet that the refusal changes: one thread
        more than the profile has, and other fans. */
    lemma RefusalChangesSomePacket() returns (file: bytes, live: PacketData)
      requires |deviceHash| < HALF64 && |sha256([0])| < HALF64
      ensures HasVendorData(cpuVendor, live) && ReadFile(file).Some?
      ensures !SameCounts(cpuVendor, ReadFile(file).value, live) && !AlreadyHeld(ReadFile(file).value, live)
    {
      hide PrintFile, ParseFile, GetDisk;
      var f := ProfileOf([0]);
      file := PrintFile(f);
      FileReadsBack(f);
      var profile := GetDisk(codecs, cpuVendor, [0]);
      assert ReadFile(file) == Some(profile);
      var threads := profile.linuxData.threadData + [LinuxThread(NOTHING, NOTHING, NOTHING, NOTHING)];
      var fans: Fans := if profile.fanData == map[] then map["fan" := NOTHING] else map[];
      live := profile.(linuxData := profile.linuxData.(threadData := threads), fanData := fans);
      assert "fan" in map["fan" := NOTHING];
    }

    /** Saving the packet on display and loading it again shows the same packet: the saved fields come
        from the file, all others were kept. */
    lemma SavingWhatIsShownChangesNothing(p: PacketData)
      requires Encodable(p)
      ensures ReadFile(FileOf(p)).Some? && SameCounts(cpuVendor, ReadFile(FileOf(p)).value, p)
      ensures MergeAll(cpuVendor, ReadFile(FileOf(p)).value, p) == p
    {
      hide FileOf, ReadFile, MergeAll, SameCounts, Saved;
      ProfileRoundTrip(p);
      MergeSavedIsIdentity(codecs, cpuVendor, p);
    }
  }

  // ---------- merging in place ----------

  method MergeDevices<K, V>(take: (V, V) -> V, profile: map<K, V>, live: map<K, V>) returns (r: map<K, V>)
    ensures r == Merged(take, profile, live)
  {
    r := live;
    var todo := profile.Keys;
    while todo != {}
      invariant todo <= profile.Keys && r.Keys == live.Keys
      invariant forall k :: k in live ==>
        r[k] == if k in profile && k !in todo then take(profile[k], live[k]) else live[k]
      decreases |todo|
    {
      var k :| k in todo;
      todo := todo - {k};
      if k in r {
        r := r[k := take(profile[k], r[k])];
      }
    }
  }

  method LoadLinuxProfileToDaemonPacket(profile: LinuxData, packet: Packet)
    requires |profile.threadData| == |packet.linuxData.threadData|
    modifies packet`linuxData
    ensures packet.linuxData == MergeLinux(profile, old(packet.linuxData))
    ensures LinuxTaken(profile, old(packet.linuxData), packet.linuxData)
  {
    var d := packet.linuxData;
    ghost var live := d;
    d := d.(smtState := profile.smtState, cpuIdleGovernor := profile.cpuIdleGovernor,
            miscPMDevices := profile.miscPMDevices);
    var queues := MergeDevices(TakeQueue, profile.blockDevicesQueSched, d.blockDevicesQueSched);
    var intelGpus := MergeDevices(TakeIntelGpu, profile.intelGpuData, d.intelGpuData);
    var amdGpus := MergeDevices(TakeAmdGpu, profile.amdGpuData, d.amdGpuData);
    var threads := d.threadData;
    for i := 0 to |profile.threadData|
      invariant |threads| == |live.threadData|
      invariant forall k :: 0 <= k < i ==> threads[k] == profile.threadData[k].(live := live.threadData[k].live)
      invariant forall k :: i <= k < |threads| ==> threads[k] == live.threadData[k]
    {
      threads := threads[i := threads[i].(cpuFrequency := profile.threadData[i].cpuFrequency,
                                          scalingGovernor := profile.threadData[i].scalingGovernor,
                                          cpuOnlineStatus := profile.threadData[i].cpuOnlineStatus)];
    }
    assert threads == MergeLinux(profile, live).threadData;
    packet.linuxData := d.(blockDevicesQueSched := queues, intelGpuData := intelGpus, amdGpuData := amdGpus,
                           threadData := threads);
    hide LinuxTaken;
    MergeLinuxIff(profile, live, packet.linuxData);
  }

  method LoadIntelProfileToDaemonPacket(profile: IntelData, packet: Packet)
    requires packet.intelData.Some?
    requires |profile.coreData| == |packet.intelData.value.coreData|
    requires |profile.threadData| == |packet.intelData.value.threadData|
    modifies packet`intelData
    ensures packet.intelData == Some(MergeIntel(profile, old(packet.intelData.value)))
    ensures IntelTaken(profile, old(packet.intelData.value), packet.intelData.value)
  {
    var d := packet.intelData.value;
    ghost var live := d;
    d := d.(
      pkgPowerLimit := profile.pkgPowerLimit, vrCurrentCfg := profile.vrCurrentCfg,
      pp1CurrentCfg := profile.pp1CurrentCfg, turboPowerCurrentLimit := profile.turboPowerCurrentLimit,
      turboRatioLimit := profile.turboRatioLimit, miscProcFeatures := profile.miscProcFeatures,
      powerCtl := profile.powerCtl, miscPwrMgmt := profile.miscPwrMgmt, hwpRequestPkg := profile.hwpRequestPkg,
      undervoltData := profile.undervoltData, pp0Priority := profile.pp0Priority,
      pp1Priority := profile.pp1Priority, energyPerfBias := profile.energyPerfBias, hwpEnable := profile.hwpEnable,
      hwpPkgCtlPolarity := profile.hwpPkgCtlPolarity, mchbarPkgRaplLimit := profile.mchbarPkgRaplLimit);
    var cores := d.coreData;
    for i := 0 to |profile.coreData|
      invariant |cores| == |live.coreData|
      invariant forall k :: 0 <= k < i ==> cores[k] == profile.coreData[k]
    {
      cores := cores[i := cores[i].(pkgCstConfigControl := profile.coreData[i].pkgCstConfigControl)];
    }
    var threads := d.threadData;
    for i := 0 to |profile.threadData|
      invariant |threads| == |live.threadData|
      invariant forall k :: 0 <= k < i ==> threads[k] == profile.threadData[k].(live := live.threadData[k].live)
      invariant forall k :: i <= k < |threads| ==> threads[k] == live.threadData[k]
    {
      threads := threads[i := threads[i].(hwpRequest := profile.threadData[i].hwpRequest)];
    }
    assert cores == profile.coreData;
    assert threads == MergeIntel(profile, live).threadData;
    packet.intelData := Some(d.(coreData := cores, threadData := threads));
    hide IntelTaken;
    MergeIntelIff(profile, live, packet.intelData.value);
  }

  method LoadAMDProfileToDaemonPacket(profile: AMDData, packet: Packet)
    requires packet.amdData.Some?
    requires |profile.coreData| == |packet.amdData.value.coreData|
    requires |profile.threadData| == |packet.amdData.value.threadData|
    modifies packet`amdData
    ensures packet.amdData == Some(MergeAMD(profile, old(packet.amdData.value)))
    ensures AMDTaken(profile, old(packet.amdData.value), packet.amdData.value)
  {
    var d := packet.amdData.value;
    ghost var live := d;
    d := d.(
      stapmLimit := profile.stapmLimit, fastLimit := profile.fastLimit, slowLimit := profile.slowLimit,
      tctlTemp := profile.tctlTemp, apuSlow := profile.apuSlow, apuSkinTemp := profile.apuSkinTemp,
      dgpuSkinTemp := profile.dgpuSkinTemp, vrmCurrent := profile.vrmCurrent,
      vrmSocCurrent := profile.vrmSocCurrent, vrmMaxCurrent := profile.vrmMaxCurrent,
      vrmSocMaxCurrent := profile.vrmSocMaxCurrent, staticGfxClock := profile.staticGfxClock,
      minGfxClock := profile.minGfxClock, maxGfxClock := profile.maxGfxClock, powerProfile := profile.powerProfile,
      cppcEnableBit := profile.cppcEnableBit);
    var cores := d.coreData;
    for i := 0 to |profile.coreData|
      invariant |cores| == |live.coreData|
      invariant forall k :: 0 <= k < i ==> cores[k] == profile.coreData[k]
    {
      cores := cores[i := cores[i].(curveOptimizer := profile.coreData[i].curveOptimizer)];
    }
    var threads := d.threadData;
    for i := 0 to |profile.threadData|
      invariant |threads| == |live.threadData|
      invariant forall k :: 0 <= k < i ==> threads[k] == profile.threadData[k].(live := live.threadData[k].live)
      invariant forall k :: i <= k < |threads| ==> threads[k] == live.threadData[k]
    {
      threads := threads[i := threads[i].(cppcRequest := profile.threadData[i].cppcRequest,
                                          pstateCmd := profile.threadData[i].pstateCmd,
                                          corePerfBoost := profile.threadData[i].corePerfBoost)];
    }
    assert cores == profile.coreData;
    assert threads == MergeAMD(profile, live).threadData;
    packet.amdData := Some(d.(coreData := cores, threadData := threads));
    hide AMDTaken;
    MergeAMDIff(profile, live, packet.amdData.value);
  }

  method LoadLinuxAMDProfileToDaemonPacket(profile: LinuxAMDData, packet: Packet)
    requires packet.linuxAmdData.Some? && |profile.threadData| == |packet.linuxAmdData.value.threadData|
    modifies packet`linuxAmdData
    ensures packet.linuxAmdData == Some(profile)
  {
    var threads := packet.linuxAmdData.value.threadData;
    for i := 0 to |profile.threadData|
      invariant |threads| == |profile.threadData|
      invariant forall k :: 0 <= k < i ==> threads[k] == profile.threadData[k]
    {
      threads := threads[i := threads[i].(epp := profile.threadData[i].epp)];
    }
    assert threads == profile.threadData;
    var d := packet.linuxAmdData.value;
    packet.linuxAmdData := Some(d.(pstateStatus := profile.pstateStatus, threadData := threads));
  }
}
