/** The daemon's event handlers: apply timer, last good packet, active profile
    (src/Service/DaemonService.cpp). What the hardware, the profile files and the settings parser
    answer is a parameter of every event. */
module DaemonService {
  import opened Basics

  datatype ClientPacket = ClientPacket(os: int, vendor: int, hasError: bool, content: int)

  datatype DCMD =
    | GET_DEVICE_INFO_PACKET | GET_DAEMON_PACKET | APPLY_CLIENT_SETTINGS | APPLY_PROFILE | WRITE_PROFILE
    | DELETE_PROFILE | LOAD_PROFILE | GET_PROFILE_LIST | EXPORT_PROFILES | IMPORT_PROFILES
    | GET_DAEMON_SETTS | APPLY_DAEMON_SETT | APPLY_TIMER | BATTERY_STATUS_CHANGED | SYS_WAKE_FROM_SLEEP
    | OTHER(code: int)

  datatype DError = INVALID_ARGS | INVALID_PACKET | INVALID_DCMD | CORRUPTED_DATA | PROFILE_LOAD_FAILED

  /** A value of the message list. */
  datatype Arg =
    | Cmd(cmd: DCMD) | Packet(packet: ClientPacket) | Text(text: string) | Bytes(bytes: seq<int>) | Flag(b: bool)

  datatype Settings = Settings(
    applyInterval: int, address: string, port: int, onStartProfile: string, onBatteryProfile: string,
    onPowerSupplyProfile: string, ignoreBatteryEvent: bool, applyOnWakeFromSleep: bool)

  datatype Timer = NoTimer | Timer(interval: int, running: bool)

  /** Signals to the network worker. */
  datatype Signal =
    | SendError(error: DError)
    | SendCMDFail(failed: DCMD)
    | SendApplyResult(source: DCMD, clean: bool, profile: string)
    | SendCmdResult(finished: DCMD, ok: bool)
    | SendData(query: DCMD)
    | RestartService(address: string, port: int)
    | StopService
    | ConnectService

  /** The outside world while one event is handled: the profile file behind a name, whether the hardware
      takes a packet without errors, whether import data unpacks, and whether file operations succeed. */
  datatype World = World(
    profile: string -> Option<ClientPacket>, applies: ClientPacket -> bool, unpacks: bool, fileOk: bool)

  datatype Event =
    | Command(args: seq<Arg>, world: World)
    | TimerFires(world: World)
    | Battery(onBattery: bool, world: World)
    | Sleep
    | Wake(world: World)
    | Reload(disk: Option<Settings>, world: World)

  // ---------- history of hardware applies ----------

  /** One hardware apply; `clean` when it reported no errors. */
  datatype Apply =
    | ByClient(packet: ClientPacket, clean: bool)
    | ByProfile(name: string, packet: ClientPacket, clean: bool)
    | Again(packet: ClientPacket, clean: bool)

  datatype Memory = Memory(packet: Option<ClientPacket>, profile: string)

  /** A clean apply from a client or a profile is remembered, a failed client apply makes everything
      forgotten, a failed profile apply and a re-apply change nothing. */
  function Remember(m: Memory, a: Apply): Memory {
    match a
    case ByClient(packet, clean) => Memory(if clean then Some(packet) else None, "")
    case ByProfile(name, packet, clean) => if clean then Memory(Some(packet), name) else m
    case Again(_, _) => m
  }

  function MemoryOf(history: seq<Apply>): Memory {
    if history == [] then Memory(None, "")
    else Remember(MemoryOf(history[..|history| - 1]), history[|history| - 1])
  }

  /** Every re-apply used the packet remembered at that point. */
  ghost predicate Replays(history: seq<Apply>) {
    forall i :: 0 <= i < |history| && history[i].Again? ==> MemoryOf(history[..i]).packet == Some(history[i].packet)
  }

  lemma MemorySnoc(history: seq<Apply>, a: Apply)
    requires Replays(history)
    requires a.Again? ==> MemoryOf(history).packet == Some(a.packet)
    ensures MemoryOf(history + [a]) == Remember(MemoryOf(history), a)
    ensures Replays(history + [a])
  {
    var h := history + [a];
    assert h[..|history|] == history;
    forall i | 0 <= i < |h| && h[i].Again? ensures MemoryOf(h[..i]).packet == Some(h[i].packet) {
      if i < |history| {
        assert h[..i] == history[..i];
      }
    }
  }

  /** The apply at index j came from a client or a profile, without errors, with this packet. */
  predicate CleanSource(history: seq<Apply>, j: int, packet: ClientPacket) {
    0 <= j < |history| && !history[j].Again? && history[j].clean && history[j].packet == packet
  }

  /** The remembered packet was applied without errors, every later apply was a re-apply or a failed
      profile, and the active profile is the one that clean apply came from. */
  lemma {:induction false} RememberedWasClean(history: seq<Apply>) returns (j: int)
    requires MemoryOf(history).packet.Some?
    ensures CleanSource(history, j, MemoryOf(history).packet.value)
    ensures forall k :: j < k < |history| ==> history[k].Again? || (history[k].ByProfile? && !history[k].clean)
    ensures MemoryOf(history).profile == if history[j].ByProfile? then history[j].name else ""
  {
    var n := |history| - 1;
    if history[n].Again? || (history[n].ByProfile? && !history[n].clean) {
      j := RememberedWasClean(history[..n]);
      assert history[..n][j] == history[j];
      forall k | j < k < |history| ensures history[k].Again? || (history[k].ByProfile? && !history[k].clean) {
        if k < n { assert history[..n][k] == history[k]; }
      }
    } else {
      j := n;
    }
  }

  /** Every packet applied again had earlier been applied from a client or a profile without errors. */
  lemma ReappliedWasClean(history: seq<Apply>, i: nat) returns (j: int)
    requires Replays(history) && i < |history| && history[i].Again?
    ensures j < i && CleanSource(history, j, history[i].packet)
  {
    j := RememberedWasClean(history[..i]);
    assert history[..i][j] == history[j];
  }

  /** An active profile implies a stored packet. */
  lemma {:induction false} ProfileImpliesPacket(history: seq<Apply>)
    ensures MemoryOf(history).profile != "" ==> MemoryOf(history).packet.Some?
  {
    if history != [] {
      ProfileImpliesPacket(history[..|history| - 1]);
    }
  }

  // ---------- messages ----------

  /** `toInt` of anything but a number is 0. */
  function CommandOf(a: Arg): DCMD {
    if a.Cmd? then a.cmd else OTHER(0)
  }

  function ToText(a: Arg): string {
    if a.Text? then a.text else ""
  }

  function ToBytes(a: Arg): seq<int> {
    if a.Bytes? then a.bytes else []
  }

  predicate HasValidMessageArgs(args: seq<Arg>) {
    |args| > 0 &&
    match CommandOf(args[0])
    case APPLY_CLIENT_SETTINGS => |args| >= 2
    case APPLY_PROFILE => |args| >= 2
    case DELETE_PROFILE => |args| >= 2
    case LOAD_PROFILE => |args| >= 2
    case EXPORT_PROFILES => |args| >= 2
    case IMPORT_PROFILES => |args| >= 2
    case APPLY_DAEMON_SETT => |args| >= 2
    case WRITE_PROFILE => |args| >= 3
    case GET_DAEMON_SETTS => |args| <= 1
    case _ => true
  }

  /** A valid message carrying this command. */
  predicate Carries(args: seq<Arg>, cmd: DCMD) {
    HasValidMessageArgs(args) && CommandOf(args[0]) == cmd
  }

  // ---------- the service without a timer object ----------

  /** The daemon's fixed facts. */
  datatype Config = Config(minApplyInterval: int, os: int, vendor: int, decodeSettings: seq<int> -> Option<Settings>)

  /** All that decides what the daemon will do, its settings and what it has applied so far, and all it
      has said to the network worker. */
  datatype State = State(settings: Settings, history: seq<Apply>, sent: seq<Signal>)

  predicate IsValidClientPacket(c: Config, packet: ClientPacket) {
    packet.os == c.os && packet.vendor == c.vendor
  }

  /** The message gets its packet applied. */
  predicate AppliesPacket(c: Config, args: seq<Arg>) {
    && Carries(args, APPLY_CLIENT_SETTINGS)
    && args[1].Packet? && IsValidClientPacket(c, args[1].packet) && !args[1].packet.hasError
  }

  /** Nothing for the empty name or a profile that does not load. */
  function ProfileApplies(w: World, name: string): seq<Apply> {
    match w.profile(name)
    case None => []
    case Some(packet) => [ByProfile(name, packet, w.applies(packet))]
  }

  predicate ProfileClean(w: World, name: string) {
    w.profile(name).Some? && w.applies(w.profile(name).value)
  }

  function AgainApplies(w: World, history: seq<Apply>): seq<Apply> {
    match MemoryOf(history).packet
    case None => []
    case Some(packet) => [Again(packet, w.applies(packet))]
  }

  function BatteryProfile(s: Settings, onBattery: bool): string {
    if onBattery then s.onBatteryProfile else s.onPowerSupplyProfile
  }

  /** The hardware applies one event leads to. No timer here: a tick re-applies exactly when the
      configured interval is above the minimum and a good packet is held. */
  function Applies(c: Config, s: State, e: Event): seq<Apply> {
    match e
    case Command(args, w) =>
      if AppliesPacket(c, args) then [ByClient(args[1].packet, w.applies(args[1].packet))]
      else if Carries(args, APPLY_PROFILE) then ProfileApplies(w, ToText(args[1]))
      else []
    case TimerFires(w) => if s.settings.applyInterval > c.minApplyInterval then AgainApplies(w, s.history) else []
    case Battery(onBattery, w) =>
      if s.settings.ignoreBatteryEvent || BatteryProfile(s.settings, onBattery) == "" then []
      else ProfileApplies(w, BatteryProfile(s.settings, onBattery))
    case Sleep => []
    case Wake(w) => if s.settings.applyOnWakeFromSleep then AgainApplies(w, s.history) else []
    case Reload(disk, w) => StartApplies(w, SettingsAfter(c, s.settings, e))
  }

  function StartApplies(w: World, s: Settings): seq<Apply> {
    if s.onStartProfile == "" then [] else ProfileApplies(w, s.onStartProfile)
  }

  function LoadOr(loaded: Option<Settings>, s: Settings): Settings {
    if loaded.Some? then loaded.value else s
  }

  function SettingsAfter(c: Config, s: Settings, e: Event): Settings {
    match e
    case Command(args, _) =>
      if Carries(args, APPLY_DAEMON_SETT) then LoadOr(c.decodeSettings(ToBytes(args[1])), s) else s
    case Reload(disk, _) => LoadOr(disk, s)
    case _ => s
  }

  // ---------- what the daemon says ----------

  /** The answer to new daemon settings. */
  function SettingsAnswers(decoded: Option<Settings>, s: Settings, w: World): seq<Signal> {
    match decoded
    case None => [SendCmdResult(APPLY_DAEMON_SETT, false)]
    case Some(now) =>
      (if now.address != s.address || now.port != s.port then [RestartService(now.address, now.port)] else [])
      + [SendCmdResult(APPLY_DAEMON_SETT, w.fileOk)]
  }

  function RefusedPacket(a: Arg, cmd: DCMD): seq<Signal> {
    [SendError(if a.Packet? then INVALID_PACKET else CORRUPTED_DATA), SendCMDFail(cmd)]
  }

  predicate Queries(cmd: DCMD) {
    cmd.GET_DEVICE_INFO_PACKET? || cmd.GET_DAEMON_PACKET? || cmd.GET_PROFILE_LIST? || cmd.EXPORT_PROFILES?
    || cmd.GET_DAEMON_SETTS?
  }

  /** The answer to a valid message; only an import that does not unpack has none. */
  function ValidAnswers(c: Config, s: State, args: seq<Arg>, w: World): seq<Signal>
    requires HasValidMessageArgs(args)
  {
    var cmd := CommandOf(args[0]);
    match cmd
    case APPLY_CLIENT_SETTINGS =>
      if AppliesPacket(c, args) then [SendApplyResult(cmd, w.applies(args[1].packet), "")]
      else RefusedPacket(args[1], cmd)
    case APPLY_PROFILE => [SendApplyResult(cmd, ProfileClean(w, ToText(args[1])), ToText(args[1]))]
    case APPLY_DAEMON_SETT => SettingsAnswers(c.decodeSettings(ToBytes(args[1])), s.settings, w)
    case WRITE_PROFILE =>
      if args[2].Packet? && IsValidClientPacket(c, args[2].packet) then [SendCmdResult(cmd, w.fileOk)]
      else RefusedPacket(args[2], cmd)
    case DELETE_PROFILE => [SendCmdResult(cmd, w.fileOk)]
    case LOAD_PROFILE =>
      if w.profile(ToText(args[1])).Some? then [SendData(cmd)] else [SendError(PROFILE_LOAD_FAILED), SendCMDFail(cmd)]
    case IMPORT_PROFILES => if w.unpacks then [SendCmdResult(cmd, w.fileOk)] else []
    case _ => if Queries(cmd) then [SendData(cmd)] else [SendError(INVALID_DCMD), SendCMDFail(cmd)]
  }

  function Answers(c: Config, s: State, args: seq<Arg>, w: World): seq<Signal> {
    if HasValidMessageArgs(args) then ValidAnswers(c, s, args, w) else [SendError(INVALID_ARGS)]
  }

  /** The result of applying the stored packet again, if there is one. */
  function AgainResult(w: World, history: seq<Apply>, source: DCMD): seq<Signal> {
    match MemoryOf(history).packet
    case None => []
    case Some(packet) => [SendApplyResult(source, w.applies(packet), "")]
  }

  /** All that one event makes the daemon say. */
  function Signals(c: Config, s: State, e: Event): seq<Signal> {
    match e
    case Command(args, w) => Answers(c, s, args, w)
    case TimerFires(w) =>
      if s.settings.applyInterval > c.minApplyInterval then AgainResult(w, s.history, APPLY_TIMER) else []
    case Battery(onBattery, w) =>
      var profile := BatteryProfile(s.settings, onBattery);
      if s.settings.ignoreBatteryEvent || profile == "" then []
      else [SendApplyResult(BATTERY_STATUS_CHANGED, ProfileClean(w, profile), profile)]
    case Sleep => []
    case Wake(w) =>
      (if s.settings.applyOnWakeFromSleep then AgainResult(w, s.history, SYS_WAKE_FROM_SLEEP) else [])
      + [SendData(GET_DAEMON_PACKET)]
    case Reload(_, _) => [StopService, ConnectService]
  }

  /** Every message is answered, except an import whose data does not unpack. */
  lemma AnsweredIff(c: Config, s: State, args: seq<Arg>, w: World)
    ensures Answers(c, s, args, w) == [] <==> Carries(args, IMPORT_PROFILES) && !w.unpacks
  {
  }

  /** What the messages that apply something or change settings do. */
  lemma ApplyingCommands(c: Config, s: State, args: seq<Arg>, w: World)
    requires |args| >= 1 && args[0].Cmd?
    ensures var q := Step(c, s, Command(args, w)); var cmd := args[0].cmd;
      && (cmd.APPLY_CLIENT_SETTINGS? && |args| >= 2 && args[1].Packet? ==>
            var p := args[1].packet;
            var taken := p.os == c.os && p.vendor == c.vendor && !p.hasError;
            && q.settings == s.settings
            && q.history == (if taken then s.history + [ByClient(p, w.applies(p))] else s.history)
            && q.sent == s.sent + (if taken then [SendApplyResult(APPLY_CLIENT_SETTINGS, w.applies(p), "")]
                                   else [SendError(INVALID_PACKET), SendCMDFail(APPLY_CLIENT_SETTINGS)]))
      && (cmd.APPLY_CLIENT_SETTINGS? && |args| >= 2 && !args[1].Packet? ==>
            q == s.(sent := s.sent + [SendError(CORRUPTED_DATA), SendCMDFail(APPLY_CLIENT_SETTINGS)]))
      && (cmd.APPLY_PROFILE? && |args| >= 2 && args[1].Text? ==>
            var name := args[1].text;
            match w.profile(name)
            case None => q == s.(sent := s.sent + [SendApplyResult(APPLY_PROFILE, false, name)])
            case Some(p) => q == s.(history := s.history + [ByProfile(name, p, w.applies(p))],
                                    sent := s.sent + [SendApplyResult(APPLY_PROFILE, w.applies(p), name)]))
      && (cmd.APPLY_DAEMON_SETT? && |args| >= 2 && args[1].Bytes? ==>
            match c.decodeSettings(args[1].bytes)
            case None => q == s.(sent := s.sent + [SendCmdResult(APPLY_DAEMON_SETT, false)])
            case Some(now) =>
              q == State(now, s.history, s.sent
                + (if now.address != s.settings.address || now.port != s.settings.port
                   then [RestartService(now.address, now.port)] else [])
                + [SendCmdResult(APPLY_DAEMON_SETT, w.fileOk)]))
  {
  }

  /** What the other messages are answered with; they change nothing. */
  lemma ServedCommands(c: Config, s: State, args: seq<Arg>, w: World)
    requires |args| >= 1 && args[0].Cmd?
    ensures var q := Step(c, s, Command(args, w)); var cmd := args[0].cmd;
      && (cmd.WRITE_PROFILE? && |args| >= 3 ==>
            q == s.(sent := s.sent +
              match args[2]
              case Packet(p) =>
                if p.os == c.os && p.vendor == c.vendor then [SendCmdResult(WRITE_PROFILE, w.fileOk)]
                else [SendError(INVALID_PACKET), SendCMDFail(WRITE_PROFILE)]
              case _ => [SendError(CORRUPTED_DATA), SendCMDFail(WRITE_PROFILE)]))
      && (cmd.DELETE_PROFILE? && |args| >= 2 ==> q == s.(sent := s.sent + [SendCmdResult(DELETE_PROFILE, w.fileOk)]))
      && (cmd.LOAD_PROFILE? && |args| >= 2 && args[1].Text? ==>
            q == s.(sent := s.sent + if w.profile(args[1].text).Some? then [SendData(LOAD_PROFILE)]
                                     else [SendError(PROFILE_LOAD_FAILED), SendCMDFail(LOAD_PROFILE)]))
      && (cmd.IMPORT_PROFILES? && |args| >= 2 ==>
            q == s.(sent := s.sent + if w.unpacks then [SendCmdResult(IMPORT_PROFILES, w.fileOk)] else []))
      && (cmd.EXPORT_PROFILES? && |args| >= 2 ==> q == s.(sent := s.sent + [SendData(EXPORT_PROFILES)]))
      && (cmd.GET_DEVICE_INFO_PACKET? || cmd.GET_DAEMON_PACKET? || cmd.GET_PROFILE_LIST? ==>
            q == s.(sent := s.sent + [SendData(cmd)]))
      && (cmd.GET_DAEMON_SETTS? && |args| == 1 ==> q == s.(sent := s.sent + [SendData(GET_DAEMON_SETTS)]))
      && (cmd.APPLY_TIMER? || cmd.BATTERY_STATUS_CHANGED? || cmd.SYS_WAKE_FROM_SLEEP? || cmd.OTHER? ==>
            q == s.(sent := s.sent + [SendError(INVALID_DCMD), SendCMDFail(cmd)]))
  {
  }

  /** A message with too few or too many values is answered with an error and does nothing. */
  lemma ArgumentsNeeded(c: Config, s: State, args: seq<Arg>, w: World)
    requires |args| >= 1 && args[0].Cmd?
    ensures var cmd := args[0].cmd;
      Answers(c, s, args, w) == [SendError(INVALID_ARGS)] <==>
        || (|args| == 1 && (cmd.APPLY_CLIENT_SETTINGS? || cmd.APPLY_PROFILE? || cmd.DELETE_PROFILE? || cmd.LOAD_PROFILE?
                            || cmd.EXPORT_PROFILES? || cmd.IMPORT_PROFILES? || cmd.APPLY_DAEMON_SETT?))
        || (|args| <= 2 && cmd.WRITE_PROFILE?)
        || (|args| > 1 && cmd.GET_DAEMON_SETTS?)
    ensures Answers(c, s, args, w) == [SendError(INVALID_ARGS)] ==>
      Step(c, s, Command(args, w)) == s.(sent := s.sent + [SendError(INVALID_ARGS)])
  {
    if HasValidMessageArgs(args) {
      var a := ValidAnswers(c, s, args, w);
      assert a != [] ==> a[0] != SendError(INVALID_ARGS);
    }
  }

  function Step(c: Config, s: State, e: Event): State {
    State(SettingsAfter(c, s.settings, e), s.history + Applies(c, s, e), s.sent + Signals(c, s, e))
  }

  function After(c: Config, s: State, events: seq<Event>): State {
    if events == [] then s
    else Step(c, After(c, s, events[..|events| - 1]), events[|events| - 1])
  }

  function Started(disk: Option<Settings>, w: World, defaults: Settings): State {
    var settings := LoadOr(disk, defaults);
    State(settings, StartApplies(w, settings), [ConnectService])
  }

  lemma NoEvents(c: Config, s: State, events: seq<Event>)
    ensures After(c, s, events[..0]) == s
  {
  }

  lemma AfterSnoc(c: Config, s: State, events: seq<Event>, k: nat)
    requires k < |events|
    ensures After(c, s, events[..k + 1]) == Step(c, After(c, s, events[..k]), events[k])
  {
    assert events[..k + 1][..k] == events[..k];
  }

  class DaemonService {
    const config: Config
    var applyTimer: Timer
    var lastClientPacket: Option<ClientPacket>
    var activeProfile: string
    var daemonSettings: Settings
    var sent: seq<Signal>
    /** Every call of the hardware so far, with its outcome. */
    var history: seq<Apply>

    ghost function Abstract(): State
      reads this`daemonSettings, this`history, this`sent
    {
      State(daemonSettings, history, sent)
    }

    /** The memory is the fold of all hardware applies so far. */
    ghost predicate Remembers()
      reads this`lastClientPacket, this`activeProfile, this`history
    {
      Memory(lastClientPacket, activeProfile) == MemoryOf(history) && Replays(history)
    }

    /** The timer exists exactly for an interval above the minimum, and then with that interval. */
    ghost predicate TimerExists()
      reads this`applyTimer, this`daemonSettings
    {
      && (applyTimer.Timer? <==> daemonSettings.applyInterval > config.minApplyInterval)
      && (applyTimer.Timer? ==> applyTimer.interval == daemonSettings.applyInterval * 1000)
    }

    /** The state between handlers: the next re-apply is never lost. */
    ghost predicate Valid()
      reads this
    {
      && Remembers()
      && TimerExists()
      && (applyTimer.Timer? && lastClientPacket.Some? ==> applyTimer.running)
    }

    predicate TimerRuns()
      reads this`applyTimer
    {
      applyTimer.Timer? && applyTimer.running
    }

    constructor (config: Config, defaults: Settings)
      ensures this.config == config && Remembers() && applyTimer == NoTimer && Abstract() == State(defaults, [], [])
    {
      this.config := config;
      applyTimer, lastClientPacket, activeProfile, daemonSettings, sent, history := NoTimer, None, "", defaults, [], [];
    }

    // ---------- timer ----------

    method SetApplyTimer(interval: int)
      requires interval == daemonSettings.applyInterval
      modifies this`applyTimer
      ensures TimerExists() && (applyTimer.Timer? ==> applyTimer.running)
    {
      if interval <= config.minApplyInterval && applyTimer.Timer? {
        applyTimer := NoTimer;
      } else if interval > config.minApplyInterval {
        applyTimer := Timer(daemonSettings.applyInterval * 1000, true);
      }
    }

    method StopApplyTimer()
      modifies this`applyTimer
      ensures !TimerRuns()
      ensures applyTimer == if old(applyTimer).Timer? then old(applyTimer).(running := false) else NoTimer
    {
      if applyTimer.NoTimer? { return; }
      applyTimer := applyTimer.(running := false);
    }

    method StartApplyTimer()
      modifies this`applyTimer
      ensures applyTimer == if old(applyTimer).Timer? then old(applyTimer).(running := true) else NoTimer
    {
      if applyTimer.NoTimer? { return; }
      applyTimer := applyTimer.(running := true);
    }

    // ---------- applying ----------

    /** `device.applySettings`, recorded in the history: never reached while the timer is running. */
    method ApplyHardware(w: World, a: Apply)
      requires !TimerRuns() && Replays(history) && a.clean == w.applies(a.packet)
      requires a.Again? ==> MemoryOf(history).packet == Some(a.packet)
      modifies this`history
      ensures history == old(history) + [a] && Replays(history)
      ensures MemoryOf(history) == Remember(MemoryOf(old(history)), a)
    {
      MemorySnoc(history, a);
      history := history + [a];
    }

    method ApplyClientSettings(w: World, packet: ClientPacket)
      requires Remembers() && !TimerRuns()
      modifies this`lastClientPacket, this`activeProfile, this`sent, this`history
      ensures Remembers()
      ensures history == old(history) + [ByClient(packet, w.applies(packet))]
      ensures sent == old(sent) + [SendApplyResult(APPLY_CLIENT_SETTINGS, w.applies(packet), "")]
      ensures lastClientPacket == (if w.applies(packet) then Some(packet) else None) && activeProfile == ""
    {
      var clean := w.applies(packet);
      ApplyHardware(w, ByClient(packet, clean));
      activeProfile := "";
      lastClientPacket := None;
      if clean { lastClientPacket := Some(packet); }
      sent := sent + [SendApplyResult(APPLY_CLIENT_SETTINGS, clean, "")];
    }

    method ApplyProfileSettings(w: World, name: string) returns (clean: bool)
      requires Remembers() && !TimerRuns()
      modifies this`lastClientPacket, this`activeProfile, this`history
      ensures Remembers() && clean == ProfileClean(w, name)
      ensures history == old(history) + ProfileApplies(w, name)
      ensures w.profile(name).None? ==> !clean && history == old(history)
      ensures w.profile(name).Some? ==>
        var p := w.profile(name).value; clean == w.applies(p) && history == old(history) + [ByProfile(name, p, clean)]
      ensures lastClientPacket == if clean then w.profile(name) else old(lastClientPacket)
      ensures activeProfile == if clean then name else old(activeProfile)
    {
      var loaded := w.profile(name);
      if loaded.None? { return false; }
      var packet := loaded.value;
      clean := w.applies(packet);
      ApplyHardware(w, ByProfile(name, packet, clean));
      if clean {
        lastClientPacket := None;
        activeProfile := name;
        lastClientPacket := Some(packet);
      }
    }

    method ReApply(w: World, source: DCMD)
      requires Remembers() && !TimerRuns() && lastClientPacket.Some?
      modifies this`sent, this`history
      ensures Remembers()
      ensures history == old(history) + AgainApplies(w, old(history))
      ensures sent == old(sent) + [SendApplyResult(source, w.applies(lastClientPacket.value), "")]
    {
      var packet := lastClientPacket.value;
      var clean := w.applies(packet);
      ApplyHardware(w, Again(packet, clean));
      sent := sent + [SendApplyResult(source, clean, "")];
    }

    // ---------- daemon settings ----------

    method ApplyDaemonSettings(w: World, data: seq<int>)
      requires Remembers() && TimerExists()
      modifies this`applyTimer, this`daemonSettings, this`sent
      ensures TimerExists() && daemonSettings == LoadOr(config.decodeSettings(data), old(daemonSettings))
      ensures sent == old(sent) + SettingsAnswers(config.decodeSettings(data), old(daemonSettings), w)
    {
      var oldAdr, oldPort := daemonSettings.address, daemonSettings.port;
      var decoded := config.decodeSettings(data);
      if decoded.None? {
        sent := sent + [SendCmdResult(APPLY_DAEMON_SETT, false)];
        return;
      }
      daemonSettings := decoded.value;
      if oldAdr != daemonSettings.address || oldPort != daemonSettings.port {
        sent := sent + [RestartService(daemonSettings.address, daemonSettings.port)];
      }
      SetApplyTimer(daemonSettings.applyInterval);
      sent := sent + [SendCmdResult(APPLY_DAEMON_SETT, w.fileOk)];
    }

    method ApplyStartProfile(w: World)
      requires Remembers() && !TimerRuns()
      modifies this`lastClientPacket, this`activeProfile, this`history
      ensures Remembers() && history == old(history) + StartApplies(w, daemonSettings)
      ensures history == old(history) +
        var name := daemonSettings.onStartProfile;
        if name == "" || w.profile(name).None? then []
        else [ByProfile(name, w.profile(name).value, w.applies(w.profile(name).value))]
    {
      if daemonSettings.onStartProfile != "" {
        var _ := ApplyProfileSettings(w, daemonSettings.onStartProfile);
      }
    }

    /** First start: settings from disk if they load, then the start profile, then the timer. */
    method Start(disk: Option<Settings>, w: World)
      requires Remembers() && applyTimer.NoTimer? && history == [] && sent == []
      modifies this
      ensures Valid() && Abstract() == Started(disk, w, old(daemonSettings))
      ensures applyTimer.Timer? ==> applyTimer.running
      ensures daemonSettings == (if disk.Some? then disk.value else old(daemonSettings)) && sent == [ConnectService]
      ensures history ==
        var name := daemonSettings.onStartProfile;
        if name == "" || w.profile(name).None? then []
        else [ByProfile(name, w.profile(name).value, w.applies(w.profile(name).value))]
    {
      hide MemoryOf, Replays, ProfileApplies, Remember;
      if disk.Some? { daemonSettings := disk.value; }
      sent := sent + [ConnectService];
      ApplyStartProfile(w);
      SetApplyTimer(daemonSettings.applyInterval);
    }

    method ReloadSettings(disk: Option<Settings>, w: World)
      requires Valid()
      modifies this
      ensures Valid() && Abstract() == Step(config, old(Abstract()), Reload(disk, w))
      ensures applyTimer.Timer? ==> applyTimer.running
      ensures daemonSettings == if disk.Some? then disk.value else old(daemonSettings)
      ensures sent == old(sent) + [StopService, ConnectService]
      ensures history == old(history) +
        var name := daemonSettings.onStartProfile;
        if name == "" || w.profile(name).None? then []
        else [ByProfile(name, w.profile(name).value, w.applies(w.profile(name).value))]
    {
      hide MemoryOf, Replays, ProfileApplies, AppliesPacket, Answers, AgainApplies, AgainResult;
      StopApplyTimer();
      sent := sent + [StopService];
      if disk.Some? { daemonSettings := disk.value; }
      sent := sent + [ConnectService];
      ApplyStartProfile(w);
      SetApplyTimer(daemonSettings.applyInterval);
    }

    // ---------- commands ----------

    method ApplyClientCommand(w: World, args: seq<Arg>)
      requires Remembers() && !TimerRuns() && Carries(args, APPLY_CLIENT_SETTINGS)
      modifies this`lastClientPacket, this`activeProfile, this`sent, this`history
      ensures Remembers()
      ensures AppliesPacket(config, args) ==>
        (history == old(history) + [ByClient(args[1].packet, w.applies(args[1].packet))]
         && sent == old(sent) + [SendApplyResult(APPLY_CLIENT_SETTINGS, w.applies(args[1].packet), "")])
      ensures !AppliesPacket(config, args) ==>
        (history == old(history) && lastClientPacket == old(lastClientPacket) && activeProfile == old(activeProfile)
         && sent == old(sent) + RefusedPacket(args[1], APPLY_CLIENT_SETTINGS))
    {
      if !args[1].Packet? {
        sent := sent + [SendError(CORRUPTED_DATA), SendCMDFail(APPLY_CLIENT_SETTINGS)];
        return;
      }
      var packet := args[1].packet;
      if !IsValidClientPacket(config, packet) {
        sent := sent + [SendError(INVALID_PACKET), SendCMDFail(APPLY_CLIENT_SETTINGS)];
        return;
      } else if packet.hasError {
        sent := sent + [SendError(INVALID_PACKET), SendCMDFail(APPLY_CLIENT_SETTINGS)];
        return;
      }
      ApplyClientSettings(w, packet);
    }

    method WriteProfileCommand(w: World, args: seq<Arg>)
      requires Carries(args, WRITE_PROFILE)
      modifies this`sent
      ensures sent == old(sent) +
        if args[2].Packet? && IsValidClientPacket(config, args[2].packet) then [SendCmdResult(WRITE_PROFILE, w.fileOk)]
        else RefusedPacket(args[2], WRITE_PROFILE)
    {
      if !args[2].Packet? {
        sent := sent + [SendError(CORRUPTED_DATA), SendCMDFail(WRITE_PROFILE)];
      } else if !IsValidClientPacket(config, args[2].packet) {
        sent := sent + [SendError(INVALID_PACKET), SendCMDFail(WRITE_PROFILE)];
      } else {
        sent := sent + [SendCmdResult(WRITE_PROFILE, w.fileOk)];
      }
    }

    /** Commands that neither apply anything nor change settings. */
    method ServeCommand(w: World, cmd: DCMD, args: seq<Arg>)
      requires Carries(args, cmd)
      requires !cmd.APPLY_CLIENT_SETTINGS? && !cmd.APPLY_PROFILE? && !cmd.APPLY_DAEMON_SETT?
      modifies this`sent
      ensures sent == old(sent) + ValidAnswers(config, old(Abstract()), args, w)
    {
      if cmd.WRITE_PROFILE? {
        WriteProfileCommand(w, args);
      } else if cmd.DELETE_PROFILE? {
        sent := sent + [SendCmdResult(DELETE_PROFILE, w.fileOk)];
      } else if cmd.LOAD_PROFILE? {
        if w.profile(ToText(args[1])).None? {
          sent := sent + [SendError(PROFILE_LOAD_FAILED), SendCMDFail(LOAD_PROFILE)];
        } else {
          sent := sent + [SendData(cmd)];
        }
      } else if cmd.IMPORT_PROFILES? {
        if w.unpacks { sent := sent + [SendCmdResult(IMPORT_PROFILES, w.fileOk)]; }
      } else if Queries(cmd) {
        sent := sent + [SendData(cmd)];
      } else {
        sent := sent + [SendError(INVALID_DCMD), SendCMDFail(cmd)];
      }
    }

    method Dispatch(w: World, args: seq<Arg>)
      requires Remembers() && TimerExists() && !TimerRuns() && HasValidMessageArgs(args)
      modifies this
      ensures Remembers() && TimerExists()
      ensures Abstract() == Step(config, old(Abstract()), Command(args, w))
    {
      hide MemoryOf, Replays;
      var cmd := CommandOf(args[0]);
      if cmd.APPLY_CLIENT_SETTINGS? {
        ApplyClientCommand(w, args);
      } else if cmd.APPLY_PROFILE? {
        var profile := ToText(args[1]);
        var clean := ApplyProfileSettings(w, profile);
        sent := sent + [SendApplyResult(APPLY_PROFILE, clean, profile)];
      } else if cmd.APPLY_DAEMON_SETT? {
        ApplyDaemonSettings(w, ToBytes(args[1]));
      } else {
        ServeCommand(w, cmd, args);
      }
    }

    method OnCmdReceived(w: World, args: seq<Arg>)
      requires Valid()
      modifies this
      ensures Valid() && Abstract() == Step(config, old(Abstract()), Command(args, w))
      ensures !HasValidMessageArgs(args) ==> applyTimer == old(applyTimer)
      ensures HasValidMessageArgs(args) ==> (applyTimer.Timer? ==> applyTimer.running)
    {
      hide MemoryOf, Replays;
      if !HasValidMessageArgs(args) {
        sent := sent + [SendError(INVALID_ARGS)];
        return;
      }
      StopApplyTimer();
      Dispatch(w, args);
      StartApplyTimer();
    }

    // ---------- timer, power and sleep events ----------

    /** Fires only while the timer is running; without a packet it stays stopped. */
    method OnApplyTimerTimeout(w: World)
      requires Valid() && TimerRuns()
      modifies this
      ensures Valid() && Abstract() == Step(config, old(Abstract()), TimerFires(w))
      ensures TimerRuns() <==> lastClientPacket.Some?
      ensures lastClientPacket == old(lastClientPacket) && activeProfile == old(activeProfile)
      ensures lastClientPacket.None? ==> history == old(history) && sent == old(sent)
      ensures lastClientPacket.Some? ==>
        var p := lastClientPacket.value;
        && history == old(history) + [Again(p, w.applies(p))]
        && sent == old(sent) + [SendApplyResult(APPLY_TIMER, w.applies(p), "")]
    {
      applyTimer := applyTimer.(running := false);
      if lastClientPacket.None? { return; }
      ReApply(w, APPLY_TIMER);
      applyTimer := applyTimer.(running := true);
    }

    method OnBatteryStatusChanged(w: World, onBattery: bool)
      requires Valid()
      modifies this
      ensures Valid() && Abstract() == Step(config, old(Abstract()), Battery(onBattery, w))
      ensures daemonSettings == old(daemonSettings)
      ensures var name := if onBattery then daemonSettings.onBatteryProfile else daemonSettings.onPowerSupplyProfile;
        if daemonSettings.ignoreBatteryEvent || name == "" then history == old(history) && sent == old(sent)
        else
          match w.profile(name)
          case None =>
            history == old(history) && sent == old(sent) + [SendApplyResult(BATTERY_STATUS_CHANGED, false, name)]
          case Some(p) =>
            && history == old(history) + [ByProfile(name, p, w.applies(p))]
            && sent == old(sent) + [SendApplyResult(BATTERY_STATUS_CHANGED, w.applies(p), name)]
    {
      hide MemoryOf, Replays, ProfileApplies, ProfileClean, AppliesPacket, Answers, AgainApplies, AgainResult;
      if daemonSettings.ignoreBatteryEvent { return; }
      var profile := if onBattery then daemonSettings.onBatteryProfile else daemonSettings.onPowerSupplyProfile;
      if profile == "" { return; }
      StopApplyTimer();
      var clean := ApplyProfileSettings(w, profile);
      sent := sent + [SendApplyResult(BATTERY_STATUS_CHANGED, clean, profile)];
      StartApplyTimer();
    }

    /** After waking, the stored packet is applied again if so configured, and the client is refreshed. */
    method OnWakeFromSleepEventTriggered(w: World)
      requires Valid()
      modifies this
      ensures Valid() && Abstract() == Step(config, old(Abstract()), Wake(w))
      ensures applyTimer.Timer? ==> applyTimer.running
      ensures daemonSettings == old(daemonSettings)
      ensures daemonSettings.applyOnWakeFromSleep && old(lastClientPacket).Some? ==>
        var p := old(lastClientPacket).value;
        && history == old(history) + [Again(p, w.applies(p))]
        && sent == old(sent) + [SendApplyResult(SYS_WAKE_FROM_SLEEP, w.applies(p), ""), SendData(GET_DAEMON_PACKET)]
      ensures !daemonSettings.applyOnWakeFromSleep || old(lastClientPacket).None? ==>
        history == old(history) && sent == old(sent) + [SendData(GET_DAEMON_PACKET)]
    {
      hide MemoryOf, Replays;
      var refreshArgs := [Cmd(GET_DAEMON_PACKET), Flag(false)];
      if daemonSettings.applyOnWakeFromSleep && lastClientPacket.Some? {
        StopApplyTimer();
        ReApply(w, SYS_WAKE_FROM_SLEEP);
        StartApplyTimer();
      }
      OnCmdReceived(w, refreshArgs);
    }

    /** Any event; the timer's own event comes only while the timer is running. */
    method Handle(e: Event)
      requires Valid() && (e.TimerFires? ==> TimerRuns())
      modifies this
      ensures Valid() && Abstract() == Step(config, old(Abstract()), e)
    {
      match e {
        case Command(args, w) => OnCmdReceived(w, args);
        case TimerFires(w) => OnApplyTimerTimeout(w);
        case Battery(onBattery, w) => OnBatteryStatusChanged(w, onBattery);
        case Sleep =>
        case Wake(w) => OnWakeFromSleepEventTriggered(w);
        case Reload(disk, w) => ReloadSettings(disk, w);
      }
    }

    /** A whole run: the daemon's settings, its hardware applies and all it says are those of the description
        without a timer object, so no re-apply that description asks for is lost and none is added, although
        here a tick counts only while the timer is running. */
    method Run(disk: Option<Settings>, w: World, events: seq<Event>)
      requires Remembers() && applyTimer.NoTimer? && history == [] && sent == []
      modifies this
      ensures Valid() && Abstract() == After(config, Started(disk, w, old(daemonSettings)), events)
      ensures activeProfile != "" ==> lastClientPacket.Some?
      ensures forall i :: 0 <= i < |history| && history[i].Again? ==>
                exists j :: 0 <= j < i && CleanSource(history, j, history[i].packet)
    {
      hide *;
      Start(disk, w);
      ghost var s0 := Abstract();
      NoEvents(config, s0, events);
      for k := 0 to |events|
        invariant Valid() && Abstract() == After(config, s0, events[..k])
      {
        AfterSnoc(config, s0, events, k);
        if events[k].TimerFires? && !TimerRuns() {
          IdleTick(events[k]);
        } else {
          Handle(events[k]);
        }
      }
      assert events[..|events|] == events;
      FinalState();
    }

    /** A tick of a timer that is not running is not missed. */
    lemma IdleTick(e: Event)
      requires Valid() && e.TimerFires? && !TimerRuns()
      ensures Step(config, Abstract(), e) == Abstract()
    {
      hide MemoryOf, Replays;
    }

    lemma FinalState()
      requires Valid()
      ensures activeProfile != "" ==> lastClientPacket.Some?
      ensures forall i :: 0 <= i < |history| && history[i].Again? ==>
                exists j :: 0 <= j < i && CleanSource(history, j, history[i].packet)
    {
      hide CleanSource;
      ProfileImpliesPacket(history);
      ReappliesWereClean(history);
    }
  }

  lemma ReappliesWereClean(history: seq<Apply>)
    requires Replays(history)
    ensures forall i :: 0 <= i < |history| && history[i].Again? ==>
              exists j :: 0 <= j < i && CleanSource(history, j, history[i].packet)
  {
    forall i | 0 <= i < |history| && history[i].Again?
      ensures exists j :: 0 <= j < i && CleanSource(history, j, history[i].packet)
    {
      var j := ReappliedWasClean(history, i);
    }
  }
}
