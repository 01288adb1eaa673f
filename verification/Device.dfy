/** The device front end and its single-shot fan-curve timer (src/Device/Device.cpp).
    CPU and OS settings, temperature and OS access are inputs. */
module Device {
  import opened Basics
  import opened EcRam
  import opened FanDevice

  /** `QScopedPointer<QTimer>`: absent, or present and running or not. */
  datatype Timer = NoTimer | Timer(running: bool)

  /** A fan update asks for a curve when it sets a manual mode and has several points. */
  predicate AsksForCurve(data: FanData) {
    data.mode.Some? && data.mode.value != 0 && |data.curve| > 1
  }

  /** What one tick can do to RAM, for any set of fans: controls in manual mode stay there, no board of the
      table leaves automatic mode, none enters it, and if all the fans are automatic nothing changes. */
  ghost predicate TickSafe(fans: seq<FANDevice>, before: Ram, after: Ram) {
    && (forall d: FanControls :: d.Ok() && d.Manual(before) ==> d.Manual(after))
    && (forall d: FanControls :: d.Ok() && !d.Auto(before) ==> !d.Auto(after))
    && (forall b: FanBoard :: ControlsOf(b).Auto(before) ==> ControlsOf(b).Auto(after))
    && ((forall f :: f in fans ==> f.Valid() && f.control.Auto(before)) ==> after == before)
  }

  lemma TickSafeStep(fans: seq<FANDevice>, f: FANDevice, before: Ram, middle: Ram, after: Ram, speed: int)
    requires f in fans && f.Valid()
    requires TickSafe(fans, before, middle)
    requires SpeedStep(f.control, middle, after, speed)
    ensures TickSafe(fans, before, after)
  {
    forall d: FanControls | d.Ok()
      ensures d.Manual(before) ==> d.Manual(after)
      ensures !d.Auto(before) ==> !d.Auto(after)
    {
      SpeedKeepsManual(f.control, d, middle, after, speed);
    }
    forall b: FanBoard | ControlsOf(b).Auto(before) ensures ControlsOf(b).Auto(after) {
      SpeedKeepsAuto(f.control.board, b, middle, after, speed);
    }
  }

  lemma TickSafeStart(fans: seq<FANDevice>, ram: Ram)
    ensures TickSafe(fans, ram, ram)
  {
  }

  lemma NoCurveNoChange(fan: FANDevice, ram: Ram, t: int)
    requires fan.Valid() && !fan.HasFanCurve()
    ensures fan.CurveRam(ram, t) == ram
  {
  }

  lemma TickSafeTransitive(fans: seq<FANDevice>, before: Ram, middle: Ram, after: Ram)
    requires TickSafe(fans, before, middle) && TickSafe(fans, middle, after)
    ensures TickSafe(fans, before, after)
  {
  }

  /** Events that reach the device between two applies. */
  datatype Event = Tick(access: bool, temperature: Option<int>) | Fill

  class Device {
    const chip: EcChip
    const fans: seq<FANDevice>
    const ids: seq<string>
    var fanCurveTimer: Timer

    ghost predicate Valid() {
      && |ids| == |fans|
      && (forall i :: 0 <= i < |fans| ==> fans[i].chip == chip && fans[i].Valid())
      && (forall i, j :: 0 <= i < j < |fans| ==> fans[i] != fans[j])
    }

    /** Between handlers an existing timer is running. */
    predicate TimerInv()
      reads this
    {
      fanCurveTimer.Timer? ==> fanCurveTimer.running
    }

    /** Every fan is in automatic mode. */
    predicate AllAuto()
      requires Valid()
      reads chip
    {
      forall i :: 0 <= i < |fans| ==> fans[i].control.Auto(chip.ram)
    }

    constructor (chip: EcChip, fans: seq<FANDevice>, ids: seq<string>)
      requires |ids| == |fans| && forall i :: 0 <= i < |fans| ==> fans[i].chip == chip && fans[i].Valid()
      requires forall i, j :: 0 <= i < j < |fans| ==> fans[i] != fans[j]
      ensures Valid() && this.chip == chip && this.fans == fans && this.ids == ids && fanCurveTimer == NoTimer
    {
      this.chip, this.fans, this.ids, fanCurveTimer := chip, fans, ids, NoTimer;
    }

    method SetupFanCurveTimer(enable: bool)
      modifies this
      ensures !enable ==> fanCurveTimer == NoTimer
      ensures enable ==> fanCurveTimer == if old(fanCurveTimer).NoTimer? then Timer(false) else old(fanCurveTimer)
    {
      if !enable {
        fanCurveTimer := NoTimer;
      } else if fanCurveTimer.NoTimer? {
        fanCurveTimer := Timer(false);
      }
    }

    method StopTimer()
      modifies this
      ensures fanCurveTimer == if old(fanCurveTimer).Timer? then Timer(false) else NoTimer
    {
      if fanCurveTimer.Timer? { fanCurveTimer := Timer(false); }
    }

    method StartTimer()
      modifies this
      ensures fanCurveTimer == if old(fanCurveTimer).Timer? then Timer(true) else NoTimer
    {
      if fanCurveTimer.Timer? { fanCurveTimer := Timer(true); }
    }

    /** RAM after the first n fans were returned to automatic mode. */
    ghost function SleptRam(ram: Ram, n: nat): Ram
      requires n <= |fans|
    {
      if n == 0 then ram else WriteAll(SleptRam(ram, n - 1), fans[n - 1].control.modeAdr, 0)
    }

    lemma {:induction false} SleptCells(ram: Ram, n: nat)
      requires Valid() && n <= |fans|
      ensures forall a: Address ::
        SleptRam(ram, n)[a] == if exists i :: 0 <= i < n && a in fans[i].control.modeAdr then 0 else ram[a]
    {
      if n != 0 {
        SleptCells(ram, n - 1);
        WriteAllCells(SleptRam(ram, n - 1), fans[n - 1].control.modeAdr, 0);
      }
    }

    /** Success means access was granted and every fan answered: then all are in automatic mode. */
    method PrepareForSleep(access: bool) returns (success: bool)
      requires Valid()
      modifies chip
      ensures success ==> AllAuto() && chip.ram == SleptRam(old(chip.ram), |fans|)
      ensures success ==>
        forall a: Address ::
          chip.ram[a] == if exists i :: 0 <= i < |fans| && a in fans[i].control.modeAdr then 0 else old(chip.ram)[a]
      ensures !access ==> !success && chip.ram == old(chip.ram)
      ensures access && chip.reliable ==> success
    {
      success := access;
      SleptCells(chip.ram, |fans|);
      if access {
        for i := 0 to |fans|
          invariant success ==> chip.ram == SleptRam(old(chip.ram), i)
          invariant success ==> forall k :: 0 <= k < i ==> fans[k].control.Auto(chip.ram)
          invariant chip.reliable ==> success
        {
          ghost var before := chip.ram;
          var ok := fans[i].PrepareForSleep();
          success := success && ok;
          WriteAllCells(before, fans[i].control.modeAdr, 0);
        }
      }
    }

    /** `fillPacketDeviceData`: reading pauses the timer and touches nothing. */
    method FillPacketDeviceData()
      requires Valid()
      modifies this, chip
      ensures chip.ram == old(chip.ram)
      ensures fanCurveTimer == if old(fanCurveTimer).Timer? then Timer(true) else NoTimer
    {
      StopTimer();
      for i := 0 to |fans|
        invariant chip.ram == old(chip.ram)
        invariant fanCurveTimer == if old(fanCurveTimer).Timer? then Timer(false) else NoTimer
      {
        var mode := GetGPDFanMode(chip, fans[i].control);
      }
      StartTimer();
    }

    /** RAM after a tick of the first n fans, one after the other, without a failing port. */
    ghost function TickRam(ram: Ram, n: nat, t: int): Ram
      requires Valid() && n <= |fans|
      reads fans
    {
      if n == 0 then ram else fans[n - 1].CurveRam(TickRam(ram, n - 1, t), t)
    }

    /** In a tick fan i commands a speed for this cell: it follows a curve and its board is in manual mode. */
    predicate Commands(ram: Ram, i: nat, a: Address)
      requires Valid() && i < |fans|
      reads fans
    {
      |fans[i].curve| > 1 && ram[fans[i].control.modeAdr[0]] != 0 && a in fans[i].control.writeAdr
    }

    /** Of the first n fans, i is the last to command this cell. */
    ghost predicate Last(ram: Ram, n: nat, i: nat, a: Address)
      requires Valid() && n <= |fans|
      reads fans
    {
      i < n && Commands(ram, i, a) && forall j :: i < j < n ==> !Commands(ram, j, a)
    }

    /** Every cell after a tick: what the last fan to command it asked for, and unchanged if none did. */
    ghost predicate TickExact(before: Ram, after: Ram, t: int)
      requires Valid()
      reads fans
    {
      && (forall i: nat, a: Address :: Last(before, |fans|, i, a) ==>
            after[a] == Pwm(fans[i].control, SpeedFor(fans[i].curve, t)))
      && (forall a: Address :: (forall i :: 0 <= i < |fans| ==> !Commands(before, i, a)) ==> after[a] == before[a])
    }

    /** No board changes its mode in a tick. */
    lemma {:induction false} TickKeepsModes(ram: Ram, n: nat, t: int, b: FanBoard)
      requires Valid() && n <= |fans|
      ensures ControlsOf(b).Auto(TickRam(ram, n, t)) <==> ControlsOf(b).Auto(ram)
    {
      if n != 0 {
        TickKeepsModes(ram, n - 1, t, b);
        var f, before, after := fans[n - 1], TickRam(ram, n - 1, t), TickRam(ram, n, t);
        if |f.curve| > 1 {
          f.CurveStep(before, t);
          BoardsAreOk(b);
          hide FANDevice.CurveRam, SpeedStep;
          SpeedKeepsManual(f.control, ControlsOf(b), before, after, SpeedFor(f.curve, t));
          if ControlsOf(b).Auto(before) { SpeedKeepsAuto(f.control.board, b, before, after, SpeedFor(f.curve, t)); }
        }
      }
    }

    /** One fan's part of a tick. */
    lemma TickStep(ram: Ram, n: nat, t: int, a: Address)
      requires Valid() && 0 < n <= |fans|
      ensures Commands(ram, n - 1, a) ==>
        TickRam(ram, n, t)[a] == Pwm(fans[n - 1].control, SpeedFor(fans[n - 1].curve, t))
      ensures !Commands(ram, n - 1, a) ==> TickRam(ram, n, t)[a] == TickRam(ram, n - 1, t)[a]
    {
      var f := fans[n - 1];
      TickKeepsModes(ram, n - 1, t, f.control.board);
      f.CurveCells(TickRam(ram, n - 1, t), t);
      hide FANDevice.CurveRam, Pwm, SpeedFor;
    }

    lemma {:induction false} CommandedCell(ram: Ram, n: nat, t: int, i: nat, a: Address)
      requires Valid() && n <= |fans| && Last(ram, n, i, a)
      ensures TickRam(ram, n, t)[a] == Pwm(fans[i].control, SpeedFor(fans[i].curve, t))
    {
      TickStep(ram, n, t, a);
      hide TickRam, Pwm, SpeedFor;
      if i < n - 1 {
        CommandedCell(ram, n - 1, t, i, a);
      }
    }

    lemma {:induction false} UntouchedCell(ram: Ram, n: nat, t: int, a: Address)
      requires Valid() && n <= |fans| && forall i :: 0 <= i < n ==> !Commands(ram, i, a)
      ensures TickRam(ram, n, t)[a] == ram[a]
    {
      if n != 0 {
        TickStep(ram, n, t, a);
        UntouchedCell(ram, n - 1, t, a);
      }
    }

    lemma TickIsExact(ram: Ram, t: int)
      requires Valid()
      ensures TickExact(ram, TickRam(ram, |fans|, t), t)
    {
      hide TickRam, Pwm, SpeedFor;
      forall i: nat, a: Address | Last(ram, |fans|, i, a)
        ensures TickRam(ram, |fans|, t)[a] == Pwm(fans[i].control, SpeedFor(fans[i].curve, t))
      {
        CommandedCell(ram, |fans|, t, i, a);
      }
      forall a: Address | forall i :: 0 <= i < |fans| ==> !Commands(ram, i, a)
        ensures TickRam(ram, |fans|, t)[a] == ram[a]
      {
        UntouchedCell(ram, |fans|, t, a);
      }
    }

    predicate UsesCell(i: nat, a: Address)
      requires i < |fans|
    {
      a in fans[i].control.modeAdr || a in fans[i].control.writeAdr
    }

    /** No other fan uses a cell of fan i. */
    ghost predicate Alone(i: nat)
      requires i < |fans|
    {
      forall j: nat, a: Address :: j < |fans| && j != i && UsesCell(j, a) ==> !UsesCell(i, a)
    }

    /** RAM after the first n fans took their settings from the packet, without a failing port. */
    ghost function SettingsRam(ram: Ram, n: nat, packet: map<string, FanData>): Ram
      requires Valid() && n <= |fans|
    {
      if n == 0 then ram
      else
        var before := SettingsRam(ram, n - 1, packet);
        if ids[n - 1] in packet then fans[n - 1].SettingsRam(before, packet[ids[n - 1]]) else before
    }

    /** The cells of a fan that shares none, after all fans took their settings. */
    lemma {:induction false} SettingsAlone(ram: Ram, n: nat, packet: map<string, FanData>, i: nat, a: Address)
      requires Valid() && n <= |fans| && i < |fans| && Alone(i)
      requires UsesCell(i, a)
      ensures i >= n || ids[i] !in packet ==> SettingsRam(ram, n, packet)[a] == ram[a]
      ensures i < n && ids[i] in packet ==>
        SetAsAsked(fans[i].control, packet[ids[i]], ram, SettingsRam(ram, n, packet), a)
    {
      if n != 0 {
        var before := SettingsRam(ram, n - 1, packet);
        SettingsAlone(ram, n - 1, packet, i, a);
        if ids[n - 1] in packet {
          fans[n - 1].SettingsCells(before, packet[ids[n - 1]]);
          SettingsAlone(ram, n - 1, packet, i, fans[i].control.modeAdr[0]);
          hide FANDevice.SettingsRam, Pwm;
          assert n - 1 == i || !UsesCell(n - 1, a);
          assert SetAsAsked(fans[n - 1].control, packet[ids[n - 1]], before, SettingsRam(ram, n, packet), a);
        }
      }
    }

    /** A tick commands the selected speed of every fan with a curve and re-arms the timer. */
    method OnFanCurveTimerTimeout(access: bool, temperature: Option<int>)
      requires Valid() && fanCurveTimer.Timer?
      modifies this, chip
      ensures fanCurveTimer == Timer(true)
      ensures TickSafe(fans, old(chip.ram), chip.ram)
      ensures !access || temperature.None? ==> chip.ram == old(chip.ram)
      ensures |fans| == 1 && !fans[0].HasFanCurve() ==> chip.ram == old(chip.ram)
      ensures access && temperature.Some? && chip.reliable ==>
        chip.ram == TickRam(old(chip.ram), |fans|, temperature.value)
      ensures access && temperature.Some? && chip.reliable ==>
        TickExact(old(chip.ram), chip.ram, temperature.value)
    {
      hide TickSafe, WriteAll, Pwm, SpeedFor, FANDevice.CurveRam, SpeedStep, TickExact;
      TickSafeStart(fans, chip.ram);
      if temperature.Some? { TickIsExact(chip.ram, temperature.value); }
      if access {
        ghost var start := chip.ram;
        for i := 0 to |fans|
          invariant fanCurveTimer.Timer?
          invariant TickSafe(fans, start, chip.ram)
          invariant temperature.None? ==> chip.ram == start
          invariant |fans| == 1 && !fans[0].HasFanCurve() ==> chip.ram == start
          invariant i == 0 ==> chip.ram == start
          invariant temperature.Some? && chip.reliable ==> chip.ram == TickRam(start, i, temperature.value)
        {
          var fan := fans[i];
          if !fan.HasFanCurve() {
            if temperature.Some? { NoCurveNoChange(fan, chip.ram, temperature.value); }
            continue;
          }
          ghost var middle := chip.ram;
          var ok := fan.ApplyCurve(temperature);
          if temperature.Some? {
            TickSafeStep(fans, fan, start, middle, chip.ram, SpeedFor(fan.curve, temperature.value));
          }
        }
      }
      fanCurveTimer := Timer(true);
    }

    /** What a packet asks of a fan's mode holds; a fan it does not address, or whose mode it leaves alone,
        is not meant. */
    ghost predicate ModeTaken(i: nat, packet: map<string, FanData>)
      requires Valid() && i < |fans|
      reads chip
    {
      ids[i] in packet && packet[ids[i]].mode.Some? ==>
        if packet[ids[i]].mode.value == 0 then fans[i].control.Auto(chip.ram) else fans[i].control.Manual(chip.ram)
    }

    /** The addressed fans below n hold their sorted curves, the others the curves they had. */
    twostate predicate CurvesTaken(n: nat, packet: map<string, FanData>)
      requires Valid() && n <= |fans|
      reads fans
    {
      forall i :: 0 <= i < |fans| ==>
        if i < n && ids[i] in packet then SortOf(fans[i].curve, packet[ids[i]].curve)
        else fans[i].curve == old(fans[i].curve)
    }

    /** Some addressed fan below n is asked to follow a curve. */
    predicate CurveAsked(n: nat, packet: map<string, FanData>)
      requires Valid() && n <= |fans|
    {
      exists i :: 0 <= i < n && ids[i] in packet && AsksForCurve(packet[ids[i]])
    }

    /** The loop over the fans. */
    method ApplyFans(packet: map<string, FanData>) returns (failed: bool, hasFanCurve: bool)
      requires Valid()
      modifies chip, fans
      ensures hasFanCurve == CurveAsked(|fans|, packet) && CurvesTaken(|fans|, packet) && PointsTaken(|fans|, packet)
      ensures chip.reliable ==> !failed && chip.ram == SettingsRam(old(chip.ram), |fans|, packet)
      ensures |fans| == 1 && !failed ==> ModeTaken(0, packet)
    {
      hide SortOf, WriteAll, Pwm, FANDevice.SettingsRam;
      ghost var start := chip.ram;
      failed, hasFanCurve := false, false;
      for i := 0 to |fans|
        invariant hasFanCurve == CurveAsked(i, packet) && CurvesTaken(i, packet) && PointsTaken(i, packet)
        invariant chip.reliable ==> !failed && chip.ram == SettingsRam(start, i, packet)
        invariant |fans| == 1 && i == 1 && !failed ==> ModeTaken(0, packet)
      {
        if ids[i] !in packet { continue; }
        var data := packet[ids[i]];
        if AsksForCurve(data) { hasFanCurve := true; }
        var modeError, speedError := fans[i].ApplySettings(data);
        failed := failed || modeError || speedError;
      }
    }

    /** A cell of fan i, which shares none and was sent at most one point. */
    ghost predicate Fixed(i: nat, packet: map<string, FanData>, a: Address)
      requires Valid() && i < |fans|
    {
      && Alone(i) && ids[i] in packet && |packet[ids[i]].curve| <= 1
      && UsesCell(i, a)
    }

    /** Such a fan has the mode and the speed asked for. */
    ghost predicate FixedAsAsked(packet: map<string, FanData>, before: Ram, after: Ram)
      requires Valid()
    {
      forall i: nat, a: Address :: i < |fans| && Fixed(i, packet, a) ==>
        SetAsAsked(fans[i].control, packet[ids[i]], before, after, a)
    }

    /** A speed cell of fan i, which shares none and was asked to follow a curve. */
    ghost predicate Follows(i: nat, packet: map<string, FanData>, a: Address)
      requires Valid() && i < |fans|
    {
      Alone(i) && ids[i] in packet && AsksForCurve(packet[ids[i]]) && a in fans[i].control.writeAdr
    }

    /** Such a fan runs at the speed selected for t. */
    ghost predicate CurvesFollowed(packet: map<string, FanData>, after: Ram, t: int)
      requires Valid()
      reads fans
    {
      forall i: nat, a: Address :: i < |fans| && Follows(i, packet, a) ==>
        |fans[i].curve| > 1 && after[a] == Pwm(fans[i].control, SpeedFor(fans[i].curve, t))
    }

    /** Each addressed fan has as many points as it was sent. */
    ghost predicate PointsTaken(n: nat, packet: map<string, FanData>)
      requires Valid() && n <= |fans|
      reads fans
    {
      forall i :: 0 <= i < n && ids[i] in packet ==> |fans[i].curve| == |packet[ids[i]].curve|
    }

    lemma FixedBeforeTick(ram: Ram, packet: map<string, FanData>)
      requires Valid()
      ensures FixedAsAsked(packet, ram, SettingsRam(ram, |fans|, packet))
    {
      hide SetAsAsked, SettingsRam, Alone;
      forall i: nat, a: Address | i < |fans| && Fixed(i, packet, a)
        ensures SetAsAsked(fans[i].control, packet[ids[i]], ram, SettingsRam(ram, |fans|, packet), a)
      {
        SettingsAlone(ram, |fans|, packet, i, a);
      }
    }

    /** The immediate tick leaves fixed speeds alone. */
    lemma FixedAfterTick(ram: Ram, before: Ram, after: Ram, packet: map<string, FanData>, t: int)
      requires Valid() && PointsTaken(|fans|, packet)
      requires FixedAsAsked(packet, ram, before) && TickExact(before, after, t)
      ensures FixedAsAsked(packet, ram, after)
    {
      hide Last, Pwm, SpeedFor;
      forall i: nat, a: Address | i < |fans| && Fixed(i, packet, a)
        ensures SetAsAsked(fans[i].control, packet[ids[i]], ram, after, a)
      {
        forall j: nat | j < |fans| ensures !Commands(before, j, a) {
          assert j == i || !UsesCell(j, a);
        }
        assert after[a] == before[a];
        assert SetAsAsked(fans[i].control, packet[ids[i]], ram, before, a);
      }
    }

    lemma AskedIff(packet: map<string, FanData>)
      requires Valid()
      ensures CurveAsked(|fans|, packet) <==>
        exists i :: 0 <= i < |fans| && ids[i] in packet && packet[ids[i]].mode.Some?
                    && packet[ids[i]].mode.value != 0 && |packet[ids[i]].curve| > 1
    {
      if i :| 0 <= i < |fans| && ids[i] in packet && packet[ids[i]].mode.Some?
              && packet[ids[i]].mode.value != 0 && |packet[ids[i]].curve| > 1
      {
        assert AsksForCurve(packet[ids[i]]);
      }
    }

    lemma FollowsAsks(packet: map<string, FanData>, i: nat, a: Address)
      requires Valid() && i < |fans|
      ensures Follows(i, packet, a) ==> CurveAsked(|fans|, packet)
    {
    }

    lemma NothingToFollow(packet: map<string, FanData>, after: Ram, t: int)
      requires Valid() && !CurveAsked(|fans|, packet)
      ensures CurvesFollowed(packet, after, t)
    {
      forall i: nat, a: Address | i < |fans| ensures !Follows(i, packet, a) {
        FollowsAsks(packet, i, a);
      }
    }

    lemma CurvesAfterTick(ram: Ram, after: Ram, packet: map<string, FanData>, t: int)
      requires Valid() && PointsTaken(|fans|, packet) && TickExact(SettingsRam(ram, |fans|, packet), after, t)
      ensures CurvesFollowed(packet, after, t)
    {
      hide Pwm, SpeedFor, SettingsRam;
      var before := SettingsRam(ram, |fans|, packet);
      forall i: nat, a: Address | i < |fans| && Follows(i, packet, a)
        ensures |fans[i].curve| > 1 && after[a] == Pwm(fans[i].control, SpeedFor(fans[i].curve, t))
      {
        SettingsAlone(ram, |fans|, packet, i, fans[i].control.modeAdr[0]);
        assert Commands(before, i, a);
        assert UsesCell(i, a);
        forall j: nat | i < j < |fans| ensures !Commands(before, j, a) {
          assert !UsesCell(j, a);
        }
        assert Last(before, |fans|, i, a);
      }
    }

    lemma TickKeepsMode(before: Ram, i: nat, packet: map<string, FanData>)
      requires Valid() && i < |fans| && TickSafe(fans, before, chip.ram)
      ensures fans[i].control.Manual(before) ==> fans[i].control.Manual(chip.ram)
      ensures fans[i].control.Auto(before) ==> fans[i].control.Auto(chip.ram)
    {
      assert fans[i].control == ControlsOf(fans[i].control.board);
    }

    /** The timer exists afterwards exactly when some fan was asked to follow a curve, and then it is running;
        every addressed fan holds its sorted curve, the others keep theirs. Without a failing port
        RAM is what the fans' settings make it, and then the immediate tick, for any number of fans. */
    method ApplySettings(packet: map<string, FanData>, access: bool, temperature: Option<int>, otherErrors: bool)
      returns (errors: bool)
      requires Valid()
      modifies this, chip, fans
      ensures TimerInv() && (fanCurveTimer.Timer? <==> CurveAsked(|fans|, packet))
      ensures fanCurveTimer.Timer? <==>
        exists i :: 0 <= i < |fans| && ids[i] in packet && packet[ids[i]].mode.Some?
                    && packet[ids[i]].mode.value != 0 && |packet[ids[i]].curve| > 1
      ensures CurvesTaken(|fans|, packet)
      ensures otherErrors || !access ==> errors
      ensures chip.reliable ==> (errors <==> otherErrors || !access)
      ensures chip.reliable && !(fanCurveTimer.Timer? && access && temperature.Some?) ==>
        chip.ram == SettingsRam(old(chip.ram), |fans|, packet)
      ensures chip.reliable && fanCurveTimer.Timer? && access && temperature.Some? ==>
        chip.ram == TickRam(SettingsRam(old(chip.ram), |fans|, packet), |fans|, temperature.value)
      ensures |fans| == 1 && !errors ==> ModeTaken(0, packet)
      ensures chip.reliable ==> FixedAsAsked(packet, old(chip.ram), chip.ram)
      ensures chip.reliable && access && temperature.Some? ==> CurvesFollowed(packet, chip.ram, temperature.value)
    {
      hide TickSafe, SettingsRam, TickRam, CurveAsked, FixedAsAsked, CurvesFollowed, TickExact, SortOf;
      FixedBeforeTick(chip.ram, packet);
      StopTimer();
      errors := otherErrors || !access;
      var failed, hasFanCurve := ApplyFans(packet);
      errors := errors || failed;
      SetupFanCurveTimer(hasFanCurve);
      AskedIff(packet);
      if !hasFanCurve && temperature.Some? { NothingToFollow(packet, chip.ram, temperature.value); }
      if fanCurveTimer.Timer? {
        ghost var before := chip.ram;
        OnFanCurveTimerTimeout(access, temperature);
        if |fans| == 1 { TickKeepsMode(before, 0, packet); }
        if chip.reliable && access && temperature.Some? {
          FixedAfterTick(old(chip.ram), before, chip.ram, packet, temperature.value);
          CurvesAfterTick(old(chip.ram), chip.ram, packet, temperature.value);
        }
      }
    }

    /** Any run of ticks and fills between two applies: the timer invariant holds throughout, a
        manual board is still manual at the end, and if all fans start in automatic mode, as
        after a successful PrepareForSleep, controller RAM has not changed at all. Ticks
        only happen while the timer exists. */
    method RunBetweenApplies(events: seq<Event>)
      requires Valid() && TimerInv()
      modifies this, chip
      ensures TimerInv() && (fanCurveTimer.Timer? <==> old(fanCurveTimer).Timer?)
      ensures TickSafe(fans, old(chip.ram), chip.ram)
      ensures old(AllAuto()) ==> chip.ram == old(chip.ram)
    {
      ghost var start := chip.ram;
      for i := 0 to |events|
        invariant TimerInv() && (fanCurveTimer.Timer? <==> old(fanCurveTimer).Timer?)
        invariant TickSafe(fans, start, chip.ram)
      {
        match events[i] {
          case Fill =>
            FillPacketDeviceData();
          case Tick(access, temperature) =>
            if fanCurveTimer.Timer? {
              ghost var middle := chip.ram;
              OnFanCurveTimerTimeout(access, temperature);
              TickSafeTransitive(fans, start, middle, chip.ram);
            }
        }
      }
      if old(AllAuto()) {
        forall f | f in fans ensures f.Valid() && f.control.Auto(start) {
          var i :| 0 <= i < |fans| && fans[i] == f;
        }
      }
    }

    /** After a successful PrepareForSleep no curve tick changes controller RAM until the next apply. */
    method SleepThenRun(access: bool, events: seq<Event>) returns (success: bool)
      requires Valid() && TimerInv()
      modifies this, chip
      ensures success ==> AllAuto() && chip.ram == SleptRam(old(chip.ram), |fans|)
      ensures access && chip.reliable ==> success
    {
      success := PrepareForSleep(access);
      RunBetweenApplies(events);
    }
  }
}
