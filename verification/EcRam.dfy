/** Embedded-controller RAM behind an index/data port pair, and the fan registers in it
    (the gpd* members of src/Device/OS/Windows/OSWindows.cpp). */
module EcRam {
  import opened Basics

  type Address = a: int | 0 <= a < 0x1_0000
  type Ram = r: seq<Byte> | |r| == 0x1_0000 witness seq(0x1_0000, i => 0)

  /** The controller: an index port selects register 0x2e (which latch to use next) or 0x2f
      (that latch): 0x11 and 0x10 are the high and low address bytes, 0x12 the RAM cell.
      Any port access may fail, unless the chip is `reliable`; one that fails has no effect. */
  class EcChip {
    const addrPort: Byte
    const dataPort: Byte
    const reliable: bool
    var index: Byte
    var latch: Byte
    var high: Byte
    var low: Byte
    var ram: Ram

    constructor (addrPort: Byte, dataPort: Byte, reliable: bool, ram: Ram)
      ensures this.addrPort == addrPort && this.dataPort == dataPort && this.reliable == reliable && this.ram == ram
    {
      this.addrPort, this.dataPort, this.reliable, this.ram := addrPort, dataPort, reliable, ram;
      index, latch, high, low := *, *, *, *;
    }

    function Cell(): Address
      reads this
    {
      high * 0x100 + low
    }

    method WriteIoPortByteEx(port: Byte, value: Byte) returns (ok: bool)
      modifies this
      ensures !ok ==> unchanged(this)
      ensures ok && port == addrPort ==> index == value && unchanged(`latch, `high, `low, `ram)
      ensures ok && port == dataPort && port != addrPort ==> (
        unchanged(`index)
        && latch == (if index == 0x2e then value else old(latch))
        && high == (if index == 0x2f && old(latch) == 0x11 then value else old(high))
        && low == (if index == 0x2f && old(latch) == 0x10 then value else old(low))
        && ram == (if index == 0x2f && old(latch) == 0x12 then old(ram)[old(Cell()) := value] else old(ram)))
      ensures reliable ==> ok
    {
      ok := *;
      ok := ok || reliable;
      if !ok { return; }
      if port == addrPort {
        index := value;
      } else if port == dataPort {
        if index == 0x2e {
          latch := value;
        } else if index == 0x2f {
          if latch == 0x11 { high := value; }
          else if latch == 0x10 { low := value; }
          else if latch == 0x12 { ram := ram[Cell() := value]; }
        }
      }
    }

    method ReadIoPortByteEx(port: Byte) returns (ok: bool, value: Byte)
      ensures reliable ==> ok
      ensures ok && port == dataPort && index == 0x2f && latch == 0x12 ==> value == ram[Cell()]
    {
      ok, value := *, *;
      ok := ok || reliable;
      if port == dataPort && index == 0x2f && latch == 0x12 { value := ram[Cell()]; }
    }
  }

  /** The part both transactions share: address the cell, select the data latch. */
  method SelectCell(chip: EcChip, addrPort: Byte, dataPort: Byte, offset: Address) returns (ok: bool)
    requires addrPort == chip.addrPort && dataPort == chip.dataPort && addrPort != dataPort
    modifies chip
    ensures chip.ram == old(chip.ram)
    ensures ok ==> chip.Cell() == offset && chip.index == 0x2f && chip.latch == 0x12
    ensures chip.reliable ==> ok
  {
    ok := chip.WriteIoPortByteEx(addrPort, 0x2e);
    if !ok { return; }
    ok := chip.WriteIoPortByteEx(dataPort, 0x11);
    if !ok { return; }
    ok := chip.WriteIoPortByteEx(addrPort, 0x2f);
    if !ok { return; }
    ok := chip.WriteIoPortByteEx(dataPort, (offset / 0x100) % 0x100);
    if !ok { return; }
    ok := chip.WriteIoPortByteEx(addrPort, 0x2e);
    if !ok { return; }
    ok := chip.WriteIoPortByteEx(dataPort, 0x10);
    if !ok { return; }
    ok := chip.WriteIoPortByteEx(addrPort, 0x2f);
    if !ok { return; }
    ok := chip.WriteIoPortByteEx(dataPort, offset % 0x100);
    if !ok { return; }
    ok := chip.WriteIoPortByteEx(addrPort, 0x2e);
    if !ok { return; }
    ok := chip.WriteIoPortByteEx(dataPort, 0x12);
    if !ok { return; }
    ok := chip.WriteIoPortByteEx(addrPort, 0x2f);
  }

  /** From any latch state: RAM is never changed, and on success the cell's value is returned. */
  method GpdECRamRead(chip: EcChip, addrPort: Byte, dataPort: Byte, offset: Address) returns (ok: bool, value: Byte)
    requires addrPort == chip.addrPort && dataPort == chip.dataPort && addrPort != dataPort
    modifies chip
    ensures chip.ram == old(chip.ram)
    ensures ok ==> value == chip.ram[offset]
    ensures chip.reliable ==> ok
  {
    value := 0;
    ok := SelectCell(chip, addrPort, dataPort, offset);
    if !ok { return; }
    ok, value := chip.ReadIoPortByteEx(dataPort);
  }

  /** From any latch state: exactly one cell is updated on success, none on failure. */
  method GpdECRamWrite(chip: EcChip, addrPort: Byte, dataPort: Byte, offset: Address, value: Byte) returns (ok: bool)
    requires addrPort == chip.addrPort && dataPort == chip.dataPort && addrPort != dataPort
    modifies chip
    ensures chip.ram == if ok then old(chip.ram)[offset := value] else old(chip.ram)
    ensures chip.reliable ==> ok
  {
    ok := SelectCell(chip, addrPort, dataPort, offset);
    if !ok { return; }
    ok := chip.WriteIoPortByteEx(dataPort, value);
  }

  /** The two transactions together are a memory addressed with 16 bits. */
  method WriteThenRead(chip: EcChip, addrPort: Byte, dataPort: Byte, a: Address, v: Byte, b: Address)
    returns (wrote: bool, read: bool, value: Byte)
    requires addrPort == chip.addrPort && dataPort == chip.dataPort && addrPort != dataPort
    modifies chip
    ensures read ==> value == if wrote && a == b then v else old(chip.ram)[b]
    ensures chip.reliable ==> wrote && read
  {
    wrote := GpdECRamWrite(chip, addrPort, dataPort, a, v);
    read, value := GpdECRamRead(chip, addrPort, dataPort, b);
  }

  // ---------- fan boards ----------

  datatype FanBoard = GPD_WIN4 | GPD_WIN_MINI | GPD_WIN_MAX2 | GPD_DUO | GPD_MPC2

  datatype FanControls = FanControls(
    board: FanBoard, addrPort: Byte, dataPort: Byte, writeAdr: seq<Address>, modeAdr: seq<Address>, maxPWM: nat)
  {
    /** What every board table entry satisfies; see BoardsAreOk. */
    predicate Ok() {
      addrPort != dataPort && |modeAdr| > 0 && |writeAdr| > 0 && 1 <= maxPWM < 0x100
    }

    /** In manual mode every mode cell is nonzero. */
    ghost predicate Manual(ram: Ram) {
      forall a :: a in modeAdr ==> ram[a] != 0
    }

    /** The cell the daemon looks at to tell the mode. */
    predicate Auto(ram: Ram)
      requires |modeAdr| > 0
    {
      ram[modeAdr[0]] == 0
    }
  }

  /** The board table under src/Device/FAN/GPD. */
  function ControlsOf(board: FanBoard): FanControls {
    match board
    case GPD_WIN4 => FanControls(board, 0x2e, 0x2f, [0xc311], [0xc311], 127)
    case GPD_WIN_MINI => FanControls(board, 0x4e, 0x4f, [0x47a], [0x47a], 244)
    case GPD_WIN_MAX2 => FanControls(board, 0x4e, 0x4f, [0x1809], [0x275], 184)
    case GPD_DUO => FanControls(board, 0x4e, 0x4f, [0x47a, 0x47b], [0x47a, 0x47b], 244)
    case GPD_MPC2 => FanControls(board, 0x4e, 0x4f, [0x47a], [0x47a], 244)
  }

  lemma BoardsAreOk(board: FanBoard)
    ensures ControlsOf(board).Ok() && ControlsOf(board).board == board
    ensures var c := ControlsOf(board);
      && c.addrPort == (if board == GPD_WIN4 then 0x2e else 0x4e) && c.dataPort == c.addrPort + 1
      && c.maxPWM == (if board == GPD_WIN4 then 127 else if board == GPD_WIN_MAX2 then 184 else 244)
      && (board == GPD_WIN4 ==> c.writeAdr == c.modeAdr == [0xc311])
      && (board == GPD_WIN_MAX2 ==> c.writeAdr == [0x1809] && c.modeAdr == [0x275])
      && (board == GPD_DUO ==> c.writeAdr == c.modeAdr == [0x47a, 0x47b])
      && (board == GPD_WIN_MINI || board == GPD_MPC2 ==> c.writeAdr == c.modeAdr == [0x47a])
  {
  }

  /** C++ integer division, towards zero. */
  function TruncDiv(a: int, b: int): int
    requires b > 0
  {
    if a >= 0 then a / b else -(-a / b)
  }

  /** `qBound(1, maxPWM * speed / 100, maxPWM)`. */
  function Pwm(c: FanControls, speed: int): (v: Byte)
    requires c.Ok()
    ensures 1 <= v <= c.maxPWM
  {
    var raw := TruncDiv(c.maxPWM * speed, 100);
    if raw < 1 then 1 else if raw > c.maxPWM then c.maxPWM else raw
  }

  /** A higher requested speed never gives a lower duty cycle; 100 percent gives the maximum. */
  lemma PwmMonotone(c: FanControls, s: int, t: int)
    requires c.Ok() && s <= t
    ensures Pwm(c, s) <= Pwm(c, t)
    ensures t >= 100 ==> Pwm(c, t) == c.maxPWM
    ensures s <= 0 ==> Pwm(c, s) == 1
  {
    MulLe(s, t, c.maxPWM);
    if t >= 100 { MulLe(100, t, c.maxPWM); }
    if s <= 0 { MulLe(s, 0, c.maxPWM); }
  }

  /** Between the ends the duty cycle is that share of the maximum, rounded down. */
  lemma PwmIsShare(c: FanControls, speed: int)
    requires c.Ok() && 100 <= c.maxPWM * speed && speed <= 100
    ensures Pwm(c, speed) * 100 <= c.maxPWM * speed < (Pwm(c, speed) + 1) * 100
  {
    if speed <= 0 { MulLe(speed, 0, c.maxPWM); }
    MulLe(speed, 100, c.maxPWM);
  }

  /** The mode value written for a requested mode. */
  function ModeValue(c: FanControls, mode: int): (v: Byte)
    requires c.Ok()
    ensures v == 0 <==> mode == 0
  {
    if mode == 0 then 0 else if c.board.GPD_WIN_MAX2? then 1 else c.maxPWM
  }

  /** RAM after writing v to each address in turn. */
  function WriteAll(ram: Ram, adrs: seq<Address>, v: Byte): Ram {
    if adrs == [] then ram
    else WriteAll(ram, adrs[..|adrs| - 1], v)[adrs[|adrs| - 1] := v]
  }

  lemma {:induction false} WriteAllCells(ram: Ram, adrs: seq<Address>, v: Byte)
    ensures forall a: Address :: WriteAll(ram, adrs, v)[a] == if a in adrs then v else ram[a]
  {
    if adrs != [] {
      var rest, last := adrs[..|adrs| - 1], adrs[|adrs| - 1];
      assert adrs == rest + [last];
      WriteAllCells(ram, rest, v);
    }
  }

  /** Some prefix of the addresses was written. */
  ghost predicate WrotePrefix(before: Ram, after: Ram, adrs: seq<Address>, v: Byte, all: bool) {
    exists n :: 0 <= n <= |adrs| && (all ==> n == |adrs|) && after == WriteAll(before, adrs[..n], v)
  }

  method WriteEach(chip: EcChip, c: FanControls, adrs: seq<Address>, v: Byte) returns (ok: bool)
    requires c.Ok() && c.addrPort == chip.addrPort && c.dataPort == chip.dataPort
    modifies chip
    ensures WrotePrefix(old(chip.ram), chip.ram, adrs, v, ok)
    ensures chip.reliable ==> ok
  {
    for i := 0 to |adrs|
      invariant chip.ram == WriteAll(old(chip.ram), adrs[..i], v)
    {
      ok := GpdECRamWrite(chip, c.addrPort, c.dataPort, adrs[i], v);
      if !ok { return; }
      assert adrs[..i + 1][..i] == adrs[..i];
    }
    assert adrs[..|adrs|] == adrs;
    ok := true;
  }

  method GetGPDFanMode(chip: EcChip, c: FanControls) returns (mode: Option<int>)
    requires c.Ok() && c.addrPort == chip.addrPort && c.dataPort == chip.dataPort
    modifies chip
    ensures chip.ram == old(chip.ram)
    ensures mode.Some? ==> mode.value == if c.Auto(chip.ram) then 0 else 1
    ensures chip.reliable ==> mode.Some?
  {
    var ok, m := GpdECRamRead(chip, c.addrPort, c.dataPort, c.modeAdr[0]);
    mode := if ok then Some(if m == 0 then 0 else 1) else None;
  }

  /** No requested mode is no change; otherwise the mode cells get the mode's value in order. */
  method SetGPDFanMode(chip: EcChip, mode: Option<int>, c: FanControls) returns (ok: bool)
    requires c.Ok() && c.addrPort == chip.addrPort && c.dataPort == chip.dataPort
    modifies chip
    ensures mode.None? ==> ok && chip.ram == old(chip.ram)
    ensures mode.Some? ==> WrotePrefix(old(chip.ram), chip.ram, c.modeAdr, ModeValue(c, mode.value), ok)
    ensures chip.reliable ==> ok
    ensures ok && mode.Some? ==> if mode.value == 0 then c.Auto(chip.ram) else c.Manual(chip.ram)
    ensures ok && mode.Some? ==>
      forall a: Address ::
        chip.ram[a] == if a !in c.modeAdr then old(chip.ram)[a]
                       else if mode.value == 0 then 0 else if c.board == GPD_WIN_MAX2 then 1 else c.maxPWM
  {
    if mode.None? { return true; }
    ok := WriteEach(chip, c, c.modeAdr, ModeValue(c, mode.value));
    if ok {
      assert c.modeAdr[..|c.modeAdr|] == c.modeAdr;
      WriteAllCells(old(chip.ram), c.modeAdr, ModeValue(c, mode.value));
    }
  }

  /** What a speed command may do to RAM: nothing in automatic mode, otherwise write the clamped
      duty cycle to a prefix of the speed cells. */
  ghost predicate SpeedStep(c: FanControls, before: Ram, after: Ram, speed: int)
    requires c.Ok()
  {
    || after == before
    || (!c.Auto(before) && WrotePrefix(before, after, c.writeAdr, Pwm(c, speed), false))
  }

  /** In automatic mode, and when the mode cannot be read, the call succeeds without writing; otherwise
      success means that every speed cell holds the clamped duty cycle. */
  method SetGPDFanSpeed(chip: EcChip, speed: int, c: FanControls) returns (ok: bool, ghost modeRead: bool)
    requires c.Ok() && c.addrPort == chip.addrPort && c.dataPort == chip.dataPort
    modifies chip
    ensures SpeedStep(c, old(chip.ram), chip.ram, speed)
    ensures !modeRead || c.Auto(old(chip.ram)) ==> ok && chip.ram == old(chip.ram)
    ensures modeRead && !c.Auto(old(chip.ram)) ==>
      WrotePrefix(old(chip.ram), chip.ram, c.writeAdr, Pwm(c, speed), ok)
    ensures ok && modeRead && !c.Auto(old(chip.ram)) ==>
      chip.ram == WriteAll(old(chip.ram), c.writeAdr, Pwm(c, speed))
    ensures chip.reliable ==> ok && modeRead
    ensures chip.reliable && !c.Auto(old(chip.ram)) ==> chip.ram == WriteAll(old(chip.ram), c.writeAdr, Pwm(c, speed))
  {
    var mode := GetGPDFanMode(chip, c);
    modeRead := mode.Some?;
    var val := Pwm(c, speed);
    if mode.None? || mode.value == 0 { return true, modeRead; }
    ok := WriteEach(chip, c, c.writeAdr, val);
    if ok { assert c.writeAdr[..|c.writeAdr|] == c.writeAdr; }
  }

  /** On any board, a speed command for fan c keeps every board d that was in manual mode there,
      even where speed and mode cells coincide: only nonzero values are written. It never
      switches a board to automatic mode, and in automatic mode it changes nothing. */
  lemma SpeedKeepsManual(c: FanControls, d: FanControls, before: Ram, after: Ram, speed: int)
    requires c.Ok() && d.Ok() && SpeedStep(c, before, after, speed)
    ensures d.Manual(before) ==> d.Manual(after)
    ensures !d.Auto(before) ==> !d.Auto(after)
    ensures c.Auto(before) ==> after == before
  {
    if after != before {
      var n :| 0 <= n <= |c.writeAdr| && after == WriteAll(before, c.writeAdr[..n], Pwm(c, speed));
      WriteAllCells(before, c.writeAdr[..n], Pwm(c, speed));
    }
  }

  /** Boards of the table share cells only in one way: whoever writes another board's first mode cell as a
      speed has the same first mode cell. */
  lemma BoardsShareFirstCell(c: FanBoard, d: FanBoard)
    ensures ControlsOf(d).modeAdr[0] in ControlsOf(c).writeAdr ==>
            ControlsOf(d).modeAdr[0] == ControlsOf(c).modeAdr[0]
  {
  }

  /** So among the boards of the table a speed command never wakes one that is in automatic mode. */
  lemma SpeedKeepsAuto(c: FanBoard, d: FanBoard, before: Ram, after: Ram, speed: int)
    requires SpeedStep(ControlsOf(c), before, after, speed) && ControlsOf(d).Auto(before)
    ensures ControlsOf(d).Auto(after)
  {
    var cs, ds := ControlsOf(c), ControlsOf(d);
    BoardsShareFirstCell(c, d);
    if after != before {
      var n :| 0 <= n <= |cs.writeAdr| && after == WriteAll(before, cs.writeAdr[..n], Pwm(cs, speed));
      WriteAllCells(before, cs.writeAdr[..n], Pwm(cs, speed));
      assert ds.modeAdr[0] !in cs.writeAdr;
    }
  }

  /** The clamp is what this rests on: where speed and mode cells coincide, the value 0 would
      switch the board to automatic mode. */
  lemma ZeroWouldSwitchToAuto(c: FanControls, ram: Ram)
    requires c.Ok() && c.modeAdr[0] in c.writeAdr
    ensures c.Auto(WriteAll(ram, c.writeAdr, 0))
  {
    WriteAllCells(ram, c.writeAdr, 0);
  }
}
