/** The hardware-P-state activity window: microseconds as mantissa * 10^exponent with
    7 and 3 bits (src/Device/CPU/Intel/IntelUtils.cpp, IA32_HWP_REQUEST.h). */
module HwpWindow {

  function Pow10(e: nat): nat {
    if e == 0 then 1 else 10 * Pow10(e - 1)
  }

  /** m * 10^e by repeated multiplication; see ScaleIsProduct. */
  function Scale(m: nat, e: nat): nat {
    if e == 0 then m else 10 * Scale(m, e - 1)
  }

  datatype Window = Window(exponent: nat, mantissa: nat) {
    predicate Representable() { exponent < 8 && mantissa < 128 }

    /** What a register holding this pair reads back as. */
    function Decoded(): nat { Scale(mantissa, exponent) }
  }

  lemma {:induction false} ScaleIsProduct(m: nat, e: nat)
    ensures Scale(m, e) == m * Pow10(e)
  {
    if e != 0 {
      ScaleIsProduct(m, e - 1);
      TimesTen(m, Pow10(e - 1));
    }
  }

  lemma TimesTen(m: nat, p: nat)
    ensures m * (10 * p) == 10 * (m * p)
  {
  }

  /** How many divisions by ten bring us to 127 or less, and what is left. */
  function Steps(us: int): nat
    decreases if us < 0 then 0 else us
  {
    if us <= 127 then 0 else 1 + Steps(us / 10)
  }

  function Reduced(us: int): int
    decreases if us < 0 then 0 else us
  {
    if us <= 127 then us else Reduced(us / 10)
  }

  /** The masks are `& 0x7` and `& 0x7f` of a two's complement int. */
  function Encoded(us: int): Window {
    Window(Steps(us) % 8, Reduced(us) % 128)
  }

  method USecToRawHWPActivityWindow(usec: int) returns (w: Window)
    ensures w == Encoded(usec)
  {
    var us, exponent := usec, 0;
    while us > 127
      invariant Steps(usec) == exponent + Steps(us)
      invariant Reduced(usec) == Reduced(us)
      invariant exponent >= 0
      decreases if us < 0 then 0 else us
    {
      us := us / 10;
      exponent := exponent + 1;
    }
    w := Window(exponent % 8, us % 128);
  }

  const EXPONENT_LIMIT := 1_280_000_000
  const INT_MAX := 0x7fff_ffff

  lemma {:induction false} ReducedRange(us: int)
    requires 0 <= us
    ensures 0 <= Reduced(us) <= 127
    ensures Steps(us) > 0 ==> Reduced(us) >= 12
  {
    if us > 127 {
      ReducedRange(us / 10);
    }
  }

  /** Dividing repeatedly is one floor division. */
  lemma {:induction false} ReducedIsFloor(us: int)
    requires 0 <= us
    ensures 0 <= Reduced(us)
    ensures Scale(Reduced(us), Steps(us)) <= us < Scale(Reduced(us) + 1, Steps(us))
  {
    if us > 127 {
      ReducedIsFloor(us / 10);
    }
  }

  /** At most k divisions suffice exactly below 128 * 10^k. */
  lemma {:induction false} StepsBelow(us: int, k: nat)
    ensures Steps(us) <= k <==> us < Scale(128, k)
    decreases k
  {
    if k != 0 {
      StepsBelow(us / 10, k - 1);
    }
  }

  lemma LimitValue()
    ensures Scale(128, 7) == EXPONENT_LIMIT && Scale(128, 8) > INT_MAX
  {
    assert Scale(128, 3) == 128000;
    assert Scale(128, 6) == 128000000;
  }

  lemma {:induction false} FloorLoss(m: nat, e: nat)
    requires m >= 12
    ensures 12 * Scale(m + 1, e) <= 13 * Scale(m, e)
  {
    if e != 0 {
      FloorLoss(m, e - 1);
    }
  }

  /** Nothing lost but less than a thirteenth, and never rounded up. */
  ghost predicate Good(us: int) {
    && Encoded(us).Decoded() <= us
    && (us > 0 ==> 13 * Encoded(us).Decoded() > 12 * us)
  }

  lemma ExactFloorIsGood(us: int)
    requires 0 <= us
    ensures Reduced(us) >= 0 && Scale(Reduced(us), Steps(us)) <= us
    ensures us > 0 ==> 13 * Scale(Reduced(us), Steps(us)) > 12 * us
  {
    ReducedRange(us);
    ReducedIsFloor(us);
    if Steps(us) > 0 {
      FloorLoss(Reduced(us), Steps(us));
    }
  }

  lemma FewSteps(us: int)
    requires 0 <= us < EXPONENT_LIMIT
    ensures Steps(us) <= 7
  {
    LimitValue();
    StepsBelow(us, 7);
  }

  lemma EncodedBelowLimit(us: int)
    requires 0 <= us < EXPONENT_LIMIT
    ensures Reduced(us) >= 0 && Encoded(us) == Window(Steps(us), Reduced(us))
  {
    FewSteps(us);
    ReducedRange(us);
    hide Steps;
    hide Reduced;
  }

  lemma GoodBelowLimit(us: int)
    requires 0 <= us < EXPONENT_LIMIT
    ensures Good(us)
  {
    ExactFloorIsGood(us);
    EncodedBelowLimit(us);
  }

  lemma BadFromLimit(us: int)
    requires EXPONENT_LIMIT <= us <= INT_MAX
    ensures Encoded(us).exponent == 0 && Encoded(us).mantissa == Reduced(us)
    ensures 13 * Reduced(us) <= 12 * us
  {
    LimitValue();
    StepsBelow(us, 7);
    StepsBelow(us, 8);
    ReducedRange(us);
  }

  /** Over the whole C `int` range the encoding is good exactly for windows from zero to
      below 1.28e9 microseconds; beyond, the exponent wraps to zero. */
  lemma EncodingGood(us: int)
    requires us <= INT_MAX
    ensures Encoded(us).Representable()
    ensures Good(us) <==> 0 <= us < EXPONENT_LIMIT
  {
    if 0 <= us < EXPONENT_LIMIT {
      GoodBelowLimit(us);
    } else if EXPONENT_LIMIT <= us {
      BadFromLimit(us);
    }
  }

  /** A window of 1280 seconds is stored as 12 microseconds. */
  lemma LimitIsLost()
    ensures Encoded(EXPONENT_LIMIT) == Window(0, 12) && Encoded(EXPONENT_LIMIT).Decoded() == 12
  {
    BadFromLimit(EXPONENT_LIMIT);
    assert Reduced(EXPONENT_LIMIT) == 12;
  }

  /** What the division loop does to a window the register can hold. */
  lemma {:induction false} ReEncode(m: nat, e: nat)
    requires m < 128
    ensures var v := Scale(m, e);
      && Steps(v) <= e
      && 0 <= Reduced(v) <= 127
      && Scale(Reduced(v), Steps(v)) == v
      && (Steps(v) == e <==> e == 0 || m >= 13)
      && (Steps(v) == e ==> Reduced(v) == m)
  {
    if e != 0 {
      ReEncode(m, e - 1);
      if m >= 13 {
        ScaleGrows(m, e - 1);
      }
    }
  }

  lemma {:induction false} ScaleGrows(m: nat, e: nat)
    ensures Scale(m, e) >= m
  {
    if e != 0 {
      ScaleGrows(m, e - 1);
    }
  }

  /** Every window a register can hold survives read-then-write by value; the pair itself
      survives exactly when the exponent is zero or the mantissa is at least 13. */
  lemma RegisterWindowRoundTrip(w: Window)
    requires w.Representable()
    ensures Encoded(w.Decoded()).Decoded() == w.Decoded()
    ensures Encoded(w.Decoded()) == w <==> w.exponent == 0 || w.mantissa >= 13
  {
    hide Scale, Steps, Reduced;
    ReEncode(w.mantissa, w.exponent);
    var v := Scale(w.mantissa, w.exponent);
    assert Steps(v) % 8 == Steps(v) && Reduced(v) % 128 == Reduced(v);
    assert Encoded(v) == Window(Steps(v), Reduced(v));
  }

  /** Windows do not decode monotonically: 128 microseconds become 120, below 127. */
  lemma NotMonotone()
    ensures Encoded(127).Decoded() == 127 && Encoded(128).Decoded() == 120
  {
    assert Encoded(128) == Window(1, 12);
  }
}
