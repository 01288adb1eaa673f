/** 64-bit machine words as bit sequences, least significant bit first, with the
    C operators the register code uses and the conversions to and from integers. */
module Words {

  type Word = w: seq<bool> | |w| == 64 witness seq(64, i => false)

  function Shr(w: Word, k: nat): Word
    requires k < 64
  {
    seq(64, i requires 0 <= i < 64 => i + k < 64 && w[i + k])
  }

  function Shl(w: Word, k: nat): Word
    requires k < 64
  {
    seq(64, i requires 0 <= i < 64 => k <= i && w[i - k])
  }

  function And(a: Word, b: Word): Word {
    seq(64, i requires 0 <= i < 64 => a[i] && b[i])
  }

  function Or(a: Word, b: Word): Word {
    seq(64, i requires 0 <= i < 64 => a[i] || b[i])
  }

  function Not(a: Word): Word {
    seq(64, i requires 0 <= i < 64 => !a[i])
  }

  function AllOnes(): Word {
    seq(64, i => true)
  }

  /** The mask `(1ULL << n) - 1`; see OnesIsPow2MinusOne. */
  function Ones(n: nat): Word
    requires n < 64
  {
    seq(64, i => i < n)
  }

  function Pow2(n: nat): (p: nat)
    ensures p >= 1
  {
    if n == 0 then 1 else 2 * Pow2(n - 1)
  }

  /** The unsigned value of a bit sequence. */
  function Value(bits: seq<bool>): nat {
    if bits == [] then 0 else (if bits[0] then 1 else 0) + 2 * Value(bits[1..])
  }

  /** The n low bits of x in two's complement: Dafny's `%` and `/` by 2 are the
      bit and the arithmetic shift for negative x as well. */
  function Bits(x: int, n: nat): (b: seq<bool>)
    ensures |b| == n
    decreases n
  {
    if n == 0 then [] else [x % 2 == 1] + Bits(x / 2, n - 1)
  }

  /** Conversion of a C integer to `uint64_t` (sign extension, then modulo 2^64). */
  function ToWord(x: int): Word {
    Bits(x, 64)
  }

  lemma {:induction false} ValueBound(bits: seq<bool>)
    ensures Value(bits) < Pow2(|bits|)
  {
    if bits != [] {
      ValueBound(bits[1..]);
    }
  }

  lemma {:induction false} ValueBits(x: int, n: nat)
    requires 0 <= x < Pow2(n)
    ensures Value(Bits(x, n)) == x
  {
    if n != 0 {
      ValueBits(x / 2, n - 1);
      assert Bits(x, n)[1..] == Bits(x / 2, n - 1);
    }
  }

  lemma {:induction false} BitsValue(bits: seq<bool>)
    ensures Bits(Value(bits), |bits|) == bits
  {
    if bits != [] {
      BitsValue(bits[1..]);
      assert Value(bits) / 2 == Value(bits[1..]);
    }
  }

  /** The low m bits of a conversion do not depend on how wide it is. */
  lemma {:induction false} BitsPrefix(x: int, m: nat, n: nat)
    requires m <= n
    ensures Bits(x, n)[..m] == Bits(x, m)
    decreases n
  {
    if m != 0 {
      BitsPrefix(x / 2, m - 1, n - 1);
      assert Bits(x, n)[..m] == [x % 2 == 1] + Bits(x / 2, n - 1)[..m - 1];
    }
  }

  ghost predicate ClearFrom(b: seq<bool>, m: nat) {
    forall i :: m <= i < |b| ==> !b[i]
  }

  /** Bits m and up are all clear exactly when x is an m-bit unsigned number; the
      bounds on x only say that it is a value of some C integer type of at most n bits. */
  lemma {:induction false} HighBitsClear(x: int, m: nat, n: nat)
    requires m < n && 0 <= x + Pow2(n - 1) && x < Pow2(n)
    ensures ClearFrom(Bits(x, n), m) <==> 0 <= x < Pow2(m)
    decreases n
  {
    var b, h := Bits(x, n), Bits(x / 2, n - 1);
    assert b[0] == (x % 2 == 1) && b[1..] == h;
    if n == 1 {
      assert x == -1 || x == 0 || x == 1;
    } else {
      var m' := if m == 0 then 0 else m - 1;
      HighBitsClear(x / 2, m', n - 1);
      if ClearFrom(b, m) {
        forall i | m' <= i < n - 1 ensures !h[i] {
          assert h[i] == b[i + 1];
        }
      }
      if ClearFrom(h, m') {
        assert forall i :: 0 < i < n ==> b[i] == h[i - 1];
      }
    }
  }

  /** `Ones(n)` is `(1 << n) - 1` and `1 << n` is 2^n, so the mask is the one in the source. */
  lemma {:induction false} OnesIsPow2MinusOne(n: nat, len: nat)
    requires n < len
    ensures Value(seq(len, i => i < n)) == Pow2(n) - 1
    ensures Value(seq(len, i => i == n)) == Pow2(n)
  {
    var ones, one := seq(len, i => i < n), seq(len, i => i == n);
    if n == 0 {
      ZeroValue(ones);
      ZeroValue(one[1..]);
    } else {
      OnesIsPow2MinusOne(n - 1, len - 1);
      assert ones[1..] == seq(len - 1, i => i < n - 1);
      assert one[1..] == seq(len - 1, i => i == n - 1);
    }
  }

  lemma {:induction false} ZeroValue(bits: seq<bool>)
    requires ClearFrom(bits, 0)
    ensures Value(bits) == 0
  {
    if bits != [] {
      ZeroValue(bits[1..]);
    }
  }

  lemma {:induction false} ValueZeroExtended(bits: seq<bool>, m: nat)
    requires m <= |bits| && ClearFrom(bits, m)
    ensures Value(bits) == Value(bits[..m])
  {
    if m == 0 {
      ZeroValue(bits);
    } else {
      ValueZeroExtended(bits[1..], m - 1);
      assert bits[..m][1..] == bits[1..][..m - 1];
    }
  }

  lemma Pow2Values()
    ensures Pow2(1) == 2 && Pow2(2) == 4 && Pow2(3) == 8 && Pow2(4) == 16 && Pow2(5) == 32
    ensures Pow2(6) == 64 && Pow2(7) == 128 && Pow2(8) == 256 && Pow2(9) == 512 && Pow2(10) == 1024
    ensures Pow2(11) == 2048 && Pow2(12) == 4096 && Pow2(13) == 8192 && Pow2(14) == 16384
    ensures Pow2(15) == 32768
  {
    assert Pow2(5) == 32;
    assert Pow2(10) == 1024;
  }

  lemma {:induction false} Pow2Monotone(a: nat, b: nat)
    requires a <= b
    ensures Pow2(a) <= Pow2(b)
  {
    if a < b {
      Pow2Monotone(a, b - 1);
    }
  }
}
