/** The binary stream format of QDataStream as the profile files use it: big-endian integers, byte
    arrays and strings with a length in front, and element after element of a list. */
module DataStream {
  import opened Basics

  type bytes = seq<Byte>

  /** A UTF-16 code unit of a QString. */
  type unit = x: int | 0 <= x < 0x1_0000

  function Cat(a: bytes, b: bytes): bytes {
    a + b
  }

  lemma CatAssoc(a: bytes, b: bytes, t: bytes)
    ensures Cat(Cat(a, b), t) == Cat(a, Cat(b, t))
  {
    assert (a + b) + t == a + (b + t);
  }

  lemma CatEmpty(a: bytes)
    ensures Cat(a, []) == a && Cat([], a) == a
  {
    assert a + [] == a && [] + a == a;
  }

  // ---------- integers ----------

  function Pow256(k: nat): (p: nat)
    ensures p > 0
  {
    if k == 0 then 1 else 256 * Pow256(k - 1)
  }

  function BigEndian(k: nat, v: nat): (r: bytes)
    ensures |r| == k
  {
    if k == 0 then [] else BigEndian(k - 1, v / 256) + [v % 256]
  }

  /** The most significant byte comes first. */
  lemma {:induction false} BigEndianBytes(k: nat, v: nat, i: nat)
    requires i < k
    ensures BigEndian(k, v)[i] == (v / Pow256(k - 1 - i)) % 256
  {
    if i < k - 1 {
      BigEndianBytes(k - 1, v / 256, i);
      DivTwice(v, Pow256(k - 2 - i));
    }
  }

  lemma DivTwice(v: nat, p: nat)
    requires p > 0
    ensures v / 256 / p == v / (256 * p)
  {
    var q := v / (256 * p);
    var r := v % (256 * p);
    assert v == (256 * p) * q + r;
    assert v / 256 == p * q + r / 256 by { assert v == 256 * (p * q) + r; }
    assert r / 256 < p by { assert r < 256 * p; }
    QuotientIs(p * q + r / 256, p, q, r / 256);
  }

  lemma QuotientIs(a: nat, p: nat, q: nat, r: nat)
    requires p > r && a == p * q + r
    ensures a / p == q
  {
    var d, m := a / p, a % p;
    assert a == p * d + m;
    MultipleSize(p, d - q);
    assert p * (d - q) == p * d - p * q;
  }

  lemma MultipleSize(p: nat, k: int)
    ensures k >= 1 ==> p * k >= p
    ensures k <= -1 ==> p * k <= 0 - p
  {
    if k >= 1 { MulLe(1, k, p); }
    if k <= -1 { MulLe(k, 0 - 1, p); }
  }

  function Number(b: bytes): nat {
    if b == [] then 0 else 256 * Number(b[..|b| - 1]) + b[|b| - 1]
  }

  lemma {:induction false} NumberOfBigEndian(k: nat, v: nat)
    requires v < Pow256(k)
    ensures Number(BigEndian(k, v)) == v
  {
    if k > 0 {
      NumberOfBigEndian(k - 1, v / 256);
      assert BigEndian(k, v)[..k - 1] == BigEndian(k - 1, v / 256);
    }
  }

  /** The unsigned integer of k bytes at the front; past the end of the data it reads as 0. */
  function GetNat(k: nat, b: bytes): (nat, bytes) {
    if |b| < k then (0, []) else (Number(b[..k]), b[k..])
  }

  lemma NatReadsBack(k: nat, v: nat, t: bytes)
    requires v < Pow256(k)
    ensures GetNat(k, Cat(BigEndian(k, v), t)) == (v, t)
  {
    var b := BigEndian(k, v) + t;
    assert b[..k] == BigEndian(k, v) && b[k..] == t;
    NumberOfBigEndian(k, v);
  }

  const HALF32: nat := 0x8000_0000
  const HALF64: nat := 0x8000_0000_0000_0000

  lemma Widths()
    ensures Pow256(4) == 2 * HALF32 && Pow256(8) == 2 * HALF64
  {
    assert Pow256(1) == 256 * Pow256(0);
    assert Pow256(2) == 256 * Pow256(1);
    assert Pow256(3) == 256 * Pow256(2);
    assert Pow256(4) == 256 * Pow256(3);
    assert Pow256(5) == 256 * Pow256(4);
    assert Pow256(6) == 256 * Pow256(5);
    assert Pow256(7) == 256 * Pow256(6);
    assert Pow256(8) == 256 * Pow256(7);
  }

  /** Two's complement. */
  function Signed(n: nat, half: nat): int {
    if n < half then n else n - 2 * half
  }

  function Unsigned(v: int, half: nat): nat
    requires 0 - half <= v < half
  {
    if v < 0 then v + 2 * half else v
  }

  function PutI32(v: int): bytes
    requires 0 - HALF32 <= v < HALF32
  {
    BigEndian(4, Unsigned(v, HALF32))
  }

  function GetI32(b: bytes): (int, bytes) {
    var (n, r) := GetNat(4, b);
    (Signed(n, HALF32), r)
  }

  /** A list size (qsizetype). */
  function PutSize(v: nat): bytes {
    BigEndian(8, v)
  }

  function GetSize(b: bytes): (int, bytes) {
    var (n, r) := GetNat(8, b);
    (Signed(n, HALF64), r)
  }

  lemma I32ReadsBack(v: int, t: bytes)
    requires 0 - HALF32 <= v < HALF32
    ensures GetI32(Cat(PutI32(v), t)) == (v, t)
  {
    Widths();
    NatReadsBack(4, Unsigned(v, HALF32), t);
  }

  lemma SizeReadsBack(v: nat, t: bytes)
    requires v < HALF64
    ensures GetSize(Cat(PutSize(v), t)) == (v, t)
  {
    Widths();
    NatReadsBack(8, v, t);
  }

  // ---------- byte arrays and strings ----------

  const EXTENDED_SIZE: nat := 0xffff_fffe
  const NULL_CODE: nat := 0xffff_ffff

  /** A length below 0xfffffffe takes four bytes, a longer one a marker and eight bytes. */
  function PutLength(n: nat): bytes {
    if n < EXTENDED_SIZE then BigEndian(4, n) else Cat(BigEndian(4, EXTENDED_SIZE), PutSize(n))
  }

  /** -1 stands for a null array. */
  function GetLength(b: bytes): (int, bytes) {
    var (n, r) := GetNat(4, b);
    if n == NULL_CODE then (-1, r) else if n == EXTENDED_SIZE then GetSize(r) else (n, r)
  }

  lemma LengthReadsBack(n: nat, t: bytes)
    requires n < HALF64
    ensures GetLength(Cat(PutLength(n), t)) == (n, t)
  {
    Widths();
    if n < EXTENDED_SIZE {
      NatReadsBack(4, n, t);
    } else {
      CatAssoc(BigEndian(4, EXTENDED_SIZE), PutSize(n), t);
      NatReadsBack(4, EXTENDED_SIZE, Cat(PutSize(n), t));
      SizeReadsBack(n, t);
    }
  }

  function PutBytes(x: bytes): bytes {
    Cat(PutLength(|x|), x)
  }

  /** A length beyond the data gives an empty array and uses up the data. */
  function GetBytes(b: bytes): (bytes, bytes) {
    var (n, r) := GetLength(b);
    if n < 0 then ([], r) else if n > |r| then ([], []) else (r[..n], r[n..])
  }

  lemma BytesReadBack(x: bytes, t: bytes)
    requires |x| < HALF64
    ensures GetBytes(Cat(PutBytes(x), t)) == (x, t)
  {
    CatAssoc(PutLength(|x|), x, t);
    LengthReadsBack(|x|, Cat(x, t));
    assert (x + t)[..|x|] == x && (x + t)[|x|..] == t;
  }

  function PutUnits(s: seq<unit>): bytes {
    if s == [] then [] else [s[0] / 256, s[0] % 256] + PutUnits(s[1..])
  }

  function GetUnits(b: bytes): seq<unit> {
    if |b| < 2 then [] else
      var hi: int, lo: int := b[0], b[1];
      var u: unit := 256 * hi + lo;
      [u] + GetUnits(b[2..])
  }

  lemma {:induction false} UnitsReadBack(s: seq<unit>)
    ensures GetUnits(PutUnits(s)) == s && |PutUnits(s)| == 2 * |s|
  {
    if s != [] {
      UnitsReadBack(s[1..]);
      assert PutUnits(s)[2..] == PutUnits(s[1..]);
    }
  }

  function PutString(s: seq<unit>): bytes {
    PutBytes(PutUnits(s))
  }

  /** Each unit takes two bytes, the higher one first. */
  lemma {:induction false} UnitBytes(s: seq<unit>, i: nat)
    requires i < |s|
    ensures |PutUnits(s)| == 2 * |s| && PutUnits(s)[2 * i] == s[i] / 256 && PutUnits(s)[2 * i + 1] == s[i] % 256
  {
    UnitsReadBack(s);
    if i > 0 {
      UnitBytes(s[1..], i - 1);
      assert PutUnits(s)[2..] == PutUnits(s[1..]);
      assert s[1..][i - 1] == s[i];
    }
  }

  /** An odd number of bytes is no string. */
  function GetString(b: bytes): (seq<unit>, bytes) {
    var (x, r) := GetBytes(b);
    (if |x| % 2 == 0 then GetUnits(x) else [], r)
  }

  lemma StringReadsBack(s: seq<unit>, t: bytes)
    requires 2 * |s| < HALF64
    ensures GetString(Cat(PutString(s), t)) == (s, t)
  {
    hide GetBytes, PutBytes, PutUnits, GetUnits;
    UnitsReadBack(s);
    BytesReadBack(PutUnits(s), t);
  }

  // ---------- values and lists ----------

  /** The encoding of a type that is not visible here. */
  datatype Codec<!T> = Codec(put: T -> bytes, get: bytes -> (T, bytes))

  /** Invertible and self-delimiting. */
  ghost predicate Lawful<T(!new)>(c: Codec<T>) {
    forall x: T, t: bytes :: c.get(Cat(c.put(x), t)) == (x, t)
  }

  /** The encoding of one list element in front of further data; `keeps` is what reading restores. */
  datatype Element<!T> = Element(keeps: T -> T, put: (T, bytes) -> bytes, get: bytes -> (T, bytes))

  ghost predicate Restores<T(!new)>(e: Element<T>) {
    forall x: T, t: bytes :: e.get(e.put(x, t)) == (e.keeps(x), t)
  }

  /** The encoding of an element does not depend on what follows. */
  ghost predicate Prefixes<T(!new)>(e: Element<T>) {
    forall x: T, t: bytes :: e.put(x, t) == Cat(e.put(x, []), t)
  }

  function PutList<T>(e: Element<T>, xs: seq<T>, t: bytes): bytes {
    if xs == [] then t else e.put(xs[0], PutList(e, xs[1..], t))
  }

  /** Reads n elements; none for a negative n. */
  function GetList<T>(e: Element<T>, n: int, b: bytes): (seq<T>, bytes)
    decreases n
  {
    if n <= 0 then ([], b)
    else
      var (x, b1) := e.get(b);
      var (xs, b2) := GetList(e, n - 1, b1);
      ([x] + xs, b2)
  }

  function Kept<T>(e: Element<T>, xs: seq<T>): (r: seq<T>)
    ensures |r| == |xs|
  {
    seq(|xs|, i requires 0 <= i < |xs| => e.keeps(xs[i]))
  }

  /** A list of any length reads back element by element. */
  lemma {:induction false} ListReadsBack<T(!new)>(e: Element<T>, xs: seq<T>, t: bytes)
    requires Restores(e)
    ensures GetList(e, |xs|, PutList(e, xs, t)) == (Kept(e, xs), t)
  {
    if xs == [] {
      assert Kept(e, xs) == [];
    } else {
      ListReadsBack(e, xs[1..], t);
      assert Kept(e, xs) == [e.keeps(xs[0])] + Kept(e, xs[1..]);
    }
  }

  // ---------- streams ----------

  class OutStream {
    var buf: bytes

    constructor ()
      ensures buf == []
    {
      buf := [];
    }

    method Write(e: bytes)
      modifies this
      ensures buf == Cat(old(buf), e)
      ensures forall t: bytes :: Cat(buf, t) == Cat(old(buf), Cat(e, t))
    {
      buf := Cat(buf, e);
      forall t: bytes ensures Cat(buf, t) == Cat(old(buf), Cat(e, t)) {
        CatAssoc(old(buf), e, t);
      }
    }

    method WriteList<T(!new)>(e: Element<T>, xs: seq<T>)
      requires Prefixes(e)
      modifies this
      ensures forall t: bytes :: Cat(buf, t) == Cat(old(buf), PutList(e, xs, t))
    {
      hide Cat;
      assert xs[0..] == xs;
      for i := 0 to |xs|
        invariant forall t: bytes :: Cat(buf, PutList(e, xs[i..], t)) == Cat(old(buf), PutList(e, xs, t))
      {
        ghost var before := buf;
        Write(e.put(xs[i], []));
        assert xs[i..][1..] == xs[i + 1..];
        forall t: bytes ensures Cat(buf, PutList(e, xs[i + 1..], t)) == Cat(old(buf), PutList(e, xs, t)) {
          ghost var u := PutList(e, xs[i + 1..], t);
          assert PutList(e, xs[i..], t) == e.put(xs[i], u) == Cat(e.put(xs[i], []), u);
          assert Cat(buf, u) == Cat(before, Cat(e.put(xs[i], []), u));
        }
      }
      forall t: bytes ensures Cat(buf, t) == Cat(old(buf), PutList(e, xs, t)) {
        assert PutList(e, xs[|xs|..], t) == t;
      }
    }
  }

  class InStream {
    var rest: bytes

    constructor (data: bytes)
      ensures rest == data
    {
      rest := data;
    }

    method ReadI32() returns (v: int)
      modifies this
      ensures (v, rest) == GetI32(old(rest))
    {
      v, rest := GetI32(rest).0, GetI32(rest).1;
    }

    method ReadSize() returns (v: int)
      modifies this
      ensures (v, rest) == GetSize(old(rest))
    {
      v, rest := GetSize(rest).0, GetSize(rest).1;
    }

    method ReadBytes() returns (v: bytes)
      modifies this
      ensures (v, rest) == GetBytes(old(rest))
    {
      v, rest := GetBytes(rest).0, GetBytes(rest).1;
    }

    method ReadString() returns (v: seq<unit>)
      modifies this
      ensures (v, rest) == GetString(old(rest))
    {
      v, rest := GetString(rest).0, GetString(rest).1;
    }

    /** The loop over a list whose size was read before. */
    method ReadList<T>(e: Element<T>, n: int) returns (xs: seq<T>)
      modifies this
      ensures (xs, rest) == GetList(e, n, old(rest))
    {
      xs := [];
      var i := 0;
      while i < n
        invariant 0 <= i && (i <= n || i == 0)
        invariant GetList(e, n, old(rest)).0 == xs + GetList(e, n - i, rest).0
        invariant GetList(e, n, old(rest)).1 == GetList(e, n - i, rest).1
      {
        var (x, r) := e.get(rest);
        ghost var tail := GetList(e, n - i - 1, r).0;
        assert xs + ([x] + tail) == (xs + [x]) + tail;
        xs, rest, i := xs + [x], r, i + 1;
      }
      assert GetList(e, n - i, rest) == ([], rest) && xs + [] == xs;
    }

    method Read<T>(c: Codec<T>) returns (v: T)
      modifies this
      ensures (v, rest) == c.get(old(rest))
    {
      var (x, r) := c.get(rest);
      v, rest := x, r;
    }
  }
}
