/** What is assumed of the encodings that are not visible can be met: there are invertible,
    self-delimiting encodings of all the types a profile holds, and a wire format for messages. */
module Encodings {
  import opened DataStream
  import opened ProfileData
  import StreamWorker

  // ---------- numbers ----------

  function PutUnary(n: nat): bytes {
    if n == 0 then [0] else Cat([1], PutUnary(n - 1))
  }

  function GetUnary(b: bytes): (nat, bytes) {
    if b == [] then (0, [])
    else if b[0] != 1 then (0, b[1..])
    else
      var (n, r) := GetUnary(b[1..]);
      (n + 1, r)
  }

  lemma {:induction false} UnaryReadsBack(n: nat, t: bytes)
    ensures GetUnary(Cat(PutUnary(n), t)) == (n, t)
  {
    var b := Cat(PutUnary(n), t);
    if n == 0 {
      assert b[1..] == t;
    } else {
      UnaryReadsBack(n - 1, t);
      assert b[1..] == Cat(PutUnary(n - 1), t);
    }
  }

  /** Negative numbers on the odd places. */
  function Zigzag(x: int): nat {
    if x < 0 then -2 * x - 1 else 2 * x
  }

  function Unzigzag(n: nat): int {
    if n % 2 == 0 then n / 2 else -((n + 1) / 2)
  }

  function IntCodec(): Codec<int> {
    Codec((x: int) => PutUnary(Zigzag(x)), (b: bytes) => (Unzigzag(GetUnary(b).0), GetUnary(b).1))
  }

  lemma IntLaw()
    ensures Lawful(IntCodec())
  {
    hide Cat, GetUnary, PutUnary, Zigzag, Unzigzag;
    forall x: int, t: bytes ensures IntCodec().get(Cat(IntCodec().put(x), t)) == (x, t) {
      UnaryReadsBack(Zigzag(x), t);
      ZigzagBack(x);
    }
  }

  lemma ZigzagBack(x: int)
    ensures Unzigzag(Zigzag(x)) == x
  {
  }

  // ---------- combinators ----------

  ghost function PairCodec<A, B>(a: Codec<A>, b: Codec<B>): Codec<(A, B)> {
    Codec(
      (x: (A, B)) => Cat(a.put(x.0), b.put(x.1)),
      (s: bytes) => var (u, r) := a.get(s); var (v, q) := b.get(r); ((u, v), q))
  }

  lemma PairLaw<A(!new), B(!new)>(a: Codec<A>, b: Codec<B>)
    requires Lawful(a) && Lawful(b)
    ensures Lawful(PairCodec(a, b))
  {
    var c := PairCodec(a, b);
    forall x: (A, B), t: bytes ensures c.get(Cat(c.put(x), t)) == (x, t) {
      CatAssoc(a.put(x.0), b.put(x.1), t);
      hide Cat;
      assert a.get(Cat(a.put(x.0), Cat(b.put(x.1), t))) == (x.0, Cat(b.put(x.1), t));
    }
  }

  /** A type that another one represents. */
  ghost function ViaCodec<A, B>(to: A -> B, from: B -> A, c: Codec<B>): Codec<A> {
    Codec((x: A) => c.put(to(x)), (s: bytes) => var (y, r) := c.get(s); (from(y), r))
  }

  lemma ViaLaw<A(!new), B(!new)>(to: A -> B, from: B -> A, c: Codec<B>)
    requires Lawful(c) && forall x :: from(to(x)) == x
    ensures Lawful(ViaCodec(to, from, c))
  {
    hide Cat;
  }

  function ElementOf<T>(c: Codec<T>): Element<T> {
    Element((x: T) => x, (x: T, t: bytes) => Cat(c.put(x), t), c.get)
  }

  ghost function ListCodec<T>(c: Codec<T>): Codec<seq<T>> {
    Codec(
      (xs: seq<T>) => Cat(PutUnary(|xs|), PutList(ElementOf(c), xs, [])),
      (s: bytes) => var (n, r) := GetUnary(s); GetList(ElementOf(c), n, r))
  }

  lemma {:induction false} PutListTail<T>(c: Codec<T>, xs: seq<T>, t: bytes)
    ensures Cat(PutList(ElementOf(c), xs, []), t) == PutList(ElementOf(c), xs, t)
  {
    if xs == [] {
      CatEmpty(t);
    } else {
      PutListTail(c, xs[1..], t);
      CatAssoc(c.put(xs[0]), PutList(ElementOf(c), xs[1..], []), t);
    }
  }

  lemma ListLaw<T(!new)>(c: Codec<T>)
    requires Lawful(c)
    ensures Lawful(ListCodec(c))
  {
    hide Cat;
    var l, e := ListCodec(c), ElementOf(c);
    forall xs: seq<T>, t: bytes ensures l.get(Cat(l.put(xs), t)) == (xs, t) {
      CatAssoc(PutUnary(|xs|), PutList(e, xs, []), t);
      PutListTail(c, xs, t);
      UnaryReadsBack(|xs|, PutList(e, xs, t));
      ListReadsBack(e, xs, t);
      assert Kept(e, xs) == xs;
    }
  }

  /** The entries of a map in some order. */
  ghost function Entries<K, V>(m: map<K, V>): seq<(K, V)>
    decreases |m.Keys|
  {
    if m == map[] then []
    else
      var k :| k in m;
      [(k, m[k])] + Entries(m - {k})
  }

  ghost function MapOf<K, V>(entries: seq<(K, V)>): map<K, V> {
    if entries == [] then map[] else MapOf(entries[1..])[entries[0].0 := entries[0].1]
  }

  lemma {:induction false} MapOfEntries<K, V>(m: map<K, V>)
    ensures MapOf(Entries(m)) == m
    decreases |m.Keys|
  {
    if m != map[] {
      var k := Entries(m)[0].0;
      MapOfEntries(m - {k});
      assert Entries(m)[1..] == Entries(m - {k});
    }
  }

  ghost function MapCodec<K, V>(k: Codec<K>, v: Codec<V>): Codec<map<K, V>> {
    ViaCodec((m: map<K, V>) => Entries(m), (es: seq<(K, V)>) => MapOf(es), ListCodec(PairCodec(k, v)))
  }

  lemma MapLaw<K(!new), V(!new)>(k: Codec<K>, v: Codec<V>)
    requires Lawful(k) && Lawful(v)
    ensures Lawful(MapCodec(k, v))
  {
    PairLaw(k, v);
    ListLaw(PairCodec(k, v));
    forall m: map<K, V> ensures MapOf(Entries(m)) == m {
      MapOfEntries(m);
    }
    hide Lawful;
    ViaLaw((m: map<K, V>) => Entries(m), (es: seq<(K, V)>) => MapOf(es), ListCodec(PairCodec(k, v)));
  }

  // ---------- the types of a profile ----------

  function CharOf(n: int): char {
    if 0 <= n < 0xd800 || 0xe000 <= n < 0x11_0000 then n as char else 'a'
  }

  ghost function ValueCodec(): Codec<Value> {
    ListCodec(IntCodec())
  }

  ghost function CharCodec(): Codec<char> {
    ViaCodec((c: char) => c as int, (n: int) => CharOf(n), IntCodec())
  }

  ghost function QueueCodec(): Codec<QueueSched> {
    ViaCodec((q: QueueSched) => (q.scheduler, q.live), (p: (Value, Value)) => QueueSched(p.0, p.1),
             PairCodec(ValueCodec(), ValueCodec()))
  }

  ghost function CardCodec(): Codec<Card> {
    ViaCodec((c: Card) => c.index, (n: int) => Card(n), IntCodec())
  }

  ghost function IntelGpuCodec(): Codec<IntelGpu> {
    ViaCodec((g: IntelGpu) => (g.frequency, (g.boostFrequency, g.live)),
             (p: (Value, (Value, Value))) => IntelGpu(p.0, p.1.0, p.1.1),
             PairCodec(ValueCodec(), PairCodec(ValueCodec(), ValueCodec())))
  }

  ghost function AmdGpuCodec(): Codec<AmdGpu> {
    ViaCodec((g: AmdGpu) => (g.dpmForcePerfLevel, (g.powerDpmState, g.live)),
             (p: (Value, (Value, Value))) => AmdGpu(p.0, p.1.0, p.1.1),
             PairCodec(ValueCodec(), PairCodec(ValueCodec(), ValueCodec())))
  }

  lemma ValueLaw()
    ensures Lawful(ValueCodec())
  {
    hide Lawful, ListCodec, IntCodec;
    IntLaw();
    ListLaw(IntCodec());
  }

  lemma CharLaw()
    ensures Lawful(CharCodec())
  {
    hide Lawful, IntCodec, ViaCodec;
    IntLaw();
    ViaLaw((c: char) => c as int, (n: int) => CharOf(n), IntCodec());
  }

  lemma CardLaw()
    ensures Lawful(CardCodec())
  {
    hide Lawful, IntCodec, ViaCodec;
    IntLaw();
    ViaLaw((c: Card) => c.index, (n: int) => Card(n), IntCodec());
  }

  lemma QueueLaw()
    ensures Lawful(QueueCodec())
  {
    hide Lawful, ValueCodec, PairCodec, ViaCodec;
    ValueLaw();
    PairLaw(ValueCodec(), ValueCodec());
    ViaLaw((q: QueueSched) => (q.scheduler, q.live), (p: (Value, Value)) => QueueSched(p.0, p.1),
           PairCodec(ValueCodec(), ValueCodec()));
  }

  lemma GpuLaws()
    ensures Lawful(IntelGpuCodec()) && Lawful(AmdGpuCodec())
  {
    hide Lawful, ValueCodec, PairCodec, ViaCodec;
    ValueLaw();
    PairLaw(ValueCodec(), ValueCodec());
    var triple := PairCodec(ValueCodec(), PairCodec(ValueCodec(), ValueCodec()));
    PairLaw(ValueCodec(), PairCodec(ValueCodec(), ValueCodec()));
    ViaLaw((g: IntelGpu) => (g.frequency, (g.boostFrequency, g.live)),
           (p: (Value, (Value, Value))) => IntelGpu(p.0, p.1.0, p.1.1), triple);
    ViaLaw((g: AmdGpu) => (g.dpmForcePerfLevel, (g.powerDpmState, g.live)),
           (p: (Value, (Value, Value))) => AmdGpu(p.0, p.1.0, p.1.1), triple);
  }

  ghost function SomeCodecs(): Codecs {
    Codecs((f: Field) => ValueCodec(), MapCodec(ListCodec(CharCodec()), QueueCodec()),
           MapCodec(CardCodec(), IntelGpuCodec()),
           MapCodec(CardCodec(), AmdGpuCodec()), MapCodec(ListCodec(CharCodec()), ValueCodec()))
  }

  /** Encodings of all field types with the assumed law. */
  lemma LawfulCodecsExist()
    ensures LawfulCodecs(SomeCodecs())
  {
    hide Lawful, ValueCodec, CharCodec, CardCodec, QueueCodec, IntelGpuCodec, AmdGpuCodec, ListCodec, MapCodec;
    ValueLaw();
    CharLaw();
    CardLaw();
    QueueLaw();
    GpuLaws();
    ListLaw(CharCodec());
    MapLaw(ListCodec(CharCodec()), QueueCodec());
    MapLaw(CardCodec(), IntelGpuCodec());
    MapLaw(CardCodec(), AmdGpuCodec());
    MapLaw(ListCodec(CharCodec()), ValueCodec());
  }

  // ---------- messages on the wire ----------

  /** Each byte marked, then an end mark. */
  function Escape(x: bytes): bytes {
    if x == [] then [0] else Cat([1, x[0]], Escape(x[1..]))
  }

  datatype Scan = Done(payload: bytes, rest: bytes) | More

  function Unescape(b: bytes): Scan {
    if b == [] then More
    else if b[0] != 1 then Done([], b[1..])
    else if |b| < 2 then More
    else match Unescape(b[2..])
      case More => More
      case Done(p, r) => Done([b[1]] + p, r)
  }

  lemma {:induction false} EscapeReadsBack(x: bytes, t: bytes)
    ensures Unescape(Cat(Escape(x), t)) == Done(x, t)
  {
    var b := Cat(Escape(x), t);
    if x == [] {
      assert b[1..] == t;
    } else {
      EscapeReadsBack(x[1..], t);
      assert b[2..] == Cat(Escape(x[1..]), t);
      assert [x[0]] + x[1..] == x;
    }
  }

  lemma {:induction false} UnescapeStands(b: bytes, x: bytes)
    ensures Unescape(b).Done? ==> Unescape(Cat(b, x)) == Done(Unescape(b).payload, Cat(Unescape(b).rest, x))
    ensures Unescape(b).Done? ==> |Unescape(b).rest| < |b|
  {
    if b != [] && b[0] != 1 {
      assert Cat(b, x)[1..] == Cat(b[1..], x);
    } else if |b| >= 2 {
      UnescapeStands(b[2..], x);
      assert Cat(b, x)[2..] == Cat(b[2..], x);
    }
  }

  ghost function MessageCodec(): Codec<StreamWorker.Message> {
    ListCodec(ValueCodec())
  }

  ghost function SomeWire(): StreamWorker.Wire {
    StreamWorker.Wire(
      (m: StreamWorker.Message) => Escape(MessageCodec().put(m)),
      (b: bytes) => match Unescape(b)
        case More => StreamWorker.Incomplete
        case Done(p, r) => StreamWorker.Complete(MessageCodec().get(p).0, r))
  }

  /** A wire format with the assumed laws. */
  lemma LawfulWireExists()
    ensures StreamWorker.Lawful(SomeWire())
  {
    hide Cat, Escape, Unescape, MessageCodec;
    var w := SomeWire();
    forall m: StreamWorker.Message, t: bytes ensures w.get(Cat(w.put(m), t)) == StreamWorker.Complete(m, t) {
      EscapeReadsBack(MessageCodec().put(m), t);
      MessageBack(m);
    }
    forall b: bytes ensures w.get(b).Complete? ==> |w.get(b).rest| < |b| {
      UnescapeStands(b, []);
    }
    forall b: bytes, x: bytes
      ensures w.get(b).Complete? ==> w.get(Cat(b, x)) == StreamWorker.Complete(w.get(b).args, Cat(w.get(b).rest, x))
    {
      UnescapeStands(b, x);
    }
    NothingScanned();
  }

  lemma MessageBack(m: StreamWorker.Message)
    ensures MessageCodec().get(MessageCodec().put(m)).0 == m
  {
    ValueLaw();
    ListLaw(ValueCodec());
    CatEmpty(MessageCodec().put(m));
    hide Cat, ListCodec, ValueCodec;
    assert MessageCodec().get(Cat(MessageCodec().put(m), [])) == (m, []);
  }

  lemma NothingScanned()
    ensures Unescape([]) == More
  {
  }
}
