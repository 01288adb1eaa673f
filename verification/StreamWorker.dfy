/** ServiceWorker::onReadyRead (src/Service/Workers/ServiceWorker.cpp): complete messages are taken off
    the socket one transaction at a time, whatever pieces the bytes arrive in. */
module StreamWorker {
  import opened DataStream

  /** A list of arguments; their encoding is not visible here. */
  type Message = seq<seq<int>>

  /** One attempt to read a message from the front of the received bytes. */
  datatype Parsed = Complete(args: Message, rest: bytes) | Incomplete | Corrupt(rest: bytes)

  datatype Wire = Wire(put: Message -> bytes, get: bytes -> Parsed)

  /** A written message reads back; reading uses up bytes; a verdict on some bytes stands when more
      follow; nothing is incomplete. */
  ghost predicate Lawful(w: Wire) {
    && (forall m, t: bytes :: w.get(Cat(w.put(m), t)) == Complete(m, t))
    && Progress(w)
    && (forall b: bytes, x: bytes :: w.get(b).Complete? ==>
          w.get(Cat(b, x)) == Complete(w.get(b).args, Cat(w.get(b).rest, x)))
    && (forall b: bytes, x: bytes :: w.get(b).Corrupt? ==> w.get(Cat(b, x)).Corrupt?)
    && w.get([]).Incomplete?
  }

  ghost predicate Progress(w: Wire) {
    forall b: bytes :: w.get(b).Complete? ==> |w.get(b).rest| < |b|
  }

  datatype Output = Command(args: Message) | CorruptedData

  /** What the worker owes the daemon for a message: an empty one is answered with an error. */
  function OutputOf(m: Message): Output {
    if m == [] then CorruptedData else Command(m)
  }

  function Outputs(ms: seq<Message>): (r: seq<Output>)
    ensures |r| == |ms|
  {
    seq(|ms|, i requires 0 <= i < |ms| => OutputOf(ms[i]))
  }

  /** A message with arguments is passed on as it is, an empty one answered with an error. */
  lemma OutputsAre(ms: seq<Message>)
    ensures forall i :: 0 <= i < |ms| ==>
      (if ms[i] == [] then Outputs(ms)[i] == CorruptedData else Outputs(ms)[i] == Command(ms[i]))
  {
  }

  function Encode(w: Wire, ms: seq<Message>, t: bytes): bytes {
    if ms == [] then t else Cat(w.put(ms[0]), Encode(w, ms[1..], t))
  }

  /** The outputs of one handler call on these bytes, and the bytes it leaves in the socket. */
  ghost function Drain(w: Wire, b: bytes): (r: (seq<Output>, bytes))
    requires Progress(w)
    decreases |b|
  {
    match w.get(b)
    case Incomplete => ([], b)
    case Corrupt(rest) => ([], rest)
    case Complete(args, rest) =>
      if args == [] then ([CorruptedData], rest)
      else
        var (outs, left) := Drain(w, rest);
        ([Command(args)] + outs, left)
  }

  /** The handler stops only because the next message is incomplete. */
  ghost predicate Clean(w: Wire, b: bytes)
    requires Progress(w)
    decreases |b|
  {
    match w.get(b)
    case Incomplete => true
    case Corrupt(_) => false
    case Complete(args, rest) => args != [] && Clean(w, rest)
  }

  lemma Stands(w: Wire, b: bytes, x: bytes)
    requires Lawful(w)
    ensures w.get(b).Complete? ==> w.get(Cat(b, x)) == Complete(w.get(b).args, Cat(w.get(b).rest, x))
    ensures w.get(b).Corrupt? ==> w.get(Cat(b, x)).Corrupt?
  {
    hide Cat;
  }

  /** One round of the handler's loop. */
  lemma DrainStep(w: Wire, b: bytes)
    requires Progress(w)
    ensures w.get(b).Incomplete? ==> Drain(w, b) == ([], b) && Clean(w, b)
    ensures w.get(b).Corrupt? ==> Drain(w, b) == ([], w.get(b).rest) && !Clean(w, b)
    ensures w.get(b).Complete? && w.get(b).args == [] ==>
      Drain(w, b) == ([CorruptedData], w.get(b).rest) && !Clean(w, b)
    ensures w.get(b).Complete? && w.get(b).args != [] ==>
      (Drain(w, b) == ([Command(w.get(b).args)] + Drain(w, w.get(b).rest).0, Drain(w, w.get(b).rest).1)
       && (Clean(w, b) <==> Clean(w, w.get(b).rest)))
  {
  }

  /** Handling some bytes and then more is handling all of them at once, if the first call stopped
      only for an incomplete message. */
  lemma {:induction false} DrainInTwo(w: Wire, b: bytes, x: bytes)
    requires Lawful(w) && Clean(w, b)
    ensures Drain(w, Cat(b, x)).0 == Drain(w, b).0 + Drain(w, Cat(Drain(w, b).1, x)).0
    ensures Drain(w, Cat(b, x)).1 == Drain(w, Cat(Drain(w, b).1, x)).1
    decreases |b|
  {
    LawfulProgress(w);
    hide *;
    DrainStep(w, b);
    if w.get(b).Complete? {
      var args, rest := w.get(b).args, w.get(b).rest;
      Shorter(w, b);
      DrainInTwo(w, rest, x);
      Stands(w, b, x);
      DrainStep(w, Cat(b, x));
      InFront(Command(args), Drain(w, rest).0, Drain(w, Cat(Drain(w, rest).1, x)).0);
    } else {
      NothingInFront(Drain(w, Cat(b, x)).0);
    }
  }

  lemma InFront(o: Output, a: seq<Output>, b: seq<Output>)
    ensures [o] + (a + b) == [o] + a + b
  {
  }

  lemma NothingInFront(a: seq<Output>)
    ensures [] + a == a
  {
  }

  lemma LawfulProgress(w: Wire)
    requires Lawful(w)
    ensures Progress(w)
  {
    hide Cat;
  }

  lemma Shorter(w: Wire, b: bytes)
    requires Progress(w) && w.get(b).Complete?
    ensures |w.get(b).rest| < |b|
  {
  }

  /** Clean bytes stay clean when cut off early. */
  lemma {:induction false} CleanPrefix(w: Wire, b: bytes, x: bytes)
    requires Lawful(w) && Clean(w, Cat(b, x))
    ensures Clean(w, b)
    decreases |b|
  {
    hide Cat;
    Stands(w, b, x);
    if w.get(b).Complete? {
      CleanPrefix(w, w.get(b).rest, x);
    }
  }

  /** Complete non-empty messages in front of an incomplete one: all are output in order and only the
      incomplete tail stays. */
  lemma {:induction false} DrainWellFormed(w: Wire, ms: seq<Message>, tail: bytes)
    requires Lawful(w) && w.get(tail).Incomplete? && forall i :: 0 <= i < |ms| ==> ms[i] != []
    ensures Clean(w, Encode(w, ms, tail)) && Drain(w, Encode(w, ms, tail)) == (Outputs(ms), tail)
  {
    hide Cat;
    if ms == [] {
      assert Outputs(ms) == [];
    } else {
      DrainWellFormed(w, ms[1..], tail);
      assert Outputs(ms) == [OutputOf(ms[0])] + Outputs(ms[1..]);
      assert w.get(Encode(w, ms, tail)) == Complete(ms[0], Encode(w, ms[1..], tail));
    }
  }

  // ---------- chunks ----------

  function Flatten(chunks: seq<bytes>): bytes {
    if chunks == [] then [] else Cat(Flatten(chunks[..|chunks| - 1]), chunks[|chunks| - 1])
  }

  /** One handler call per arrival. */
  ghost function Feed(w: Wire, chunks: seq<bytes>): (seq<Output>, bytes)
    requires Progress(w)
  {
    if chunks == [] then ([], [])
    else
      var (outs, left) := Feed(w, chunks[..|chunks| - 1]);
      var (more, rest) := Drain(w, Cat(left, chunks[|chunks| - 1]));
      (outs + more, rest)
  }

  ghost predicate Arrivals(chunks: seq<bytes>) {
    forall i :: 0 <= i < |chunks| ==> chunks[i] != []
  }

  /** All bytes except the complete stream itself are clean. */
  ghost predicate CleanUntilEnd(w: Wire, stream: bytes)
    requires Progress(w)
  {
    forall b: bytes, x: bytes :: x != [] && Cat(b, x) == stream ==> Clean(w, b)
  }

  /** Chunking does not matter: any split of the stream gives what one call on all of it gives. */
  lemma {:induction false} ChunkingIndependence(w: Wire, chunks: seq<bytes>)
    requires Lawful(w) && Arrivals(chunks) && CleanUntilEnd(w, Flatten(chunks))
    ensures Feed(w, chunks) == Drain(w, Flatten(chunks))
  {
    hide Cat;
    if chunks == [] {
    } else {
      var n := |chunks| - 1;
      var b, x := Flatten(chunks[..n]), chunks[n];
      assert Clean(w, b);
      forall c: bytes, y: bytes | y != [] && Cat(c, y) == b ensures Clean(w, c) {
        assert Cat(c, y) == b;
        CleanPrefix(w, c, y);
      }
      ChunkingIndependence(w, chunks[..n]);
      DrainInTwo(w, b, x);
    }
  }

  /** Every split of complete non-empty messages with an incomplete tail emits exactly the messages and
      keeps exactly the tail. */
  lemma WellFormedChunks(w: Wire, ms: seq<Message>, tail: bytes, chunks: seq<bytes>)
    requires Lawful(w) && w.get(tail).Incomplete? && forall i :: 0 <= i < |ms| ==> ms[i] != []
    requires Arrivals(chunks) && Flatten(chunks) == Encode(w, ms, tail)
    ensures Feed(w, chunks) == (Outputs(ms), tail)
    ensures |Feed(w, chunks).0| == |ms| && forall i :: 0 <= i < |ms| ==> Feed(w, chunks).0[i] == Command(ms[i])
  {
    hide Cat, Encode;
    DrainWellFormed(w, ms, tail);
    var stream := Encode(w, ms, tail);
    forall b: bytes, x: bytes | x != [] && Cat(b, x) == stream ensures Clean(w, b) {
      CleanPrefix(w, b, x);
    }
    ChunkingIndependence(w, chunks);
  }

  // ---------- empty messages ----------

  /** All splits of these messages lead to all their outputs. */
  ghost predicate AnySplitWorks(w: Wire, ms: seq<Message>)
    requires Progress(w)
  {
    forall chunks :: Arrivals(chunks) && Flatten(chunks) == Encode(w, ms, []) ==> Feed(w, chunks) == (Outputs(ms), [])
  }

  /** The messages before the last carry arguments. */
  predicate OnlyLastMayBeEmpty(ms: seq<Message>) {
    forall i :: 0 <= i < |ms| - 1 ==> ms[i] != []
  }

  lemma NonEmptyTail(a: bytes, x: bytes)
    requires x != []
    ensures Cat(a, x) != []
  {
    assert |Cat(a, x)| == |a| + |x|;
  }

  lemma ReadsBack(w: Wire, m: Message, t: bytes)
    requires Lawful(w)
    ensures w.get(Cat(w.put(m), t)) == Complete(m, t)
  {
    hide Cat;
  }

  /** A cut-off message is incomplete. */
  lemma CutMessageIsClean(w: Wire, m: Message, b: bytes, x: bytes)
    requires Lawful(w) && Cat(b, x) == w.put(m) && x != []
    ensures w.get(b).Incomplete?
  {
    hide *;
    ReadsBack(w, m, []);
    CatEmpty(w.put(m));
    Stands(w, b, x);
    forall a: bytes ensures Cat(a, x) != [] {
      NonEmptyTail(a, x);
    }
  }

  lemma {:induction false} CleanBeforeLast(w: Wire, ms: seq<Message>, b: bytes, x: bytes)
    requires Lawful(w) && OnlyLastMayBeEmpty(ms) && ms != [] && x != [] && Cat(b, x) == Encode(w, ms, [])
    ensures Clean(w, b)
    decreases |ms|
  {
    if |ms| == 1 {
      CatEmpty(w.put(ms[0]));
      assert Encode(w, ms[1..], []) == [];
      CutMessageIsClean(w, ms[0], b, x);
    } else {
      var e := w.put(ms[0]);
      var t := Encode(w, ms[1..], []);
      if |b| < |e| {
        assert Cat(b, x)[|b|..|e|] == e[|b|..];
        assert Cat(b, e[|b|..]) == e;
        CutMessageIsClean(w, ms[0], b, e[|b|..]);
      } else {
        var r := b[|e|..];
        assert b == Cat(e, r) by { assert Cat(e, t)[..|e|] == Cat(b, x)[..|e|]; }
        assert Cat(r, x) == t by {
          CatAssoc(e, r, x);
          assert Cat(e, t)[|e|..] == t;
          assert Cat(e, Cat(r, x))[|e|..] == Cat(r, x);
        }
        assert w.get(b) == Complete(ms[0], r);
        CleanBeforeLast(w, ms[1..], r, x);
      }
    }
  }

  lemma {:induction false} DrainAll(w: Wire, ms: seq<Message>)
    requires Lawful(w)
    ensures Drain(w, Encode(w, ms, [])) == (Outputs(ms), []) <==> OnlyLastMayBeEmpty(ms)
  {
    hide Cat;
    if ms == [] {
      assert Outputs(ms) == [];
    } else {
      var rest := Encode(w, ms[1..], []);
      assert w.get(Encode(w, ms, [])) == Complete(ms[0], rest);
      assert Outputs(ms) == [OutputOf(ms[0])] + Outputs(ms[1..]);
      if |ms| == 1 {
        assert rest == [] && Drain(w, rest) == ([], []);
        assert [Command(ms[0])] + [] == [Command(ms[0])] && Outputs(ms) == [OutputOf(ms[0])];
      } else if ms[0] == [] {
        assert |Outputs(ms)| > 1;
      } else {
        DrainAll(w, ms[1..]);
        assert forall i :: 0 < i < |ms| ==> ms[i] == ms[1..][i - 1];
        assert OnlyLastMayBeEmpty(ms) <==> OnlyLastMayBeEmpty(ms[1..]);
        var d := Drain(w, rest);
        assert ([Command(ms[0])] + d.0)[1..] == d.0 && Outputs(ms)[1..] == Outputs(ms[1..]);
      }
    }
  }

  /** Exactly when no message but the last is empty does every split lead to all outputs: after an
      empty message the handler leaves the rest of what has arrived lying until the next arrival. */
  lemma AnySplitWorksIff(w: Wire, ms: seq<Message>)
    requires Lawful(w)
    ensures AnySplitWorks(w, ms) <==> OnlyLastMayBeEmpty(ms)
  {
    hide Cat, Encode, Drain, Clean;
    DrainAll(w, ms);
    var stream := Encode(w, ms, []);
    if OnlyLastMayBeEmpty(ms) {
      forall chunks | Arrivals(chunks) && Flatten(chunks) == stream ensures Feed(w, chunks) == (Outputs(ms), []) {
        forall b: bytes, x: bytes | x != [] && Cat(b, x) == stream ensures Clean(w, b) {
          NonEmptyCat(w, ms, b, x);
          CleanBeforeLast(w, ms, b, x);
        }
        ChunkingIndependence(w, chunks);
      }
    } else {
      OneChunk(w, ms);
    }
  }

  lemma NonEmptyCat(w: Wire, ms: seq<Message>, b: bytes, x: bytes)
    requires x != [] && Cat(b, x) == Encode(w, ms, [])
    ensures ms != []
  {
  }

  /** The whole stream in one arrival. */
  lemma OneChunk(w: Wire, ms: seq<Message>)
    requires Lawful(w) && ms != []
    ensures Arrivals([Encode(w, ms, [])]) && Flatten([Encode(w, ms, [])]) == Encode(w, ms, [])
    ensures Feed(w, [Encode(w, ms, [])]) == Drain(w, Encode(w, ms, []))
  {
    assert Progress(w);
    hide *;
    var stream := Encode(w, ms, []);
    StreamNotEmpty(w, ms);
    OneArrival(w, stream);
  }

  lemma StreamNotEmpty(w: Wire, ms: seq<Message>)
    requires Lawful(w) && ms != []
    ensures Encode(w, ms, []) != []
  {
    var rest := Encode(w, ms[1..], []);
    ReadsBack(w, ms[0], rest);
    hide *;
    assert w.get([]).Incomplete? by { NothingIsIncomplete(w); }
    assert Encode(w, ms, []) == Cat(w.put(ms[0]), rest) by { EncodeStep(w, ms); }
  }

  lemma NothingIsIncomplete(w: Wire)
    requires Lawful(w)
    ensures w.get([]).Incomplete?
  {
  }

  lemma EncodeStep(w: Wire, ms: seq<Message>)
    requires ms != []
    ensures Encode(w, ms, []) == Cat(w.put(ms[0]), Encode(w, ms[1..], []))
  {
    hide Cat;
  }

  lemma OneArrival(w: Wire, stream: bytes)
    requires Progress(w) && stream != []
    ensures Arrivals([stream]) && Flatten([stream]) == stream && Feed(w, [stream]) == Drain(w, stream)
  {
    hide Drain, Cat, Progress;
    var chunks := [stream];
    assert chunks[..0] == [];
    CatEmpty(stream);
    assert [] + Drain(w, stream).0 == Drain(w, stream).0;
  }

  // ---------- the worker ----------

  class ServiceWorker {
    const wire: Wire
    var sockOpen: bool
    /** Received and not yet taken off the socket. */
    var buffered: bytes
    var emitted: seq<Output>

    constructor (wire: Wire)
      ensures this.wire == wire && sockOpen && buffered == [] && emitted == []
    {
      this.wire, sockOpen, buffered, emitted := wire, true, [], [];
    }

    /** `startTransaction`, read, `commitTransaction`: an incomplete message is rolled back, corrupt data is not. */
    method ReadTransaction() returns (committed: bool, args: Message)
      requires Progress(wire)
      modifies this`buffered
      ensures committed == wire.get(old(buffered)).Complete?
      ensures committed ==> args == wire.get(old(buffered)).args && buffered == wire.get(old(buffered)).rest
      ensures !committed ==>
        buffered == if wire.get(old(buffered)).Corrupt? then wire.get(old(buffered)).rest else old(buffered)
    {
      match wire.get(buffered) {
        case Complete(a, rest) => committed, args, buffered := true, a, rest;
        case Incomplete => committed, args := false, [];
        case Corrupt(rest) => committed, args, buffered := false, [], rest;
      }
    }

    method OnReadyRead()
      requires Progress(wire)
      modifies this
      ensures sockOpen == old(sockOpen)
      ensures !sockOpen ==> emitted == old(emitted) && buffered == old(buffered)
      ensures sockOpen ==>
        emitted == old(emitted) + Drain(wire, old(buffered)).0 && buffered == Drain(wire, old(buffered)).1
    {
      while true
        invariant sockOpen == old(sockOpen)
        invariant !sockOpen ==> emitted == old(emitted) && buffered == old(buffered)
        invariant sockOpen ==> emitted + Drain(wire, buffered).0 == old(emitted) + Drain(wire, old(buffered)).0
        invariant sockOpen ==> Drain(wire, buffered).1 == Drain(wire, old(buffered)).1
        decreases |buffered|
      {
        if !sockOpen { break; }
        ghost var before, outs := buffered, Drain(wire, buffered).0;
        var committed, args := ReadTransaction();
        if !committed {
          assert outs == [] && emitted + outs == emitted;
          break;
        }
        if args == [] {
          emitted := emitted + [CorruptedData];
          break;
        }
        ghost var later := Drain(wire, buffered).0;
        assert emitted + ([Command(args)] + later) == (emitted + [Command(args)]) + later;
        emitted := emitted + [Command(args)];
      }
    }

    /** A connection from its first byte: one handler call for each arrival. */
    method Session(chunks: seq<bytes>)
      requires Progress(wire) && sockOpen && buffered == [] && emitted == []
      modifies this
      ensures (emitted, buffered) == Feed(wire, chunks)
    {
      assert chunks[..0] == [];
      for i := 0 to |chunks|
        invariant sockOpen && (emitted, buffered) == Feed(wire, chunks[..i])
      {
        assert chunks[..i + 1][..i] == chunks[..i];
        buffered := Cat(buffered, chunks[i]);
        OnReadyRead();
      }
      assert chunks[..|chunks|] == chunks;
    }
  }
}
