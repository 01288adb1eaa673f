/** The bit-field accessors of src/Utils/Utils.cpp and folds of many field writes. */
module Bitfields {
  import opened Words

  datatype Field = Field(high: nat, low: nat) {
    ghost predicate Ok() { low <= high < 64 }

    function Width(): nat
      requires low <= high
    {
      high - low + 1
    }

    predicate Disjoint(other: Field) { high < other.low || other.high < low }

    predicate Covers(i: nat) { low <= i <= high }
  }

  /** `_getBitfield` for a word of `size` bits held in 64. */
  function GetSized(size: nat, high: nat, low: nat, data: Word): Word
    requires low <= high < size <= 64
  {
    var bits := high - low + 1;
    if bits < size then And(Shr(data, low), Ones(bits)) else data
  }

  /** The bits a write keeps. */
  function Mask(size: nat, high: nat, low: nat): Word
    requires low <= high < size <= 64
  {
    var highDiscard := size - 1 - high;
    Not(Shr(Shl(Shl(Shr(AllOnes(), low), low), highDiscard), highDiscard))
  }

  /** `_setBitfield`: the shifts are 64-bit shifts whatever `size` is. */
  function SetSized(size: nat, high: nat, low: nat, value: Word, data: Word): Word
    requires low <= high < size <= 64
  {
    var mask := Mask(size, high, low);
    Or(And(data, mask), And(Shl(value, low), Not(mask)))
  }

  function GetBitfield(f: Field, data: Word): Word
    requires f.Ok()
  {
    GetSized(64, f.high, f.low, data)
  }

  function SetBitfield(f: Field, value: Word, data: Word): Word
    requires f.Ok()
  {
    SetSized(64, f.high, f.low, value, data)
  }

  /** The 32-bit overload: the 64-bit computation, then a cast that keeps 32 bits. */
  function SetBitfield32(f: Field, value: Word, data: Word): Word
    requires f.low <= f.high < 32
  {
    And(SetSized(32, f.high, f.low, value, data), Shr(AllOnes(), 32))
  }

  /** What a field write should mean: the field's bits come from the value, the rest stay. */
  function Overwritten(f: Field, value: Word, data: Word): Word
    requires f.Ok()
  {
    seq(64, i requires 0 <= i < 64 => if f.Covers(i) then value[i - f.low] else data[i])
  }

  lemma GetBitfieldBits(f: Field, data: Word)
    requires f.Ok()
    ensures GetBitfield(f, data) == seq(64, i requires 0 <= i < 64 => i < f.Width() && data[f.low + i])
  {
    if f.Width() == 64 {
      assert f.low == 0 && f.high == 63;
    }
    assert forall i :: 0 <= i < 64 ==> GetBitfield(f, data)[i] == (i < f.Width() && data[f.low + i]);
  }

  lemma SetBitfieldIsOverwrite(f: Field, value: Word, data: Word)
    requires f.Ok()
    ensures SetBitfield(f, value, data) == Overwritten(f, value, data)
  {
    var mask := Mask(64, f.high, f.low);
    assert forall i :: 0 <= i < 64 ==> (mask[i] <==> !f.Covers(i));
    assert forall i :: 0 <= i < 64 && f.Covers(i) ==> Shl(value, f.low)[i] == value[i - f.low];
  }

  /** The 32-bit setter keeps its promise on every 32-bit word exactly for fields that
      end at bit 31; any other field has everything above it overwritten too. */
  lemma SetBitfield32Frame(f: Field)
    requires f.low <= f.high < 32
    ensures (forall value: Word, data: Word | data == And(data, Shr(AllOnes(), 32)) ::
              SetBitfield32(f, value, data)[..32] == Overwritten(f, value, data)[..32])
            <==> f.high == 31
  {
    forall value: Word, data: Word, i | 0 <= i < 32
      ensures SetBitfield32(f, value, data)[i] == if f.low <= i then value[i - f.low] else data[i]
    {
      assert Mask(32, f.high, f.low)[i] <==> i < f.low;
    }
    if f.high == 31 {
      forall value: Word, data: Word | data == And(data, Shr(AllOnes(), 32))
        ensures SetBitfield32(f, value, data)[..32] == Overwritten(f, value, data)[..32]
      {
      }
    } else {
      var zero: Word := seq(64, i => false);
      assert zero == And(zero, Shr(AllOnes(), 32));
      assert SetBitfield32(f, AllOnes(), zero)[..32][31] != Overwritten(f, AllOnes(), zero)[..32][31];
    }
  }

  // ---------- lists of field writes ----------

  datatype Write = Write(field: Field, value: Word)

  /** `reg = setBitfield(..., reg)` for each write in turn. */
  function ApplyAll(ws: seq<Write>, data: Word): Word
    requires forall w :: w in ws ==> w.field.Ok()
  {
    if ws == [] then data
    else ApplyAll(ws[1..], SetBitfield(ws[0].field, ws[0].value, data))
  }

  ghost predicate Layout(ws: seq<Write>) {
    && (forall w :: w in ws ==> w.field.Ok())
    && (forall i, j :: 0 <= i < j < |ws| ==> ws[i].field.Disjoint(ws[j].field))
  }

  lemma {:induction false} ApplyAllSnoc(ws: seq<Write>, w: Write, data: Word)
    requires w.field.Ok() && forall x :: x in ws ==> x.field.Ok()
    ensures ApplyAll(ws + [w], data) == SetBitfield(w.field, w.value, ApplyAll(ws, data))
  {
    if ws != [] {
      assert (ws + [w])[1..] == ws[1..] + [w];
      ApplyAllSnoc(ws[1..], w, SetBitfield(ws[0].field, ws[0].value, data));
    } else {
      assert ([w])[1..] == [];
    }
  }

  /** Every bit of the folded word: the value of the one write that covers it, else the old bit. */
  lemma {:induction false} ApplyAllBit(ws: seq<Write>, data: Word, i: nat)
    requires Layout(ws) && i < 64
    ensures forall k :: 0 <= k < |ws| && ws[k].field.Covers(i) ==>
              ApplyAll(ws, data)[i] == ws[k].value[i - ws[k].field.low]
    ensures (forall k :: 0 <= k < |ws| ==> !ws[k].field.Covers(i)) ==> ApplyAll(ws, data)[i] == data[i]
  {
    if ws != [] {
      var head, rest := ws[0], ws[1..];
      var data' := SetBitfield(head.field, head.value, data);
      SetBitfieldIsOverwrite(head.field, head.value, data);
      assert Layout(rest) by {
        forall a, b | 0 <= a < b < |rest| ensures rest[a].field.Disjoint(rest[b].field) {
          assert ws[a + 1].field.Disjoint(ws[b + 1].field);
        }
      }
      ApplyAllBit(rest, data', i);
      forall k | 0 <= k < |ws| && ws[k].field.Covers(i)
        ensures ApplyAll(ws, data)[i] == ws[k].value[i - ws[k].field.low]
      {
        if k == 0 {
          forall j | 0 <= j < |rest| ensures !rest[j].field.Covers(i) {
            assert ws[0].field.Disjoint(ws[j + 1].field);
          }
        } else {
          assert rest[k - 1] == ws[k];
        }
      }
      if forall k :: 0 <= k < |ws| ==> !ws[k].field.Covers(i) {
        forall j | 0 <= j < |rest| ensures !rest[j].field.Covers(i) {
          assert rest[j] == ws[j + 1];
        }
        assert !ws[0].field.Covers(i);
      }
    }
  }

  /** Each field reads back its value modulo its width. */
  lemma FieldReadsBack(ws: seq<Write>, data: Word, k: nat)
    requires Layout(ws) && k < |ws|
    ensures GetBitfield(ws[k].field, ApplyAll(ws, data)) == And(ws[k].value, Shr(AllOnes(), 64 - ws[k].field.Width()))
             || ws[k].field.Width() == 64
    ensures forall i :: 0 <= i < 64 ==>
              GetBitfield(ws[k].field, ApplyAll(ws, data))[i] == (i < ws[k].field.Width() && ws[k].value[i])
  {
    var f := ws[k].field;
    GetBitfieldBits(f, ApplyAll(ws, data));
    forall i | 0 <= i < f.Width()
      ensures ApplyAll(ws, data)[f.low + i] == ws[k].value[i]
    {
      ApplyAllBit(ws, data, f.low + i);
    }
  }

  /** A field disjoint from every written field keeps its contents. */
  lemma FieldFrame(ws: seq<Write>, data: Word, g: Field)
    requires Layout(ws) && g.Ok()
    requires forall w :: w in ws ==> w.field.Disjoint(g)
    ensures GetBitfield(g, ApplyAll(ws, data)) == GetBitfield(g, data)
  {
    GetBitfieldBits(g, ApplyAll(ws, data));
    GetBitfieldBits(g, data);
    forall i | g.low <= i <= g.high
      ensures ApplyAll(ws, data)[i] == data[i]
    {
      assert forall k :: 0 <= k < |ws| ==> ws[k] in ws;
      ApplyAllBit(ws, data, i);
    }
  }

  lemma LayoutOccursOnce(ws: seq<Write>, w: Write)
    requires Layout(ws)
    ensures multiset(ws)[w] <= 1
  {
    if w in ws {
      var k :| 0 <= k < |ws| && ws[k] == w;
      assert ws == ws[..k] + [w] + ws[k + 1..];
      forall j | 0 <= j < |ws| && j != k ensures ws[j] != w {
        assert j < k ==> ws[j].field.Disjoint(w.field);
        assert k < j ==> w.field.Disjoint(ws[j].field);
      }
      assert w !in ws[..k] && w !in ws[k + 1..];
      assert multiset(ws) == multiset(ws[..k]) + multiset{w} + multiset(ws[k + 1..]);
    }
  }

  lemma PermutedLayout(ws: seq<Write>, vs: seq<Write>)
    requires Layout(ws) && multiset(ws) == multiset(vs)
    ensures Layout(vs)
  {
    forall w | w in vs ensures w in ws {
      assert w in multiset(vs);
    }
    forall i, j | 0 <= i < j < |vs| ensures vs[i].field.Disjoint(vs[j].field) {
      var a, b := vs[i], vs[j];
      if a == b {
        assert vs == vs[..j] + vs[j..];
        assert multiset(vs) == multiset(vs[..j]) + multiset(vs[j..]);
        assert a in vs[..j] && a in vs[j..];
        LayoutOccursOnce(ws, a);
      }
      var k :| 0 <= k < |ws| && ws[k] == a;
      var l :| 0 <= l < |ws| && ws[l] == b;
    }
  }

  /** Writing disjoint fields in any order gives the same word. */
  lemma WriteOrderIrrelevant(ws: seq<Write>, vs: seq<Write>, data: Word)
    requires Layout(ws) && multiset(ws) == multiset(vs)
    ensures Layout(vs) && ApplyAll(ws, data) == ApplyAll(vs, data)
  {
    PermutedLayout(ws, vs);
    forall i | 0 <= i < 64
      ensures ApplyAll(ws, data)[i] == ApplyAll(vs, data)[i]
    {
      ApplyAllBit(ws, data, i);
      ApplyAllBit(vs, data, i);
      if k :| 0 <= k < |ws| && ws[k].field.Covers(i) {
        assert ws[k] in multiset(vs);
        var l :| 0 <= l < |vs| && vs[l] == ws[k];
      } else {
        forall l | 0 <= l < |vs| ensures !vs[l].field.Covers(i) {
          assert vs[l] in multiset(ws);
        }
      }
    }
  }

  /** A second identical pass changes nothing. */
  lemma ApplyAllIdempotent(ws: seq<Write>, data: Word)
    requires Layout(ws)
    ensures ApplyAll(ws, ApplyAll(ws, data)) == ApplyAll(ws, data)
  {
    forall i | 0 <= i < 64
      ensures ApplyAll(ws, ApplyAll(ws, data))[i] == ApplyAll(ws, data)[i]
    {
      ApplyAllBit(ws, data, i);
      ApplyAllBit(ws, ApplyAll(ws, data), i);
    }
  }

  // ---------- read-back comparison ----------

  /** The comparison made after a register write: every field equals the requested word. */
  predicate Matches(ws: seq<Write>, reg: Word)
    requires forall w :: w in ws ==> w.field.Ok()
  {
    forall k :: 0 <= k < |ws| ==> GetBitfield(ws[k].field, reg) == ws[k].value
  }

  ghost predicate Fits(w: Write)
    requires w.field.Ok()
  {
    ClearFrom(w.value, w.field.Width())
  }

  /** On a register that stores what is written, the comparison succeeds iff every value fits. */
  lemma MatchesIffFits(ws: seq<Write>, data: Word)
    requires Layout(ws)
    ensures Matches(ws, ApplyAll(ws, data)) <==> forall k :: 0 <= k < |ws| ==> Fits(ws[k])
  {
    forall k | 0 <= k < |ws|
      ensures GetBitfield(ws[k].field, ApplyAll(ws, data)) == ws[k].value <==> Fits(ws[k])
    {
      FieldReadsBack(ws, data, k);
      var got := GetBitfield(ws[k].field, ApplyAll(ws, data));
      if Fits(ws[k]) {
        assert forall i :: 0 <= i < 64 ==> got[i] == ws[k].value[i];
      }
    }
  }

  /** A C integer converted to a word fits a field iff it is an unsigned number of that width. */
  lemma IntFits(f: Field, x: int)
    requires f.Ok() && f.Width() < 64 && -0x8000_0000 <= x < 0x8000_0000
    ensures Fits(Write(f, ToWord(x))) <==> 0 <= x < Pow2(f.Width())
  {
    Pow2Big();
    HighBitsClear(x, f.Width(), 64);
  }

  /** The integer a field decodes to when the comparison with x succeeded. */
  lemma MatchedValue(f: Field, x: int, reg: Word)
    requires f.Ok() && f.Width() < 64 && -0x8000_0000 <= x < 0x8000_0000
    ensures GetBitfield(f, reg) == ToWord(x) ==> Value(GetBitfield(f, reg)) == x
  {
    if GetBitfield(f, reg) == ToWord(x) {
      GetBitfieldBits(f, reg);
      Pow2Big();
      HighBitsClear(x, f.Width(), 64);
      Pow2Monotone(f.Width(), 64);
      ValueBits(x, 64);
    }
  }

  lemma Pow2Big()
    ensures Pow2(31) == 0x8000_0000 && Pow2(63) >= 0x8000_0000 && Pow2(64) >= 0x8000_0000
  {
    Pow2Values();
    Pow2Monotone(31, 63);
    Pow2Monotone(31, 64);
    assert Pow2(20) == 1024 * 1024 by { assert Pow2(18) == 262144 by { assert Pow2(16) == 65536; } }
    assert Pow2(25) == 33554432;
    assert Pow2(31) == 0x8000_0000;
  }
}
