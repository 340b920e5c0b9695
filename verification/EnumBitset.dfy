/** The enum bitset of include/Templates/EnumBitset.hpp. Machine words and bitsets are sequences of
    bits, lowest first; what they mean is the set of positions of their one-bits. */
module EnumBitsets {
  import opened EventTypes

  type Word = seq<bool>

  /** An instantiation: width and signedness of the underlying type, and MaxBits. */
  datatype Shape = Shape(width: nat, signed: bool, maxBits: nat) {
    ghost predicate Legal() {
      width in {8, 16, 32, 64} && maxBits <= width
    }
  }

  function Positions(bits: Word): set<nat> {
    set i | 0 <= i < |bits| && bits[i]
  }

  /** Conversion of an underlying value to `unsigned long long`: sign or zero extension. */
  function Extend(shape: Shape, value: Word): (wide: Word)
    requires 0 < |value| == shape.width <= 64
    ensures |wide| == 64
  {
    value + seq(64 - |value|, _ => shape.signed && value[|value| - 1])
  }

  /** `std::bitset<MaxBits>(unsigned long long)` keeps the low bits. */
  function FromUnderlying(shape: Shape, value: Word): (bits: Word)
    requires 0 < |value| == shape.width <= 64 && shape.maxBits <= shape.width
    ensures |bits| == shape.maxBits
  {
    Extend(shape, value)[..shape.maxBits]
  }

  /** `to_ullong()` narrowed to the underlying type. */
  function ToUnderlying(shape: Shape, bits: Word): (value: Word)
    requires |bits| == shape.maxBits <= shape.width <= 64
    ensures |value| == shape.width
  {
    (bits + seq(64 - |bits|, _ => false))[..shape.width]
  }

  predicate IsZero(value: Word) {
    forall i :: 0 <= i < |value| ==> !value[i]
  }

  /** `__builtin_ctzll`: trailing zeros. */
  function TrailingZeros(value: Word): nat {
    if value == [] || value[0] then 0 else 1 + TrailingZeros(value[1..])
  }

  lemma {:induction false} TrailingZerosIsLowest(value: Word)
    requires !IsZero(value)
    ensures TrailingZeros(value) < |value| && value[TrailingZeros(value)]
    ensures forall i :: 0 <= i < TrailingZeros(value) ==> !value[i]
  {
    if !value[0] {
      var i :| 0 <= i < |value| && value[i];
      assert value[1..][i - 1];
      TrailingZerosIsLowest(value[1..]);
    }
  }

  ghost predicate IsLowest(value: Word, p: nat) {
    p < |value| && value[p] && forall i :: 0 <= i < p ==> !value[i]
  }

  lemma LowestIsUnique(value: Word, p: nat, q: nat)
    requires IsLowest(value, p) && IsLowest(value, q)
    ensures p == q
  {
  }

  /** `to_bit_position` of a non-zero value is its lowest one-bit: sign extension adds nothing lower. */
  lemma BitPositionIsLowest(shape: Shape, value: Word)
    requires shape.Legal() && |value| == shape.width && !IsZero(value)
    ensures IsLowest(value, TrailingZeros(Extend(shape, value)))
  {
    var wide := Extend(shape, value);
    var i :| 0 <= i < |value| && value[i];
    assert wide[i];
    TrailingZerosIsLowest(wide);
    var p := TrailingZeros(wide);
    assert p <= i;
    assert forall j :: 0 <= j < |value| ==> wide[j] == value[j];
  }

  /** What set, reset and flip do to the one position they touch. */
  datatype Edit = Put(value: bool) | Flip

  function Edited(edit: Edit, bit: bool): bool {
    match edit
    case Put(value) => value
    case Flip => !bit
  }

  /** Single-enumerator set, reset and flip: zero is ignored, a position at or above MaxBits throws
      `out_of_range` and changes nothing. */
  function Apply(shape: Shape, bits: Word, value: Word, edit: Edit): (Word, bool)
    requires 0 < |value| == shape.width <= 64
  {
    if IsZero(value) then (bits, true)
    else
      var p := TrailingZeros(Extend(shape, value));
      if p < |bits| then (bits[p := Edited(edit, bits[p])], true) else (bits, false)
  }

  function Test(shape: Shape, bits: Word, value: Word): Option<bool>
    requires 0 < |value| == shape.width <= 64
  {
    if IsZero(value) then Some(false)
    else
      var p := TrailingZeros(Extend(shape, value));
      if p < |bits| then Some(bits[p]) else None
  }

  lemma PositionsUpdate(bits: Word, p: nat, bit: bool)
    requires p < |bits|
    ensures Positions(bits[p := bit]) == if bit then Positions(bits) + {p} else Positions(bits) - {p}
  {
  }

  /** On sets of positions: the edit touches the value's lowest one-bit if that is below MaxBits,
      throws if it is not, and ignores zero; all other positions stay; and test reads that same
      position, so it sees the edit. */
  lemma EditTouchesLowestBit(shape: Shape, bits: Word, value: Word, edit: Edit, p: nat)
    requires shape.Legal() && |bits| == shape.maxBits && |value| == shape.width && IsLowest(value, p)
    ensures var (after, ok) := Apply(shape, bits, value, edit);
            && |after| == |bits|
            && (ok <==> p < shape.maxBits)
            && (!ok ==> after == bits && Test(shape, after, value) == None)
            && (ok && edit == Put(true) ==> Positions(after) == Positions(bits) + {p})
            && (ok && edit == Put(false) ==> Positions(after) == Positions(bits) - {p})
            && (ok && edit == Flip ==>
                  Positions(after) == if p in Positions(bits) then Positions(bits) - {p} else Positions(bits) + {p})
            && (ok ==> Test(shape, after, value) == Some(p in Positions(after)))
  {
    assert !IsZero(value) by { assert value[p]; }
    BitPositionIsLowest(shape, value);
    LowestIsUnique(value, p, TrailingZeros(Extend(shape, value)));
    if p < |bits| {
      PositionsUpdate(bits, p, Edited(edit, bits[p]));
    }
  }

  /** The zero enumerator touches nothing, throws nothing, and tests as not set. */
  lemma ZeroIsIgnored(shape: Shape, bits: Word, value: Word, edit: Edit)
    requires shape.Legal() && |bits| == shape.maxBits && |value| == shape.width
    ensures Positions(value) == {} ==>
              Apply(shape, bits, value, edit) == (bits, true) && Test(shape, bits, value) == Some(false)
  {
    if !IsZero(value) {
      var i :| 0 <= i < |value| && value[i];
      assert i in Positions(value);
    }
  }

  /** Flipping twice is nothing, and setting or resetting twice is doing it once. */
  lemma EditTwice(shape: Shape, bits: Word, value: Word, edit: Edit)
    requires shape.Legal() && |bits| == shape.maxBits && |value| == shape.width
    ensures var once := Apply(shape, bits, value, edit).0;
            Apply(shape, once, value, edit).0 == if edit.Flip? then bits else once
  {
    var once := Apply(shape, bits, value, edit).0;
    assert |once| == |bits|;
    assert edit.Flip? ==> Apply(shape, once, value, edit).0 == bits;
  }

  /** Rebuilding a bitset from `to_enum()` gives it back, for both signednesses and every MaxBits; and
      a value comes back from a bitset exactly when it has no one-bit at or above MaxBits. */
  lemma RoundTrips(shape: Shape, bits: Word, value: Word)
    requires shape.Legal() && |bits| == shape.maxBits && |value| == shape.width
    ensures FromUnderlying(shape, ToUnderlying(shape, bits)) == bits
    ensures ToUnderlying(shape, FromUnderlying(shape, value)) == value
            <==> forall p :: p in Positions(value) ==> p < shape.maxBits
    ensures Positions(FromUnderlying(shape, value)) == set p | p in Positions(value) && p < shape.maxBits
  {
    var back := ToUnderlying(shape, FromUnderlying(shape, value));
    assert forall i :: 0 <= i < shape.maxBits ==> back[i] == value[i];
    assert forall i :: shape.maxBits <= i < shape.width ==> !back[i];
    if forall p :: p in Positions(value) ==> p < shape.maxBits {
      forall i | 0 <= i < shape.width ensures back[i] == value[i] {
        if value[i] { assert i in Positions(value); }
      }
      assert back == value;
    } else {
      var p :| p in Positions(value) && shape.maxBits <= p;
      assert back[p] != value[p];
    }
  }

  function Empty(shape: Shape): Word {
    seq(shape.maxBits, _ => false)
  }

  /** For an enumerator with a bit below MaxBits: setting it keeps its lowest bit, constructing from it
      keeps all of them. */
  lemma SetKeepsLowest(shape: Shape, value: Word, p: nat)
    requires shape.Legal() && |value| == shape.width && IsLowest(value, p) && p < shape.maxBits
    ensures Apply(shape, Empty(shape), value, Put(true)).1
    ensures FromUnderlying(shape, value) == Apply(shape, Empty(shape), value, Put(true)).0
            <==> forall i :: p < i < shape.maxBits ==> !value[i]
  {
    var empty := Empty(shape);
    EditTouchesLowestBit(shape, empty, value, Put(true), p);
    var made, put := FromUnderlying(shape, value), Apply(shape, empty, value, Put(true)).0;
    assert p in Positions(put);
    assert forall i :: 0 <= i < |put| ==> (put[i] <==> i == p) by {
      forall i | 0 <= i < |put| && i != p ensures !put[i] {
        assert i !in Positions(empty);
        assert i !in Positions(put) - {p};
      }
    }
    assert forall i :: 0 <= i < shape.maxBits ==> made[i] == value[i];
    if forall i :: p < i < shape.maxBits ==> !value[i] {
      assert made == put;
    }
  }

  /** `EnumBitset(e)` and `set(e)` on an empty bitset agree, in contents and without an exception,
      exactly when the enumerator is zero or has exactly one bit below MaxBits and that is its lowest. */
  lemma ConstructIsSetIffSingleBit(shape: Shape, value: Word)
    requires shape.Legal() && |value| == shape.width
    ensures Apply(shape, Empty(shape), value, Put(true)) == (FromUnderlying(shape, value), true)
            <==> IsZero(value)
                 || exists p: nat :: IsLowest(value, p) && p < shape.maxBits
                                     && forall i :: p < i < shape.maxBits ==> !value[i]
  {
    if IsZero(value) {
      assert FromUnderlying(shape, value) == Empty(shape);
    } else {
      BitPositionIsLowest(shape, value);
      var p := TrailingZeros(Extend(shape, value));
      if p < shape.maxBits {
        SetKeepsLowest(shape, value, p);
      } else {
        EditTouchesLowestBit(shape, Empty(shape), value, Put(true), p);
      }
      forall q: nat | IsLowest(value, q) ensures q == p {
        LowestIsUnique(value, p, q);
      }
    }
  }

  // ---- The object -------------------------------------------------------------------------------------

  /** The positions any of the words has. */
  ghost function Union(values: seq<Word>): set<nat> {
    if values == [] then {} else Union(values[..|values| - 1]) + Positions(values[|values| - 1])
  }

  function Or(a: Word, b: Word): Word
    requires |a| == |b|
  {
    seq(|a|, i requires 0 <= i < |a| => a[i] || b[i])
  }

  lemma OrIsUnion(a: Word, b: Word)
    requires |a| == |b|
    ensures Positions(Or(a, b)) == Positions(a) + Positions(b)
  {
  }

  class EnumBitset {
    const shape: Shape
    var bits: Word

    ghost predicate Valid()
      reads this
    {
      shape.Legal() && |bits| == shape.maxBits
    }

    /** The list constructor: the union of the values' positions below MaxBits. */
    constructor FromList(shape: Shape, init: seq<Word>)
      requires shape.Legal() && forall k :: 0 <= k < |init| ==> |init[k]| == shape.width
      ensures Valid() && this.shape == shape
      ensures Positions(bits) == set p | p in Union(init) && p < shape.maxBits
    {
      var all := OrAll(shape.width, init);
      this.shape := shape;
      bits := FromUnderlying(shape, all);
      new;
      RoundTrips(shape, bits, all);
    }

    static method OrAll(width: nat, init: seq<Word>) returns (result: Word)
      requires forall k :: 0 <= k < |init| ==> |init[k]| == width
      ensures |result| == width && Positions(result) == Union(init)
    {
      result := seq(width, _ => false);
      for k := 0 to |init|
        invariant |result| == width && Positions(result) == Union(init[..k])
      {
        OrIsUnion(result, init[k]);
        result := Or(result, init[k]);
        assert init[..k + 1][..k] == init[..k];
      }
      assert init[..|init|] == init;
    }

    /** set(e, value), reset(e) and flip(e); false stands for the exception. */
    method EditAt(value: Word, edit: Edit) returns (ok: bool)
      requires Valid() && |value| == shape.width
      modifies this
      ensures Valid() && (bits, ok) == Apply(shape, old(bits), value, edit)
      ensures IsZero(value) ==> ok && bits == old(bits)
      ensures forall p: nat :: IsLowest(value, p) ==>
                && (ok <==> p < shape.maxBits)
                && (!ok ==> bits == old(bits))
                && (ok && edit == Put(true) ==> Positions(bits) == old(Positions(bits)) + {p})
                && (ok && edit == Put(false) ==> Positions(bits) == old(Positions(bits)) - {p})
                && (ok && edit == Flip ==>
                      Positions(bits) == if p in old(Positions(bits)) then old(Positions(bits)) - {p}
                                         else old(Positions(bits)) + {p})
    {
      forall p: nat | IsLowest(value, p)
        ensures var (after, done) := Apply(shape, bits, value, edit);
                && (done <==> p < shape.maxBits)
                && (!done ==> after == bits)
                && (done && edit == Put(true) ==> Positions(after) == Positions(bits) + {p})
                && (done && edit == Put(false) ==> Positions(after) == Positions(bits) - {p})
                && (done && edit == Flip ==>
                      Positions(after) == if p in Positions(bits) then Positions(bits) - {p} else Positions(bits) + {p})
      {
        EditTouchesLowestBit(shape, bits, value, edit, p);
      }
      ok := true;
      if !IsZero(value) {
        var p := TrailingZeros(Extend(shape, value));
        if p < |bits| {
          bits := bits[p := Edited(edit, bits[p])];
        } else {
          ok := false;
        }
      }
    }

    method TestAt(value: Word) returns (r: Option<bool>)
      requires Valid() && |value| == shape.width
      ensures IsZero(value) ==> r == Some(false)
      ensures forall p: nat :: IsLowest(value, p) ==>
                r == if p < shape.maxBits then Some(p in Positions(bits)) else None
    {
      if IsZero(value) {
        return Some(false);
      }
      var p := TrailingZeros(Extend(shape, value));
      r := if p < |bits| then Some(bits[p]) else None;
      BitPositionIsLowest(shape, value);
      forall q: nat | IsLowest(value, q) ensures q == p {
        LowestIsUnique(value, p, q);
      }
    }

    /** The compound operators, member by member. */
    method OrWith(other: EnumBitset)
      requires Valid() && other.Valid() && other.shape == shape
      modifies this
      ensures Valid() && Positions(bits) == old(Positions(bits)) + old(Positions(other.bits))
    {
      OrIsUnion(bits, other.bits);
      bits := Or(bits, other.bits);
    }
  }
}
