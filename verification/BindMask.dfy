/** ServerCore/DBBind: which parameters and columns of a statement have been bound, kept as two
    words of bits that Validate compares with a mask computed at compile time. */
module BindMask {

  /** 1 << i */
  function Bit(i: nat): (b: nat)
    ensures b > 0
  {
    if i == 0 then 1 else 2 * Bit(i - 1)
  }

  /** a | b, digit by digit. */
  function Or(a: nat, b: nat): nat
    decreases a + b
  {
    if a == 0 then b else if b == 0 then a
    else (if a % 2 == 1 || b % 2 == 1 then 1 else 0) + 2 * Or(a / 2, b / 2)
  }

  /** The template FullBits, with its two specialisations. */
  function FullBits(c: nat): nat {
    if c == 0 then 0 else if c == 1 then 1 else Or(Bit(c - 1), FullBits(c - 1))
  }

  /** The word whose digit i says whether i is a member. */
  function Word(from: nat, width: nat, bound: set<nat>): nat
    decreases width
  {
    if width == 0 then 0
    else (if from in bound then 1 else 0) + 2 * Word(from + 1, width - 1, bound)
  }

  lemma {:induction false} WordOfNone(from: nat, width: nat)
    ensures Word(from, width, {}) == 0
    decreases width
  {
    if width > 0 { WordOfNone(from + 1, width - 1); }
  }

  lemma {:induction false} WordSame(from: nat, width: nat, a: set<nat>, b: set<nat>)
    requires forall i :: from <= i < from + width ==> (i in a <==> i in b)
    ensures Word(from, width, a) == Word(from, width, b)
    decreases width
  {
    if width > 0 { WordSame(from + 1, width - 1, a, b); }
  }

  /** Or with one bit adds one member, whether or not it was there. */
  lemma {:induction false} OrAddsMember(from: nat, width: nat, bound: set<nat>, i: nat)
    requires i < width
    ensures Or(Word(from, width, bound), Bit(i)) == Word(from, width, bound + {from + i})
    ensures Or(Bit(i), Word(from, width, bound)) == Word(from, width, bound + {from + i})
    decreases width
  {
    var w, rest := Word(from, width, bound), Word(from + 1, width - 1, bound);
    var w', rest' := Word(from, width, bound + {from + i}), Word(from + 1, width - 1, bound + {from + i});
    assert w / 2 == rest && w' / 2 == rest';
    if i == 0 {
      WordSame(from + 1, width - 1, bound, bound + {from});
      assert Or(rest, 0) == rest == Or(0, rest);
    } else {
      OrAddsMember(from + 1, width - 1, bound, i - 1);
      assert from + 1 + (i - 1) == from + i;
      assert Bit(i) / 2 == Bit(i - 1) && Bit(i) % 2 == 0;
      if w == 0 {
        assert rest == 0 && Or(0, Bit(i - 1)) == Bit(i - 1) == Or(Bit(i - 1), 0);
      }
    }
  }

  /** A word of that width is below 2^width, and one short of it exactly when every digit is set. */
  lemma {:induction false} WordFull(from: nat, width: nat, bound: set<nat>)
    ensures Word(from, width, bound) <= Bit(width) - 1
    ensures Word(from, width, bound) == Bit(width) - 1 <==>
              forall i :: from <= i < from + width ==> i in bound
    decreases width
  {
    if width > 0 { WordFull(from + 1, width - 1, bound); }
  }

  function Below(c: nat): (below: set<nat>)
    ensures forall i: nat :: i in below <==> i < c
  {
    if c == 0 then {} else Below(c - 1) + {c - 1}
  }

  lemma {:induction false} FullBitsWord(c: nat, width: nat)
    requires c <= width
    ensures FullBits(c) == Word(0, width, Below(c))
  {
    if c == 0 {
      assert Below(0) == {};
      WordOfNone(0, width);
    } else {
      FullBitsWord(c - 1, width);
      OrAddsMember(0, width, Below(c - 1), c - 1);
      assert Below(c - 1) + {0 + (c - 1)} == Below(c);
      assert c == 1 ==> Or(Bit(0), FullBits(0)) == 1;
    }
  }

  /** The recursion of the template computes 2^c - 1. */
  lemma {:induction false} FullBitsValue(c: nat)
    ensures FullBits(c) == Bit(c) - 1
  {
    FullBitsWord(c, c);
    WordFull(0, c, Below(c));
  }

  predicate Within(bound: set<nat>, width: nat) { forall i :: i in bound ==> i < width }

  ghost predicate Exactly(bound: set<nat>, c: nat) { forall i: nat :: i in bound <==> i < c }

  /** A flag that stands for a set of bound indices, at whatever width it is read. */
  ghost predicate Stands(flag: nat, bound: set<nat>) {
    forall width: nat :: Within(bound, width) ==> flag == Word(0, width, bound)
  }

  /** Two words of one width are equal only for the same members. */
  lemma {:induction false} WordInjective(from: nat, width: nat, a: set<nat>, b: set<nat>)
    requires Word(from, width, a) == Word(from, width, b)
    ensures forall i :: from <= i < from + width ==> (i in a <==> i in b)
    decreases width
  {
    if width > 0 {
      var x, y := Word(from + 1, width - 1, a), Word(from + 1, width - 1, b);
      assert (if from in a then 1 else 0) + 2 * x == (if from in b then 1 else 0) + 2 * y;
      WordInjective(from + 1, width - 1, a, b);
    }
  }

  /** A word equals the mask of c bits if and only if its members are exactly those below c: none
      missing and none beyond. */
  lemma {:induction false} MaskExact(c: nat, width: nat, bound: set<nat>)
    requires c <= width && Within(bound, width)
    ensures Word(0, width, bound) == FullBits(c) <==> Exactly(bound, c)
  {
    FullBitsWord(c, width);
    if Word(0, width, bound) == FullBits(c) {
      WordInjective(0, width, bound, Below(c));
    }
    if Exactly(bound, c) {
      WordSame(0, width, bound, Below(c));
    }
  }

  /** The mask is computed in a 32-bit int: the last count that compiles, 32, makes it -1, which as
      an unsigned 64-bit number has every bit set. */
  const INT_BITS := 32
  const ALL_BITS := 0xFFFF_FFFF_FFFF_FFFF
  const FLAG_BITS := 64

  function Mask(c: nat): nat { if c < INT_BITS then FullBits(c) else ALL_BITS }

  /** How many indices must be bound for the flag to equal the mask. */
  function Needed(c: nat): nat { if c < INT_BITS then c else FLAG_BITS }

  lemma {:induction false} BitSum(i: nat, j: nat)
    ensures Bit(i + j) == Bit(i) * Bit(j)
  {
    if i > 0 { BitSum(i - 1, j); }
  }

  lemma {:induction false} BitTwice(i: nat, b: nat)
    requires Bit(i) == b
    ensures Bit(2 * i) == b * b
  {
    BitSum(i, i);
  }

  lemma {:induction false} AllBitsValue(c: nat)
    requires c == FLAG_BITS
    ensures Bit(c) - 1 == ALL_BITS
  {
    var i := c / 8;
    assert Bit(i) == 0x100;
    BitTwice(i, 0x100);
    BitTwice(2 * i, 0x1_0000);
    BitTwice(4 * i, 0x1_0000_0000);
  }

  lemma {:induction false} AllBitsExact(width: nat, flag: nat, bound: set<nat>)
    requires Stands(flag, bound) && Within(bound, width)
    ensures flag == Bit(width) - 1 <==> Exactly(bound, width)
  {
    WordFull(0, width, bound);
  }

  class DBBind {
    const paramCount: nat
    const columnCount: nat
    var paramFlag: nat
    var columnFlag: nat
    ghost var boundParams: set<nat>
    ghost var boundColumns: set<nat>

    ghost predicate Valid()
      reads this
    {
      && paramCount <= INT_BITS && columnCount <= INT_BITS
      && Within(boundParams, FLAG_BITS) && Within(boundColumns, FLAG_BITS)
      && Stands(paramFlag, boundParams) && Stands(columnFlag, boundColumns)
    }

    constructor (paramCount: nat, columnCount: nat)
      requires paramCount <= INT_BITS && columnCount <= INT_BITS
      ensures Valid() && boundParams == {} && boundColumns == {}
      ensures this.paramCount == paramCount && this.columnCount == columnCount
    {
      this.paramCount, this.columnCount := paramCount, columnCount;
      paramFlag, columnFlag, boundParams, boundColumns := 0, 0, {}, {};
      forall width: nat ensures Word(0, width, {}) == 0 { WordOfNone(0, width); }
    }

    /** BindParam and SetParamNull, as far as the flag goes. */
    method BindParam(idx: nat)
      requires Valid() && idx < FLAG_BITS
      modifies this
      ensures Valid() && boundParams == old(boundParams) + {idx} && boundColumns == old(boundColumns)
    {
      StandsMore(paramFlag, boundParams, idx);
      paramFlag := Or(paramFlag, Bit(idx));
      boundParams := boundParams + {idx};
    }

    method BindCol(idx: nat)
      requires Valid() && idx < FLAG_BITS
      modifies this
      ensures Valid() && boundColumns == old(boundColumns) + {idx} && boundParams == old(boundParams)
    {
      StandsMore(columnFlag, boundColumns, idx);
      columnFlag := Or(columnFlag, Bit(idx));
      boundColumns := boundColumns + {idx};
    }

    /** True exactly when the parameters and columns bound are those the masks stand for: for a count
        below 32, all of them and none beyond; for 32 itself, all 64 indices a flag can hold. */
    method Validate() returns (ok: bool)
      requires Valid()
      ensures ok <==> Exactly(boundParams, Needed(paramCount)) && Exactly(boundColumns, Needed(columnCount))
    {
      FlagExact(paramCount, paramFlag, boundParams);
      FlagExact(columnCount, columnFlag, boundColumns);
      ok := paramFlag == Mask(paramCount) && columnFlag == Mask(columnCount);
    }
  }

  lemma {:induction false} StandsMore(flag: nat, bound: set<nat>, i: nat)
    requires Stands(flag, bound)
    ensures Stands(Or(flag, Bit(i)), bound + {i})
  {
    forall width: nat | Within(bound + {i}, width)
      ensures Or(flag, Bit(i)) == Word(0, width, bound + {i})
    {
      assert i in bound + {i};
      assert forall j :: j in bound ==> j in bound + {i};
      assert Within(bound, width);
      OrAddsMember(0, width, bound, i);
      assert 0 + i == i;
    }
  }

  lemma {:induction false} FlagExact(c: nat, flag: nat, bound: set<nat>)
    requires Stands(flag, bound) && Within(bound, FLAG_BITS)
    ensures flag == Mask(c) <==> Exactly(bound, Needed(c))
  {
    if c < INT_BITS {
      var width :| width >= FLAG_BITS && Within(bound, width);
      MaskExact(c, width, bound);
    } else {
      var width := FLAG_BITS;
      AllBitsValue(width);
      AllBitsExact(width, flag, bound);
    }
  }

  /** So a statement with 32 parameters never validates, whatever in-range binds are made. */
  lemma {:induction false} NeverAt32(flag: nat, bound: set<nat>)
    requires Stands(flag, bound) && Within(bound, INT_BITS)
    ensures flag != Mask(INT_BITS)
  {
    assert Within(bound, FLAG_BITS);
    FlagExact(INT_BITS, flag, bound);
    assert 32 !in bound;
  }
}
