/** A bitset of 64-bit words, proved to be a set of small natural numbers. */
module PorcupineBitset {

  type Word = bv64

  function Shift(k: nat): bv8
    requires k < 64
  {
    k as bv8
  }

  function Bit(k: nat): Word
    requires k < 64
  {
    (1 as bv64) << Shift(k)
  }

  function Or(a: Word, b: Word): Word { a | b }
  function Without(a: Word, b: Word): Word { a & !b }
  predicate Has(a: Word, b: Word) { a & b != 0 }

  /** The word whose bit k, for k below `bits`, says whether base + k is in the set. */
  function Pack(s: set<nat>, base: nat, bits: nat): Word
    requires bits <= 64
  {
    if bits == 0 then 0
    else if base + bits - 1 in s then Or(Pack(s, base, bits - 1), Bit(bits - 1))
    else Pack(s, base, bits - 1)
  }

  function Words(s: set<nat>, count: nat): seq<Word> {
    seq(count, j requires 0 <= j => Pack(s, 64 * j, 64))
  }

  /** The words are exactly those of the set, and the set fits into them. */
  predicate Encodes(words: seq<Word>, s: set<nat>) {
    words == Words(s, |words|) && forall x :: x in s ==> x < 64 * |words|
  }

  // ---------------------------------------------------------------- single bits

  lemma ShiftExact(k: nat)
    requires k < 64
    ensures Shift(k) as nat == k
  {
  }

  lemma ShiftSmall(k: nat)
    requires k < 64
    ensures Shift(k) < 64
  {
  }

  lemma Apart8(i: bv8, j: bv8)
    requires i < 64 && j < 64 && i != j
    ensures ((1 as bv64) << i) & ((1 as bv64) << j) == 0
  {
  }

  lemma Apart(i: nat, j: nat)
    requires i < 64 && j < 64 && i != j
    ensures !Has(Bit(i), Bit(j))
  {
    hide Shift;
    ShiftExact(i);
    ShiftExact(j);
    ShiftSmall(i);
    ShiftSmall(j);
    assert Shift(i) != Shift(j);
    Apart8(Shift(i), Shift(j));
  }

  lemma On8(i: bv8)
    requires i < 64
    ensures (1 as bv64) << i != 0
  {
  }

  lemma On(i: nat)
    requires i < 64
    ensures Bit(i) != 0
  {
    hide Shift;
    ShiftSmall(i);
    On8(Shift(i));
  }

  lemma RawOr(a: Word, b: Word, c: Word)
    ensures (a | b) | c == (a | c) | b
  {
  }

  lemma OrSwap(a: Word, b: Word, c: Word)
    ensures Or(Or(a, b), c) == Or(Or(a, c), b)
  {
    calc {
      Or(Or(a, b), c);
      Or(a | b, c);
      { RawOr(a, b, c); }
      Or(a | c, b);
      Or(Or(a, c), b);
    }
  }

  lemma OrTwice(a: Word, b: Word)
    ensures Or(Or(a, b), b) == Or(a, b)
  {
  }

  lemma RawWithoutOr(a: Word, b: Word, c: Word)
    requires b & c == 0
    ensures (a | b) & !c == (a & !c) | b
  {
  }

  lemma WithoutOr(a: Word, b: Word, c: Word)
    requires !Has(b, c)
    ensures Without(Or(a, b), c) == Or(Without(a, c), b)
  {
    hide Or, Without, Has;
    OrIs(a, b);
    WithoutIs(a, c);
    HasIs(b, c);
    WithoutIs(a | b, c);
    OrIs(a & !c, b);
    RawWithoutOr(a, b, c);
  }

  lemma OrIs(a: Word, b: Word)
    ensures Or(a, b) == a | b
  {
  }

  lemma WithoutIs(a: Word, b: Word)
    ensures Without(a, b) == a & !b
  {
  }

  lemma HasIs(a: Word, b: Word)
    ensures Has(a, b) == (a & b != 0)
  {
  }

  lemma RawWithoutOwn(a: Word, b: Word)
    ensures (a | b) & !b == a & !b
  {
  }

  lemma WithoutOwn(a: Word, b: Word)
    ensures Without(Or(a, b), b) == Without(a, b)
  {
    calc {
      Without(Or(a, b), b);
      Without(a | b, b);
      { RawWithoutOwn(a, b); }
      Without(a, b);
    }
  }

  lemma WithoutAbsent(a: Word, b: Word)
    requires !Has(a, b)
    ensures Without(a, b) == a
  {
  }

  lemma RawHasOr(a: Word, b: Word, c: Word)
    requires b & c == 0
    ensures (a | b) & c == a & c
  {
  }

  lemma HasOr(a: Word, b: Word, c: Word)
    requires !Has(b, c)
    ensures Has(Or(a, b), c) <==> Has(a, c)
  {
    calc {
      Has(Or(a, b), c);
      Has(a | b, c);
      { RawHasOr(a, b, c); }
      Has(a, c);
    }
  }

  lemma RawHasOwn(a: Word, b: Word)
    ensures (a | b) & b == b
  {
  }

  lemma HasOwn(a: Word, b: Word)
    requires b != 0
    ensures Has(Or(a, b), b)
  {
    RawHasOwn(a, b);
  }

  lemma NoneHas(b: Word)
    ensures !Has(0, b)
  {
  }

  // ---------------------------------------------------------------- words

  lemma {:induction false} PackAdd(s: set<nat>, base: nat, bits: nat, m: nat)
    requires m < 64 && bits <= 64
    ensures Pack(s + {base + m}, base, bits) == if m < bits then Or(Pack(s, base, bits), Bit(m)) else Pack(s, base, bits)
  {
    hide Bit, Or;
    if bits > 0 {
      PackAdd(s, base, bits - 1, m);
      OrSwap(Pack(s, base, bits - 1), Bit(bits - 1), Bit(m));
      OrTwice(Pack(s, base, bits - 1), Bit(m));
    }
  }

  lemma {:induction false} PackDrop(s: set<nat>, base: nat, bits: nat, m: nat)
    requires m < 64 && bits <= 64
    ensures Pack(s - {base + m}, base, bits) == if m < bits then Without(Pack(s, base, bits), Bit(m)) else Pack(s, base, bits)
  {
    hide Bit, Or, Without, Has;
    if bits > 0 {
      PackDrop(s, base, bits - 1, m);
      if m < bits - 1 {
        Apart(bits - 1, m);
        WithoutOr(Pack(s, base, bits - 1), Bit(bits - 1), Bit(m));
      } else if m == bits - 1 {
        PackUnset(s, base, m, m);
        WithoutOwn(Pack(s, base, m), Bit(m));
        WithoutAbsent(Pack(s, base, m), Bit(m));
      }
    }
  }

  /** A bit not packed yet is off. */
  lemma {:induction false} PackUnset(s: set<nat>, base: nat, bits: nat, m: nat)
    requires bits <= m < 64
    ensures !Has(Pack(s, base, bits), Bit(m))
  {
    hide Bit, Or, Has;
    if bits > 0 {
      PackUnset(s, base, bits - 1, m);
      Apart(bits - 1, m);
      HasOr(Pack(s, base, bits - 1), Bit(bits - 1), Bit(m));
    } else {
      NoneHas(Bit(m));
    }
  }

  lemma {:induction false} PackGet(s: set<nat>, base: nat, bits: nat, m: nat)
    requires m < bits <= 64
    ensures Has(Pack(s, base, bits), Bit(m)) <==> base + m in s
  {
    hide Bit, Or, Has;
    if m == bits - 1 {
      On(m);
      HasOwn(Pack(s, base, m), Bit(m));
      PackUnset(s, base, m, m);
    } else {
      PackGet(s, base, bits - 1, m);
      Apart(bits - 1, m);
      HasOr(Pack(s, base, bits - 1), Bit(bits - 1), Bit(m));
    }
  }

  lemma {:induction false} PackSame(s: set<nat>, t: set<nat>, base: nat, bits: nat)
    requires bits <= 64 && forall x :: base <= x < base + bits ==> (x in s <==> x in t)
    ensures Pack(s, base, bits) == Pack(t, base, bits)
  {
    hide Bit, Or;
    if bits > 0 { PackSame(s, t, base, bits - 1); }
  }

  lemma AddEncodes(words: seq<Word>, s: set<nat>, pos: nat)
    requires Encodes(words, s) && pos < 64 * |words|
    ensures Encodes(words[pos / 64 := Or(words[pos / 64], Bit(pos % 64))], s + {pos})
  {
    hide Bit, Pack, Or, Without, Has;
    var t := s + {pos};
    forall j | 0 <= j < |words|
      ensures words[pos / 64 := Or(words[pos / 64], Bit(pos % 64))][j] == Pack(t, 64 * j, 64)
    {
      if j == pos / 64 { PackAdd(s, 64 * j, 64, pos % 64); } else { PackSame(s, t, 64 * j, 64); }
    }
  }

  lemma DropEncodes(words: seq<Word>, s: set<nat>, pos: nat)
    requires Encodes(words, s) && pos < 64 * |words|
    ensures Encodes(words[pos / 64 := Without(words[pos / 64], Bit(pos % 64))], s - {pos})
  {
    hide Bit, Pack, Or, Without, Has;
    var t := s - {pos};
    forall j | 0 <= j < |words|
      ensures words[pos / 64 := Without(words[pos / 64], Bit(pos % 64))][j] == Pack(t, 64 * j, 64)
    {
      if j == pos / 64 { PackDrop(s, 64 * j, 64, pos % 64); } else { PackSame(s, t, 64 * j, 64); }
    }
  }

  /** Two bitsets of one length are the same words exactly when they are the same set. */
  lemma EncodesUnique(words: seq<Word>, words': seq<Word>, s: set<nat>, t: set<nat>)
    requires Encodes(words, s) && Encodes(words', t) && |words| == |words'|
    ensures words == words' <==> s == t
  {
    hide Bit, Pack, Or, Without, Has;
    if words == words' {
      forall x ensures x in s <==> x in t {
        if x in s || x in t {
          var j, m := x / 64, x % 64;
          assert words[j] == Pack(s, 64 * j, 64) == Pack(t, 64 * j, 64);
          PackGet(s, 64 * j, 64, m);
          PackGet(t, 64 * j, 64, m);
        }
      }
    }
  }

  lemma {:induction false} PackEmpty(base: nat, bits: nat)
    requires bits <= 64
    ensures Pack({}, base, bits) == 0
  {
    hide Bit, Or;
    if bits > 0 { PackEmpty(base, bits - 1); }
  }

  // ---------------------------------------------------------------- the operations

  method NewBitset(bits: nat) returns (b: array<Word>)
    ensures fresh(b) && Encodes(b[..], {}) && bits <= 64 * b.Length < bits + 64
  {
    var extra := if bits % 64 != 0 then 1 else 0;
    b := new Word[bits / 64 + extra](_ => 0);
    forall j | 0 <= j < b.Length ensures b[..][j] == Pack({}, 64 * j, 64) { PackEmpty(64 * j, 64); }
  }

  method Clone(b: array<Word>) returns (c: array<Word>)
    ensures fresh(c) && c[..] == b[..]
  {
    c := new Word[b.Length](_ => 0);
    var i := 0;
    while i < b.Length
      invariant 0 <= i <= b.Length == c.Length && c[..i] == b[..i]
    {
      c[i] := b[i];
      i := i + 1;
    }
  }

  method SetBit(b: array<Word>, pos: nat, ghost s: set<nat>)
    requires Encodes(b[..], s) && pos < 64 * b.Length
    modifies b
    ensures Encodes(b[..], s + {pos})
  {
    hide Bit, Or, Encodes;
    AddEncodes(b[..], s, pos);
    var major, minor := pos / 64, pos % 64;
    ghost var before := b[..];
    b[major] := Or(b[major], Bit(minor));
    assert b[..] == before[major := Or(before[major], Bit(minor))];
  }

  method ClearBit(b: array<Word>, pos: nat, ghost s: set<nat>)
    requires Encodes(b[..], s) && pos < 64 * b.Length
    modifies b
    ensures Encodes(b[..], s - {pos})
  {
    hide Bit, Without, Encodes;
    DropEncodes(b[..], s, pos);
    var major, minor := pos / 64, pos % 64;
    ghost var before := b[..];
    b[major] := Without(b[major], Bit(minor));
    assert b[..] == before[major := Without(before[major], Bit(minor))];
  }

  method GetBit(b: array<Word>, pos: nat, ghost s: set<nat>) returns (on: bool)
    requires Encodes(b[..], s) && pos < 64 * b.Length
    ensures on <==> pos in s
  {
    hide Bit, Has, Pack;
    PackGet(s, 64 * (pos / 64), 64, pos % 64);
    assert b[pos / 64] == b[..][pos / 64];
    on := Has(b[pos / 64], Bit(pos % 64));
  }

  method Equals(b: seq<Word>, c: seq<Word>) returns (same: bool)
    ensures same <==> b == c
  {
    if |b| != |c| {
      return false;
    }
    var i := 0;
    while i < |b|
      invariant 0 <= i <= |b| && b[..i] == c[..i]
    {
      if b[i] != c[i] {
        return false;
      }
      i := i + 1;
    }
    same := true;
  }

  function Ones(w: Word, bits: nat): nat
    requires bits <= 64
  {
    if bits == 0 then 0 else Ones(w, bits - 1) + (if Has(w, Bit(bits - 1)) then 1 else 0)
  }

  function PopCount(b: seq<Word>): nat {
    if b == [] then 0 else PopCount(b[..|b| - 1]) + Ones(b[|b| - 1], 64)
  }

  function Xor(a: Word, b: Word): Word { a ^ b }

  function XorAll(b: seq<Word>, seed: Word): Word {
    if b == [] then seed else Xor(XorAll(b[..|b| - 1], seed), b[|b| - 1])
  }

  /** Any function of the words would do: equal bitsets land in the same bucket. */
  function HashOf(b: seq<Word>): Word { XorAll(b, Truncated(PopCount(b))) }

  function Truncated(n: nat): Word { (n % 0x1_0000_0000_0000_0000) as bv64 }

  method Hash(b: seq<Word>) returns (hash: Word)
    ensures hash == HashOf(b)
  {
    hide Xor, Truncated, Ones;
    var total := 0;
    var i := 0;
    while i < |b|
      invariant 0 <= i <= |b| && total == PopCount(b[..i])
    {
      assert b[..i + 1][..i] == b[..i];
      total := total + Ones(b[i], 64);
      i := i + 1;
    }
    assert b[..|b|] == b;
    hash := Truncated(total);
    i := 0;
    while i < |b|
      invariant 0 <= i <= |b| && hash == XorAll(b[..i], Truncated(total))
    {
      assert b[..i + 1][..i] == b[..i];
      hash := Xor(hash, b[i]);
      i := i + 1;
    }
  }
}
