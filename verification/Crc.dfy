/**
 The checksum step of the AMCOM packet layer (src/amcom.c).

 A machine word is the sequence of its bits, lowest first. `UpdateCrc` is the branch-free
 form the library uses, written with the C operators it uses. The reference is the
 bit-serial division of RFC 1662, Appendix C (generator 0x8408, least significant bit
 first). The two agree on every byte sequence, and the reference is then used to show
 which transmission errors the checksum cannot miss.
 */
module Crc {

  type Word = seq<bool>

  type Byte = b: Word | |b| == 8 witness [false, false, false, false, false, false, false, false]

  type Register = r: Word | |r| == 16 witness seq(16, i => false)

  // ---------- the operators of C on words of one width ----------

  function Zeros(n: nat): (z: Word)
    ensures |z| == n && forall i :: 0 <= i < n ==> !z[i]
  {
    seq(n, i => false)
  }

  function Xor(s: Word, t: Word): (x: Word)
    requires |s| == |t|
    ensures |x| == |s| && forall i :: 0 <= i < |s| ==> x[i] == (s[i] != t[i])
  {
    seq(|s|, i requires 0 <= i < |s| => s[i] != t[i])
  }

  function Or(s: Word, t: Word): (x: Word)
    requires |s| == |t|
    ensures |x| == |s| && forall i :: 0 <= i < |s| ==> x[i] == (s[i] || t[i])
  {
    seq(|s|, i requires 0 <= i < |s| => s[i] || t[i])
  }

  /** `s << k`, cut to the width of `s`. */
  function ShiftLeft(s: Word, k: nat): (x: Word)
    requires k <= |s|
    ensures |x| == |s|
  {
    Zeros(k) + s[..|s| - k]
  }

  function ShiftRight(s: Word, k: nat): (x: Word)
    requires k <= |s|
    ensures |x| == |s|
  {
    s[k..] + Zeros(k)
  }

  /** The cast of a byte to sixteen bits. */
  function Widen(b: Byte): Register {
    b + Zeros(8)
  }

  /** The cast of a word to a byte. */
  function Narrow(r: Register): Byte {
    r[..8]
  }

  // ---------- the checksum of the library ----------

  function Mix(byte: Byte, crc: Register): Byte {
    var b := Xor(byte, Narrow(crc));
    Xor(b, ShiftLeft(b, 4))
  }

  function Combine(b: Byte, crc: Register): Register {
    Xor(Xor(Or(ShiftLeft(Widen(b), 8), Widen(Narrow(ShiftRight(crc, 8)))), Widen(ShiftRight(b, 4))), ShiftLeft(Widen(b), 3))
  }

  /** One table-free, branch-free step over a whole byte. */
  function UpdateCrc(byte: Byte, crc: Register): Register {
    Combine(Mix(byte, crc), crc)
  }

  /** The checksum after a whole byte sequence; the protocol starts it from 0xFFFF. */
  function Fold(bytes: seq<Byte>, crc: Register): Register {
    if bytes == [] then crc else Fold(bytes[1..], UpdateCrc(bytes[0], crc))
  }

  // ---------- the bit-serial reference ----------

  /** 0x8408 */
  const GENERATOR: Register := Zeros(16)[3 := true][10 := true][15 := true]

  /** One step of the division: shift out the low bit and, if it differs from the data bit, add the generator. */
  function Shift(bit: bool, crc: Register): Register {
    if crc[0] != bit then Xor(ShiftRight(crc, 1), GENERATOR) else ShiftRight(crc, 1)
  }

  function ShiftAll(bits: seq<bool>, crc: Register): Register {
    if bits == [] then crc else ShiftAll(bits[1..], Shift(bits[0], crc))
  }

  /** The bits of a byte sequence in transmission order. */
  function AllBits(bytes: seq<Byte>): (bits: seq<bool>)
    ensures |bits| == 8 * |bytes|
  {
    if bytes == [] then [] else bytes[0] + AllBits(bytes[1..])
  }

  lemma ShiftAt(bit: bool, r: Register, i: nat)
    requires i < 16
    ensures Shift(bit, r)[i] == var f := r[0] != bit;
            if i == 15 then f else if i == 10 || i == 3 then r[i + 1] != f else r[i + 1]
  {
  }

  // ---------- the fast form refines the reference ----------

  /** Bit `i` of the mixed byte, from the bits of the byte and of the register. */
  function Mixed(x: Byte, c: Register, i: nat): bool
    requires i < 8
  {
    if i < 4 then x[i] != c[i] else (x[i] != c[i]) != (x[i - 4] != c[i - 4])
  }

  lemma MixAt(x: Byte, c: Register, i: nat)
    requires i < 8
    ensures Mix(x, c)[i] == Mixed(x, c, i)
  {
  }

  /** Bit `i` of the result, from the bits of the mixed byte and of the register. */
  function Combined(n: Byte, c: Register, i: nat): bool
    requires i < 16
  {
    if i < 3 then c[i + 8] != n[i + 4]
    else if i == 3 then (c[11] != n[7]) != n[0]
    else if i < 8 then c[i + 8] != n[i - 3]
    else if i < 11 then n[i - 8] != n[i - 3]
    else n[i - 8]
  }

  lemma CombineAt(n: Byte, c: Register, i: nat)
    requires i < 16
    ensures Combine(n, c)[i] == Combined(n, c, i)
  {
    var up, down := ShiftLeft(Widen(n), 8), Widen(Narrow(ShiftRight(c, 8)));
    assert up[i] == (i >= 8 && n[i - 8]);
    assert down[i] == (i < 8 && c[i + 8]);
    assert Widen(ShiftRight(n, 4))[i] == (i < 4 && n[i + 4]);
    assert ShiftLeft(Widen(n), 3)[i] == (3 <= i < 11 && n[i - 3]);
  }

  /** Two shifts feed the first two register bits, each met by its data bit, back over the taps. */
  function Twice(a: bool, b: bool, r: Register, i: nat): bool
    requires i < 16
  {
    var f, g := r[0] != a, r[1] != b;
    if i == 15 then g
    else if i == 14 then f
    else if i == 2 || i == 9 then r[i + 2] != f
    else if i == 3 || i == 10 then r[i + 2] != g
    else r[i + 2]
  }

  lemma TwoShifts(a: bool, b: bool, r: Register, i: nat)
    requires i < 16
    ensures Shift(b, Shift(a, r))[i] == Twice(a, b, r, i)
  {
    var t := Shift(a, r);
    ShiftAt(a, r, 0);
    ShiftAt(b, t, i);
    if i < 15 {
      ShiftAt(a, r, i + 1);
    }
  }

  /** Four shifts: the low nibble of the register, met by the four data bits, fed back over the taps. */
  function FourTimes(bits: seq<bool>, r: Register, i: nat): bool
    requires |bits| == 4 && i < 16
  {
    if i >= 12 then r[i - 12] != bits[i - 12]
    else if i < 4 then r[i + 4] != (r[i] != bits[i])
    else if 7 <= i < 11 then r[i + 4] != (r[i - 7] != bits[i - 7])
    else r[i + 4]
  }

  lemma TwiceTwice(bits: seq<bool>, r: Register, half: Register, i: nat)
    requires |bits| == 4 && i < 16
    requires forall j :: 0 <= j < 16 ==> half[j] == Twice(bits[0], bits[1], r, j)
    ensures Twice(bits[2], bits[3], half, i) == FourTimes(bits, r, i)
  {
  }

  lemma FourShifts(bits: seq<bool>, r: Register, i: nat)
    requires |bits| == 4 && i < 16
    ensures Shift(bits[3], Shift(bits[2], Shift(bits[1], Shift(bits[0], r))))[i] == FourTimes(bits, r, i)
  {
    var half := Shift(bits[1], Shift(bits[0], r));
    forall j | 0 <= j < 16 ensures half[j] == Twice(bits[0], bits[1], r, j) {
      TwoShifts(bits[0], bits[1], r, j);
    }
    TwiceTwice(bits, r, half, i);
    TwoShifts(bits[2], bits[3], half, i);
  }

  lemma {:induction false} ShiftFour(bits: seq<bool>, rest: seq<bool>, r: Register)
    requires |bits| == 4
    ensures ShiftAll(bits + rest, r) == ShiftAll(rest, Shift(bits[3], Shift(bits[2], Shift(bits[1], Shift(bits[0], r)))))
  {
    var s := bits + rest;
    var s1 := Shift(bits[0], r);
    var s2 := Shift(bits[1], s1);
    var s3 := Shift(bits[2], s2);
    assert s[1..][1..] == s[2..] && s[2..][1..] == s[3..] && s[3..][1..] == rest;
    assert ShiftAll(s[1..], s1) == ShiftAll(s[2..], s2);
    assert ShiftAll(s[2..], s2) == ShiftAll(s[3..], s3);
  }

  lemma EightTimes(x: Byte, c: Register, half: Register, n: Byte, i: nat)
    requires i < 16
    requires forall j :: 0 <= j < 16 ==> half[j] == FourTimes(x[..4], c, j)
    requires forall j :: 0 <= j < 8 ==> n[j] == Mixed(x, c, j)
    ensures FourTimes(x[4..], half, i) == Combined(n, c, i)
  {
    assert forall j :: 0 <= j < 4 ==> x[4..][j] == x[j + 4];
    assert forall j :: 0 <= j < 4 ==> x[..4][j] == x[j];
  }

  /** The branch-free byte step is exactly eight least-significant-bit-first shifts. */
  lemma {:induction false} UpdateCrcIsEightShifts(x: Byte, rest: seq<bool>, c: Register)
    ensures ShiftAll(x + rest, c) == ShiftAll(rest, UpdateCrc(x, c))
  {
    var n, r := Mix(x, c), UpdateCrc(x, c);
    var low, high := x[..4], x[4..];
    var half := Shift(low[3], Shift(low[2], Shift(low[1], Shift(low[0], c))));
    var full := Shift(high[3], Shift(high[2], Shift(high[1], Shift(high[0], half))));
    assert x + rest == low + (high + rest);
    ShiftFour(low, high + rest, c);
    ShiftFour(high, rest, half);
    forall j | 0 <= j < 16 ensures half[j] == FourTimes(low, c, j) {
      FourShifts(low, c, j);
    }
    forall j | 0 <= j < 8 ensures n[j] == Mixed(x, c, j) {
      MixAt(x, c, j);
    }
    forall i | 0 <= i < 16 ensures full[i] == r[i] {
      FourShifts(high, half, i);
      EightTimes(x, c, half, n, i);
      CombineAt(n, c, i);
    }
    assert full == r;
  }

  /** On any byte sequence the fast checksum is the bit-serial checksum. */
  lemma {:induction false} FoldIsBitSerial(bytes: seq<Byte>, crc: Register)
    ensures Fold(bytes, crc) == ShiftAll(AllBits(bytes), crc)
    decreases bytes
  {
    if bytes != [] {
      UpdateCrcIsEightShifts(bytes[0], AllBits(bytes[1..]), crc);
      FoldIsBitSerial(bytes[1..], UpdateCrc(bytes[0], crc));
    }
  }

  // ---------- which errors change the checksum ----------

  lemma ShiftIsLinear(a: bool, b: bool, q: Register, r: Register)
    ensures Shift(a != b, Xor(q, r)) == Xor(Shift(a, q), Shift(b, r))
  {
  }

  /** The difference of two registers depends only on the difference of the streams. */
  lemma {:induction false} DifferenceOfFolds(s: seq<bool>, t: seq<bool>, q: Register, r: Register)
    requires |s| == |t|
    ensures Xor(ShiftAll(s, q), ShiftAll(t, r)) == ShiftAll(Xor(s, t), Xor(q, r))
    decreases s
  {
    if s != [] {
      ShiftIsLinear(s[0], t[0], q, r);
      DifferenceOfFolds(s[1..], t[1..], Shift(s[0], q), Shift(t[0], r));
      assert Xor(s, t)[1..] == Xor(s[1..], t[1..]);
    }
  }

  lemma {:induction false} XorZero(s: seq<bool>, t: seq<bool>)
    requires |s| == |t|
    ensures Xor(s, t) == Zeros(|s|) <==> s == t
  {
    if Xor(s, t) == Zeros(|s|) {
      forall i | 0 <= i < |s| ensures s[i] == t[i] {
        assert Xor(s, t)[i] == Zeros(|s|)[i];
      }
    }
  }

  /** Two byte sequences collide exactly when their difference divides out to zero. */
  lemma CollisionNeedsZero(x: seq<Byte>, y: seq<Byte>, crc: Register)
    requires |x| == |y|
    ensures Fold(x, crc) == Fold(y, crc) <==> ShiftAll(Xor(AllBits(x), AllBits(y)), Zeros(16)) == Zeros(16)
  {
    FoldIsBitSerial(x, crc);
    FoldIsBitSerial(y, crc);
    DifferenceOfFolds(AllBits(x), AllBits(y), crc, crc);
    XorZero(crc, crc);
    XorZero(Fold(x, crc), Fold(y, crc));
  }

  /** Whether a stream has an odd number of ones. */
  predicate OddOnes(bits: seq<bool>) {
    bits != [] && bits[0] != OddOnes(bits[1..])
  }

  lemma {:induction false} OddFlip(s: seq<bool>, i: nat)
    requires i < |s|
    ensures OddOnes(s[i := !s[i]]) == !OddOnes(s)
    decreases s
  {
    var t := s[i := !s[i]];
    if i == 0 {
      assert t[1..] == s[1..];
    } else {
      OddFlip(s[1..], i - 1);
      assert t[1..] == s[1..][i - 1 := !s[1..][i - 1]];
    }
  }

  lemma {:induction false} OddAppend(s: seq<bool>, b: bool)
    ensures OddOnes(s + [b]) == (OddOnes(s) != b)
    decreases s
  {
    if s == [] {
      assert s + [b] == [b];
    } else {
      assert (s + [b])[1..] == s[1..] + [b];
      OddAppend(s[1..], b);
    }
  }

  lemma {:induction false} OddShift(bit: bool, r: Register)
    ensures OddOnes(Shift(bit, r)) == (OddOnes(r) != bit)
  {
    var f := r[0] != bit;
    var moved := r[1..] + [false];
    OddAppend(r[1..], false);
    if f {
      var one := moved[3 := !moved[3]];
      var two := one[10 := !one[10]];
      var three := two[15 := !two[15]];
      OddFlip(moved, 3);
      OddFlip(one, 10);
      OddFlip(two, 15);
      assert Shift(bit, r) == three;
    } else {
      assert Shift(bit, r) == moved;
    }
  }

  /** The generator has a factor x + 1, so the register keeps the parity of the stream. */
  lemma {:induction false} ShiftAllParity(bits: seq<bool>, r: Register)
    ensures OddOnes(ShiftAll(bits, r)) == (OddOnes(r) != OddOnes(bits))
    decreases bits
  {
    if bits != [] {
      OddShift(bits[0], r);
      ShiftAllParity(bits[1..], Shift(bits[0], r));
    }
  }

  lemma {:induction false} NoOnes(s: seq<bool>)
    requires true !in s
    ensures !OddOnes(s)
    decreases s
  {
    if s != [] {
      assert !s[0];
      NoOnes(s[1..]);
    }
  }

  /** An odd number of flipped bits, anywhere in the message, is always noticed. */
  lemma OddErrorsDetected(x: seq<Byte>, y: seq<Byte>, crc: Register)
    requires |x| == |y|
    requires OddOnes(Xor(AllBits(x), AllBits(y)))
    ensures Fold(x, crc) != Fold(y, crc)
  {
    var d := Xor(AllBits(x), AllBits(y));
    NoOnes(Zeros(16));
    ShiftAllParity(d, Zeros(16));
    assert ShiftAll(d, Zeros(16)) != Zeros(16);
    if Fold(x, crc) == Fold(y, crc) {
      CollisionNeedsZero(x, y, crc);
    }
  }

  /** The register holds a one at position `k` or above. */
  predicate Reaches(r: Register, k: nat) {
    exists i :: k <= i < 16 && r[i]
  }

  /** Any shift moves the highest one down by at most one place. */
  lemma DirtyShift(bit: bool, r: Register, k: nat)
    requires Reaches(r, k + 1)
    ensures Reaches(Shift(bit, r), k)
  {
    var i :| k + 1 <= i < 16 && r[i];
    if r[0] != bit {
      assert Shift(bit, r)[15];
    } else {
      assert Shift(bit, r)[i - 1];
    }
  }

  /** An undisturbed shift never clears a register that holds something. */
  lemma CleanShift(r: Register)
    requires Reaches(r, 0)
    ensures Reaches(Shift(false, r), 0)
  {
    var i :| 0 <= i < 16 && r[i];
    if r[0] {
      assert Shift(false, r)[15];
    } else {
      assert Shift(false, r)[i - 1];
    }
  }

  lemma {:induction false} CleanTail(bits: seq<bool>, r: Register)
    requires Reaches(r, 0) && true !in bits
    ensures Reaches(ShiftAll(bits, r), 0)
    decreases bits
  {
    if bits != [] {
      assert !bits[0];
      CleanShift(r);
      CleanTail(bits[1..], Shift(bits[0], r));
    }
  }

  lemma {:induction false} CleanHead(bits: seq<bool>)
    requires true !in bits
    ensures ShiftAll(bits, Zeros(16)) == Zeros(16)
    decreases bits
  {
    if bits != [] {
      assert !bits[0];
      assert Shift(false, Zeros(16)) == Zeros(16);
      CleanHead(bits[1..]);
    }
  }

  /** At most fifteen further bits of any kind cannot clear the register. */
  lemma {:induction false} BurstTail(bits: seq<bool>, r: Register)
    requires Reaches(r, |bits|)
    ensures Reaches(ShiftAll(bits, r), 0)
    decreases bits
  {
    if bits != [] {
      DirtyShift(bits[0], r, |bits| - 1);
      BurstTail(bits[1..], Shift(bits[0], r));
    }
  }

  lemma {:induction false} ShiftAllConcat(s: seq<bool>, t: seq<bool>, r: Register)
    ensures ShiftAll(s + t, r) == ShiftAll(t, ShiftAll(s, r))
    decreases s
  {
    if s == [] {
      assert s + t == t;
    } else {
      assert (s + t)[1..] == s[1..] + t;
      ShiftAllConcat(s[1..], t, Shift(s[0], r));
    }
  }

  /** `d` has its first one at `k` and none from `k + 16` on. */
  predicate Burst(d: seq<bool>, k: nat) {
    && k < |d| && d[k]
    && (forall i :: 0 <= i < |d| && (i < k || k + 16 <= i) ==> !d[i])
  }

  lemma {:induction false} BurstNotZero(d: seq<bool>, k: nat)
    requires Burst(d, k)
    ensures Reaches(ShiftAll(d, Zeros(16)), 0)
  {
    var e := if k + 16 <= |d| then k + 16 else |d|;
    var first := Shift(true, Zeros(16));
    assert first[15];
    assert d == d[..k] + d[k..];
    ShiftAllConcat(d[..k], d[k..], Zeros(16));
    CleanHead(d[..k]);
    assert d[k..][1..] == d[k + 1..] && d[k + 1..] == d[k + 1..e] + d[e..];
    ShiftAllConcat(d[k + 1..e], d[e..], first);
    BurstTail(d[k + 1..e], first);
    CleanTail(d[e..], ShiftAll(d[k + 1..e], first));
  }

  /**
   Two equally long byte sequences whose bits differ only inside one window of sixteen
   bits (at any bit offset, so in particular inside two adjacent bytes) never share a
   checksum, whatever the register starts from.
   */
  lemma BurstDetected(x: seq<Byte>, y: seq<Byte>, k: nat, crc: Register)
    requires |x| == |y|
    requires Burst(Xor(AllBits(x), AllBits(y)), k)
    ensures Fold(x, crc) != Fold(y, crc)
  {
    BurstNotZero(Xor(AllBits(x), AllBits(y)), k);
    if Fold(x, crc) == Fold(y, crc) {
      CollisionNeedsZero(x, y, crc);
    }
  }
}
