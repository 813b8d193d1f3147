/** How a file is cut into parts: the ceiling division, offsets and lengths of the C, Go, Python and Java upload
    loops. */
module Partition {
  import opened Prelude

  // ---------- the intended partition ----------

  function Ceil(size: nat, ps: nat): nat
    requires ps > 0
  {
    (size + ps - 1) / ps
  }

  function Offset(ps: nat, pn: int): int { (pn - 1) * ps }

  function Length(size: nat, ps: nat, pn: int): int { Min(ps, size - Offset(ps, pn)) }

  lemma MulPositive(m: int, b: nat)
    requires m * b > 0 && b > 0
    ensures m > 0
  {
  }

  lemma MulAtLeast(a: nat, b: nat)
    requires b > 0
    ensures a * b >= a
  {
    assert a * b == a * (b - 1) + a;
  }

  lemma DivBelow(x: int, b: nat, k: int)
    requires b > 0 && x < k * b
    ensures x / b < k
  {
    var q := x / b;
    assert x == q * b + x % b;
    assert (k - q) * b == k * b - q * b;
    MulPositive(k - q, b);
  }

  lemma CeilBounds(size: nat, ps: nat)
    requires ps > 0 && size > 0
    ensures Ceil(size, ps) >= 1
    ensures Offset(ps, Ceil(size, ps)) < size <= Offset(ps, Ceil(size, ps) + 1)
  {
    var a := size + ps - 1;
    var n := a / ps;
    assert a == n * ps + a % ps;
    assert (n - 1) * ps == n * ps - ps;
    MulPositive(n, ps);
  }

  lemma Monotone(ps: nat, a: int, b: int)
    requires a <= b
    ensures Offset(ps, a) <= Offset(ps, b)
    ensures Offset(ps, a + 1) == Offset(ps, a) + ps
  {
    assert (b - 1) * ps - (a - 1) * ps == (b - a) * ps;
  }

  /** Exact partition: every part is non-empty, at most `ps` long, starts where its predecessor ends; only the last
      may be short, and it ends with the file. */
  lemma ExactPartition(size: nat, ps: nat, pn: int)
    requires ps > 0 && size > 0 && 1 <= pn <= Ceil(size, ps)
    ensures var off, len, n := Offset(ps, pn), Length(size, ps, pn), Ceil(size, ps);
            && 0 <= off && 1 <= len <= ps && off + len <= size
            && (pn == 1 ==> off == 0)
            && (pn < n ==> len == ps && off + len == Offset(ps, pn + 1))
            && (pn == n ==> off + len == size)
  {
    var n := Ceil(size, ps);
    CeilBounds(size, ps);
    Monotone(ps, 1, pn);
    Monotone(ps, pn, n);
    if pn < n { Monotone(ps, pn + 1, n); }
  }

  /** The bytes of part `pn`. */
  function Slice(file: seq<byte>, ps: nat, pn: int): seq<byte>
    requires ps > 0 && 1 <= pn <= Ceil(|file|, ps)
  {
    if file == [] then [] else
      ExactPartition(|file|, ps, pn);
      file[Offset(ps, pn)..Offset(ps, pn) + Length(|file|, ps, pn)]
  }

  /** Parts `lo` to `hi`, in order. */
  function Slices(file: seq<byte>, ps: nat, lo: int, hi: int): (r: seq<seq<byte>>)
    requires ps > 0 && 1 <= lo && hi <= Ceil(|file|, ps)
    ensures |r| == if lo <= hi then hi - lo + 1 else 0
  {
    var n := if lo <= hi then hi - lo + 1 else 0;
    seq(n, i requires 0 <= i < n => Slice(file, ps, lo + i))
  }

  lemma {:induction false} Joined(file: seq<byte>, ps: nat, lo: int, hi: int)
    requires ps > 0 && file != [] && 1 <= lo <= hi <= Ceil(|file|, ps)
    ensures Offset(ps, lo) <= Offset(ps, hi) + Length(|file|, ps, hi) <= |file| && 0 <= Offset(ps, lo)
    ensures Flatten(Slices(file, ps, lo, hi)) == file[Offset(ps, lo)..Offset(ps, hi) + Length(|file|, ps, hi)]
    decreases hi - lo
  {
    hide Slice, Offset, Length, Ceil;
    ExactPartition(|file|, ps, hi);
    ExactPartition(|file|, ps, lo);
    Monotone(ps, lo, hi);
    SliceIs(file, ps, hi);
    if lo == hi {
      assert Slices(file, ps, lo, hi) == [] + [Slice(file, ps, lo)];
      FlattenSnoc<byte>([], Slice(file, ps, lo));
      assert Flatten<byte>([]) == [];
    } else {
      Joined(file, ps, lo, hi - 1);
      ExactPartition(|file|, ps, hi - 1);
      assert Slices(file, ps, lo, hi) == Slices(file, ps, lo, hi - 1) + [Slice(file, ps, hi)];
      FlattenSnoc(Slices(file, ps, lo, hi - 1), Slice(file, ps, hi));
      var a, b, c := Offset(ps, lo), Offset(ps, hi), Offset(ps, hi) + Length(|file|, ps, hi);
      assert file[a..b] + file[b..c] == file[a..c];
    }
  }

  lemma SliceIs(file: seq<byte>, ps: nat, pn: int)
    requires ps > 0 && file != [] && 1 <= pn <= Ceil(|file|, ps)
    requires 0 <= Offset(ps, pn) <= Offset(ps, pn) + Length(|file|, ps, pn) <= |file|
    ensures Slice(file, ps, pn) == file[Offset(ps, pn)..Offset(ps, pn) + Length(|file|, ps, pn)]
  {
  }

  /** A run of consecutive parts is the whole file if and only if it is all of them. */
  lemma WholeFile(file: seq<byte>, ps: nat, lo: int, hi: int)
    requires ps > 0 && file != [] && 1 <= lo && hi <= Ceil(|file|, ps)
    ensures Flatten(Slices(file, ps, lo, hi)) == file <==> lo == 1 && hi == Ceil(|file|, ps)
  {
    var n := Ceil(|file|, ps);
    CeilBounds(|file|, ps);
    if lo <= hi {
      Joined(file, ps, lo, hi);
      ExactPartition(|file|, ps, lo);
      ExactPartition(|file|, ps, hi);
      if lo > 1 { Monotone(ps, 2, lo); }
      if hi < n {
        ExactPartition(|file|, ps, hi + 1);
        ExactPartition(|file|, ps, n);
      }
    } else {
      assert Slices(file, ps, lo, hi) == [];
    }
  }

  // ---------- what the clients compute ----------

  /** The range of parts an upload call will send, or the refusal of its `-part` option. */
  datatype Plan = Refused | Range(start: int, end: int)

  function PlanOf(n: int, part: int): Plan {
    if part < 0 || part > n then Refused
    else if part > 0 then Range(part, part) else Range(1, n)
  }

  /** C: `int num_parts = (int)((file_size + part_size - 1) / part_size)`. */
  function PlanC(size: nat, ps: nat, part: int): Plan
    requires ps > 0
  {
    PlanOf(WrapInt32(Ceil(size, ps)), part)
  }

  /** Go: a 64-bit `int`, and no `-part` in the `all` action. */
  function PlanGo(size: nat, ps: nat, part: int): Plan
    requires ps > 0
  {
    PlanOf(Ceil(size, ps), part)
  }

  /** Python's `//`: rounds towards minus infinity. */
  function FloorDiv(a: int, b: int): int
    requires b != 0
  {
    if b > 0 then a / b else (-a) / (-b)
  }

  /** Python checks nothing about the part size; zero raises an exception, which the caller treats as a refusal. */
  function PlanPython(size: nat, ps: int, part: int): Plan {
    if ps == 0 then Refused else PlanOf(FloorDiv(size + ps - 1, ps), part)
  }

  function WrapInt64(x: int): int {
    var m := x % TWO_TO_64;
    if m < TWO_TO_63 then m else m - TWO_TO_64
  }

  function TruncDiv(a: int, b: int): int
    requires b > 0
  {
    if a >= 0 then a / b else -((-a) / b)
  }

  /** Java: a wrapping `long` sum, a truncating division, a narrowing cast. */
  function PlanJava(size: nat, ps: nat, part: int): Plan
    requires ps > 0
  {
    PlanOf(WrapInt32(TruncDiv(WrapInt64(size + ps - 1), ps)), part)
  }

  lemma WrapBelow(x: nat)
    ensures WrapInt32(x) <= x && (WrapInt32(x) == x <==> x < TWO_TO_31)
  {
  }

  /** Every planned range lies within the partition. */
  lemma PlansInside(size: nat, ps: nat, part: int)
    requires ps > 0 && size > 0
    ensures var p := PlanC(size, ps, part); p.Range? ==> 1 <= p.start && p.end <= Ceil(size, ps)
    ensures var p := PlanGo(size, ps, part); p.Range? ==> 1 <= p.start && p.end <= Ceil(size, ps)
  {
  }

  /** When the C client's range is the whole file: all parts asked for and their number fits an `int`, or the file
      has a single part and exactly that is asked for. */
  lemma PlanCIsWhole(size: nat, ps: nat, part: int)
    requires ps > 0 && size > 0
    ensures PlanC(size, ps, part) == Range(1, Ceil(size, ps))
       <==> (part == 0 && Ceil(size, ps) < TWO_TO_31) || (part == 1 && Ceil(size, ps) == 1)
  {
  }

  /** `-part k` plans exactly part `k`, for every part there is. */
  lemma PlanCPart(size: nat, ps: nat, k: int)
    requires ps > 0 && 1 <= k <= Ceil(size, ps) < TWO_TO_31
    ensures PlanC(size, ps, k) == Range(k, k)
  {
    WrapBelow(Ceil(size, ps));
  }

  /** Which `-part` options C refuses: those outside of 0 and the number of parts, as far as that fits an `int`; beyond
      that, those outside of 0 and what the cast leaves of it. */
  lemma PlanCRefuses(size: nat, ps: nat, part: int)
    requires ps > 0
    ensures PlanC(size, ps, part).Refused? <==> !(0 <= part <= WrapInt32(Ceil(size, ps)))
    ensures Ceil(size, ps) < TWO_TO_31 ==> (PlanC(size, ps, part).Refused? <==> part < 0 || part > Ceil(size, ps))
  {
    hide Ceil;
    WrapBelow(Ceil(size, ps));
  }

  /** Go refuses those outside of 0 and the number of parts. */
  lemma PlanGoRefuses(size: nat, ps: nat, part: int)
    requires ps > 0
    ensures PlanGo(size, ps, part).Refused? <==> part < 0 || part > Ceil(size, ps)
  {
    hide Ceil;
  }

  /** A file of 2^32 one-byte parts: the count wraps to zero, the loop sends nothing, and nothing is refused. */
  lemma CountWraps()
    ensures PlanC(TWO_TO_32, 1, 0) == Range(1, 0)
  {
  }

  lemma PlanPythonPositive(size: nat, ps: nat, part: int)
    requires ps > 0
    ensures PlanPython(size, ps, part) == PlanGo(size, ps, part)
  {
  }

  /** A non-positive part size is refused or plans no part at all, except that a one-byte file is one part. */
  lemma PlanPythonNegative(size: nat, ps: int, part: int)
    requires ps <= 0 && size > 0
    ensures var p := PlanPython(size, ps, part);
            p.Range? ==> p == Range(1, 0) || (size == 1 && p == Range(1, 1))
  {
  }

  /** The `-part` options that Python does not refuse. With a negative part size a one-byte file has one part; any other
      has no parts, or, if it is longer than that part size, less than none. */
  predicate OffersPython(size: nat, ps: int, part: int) {
    if ps > 0 then 0 <= part <= Ceil(size, ps)
    else ps < 0 && (if size == 1 then 0 <= part <= 1 else part == 0 && size - 1 <= -ps)
  }

  lemma PlanPythonRefuses(size: nat, ps: int, part: int)
    requires size > 0
    ensures PlanPython(size, ps, part).Range? <==> OffersPython(size, ps, part)
  {
    if ps < 0 {
      CountNegative(size, ps);
    } else if ps > 0 {
      PlanPythonPositive(size, ps, part);
    }
  }

  /** The number of parts that a negative part size makes. */
  lemma CountNegative(size: nat, ps: int)
    requires ps < 0 && size > 0
    ensures var n := FloorDiv(size + ps - 1, ps);
            (size == 1 ==> n == 1) && (size > 1 ==> n <= 0 && (n == 0 <==> size - 1 <= -ps))
  {
    var d, x := -ps, 1 - size - ps;
    if size > 1 { DivBelow(x, d, 1); }
    if x < 0 { DivBelow(x, d, 0); }
  }

  /** The `-part` options that Java does not refuse: below the overflow of the sum, 0 and the parts there are; beyond
      it none, except that 0 passes if the part size exceeds half of what is left of 2^64. */
  predicate OffersJava(size: nat, ps: nat, part: int)
    requires ps > 0
  {
    if size + ps - 1 < TWO_TO_63 then 0 <= part <= Ceil(size, ps) else part == 0 && 2 * ps > TWO_TO_64 - size + 1
  }

  lemma PlanJavaRefuses(size: nat, ps: nat, part: int)
    requires 0 < size < TWO_TO_31 && 0 < ps < TWO_TO_63
    ensures PlanJava(size, ps, part).Range? <==> OffersJava(size, ps, part)
  {
    if size + ps - 1 < TWO_TO_63 {
      JavaInRange(size, ps, part);
      CeilSmall(size, ps);
      PlanCRefuses(size, ps, part);
    } else {
      CountOverflow(size, ps);
    }
  }

  lemma CountOverflow(size: nat, ps: nat)
    requires 0 < size < TWO_TO_31 && 0 < ps < TWO_TO_63 <= size + ps - 1
    ensures TruncDiv(WrapInt64(size + ps - 1), ps) == if 2 * ps > TWO_TO_64 - size + 1 then 0 else -1
  {
    hide WrapInt64;
    WrapOnce(size + ps - 1);
    var x := TWO_TO_64 - size - ps + 1;
    DivBelow(x, ps, 2);
    if x < ps { DivBelow(x, ps, 1); } else { DivAtLeast(x, ps); }
  }

  lemma DivAtLeast(x: nat, b: nat)
    requires 0 < b <= x
    ensures x / b >= 1
  {
  }

  /** Java agrees with C as long as the sum does not overflow; otherwise, for a file that fits an array, it either
      refuses or plans no part at all. */
  lemma PlanJavaIs(size: nat, ps: nat, part: int)
    requires 0 < size < TWO_TO_31 && 0 < ps < TWO_TO_63
    ensures size + ps - 1 < TWO_TO_63 ==> PlanJava(size, ps, part) == PlanC(size, ps, part)
    ensures size + ps - 1 >= TWO_TO_63 ==> var p := PlanJava(size, ps, part); p.Range? ==> p == Range(1, 0)
  {
    hide *;
    if size + ps - 1 >= TWO_TO_63 {
      JavaOverflow(size, ps, part);
    } else {
      JavaInRange(size, ps, part);
    }
  }

  lemma JavaInRange(size: nat, ps: nat, part: int)
    requires 0 < ps && size + ps - 1 < TWO_TO_63
    ensures PlanJava(size, ps, part) == PlanC(size, ps, part)
  {
    hide WrapInt64, WrapInt32;
    NoWrap(size + ps - 1);
  }

  lemma NoWrap(x: int)
    requires 0 <= x < TWO_TO_63
    ensures WrapInt64(x) == x
  {
  }

  lemma JavaOverflow(size: nat, ps: nat, part: int)
    requires 0 < size < TWO_TO_31 && 0 < ps < TWO_TO_63 <= size + ps - 1
    ensures var p := PlanJava(size, ps, part); p.Range? ==> p == Range(1, 0)
  {
    hide WrapInt32, WrapInt64, PlanOf;
    var v := WrapInt64(size + ps - 1);
    WrapOnce(size + ps - 1);
    DivBelow(-v, ps, 2);
    PlanSmall(TruncDiv(v, ps), part);
  }

  lemma WrapOnce(x: int)
    requires TWO_TO_63 <= x < TWO_TO_64
    ensures WrapInt64(x) == x - TWO_TO_64
  {
  }

  lemma PlanSmall(n: int, part: int)
    requires -1 <= n <= 0
    ensures PlanOf(WrapInt32(n), part).Range? ==> PlanOf(WrapInt32(n), part) == Range(1, 0)
  {
  }

  /** The largest part size makes the Java sum wrap: a ten-byte file is planned as no parts. */
  lemma JavaSumWraps()
    ensures PlanJava(10, TWO_TO_63 - 1, 0) == Range(1, 0)
  {
  }

  /** Cross-implementation agreement: for a file under 2^31 bytes whose size plus part size fits 63 bits, all four
      clients plan the same parts. */
  lemma PlansAgree(size: nat, ps: nat, part: int)
    requires 0 < size < TWO_TO_31 && 0 < ps && size + ps - 1 < TWO_TO_63
    ensures PlanC(size, ps, part) == PlanGo(size, ps, part) == PlanPython(size, ps, part) == PlanJava(size, ps, part)
  {
    hide PlanJava, WrapInt32;
    CeilSmall(size, ps);
    WrapBelow(Ceil(size, ps));
    PlanPythonPositive(size, ps, part);
    JavaInRange(size, ps, part);
  }

  lemma CeilSmall(size: nat, ps: nat)
    requires size > 0 && ps > 0
    ensures Ceil(size, ps) <= size
  {
    MulAtLeast(size, ps);
    assert (size + 1) * ps == size * ps + ps;
    DivBelow(size + ps - 1, ps, size + 1);
  }

  // ---------- the four slicing loops ----------

  /** C and Go: `offset = (pn - 1) * part_size`, `len` cut to what remains. */
  method SliceCAndGo(file: seq<byte>, ps: nat, pn: int) returns (data: seq<byte>)
    requires ps > 0 && file != [] && 1 <= pn <= Ceil(|file|, ps)
    ensures data == Slice(file, ps, pn)
  {
    ExactPartition(|file|, ps, pn);
    var offset := (pn - 1) * ps;
    var len := ps;
    if |file| - offset < len { len := |file| - offset; }
    data := file[offset..offset + len];
  }

  /** Python's part size as far as slicing goes: a negative one only ever meets a one-byte file. */
  function Effective(ps: int): nat { if ps > 0 then ps else 1 }

  /** `f.seek(at); f.read(n)`: at most `n` bytes; a negative count reads to the end. */
  function ReadAt(file: seq<byte>, at: nat, n: int): seq<byte>
    requires at <= |file|
  {
    if 0 <= n && at + n <= |file| then file[at..at + n] else file[at..]
  }

  lemma ReadAtIsSlice(file: seq<byte>, ps: nat, pn: int)
    requires ps > 0 && file != [] && 1 <= pn <= Ceil(|file|, ps)
    ensures 0 <= Offset(ps, pn) <= |file| && ReadAt(file, Offset(ps, pn), ps) == Slice(file, ps, pn)
  {
    hide Offset, Ceil;
    ExactPartition(|file|, ps, pn);
    SliceIs(file, ps, pn);
  }

  /** Python: seek, then read. */
  method SlicePython(file: seq<byte>, ps: int, pn: int) returns (data: seq<byte>)
    requires file != [] && 1 <= pn <= Ceil(|file|, Effective(ps)) && (ps > 0 || (ps < 0 && |file| == 1 && pn == 1))
    ensures data == Slice(file, Effective(ps), pn)
  {
    hide Slice, Ceil, ReadAt;
    ReadAtIsSlice(file, Effective(ps), pn);
    if ps > 0 {
      data := ReadAt(file, (pn - 1) * ps, ps);
    } else {
      NegativeRead(file, ps);
      data := ReadAt(file, 0, ps);
    }
  }

  lemma NegativeRead(file: seq<byte>, n: int)
    requires |file| == 1 && n < 0
    ensures ReadAt(file, 0, n) == ReadAt(file, 0, 1)
  {
  }

  lemma SmallCasts(x: int)
    requires 0 <= x < TWO_TO_31
    ensures WrapInt32(WrapInt64(x)) == x
  {
  }

  /** Java: offset and length cast to `int`, then an array copy. */
  method SliceJava(file: seq<byte>, ps: nat, pn: int) returns (data: seq<byte>)
    requires 0 < ps && 0 < |file| < TWO_TO_31 && 1 <= pn <= Ceil(|file|, ps)
    ensures data == Slice(file, ps, pn)
  {
    ExactPartition(|file|, ps, pn);
    var offset := WrapInt32(WrapInt64((pn - 1) * ps));
    SmallCasts(Offset(ps, pn));
    var len := WrapInt32(Min(ps, |file| - offset));
    data := file[offset..offset + len];
  }
}
