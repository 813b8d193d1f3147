/** The doubling response buffer filled by libcurl callbacks (`write_response`). */
module ResponseBuffer {
  import opened Prelude

  /** The capacities the buffer goes through: 4096, 8192, ... */
  function Cap(k: nat): nat { if k == 0 then 4096 else 2 * Cap(k - 1) }

  ghost predicate IsCap(c: nat) { exists k: nat :: c == Cap(k) }

  lemma CapDoubles(c: nat)
    requires IsCap(c)
    ensures IsCap(2 * c) && c >= 4096
  {
    var k: nat :| c == Cap(k);
    assert Cap(k + 1) == 2 * c;
    CapPositive(k);
  }

  lemma {:induction false} CapPositive(k: nat)
    ensures Cap(k) >= 4096
  {
    if k > 0 { CapPositive(k - 1); }
  }

  /** `response_buf_t` */
  class ResponseBuf {
    var data: array?<byte>
    var len: nat
    var cap: nat
    ghost var contents: seq<byte>
    /** The sum of all capacities ever allocated. */
    ghost var spent: nat

    ghost predicate Valid()
      reads this, data
    {
      && (cap == 0 ==> data == null && len == 0 && spent == 0 && contents == [])
      && (cap > 0 ==>
            && data != null && data.Length == cap && IsCap(cap)
            && len + 1 <= cap && (cap == 4096 || cap < 2 * (len + 1))
            && data[..len] == contents && data[len] == 0
            && spent < 2 * cap)
    }

    constructor ()
      ensures Valid() && contents == [] && cap == 0
    {
      data, len, cap, contents, spent := null, 0, 0, [], 0;
    }

    /** Chooses the new capacity. The loop stops because `need` is at most 2^63; see `DoublingStops`. */
    method NewCap(need: nat) returns (c: nat)
      requires Valid() && cap < need <= TWO_TO_63
      ensures need <= c && IsCap(c) && (c == 4096 || c < 2 * need) && c >= 2 * cap
    {
      if cap == 0 {
        c := 4096;
        assert Cap(0) == 4096;
      } else {
        CapDoubles(cap);
        c := 2 * cap;
      }
      while c < need
        invariant IsCap(c) && (c == 4096 || c < 2 * need) && c >= 2 * cap
        decreases need - c
      {
        CapDoubles(c);
        c := 2 * c;
      }
    }

    /** The reallocation step, which succeeds if there is memory: old bytes are kept. */
    method Grow(need: nat, memory: bool)
      requires Valid() && cap < need <= TWO_TO_63 && len < need
      modifies this`data, this`cap, this`spent
      ensures !memory ==> data == old(data) && cap == old(cap) && spent == old(spent)
      ensures memory ==> data != null && fresh(data) && data.Length == cap && len <= cap && data[..len] == contents
      ensures memory ==> IsCap(cap) && need <= cap && (cap == 4096 || cap < 2 * need) && spent < 2 * cap
    {
      var c := NewCap(need);
      if memory {
        var p := new byte[c](_ => 0);
        forall i | 0 <= i < len { p[i] := data[i]; }
        assert p[..len] == contents;
        data, cap, spent := p, c, spent + c;
      }
    }

    /** The chunk and the terminator do not fit. */
    predicate Full(chunk: seq<byte>)
      reads this
    {
      len + |chunk| + 1 > cap
    }

    /** `write_response`: appends the chunk and keeps the terminator, or, exactly if the buffer is full and there is no
        memory for a larger one, reports 0 and changes nothing. */
    method Write(chunk: seq<byte>, memory: bool) returns (n: nat)
      requires Valid() && len + |chunk| + 1 <= TWO_TO_63
      modifies this, data
      ensures Valid() && (data == old(data) || fresh(data))
      ensures if old(Full(chunk)) && !memory then n == 0 && contents == old(contents) && cap == old(cap)
              else n == |chunk| && contents == old(contents) + chunk
    {
      hide IsCap;
      n := |chunk|;
      if len + n + 1 > cap {
        Grow(len + n + 1, memory);
        if !memory { return 0; }
      }
      ghost var before := data[..len];
      forall i | 0 <= i < n { data[len + i] := chunk[i]; }
      assert data[..len + n] == before + chunk;
      len := len + n;
      data[len] := 0;
      contents := contents + chunk;
      assert data[..len] == contents;
    }
  }

  /** A whole response: every chunk accepted means that the buffer holds their concatenation, terminated, and only a
      chunk that finds no memory is not accepted. */
  method Collect(chunks: seq<seq<byte>>, memory: nat -> bool) returns (b: ResponseBuf, ok: bool)
    requires |Flatten(chunks)| + 1 <= TWO_TO_63
    ensures b.Valid()
    ensures ok ==> b.contents == Flatten(chunks)
    ensures (forall i :: 0 <= i < |chunks| ==> memory(i)) ==> ok
  {
    b := new ResponseBuf();
    ok := true;
    var i := 0;
    while i < |chunks| && ok
      invariant 0 <= i <= |chunks| && b.Valid() && fresh(b) && (b.data == null || fresh(b.data))
      invariant ok ==> b.contents == Flatten(chunks[..i])
      invariant !ok ==> exists j :: 0 <= j < |chunks| && !memory(j)
      decreases ok, |chunks| - i
    {
      FlattenSnoc(chunks[..i], chunks[i]);
      assert chunks[..i] + [chunks[i]] == chunks[..i + 1];
      FlattenPrefix(chunks, i + 1);
      var n := b.Write(chunks[i], memory(i));
      if n != |chunks[i]| { ok := false; } else { i := i + 1; }
    }
    assert ok ==> chunks[..i] == chunks;
  }

  lemma {:induction false} FlattenPrefix(xs: seq<seq<byte>>, i: nat)
    requires i <= |xs|
    ensures |Flatten(xs[..i])| <= |Flatten(xs)|
    decreases |xs| - i
  {
    if i == |xs| {
      assert xs[..i] == xs;
    } else {
      FlattenSnoc(xs[..i], xs[i]);
      assert xs[..i] + [xs[i]] == xs[..i + 1];
      FlattenPrefix(xs, i + 1);
    }
  }

  // ---------- the doubling loop in 64-bit arithmetic ----------

  /** The capacity after `k` rounds of `new_cap *= 2` on a 64-bit `size_t`. */
  function Wrapped(c: nat, k: nat): nat {
    if k == 0 then c else 2 * Wrapped(c, k - 1) % TWO_TO_64
  }

  lemma {:induction false} CapAt51(k: nat)
    requires k <= 51
    ensures Cap(k) <= TWO_TO_63 && (k == 51 <==> Cap(k) == TWO_TO_63)
    decreases 51 - k
  {
    if k == 51 {
      assert Cap(20) == 4096 * 0x10_0000 by {
        assert Cap(5) == 4096 * 32;
        assert Cap(10) == 4096 * 1024;
        assert Cap(15) == 4096 * 32768;
      }
      assert Cap(40) == 4096 * 0x100_0000_0000 by {
        assert Cap(25) == 4096 * 0x200_0000;
        assert Cap(30) == 4096 * 0x4000_0000;
        assert Cap(35) == 4096 * 0x8_0000_0000;
      }
      assert Cap(50) == 4096 * 0x4_0000_0000_0000 by { assert Cap(45) == 4096 * 0x2000_0000_0000; }
    } else {
      CapAt51(k + 1);
      CapPositive(k);
    }
  }

  /** The wrapped capacity is the true one up to 2^63 and zero for ever after. */
  lemma {:induction false} WrappedIs(j: nat, k: nat)
    requires j <= 51
    ensures Wrapped(Cap(j), k) == if j + k <= 51 then Cap(j + k) else 0
  {
    if k == 0 {
    } else {
      WrappedIs(j, k - 1);
      if j + k <= 51 {
        CapAt51(j + k);
      } else if j + k == 52 {
        CapAt51(51);
      }
    }
  }

  /** The doubling loop stops if and only if 2^63 bytes suffice; beyond that it spins at zero. */
  lemma DoublingStops(j: nat, need: nat)
    requires j <= 51
    ensures (exists k: nat :: Wrapped(Cap(j), k) >= need) <==> need <= TWO_TO_63
  {
    if need <= TWO_TO_63 {
      WrappedIs(j, 51 - j);
      CapAt51(51);
      assert Wrapped(Cap(j), 51 - j) >= need;
    } else {
      forall k: nat ensures Wrapped(Cap(j), k) < need {
        WrappedIs(j, k);
        if j + k <= 51 { CapAt51(j + k); }
      }
    }
  }
}
