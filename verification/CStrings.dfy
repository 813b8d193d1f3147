/** The C library calls the hand-written parsers are built on: `strstr`, `%d`/`%u`, `atoi`, `strtoull`.
    A C string is modelled by its characters before the terminating NUL. */
module CStrings {
  import opened Prelude

  // ---------- strstr ----------

  /** `strstr(s, pat)`: the offset of the first occurrence. */
  function Find(s: string, pat: string): (r: Option<nat>)
    ensures r.Some? ==> r.value + |pat| <= |s|
    decreases |s|
  {
    if pat <= s then Some(0)
    else if s == "" then None
    else Shift(1, Find(s[1..], pat))
  }

  predicate Contains(s: string, pat: string) {
    Find(s, pat).Some?
  }

  function Shift(n: nat, r: Option<nat>): Option<nat> {
    match r case None => None case Some(i) => Some(n + i)
  }

  /** No occurrence of `pat` starts inside `a` when `a` is followed by `b`. */
  ghost predicate Inert(a: string, b: string, pat: string) {
    forall i :: 0 <= i < |a| ==> !(pat <= (a + b)[i..])
  }

  /** The search result is the first occurrence, and a failed search means there is none. */
  lemma {:induction false} FindIsFirst(s: string, pat: string)
    ensures Find(s, pat).Some? ==> pat <= s[Find(s, pat).value..]
    ensures Find(s, pat).Some? ==> forall i :: 0 <= i < Find(s, pat).value ==> !(pat <= s[i..])
    ensures Find(s, pat).None? ==> forall i :: 0 <= i <= |s| ==> !(pat <= s[i..])
    decreases |s|
  {
    if pat <= s {
    } else if s == "" {
      forall i | 0 <= i <= |s| ensures !(pat <= s[i..]) { assert s[i..] == s; }
    } else {
      FindIsFirst(s[1..], pat);
      forall i | 0 < i <= |s| ensures s[i..] == s[1..][i - 1..] {}
      assert s[0..] == s;
    }
  }

  /** The search walks over inert text. */
  lemma {:induction false} FindSkips(a: string, b: string, pat: string)
    requires Inert(a, b, pat)
    ensures Find(a + b, pat) == Shift(|a|, Find(b, pat))
    decreases |a|
  {
    if a == "" {
      assert a + b == b;
    } else {
      var s := a + b;
      assert s[0..] == s;
      assert s[1..] == a[1..] + b;
      forall i | 0 <= i < |a[1..]| ensures !(pat <= (a[1..] + b)[i..]) {
        assert (a[1..] + b)[i..] == s[i + 1..];
      }
      FindSkips(a[1..], b, pat);
    }
  }

  /** Text without the pattern's first character is skipped. */
  lemma {:induction false} SkipFree(a: string, b: string, pat: string)
    requires pat != "" && pat[0] !in a
    ensures Find(a + b, pat) == Shift(|a|, Find(b, pat))
  {
    hide Find;
    forall i | 0 <= i < |a| ensures !(pat <= (a + b)[i..]) {
      assert (a + b)[i..][0] == a[i];
    }
    FindSkips(a, b, pat);
  }

  /** A pattern whose first character does not recur in it. */
  predicate Leads(pat: string) {
    pat != "" && forall i :: 1 <= i < |pat| ==> pat[i] != pat[0]
  }

  /** A literal that opens like the pattern at most at its own front, and there differs from it. */
  ghost predicate Differs(a: string, pat: string) {
    && pat != "" && (forall i :: 1 <= i < |a| ==> a[i] != pat[0])
    && exists k :: 0 <= k < |a| && k < |pat| && a[k] != pat[k]
  }

  lemma {:induction false} SkipLiteral(a: string, b: string, pat: string)
    requires Differs(a, pat)
    ensures Find(a + b, pat) == Shift(|a|, Find(b, pat))
  {
    hide Find;
    var k :| 0 <= k < |a| && k < |pat| && a[k] != pat[k];
    forall i | 0 <= i < |a| ensures !(pat <= (a + b)[i..]) {
      if i == 0 {
        assert (a + b)[0..][k] == a[k];
      } else {
        assert (a + b)[i..][0] == a[i];
      }
    }
    FindSkips(a, b, pat);
  }

  /** Text that does not contain the pattern is skipped when what follows begins with the
      pattern's first character: an occurrence cannot straddle the boundary. */
  lemma {:induction false} SkipText(a: string, b: string, pat: string)
    requires Leads(pat) && !Contains(a, pat)
    requires b != "" && b[0] == pat[0]
    ensures Find(a + b, pat) == Shift(|a|, Find(b, pat))
  {
    hide Find;
    FindIsFirst(a, pat);
    forall i | 0 <= i < |a| ensures !(pat <= (a + b)[i..]) {
      if i + |pat| <= |a| {
        assert (a + b)[i..][..|pat|] == a[i..][..|pat|];
        assert !(pat <= a[i..]);
      } else {
        assert (a + b)[i..][|a| - i] == b[0] != pat[|a| - i];
      }
    }
    FindSkips(a, b, pat);
  }

  lemma FindHere(pat: string, b: string)
    ensures Find(pat + b, pat) == Some(0)
  {
    assert pat <= pat + b;
  }

  // ---------- decimal numbers ----------

  predicate IsDigit(c: char) { '0' <= c <= '9' }

  predicate IsSpace(c: char) { c == ' ' || '\t' <= c <= '\r' }

  function DigitChar(d: nat): (c: char)
    requires d < 10
    ensures IsDigit(c) && c as int - '0' as int == d
  {
    ('0' as int + d) as char
  }

  /** `%u` */
  function Dec(n: nat): (s: string)
    ensures s != "" && forall i :: 0 <= i < |s| ==> IsDigit(s[i])
  {
    if n < 10 then [DigitChar(n)] else Dec(n / 10) + [DigitChar(n % 10)]
  }

  /** The decimal digits, most significant first and without leading zeros. */
  lemma {:induction false} DecDigits(n: nat, j: nat)
    requires j < |Dec(n)|
    ensures Dec(n)[|Dec(n)| - 1 - j] as int == '0' as int + Digit10(n, j)
    ensures n > 0 ==> Dec(n)[0] != '0'
  {
    if n >= 10 {
      if j > 0 { DecDigits(n / 10, j - 1); } else { DecDigits(n / 10, 0); }
    }
  }

  /** Digit `j` of `n`, the last being digit 0. */
  function Digit10(n: nat, j: nat): nat { if j == 0 then n % 10 else Digit10(n / 10, j - 1) }

  /** `%d` */
  function DecInt(x: int): string {
    if x < 0 then "-" + Dec(-x) else Dec(x)
  }

  lemma {:induction false} DecLength(n: nat, bound: nat, digits: nat)
    requires digits >= 1 && n < bound && bound == Pow10(digits)
    ensures |Dec(n)| <= digits
  {
    if n >= 10 {
      assert Pow10(1) == 10 * Pow10(0);
      DecLength(n / 10, Pow10(digits - 1), digits - 1);
    }
  }

  function Pow10(k: nat): nat { if k == 0 then 1 else 10 * Pow10(k - 1) }

  lemma DecIntLength(x: int)
    requires -TWO_TO_31 <= x < TWO_TO_32
    ensures 1 <= |DecInt(x)| <= 11 && (x >= 0 ==> |DecInt(x)| <= 10)
    ensures '<' !in DecInt(x) && '"' !in DecInt(x)
  {
    assert Pow10(10) == 10_000_000_000 by {
      assert Pow10(4) == 10_000;
      assert Pow10(7) == 10_000_000;
    }
    DecLength(if x < 0 then -x else x, Pow10(10), 10);
  }

  /** Reading digits left to right, as `strtoull` does; returns the value and the unread text. */
  function ReadDigits(s: string, acc: nat): (nat, string)
    decreases |s|
  {
    if s != "" && IsDigit(s[0]) then ReadDigits(s[1..], 10 * acc + (s[0] as int - '0' as int)) else (acc, s)
  }

  lemma {:induction false} ReadDec(n: nat, t: string)
    ensures ReadDigits(Dec(n) + t, 0) == ReadDigits(t, n)
  {
    if n < 10 {
      assert ([DigitChar(n)] + t)[1..] == t;
    } else {
      var d := DigitChar(n % 10);
      assert Dec(n) + t == Dec(n / 10) + ([d] + t);
      ReadDec(n / 10, [d] + t);
      assert ([d] + t)[1..] == t;
      assert 10 * (n / 10) + n % 10 == n;
    }
  }

  function SkipSpace(s: string): string
    decreases |s|
  {
    if s != "" && IsSpace(s[0]) then SkipSpace(s[1..]) else s
  }

  /** The common scanner of `atoi`, `strtoul` and `strtoull`: blanks, a sign, digits.
      Without digits nothing is converted and nothing is consumed. */
  function Scan(s: string): (r: (bool, nat, string))
  {
    var t := SkipSpace(s);
    var neg := t != "" && t[0] == '-';
    var u := if t != "" && (t[0] == '-' || t[0] == '+') then t[1..] else t;
    if u != "" && IsDigit(u[0]) then
      var (v, rest) := ReadDigits(u, 0);
      (neg, v, rest)
    else (false, 0, s)
  }

  function Signed(neg: bool, v: nat): int { if neg then -(v as int) else v }

  /** `strtol` and `strtoll` on a 64-bit machine saturate. */
  function Saturated(x: int): int {
    if x < -TWO_TO_63 then -TWO_TO_63 else if x >= TWO_TO_63 then TWO_TO_63 - 1 else x
  }

  /** `atoi`: the result of `strtol`, cast to `int`. */
  function Atoi(s: string): int {
    var (neg, v, _) := Scan(s);
    WrapInt32(Saturated(Signed(neg, v)))
  }

  /** `atoll` */
  function Atoll(s: string): int {
    var (neg, v, _) := Scan(s);
    Saturated(Signed(neg, v))
  }

  /** `strtoull`/`strtoul` on a 64-bit machine: saturates, and a minus sign negates modulo 2^64.
      The second component is where the end pointer is left. */
  function Strtoull(s: string): (r: (int, string))
    ensures 0 <= r.0 < TWO_TO_64
  {
    var (neg, v, rest) := Scan(s);
    (if v >= TWO_TO_64 then TWO_TO_64 - 1 else Signed(neg, v) % TWO_TO_64, rest)
  }

  lemma ReadStops(t: string, n: nat)
    requires t == "" || !IsDigit(t[0])
    ensures ReadDigits(t, n) == (n, t)
  {
  }

  /** Scanning a printed number yields the number, and stops exactly behind it. */
  lemma ScanDecInt(x: int, t: string)
    requires t == "" || !IsDigit(t[0])
    ensures Scan(DecInt(x) + t) == (x < 0, if x < 0 then -x else x, t)
  {
    hide Dec, ReadDigits;
    var n := if x < 0 then -x else x;
    ReadDec(n, t);
    ReadStops(t, n);
    var s := DecInt(x) + t;
    assert SkipSpace(s) == s;
    if x < 0 {
      assert s[1..] == Dec(n) + t;
    }
  }

  /** `atoi` of a printed number of any size: the low 32 bits as far as 64 bits hold it, -1 above and 0 below. */
  lemma AtoiDecInt(x: int)
    ensures -TWO_TO_63 <= x < TWO_TO_63 ==> Atoi(DecInt(x)) == WrapInt32(x)
    ensures x >= TWO_TO_63 ==> Atoi(DecInt(x)) == -1
    ensures x < -TWO_TO_63 ==> Atoi(DecInt(x)) == 0
  {
    hide DecInt, Scan;
    ScanDecInt(x, "");
    assert DecInt(x) + "" == DecInt(x);
    Extremes();
  }

  /** `atoll` of a printed number of any size: the nearest 64-bit number. */
  lemma AtollDecInt(x: int)
    ensures -TWO_TO_63 <= Atoll(DecInt(x)) < TWO_TO_63
    ensures -TWO_TO_63 <= x < TWO_TO_63 ==> Atoll(DecInt(x)) == x
    ensures x >= TWO_TO_63 ==> Atoll(DecInt(x)) == TWO_TO_63 - 1
    ensures x < -TWO_TO_63 ==> Atoll(DecInt(x)) == -TWO_TO_63
  {
    hide DecInt, Scan;
    ScanDecInt(x, "");
    assert DecInt(x) + "" == DecInt(x);
  }

  lemma Extremes()
    ensures WrapInt32(TWO_TO_63 - 1) == -1 && WrapInt32(-TWO_TO_63) == 0
  {
  }

  /** `strtoull` of a printed number of any size, and where it stops: too large a number, with either sign, is the
      largest there is, and any other negative one is taken modulo 2^64. */
  lemma StrtoullDecInt(x: int, t: string)
    requires t == "" || !IsDigit(t[0])
    ensures Strtoull(DecInt(x) + t).1 == t
    ensures -TWO_TO_64 < x < TWO_TO_64 ==> Strtoull(DecInt(x) + t).0 == if x < 0 then x + TWO_TO_64 else x
    ensures x >= TWO_TO_64 || x <= -TWO_TO_64 ==> Strtoull(DecInt(x) + t).0 == TWO_TO_64 - 1
  {
    hide DecInt, Scan;
    ScanDecInt(x, t);
  }

  /** White space in front and a plus sign change nothing; without digits the result is 0 and nothing is consumed. */
  lemma ScanFront(c: char, s: string)
    requires c in [' ', '\t', '\n', '\r', 11 as char, 12 as char]
    ensures Strtoull([c] + s).0 == Strtoull(s).0
    ensures s != "" && IsDigit(s[0]) ==> Strtoull("+" + s) == Strtoull(s)
    ensures s == "" || (!IsDigit(s[0]) && !IsSpace(s[0]) && s[0] != '+' && s[0] != '-') ==> Strtoull(s) == (0, s)
  {
    assert ([c] + s)[1..] == s;
    assert ("+" + s)[1..] == s;
    assert SkipSpace([c] + s) == SkipSpace(s);
  }

  /** A C string read out of a buffer: the characters before the first NUL, if there is one. */
  function CStr(buf: seq<char>): (r: Option<string>)
    ensures r.Some? ==> r.value < buf && '\0' !in r.value && buf[|r.value|] == '\0'
    ensures r.None? ==> '\0' !in buf
    decreases |buf|
  {
    if buf == [] then None
    else if buf[0] == '\0' then Some("")
    else match CStr(buf[1..])
      case None => None
      case Some(t) => Some([buf[0]] + t)
  }

  lemma {:induction false} CStrOf(s: string, tail: seq<char>)
    requires '\0' !in s && tail != [] && tail[0] == '\0'
    ensures CStr(s + tail) == Some(s)
    decreases |s|
  {
    if s == "" {
      assert s + tail == tail;
    } else {
      assert (s + tail)[1..] == s[1..] + tail;
      CStrOf(s[1..], tail);
      assert (s + tail)[0] == s[0];
      assert [s[0]] + s[1..] == s;
    }
  }

  /** `snprintf(body + pos, cap - pos, "%s", text)`: writes what fits, terminates, returns the full length. */
  method SnPrintf(body: array<char>, pos: nat, text: string) returns (n: nat)
    requires pos < body.Length
    modifies body
    ensures n == |text|
    ensures var m := Min(|text|, body.Length - pos - 1);
            body[..pos + m] == old(body[..pos]) + text[..m] && body[pos + m] == '\0'
  {
    var m := Min(|text|, body.Length - pos - 1);
    var i := 0;
    while i < m
      invariant 0 <= i <= m
      invariant body[..pos + i] == old(body[..pos]) + text[..i]
    {
      body[pos + i] := text[i];
      i := i + 1;
      assert body[..pos + i] == body[..pos + i - 1] + [text[i - 1]];
      assert text[..i] == text[..i - 1] + [text[i - 1]];
    }
    body[pos + m] := '\0';
    n := |text|;
  }
}
