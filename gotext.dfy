/** The pieces of Go's `strings` and `strconv` packages whose exact behaviour the
    request binding depends on: `strings.TrimSpace`, `strings.Split` on a
    one-character separator, base-10 `strconv.ParseInt`/`ParseUint`/`Atoi` on a
    64-bit platform, and the truncation `reflect.Value.SetInt`/`SetUint` apply
    when the destination field is narrower than 64 bits. */
module GoText {
  import opened Common

  // ---------------------------------------------------------------- spaces

  /** unicode.IsSpace, the test strings.TrimSpace uses. */
  predicate IsSpace(c: char) {
    c == ' ' || c == '\t' || c == '\n' || c == '\r' || c == '\U{000B}' || c == '\U{000C}'
    || c == '\U{0085}' || c == '\U{00A0}' || c == '\U{1680}' || ('\U{2000}' <= c <= '\U{200A}')
    || c == '\U{2028}' || c == '\U{2029}' || c == '\U{202F}' || c == '\U{205F}' || c == '\U{3000}'
  }

  /** The number of leading spaces of s[from..]. */
  function SpacesFrom(s: string, from: nat): (n: nat)
    requires from <= |s|
    ensures from + n <= |s|
    ensures forall i | from <= i < from + n :: IsSpace(s[i])
    ensures from + n == |s| || !IsSpace(s[from + n])
    decreases |s| - from
  {
    if from < |s| && IsSpace(s[from]) then 1 + SpacesFrom(s, from + 1) else 0
  }

  /** The end of s[..upto] once its trailing spaces, down to index lo, are dropped. */
  function EndBefore(s: string, lo: nat, upto: nat): (hi: nat)
    requires lo <= upto <= |s|
    ensures lo <= hi <= upto
    ensures forall i | hi <= i < upto :: IsSpace(s[i])
    ensures hi == lo || !IsSpace(s[hi - 1])
    decreases upto
  {
    if lo < upto && IsSpace(s[upto - 1]) then EndBefore(s, lo, upto - 1) else upto
  }

  /** strings.TrimSpace: the infix left after dropping the leading and the trailing
      spaces, and only those. */
  function TrimSpace(s: string): (r: string)
    ensures var k := SpacesFrom(s, 0);
      && k + |r| <= |s| && r == s[k..k + |r|]
      && (forall i | 0 <= i < k :: IsSpace(s[i]))
      && (forall i | k + |r| <= i < |s| :: IsSpace(s[i]))
    ensures r == [] || (!IsSpace(r[0]) && !IsSpace(r[|r| - 1]))
    ensures r == [] <==> forall i | 0 <= i < |s| :: IsSpace(s[i])
  {
    var lo := SpacesFrom(s, 0);
    var hi := EndBefore(s, lo, |s|);
    assert hi > lo ==> !IsSpace(s[lo]);
    s[lo..hi]
  }

  // ---------------------------------------------------------------- split

  function IndexOf(s: string, c: char): (i: nat)
    requires c in s
    ensures i < |s| && s[i] == c && c !in s[..i]
  {
    if s[0] == c then 0 else 1 + IndexOf(s[1..], c)
  }

  /** strings.Split(s, sep) for a one-character separator. */
  function Split(s: string, sep: char): (parts: seq<string>)
    ensures |parts| >= 1
    ensures forall p | p in parts :: sep !in p
    ensures sep in s <==> |parts| >= 2
    decreases |s|
  {
    if sep !in s then [s]
    else
      var i := IndexOf(s, sep);
      [s[..i]] + Split(s[i + 1..], sep)
  }

  /** strings.Join(parts, sep), the inverse of Split. */
  function Join(parts: seq<string>, sep: char): string
  {
    if parts == [] then ""
    else if |parts| == 1 then parts[0]
    else parts[0] + [sep] + Join(parts[1..], sep)
  }

  /** Split loses nothing: joining the pieces gives the string back. */
  lemma {:induction false} JoinSplit(s: string, sep: char)
    ensures Join(Split(s, sep), sep) == s
    decreases |s|
  {
    if sep in s {
      var i := IndexOf(s, sep);
      JoinSplit(s[i + 1..], sep);
      assert s == s[..i] + [sep] + s[i + 1..];
    }
  }

  lemma {:induction false} IndexOfFirst(head: string, rest: string, sep: char)
    requires sep !in head
    ensures IndexOf(head + [sep] + rest, sep) == |head|
  {
    if head != [] {
      assert (head + [sep] + rest)[1..] == head[1..] + [sep] + rest;
      IndexOfFirst(head[1..], rest, sep);
    }
  }

  lemma SplitAfter(head: string, rest: string, sep: char)
    requires sep !in head
    ensures Split(head + [sep] + rest, sep) == [head] + Split(rest, sep)
  {
    var s := head + [sep] + rest;
    assert s[|head|] == sep;
    IndexOfFirst(head, rest, sep);
    assert s[..|head|] == head;
    assert s[|head| + 1..] == rest;
  }

  lemma SplitFirst(seg: string, tail: string, sep: char)
    requires sep !in seg
    requires tail == [] || tail[0] == sep
    ensures Split(seg + tail, sep)[0] == seg
  {
    if tail == [] {
      assert seg + tail == seg;
    } else {
      var rest := tail[1..];
      assert tail == [sep] + rest;
      assert seg + tail == seg + [sep] + rest;
      SplitAfter(seg, rest, sep);
    }
  }

  /** The piece after the first separator is the text up to the second one. */
  lemma SplitSecond(head: string, seg: string, tail: string, sep: char)
    requires sep !in head && sep !in seg
    requires tail == [] || tail[0] == sep
    ensures |Split(head + [sep] + seg + tail, sep)| >= 2
    ensures Split(head + [sep] + seg + tail, sep)[1] == seg
  {
    SplitAfter(head, seg + tail, sep);
    Assoc(head + [sep], seg, tail);
    SplitFirst(seg, tail, sep);
  }

  // ---------------------------------------------------------------- numbers

  const MaxUint64: int := 0xFFFF_FFFF_FFFF_FFFF
  /** 1 << 63, the magnitude bound strconv.ParseInt uses for bitSize 64. */
  const Cutoff: int := 0x8000_0000_0000_0000

  /** The three outcomes of a strconv parse: success, ErrSyntax, ErrRange. */
  datatype NumErr = NoErr | Syntax | Range
  datatype Parsed = Parsed(value: int, err: NumErr)

  predicate IsDigit(c: char) { '0' <= c <= '9' }

  predicate AllDigits(s: string) { forall i | 0 <= i < |s| :: IsDigit(s[i]) }

  function DigitVal(c: char): (d: nat)
    requires IsDigit(c)
    ensures d < 10
  {
    (c as int) - ('0' as int)
  }

  function DigitChar(d: nat): (c: char)
    requires d < 10
    ensures IsDigit(c) && DigitVal(c) == d
  {
    (('0' as int) + d) as char
  }

  /** Value of a digit string read left to right, starting from `acc`. */
  function Horner(s: string, acc: nat): nat
    requires AllDigits(s)
  {
    if s == [] then acc else Horner(s[1..], acc * 10 + DigitVal(s[0]))
  }

  /** The digit loop of strconv.ParseUint for base 10: a non-digit is a syntax error
      with value 0, overflowing `max` is a range error with value `max`, and the
      loop stops at whichever comes first. */
  function Accumulate(s: string, acc: nat, max: nat): (p: Parsed)
    requires acc <= max
    ensures 0 <= p.value <= max
    ensures p.err == Syntax ==> p.value == 0
    ensures p.err == Range ==> p.value == max
  {
    if s == [] then Parsed(acc, NoErr)
    else if !IsDigit(s[0]) then Parsed(0, Syntax)
    else if acc * 10 + DigitVal(s[0]) > max then Parsed(max, Range)
    else Accumulate(s[1..], acc * 10 + DigitVal(s[0]), max)
  }

  /** strconv.ParseUint(s, 10, 64). */
  function ParseUint(s: string): (p: Parsed)
    ensures 0 <= p.value <= MaxUint64
    ensures p.err == Syntax ==> p.value == 0
    ensures p.err == Range ==> p.value == MaxUint64
    ensures s == [] ==> p == Parsed(0, Syntax)
  {
    if s == [] then Parsed(0, Syntax) else Accumulate(s, 0, MaxUint64)
  }

  /** strconv.ParseInt(s, 10, 64); on a 64-bit platform strconv.Atoi returns the same
      value and error. */
  function ParseInt(s: string): (p: Parsed)
    ensures -Cutoff <= p.value < Cutoff
    ensures p.err == Syntax ==> p.value == 0
    ensures p.err == Range ==> p.value == Cutoff - 1 || p.value == -Cutoff
    ensures s == [] ==> p == Parsed(0, Syntax)
  {
    if s == [] then Parsed(0, Syntax)
    else
      var neg := s[0] == '-';
      var un := ParseUint(if s[0] == '+' || s[0] == '-' then s[1..] else s);
      if un.err == Syntax then Parsed(0, Syntax)
      else if !neg && un.value >= Cutoff then Parsed(Cutoff - 1, Range)
      else if neg && un.value > Cutoff then Parsed(-Cutoff, Range)
      else Parsed(if neg then -un.value else un.value, NoErr)
  }

  /** strconv.FormatUint(n, 10). */
  function NatDigits(n: nat): (s: string)
    ensures |s| >= 1 && AllDigits(s)
    decreases n
  {
    if n < 10 then [DigitChar(n)] else NatDigits(n / 10) + [DigitChar(n % 10)]
  }

  /** strconv.Itoa. */
  function Itoa(n: int): string
  {
    if n < 0 then "-" + NatDigits(-n) else NatDigits(n)
  }

  lemma {:induction false} HornerAppend(s: string, c: char, acc: nat)
    requires AllDigits(s) && IsDigit(c)
    ensures AllDigits(s + [c])
    ensures Horner(s + [c], acc) == Horner(s, acc) * 10 + DigitVal(c)
    decreases |s|
  {
    assert AllDigits(s + [c]);
    if s != [] {
      assert (s + [c])[1..] == s[1..] + [c];
      HornerAppend(s[1..], c, acc * 10 + DigitVal(s[0]));
    }
  }

  lemma {:induction false} HornerAtLeast(s: string, acc: nat)
    requires AllDigits(s)
    ensures Horner(s, acc) >= acc
    decreases |s|
  {
    if s != [] {
      HornerAtLeast(s[1..], acc * 10 + DigitVal(s[0]));
    }
  }

  /** A digit string whose value fits is parsed without error to that value. */
  lemma {:induction false} AccumulateFits(s: string, acc: nat, max: nat)
    requires AllDigits(s) && acc <= max && Horner(s, acc) <= max
    ensures Accumulate(s, acc, max) == Parsed(Horner(s, acc), NoErr)
    decreases |s|
  {
    if s != [] {
      var next := acc * 10 + DigitVal(s[0]);
      HornerAtLeast(s[1..], next);
      AccumulateFits(s[1..], next, max);
    }
  }

  lemma {:induction false} NatDigitsValue(n: nat)
    ensures Horner(NatDigits(n), 0) == n
    decreases n
  {
    if n >= 10 {
      NatDigitsValue(n / 10);
      HornerAppend(NatDigits(n / 10), DigitChar(n % 10), 0);
    }
  }

  /** Round trip: ParseUint reads back every uint64 that FormatUint writes. */
  lemma ParseUintFormat(n: nat)
    requires n <= MaxUint64
    ensures ParseUint(NatDigits(n)) == Parsed(n, NoErr)
  {
    NatDigitsValue(n);
    AccumulateFits(NatDigits(n), 0, MaxUint64);
  }

  /** Round trip: ParseInt (and so Atoi) reads back every int64 that Itoa writes. */
  lemma ParseIntItoa(n: int)
    requires -Cutoff <= n < Cutoff
    ensures ParseInt(Itoa(n)) == Parsed(n, NoErr)
  {
    if n < 0 {
      ParseUintFormat(-n);
      assert ("-" + NatDigits(-n))[1..] == NatDigits(-n);
    } else {
      ParseUintFormat(n);
      assert NatDigits(n)[0] != '+' && NatDigits(n)[0] != '-';
    }
  }

  // ---------------------------------------------------------------- widths

  /** Modulus 2^bits for the integer widths Go has. */
  function Modulus(bits: nat): (m: int)
    requires bits in {8, 16, 32, 64}
    ensures m >= 2 && m % 2 == 0
  {
    if bits == 8 then 0x100
    else if bits == 16 then 0x1_0000
    else if bits == 32 then 0x1_0000_0000
    else 0x1_0000_0000_0000_0000
  }

  /** The facts about `x % m` the truncations need. */
  lemma ModFacts(x: int, m: int)
    requires m >= 2
    ensures 0 <= x % m < m
    ensures (x - x % m) % m == 0
    ensures 0 <= x < m ==> x % m == x
  {
    var q := x / m;
    assert x - x % m == q * m;
    MulMod(q, m);
  }

  lemma MulMod(q: int, m: int)
    requires m >= 2
    ensures (q * m) % m == 0
  {
    var d, rem := (q * m) / m, (q * m) % m;
    assert rem == (q - d) * m;
    MulBounds(q - d, m);
  }

  lemma MulBounds(k: int, m: int)
    requires m >= 1
    ensures k >= 1 ==> k * m >= m
    ensures k <= -1 ==> k * m <= -m
  {
  }

  /** Two's-complement truncation of `x` to a signed `bits`-wide integer, what
      `reflect.Value.SetInt` stores into an int8/16/32/64 field. */
  function WrapSigned(x: int, bits: nat): (r: int)
    requires bits in {8, 16, 32, 64}
    ensures -Modulus(bits) / 2 <= r < Modulus(bits) / 2
    ensures (x - r) % Modulus(bits) == 0
    ensures -Modulus(bits) / 2 <= x < Modulus(bits) / 2 ==> r == x
  {
    var m := Modulus(bits);
    var h := m / 2;
    ModFacts(x + h, m);
    assert x - ((x + h) % m - h) == (x + h) - (x + h) % m;
    (x + h) % m - h
  }

  /** Truncation of `x` to an unsigned `bits`-wide integer: Go's `uint64(i)` conversion
      followed by what `reflect.Value.SetUint` stores into a narrower field. */
  function WrapUnsigned(x: int, bits: nat): (r: nat)
    requires bits in {8, 16, 32, 64}
    ensures r < Modulus(bits)
    ensures (x - r) % Modulus(bits) == 0
    ensures 0 <= x < Modulus(bits) ==> r == x
  {
    ModFacts(x, Modulus(bits));
    x % Modulus(bits)
  }
}
