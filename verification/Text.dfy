/** Numbers and lines as text: std::to_string, parse_u64, parse_i64 and std::getline of store.cpp. */
module Text {
  import opened Base

  // ---------- printing ----------

  function Digit(d: nat): char
    requires d < 10
  {
    '0' + d as char
  }

  /** The decimal text of `n`. */
  function Dec(n: nat): (s: string)
    ensures s != []
  {
    if n < 10 then [Digit(n)] else Dec(n / 10) + [Digit(n % 10)]
  }

  /** The decimal text of a signed number. */
  function DecInt(n: int): (s: string)
    ensures s != []
  {
    if n < 0 then "-" + Dec(-n) else Dec(n)
  }

  function Pow10(k: nat): (p: nat)
    ensures p > 0
  {
    if k == 0 then 1 else 10 * Pow10(k - 1)
  }

  /** Printing is positional: digit `k` from the right is the number of `10^k`s modulo ten, and no zero leads. */
  lemma {:induction false} DecIsPositional(n: nat, k: nat)
    requires k < |Dec(n)|
    ensures Dec(n)[|Dec(n)| - 1 - k] as nat == '0' as nat + n / Pow10(k) % 10
    ensures n < Pow10(|Dec(n)|) && (n >= 10 ==> Dec(n)[0] != '0')
  {
    if n < 10 {
      assert Pow10(1) == 10 * Pow10(0);
    } else {
      var front := Dec(n / 10);
      DecIsPositional(n / 10, if k == 0 then 0 else k - 1);
      if k > 0 {
        assert Dec(n)[|Dec(n)| - 1 - k] == front[|front| - 1 - (k - 1)];
        DivTwice(n, Pow10(k - 1));
      }
    }
  }

  lemma DivTwice(n: nat, p: nat)
    requires p > 0
    ensures n / 10 / p == n / (10 * p)
  {
    var q, r := n / 10, n % 10;
    var a, b := q / p, q % p;
    assert n == 10 * q + r && q == p * a + b;
    assert n == (10 * p) * a + (10 * b + r) && 0 <= 10 * b + r < 10 * p;
    QuotientIs(n, 10 * p, a, 10 * b + r);
  }

  lemma QuotientIs(n: nat, d: nat, a: nat, r: nat)
    requires n == d * a + r && r < d
    ensures n / d == a
  {
    assert n == d * (n / d) + n % d;
    Products(d, n / d, a);
  }

  lemma Products(d: nat, a: int, b: int)
    ensures a < b ==> d * a + d <= d * b
    ensures b < a ==> d * b + d <= d * a
  {
    if a < b {
      assert d * (a + 1) <= d * b;
    } else if b < a {
      assert d * (b + 1) <= d * a;
    }
  }

  // ---------- reading ----------

  predicate IsDigit(c: char) { '0' <= c <= '9' }

  predicate AllDigits(s: string) {
    forall i :: 0 <= i < |s| ==> IsDigit(s[i])
  }

  /** The number a digit string denotes in base ten. */
  function ValueOf(s: string): nat
    requires AllDigits(s)
  {
    if s == [] then 0 else ValueOf(s[..|s| - 1]) * 10 + (s[|s| - 1] - '0') as nat
  }

  /** What parse_u64 accepts: a non-empty digit string whose value fits 64 bits. */
  function ParsedU64(s: string): Option<uint64> {
    if s != [] && AllDigits(s) && ValueOf(s) < U64 then Some(ValueOf(s)) else None
  }

  /** parse_u64. The division guards the multiplication, which therefore never wraps. */
  method ParseU64(text: string) returns (r: Option<uint64>)
    ensures r == ParsedU64(text)
  {
    if text == [] {
      return None;
    }
    var value: uint64 := 0;
    for i := 0 to |text|
      invariant AllDigits(text[..i]) && value == ValueOf(text[..i])
    {
      assert text[..i + 1][..i] == text[..i];
      var ch := text[i];
      if ch < '0' || ch > '9' {
        return None;
      }
      var digit := (ch - '0') as nat;
      assert AllDigits(text[..i + 1]) && ValueOf(text[..i + 1]) == value * 10 + digit;
      if value > (U64 - 1 - digit) / 10 {
        if AllDigits(text) {
          ValueGrows(text, i + 1);
        }
        return None;
      }
      value := value * 10 + digit;
    }
    assert text[..|text|] == text;
    return Some(value);
  }

  /** A prefix of a number denotes no more than the number. */
  lemma {:induction false} ValueGrows(s: string, n: nat)
    requires AllDigits(s) && n <= |s|
    ensures ValueOf(s[..n]) <= ValueOf(s)
  {
    if n == |s| {
      assert s[..n] == s;
    } else {
      ValueGrows(s[..|s| - 1], n);
      assert s[..|s| - 1][..n] == s[..n];
    }
  }

  lemma {:induction false} DecIsDigits(n: nat)
    ensures AllDigits(Dec(n)) && ValueOf(Dec(n)) == n
  {
    if n >= 10 {
      DecIsDigits(n / 10);
      assert Dec(n)[..|Dec(n)| - 1] == Dec(n / 10);
    } else {
      assert Dec(n)[..0] == [];
    }
  }

  /** parse_u64 inverts decimal printing. */
  lemma ParseInvertsDec(n: uint64)
    ensures ParsedU64(Dec(n)) == Some(n)
  {
    DecIsDigits(n);
  }

  /** parse_i64 returns false, a value, or negates INT64_MIN, which C++ leaves undefined. */
  datatype Signed = NotANumber | Undefined | Number(n: int64)

  /** static_cast<int64_t>(mag). */
  function AsInt64(mag: uint64): int64 {
    if mag < 0x8000_0000_0000_0000 then mag else mag - U64
  }

  /** static_cast<int>(n), for 64-bit n of either sign. */
  function AsInt32(n: int): int32 {
    var low := n % 0x1_0000_0000;
    if low < 0x8000_0000 then low else low - 0x1_0000_0000
  }

  lemma AsInt32OfInt32(n: int32)
    ensures AsInt32(n) == n
  {
  }

  /** Both casts keep the value modulo the width and land in range, so they wrap around. */
  lemma CastsWrap(mag: uint64, n: int)
    ensures exists k: int :: AsInt64(mag) == mag + k * U64
    ensures exists k: int :: AsInt32(n) == n + k * 0x1_0000_0000
  {
    assert AsInt64(mag) == mag + 0 * U64 || AsInt64(mag) == mag + (-1) * U64;
    var q := n / 0x1_0000_0000;
    assert n == 0x1_0000_0000 * q + n % 0x1_0000_0000;
    assert AsInt32(n) == n + (-q) * 0x1_0000_0000 || AsInt32(n) == n + (-q - 1) * 0x1_0000_0000;
  }

  function ParsedI64(s: string): Signed {
    if s == [] then NotANumber
    else if s[0] == '-' then
      match ParsedU64(s[1..])
      case None => NotANumber
      case Some(mag) => if mag == 0x8000_0000_0000_0000 then Undefined else Number(-AsInt64(mag))
    else
      match ParsedU64(s)
      case None => NotANumber
      case Some(mag) => Number(AsInt64(mag))
  }

  /** Every signed 64-bit value survives printing and reading, except the smallest one. */
  lemma ParseInvertsDecInt(n: int64)
    ensures ParsedI64(DecInt(n)) == if n == -0x8000_0000_0000_0000 then Undefined else Number(n)
  {
    if n < 0 {
      var m: int := n;
      ParseInvertsDec(-m);
      assert DecInt(n)[1..] == Dec(-m);
    } else {
      ParseInvertsDec(n);
      DecIsDigits(n);
    }
  }

  lemma NegativeIsNotU64(n: int)
    requires n < 0
    ensures ParsedU64(DecInt(n)) == None
  {
    assert !IsDigit(DecInt(n)[0]);
  }

  // ---------- lines and separators ----------

  /** The position of the first `c` in `s`, or |s| when there is none. */
  function Find(s: string, c: char): (n: nat)
    ensures n <= |s| && (n < |s| ==> s[n] == c)
    ensures forall i :: 0 <= i < n ==> s[i] != c
    ensures n == |s| <==> c !in s
  {
    if s == [] then 0 else if s[0] == c then 0 else 1 + Find(s[1..], c)
  }

  lemma FindAfter(a: string, c: char, b: string)
    requires c !in a
    ensures Find(a + [c] + b, c) == |a|
    ensures (a + [c] + b)[..|a|] == a && (a + [c] + b)[|a| + 1..] == b
  {
    assert (a + [c] + b)[|a|] == c;
    forall i | 0 <= i < |a| ensures (a + [c] + b)[i] != c {
      assert (a + [c] + b)[i] == a[i];
    }
  }

  /** The pieces of `s` between separators; a piece is left out when nothing follows the last separator. */
  function Split(s: string, sep: char): (r: seq<string>)
    ensures forall i :: 0 <= i < |r| ==> sep !in r[i]
    decreases |s|
  {
    if s == [] then []
    else
      var at := Find(s, sep);
      if at == |s| then [s] else [s[..at]] + Split(s[at + 1..], sep)
  }

  /** pop_back of one trailing carriage return. */
  function DropCr(line: string): (r: string)
    ensures forall c :: c in r ==> c in line
    ensures |r| == |line| <==> r == line
    ensures r == line <==> !(line != [] && line[|line| - 1] == '\r')
  {
    if line != [] && line[|line| - 1] == '\r' then line[..|line| - 1] else line
  }
}
