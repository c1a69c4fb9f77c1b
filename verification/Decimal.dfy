/** Decimal printing and parsing as the panel writes it by hand: `itoa64`
    (internal/api/handlers.go), `itoa` (internal/api/proxy.go), `atoi`
    (internal/xray/clientjson.go), `atoiSafe` (internal/api/handlers.go) and the port
    guard `portOrEmpty` (internal/config/config.go). Go's 64-bit wrap-around is explicit. */
module Decimal {
  import opened Wrappers

  const TWO_64: int := 0x1_0000_0000_0000_0000
  const MIN_INT64: int := -0x8000_0000_0000_0000
  const MAX_INT64: int := 0x7fff_ffff_ffff_ffff

  predicate IsInt64(n: int) { MIN_INT64 <= n <= MAX_INT64 }

  /** The 64-bit two's complement value congruent to `n`. */
  function Wrap64(n: int): (r: int)
    ensures IsInt64(r)
  {
    (n - MIN_INT64) % TWO_64 + MIN_INT64
  }

  /** Go's unary minus on int64: the minimum is its own negation. */
  function Neg64(n: int): (r: int)
    requires IsInt64(n)
    ensures r == if n == MIN_INT64 then n else -n
  {
    Wrap64(-n)
  }

  // ---------- digits ----------

  predicate IsDigit(c: char) { '0' <= c <= '9' }

  predicate AllDigits(s: string) { forall i :: 0 <= i < |s| ==> IsDigit(s[i]) }

  function DigitValue(c: char): (v: nat)
    requires IsDigit(c)
    ensures v < 10
  {
    c as int - '0' as int
  }

  function DigitChar(d: nat): (c: char)
    requires d < 10
    ensures IsDigit(c) && DigitValue(c) == d
  {
    (d + '0' as int) as char
  }

  /** The number a digit string denotes; leading zeros are harmless. */
  function Value(s: string): nat
    requires AllDigits(s)
  {
    if |s| == 0 then 0 else 10 * Value(s[..|s| - 1]) + DigitValue(s[|s| - 1])
  }

  /** The digits of `n` without leading zeros; none for zero. */
  function Digits(n: nat): (s: string)
    ensures AllDigits(s)
  {
    if n == 0 then "" else Digits(n / 10) + [DigitChar(n % 10)]
  }

  /** Standard decimal notation. */
  function DecimalText(n: nat): (s: string)
    ensures AllDigits(s) && |s| > 0
  {
    if n == 0 then "0" else Digits(n)
  }

  lemma {:induction false} ValueOfDigits(n: nat)
    ensures Value(Digits(n)) == n
  {
    if n > 0 {
      ValueOfDigits(n / 10);
      assert Digits(n)[..|Digits(n)| - 1] == Digits(n / 10);
    }
  }

  /** Parsing inverts printing for every natural number. */
  lemma ValueOfDecimal(n: nat)
    ensures Value(DecimalText(n)) == n
  {
    ValueOfDigits(n);
    assert Value("0") == 0;
  }

  function Pow10(k: nat): (p: nat)
    ensures p > 0
  {
    if k == 0 then 1 else 10 * Pow10(k - 1)
  }

  lemma {:induction false} DigitsFit(n: nat, k: nat)
    requires n < Pow10(k)
    ensures |Digits(n)| <= k
  {
    if n > 0 { DigitsFit(n / 10, k - 1); }
  }

  // ---------- printers ----------

  /** What `itoa64` and `itoa` print. The minimum negates to itself, so the digit loop
      never runs and only the sign comes out. */
  function Int64Text(n: int): string
    requires IsInt64(n)
  {
    if n >= 0 then DecimalText(n) else if n == MIN_INT64 then "-" else "-" + DecimalText(-n)
  }

  /** The digit loop of both printers: fill a fixed buffer from its end. Every index stays
      inside the buffer and at least one byte is left for the sign. */
  method FillBackwards(n: nat, b: array<char>) returns (i: nat)
    requires n <= MAX_INT64 && b.Length >= 20
    modifies b
    ensures 1 <= i <= b.Length && b[i..] == Digits(n)
  {
    var m: nat := n;
    i := b.Length;
    assert b[i..] == [];
    Pow10Nineteen();
    DigitsFit(n, 19);
    while m > 0
      invariant i <= b.Length && m <= MAX_INT64
      invariant Digits(n) == Digits(m) + b[i..]
      invariant |Digits(n)| <= 19
    {
      assert |Digits(m)| >= 1;
      i := i - 1;
      b[i] := DigitChar(m % 10);
      assert b[i..] == [DigitChar(m % 10)] + b[i + 1..];
      m := m / 10;
    }
  }

  /** The shared body of `itoa64` (24-byte buffer) and the proxy's `itoa` (20-byte buffer). */
  method FormatBackwards(n: int, cap: nat) returns (s: string)
    requires IsInt64(n) && cap >= 20
    ensures s == Int64Text(n)
  {
    if n == 0 { return "0"; }
    var neg := n < 0;
    var m := if neg then Neg64(n) else n;
    var b := new char[cap];
    var i := cap;
    if m > 0 { i := FillBackwards(m, b); }
    if neg {
      i := i - 1;
      b[i] := '-';
      assert b[i..] == ['-'] + b[i + 1..];
    }
    s := b[i..];
  }

  lemma Pow10Nineteen()
    ensures Pow10(19) == 10_000_000_000_000_000_000
  {
    assert Pow10(5) == 100_000;
    assert Pow10(10) == 10_000_000_000;
    assert Pow10(15) == 1_000_000_000_000_000;
  }

  method Itoa64(n: int) returns (s: string)
    requires IsInt64(n)
    ensures s == Int64Text(n)
  {
    s := FormatBackwards(n, 24);
  }

  method Itoa(n: int) returns (s: string)
    requires IsInt64(n)
    ensures s == Int64Text(n)
  {
    s := FormatBackwards(n, 20);
  }

  // ---------- parsers ----------

  /** `strconv.Atoi`: an optional sign and at least one digit, inside the int64 range. */
  function Strconv(s: string): Option<int> {
    var signed := |s| > 0 && (s[0] == '+' || s[0] == '-');
    var body := if signed then s[1..] else s;
    if |body| == 0 || !AllDigits(body) then None
    else
      var magnitude: int := Value(body);
      var v := if signed && s[0] == '-' then -magnitude else magnitude;
      if IsInt64(v) then Some(v) else None
  }

  /** Printing and parsing back returns the number exactly above the int64 minimum. */
  lemma Int64RoundTrip(n: int)
    requires IsInt64(n)
    ensures Strconv(Int64Text(n)) == Some(n) <==> n != MIN_INT64
  {
    if n >= 0 {
      ValueOfDecimal(n);
      StrconvOfDigits(DecimalText(n), false);
    } else if n != MIN_INT64 {
      ValueOfDecimal(-n);
      StrconvOfDigits(DecimalText(-n), true);
    }
  }

  lemma StrconvOfDigits(s: string, neg: bool)
    requires AllDigits(s) && s != "" && Value(s) <= MAX_INT64
    ensures Strconv(if neg then "-" + s else s) == Some(if neg then -(Value(s) as int) else Value(s))
  {
    assert IsDigit(s[0]);
    assert ("-" + s)[1..] == s;
  }

  lemma WrapUnique(x: int, y: int, k: int)
    requires x == y + k * TWO_64
    ensures Wrap64(x) == Wrap64(y)
  {
    var a, b := x - MIN_INT64, y - MIN_INT64;
    assert a == TWO_64 * (b / TWO_64 + k) + b % TWO_64;
    ModUnique(a, b / TWO_64 + k, b % TWO_64);
  }

  lemma ModUnique(a: int, q: int, r: int)
    requires a == TWO_64 * q + r && 0 <= r < TWO_64
    ensures a % TWO_64 == r
  {
    assert a == TWO_64 * (a / TWO_64) + a % TWO_64;
    assert TWO_64 * (q - a / TWO_64) == a % TWO_64 - r;
    assert q - a / TWO_64 == 0;
  }

  /** One Horner step may be wrapped early without changing the wrapped total. */
  lemma WrapHorner(x: int, d: int)
    ensures Wrap64(Wrap64(x) * 10 + d) == Wrap64(x * 10 + d)
  {
    var k := (x - MIN_INT64) / TWO_64;
    assert Wrap64(x) == x - k * TWO_64;
    WrapUnique(Wrap64(x) * 10 + d, x * 10 + d, -10 * k);
  }

  /** What the hand-written `atoi` returns: 0 on any non-digit, otherwise the wrapped value. */
  function AtoiValue(s: string): (v: int)
    ensures IsInt64(v)
  {
    if AllDigits(s) then Wrap64(Value(s)) else 0
  }

  method Atoi(s: string) returns (n: int)
    ensures n == AtoiValue(s)
  {
    n := 0;
    for i := 0 to |s|
      invariant AllDigits(s[..i])
      invariant n == Wrap64(Value(s[..i]))
    {
      if !IsDigit(s[i]) { return 0; }
      assert s[..i + 1][..i] == s[..i];
      WrapHorner(Value(s[..i]), DigitValue(s[i]));
      n := Wrap64(n * 10 + DigitValue(s[i]));
    }
    assert s[..|s|] == s;
  }

  /** `atoiSafe`: like `atoi`, with a flag that is false for the empty string and non-digits. */
  method AtoiSafe(s: string) returns (n: int, ok: bool)
    ensures ok == (s != "" && AllDigits(s))
    ensures n == if ok then AtoiValue(s) else 0
  {
    if s == "" { return 0, false; }
    n := 0;
    for i := 0 to |s|
      invariant AllDigits(s[..i])
      invariant n == Wrap64(Value(s[..i]))
    {
      if !IsDigit(s[i]) { return 0, false; }
      assert s[..i + 1][..i] == s[..i];
      WrapHorner(Value(s[..i]), DigitValue(s[i]));
      n := Wrap64(n * 10 + DigitValue(s[i]));
    }
    assert s[..|s|] == s;
    ok := true;
  }

  /** The hand-written parser inverts the printer on every non-negative int64. */
  lemma AtoiOfText(n: int)
    requires 0 <= n <= MAX_INT64
    ensures AtoiValue(Int64Text(n)) == n && AllDigits(Int64Text(n)) && Int64Text(n) != ""
  {
    ValueOfDecimal(n);
  }

  // ---------- ports ----------

  /** `portOrEmpty` keeps the text of a port that `strconv.Atoi` reads as 1..65535. */
  function PortOrEmpty(v: string): string {
    match Strconv(v)
    case Some(n) => if 1 <= n <= 65535 then v else ""
    case None => ""
  }

  /** The number a client reads in a link's port text. */
  function PortNumber(v: string): int {
    match Strconv(v)
    case Some(n) => n
    case None => 0
  }

  /** The port `ClientJSON` writes for the same text: 443 unless `atoi` is positive. */
  function JsonPort(v: string): int {
    if AtoiValue(v) > 0 then AtoiValue(v) else 443
  }

  /** A port text that passed the guard means the same number in links and in the client
      JSON unless it carries a plus sign (and is not 443, the fallback). */
  lemma PortsAgreeExactly(v: string)
    requires v != "" && PortOrEmpty(v) == v
    ensures JsonPort(v) == PortNumber(v) <==> v[0] != '+' || PortNumber(v) == 443
  {
    if v[0] == '+' || v[0] == '-' {
      assert !AllDigits(v);
    } else {
      assert AllDigits(v);
    }
  }

  /** The failing family is not empty: "+8443" is printed in links and read as 443. */
  lemma PlusPortDiverges()
    ensures PortOrEmpty("+8443") == "+8443" && PortNumber("+8443") == 8443 && JsonPort("+8443") == 443
  {
    assert "+8443"[1..] == "8443";
    assert "8443"[..3] == "844" && "844"[..2] == "84" && "84"[..1] == "8" && "8"[..0] == "";
    assert Value("8443") == 8443;
    assert !IsDigit("+8443"[0]);
  }

  /** A port of plain digits is kept exactly when it denotes 1 to 65535. */
  lemma PortKeptExactly(v: string)
    requires v != "" && AllDigits(v)
    ensures PortOrEmpty(v) == (if 1 <= Value(v) <= 65535 then v else "")
    ensures 1 <= Value(v) <= 65535 ==> PortNumber(v) == Value(v) && JsonPort(v) == Value(v)
  {
    assert IsDigit(v[0]);
    if Value(v) <= MAX_INT64 { StrconvOfDigits(v, false); }
    if 1 <= Value(v) <= 65535 { assert PortOrEmpty(v) == v; PortsAgreeExactly(v); }
  }
}
