/** Byte-level encodings: UTF-8, percent-encoding as `pyQuote` prints it
    (internal/xray/links.go; sections 2.1 and 2.3 of RFC 3986), base64 (section 4 of
    RFC 4648) and newline-separated lists. Text is a sequence of Unicode characters. */
module Encoding {
  import opened Wrappers

  type Byte = b: int | 0 <= b < 256
  type Bytes = seq<Byte>

  // ---------- UTF-8 ----------

  function Utf8Char(c: char): (b: Bytes)
    ensures 1 <= |b| <= 4
  {
    var n := c as int;
    if n < 0x80 then [n]
    else if n < 0x800 then [0xC0 + n / 0x40, 0x80 + n % 0x40]
    else if n < 0x10000 then [0xE0 + n / 0x1000, 0x80 + n / 0x40 % 0x40, 0x80 + n % 0x40]
    else [0xF0 + n / 0x40000, 0x80 + n / 0x1000 % 0x40, 0x80 + n / 0x40 % 0x40, 0x80 + n % 0x40]
  }

  function Utf8(s: string): Bytes {
    if |s| == 0 then [] else Utf8Char(s[0]) + Utf8(s[1..])
  }

  predicate IsCont(b: Byte) { 0x80 <= b < 0xC0 }

  predicate IsScalar(n: int) { 0 <= n < 0xD800 || 0xE000 <= n < 0x11_0000 }

  /** The first character of `b` and its length in bytes; overlong forms, surrogates and
      stray continuation bytes are malformed. */
  function Utf8Head(b: Bytes): (r: Option<(char, nat)>)
    ensures r.Some? ==> 1 <= r.value.1 <= |b|
  {
    if |b| >= 1 && b[0] < 0x80 then Some((b[0] as char, 1))
    else if |b| >= 2 && 0xC2 <= b[0] < 0xE0 && IsCont(b[1]) then
      var x: int, y: int := b[0], b[1];
      Some((((x - 0xC0) * 0x40 + (y - 0x80)) as char, 2))
    else if |b| >= 3 && 0xE0 <= b[0] < 0xF0 && IsCont(b[1]) && IsCont(b[2]) then
      var x: int, y: int, z: int := b[0], b[1], b[2];
      var n := (x - 0xE0) * 0x1000 + (y - 0x80) * 0x40 + (z - 0x80);
      if n >= 0x800 && IsScalar(n) then Some((n as char, 3)) else None
    else if |b| >= 4 && 0xF0 <= b[0] < 0xF5 && IsCont(b[1]) && IsCont(b[2]) && IsCont(b[3]) then
      var w: int, x: int, y: int, z: int := b[0], b[1], b[2], b[3];
      var n := (w - 0xF0) * 0x40000 + (x - 0x80) * 0x1000 + (y - 0x80) * 0x40 + (z - 0x80);
      if n >= 0x10000 && IsScalar(n) then Some((n as char, 4)) else None
    else None
  }

  function Utf8Decode(b: Bytes): Option<string>
    decreases |b|
  {
    if |b| == 0 then Some("")
    else match Utf8Head(b)
      case None => None
      case Some((c, k)) =>
        match Utf8Decode(b[k..])
        case None => None
        case Some(rest) => Some([c] + rest)
  }

  lemma Utf8HeadOfChar(c: char, rest: Bytes)
    ensures Utf8Head(Utf8Char(c) + rest) == Some((c, |Utf8Char(c)|))
  {
    var n := c as int;
    assert n == 0x40 * (n / 0x40) + n % 0x40;
    assert n / 0x40 == 0x40 * (n / 0x1000) + n / 0x40 % 0x40;
    assert n / 0x1000 == 0x40 * (n / 0x40000) + n / 0x1000 % 0x40;
  }

  lemma {:induction false} Utf8RoundTrip(s: string)
    ensures Utf8Decode(Utf8(s)) == Some(s)
  {
    if |s| > 0 {
      Utf8RoundTrip(s[1..]);
      Utf8HeadOfChar(s[0], Utf8(s[1..]));
      assert (Utf8Char(s[0]) + Utf8(s[1..]))[|Utf8Char(s[0])|..] == Utf8(s[1..]);
      assert [s[0]] + s[1..] == s;
    }
  }

  // ---------- percent-encoding ----------

  /** Unreserved characters of RFC 3986, section 2.3. */
  predicate IsUnreserved(b: Byte) {
    || 'A' as int <= b <= 'Z' as int || 'a' as int <= b <= 'z' as int || '0' as int <= b <= '9' as int
    || b == '-' as int || b == '_' as int || b == '.' as int || b == '~' as int
  }

  function UpperHex(v: int): (c: char)
    requires 0 <= v < 16
    ensures HexValue(c) == Some(v)
  {
    if v < 10 then ('0' as int + v) as char else ('A' as int + v - 10) as char
  }

  function HexValue(c: char): (r: Option<int>)
    ensures r.Some? ==> 0 <= r.value < 16
  {
    if '0' <= c <= '9' then Some(c as int - '0' as int)
    else if 'A' <= c <= 'F' then Some(c as int - 'A' as int + 10)
    else if 'a' <= c <= 'f' then Some(c as int - 'a' as int + 10)
    else None
  }

  function QuoteByte(b: Byte): string {
    if IsUnreserved(b) then [b as char] else ['%', UpperHex(b / 16), UpperHex(b % 16)]
  }

  function QuoteBytes(b: Bytes): string {
    if |b| == 0 then "" else QuoteBytes(b[..|b| - 1]) + QuoteByte(b[|b| - 1])
  }

  function Quote(s: string): string { QuoteBytes(Utf8(s)) }

  /** `pyQuote`: one pass over the bytes, appending to a builder. */
  method PyQuote(s: string) returns (r: string)
    ensures r == Quote(s)
  {
    var b := Utf8(s);
    r := "";
    for i := 0 to |b|
      invariant r == QuoteBytes(b[..i])
    {
      var c := b[i];
      assert b[..i + 1][..i] == b[..i];
      if IsUnreserved(c) {
        r := r + [c as char];
      } else {
        r := r + ['%'];
        r := r + [UpperHex(c / 16)];
        r := r + [UpperHex(c % 16)];
      }
    }
    assert b[..|b|] == b;
  }

  /** The bytes a percent-encoded text denotes; `None` on a broken escape. */
  function Unquote(s: string): Option<Bytes> {
    if |s| == 0 then Some([])
    else if s[0] != '%' then
      match Unquote(s[1..])
      case None => None
      case Some(rest) => Some(Utf8Char(s[0]) + rest)
    else if |s| < 3 || HexValue(s[1]).None? || HexValue(s[2]).None? then None
    else
      match Unquote(s[3..])
      case None => None
      case Some(rest) => Some([HexValue(s[1]).value * 16 + HexValue(s[2]).value] + rest)
  }

  /** `decodeURIComponent`. */
  function DecodeURIComponent(s: string): Option<string> {
    match Unquote(s)
    case None => None
    case Some(b) => Utf8Decode(b)
  }

  lemma UnquoteByte(b: Byte, t: string)
    requires Unquote(t).Some?
    ensures Unquote(QuoteByte(b) + t) == Some([b] + Unquote(t).value)
  {
    var s := QuoteByte(b) + t;
    if IsUnreserved(b) {
      assert s[1..] == t && s[0] == b as char;
    } else {
      var hi, lo := UpperHex(b / 16), UpperHex(b % 16);
      assert QuoteByte(b) == ['%', hi, lo];
      assert s[0] == '%' && s[1] == hi && s[2] == lo && s[3..] == t;
      SplitByte(b);
    }
  }

  lemma {:induction false} QuoteBytesHead(b: Bytes)
    requires |b| > 0
    ensures QuoteBytes(b) == QuoteByte(b[0]) + QuoteBytes(b[1..])
  {
    hide QuoteByte;
    var i := |b| - 1;
    if i == 0 {
      assert b[..0] == [] && b[1..] == [];
    } else {
      QuoteBytesHead(b[..i]);
      assert b[..i][1..] == b[1..][..i - 1];
      assert b[1..][i - 1] == b[i] && b[..i][0] == b[0];
    }
  }

  lemma {:induction false} UnquoteQuote(b: Bytes)
    ensures Unquote(QuoteBytes(b)) == Some(b)
  {
    if |b| > 0 {
      QuoteBytesHead(b);
      UnquoteQuote(b[1..]);
      UnquoteByte(b[0], QuoteBytes(b[1..]));
      assert [b[0]] + b[1..] == b;
    }
  }

  /** Percent-encoding is invertible on every text, whatever its script. */
  lemma QuoteRoundTrip(s: string)
    ensures DecodeURIComponent(Quote(s)) == Some(s)
  {
    UnquoteQuote(Utf8(s));
    Utf8RoundTrip(s);
  }

  /** The characters `pyQuote` can emit: no delimiter of a URI and no control character. */
  predicate QuoteSafe(c: char) {
    || 'A' <= c <= 'Z' || 'a' <= c <= 'z' || '0' <= c <= '9'
    || c == '-' || c == '_' || c == '.' || c == '~' || c == '%'
  }

  lemma {:induction false} QuoteEmitsSafe(b: Bytes)
    ensures forall i :: 0 <= i < |QuoteBytes(b)| ==> QuoteSafe(QuoteBytes(b)[i])
  {
    if |b| > 0 {
      QuoteEmitsSafe(b[..|b| - 1]);
      var last := QuoteByte(b[|b| - 1]);
      assert forall i :: 0 <= i < |last| ==> QuoteSafe(last[i]);
    }
  }

  // ---------- base64 ----------

  function Base64Char(v: int): (c: char)
    requires 0 <= v < 64
    ensures Base64Value(c) == Some(v)
  {
    if v < 26 then ('A' as int + v) as char
    else if v < 52 then ('a' as int + v - 26) as char
    else if v < 62 then ('0' as int + v - 52) as char
    else if v == 62 then '+' else '/'
  }

  function Base64Value(c: char): (r: Option<int>)
    ensures r.Some? ==> 0 <= r.value < 64 && c != '=' && c != '\n'
  {
    if 'A' <= c <= 'Z' then Some(c as int - 'A' as int)
    else if 'a' <= c <= 'z' then Some(c as int - 'a' as int + 26)
    else if '0' <= c <= '9' then Some(c as int - '0' as int + 52)
    else if c == '+' then Some(62) else if c == '/' then Some(63) else None
  }

  /** One group of one to three bytes as four characters, padded. */
  function EncodeGroup(g: Bytes): (s: string)
    requires 1 <= |g| <= 3
    ensures |s| == 4
  {
    if |g| == 1 then [Base64Char(g[0] / 4), Base64Char(g[0] % 4 * 16), '=', '=']
    else if |g| == 2 then
      [Base64Char(g[0] / 4), Base64Char(g[0] % 4 * 16 + g[1] / 16), Base64Char(g[1] % 16 * 4), '=']
    else
      [Base64Char(g[0] / 4), Base64Char(g[0] % 4 * 16 + g[1] / 16),
       Base64Char(g[1] % 16 * 4 + g[2] / 64), Base64Char(g[2] % 64)]
  }

  /** Standard base64 with padding. */
  function Base64(b: Bytes): string {
    if |b| == 0 then "" else if |b| <= 3 then EncodeGroup(b) else EncodeGroup(b[..3]) + Base64(b[3..])
  }

  function DecodeGroup(s: string): (r: Option<Bytes>)
    requires |s| == 4
    ensures r.Some? ==> 1 <= |r.value| <= 3
  {
    var v0, v1, v2, v3 := Base64Value(s[0]), Base64Value(s[1]), Base64Value(s[2]), Base64Value(s[3]);
    if v0.None? || v1.None? then None
    else if s[2] == '=' && s[3] == '=' then Some([v0.value * 4 + v1.value / 16])
    else if v2.None? then None
    else if s[3] == '=' then Some([v0.value * 4 + v1.value / 16, v1.value % 16 * 16 + v2.value / 4])
    else if v3.None? then None
    else Some([v0.value * 4 + v1.value / 16, v1.value % 16 * 16 + v2.value / 4, v2.value % 4 * 64 + v3.value])
  }

  /** Only the last group may be padded. */
  function Base64Decode(s: string): Option<Bytes> {
    if |s| == 0 then Some([])
    else if |s| < 4 then None
    else match DecodeGroup(s[..4])
      case None => None
      case Some(g) =>
        if |s| == 4 then Some(g)
        else if |g| < 3 then None
        else match Base64Decode(s[4..])
          case None => None
          case Some(rest) => Some(g + rest)
  }

  /** Splitting a byte after its first two, four or six bits loses nothing. */
  lemma SplitByte(x: Byte)
    ensures 0 <= x / 4 < 64 && x / 4 * 4 + x % 4 == x
    ensures 0 <= x / 16 < 16 && x / 16 * 16 + x % 16 == x
    ensures 0 <= x / 64 < 4 && x / 64 * 64 + x % 64 == x
  {
  }

  lemma JoinSextet(hi: int, lo: int, k: int)
    requires k == 4 || k == 16
    requires 0 <= lo < k
    ensures (hi * k + lo) / k == hi && (hi * k + lo) % k == lo
  {
  }

  lemma DecodeSextets(v0: int, v1: int, v2: int, v3: int)
    requires 0 <= v0 < 64 && 0 <= v1 < 64 && 0 <= v2 < 64 && 0 <= v3 < 64
    ensures DecodeGroup([Base64Char(v0), Base64Char(v1), Base64Char(v2), Base64Char(v3)])
         == Some([v0 * 4 + v1 / 16, v1 % 16 * 16 + v2 / 4, v2 % 4 * 64 + v3])
    ensures DecodeGroup([Base64Char(v0), Base64Char(v1), Base64Char(v2), '='])
         == Some([v0 * 4 + v1 / 16, v1 % 16 * 16 + v2 / 4])
    ensures DecodeGroup([Base64Char(v0), Base64Char(v1), '=', '=']) == Some([v0 * 4 + v1 / 16])
  {
    hide Base64Char, Base64Value;
  }

  /** Four sextets carry three bytes. */
  lemma Recombine(x: Byte, y: Byte, z: Byte)
    ensures
      var v1, v2 := x % 4 * 16 + y / 16, y % 16 * 4 + z / 64;
      && 0 <= v1 < 64 && 0 <= v2 < 64
      && x / 4 * 4 + v1 / 16 == x && v1 % 16 * 16 + v2 / 4 == y && v2 % 4 * 64 + z % 64 == z
  {
    SplitByte(x); SplitByte(y); SplitByte(z);
    JoinSextet(x % 4, y / 16, 16);
    JoinSextet(y % 16, z / 64, 4);
  }

  lemma EncodeForms(x: Byte, y: Byte, z: Byte)
    ensures EncodeGroup([x]) == [Base64Char(x / 4), Base64Char(x % 4 * 16), '=', '=']
    ensures EncodeGroup([x, y]) == [Base64Char(x / 4), Base64Char(x % 4 * 16 + y / 16), Base64Char(y % 16 * 4), '=']
    ensures EncodeGroup([x, y, z]) == [Base64Char(x / 4), Base64Char(x % 4 * 16 + y / 16),
                                       Base64Char(y % 16 * 4 + z / 64), Base64Char(z % 64)]
  {
    hide Base64Char;
  }

  lemma FullGroup(x: Byte, y: Byte, z: Byte)
    ensures DecodeGroup(EncodeGroup([x, y, z])) == Some([x, y, z])
  {
    hide DecodeGroup, EncodeGroup, Base64Char;
    Recombine(x, y, z);
    EncodeForms(x, y, z);
    DecodeSextets(x / 4, x % 4 * 16 + y / 16, y % 16 * 4 + z / 64, z % 64);
  }

  lemma ShortGroups(x: Byte, y: Byte)
    ensures DecodeGroup(EncodeGroup([x])) == Some([x])
    ensures DecodeGroup(EncodeGroup([x, y])) == Some([x, y])
  {
    hide DecodeGroup, EncodeGroup, Base64Char;
    EncodeForms(x, y, 0);
    Recombine(x, 0, 0);
    Recombine(x, y, 0);
    DecodeSextets(x / 4, x % 4 * 16, 0, 0);
    DecodeSextets(x / 4, x % 4 * 16 + y / 16, y % 16 * 4, 0);
  }

  lemma GroupRoundTrip(g: Bytes)
    requires 1 <= |g| <= 3
    ensures DecodeGroup(EncodeGroup(g)) == Some(g)
  {
    if |g| == 1 {
      ShortGroups(g[0], 0);
      assert g == [g[0]];
    } else if |g| == 2 {
      ShortGroups(g[0], g[1]);
      assert g == [g[0], g[1]];
    } else {
      FullGroup(g[0], g[1], g[2]);
      assert g == [g[0], g[1], g[2]];
    }
  }

  lemma {:induction false} Base64RoundTrip(b: Bytes)
    ensures Base64Decode(Base64(b)) == Some(b)
  {
    if |b| == 0 {
    } else if |b| <= 3 {
      GroupRoundTrip(b);
      assert EncodeGroup(b)[..4] == EncodeGroup(b);
    } else {
      Base64RoundTrip(b[3..]);
      GroupRoundTrip(b[..3]);
      assert Base64(b)[..4] == EncodeGroup(b[..3]) && Base64(b)[4..] == Base64(b[3..]);
      assert b == b[..3] + b[3..];
    }
  }

  lemma {:induction false} Base64NewlineFree(b: Bytes)
    ensures '\n' !in Base64(b)
  {
    if |b| > 3 { Base64NewlineFree(b[3..]); }
  }

  // ---------- separated lists ----------

  function Join(parts: seq<string>, sep: char): string {
    if |parts| == 0 then ""
    else if |parts| == 1 then parts[0]
    else parts[0] + [sep] + Join(parts[1..], sep)
  }

  function Split(s: string, sep: char): (parts: seq<string>)
    ensures |parts| >= 1
  {
    if |s| == 0 then [""]
    else
      var rest := Split(s[1..], sep);
      if s[0] == sep then [""] + rest else [[s[0]] + rest[0]] + rest[1..]
  }

  function Count(s: string, c: char): nat {
    if |s| == 0 then 0 else (if s[0] == c then 1 else 0) + Count(s[1..], c)
  }

  lemma {:induction false} CountZero(s: string, c: char)
    ensures Count(s, c) == 0 <==> c !in s
  {
    if |s| > 0 {
      CountZero(s[1..], c);
      assert s == [s[0]] + s[1..];
    }
  }

  lemma {:induction false} SplitCount(s: string, sep: char)
    ensures |Split(s, sep)| == Count(s, sep) + 1
  {
    if |s| > 0 { SplitCount(s[1..], sep); }
  }

  lemma {:induction false} CountConcat(a: string, b: string, c: char)
    ensures Count(a + b, c) == Count(a, c) + Count(b, c)
  {
    if |a| == 0 {
      assert a + b == b;
    } else {
      CountConcat(a[1..], b, c);
      assert (a + b)[1..] == a[1..] + b;
    }
  }

  /** A joined list has one separator per gap, plus those inside its parts. */
  lemma {:induction false} CountJoin(parts: seq<string>, sep: char)
    requires |parts| >= 1
    ensures Count(Join(parts, sep), sep) >= |parts| - 1
    ensures Count(Join(parts, sep), sep) == |parts| - 1 <==> forall i :: 0 <= i < |parts| ==> sep !in parts[i]
  {
    CountZero(parts[0], sep);
    if |parts| > 1 {
      var rest := parts[1..];
      CountJoin(rest, sep);
      CountConcat(parts[0] + [sep], Join(rest, sep), sep);
      CountConcat(parts[0], [sep], sep);
      assert Count([sep], sep) == 1;
      assert parts == [parts[0]] + rest;
    }
  }

  lemma {:induction false} SplitPrefix(a: string, b: string, sep: char)
    requires sep !in a
    ensures Split(a + [sep] + b, sep) == [a] + Split(b, sep)
  {
    if |a| == 0 {
      assert (a + [sep] + b)[1..] == b;
    } else {
      SplitPrefix(a[1..], b, sep);
      assert (a + [sep] + b)[1..] == a[1..] + [sep] + b;
      assert [a[0]] + a[1..] == a;
    }
  }

  lemma {:induction false} SplitClean(a: string, sep: char)
    requires sep !in a
    ensures Split(a, sep) == [a]
  {
    if |a| > 0 {
      SplitClean(a[1..], sep);
      assert [a[0]] + a[1..] == a;
    }
  }

  lemma {:induction false} SplitOfJoin(parts: seq<string>, sep: char)
    requires |parts| >= 1 && forall i :: 0 <= i < |parts| ==> sep !in parts[i]
    ensures Split(Join(parts, sep), sep) == parts
  {
    if |parts| == 1 {
      SplitClean(parts[0], sep);
    } else {
      SplitOfJoin(parts[1..], sep);
      SplitPrefix(parts[0], Join(parts[1..], sep), sep);
    }
  }

  /** Splitting returns exactly the joined parts for non-empty lists of separator-free
      parts, and for no other list. */
  lemma JoinSplitExactly(parts: seq<string>, sep: char)
    ensures Split(Join(parts, sep), sep) == parts
       <==> |parts| >= 1 && forall i :: 0 <= i < |parts| ==> sep !in parts[i]
  {
    if |parts| >= 1 {
      CountJoin(parts, sep);
      SplitCount(Join(parts, sep), sep);
      if forall i :: 0 <= i < |parts| ==> sep !in parts[i] { SplitOfJoin(parts, sep); }
    }
  }

  // ---------- alphabets ----------

  /** The alphabet of table 1 in section 4 of RFC 4648, and upper-case hexadecimal digits. */
  lemma Alphabets(v: int)
    ensures 0 <= v < 26 ==> Base64Char(v) == ('A' as int + v) as char
    ensures 26 <= v < 52 ==> Base64Char(v) == ('a' as int + (v - 26)) as char
    ensures 52 <= v < 62 ==> Base64Char(v) == ('0' as int + (v - 52)) as char
    ensures v == 62 ==> Base64Char(v) == '+'
    ensures v == 63 ==> Base64Char(v) == '/'
    ensures 0 <= v < 10 ==> UpperHex(v) == ('0' as int + v) as char
    ensures 10 <= v < 16 ==> UpperHex(v) == ('A' as int + (v - 10)) as char
  {
  }

  /** Exactly the unreserved characters of section 2.3 of RFC 3986 are left as they are. */
  lemma LeftAsIsExactly(b: Byte)
    ensures var c := b as char;
            |QuoteByte(b)| == 1 <==>
              'A' <= c <= 'Z' || 'a' <= c <= 'z' || '0' <= c <= '9' || c == '-' || c == '_' || c == '.' || c == '~'
    ensures |QuoteByte(b)| == 1 ==> QuoteByte(b) == [b as char]
  {
  }
}
