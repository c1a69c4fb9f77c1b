/** Reading links back: any reader that follows the URI delimiters recovers every field of a
    printed link, `linkHost` and `linkLabel` (web/src/lib/panel/format.ts) among them, and a
    decoded subscription body is the list of links. */
module LinkText {
  import opened Wrappers
  import opened Decimal
  import opened Encoding
  import opened Links

  // ---------- delimiters ----------

  /** Text before and after the first `c`. */
  function Cut(s: string, c: char): Option<(string, string)> {
    if s == "" then None
    else if s[0] == c then Some(("", s[1..]))
    else match Cut(s[1..], c)
      case None => None
      case Some((a, b)) => Some(([s[0]] + a, b))
  }

  lemma {:induction false} CutAt(a: string, c: char, b: string)
    requires c !in a
    ensures Cut(a + [c] + b, c) == Some((a, b))
  {
    var s := a + [c] + b;
    if a == "" {
      assert s[1..] == b;
    } else {
      CutAt(a[1..], c, b);
      assert s[1..] == a[1..] + [c] + b;
      assert [a[0]] + a[1..] == a;
    }
  }

  predicate Unreserved(s: string) { forall i :: 0 <= i < |s| ==> QuoteSafe(s[i]) && s[i] != '%' }

  /** Percent-encoding leaves unreserved text alone. */
  lemma {:induction false} QuoteUnreserved(s: string)
    requires Unreserved(s)
    ensures Quote(s) == s
  {
    if s != "" {
      QuoteUnreserved(s[1..]);
      var b := Utf8(s);
      assert Utf8Char(s[0]) == [s[0] as int];
      assert b[1..] == Utf8(s[1..]);
      QuoteBytesHead(b);
      assert s == [s[0]] + s[1..];
    }
  }

  lemma QuoteHasNo(s: string, c: char)
    requires !QuoteSafe(c)
    ensures c !in Quote(s)
  {
    QuoteEmitsSafe(Utf8(s));
  }

  // ---------- parameters ----------

  /** A parameter printed without encoding is made of unreserved characters. */
  predicate ParamOk(p: Param) { p.Plain? ==> Unreserved(p.value) }

  predicate ParamsOk(ps: seq<Param>) { forall i :: 0 <= i < |ps| ==> ParamOk(ps[i]) }

  predicate LetterText(s: string) { forall i :: 0 <= i < |s| ==> 'a' <= s[i] <= 'z' || 'A' <= s[i] <= 'Z' }

  lemma FieldLetters(f: Field)
    ensures LetterText(FieldText(f))
  {
    match f
    case Encryption => case Security => case Sni => case Fp => case Pbk => case Sid => case Alpn => case Type =>
    case Host => case Path => case Service => case Mode => case Flow => case HeaderType => case Spx =>
  }

  lemma ParamTextShape(p: Param)
    requires ParamOk(p)
    ensures ParamText(p) == FieldText(p.field) + ['='] + Quote(p.value)
    ensures '=' !in FieldText(p.field)
    ensures forall c :: c in ParamText(p) ==> QuoteSafe(c) || c == '='
  {
    FieldLetters(p.field);
    if p.Plain? { QuoteUnreserved(p.value); }
    QuoteEmitsSafe(Utf8(p.value));
  }

  /** One `key=value` of a query, decoded. */
  function ReadParam(s: string): Option<(string, string)> {
    match Cut(s, '=')
    case None => None
    case Some((k, v)) =>
      match DecodeURIComponent(v)
      case None => None
      case Some(d) => Some((k, d))
  }

  function ReadParams(parts: seq<string>): seq<Option<(string, string)>> {
    seq(|parts|, i requires 0 <= i < |parts| => ReadParam(parts[i]))
  }

  function ParamPairs(ps: seq<Param>): seq<Option<(string, string)>> {
    seq(|ps|, i requires 0 <= i < |ps| => Some((FieldText(ps[i].field), ps[i].value)))
  }

  lemma ReadParamText(p: Param)
    requires ParamOk(p)
    ensures ReadParam(ParamText(p)) == Some((FieldText(p.field), p.value))
  {
    ParamTextShape(p);
    CutAt(FieldText(p.field), '=', Quote(p.value));
    QuoteRoundTrip(p.value);
  }

  /** The characters of a printed query. */
  predicate QueryChar(c: char) { QuoteSafe(c) || c == '=' || c == '&' }

  lemma {:induction false} JoinChars(parts: seq<string>)
    requires forall i :: 0 <= i < |parts| ==> forall c :: c in parts[i] ==> QueryChar(c)
    ensures forall c :: c in Join(parts, '&') ==> QueryChar(c)
  {
    if |parts| > 1 {
      JoinChars(parts[1..]);
    }
  }

  lemma QueryShape(ps: seq<Param>)
    requires ParamsOk(ps)
    ensures forall c :: c in QueryText(ps) ==> QueryChar(c)
    ensures |ps| >= 1 ==> ReadParams(Split(QueryText(ps), '&')) == ParamPairs(ps)
  {
    var parts := ParamTexts(ps);
    forall i | 0 <= i < |parts| ensures '&' !in parts[i] && forall c :: c in parts[i] ==> QueryChar(c) {
      ParamTextShape(ps[i]);
    }
    JoinChars(parts);
    if |ps| >= 1 {
      SplitOfJoin(parts, '&');
      forall i | 0 <= i < |ps| ensures ReadParam(parts[i]) == Some((FieldText(ps[i].field), ps[i].value)) {
        ReadParamText(ps[i]);
      }
    }
  }

  // ---------- links ----------

  datatype Parsed = Parsed(scheme: string, id: string, host: string, port: string,
                           query: seq<Option<(string, string)>>, name: Option<string>)

  /** A reader that cuts at the delimiters of a share link. */
  function ParseLink(s: string): Option<Parsed> {
    match Cut(s, ':')
    case None => None
    case Some((scheme, r0)) =>
      if !("//" <= r0) then None
      else match Cut(r0[2..], '@')
        case None => None
        case Some((id, r1)) => match Cut(r1, ':')
          case None => None
          case Some((host, r2)) => match Cut(r2, '?')
            case None => None
            case Some((port, r3)) => match Cut(r3, '#')
              case None => None
              case Some((query, frag)) =>
                Some(Parsed(scheme, id, host, port, ReadParams(Split(query, '&')), DecodeURIComponent(frag)))
  }

  /** No part contains the delimiter that ends it. */
  predicate Printable(s: Share) {
    s.Uri? && ':' !in s.scheme && '@' !in s.id && ':' !in s.host && '?' !in s.port && ParamsOk(s.params) && |s.params| >= 1
  }

  /** The text behind the scheme, nested the way a reader takes it apart. */
  function AfterScheme(id: string, host: string, port: string, query: string, frag: string): string {
    "//" + (id + ['@'] + (host + [':'] + (port + ['?'] + (query + ['#'] + frag))))
  }

  lemma Reassociate(scheme: string, id: string, host: string, port: string, query: string, frag: string)
    ensures scheme + "://" + id + "@" + host + ":" + port + "?" + query + "#" + frag
         == scheme + [':'] + AfterScheme(id, host, port, query, frag)
  {
  }

  lemma ParseNested(scheme: string, id: string, host: string, port: string, query: string, frag: string)
    requires ':' !in scheme && '@' !in id && ':' !in host && '?' !in port && '#' !in query
    ensures ParseLink(scheme + [':'] + AfterScheme(id, host, port, query, frag))
         == Some(Parsed(scheme, id, host, port, ReadParams(Split(query, '&')), DecodeURIComponent(frag)))
  {
    hide Cut, Split, ReadParams, DecodeURIComponent;
    var r3 := query + ['#'] + frag;
    var r2 := port + ['?'] + r3;
    var r1 := host + [':'] + r2;
    var r := id + ['@'] + r1;
    CutAt(query, '#', frag);
    CutAt(port, '?', r3);
    CutAt(host, ':', r2);
    CutAt(id, '@', r1);
    CutAt(scheme, ':', "//" + r);
    assert ("//" + r)[2..] == r;
  }

  /** Everything a link says can be read back from its text. */
  lemma LinkRoundTrip(s: Share, json: VMessFields -> string)
    requires Printable(s)
    ensures ParseLink(Text(s, json)) == Some(Parsed(s.scheme, s.id, s.host, s.port, ParamPairs(s.params), Some(s.name)))
  {
    hide Cut, Split, ReadParams, DecodeURIComponent, Quote, QueryText, AfterScheme;
    var query, frag := QueryText(s.params), Quote(s.name);
    QueryShape(s.params);
    QuoteRoundTrip(s.name);
    Reassociate(s.scheme, s.id, s.host, s.port, query, frag);
    ParseNested(s.scheme, s.id, s.host, s.port, query, frag);
  }

  // ---------- format.ts ----------

  const NO_HOST := "\U{2014}"
  const NO_LABEL := "\U{06A9}\U{0627}\U{0646}\U{0641}\U{06CC}\U{06AF}"

  predicate Lower(c: char) { 'a' <= c <= 'z' }
  predicate UserChar(c: char) { c != '@' && c != '/' }
  predicate HostChar(c: char) { c != ':' && c != '/' && c != '?' && c != '#' }
  predicate Stop(c: char) { c == '/' || c == '?' || c == '#' }

  predicate Every(s: string, p: char -> bool) { forall i :: 0 <= i < |s| ==> p(s[i]) }

  /** One way in which the expression of `linkHost` matches:
      ^[a-z]+://[^@/]+@([^:/?#]+):(\d+)(?:[/?#]|$) */
  predicate Matches(uri: string, scheme: string, user: string, host: string, port: string, rest: string) {
    && uri == scheme + [':', '/', '/'] + user + ['@'] + host + [':'] + port + rest
    && |scheme| > 0 && Every(scheme, Lower) && |user| > 0 && Every(user, UserChar)
    && |host| > 0 && Every(host, HostChar) && |port| > 0 && Every(port, IsDigit)
    && (rest == "" || Stop(rest[0]))
  }

  /** The longest prefix of characters satisfying `p`. */
  function Span(s: string, p: char -> bool): (n: nat)
    ensures n <= |s| && Every(s[..n], p) && (n < |s| ==> !p(s[n]))
  {
    if s == "" || !p(s[0]) then 0
    else
      var n := Span(s[1..], p);
      assert s[..n + 1] == [s[0]] + s[1..][..n];
      n + 1
  }

  lemma {:induction false} SpanAt(a: string, b: string, p: char -> bool)
    requires Every(a, p) && (b == "" || !p(b[0]))
    ensures Span(a + b, p) == |a|
  {
    if a == "" {
      assert a + b == b;
    } else {
      SpanAt(a[1..], b, p);
      assert (a + b)[1..] == a[1..] + b;
    }
  }

  /** `linkHost` on links that are not VMess: host and port, or a dash. */
  function LinkHost(uri: string): string {
    match HostPort(uri)
    case Some((host, port)) => host + ":" + port
    case None => NO_HOST
  }

  /** A non-empty run of `p` characters ended by `d`, and the text behind it. */
  function Run(s: string, p: char -> bool, d: char): Option<(string, string)> {
    var n := Span(s, p);
    if n == 0 || n == |s| || s[n] != d then None else Some((s[..n], s[n + 1..]))
  }

  lemma RunExactly(s: string, p: char -> bool, d: char, a: string, b: string)
    requires !p(d)
    ensures Run(s, p, d) == Some((a, b)) <==> s == a + [d] + b && |a| > 0 && Every(a, p)
  {
    if s == a + [d] + b && |a| > 0 && Every(a, p) {
      SpanAt(a, [d] + b, p);
      assert s == a + ([d] + b);
      assert s[..|a|] == a && s[|a| + 1..] == b;
    }
    var n := Span(s, p);
    if Run(s, p, d).Some? {
      assert s == s[..n] + [d] + s[n + 1..];
    }
  }

  /** Digits up to the end or a stop character. */
  function PortOf(s: string): Option<string> {
    var n := Span(s, IsDigit);
    if n == 0 || (n < |s| && !Stop(s[n])) then None else Some(s[..n])
  }

  predicate PortMatch(s: string, port: string, rest: string) {
    s == port + rest && |port| > 0 && Every(port, IsDigit) && (rest == "" || Stop(rest[0]))
  }

  lemma PortSound(s: string)
    requires PortOf(s).Some?
    ensures PortMatch(s, PortOf(s).value, s[|PortOf(s).value|..])
  {
    var n := Span(s, IsDigit);
    assert s == s[..n] + s[n..];
  }

  lemma PortComplete(s: string, port: string, rest: string)
    requires PortMatch(s, port, rest)
    ensures PortOf(s) == Some(port)
  {
    SpanAt(port, rest, IsDigit);
    assert s[..|port|] == port;
  }

  function HostPort(uri: string): Option<(string, string)> {
    match Run(uri, Lower, ':')
    case None => None
    case Some((_, r0)) =>
      if !(['/', '/'] <= r0) then None
      else match Run(r0[2..], UserChar, '@')
        case None => None
        case Some((_, r1)) => match Run(r1, HostChar, ':')
          case None => None
          case Some((host, r2)) => match PortOf(r2)
            case None => None
            case Some(port) => Some((host, port))
  }

  /** The scan in front of the port. */
  lemma HostPortOf(uri: string, scheme: string, user: string, host: string, r2: string)
    requires uri == scheme + [':', '/', '/'] + user + ['@'] + host + [':'] + r2
    requires |scheme| > 0 && Every(scheme, Lower) && |user| > 0 && Every(user, UserChar) && |host| > 0 && Every(host, HostChar)
    ensures HostPort(uri) == match PortOf(r2) case None => None case Some(port) => Some((host, port))
  {
    hide Run, PortOf;
    var r1 := host + [':'] + r2;
    var r0 := user + ['@'] + r1;
    assert uri == scheme + [':'] + (['/', '/'] + r0);
    RunExactly(uri, Lower, ':', scheme, ['/', '/'] + r0);
    assert (['/', '/'] + r0)[2..] == r0;
    RunExactly(r0, UserChar, '@', user, r1);
    RunExactly(r1, HostChar, ':', host, r2);
  }

  /** The scan finds the host and port of a match, and there is only one. */
  lemma HostPortComplete(uri: string, scheme: string, user: string, host: string, port: string, rest: string)
    requires Matches(uri, scheme, user, host, port, rest)
    ensures HostPort(uri) == Some((host, port))
  {
    hide HostPort, PortOf, Every;
    var r2 := port + rest;
    assert uri == scheme + [':', '/', '/'] + user + ['@'] + host + [':'] + r2;
    HostPortOf(uri, scheme, user, host, r2);
    PortComplete(r2, port, rest);
  }

  /** What the scan finds is a match. */
  lemma HostPortSound(uri: string) returns (scheme: string, user: string, rest: string)
    requires HostPort(uri).Some?
    ensures Matches(uri, scheme, user, HostPort(uri).value.0, HostPort(uri).value.1, rest)
  {
    hide Run, PortOf;
    var (a, r0) := Run(uri, Lower, ':').value;
    RunExactly(uri, Lower, ':', a, r0);
    var (b, r1) := Run(r0[2..], UserChar, '@').value;
    RunExactly(r0[2..], UserChar, '@', b, r1);
    var (host, r2) := Run(r1, HostChar, ':').value;
    RunExactly(r1, HostChar, ':', host, r2);
    PortSound(r2);
    scheme, user, rest := a, b, r2[|PortOf(r2).value|..];
    assert r0 == ['/', '/'] + r0[2..];
    hide HostPort, Every, Stop;
    Glue(a, b, host, PortOf(r2).value, rest, r0, r1, r2);
  }

  lemma Glue(scheme: string, user: string, host: string, port: string, rest: string, r0: string, r1: string, r2: string)
    requires |r0| >= 2 && r0 == ['/', '/'] + r0[2..] && r0[2..] == user + ['@'] + r1 && r1 == host + [':'] + r2 && r2 == port + rest
    ensures scheme + [':'] + r0 == scheme + [':', '/', '/'] + user + ['@'] + host + [':'] + port + rest
  {
  }

  /** The part of `linkLabel` that is not VMess: what follows the last '#', decoded. */
  function LinkLabel(uri: string): string {
    match AfterLastHash(uri)
    case None => NO_LABEL
    case Some(frag) => match DecodeURIComponent(frag)
      case None => NO_LABEL
      case Some(name) => name
  }

  function AfterLastHash(s: string): Option<string> {
    if s == "" then None
    else match AfterLastHash(s[1..])
      case Some(t) => Some(t)
      case None => if s[0] == '#' then Some(s[1..]) else None
  }

  lemma {:induction false} NoHash(s: string)
    requires '#' !in s
    ensures AfterLastHash(s) == None
  {
    if s != "" { NoHash(s[1..]); }
  }

  lemma {:induction false} LastHashAt(a: string, b: string)
    requires '#' !in b
    ensures AfterLastHash(a + ['#'] + b) == Some(b)
  {
    var s := a + ['#'] + b;
    if a == "" {
      assert s[1..] == b;
      NoHash(b);
    } else {
      LastHashAt(a[1..], b);
      assert s[1..] == a[1..] + ['#'] + b;
    }
  }

  /** A port in front of a query is found exactly when it is all digits. */
  lemma PortInText(port: string, rest: string)
    requires (forall i :: 0 <= i < |port| ==> !Stop(port[i])) && rest != "" && Stop(rest[0])
    ensures PortOf(port + rest) == if port != "" && AllDigits(port) then Some(port) else None
  {
    var s := port + rest;
    if port != "" && AllDigits(port) {
      PortComplete(s, port, rest);
    } else {
      var n := Span(s, IsDigit);
      if n >= |port| { assert forall i :: 0 <= i < |port| ==> s[..n][i] == port[i]; }
      assert n < |port| ==> s[n] == port[n];
    }
  }

  /** `linkHost` returns the printed host and port, or a dash when the port is not all digits ... */
  lemma LinkHostOfText(s: Share, json: VMessFields -> string)
    requires s.Uri?
    requires |s.scheme| > 0 && Every(s.scheme, Lower) && |s.id| > 0 && Every(s.id, UserChar)
    requires |s.host| > 0 && Every(s.host, HostChar) && forall i :: 0 <= i < |s.port| ==> !Stop(s.port[i])
    ensures LinkHost(Text(s, json)) == if s.port != "" && AllDigits(s.port) then s.host + ":" + s.port else NO_HOST
  {
    hide HostPort, QueryText, Quote, PortOf, Every;
    var rest := "?" + QueryText(s.params) + "#" + Quote(s.name);
    assert Text(s, json) == s.scheme + [':', '/', '/'] + s.id + ['@'] + s.host + [':'] + (s.port + rest);
    HostPortOf(Text(s, json), s.scheme, s.id, s.host, s.port + rest);
    PortInText(s.port, rest);
  }

  /** ... and `linkLabel` the display name, whatever characters it contains. */
  lemma LinkLabelOfText(s: Share, json: VMessFields -> string)
    requires s.Uri?
    ensures LinkLabel(Text(s, json)) == s.name
  {
    hide AfterLastHash, QueryText, Quote, DecodeURIComponent;
    var frag := Quote(s.name);
    var front := s.scheme + "://" + s.id + "@" + s.host + ":" + s.port + "?" + QueryText(s.params);
    assert Text(s, json) == front + ['#'] + frag;
    QuoteHasNo(s.name, '#');
    LastHashAt(front, frag);
    QuoteRoundTrip(s.name);
  }

  // ---------- subscriptions ----------

  /** What a client does with a subscription body. */
  function BodyLines(body: string): Option<seq<string>> {
    match Base64Decode(body)
    case None => None
    case Some(bytes) => match Utf8Decode(bytes)
      case None => None
      case Some(text) => Some(Split(text, '\n'))
  }

  /** Decoding a body returns the lines exactly for non-empty lists of newline-free lines. */
  lemma BodyRoundTripExactly(lines: seq<string>)
    ensures BodyLines(Base64(Utf8(Join(lines, '\n')))) == Some(lines)
       <==> |lines| >= 1 && forall i :: 0 <= i < |lines| ==> '\n' !in lines[i]
  {
    var text := Join(lines, '\n');
    Base64RoundTrip(Utf8(text));
    Utf8RoundTrip(text);
    JoinSplitExactly(lines, '\n');
  }

  /** A VMess link is its scheme and the base64 of its record: the record's text reads back. */
  lemma VmessReadsBack(s: Share, json: VMessFields -> string)
    requires s.VMess?
    ensures "vmess://" <= Text(s, json)
    ensures Base64Decode(Text(s, json)[8..]) == Some(Utf8(json(s.fields))) && Utf8Decode(Utf8(json(s.fields))) == Some(json(s.fields))
  {
    hide Base64, Base64Decode, Utf8, Utf8Decode;
    var bytes := Utf8(json(s.fields));
    Base64RoundTrip(bytes);
    Utf8RoundTrip(json(s.fields));
    assert Text(s, json)[8..] == Base64(bytes);
  }
}
