/** Display names of links (`fmtName`, internal/xray/links.go): a template with eight
    placeholders, blanks collapsed, ends trimmed. */
module Names {
  import opened Encoding

  /** Unicode white space, as `strings.Fields` sees it. */
  predicate IsSpace(c: char) {
    var n := c as int;
    || 9 <= n <= 13 || n == 0x20 || n == 0x85 || n == 0xA0 || n == 0x1680 || 0x2000 <= n <= 0x200A
    || n == 0x2028 || n == 0x2029 || n == 0x202F || n == 0x205F || n == 0x3000
  }

  datatype Rule = Rule(key: string, value: string)

  /** The first rule whose key starts the text. */
  function Matching(s: string, rules: seq<Rule>): (i: nat)
    ensures i <= |rules|
    ensures i < |rules| ==> rules[i].key <= s && |rules[i].key| > 0
  {
    if rules == [] then 0
    else if |rules[0].key| > 0 && rules[0].key <= s then 0
    else 1 + Matching(s, rules[1..])
  }

  /** `strings.Replacer`: left to right, replaced text is not scanned again. */
  function Replace(s: string, rules: seq<Rule>): string
    decreases |s|
  {
    if s == "" then ""
    else
      var i := Matching(s, rules);
      if i < |rules| then rules[i].value + Replace(s[|rules[i].key|..], rules)
      else [s[0]] + Replace(s[1..], rules)
  }

  function WordLength(s: string): (n: nat)
    ensures n <= |s|
    ensures forall i :: 0 <= i < n ==> !IsSpace(s[i])
    ensures |s| > 0 && !IsSpace(s[0]) ==> n > 0
  {
    if s == "" || IsSpace(s[0]) then 0 else 1 + WordLength(s[1..])
  }

  /** `strings.Fields`. */
  function Words(s: string): seq<string>
    decreases |s|
  {
    if s == "" then []
    else if IsSpace(s[0]) then Words(s[1..])
    else [s[..WordLength(s)]] + Words(s[WordLength(s)..])
  }

  predicate InCutset(c: char) { c == '-' || c == '_' || c == ' ' }

  /** `strings.Trim(s, "-_ ")`. */
  function TrimEnds(s: string): (r: string)
    ensures r == "" || (!InCutset(r[0]) && !InCutset(r[|r| - 1]))
    decreases |s|
  {
    if s == "" then ""
    else if InCutset(s[0]) then TrimEnds(s[1..])
    else if InCutset(s[|s| - 1]) then TrimEnds(s[..|s| - 1])
    else s
  }

  /** The placeholders of one link. */
  datatype Naming = Naming(name: string, caption: string, proto: string, net: string, sec: string,
                           server: string, uuid8: string, date: string)

  function Rules(n: Naming): seq<Rule> {
    [Rule("{name}", n.name), Rule("{label}", n.caption), Rule("{proto}", n.proto), Rule("{net}", n.net),
     Rule("{sec}", n.sec), Rule("{server}", n.server), Rule("{uuid8}", n.uuid8), Rule("{date}", n.date)]
  }

  /** Blanks collapsed, ends trimmed; the plain name when nothing is left. */
  function Tidied(text: string, n: Naming): (r: string)
    ensures r != ""
    ensures r != n.name + "-" + n.caption ==> !InCutset(r[0]) && !InCutset(r[|r| - 1])
  {
    var out := TrimEnds(Join(Words(text), ' '));
    if out == "" then n.name + "-" + n.caption else out
  }

  function FmtName(template: string, n: Naming): (r: string)
    ensures r != ""
    ensures r != n.name + "-" + n.caption ==> !InCutset(r[0]) && !InCutset(r[|r| - 1])
  {
    Tidied(Replace(if template == "" then "{name}-{label}" else template, Rules(n)), n)
  }

  // ---------- what a template means ----------

  /** A template taken apart: single characters, and placeholders by number. */
  datatype Piece = Letter(c: char) | Slot(i: nat)

  predicate InRange(pieces: seq<Piece>, rules: seq<Rule>) {
    forall k :: 0 <= k < |pieces| ==> pieces[k].Slot? ==> pieces[k].i < |rules|
  }

  function PieceText(p: Piece, rules: seq<Rule>): string
    requires p.Slot? ==> p.i < |rules|
  {
    match p case Letter(c) => [c] case Slot(i) => rules[i].key
  }

  function PieceValue(p: Piece, rules: seq<Rule>): string
    requires p.Slot? ==> p.i < |rules|
  {
    match p case Letter(c) => [c] case Slot(i) => rules[i].value
  }

  function TemplateText(pieces: seq<Piece>, rules: seq<Rule>): string
    requires InRange(pieces, rules)
  {
    if pieces == [] then "" else PieceText(pieces[0], rules) + TemplateText(pieces[1..], rules)
  }

  function Expansion(pieces: seq<Piece>, rules: seq<Rule>): string
    requires InRange(pieces, rules)
  {
    if pieces == [] then "" else PieceValue(pieces[0], rules) + Expansion(pieces[1..], rules)
  }

  predicate NoKeyAt(s: string, rules: seq<Rule>) { forall i :: 0 <= i < |rules| ==> !(rules[i].key <= s) }

  /** A character is a piece of its own only where no placeholder begins. */
  predicate Fits(pieces: seq<Piece>, rules: seq<Rule>)
    requires InRange(pieces, rules)
  {
    pieces == [] || (Fits(pieces[1..], rules) && (pieces[0].Letter? ==> NoKeyAt(TemplateText(pieces, rules), rules)))
  }

  predicate Placeholder(key: string) {
    |key| >= 2 && key[0] == '{' && key[|key| - 1] == '}' && forall i :: 0 <= i < |key| - 1 ==> key[i] != '}'
  }

  predicate Distinguished(rules: seq<Rule>) {
    && (forall i :: 0 <= i < |rules| ==> Placeholder(rules[i].key))
    && forall i, j :: 0 <= i < j < |rules| ==> rules[i].key != rules[j].key
  }

  lemma OnePlaceholder(a: string, b: string, s: string)
    requires Placeholder(a) && Placeholder(b) && a <= s && b <= s
    ensures a == b
  {
    assert a[|a| - 1] == s[|a| - 1] && b[|b| - 1] == s[|b| - 1];
    assert |a| == |b|;
  }

  lemma {:induction false} MatchingExactly(s: string, rules: seq<Rule>, i: nat)
    requires Distinguished(rules) && i < |rules| && rules[i].key <= s
    ensures Matching(s, rules) == i
    decreases |rules|
  {
    if i > 0 {
      if rules[0].key <= s { OnePlaceholder(rules[0].key, rules[i].key, s); }
      MatchingExactly(s, rules[1..], i - 1);
    }
  }

  /** These are the pieces of the template. */
  predicate TakenApart(pieces: seq<Piece>, rules: seq<Rule>, template: string) {
    InRange(pieces, rules) && Fits(pieces, rules) && TemplateText(pieces, rules) == template
  }

  lemma {:induction false} MatchingFound(s: string, rules: seq<Rule>)
    requires Distinguished(rules)
    ensures Matching(s, rules) == |rules| <==> NoKeyAt(s, rules)
    decreases |rules|
  {
    if rules != [] && !(rules[0].key <= s) {
      MatchingFound(s, rules[1..]);
      assert forall i :: 1 <= i < |rules| ==> rules[1..][i - 1] == rules[i];
      assert forall i :: 0 <= i < |rules| - 1 ==> rules[1..][i] == rules[i + 1];
    }
  }

  lemma {:induction false} ReplaceExpands(pieces: seq<Piece>, rules: seq<Rule>)
    requires Distinguished(rules) && InRange(pieces, rules) && Fits(pieces, rules)
    ensures Replace(TemplateText(pieces, rules), rules) == Expansion(pieces, rules)
    decreases |pieces|
  {
    if pieces != [] {
      var s, rest := TemplateText(pieces, rules), TemplateText(pieces[1..], rules);
      ReplaceExpands(pieces[1..], rules);
      match pieces[0]
      case Letter(c) =>
        MatchingFound(s, rules);
        assert s[1..] == rest;
      case Slot(i) =>
        MatchingExactly(s, rules, i);
        assert s[|rules[i].key|..] == rest;
    }
  }

  lemma OnePiece(p: Piece, rest: seq<Piece>, rules: seq<Rule>)
    requires (p.Slot? ==> p.i < |rules|) && InRange(rest, rules)
    ensures InRange([p] + rest, rules)
    ensures TemplateText([p] + rest, rules) == PieceText(p, rules) + TemplateText(rest, rules)
    ensures Expansion([p] + rest, rules) == PieceValue(p, rules) + Expansion(rest, rules)
    ensures Fits(rest, rules) && (p.Letter? ==> NoKeyAt(TemplateText([p] + rest, rules), rules)) ==> Fits([p] + rest, rules)
  {
    assert ([p] + rest)[1..] == rest;
  }

  /** Every text is taken apart so: at each place a placeholder if one begins there. */
  lemma {:induction false} EveryTemplateFits(s: string, rules: seq<Rule>) returns (pieces: seq<Piece>)
    requires Distinguished(rules)
    ensures TakenApart(pieces, rules, s)
    decreases |s|
  {
    if s == "" {
      pieces := [];
    } else {
      hide TemplateText, Expansion, Fits, Distinguished;
      var i := Matching(s, rules);
      var first := if i < |rules| then Slot(i) else Letter(s[0]);
      var text := PieceText(first, rules);
      assert s == text + s[|text|..];
      var rest := EveryTemplateFits(s[|text|..], rules);
      OnePiece(first, rest, rules);
      MatchingFound(s, rules);
      pieces := [first] + rest;
    }
  }

  lemma RulesDistinguished(n: Naming)
    ensures Distinguished(Rules(n))
  {
  }

  /** Whatever the template, taken apart it means the text with every placeholder replaced by
      its value, once: values that look like placeholders stay as they are. */
  lemma FmtNameExpands(template: string, n: Naming)
    requires template != ""
    ensures exists pieces :: TakenApart(pieces, Rules(n), template)
    ensures forall pieces :: TakenApart(pieces, Rules(n), template) ==> FmtName(template, n) == Tidied(Expansion(pieces, Rules(n)), n)
  {
    hide Rules, Tidied, Replace, Fits;
    RulesDistinguished(n);
    var some := EveryTemplateFits(template, Rules(n));
    forall pieces | TakenApart(pieces, Rules(n), template)
      ensures FmtName(template, n) == Tidied(Expansion(pieces, Rules(n)), n)
    {
      ReplaceExpands(pieces, Rules(n));
    }
  }

  /** The empty template means name and label. */
  lemma FmtNameDefault(n: Naming)
    ensures FmtName("", n) == Tidied(n.name + "-" + n.caption, n)
  {
    assert FmtName("", n) == FmtName("{name}-{label}", n);
    hide *;
    var pieces := DefaultPieces(n);
    FmtNameExpands("{name}-{label}", n);
  }

  lemma DefaultPieces(n: Naming) returns (pieces: seq<Piece>)
    ensures TakenApart(pieces, Rules(n), "{name}-{label}") && Expansion(pieces, Rules(n)) == n.name + "-" + n.caption
  {
    var rules := Rules(n);
    RulesDistinguished(n);
    assert |rules| == 8 && rules[0] == Rule("{name}", n.name) && rules[1] == Rule("{label}", n.caption);
    hide Rules;
    pieces := ThreePieces(rules);
    assert "{name}" + (['-'] + ("{label}" + "")) == "{name}-{label}";
    assert n.name + (['-'] + (n.caption + "")) == n.name + "-" + n.caption;
  }

  lemma ThreePieces(rules: seq<Rule>) returns (pieces: seq<Piece>)
    requires |rules| == 8 && Distinguished(rules)
    ensures TakenApart(pieces, rules, rules[0].key + (['-'] + (rules[1].key + "")))
    ensures Expansion(pieces, rules) == rules[0].value + (['-'] + (rules[1].value + ""))
  {
    pieces := [Slot(0)] + ([Letter('-')] + ([Slot(1)] + []));
    assert TemplateText([], rules) == "" && Expansion([], rules) == "" && Fits([], rules);
    hide TemplateText, Expansion, Fits;
    OnePiece(Slot(1), [], rules);
    OnePiece(Letter('-'), [Slot(1)] + [], rules);
    OnePiece(Slot(0), [Letter('-')] + ([Slot(1)] + []), rules);
  }

  // ---------- the parts of a name ----------

  /** The eight placeholders and what stands for them. */
  lemma Placeholders(n: Naming)
    ensures |Rules(n)| == 8
    ensures Rule("{name}", n.name) in Rules(n) && Rule("{label}", n.caption) in Rules(n) && Rule("{proto}", n.proto) in Rules(n)
    ensures Rule("{net}", n.net) in Rules(n) && Rule("{sec}", n.sec) in Rules(n) && Rule("{server}", n.server) in Rules(n)
    ensures Rule("{uuid8}", n.uuid8) in Rules(n) && Rule("{date}", n.date) in Rules(n)
  {
    var r := Rules(n);
    assert r[0] in r && r[1] in r && r[2] in r && r[3] in r && r[4] in r && r[5] in r && r[6] in r && r[7] in r;
  }

  predicate BlankText(s: string) { forall i :: 0 <= i < |s| ==> IsSpace(s[i]) }
  predicate Solid(s: string) { forall i :: 0 <= i < |s| ==> !IsSpace(s[i]) }

  lemma {:induction false} WordLengthOf(word: string, rest: string)
    requires Solid(word) && (rest == "" || IsSpace(rest[0]))
    ensures WordLength(word + rest) == |word|
  {
    if word == "" {
      assert word + rest == rest;
    } else {
      assert (word + rest)[1..] == word[1..] + rest;
      WordLengthOf(word[1..], rest);
    }
  }

  /** Words are what stands between blanks. */
  lemma {:induction false} WordsOf(blank: string, word: string, rest: string)
    requires BlankText(blank) && word != "" && Solid(word) && (rest == "" || IsSpace(rest[0]))
    ensures Words(blank + (word + rest)) == [word] + Words(rest)
    decreases |blank|
  {
    var s := blank + (word + rest);
    if blank == "" {
      assert s == word + rest;
      WordLengthOf(word, rest);
      assert s[..|word|] == word && s[|word|..] == rest;
    } else {
      assert s[1..] == blank[1..] + (word + rest);
      WordsOf(blank[1..], word, rest);
    }
  }

  lemma {:induction false} NoWords(blank: string)
    requires BlankText(blank)
    ensures Words(blank) == []
    decreases |blank|
  {
    if blank != "" { NoWords(blank[1..]); }
  }

  predicate Cuttable(s: string) { forall i :: 0 <= i < |s| ==> s[i] == '-' || s[i] == '_' || s[i] == ' ' }

  /** Only hyphens, underscores and blanks are cut, and only at the ends. */
  lemma {:induction false} TrimEndsExactly(a: string, m: string, b: string)
    requires Cuttable(a) && Cuttable(b) && m != "" && !Cuttable([m[0]]) && !Cuttable([m[|m| - 1]])
    ensures TrimEnds(a + m + b) == m
    decreases |a| + |b|
  {
    var s := a + m + b;
    assert [m[0]][0] == m[0] && [m[|m| - 1]][0] == m[|m| - 1];
    if a != "" {
      assert s[1..] == a[1..] + m + b;
      TrimEndsExactly(a[1..], m, b);
    } else if b != "" {
      assert s[..|s| - 1] == a + m + b[..|b| - 1] && s[0] == m[0];
      TrimEndsExactly(a, m, b[..|b| - 1]);
    } else {
      assert s == m;
    }
  }

  /** White space: tab to carriage return, blank, and the Unicode spaces of `unicode.IsSpace`. */
  lemma SpacesExactly(c: char)
    ensures IsSpace(c) <==>
      (c as int) in {0x09, 0x0A, 0x0B, 0x0C, 0x0D, 0x20, 0x85, 0xA0, 0x1680, 0x2000, 0x2001, 0x2002, 0x2003, 0x2004, 0x2005, 0x2006,
                     0x2007, 0x2008, 0x2009, 0x200A, 0x2028, 0x2029, 0x202F, 0x205F, 0x3000}
  {
  }
}
