/** Repair of Mermaid charts: four scanning passes that quote the labels Mermaid cannot parse. */
module Mermaid {

  /** What encloses a label. Every pass keeps a label on one line and takes none nested in its own kind. */
  datatype Kind = Kind(open: char, close: char)

  const SQUARE := Kind('[', ']')
  const ROUND := Kind('(', ')')
  const CURLY := Kind('{', '}')
  const EDGE := Kind('|', '|')

  const QUOTE: string := "#quot;"

  predicate InBody(k: Kind, c: char) {
    c != k.open && c != k.close && c != '\n'
  }

  /** How many body characters `s` starts with. */
  function BodyLength(k: Kind, s: string): (n: nat)
    ensures n <= |s| && (forall i :: 0 <= i < n ==> InBody(k, s[i])) && (n < |s| ==> !InBody(k, s[n]))
  {
    if s != [] && InBody(k, s[0]) then 1 + BodyLength(k, s[1..]) else 0
  }

  /** The expression of the pass matches where `s` starts. */
  predicate Matches(k: Kind, s: string) {
    s != [] && s[0] == k.open
    && var n := BodyLength(k, s[1..]); n < |s[1..]| && s[1..][n] == k.close
  }

  predicate IsBody(k: Kind, body: string) {
    forall c :: c in body ==> InBody(k, c)
  }

  function LabelOf(k: Kind, s: string): (body: string)
    requires Matches(k, s)
    ensures IsBody(k, body)
  {
    s[1..][..BodyLength(k, s[1..])]
  }

  function RestOf(k: Kind, s: string): (rest: string)
    requires Matches(k, s)
    ensures |rest| < |s|
    ensures s == [k.open] + LabelOf(k, s) + [k.close] + rest
  {
    s[1..][BodyLength(k, s[1..]) + 1..]
  }

  predicate Quoted(body: string) {
    |body| >= 2 && body[0] == '"' && body[|body| - 1] == '"'
  }

  predicate Plain(body: string) {
    '"' !in body && '(' !in body && ')' !in body
  }

  /** Mermaid reads such a label as text. */
  predicate Safe(body: string) {
    Quoted(body) || Plain(body)
  }

  function Escape(body: string): string {
    if body == [] then [] else (if body[0] == '"' then QUOTE else [body[0]]) + Escape(body[1..])
  }

  function SanitizeLabel(body: string): string {
    if Quoted(body) then body
    else if Plain(body) then body
    else ['"'] + Escape(body) + ['"']
  }

  /** `replace` with a global expression: matches are taken from the left and do not overlap. */
  function Pass(k: Kind, s: string): string
    decreases |s|
  {
    if s == [] then []
    else if Matches(k, s) then [k.open] + SanitizeLabel(LabelOf(k, s)) + [k.close] + Pass(k, RestOf(k, s))
    else [s[0]] + Pass(k, s[1..])
  }

  function SanitizeMermaidChart(chart: string): string {
    Pass(EDGE, Pass(CURLY, Pass(ROUND, Pass(SQUARE, chart))))
  }

  // ---- A chart as the labels of one kind and the text between them ----

  datatype Token = Text(c: char) | Label(body: string)

  function Tokens(k: Kind, s: string): seq<Token>
    decreases |s|
  {
    if s == [] then []
    else if Matches(k, s) then [Label(LabelOf(k, s))] + Tokens(k, RestOf(k, s))
    else [Text(s[0])] + Tokens(k, s[1..])
  }

  function Printed(k: Kind, t: Token): string {
    match t
    case Text(c) => [c]
    case Label(body) => [k.open] + body + [k.close]
  }

  function Render(k: Kind, ts: seq<Token>): string {
    if ts == [] then [] else Printed(k, ts[0]) + Render(k, ts[1..])
  }

  function SanitizedToken(t: Token): Token {
    match t
    case Text(c) => t
    case Label(body) => Label(SanitizeLabel(body))
  }

  function Sanitized(ts: seq<Token>): (r: seq<Token>)
    ensures |r| == |ts| && forall j :: 0 <= j < |ts| ==> r[j] == SanitizedToken(ts[j])
  {
    if ts == [] then [] else [SanitizedToken(ts[0])] + Sanitized(ts[1..])
  }

  /** The delimiters and line ends of a chart, in order. */
  function Marks(k: Kind, s: string): string {
    if s == [] then [] else (if InBody(k, s[0]) then [] else [s[0]]) + Marks(k, s[1..])
  }

  /** A kind whose delimiters are not used by the escape. */
  predicate Proper(k: Kind) {
    forall c :: c in ['"', '#', 'q', 'u', 'o', 't', ';'] ==> InBody(k, c)
  }

  lemma TheFourAreProper()
    ensures Proper(SQUARE) && Proper(ROUND) && Proper(CURLY) && Proper(EDGE)
  {
  }

  lemma {:induction false} TokensRender(k: Kind, s: string)
    ensures Render(k, Tokens(k, s)) == s
    decreases |s|
  {
    if s == [] {
    } else if Matches(k, s) {
      TokensRender(k, RestOf(k, s));
    } else {
      TokensRender(k, s[1..]);
    }
  }

  lemma {:induction false} EscapeIsBody(k: Kind, body: string)
    requires Proper(k) && IsBody(k, body)
    ensures IsBody(k, Escape(body))
    ensures |Escape(body)| >= |body| && '"' !in Escape(body)
  {
    if body != [] {
      EscapeIsBody(k, body[1..]);
      var head := if body[0] == '"' then QUOTE else [body[0]];
      assert QUOTE == ['#', 'q', 'u', 'o', 't', ';'];
      assert IsBody(k, head) && (forall c :: c in head ==> c != '"');
    }
  }

  lemma LabelIsBody(k: Kind, body: string)
    requires Proper(k) && IsBody(k, body)
    ensures IsBody(k, SanitizeLabel(body))
    ensures Safe(SanitizeLabel(body)) && |SanitizeLabel(body)| >= |body|
    ensures |SanitizeLabel(body)| == |body| ==> SanitizeLabel(body) == body
    ensures SanitizeLabel(body) == body <==> Safe(body)
  {
    EscapeIsBody(k, body);
    assert InBody(k, '"');
  }

  lemma {:induction false} BodyLengthOf(k: Kind, body: string, rest: string)
    requires IsBody(k, body)
    requires rest == [] || !InBody(k, rest[0])
    ensures BodyLength(k, body + rest) == |body|
  {
    if body == [] {
      assert body + rest == rest;
    } else {
      assert (body + rest)[1..] == body[1..] + rest;
      BodyLengthOf(k, body[1..], rest);
    }
  }

  lemma LabelFirst(k: Kind, body: string, rest: string)
    requires Proper(k) && IsBody(k, body)
    ensures var s := [k.open] + body + [k.close] + rest;
            Matches(k, s) && LabelOf(k, s) == body && RestOf(k, s) == rest
  {
    var s := [k.open] + body + [k.close] + rest;
    BodyLengthOf(k, body, [k.close] + rest);
    assert s[1..] == body + ([k.close] + rest);
  }

  /** A run of body characters, and what stops it, look the same after the pass. */
  lemma {:induction false} PassKeepsRun(k: Kind, s: string)
    requires k.open == k.close || !InBody(k, k.open)
    ensures var n := BodyLength(k, s);
            && BodyLength(k, Pass(k, s)) == n
            && (n < |s| <==> n < |Pass(k, s)|)
            && (n < |s| ==> Pass(k, s)[n] == s[n])
    decreases |s|
  {
    if s != [] && InBody(k, s[0]) {
      PassKeepsRun(k, s[1..]);
      assert Pass(k, s)[1..] == Pass(k, s[1..]);
    }
  }

  /** The pass only replaces the bodies of the labels it sees. */
  lemma {:induction false} PassRewritesLabels(k: Kind, s: string)
    ensures Pass(k, s) == Render(k, Sanitized(Tokens(k, s)))
    decreases |s|
  {
    if s == [] {
    } else if Matches(k, s) {
      PassRewritesLabels(k, RestOf(k, s));
      assert Tokens(k, s)[1..] == Tokens(k, RestOf(k, s));
    } else {
      PassRewritesLabels(k, s[1..]);
      assert Tokens(k, s)[1..] == Tokens(k, s[1..]);
    }
  }

  /** A second pass sees the same labels again, with the bodies the first one gave them. */
  lemma {:induction false} PassKeepsTokens(k: Kind, s: string)
    requires Proper(k)
    ensures Tokens(k, Pass(k, s)) == Sanitized(Tokens(k, s))
    decreases |s|
  {
    if s == [] {
    } else if Matches(k, s) {
      var body, rest := LabelOf(k, s), RestOf(k, s);
      PassKeepsTokens(k, rest);
      LabelIsBody(k, body);
      LabelFirst(k, SanitizeLabel(body), Pass(k, rest));
      assert Tokens(k, s)[1..] == Tokens(k, rest);
    } else {
      PassKeepsTokens(k, s[1..]);
      PassKeepsRun(k, s[1..]);
      assert Pass(k, s)[1..] == Pass(k, s[1..]);
      assert Tokens(k, s)[1..] == Tokens(k, s[1..]);
    }
  }

  /** The body of a label holds body characters only. */
  lemma {:induction false} LabelsAreBodies(k: Kind, s: string, j: nat)
    requires j < |Tokens(k, s)| && Tokens(k, s)[j].Label?
    ensures IsBody(k, Tokens(k, s)[j].body)
    decreases |s|
  {
    if j > 0 {
      if Matches(k, s) {
        LabelsAreBodies(k, RestOf(k, s), j - 1);
      } else {
        LabelsAreBodies(k, s[1..], j - 1);
      }
    }
  }

  ghost predicate AllSafe(k: Kind, s: string) {
    forall j :: 0 <= j < |Tokens(k, s)| && Tokens(k, s)[j].Label? ==> Safe(Tokens(k, s)[j].body)
  }

  // ---- Main results, for one pass ----

  /** Every label of the result is one that Mermaid reads as text. */
  lemma PassMakesSafe(k: Kind, s: string)
    requires Proper(k)
    ensures AllSafe(k, Pass(k, s))
  {
    PassKeepsTokens(k, s);
    forall j | 0 <= j < |Tokens(k, s)| && Tokens(k, s)[j].Label?
      ensures Safe(Sanitized(Tokens(k, s))[j].body)
    {
      LabelsAreBodies(k, s, j);
      LabelIsBody(k, Tokens(k, s)[j].body);
    }
  }

  lemma {:induction false} SafeIsFixed(k: Kind, s: string)
    requires Proper(k) && AllSafe(k, s)
    ensures Pass(k, s) == s
  {
    PassRewritesLabels(k, s);
    TokensRender(k, s);
    forall j | 0 <= j < |Tokens(k, s)|
      ensures SanitizedToken(Tokens(k, s)[j]) == Tokens(k, s)[j]
    {
      if Tokens(k, s)[j].Label? {
        LabelsAreBodies(k, s, j);
        LabelIsBody(k, Tokens(k, s)[j].body);
      }
    }
    assert Sanitized(Tokens(k, s)) == Tokens(k, s);
  }

  /** A pass changes a chart exactly when one of its labels is not safe. */
  lemma PassFixes(k: Kind, s: string)
    requires Proper(k)
    ensures Pass(k, s) == s <==> AllSafe(k, s)
  {
    PassMakesSafe(k, s);
    if AllSafe(k, s) {
      SafeIsFixed(k, s);
    }
  }

  lemma PassIsIdempotent(k: Kind, s: string)
    requires Proper(k)
    ensures Pass(k, Pass(k, s)) == Pass(k, s)
  {
    PassMakesSafe(k, s);
    SafeIsFixed(k, Pass(k, s));
  }

  lemma {:induction false} MarksAdd(k: Kind, a: string, b: string)
    ensures Marks(k, a + b) == Marks(k, a) + Marks(k, b)
  {
    if a == [] {
      assert a + b == b;
    } else {
      assert (a + b)[1..] == a[1..] + b;
      MarksAdd(k, a[1..], b);
    }
  }

  lemma {:induction false} BodiesHaveNoMarks(k: Kind, body: string)
    requires IsBody(k, body)
    ensures Marks(k, body) == []
  {
    if body != [] {
      BodiesHaveNoMarks(k, body[1..]);
    }
  }

  lemma LabelMarks(k: Kind, body: string, rest: string)
    requires IsBody(k, body)
    ensures Marks(k, [k.open] + body + [k.close] + rest) == [k.open, k.close] + Marks(k, rest)
  {
    var s := [k.open] + body + [k.close] + rest;
    assert s == [k.open] + (body + ([k.close] + rest));
    assert s[1..] == body + ([k.close] + rest);
    MarksAdd(k, body, [k.close] + rest);
    BodiesHaveNoMarks(k, body);
    assert ([k.close] + rest)[1..] == rest;
  }

  /** Delimiters and line ends stay, in number and in order. */
  lemma {:induction false} PassKeepsMarks(k: Kind, s: string)
    requires Proper(k)
    ensures Marks(k, Pass(k, s)) == Marks(k, s)
    decreases |s|
  {
    if s == [] {
    } else if Matches(k, s) {
      var body, rest := LabelOf(k, s), RestOf(k, s);
      PassKeepsMarks(k, rest);
      LabelIsBody(k, body);
      LabelMarks(k, SanitizeLabel(body), Pass(k, rest));
      LabelMarks(k, body, rest);
    } else {
      PassKeepsMarks(k, s[1..]);
      assert Pass(k, s)[1..] == Pass(k, s[1..]);
    }
  }

  // ---- The escape ----

  function Unescape(s: string): string
    decreases |s|
  {
    if s == [] then []
    else if QUOTE <= s then ['"'] + Unescape(s[|QUOTE|..])
    else [s[0]] + Unescape(s[1..])
  }

  /** `#quot;` occurs in `s`. */
  predicate HasQuoteEntity(s: string) {
    s != [] && (QUOTE <= s || HasQuoteEntity(s[1..]))
  }

  lemma {:induction false} EscapeKeepsPrefix(w: string, body: string)
    requires '"' !in w && '#' !in w
    ensures w <= Escape(body) <==> w <= body
  {
    if w != [] && body != [] {
      if body[0] == '"' {
        assert Escape(body)[0] == '#';
      } else {
        EscapeKeepsPrefix(w[1..], body[1..]);
        assert Escape(body)[1..] == Escape(body[1..]);
        assert w <= body <==> w[0] == body[0] && w[1..] <= body[1..];
        assert w <= Escape(body) <==> w[0] == body[0] && w[1..] <= Escape(body)[1..];
      }
    }
  }

  /** An entity in the escaped label was written by the escape or stood in the label. */
  lemma EntityOfEscape(body: string)
    requires body != [] && body[0] != '"'
    ensures QUOTE <= Escape(body) <==> QUOTE <= body
  {
    EscapeKeepsPrefix(QUOTE[1..], body[1..]);
    assert Escape(body)[1..] == Escape(body[1..]);
    assert QUOTE <= body <==> '#' == body[0] && QUOTE[1..] <= body[1..];
    assert QUOTE <= Escape(body) <==> '#' == body[0] && QUOTE[1..] <= Escape(body)[1..];
  }

  lemma {:induction false} UnescapeInverts(body: string)
    requires !HasQuoteEntity(body)
    ensures Unescape(Escape(body)) == body
  {
    if body != [] {
      UnescapeInverts(body[1..]);
      if body[0] == '"' {
        assert Escape(body)[|QUOTE|..] == Escape(body[1..]);
      } else {
        EntityOfEscape(body);
        assert Escape(body)[1..] == Escape(body[1..]);
      }
    }
  }

  lemma {:induction false} UnescapeShrinks(body: string)
    ensures |Unescape(Escape(body))| <= |body|
    ensures HasQuoteEntity(body) ==> |Unescape(Escape(body))| < |body|
    decreases |body|
  {
    if body != [] {
      if body[0] == '"' {
        UnescapeShrinks(body[1..]);
        assert Escape(body)[|QUOTE|..] == Escape(body[1..]);
      } else {
        EntityOfEscape(body);
        if QUOTE <= body {
          UnescapeShrinks(body[|QUOTE|..]);
          EscapeOfEntity(body);
        } else {
          UnescapeShrinks(body[1..]);
          assert Escape(body)[1..] == Escape(body[1..]);
        }
      }
    }
  }

  lemma {:induction false} EscapeSkips(w: string, rest: string)
    requires '"' !in w
    ensures Escape(w + rest) == w + Escape(rest)
  {
    if w == [] {
      assert w + rest == rest;
    } else {
      assert (w + rest)[1..] == w[1..] + rest;
      EscapeSkips(w[1..], rest);
    }
  }

  lemma EscapeOfEntity(body: string)
    requires QUOTE <= body
    ensures Escape(body) == QUOTE + Escape(body[|QUOTE|..])
  {
    assert body == QUOTE + body[|QUOTE|..];
    EscapeSkips(QUOTE, body[|QUOTE|..]);
  }

  /** The reader sees the label as it was written, exactly when it did not hold the entity already. */
  lemma LabelKeepsItsText(body: string)
    requires SanitizeLabel(body) != body
    ensures Quoted(SanitizeLabel(body))
    ensures var shown := Unescape(SanitizeLabel(body)[1..|SanitizeLabel(body)| - 1]);
            shown == body <==> !HasQuoteEntity(body)
  {
    var after := SanitizeLabel(body);
    assert after[1..|after| - 1] == Escape(body);
    UnescapeShrinks(body);
    if !HasQuoteEntity(body) {
      UnescapeInverts(body);
    }
  }

  // ---- Main results, for the whole function ----

  lemma {:induction false} PassGrows(k: Kind, s: string)
    requires Proper(k)
    ensures |Pass(k, s)| >= |s|
    ensures |Pass(k, s)| == |s| ==> Pass(k, s) == s
    decreases |s|
  {
    if s == [] {
    } else if Matches(k, s) {
      PassGrows(k, RestOf(k, s));
      LabelIsBody(k, LabelOf(k, s));
    } else {
      PassGrows(k, s[1..]);
    }
  }

  /** A chart stays as it is exactly when all its labels of all four kinds are safe: no pass can
      undo what another one did. */
  lemma UnchangedExactlyWhenSafe(chart: string)
    ensures SanitizeMermaidChart(chart) == chart
       <==> AllSafe(SQUARE, chart) && AllSafe(ROUND, chart) && AllSafe(CURLY, chart) && AllSafe(EDGE, chart)
  {
    TheFourAreProper();
    var a := Pass(SQUARE, chart);
    var b := Pass(ROUND, a);
    var c := Pass(CURLY, b);
    PassGrows(SQUARE, chart);
    PassGrows(ROUND, a);
    PassGrows(CURLY, b);
    PassGrows(EDGE, c);
    PassFixes(SQUARE, chart);
    PassFixes(ROUND, chart);
    PassFixes(CURLY, chart);
    PassFixes(EDGE, chart);
  }

  /** Running the repair again changes nothing exactly when no pass left another pass's label unsafe. */
  lemma IdempotentExactlyWhen(chart: string)
    ensures var once := SanitizeMermaidChart(chart);
            SanitizeMermaidChart(once) == once <==> AllSafe(SQUARE, once) && AllSafe(ROUND, once) && AllSafe(CURLY, once)
  {
    TheFourAreProper();
    var once := SanitizeMermaidChart(chart);
    UnchangedExactlyWhenSafe(once);
    PassMakesSafe(EDGE, Pass(CURLY, Pass(ROUND, Pass(SQUARE, chart))));
  }

  lemma {:induction false} PassSkips(k: Kind, w: string, s: string)
    requires k.open !in w
    ensures Pass(k, w + s) == w + Pass(k, s)
  {
    if w == [] {
      assert w + s == s;
    } else {
      assert (w + s)[1..] == w[1..] + s;
      PassSkips(k, w[1..], s);
    }
  }

  lemma PassSkipsAll(k: Kind, s: string)
    requires k.open !in s
    ensures Pass(k, s) == s
  {
    PassSkips(k, s, []);
    assert s + [] == s;
  }

  /** One label and no more. */
  lemma PassOnce(k: Kind, w: string, body: string, rest: string)
    requires Proper(k) && k.open !in w && k.open !in rest && IsBody(k, body)
    ensures Pass(k, w + ([k.open] + body + [k.close] + rest)) == w + ([k.open] + SanitizeLabel(body) + [k.close] + rest)
  {
    PassSkips(k, w, [k.open] + body + [k.close] + rest);
    LabelFirst(k, body, rest);
    PassSkipsAll(k, rest);
  }

  predicate Harmless(w: string) {
    forall c :: c in w ==> c !in ['[', ']', '(', ')', '{', '}', '|', '"', '\n']
  }

  lemma EscapeQuote(rest: string)
    ensures Escape(['"'] + rest) == QUOTE + Escape(rest)
  {
    assert (['"'] + rest)[1..] == rest;
  }

  /** A square label in which a round one opens that ends beyond it, after a quote. */
  function Crossing(a: string, d: string): string {
    ['['] + (a + ['(']) + [']'] + (['"'] + d + [')'])
  }

  /** The square body is quoted first; its closing quote is then escaped as part of the round one. */
  function CrossingOnce(a: string, d: string): string {
    ['[', '"'] + a + ['(', '"'] + QUOTE + [']'] + QUOTE + d + ['"', ')']
  }

  lemma SquarePass(a: string, d: string)
    requires Harmless(a) && Harmless(d)
    ensures Pass(SQUARE, Crossing(a, d)) == ['['] + (['"'] + (a + ['(']) + ['"']) + [']'] + (['"'] + d + [')'])
  {
    TheFourAreProper();
    var body, rest := a + ['('], ['"'] + d + [')'];
    EscapeSkips(body, []);
    assert body + [] == body && body[|a|] == '(' && body[0] != '"';
    PassOnce(SQUARE, [], body, rest);
    assert [] + (['['] + body + [']'] + rest) == Crossing(a, d);
  }

  lemma RoundEscape(d: string)
    requires '"' !in d
    ensures Escape(['"'] + ([']'] + (['"'] + d))) == QUOTE + ([']'] + (QUOTE + d))
  {
    EscapeSkips(d, []);
    assert d + [] == d;
    var quoted := ['"'] + d;
    EscapeQuote(d);
    EscapeSkips([']'], quoted);
    EscapeQuote([']'] + quoted);
  }

  lemma RoundLabel(d: string)
    requires Harmless(d) && d != []
    ensures var body := ['"'] + ([']'] + (['"'] + d));
            IsBody(ROUND, body) && SanitizeLabel(body) == ['"'] + (QUOTE + ([']'] + (QUOTE + d))) + ['"']
  {
    var body := ['"'] + ([']'] + (['"'] + d));
    RoundEscape(d);
    assert body[0] == '"' && body[|body| - 1] == d[|d| - 1];
    assert d[|d| - 1] in d;
  }

  lemma RoundPass(a: string, d: string)
    requires Harmless(a) && Harmless(d) && d != []
    ensures Pass(ROUND, ['['] + (['"'] + (a + ['(']) + ['"']) + [']'] + (['"'] + d + [')'])) == CrossingOnce(a, d)
  {
    TheFourAreProper();
    RoundLabel(d);
    var w, body := ['[', '"'] + a, ['"'] + ([']'] + (['"'] + d));
    PassOnce(ROUND, w, body, []);
    CrossingRegroups(a, d);
  }

  lemma CrossingRegroups(a: string, d: string)
    ensures var w, body := ['[', '"'] + a, ['"'] + ([']'] + (['"'] + d));
            ['['] + (['"'] + (a + ['(']) + ['"']) + [']'] + (['"'] + d + [')']) == w + (['('] + body + [')'] + [])
    ensures var w, body := ['[', '"'] + a, ['"'] + (QUOTE + ([']'] + (QUOTE + d))) + ['"'];
            CrossingOnce(a, d) == w + (['('] + body + [')'] + [])
  {
  }

  /** What the other two passes and the next run look at. */
  lemma CrossingOnceHas(a: string, d: string)
    requires Harmless(a) && Harmless(d)
    ensures '{' !in CrossingOnce(a, d) && '|' !in CrossingOnce(a, d)
    ensures var body, rest := ['"'] + a + ['(', '"'] + QUOTE, QUOTE + d + ['"', ')'];
            CrossingOnce(a, d) == ['['] + body + [']'] + rest && IsBody(SQUARE, body) && !Safe(body)
  {
    var body := ['"'] + a + ['(', '"'] + QUOTE;
    assert QUOTE == ['#', 'q', 'u', 'o', 't', ';'];
    assert body[|a| + 1] == '(' && body[|body| - 1] == ';';
  }

  /** Labels that cross: repairing the chart again changes it again. */
  lemma CrossingIsNotIdempotent(a: string, d: string)
    requires Harmless(a) && Harmless(d) && d != []
    ensures SanitizeMermaidChart(Crossing(a, d)) == CrossingOnce(a, d)
    ensures SanitizeMermaidChart(CrossingOnce(a, d)) != CrossingOnce(a, d)
  {
    TheFourAreProper();
    SquarePass(a, d);
    RoundPass(a, d);
    CrossingOnceHas(a, d);
    var once := CrossingOnce(a, d);
    PassSkipsAll(CURLY, once);
    PassSkipsAll(EDGE, once);
    var body, rest := ['"'] + a + ['(', '"'] + QUOTE, QUOTE + d + ['"', ')'];
    LabelFirst(SQUARE, body, rest);
    assert Tokens(SQUARE, once)[0] == Label(body);
    UnchangedExactlyWhenSafe(once);
  }
}
