/** Labels in a row of characters, where charts can be cut, and what no pass changes: the skeleton of delimiters. */
module MermaidLabels {
  import opened Option
  import opened Mermaid

  predicate OneOfFour(k: Kind) {
    k == SQUARE || k == ROUND || k == CURLY || k == EDGE
  }

  // ---- Labels in a row ----

  /** The first character that is no body character. */
  function Stop(k: Kind, s: string): Option<char> {
    if s == [] then None else if !InBody(k, s[0]) then Some(s[0]) else Stop(k, s[1..])
  }

  /** `s` goes on with the end of a label that began before it. */
  predicate Closes(k: Kind, s: string) {
    Stop(k, s) == Some(k.close)
  }

  /** `s` ends with the beginning of a label. */
  predicate LeavesOpen(k: Kind, s: string)
    decreases |s|
  {
    if s == [] then false
    else if Matches(k, s) then LeavesOpen(k, RestOf(k, s))
    else (s[0] == k.open && Stop(k, s[1..]) == None) || LeavesOpen(k, s[1..])
  }

  predicate EveryLabel(k: Kind, s: string, p: string -> bool)
    decreases |s|
  {
    if s == [] then true
    else if Matches(k, s) then p(LabelOf(k, s)) && EveryLabel(k, RestOf(k, s), p)
    else EveryLabel(k, s[1..], p)
  }

  lemma {:induction false} StopIs(k: Kind, s: string)
    ensures Stop(k, s) == if BodyLength(k, s) < |s| then Some(s[BodyLength(k, s)]) else None
  {
    if s != [] && InBody(k, s[0]) {
      StopIs(k, s[1..]);
    }
  }

  lemma MatchesStop(k: Kind, s: string)
    ensures Matches(k, s) <==> s != [] && s[0] == k.open && Closes(k, s[1..])
  {
    if s != [] {
      StopIs(k, s[1..]);
    }
  }

  lemma {:induction false} StopAfter(k: Kind, a: string, b: string)
    ensures Stop(k, a + b) == if Stop(k, a).Some? then Stop(k, a) else Stop(k, b)
  {
    if a == [] {
      assert a + b == b;
    } else {
      assert (a + b)[1..] == a[1..] + b;
      StopAfter(k, a[1..], b);
    }
  }

  lemma {:induction false} BodyNeverStops(k: Kind, s: string)
    ensures IsBody(k, s) <==> Stop(k, s) == None
  {
    if s != [] {
      assert s == [s[0]] + s[1..];
      BodyNeverStops(k, s[1..]);
    }
  }

  lemma {:induction false} EverySkip(k: Kind, w: string, s: string, p: string -> bool)
    requires k.open !in w
    ensures EveryLabel(k, w + s, p) == EveryLabel(k, s, p)
  {
    if w == [] {
      assert w + s == s;
    } else {
      assert (w + s)[1..] == w[1..] + s;
      EverySkip(k, w[1..], s, p);
    }
  }

  lemma EveryFirst(k: Kind, body: string, rest: string, p: string -> bool)
    requires Proper(k) && IsBody(k, body)
    ensures EveryLabel(k, [k.open] + body + [k.close] + rest, p) == (p(body) && EveryLabel(k, rest, p))
  {
    LabelFirst(k, body, rest);
  }

  /** No label lies across the border. */
  predicate Cut(k: Kind, x: string, y: string) {
    !(LeavesOpen(k, x) && Closes(k, y))
  }

  lemma FirstOfTwo(k: Kind, x: string, y: string)
    requires Proper(k) && x != [] && Cut(k, x, y)
    ensures Matches(k, x + y) <==> Matches(k, x)
    ensures Matches(k, x) ==> LabelOf(k, x + y) == LabelOf(k, x) && RestOf(k, x + y) == RestOf(k, x) + y
    ensures Cut(k, if Matches(k, x) then RestOf(k, x) else x[1..], y)
  {
    MatchesStop(k, x);
    MatchesStop(k, x + y);
    assert (x + y)[1..] == x[1..] + y;
    StopAfter(k, x[1..], y);
    if Matches(k, x) {
      LabelFirst(k, LabelOf(k, x), RestOf(k, x) + y);
      assert x + y == [k.open] + LabelOf(k, x) + [k.close] + (RestOf(k, x) + y);
    }
  }

  lemma {:induction false} EveryCut(k: Kind, x: string, y: string, p: string -> bool)
    requires Proper(k) && Cut(k, x, y)
    ensures EveryLabel(k, x + y, p) == (EveryLabel(k, x, p) && EveryLabel(k, y, p))
    decreases |x|
  {
    if x == [] {
      assert x + y == y;
    } else {
      FirstOfTwo(k, x, y);
      assert (x + y)[1..] == x[1..] + y;
      EveryCut(k, if Matches(k, x) then RestOf(k, x) else x[1..], y, p);
    }
  }

  function Next(k: Kind, s: string): (rest: string)
    requires s != []
    ensures |rest| < |s|
  {
    if Matches(k, s) then RestOf(k, s) else s[1..]
  }

  /** What the pass writes for the first label or character. */
  function FirstOut(k: Kind, s: string): string
    requires s != []
  {
    if Matches(k, s) then [k.open] + SanitizeLabel(LabelOf(k, s)) + [k.close] else [s[0]]
  }

  lemma PassFirst(k: Kind, s: string)
    requires s != []
    ensures Pass(k, s) == FirstOut(k, s) + Pass(k, Next(k, s))
  {
  }

  lemma FirstOutOfTwo(k: Kind, x: string, y: string)
    requires Proper(k) && x != [] && Cut(k, x, y)
    ensures FirstOut(k, x + y) == FirstOut(k, x) && Next(k, x + y) == Next(k, x) + y && Cut(k, Next(k, x), y)
  {
    FirstOfTwo(k, x, y);
    assert (x + y)[1..] == x[1..] + y;
  }

  lemma Regroup(a: string, b: string, c: string)
    ensures a + (b + c) == (a + b) + c
  {
  }

  lemma {:induction false} PassCut(k: Kind, x: string, y: string)
    requires Proper(k) && Cut(k, x, y)
    ensures Pass(k, x + y) == Pass(k, x) + Pass(k, y)
    decreases |x|
  {
    if x == [] {
      assert x + y == y;
    } else {
      FirstOutOfTwo(k, x, y);
      PassCut(k, Next(k, x), y);
      PassFirst(k, x);
      PassFirst(k, x + y);
      Regroup(FirstOut(k, x), Pass(k, Next(k, x)), Pass(k, y));
    }
  }

  lemma AllSafeFrom(all: seq<Token>, rest: seq<Token>)
    requires all != [] && all == [all[0]] + rest
    ensures (forall j :: 0 <= j < |all| && all[j].Label? ==> Safe(all[j].body))
       <==> (all[0].Label? ==> Safe(all[0].body)) && (forall j :: 0 <= j < |rest| && rest[j].Label? ==> Safe(rest[j].body))
  {
    assert forall j :: 0 <= j < |rest| ==> rest[j] == all[j + 1];
    assert forall j :: 0 < j < |all| ==> all[j] == rest[j - 1];
  }

  lemma {:induction false} AllSafeIs(k: Kind, s: string)
    ensures AllSafe(k, s) <==> EveryLabel(k, s, Safe)
    decreases |s|
  {
    if s != [] {
      var rest := if Matches(k, s) then RestOf(k, s) else s[1..];
      AllSafeIs(k, rest);
      AllSafeFrom(Tokens(k, s), Tokens(k, rest));
    }
  }

  // ---- The skeleton of a chart ----

  predicate IsMark(c: char) {
    !(InBody(SQUARE, c) && InBody(ROUND, c) && InBody(CURLY, c) && InBody(EDGE, c))
  }

  /** All delimiters and line ends, in order. */
  function Skeleton(s: string): string {
    if s == [] then [] else (if IsMark(s[0]) then [s[0]] else []) + Skeleton(s[1..])
  }

  lemma SkeletonStep(s: string)
    requires s != []
    ensures IsMark(s[0]) ==> Skeleton(s) != [] && Skeleton(s)[0] == s[0] && Skeleton(s)[1..] == Skeleton(s[1..])
    ensures !IsMark(s[0]) ==> Skeleton(s) == Skeleton(s[1..])
  {
    assert [] + Skeleton(s[1..]) == Skeleton(s[1..]);
  }

  lemma {:induction false} SkeletonAdds(a: string, b: string)
    ensures Skeleton(a + b) == Skeleton(a) + Skeleton(b)
  {
    if a == [] {
      assert a + b == b;
    } else {
      assert (a + b)[1..] == a[1..] + b && (a + b)[0] == a[0];
      SkeletonAdds(a[1..], b);
      var mark := if IsMark(a[0]) then [a[0]] else [];
      assert Skeleton(a + b) == mark + Skeleton(a[1..] + b) && Skeleton(a) == mark + Skeleton(a[1..]);
      assert mark + (Skeleton(a[1..]) + Skeleton(b)) == (mark + Skeleton(a[1..])) + Skeleton(b);
    }
  }

  lemma {:induction false} EscapeKeepsSkeleton(body: string)
    ensures Skeleton(Escape(body)) == Skeleton(body)
  {
    if body != [] {
      EscapeKeepsSkeleton(body[1..]);
      if body[0] == '"' {
        EscapeQuoteSkeleton();
        SkeletonAdds(QUOTE, Escape(body[1..]));
      } else {
        assert Escape(body)[1..] == Escape(body[1..]);
      }
    }
  }

  lemma EscapeQuoteSkeleton()
    ensures Skeleton(QUOTE) == []
  {
    assert QUOTE == "#quot;" && QUOTE[1..] == "quot;" && "quot;"[1..] == "uot;" && "uot;"[1..] == "ot;" && "ot;"[1..] == "t;" && "t;"[1..] == ";";
    assert Skeleton(";") == [];
    assert Skeleton("t;") == [];
    assert Skeleton("ot;") == [];
  }

  lemma LabelKeepsSkeleton(body: string)
    ensures Skeleton(SanitizeLabel(body)) == Skeleton(body)
  {
    EscapeKeepsSkeleton(body);
    SkeletonAdds(['"'] + Escape(body), ['"']);
    SkeletonAdds(['"'], Escape(body));
  }

  lemma SkeletonOfLabel(k: Kind, body: string, rest: string)
    ensures Skeleton([k.open] + body + [k.close] + rest) == Skeleton([k.open]) + Skeleton(body) + Skeleton([k.close]) + Skeleton(rest)
  {
    SkeletonAdds([k.open] + body + [k.close], rest);
    SkeletonAdds([k.open] + body, [k.close]);
    SkeletonAdds([k.open], body);
  }

  lemma {:induction false} PassKeepsSkeleton(k: Kind, s: string)
    ensures Skeleton(Pass(k, s)) == Skeleton(s)
    decreases |s|
  {
    if s == [] {
    } else if Matches(k, s) {
      PassKeepsSkeleton(k, RestOf(k, s));
      LabelKeepsSkeleton(LabelOf(k, s));
      SkeletonOfLabel(k, SanitizeLabel(LabelOf(k, s)), Pass(k, RestOf(k, s)));
      SkeletonOfLabel(k, LabelOf(k, s), RestOf(k, s));
    } else {
      PassKeepsSkeleton(k, s[1..]);
      assert Pass(k, s)[1..] == Pass(k, s[1..]);
    }
  }

  lemma {:induction false} StopOfSkeleton(k: Kind, s: string)
    requires OneOfFour(k)
    ensures Stop(k, Skeleton(s)) == Stop(k, s)
  {
    if s != [] {
      SkeletonStep(s);
      StopOfSkeleton(k, s[1..]);
    }
  }

  lemma SkeletonMatches(k: Kind, s: string)
    requires OneOfFour(k) && s != [] && IsMark(s[0])
    ensures Matches(k, Skeleton(s)) <==> Matches(k, s)
    ensures Matches(k, s) ==> LabelOf(k, Skeleton(s)) == Skeleton(LabelOf(k, s)) && RestOf(k, Skeleton(s)) == Skeleton(RestOf(k, s))
  {
    TheFourAreProper();
    MatchesStop(k, s);
    MatchesStop(k, Skeleton(s));
    assert Skeleton(s)[1..] == Skeleton(s[1..]);
    StopOfSkeleton(k, s[1..]);
    if Matches(k, s) {
      SkeletonOfLabel(k, LabelOf(k, s), RestOf(k, s));
      StopOfSkeleton(k, LabelOf(k, s));
      BodyNeverStops(k, LabelOf(k, s));
      BodyNeverStops(k, Skeleton(LabelOf(k, s)));
      LabelFirst(k, Skeleton(LabelOf(k, s)), Skeleton(RestOf(k, s)));
      assert Skeleton([k.open]) == [k.open] && Skeleton([k.close]) == [k.close];
    }
  }

  lemma {:induction false} LeavesOpenOfSkeleton(k: Kind, s: string)
    requires OneOfFour(k)
    ensures LeavesOpen(k, Skeleton(s)) == LeavesOpen(k, s)
    decreases |s|
  {
    if s != [] {
      SkeletonStep(s);
      if !IsMark(s[0]) {
        LeavesOpenOfSkeleton(k, s[1..]);
      } else {
        SkeletonMatches(k, s);
        LeavesOpenOfSkeleton(k, if Matches(k, s) then RestOf(k, s) else s[1..]);
        StopOfSkeleton(k, s[1..]);
        assert Skeleton(s)[1..] == Skeleton(s[1..]);
      }
    }
  }

  /** A property of labels that only looks at delimiters. */

  lemma {:induction false} MarksInSkeleton(s: string, c: char)
    requires IsMark(c)
    ensures c in Skeleton(s) <==> c in s
  {
    if s != [] {
      SkeletonStep(s);
      MarksInSkeleton(s[1..], c);
      assert s == [s[0]] + s[1..];
      assert IsMark(s[0]) ==> Skeleton(s) == [s[0]] + Skeleton(s[1..]);
    }
  }

  lemma PassKeepsCuts(pass: Kind, k: Kind, x: string, y: string)
    requires OneOfFour(k)
    ensures Cut(k, Pass(pass, x), Pass(pass, y)) == Cut(k, x, y)
  {
    LeavesOpenOfSkeleton(k, x);
    LeavesOpenOfSkeleton(k, Pass(pass, x));
    StopOfSkeleton(k, y);
    StopOfSkeleton(k, Pass(pass, y));
    PassKeepsSkeleton(pass, x);
    PassKeepsSkeleton(pass, y);
  }

  lemma SameBody(k: Kind, a: string, b: string)
    requires OneOfFour(k) && Skeleton(a) == Skeleton(b)
    ensures IsBody(k, a) == IsBody(k, b)
  {
    StopOfSkeleton(k, a);
    StopOfSkeleton(k, b);
    BodyNeverStops(k, a);
    BodyNeverStops(k, b);
  }

  lemma {:induction false} NothingOpen(k: Kind, s: string, p: string -> bool)
    requires k.open !in s
    ensures !LeavesOpen(k, s) && EveryLabel(k, s, p)
  {
    if s != [] {
      NothingOpen(k, s[1..], p);
    }
  }

  lemma {:induction false} EscapeGrows(body: string)
    ensures |Escape(body)| >= |body| && '"' !in Escape(body)
  {
    TheFourAreProper();
    if body != [] {
      EscapeGrows(body[1..]);
      assert QUOTE == ['#', 'q', 'u', 'o', 't', ';'];
    }
  }

  lemma {:induction false} EscapeAdds(a: string, b: string)
    ensures Escape(a + b) == Escape(a) + Escape(b)
  {
    if a == [] {
      assert a + b == b;
    } else {
      assert (a + b)[1..] == a[1..] + b;
      EscapeAdds(a[1..], b);
    }
  }

  lemma EscapeMark(c: char)
    requires c != '"'
    ensures Escape([c]) == [c]
  {
    assert [c][1..] == [] && [c] + [] == [c];
  }

  // ---- Charts made of parts ----

  /** No label of any kind lies across the border. */
  predicate Apart(x: string, y: string) {
    Cut(SQUARE, x, y) && Cut(ROUND, x, y) && Cut(CURLY, x, y) && Cut(EDGE, x, y)
  }

  lemma PassKeepsApart(k: Kind, x: string, y: string)
    ensures Apart(Pass(k, x), Pass(k, y)) == Apart(x, y)
  {
    PassKeepsCuts(k, SQUARE, x, y);
    PassKeepsCuts(k, ROUND, x, y);
    PassKeepsCuts(k, CURLY, x, y);
    PassKeepsCuts(k, EDGE, x, y);
  }

  /** Parts are repaired independently. */
  lemma PartsAreRepaired(x: string, y: string)
    requires Apart(x, y)
    ensures SanitizeMermaidChart(x + y) == SanitizeMermaidChart(x) + SanitizeMermaidChart(y)
    ensures Apart(SanitizeMermaidChart(x), SanitizeMermaidChart(y))
  {
    TheFourAreProper();
    var a, b := Pass(SQUARE, x), Pass(SQUARE, y);
    var c, d := Pass(ROUND, a), Pass(ROUND, b);
    var e, f := Pass(CURLY, c), Pass(CURLY, d);
    PassCut(SQUARE, x, y);
    PassKeepsApart(SQUARE, x, y);
    PassCut(ROUND, a, b);
    PassKeepsApart(ROUND, a, b);
    PassCut(CURLY, c, d);
    PassKeepsApart(CURLY, c, d);
    PassCut(EDGE, e, f);
    PassKeepsApart(EDGE, e, f);
  }

  lemma SafeInParts(k: Kind, x: string, y: string)
    requires Proper(k) && Cut(k, x, y)
    ensures AllSafe(k, x + y) <==> AllSafe(k, x) && AllSafe(k, y)
  {
    AllSafeIs(k, x);
    AllSafeIs(k, y);
    AllSafeIs(k, x + y);
    EveryCut(k, x, y, Safe);
  }

  ghost predicate FourSafe(chart: string) {
    AllSafe(SQUARE, chart) && AllSafe(ROUND, chart) && AllSafe(CURLY, chart) && AllSafe(EDGE, chart)
  }

  lemma FourSafeInParts(x: string, y: string)
    requires Apart(x, y)
    ensures FourSafe(x + y) <==> FourSafe(x) && FourSafe(y)
  {
    TheFourAreProper();
    SafeInParts(SQUARE, x, y);
    SafeInParts(ROUND, x, y);
    SafeInParts(CURLY, x, y);
    SafeInParts(EDGE, x, y);
  }
}
