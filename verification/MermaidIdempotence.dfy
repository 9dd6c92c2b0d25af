/** When repairing a chart twice is the same as repairing it once. */
module MermaidIdempotence {
  import opened Option
  import opened Mermaid
  import opened MermaidLabels
  import opened MermaidFrames
  import opened MermaidTrees
  import opened MermaidBoxes

  // ---- The four passes over a tree ----

  lemma PassTree(j: Kind, nodes: seq<Node>)
    requires OneOfFour(j) && Uncrossed(nodes) && PlainBoxesSafe(Order(j), nodes)
    ensures var after := PassNodes(j, nodes);
            && Uncrossed(after) && Draw(after) == Pass(j, Draw(nodes))
            && PlainBoxesSafe(Order(j) + 1, after) && Frames(after) == PassFrames(Order(j), Frames(nodes))
  {
    PassUncrossed(j, nodes);
    PassDraws(j, nodes);
    PassPlainBoxes(j, nodes);
    FramesOfPass(j, nodes);
  }

  lemma {:induction false} NoneIsSafe(nodes: seq<Node>)
    ensures PlainBoxesSafe(0, nodes)
    decreases nodes
  {
    if nodes != [] {
      if nodes[0].Box? {
        NoneIsSafe(nodes[0].inside);
      }
      NoneIsSafe(nodes[1..]);
    }
  }

  lemma RepairTree(nodes: seq<Node>) returns (after: seq<Node>)
    requires Uncrossed(nodes)
    ensures Uncrossed(after) && Draw(after) == SanitizeMermaidChart(Draw(nodes)) && PlainBoxesSafe(4, after)
    ensures Frames(after) == PassFrames(3, PassFrames(2, PassFrames(1, PassFrames(0, Frames(nodes)))))
  {
    var a := PassNodes(SQUARE, nodes);
    var b := PassNodes(ROUND, a);
    var c := PassNodes(CURLY, b);
    after := PassNodes(EDGE, c);
    NoneIsSafe(nodes);
    PassTree(SQUARE, nodes);
    PassTree(ROUND, a);
    PassTree(CURLY, b);
    PassTree(EDGE, c);
  }

  lemma TreeIsRepairedExactlyWhen(nodes: seq<Node>)
    requires Uncrossed(nodes)
    ensures FourSafe(SanitizeMermaidChart(Draw(nodes))) <==> Undisturbed(Frames(nodes), 4, {})
  {
    var after := RepairTree(nodes);
    FourSafeIs(after);
    AllBoxesSafeIs(after);
    FramesMix(nodes, {});
    FourPasses(Frames(nodes));
  }

  // ---- The tree of a chart ----

  /** The kind of the label that `s` starts with. */
  function FirstKind(s: string): (k: Option<Kind>)
    ensures k.Some? ==> OneOfFour(k.value) && Matches(k.value, s)
  {
    if Matches(SQUARE, s) then Some(SQUARE)
    else if Matches(ROUND, s) then Some(ROUND)
    else if Matches(CURLY, s) then Some(CURLY)
    else if Matches(EDGE, s) then Some(EDGE)
    else None
  }

  function TreeOf(s: string): (nodes: seq<Node>)
    ensures Draw(nodes) == s
    decreases |s|
  {
    if s == [] then [] else
    match FirstKind(s)
    case Some(k) => Grown(Box(k, TreeOf(LabelOf(k, s))), TreeOf(RestOf(k, s)))
    case None => assert s == [s[0]] + s[1..]; Grown(Leaf(s[0]), TreeOf(s[1..]))
  }

  function Grown(n: Node, nodes: seq<Node>): (more: seq<Node>)
    ensures Draw(more) == DrawNode(n) + Draw(nodes)
  {
    assert ([n] + nodes)[1..] == nodes;
    [n] + nodes
  }

  /** Labels of different kinds nest or keep apart; none crosses another. */
  predicate Nests(chart: string) {
    Uncrossed(TreeOf(chart))
  }

  /** No label with a parenthesis lies in a label of a later kind that has to be quoted. */
  predicate Settled(chart: string) {
    Undisturbed(Frames(TreeOf(chart)), 4, {})
  }

  // ---- Main results ----

  /** Where labels do not cross, repairing the chart twice is repairing it once exactly when no label with a
      parenthesis lies in one of a later kind that is not quoted as it stands, or that an unquoted one of an earlier
      kind encloses. */
  lemma NestedIdempotentExactlyWhen(chart: string)
    requires Nests(chart)
    ensures var once := SanitizeMermaidChart(chart); SanitizeMermaidChart(once) == once <==> Settled(chart)
  {
    TreeIsRepairedExactlyWhen(TreeOf(chart));
    UnchangedExactlyWhenSafe(SanitizeMermaidChart(chart));
  }

  function Whole(parts: seq<string>): string {
    if parts == [] then [] else parts[0] + Whole(parts[1..])
  }

  /** No label lies across a border, and in each part labels nest or need no repair. */
  ghost predicate Cuts(parts: seq<string>) {
    parts != [] ==>
      (Nests(parts[0]) || FourSafe(parts[0])) && Apart(parts[0], Whole(parts[1..])) && Cuts(parts[1..])
  }

  ghost predicate AllSettled(parts: seq<string>) {
    parts != [] ==> (FourSafe(parts[0]) || Settled(parts[0])) && AllSettled(parts[1..])
  }

  lemma PartIsRepairedExactlyWhen(part: string)
    requires Nests(part) || FourSafe(part)
    ensures FourSafe(SanitizeMermaidChart(part)) <==> FourSafe(part) || Settled(part)
  {
    if FourSafe(part) {
      UnchangedExactlyWhenSafe(part);
    } else {
      TreeIsRepairedExactlyWhen(TreeOf(part));
    }
  }

  lemma {:induction false} PartsAreSafeExactlyWhen(parts: seq<string>)
    requires Cuts(parts)
    ensures FourSafe(SanitizeMermaidChart(Whole(parts))) <==> AllSettled(parts)
  {
    if parts == [] {
      ShortIsSafe([]);
      UnchangedExactlyWhenSafe([]);
    } else {
      var part, rest := parts[0], Whole(parts[1..]);
      PartIsRepairedExactlyWhen(part);
      PartsAreSafeExactlyWhen(parts[1..]);
      PartsAreRepaired(part, rest);
      FourSafeInParts(SanitizeMermaidChart(part), SanitizeMermaidChart(rest));
    }
  }

  /** The same for a chart that consists of parts: labels may cross in those that need no repair. */
  lemma PartsIdempotentExactlyWhen(parts: seq<string>)
    requires Cuts(parts)
    ensures var once := SanitizeMermaidChart(Whole(parts)); SanitizeMermaidChart(once) == once <==> AllSettled(parts)
  {
    PartsAreSafeExactlyWhen(parts);
    UnchangedExactlyWhenSafe(SanitizeMermaidChart(Whole(parts)));
  }

  // ---- Charts in which no label holds a delimiter of an earlier kind ----

  function Without(k: Kind): string -> bool {
    body => k.open !in body && k.close !in body
  }

  predicate Before(k: Kind, later: Kind) {
    OneOfFour(k) && OneOfFour(later) && Order(k) < Order(later)
  }

  /** Labels of a later kind hold no delimiter of an earlier one. */
  ghost predicate Separate(chart: string) {
    forall k, later :: Before(k, later) ==> EveryLabel(later, chart, Without(k))
  }

  /** A label across a border: what stands at the border is in it. */
  lemma {:induction false} LabelAcross(k: Kind, x: string, y: string, p: string -> bool) returns (body: string)
    requires Proper(k) && LeavesOpen(k, x) && Closes(k, y) && EveryLabel(k, x + y, p)
    ensures x != [] && p(body) && (x[|x| - 1] == k.open || x[|x| - 1] in body)
    decreases |x|
  {
    if Matches(k, x) {
      LabelOnly(k, x, y);
      body := LabelAcross(k, RestOf(k, x), y, p);
    } else if x[0] == k.open && Stop(k, x[1..]) == None {
      NoLabelYet(k, x, y);
      body := LabelOf(k, x + y);
      InLabel(k, x, y);
    } else {
      NoLabelYet(k, x, y);
      assert (x + y)[1..] == x[1..] + y;
      body := LabelAcross(k, x[1..], y, p);
    }
  }

  lemma LabelOnly(k: Kind, x: string, y: string)
    requires Proper(k) && Matches(k, x)
    ensures Matches(k, x + y) && RestOf(k, x + y) == RestOf(k, x) + y
  {
    LabelFirst(k, LabelOf(k, x), RestOf(k, x) + y);
    assert x + y == [k.open] + LabelOf(k, x) + [k.close] + (RestOf(k, x) + y);
  }

  lemma NoLabelYet(k: Kind, x: string, y: string)
    requires x != [] && !Matches(k, x) && Closes(k, y)
    ensures Matches(k, x + y) <==> x[0] == k.open && Stop(k, x[1..]) == None
  {
    MatchesStop(k, x);
    MatchesStop(k, x + y);
    assert (x + y)[1..] == x[1..] + y;
    StopAfter(k, x[1..], y);
  }

  lemma InLabel(k: Kind, x: string, y: string)
    requires x != [] && Matches(k, x + y) && Stop(k, x[1..]) == None
    ensures |x| > 1 ==> x[|x| - 1] in LabelOf(k, x + y)
  {
    assert (x + y)[1..] == x[1..] + y;
    BodyNeverStops(k, x[1..]);
    var n := BodyLength(k, x[1..] + y);
    if |x| > 1 {
      assert n >= |x| - 1;
      assert LabelOf(k, x + y)[|x| - 2] == x[|x| - 1];
    }
  }

  lemma {:induction false} OpenNeedsOpening(k: Kind, s: string)
    requires LeavesOpen(k, s)
    ensures k.open in s
  {
    if k.open !in s {
      NothingOpen(k, s, Safe);
    }
  }

  /** A label and what follows it. */
  lemma LabelIsApart(k: Kind, body: string, rest: string)
    requires OneOfFour(k) && IsBody(k, body) && Separate([k.open] + body + [k.close] + rest)
    ensures Apart([k.open] + body + [k.close], rest)
  {
    CutAfterLabel(SQUARE, k, body, rest);
    CutAfterLabel(ROUND, k, body, rest);
    CutAfterLabel(CURLY, k, body, rest);
    CutAfterLabel(EDGE, k, body, rest);
  }

  lemma CutAfterLabel(i: Kind, k: Kind, body: string, rest: string)
    requires OneOfFour(i) && OneOfFour(k) && IsBody(k, body) && Separate([k.open] + body + [k.close] + rest)
    ensures Cut(i, [k.open] + body + [k.close], rest)
  {
    TheFourAreProper();
    var x := [k.open] + body + [k.close];
    if LeavesOpen(i, x) && Closes(i, rest) {
      if i == k {
        LabelFirst(k, body, []);
        assert x + [] == x;
      } else if Order(i) < Order(k) {
        OpenNeedsOpening(i, x);
        assert Before(i, k);
        EveryFirst(k, body, rest, Without(i));
      } else {
        assert Before(k, i);
        var across := LabelAcross(i, x, rest, Without(k));
      }
    }
  }

  /** Labels in a label, and labels after it. */
  lemma EveryInside(i: Kind, k: Kind, body: string, rest: string, p: string -> bool)
    requires OneOfFour(i) && OneOfFour(k) && IsBody(k, body) && Apart([k.open] + body + [k.close], rest)
    requires EveryLabel(i, [k.open] + body + [k.close] + rest, p)
    ensures EveryLabel(i, body, p) && EveryLabel(i, rest, p)
  {
    TheFourAreProper();
    EveryCut(i, [k.open] + body + [k.close], rest, p);
    if i == k {
      NothingOpen(i, body, p);
    } else {
      assert [k.open] + body + [k.close] == [k.open] + (body + [k.close]);
      EverySkip(i, [k.open], body + [k.close], p);
      assert Stop(i, [k.close]) == None by { assert [k.close][1..] == []; }
      EveryCut(i, body, [k.close], p);
    }
  }

  lemma SeparateInside(k: Kind, body: string, rest: string)
    requires OneOfFour(k) && IsBody(k, body) && Separate([k.open] + body + [k.close] + rest)
    ensures Apart([k.open] + body + [k.close], rest) && Separate(body) && Separate(rest)
    ensures forall i :: Before(i, k) ==> i.open !in body
  {
    TheFourAreProper();
    LabelIsApart(k, body, rest);
    forall i, later | Before(i, later)
      ensures EveryLabel(later, body, Without(i)) && EveryLabel(later, rest, Without(i))
    {
      EveryInside(later, k, body, rest, Without(i));
    }
    forall i | Before(i, k)
      ensures i.open !in body
    {
      EveryFirst(k, body, rest, Without(i));
    }
  }

  /** Boxes hold no delimiter of an earlier kind. */
  ghost predicate Sorted(nodes: seq<Node>)
    decreases nodes
  {
    nodes != [] ==> SortedNode(nodes[0]) && Sorted(nodes[1..])
  }

  ghost predicate SortedNode(n: Node)
    decreases n
  {
    n.Box? ==> Sorted(n.inside) && forall i :: Before(i, n.kind) ==> i.open !in Draw(n.inside)
  }

  lemma {:induction false} SeparateIsSorted(s: string)
    requires Separate(s)
    ensures Uncrossed(TreeOf(s)) && Sorted(TreeOf(s))
    decreases |s|
  {
    if s != [] {
      var nodes := TreeOf(s);
      match FirstKind(s)
      case Some(k) =>
        SeparateInside(k, LabelOf(k, s), RestOf(k, s));
        SeparateIsSorted(LabelOf(k, s));
        SeparateIsSorted(RestOf(k, s));
        assert nodes[1..] == TreeOf(RestOf(k, s));
      case None =>
        SeparateTail(s);
        SeparateIsSorted(s[1..]);
        assert nodes[1..] == TreeOf(s[1..]);
    }
  }

  lemma SeparateTail(s: string)
    requires s != [] && FirstKind(s).None? && Separate(s)
    ensures Separate(s[1..]) && Apart([s[0]], s[1..])
  {
    CutAfterCharacter(SQUARE, s);
    CutAfterCharacter(ROUND, s);
    CutAfterCharacter(CURLY, s);
    CutAfterCharacter(EDGE, s);
    forall i, later | Before(i, later)
      ensures EveryLabel(later, s[1..], Without(i))
    {
      assert EveryLabel(later, s, Without(i)) && !Matches(later, s);
    }
  }

  lemma CutAfterCharacter(k: Kind, s: string)
    requires s != [] && !Matches(k, s)
    ensures Cut(k, [s[0]], s[1..])
  {
    MatchesStop(k, s);
    if LeavesOpen(k, [s[0]]) {
      OpenNeedsOpening(k, [s[0]]);
    }
  }

  lemma {:induction false} SortedIsSettled(nodes: seq<Node>, least: nat, around: set<nat>)
    requires Uncrossed(nodes) && Sorted(nodes)
    requires forall i, x :: OneOfFour(i) && x in around && Order(i) < x ==> i.open !in Draw(nodes)
    ensures Undisturbed(Frames(nodes), least, around)
    decreases nodes
  {
    if nodes != [] {
      var n := nodes[0];
      FramesFirst(nodes);
      FramesOne(n);
      SortedIsSettled(nodes[1..], least, around);
      if n.Box? && HasParen(Draw(n.inside)) {
        var f := Frames(nodes)[0];
        assert n.kind.open in DrawNode(n) && DrawNode(n) <= Draw(nodes);
        assert forall c :: c in Draw(n.inside) ==> c in DrawNode(n);
        forall i | OneOfFour(i) && Order(i) < f.kind
          ensures i.open !in Draw(n.inside)
        {
          assert Before(i, n.kind);
        }
        SortedIsSettled(n.inside, Least(f, least), Around(f, least, around));
      }
    }
  }

  /** In particular, repairing is idempotent where no label holds a delimiter of an earlier kind. */
  lemma SeparateIsIdempotent(chart: string)
    requires Separate(chart)
    ensures var once := SanitizeMermaidChart(chart); SanitizeMermaidChart(once) == once
  {
    SeparateIsSorted(chart);
    SortedIsSettled(TreeOf(chart), 4, {});
    NestedIdempotentExactlyWhen(chart);
  }

  // ---- Where it fails ----

  lemma TextIsBody(k: Kind, w: string)
    requires OneOfFour(k) && TextOnly(w)
    ensures IsBody(k, w)
  {
  }

  /** A box after text, in a box. */
  lemma BoxAfterText(k: Kind, w: string, n: Node)
    requires OneOfFour(k) && TextOnly(w) && NodeOk(n) && IsBody(k, DrawNode(n))
    ensures NodeOk(Box(k, Leaves(w) + [n])) && Draw(Leaves(w) + [n]) == w + DrawNode(n)
    ensures Frames(Leaves(w) + [n]) == FramesOf(n)
  {
    assert Apart(DrawNode(n), []);
    UncrossedFrom(n, []);
    assert [n] + [] == [n];
    LeavesUncrossed(w, [n]);
    LeavesDraw(w);
    DrawAdds(Leaves(w), [n]);
    DrawOne(n);
    TextIsBody(k, w);
    LeavesHaveNone(w);
    FramesAdd(Leaves(w), [n]);
    FramesOne(n);
  }

  function Round(c: string): Node {
    Box(ROUND, Leaves(c))
  }

  function Square(b: string, c: string): Node {
    Box(SQUARE, Leaves(b) + [Round(c)])
  }

  /** `{a[b(c)]}`. */
  function Curly(a: string, b: string, c: string): Node {
    Box(CURLY, Leaves(a) + [Square(b, c)])
  }

  lemma RoundIs(c: string)
    requires TextOnly(c)
    ensures NodeOk(Round(c)) && DrawNode(Round(c)) == ['('] + c + [')']
  {
    LeavesUncrossed(c, []);
    assert Leaves(c) + [] == Leaves(c);
    LeavesDraw(c);
    TextIsBody(ROUND, c);
  }

  lemma SquareIs(b: string, c: string)
    requires TextOnly(b) && TextOnly(c)
    ensures NodeOk(Square(b, c)) && Draw(Square(b, c).inside) == b + (['('] + c + [')'])
  {
    RoundIs(c);
    TextIsBody(SQUARE, c);
    BoxAfterText(SQUARE, b, Round(c));
  }

  lemma CurlyIs(a: string, b: string, c: string)
    requires TextOnly(a) && TextOnly(b) && TextOnly(c)
    ensures NodeOk(Curly(a, b, c)) && Draw(Curly(a, b, c).inside) == a + (['['] + (b + (['('] + c + [')'])) + [']'])
    ensures Frames(Curly(a, b, c).inside) == FramesOf(Square(b, c))
  {
    SquareIs(b, c);
    SquareIsBody(b, c);
    BoxAfterText(CURLY, a, Square(b, c));
  }

  lemma SquareIsBody(b: string, c: string)
    requires TextOnly(b) && TextOnly(c)
    ensures IsBody(CURLY, ['['] + (b + (['('] + c + [')'])) + [']'])
  {
    TextIsBody(CURLY, b);
    TextIsBody(CURLY, c);
  }

  /** The square label will not be quoted, being in one that is. */
  lemma CurlyIsUnsettled(a: string, b: string, c: string)
    requires TextOnly(a) && TextOnly(b) && TextOnly(c)
    ensures !Undisturbed(FramesOf(Curly(a, b, c)), 4, {})
  {
    SquareIs(b, c);
    CurlyIs(a, b, c);
    FramesOne(Curly(a, b, c));
    FramesOne(Square(b, c));
    var inner, outer := Draw(Square(b, c).inside), Draw(Curly(a, b, c).inside);
    assert inner[|b|] == '(' && outer[|a| + 1 + |b|] == '(' && outer[|outer| - 1] == ']';
    var f := FramesOf(Curly(a, b, c))[0];
    assert f.inside == FramesOf(Square(b, c)) && f.inside[0].kind == 0 && f.kind == 2 && !f.quoted;
    assert Around(f, 4, {}) == {2};
  }

  /** Labels that nest without crossing: the outer one is quoted, which escapes the quotes of the inner one. */
  lemma NestingIsNotIdempotent(a: string, b: string, c: string)
    requires TextOnly(a) && TextOnly(b) && TextOnly(c)
    ensures var chart := ['{'] + (a + (['['] + (b + (['('] + c + [')'])) + [']'])) + ['}'];
            SanitizeMermaidChart(SanitizeMermaidChart(chart)) != SanitizeMermaidChart(chart)
  {
    var curly := Curly(a, b, c);
    CurlyIs(a, b, c);
    CurlyIsUnsettled(a, b, c);
    UncrossedFrom(curly, []);
    assert [curly] + [] == [curly];
    DrawOne(curly);
    FramesOne(curly);
    TreeIsRepairedExactlyWhen([curly]);
    UnchangedExactlyWhenSafe(SanitizeMermaidChart(DrawNode(curly)));
  }
}
