/** Which labels of a tree are safe, before and after a pass. */
module MermaidBoxes {
  import opened Option
  import opened Mermaid
  import opened MermaidLabels
  import opened MermaidFrames
  import opened MermaidTrees

  // ---- Safe labels of a tree ----

  predicate AllBoxesSafe(nodes: seq<Node>)
    decreases nodes
  {
    nodes != [] ==> BoxSafe(nodes[0]) && AllBoxesSafe(nodes[1..])
  }

  predicate BoxSafe(n: Node)
    decreases n
  {
    n.Box? ==> Safe(Draw(n.inside)) && AllBoxesSafe(n.inside)
  }

  lemma SafeAround(i: Kind, k: Kind, body: string)
    requires OneOfFour(i) && OneOfFour(k) && IsBody(k, body)
    ensures AllSafe(i, [k.open] + body + [k.close]) <==> (i == k ==> Safe(body)) && AllSafe(i, body)
  {
    TheFourAreProper();
    var s := [k.open] + body + [k.close];
    AllSafeIs(i, s);
    AllSafeIs(i, body);
    if i == k {
      EveryFirst(k, body, [], Safe);
      assert s + [] == s;
      NothingOpen(k, body, Safe);
    } else {
      assert s == [k.open] + (body + [k.close]);
      EverySkip(i, [k.open], body + [k.close], Safe);
      assert Stop(i, [k.close]) == None by { assert [k.close][1..] == []; }
      EveryCut(i, body, [k.close], Safe);
      NothingOpen(i, [k.close], Safe);
    }
  }

  lemma FourSafeAround(k: Kind, body: string)
    requires OneOfFour(k) && IsBody(k, body)
    ensures FourSafe([k.open] + body + [k.close]) <==> Safe(body) && FourSafe(body)
  {
    SafeAround(SQUARE, k, body);
    SafeAround(ROUND, k, body);
    SafeAround(CURLY, k, body);
    SafeAround(EDGE, k, body);
  }

  lemma {:induction false} OneCharacterIsSafe(k: Kind, s: string)
    requires |s| <= 1
    ensures AllSafe(k, s)
  {
    AllSafeIs(k, s);
    if s != [] {
      assert s[1..] == [] && !Matches(k, s);
    }
  }

  lemma {:induction false} FourSafeIs(nodes: seq<Node>)
    requires Uncrossed(nodes)
    ensures FourSafe(Draw(nodes)) <==> AllBoxesSafe(nodes)
    decreases nodes
  {
    if nodes == [] {
      ShortIsSafe([]);
    } else {
      NodeSafeIs(nodes[0]);
      FourSafeIs(nodes[1..]);
      FourSafeInParts(DrawNode(nodes[0]), Draw(nodes[1..]));
    }
  }

  lemma {:induction false} NodeSafeIs(n: Node)
    requires NodeOk(n)
    ensures FourSafe(DrawNode(n)) <==> BoxSafe(n)
    decreases n
  {
    match n
    case Leaf(c) => ShortIsSafe([c]);
    case Box(k, inside) =>
      FourSafeAround(k, Draw(inside));
      FourSafeIs(inside);
  }

  lemma ShortIsSafe(s: string)
    requires |s| <= 1
    ensures FourSafe(s)
  {
    OneCharacterIsSafe(SQUARE, s);
    OneCharacterIsSafe(ROUND, s);
    OneCharacterIsSafe(CURLY, s);
    OneCharacterIsSafe(EDGE, s);
  }

  // ---- What a pass keeps of a label ----

  predicate HasParen(s: string) {
    '(' in s || ')' in s
  }

  lemma PassKeepsParens(j: Kind, s: string)
    ensures HasParen(Pass(j, s)) == HasParen(s)
  {
    PassKeepsSkeleton(j, s);
    SameParens(s, Pass(j, s));
  }

  lemma SameParens(s: string, t: string)
    requires Skeleton(s) == Skeleton(t)
    ensures HasParen(s) == HasParen(t)
  {
    MarksInSkeleton(s, '(');
    MarksInSkeleton(s, ')');
    MarksInSkeleton(t, '(');
    MarksInSkeleton(t, ')');
  }

  /** `to` begins and ends as `from` does. */
  predicate SameEnds(from: string, to: string) {
    |to| >= |from| >= 1 && to[0] == from[0] && to[|to| - 1] == from[|from| - 1]
  }

  lemma EndsAdd(a: string, b: string, c: string, d: string)
    requires SameEnds(a, b) && (SameEnds(c, d) || (c == [] && d == []))
    ensures SameEnds(a + c, b + d)
  {
  }

  /** The first label or character as it is. */
  function FirstIn(k: Kind, s: string): string
    requires s != []
  {
    if Matches(k, s) then [k.open] + LabelOf(k, s) + [k.close] else [s[0]]
  }

  lemma FirstEnds(k: Kind, s: string)
    requires s != []
    ensures SameEnds(FirstIn(k, s), FirstOut(k, s)) && s == FirstIn(k, s) + Next(k, s)
  {
    if Matches(k, s) {
      EscapeGrows(LabelOf(k, s));
    } else {
      assert s == [s[0]] + s[1..];
    }
  }

  lemma {:induction false} PassEnds(k: Kind, s: string)
    requires s != []
    ensures SameEnds(s, Pass(k, s))
    decreases |s|
  {
    PassFirst(k, s);
    FirstEnds(k, s);
    if Next(k, s) != [] {
      PassEnds(k, Next(k, s));
    }
    EndsAdd(FirstIn(k, s), FirstOut(k, s), Next(k, s), Pass(k, Next(k, s)));
  }

  lemma PassKeepsQuotes(k: Kind, s: string)
    ensures Quoted(Pass(k, s)) == Quoted(s)
  {
    if |s| >= 2 {
      PassEnds(k, s);
    } else if |s| == 1 {
      assert s[1..] == [] && !Matches(k, s) && Pass(k, s) == [s[0]];
    }
  }

  lemma {:induction false} PlainIsKept(k: Kind, s: string)
    requires Plain(s)
    ensures Pass(k, s) == s
    decreases |s|
  {
    if s != [] {
      PassFirst(k, s);
      FirstEnds(k, s);
      assert forall c :: c in Next(k, s) || c in FirstIn(k, s) ==> c in s;
      assert Matches(k, s) ==> forall c :: c in LabelOf(k, s) ==> c in FirstIn(k, s);
      PlainIsKept(k, Next(k, s));
    }
  }

  // ---- Labels with parentheses ----

  function Order(k: Kind): (m: nat)
    ensures m < 4
  {
    if k == SQUARE then 0 else if k == ROUND then 1 else if k == CURLY then 2 else 3
  }

  function Frames(nodes: seq<Node>): seq<Frame>
    decreases nodes
  {
    if nodes == [] then [] else FramesOf(nodes[0]) + Frames(nodes[1..])
  }

  function FramesOf(n: Node): seq<Frame>
    decreases n
  {
    if n.Box? && HasParen(Draw(n.inside)) then [Frame(Order(n.kind), Quoted(Draw(n.inside)), Frames(n.inside))] else []
  }

  lemma FramesFirst(nodes: seq<Node>)
    requires nodes != []
    ensures FramesOf(nodes[0]) == [] ==> Frames(nodes) == Frames(nodes[1..])
    ensures FramesOf(nodes[0]) != [] ==>
              FramesOf(nodes[0]) == [Frames(nodes)[0]] && Frames(nodes)[1..] == Frames(nodes[1..])
  {
  }

  lemma FramesOne(n: Node)
    ensures Frames([n]) == FramesOf(n)
    ensures n.Box? && HasParen(Draw(n.inside)) ==> FramesOf(n) == [Frame(Order(n.kind), Quoted(Draw(n.inside)), Frames(n.inside))]
    ensures n.Leaf? || !HasParen(Draw(n.inside)) ==> FramesOf(n) == []
  {
    assert [n][1..] == [] && Frames([]) == [];
  }

  lemma {:induction false} FramesAdd(a: seq<Node>, b: seq<Node>)
    ensures Frames(a + b) == Frames(a) + Frames(b)
    decreases |a|
  {
    if a == [] {
      assert a + b == b;
    } else {
      assert (a + b)[1..] == a[1..] + b;
      FramesAdd(a[1..], b);
    }
  }

  lemma {:induction false} LeavesHaveNone(w: string)
    ensures Frames(Leaves(w)) == []
  {
    if w != [] {
      LeavesHaveNone(w[1..]);
      assert Leaves(w)[1..] == Leaves(w[1..]);
    }
  }

  lemma BoxShows(nodes: seq<Node>)
    requires nodes != [] && nodes[0].Box?
    ensures nodes[0].kind.open in Draw(nodes)
    ensures forall c :: c in Draw(nodes[0].inside) || c in Draw(nodes[1..]) ==> c in Draw(nodes)
  {
    var n := nodes[0];
    assert n.kind.open in DrawNode(n) && forall c :: c in Draw(n.inside) ==> c in DrawNode(n);
  }

  lemma {:induction false} FramesMix(nodes: seq<Node>, around: set<nat>)
    requires Uncrossed(nodes)
    requires forall k :: OneOfFour(k) && Order(k) in around ==> k.open !in Draw(nodes)
    ensures Mixed(Frames(nodes), around)
    decreases nodes
  {
    if nodes != [] {
      var n := nodes[0];
      FramesMix(nodes[1..], around);
      FramesFirst(nodes);
      FramesOne(n);
      if n.Box? {
        BoxShows(nodes);
        FramesMix(n.inside, around + {Order(n.kind)});
      }
    }
  }

  lemma {:induction false} FramesOfEscaped(nodes: seq<Node>)
    requires Uncrossed(nodes)
    ensures Frames(Escaped(nodes)) == Unquoted(Frames(nodes))
    decreases nodes
  {
    if nodes != [] {
      var n := nodes[0];
      FramesOfEscaped(nodes[1..]);
      FramesAdd(EscapedNode(n), Escaped(nodes[1..]));
      FramesOfEscapedNode(n);
      FramesFirst(nodes);
    }
  }

  lemma {:induction false} FramesOfEscapedNode(n: Node)
    requires NodeOk(n)
    ensures Frames(EscapedNode(n)) == Unquoted(FramesOf(n))
    decreases n
  {
    FramesOne(n);
    if n.Box? {
      var s := Draw(n.inside);
      FramesOfEscaped(n.inside);
      EscapedDraws(n.inside);
      EscapeGrows(s);
      EscapeKeepsSkeleton(s);
      SameParens(s, Escape(s));
      FramesOne(EscapedNode(n)[0]);
      assert HasParen(s) ==> FramesOf(n)[1..] == [];
    } else {
      LeavesHaveNone(QUOTE);
    }
  }

  lemma FramesOfRepaired(nodes: seq<Node>)
    requires Uncrossed(nodes) && !Safe(Draw(nodes))
    ensures Frames(Repaired(nodes)) == Unquoted(Frames(nodes))
    ensures Quoted(Draw(Repaired(nodes))) && HasParen(Draw(Repaired(nodes))) == HasParen(Draw(nodes))
  {
    FramesOfEscaped(nodes);
    FramesAdd(Escaped(nodes), [Leaf('"')]);
    FramesAdd([Leaf('"')], Escaped(nodes) + [Leaf('"')]);
    assert Frames([Leaf('"')]) == [] by { assert [Leaf('"')][1..] == []; }
    RepairedDraws(nodes);
    LabelKeepsSkeleton(Draw(nodes));
    SameParens(Draw(nodes), SanitizeLabel(Draw(nodes)));
  }

  lemma {:induction false} FramesOfPass(j: Kind, nodes: seq<Node>)
    requires OneOfFour(j) && Uncrossed(nodes)
    ensures Frames(PassNodes(j, nodes)) == PassFrames(Order(j), Frames(nodes))
    decreases nodes
  {
    if nodes != [] {
      FramesOfPassed(j, nodes[0]);
      FramesOfPass(j, nodes[1..]);
      assert PassNodes(j, nodes)[1..] == PassNodes(j, nodes[1..]);
      FramesFirst(nodes);
      FramesFirst(PassNodes(j, nodes));
    }
  }

  lemma {:induction false} FramesOfPassed(j: Kind, n: Node)
    requires OneOfFour(j) && NodeOk(n)
    ensures FramesOf(PassNode(j, n)) == if FramesOf(n) == [] then [] else [PassFrame(Order(j), FramesOf(n)[0])]
    decreases n
  {
    if n.Box? {
      var s := Draw(n.inside);
      if n.kind != j {
        FramesOfPass(j, n.inside);
        PassDraws(j, n.inside);
        PassKeepsParens(j, s);
        PassKeepsQuotes(j, s);
      } else if !Safe(s) {
        FramesOfRepaired(n.inside);
      }
    }
  }

  // ---- Labels without parentheses ----

  /** Those of the first `m` kinds are safe. */
  predicate PlainBoxesSafe(m: nat, nodes: seq<Node>)
    decreases nodes
  {
    nodes != [] ==> PlainBoxSafe(m, nodes[0]) && PlainBoxesSafe(m, nodes[1..])
  }

  predicate PlainBoxSafe(m: nat, n: Node)
    decreases n
  {
    n.Box? ==>
      && (Order(n.kind) < m && !HasParen(Draw(n.inside)) ==> Safe(Draw(n.inside)))
      && PlainBoxesSafe(m, n.inside)
  }

  lemma {:induction false} PlainBoxesAdd(m: nat, a: seq<Node>, b: seq<Node>)
    ensures PlainBoxesSafe(m, a + b) == (PlainBoxesSafe(m, a) && PlainBoxesSafe(m, b))
    decreases |a|
  {
    if a == [] {
      assert a + b == b;
    } else {
      assert (a + b)[1..] == a[1..] + b;
      PlainBoxesAdd(m, a[1..], b);
    }
  }

  lemma {:induction false} LeavesAreSafe(m: nat, w: string)
    ensures PlainBoxesSafe(m, Leaves(w))
  {
    if w != [] {
      LeavesAreSafe(m, w[1..]);
      assert Leaves(w)[1..] == Leaves(w[1..]);
    }
  }

  lemma {:induction false} EscapedBoxesSafe(m: nat, nodes: seq<Node>)
    requires Uncrossed(nodes)
    ensures PlainBoxesSafe(m, Escaped(nodes))
    decreases nodes
  {
    if nodes != [] {
      var n := nodes[0];
      EscapedBoxesSafe(m, nodes[1..]);
      PlainBoxesAdd(m, EscapedNode(n), Escaped(nodes[1..]));
      if n.Box? {
        EscapedBoxesSafe(m, n.inside);
        EscapedDraws(n.inside);
        EscapeGrows(Draw(n.inside));
        OneBoxSafe(m, EscapedNode(n)[0]);
      } else {
        LeavesAreSafe(m, QUOTE);
        OneBoxSafe(m, n);
      }
    }
  }

  lemma OneBoxSafe(m: nat, n: Node)
    requires PlainBoxSafe(m, n)
    ensures PlainBoxesSafe(m, [n])
  {
    assert [n][1..] == [] && PlainBoxesSafe(m, []);
  }

  /** Without boxes of kind `j`. */
  lemma {:induction false} NextKind(j: Kind, nodes: seq<Node>)
    requires OneOfFour(j) && Uncrossed(nodes) && j.open !in Draw(nodes) && PlainBoxesSafe(Order(j), nodes)
    ensures PlainBoxesSafe(Order(j) + 1, nodes)
    decreases nodes
  {
    if nodes != [] {
      NextKind(j, nodes[1..]);
      if nodes[0].Box? {
        assert nodes[0].kind.open in DrawNode(nodes[0]);
        NextKind(j, nodes[0].inside);
      }
    }
  }

  lemma {:induction false} PassPlainBoxes(j: Kind, nodes: seq<Node>)
    requires OneOfFour(j) && Uncrossed(nodes) && PlainBoxesSafe(Order(j), nodes)
    ensures PlainBoxesSafe(Order(j) + 1, PassNodes(j, nodes))
    decreases nodes
  {
    if nodes != [] {
      PassPlainBox(j, nodes[0]);
      PassPlainBoxes(j, nodes[1..]);
      assert PassNodes(j, nodes)[1..] == PassNodes(j, nodes[1..]);
    }
  }

  lemma {:induction false} PassPlainBox(j: Kind, n: Node)
    requires OneOfFour(j) && NodeOk(n) && PlainBoxSafe(Order(j), n)
    ensures PlainBoxSafe(Order(j) + 1, PassNode(j, n))
    decreases n
  {
    if n.Box? {
      var s := Draw(n.inside);
      if n.kind != j {
        PassPlainBoxes(j, n.inside);
        PassDraws(j, n.inside);
        PassKeepsParens(j, s);
        PassKeepsQuotes(j, s);
        if Plain(s) {
          PlainIsKept(j, s);
        }
      } else if Safe(s) {
        NextKind(j, n.inside);
      } else {
        RepairedDraws(n.inside);
        EscapedBoxesSafe(Order(j) + 1, n.inside);
        PlainBoxesAdd(Order(j) + 1, Escaped(n.inside), [Leaf('"')]);
        PlainBoxesAdd(Order(j) + 1, [Leaf('"')], Escaped(n.inside) + [Leaf('"')]);
        OneBoxSafe(Order(j) + 1, Leaf('"'));
      }
    }
  }

  lemma {:induction false} ParenlessHasNone(nodes: seq<Node>)
    requires !HasParen(Draw(nodes))
    ensures Frames(nodes) == []
    decreases nodes
  {
    if nodes != [] {
      if nodes[0].Box? {
        assert forall c :: c in Draw(nodes[0].inside) ==> c in DrawNode(nodes[0]);
      }
      ParenlessHasNone(nodes[1..]);
    }
  }

  lemma {:induction false} AllBoxesSafeIs(nodes: seq<Node>)
    ensures AllBoxesSafe(nodes) <==> PlainBoxesSafe(4, nodes) && AllQuoted(Frames(nodes))
    decreases nodes
  {
    if nodes != [] {
      var n := nodes[0];
      AllBoxesSafeIs(nodes[1..]);
      FramesFirst(nodes);
      FramesOne(n);
      if n.Box? {
        AllBoxesSafeIs(n.inside);
        if !HasParen(Draw(n.inside)) {
          ParenlessHasNone(n.inside);
        }
      }
    }
  }
}
