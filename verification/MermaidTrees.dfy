/** Charts in which labels nest and never cross, as trees, and what the passes make of such trees. */
module MermaidTrees {
  import opened Option
  import opened Mermaid
  import opened MermaidLabels
  import opened MermaidFrames

  datatype Node = Leaf(c: char) | Box(kind: Kind, inside: seq<Node>)

  function Draw(nodes: seq<Node>): string
    decreases nodes
  {
    if nodes == [] then [] else DrawNode(nodes[0]) + Draw(nodes[1..])
  }

  function DrawNode(n: Node): string
    decreases n
  {
    match n
    case Leaf(c) => [c]
    case Box(k, inside) => [k.open] + Draw(inside) + [k.close]
  }

  /** The boxes are all the labels there are. */
  predicate Uncrossed(nodes: seq<Node>)
    decreases nodes
  {
    nodes != [] ==> NodeOk(nodes[0]) && Apart(DrawNode(nodes[0]), Draw(nodes[1..])) && Uncrossed(nodes[1..])
  }

  predicate NodeOk(n: Node)
    decreases n
  {
    n.Box? ==> OneOfFour(n.kind) && IsBody(n.kind, Draw(n.inside)) && Uncrossed(n.inside)
  }

  // ---- A pass over a tree ----

  function Leaves(w: string): seq<Node> {
    if w == [] then [] else [Leaf(w[0])] + Leaves(w[1..])
  }

  function Escaped(nodes: seq<Node>): seq<Node>
    decreases nodes
  {
    if nodes == [] then [] else EscapedNode(nodes[0]) + Escaped(nodes[1..])
  }

  function EscapedNode(n: Node): seq<Node>
    decreases n
  {
    match n
    case Leaf(c) => if c == '"' then Leaves(QUOTE) else [n]
    case Box(k, inside) => [Box(k, Escaped(inside))]
  }

  function Repaired(nodes: seq<Node>): seq<Node> {
    if Safe(Draw(nodes)) then nodes else [Leaf('"')] + (Escaped(nodes) + [Leaf('"')])
  }

  function PassNode(j: Kind, n: Node): Node
    decreases n
  {
    match n
    case Leaf(_) => n
    case Box(k, inside) => Box(k, if k == j then Repaired(inside) else PassNodes(j, inside))
  }

  function PassNodes(j: Kind, nodes: seq<Node>): seq<Node>
    decreases nodes
  {
    if nodes == [] then [] else [PassNode(j, nodes[0])] + PassNodes(j, nodes[1..])
  }

  lemma {:induction false} DrawAdds(a: seq<Node>, b: seq<Node>)
    ensures Draw(a + b) == Draw(a) + Draw(b)
    decreases |a|
  {
    if a == [] {
      assert a + b == b;
    } else {
      assert (a + b)[1..] == a[1..] + b;
      DrawAdds(a[1..], b);
    }
  }

  lemma DrawOne(n: Node)
    ensures Draw([n]) == DrawNode(n)
  {
    assert [n][1..] == [];
  }

  lemma {:induction false} LeavesDraw(w: string)
    ensures Draw(Leaves(w)) == w
  {
    if w != [] {
      LeavesDraw(w[1..]);
      assert Leaves(w)[1..] == Leaves(w[1..]);
    }
  }

  lemma EscapeLabel(k: Kind, body: string)
    requires OneOfFour(k)
    ensures Escape([k.open] + body + [k.close]) == [k.open] + Escape(body) + [k.close]
  {
    EscapeAdds([k.open] + body, [k.close]);
    EscapeAdds([k.open], body);
    EscapeMark(k.open);
    EscapeMark(k.close);
  }

  lemma {:induction false} EscapedDraws(nodes: seq<Node>)
    requires Uncrossed(nodes)
    ensures Draw(Escaped(nodes)) == Escape(Draw(nodes))
    decreases nodes
  {
    if nodes != [] {
      EscapedNodeDraws(nodes[0]);
      EscapedDraws(nodes[1..]);
      DrawAdds(EscapedNode(nodes[0]), Escaped(nodes[1..]));
      EscapeAdds(DrawNode(nodes[0]), Draw(nodes[1..]));
    }
  }

  lemma {:induction false} EscapedNodeDraws(n: Node)
    requires NodeOk(n)
    ensures Draw(EscapedNode(n)) == Escape(DrawNode(n))
    decreases n
  {
    match n
    case Leaf(c) =>
      LeavesDraw(QUOTE);
      DrawOne(n);
      assert [c][1..] == [] && QUOTE + [] == QUOTE;
    case Box(k, inside) =>
      EscapedDraws(inside);
      EscapeLabel(k, Draw(inside));
      DrawOne(Box(k, Escaped(inside)));
  }

  lemma RepairedDraws(nodes: seq<Node>)
    requires Uncrossed(nodes)
    ensures Draw(Repaired(nodes)) == SanitizeLabel(Draw(nodes))
  {
    if !Safe(Draw(nodes)) {
      EscapedDraws(nodes);
      DrawOne(Leaf('"'));
      DrawAdds(Escaped(nodes), [Leaf('"')]);
      DrawAdds([Leaf('"')], Escaped(nodes) + [Leaf('"')]);
      Regroup(['"'], Escape(Draw(nodes)), ['"']);
    }
  }

  /** A pass along a label of another kind. */
  lemma PassAround(j: Kind, k: Kind, body: string)
    requires OneOfFour(j) && OneOfFour(k) && j != k
    ensures Pass(j, [k.open] + body + [k.close]) == [k.open] + Pass(j, body) + [k.close]
  {
    TheFourAreProper();
    assert [k.open] + body + [k.close] == [k.open] + (body + [k.close]);
    PassSkips(j, [k.open], body + [k.close]);
    assert Stop(j, [k.close]) == None by { assert [k.close][1..] == []; }
    PassCut(j, body, [k.close]);
    PassSkipsAll(j, [k.close]);
    assert [k.open] + (Pass(j, body) + [k.close]) == [k.open] + Pass(j, body) + [k.close];
  }

  lemma {:induction false} PassDraws(j: Kind, nodes: seq<Node>)
    requires OneOfFour(j) && Uncrossed(nodes)
    ensures Draw(PassNodes(j, nodes)) == Pass(j, Draw(nodes))
    decreases nodes
  {
    TheFourAreProper();
    if nodes != [] {
      PassNodeDraws(j, nodes[0]);
      PassDraws(j, nodes[1..]);
      PassCut(j, DrawNode(nodes[0]), Draw(nodes[1..]));
      assert PassNodes(j, nodes)[1..] == PassNodes(j, nodes[1..]);
    }
  }

  lemma {:induction false} PassNodeDraws(j: Kind, n: Node)
    requires OneOfFour(j) && NodeOk(n)
    ensures DrawNode(PassNode(j, n)) == Pass(j, DrawNode(n))
    decreases n
  {
    TheFourAreProper();
    match n
    case Leaf(c) => assert [c][1..] == [] && [c] + [] == [c];
    case Box(k, inside) =>
      if k == j {
        RepairedDraws(inside);
        PassOnce(j, [], Draw(inside), []);
        assert [] + (DrawNode(n) + []) == DrawNode(n);
        var body := SanitizeLabel(Draw(inside));
        assert [] + ([k.open] + body + [k.close] + []) == [k.open] + body + [k.close];
      } else {
        PassDraws(j, inside);
        PassAround(j, k, Draw(inside));
      }
  }

  // ---- The tree stays one ----

  lemma ApartOfSkeletons(x: string, y: string, u: string, v: string)
    requires Skeleton(x) == Skeleton(u) && Skeleton(y) == Skeleton(v)
    ensures Apart(x, y) == Apart(u, v)
  {
    CutOfSkeletons(SQUARE, x, y, u, v);
    CutOfSkeletons(ROUND, x, y, u, v);
    CutOfSkeletons(CURLY, x, y, u, v);
    CutOfSkeletons(EDGE, x, y, u, v);
  }

  lemma CutOfSkeletons(k: Kind, x: string, y: string, u: string, v: string)
    requires OneOfFour(k) && Skeleton(x) == Skeleton(u) && Skeleton(y) == Skeleton(v)
    ensures Cut(k, x, y) == Cut(k, u, v)
  {
    LeavesOpenOfSkeleton(k, x);
    LeavesOpenOfSkeleton(k, u);
    StopOfSkeleton(k, y);
    StopOfSkeleton(k, v);
  }

  predicate TextOnly(w: string) {
    forall c :: c in w ==> !IsMark(c)
  }

  lemma {:induction false} TextSkeleton(w: string)
    requires TextOnly(w)
    ensures Skeleton(w) == []
  {
    if w != [] {
      TextSkeleton(w[1..]);
    }
  }

  lemma TextIsApart(w: string, y: string)
    requires TextOnly(w)
    ensures Apart(w, y)
  {
    assert IsMark('[') && IsMark('(') && IsMark('{') && IsMark('|');
    NothingOpen(SQUARE, w, Safe);
    NothingOpen(ROUND, w, Safe);
    NothingOpen(CURLY, w, Safe);
    NothingOpen(EDGE, w, Safe);
  }

  lemma {:induction false} LeavesUncrossed(w: string, rest: seq<Node>)
    requires TextOnly(w) && Uncrossed(rest)
    ensures Uncrossed(Leaves(w) + rest)
  {
    if w == [] {
      assert Leaves(w) + rest == rest;
    } else {
      var more := Leaves(w[1..]) + rest;
      LeavesUncrossed(w[1..], rest);
      assert Leaves(w) + rest == [Leaf(w[0])] + more;
      TextIsApart([w[0]], Draw(more));
      UncrossedFrom(Leaf(w[0]), more);
    }
  }

  lemma UncrossedFrom(n: Node, rest: seq<Node>)
    requires NodeOk(n) && Apart(DrawNode(n), Draw(rest)) && Uncrossed(rest)
    ensures Uncrossed([n] + rest)
  {
    assert ([n] + rest)[0] == n && ([n] + rest)[1..] == rest;
  }

  lemma {:induction false} EndUncrossed(nodes: seq<Node>, c: char)
    requires !IsMark(c) && Uncrossed(nodes)
    ensures Uncrossed(nodes + [Leaf(c)])
    decreases nodes
  {
    var more := nodes + [Leaf(c)];
    if nodes == [] {
      TextIsApart([c], []);
      assert more == [Leaf(c)] && more[1..] == [];
    } else {
      EndUncrossed(nodes[1..], c);
      assert more[1..] == nodes[1..] + [Leaf(c)];
      DrawAdds(nodes[1..], [Leaf(c)]);
      DrawOne(Leaf(c));
      SkeletonAdds(Draw(nodes[1..]), [c]);
      TextSkeleton([c]);
      ApartOfSkeletons(DrawNode(nodes[0]), Draw(nodes[1..]), DrawNode(nodes[0]), Draw(more[1..]));
    }
  }

  lemma {:induction false} EscapedUncrossed(nodes: seq<Node>)
    requires Uncrossed(nodes)
    ensures Uncrossed(Escaped(nodes))
    decreases nodes, 0
  {
    if nodes != [] {
      EscapedUncrossed(nodes[1..]);
      EscapedDraws(nodes[1..]);
      EscapeKeepsSkeleton(Draw(nodes[1..]));
      EscapedNodeUncrossed(nodes[0], nodes[1..]);
    }
  }

  lemma {:induction false} EscapedNodeUncrossed(n: Node, rest: seq<Node>)
    requires NodeOk(n) && Uncrossed(rest) && Uncrossed(Escaped(rest)) && Apart(DrawNode(n), Draw(rest))
    ensures Uncrossed(EscapedNode(n) + Escaped(rest))
    decreases n, 1
  {
    if n == Leaf('"') {
      assert TextOnly(QUOTE);
      LeavesUncrossed(QUOTE, Escaped(rest));
    } else if n.Leaf? {
      EscapedApart(n, n, rest);
      UncrossedFrom(n, Escaped(rest));
    } else {
      var box := Box(n.kind, Escaped(n.inside));
      EscapedBoxOk(n.kind, n.inside);
      EscapeKeepsSkeleton(DrawNode(n));
      EscapedApart(n, box, rest);
      UncrossedFrom(box, Escaped(rest));
    }
  }

  lemma EscapedApart(n: Node, e: Node, rest: seq<Node>)
    requires Uncrossed(rest) && Apart(DrawNode(n), Draw(rest)) && Skeleton(DrawNode(e)) == Skeleton(DrawNode(n))
    ensures Apart(DrawNode(e), Draw(Escaped(rest)))
  {
    EscapedDraws(rest);
    EscapeKeepsSkeleton(Draw(rest));
    ApartOfSkeletons(DrawNode(n), Draw(rest), DrawNode(e), Draw(Escaped(rest)));
  }

  lemma {:induction false} EscapedBoxOk(k: Kind, inside: seq<Node>)
    requires NodeOk(Box(k, inside))
    ensures NodeOk(Box(k, Escaped(inside))) && DrawNode(Box(k, Escaped(inside))) == Escape(DrawNode(Box(k, inside)))
    decreases inside, 1
  {
    TheFourAreProper();
    EscapedUncrossed(inside);
    EscapedDraws(inside);
    EscapeIsBody(k, Draw(inside));
    EscapeLabel(k, Draw(inside));
  }

  lemma RepairedUncrossed(nodes: seq<Node>)
    requires Uncrossed(nodes)
    ensures Uncrossed(Repaired(nodes))
  {
    if !Safe(Draw(nodes)) {
      EscapedUncrossed(nodes);
      EndUncrossed(Escaped(nodes), '"');
      LeavesUncrossed(['"'], Escaped(nodes) + [Leaf('"')]);
      assert Leaves(['"']) == [Leaf('"')] by { assert ['"'][1..] == []; }
    }
  }

  lemma {:induction false} PassUncrossed(j: Kind, nodes: seq<Node>)
    requires OneOfFour(j) && Uncrossed(nodes)
    ensures Uncrossed(PassNodes(j, nodes))
    decreases nodes
  {
    if nodes != [] {
      PassNodeOk(j, nodes[0]);
      PassUncrossed(j, nodes[1..]);
      PassNodeDraws(j, nodes[0]);
      PassDraws(j, nodes[1..]);
      PassKeepsApart(j, DrawNode(nodes[0]), Draw(nodes[1..]));
      assert PassNodes(j, nodes)[1..] == PassNodes(j, nodes[1..]);
    }
  }

  lemma {:induction false} PassNodeOk(j: Kind, n: Node)
    requires OneOfFour(j) && NodeOk(n)
    ensures NodeOk(PassNode(j, n))
    decreases n
  {
    TheFourAreProper();
    if n.Box? {
      if n.kind == j {
        RepairedUncrossed(n.inside);
        RepairedDraws(n.inside);
        LabelIsBody(j, Draw(n.inside));
      } else {
        PassUncrossed(j, n.inside);
        PassDraws(j, n.inside);
        PassKeepsSkeleton(j, Draw(n.inside));
        SameBody(n.kind, Draw(n.inside), Pass(j, Draw(n.inside)));
      }
    }
  }
}
