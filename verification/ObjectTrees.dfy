/** Paths in a tree of objects: each write is seen along its own path only. */
module ObjectTrees {
  import opened ObjectHeap
  import opened ObjectPath

  /** An own property. */
  function Slot(heap: Heap, r: Ref, k: string): Value {
    if r < |heap| && k in heap[r].props then heap[r].props[k] else Undefined
  }

  predicate IsPrototype(heap: Heap, r: Ref) {
    exists s :: 0 <= s < |heap| && r in heap[s].chain
  }

  /** Nothing refers to the root, no object is shared, and none of them serves as a prototype. */
  ghost predicate Tree(heap: Heap, root: Ref) {
    && !IsPrototype(heap, root)
    && (forall r, k {:trigger Slot(heap, r, k)} :: Slot(heap, r, k).Object? ==>
          Slot(heap, r, k) != Object(root) && !IsPrototype(heap, Slot(heap, r, k).ref))
    && (forall r, k, s, j {:trigger Slot(heap, r, k), Slot(heap, s, j)} ::
          Slot(heap, r, k).Object? && Slot(heap, r, k) == Slot(heap, s, j) ==> r == s && k == j)
  }

  ghost predicate NoPrototypeHas(heap: Heap, k: string) {
    forall h {:trigger IsPrototype(heap, h)} :: 0 <= h < |heap| && IsPrototype(heap, h) ==> k !in heap[h].props
  }

  /** No prototype has a key of the path. */
  ghost predicate OwnKeys(heap: Heap, path: Path) {
    && PlainKeys(heap, path)
    && forall k :: k in path ==> NoPrototypeHas(heap, k)
  }

  lemma {:induction false} LookupNothing(heap: Heap, holders: seq<Ref>, k: string)
    requires forall h :: h in holders && h < |heap| ==> k !in heap[h].props
    ensures Lookup(heap, holders, k) == Undefined
  {
    if holders != [] {
      assert holders[0] in holders;
      assert forall h :: h in holders[1..] ==> h in holders;
      LookupNothing(heap, holders[1..], k);
    }
  }

  lemma OwnMember(heap: Heap, r: Ref, k: string)
    requires r < |heap| && k != PROTO && NoPrototypeHas(heap, k)
    ensures Member(heap, Object(r), k) == Slot(heap, r, k)
  {
    var chain := heap[r].chain;
    assert Holders(heap, r)[1..] == chain;
    if k !in heap[r].props {
      forall h | h in chain && h < |heap|
        ensures k !in heap[h].props
      {
        assert IsPrototype(heap, h);
      }
      LookupNothing(heap, chain, k);
    }
  }

  lemma KeysWithin(heap: Heap, path: Path, i: nat)
    requires OwnKeys(heap, path) && i <= |path|
    ensures OwnKeys(heap, path[..i]) && OwnKeys(heap, path[i..])
  {
    assert forall k :: k in path[..i] ==> k in path;
    assert forall k :: k in path[i..] ==> k in path;
  }

  lemma {:induction false} NodeLast(heap: Heap, v: Value, path: Path)
    requires path != []
    ensures Node(heap, v, path) == Member(heap, Node(heap, v, path[..|path| - 1]), path[|path| - 1])
    decreases |path|
  {
    if |path| > 1 {
      NodeLast(heap, Member(heap, v, path[0]), path[1..]);
      assert path[1..][..|path| - 2] == path[..|path| - 1][1..];
    } else {
      assert path[..0] == [] && path[1..] == [];
    }
  }

  lemma {:induction false} NodeWithin(heap: Heap, v: Value, path: Path)
    requires Closed(heap) && Within(heap, v)
    ensures Within(heap, Node(heap, v, path))
    decreases |path|
  {
    if path != [] {
      MemberWithin(heap, v, path[0]);
      NodeWithin(heap, Member(heap, v, path[0]), path[1..]);
    }
  }

  /** An object that is reached stands in a property of another one. */
  lemma ReachedBy(heap: Heap, root: Ref, path: Path)
    requires Closed(heap) && root < |heap| && OwnKeys(heap, path) && path != [] && Node(heap, Object(root), path).Object?
    ensures var owner, k := Node(heap, Object(root), path[..|path| - 1]), path[|path| - 1];
            owner.Object? && owner.ref < |heap| && Slot(heap, owner.ref, k) == Node(heap, Object(root), path)
  {
    NodeLast(heap, Object(root), path);
    NodeWithin(heap, Object(root), path[..|path| - 1]);
    var owner, k := Node(heap, Object(root), path[..|path| - 1]), path[|path| - 1];
    assert k in path && !Inherited(heap, k);
    if owner.Object? {
      OwnMember(heap, owner.ref, k);
    }
  }

  /** What a path reaches in a tree is no prototype. */
  lemma ReachedIsNoPrototype(heap: Heap, root: Ref, path: Path)
    requires Closed(heap) && root < |heap| && Tree(heap, root) && OwnKeys(heap, path) && Node(heap, Object(root), path).Object?
    ensures !IsPrototype(heap, Node(heap, Object(root), path).ref)
  {
    if path != [] {
      ReachedBy(heap, root, path);
    }
  }

  /** In a tree, one path only leads to an object. */
  lemma {:induction false} OnePathOnly(heap: Heap, root: Ref, p: Path, q: Path)
    requires Closed(heap) && root < |heap| && Tree(heap, root) && OwnKeys(heap, p) && OwnKeys(heap, q)
    requires Node(heap, Object(root), p).Object? && Node(heap, Object(root), p) == Node(heap, Object(root), q)
    ensures p == q
    decreases |p|
  {
    if p == [] && q != [] {
      ReachedBy(heap, root, q);
      assert false;
    } else if p != [] && q == [] {
      ReachedBy(heap, root, p);
      assert false;
    } else if p != [] {
      SameOwner(heap, root, p, q);
      KeysWithin(heap, p, |p| - 1);
      KeysWithin(heap, q, |q| - 1);
      OnePathOnly(heap, root, p[..|p| - 1], q[..|q| - 1]);
      SameWhole(p, q);
    }
  }

  lemma SameOwner(heap: Heap, root: Ref, p: Path, q: Path)
    requires Closed(heap) && root < |heap| && Tree(heap, root) && OwnKeys(heap, p) && OwnKeys(heap, q) && p != [] && q != []
    requires Node(heap, Object(root), p).Object? && Node(heap, Object(root), p) == Node(heap, Object(root), q)
    ensures var owner := Node(heap, Object(root), p[..|p| - 1]);
            owner.Object? && owner == Node(heap, Object(root), q[..|q| - 1])
    ensures p[|p| - 1] == q[|q| - 1]
  {
    ReachedBy(heap, root, p);
    ReachedBy(heap, root, q);
  }

  lemma SameWhole(p: Path, q: Path)
    requires p != [] && q != [] && p[..|p| - 1] == q[..|q| - 1] && p[|p| - 1] == q[|q| - 1]
    ensures p == q
  {
    assert p == p[..|p| - 1] + [p[|p| - 1]];
    assert q == q[..|q| - 1] + [q[|q| - 1]];
  }

  /** A property of an object that is no prototype is looked at only from that object. */
  lemma LookedFromOwner(heap: Heap, v: Value, k: string, e: Edge)
    requires e in Looked(heap, v, k) && !IsPrototype(heap, e.ref)
    ensures v == Object(e.ref) && k == e.key
  {
    ConsultedKey(heap, Holders(heap, v.ref), k, e);
  }

  lemma {:induction false} EdgeIsAt(heap: Heap, v: Value, q: Path, e: Edge) returns (i: nat)
    requires e in Edges(heap, v, q) && !IsPrototype(heap, e.ref)
    ensures i < |q| && Node(heap, v, q[..i]) == Object(e.ref) && q[i] == e.key
    decreases |q|
  {
    if e in Looked(heap, v, q[0]) {
      LookedFromOwner(heap, v, q[0], e);
      i := 0;
    } else {
      i := EdgeIsAt(heap, Member(heap, v, q[0]), q[1..], e);
      assert q[..i + 1][1..] == q[1..][..i];
      i := i + 1;
    }
  }

  lemma {:induction false} EdgeIsBefore(heap: Heap, v: Value, path: Path, e: Edge) returns (i: nat)
    requires path != [] && e in Before(heap, v, path) && !IsPrototype(heap, e.ref)
    ensures i < Depth(heap, v, path) && Node(heap, v, path[..i]) == Object(e.ref) && path[i] == e.key
    decreases |path|
  {
    if e in Looked(heap, v, path[0]) {
      LookedFromOwner(heap, v, path[0], e);
      i := 0;
    } else {
      i := EdgeIsBefore(heap, Member(heap, v, path[0]), path[1..], e);
      assert path[..i + 1][1..] == path[1..][..i];
      i := i + 1;
    }
  }

  /** In a tree the way to a write never leads over the written property. */
  lemma TreeWriteIsNotBefore(heap: Heap, root: Ref, path: Path)
    requires Closed(heap) && root < |heap| && Tree(heap, root) && OwnKeys(heap, path) && Writes(heap, Object(root), path)
    ensures Written(heap, Object(root), path) !in Before(heap, Object(root), path)
    ensures !IsPrototype(heap, Written(heap, Object(root), path).ref)
  {
    var e, j := Written(heap, Object(root), path), Depth(heap, Object(root), path);
    KeysWithin(heap, path, j);
    ReachedIsNoPrototype(heap, root, path[..j]);
    if e in Before(heap, Object(root), path) {
      var i := EdgeIsBefore(heap, Object(root), path, e);
      KeysWithin(heap, path, i);
      OnePathOnly(heap, root, path[..i], path[..j]);
    }
  }

  lemma {:induction false} ChainDiverges(heap: Heap, rest: Path, q: Path, x: Value)
    requires heap != [] && rest != [] && PlainKeys(heap, rest) && PlainKeys(heap, q) && !(rest <= q) && !(q <= rest)
    ensures Get(heap + Chain(|heap|, rest, x), Object(|heap|), q) == Undefined
    decreases |rest|
  {
    var n, after := |heap|, heap + Chain(|heap|, rest, x);
    PlainTail(heap, after, rest);
    PlainTail(heap, after, q);
    assert after[n] == Chain(n, rest, x)[0];
    if rest[0] == q[0] {
      assert rest == [rest[0]] + rest[1..] && q == [q[0]] + q[1..];
      var linked := heap + [NewWith(rest[0], Object(n + 1))];
      OwnFirst(after, n, q[0]);
      ChainSplits(heap, rest, x);
      PlainTail(heap, linked, rest);
      PlainTail(heap, linked, q);
      ChainDiverges(linked, rest[1..], q[1..], x);
    } else {
      LookupNothing(after, Holders(after, n), q[0]);
    }
  }

  lemma GraftDiverges(heap: Heap, e: Edge, rest: Path, x: Value, below: Path)
    requires 0 < e.ref < |heap| && e.key != PROTO && rest != [] && PlainKeys(heap, rest) && PlainKeys(heap, below)
    requires !(rest <= below) && !(below <= rest)
    ensures Get(Grafted(heap, e, rest, x), Object(e.ref), [e.key] + below) == Undefined
  {
    var linked := With(heap, e.ref, e.key, Object(|heap|));
    OwnFirst(Grafted(heap, e, rest, x), e.ref, e.key);
    assert ([e.key] + below)[1..] == below;
    ChainDiverges(linked, rest, below, x);
  }

  lemma TailDiverges(heap: Heap, path: Path, q: Path, j: nat)
    requires j < |path| && path[..j + 1] <= q && !(path <= q) && !(q <= path) && PlainKeys(heap, path) && PlainKeys(heap, q)
    ensures path[..j] <= q && q[j..] == [path[j]] + q[j + 1..]
    ensures !(path[j + 1..] <= q[j + 1..]) && !(q[j + 1..] <= path[j + 1..])
    ensures PlainKeys(heap, path[j + 1..]) && PlainKeys(heap, q[j + 1..])
  {
    var i := j + 1;
    assert path == path[..i] + path[i..] && q == path[..i] + q[i..];
    assert forall k :: k in path[i..] ==> k in path;
    assert forall k :: k in q[i..] ==> k in q;
    assert q[j] == path[..i][j] == path[j];
    assert path[..j] <= path[..i] <= q;
  }

  /** Beyond the written property there was nothing, and the new objects lead along the path only. */
  lemma DivergingBelow(heap: Heap, root: Ref, path: Path, x: Value, q: Path)
    requires Closed(heap) && root < |heap| && Writes(heap, Object(root), path) && PlainKeys(heap, q)
    requires !(path <= q) && path[..Depth(heap, Object(root), path) + 1] <= q && !(q <= path)
    requires Written(heap, Object(root), path) !in Before(heap, Object(root), path)
    ensures Set(heap, Object(root), path, x).Ok?
    ensures Get(Set(heap, Object(root), path, x).heap, Object(root), q) == Undefined
  {
    var v, j := Object(root), Depth(heap, Object(root), path);
    var e, rest, below := Written(heap, v, path), path[j + 1..], q[j + 1..];
    SetIsOneEdge(heap, v, path, x);
    GraftIsSameBut(heap, e, rest, x);
    TailDiverges(heap, path, q, j);
    WalkToWritten(heap, Grafted(heap, e, rest, x), v, path, q);
    WrittenKeys(heap, v, path);
    GraftDiverges(heap, e, rest, x, below);
  }

  /** Before, the reading stopped at the written property. */
  lemma StoppedAtWritten(heap: Heap, root: Ref, path: Path, q: Path)
    requires Closed(heap) && root < |heap| && Writes(heap, Object(root), path)
    requires Depth(heap, Object(root), path) + 1 < |path| && path[..Depth(heap, Object(root), path) + 1] <= q
    requires Written(heap, Object(root), path) !in Before(heap, Object(root), path)
    ensures var e := Written(heap, Object(root), path); Get(heap, Object(root), q) == Member(heap, Object(e.ref), e.key)
  {
    var v, j := Object(root), Depth(heap, Object(root), path);
    assert path[..j] <= path[..j + 1] <= q;
    assert q[j..][0] == path[j];
    WrittenHasNone(heap, v, path);
    WalkToWritten(heap, heap, v, path, q);
  }

  lemma SameStart(path: Path, j: nat, q: Path, i: nat)
    requires j < |path| && i < |q| && q[..i] == path[..j] && path[j] == q[i]
    ensures path[..j + 1] <= q
  {
    assert |q[..i]| == |path[..j]|;
    assert forall m :: 0 <= m < j ==> path[m] == path[..j][m] == q[..i][m] == q[m];
  }

  lemma SameEdgeSamePath(heap: Heap, root: Ref, path: Path, j: nat, q: Path, i: nat)
    requires Closed(heap) && root < |heap| && Tree(heap, root) && OwnKeys(heap, path) && OwnKeys(heap, q)
    requires j < |path| && i < |q| && path[j] == q[i]
    requires Node(heap, Object(root), path[..j]).Object? && Node(heap, Object(root), path[..j]) == Node(heap, Object(root), q[..i])
    ensures path[..j + 1] <= q
  {
    KeysWithin(heap, q, i);
    KeysWithin(heap, path, j);
    OnePathOnly(heap, root, q[..i], path[..j]);
    SameStart(path, j, q, i);
  }

  /** A path that parts from the written one no later than at the written property does not look at it. */
  lemma DivergingAbove(heap: Heap, root: Ref, path: Path, q: Path)
    requires Closed(heap) && root < |heap| && Tree(heap, root) && OwnKeys(heap, path) && OwnKeys(heap, q)
    requires Writes(heap, Object(root), path) && !(path[..Depth(heap, Object(root), path) + 1] <= q)
    ensures Written(heap, Object(root), path) !in Edges(heap, Object(root), q)
  {
    var v, j := Object(root), Depth(heap, Object(root), path);
    var e := Written(heap, v, path);
    TreeWriteIsNotBefore(heap, root, path);
    if e in Edges(heap, v, q) {
      var i := EdgeIsAt(heap, v, q, e);
      SameEdgeSamePath(heap, root, path, j, q, i);
    }
  }

  /** In a tree, a path that diverges from the written one reads as before, except for one that read a null
      which the write replaced by an object. */
  lemma DivergingReadsSameExactlyWhen(heap: Heap, root: Ref, path: Path, x: Value, q: Path)
    requires Closed(heap) && root < |heap| && Tree(heap, root) && OwnKeys(heap, path) && OwnKeys(heap, q)
    requires Writes(heap, Object(root), path) && !(path <= q) && !(q <= path)
    ensures Set(heap, Object(root), path, x).Ok?
    ensures var e, upToWritten := Written(heap, Object(root), path), path[..Depth(heap, Object(root), path) + 1];
            (Get(Set(heap, Object(root), path, x).heap, Object(root), q) == Get(heap, Object(root), q)
             <==> !(upToWritten <= q && Member(heap, Object(e.ref), e.key) == Null))
  {
    var v, j := Object(root), Depth(heap, Object(root), path);
    if path[..j + 1] <= q {
      assert path == path[..j + 1] + path[j + 1..];
      TreeWriteIsNotBefore(heap, root, path);
      DivergingBelow(heap, root, path, x, q);
      StoppedAtWritten(heap, root, path, q);
      WrittenHasNone(heap, v, path);
    } else {
      DivergingAbove(heap, root, path, q);
      OtherReadingsStay(heap, root, path, x, q);
    }
  }

  /** A null on the way: reading beside the written path gave null before, and undefined after. */
  lemma NullIsReplaced(k: string, a: string, b: string, x: Value)
    requires k != PROTO && a != PROTO && b != PROTO && a != b
    ensures var heap := OneObject(k, Null);
            && Set(heap, Object(1), [k, a], x).Ok? && Get(heap, Object(1), [k, b]) == Null
            && Get(Set(heap, Object(1), [k, a], x).heap, Object(1), [k, b]) == Undefined
  {
    var heap, path := OneObject(k, Null), [k, a];
    OneObjectHas(k, Null);
    assert path[1..] == [a] && path[..0] == [] && path[..1] == [k];
    assert Depth(heap, Object(1), path) == 0 && Writes(heap, Object(1), path);
    assert !(path <= [k, b]) && !([k, b] <= path) by {
      assert path[1] != [k, b][1];
    }
    DivergingBelow(heap, 1, path, x, [k, b]);
  }
}
