/** What writing along a path changes, and what reading along paths sees of it. */
module ObjectPath {
  import opened ObjectHeap

  /** Every reference leads somewhere, and every chain goes on as that of the prototype does. */
  ghost predicate Closed(heap: Heap) {
    forall r {:trigger ObjClosed(heap, heap[r])} :: 0 <= r < |heap| ==> ObjClosed(heap, heap[r])
  }

  ghost predicate ObjClosed(heap: Heap, o: Obj) {
    && (forall h :: h in o.chain ==> h < |heap|)
    && (o.chain != [] ==> o.chain == Holders(heap, o.chain[0]))
    && (forall k :: k in o.props && o.props[k].Object? ==> o.props[k].ref < |heap|)
  }

  predicate Within(heap: Heap, v: Value) {
    v.Object? ==> v.ref < |heap|
  }

  /** `{}` has the key already: it is that of the accessor, or of a property of `Object.prototype`. */
  predicate Inherited(heap: Heap, k: string) {
    k == PROTO || (|heap| > 0 && k in heap[0].props)
  }

  /** No key of the path is one that every object has. */
  predicate PlainKeys(heap: Heap, path: Path) {
    forall k :: k in path ==> !Inherited(heap, k)
  }

  lemma {:induction false} LookupWithin(heap: Heap, holders: seq<Ref>, k: string)
    requires Closed(heap)
    ensures Within(heap, Lookup(heap, holders, k))
  {
    if holders != [] {
      assert holders[0] < |heap| ==> ObjClosed(heap, heap[holders[0]]);
      LookupWithin(heap, holders[1..], k);
    }
  }

  lemma MemberWithin(heap: Heap, v: Value, k: string)
    requires Closed(heap) && Within(heap, v)
    ensures Within(heap, Member(heap, v, k))
  {
    if v.Object? {
      assert ObjClosed(heap, heap[v.ref]);
      LookupWithin(heap, Holders(heap, v.ref), k);
    }
  }

  // ---- Every write keeps the heap in order ----

  /** References lead somewhere, chains hang together, and `Object.prototype` is at the top. */
  ghost predicate Rooted(heap: Heap) {
    Closed(heap) && heap != [] && heap[OBJECT_PROTOTYPE].chain == []
  }

  lemma NewKeepsRooted(heap: Heap)
    requires Rooted(heap)
    ensures Rooted(heap + [NEW])
  {
    var after := heap + [NEW];
    assert Holders(after, 0) == [0];
    forall r | 0 <= r < |after|
      ensures ObjClosed(after, after[r])
    {
      if r < |heap| {
        assert ObjClosed(heap, heap[r]);
      }
    }
  }

  lemma WithKeepsRooted(heap: Heap, r: Ref, k: string, x: Value)
    requires Rooted(heap) && r < |heap| && Within(heap, x)
    ensures Rooted(With(heap, r, k, x))
  {
    var after := With(heap, r, k, x);
    forall i | 0 <= i < |after|
      ensures ObjClosed(after, after[i])
    {
      assert ObjClosed(heap, heap[i]);
    }
  }

  lemma {:induction false} RechainedIs(chain: seq<Ref>, r: Ref, rest: seq<Ref>)
    ensures r !in chain ==> Rechained(chain, r, rest) == chain
    ensures forall h :: h in Rechained(chain, r, rest) ==> h in chain || h in rest
  {
    if chain != [] {
      RechainedIs(chain[1..], r, rest);
    }
  }

  lemma WithChainKeepsRooted(heap: Heap, r: Ref, chain: seq<Ref>)
    requires Rooted(heap) && 0 < r < |heap| && r !in chain && (forall h :: h in chain ==> h < |heap|)
    requires chain != [] ==> chain == Holders(heap, chain[0])
    ensures Rooted(WithChain(heap, r, chain))
  {
    var after := WithChain(heap, r, chain);
    forall i | 0 <= i < |after|
      ensures ObjClosed(after, after[i])
    {
      assert ObjClosed(heap, heap[i]);
      RechainedIs(heap[i].chain, r, chain);
      var next := if i == r then chain else heap[i].chain;
      if next != [] {
        assert ObjClosed(heap, heap[next[0]]);
        assert next[1..] == heap[next[0]].chain;
        RechainedIs(heap[next[0]].chain, r, chain);
      }
    }
  }

  /** `v[k] = x`, the accessor of the prototype included. */
  lemma AssignKeepsRooted(heap: Heap, v: Value, k: string, x: Value)
    requires Rooted(heap) && Within(heap, x)
    ensures Rooted(Assign(heap, v, k, x).heap) && |Assign(heap, v, k, x).heap| == |heap|
  {
    if v.Object? && v.ref < |heap| {
      if !HasAccessor(heap, v.ref, k) {
        WithKeepsRooted(heap, v.ref, k, x);
      } else if v.ref != OBJECT_PROTOTYPE && x == Null {
        WithChainKeepsRooted(heap, v.ref, []);
      } else if v.ref != OBJECT_PROTOTYPE && x.Object? && v.ref !in Holders(heap, x.ref) {
        assert ObjClosed(heap, heap[x.ref]);
        WithChainKeepsRooted(heap, v.ref, Holders(heap, x.ref));
      }
    }
  }

  lemma {:induction false} SetKeepsRooted(heap: Heap, v: Value, path: Path, x: Value)
    requires Rooted(heap) && Within(heap, x)
    ensures Rooted(Set(heap, v, path, x).heap) && |Set(heap, v, path, x).heap| >= |heap|
    decreases |path|
  {
    if |path| == 1 {
      AssignKeepsRooted(heap, v, path[0], x);
    } else if path != [] {
      if !Nullish(Member(heap, v, path[0])) {
        SetKeepsRooted(heap, Member(heap, v, path[0]), path[1..], x);
      } else {
        NewKeepsRooted(heap);
        AssignKeepsRooted(heap + [NEW], v, path[0], Object(|heap|));
        match Assign(heap + [NEW], v, path[0], Object(|heap|))
        case Ok(h) => SetKeepsRooted(h, Member(h, v, path[0]), path[1..], x);
        case TypeError(_) =>
      }
    }
  }

  // ---- One edge changes ----

  datatype Edge = Edge(ref: Ref, key: string)

  /** How many keys of the path lead along existing values before the first write. */
  function Depth(heap: Heap, v: Value, path: Path): (j: nat)
    requires path != []
    ensures j < |path|
    decreases |path|
  {
    var next := Member(heap, v, path[0]);
    if |path| > 1 && !Nullish(next) then 1 + Depth(heap, next, path[1..]) else 0
  }

  /** The walk along a path, without the stop at falsy values. */
  function Node(heap: Heap, v: Value, path: Path): Value
    decreases |path|
  {
    if path == [] then v else Node(heap, Member(heap, v, path[0]), path[1..])
  }

  function Owner(heap: Heap, v: Value, path: Path): Value
    requires path != []
  {
    Node(heap, v, path[..Depth(heap, v, path)])
  }

  function NewWith(k: string, v: Value): Obj {
    NEW.(props := map[k := v])
  }

  /** The objects made for the keys that lead nowhere yet. */
  function Chain(n: Ref, path: Path, x: Value): seq<Obj>
    requires path != []
    decreases |path|
  {
    if |path| == 1 then [NewWith(path[0], x)] else [NewWith(path[0], Object(n + 1))] + Chain(n + 1, path[1..], x)
  }

  /** `heap` with `x` at `rest` below `e`. */
  function Grafted(heap: Heap, e: Edge, rest: Path, x: Value): Heap
    requires e.ref < |heap|
  {
    if rest == [] then With(heap, e.ref, e.key, x)
    else With(heap, e.ref, e.key, Object(|heap|)) + Chain(|heap|, rest, x)
  }

  /** A new object has none of these keys. */
  lemma NewHasNone(heap: Heap, n: Ref, k: string)
    requires 0 < n < |heap| && heap[n] == NEW && !Inherited(heap, k)
    ensures Member(heap, Object(n), k) == Undefined
  {
    assert Holders(heap, n) == [n, 0] && [n, 0][1..] == [0] && [0][1..] == [];
    assert Lookup(heap, [0], k) == Undefined;
  }

  lemma OwnFirst(heap: Heap, n: Ref, k: string)
    requires n < |heap| && k in heap[n].props && k != PROTO
    ensures Member(heap, Object(n), k) == heap[n].props[k]
  {
  }

  lemma PlainTail(heap: Heap, h: Heap, path: Path)
    requires path != [] && heap != [] && h != [] && h[0] == heap[0] && PlainKeys(heap, path)
    ensures !Inherited(h, path[0]) && PlainKeys(h, path[1..])
  {
    assert path[0] in path;
    assert forall k :: k in path[1..] ==> k in path;
  }

  /** A chain is its first object and the chain of the rest. */
  lemma ChainSplits(heap: Heap, rest: Path, x: Value)
    requires |rest| > 1
    ensures var linked := heap + [NewWith(rest[0], Object(|heap| + 1))];
            heap + Chain(|heap|, rest, x) == linked + Chain(|heap| + 1, rest[1..], x)
  {
  }

  lemma WriteNew(heap: Heap, more: Heap, k: string, x: Value)
    ensures With(heap + [NEW] + more, |heap|, k, x) == heap + [NewWith(k, x)] + more
  {
  }

  /** On a new object, the path makes the rest of its objects. */
  lemma {:induction false} SetOnNew(heap: Heap, path: Path, x: Value)
    requires path != [] && heap != [] && PlainKeys(heap, path)
    ensures Set(heap + [NEW], Object(|heap|), path, x) == Ok(heap + Chain(|heap|, path, x))
    decreases |path|
  {
    var h, n := heap + [NEW], |heap|;
    PlainTail(heap, h, path);
    if |path| == 1 {
      WriteNew(heap, [], path[0], x);
      assert h + [] == h;
    } else {
      NewHasNone(h, n, path[0]);
      var linked := heap + [NewWith(path[0], Object(n + 1))];
      WriteNew(heap, [NEW], path[0], Object(n + 1));
      OwnFirst(linked + [NEW], n, path[0]);
      PlainTail(heap, linked, path);
      SetOnNew(linked, path[1..], x);
      ChainSplits(heap, path, x);
    }
  }

  /** The key leads nowhere yet. */
  lemma SetMakes(heap: Heap, v: Value, path: Path, x: Value)
    requires |path| > 1 && heap != [] && PlainKeys(heap, path) && Nullish(Member(heap, v, path[0]))
    requires Within(heap, v) && v != Object(OBJECT_PROTOTYPE)
    ensures Set(heap, v, path, x) == if v.Object? then Ok(Grafted(heap, Edge(v.ref, path[0]), path[1..], x)) else TypeError(heap)
  {
    PlainTail(heap, heap, path);
    if v.Object? {
      var linked := With(heap, v.ref, path[0], Object(|heap|));
      assert With(heap + [NEW], v.ref, path[0], Object(|heap|)) == linked + [NEW];
      OwnFirst(linked + [NEW], v.ref, path[0]);
      PlainTail(heap, linked, path);
      SetOnNew(linked, path[1..], x);
    }
  }

  /** One key along an existing value. */
  lemma OneKeyOn(heap: Heap, v: Value, path: Path)
    requires |path| > 1 && !Nullish(Member(heap, v, path[0]))
    ensures var next, j := Member(heap, v, path[0]), Depth(heap, v, path);
            && j == 1 + Depth(heap, next, path[1..]) && Owner(heap, next, path[1..]) == Owner(heap, v, path)
            && path[1..][j - 1] == path[j] && path[1..][j..] == path[j + 1..]
  {
    var j := Depth(heap, v, path);
    assert path[..j][1..] == path[1..][..j - 1];
  }

  /** The state that a write leaves: one property more or changed, or what was there before the throw. */
  function Effect(heap: Heap, owner: Value, k: string, rest: Path, x: Value): Outcome
    requires Within(heap, owner)
  {
    if owner.Object? then Ok(Grafted(heap, Edge(owner.ref, k), rest, x)) else TypeError(heap)
  }

  /** The whole effect: exactly one property of one old object changes, unless the write throws, which it then
      does before it has changed anything. */
  lemma {:induction false} SetIsOneEdge(heap: Heap, v: Value, path: Path, x: Value)
    requires Closed(heap) && Within(heap, v) && heap != []
    requires path != [] && PlainKeys(heap, path) && Owner(heap, v, path) != Object(OBJECT_PROTOTYPE)
    ensures var j, owner := Depth(heap, v, path), Owner(heap, v, path);
            Within(heap, owner) && Set(heap, v, path, x) == Effect(heap, owner, path[j], path[j + 1..], x)
    decreases |path|
  {
    PlainTail(heap, heap, path);
    if |path| > 1 && !Nullish(Member(heap, v, path[0])) {
      MemberWithin(heap, v, path[0]);
      OneKeyOn(heap, v, path);
      SetIsOneEdge(heap, Member(heap, v, path[0]), path[1..], x);
    } else {
      assert Depth(heap, v, path) == 0 && path[..0] == [];
      if |path| > 1 {
        SetMakes(heap, v, path, x);
      } else {
        assert path[1..] == [];
      }
    }
  }

  /** The path leads to an object, other than the one that all inherit from, which takes its next key. */
  predicate Writes(heap: Heap, v: Value, path: Path) {
    && path != [] && PlainKeys(heap, path)
    && Owner(heap, v, path).Object? && 0 < Owner(heap, v, path).ref < |heap|
  }

  /** The one edge that `Set` writes. */
  function Written(heap: Heap, v: Value, path: Path): (e: Edge)
    requires Writes(heap, v, path)
    ensures e.ref < |heap|
  {
    Edge(Owner(heap, v, path).ref, path[Depth(heap, v, path)])
  }

  /** The properties that a look-up looks at, up to the one it finds. */
  function Consulted(heap: Heap, holders: seq<Ref>, k: string): set<Edge> {
    if holders == [] then {}
    else if holders[0] < |heap| && k in heap[holders[0]].props then {Edge(holders[0], k)}
    else {Edge(holders[0], k)} + Consulted(heap, holders[1..], k)
  }

  /** Those that `v[k]` looks at. */
  function Looked(heap: Heap, v: Value, k: string): set<Edge> {
    if v.Object? && !HasAccessor(heap, v.ref, k) then Consulted(heap, Holders(heap, v.ref), k) else {}
  }

  /** Those that a reading looks at. */
  function Edges(heap: Heap, v: Value, path: Path): set<Edge>
    decreases |path|
  {
    if path == [] then {} else
    var next := Member(heap, v, path[0]);
    Looked(heap, v, path[0]) + (if Falsy(next) then {} else Edges(heap, next, path[1..]))
  }

  /** The same objects but for one property of one of them, and maybe more objects. */
  ghost predicate SameBut(heap: Heap, after: Heap, e: Edge) {
    && |heap| <= |after|
    && forall r {:trigger ObjBut(heap[r], after[r], e, r)} :: 0 <= r < |heap| ==> ObjBut(heap[r], after[r], e, r)
  }

  ghost predicate ObjBut(a: Obj, b: Obj, e: Edge, r: Ref) {
    && a.chain == b.chain
    && forall k :: Edge(r, k) != e ==> (k in a.props <==> k in b.props) && (k in a.props ==> a.props[k] == b.props[k])
  }

  lemma GraftIsSameBut(heap: Heap, e: Edge, rest: Path, x: Value)
    requires e.ref < |heap|
    ensures SameBut(heap, Grafted(heap, e, rest, x), e)
    ensures var y := if rest == [] then x else Object(|heap|);
            Grafted(heap, e, rest, x)[e.ref] == heap[e.ref].(props := heap[e.ref].props[e.key := y])
  {
  }

  /** A look-up that does not look at the changed property finds the same; one that does finds the new value. */
  lemma {:induction false} LookupAfter(heap: Heap, after: Heap, e: Edge, holders: seq<Ref>, k: string)
    requires SameBut(heap, after, e) && forall h :: h in holders ==> h < |heap|
    ensures e !in Consulted(heap, holders, k) ==> Lookup(after, holders, k) == Lookup(heap, holders, k)
    ensures e in Consulted(heap, holders, k) && e.ref < |heap| && e.key in after[e.ref].props ==>
              e.key == k && Lookup(after, holders, k) == after[e.ref].props[e.key]
  {
    if holders != [] {
      assert holders[0] in holders;
      assert ObjBut(heap[holders[0]], after[holders[0]], e, holders[0]);
      assert forall h :: h in holders[1..] ==> h in holders;
      LookupAfter(heap, after, e, holders[1..], k);
    }
  }

  lemma MemberAfter(heap: Heap, after: Heap, e: Edge, v: Value, k: string)
    requires Closed(heap) && Within(heap, v) && SameBut(heap, after, e)
    ensures e !in Looked(heap, v, k) ==> Member(after, v, k) == Member(heap, v, k)
    ensures e in Looked(heap, v, k) && e.ref < |heap| && e.key in after[e.ref].props ==>
              e.key == k && Member(after, v, k) == after[e.ref].props[e.key]
  {
    if v.Object? {
      assert ObjClosed(heap, heap[v.ref]) && ObjBut(heap[v.ref], after[v.ref], e, v.ref);
      LookupAfter(heap, after, e, Holders(heap, v.ref), k);
    }
  }

  lemma {:induction false} UntouchedReadsSame(heap: Heap, after: Heap, e: Edge, v: Value, q: Path)
    requires Closed(heap) && Within(heap, v) && SameBut(heap, after, e) && e !in Edges(heap, v, q)
    ensures Get(after, v, q) == Get(heap, v, q)
    decreases |q|
  {
    if q != [] {
      MemberAfter(heap, after, e, v, q[0]);
      var next := Member(heap, v, q[0]);
      if !Falsy(next) {
        MemberWithin(heap, v, q[0]);
        UntouchedReadsSame(heap, after, e, next, q[1..]);
      }
    }
  }

  // ---- Main results ----

  /** Sharing, cycles and prototypes included: a reading that does not look at the written property is unchanged. */
  lemma OtherReadingsStay(heap: Heap, obj: Ref, path: Path, x: Value, q: Path)
    requires Closed(heap) && obj < |heap| && Writes(heap, Object(obj), path)
    requires Written(heap, Object(obj), path) !in Edges(heap, Object(obj), q)
    ensures Set(heap, Object(obj), path, x).Ok?
    ensures Get(Set(heap, Object(obj), path, x).heap, Object(obj), q) == Get(heap, Object(obj), q)
  {
    SetIsOneEdge(heap, Object(obj), path, x);
    var e := Written(heap, Object(obj), path);
    GraftIsSameBut(heap, e, path[Depth(heap, Object(obj), path) + 1..], x);
    UntouchedReadsSame(heap, Set(heap, Object(obj), path, x).heap, e, Object(obj), q);
  }

  /** The properties looked at on the way to the written one. */
  function Before(heap: Heap, v: Value, path: Path): set<Edge>
    requires path != []
    decreases |path|
  {
    var next := Member(heap, v, path[0]);
    if |path| > 1 && !Nullish(next) then Looked(heap, v, path[0]) + Before(heap, next, path[1..]) else {}
  }

  /** What stands on the way to a write is an object. */
  lemma {:induction false} NoWayFromPrimitives(heap: Heap, v: Value, path: Path)
    requires !v.Object?
    ensures !Node(heap, v, path).Object?
    decreases |path|
  {
    if path != [] {
      NoWayFromPrimitives(heap, Member(heap, v, path[0]), path[1..]);
    }
  }

  lemma WayIsObjects(heap: Heap, v: Value, path: Path)
    requires Writes(heap, v, path)
    ensures v.Object? && (Depth(heap, v, path) > 0 ==> Member(heap, v, path[0]).Object?)
  {
    var j := Depth(heap, v, path);
    if !v.Object? {
      NoWayFromPrimitives(heap, v, path[..j]);
    }
    if j > 0 && !Member(heap, v, path[0]).Object? {
      assert path[..j][1..] == path[1..j];
      NoWayFromPrimitives(heap, Member(heap, v, path[0]), path[1..j]);
    }
  }

  lemma {:induction false} ReadChain(heap: Heap, rest: Path, x: Value)
    requires rest != [] && PROTO !in rest
    ensures Get(heap + Chain(|heap|, rest, x), Object(|heap|), rest) == x
    decreases |rest|
  {
    var n, after := |heap|, heap + Chain(|heap|, rest, x);
    if |rest| > 1 {
      var linked := heap + [NewWith(rest[0], Object(n + 1))];
      ChainSplits(heap, rest, x);
      assert after[n] == linked[n];
      OwnFirst(after, n, rest[0]);
      ReadChain(linked, rest[1..], x);
    } else {
      assert after[n] == NewWith(rest[0], x);
      OwnFirst(after, n, rest[0]);
      assert Get(after, x, rest[1..]) == x;
    }
  }

  /** The rest of the way, one key on. */
  lemma NextOnTheWay(heap: Heap, v: Value, path: Path)
    requires Closed(heap) && Within(heap, v) && Writes(heap, v, path) && Depth(heap, v, path) > 0
    ensures var next := Member(heap, v, path[0]);
            && Writes(heap, next, path[1..]) && Within(heap, next) && next.Object?
            && Written(heap, next, path[1..]) == Written(heap, v, path)
            && Owner(heap, next, path[1..]) == Owner(heap, v, path)
            && Depth(heap, next, path[1..]) == Depth(heap, v, path) - 1
  {
    var j := Depth(heap, v, path);
    WayIsObjects(heap, v, path);
    MemberWithin(heap, v, path[0]);
    OneKeyOn(heap, v, path);
    assert forall k :: k in path[1..] ==> k in path;
    assert j > 0;
  }

  /** The first step along a common beginning. */
  lemma CommonStep(path: Path, q: Path, j: nat)
    requires 0 < j <= |path| && path[..j] <= q
    ensures q != [] && q[0] == path[0] && path[1..][..j - 1] <= q[1..] && q[1..][j - 1..] == q[j..]
  {
    assert q[0] == path[..j][0];
    assert path[1..][..j - 1] == path[..j][1..];
  }

  /** A reading of a longer path goes the same way as far as the written edge. */
  lemma {:induction false} WalkToWritten(heap: Heap, after: Heap, v: Value, path: Path, q: Path)
    requires Closed(heap) && Within(heap, v) && Writes(heap, v, path)
    requires var e := Written(heap, v, path); SameBut(heap, after, e) && e !in Before(heap, v, path)
    requires path[..Depth(heap, v, path)] <= q
    ensures Get(after, v, q) == Get(after, Owner(heap, v, path), q[Depth(heap, v, path)..])
    decreases |path|
  {
    var j := Depth(heap, v, path);
    if j > 0 {
      NextOnTheWay(heap, v, path);
      MemberAfter(heap, after, Written(heap, v, path), v, path[0]);
      CommonStep(path, q, j);
      WalkToWritten(heap, after, Member(heap, v, path[0]), path[1..], q[1..]);
    }
  }

  /** Neither the written key nor one after it is that of the accessor. */
  lemma WrittenKeys(heap: Heap, v: Value, path: Path)
    requires Writes(heap, v, path)
    ensures !Inherited(heap, Written(heap, v, path).key) && PROTO !in path[Depth(heap, v, path) + 1..]
  {
    assert path[Depth(heap, v, path)] in path;
    assert forall k :: k in path[Depth(heap, v, path) + 1..] ==> k in path;
    assert PROTO in path ==> !Inherited(heap, PROTO);
  }

  /** A path just written reads the value, unless the write cut the path itself off. */
  lemma ReadsBack(heap: Heap, obj: Ref, path: Path, x: Value)
    requires Closed(heap) && obj < |heap| && Writes(heap, Object(obj), path)
    requires Written(heap, Object(obj), path) !in Before(heap, Object(obj), path)
    ensures Set(heap, Object(obj), path, x).Ok? && Get(Set(heap, Object(obj), path, x).heap, Object(obj), path) == x
  {
    var v, j := Object(obj), Depth(heap, Object(obj), path);
    var e, rest := Written(heap, v, path), path[j + 1..];
    SetIsOneEdge(heap, v, path, x);
    GraftIsSameBut(heap, e, rest, x);
    var after := Set(heap, v, path, x).heap;
    WalkToWritten(heap, after, v, path, path);
    assert path[j..][0] == path[j] && path[j..][1..] == rest;
    WrittenKeys(heap, v, path);
    OwnFirst(after, e.ref, e.key);
    if rest == [] {
      assert Get(after, x, rest) == x;
    } else {
      ReadChain(With(heap, e.ref, e.key, Object(|heap|)), rest, x);
    }
  }

  // ---- Where the way to the write leads over the written property ----

  /** Every tail of a chain is the chain of the object it starts with. */
  ghost predicate Linked(heap: Heap, holders: seq<Ref>) {
    holders == [] || (holders == Holders(heap, holders[0]) && Linked(heap, holders[1..]))
  }

  lemma {:induction false} HoldersLinked(heap: Heap, r: Ref)
    requires Closed(heap) && r < |heap|
    ensures Linked(heap, Holders(heap, r))
    decreases |heap[r].chain|
  {
    assert ObjClosed(heap, heap[r]);
    var chain := heap[r].chain;
    assert Holders(heap, r)[1..] == chain;
    if chain != [] {
      HoldersLinked(heap, chain[0]);
    }
  }

  /** A look-up that comes by a property finds what a look-up from there finds. */
  lemma {:induction false} LookupFrom(heap: Heap, holders: seq<Ref>, k: string, r: Ref)
    requires Linked(heap, holders) && Edge(r, k) in Consulted(heap, holders, k)
    ensures Lookup(heap, holders, k) == Lookup(heap, Holders(heap, r), k)
  {
    if holders[0] != r {
      LookupFrom(heap, holders[1..], k, r);
    }
  }

  lemma {:induction false} ConsultedKey(heap: Heap, holders: seq<Ref>, k: string, e: Edge)
    requires e in Consulted(heap, holders, k)
    ensures e.key == k && e.ref in holders
  {
    if e != Edge(holders[0], k) {
      ConsultedKey(heap, holders[1..], k, e);
    }
  }

  /** What is looked at on the way has a value where it is looked up from. */
  lemma {:induction false} BeforeHasValues(heap: Heap, v: Value, path: Path, e: Edge)
    requires Closed(heap) && Within(heap, v) && path != [] && e in Before(heap, v, path) && e.key != PROTO
    ensures !Nullish(Member(heap, Object(e.ref), e.key))
    decreases |path|
  {
    if e in Looked(heap, v, path[0]) {
      HoldersLinked(heap, v.ref);
      ConsultedKey(heap, Holders(heap, v.ref), path[0], e);
      LookupFrom(heap, Holders(heap, v.ref), path[0], e.ref);
    } else {
      MemberWithin(heap, v, path[0]);
      BeforeHasValues(heap, Member(heap, v, path[0]), path[1..], e);
    }
  }

  lemma {:induction false} WrittenHasNone(heap: Heap, v: Value, path: Path)
    requires Closed(heap) && Within(heap, v) && Writes(heap, v, path) && Depth(heap, v, path) + 1 < |path|
    ensures Nullish(Member(heap, Object(Written(heap, v, path).ref), Written(heap, v, path).key))
    decreases |path|
  {
    if Depth(heap, v, path) > 0 {
      NextOnTheWay(heap, v, path);
      WrittenHasNone(heap, Member(heap, v, path[0]), path[1..]);
    }
  }

  /** Then the write was to the last key. */
  lemma BeforeIsFull(heap: Heap, v: Value, path: Path)
    requires Closed(heap) && Within(heap, v) && Writes(heap, v, path) && Written(heap, v, path) in Before(heap, v, path)
    ensures Depth(heap, v, path) + 1 == |path|
  {
    var e := Written(heap, v, path);
    WrittenKeys(heap, v, path);
    BeforeHasValues(heap, v, path, e);
    if Depth(heap, v, path) + 1 < |path| {
      WrittenHasNone(heap, v, path);
    }
  }

  /** The reading meets the value early, and goes on from there. */
  lemma {:induction false} CutOff(heap: Heap, after: Heap, v: Value, path: Path, x: Value) returns (i: nat)
    requires Closed(heap) && Within(heap, v) && Writes(heap, v, path)
    requires var e := Written(heap, v, path);
             SameBut(heap, after, e) && e.key in after[e.ref].props && after[e.ref].props[e.key] == x && e in Before(heap, v, path)
    ensures i < Depth(heap, v, path) && Get(after, v, path) == if Falsy(x) then x else Get(after, x, path[i + 1..])
    decreases |path|
  {
    var e := Written(heap, v, path);
    MemberAfter(heap, after, e, v, path[0]);
    if e in Looked(heap, v, path[0]) {
      i := 0;
    } else {
      NextOnTheWay(heap, v, path);
      i := CutOff(heap, after, Member(heap, v, path[0]), path[1..], x);
      assert path[1..][i + 1..] == path[i + 2..];
      i := i + 1;
    }
  }

  /** What the path just written reads, for every value: the value itself, or what the rest of the path reads
      from the value, where the reading meets it early. */
  lemma WrittenPathReads(heap: Heap, obj: Ref, path: Path, x: Value) returns (rest: Path)
    requires Closed(heap) && obj < |heap| && Writes(heap, Object(obj), path)
    ensures Set(heap, Object(obj), path, x).Ok?
    ensures var early := Written(heap, Object(obj), path) in Before(heap, Object(obj), path);
            var after := Set(heap, Object(obj), path, x).heap;
            (early ==> rest != [] && |rest| < |path| && rest == path[|path| - |rest|..])
            && Get(after, Object(obj), path) == if early && !Falsy(x) then Get(after, x, rest) else x
  {
    var v, j := Object(obj), Depth(heap, Object(obj), path);
    var e := Written(heap, v, path);
    SetIsOneEdge(heap, v, path, x);
    if e in Before(heap, v, path) {
      BeforeIsFull(heap, v, path);
      GraftIsSameBut(heap, e, path[j + 1..], x);
      var i := CutOff(heap, Set(heap, v, path, x).heap, v, path, x);
      rest := path[i + 1..];
    } else {
      ReadsBack(heap, obj, path, x);
      rest := [];
    }
  }

  /** For anything but texts and objects: the path just written reads the value exactly when the value is falsy, so
      that the reading stops at it wherever it meets it, or the way to the write does not lead over the written
      property. */
  lemma ReadsBackExactlyWhen(heap: Heap, obj: Ref, path: Path, x: Value)
    requires Closed(heap) && obj < |heap| && Writes(heap, Object(obj), path) && !x.Str? && !x.Object?
    ensures Set(heap, Object(obj), path, x).Ok?
    ensures Get(Set(heap, Object(obj), path, x).heap, Object(obj), path) == x
       <==> Falsy(x) || Written(heap, Object(obj), path) !in Before(heap, Object(obj), path)
  {
    var rest := WrittenPathReads(heap, obj, path, x);
  }

  // ---- A second write ----

  lemma {:induction false} WalkAndSet(heap: Heap, after: Heap, v: Value, path: Path, y: Value)
    requires Closed(heap) && Within(heap, v) && Writes(heap, v, path)
    requires var e := Written(heap, v, path); SameBut(heap, after, e) && e !in Before(heap, v, path)
    ensures Set(after, v, path, y) == Set(after, Owner(heap, v, path), path[Depth(heap, v, path)..], y)
    decreases |path|
  {
    var j := Depth(heap, v, path);
    if j > 0 {
      NextOnTheWay(heap, v, path);
      MemberAfter(heap, after, Written(heap, v, path), v, path[0]);
      assert path[1..][j - 1..] == path[j..];
      WalkAndSet(heap, after, Member(heap, v, path[0]), path[1..], y);
    }
  }

  lemma {:induction false} SetOnChain(heap: Heap, rest: Path, x: Value, y: Value)
    requires rest != [] && PROTO !in rest
    ensures Set(heap + Chain(|heap|, rest, x), Object(|heap|), rest, y) == Ok(heap + Chain(|heap|, rest, y))
    decreases |rest|
  {
    var n, after := |heap|, heap + Chain(|heap|, rest, x);
    if |rest| > 1 {
      var linked := heap + [NewWith(rest[0], Object(n + 1))];
      ChainSplits(heap, rest, x);
      ChainSplits(heap, rest, y);
      assert after[n] == linked[n];
      OwnFirst(after, n, rest[0]);
      SetOnChain(linked, rest[1..], x, y);
    } else {
      assert after[n] == NewWith(rest[0], x);
      assert map[rest[0] := x][rest[0] := y] == map[rest[0] := y];
      assert With(after, n, rest[0], y) == heap + Chain(n, rest, y);
    }
  }

  lemma GraftTwice(heap: Heap, e: Edge, x: Value, y: Value)
    requires e.ref < |heap|
    ensures With(With(heap, e.ref, e.key, x), e.ref, e.key, y) == With(heap, e.ref, e.key, y)
  {
    var props := heap[e.ref].props;
    assert props[e.key := x][e.key := y] == props[e.key := y];
  }

  /** A second write to the path leaves exactly what it alone would have left, new objects included, if the way to
      the write does not lead over the written property. */
  lemma SecondWriteOverrides(heap: Heap, obj: Ref, path: Path, x: Value, y: Value)
    requires Closed(heap) && obj < |heap| && Writes(heap, Object(obj), path)
    requires Written(heap, Object(obj), path) !in Before(heap, Object(obj), path)
    ensures Set(heap, Object(obj), path, x).Ok?
    ensures Set(Set(heap, Object(obj), path, x).heap, Object(obj), path, y) == Set(heap, Object(obj), path, y)
  {
    var v, j := Object(obj), Depth(heap, Object(obj), path);
    var e, rest := Written(heap, v, path), path[j + 1..];
    SetIsOneEdge(heap, v, path, x);
    SetIsOneEdge(heap, v, path, y);
    var after := Grafted(heap, e, rest, x);
    GraftIsSameBut(heap, e, rest, x);
    WalkAndSet(heap, after, v, path, y);
    assert path[j..][0] == path[j] && path[j..][1..] == rest;
    WrittenKeys(heap, v, path);
    OwnFirst(after, e.ref, e.key);
    if rest == [] {
      GraftTwice(heap, e, x, y);
    } else {
      SetOnChain(With(heap, e.ref, e.key, Object(|heap|)), rest, x, y);
    }
  }

  /** Nothing is ever removed. */
  lemma {:induction false} SetGrows(heap: Heap, v: Value, path: Path, x: Value)
    ensures |Set(heap, v, path, x).heap| >= |heap|
    decreases |path|
  {
    if |path| > 1 {
      if !Nullish(Member(heap, v, path[0])) {
        SetGrows(heap, Member(heap, v, path[0]), path[1..], x);
      } else {
        match Assign(heap + [NEW], v, path[0], Object(|heap|))
        case Ok(h) => SetGrows(h, Member(h, v, path[0]), path[1..], x);
        case TypeError(_) =>
      }
    }
  }

  /** From a value that is no object, no path leads to one. */
  lemma {:induction false} SetOnPrimitive(heap: Heap, v: Value, path: Path, x: Value)
    requires !v.Object? && path != []
    ensures Set(heap, v, path, x).TypeError?
    decreases |path|
  {
    if |path| > 1 && !Nullish(Member(heap, v, path[0])) {
      SetOnPrimitive(heap, Member(heap, v, path[0]), path[1..], x);
    }
  }

  /** The second write meets the value of the first early, and throws or makes objects there. */
  lemma {:induction false} SecondCut(heap: Heap, after: Heap, v: Value, path: Path, x: Value, y: Value)
    requires Closed(heap) && Within(heap, v) && Writes(heap, v, path) && !x.Object?
    requires var e := Written(heap, v, path);
             SameBut(heap, after, e) && e.key in after[e.ref].props && after[e.ref].props[e.key] == x && e in Before(heap, v, path)
    ensures Set(after, v, path, y).TypeError? || |Set(after, v, path, y).heap| > |after|
    decreases |path|
  {
    var e := Written(heap, v, path);
    MemberAfter(heap, after, e, v, path[0]);
    if e in Looked(heap, v, path[0]) {
      if Nullish(x) {
        match Assign(after + [NEW], v, path[0], Object(|after|))
        case Ok(h) => SetGrows(h, Member(h, v, path[0]), path[1..], y);
        case TypeError(_) =>
      } else {
        SetOnPrimitive(after, x, path[1..], y);
      }
    } else {
      NextOnTheWay(heap, v, path);
      SecondCut(heap, after, Member(heap, v, path[0]), path[1..], x, y);
    }
  }

  /** Unless the first value is an object, a second write overrides the first exactly when the way to the write
      does not lead over the written property. */
  lemma SecondWriteOverridesExactlyWhen(heap: Heap, obj: Ref, path: Path, x: Value, y: Value)
    requires Closed(heap) && obj < |heap| && Writes(heap, Object(obj), path) && !x.Object?
    ensures Set(heap, Object(obj), path, x).Ok?
    ensures Set(Set(heap, Object(obj), path, x).heap, Object(obj), path, y) == Set(heap, Object(obj), path, y)
       <==> Written(heap, Object(obj), path) !in Before(heap, Object(obj), path)
  {
    var v, j := Object(obj), Depth(heap, Object(obj), path);
    var e := Written(heap, v, path);
    SetIsOneEdge(heap, v, path, x);
    SetIsOneEdge(heap, v, path, y);
    if e in Before(heap, v, path) {
      BeforeIsFull(heap, v, path);
      GraftIsSameBut(heap, e, path[j + 1..], x);
      SecondCut(heap, Grafted(heap, e, path[j + 1..], x), v, path, x, y);
    } else {
      SecondWriteOverrides(heap, obj, path, x, y);
    }
  }

  // ---- Where the laws fail ----

  /** `Object.prototype` with nothing in it, and one object. */
  function OneObject(k: string, v: Value): Heap {
    [Obj([], map[]), NewWith(k, v)]
  }

  lemma OneObjectHas(k: string, v: Value)
    requires k != PROTO && Within(OneObject(k, v), v)
    ensures var heap := OneObject(k, v);
            && Closed(heap) && Member(heap, Object(1), k) == v && !Inherited(heap, k)
            && Looked(heap, Object(1), k) == {Edge(1, k)}
  {
    var heap := OneObject(k, v);
    assert Holders(heap, 0) == [0] && Holders(heap, 1) == [1, 0];
    forall r | 0 <= r < |heap|
      ensures ObjClosed(heap, heap[r])
    {
    }
  }

  /** An object that refers to itself: a number written at the end of the path is what the path starts with. */
  lemma CycleCutsOff(k: string, n: int, y: Value)
    requires k != PROTO && n != 0
    ensures var heap, path := OneObject(k, Object(1)), [k, k];
            && Set(heap, Object(1), path, Num(n)) == Ok(OneObject(k, Num(n)))
            && Get(OneObject(k, Num(n)), Object(1), path) == Undefined
            && Set(OneObject(k, Num(n)), Object(1), path, y).TypeError? && Set(heap, Object(1), path, y).Ok?
  {
    var heap, after, path := OneObject(k, Object(1)), OneObject(k, Num(n)), [k, k];
    assert path[1..] == [k];
    OneObjectHas(k, Object(1));
    OneObjectHas(k, Num(n));
    assert With(heap, 1, k, Num(n)) == after by {
      assert map[k := Object(1)][k := Num(n)] == map[k := Num(n)];
    }
    assert Get(after, Object(1), path) == Get(after, Num(n), [k]);
    SetOnPrimitive(after, Num(n), [k], y);
  }

  /** A property written through the accessor is read from every plain object that has none of its own. */
  lemma InheritedWriteShows(heap: Heap, obj: Ref, k: string, x: Value, u: Ref)
    requires Closed(heap) && 0 < obj < |heap| && 0 < u < |heap| && k != PROTO && heap[0].chain == []
    requires heap[obj].chain == [0] && heap[u].chain == [0] && k !in heap[u].props
    ensures Set(heap, Object(obj), [PROTO, k], x) == Ok(With(heap, 0, k, x))
    ensures Get(With(heap, 0, k, x), Object(u), [k]) == x
  {
    var after := With(heap, 0, k, x);
    assert [PROTO, k][1..] == [k] && [k][1..] == [];
    assert Holders(heap, obj) == [obj, 0] && Holders(after, u) == [u, 0] && [u, 0][1..] == [0];
    assert Member(heap, Object(obj), PROTO) == Object(0);
    assert Member(after, Object(u), k) == Lookup(after, [0], k) == x;
    assert Get(after, x, []) == x;
  }
}
