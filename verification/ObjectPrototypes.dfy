/** Paths that end in `__proto__`, and paths that lead on from values that are no objects. */
module ObjectPrototypes {
  import opened ObjectHeap
  import opened ObjectPath
  import Text

  // ---- Reading and writing the prototype ----

  lemma PrototypeIsRead(heap: Heap, r: Ref)
    requires Rooted(heap) && r < |heap| && (r == 0 || 0 in heap[r].chain)
    ensures Get(heap, Object(r), ["__proto__"]) == if r == 0 then Null else Object(heap[r].chain[0])
  {
    var path: Path := ["__proto__"];
    assert PROTO == "__proto__" && path[1..] == [];
  }

  /** Object `r` is on the way from `y` to the top. */
  predicate IsAbove(heap: Heap, r: Ref, y: Ref)
    requires y < |heap|
  {
    y == r || r in heap[y].chain
  }

  predicate CanBePrototype(heap: Heap, r: Ref, x: Value) {
    x == Null || (x.Object? && x.ref < |heap| && !IsAbove(heap, r, x.ref))
  }

  /** A write of the prototype, from an object that has the accessor: primitives are ignored, cycles and a prototype
      of `Object.prototype` refused, and the rest leads upwards from the new prototype, if there is one. */
  lemma PrototypeIsWritten(heap: Heap, r: Ref, x: Value)
    requires Rooted(heap) && r < |heap| && (r == 0 || 0 in heap[r].chain) && Within(heap, x)
    ensures var after := Set(heap, Object(r), ["__proto__"], x);
            if x.Object? && (r == 0 || IsAbove(heap, r, x.ref)) then after == TypeError(heap)
            else if x.Object? then after == Ok(WithChain(heap, r, [x.ref] + heap[x.ref].chain))
            else if x == Null && r != 0 then after == Ok(WithChain(heap, r, []))
            else after == Ok(heap)
  {
    assert PROTO == "__proto__";
  }

  /** The write leaves every object's own properties. */
  lemma WithChainLeaves(heap: Heap, r: Ref, chain: seq<Ref>)
    requires r < |heap|
    ensures var after := WithChain(heap, r, chain);
            && |after| == |heap| && after[r].chain == chain
            && (forall q :: 0 <= q < |heap| ==> after[q].props == heap[q].props)
            && (forall q :: 0 <= q < |heap| && q != r && r !in heap[q].chain ==> after[q] == heap[q])
  {
    forall q | 0 <= q < |heap| && q != r && r !in heap[q].chain
      ensures WithChain(heap, r, chain)[q] == heap[q]
    {
      RechainedIs(heap[q].chain, r, chain);
    }
  }

  lemma {:induction false} LookupSame(heap: Heap, after: Heap, holders: seq<Ref>, k: string)
    requires |after| == |heap| && forall q :: 0 <= q < |heap| ==> after[q].props == heap[q].props
    ensures Lookup(after, holders, k) == Lookup(heap, holders, k)
  {
    if holders != [] {
      LookupSame(heap, after, holders[1..], k);
    }
  }

  /** `after` is `heap` with the objects above `r` replaced by the chain. */
  ghost predicate Hangs(heap: Heap, after: Heap, r: Ref, chain: seq<Ref>) {
    && r < |heap| == |after| && after[r].chain == chain
    && forall q :: 0 <= q < |heap| ==> after[q].props == heap[q].props
  }

  function Above(heap: Heap, x: Value): seq<Ref>
    requires x.Object? ==> x.ref < |heap|
  {
    if x.Object? then [x.ref] + heap[x.ref].chain else []
  }

  lemma WrittenHangs(heap: Heap, r: Ref, x: Value)
    requires Rooted(heap) && 0 < r < |heap| && 0 in heap[r].chain && CanBePrototype(heap, r, x)
    ensures var after := WithChain(heap, r, Above(heap, x));
            Set(heap, Object(r), ["__proto__"], x) == Ok(after) && Hangs(heap, after, r, Above(heap, x))
  {
    PrototypeIsWritten(heap, r, x);
    WithChainLeaves(heap, r, Above(heap, x));
  }

  lemma HangingReads(heap: Heap, after: Heap, r: Ref, x: Value, k: string)
    requires (x == Null || (x.Object? && x.ref < |heap|)) && Hangs(heap, after, r, Above(heap, x)) && k != PROTO
    ensures Member(after, Object(r), k)
         == if k in heap[r].props then heap[r].props[k] else if x.Object? then Member(heap, x, k) else Undefined
  {
    var chain := Above(heap, x);
    assert Holders(after, r) == [r] + chain && ([r] + chain)[1..] == chain;
    LookupSame(heap, after, chain, k);
    assert Member(after, Object(r), k) == Lookup(after, [r] + chain, k);
    assert x.Object? ==> Member(heap, x, k) == Lookup(heap, chain, k);
  }

  /** Afterwards the object reads its own properties, then those of its new prototype. */
  lemma NewPrototypeShows(heap: Heap, r: Ref, x: Value, k: string)
    requires Rooted(heap) && 0 < r < |heap| && 0 in heap[r].chain && k != "__proto__" && CanBePrototype(heap, r, x)
    ensures var after := Set(heap, Object(r), ["__proto__"], x);
            && after.Ok?
            && Member(after.heap, Object(r), k)
               == if k in heap[r].props then heap[r].props[k] else if x.Object? then Member(heap, x, k) else Undefined
  {
    WrittenHangs(heap, r, x);
    assert PROTO == "__proto__";
    HangingReads(heap, WithChain(heap, r, Above(heap, x)), r, x, k);
  }

  /** An object that comes before `r` on the chain has the property. */
  predicate FoundBefore(heap: Heap, chain: seq<Ref>, r: Ref, k: string) {
    chain != [] && chain[0] != r && ((chain[0] < |heap| && k in heap[chain[0]].props) || FoundBefore(heap, chain[1..], r, k))
  }

  lemma {:induction false} RechainedLooksUp(heap: Heap, after: Heap, chain: seq<Ref>, r: Ref, rest: seq<Ref>, k: string)
    requires |after| == |heap| && (forall q :: 0 <= q < |heap| ==> after[q].props == heap[q].props) && r in chain
    ensures Lookup(after, Rechained(chain, r, rest), k)
         == if FoundBefore(heap, chain, r, k) then Lookup(heap, chain, k) else Lookup(after, [r] + rest, k)
  {
    if chain[0] != r {
      var next := Rechained(chain[1..], r, rest);
      assert ([chain[0]] + next)[1..] == next;
      RechainedLooksUp(heap, after, chain[1..], r, rest, k);
    }
  }

  lemma HangingHeirs(heap: Heap, after: Heap, r: Ref, chain: seq<Ref>, q: Ref, k: string)
    requires Hangs(heap, after, r, chain) && k != PROTO && q < |heap| && q != r
    requires after[q].chain == if r in heap[q].chain then Rechained(heap[q].chain, r, chain) else heap[q].chain
    ensures Member(after, Object(q), k)
         == if r in heap[q].chain && !FoundBefore(heap, [q] + heap[q].chain, r, k) then Member(after, Object(r), k)
            else Member(heap, Object(q), k)
  {
    var before := [q] + heap[q].chain;
    assert before[1..] == heap[q].chain && Holders(heap, q) == before;
    assert Member(heap, Object(q), k) == Lookup(heap, before, k);
    if r in heap[q].chain {
      assert Holders(after, q) == Rechained(before, r, chain);
      RechainedLooksUp(heap, after, before, r, chain, k);
      assert Holders(after, r) == [r] + chain;
      assert Member(after, Object(q), k) == Lookup(after, Rechained(before, r, chain), k);
      assert Member(after, Object(r), k) == Lookup(after, [r] + chain, k);
    } else {
      LookupSame(heap, after, before, k);
      assert Member(after, Object(q), k) == Lookup(after, before, k);
    }
  }

  lemma ChainOfHeir(heap: Heap, r: Ref, chain: seq<Ref>, q: Ref)
    requires q < |heap| && q != r
    ensures WithChain(heap, r, chain)[q].chain == if r in heap[q].chain then Rechained(heap[q].chain, r, chain) else heap[q].chain
  {
    RechainedIs(heap[q].chain, r, chain);
  }

  /** Objects below `r` see what `r` sees, unless they find the property on the way; all others read as before. */
  lemma HeirsFollow(heap: Heap, r: Ref, x: Value, q: Ref, k: string)
    requires Rooted(heap) && 0 < r < |heap| && 0 in heap[r].chain && k != "__proto__" && CanBePrototype(heap, r, x)
    requires q < |heap| && q != r
    ensures var after := Set(heap, Object(r), ["__proto__"], x).heap;
            Member(after, Object(q), k)
            == (if r in heap[q].chain && !FoundBefore(heap, [q] + heap[q].chain, r, k) then Member(after, Object(r), k)
                else Member(heap, Object(q), k))
  {
    WrittenHangs(heap, r, x);
    assert PROTO == "__proto__";
    ChainOfHeir(heap, r, Above(heap, x), q);
    HangingHeirs(heap, WithChain(heap, r, Above(heap, x)), r, Above(heap, x), q, k);
  }

  // ---- Reading on from a value that is no object ----

  /** A falsy value is returned for every longer path. */
  lemma FalsyIsReturned(heap: Heap, v: Value, k: string, rest: Path)
    requires Member(heap, v, k) in {Undefined, Null, Bool(false), Num(0), NaN, Str("")}
    ensures Get(heap, v, [k] + rest) == Member(heap, v, k)
  {
    assert ([k] + rest)[1..] == rest;
  }

  /** Truth and other numbers have no properties. */
  lemma PrimitivesHaveNone(heap: Heap, v: Value, k: string, rest: Path)
    requires rest != [] && (Member(heap, v, k) == Bool(true) || (Member(heap, v, k).Num? && Member(heap, v, k).n != 0))
    ensures Get(heap, v, [k] + rest) == Undefined
  {
    assert ([k] + rest)[1..] == rest;
  }

  /** A text has its length, and its characters under their indices. */
  lemma TextsHaveCharacters(heap: Heap, v: Value, k: string, q: string)
    requires Member(heap, v, k).Str? && Member(heap, v, k).s != ""
    ensures var text := Member(heap, v, k).s;
            && (q == "length" ==> Get(heap, v, [k, q]) == Num(|text|))
            && (forall n: nat :: n < |text| && n < 4_294_967_295 && Text.IsDecimal(q, n) ==> Get(heap, v, [k, q]) == Str([text[n]]))
            && ((q != "length" && forall n: nat :: Text.IsDecimal(q, n) ==> n >= |text| || n >= 4_294_967_295) ==>
                  Get(heap, v, [k, q]) == Undefined)
  {
    var path, text := [k, q], Member(heap, v, k).s;
    assert path[1..] == [q] && path[1..][1..] == [];
    assert Get(heap, v, path) == Get(heap, Str(text), [q]);
    assert Get(heap, Str(text), [q]) == Member(heap, Str(text), q) by {
      assert [q][1..] == [];
    }
    Text.IndexExactlyWhen(q);
    forall n: nat | n < 4_294_967_295 && Text.IsDecimal(q, n)
      ensures Text.IsIndex(q) && Text.Numeral(q) == n && q != "length"
    {
      Text.DecimalReads(n);
      assert q[0] in q;
    }
  }
}
