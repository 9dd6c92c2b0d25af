/** JavaScript objects that may be shared and may form cycles, their prototypes, and `objectFlow(obj).getByPath`
    and `setByPath` over them. */
module ObjectHeap {
  import Text

  type Ref = nat
  type Path = seq<string>

  datatype Value = Undefined | Null | Bool(b: bool) | Num(n: int) | NaN | Str(s: string) | Object(ref: Ref)

  /** `chain` holds the prototype, its prototype, and so on; `props` the object's own properties. */
  datatype Obj = Obj(chain: seq<Ref>, props: map<string, Value>)

  /** Object `r` is `heap[r]`; new objects are added at the end. */
  type Heap = seq<Obj>

  /** `Object.prototype`. */
  const OBJECT_PROTOTYPE: Ref := 0

  /** The accessor that objects inherit from `Object.prototype`. */
  const PROTO: string := "__proto__"

  /** `{}`. */
  const NEW: Obj := Obj([OBJECT_PROTOTYPE], map[])

  /** The heap after a write, or where it threw. */
  datatype Outcome = Ok(heap: Heap) | TypeError(heap: Heap)

  predicate Nullish(v: Value) {
    v == Undefined || v == Null
  }

  predicate Falsy(v: Value) {
    Nullish(v) || v == Bool(false) || v == Num(0) || v == NaN || v == Str("")
  }

  /** The objects that a property is looked up in, in order. */
  function Holders(heap: Heap, r: Ref): seq<Ref> {
    if r < |heap| then [r] + heap[r].chain else []
  }

  function Lookup(heap: Heap, holders: seq<Ref>, k: string): Value {
    if holders == [] then Undefined
    else if holders[0] < |heap| && k in heap[holders[0]].props then heap[holders[0]].props[k]
    else Lookup(heap, holders[1..], k)
  }

  predicate HasAccessor(heap: Heap, r: Ref, k: string) {
    k == PROTO && OBJECT_PROTOTYPE in Holders(heap, r)
  }

  /** `v[k]`; a string has its length and its characters. */
  function Member(heap: Heap, v: Value, k: string): Value {
    match v
    case Object(r) =>
      if HasAccessor(heap, r, k) && r < |heap| then if heap[r].chain == [] then Null else Object(heap[r].chain[0])
      else Lookup(heap, Holders(heap, r), k)
    case Str(s) =>
      if k == "length" then Num(|s|)
      else if Text.IsIndex(k) && Text.Numeral(k) < |s| then Str([s[Text.Numeral(k)]])
      else Undefined
    case _ => Undefined
  }

  function With(heap: Heap, r: Ref, k: string, v: Value): Heap
    requires r < |heap|
  {
    heap[r := heap[r].(props := heap[r].props[k := v])]
  }

  /** A chain that passes through `r`, with another continuation. */
  function Rechained(chain: seq<Ref>, r: Ref, rest: seq<Ref>): seq<Ref> {
    if chain == [] then [] else if chain[0] == r then [r] + rest else [chain[0]] + Rechained(chain[1..], r, rest)
  }

  function WithChain(heap: Heap, r: Ref, chain: seq<Ref>): Heap {
    seq(|heap|, i requires 0 <= i < |heap| =>
      if i == r then heap[i].(chain := chain) else heap[i].(chain := Rechained(heap[i].chain, r, chain)))
  }

  /** The setter of the accessor: primitives are ignored, cycles refused, `Object.prototype` stays at the top. */
  function Reparent(heap: Heap, r: Ref, x: Value): Outcome {
    if !x.Object? && x != Null then Ok(heap)
    else if r == OBJECT_PROTOTYPE then if x == Null then Ok(heap) else TypeError(heap)
    else if x == Null then Ok(WithChain(heap, r, []))
    else if r in Holders(heap, x.ref) then TypeError(heap)
    else Ok(WithChain(heap, r, Holders(heap, x.ref)))
  }

  /** `v[k] = x`: only an object takes a property, and a new one becomes its own. */
  function Assign(heap: Heap, v: Value, k: string, x: Value): Outcome {
    if !v.Object? || v.ref >= |heap| then TypeError(heap)
    else if HasAccessor(heap, v.ref, k) then Reparent(heap, v.ref, x)
    else Ok(With(heap, v.ref, k, x))
  }

  /** The reading stops at the first falsy value and returns it. */
  function Get(heap: Heap, v: Value, path: Path): Value
    decreases |path|
  {
    if path == [] then v else
    var next := Member(heap, v, path[0]);
    if Falsy(next) then next else Get(heap, next, path[1..])
  }

  function Set(heap: Heap, v: Value, path: Path, x: Value): Outcome
    decreases |path|
  {
    if path == [] then Ok(heap)
    else if |path| == 1 then Assign(heap, v, path[0], x)
    else if !Nullish(Member(heap, v, path[0])) then Set(heap, Member(heap, v, path[0]), path[1..], x)
    else
      match Assign(heap + [NEW], v, path[0], Object(|heap|))
      case Ok(h) => Set(h, Member(h, v, path[0]), path[1..], x)
      case TypeError(_) => TypeError(heap)
  }

  /** The objects of a program. */
  class Memory {
    var heap: Heap

    method GetByPath(obj: Ref, path: Path) returns (result: Value)
      ensures result == Get(heap, Object(obj), path)
    {
      result := Object(obj);
      var i := 0;
      while i < |path|
        invariant 0 <= i <= |path|
        invariant Get(heap, Object(obj), path) == Get(heap, result, path[i..])
      {
        result := Member(heap, result, path[i]);
        if Falsy(result) {
          return;
        }
        assert path[i..][1..] == path[i + 1..];
        i := i + 1;
      }
    }

    /** `v[k] = x`; false stands for a throw. */
    method Put(v: Value, k: string, x: Value) returns (ok: bool)
      modifies this
      ensures ok == Assign(old(heap), v, k, x).Ok? && heap == Assign(old(heap), v, k, x).heap
    {
      if !v.Object? || v.ref >= |heap| {
        return false;
      }
      if !HasAccessor(heap, v.ref, k) {
        heap := With(heap, v.ref, k, x);
        return true;
      }
      if x.Object? && (v.ref == OBJECT_PROTOTYPE || v.ref in Holders(heap, x.ref)) {
        return false;
      }
      if v.ref != OBJECT_PROTOTYPE && (x.Object? || x == Null) {
        heap := WithChain(heap, v.ref, if x.Object? then Holders(heap, x.ref) else []);
      }
      ok := true;
    }

    /** What was made before a throw stays. */
    method SetByPath(obj: Ref, path: Path, value: Value) returns (ok: bool)
      modifies this
      ensures var after := Set(old(heap), Object(obj), path, value); ok == after.Ok? && heap == after.heap
    {
      var acc := Object(obj);
      var i := 0;
      while i < |path|
        invariant 0 <= i <= |path|
        invariant Set(old(heap), Object(obj), path, value)
               == if i == |path| then Ok(heap) else Set(heap, acc, path[i..], value)
      {
        assert path[i..][1..] == path[i + 1..];
        var cur := path[i];
        if i == |path| - 1 {
          ok := Put(acc, cur, value);
          return;
        }
        if Nullish(Member(heap, acc, cur)) {
          var before := heap;
          heap := heap + [NEW];
          ok := Put(acc, cur, Object(|before|));
          if !ok {
            heap := before;
            return;
          }
        }
        acc := Member(heap, acc, cur);
        i := i + 1;
      }
      ok := true;
    }
  }
}
