/** Deep equality of finite values without cycles. */
module DeepEqual {
  import Sets

  /** What `===` compares. Functions, symbols and invalid dates are equal only to themselves. */
  datatype Primitive = Undefined | Null | Bool(b: bool) | Num(n: real) | Infinity(negative: bool) | NaN | Str(s: string) | Identity(id: nat)

  datatype Entry = Entry(key: Primitive, value: Value)

  /** `proto` tells apart the prototypes of one kind of object; entries and members stand in the order of
      their insertion. The keys of a plain object are strings. */
  datatype Value =
    | Prim(p: Primitive)
    | Arr(proto: nat, items: seq<Value>)
    | Date(proto: nat, time: int)
    | RegExp(proto: nat, source: string, flags: string)
    | Map(proto: nat, entries: seq<Entry>)
    | Set(proto: nat, members: seq<Primitive>)
    | Obj(proto: nat, props: seq<Entry>)

  function Keys(entries: seq<Entry>): (keys: seq<Primitive>)
    ensures |keys| == |entries| && forall i :: 0 <= i < |keys| ==> keys[i] == entries[i].key
  {
    seq(|entries|, i requires 0 <= i < |entries| => entries[i].key)
  }

  ghost predicate Distinct<T>(xs: seq<T>) {
    forall i, j :: 0 <= i < j < |xs| ==> xs[i] != xs[j]
  }

  ghost predicate SameMembers<T(!new)>(xs: seq<T>, ys: seq<T>) {
    forall x :: x in xs <==> x in ys
  }

  /** What every JavaScript value is: keys and members occur once. */
  ghost predicate WellFormed(v: Value) {
    match v
    case Arr(_, items) => forall i :: 0 <= i < |items| ==> WellFormed(items[i])
    case Map(_, entries) => Distinct(Keys(entries)) && forall i :: 0 <= i < |entries| ==> WellFormed(entries[i].value)
    case Set(_, members) => Distinct(members)
    case Obj(_, props) => Distinct(Keys(props)) && forall i :: 0 <= i < |props| ==> WellFormed(props[i].value)
    case _ => true
  }

  /** Structural equality: one kind, prototype and shape, and the same keys with equal values in whatever order. */
  ghost predicate Same(a: Value, b: Value)
    decreases a, 1
  {
    match (a, b)
    case (Prim(p), Prim(q)) => p == q
    case (Arr(p, xs), Arr(q, ys)) => p == q && |xs| == |ys| && forall i :: 0 <= i < |xs| ==> Same(xs[i], ys[i])
    case (Date(p, s), Date(q, t)) => p == q && s == t
    case (RegExp(p, s, f), RegExp(q, t, g)) => p == q && s == t && f == g
    case (Map(p, xs), Map(q, ys)) => p == q && SameEntries(xs, ys)
    case (Set(p, xs), Set(q, ys)) => p == q && SameMembers(xs, ys)
    case (Obj(p, xs), Obj(q, ys)) => p == q && SameEntries(xs, ys)
    case _ => false
  }

  ghost predicate SameEntries(xs: seq<Entry>, ys: seq<Entry>)
    decreases xs, 0
  {
    && SameMembers(Keys(xs), Keys(ys))
    && forall i, j :: 0 <= i < |xs| && 0 <= j < |ys| && xs[i].key == ys[j].key ==>
         (assert xs[i].value < xs[i]; Same(xs[i].value, ys[j].value))
  }

  // ---- Lists of one length without repetitions ----

  lemma {:induction false} MembersCount<T>(xs: seq<T>)
    requires Distinct(xs)
    ensures |set x | x in xs| == |xs|
  {
    if xs != [] {
      var front, last := xs[..|xs| - 1], xs[|xs| - 1];
      MembersCount(front);
      assert xs == front + [last];
      assert (set x | x in xs) == (set x | x in front) + {last};
      assert last !in front;
    }
  }

  /** One holds the other, and so they hold the same. */
  lemma SubsetIsSame<T(!new)>(xs: seq<T>, ys: seq<T>)
    requires Distinct(xs) && Distinct(ys) && |xs| == |ys| && forall x :: x in xs ==> x in ys
    ensures SameMembers(xs, ys)
  {
    var a, b := set x | x in xs, set y | y in ys;
    MembersCount(xs);
    MembersCount(ys);
    Sets.SubsetOfSameSize(a, b);
    assert forall x :: x in ys ==> x in b;
  }

  lemma SameMembersSameLength<T(!new)>(xs: seq<T>, ys: seq<T>)
    requires Distinct(xs) && Distinct(ys) && SameMembers(xs, ys)
    ensures |xs| == |ys|
  {
    MembersCount(xs);
    MembersCount(ys);
    assert (set x | x in xs) == (set y | y in ys);
  }

  // ---- The comparison ----

  function IndexOf(entries: seq<Entry>, key: Primitive): (i: nat)
    requires key in Keys(entries)
    ensures i < |entries| && entries[i].key == key
  {
    if entries[0].key == key then 0 else
    assert Keys(entries)[1..] == Keys(entries[1..]);
    1 + IndexOf(entries[1..], key)
  }

  /** `map.get(key)`, `object[key]`. */
  function Lookup(entries: seq<Entry>, key: Primitive): (v: Value)
    requires key in Keys(entries)
  {
    entries[IndexOf(entries, key)].value
  }

  method Equal(a: Value, b: Value) returns (r: bool)
    requires WellFormed(a) && WellFormed(b)
    ensures r <==> Same(a, b)
    decreases a, 1
  {
    match (a, b)
    case (Prim(p), Prim(q)) => r := p == q;
    case (Arr(p, xs), Arr(q, ys)) =>
      if p != q || |xs| != |ys| {
        return false;
      }
      for i := 0 to |xs|
        invariant forall j :: 0 <= j < i ==> Same(xs[j], ys[j])
      {
        var same := Equal(xs[i], ys[i]);
        if !same {
          return false;
        }
      }
      r := true;
    case (Date(p, s), Date(q, t)) => r := p == q && s == t;
    case (RegExp(p, s, f), RegExp(q, t, g)) => r := p == q && s == t && f == g;
    case (Map(p, xs), Map(q, ys)) =>
      if p != q {
        return false;
      }
      r := EqualEntries(xs, ys);
    case (Set(p, xs), Set(q, ys)) =>
      if p != q {
        return false;
      }
      r := EqualMembers(xs, ys);
    case (Obj(p, xs), Obj(q, ys)) =>
      if p != q {
        return false;
      }
      r := EqualEntries(xs, ys);
    case _ => r := false;
  }

  /** Size, then each key of the first. */
  method EqualEntries(xs: seq<Entry>, ys: seq<Entry>) returns (r: bool)
    requires Distinct(Keys(xs)) && Distinct(Keys(ys))
    requires forall i :: 0 <= i < |xs| ==> WellFormed(xs[i].value)
    requires forall i :: 0 <= i < |ys| ==> WellFormed(ys[i].value)
    ensures r <==> SameEntries(xs, ys)
    decreases xs, 0
  {
    if |xs| != |ys| {
      if SameEntries(xs, ys) {
        SameMembersSameLength(Keys(xs), Keys(ys));
      }
      return false;
    }
    for i := 0 to |xs|
      invariant forall j :: 0 <= j < i ==> xs[j].key in Keys(ys) && Same(xs[j].value, Lookup(ys, xs[j].key))
    {
      if xs[i].key !in Keys(ys) {
        assert Keys(xs)[i] in Keys(xs);
        return false;
      }
      var j := IndexOf(ys, xs[i].key);
      assert xs[i].value < xs[i];
      var same := Equal(xs[i].value, ys[j].value);
      if !same {
        return false;
      }
    }
    SubsetIsSame(Keys(xs), Keys(ys));
    r := true;
  }

  method EqualMembers(xs: seq<Primitive>, ys: seq<Primitive>) returns (r: bool)
    requires Distinct(xs) && Distinct(ys)
    ensures r <==> SameMembers(xs, ys)
  {
    if |xs| != |ys| {
      if SameMembers(xs, ys) {
        SameMembersSameLength(xs, ys);
      }
      return false;
    }
    for i := 0 to |xs|
      invariant forall j :: 0 <= j < i ==> xs[j] in ys
    {
      if xs[i] !in ys {
        return false;
      }
    }
    SubsetIsSame(xs, ys);
    r := true;
  }

  // ---- An equivalence ----

  lemma {:induction false} Reflexive(a: Value)
    requires WellFormed(a)
    ensures Same(a, a)
    decreases a, 1
  {
    match a
    case Arr(_, items) =>
      forall i | 0 <= i < |items|
        ensures Same(items[i], items[i])
      {
        Reflexive(items[i]);
      }
    case Map(_, entries) => EntriesReflexive(entries);
    case Obj(_, props) => EntriesReflexive(props);
    case _ =>
  }

  lemma {:induction false} EntriesReflexive(xs: seq<Entry>)
    requires Distinct(Keys(xs)) && forall i :: 0 <= i < |xs| ==> WellFormed(xs[i].value)
    ensures SameEntries(xs, xs)
    decreases xs, 0
  {
    forall i, j | 0 <= i < |xs| && 0 <= j < |xs| && xs[i].key == xs[j].key
      ensures Same(xs[i].value, xs[j].value)
    {
      assert Keys(xs)[i] == Keys(xs)[j];
      assert xs[i].value < xs[i];
      Reflexive(xs[i].value);
    }
  }

  lemma {:induction false} Symmetric(a: Value, b: Value)
    requires Same(a, b)
    ensures Same(b, a)
    decreases a, 1
  {
    match (a, b)
    case (Arr(_, xs), Arr(_, ys)) =>
      forall i | 0 <= i < |xs|
        ensures Same(ys[i], xs[i])
      {
        Symmetric(xs[i], ys[i]);
      }
    case (Map(_, xs), Map(_, ys)) => EntriesSymmetric(xs, ys);
    case (Obj(_, xs), Obj(_, ys)) => EntriesSymmetric(xs, ys);
    case _ =>
  }

  lemma {:induction false} EntriesSymmetric(xs: seq<Entry>, ys: seq<Entry>)
    requires SameEntries(xs, ys)
    ensures SameEntries(ys, xs)
    decreases xs, 0
  {
    forall i, j | 0 <= i < |xs| && 0 <= j < |ys| && xs[i].key == ys[j].key
      ensures Same(ys[j].value, xs[i].value)
    {
      assert xs[i].value < xs[i];
      Symmetric(xs[i].value, ys[j].value);
    }
  }

  lemma {:induction false} Transitive(a: Value, b: Value, c: Value)
    requires Same(a, b) && Same(b, c)
    ensures Same(a, c)
    decreases a, 1
  {
    match (a, b, c)
    case (Arr(_, xs), Arr(_, ys), Arr(_, zs)) =>
      forall i | 0 <= i < |xs|
        ensures Same(xs[i], zs[i])
      {
        Transitive(xs[i], ys[i], zs[i]);
      }
    case (Map(_, xs), Map(_, ys), Map(_, zs)) => EntriesTransitive(xs, ys, zs);
    case (Obj(_, xs), Obj(_, ys), Obj(_, zs)) => EntriesTransitive(xs, ys, zs);
    case _ =>
  }

  lemma {:induction false} EntriesTransitive(xs: seq<Entry>, ys: seq<Entry>, zs: seq<Entry>)
    requires SameEntries(xs, ys) && SameEntries(ys, zs)
    ensures SameEntries(xs, zs)
    decreases xs, 0
  {
    forall i, j | 0 <= i < |xs| && 0 <= j < |zs| && xs[i].key == zs[j].key
      ensures Same(xs[i].value, zs[j].value)
    {
      assert Keys(xs)[i] in Keys(xs);
      var k := IndexOf(ys, xs[i].key);
      assert xs[i].value < xs[i];
      Transitive(xs[i].value, ys[k].value, zs[j].value);
    }
  }
}
