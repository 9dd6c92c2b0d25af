/** Structural equality is equality of forms, in which maps and objects are maps, sets are sets, and nothing has an
    order but arrays. */
module DeepEqualForms {
  import opened DeepEqual

  datatype Form =
    | PrimForm(p: Primitive)
    | ArrForm(proto: nat, items: seq<Form>)
    | DateForm(proto: nat, time: int)
    | RegExpForm(proto: nat, source: string, flags: string)
    | MapForm(proto: nat, values: map<Primitive, Form>)
    | SetForm(proto: nat, members: set<Primitive>)
    | ObjForm(proto: nat, values: map<Primitive, Form>)

  function FormOf(v: Value): Form
    decreases v, 1
  {
    match v
    case Prim(p) => PrimForm(p)
    case Arr(proto, items) => ArrForm(proto, seq(|items|, i requires 0 <= i < |items| => FormOf(items[i])))
    case Date(proto, time) => DateForm(proto, time)
    case RegExp(proto, source, flags) => RegExpForm(proto, source, flags)
    case Map(proto, entries) => MapForm(proto, ValuesOf(entries))
    case Set(proto, members) => SetForm(proto, set x | x in members)
    case Obj(proto, props) => ObjForm(proto, ValuesOf(props))
  }

  function ValuesOf(entries: seq<Entry>): map<Primitive, Form>
    decreases entries, 0
  {
    map k | k in Keys(entries) ::
      (var i := IndexOf(entries, k);
       assert entries[i].value < entries[i];
       FormOf(entries[i].value))
  }

  lemma ValueIsFirst(entries: seq<Entry>, i: nat)
    requires i < |entries|
    ensures entries[i].key in ValuesOf(entries)
    ensures ValuesOf(entries)[entries[i].key] == FormOf(entries[IndexOf(entries, entries[i].key)].value)
  {
    assert Keys(entries)[i] == entries[i].key;
  }

  lemma ValueAt(entries: seq<Entry>, i: nat)
    requires Distinct(Keys(entries)) && i < |entries|
    ensures entries[i].key in ValuesOf(entries) && ValuesOf(entries)[entries[i].key] == FormOf(entries[i].value)
  {
    ValueIsFirst(entries, i);
    var keys := Keys(entries);
    assert keys[i] == entries[i].key;
    var j := IndexOf(entries, entries[i].key);
    assert keys[j] == keys[i];
    assert i == j;
  }

  /** Two values are structurally equal exactly when they have one form. */
  lemma {:induction false} SameExactlyWhen(a: Value, b: Value)
    requires WellFormed(a) && WellFormed(b)
    ensures Same(a, b) <==> FormOf(a) == FormOf(b)
    decreases a, 1
  {
    match (a, b)
    case (Arr(p, xs), Arr(q, ys)) => ItemsExactlyWhen(p, xs, q, ys);
    case (Map(_, xs), Map(_, ys)) => EntriesExactlyWhen(xs, ys);
    case (Set(_, xs), Set(_, ys)) => MembersExactlyWhen(xs, ys);
    case (Obj(_, xs), Obj(_, ys)) => EntriesExactlyWhen(xs, ys);
    case _ =>
  }

  lemma {:induction false} ItemsExactlyWhen(p: nat, xs: seq<Value>, q: nat, ys: seq<Value>)
    requires WellFormed(Arr(p, xs)) && WellFormed(Arr(q, ys))
    ensures Same(Arr(p, xs), Arr(q, ys)) <==> FormOf(Arr(p, xs)) == FormOf(Arr(q, ys))
    decreases xs, 0
  {
    var f, g := FormOf(Arr(p, xs)).items, FormOf(Arr(q, ys)).items;
    if |xs| == |ys| {
      forall i | 0 <= i < |xs|
        ensures Same(xs[i], ys[i]) <==> f[i] == g[i]
      {
        SameExactlyWhen(xs[i], ys[i]);
      }
    }
  }

  lemma MembersExactlyWhen(xs: seq<Primitive>, ys: seq<Primitive>)
    ensures SameMembers(xs, ys) <==> (set x | x in xs) == (set y | y in ys)
  {
    var f, g := set x | x in xs, set y | y in ys;
    if f == g {
      forall x
        ensures x in xs <==> x in ys
      {
        assert x in xs <==> x in f;
        assert x in ys <==> x in g;
      }
    }
  }

  lemma {:induction false} EntriesExactlyWhen(xs: seq<Entry>, ys: seq<Entry>)
    requires Distinct(Keys(xs)) && forall i :: 0 <= i < |xs| ==> WellFormed(xs[i].value)
    requires Distinct(Keys(ys)) && forall i :: 0 <= i < |ys| ==> WellFormed(ys[i].value)
    ensures SameEntries(xs, ys) <==> ValuesOf(xs) == ValuesOf(ys)
    decreases xs, 0
  {
    var f, g := ValuesOf(xs), ValuesOf(ys);
    forall i, j | 0 <= i < |xs| && 0 <= j < |ys| && xs[i].key == ys[j].key
      ensures Same(xs[i].value, ys[j].value) <==> f[xs[i].key] == g[xs[i].key]
      ensures xs[i].key in f && xs[i].key in g
    {
      ValueAt(xs, i);
      ValueAt(ys, j);
      assert xs[i].value < xs[i];
      SameExactlyWhen(xs[i].value, ys[j].value);
    }
    if SameEntries(xs, ys) {
      assert f.Keys == g.Keys;
      forall k | k in f
        ensures f[k] == g[k]
      {
        var i, j := IndexOf(xs, k), IndexOf(ys, k);
        assert xs[i].key == ys[j].key;
      }
    }
    if f == g {
      assert forall k :: k in Keys(xs) <==> k in f;
      assert forall k :: k in Keys(ys) <==> k in g;
    }
  }
}
