/** What parsing with the produced validator returns: parsing again changes nothing, and every
    property with a default is there, at every depth. */
module JsonSchemaDefaults {
  import opened Option
  import opened JsonSchema
  import opened JsonSchemaToZod
  import opened JsonSchemaOutputs

  // ---- Exactly when parsing is idempotent ----

  /** Parsing the output of `v` again gives the same output. */
  predicate Settles(re: Regex, z: Zod, v: Option<Json>) {
    Parse(re, z, v).Accepted? ==> Parse(re, z, Parse(re, z, v).out) == Parse(re, z, v)
  }

  ghost predicate Satisfiable(re: Regex, z: Zod) {
    exists v: Option<Json> :: Parse(re, z, v).Accepted?
  }

  ghost predicate MayHaveElements(sizes: SizeRules) {
    exists n: nat :: n >= 1 && SizeOk(sizes, n)
  }

  /** Every default that a parse can come to is returned as it is by its validator. An array element is never
      absent, so that its default stays unused (`present`); the properties of an object come into play only when
      an object can be accepted at all. */
  ghost predicate ReachedDefaultsFixed(re: Regex, z: Zod, present: bool)
    decreases z
  {
    match z
    case ZDefault(inner, value) =>
      ReachedDefaultsFixed(re, inner, true) && (present || Parse(re, inner, Some(value)) == Accepted(Some(value)))
    case ZOptional(inner) => ReachedDefaultsFixed(re, inner, present || !inner.ZDefault?)
    case ZArray(element, sizes) => MayHaveElements(sizes) ==> ReachedDefaultsFixed(re, element, true)
    case ZObject(shape) =>
      (forall k :: k in shape ==> Satisfiable(re, shape[k])) ==> forall k :: k in shape ==> ReachedDefaultsFixed(re, shape[k], false)
    case _ => true
  }

  lemma {:induction false} FixedSettles(re: Regex, z: Zod, present: bool, v: Option<Json>)
    requires ReachedDefaultsFixed(re, z, present) && (present ==> v.Some?)
    ensures Settles(re, z, v)
    decreases z, 1
  {
    if Parse(re, z, v).Accepted? {
      match z
      case ZDefault(inner, value) => if v.Some? { FixedSettles(re, inner, true, v); }
      case ZOptional(inner) =>
        if v.Some? || inner.ZDefault? {
          FixedSettles(re, inner, present || !inner.ZDefault?, v);
          assert Parse(re, inner, v).out.Some?;
        }
      case ZArray(_, _) => ArrayFixedSettles(re, z, v);
      case ZObject(_) => ObjectFixedSettles(re, z, v);
      case _ =>
    }
  }

  lemma {:induction false} ArrayFixedSettles(re: Regex, z: Zod, v: Option<Json>)
    requires z.ZArray? && ReachedDefaultsFixed(re, z, true) && Parse(re, z, v).Accepted?
    ensures Settles(re, z, v)
    decreases z, 0
  {
    var vs := v.value.elements;
    var ws := Parse(re, z, v).out.value.elements;
    forall i | 0 <= i < |vs|
      ensures Parse(re, z.element, Some(ws[i])) == Accepted(Some(ws[i]))
    {
      FixedSettles(re, z.element, true, Some(vs[i]));
    }
    var again := Parse(re, z, Some(JArray(ws)));
    assert again.Accepted? && again.out.value.elements == ws;
  }

  lemma {:induction false} ObjectFixedSettles(re: Regex, z: Zod, v: Option<Json>)
    requires z.ZObject? && ReachedDefaultsFixed(re, z, false) && Parse(re, z, v).Accepted?
    ensures Settles(re, z, v)
    decreases z, 0
  {
    var shape, fields := z.shape, v.value.fields;
    var out := Parse(re, z, v).out.value.fields;
    forall k | k in shape
      ensures Satisfiable(re, shape[k])
    {
      assert Parse(re, shape[k], Get(fields, k)).Accepted?;
    }
    forall k | k in shape
      ensures Parse(re, shape[k], Get(out, k)) == Accepted(Get(out, k))
    {
      FixedSettles(re, shape[k], false, Get(fields, k));
      assert Get(out, k) == Parse(re, shape[k], Get(fields, k)).out;
    }
    var again := Parse(re, z, Some(JObject(out)));
    assert again.Accepted? && again.out.value.fields == out;
  }

  /** Where a reached default is not fixed, some input shows it. */
  lemma {:induction false} UnfixedInput(re: Regex, z: Zod, present: bool) returns (v: Option<Json>)
    requires !ReachedDefaultsFixed(re, z, present)
    ensures (present ==> v.Some?) && !Settles(re, z, v)
    decreases z, 1
  {
    match z
    case ZDefault(inner, value) =>
      if !ReachedDefaultsFixed(re, inner, true) {
        v := UnfixedInput(re, inner, true);
      } else {
        v := None;
      }
    case ZOptional(inner) => v := UnfixedInput(re, inner, present || !inner.ZDefault?);
    case ZArray(_, _) => v := UnfixedArray(re, z);
    case ZObject(_) => v := UnfixedObject(re, z);
  }

  lemma {:induction false} UnfixedArray(re: Regex, z: Zod) returns (v: Option<Json>)
    requires z.ZArray? && !ReachedDefaultsFixed(re, z, true)
    ensures v.Some? && !Settles(re, z, v)
    decreases z, 0
  {
    var x := UnfixedInput(re, z.element, true);
    var n: nat :| n >= 1 && SizeOk(z.sizes, n);
    var y := Parse(re, z.element, x).out.value;
    var vs := seq(n, i => x.value);
    v := Some(JArray(vs));
    var out := Parse(re, z, v).out;
    assert Parse(re, z, v).Accepted? && out.value.elements[0] == y;
  }

  /** Some accepted input for each property. */
  ghost function Inputs(re: Regex, shape: map<string, Zod>): (inputs: map<string, Option<Json>>)
    requires forall k :: k in shape ==> Satisfiable(re, shape[k])
    ensures inputs.Keys == shape.Keys && forall k :: k in shape ==> Parse(re, shape[k], inputs[k]).Accepted?
  {
    map k | k in shape ::
      assert Satisfiable(re, shape[k]);
      var v: Option<Json> :| Parse(re, shape[k], v).Accepted?;
      v
  }

  lemma {:induction false} UnfixedObject(re: Regex, z: Zod) returns (v: Option<Json>)
    requires z.ZObject? && !ReachedDefaultsFixed(re, z, false)
    ensures v.Some? && !Settles(re, z, v)
    decreases z, 0
  {
    var shape := z.shape;
    var k :| k in shape && !ReachedDefaultsFixed(re, shape[k], false);
    var x := UnfixedInput(re, shape[k], false);
    var inputs := Inputs(re, shape)[k := x];
    var fields := map j | j in inputs && inputs[j].Some? :: inputs[j].value;
    assert forall j :: j in shape ==> Get(fields, j) == inputs[j];
    v := Some(JObject(fields));
    var out := Parse(re, z, v).out;
    assert Parse(re, z, v).Accepted?;
    assert Get(out.value.fields, k) == Parse(re, shape[k], x).out;
  }

  /** Parsing with a validator is idempotent on every input exactly when every default that a parse can come to is
      a fixed point of the validator it belongs to. */
  lemma IdempotentExactlyWhen(re: Regex, z: Zod)
    ensures (forall v: Option<Json> :: Settles(re, z, v)) <==> ReachedDefaultsFixed(re, z, false)
  {
    if ReachedDefaultsFixed(re, z, false) {
      forall v: Option<Json>
        ensures Settles(re, z, v)
      {
        FixedSettles(re, z, false, v);
      }
    } else {
      var v := UnfixedInput(re, z, false);
    }
  }

  // ---- Defaults filled in ----

  /** Every property that has a default that is kept is present, in this value and in every value inside it. */
  predicate FilledIn(s: Schema, v: Json)
    decreases s
  {
    s.Schema? && s.enum.None? ==>
      && (s.typ == ArrayType && s.items.OneSchema? && s.items.item.Schema? && v.JArray? ==>
            forall i :: 0 <= i < |v.elements| ==> FilledIn(s.items.item, v.elements[i]))
      && (s.typ == ObjectType && v.JObject? ==>
            forall k :: k in s.properties ==>
              && (KeepsDefault(s.properties[k]) ==> k in v.fields)
              && (k in v.fields ==> FilledIn(s.properties[k], v.fields[k])))
  }

  lemma {:induction false} OutputIsFilledIn(re: Regex, s: Schema, present: bool, v: Option<Json>)
    requires ReachedDefaultsFixed(re, Translate(s), present) && (present ==> v.Some?)
    requires Parse(re, Translate(s), v).Accepted? && Parse(re, Translate(s), v).out.Some?
    ensures FilledIn(s, Parse(re, Translate(s), v).out.value)
    decreases s, 1
  {
    if s.Schema? && s.enum.None? {
      var z := Translate(s);
      var w := if z.ZDefault? && v.None? then Some(z.value) else v;
      assert z == Bare(s) || (z.ZDefault? && z.inner == Bare(s));
      assert Parse(re, Bare(s), w) == Parse(re, z, v);
      if w.Some? {
        BareReached(re, s, present);
        BareIsFilledIn(re, s, w);
      }
    }
  }

  lemma BareReached(re: Regex, s: Schema, present: bool)
    requires s.Schema? && s.enum.None? && ReachedDefaultsFixed(re, Translate(s), present)
    ensures ReachedDefaultsFixed(re, Bare(s), true)
  {
    var z := Translate(s);
    assert z == Bare(s) || (z.ZDefault? && z.inner == Bare(s));
  }

  lemma {:induction false} BareIsFilledIn(re: Regex, s: Schema, v: Option<Json>)
    requires s.Schema? && s.enum.None? && ReachedDefaultsFixed(re, Bare(s), true) && v.Some?
    requires Parse(re, Bare(s), v).Accepted? && Parse(re, Bare(s), v).out.Some?
    ensures FilledIn(s, Parse(re, Bare(s), v).out.value)
    decreases s, 0
  {
    var w := Parse(re, Bare(s), v).out.value;
    if s.typ == ArrayType && s.items.OneSchema? && s.items.item.Schema? {
      forall i | 0 <= i < |w.elements|
        ensures FilledIn(s.items.item, w.elements[i])
      {
        assert SizeOk(s.sizes, |w.elements|);
        OutputIsFilledIn(re, s.items.item, true, Some(v.value.elements[i]));
      }
    }
    if s.typ == ObjectType && s.properties != map[] {
      var shape := Bare(s).shape;
      forall k | k in shape
        ensures Satisfiable(re, shape[k])
      {
        assert Parse(re, shape[k], Get(v.value.fields, k)).Accepted?;
      }
      forall k | k in s.properties
        ensures KeepsDefault(s.properties[k]) ==> k in w.fields
        ensures k in w.fields ==> FilledIn(s.properties[k], w.fields[k])
      {
        PropertyIsFilledIn(re, s.properties[k], k in s.required, Get(v.value.fields, k));
        assert Get(w.fields, k) == Parse(re, shape[k], Get(v.value.fields, k)).out;
      }
    }
  }

  lemma {:induction false} PropertyIsFilledIn(re: Regex, p: Schema, required: bool, field: Option<Json>)
    requires ReachedDefaultsFixed(re, Property(p, required), false) && Parse(re, Property(p, required), field).Accepted?
    ensures var out := Parse(re, Property(p, required), field).out;
            (KeepsDefault(p) ==> out.Some?) && (out.Some? ==> FilledIn(p, out.value))
    decreases p, 2
  {
    var z := Property(p, required);
    if p.Schema? && Parse(re, z, field).out.Some? {
      assert Parse(re, Translate(p), field) == Parse(re, z, field);
      OutputIsFilledIn(re, p, field.Some?, field);
    }
  }

  /** The three facts together, for a translated schema. */
  lemma ParsingSettles(re: Regex, s: Schema, v: Option<Json>)
    requires ReachedDefaultsFixed(re, Translate(s), false) && Parse(re, Translate(s), v).Accepted?
    ensures var out := Parse(re, Translate(s), v).out;
            && Parse(re, Translate(s), out) == Accepted(out)
            && (out.Some? ==> FilledIn(s, out.value))
            && (v.Some? ==> out == Some(FillIn(s, v.value)))
  {
    if v.Some? {
      OutputIs(re, s, v.value);
    }
    FixedSettles(re, Translate(s), false, v);
    if Parse(re, Translate(s), v).out.Some? {
      OutputIsFilledIn(re, s, false, v);
    }
  }
}
