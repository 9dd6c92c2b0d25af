/** What parsing with the produced validator returns, value by value: the input, with the defaults of absent
    properties and without the keys that the schema does not name. */
module JsonSchemaOutputs {
  import opened Option
  import opened JsonSchema
  import opened JsonSchemaToZod

  /** The default survives the translation: an enum of two texts or more has to contain it, and a null schema
      takes null only. */
  predicate KeepsDefault(s: Schema) {
    && s.Schema? && s.default.Some?
    && match s.enum
       case Some(texts) => |texts| >= 2 && s.default.value.JString? && s.default.value.s in texts
       case None => s.typ == NullType ==> s.default.value == JNull
  }

  /** Without a default that is kept, these still accept undefined. */
  predicate TakesUndefined(s: Schema) {
    match s
    case BoolSchema(_) => true
    case Schema(typ, enum, default, _, _, _, _, _, _) =>
      if enum.Some? then |enum.value| >= 2 && default.Some? else typ == NoType
  }

  /** An absent value becomes exactly the schema's default. */
  lemma AbsentIs(re: Regex, s: Schema)
    ensures Parse(re, Translate(s), None)
         == if KeepsDefault(s) then Accepted(Some(s.default.value))
            else if TakesUndefined(s) then Accepted(None)
            else Rejected
  {
    if s.Schema? && s.enum.None? {
      assert Parse(re, Bare(s), None) == if s.typ == NoType then Accepted(None) else Rejected;
    }
  }

  lemma AbsentPropertyIs(re: Regex, p: Schema, required: bool)
    ensures var parsed := Parse(re, Property(p, required), None);
            parsed.Accepted? ==> parsed.out == if KeepsDefault(p) then Some(p.default.value) else None
  {
    AbsentIs(re, p);
  }

  // ---- The output for a present value ----

  /** The value with defaults filled in and other keys stripped, at every depth. */
  function FillIn(s: Schema, v: Json): Json
    decreases s
  {
    if s.BoolSchema? || s.enum.Some? then v else
    match s.typ
    case ArrayType =>
      if s.items.OneSchema? && v.JArray?
      then JArray(seq(|v.elements|, i requires 0 <= i < |v.elements| => FillIn(s.items.item, v.elements[i])))
      else v
    case ObjectType =>
      if s.properties != map[] && v.JObject?
      then JObject(map k | k in s.properties && (k in v.fields || KeepsDefault(s.properties[k])) ::
                     if k in v.fields then FillIn(s.properties[k], v.fields[k]) else s.properties[k].default.value)
      else v
    case _ => v
  }

  /** Every accepted value comes out filled in, whatever the schema. */
  lemma {:induction false} OutputIs(re: Regex, s: Schema, v: Json)
    requires Parse(re, Translate(s), Some(v)).Accepted?
    ensures Parse(re, Translate(s), Some(v)) == Accepted(Some(FillIn(s, v)))
    decreases s, 1
  {
    if s.Schema? && s.enum.None? {
      var z := Translate(s);
      assert z == Bare(s) || (z.ZDefault? && z.inner == Bare(s));
      match s.typ
      case ArrayType => ArrayOutputIs(re, s, v);
      case ObjectType => ObjectOutputIs(re, s, v);
      case _ =>
    }
  }

  lemma {:induction false} ArrayOutputIs(re: Regex, s: Schema, v: Json)
    requires s.Schema? && s.enum.None? && s.typ == ArrayType && Parse(re, Bare(s), Some(v)).Accepted?
    ensures Parse(re, Bare(s), Some(v)) == Accepted(Some(FillIn(s, v)))
    decreases s, 0
  {
    var out := Parse(re, Bare(s), Some(v)).out.value;
    if s.items.OneSchema? {
      var item := s.items.item;
      forall i | 0 <= i < |v.elements|
        ensures out.elements[i] == FillIn(item, v.elements[i])
      {
        if item.Schema? {
          OutputIs(re, item, v.elements[i]);
        }
      }
      assert out.elements == FillIn(s, v).elements;
    } else {
      assert out.elements == v.elements;
    }
  }

  /** What stands in the output for one property. */
  lemma {:induction false} PropertyOutputIs(re: Regex, p: Schema, required: bool, field: Option<Json>)
    requires Parse(re, Property(p, required), field).Accepted?
    ensures field.Some? ==> Parse(re, Translate(p), field) == Parse(re, Property(p, required), field) == Accepted(Some(FillIn(p, field.value)))
    ensures field.None? ==> Parse(re, Property(p, required), field).out == if KeepsDefault(p) then Some(p.default.value) else None
    decreases p, 2
  {
    if field.Some? {
      OutputIs(re, p, field.value);
    } else {
      AbsentPropertyIs(re, p, required);
    }
  }

  lemma {:induction false} ObjectOutputIs(re: Regex, s: Schema, v: Json)
    requires s.Schema? && s.enum.None? && s.typ == ObjectType && Parse(re, Bare(s), Some(v)).Accepted?
    ensures Parse(re, Bare(s), Some(v)) == Accepted(Some(FillIn(s, v)))
    decreases s, 0
  {
    if s.properties != map[] {
      var out := Parse(re, Bare(s), Some(v)).out.value.fields;
      var filled := FillIn(s, v).fields;
      forall k | k in s.properties
        ensures Get(out, k) == Get(filled, k)
      {
        PropertyOutputIs(re, s.properties[k], k in s.required, Get(v.fields, k));
      }
      assert out == filled;
    }
  }

  /** Property by property: an absent one holds exactly its default, or stays absent; a present one holds what
      parsing it with its own schema returns; and there are no other keys. */
  lemma ObjectOutput(re: Regex, s: Schema, v: Json)
    requires s.Schema? && s.enum.None? && s.typ == ObjectType && s.properties != map[]
    requires Parse(re, Translate(s), Some(v)).Accepted?
    ensures v.JObject? && Parse(re, Translate(s), Some(v)).out.value.JObject?
    ensures var out := Parse(re, Translate(s), Some(v)).out.value.fields;
            && (forall k :: k in out ==> k in s.properties)
            && (forall k :: k in s.properties && k !in v.fields && KeepsDefault(s.properties[k]) ==>
                  k in out && out[k] == s.properties[k].default.value)
            && (forall k :: k in s.properties && k !in v.fields && !KeepsDefault(s.properties[k]) ==> k !in out)
            && (forall k :: k in s.properties && k in v.fields ==>
                  k in out && Parse(re, Translate(s.properties[k]), Some(v.fields[k])) == Accepted(Some(out[k])))
  {
    OutputIs(re, s, v);
    var shape := map k | k in s.properties :: Property(s.properties[k], k in s.required);
    assert Bare(s) == ZObject(shape);
    assert Parse(re, Bare(s), Some(v)).Accepted?;
    forall k | k in s.properties && k in v.fields
      ensures Parse(re, Translate(s.properties[k]), Some(v.fields[k])) == Accepted(Some(FillIn(s.properties[k], v.fields[k])))
    {
      assert Parse(re, shape[k], Get(v.fields, k)).Accepted?;
      PropertyOutputIs(re, s.properties[k], k in s.required, Get(v.fields, k));
    }
  }
}
