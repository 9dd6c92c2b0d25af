/** Schemas outside the supported ones, and values outside the plain ones, on which the validator
    and draft-07 disagree: a witness for each clause. */
module JsonSchemaLimits {
  import opened Option
  import opened JsonSchema
  import opened JsonSchemaToZod
  import opened JsonSchemaMeaning

  function Typed(t: SchemaType, enum: Option<seq<string>>, default: Option<Json>): Schema {
    Schema(t, enum, default, NO_STRING_RULES, NO_NUMBER_RULES, AnyItems, NO_SIZE_RULES, map[], {})
  }

  function Ruled(t: SchemaType, strings: StringRules, numbers: NumberRules, items: Items, required: set<string>): Schema {
    Schema(t, None, None, strings, numbers, items, NO_SIZE_RULES, map[], required)
  }

  function ObjectWith(p: Schema, required: set<string>): Schema {
    Schema(ObjectType, None, None, NO_STRING_RULES, NO_NUMBER_RULES, AnyItems, NO_SIZE_RULES, map["a" := p], required)
  }

  predicate Refuses(re: Regex, s: Schema, v: Json) {
    Valid(false, re, s, v) && !Accepts(re, Translate(s), v)
  }

  predicate LetsThrough(re: Regex, s: Schema, v: Json) {
    !Valid(false, re, s, v) && Accepts(re, Translate(s), v)
  }

  /** An absent property, seen from both sides. */
  lemma AbsentProperty(re: Regex, p: Schema, required: set<string>)
    ensures Valid(false, re, ObjectWith(p, required), JObject(map[])) <==> required == {}
    ensures Accepts(re, Translate(ObjectWith(p, required)), JObject(map[]))
            <==> Parse(re, Property(p, "a" in required), None).Accepted?
  {
    var s := ObjectWith(p, required);
    assert s.properties != map[] by { assert "a" in s.properties; }
    assert Translate(s) == ZObject(map k | k in s.properties :: Property(s.properties[k], k in s.required));
    ObjectAcceptance(re, map k | k in s.properties :: Property(s.properties[k], k in s.required), JObject(map[]));
  }

  /** An optional property whose default is lost has to be there after all. */
  lemma LostDefaultsRefuse(re: Regex, d: Json, text: string)
    requires d != JNull
    ensures Refuses(re, ObjectWith(Typed(NullType, None, Some(d)), {}), JObject(map[]))
    ensures Refuses(re, ObjectWith(Typed(StringType, Some([text]), Some(JString(text))), {}), JObject(map[]))
  {
    AbsentProperty(re, Typed(NullType, None, Some(d)), {});
    AbsentProperty(re, Typed(StringType, Some([text]), Some(JString(text))), {});
  }

  /** `required` has no effect on an untyped or boolean property, nor on a key without a property. */
  lemma RequiredIgnored(re: Regex)
    ensures LetsThrough(re, ObjectWith(Typed(NoType, None, None), {"a"}), JObject(map[]))
    ensures LetsThrough(re, ObjectWith(BoolSchema(true), {"a"}), JObject(map[]))
    ensures LetsThrough(re, Ruled(ObjectType, NO_STRING_RULES, NO_NUMBER_RULES, AnyItems, {"a"}), JObject(map[]))
  {
    AbsentProperty(re, Typed(NoType, None, None), {"a"});
    AbsentProperty(re, BoolSchema(true), {"a"});
    assert "a" in {"a"};
  }

  /** Only the first element has a schema in draft-07, and none has one in the validator. */
  lemma ItemListIgnored(re: Regex)
    ensures LetsThrough(re, Ruled(ArrayType, NO_STRING_RULES, NO_NUMBER_RULES, SchemaList([Typed(StringType, None, None)]), {}), JArray([JNull]))
  {
    var s := Ruled(ArrayType, NO_STRING_RULES, NO_NUMBER_RULES, SchemaList([Typed(StringType, None, None)]), {});
    ArrayAcceptance(re, ZUnknown, NO_SIZE_RULES, JArray([JNull]));
    assert Translate(s) == ZArray(ZUnknown, NO_SIZE_RULES);
    var v := JArray([JNull]);
    assert s.items.list[0] == Typed(StringType, None, None) && v.elements[0] == JNull;
    assert !Valid(false, re, s.items.list[0], v.elements[0]);
  }

  /** So are the type beside an enum, and rules without a type. */
  lemma RulesIgnored(re: Regex, text: string)
    ensures LetsThrough(re, Typed(NullType, Some([text]), None), JString(text))
    ensures LetsThrough(re, Ruled(NoType, NO_STRING_RULES, NumberRules(Some(1.0), None, None, None, None), AnyItems, {}), JNumber(0.0))
  {
  }

  /** A property that nothing may have can have any value. */
  lemma FalseIgnored(re: Regex, v: Json)
    ensures LetsThrough(re, ObjectWith(BoolSchema(false), {}), JObject(map["a" := v]))
  {
    var s, o := ObjectWith(BoolSchema(false), {}), JObject(map["a" := v]);
    var shape := map k | k in s.properties :: Property(s.properties[k], k in s.required);
    assert "a" in s.properties && s.properties != map[];
    assert Translate(s) == ZObject(shape) && shape["a"] == ZOptional(ZUnknown);
    ObjectAcceptance(re, shape, o);
    assert !Valid(false, re, s.properties["a"], o.fields["a"]);
  }

  /** And so can the elements of an array. */
  lemma FalseItemsIgnored(re: Regex, v: Json)
    ensures LetsThrough(re, Ruled(ArrayType, NO_STRING_RULES, NO_NUMBER_RULES, OneSchema(BoolSchema(false)), {}), JArray([v]))
  {
    var s, a := Ruled(ArrayType, NO_STRING_RULES, NO_NUMBER_RULES, OneSchema(BoolSchema(false)), {}), JArray([v]);
    ArrayAcceptance(re, ZUnknown, NO_SIZE_RULES, a);
    assert Translate(s) == ZArray(ZUnknown, NO_SIZE_RULES);
    assert a.elements[0] == v && !Valid(false, re, s.items.item, a.elements[0]);
  }

  /** Beside an enum the rules for texts are ignored. */
  lemma EnumRulesIgnored(re: Regex, text: string, other: string)
    requires text != [] && other != text
    ensures var rules := StringRules(None, Some(0), None);
            var s := Schema(StringType, Some([text, other]), None, rules, NO_NUMBER_RULES, AnyItems, NO_SIZE_RULES, map[], {});
            LetsThrough(re, s, JString(text))
  {
    assert text in [text, other];
    assert !AtMost(Some(0), |text|);
  }

  /** Without a type every rule is ignored, whatever it is about. */
  lemma UntypedRulesIgnored(re: Regex)
    ensures LetsThrough(re, Ruled(NoType, StringRules(Some(1), None, None), NO_NUMBER_RULES, AnyItems, {}), JString([]))
    ensures LetsThrough(re, Ruled(NoType, NO_STRING_RULES, NO_NUMBER_RULES, AnyItems, {"a"}), JObject(map[]))
    ensures LetsThrough(re, Schema(NoType, None, None, NO_STRING_RULES, NO_NUMBER_RULES, AnyItems, SizeRules(Some(1), None), map[], {}), JArray([]))
  {
    assert "a" in {"a"};
  }

  lemma UntypedPartsIgnored(re: Regex)
    ensures LetsThrough(re, Ruled(NoType, NO_STRING_RULES, NO_NUMBER_RULES, OneSchema(Typed(NullType, None, None)), {}), JArray([JBool(true)]))
    ensures LetsThrough(re, Schema(NoType, None, None, NO_STRING_RULES, NO_NUMBER_RULES, AnyItems, NO_SIZE_RULES,
                                   map["a" := Typed(NullType, None, None)], {}), JObject(map["a" := JBool(true)]))
  {
    var item := Typed(NullType, None, None);
    var v := JArray([JBool(true)]);
    assert v.elements[0] == JBool(true) && !Valid(false, re, item, v.elements[0]);
    assert "a" in map["a" := item];
  }

  /** Integers beyond 2^53 - 1, and texts whose UTF-16 form is longer than they are. */
  lemma PlainValuesOnly(re: Regex, x: int)
    requires x as real > MAX_SAFE
    ensures Refuses(re, Typed(IntegerType, None, None), JNumber(x as real))
    ensures Refuses(re, Ruled(StringType, StringRules(None, Some(1), None), NO_NUMBER_RULES, AnyItems, {}), JString("\U{1F600}"))
  {
    var s := "\U{1F600}";
    assert s[1..] == [] && Utf16Length(s) == 2 + Utf16Length(s[1..]);
  }

  /** A required property with a default may be absent. */
  lemma DefaultsFillRequired(re: Regex, t: SchemaType, d: Json)
    requires t !in {NoType, NullType}
    ensures LetsThrough(re, ObjectWith(Typed(t, None, Some(d)), {"a"}), JObject(map[]))
  {
    AbsentProperty(re, Typed(t, None, Some(d)), {"a"});
    assert "a" in {"a"};
  }
}
