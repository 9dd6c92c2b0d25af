/** What the validator that the translation produces accepts, for every schema, and where that is what draft-07
    says. */
module JsonSchemaMeaning {
  import opened Option
  import opened JsonSchema
  import opened JsonSchemaToZod
  import opened JsonSchemaOutputs

  // ---- The schemas that are translated faithfully ----

  predicate NoRules(s: Schema)
    requires s.Schema?
  {
    && s.strings == NO_STRING_RULES && s.numbers == NO_NUMBER_RULES && s.sizes == NO_SIZE_RULES
    && s.items.AnyItems? && s.properties == map[] && s.required == {}
  }

  /** A property that the translation cannot make required. */
  predicate AlwaysOptional(p: Schema) {
    p.BoolSchema? || (p.typ == NoType && p.enum.None?)
  }

  /** A default that the translation does not turn into one. */
  predicate LosesDefault(p: Schema) {
    p.Schema? && p.default.Some?
    && (if p.enum.Some? then |p.enum.value| < 2 else p.typ == NullType && p.default.value != JNull)
  }

  /** Typed schemas.  Every clause is the guard of a branch of the translation that ignores a keyword. */
  predicate Supported(s: Schema)
    decreases s
  {
    match s
    case BoolSchema(allows) => allows
    case Schema(typ, enum, _, strings, _, items, _, properties, required) =>
      && !LosesDefault(s)
      && (enum.Some? ==> typ in {StringType, NoType} && strings == NO_STRING_RULES)
      && (enum.None? && typ == NoType ==> NoRules(s))
      && (enum.None? && typ == ArrayType ==> !items.SchemaList? && (items.OneSchema? ==> Supported(items.item)))
      && (enum.None? && typ == ObjectType ==>
            && (forall k :: k in required ==> k in properties && !AlwaysOptional(properties[k]))
            && (forall k :: k in properties ==> Supported(properties[k])))
  }

  // ---- What the translation makes of a schema, as a schema ----

  function Tighter(a: Option<real>, b: real, lower: bool): Option<real> {
    if a.Some? && (if lower then a.value >= b else a.value <= b) then a else Some(b)
  }

  /** Safe integers only, which is what `z.number().int()` accepts. */
  function SafeRules(r: NumberRules): NumberRules {
    r.(minimum := Tighter(r.minimum, -MAX_SAFE, true), maximum := Tighter(r.maximum, MAX_SAFE, false))
  }

  /** The translation lets the property be absent. */
  predicate MayBeAbsent(p: Schema, required: bool) {
    TakesUndefined(p) || KeepsDefault(p) || (p.default.None? && !required)
  }

  /** A schema of one type with the rules for that type. */
  function OfType(typ: SchemaType, strings: StringRules, numbers: NumberRules): Schema {
    Schema(typ, None, None, strings, numbers, AnyItems, NO_SIZE_RULES, map[], {})
  }

  /** What the validator enforces of a schema: nothing for `true` and `false`, of an enum only the enum, without a type
      nothing at all, otherwise the rules for that type, with integers held to the safe range and `required` worked
      out again from whether a property may be absent. */
  function Enforced(s: Schema): Schema
    decreases s
  {
    if s.BoolSchema? then BoolSchema(true)
    else if s.enum.Some? then Schema(NoType, s.enum, None, NO_STRING_RULES, NO_NUMBER_RULES, AnyItems, NO_SIZE_RULES, map[], {})
    else
      match s.typ
      case StringType => OfType(StringType, s.strings, NO_NUMBER_RULES)
      case NumberType => OfType(NumberType, NO_STRING_RULES, s.numbers)
      case IntegerType => OfType(IntegerType, NO_STRING_RULES, SafeRules(s.numbers))
      case ArrayType =>
        Schema(ArrayType, None, None, NO_STRING_RULES, NO_NUMBER_RULES,
               if s.items.OneSchema? then OneSchema(Enforced(s.items.item)) else AnyItems, s.sizes, map[], {})
      case ObjectType =>
        Schema(ObjectType, None, None, NO_STRING_RULES, NO_NUMBER_RULES, AnyItems, NO_SIZE_RULES,
               map k | k in s.properties :: Enforced(s.properties[k]),
               set k | k in s.properties && !MayBeAbsent(s.properties[k], k in s.required))
      case _ => OfType(s.typ, NO_STRING_RULES, NO_NUMBER_RULES)
  }

  // ---- Acceptance ----

  predicate Accepts(re: Regex, z: Zod, v: Json) {
    Parse(re, z, Some(v)).Accepted?
  }

  lemma SafeRulesMean(r: NumberRules, x: real)
    ensures NumberOk(SafeRules(r), x) <==> NumberOk(r, x) && -MAX_SAFE <= x <= MAX_SAFE
  {
  }

  lemma ArrayAcceptance(re: Regex, element: Zod, sizes: SizeRules, v: Json)
    ensures Accepts(re, ZArray(element, sizes), v) <==>
              v.JArray? && SizeOk(sizes, |v.elements|)
              && forall i :: 0 <= i < |v.elements| ==> Accepts(re, element, v.elements[i])
  {
  }

  lemma ObjectAcceptance(re: Regex, shape: map<string, Zod>, v: Json)
    ensures Accepts(re, ZObject(shape), v) <==>
              v.JObject? && forall k :: k in shape ==> Parse(re, shape[k], Get(v.fields, k)).Accepted?
  {
  }

  lemma WrappingKeepsAcceptance(re: Regex, s: Schema, v: Json)
    requires s.Schema? && s.enum.None?
    ensures Accepts(re, Translate(s), v) <==> Accepts(re, Bare(s), v)
  {
  }

  /** A present property is judged by its own schema, an absent one by whether it may be absent. */
  lemma PropertyAcceptance(re: Regex, p: Schema, required: bool, v: Option<Json>)
    ensures v.Some? ==> (Parse(re, Property(p, required), v).Accepted? <==> Accepts(re, Translate(p), v.value))
    ensures v.None? ==> (Parse(re, Property(p, required), v).Accepted? <==> MayBeAbsent(p, required))
  {
    AbsentIs(re, p);
  }

  /** For every schema and every value: the translation accepts exactly what the enforced schema says, lengths
      counted as JavaScript counts them. */
  lemma {:induction false} TranslationMeaning(re: Regex, s: Schema, v: Json)
    ensures Accepts(re, Translate(s), v) <==> Valid(true, re, Enforced(s), v)
    decreases s
  {
    if s.Schema? && s.enum.None? {
      WrappingKeepsAcceptance(re, s, v);
      match s.typ
      case ArrayType => ArrayMeaning(re, s, v);
      case ObjectType => ObjectMeaning(re, s, v);
      case IntegerType => if v.JNumber? { SafeRulesMean(s.numbers, v.n); }
      case _ =>
    } else if s.Schema? {
      EnumMeaning(re, s, v);
    }
  }

  lemma EnumMeaning(re: Regex, s: Schema, v: Json)
    requires s.Schema? && s.enum.Some?
    ensures Accepts(re, Translate(s), v) <==> Valid(true, re, Enforced(s), v)
  {
    var texts := s.enum.value;
    assert Valid(true, re, Enforced(s), v) <==> v.JString? && v.s in texts;
    assert Accepts(re, ZEnum(texts), v) <==> v.JString? && v.s in texts;
    if |texts| == 1 {
      assert texts == [texts[0]];
      assert Accepts(re, ZLiteral(texts[0]), v) <==> v == JString(texts[0]);
    } else if |texts| >= 2 {
      var z := Translate(s);
      assert z == ZEnum(texts) || (z.ZDefault? && z.inner == ZEnum(texts)) || z == ZOptional(ZEnum(texts));
    }
  }

  lemma {:induction false} ArrayMeaning(re: Regex, s: Schema, v: Json)
    requires s.Schema? && s.enum.None? && s.typ == ArrayType
    ensures Accepts(re, Bare(s), v) <==> Valid(true, re, Enforced(s), v)
    decreases s, 0
  {
    var element := if s.items.OneSchema? && s.items.item.Schema? then Translate(s.items.item) else ZUnknown;
    assert Bare(s) == ZArray(element, s.sizes);
    ArrayAcceptance(re, element, s.sizes, v);
    if v.JArray? && s.items.OneSchema? {
      var item := s.items.item;
      forall i | 0 <= i < |v.elements|
        ensures Accepts(re, element, v.elements[i]) <==> Valid(true, re, Enforced(item), v.elements[i])
      {
        TranslationMeaning(re, item, v.elements[i]);
      }
    }
  }

  lemma {:induction false} ObjectMeaning(re: Regex, s: Schema, v: Json)
    requires s.Schema? && s.enum.None? && s.typ == ObjectType
    ensures Accepts(re, Bare(s), v) <==> Valid(true, re, Enforced(s), v)
    decreases s, 0
  {
    var enforced := Enforced(s);
    if v.JObject? {
      ObjectValid(re, enforced, v);
    }
    if v.JObject? && s.properties != map[] {
      var ps := s.properties;
      forall k | k in ps
        ensures Parse(re, Property(ps[k], k in s.required), Get(v.fields, k)).Accepted?
                <==> (k in enforced.required ==> k in v.fields)
                     && (k in v.fields ==> Valid(true, re, enforced.properties[k], v.fields[k]))
      {
        PropertyAcceptance(re, ps[k], k in s.required, Get(v.fields, k));
        if k in v.fields {
          TranslationMeaning(re, ps[k], v.fields[k]);
        }
      }
      var shape := map k | k in ps :: Property(ps[k], k in s.required);
      assert Bare(s) == ZObject(shape);
      ObjectAcceptance(re, shape, v);
    }
  }

  /** Validity of an object, one property at a time. */
  lemma ObjectValid(re: Regex, s: Schema, v: Json)
    requires s.Schema? && s.enum.None? && s.typ == ObjectType && v.JObject?
    requires forall k :: k in s.required ==> k in s.properties
    ensures Valid(true, re, s, v) <==>
              forall k :: k in s.properties ==>
                (k in s.required ==> k in v.fields) && (k in v.fields ==> Valid(true, re, s.properties[k], v.fields[k]))
  {
  }

  // ---- The rules in numbers ----

  predicate IsTimes(x: real, k: int, of: real) {
    x == k as real * of
  }

  lemma MultipleIsTimes(x: real, of: real)
    ensures IsMultiple(x, of) <==> of != 0.0 && exists k: int :: IsTimes(x, k, of)
  {
    if of != 0.0 {
      if IsMultiple(x, of) {
        assert IsTimes(x, (x / of).Floor, of);
      }
      if k: int :| IsTimes(x, k, of) {
        assert x / of == k as real;
      }
    }
  }

  /** Bounds are met or, if they are exclusive, surpassed; multiples are whole; integers are whole and at most
      2^53 - 1. */
  lemma AcceptedNumbers(re: Regex, s: Schema, x: real)
    requires s.Schema? && s.enum.None? && s.typ in {NumberType, IntegerType}
    ensures Accepts(re, Translate(s), JNumber(x)) <==>
              && (s.numbers.minimum.Some? ==> s.numbers.minimum.value <= x)
              && (s.numbers.maximum.Some? ==> x <= s.numbers.maximum.value)
              && (s.numbers.exclusiveMinimum.Some? ==> s.numbers.exclusiveMinimum.value < x)
              && (s.numbers.exclusiveMaximum.Some? ==> x < s.numbers.exclusiveMaximum.value)
              && (s.numbers.multipleOf.Some? ==>
                    s.numbers.multipleOf.value != 0.0 && exists k: int :: IsTimes(x, k, s.numbers.multipleOf.value))
              && (s.typ == IntegerType ==>
                    exists n: int :: IsTimes(x, n, 1.0) && -0x1F_FFFF_FFFF_FFFF <= n <= 0x1F_FFFF_FFFF_FFFF)
  {
    WrappingKeepsAcceptance(re, s, JNumber(x));
    if s.numbers.multipleOf.Some? {
      MultipleIsTimes(x, s.numbers.multipleOf.value);
    }
    if IsInteger(x) {
      assert IsTimes(x, x.Floor, 1.0);
    }
  }

  /** On texts of the basic plane, lengths are numbers of characters. */
  lemma AcceptedTexts(re: Regex, s: Schema, text: string)
    requires s.Schema? && s.enum.None? && s.typ == StringType && BasicPlane(text)
    ensures Accepts(re, Translate(s), JString(text)) <==>
              && (s.strings.minLength.Some? ==> s.strings.minLength.value <= |text|)
              && (s.strings.maxLength.Some? ==> |text| <= s.strings.maxLength.value)
              && (s.strings.pattern.Some? ==> re(s.strings.pattern.value, text))
  {
    WrappingKeepsAcceptance(re, s, JString(text));
    BasicPlaneLength(text);
  }

  /** Both sizes may be met, and one schema is for all elements. */
  lemma AcceptedArrays(re: Regex, s: Schema, vs: seq<Json>)
    requires s.Schema? && s.enum.None? && s.typ == ArrayType
    ensures Accepts(re, Translate(s), JArray(vs)) <==>
              && (s.sizes.min.Some? ==> s.sizes.min.value <= |vs|) && (s.sizes.max.Some? ==> |vs| <= s.sizes.max.value)
              && (s.items.OneSchema? ==> forall i :: 0 <= i < |vs| ==> Accepts(re, Translate(s.items.item), vs[i]))
  {
    var element := if s.items.OneSchema? && s.items.item.Schema? then Translate(s.items.item) else ZUnknown;
    WrappingKeepsAcceptance(re, s, JArray(vs));
    assert Bare(s) == ZArray(element, s.sizes);
    ArrayAcceptance(re, element, s.sizes, JArray(vs));
  }

  // ---- Agreement with draft-07 itself ----

  /** Texts without characters beyond the basic plane, where both ways of counting agree, and
      numbers in the safe range. */
  predicate Plain(v: Json)
    decreases v
  {
    match v
    case JNumber(n) => -MAX_SAFE <= n <= MAX_SAFE
    case JString(s) => BasicPlane(s)
    case JArray(vs) => forall i :: 0 <= i < |vs| ==> Plain(vs[i])
    case JObject(fields) => forall k :: k in fields ==> Plain(fields[k])
    case _ => true
  }

  predicate BasicPlane(s: string) {
    forall i :: 0 <= i < |s| ==> s[i] as int <= 0xFFFF
  }

  lemma {:induction false} BasicPlaneLength(s: string)
    requires BasicPlane(s)
    ensures Utf16Length(s) == |s|
  {
    if s != [] {
      BasicPlaneLength(s[1..]);
    }
  }

  predicate Defaulted(p: Schema) {
    p.Schema? && p.default.Some?
  }

  /** No property is both required and defaulted, at any depth. */
  predicate DefaultsOptional(s: Schema)
    decreases s
  {
    match s
    case BoolSchema(_) => true
    case Schema(_, _, _, _, _, items, _, properties, required) =>
      && (items.OneSchema? ==> DefaultsOptional(items.item))
      && (forall k :: k in properties ==> DefaultsOptional(properties[k]) && !(k in required && Defaulted(properties[k])))
  }

  /** Enforcing only adds values, and none where no required property has a default. */
  lemma {:induction false} EnforcedAccepts(re: Regex, s: Schema, v: Json)
    requires Supported(s) && Plain(v)
    ensures Valid(false, re, s, v) ==> Valid(true, re, Enforced(s), v)
    ensures DefaultsOptional(s) ==> (Valid(false, re, s, v) <==> Valid(true, re, Enforced(s), v))
    decreases s
  {
    if s.Schema? {
      if v.JString? {
        BasicPlaneLength(v.s);
      }
      if v.JNumber? {
        SafeRulesMean(s.numbers, v.n);
      }
      if v.JArray? && s.typ == ArrayType && s.enum.None? && s.items.OneSchema? {
        forall i | 0 <= i < |v.elements|
          ensures Valid(false, re, s.items.item, v.elements[i]) ==> Valid(true, re, Enforced(s.items.item), v.elements[i])
          ensures DefaultsOptional(s.items.item) ==>
                    (Valid(false, re, s.items.item, v.elements[i]) <==> Valid(true, re, Enforced(s.items.item), v.elements[i]))
        {
          EnforcedAccepts(re, s.items.item, v.elements[i]);
        }
      }
      if v.JObject? && s.typ == ObjectType && s.enum.None? {
        EnforcedObjectAccepts(re, s, v);
      }
    }
  }

  lemma {:induction false} EnforcedObjectAccepts(re: Regex, s: Schema, v: Json)
    requires s.Schema? && s.enum.None? && s.typ == ObjectType && v.JObject?
    requires Supported(s) && Plain(v)
    ensures Valid(false, re, s, v) ==> Valid(true, re, Enforced(s), v)
    ensures DefaultsOptional(s) ==> (Valid(false, re, s, v) <==> Valid(true, re, Enforced(s), v))
    decreases s, 0
  {
    forall k | k in s.properties && k in v.fields
      ensures Valid(false, re, s.properties[k], v.fields[k]) ==> Valid(true, re, Enforced(s).properties[k], v.fields[k])
      ensures DefaultsOptional(s.properties[k]) ==>
                (Valid(false, re, s.properties[k], v.fields[k]) <==> Valid(true, re, Enforced(s).properties[k], v.fields[k]))
    {
      EnforcedAccepts(re, s.properties[k], v.fields[k]);
    }
  }

  /** On plain values the validator accepts whatever draft-07 does, and nothing else unless a
      required property has a default. */
  lemma AgreesWithDraft07(re: Regex, s: Schema, v: Json)
    requires Supported(s) && Plain(v)
    ensures Valid(false, re, s, v) ==> Accepts(re, Translate(s), v)
    ensures DefaultsOptional(s) ==> (Accepts(re, Translate(s), v) <==> Valid(false, re, s, v))
  {
    TranslationMeaning(re, s, v);
    EnforcedAccepts(re, s, v);
  }
}
