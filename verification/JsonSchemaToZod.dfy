/** The translation of a schema into a Zod validator, and the Zod combinators it uses. */
module JsonSchemaToZod {
  import opened Option
  import opened JsonSchema

  datatype Zod =
    | ZNever
    | ZLiteral(text: string)
    | ZEnum(texts: seq<string>)
    | ZString(strings: StringRules)
    | ZNumber(integer: bool, numbers: NumberRules)
    | ZBoolean
    | ZNull
    | ZUnknown
    | ZArray(element: Zod, sizes: SizeRules)
    | ZObject(shape: map<string, Zod>)   // strips other keys
    | ZRecord                            // z.object({}).catchall(z.any())
    | ZDefault(inner: Zod, value: Json)
    | ZOptional(inner: Zod)

  /** None is JavaScript's undefined. */
  datatype Parsed = Rejected | Accepted(out: Option<Json>)

  const MAX_SAFE: real := 9007199254740991.0

  predicate IsSafeInteger(x: real) { IsInteger(x) && -MAX_SAFE <= x <= MAX_SAFE }

  function Get(fields: map<string, Json>, k: string): Option<Json> {
    if k in fields then Some(fields[k]) else None
  }

  function Check(ok: bool, v: Option<Json>): Parsed {
    if ok then Accepted(v) else Rejected
  }

  predicate NumberAccepted(integer: bool, r: NumberRules, v: Json) {
    v.JNumber? && (integer ==> IsSafeInteger(v.n)) && NumberOk(r, v.n)
  }

  function Parse(re: Regex, z: Zod, v: Option<Json>): (p: Parsed)
    ensures v.Some? && p.Accepted? ==> p.out.Some?
    decreases z
  {
    match z
    case ZUnknown => Accepted(v)
    case ZDefault(inner, value) => if v.None? then Accepted(Some(value)) else Parse(re, inner, v)
    case ZOptional(inner) => if v.None? && !inner.ZDefault? then Accepted(None) else Parse(re, inner, v)
    case ZNever => Rejected
    case ZLiteral(text) => Check(v == Some(JString(text)), v)
    case ZEnum(texts) => Check(v.Some? && v.value.JString? && v.value.s in texts, v)
    case ZString(r) => Check(v.Some? && v.value.JString? && StringOk(true, re, r, v.value.s), v)
    case ZNumber(integer, r) => Check(v.Some? && NumberAccepted(integer, r, v.value), v)
    case ZBoolean => Check(v.Some? && v.value.JBool?, v)
    case ZNull => Check(v == Some(JNull), v)
    case ZRecord => Check(v.Some? && v.value.JObject?, v)
    case ZArray(element, sizes) =>
      if v.None? || !v.value.JArray? then Rejected else
      var vs := v.value.elements;
      if SizeOk(sizes, |vs|) && forall i :: 0 <= i < |vs| ==> Parse(re, element, Some(vs[i])).Accepted?
      then Accepted(Some(JArray(seq(|vs|, i requires 0 <= i < |vs| => Parse(re, element, Some(vs[i])).out.value))))
      else Rejected
    case ZObject(shape) =>
      if v.None? || !v.value.JObject? then Rejected else
      var fields := v.value.fields;
      if forall k :: k in shape ==> Parse(re, shape[k], Get(fields, k)).Accepted?
      then Accepted(Some(JObject(
             map k | k in shape && Parse(re, shape[k], Get(fields, k)).out.Some? ::
               Parse(re, shape[k], Get(fields, k)).out.value)))
      else Rejected
  }

  // ---- The translation ----

  /** The validator before any default; only an untyped schema accepts undefined at this point. */
  function Bare(s: Schema): (z: Zod)
    requires s.Schema? && s.enum.None?
    ensures !z.ZDefault? && !z.ZOptional? && (z.ZUnknown? <==> s.typ == NoType)
    decreases s, 0
  {
    match s.typ
    case StringType => ZString(s.strings)
    case NumberType => ZNumber(false, s.numbers)
    case IntegerType => ZNumber(true, s.numbers)
    case BooleanType => ZBoolean
    case NullType => ZNull
    case NoType => ZUnknown
    case ArrayType =>
      if s.items.OneSchema? && s.items.item.Schema? then ZArray(Translate(s.items.item), s.sizes)
      else ZArray(ZUnknown, s.sizes)
    case ObjectType =>
      if s.properties == map[] then ZRecord
      else ZObject(map k | k in s.properties :: Property(s.properties[k], k in s.required))
  }

  function Translate(s: Schema): Zod
    decreases s, 1
  {
    if s.BoolSchema? then ZUnknown
    else if s.enum.Some? then
      var texts := s.enum.value;
      if |texts| == 0 then ZNever
      else if |texts| == 1 then ZLiteral(texts[0])
      else if s.default.None? then ZEnum(texts)
      else if s.default.value.JString? && s.default.value.s in texts then ZDefault(ZEnum(texts), s.default.value)
      else ZOptional(ZEnum(texts))
    else if s.default.None? || (s.typ == NullType && s.default.value != JNull) then Bare(s)
    else ZDefault(Bare(s), s.default.value)
  }

  function Property(p: Schema, required: bool): Zod
    decreases p, 2
  {
    if p.BoolSchema? then ZOptional(ZUnknown)
    else if p.default.None? && !required then ZOptional(Translate(p))
    else Translate(p)
  }

  /** The translation as it is carried out: builders that rules are added to one at a time, and a
      shape that is filled key by key. */
  method JsonSchemaToZod(s: Schema) returns (z: Zod)
    ensures z == Translate(s)
    decreases s
  {
    if s.BoolSchema? {
      return ZUnknown;
    }
    if s.enum.Some? {
      var texts := s.enum.value;
      if |texts| == 0 {
        return ZNever;
      }
      if |texts| == 1 {
        return ZLiteral(texts[0]);
      }
      z := ZEnum(texts);
      if s.default.Some? {
        if s.default.value.JString? && s.default.value.s in texts {
          return ZDefault(z, s.default.value);
        }
        return ZOptional(z);
      }
      return;
    }
    match s.typ {
      case StringType => z := AddStringRules(s.strings);
      case NumberType => z := AddNumberRules(false, s.numbers);
      case IntegerType => z := AddNumberRules(true, s.numbers);
      case BooleanType => z := ZBoolean;
      case NullType =>
        if s.default == Some(JNull) {
          return ZDefault(ZNull, JNull);
        }
        return ZNull;
      case NoType => z := ZUnknown;
      case ArrayType =>
        var element := ZUnknown;
        if s.items.OneSchema? && s.items.item.Schema? {
          element := JsonSchemaToZod(s.items.item);
        }
        z := ZArray(element, NO_SIZE_RULES);
        if s.sizes.min.Some? {
          z := z.(sizes := z.sizes.(min := s.sizes.min));
        }
        if s.sizes.max.Some? {
          z := z.(sizes := z.sizes.(max := s.sizes.max));
        }
      case ObjectType =>
        if s.properties == map[] {
          z := ZRecord;
        } else {
          var shape: map<string, Zod> := map[];
          var keys := s.properties.Keys;
          while keys != {}
            invariant keys <= s.properties.Keys
            invariant shape == map k | k in s.properties && k !in keys :: Property(s.properties[k], k in s.required)
            decreases |keys|
          {
            var k: string :| k in keys;
            keys := keys - {k};
            if s.properties[k].BoolSchema? {
              shape := shape[k := ZOptional(ZUnknown)];
            } else {
              var prop := JsonSchemaToZod(s.properties[k]);
              if s.properties[k].default.None? && k !in s.required {
                prop := ZOptional(prop);
              }
              shape := shape[k := prop];
            }
          }
          assert shape == map k | k in s.properties :: Property(s.properties[k], k in s.required);
          z := ZObject(shape);
        }
    }
    assert z == Bare(s);
    if s.default.Some? {
      z := ZDefault(z, s.default.value);
    }
  }

  method AddStringRules(r: StringRules) returns (z: Zod)
    ensures z == ZString(r)
  {
    z := ZString(NO_STRING_RULES);
    if r.minLength.Some? { z := z.(strings := z.strings.(minLength := r.minLength)); }
    if r.maxLength.Some? { z := z.(strings := z.strings.(maxLength := r.maxLength)); }
    if r.pattern.Some? { z := z.(strings := z.strings.(pattern := r.pattern)); }
  }

  method AddNumberRules(integer: bool, r: NumberRules) returns (z: Zod)
    ensures z == ZNumber(integer, r)
  {
    z := ZNumber(integer, NO_NUMBER_RULES);
    if r.minimum.Some? { z := z.(numbers := z.numbers.(minimum := r.minimum)); }
    if r.maximum.Some? { z := z.(numbers := z.numbers.(maximum := r.maximum)); }
    if r.exclusiveMinimum.Some? { z := z.(numbers := z.numbers.(exclusiveMinimum := r.exclusiveMinimum)); }
    if r.exclusiveMaximum.Some? { z := z.(numbers := z.numbers.(exclusiveMaximum := r.exclusiveMaximum)); }
    if r.multipleOf.Some? { z := z.(numbers := z.numbers.(multipleOf := r.multipleOf)); }
  }
}
