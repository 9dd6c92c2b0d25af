/** JSON values, the part of JSON Schema that the translator reads, and what a schema means:
    sections 6.1.2, 6.2, 6.3, 6.4 and 6.5 of draft-handrews-json-schema-validation-01. */
module JsonSchema {
  import opened Option

  datatype Json =
    | JNull
    | JBool(b: bool)
    | JNumber(n: real)
    | JString(s: string)
    | JArray(elements: seq<Json>)
    | JObject(fields: map<string, Json>)

  /** Whether a text contains a match of a pattern. */
  type Regex = (string, string) -> bool

  datatype SchemaType = NoType | StringType | NumberType | IntegerType | BooleanType | ArrayType | ObjectType | NullType

  datatype StringRules = StringRules(minLength: Option<nat>, maxLength: Option<nat>, pattern: Option<string>)

  datatype NumberRules = NumberRules(
    minimum: Option<real>, maximum: Option<real>,
    exclusiveMinimum: Option<real>, exclusiveMaximum: Option<real>, multipleOf: Option<real>)

  datatype SizeRules = SizeRules(min: Option<nat>, max: Option<nat>)

  datatype Items = AnyItems | OneSchema(item: Schema) | SchemaList(list: seq<Schema>)

  datatype Schema =
    | BoolSchema(allows: bool)
    | Schema(
        typ: SchemaType, enum: Option<seq<string>>, default: Option<Json>,
        strings: StringRules, numbers: NumberRules,
        items: Items, sizes: SizeRules,
        properties: map<string, Schema>, required: set<string>)

  const NO_STRING_RULES := StringRules(None, None, None)
  const NO_NUMBER_RULES := NumberRules(None, None, None, None, None)
  const NO_SIZE_RULES := SizeRules(None, None)

  // ---- Rules ----

  predicate AtLeast(min: Option<nat>, n: nat) { min.Some? ==> n >= min.value }

  predicate AtMost(max: Option<nat>, n: nat) { max.Some? ==> n <= max.value }

  /** Code units of the UTF-16 form of a text, which is what JavaScript counts. */
  function Utf16Length(s: string): nat {
    if s == [] then 0 else (if s[0] as int > 0xFFFF then 2 else 1) + Utf16Length(s[1..])
  }

  function Length(utf16: bool, s: string): nat {
    if utf16 then Utf16Length(s) else |s|
  }

  predicate StringOk(utf16: bool, re: Regex, r: StringRules, s: string) {
    && AtLeast(r.minLength, Length(utf16, s)) && AtMost(r.maxLength, Length(utf16, s))
    && (r.pattern.Some? ==> re(r.pattern.value, s))
  }

  predicate IsInteger(x: real) { x.Floor as real == x }

  predicate IsMultiple(x: real, of: real) { of != 0.0 && IsInteger(x / of) }

  predicate NumberOk(r: NumberRules, x: real) {
    && (r.minimum.Some? ==> x >= r.minimum.value)
    && (r.maximum.Some? ==> x <= r.maximum.value)
    && (r.exclusiveMinimum.Some? ==> x > r.exclusiveMinimum.value)
    && (r.exclusiveMaximum.Some? ==> x < r.exclusiveMaximum.value)
    && (r.multipleOf.Some? ==> IsMultiple(x, r.multipleOf.value))
  }

  predicate SizeOk(r: SizeRules, n: nat) {
    AtLeast(r.min, n) && AtMost(r.max, n)
  }

  // ---- Meaning ----

  predicate HasType(t: SchemaType, v: Json) {
    match t
    case NoType => true
    case StringType => v.JString?
    case NumberType => v.JNumber?
    case IntegerType => v.JNumber? && IsInteger(v.n)
    case BooleanType => v.JBool?
    case ArrayType => v.JArray?
    case ObjectType => v.JObject?
    case NullType => v.JNull?
  }

  /** Draft-07 validity.  Each keyword restricts only values of the kind it is about.  Lengths of
      texts are in characters, or in UTF-16 code units for comparison with JavaScript. */
  predicate Valid(utf16: bool, re: Regex, s: Schema, v: Json)
    decreases s
  {
    match s
    case BoolSchema(allows) => allows
    case Schema(typ, enum, _, strings, numbers, items, sizes, properties, required) =>
      && HasType(typ, v)
      && (enum.Some? ==> v.JString? && v.s in enum.value)
      && (v.JString? ==> StringOk(utf16, re, strings, v.s))
      && (v.JNumber? ==> NumberOk(numbers, v.n))
      && (v.JArray? ==> SizeOk(sizes, |v.elements|))
      && (v.JArray? ==>
            match items
            case AnyItems => true
            case OneSchema(item) => forall i :: 0 <= i < |v.elements| ==> Valid(utf16, re, item, v.elements[i])
            case SchemaList(list) =>
              forall i :: 0 <= i < |list| && i < |v.elements| ==> Valid(utf16, re, list[i], v.elements[i]))
      && (v.JObject? ==>
            && (forall k :: k in required ==> k in v.fields)
            && (forall k :: k in properties && k in v.fields ==> Valid(utf16, re, properties[k], v.fields[k])))
  }
}
