/** The documents the encoders write and the decoders read: a JSON value
    tree (what `json.loads` returns) and an XML element tree (what
    `xml.etree.ElementTree` holds), together with the input helpers the
    decoders call. Key and attribute order is kept as written. */
module Documents {
  import opened Wrappers
  import opened Decimal
  import opened Graph

  datatype Json =
    | JNull
    | JBool(b: bool)
    | JInt(i: int)
    | JFloat(r: real)
    | JString(s: string)
    | JArray(items: seq<Json>)
    | JObject(fields: seq<(string, Json)>)

  /** The value of the first field named `key`, if `data` is an object that
      has one. */
  function Get(data: Json, key: string): (r: Option<Json>)
    ensures r.Some? ==> r.value < data
    ensures r.Some? ==> data.JObject? && exists i | 0 <= i < |data.fields| :: data.fields[i] == (key, r.value)
  {
    if data.JObject? then Find(data.fields, key) else None
  }

  /** The value of the first field with a given key; JSON object fields and
      XML attributes are both looked up this way. */
  function Find<V>(fields: seq<(string, V)>, key: string): (r: Option<V>)
    ensures r.Some? ==> exists i | 0 <= i < |fields| :: fields[i] == (key, r.value)
    ensures r.None? ==> forall i | 0 <= i < |fields| :: fields[i].0 != key
  {
    if fields == [] then None
    else if fields[0].0 == key then Some(fields[0].1)
    else Find(fields[1..], key)
  }

  /** The first field with a given key is the one found. */
  lemma {:induction false} FindFirst<V>(fields: seq<(string, V)>, i: nat, key: string)
    requires i < |fields| && fields[i].0 == key
    requires forall k | 0 <= k < i :: fields[k].0 != key
    ensures Find(fields, key) == Some(fields[i].1)
    decreases i
  {
    if i > 0 {
      FindFirst(fields[1..], i - 1, key);
    }
  }

  /** The field types a schema can ask for. */
  datatype FieldType = StrField | IntField | FloatField | ListField

  predicate HasType(v: Json, t: FieldType) {
    match t
    case StrField => v.JString?
    case IntField => v.JInt?
    case FloatField => v.JFloat?
    case ListField => v.JArray?
  }

  /** `_validate_schema` is not part of this model; its contract here: the
      data is an object with every schema key, each holding a value of the
      schema's type. */
  predicate ValidateSchema(data: Json, schema: seq<(string, FieldType)>) {
    forall f | f in schema :: Get(data, f.0).Some? && HasType(Get(data, f.0).value, f.1)
  }

  /** The string under `key`, in data that passed a schema naming it. */
  function StrOf(data: Json, key: string, ghost schema: seq<(string, FieldType)>): string
    requires ValidateSchema(data, schema) && (key, StrField) in schema
  {
    Get(data, key).value.s
  }

  /** The integer under `key`, in data that passed a schema naming it. */
  function IntOf(data: Json, key: string, ghost schema: seq<(string, FieldType)>): int
    requires ValidateSchema(data, schema) && (key, IntField) in schema
  {
    Get(data, key).value.i
  }

  /** The number under `key`, in data that passed a schema naming it. */
  function FloatOf(data: Json, key: string, ghost schema: seq<(string, FieldType)>): real
    requires ValidateSchema(data, schema) && (key, FloatField) in schema
  {
    Get(data, key).value.r
  }

  /** The list under `key`; each item is part of `data`. */
  function ListOf(data: Json, key: string, ghost schema: seq<(string, FieldType)>): (items: seq<Json>)
    requires ValidateSchema(data, schema) && (key, ListField) in schema
    ensures forall k | 0 <= k < |items| :: items[k] < data
  {
    Get(data, key).value.items
  }

  /** A record passes a one-field schema when it holds that field. */
  lemma ValidateSchemaOne(data: Json, key: string, t: FieldType)
    requires Get(data, key).Some? && HasType(Get(data, key).value, t)
    ensures ValidateSchema(data, [(key, t)])
  {
  }

  /** A record that passes two schemas passes their concatenation. */
  lemma ValidateSchemaJoin(data: Json, s1: seq<(string, FieldType)>, s2: seq<(string, FieldType)>)
    requires ValidateSchema(data, s1) && ValidateSchema(data, s2)
    ensures ValidateSchema(data, s1 + s2)
  {
  }

  /** `leaf_type_from_str` is not part of this model; its contract here: the
      two kind names are recognised in the spellings its callers pass
      (lower-case tags, capitalised JSON types, upper-case enum values),
      and nothing else. */
  function KindFromString(s: string): (r: Option<LeafKind>)
    ensures r == Some(Host) <==> s == "host" || s == "Host" || s == "HOST"
    ensures r == Some(Switch) <==> s == "switch" || s == "Switch" || s == "SWITCH"
  {
    if s == "host" || s == "Host" || s == "HOST" then Some(Host)
    else if s == "switch" || s == "Switch" || s == "SWITCH" then Some(Switch)
    else None
  }

  /** The lower-case kind value, as the XML encoder writes tags. */
  function KindTag(k: LeafKind): (tag: string)
    ensures KindFromString(tag) == Some(k)
  {
    match k
    case Host => "host"
    case Switch => "switch"
  }

  /** An XML element: tag, attributes in insertion order, child elements. */
  datatype Element = Element(tag: string, attributes: seq<(string, string)>, children: seq<Element>)

  /** `findall(tag)`: the direct children with that tag, in order. */
  function FindAll(children: seq<Element>, tag: string): (r: seq<Element>)
    ensures forall k | 0 <= k < |r| :: r[k] in children && r[k].tag == tag
    ensures forall e | e in children && e.tag == tag :: e in r
  {
    if children == [] then []
    else (if children[0].tag == tag then [children[0]] else []) + FindAll(children[1..], tag)
  }

  /** When every child has the tag, `findall` returns them all. */
  lemma {:induction false} FindAllEvery(children: seq<Element>, tag: string)
    requires forall k | 0 <= k < |children| :: children[k].tag == tag
    ensures FindAll(children, tag) == children
    decreases |children|
  {
    if children != [] {
      FindAllEvery(children[1..], tag);
    }
  }

  /** One attribute converted to a field type; `parseFloat` is Python's
      `float` on strings. */
  function Convert(text: string, t: FieldType, parseFloat: string -> Option<real>): (r: Option<Json>)
    ensures r.Some? ==> HasType(r.value, t)
  {
    match t
    case StrField => Some(JString(text))
    case IntField => (match ParseInt(text) case Some(i) => Some(JInt(i)) case None => None)
    case FloatField => (match parseFloat(text) case Some(x) => Some(JFloat(x)) case None => None)
    case ListField => None
  }

  /** `_parse_attributes` is not part of this model; its contract here:
      every schema attribute is present and converts to its type, and the
      values come back in schema order; otherwise parsing fails (see
      `ParseAttributesSpec`). */
  function ParseAttributes(e: Element, schema: seq<(string, FieldType)>, parseFloat: string -> Option<real>)
    : (r: Result<seq<Json>>)
    ensures r.Ok? ==> |r.value| == |schema|
    ensures r.Ok? ==> forall k | 0 <= k < |schema| :: HasType(r.value[k], schema[k].1)
    ensures r.Err? ==> r.error == ValidationError
  {
    if schema == [] then Ok([])
    else
      var text := Find(e.attributes, schema[0].0);
      if text.None? then Err(ValidationError)
      else
        match Convert(text.value, schema[0].1, parseFloat)
        case None => Err(ValidationError)
        case Some(v) =>
          match ParseAttributes(e, schema[1..], parseFloat)
          case Err(err) => Err(err)
          case Ok(rest) => Ok([v] + rest)
  }

  /** Parsing succeeds exactly when every schema attribute is present and
      converts, and then value `k` is attribute `k` converted. */
  lemma {:induction false} ParseAttributesSpec(e: Element, schema: seq<(string, FieldType)>,
                                               parseFloat: string -> Option<real>)
    ensures var r := ParseAttributes(e, schema, parseFloat);
            r.Ok? <==> forall k | 0 <= k < |schema| ::
                         && Find(e.attributes, schema[k].0).Some?
                         && Convert(Find(e.attributes, schema[k].0).value, schema[k].1, parseFloat).Some?
    ensures var r := ParseAttributes(e, schema, parseFloat);
            r.Ok? ==> forall k | 0 <= k < |schema| ::
                        Some(r.value[k]) == Convert(Find(e.attributes, schema[k].0).value, schema[k].1, parseFloat)
    decreases |schema|
  {
    if schema != [] {
      ParseAttributesSpec(e, schema[1..], parseFloat);
      var r := ParseAttributes(e, schema, parseFloat);
      if r.Ok? {
        forall k | 0 <= k < |schema|
          ensures Some(r.value[k]) == Convert(Find(e.attributes, schema[k].0).value, schema[k].1, parseFloat)
        {
          if k > 0 {
            assert schema[k] == schema[1..][k - 1];
          }
        }
      }
      if !r.Ok? {
        var text := Find(e.attributes, schema[0].0);
        if text.Some? && Convert(text.value, schema[0].1, parseFloat).Some? {
          var k :| 0 <= k < |schema[1..]| && !(
                     && Find(e.attributes, schema[1..][k].0).Some?
                     && Convert(Find(e.attributes, schema[1..][k].0).value, schema[1..][k].1, parseFloat).Some?);
          assert schema[1..][k] == schema[k + 1];
        }
      } else {
        forall k | 0 <= k < |schema|
          ensures && Find(e.attributes, schema[k].0).Some?
                  && Convert(Find(e.attributes, schema[k].0).value, schema[k].1, parseFloat).Some?
        {
          if k > 0 {
            assert schema[k] == schema[1..][k - 1];
          }
        }
      }
    }
  }

  /** Parsing a schema whose first attribute converts to `v` puts `v`
      before the values of the rest. */
  lemma ParseAttributesCons(e: Element, schema: seq<(string, FieldType)>, parseFloat: string -> Option<real>,
                            v: Json, values: seq<Json>)
    requires schema != [] && Find(e.attributes, schema[0].0).Some?
    requires Convert(Find(e.attributes, schema[0].0).value, schema[0].1, parseFloat) == Some(v)
    requires ParseAttributes(e, schema[1..], parseFloat) == Ok(values)
    ensures ParseAttributes(e, schema, parseFloat) == Ok([v] + values)
  {
  }

  /** No text converts to a float: the conversion used where a schema
      asks for none. */
  function NoFloat(text: string): Option<real> {
    None
  }

  /** `_parse_attributes(element, {"id": str})`, as every topology decoder
      reads ids. */
  function ParseId(e: Element): (r: Result<string>)
    ensures r.Ok? <==> Find(e.attributes, "id").Some?
    ensures r.Ok? ==> r.value == Find(e.attributes, "id").value
  {
    ParseAttributesSpec(e, [("id", StrField)], NoFloat);
    match ParseAttributes(e, [("id", StrField)], NoFloat)
    case Ok(values) => Ok(values[0].s)
    case Err(err) => Err(err)
  }
}
