/**
  `zod_helper.py`: schema types that only carry a `type_name`, their static constructors, and
  the response-format record.
 */
module ZodHelper {
  import opened Wrappers

  datatype ZodType = ZodType(typeName: string)

  /** `z.string()`. */
  function ZString(): (t: ZodType)
    ensures t.typeName == "string"
  {
    ZodType("string")
  }

  /** `z.array(item_type)`: the item's name inside `array<...>`. */
  function ZArray(item: ZodType): (t: ZodType)
    ensures |t.typeName| == |item.typeName| + 7
    ensures t.typeName[..6] == "array<" && t.typeName[6..|t.typeName| - 1] == item.typeName
    ensures t.typeName[|t.typeName| - 1] == '>'
  {
    ZodType("array<" + item.typeName + ">")
  }

  /** `z.object(schema)`: the schema is not looked at. */
  function ZObject<S>(schema: S): (t: ZodType)
    ensures t.typeName == "object"
  {
    ZodType("object")
  }

  /** `z.optional(field_type)`: the field's name inside `optional<...>`. */
  function ZOptional(field: ZodType): (t: ZodType)
    ensures |t.typeName| == |field.typeName| + 10
    ensures t.typeName[..9] == "optional<" && t.typeName[9..|t.typeName| - 1] == field.typeName
    ensures t.typeName[|t.typeName| - 1] == '>'
  {
    ZodType("optional<" + field.typeName + ">")
  }

  /** `zodResponseFormat(schema, name)`: `{"type": "json_object", "schema": schema}`; the name is dropped. */
  datatype ResponseFormat<S> = ResponseFormat(kind: string, schema: S)

  function ZodResponseFormat<S>(schema: S, name: string): (r: ResponseFormat<S>)
    ensures r.kind == "json_object" && r.schema == schema
  {
    ResponseFormat("json_object", schema)
  }

  /** The shapes the constructors can build. */
  datatype Shape = StringShape | ArrayShape(item: Shape) | ObjectShape | OptionalShape(field: Shape)

  /** The type built for a shape (any schema may be given to `z.object`). */
  function Build(s: Shape): ZodType {
    match s
    case StringShape => ZString()
    case ArrayShape(item) => ZArray(Build(item))
    case ObjectShape => ZObject(0)
    case OptionalShape(field) => ZOptional(Build(field))
  }

  /** Reading a type name back: the inverse of `Build`. */
  function Parse(name: string): Option<Shape>
    decreases |name|
  {
    if name == "string" then Some(StringShape)
    else if name == "object" then Some(ObjectShape)
    else if |name| >= 7 && name[..6] == "array<" && name[|name| - 1] == '>' then
      match Parse(name[6..|name| - 1])
      case Some(item) => Some(ArrayShape(item))
      case None => None
    else if |name| >= 10 && name[..9] == "optional<" && name[|name| - 1] == '>' then
      match Parse(name[9..|name| - 1])
      case Some(field) => Some(OptionalShape(field))
      case None => None
    else None
  }

  /** Every type name the constructors build is read back as the shape it was built from. */
  lemma {:induction false} ParseBuild(s: Shape)
    ensures Parse(Build(s).typeName) == Some(s)
  {
    match s
    case StringShape =>
    case ObjectShape =>
    case ArrayShape(item) =>
      ParseBuild(item);
      ParseArray(Build(item));
    case OptionalShape(field) =>
      ParseBuild(field);
      ParseOptional(Build(field));
  }

  /** `array<...>` is read back as an array of whatever its inside reads as. */
  lemma ParseArray(item: ZodType)
    ensures Parse(ZArray(item).typeName)
         == match Parse(item.typeName) case Some(s) => Some(ArrayShape(s)) case None => None
  {
    var n := ZArray(item).typeName;
    assert n[0] == 'a';
    assert n != "string" && n != "object";
  }

  /** `optional<...>` is read back as an optional of whatever its inside reads as. */
  lemma ParseOptional(field: ZodType)
    ensures Parse(ZOptional(field).typeName)
         == match Parse(field.typeName) case Some(s) => Some(OptionalShape(s)) case None => None
  {
    var n := ZOptional(field).typeName;
    assert n[..6] == "option";
    assert n != "string" && n != "object" && n[..6] != "array<";
  }

  /** So different shapes always get different type names. */
  lemma BuildInjective(s: Shape, t: Shape)
    requires Build(s).typeName == Build(t).typeName
    ensures s == t
  {
    ParseBuild(s);
    ParseBuild(t);
  }
}
