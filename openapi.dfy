/**
 * The in-memory OpenAPI 3 document the generator reads (src/openapi.ts).
 * The source's untyped union of schema shapes, told apart by its `type`
 * field, becomes one tagged datatype.
 */
module OpenApi {
  import opened Wrappers
  import opened Fp

  /** A schema node. */
  datatype Schema =
      /** No `type`: a reference `$ref` such as `#/components/schemas/Foo`. */
    | Ref(ref: string)
      /** `type: 'object'` with optional `properties` and optional `required` names. */
    | Object(properties: Option<Obj<Schema>>, required: Option<seq<string>>)
      /** `type: 'array'` with its `items` schema. */
    | Array(items: Schema)
      /** `type: 'string'` with an optional `enum` of allowed values. */
    | String(enum: Option<seq<string>>)
      /** Any other `type` keyword (`number`, `boolean`, `integer`, `date`, ...). */
    | Primitive(keyword: string)
  {
    /** The schema's `type` field as the source reads it (absent for a reference). */
    function TypeField(): Option<string>
    {
      match this
      case Ref(_) => None
      case Object(_, _) => Some("object")
      case Array(_) => Some("array")
      case String(_) => Some("string")
      case Primitive(k) => Some(k)
    }
  }

  /** An operation parameter; `location` is its `in` field (`path` or `query`). */
  datatype Parameter = Parameter(name: string, required: bool, location: string, schemaType: string)

  /** A media-type entry of a `content` map: `{ schema }`. */
  datatype MediaType = MediaType(schema: Option<Schema>)

  /** A request body: its `required` flag may be omitted. */
  datatype RequestBody = RequestBody(required: Option<bool>, content: Obj<MediaType>)

  /** A response object; its `content` map may be omitted. */
  datatype Response = Response(content: Option<Obj<MediaType>>)

  /** The operation declared under one path and one method. */
  datatype Operation = Operation(
    operationId: Option<string>,
    parameters: seq<Parameter>,
    requestBody: Option<RequestBody>,
    responses: Obj<Response>)

  /** The part of the document the generator reads: component schemas and paths. */
  datatype Spec = Spec(schemas: Obj<Schema>, paths: Obj<Obj<Operation>>)

  /** The `in` field of a parameter, the key the service generator groups by. */
  function Location(p: Parameter): string
  {
    p.location
  }
}
