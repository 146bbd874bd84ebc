/**
 * The tool contract shared by every agent tool: the value a tool receives as its
 * parameters, the descriptor it publishes, the result it returns, and the JSON text of
 * a descriptor as it appears in the agent's prompt.
 */
module ToolBase {
  import opened Wrappers
  import opened JsText

  /**
   * The JavaScript value a tool receives as `params` (the model's `actionInput`):
   * absent, `null`, a non-object JSON value, or an object whose string-valued members
   * are `fields`.
   */
  datatype Input = Undefined | Null | Scalar | Object(fields: map<string, string>)

  const ReadPropertiesOf: string := "Cannot read properties of "

  /** The message of the TypeError thrown when a property of `undefined`/`null` is read. */
  function TypeErrorMessage(v: Input, key: string): string
    requires v.Undefined? || v.Null?
  {
    ReadPropertiesOf + (if v.Undefined? then "undefined" else "null") +
    " (reading '" + key + "')"
  }

  /** `v.key`: throws on `undefined` and `null`; otherwise the member, or `undefined`. */
  function Property(v: Input, key: string): (r: Result<Option<string>, string>)
    ensures r.Failure? <==> v.Undefined? || v.Null?
    ensures v.Object? && key in v.fields ==> r == Success(Some(v.fields[key]))
    ensures (v.Scalar? || (v.Object? && key !in v.fields)) ==> r == Success(None)
  {
    match v
    case Undefined => Failure(TypeErrorMessage(v, key))
    case Null => Failure(TypeErrorMessage(v, key))
    case Scalar => Success(None)
    case Object(fields) => Success(if key in fields then Some(fields[key]) else None)
  }

  /** `v?.key`: optional chaining never throws. */
  function OptionalProperty(v: Input, key: string): (r: Option<string>)
    ensures r.Some? <==> v.Object? && key in v.fields
    ensures r.Some? ==> r.value == v.fields[key]
  {
    if v.Object? && key in v.fields then Some(v.fields[key]) else None
  }

  datatype PropertySchema = PropertySchema(kind: string, description: string)

  /** The `parameters` member of a descriptor; `properties` keeps declaration order. */
  datatype ParameterSchema =
    ParameterSchema(kind: string, properties: seq<(string, PropertySchema)>, required: seq<string>)

  /** What a tool publishes about itself; `name` is the registry's dispatch key. */
  datatype ToolDefinition =
    ToolDefinition(name: string, description: string, parameters: ParameterSchema)

  /** A tool's answer: the output text, and an error text when it failed. */
  datatype ToolResult = ToolResult(output: string, error: Option<string>)

  /** Hexadecimal digit, lower case, as JSON.stringify writes `\u00XX` escapes. */
  function HexDigit(d: nat): char
    requires d < 16
  {
    if d < 10 then (('0' as int) + d) as char else (('a' as int) + d - 10) as char
  }

  /** One character of a JSON string literal, escaped as JSON.stringify does. */
  function EscapeChar(c: char): string {
    if c == '"' then "\\\""
    else if c == '\\' then "\\\\"
    else if c == '\U{8}' then "\\b"
    else if c == '\U{C}' then "\\f"
    else if c == '\n' then "\\n"
    else if c == '\r' then "\\r"
    else if c == '\t' then "\\t"
    else if (c as int) < 0x20 then "\\u00" + [HexDigit((c as int) / 16), HexDigit((c as int) % 16)]
    else [c]
  }

  function Escape(s: string): string {
    if s == [] then [] else EscapeChar(s[0]) + Escape(s[1..])
  }

  /** A JSON string literal. */
  function Quote(s: string): string {
    "\"" + Escape(s) + "\""
  }

  function PropertiesJson(props: seq<(string, PropertySchema)>): seq<string> {
    seq(|props|, i requires 0 <= i < |props| =>
      Quote(props[i].0) + ":{\"type\":" + Quote(props[i].1.kind) +
      ",\"description\":" + Quote(props[i].1.description) + "}")
  }

  /** `JSON.stringify(definition)`: members in declaration order, no whitespace. */
  function Stringify(d: ToolDefinition): string {
    var p := d.parameters;
    "{\"name\":" + Quote(d.name) +
    ",\"description\":" + Quote(d.description) +
    ",\"parameters\":{\"type\":" + Quote(p.kind) +
    ",\"properties\":{" + Join(PropertiesJson(p.properties), ",") +
    "},\"required\":[" + Join(seq(|p.required|, i requires 0 <= i < |p.required| => Quote(p.required[i])), ",") +
    "]}}"
  }
}
