/** The two MCP server records, `stdioMCP` and `streamableHttpMCP`, and
    how a raw entry (an inline dict or a YAML mapping) is validated into
    one of them, as pydantic does for `Record(**entry)`: a known key must
    hold a value of its declared type, a missing key takes its default,
    a required key must be present, and unknown keys are ignored. */
module McpModels {
  import opened Wrappers

  /** A value found under one key of a raw MCP entry. */
  datatype RawValue =
    | Str(s: string)
    | StrList(items: seq<string>)
    | StrMap(pairs: map<string, string>)
    | Null
    | OtherValue  // a number, a boolean, a nested structure

  type Fields = map<string, RawValue>

  const StdioTag: string := "stdio"
  const StreamableHttpTag: string := "streamable_http"

  /** `stdioMCP`: launch a server as a subprocess. */
  datatype StdioMcp = StdioMcp(
    transport: string,
    command: Option<string>,
    args: seq<string>,
    env: Option<map<string, string>>)

  /** `streamableHttpMCP`: reach a server over streaming HTTP. */
  datatype StreamableHttpMcp = StreamableHttpMcp(
    transport: string,
    url: string,
    env: Option<map<string, string>>)

  /** The declared type of a record field. */
  datatype FieldKind = Text | OptionalText | TextList | OptionalTextMap

  predicate Accepts(kind: FieldKind, v: RawValue) {
    match kind
    case Text => v.Str?
    case OptionalText => v.Str? || v.Null?
    case TextList => v.StrList?
    case OptionalTextMap => v.StrMap? || v.Null?
  }

  /** The field declarations of `stdioMCP`; none of them is required. */
  const StdioSchema: map<string, FieldKind> :=
    map["transport" := Text, "command" := OptionalText, "args" := TextList, "env" := OptionalTextMap]

  /** The field declarations of `streamableHttpMCP`; `url` is required. */
  const HttpSchema: map<string, FieldKind> :=
    map["transport" := Text, "url" := Text, "env" := OptionalTextMap]

  /** Every required key is present and every declared key that is
      present holds a value of its declared type. */
  ghost predicate Conforms(schema: map<string, FieldKind>, required: set<string>, f: Fields) {
    && (forall k :: k in required ==> k in f)
    && (forall k :: k in f && k in schema ==> Accepts(schema[k], f[k]))
  }

  // Field readers: None means the value was rejected.

  function TextField(f: Fields, key: string, default: string): Option<string> {
    if key !in f then Some(default)
    else if f[key].Str? then Some(f[key].s)
    else None
  }

  function RequiredTextField(f: Fields, key: string): Option<string> {
    if key in f && f[key].Str? then Some(f[key].s) else None
  }

  function OptionalTextField(f: Fields, key: string): Option<Option<string>> {
    if key !in f || f[key].Null? then Some(None)
    else if f[key].Str? then Some(Some(f[key].s))
    else None
  }

  /** `default_factory=list`. */
  function TextListField(f: Fields, key: string): Option<seq<string>> {
    if key !in f then Some([])
    else if f[key].StrList? then Some(f[key].items)
    else None
  }

  /** `Optional[Dict[str, str]]` with `default_factory=dict`. */
  function EnvField(f: Fields): Option<Option<map<string, string>>> {
    if "env" !in f then Some(Some(map[]))
    else if f["env"].Null? then Some(None)
    else if f["env"].StrMap? then Some(Some(f["env"].pairs))
    else None
  }

  /** `stdioMCP(**f)`: None when validation fails. */
  function ValidateStdio(f: Fields): (r: Option<StdioMcp>)
    ensures r.Some? <==> Conforms(StdioSchema, {}, f)
    ensures r.Some? ==> r.value.transport == (if "transport" in f then f["transport"].s else StdioTag)
    ensures r.Some? ==> r.value.command == (if "command" in f && f["command"].Str? then Some(f["command"].s) else None)
    ensures r.Some? ==> r.value.args == (if "args" in f then f["args"].items else [])
    ensures r.Some? ==> r.value.env == (if "env" !in f then Some(map[]) else if f["env"].Null? then None else Some(f["env"].pairs))
  {
    var transport := TextField(f, "transport", StdioTag);
    var command := OptionalTextField(f, "command");
    var args := TextListField(f, "args");
    var env := EnvField(f);
    if transport.Some? && command.Some? && args.Some? && env.Some? then
      Some(StdioMcp(transport.value, command.value, args.value, env.value))
    else
      None
  }

  /** `streamableHttpMCP(**f)`: None when validation fails. */
  function ValidateHttp(f: Fields): (r: Option<StreamableHttpMcp>)
    ensures r.Some? <==> Conforms(HttpSchema, {"url"}, f)
    ensures r.Some? ==> r.value.transport == (if "transport" in f then f["transport"].s else StreamableHttpTag)
    ensures r.Some? ==> r.value.url == f["url"].s
    ensures r.Some? ==> r.value.env == (if "env" !in f then Some(map[]) else if f["env"].Null? then None else Some(f["env"].pairs))
  {
    var transport := TextField(f, "transport", StreamableHttpTag);
    var url := RequiredTextField(f, "url");
    var env := EnvField(f);
    if transport.Some? && url.Some? && env.Some? then
      Some(StreamableHttpMcp(transport.value, url.value, env.value))
    else
      None
  }

  /** With no keys at all, `stdioMCP` takes every default. */
  lemma StdioDefaults()
    ensures ValidateStdio(map[]) == Some(StdioMcp(StdioTag, None, [], Some(map[])))
  {
  }

  /** `url` is the one required field: without it no HTTP record is built,
      and with it alone every other field takes its default. */
  lemma HttpUrlRequired(f: Fields, url: string)
    ensures "url" !in f ==> ValidateHttp(f) == None
    ensures ValidateHttp(map["url" := Str(url)]) == Some(StreamableHttpMcp(StreamableHttpTag, url, Some(map[])))
  {
  }

  /** `transport` is a free string: neither record insists on its own tag. */
  lemma TransportIsFree(t: string, url: string)
    ensures ValidateStdio(map["transport" := Str(t)]) == Some(StdioMcp(t, None, [], Some(map[])))
    ensures ValidateHttp(map["transport" := Str(t), "url" := Str(url)]) == Some(StreamableHttpMcp(t, url, Some(map[])))
  {
  }

  /** A key neither record declares does not change the outcome. */
  lemma UnknownKeysIgnored(f: Fields, k: string, v: RawValue)
    requires k !in StdioSchema && k !in HttpSchema
    ensures ValidateStdio(f[k := v]) == ValidateStdio(f)
    ensures ValidateHttp(f[k := v]) == ValidateHttp(f)
  {
  }
}
