/**
 * The values, collaborators and effects of the per-record pipeline.
 * JSON decoding and encoding, the expression language, Go's `%v`
 * formatting of non-string values, header-name canonicalisation and the
 * HTTP client are foreign code; they appear as the fields of `Ops`.
 */
module Types {
  import opened Results

  /** A dynamically typed value: a decoded JSON record or the result of an expression. */
  datatype Value =
    | Null
    | Bool(b: bool)
    | Number(n: real)
    | Str(s: string)
    | List(items: seq<Value>)
    | Object(fields: map<string, Value>)

  /** What an expression can see: the decoded record as `input` and the environment table as `env`. */
  datatype Context = Context(input: Value, env: map<string, string>)

  /** The request handed to the HTTP client; `header` maps canonical names to their (single) value. */
  datatype Request = Request(requestMethod: string, url: string, header: map<string, string>, body: seq<bv8>)

  /** A response: numeric code, status text such as "404 Not Found", and the body text read. */
  datatype Response = Response(statusCode: int, status: string, body: string)

  /** The foreign operations, each returning its error text on failure. */
  datatype Ops = Ops(
    decode: string -> Result<Value, string>,             // json.Unmarshal
    eval: (string, Context) -> Result<Value, string>,    // expr.Compile then expr.Run
    encode: Value -> Result<seq<bv8>, string>,           // json.Marshal
    formatOther: Value -> string,                        // fmt.Sprintf("%v", v) for a non-string v
    newRequest: (string, string) -> Option<string>,      // the error http.NewRequest reports, if any
    canonicalKey: string -> string,                      // the key Header.Set stores a name under
    send: (nat, Request) -> Result<Response, string>     // client.Do for the request sent by input line n
  )

  /** Fixed for the whole run: the positional URL expression, the flags and the process environment. */
  datatype Config = Config(
    urlExpr: string,
    transform: string,        // --transform, "" when absent
    headers: seq<string>,     // --header, in the order given
    requestMethod: string,    // --request
    environ: seq<string>      // os.Environ()
  )

  /** Why one record failed, one constructor per failure point of `processLine`. */
  datatype ProcessError =
    | ParseJson(cause: string)
    | EvalUrl(cause: string)
    | EvalTransform(cause: string)
    | Marshal(cause: string)
    | CreateRequest(cause: string)
    | EvalHeader(cause: string)
    | InvalidHeaderFormat(text: string)
    | SendRequest(cause: string)
    | HttpError(status: string)

  /** The text of the error `processLine` returns. */
  function Message(e: ProcessError): string {
    match e
    case ParseJson(c) => "parsing JSON: " + c
    case EvalUrl(c) => "evaluating URL expression: " + c
    case EvalTransform(c) => "evaluating transform expression: " + c
    case Marshal(c) => "marshaling body: " + c
    case CreateRequest(c) => "creating request: " + c
    case EvalHeader(c) => "evaluating header expression: " + c
    case InvalidHeaderFormat(t) => "invalid header format: " + t
    case SendRequest(c) => "sending request: " + c
    case HttpError(s) => "HTTP error: " + s
  }

  /** What the program does that can be observed from outside, in order. */
  datatype Effect =
    | Send(request: Request)   // the request is handed to the HTTP client
    | Stdout(text: string)
    | Stderr(text: string)

  /** `fmt.Sprintf("%v", v)`: a string prints as itself. */
  function Format(ops: Ops, v: Value): (text: string)
    ensures v.Str? ==> text == v.s
  {
    match v
    case Str(s) => s
    case _ => ops.formatOther(v)
  }

  /** The line printed for every response received. */
  function StatusLine(resp: Response): string {
    "Status: " + resp.status + ", Response: " + resp.body + "\n"
  }
}
