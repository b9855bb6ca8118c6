/**
 * `processLine`: one input line through decode, URL evaluation, optional
 * transform, marshalling, request creation, the header loop and the send.
 * The first failing step ends the record; nothing is sent unless every
 * step before the send succeeded.
 */
module Pipeline {
  import opened Results
  import opened Types
  import opened Environ
  import opened Headers

  /** The outcome of one record: what it did, in order, and the error it returned, if any. */
  datatype Outcome = Outcome(effects: seq<Effect>, err: Option<ProcessError>)

  /** The value to encode as the body: the transform's result, or the decoded record itself when there is no transform. */
  function Body(transform: string, input: Value, ctx: Context, ops: Ops): (r: Result<Value, ProcessError>)
    ensures transform == "" ==> r == Success(input)
    ensures transform != "" ==> r.Success? == ops.eval(transform, ctx).Success?
    ensures transform != "" && r.Success? ==> r.value == ops.eval(transform, ctx).value
    ensures r.Failure? ==> r.error == EvalTransform(ops.eval(transform, ctx).error)
  {
    if transform != "" then
      match ops.eval(transform, ctx)
      case Failure(cause) => Failure(EvalTransform(cause))
      case Success(v) => Success(v)
    else
      Success(input)
  }

  /** Every step before the send: the request that will be sent, or the first error. */
  function Prepare(line: string, cfg: Config, ops: Ops): Result<Request, ProcessError> {
    match ops.decode(line)
    case Failure(cause) => Failure(ParseJson(cause))
    case Success(input) => PrepareRecord(input, ContextOf(line, cfg, ops), cfg, ops)
  }

  /** The steps after decoding: the URL, then the body to send. */
  function PrepareRecord(input: Value, ctx: Context, cfg: Config, ops: Ops): Result<Request, ProcessError> {
    match ops.eval(cfg.urlExpr, ctx)
    case Failure(cause) => Failure(EvalUrl(cause))
    case Success(url) =>
      match Body(cfg.transform, input, ctx, ops)
      case Failure(e) => Failure(e)
      case Success(body) => Assemble(Format(ops, url), body, ctx, cfg, ops)
  }

  /** The steps once the target and the body value are known: marshalling, request creation, headers. */
  function Assemble(target: string, body: Value, ctx: Context, cfg: Config, ops: Ops): Result<Request, ProcessError> {
    match ops.encode(body)
    case Failure(cause) => Failure(Marshal(cause))
    case Success(bytes) =>
      match ops.newRequest(cfg.requestMethod, target)
      case Some(cause) => Failure(CreateRequest(cause))
      case None =>
        match ApplyHeaders(cfg.headers, ctx, ops, InitialHeader(ops.canonicalKey))
        case Failure(e) => Failure(e)
        case Success(header) => Success(Request(cfg.requestMethod, target, header, bytes))
  }

  /** Sending: the response is always printed; a status of 400 or more then makes the record fail. */
  function Dispatch(req: Request, ops: Ops, lineNo: nat): Outcome {
    match ops.send(lineNo, req)
    case Failure(cause) => Outcome([Send(req)], Some(SendRequest(cause)))
    case Success(resp) =>
      Outcome([Send(req), Stdout(StatusLine(resp))],
              if resp.statusCode >= 400 then Some(HttpError(resp.status)) else None)
  }

  /** `processLine` for the record on input line `lineNo`. */
  function Process(line: string, cfg: Config, ops: Ops, lineNo: nat): Outcome {
    match Prepare(line, cfg, ops)
    case Failure(e) => Outcome([], Some(e))
    case Success(req) => Dispatch(req, ops, lineNo)
  }

  /** The header loop of `processLine`: Content-Type first, then each header expression in order, stopping at the first failure. */
  method BuildHeader(exprs: seq<string>, ctx: Context, ops: Ops) returns (r: Result<map<string, string>, ProcessError>)
    ensures r == ApplyHeaders(exprs, ctx, ops, InitialHeader(ops.canonicalKey))
  {
    var header := SetHeader(map[], ops.canonicalKey, "Content-Type", "application/json");
    ghost var fields := Fields(exprs, ctx, ops);
    for i := 0 to |exprs|
      invariant SetFields(fields[i..], ops.canonicalKey, header) == ApplyHeaders(exprs, ctx, ops, InitialHeader(ops.canonicalKey))
    {
      var headerValue := ops.eval(exprs[i], ctx);
      if headerValue.Failure? {
        return Failure(EvalHeader(headerValue.error));
      }
      var headerStr := Format(ops, headerValue.value);
      var parsed := ParseHeader(headerStr);
      if parsed.Some? {
        header := SetHeader(header, ops.canonicalKey, parsed.value.name, parsed.value.value);
      } else {
        return Failure(InvalidHeaderFormat(headerStr));
      }
    }
    return Success(header);
  }

  /** The steps of `processLine` after decoding, up to the request to send. */
  method BuildRequest(input: Value, ctx: Context, cfg: Config, ops: Ops) returns (r: Result<Request, ProcessError>)
    ensures r == PrepareRecord(input, ctx, cfg, ops)
  {
    var url := ops.eval(cfg.urlExpr, ctx);
    if url.Failure? {
      return Failure(EvalUrl(url.error));
    }

    var body: Value;
    if cfg.transform != "" {
      var transformed := ops.eval(cfg.transform, ctx);
      if transformed.Failure? {
        return Failure(EvalTransform(transformed.error));
      }
      body := transformed.value;
    } else {
      body := input;
    }

    var bodyBytes := ops.encode(body);
    if bodyBytes.Failure? {
      return Failure(Marshal(bodyBytes.error));
    }

    var target := Format(ops, url.value);
    var reqErr := ops.newRequest(cfg.requestMethod, target);
    if reqErr.Some? {
      return Failure(CreateRequest(reqErr.value));
    }

    var headers := BuildHeader(cfg.headers, ctx, ops);
    if headers.Failure? {
      return Failure(headers.error);
    }
    return Success(Request(cfg.requestMethod, target, headers.value, bodyBytes.value));
  }

  /** The steps of `processLine` before the send: decoding, the expression context, then the request. */
  method PrepareLine(line: string, cfg: Config, ops: Ops) returns (r: Result<Request, ProcessError>)
    ensures r == Prepare(line, cfg, ops)
  {
    var decoded := ops.decode(line);
    if decoded.Failure? {
      return Failure(ParseJson(decoded.error));
    }
    var input := decoded.value;
    var envMap := GetEnvMap(cfg.environ);
    var ctx := Context(input, envMap);
    r := BuildRequest(input, ctx, cfg, ops);
  }

  /** `processLine`, step by step, returning at the first failure. */
  method ProcessLine(line: string, cfg: Config, ops: Ops, lineNo: nat) returns (effects: seq<Effect>, err: Option<ProcessError>)
    ensures Outcome(effects, err) == Process(line, cfg, ops, lineNo)
  {
    var prepared := PrepareLine(line, cfg, ops);
    if prepared.Failure? {
      return [], Some(prepared.error);
    }

    var req := prepared.value;
    effects := [Send(req)];
    var resp := ops.send(lineNo, req);
    if resp.Failure? {
      return effects, Some(SendRequest(resp.error));
    }
    effects := [Send(req), Stdout(StatusLine(resp.value))];
    if resp.value.statusCode >= 400 {
      return effects, Some(HttpError(resp.value.status));
    }
    err := None;
  }

  // The steps of `processLine` in their fixed order. Each predicate says
  // that its step and every step before it succeed.

  predicate DecodeOk(line: string, ops: Ops) {
    ops.decode(line).Success?
  }

  /** The context the expressions of a decoded record are evaluated in. */
  function ContextOf(line: string, cfg: Config, ops: Ops): Context
    requires DecodeOk(line, ops)
  {
    Context(ops.decode(line).value, EnvMap(cfg.environ))
  }

  predicate UrlOk(line: string, cfg: Config, ops: Ops) {
    DecodeOk(line, ops) && ops.eval(cfg.urlExpr, ContextOf(line, cfg, ops)).Success?
  }

  /** The request target: the URL expression's value printed with `%v`. */
  function TargetOf(line: string, cfg: Config, ops: Ops): string
    requires UrlOk(line, cfg, ops)
  {
    Format(ops, ops.eval(cfg.urlExpr, ContextOf(line, cfg, ops)).value)
  }

  function BodyOf(line: string, cfg: Config, ops: Ops): Result<Value, ProcessError>
    requires DecodeOk(line, ops)
  {
    Body(cfg.transform, ops.decode(line).value, ContextOf(line, cfg, ops), ops)
  }

  predicate TransformOk(line: string, cfg: Config, ops: Ops) {
    UrlOk(line, cfg, ops) && BodyOf(line, cfg, ops).Success?
  }

  predicate MarshalOk(line: string, cfg: Config, ops: Ops) {
    TransformOk(line, cfg, ops) && ops.encode(BodyOf(line, cfg, ops).value).Success?
  }

  predicate NewRequestOk(line: string, cfg: Config, ops: Ops) {
    MarshalOk(line, cfg, ops) && ops.newRequest(cfg.requestMethod, TargetOf(line, cfg, ops)).None?
  }

  /** The header table the record's request gets, or the error of its first failing header. */
  function HeaderTableOf(line: string, cfg: Config, ops: Ops): Result<map<string, string>, ProcessError>
    requires DecodeOk(line, ops)
  {
    ApplyHeaders(cfg.headers, ContextOf(line, cfg, ops), ops, InitialHeader(ops.canonicalKey))
  }

  predicate HeadersOk(line: string, cfg: Config, ops: Ops) {
    NewRequestOk(line, cfg, ops) && HeaderTableOf(line, cfg, ops).Success?
  }

  /**
   * The steps before the send fail in their fixed order: the record fails
   * with the error of the first failing step, and yields the assembled
   * request exactly when every step succeeds.
   */
  lemma PrepareSteps(line: string, cfg: Config, ops: Ops)
    ensures var p := Prepare(line, cfg, ops);
      && (!DecodeOk(line, ops) ==> p == Failure(ParseJson(ops.decode(line).error)))
      && (DecodeOk(line, ops) && !UrlOk(line, cfg, ops) ==>
            p == Failure(EvalUrl(ops.eval(cfg.urlExpr, ContextOf(line, cfg, ops)).error)))
      && (UrlOk(line, cfg, ops) && !TransformOk(line, cfg, ops) ==>
            p == Failure(EvalTransform(ops.eval(cfg.transform, ContextOf(line, cfg, ops)).error)))
      && (TransformOk(line, cfg, ops) && !MarshalOk(line, cfg, ops) ==>
            p == Failure(Marshal(ops.encode(BodyOf(line, cfg, ops).value).error)))
      && (MarshalOk(line, cfg, ops) && !NewRequestOk(line, cfg, ops) ==>
            p == Failure(CreateRequest(ops.newRequest(cfg.requestMethod, TargetOf(line, cfg, ops)).value)))
      && (NewRequestOk(line, cfg, ops) && !HeadersOk(line, cfg, ops) ==>
            p == Failure(HeaderTableOf(line, cfg, ops).error) && (p.error.EvalHeader? || p.error.InvalidHeaderFormat?))
      && (HeadersOk(line, cfg, ops) ==>
            p.Success? &&
            p.value == Request(cfg.requestMethod, TargetOf(line, cfg, ops),
                               HeaderTableOf(line, cfg, ops).value,
                               ops.encode(BodyOf(line, cfg, ops).value).value))
  {
    if NewRequestOk(line, cfg, ops) {
      if !HeadersOk(line, cfg, ops) {
        ApplyHeadersError(cfg.headers, ContextOf(line, cfg, ops), ops, InitialHeader(ops.canonicalKey));
      }
    } else if MarshalOk(line, cfg, ops) {
    } else if TransformOk(line, cfg, ops) {
    } else if UrlOk(line, cfg, ops) {
    } else if DecodeOk(line, ops) {
    }
  }

  /**
   * A request is sent exactly when every earlier step succeeds; when one
   * fails, the record does nothing observable and returns an error.
   */
  lemma SendOnlyAfterAllSteps(line: string, cfg: Config, ops: Ops, lineNo: nat)
    ensures var out := Process(line, cfg, ops, lineNo);
      && ((exists k :: 0 <= k < |out.effects| && out.effects[k].Send?) <==> HeadersOk(line, cfg, ops))
      && (!HeadersOk(line, cfg, ops) ==> out.effects == [] && out.err.Some?)
      && (HeadersOk(line, cfg, ops) ==> out.effects[0] == Send(Prepare(line, cfg, ops).value))
  {
    var p := Prepare(line, cfg, ops);
    assert p.Success? <==> HeadersOk(line, cfg, ops) by {
      PrepareSteps(line, cfg, ops);
    }
    var out := Process(line, cfg, ops, lineNo);
    if p.Success? {
      assert out == Dispatch(p.value, ops, lineNo);
      assert out.effects[0] == Send(p.value);
    } else {
      assert out == Outcome([], Some(p.error));
    }
  }

  /**
   * A header expression whose text has no colon makes the record fail with
   * "invalid header format" (when the steps and headers before it succeed),
   * and nothing is sent.
   */
  lemma HeaderWithoutColonFails(line: string, cfg: Config, ops: Ops, lineNo: nat, i: nat, v: Value)
    requires NewRequestOk(line, cfg, ops)
    requires i < |cfg.headers|
    requires forall j :: 0 <= j < i ==> HeaderField(cfg.headers[j], ContextOf(line, cfg, ops), ops).Success?
    requires ops.eval(cfg.headers[i], ContextOf(line, cfg, ops)) == Success(v)
    requires ':' !in Format(ops, v)
    ensures Process(line, cfg, ops, lineNo) == Outcome([], Some(InvalidHeaderFormat(Format(ops, v))))
  {
    var e := InvalidHeaderFormat(Format(ops, v));
    assert HeaderTableOf(line, cfg, ops) == Failure(e) by {
      var ctx := ContextOf(line, cfg, ops);
      assert HeaderField(cfg.headers[i], ctx, ops) == Failure(e);
      ApplyHeadersFirstFailure(cfg.headers, ctx, ops, InitialHeader(ops.canonicalKey), i);
    }
    assert Prepare(line, cfg, ops) == Failure(e) by {
      PrepareSteps(line, cfg, ops);
    }
  }

  /**
   * A received response is always printed. Only afterwards does a status of
   * 400 or more make the record fail; a lower status is success.
   */
  lemma ResponseAlwaysReported(line: string, cfg: Config, ops: Ops, lineNo: nat, resp: Response)
    requires HeadersOk(line, cfg, ops)
    requires ops.send(lineNo, Prepare(line, cfg, ops).value) == Success(resp)
    ensures var out := Process(line, cfg, ops, lineNo);
      && out.effects == [Send(Prepare(line, cfg, ops).value), Stdout(StatusLine(resp))]
      && (resp.statusCode >= 400 ==> out.err == Some(HttpError(resp.status)))
      && (resp.statusCode < 400 ==> out.err == None)
  {
    PrepareSteps(line, cfg, ops);
  }

  /**
   * A send that fails is the record's last step: the request was handed
   * to the client, nothing is printed, and the record fails with the
   * sending error.
   */
  lemma SendFailureReported(line: string, cfg: Config, ops: Ops, lineNo: nat, cause: string)
    requires HeadersOk(line, cfg, ops)
    requires ops.send(lineNo, Prepare(line, cfg, ops).value) == Failure(cause)
    ensures var out := Process(line, cfg, ops, lineNo);
      && out.effects == [Send(Prepare(line, cfg, ops).value)]
      && (forall k :: 0 <= k < |out.effects| ==> !out.effects[k].Stdout?)
      && out.err == Some(SendRequest(cause))
  {
    PrepareSteps(line, cfg, ops);
  }

  /** With no transform, the body sent is the decoded record encoded again, not the input text. */
  lemma NoTransformSendsRecord(line: string, cfg: Config, ops: Ops, lineNo: nat)
    requires cfg.transform == ""
    requires HeadersOk(line, cfg, ops)
    ensures var out := Process(line, cfg, ops, lineNo);
      && out.effects != [] && out.effects[0].Send?
      && out.effects[0].request.body == ops.encode(ops.decode(line).value).value
  {
    PrepareSteps(line, cfg, ops);
  }
}
