/**
 * The `--header` expressions of `processLine`: each evaluated value is
 * printed with `%v`, split on its first `:` into a name and a value, both
 * trimmed, and `Set` on the request, so a later header replaces an earlier
 * one with the same canonical name.
 */
module Headers {
  import opened Results
  import opened Strings
  import opened Types

  datatype Field = Field(name: string, value: string)

  /**
   * Parses "Name: Value". Text without a colon is rejected; otherwise the
   * name has no colon and neither part carries surrounding white space.
   */
  function ParseHeader(text: string): (r: Option<Field>)
    ensures r.None? <==> ':' !in text
    ensures r.Some? ==> ':' !in r.value.name
    ensures r.Some? ==> TrimSpace(r.value.name) == r.value.name && TrimSpace(r.value.value) == r.value.value
  {
    var parts := SplitN2(text, ':');
    if |parts| == 2 then
      TrimSpaceIdempotent(parts[0]);
      TrimSpaceIdempotent(parts[1]);
      Some(Field(TrimSpace(parts[0]), TrimSpace(parts[1])))
    else
      None
  }

  /** The split is at the first colon, so the value keeps any further colons. */
  lemma ParseHeaderAt(name: string, value: string)
    requires ':' !in name
    ensures ParseHeader(name + ":" + value) == Some(Field(TrimSpace(name), TrimSpace(value)))
  {
    SplitN2At(name, ':', value);
  }

  /** "X: a:b" is the header X with value "a:b". */
  lemma ParseHeaderKeepsLaterColons()
    ensures ParseHeader("X: a:b") == Some(Field("X", "a:b"))
  {
    assert TrimSpace("X") == "X" by {
      assert [] + "X" + [] == "X";
      TrimSpaceOf([], "X", []);
    }
    assert TrimSpace(" a:b") == "a:b" by {
      assert " " + "a:b" + [] == " a:b";
      TrimSpaceOf(" ", "a:b", []);
    }
    assert ParseHeader("X: a:b") == Some(Field(TrimSpace("X"), TrimSpace(" a:b"))) by {
      assert "X: a:b" == "X" + ":" + " a:b";
      ParseHeaderAt("X", " a:b");
    }
  }

  /** One header expression evaluated and parsed, or the error it makes `processLine` return. */
  function HeaderField(expr: string, ctx: Context, ops: Ops): (r: Result<Field, ProcessError>)
    ensures r.Failure? ==> r.error.EvalHeader? || r.error.InvalidHeaderFormat?
  {
    match ops.eval(expr, ctx)
    case Failure(cause) => Failure(EvalHeader(cause))
    case Success(v) =>
      var text := Format(ops, v);
      match ParseHeader(text)
      case None => Failure(InvalidHeaderFormat(text))
      case Some(f) => Success(f)
  }

  /** `Header.Set`: binds the canonical form of `name` to `value` alone. */
  function SetHeader(table: map<string, string>, canonicalKey: string -> string, name: string, value: string): map<string, string> {
    table[canonicalKey(name) := value]
  }

  /** The table every request starts with. */
  function InitialHeader(canonicalKey: string -> string): map<string, string> {
    SetHeader(map[], canonicalKey, "Content-Type", "application/json")
  }

  /** What each header expression yields, in the order given; the expressions do not see the table. */
  function Fields(exprs: seq<string>, ctx: Context, ops: Ops): seq<Result<Field, ProcessError>> {
    seq(|exprs|, i requires 0 <= i < |exprs| => HeaderField(exprs[i], ctx, ops))
  }

  /** Sets the parsed headers in order on `table`, stopping at the first failure. */
  function SetFields(fields: seq<Result<Field, ProcessError>>, canonicalKey: string -> string, table: map<string, string>): Result<map<string, string>, ProcessError> {
    if fields == [] then Success(table)
    else
      match fields[0]
      case Failure(e) => Failure(e)
      case Success(f) => SetFields(fields[1..], canonicalKey, SetHeader(table, canonicalKey, f.name, f.value))
  }

  /** The header loop of `processLine`, started from `table`. */
  function ApplyHeaders(exprs: seq<string>, ctx: Context, ops: Ops, table: map<string, string>): Result<map<string, string>, ProcessError> {
    SetFields(Fields(exprs, ctx, ops), ops.canonicalKey, table)
  }

  /** The loop succeeds exactly when every header succeeds. */
  lemma {:induction false} SetFieldsSucceeds(fields: seq<Result<Field, ProcessError>>, canonicalKey: string -> string, table: map<string, string>)
    ensures SetFields(fields, canonicalKey, table).Success? <==> forall i :: 0 <= i < |fields| ==> fields[i].Success?
  {
    if fields != [] && fields[0].Success? {
      var f := fields[0].value;
      SetFieldsSucceeds(fields[1..], canonicalKey, SetHeader(table, canonicalKey, f.name, f.value));
      assert forall i :: 0 < i < |fields| ==> fields[i] == fields[1..][i - 1];
    }
  }

  /** A failing loop reports the error of the first failing header. */
  lemma {:induction false} SetFieldsFirstFailure(fields: seq<Result<Field, ProcessError>>, canonicalKey: string -> string, table: map<string, string>, i: nat)
    requires i < |fields| && fields[i].Failure?
    requires forall j :: 0 <= j < i ==> fields[j].Success?
    ensures SetFields(fields, canonicalKey, table) == Failure(fields[i].error)
  {
    if i > 0 {
      var f := fields[0].value;
      assert forall j :: 0 <= j < i - 1 ==> fields[1..][j] == fields[j + 1];
      SetFieldsFirstFailure(fields[1..], canonicalKey, SetHeader(table, canonicalKey, f.name, f.value), i - 1);
    }
  }

  /** The error a failing loop reports is the error of one of the headers. */
  lemma {:induction false} SetFieldsError(fields: seq<Result<Field, ProcessError>>, canonicalKey: string -> string, table: map<string, string>)
    requires SetFields(fields, canonicalKey, table).Failure?
    ensures exists i :: 0 <= i < |fields| && fields[i] == Failure(SetFields(fields, canonicalKey, table).error)
  {
    if fields[0].Success? {
      var f := fields[0].value;
      SetFieldsError(fields[1..], canonicalKey, SetHeader(table, canonicalKey, f.name, f.value));
      var i :| 0 <= i < |fields[1..]| && fields[1..][i] == Failure(SetFields(fields, canonicalKey, table).error);
      assert fields[i + 1] == fields[1..][i];
    } else {
      assert fields[0] == Failure(SetFields(fields, canonicalKey, table).error);
    }
  }

  /** A name no header is stored under keeps what the starting table had for it (or stays absent). */
  lemma {:induction false} SetFieldsKeeps(fields: seq<Result<Field, ProcessError>>, canonicalKey: string -> string, table: map<string, string>, key: string)
    requires SetFields(fields, canonicalKey, table).Success?
    requires forall i :: 0 <= i < |fields| && fields[i].Success? ==> canonicalKey(fields[i].value.name) != key
    ensures var result := SetFields(fields, canonicalKey, table).value;
            (key in result <==> key in table) && (key in table ==> result[key] == table[key])
  {
    if fields != [] {
      var f := fields[0].value;
      assert forall i :: 0 <= i < |fields[1..]| ==> fields[1..][i] == fields[i + 1];
      SetFieldsKeeps(fields[1..], canonicalKey, SetHeader(table, canonicalKey, f.name, f.value), key);
    }
  }

  /** Last write wins: the last header stored under a name decides that name's value. */
  lemma {:induction false} SetFieldsLastWins(fields: seq<Result<Field, ProcessError>>, canonicalKey: string -> string, table: map<string, string>, i: nat)
    requires SetFields(fields, canonicalKey, table).Success?
    requires i < |fields| && fields[i].Success?
    requires forall j :: i < j < |fields| && fields[j].Success? ==>
               canonicalKey(fields[j].value.name) != canonicalKey(fields[i].value.name)
    ensures var result := SetFields(fields, canonicalKey, table).value;
            var key := canonicalKey(fields[i].value.name);
            key in result && result[key] == fields[i].value.value
  {
    var f := fields[0].value;
    var next := SetHeader(table, canonicalKey, f.name, f.value);
    assert forall j :: 0 <= j < |fields[1..]| ==> fields[1..][j] == fields[j + 1];
    if i == 0 {
      SetFieldsKeeps(fields[1..], canonicalKey, next, canonicalKey(f.name));
    } else {
      SetFieldsLastWins(fields[1..], canonicalKey, next, i - 1);
    }
  }

  /** The header loop succeeds exactly when every header expression evaluates to text with a colon. */
  lemma ApplyHeadersSucceeds(exprs: seq<string>, ctx: Context, ops: Ops, table: map<string, string>)
    ensures ApplyHeaders(exprs, ctx, ops, table).Success? <==>
              forall i :: 0 <= i < |exprs| ==> HeaderField(exprs[i], ctx, ops).Success?
  {
    var fields := Fields(exprs, ctx, ops);
    SetFieldsSucceeds(fields, ops.canonicalKey, table);
    assert forall i :: 0 <= i < |exprs| ==> fields[i] == HeaderField(exprs[i], ctx, ops);
  }

  /** The header loop fails with the error of the first failing header expression. */
  lemma ApplyHeadersFirstFailure(exprs: seq<string>, ctx: Context, ops: Ops, table: map<string, string>, i: nat)
    requires i < |exprs| && HeaderField(exprs[i], ctx, ops).Failure?
    requires forall j :: 0 <= j < i ==> HeaderField(exprs[j], ctx, ops).Success?
    ensures ApplyHeaders(exprs, ctx, ops, table) == Failure(HeaderField(exprs[i], ctx, ops).error)
  {
    SetFieldsFirstFailure(Fields(exprs, ctx, ops), ops.canonicalKey, table, i);
  }

  /** A failing header loop fails with a header error: an evaluation error or a malformed header. */
  lemma ApplyHeadersError(exprs: seq<string>, ctx: Context, ops: Ops, table: map<string, string>)
    requires ApplyHeaders(exprs, ctx, ops, table).Failure?
    ensures ApplyHeaders(exprs, ctx, ops, table).error.EvalHeader? || ApplyHeaders(exprs, ctx, ops, table).error.InvalidHeaderFormat?
  {
    var fields := Fields(exprs, ctx, ops);
    SetFieldsError(fields, ops.canonicalKey, table);
    var i :| 0 <= i < |fields| && fields[i] == Failure(ApplyHeaders(exprs, ctx, ops, table).error);
    assert fields[i] == HeaderField(exprs[i], ctx, ops);
  }

  /**
   * Headers are applied in order with overwrite by name: the last header
   * whose name canonicalises to a key gives that key its value, and a key
   * no header names keeps its starting value. With the starting table
   * holding Content-Type, a user header can thus replace it.
   */
  lemma ApplyHeadersLastWins(exprs: seq<string>, ctx: Context, ops: Ops, table: map<string, string>, i: nat)
    requires ApplyHeaders(exprs, ctx, ops, table).Success?
    requires i < |exprs| && HeaderField(exprs[i], ctx, ops).Success?
    requires forall j :: i < j < |exprs| && HeaderField(exprs[j], ctx, ops).Success? ==>
               ops.canonicalKey(HeaderField(exprs[j], ctx, ops).value.name) != ops.canonicalKey(HeaderField(exprs[i], ctx, ops).value.name)
    ensures var result := ApplyHeaders(exprs, ctx, ops, table).value;
            var f := HeaderField(exprs[i], ctx, ops).value;
            ops.canonicalKey(f.name) in result && result[ops.canonicalKey(f.name)] == f.value
  {
    SetFieldsLastWins(Fields(exprs, ctx, ops), ops.canonicalKey, table, i);
  }

  /** Content-Type stays application/json unless a header is stored under its canonical name. */
  lemma ContentTypeDefault(exprs: seq<string>, ctx: Context, ops: Ops)
    requires ApplyHeaders(exprs, ctx, ops, InitialHeader(ops.canonicalKey)).Success?
    requires forall i :: 0 <= i < |exprs| && HeaderField(exprs[i], ctx, ops).Success? ==>
               ops.canonicalKey(HeaderField(exprs[i], ctx, ops).value.name) != ops.canonicalKey("Content-Type")
    ensures var result := ApplyHeaders(exprs, ctx, ops, InitialHeader(ops.canonicalKey)).value;
            var key := ops.canonicalKey("Content-Type");
            key in result && result[key] == "application/json"
  {
    SetFieldsKeeps(Fields(exprs, ctx, ops), ops.canonicalKey, InitialHeader(ops.canonicalKey), ops.canonicalKey("Content-Type"));
  }
}
