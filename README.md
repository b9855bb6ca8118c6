# pub — a Dafny model of the line-to-HTTP pipe

`pub` reads JSON records from standard input, one per line. For each
record it evaluates a URL expression, an optional transform expression and
any number of header expressions. It then sends one HTTP request and prints
the response. A record that fails is logged, and reading goes on. Only a
failure to read the input makes the program exit with status 1.

The model covers the core of `main.go`:

- `Strings`: Go's `strings.TrimSpace` and `strings.SplitN(s, sep, 2)` for a
  one-character separator.
- `Environ`: `getEnvMap`, a table-building loop over the process
  environment (`GetEnvMap`), proved against the function `EnvMap`.
- `Headers`: parsing a header text `Name: value`, and the header loop
  that stores each parsed header in the request's header table.
- `Pipeline`: `processLine`, the fixed sequence of steps before the send
  (`Prepare`), and the send and report (`Dispatch`). The imperative
  `ProcessLine` method, with its early returns and its header loop, is
  proved equal to the function `Process`.
- `Driver`: `run`, the loop over the input lines (`Run`), proved equal
  to the function `RunTrace`.

The program's foreign pieces are abstract operations in the datatype
`Types.Ops`. They are JSON decoding and encoding, the expression language,
`fmt.Sprintf("%v", …)` of a non-string value, `http.NewRequest`, the
canonical form `Header.Set` stores a name under, and `client.Do`.
Decoding, evaluation, encoding and sending return a value or their error
text. `newRequest` returns only the error it reports, if any. Formatting
and canonicalisation cannot fail. Because the network may answer
differently over time, `send` also receives the input line number of the
line that sends the request.

What the program does is written as a trace of `Effect`s:

- `Send(request)`: a request handed to the client.
- `Stdout(text)`: a line printed to standard output.
- `Stderr(text)`: a line written to standard error.

The code has no dry-run mode, so the model has none either. The code's
error lines carry no line number, and neither do the model's.

## Model

| member | source | states |
|---|---|---|
| Strings.LeadingSpace | main.go:58 | The result is the length of the white-space prefix: every character before it is space, and the character at it, if any, is not. |
| Strings.TrailingSpace | main.go:58 | The result is where the white-space suffix starts: every character from it on is space, and the one just before it, if any, is not. |
| Strings.IsSpace | main.go:58 | Reference definition: white space as Go's `unicode.IsSpace` defines it, meaning the Latin-1 spaces plus U+1680, U+2000-U+200A, U+2028, U+2029, U+202F, U+205F and U+3000. It decides which lines are blank and what header trimming removes. |
| Strings.TrimSpace | main.go:58 | The result is empty exactly when the text is all white space; otherwise it neither starts nor ends with white space. |
| Strings.TrimSpaceOf | main.go:127 | Trimming white space around a text with non-space ends gives back exactly that text. |
| Strings.TrimSpaceIdempotent | main.go:127 | Trimming twice is the same as trimming once. |
| Strings.Index | main.go:125 | The result is -1 exactly when the character is absent; otherwise it is the position of its first occurrence. |
| Strings.SplitN2 | main.go:125 | There are two parts exactly when the separator occurs. One part is the whole text. Two parts rejoin with the separator to the text, and the first part has no separator. |
| Strings.SplitN2At | main.go:166 | The split is at the first separator: `a + sep + b`, with no separator in `a`, splits into `a` and `b`, whatever `b` holds. |
| Types.Format | main.go:109 | `%v` of a string value is the string itself. |
| Types.Message | main.go:77-148 | Reference definition: the text of each error `processLine` returns, with its fixed prefix (`parsing JSON: `, `evaluating URL expression: `, …, `HTTP error: `) before the cause. |
| Types.StatusLine | main.go:145 | Reference definition: the line printed for a received response, `Status: <status>, Response: <body>` and a newline. |
| Headers.ParseHeader | main.go:124-130 | There is no header exactly when the text has no colon; the name has no colon; both name and value are already trimmed. |
| Headers.ParseHeaderAt | main.go:125-127 | `name: value`, with no colon in `name`, is the trimmed name with the trimmed value. |
| Headers.ParseHeaderKeepsLaterColons | main.go:125-127 | `X: a:b` is header `X` with value `a:b`. |
| Headers.HeaderField | main.go:117-130 | A header expression fails only with an evaluation error or an invalid-format error. |
| Headers.SetHeader | main.go:127 | Reference definition of `Header.Set`: the canonical form of the name is bound to the value alone, replacing any earlier value. |
| Headers.InitialHeader | main.go:114 | Reference definition: the table every request starts with, holding only Content-Type set to `application/json`. |
| Headers.SetFields | main.go:116-131 | Reference definition of the header loop over evaluated headers: each parsed header is set in order, and the first failure ends the loop with its error. |
| Headers.ApplyHeaders | main.go:116-131 | Reference definition: the header loop over the header expressions, started from a given table. |
| Headers.SetFieldsSucceeds | main.go:116-131 | The header loop succeeds exactly when every header succeeds. |
| Headers.SetFieldsFirstFailure | main.go:116-131 | The header loop returns the error of the first failing header. |
| Headers.SetFieldsError | main.go:116-131 | A failing header loop returns the error of one of the headers. |
| Headers.SetFieldsKeeps | main.go:114-131 | A key no header is stored under keeps its starting value. |
| Headers.SetFieldsLastWins | main.go:116-131 | The last header stored under a key decides that key's value. |
| Headers.ApplyHeadersSucceeds | main.go:116-131 | The header loop succeeds exactly when every header expression evaluates to text with a colon. |
| Headers.ApplyHeadersFirstFailure | main.go:116-131 | The header loop fails with the error of the first failing header expression. |
| Headers.ApplyHeadersError | main.go:116-131 | A failing header loop fails with an evaluation error or an invalid-format error. |
| Headers.ApplyHeadersLastWins | main.go:114-131 | Last write wins, the starting Content-Type included: the last header stored under a canonical name gives that name its value. |
| Headers.ContentTypeDefault | main.go:114 | Content-Type stays `application/json` unless some header is stored under its canonical name. |
| Environ.GetEnvMap | main.go:163-171 | The loop builds exactly the table `EnvMap` of the environment. |
| Environ.AddEntry | main.go:166-169 | Reference definition of one iteration: an entry without `=` is dropped; otherwise the text before the first `=` is bound to the rest. |
| Environ.AddEntries | main.go:165-170 | Reference definition: the entries added in order to a table. |
| Environ.EnvMap | main.go:163-171 | Reference definition: the environment table, the entries added in order to an empty table. |
| Environ.AddEntriesKeys | main.go:165-170 | A key is in the table exactly when the starting table has it or some entry defines it. |
| Environ.AddEntriesKeeps | main.go:165-170 | A key no entry defines keeps its binding. |
| Environ.AddEntriesLastWins | main.go:165-170 | The last entry defining a key decides its value. |
| Environ.EnvMapKeys | main.go:163-171 | A key is in the environment table exactly when some entry has a `=` with that key before the first `=`; entries without `=` are dropped. |
| Environ.EnvMapLastWins | main.go:163-171 | For a key defined more than once, the last definition wins. |
| Environ.EntrySplit | main.go:166-168 | `k=v`, with no `=` in `k`, defines `k` with value `v`, even when `v` holds `=`. |
| Pipeline.Body | main.go:91-100 | With no transform the body is the decoded record. With one, the body is the transform's result, or the record fails with a transform error. |
| Pipeline.Prepare | main.go:74-131 | Reference definition: decoding, then the later steps with the context of the record and the environment table; the request to send or the first error. |
| Pipeline.ContextOf | main.go:80-83 | Reference definition: the context of a decoded record. The record is `input` and the table `EnvMap(Config.environ)` is `env`; the table is computed again for every line. |
| Pipeline.TargetOf | main.go:86-109 | Reference definition: the request target, which is the URL expression's value in the record's context printed with `%v`. |
| Pipeline.PrepareRecord | main.go:85-100 | Reference definition: URL evaluation, then the body choice, each failing with its own error. |
| Pipeline.Assemble | main.go:102-131 | Reference definition: marshalling, request creation and the header loop, each failing with its own error, else the assembled request. |
| Pipeline.Dispatch | main.go:133-151 | Reference definition of the send: a failed send gives the send effect and a sending error; a response gives the send and the printed status line, and an HTTP error exactly when the status code is 400 or more. |
| Pipeline.Process | main.go:74-152 | Reference definition of `processLine`: no effect and the step error when a step before the send fails, otherwise the send step. |
| Pipeline.BuildHeader | main.go:114-131 | The header loop (Content-Type first, then each expression in order, returning at the first failure) computes `ApplyHeaders` from the initial table. |
| Pipeline.BuildRequest | main.go:84-131 | The steps after decoding compute `PrepareRecord`: the request, or the first failing step's error. |
| Pipeline.PrepareLine | main.go:74-131 | Decoding, the context with the environment table, and the later steps compute `Prepare`. |
| Pipeline.ProcessLine | main.go:74-152 | `processLine` does exactly what `Process` says: its effects in order, and the error it returns. |
| Pipeline.PrepareSteps | main.go:75-131 | The steps fail in their fixed order with the first failing step's error (JSON, URL, transform, marshal, request creation, header). When all succeed, the result is the assembled request: method, target, header table and marshalled body. |
| Pipeline.SendOnlyAfterAllSteps | main.go:75-136 | A request is sent exactly when every earlier step succeeds, and it is the first effect. Otherwise the record has no effect and returns an error. |
| Pipeline.HeaderWithoutColonFails | main.go:117-130 | A header text without a colon, after the earlier steps and headers succeed, makes the record fail with "invalid header format" and nothing sent. |
| Pipeline.ResponseAlwaysReported | main.go:134-151 | A received response is always printed after the send. A status of 400 or more then makes the record fail with an HTTP error; a lower status is success. |
| Pipeline.SendFailureReported | main.go:134-137 | When the send itself fails, the request was handed to the client, nothing is printed, and the record fails with the sending error. |
| Pipeline.NoTransformSendsRecord | main.go:92-103 | With no transform, the body sent is the decoded record encoded again. |
| Driver.Run | main.go:50-71 | The loop's trace is `RunTrace`: each line's trace in input order, then the read-error line if reading failed. The exit status is 1 exactly when reading failed. |
| Driver.IsBlank | main.go:58 | A line is skipped exactly when it is all white space. |
| Driver.ErrorLine | main.go:63 | Reference definition: the log line of a failed record, `Error processing line: ` and the error text. |
| Driver.ReadErrorLine | main.go:69 | Reference definition: the log line of a read failure, `Error reading stdin: ` and the cause. |
| Driver.Report | main.go:62-65 | Reference definition: a record's effects, then its logged error line if it failed. |
| Driver.Lines | main.go:56-66 | Reference definition: the loop's fold over the lines, each through a given step at its own input line number, in input order. |
| Driver.LinesTrace | main.go:56-66 | Reference definition: the fold with `LineTrace` as the step, which is what the loop body does to each line. |
| Driver.LineTrace | main.go:57-65 | Reference definition: a blank line does nothing; any other line is processed and reported. |
| Driver.RunTrace | main.go:56-71 | Reference definition: each line's trace in input order, at its own line number, then the read-error line if reading failed. |
| Driver.RunLine | main.go:57-65 | One iteration: a blank line does nothing; any other line does what `processLine` does, then logs its error, if any. |
| Driver.LinesAppend | main.go:56-66 | Lines are handled in order: the first lines' trace, then the rest's trace at their own line numbers. |
| Driver.LinesBlank | main.go:58-60 | A run of lines that each do nothing does nothing. |
| Driver.LinesInOrder | main.go:56-66 | Splitting the input anywhere, the trace is the first part's trace followed by the second part's. |
| Driver.BlankLinesSkipped | main.go:58-60 | Blank lines do nothing, and the lines around them keep the traces they have at their own line numbers. |
| Driver.LineTraceIgnoresLineNo | main.go:57-65 | When the responses do not depend on the line that sends, neither does what a line does. |
| Driver.LinesIgnoreLineNo | main.go:56-66 | With a step that ignores the line number, the lines give the same trace wherever they start. |
| Driver.BlankLinesRemovable | main.go:58-60 | When the responses do not depend on the line that sends, deleting blank lines leaves the run's trace unchanged. |
| Driver.FailureDoesNotStop | main.go:62-65 | A non-blank line that fails is logged after its effects, and the next line is processed all the same. |
| Driver.AtMostOneSendPerLine | main.go:56-66 | A line sends at most one request. It sends one exactly when it is not blank and every step before the send succeeds. |
| Driver.HttpErrorAfterResponse | main.go:145-151 | A response with status 400 or more yields the send, the printed status line, and then the "HTTP error" log line, in that order. |

## Left out

- Types.Value has only the shapes of JSON: null, booleans, numbers as reals, strings, lists and objects. The expression language can return values with no exact counterpart among these, such as an integer as distinct from a float, an infinity from a float division by zero, or a time value from `now()`. `encode` (`json.Marshal`) and `formatOther` (`%v`) therefore see only an image of those values that can lose information. No proved property depends on this distinction.
- JSON decoding and encoding, the expression language (`expr.Compile`/`expr.Run`), `fmt`'s `%v` of non-string values, `http.NewRequest`'s validation, the canonical header-name form and `client.Do` are abstract operations in `Types.Ops`. Their behaviour is a parameter of the model.
- HTTP transport, connection handling and reading the response body are part of `send`. An error while reading the body is ignored by the code and is not modelled.
- Invalid header names or values (rejected by the HTTP client when sending) are part of `send`'s failure.
- The process environment is one fixed list (`Config.environ`). The code reads it again for every line; the model recomputes the table for every line from that same list, so a concurrent change to the environment is not modelled.
- Command-line parsing (cobra), `.env` loading (godotenv), `os.Exit` and the scanner's token-size limit are outside the core. `Run` takes the lines the scanner delivered and its final error, if any, and returns the exit status instead of exiting.
- `main` and `evaluateExpression` are not part of this model beyond the `eval` operation.
- `http.NewRequest` builds the request the client sends. It turns an empty method into `GET` and parses the URL text. The model's `Send` effect carries the method and the `%v` text of the URL as given, so with an empty `--request` the model records `""` where Go sends `GET`.
- `eval` is a function of the expression and its context alone. Expression-language builtins that read the clock (such as `now()`) can make the same expression give different values on different lines. The model does not capture that. Driver.LinesInOrder and Driver.BlankLinesSkipped keep each line at its own line number, so they do not depend on this. Driver.BlankLinesRemovable relies on it: it compares a line's effects at two positions, and it requires that the responses do not depend on the line that sends.
- Strings.TrimSpace: it works on Unicode code points, so invalid UTF-8 bytes, which Go treats as U+FFFD, are not modelled.
