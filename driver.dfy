/**
 * `run`: the line loop over standard input. Blank lines are skipped, each
 * other line goes through `processLine`, a failed line is logged and the
 * loop goes on; only a failure to read the input ends the run with exit
 * status 1.
 */
module Driver {
  import opened Results
  import opened Strings
  import opened Types
  import opened Pipeline

  /** A line `run` skips: nothing but white space. */
  predicate IsBlank(line: string)
    ensures IsBlank(line) <==> AllSpace(line)
  {
    TrimSpace(line) == ""
  }

  /** The line logged for a record that failed. */
  function ErrorLine(e: ProcessError): string {
    "Error processing line: " + Message(e) + "\n"
  }

  /** The line logged when reading the input fails. */
  function ReadErrorLine(cause: string): string {
    "Error reading stdin: " + cause + "\n"
  }

  /** The number of requests a trace sends. */
  function CountSends(trace: seq<Effect>): nat {
    if trace == [] then 0
    else (if trace[0].Send? then 1 else 0) + CountSends(trace[1..])
  }

  /** What `run` does with the outcome of one record: its effects, then the logged error, if any. */
  function Report(out: Outcome): seq<Effect> {
    out.effects + if out.err.Some? then [Stderr(ErrorLine(out.err.value))] else []
  }

  /** What input line number `lineNo` does. */
  function LineTrace(line: string, cfg: Config, ops: Ops, lineNo: nat): seq<Effect> {
    if IsBlank(line) then [] else Report(Process(line, cfg, ops, lineNo))
  }

  /** `LineTrace` with the configuration fixed. */
  function LineStep(cfg: Config, ops: Ops): (string, nat) -> seq<Effect> {
    (line: string, lineNo: nat) => LineTrace(line, cfg, ops, lineNo)
  }

  /** What the lines do, in order, each through `step`, the first being input line number `lineNo`. */
  function Lines(step: (string, nat) -> seq<Effect>, lines: seq<string>, lineNo: nat): seq<Effect> {
    if lines == [] then []
    else step(lines[0], lineNo) + Lines(step, lines[1..], lineNo + 1)
  }

  /** What the lines do, in order, the first being input line number `lineNo`. */
  function LinesTrace(lines: seq<string>, cfg: Config, ops: Ops, lineNo: nat): seq<Effect> {
    Lines(LineStep(cfg, ops), lines, lineNo)
  }

  /** The whole run: the lines read, then the read error if reading stopped on one. */
  function RunTrace(lines: seq<string>, readErr: Option<string>, cfg: Config, ops: Ops): seq<Effect> {
    LinesTrace(lines, cfg, ops, 0) + if readErr.Some? then [Stderr(ReadErrorLine(readErr.value))] else []
  }

  /**
   * `run` over the lines the scanner delivers; `readErr` is the scanner's
   * error once it stops, if any.
   */
  method Run(lines: seq<string>, readErr: Option<string>, cfg: Config, ops: Ops) returns (trace: seq<Effect>, exitCode: int)
    ensures trace == RunTrace(lines, readErr, cfg, ops)
    ensures exitCode == (if readErr.Some? then 1 else 0)
  {
    trace := [];
    ghost var step := LineStep(cfg, ops);
    for i := 0 to |lines|
      invariant trace + Lines(step, lines[i..], i) == LinesTrace(lines, cfg, ops, 0)
    {
      var reported := RunLine(lines[i], cfg, ops, i);
      ExtendTrace(step, lines, i, trace, reported);
      trace := trace + reported;
    }
    assert lines[|lines|..] == [];
    exitCode := 0;
    if readErr.Some? {
      trace := trace + [Stderr(ReadErrorLine(readErr.value))];
      exitCode := 1;
    }
  }

  /** One iteration of `run`'s loop: the line is skipped, or processed and its error logged. */
  method RunLine(line: string, cfg: Config, ops: Ops, lineNo: nat) returns (reported: seq<Effect>)
    ensures reported == LineStep(cfg, ops)(line, lineNo)
  {
    StepOfLine(line, cfg, ops, lineNo);
    if IsBlank(line) {
      return [];
    }
    var effects, err := ProcessLine(line, cfg, ops, lineNo);
    reported := effects;
    if err.Some? {
      reported := reported + [Stderr(ErrorLine(err.value))];
    }
  }

  /** `LineStep` applied: a blank line does nothing, another one is reported. */
  lemma StepOfLine(line: string, cfg: Config, ops: Ops, lineNo: nat)
    ensures LineStep(cfg, ops)(line, lineNo) == if IsBlank(line) then [] else Report(Process(line, cfg, ops, lineNo))
  {
  }

  /** The loop's invariant carried over one line: the trace so far, then this line, then the rest. */
  lemma ExtendTrace(step: (string, nat) -> seq<Effect>, lines: seq<string>, i: nat, trace: seq<Effect>, first: seq<Effect>)
    requires i < |lines| && first == step(lines[i], i)
    ensures trace + Lines(step, lines[i..], i) == (trace + first) + Lines(step, lines[i + 1..], i + 1)
  {
    assert lines[i..][1..] == lines[i + 1..];
  }

  /** The sends of two traces add up. */
  lemma {:induction false} CountSendsAppend(a: seq<Effect>, b: seq<Effect>)
    ensures CountSends(a + b) == CountSends(a) + CountSends(b)
  {
    if a != [] {
      assert (a + b)[1..] == a[1..] + b;
      CountSendsAppend(a[1..], b);
    } else {
      assert a + b == b;
    }
  }

  /** The lines handled in order: the first ones' effects, then the rest's. */
  lemma {:induction false} LinesAppend(step: (string, nat) -> seq<Effect>, pre: seq<string>, rest: seq<string>, lineNo: nat)
    ensures Lines(step, pre + rest, lineNo) == Lines(step, pre, lineNo) + Lines(step, rest, lineNo + |pre|)
  {
    if pre == [] {
      assert pre + rest == rest;
    } else {
      assert (pre + rest)[1..] == pre[1..] + rest;
      LinesAppend(step, pre[1..], rest, lineNo + 1);
    }
  }

  /** A step that does nothing for blank lines does nothing for a run of blank lines. */
  lemma {:induction false} LinesBlank(step: (string, nat) -> seq<Effect>, lines: seq<string>, lineNo: nat)
    requires forall n :: 0 <= n < |lines| ==> step(lines[n], lineNo + n) == []
    ensures Lines(step, lines, lineNo) == []
  {
    if lines != [] {
      assert step(lines[0], lineNo + 0) == [];
      forall n | 0 <= n < |lines[1..]|
        ensures step(lines[1..][n], lineNo + 1 + n) == []
      {
        assert lines[1..][n] == lines[n + 1];
      }
      LinesBlank(step, lines[1..], lineNo + 1);
    }
  }

  /**
   * The lines are handled in order: what the first ones do comes first,
   * and the rest do the same as they would on their own, at their own
   * line numbers.
   */
  lemma LinesInOrder(pre: seq<string>, rest: seq<string>, cfg: Config, ops: Ops, lineNo: nat)
    ensures LinesTrace(pre + rest, cfg, ops, lineNo) == LinesTrace(pre, cfg, ops, lineNo) + LinesTrace(rest, cfg, ops, lineNo + |pre|)
  {
    LinesAppend(LineStep(cfg, ops), pre, rest, lineNo);
  }

  /**
   * Blank lines are skipped: a run of them does nothing, and the lines
   * around them keep the traces they have at their own line numbers.
   */
  lemma BlankLinesSkipped(pre: seq<string>, blanks: seq<string>, rest: seq<string>, cfg: Config, ops: Ops, lineNo: nat)
    requires forall k :: 0 <= k < |blanks| ==> IsBlank(blanks[k])
    ensures LinesTrace(blanks, cfg, ops, lineNo) == []
    ensures LinesTrace(pre + blanks + rest, cfg, ops, lineNo) ==
            LinesTrace(pre, cfg, ops, lineNo) + LinesTrace(rest, cfg, ops, lineNo + |pre| + |blanks|)
  {
    var step := LineStep(cfg, ops);
    forall n | 0 <= n < |blanks|
      ensures step(blanks[n], lineNo + n) == [] && step(blanks[n], lineNo + |pre| + n) == []
    {
      StepOfLine(blanks[n], cfg, ops, lineNo + n);
      StepOfLine(blanks[n], cfg, ops, lineNo + |pre| + n);
    }
    LinesBlank(step, blanks, lineNo);
    LinesAround(step, pre, blanks, rest, lineNo);
  }

  /** Lines that do nothing, between two others, leave the trace of the others as it is. */
  lemma LinesAround(step: (string, nat) -> seq<Effect>, pre: seq<string>, blanks: seq<string>, rest: seq<string>, lineNo: nat)
    requires forall n :: 0 <= n < |blanks| ==> step(blanks[n], lineNo + |pre| + n) == []
    ensures Lines(step, pre + blanks + rest, lineNo) == Lines(step, pre, lineNo) + Lines(step, rest, lineNo + |pre| + |blanks|)
  {
    assert Lines(step, pre + blanks, lineNo) == Lines(step, pre, lineNo) by {
      LinesAppend(step, pre, blanks, lineNo);
      LinesBlank(step, blanks, lineNo + |pre|);
      assert Lines(step, pre, lineNo) + [] == Lines(step, pre, lineNo);
    }
    LinesAppend(step, pre + blanks, rest, lineNo);
  }

  /** When the responses do not depend on the line that sends, neither does what a line does. */
  lemma LineTraceIgnoresLineNo(line: string, cfg: Config, ops: Ops, lineNo: nat)
    requires forall m: nat, r: Request :: ops.send(m, r) == ops.send(0, r)
    ensures LineTrace(line, cfg, ops, lineNo) == LineTrace(line, cfg, ops, 0)
  {
    var p := Prepare(line, cfg, ops);
    if p.Success? {
      assert ops.send(lineNo, p.value) == ops.send(0, p.value);
    }
  }

  /** A step that ignores the line number gives the same trace wherever the lines start. */
  lemma {:induction false} LinesIgnoreLineNo(step: (string, nat) -> seq<Effect>, lines: seq<string>, lineNo: nat)
    requires forall line: string, m: nat :: step(line, m) == step(line, 0)
    ensures Lines(step, lines, lineNo) == Lines(step, lines, 0)
  {
    if lines != [] {
      LinesIgnoreLineNo(step, lines[1..], lineNo + 1);
      LinesIgnoreLineNo(step, lines[1..], 1);
    }
  }

  /** When the responses do not depend on the line that sends, neither does the step of any line. */
  lemma StepIgnoresLineNo(cfg: Config, ops: Ops)
    requires forall m: nat, r: Request :: ops.send(m, r) == ops.send(0, r)
    ensures forall line: string, m: nat :: LineStep(cfg, ops)(line, m) == LineStep(cfg, ops)(line, 0)
  {
    forall line: string, m: nat
      ensures LineStep(cfg, ops)(line, m) == LineStep(cfg, ops)(line, 0)
    {
      StepOfLine(line, cfg, ops, m);
      StepOfLine(line, cfg, ops, 0);
      LineTraceIgnoresLineNo(line, cfg, ops, m);
    }
  }

  /** With a step that ignores the line number, lines that do nothing can be deleted. */
  lemma LinesWithout(step: (string, nat) -> seq<Effect>, pre: seq<string>, blanks: seq<string>, rest: seq<string>, lineNo: nat)
    requires forall line: string, m: nat :: step(line, m) == step(line, 0)
    requires forall n :: 0 <= n < |blanks| ==> step(blanks[n], lineNo + |pre| + n) == []
    ensures Lines(step, pre + blanks + rest, lineNo) == Lines(step, pre + rest, lineNo)
  {
    LinesAround(step, pre, blanks, rest, lineNo);
    LinesAppend(step, pre, rest, lineNo);
    LinesIgnoreLineNo(step, rest, lineNo + |pre| + |blanks|);
    LinesIgnoreLineNo(step, rest, lineNo + |pre|);
  }

  /**
   * When the responses do not depend on the line that sends, deleting
   * blank lines changes nothing: the run does what it would without them.
   */
  lemma BlankLinesRemovable(pre: seq<string>, blanks: seq<string>, rest: seq<string>, cfg: Config, ops: Ops, lineNo: nat)
    requires forall k :: 0 <= k < |blanks| ==> IsBlank(blanks[k])
    requires forall m: nat, r: Request :: ops.send(m, r) == ops.send(0, r)
    ensures LinesTrace(pre + blanks + rest, cfg, ops, lineNo) == LinesTrace(pre + rest, cfg, ops, lineNo)
  {
    var step := LineStep(cfg, ops);
    StepIgnoresLineNo(cfg, ops);
    forall n | 0 <= n < |blanks|
      ensures step(blanks[n], lineNo + |pre| + n) == []
    {
      StepOfLine(blanks[n], cfg, ops, lineNo + |pre| + n);
    }
    LinesWithout(step, pre, blanks, rest, lineNo);
  }

  /** A line that is not blank is processed; when it fails, its error is logged after whatever it did, and the next line is processed all the same. */
  lemma FailureDoesNotStop(line: string, rest: seq<string>, cfg: Config, ops: Ops, lineNo: nat)
    requires !IsBlank(line)
    ensures var out := Process(line, cfg, ops, lineNo);
            LinesTrace([line] + rest, cfg, ops, lineNo) ==
              out.effects + (if out.err.Some? then [Stderr(ErrorLine(out.err.value))] else []) + LinesTrace(rest, cfg, ops, lineNo + 1)
  {
    var step := LineStep(cfg, ops);
    assert ([line] + rest)[1..] == rest;
    assert step(line, lineNo) == Report(Process(line, cfg, ops, lineNo)) by {
      StepOfLine(line, cfg, ops, lineNo);
    }
  }

  /**
   * A line sends at most one request, and it sends one exactly when it is
   * not blank and every step before sending succeeds.
   */
  lemma AtMostOneSendPerLine(line: string, cfg: Config, ops: Ops, lineNo: nat)
    ensures CountSends(LineTrace(line, cfg, ops, lineNo)) <= 1
    ensures CountSends(LineTrace(line, cfg, ops, lineNo)) == 1 <==> !IsBlank(line) && HeadersOk(line, cfg, ops)
  {
    if !IsBlank(line) {
      var out := Process(line, cfg, ops, lineNo);
      SendOnlyAfterAllSteps(line, cfg, ops, lineNo);
      CountSendsAppend(out.effects, if out.err.Some? then [Stderr(ErrorLine(out.err.value))] else []);
      if HeadersOk(line, cfg, ops) {
        assert |out.effects| <= 2 && out.effects[0].Send? && (|out.effects| == 2 ==> !out.effects[1].Send?) by {
          PrepareSteps(line, cfg, ops);
        }
        assert out.effects == [out.effects[0]] + out.effects[1..];
        CountSendsAppend([out.effects[0]], out.effects[1..]);
      }
    }
  }

  /**
   * A response with a status of 400 or more is printed, and only then is
   * the line logged as failed with an HTTP error.
   */
  lemma HttpErrorAfterResponse(line: string, cfg: Config, ops: Ops, lineNo: nat, resp: Response)
    requires !IsBlank(line) && HeadersOk(line, cfg, ops)
    requires ops.send(lineNo, Prepare(line, cfg, ops).value) == Success(resp)
    requires resp.statusCode >= 400
    ensures LineTrace(line, cfg, ops, lineNo) ==
      [Send(Prepare(line, cfg, ops).value), Stdout(StatusLine(resp)), Stderr(ErrorLine(HttpError(resp.status)))]
  {
    ResponseAlwaysReported(line, cfg, ops, lineNo, resp);
  }
}
