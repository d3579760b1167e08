/** The outcome of the one guarded call and the execution log built from it.

    The engine's error is a closed datatype: either a trap, whose kind tells
    whether the fuel ran out and whose description is the trap's display
    text, or some other error with its display text. */
module Execution {
  import opened Fallible

  /** The kinds of trap the engine reports; only `OutOfFuel` is treated
      specially. */
  datatype TrapKind =
    | OutOfFuel
    | StackOverflow
    | MemoryOutOfBounds
    | HeapMisaligned
    | TableOutOfBounds
    | IndirectCallToNull
    | BadSignature
    | IntegerOverflow
    | IntegerDivisionByZero
    | BadConversionToInteger
    | UnreachableCodeReached
    | Interrupt
    | AlwaysTrapAdapter

  datatype CallError =
    | Trap(kind: TrapKind, desc: string)
    | Other(text: string)

  /** The result of calling the guest's nullary function. */
  datatype CallResult = Returned | Failed(error: CallError)

  /** The pair `(success, error_message)` computed from the call result. */
  datatype Classification = Classification(success: bool, errorMessage: Option<string>)

  /** `ExecutionLog`: the record written to `execution_log.json`. */
  datatype ExecutionLog = ExecutionLog(
    file: string,
    functionName: string,
    success: bool,
    durationMs: nat,
    errorMessage: Option<string>)

  /** The fuel given to the store before the call. */
  const FuelBudget: nat := 10_000

  const FuelMessage: string := "Execution failed: all fuel consumed by WebAssembly"

  const TrapPrefix: string := "Trap: "

  /** The outcome `match`: a returned call succeeds with no message; an
      out-of-fuel trap gets the fixed message whatever its description; any
      other trap gets its description behind "Trap: "; any other error keeps
      its own text. */
  function Classify(r: CallResult): (c: Classification)
    ensures c.success <==> r.Returned?
    ensures c.errorMessage.None? <==> c.success
    ensures r.Failed? && r.error.Trap? && r.error.kind == OutOfFuel ==> c.errorMessage == Some(FuelMessage)
    ensures r.Failed? && r.error.Trap? && r.error.kind != OutOfFuel ==> c.errorMessage == Some(TrapPrefix + r.error.desc)
    ensures r.Failed? && r.error.Other? ==> c.errorMessage == Some(r.error.text)
  {
    match r
    case Returned => Classification(true, None)
    case Failed(Trap(OutOfFuel, _)) => Classification(false, Some(FuelMessage))
    case Failed(Trap(_, desc)) => Classification(false, Some(TrapPrefix + desc))
    case Failed(Other(text)) => Classification(false, Some(text))
  }

  /** The log record: file and function from the command line, outcome from
      the classification, and the measured duration, which the model takes
      as an input. */
  function BuildLog(file: string, func: string, c: Classification, durationMs: nat): (log: ExecutionLog)
    ensures log.file == file && log.functionName == func && log.durationMs == durationMs
    ensures log.success == c.success && log.errorMessage == c.errorMessage
  {
    ExecutionLog(file, func, c.success, durationMs, c.errorMessage)
  }

  /** The one-line console summary printed after the log is written. */
  datatype Summary = Succeeded(ms: nat) | FailedWith(ms: nat, reason: string)

  const UnknownError: string := "Unknown error"

  /** The summary: success, or failure with the error message, falling back
      to "Unknown error" when there is none. */
  function Summarize(log: ExecutionLog, errorMessage: Option<string>): (s: Summary)
    ensures log.success ==> s == Succeeded(log.durationMs)
    ensures !log.success && errorMessage.Some? ==> s == FailedWith(log.durationMs, errorMessage.value)
    ensures !log.success && errorMessage.None? ==> s == FailedWith(log.durationMs, UnknownError)
  {
    if log.success then Succeeded(log.durationMs)
    else FailedWith(log.durationMs, match errorMessage case Some(m) => m case None => UnknownError)
  }

  // ---------------------------------------------------------------------
  // Lemmas

  /** The log of a call says it succeeded exactly when the call returned,
      carries a message exactly when it failed, and keeps the file, function
      and duration it was given. */
  lemma LogReflectsCall(file: string, func: string, r: CallResult, durationMs: nat)
    ensures var log := BuildLog(file, func, Classify(r), durationMs);
            && log.file == file && log.functionName == func && log.durationMs == durationMs
            && (log.success <==> r.Returned?)
            && (log.errorMessage.None? <==> r.Returned?)
  {
  }

  /** The summary of a failed call always names the classification's own
      message: the "Unknown error" fallback is never reached. */
  lemma SummaryNeverFallsBack(file: string, func: string, r: CallResult, durationMs: nat)
    requires r.Failed?
    ensures var c := Classify(r);
            Summarize(BuildLog(file, func, c, durationMs), c.errorMessage)
              == FailedWith(durationMs, c.errorMessage.value)
  {
  }

  /** The description of any trap but an out-of-fuel one can be read back
      from the message by dropping the "Trap: " prefix. */
  lemma TrapDescriptionRecoverable(k: TrapKind, desc: string)
    requires k != OutOfFuel
    ensures var m := Classify(Failed(Trap(k, desc))).errorMessage.value;
            |m| >= |TrapPrefix| && m[..|TrapPrefix|] == TrapPrefix && m[|TrapPrefix|..] == desc
  {
  }

  /** The message does not determine the cause: an out-of-fuel trap's
      description is dropped, and an error that is not a trap can carry the
      same text as a trap or as fuel exhaustion. */
  lemma MessageDoesNotDetermineCause()
    ensures forall d1, d2 :: Classify(Failed(Trap(OutOfFuel, d1))) == Classify(Failed(Trap(OutOfFuel, d2)))
    ensures Classify(Failed(Other("Trap: unreachable"))) == Classify(Failed(Trap(UnreachableCodeReached, "unreachable")))
    ensures Classify(Failed(Other(FuelMessage))) == Classify(Failed(Trap(OutOfFuel, "")))
  {
    assert TrapPrefix + "unreachable" == "Trap: unreachable";
  }
}
