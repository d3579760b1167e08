/** `main`: a straight line of fallible steps.  The steps before the call
    (engine, module, fuel, instance, export lookup, signature) abort the run
    with their error before anything is written; the call's own failure is
    data that goes into the execution log; after the log come the
    disassembly, the opcode scan and the opcode vector file, each of which
    aborts the run when it fails.

    Everything the program asks of the engine, the parser and the file
    system is an input: a `World` holds each foreign step's result, and the
    files the run leaves behind are a `Disk`, a map from path to contents.
    JSON text is not modelled: a file holds the record that was serialized. */
module Harness {
  import opened Fallible
  import opened Execution
  import opened OpcodeScanner
  import opened Frequency

  /** The two command-line flags. */
  datatype Args = Args(file: string, func: string)

  /** A file write: done, the file could not be created (nothing changes),
      or the file was created (truncated) and the write then failed. */
  datatype WriteStep = Wrote | CreateFailed(msg: string) | WriteFailed(msg: string)

  datatype Artifact = LogArtifact(log: ExecutionLog) | VectorArtifact(counts: map<string, nat>)

  /** A file holds a whole artifact, or what a failed write left of one. */
  datatype FileState = Holds(content: Artifact) | Incomplete

  type Disk = map<string, FileState>

  const LogPath: string := "execution_log.json"
  const VectorPath: string := "opcode_vector.json"
  const FunctionNotFound: string := "Function not found"

  /** The results of the foreign steps of one run. */
  datatype World = World(
    engine: Result<()>,                  // Engine::new with fuel consumption on
    load: Result<()>,                    // Module::from_file
    addFuel: nat -> Result<()>,          // Store::add_fuel, given the budget
    instance: Result<()>,                // Instance::new with no imports
    functionExports: set<string>,        // names that get_func finds
    signature: Result<()>,               // Func::typed::<(), ()>
    call: CallResult,                    // the guest call
    elapsedMs: nat,                      // the call's duration in ms
    logJson: Result<()>,                 // serializing the log
    logWrite: WriteStep,                 // File::create + write_all
    disassemblyRead: Result<PayloadStream>, // the file as the disassembler reads it
    scanRead: Result<PayloadStream>,     // the file as the scanner reads it
    vectorJson: Result<()>,              // serializing the opcode vector
    vectorWrite: WriteStep)              // fs::write

  function WriteResult(step: WriteStep): (r: Result<()>)
    ensures r.Ok? <==> step.Wrote?
  {
    match step
    case Wrote => Ok(())
    case CreateFailed(m) => Err(m)
    case WriteFailed(m) => Err(m)
  }

  /** What a write leaves on the disk: the artifact, the old disk when the
      file could not even be created, or a broken file. */
  function ApplyWrite(disk: Disk, path: string, content: Artifact, step: WriteStep): (after: Disk)
    ensures after.Keys == if step.CreateFailed? then disk.Keys else disk.Keys + {path}
    ensures step.Wrote? ==> after[path] == Holds(content)
    ensures step.WriteFailed? ==> after[path] == Incomplete
    ensures forall p :: p in disk && p != path ==> after[p] == disk[p]
  {
    match step
    case Wrote => disk[path := Holds(content)]
    case CreateFailed(_) => disk
    case WriteFailed(_) => disk[path := Incomplete]
  }

  /** `get_func(..).ok_or("Function not found")`. */
  function LookupExport(w: World, name: string): (r: Result<()>)
    ensures r.Ok? <==> name in w.functionExports
    ensures r.Err? ==> r.msg == FunctionNotFound
  {
    if name in w.functionExports then Ok(()) else Err(FunctionNotFound)
  }

  /** `disassemble_wasm` as far as the run can observe it: its printing is
      not modelled, only whether it fails.  It stops at the same places as
      the scanner: the read, a payload error, a reader error, a decode
      error. */
  function DisassemblyStatus(contents: Result<PayloadStream>): Result<()>
  {
    if contents.Err? then Err(contents.msg)
    else match ScanError(contents.value)
      case Some(m) => Err(m)
      case None => Ok(())
  }

  /** Forgets the value of a result. */
  function Status<T>(r: Result<T>): (s: Result<()>)
    ensures s.Ok? <==> r.Ok?
    ensures r.Err? ==> s.msg == r.msg
  {
    if r.Ok? then Ok(()) else Err(r.msg)
  }

  /** The steps before the call, in program order. */
  function SetupSteps(args: Args, w: World): seq<Result<()>>
  {
    [ w.engine, w.load, w.addFuel(FuelBudget), w.instance,
      LookupExport(w, args.func), w.signature ]
  }

  /** The steps after the log is built, in program order. */
  function ReportSteps(w: World): seq<Result<()>>
  {
    [ w.logJson, WriteResult(w.logWrite),
      DisassemblyStatus(w.disassemblyRead), Status(OpcodeFeatures(w.scanRead)),
      w.vectorJson, WriteResult(w.vectorWrite) ]
  }

  /** Every fallible step of `main`.  The call is not one of them. */
  function Steps(args: Args, w: World): seq<Result<()>>
  {
    SetupSteps(args, w) + ReportSteps(w)
  }

  /** Everything before the call succeeds: engine, module, fuel, instance,
      export lookup and signature. */
  predicate SetupSucceeds(args: Args, w: World)
  {
    w.engine.Ok? && w.load.Ok? && w.addFuel(FuelBudget).Ok? && w.instance.Ok? &&
    args.func in w.functionExports && w.signature.Ok?
  }

  /** The log file is written completely. */
  predicate LogStored(args: Args, w: World)
  {
    SetupSucceeds(args, w) && w.logJson.Ok? && w.logWrite.Wrote?
  }

  /** The log the run builds once setup is done. */
  function TheLog(args: Args, w: World): ExecutionLog
  {
    BuildLog(args.file, args.func, Classify(w.call), w.elapsedMs)
  }

  /** What one run leaves: exit status, files, and the summary line if it
      was printed. */
  datatype RunResult = RunResult(exit: Result<()>, disk: Disk, summary: Option<Summary>)

  /** The reference account of one run of `main`: the setup steps, then the
      report on the log built from the call. */
  function Run(args: Args, w: World, disk: Disk): RunResult
  {
    var fuel := w.addFuel(FuelBudget);
    if w.engine.Err? then RunResult(Err(w.engine.msg), disk, None)
    else if w.load.Err? then RunResult(Err(w.load.msg), disk, None)
    else if fuel.Err? then RunResult(Err(fuel.msg), disk, None)
    else if w.instance.Err? then RunResult(Err(w.instance.msg), disk, None)
    else if args.func !in w.functionExports then RunResult(Err(FunctionNotFound), disk, None)
    else if w.signature.Err? then RunResult(Err(w.signature.msg), disk, None)
    else Report(TheLog(args, w), Classify(w.call).errorMessage, w, disk)
  }

  /** Everything after the log is built: write the log, print the summary,
      disassemble, scan, write the vector. */
  function Report(log: ExecutionLog, message: Option<string>, w: World, disk: Disk): RunResult
  {
    if w.logJson.Err? then RunResult(Err(w.logJson.msg), disk, None)
    else
      var logged := ApplyWrite(disk, LogPath, LogArtifact(log), w.logWrite);
      if !w.logWrite.Wrote? then RunResult(Err(w.logWrite.msg), logged, None)
      else
        var summary := Some(Summarize(log, message));
        var disassembled := DisassemblyStatus(w.disassemblyRead);
        var vector := OpcodeFeatures(w.scanRead);
        if disassembled.Err? then RunResult(Err(disassembled.msg), logged, summary)
        else if vector.Err? then RunResult(Err(vector.msg), logged, summary)
        else if w.vectorJson.Err? then RunResult(Err(w.vectorJson.msg), logged, summary)
        else
          var stored := ApplyWrite(logged, VectorPath, VectorArtifact(vector.value), w.vectorWrite);
          if !w.vectorWrite.Wrote? then RunResult(Err(w.vectorWrite.msg), stored, summary)
          else RunResult(Ok(()), stored, summary)
  }

  /** `main` itself: the same steps with early returns, the scan done by the
      scanner's loop. */
  method Execute(args: Args, w: World, disk: Disk) returns (exit: Result<()>, after: Disk, summary: Option<Summary>)
    ensures RunResult(exit, after, summary) == Run(args, w, disk)
  {
    after, summary := disk, None;
    if w.engine.Err? { return Err(w.engine.msg), after, summary; }
    if w.load.Err? { return Err(w.load.msg), after, summary; }
    var fuel := w.addFuel(FuelBudget);
    if fuel.Err? { return Err(fuel.msg), after, summary; }
    if w.instance.Err? { return Err(w.instance.msg), after, summary; }
    if args.func !in w.functionExports { return Err(FunctionNotFound), after, summary; }
    if w.signature.Err? { return Err(w.signature.msg), after, summary; }

    var classification := Classify(w.call);
    var log := BuildLog(args.file, args.func, classification, w.elapsedMs);

    if w.logJson.Err? { return Err(w.logJson.msg), after, summary; }
    after := ApplyWrite(after, LogPath, LogArtifact(log), w.logWrite);
    if !w.logWrite.Wrote? { return Err(w.logWrite.msg), after, summary; }
    summary := Some(Summarize(log, classification.errorMessage));

    var disassembled := DisassemblyStatus(w.disassemblyRead);
    if disassembled.Err? { return Err(disassembled.msg), after, summary; }
    var vector := ExtractOpcodeFeatures(w.scanRead);
    if vector.Err? { return Err(vector.msg), after, summary; }
    if w.vectorJson.Err? { return Err(w.vectorJson.msg), after, summary; }
    after := ApplyWrite(after, VectorPath, VectorArtifact(vector.value), w.vectorWrite);
    if !w.vectorWrite.Wrote? { return Err(w.vectorWrite.msg), after, summary; }
    exit := Ok(());
  }

  // ---------------------------------------------------------------------
  // Lemmas

  /** Setup fails exactly when one of its steps does, with the first
      failing step's error, before anything is written or printed. */
  lemma SetupFailsOnFirstError(args: Args, w: World, disk: Disk)
    ensures SetupSucceeds(args, w) <==> FirstErr(SetupSteps(args, w)).None?
    ensures !SetupSucceeds(args, w) ==>
              Run(args, w, disk) == RunResult(Err(FirstErr(SetupSteps(args, w)).value), disk, None)
  {
    var s := SetupSteps(args, w);
    if w.engine.Err? { FirstErrAt(s, 0); }
    else if w.load.Err? { FirstErrAt(s, 1); }
    else if w.addFuel(FuelBudget).Err? { FirstErrAt(s, 2); }
    else if w.instance.Err? { FirstErrAt(s, 3); }
    else if args.func !in w.functionExports { FirstErrAt(s, 4); }
    else if w.signature.Err? { FirstErrAt(s, 5); }
  }

  /** The report ends with the error of its first failing step, whatever
      log it is given. */
  lemma ReportFailsOnFirstError(log: ExecutionLog, message: Option<string>, w: World, disk: Disk)
    ensures Report(log, message, w, disk).exit
              == match FirstErr(ReportSteps(w)) case None => Ok(()) case Some(m) => Err(m)
  {
    var s := ReportSteps(w);
    if w.logJson.Err? { FirstErrAt(s, 0); }
    else if !w.logWrite.Wrote? { FirstErrAt(s, 1); }
    else if DisassemblyStatus(w.disassemblyRead).Err? { FirstErrAt(s, 2); }
    else if OpcodeFeatures(w.scanRead).Err? { FirstErrAt(s, 3); }
    else if w.vectorJson.Err? { FirstErrAt(s, 4); }
    else if !w.vectorWrite.Wrote? { FirstErrAt(s, 5); }
  }

  /** The run exits with the error of its first failing step, and succeeds
      when no step fails. */
  lemma ExitIsFirstFailure(args: Args, w: World, disk: Disk)
    ensures Run(args, w, disk).exit == match FirstErr(Steps(args, w)) case None => Ok(()) case Some(m) => Err(m)
  {
    SetupFailsOnFirstError(args, w, disk);
    FirstErrConcat(SetupSteps(args, w), ReportSteps(w));
    if SetupSucceeds(args, w) {
      ReportFailsOnFirstError(TheLog(args, w), Classify(w.call).errorMessage, w, disk);
    }
  }

  /** A failure before the call ends the run with nothing written and no
      summary printed, whatever the call would have done. */
  lemma SetupFailureWritesNothing(args: Args, w: World, disk: Disk)
    requires !SetupSucceeds(args, w)
    ensures Run(args, w, disk).exit.Err?
    ensures Run(args, w, disk).disk == disk
    ensures Run(args, w, disk).summary == None
  {
    SetupFailsOnFirstError(args, w, disk);
  }

  /** Asking for a function the module does not export ends the run with
      "Function not found" before the call, with nothing written. */
  lemma MissingExportFails(args: Args, w: World, disk: Disk)
    requires w.engine.Ok? && w.load.Ok? && w.addFuel(FuelBudget).Ok? && w.instance.Ok?
    requires args.func !in w.functionExports
    ensures Run(args, w, disk) == RunResult(Err(FunctionNotFound), disk, None)
  {
  }

  /** Once setup succeeds, the log is built from the call whatever its
      outcome: a complete log file records success exactly when the call
      returned and is followed by the summary line. */
  lemma CallOutcomeIsLogged(args: Args, w: World, disk: Disk)
    requires LogStored(args, w)
    ensures var r := Run(args, w, disk);
            && LogPath in r.disk
            && r.disk[LogPath] == Holds(LogArtifact(TheLog(args, w)))
            && (r.disk[LogPath].content.log.success <==> w.call.Returned?)
            && r.summary == Some(Summarize(TheLog(args, w), Classify(w.call).errorMessage))
  {
    ReportStoresLog(TheLog(args, w), Classify(w.call).errorMessage, w, disk);
    LogReflectsCall(args.file, args.func, w.call, w.elapsedMs);
  }

  /** A report whose log write succeeds leaves that log on the disk, later
      steps notwithstanding, and prints the summary. */
  lemma ReportStoresLog(log: ExecutionLog, message: Option<string>, w: World, disk: Disk)
    requires w.logJson.Ok? && w.logWrite.Wrote?
    ensures var r := Report(log, message, w, disk);
            && LogPath in r.disk && r.disk[LogPath] == Holds(LogArtifact(log))
            && r.summary == Some(Summarize(log, message))
  {
    assert LogPath != VectorPath;
  }

  /** The call's outcome never decides the exit status: two runs that
      differ only in the call exit alike. */
  lemma CallDoesNotDecideExit(args: Args, w: World, disk: Disk, other: CallResult)
    ensures Run(args, w, disk).exit == Run(args, w.(call := other), disk).exit
  {
    ExitIsFirstFailure(args, w, disk);
    ExitIsFirstFailure(args, w.(call := other), disk);
    assert Steps(args, w) == Steps(args, w.(call := other));
  }

  /** A run that exits successfully leaves both artifacts complete: the log
      and the opcode frequency vector of the module as the scanner read it;
      no other file changes. */
  lemma SuccessfulRunStoresBoth(args: Args, w: World, disk: Disk)
    requires Run(args, w, disk).exit.Ok?
    ensures var r := Run(args, w, disk);
            && w.scanRead.Ok? && ScanError(w.scanRead.value).None?
            && r.disk == disk[LogPath := Holds(LogArtifact(TheLog(args, w)))]
                             [VectorPath := Holds(VectorArtifact(Histogram(Labels(w.scanRead.value))))]
  {
    SetupFailsOnFirstError(args, w, disk);
  }

  /** The disassembler fails exactly where the scanner would, with the same
      error. */
  lemma DisassemblyFailsLikeScan(contents: Result<PayloadStream>)
    ensures DisassemblyStatus(contents) == Status(OpcodeFeatures(contents))
  {
  }

  /** When both passes read the same file contents, a run that got past the
      disassembly cannot fail in the scan. */
  lemma ScanAfterDisassemblySucceeds(args: Args, w: World, disk: Disk)
    requires w.disassemblyRead == w.scanRead
    requires LogStored(args, w) && DisassemblyStatus(w.disassemblyRead).Ok?
    ensures Run(args, w, disk).exit == (if w.vectorJson.Err? then w.vectorJson else WriteResult(w.vectorWrite))
  {
    DisassemblyFailsLikeScan(w.scanRead);
  }
}
