# QuantumWarden in Dafny

QuantumWarden is a single command-line program. It takes a WebAssembly
module and the name of an exported nullary function, and does four things:

1. It calls that function under a fuel budget of 10 000 units.
2. It classifies the outcome as success, fuel exhaustion, another trap, or
   another error, and writes the outcome to `execution_log.json`.
3. It disassembles the module to the console.
4. It counts, for each operator label, how often the label occurs across all
   function bodies, and writes this opcode frequency vector to
   `opcode_vector.json`.

This project models the program's logic and proves properties of it. The
model has five modules:

- `Fallible` (fallible.dfy): `Option` and `Result`, plus `FirstErr`, the first
  error in a list of step results.
- `Frequency` (frequency.dfy): the opcode frequency vector as a value.
  - `Tally` is the `entry(op).or_insert(0) += 1` step.
  - `Histogram` is the map a run of `Tally` steps builds.
  - `HistogramCounts` ties it to the multiset of labels.
  - `Total` is the sum of all counts.
- `OpcodeScanner` (opcode_scanner.dfy): `extract_opcode_features`.
  - It is written as the source's nested loops: `ExtractOpcodeFeatures` over
    payloads, `ScanPayload` for one payload, and `TallyOperators` over the
    operators of one body.
  - These methods are proved against the reference function
    `OpcodeFeatures`. The lemmas about `OpcodeFeatures` state what the scan
    means.
  - A module is the sequence of payload results the parser yields. A body is
    the sequence of operator results its reader yields.
  - A label is the operator's debug text, taken as an opaque string. That text
    includes immediates, so operators of one kind with different immediates
    are counted under different keys.
- `Execution` (execution.dfy): the outcome `match` as the pure function
  `Classify`, then the `ExecutionLog` record and the console summary line.
  - The engine's error is a closed datatype: `Trap(kind, desc)` or
    `Other(text)`.
- `Harness` (harness.dfy): `main`.
  - `Execute` is the method with `main`'s early returns.
  - `Run` is the reference function it is proved equal to. `Run` has a setup
    stage and a `Report` stage.
  - Every foreign step's result is an input held in a `World`.
  - The files the run leaves behind are a `Disk`: a map from path to what the
    file holds.

Three points of the code shape the model:

- **Labels keep immediates.** The key is the operator's debug text
  (src/main.rs:66), so operators of one kind with different immediates get
  different keys. `DistinctLabelsStayApart` states that two different labels
  are never merged.
- **Instantiation failure is fatal.** The `?` at src/main.rs:93 returns
  before the call and before the log is written, so the model treats it as
  one more setup failure.
- **The module file is read three times.** The engine's load reads it
  (:88), and each of the two parser passes reads it once more (:32, :57).
  The model gives the load (`World.load`) and the two parser reads
  (`disassemblyRead`, `scanRead`) separate results.
  - `ScanAfterDisassemblySucceeds` states what follows when both parser
    reads see the same contents.
  - `DisassemblyStatus` is defined from the scanner's own error, because the
    `?` sites of `disassemble_wasm` (:32, :37, :46, :47) are the scanner's
    (:57, :62, :64, :66) on the same parser. This is a modelling choice, not a
    proved result, so `DisassemblyFailsLikeScan` holds by that definition.

## Model

| member | source | states |
|---|---|---|
| Frequency.Tally | src/main.rs:67 | a missing key starts at 0 and the label's count goes up by one; the keys gain the label; every other count is unchanged |
| Frequency.HistogramCounts | src/main.rs:65-67 | the keys of the map built by tallying a sequence of labels are exactly the labels in it, and each key maps to its number of occurrences (its multiset count) |
| Frequency.HistogramPositive | src/main.rs:67 | every key present has a count of at least one |
| Frequency.TotalHistogram | src/main.rs:61-69 | the counts add up to the number of labels tallied |
| Frequency.TotalRemove | src/main.rs:59-67 | the sum of a map's counts is any one key's count plus the sum of the rest |
| Frequency.TotalUpdate | src/main.rs:67 | setting one key's count changes the sum by the difference between the new and old counts |
| Frequency.HistogramSnoc | src/main.rs:65-67 | tallying one more label is one `Tally` step on the map built so far |
| Frequency.DistinctLabelsStayApart | src/main.rs:66-67 | two different labels each get their own count: [a, b, a] gives {a: 2, b: 1} |
| OpcodeScanner.ExtractOpcodeFeatures | src/main.rs:56-75 | the nested scan returns the read error if the read failed; otherwise the first payload, reader or decode error in module order; otherwise the frequency map of all labels |
| OpcodeScanner.ScanPayload | src/main.rs:62-70 | an erroneous payload or reader stops the scan with its error; a code-section entry adds its operators' labels to the map; any other payload leaves the map as it was |
| OpcodeScanner.TallyOperators | src/main.rs:64-68 | the first decode error of a body is returned; otherwise each operator's label is tallied, in order, into the map it was given |
| OpcodeScanner.TallyStep | src/main.rs:66-67 | one decoded operator is one `Tally` step on the map of the labels before it |
| OpcodeScanner.PayloadStep | src/main.rs:61-62 | reading one more payload appends its labels; its error counts only if the payloads before it were clean |
| OpcodeScanner.OpStep | src/main.rs:65-66 | decoding one more operator appends its label, or makes its error the body's error if none came earlier |
| OpcodeScanner.OpcodeFeaturesMeaning | src/main.rs:56-75 | the scan fails exactly on a failed read or a module with an error; otherwise its keys are exactly the labels that occur, each counted as often as it occurs (at least once), and the counts sum to the number of operators across all code-section entries |
| OpcodeScanner.OpErrorPrefix | src/main.rs:65-66 | after the first decode error in a body, later operators do not change the body's error |
| OpcodeScanner.ScanErrorPrefix | src/main.rs:61-62 | after the first error in a module, later payloads do not change the scan's error |
| OpcodeScanner.OpErrorNoneIff | src/main.rs:65-66 | a body decodes without error exactly when every operator decodes, and it then yields one label per operator |
| OpcodeScanner.ScanSucceedsIff | src/main.rs:61-72 | the scan of a module succeeds exactly when every payload parsed, and every code-section entry's reader was created and decodes every operator |
| OpcodeScanner.DecodedLabelsCount | src/main.rs:61-69 | on a clean module the labels number exactly the operators of all code-section entries |
| OpcodeScanner.LabelsConcat | src/main.rs:61-72 | the labels of a split module are those of its parts, in order |
| OpcodeScanner.ScanErrorConcat | src/main.rs:61-64 | a split module fails on its first part's error if it has one, otherwise on the second part's |
| OpcodeScanner.NonCodePayloadIgnored | src/main.rs:70 | a payload that is not a code-section entry, wherever it stands, changes neither the labels nor the error of the scan |
| OpcodeScanner.ErrorAbandonsEverythingAfter | src/main.rs:62-66 | once part of a module has an error, the scan returns that error and no map, whatever follows |
| Execution.Classify | src/main.rs:104-118 | success exactly when the call returned; a message exactly when it did not; an out-of-fuel trap gets the fixed fuel message, any other trap gets "Trap: " plus its description, and any other error keeps its own text |
| Execution.BuildLog | src/main.rs:120-126 | the log copies file and function from the arguments, success and message from the classification, and the duration it is given |
| Execution.Summarize | src/main.rs:132-138 | success prints the duration; failure prints the duration and the message, or "Unknown error" when there is none |
| Execution.LogReflectsCall | src/main.rs:104-126 | the log of a call reports success exactly when the call returned, carries a message exactly when it failed, and keeps the file, function and duration |
| Execution.SummaryNeverFallsBack | src/main.rs:135-137 | a failed call's summary always names the classification's message; the "Unknown error" fallback is never reached |
| Execution.TrapDescriptionRecoverable | src/main.rs:111-112 | for any trap but fuel exhaustion, the description is the message minus the "Trap: " prefix |
| Execution.MessageDoesNotDetermineCause | src/main.rs:108-116 | out-of-fuel traps with different descriptions give the same classification, and a non-trap error can carry the same message as a trap or as fuel exhaustion |
| Fallible.FirstErr | src/main.rs:84-152 | there is no first error exactly when every step succeeded |
| Fallible.FirstErrAt | src/main.rs:84-152 | when step i fails and all steps before it succeeded, the first error is step i's |
| Fallible.FirstErrConcat | src/main.rs:84-152 | the first error of two stages in sequence is the first stage's, if it has one, and otherwise the second stage's |
| Harness.WriteResult | src/main.rs:129-130 | a write succeeds exactly when the file was created and written |
| Harness.ApplyWrite | src/main.rs:129-130 | a write stores the artifact when it succeeds, leaves a broken file when creation succeeded but the write failed, leaves the disk alone when creation failed, and never touches another path |
| Harness.LookupExport | src/main.rs:94-96 | the lookup succeeds exactly when the name is exported, and fails with "Function not found" |
| Harness.Status | src/main.rs:140-142 | a step's status is its success or its error message |
| Harness.Execute | src/main.rs:84-152 | `main` with its early returns leaves exactly the exit status, files and summary line that `Run` describes |
| Harness.SetupFailsOnFirstError | src/main.rs:87-98 | setup succeeds exactly when none of engine, module load, fuel, instantiation, export lookup or signature fails; when one fails, the run exits with the first failure's error, writes nothing and prints no summary |
| Harness.ReportFailsOnFirstError | src/main.rs:128-152 | whatever log it is given, the report stage exits with the error of its first failing step (log JSON, log write, disassembly, scan, vector JSON, vector write), and succeeds if none fails |
| Harness.ExitIsFirstFailure | src/main.rs:84-152 | the run's exit status is the error of the first failing step of the whole pipeline, and success when no step fails |
| Harness.SetupFailureWritesNothing | src/main.rs:87-98 | a setup failure ends the run with an error and no file written or summary printed, whatever the call would have done |
| Harness.MissingExportFails | src/main.rs:94-96 | asking for a function the module does not export ends the run with "Function not found" before the call, with nothing written |
| Harness.CallOutcomeIsLogged | src/main.rs:100-138 | when setup and the log write succeed, whatever the call did, the log file holds the log built from it, reports success exactly when the call returned, and the summary line is printed |
| Harness.ReportStoresLog | src/main.rs:128-138 | a successful log write leaves that log on disk whatever later steps do, and the summary line follows |
| Harness.CallDoesNotDecideExit | src/main.rs:101-152 | a failed call is data, not a process failure: two runs that differ only in the call's outcome exit alike |
| Harness.SuccessfulRunStoresBoth | src/main.rs:128-152 | a run that exits successfully scanned a clean module and changes only the two artifacts: the log, and the frequency map of the module's labels |
| Harness.DisassemblyFailsLikeScan | src/main.rs:31-54 | the disassembler fails exactly where the scanner would, with the same error; this holds by the definition of `DisassemblyStatus`, which follows the matching `?` sites |
| Harness.ScanAfterDisassemblySucceeds | src/main.rs:140-149 | when both passes read the same contents and the disassembly succeeded, the scan cannot fail, and the run's exit is decided by the vector's serialization and write |

## Left out

- The WebAssembly engine: `Engine::new`, `Module::from_file`, `Store::add_fuel`, `Instance::new`, `get_func`, `typed` and the call. They are foreign library code. Each is an input result in `World`; the fuel budget is passed to `addFuel` as the constant 10 000.
- Fuel accounting: how the engine spends fuel, and the claim that a smaller budget can only exhaust earlier, are engine behaviour. The model cannot observe them.
- Binary decoding by `wasmparser`, and the `{:?}` debug formatting of operators. The payload and operator streams, and the label strings, are inputs.
- Which `wasmparser` payloads the disassembler prints, and its console output. `disassemble_wasm` is modelled only by where it can fail. By definition, it fails at the same places as the scanner, as the matching `?` sites at :32, :37, :46 and :47 show.
- Wall-clock timing (`Instant`, `as_millis`). The duration is an input in milliseconds. `ExecutionLog.durationMs` is a `nat`, so the `u128` bound is not modelled.
- JSON serialization and its round trip. A serialization step is an input result, and a written file holds the record itself instead of text.
- Console output other than the summary line: the startup log line, the disassembly, the printed frequency table and the "Saved vector" line. All four are I/O.
- Command-line parsing with `clap` and logger setup. Both are plumbing; `Args` holds the two flags.
- `HashMap` iteration order when printing. The vector is a Dafny `map`, which has no order.
- `usize` overflow of a count: at most one count per decoded operator, so this cannot occur for any module that fits in memory. Counts are `nat`.
- Determinism of the scan: running the scanner twice gives the same map. This follows from `ExtractOpcodeFeatures`'s postcondition, and no separate lemma states it.
