/**
 * The `UpgradeVersionCommand.Execute` run: make sure the placeholder document
 * exists, register the dialog handler, ask for a folder, open the log, scan
 * and filter the folder, then open and close each file in turn, logging every
 * step and containing each file's failure; finally unregister the handler and
 * dispose the log.
 *
 * The host application, the file system, the folder picker and the clock are
 * an oracle (`Env`). The calls the command makes into the host and the UI are
 * recorded, in order, in `calls`.
 */
module Upgrade {
  import opened Wrappers
  import opened Decimal
  import opened Paths
  import opened Logging
  import opened Discovery

  /** The host call a per-file attempt threw from. */
  datatype Step = OpenFile | ActivatePlaceholder | CloseFile

  /** What the host does with one file. */
  datatype Outcome = Upgraded | Failed(step: Step, message: string)

  predicate FailsAt(o: Outcome, step: Step) {
    o.Failed? && o.step == step
  }

  /** How creating the placeholder document goes when it is missing. */
  datatype Bootstrap = Created | NewProjectThrows | SaveAsThrows

  /**
   * Everything `Execute` learns from outside: the add-in's directory, whether
   * the placeholder exists and how creating it goes, the folder the user picks
   * (`None` when the dialog is cancelled), the log file's current lines (`None`
   * when it cannot be opened), what `Directory.GetFiles` returns (`None` when it
   * throws), what the host does with the file at each index, and the clock
   * reading for the k-th log line.
   */
  datatype Env = Env(
    assemblyDir: string,
    placeholderExists: bool,
    bootstrap: Bootstrap,
    folder: Option<string>,
    logFile: Option<seq<string>>,
    scan: Option<seq<string>>,
    outcome: nat -> Outcome,
    clock: nat -> DateTime)

  /** A call into the host application or the UI. */
  datatype Call =
    | NewProjectDocument
    | SaveAs(path: string)
    | Subscribe                      // DialogBoxShowing += ApplicationOnDialogBoxShowing
    | Unsubscribe                    // DialogBoxShowing -= ApplicationOnDialogBoxShowing
    | OpenAndActivate(path: string)
    | Close(document: string, save: bool)
    | ShowError(text: string)        // MessageBox.Show

  /** The exception that ends a run early, and how a run ends. */
  datatype Fault = PlaceholderCreation | LogCreation | FolderScan
  datatype Exit = Finished | Cancelled | Faulted(fault: Fault)

  const StartMessage := "Starting upgrade process..."
  const DoneMessage := "Upgrade process completed!"
  const NullReferenceMessage := "Object reference not set to an instance of an object."

  function FoundMessage(n: nat): string {
    "Found " + Show(n) + " files to upgrade"
  }

  const ProcessingPrefix := "Processing file "
  const CompletedPrefix := "Completed file "
  const ErrorPrefix := "Error processing file "

  /** `prefix` followed by "<i+1>/<n>: <file>": the progress line for the i-th of n files. */
  function FileProgress(prefix: string, i: nat, n: nat, file: string): string {
    prefix + (Show(i + 1) + ("/" + Show(n) + ": " + file))
  }

  function ProcessingMessage(i: nat, n: nat, file: string): string {
    FileProgress(ProcessingPrefix, i, n, file)
  }

  function CompletedMessage(i: nat, n: nat, file: string): string {
    FileProgress(CompletedPrefix, i, n, file)
  }

  function ErrorMessage(file: string, message: string): string {
    ErrorPrefix + (file + ": " + message)
  }

  /** The line that ends the attempt on the i-th of n files. */
  function TerminalMessage(i: nat, n: nat, file: string, o: Outcome): string {
    if o.Upgraded? then CompletedMessage(i, n, file) else ErrorMessage(file, o.message)
  }

  function PlaceholderPath(env: Env): string {
    Combine(env.assemblyDir, PlaceHolderName)
  }

  predicate BootstrapFails(env: Env) {
    !env.placeholderExists && env.bootstrap != Created
  }

  /** The calls made to create a missing placeholder: a new project document, saved at the placeholder path. */
  function BootstrapCalls(env: Env): seq<Call> {
    if env.placeholderExists then []
    else if env.bootstrap == NewProjectThrows then [NewProjectDocument]
    else [NewProjectDocument, SaveAs(PlaceholderPath(env))]
  }

  /** The document the host shows: the one most recently opened and activated. */
  function ActiveDocument(calls: seq<Call>): Option<string> {
    if calls == [] then None
    else if calls[|calls| - 1].OpenAndActivate? then Some(calls[|calls| - 1].path)
    else ActiveDocument(calls[..|calls| - 1])
  }

  /** `CloseCurrentView`: activate the placeholder, then close the previously active document, saving it. */
  function SwapCalls(active: string, placeholder: string, o: Outcome): seq<Call> {
    [OpenAndActivate(placeholder)] +
    (if FailsAt(o, ActivatePlaceholder) then [] else [Close(active, true)])
  }

  /** The failure `CloseCurrentView` reports for the outcome `o`. */
  function SwapFailure(o: Outcome): Option<string> {
    if o.Failed? && o.step != OpenFile then Some(o.message) else None
  }

  /** The calls made for one file: open it, swap to the placeholder unless opening threw, and report a failure. */
  function FileCalls(file: string, placeholder: string, o: Outcome): seq<Call> {
    [OpenAndActivate(file)] +
    (if FailsAt(o, OpenFile) then [] else SwapCalls(file, placeholder, o)) +
    (if o.Failed? then [ShowError(ErrorMessage(file, o.message))] else [])
  }

  /** The calls made for the first k files. */
  function LoopCalls(files: seq<string>, placeholder: string, outcome: nat -> Outcome, k: nat): seq<Call>
    requires k <= |files|
  {
    if k == 0 then []
    else LoopCalls(files, placeholder, outcome, k - 1) + FileCalls(files[k - 1], placeholder, outcome(k - 1))
  }

  /** The messages logged for the first k files: a processing line and a terminal line each. */
  function FileMessages(files: seq<string>, outcome: nat -> Outcome, k: nat): seq<string>
    requires k <= |files|
  {
    if k == 0 then []
    else FileMessages(files, outcome, k - 1) +
         [ProcessingMessage(k - 1, |files|, files[k - 1]),
          TerminalMessage(k - 1, |files|, files[k - 1], outcome(k - 1))]
  }

  /** Everything a run that gets through the folder logs: start, count, two lines per file, completion. */
  function CompletedLog(files: seq<string>, outcome: nat -> Outcome): seq<string> {
    [StartMessage, FoundMessage(|files|)] + FileMessages(files, outcome, |files|) + [DoneMessage]
  }

  /** What a run does: the calls it makes, the messages it logs (`None`: no logger created) and how it ends. */
  datatype Trace = Trace(calls: seq<Call>, log: Option<seq<string>>, exit: Exit)

  /** The `try` block of `Execute`, with the handler registered. */
  function TryBlock(env: Env): Trace {
    if env.folder.None? then Trace([], None, Cancelled)
    else if env.logFile.None? then Trace([], None, Faulted(LogCreation))
    else if env.scan.None? then Trace([], Some([StartMessage]), Faulted(FolderScan))
    else
      var files := GetRevitFiles(env.scan.value);
      var n := |files|;
      Trace(LoopCalls(files, PlaceholderPath(env), env.outcome, n),
            Some(CompletedLog(files, env.outcome)),
            Finished)
  }

  /** The whole of `Execute`: bootstrap, register, the `try` block, and the `finally` unregistration. */
  function Run(env: Env): Trace {
    if BootstrapFails(env) then Trace(BootstrapCalls(env), None, Faulted(PlaceholderCreation))
    else
      var t := TryBlock(env);
      Trace(BootstrapCalls(env) + [Subscribe] + t.calls + [Unsubscribe], t.log, t.exit)
  }

  /** A run whose placeholder is in place is the `try` block between registering and unregistering the handler. */
  lemma RunAroundTry(env: Env)
    requires !BootstrapFails(env)
    ensures Run(env).calls == BootstrapCalls(env) + [Subscribe] + TryBlock(env).calls + [Unsubscribe]
    ensures Run(env).log == TryBlock(env).log && Run(env).exit == TryBlock(env).exit
  {
  }

  /** A `try` block that gets past the folder scan goes through every file and logs completion. */
  lemma TryBlockCompletes(env: Env)
    requires env.folder.Some? && env.logFile.Some? && env.scan.Some?
    ensures var files := GetRevitFiles(env.scan.value);
      TryBlock(env) == Trace(LoopCalls(files, PlaceholderPath(env), env.outcome, |files|),
                             Some(CompletedLog(files, env.outcome)),
                             Finished)
  {
  }

  /** Wrapping a block between two calls, after a prefix, regroups without reordering. */
  lemma Bracket<T>(a: seq<T>, b: seq<T>, c: seq<T>, open: T, close: T)
    ensures a + b + [open] + c + [close] == a + (b + [open] + c + [close])
  {
  }

  lemma Regroup<T>(a: seq<T>, b: seq<T>, c: seq<T>)
    ensures a + b + c == a + (b + c)
  {
  }

  class UpgradeVersionCommand {
    var placeHolderPath: string
    var logger: FileLogger?
    var calls: seq<Call>

    constructor ()
      ensures placeHolderPath == [] && logger == null && calls == []
    {
      placeHolderPath := [];
      logger := null;
      calls := [];
    }

    /** `Execute`. */
    method Execute(env: Env) returns (exit: Exit)
      modifies this, logger
      ensures exit == Run(env).exit
      ensures calls == old(calls) + Run(env).calls
      ensures placeHolderPath == PlaceholderPath(env)
      ensures Run(env).log.Some? ==>
        logger != null && fresh(logger) && logger.closed &&
        logger.path == LogFilePath(env.folder.value) && logger.prior == env.logFile.value &&
        logger.entries == Stamp(Run(env).log.value, env.clock)
      ensures Run(env).log.None? ==> logger == old(logger)
      ensures old(logger) != null ==> old(logger).entries == old(logger.entries)
      ensures old(logger) != null ==>
        (old(logger).closed <==> old(logger.closed) || (!BootstrapFails(env) && Run(env).log.None?))
    {
      placeHolderPath := Combine(env.assemblyDir, PlaceHolderName);
      var ready := EnsurePlaceholder(env);
      if !ready {
        return Faulted(PlaceholderCreation);
      }
      RunAroundTry(env);
      Bracket(old(calls), BootstrapCalls(env), TryBlock(env).calls, Subscribe, Unsubscribe);
      calls := calls + [Subscribe];
      exit := UpgradeFolder(env);
      // finally
      calls := calls + [Unsubscribe];
      if logger != null {
        logger.Dispose();
      }
    }

    /** Create the placeholder document when it does not exist yet; `ready` is false when that throws. */
    method EnsurePlaceholder(env: Env) returns (ready: bool)
      requires placeHolderPath == PlaceholderPath(env)
      modifies this`calls
      ensures ready == !BootstrapFails(env)
      ensures calls == old(calls) + BootstrapCalls(env)
    {
      if !env.placeholderExists {
        calls := calls + [NewProjectDocument];
        if env.bootstrap == NewProjectThrows {
          return false;
        }
        calls := calls + [SaveAs(placeHolderPath)];
        if env.bootstrap == SaveAsThrows {
          return false;
        }
      }
      ready := true;
    }

    /** The body of the `try` block. */
    method UpgradeFolder(env: Env) returns (exit: Exit)
      requires placeHolderPath == PlaceholderPath(env)
      modifies this
      ensures exit == TryBlock(env).exit
      ensures calls == old(calls) + TryBlock(env).calls
      ensures placeHolderPath == old(placeHolderPath)
      ensures TryBlock(env).log.None? ==> logger == old(logger)
      ensures TryBlock(env).log.Some? ==>
        logger != null && fresh(logger) && !logger.closed &&
        logger.path == LogFilePath(env.folder.value) && logger.prior == env.logFile.value &&
        logger.entries == Stamp(TryBlock(env).log.value, env.clock)
    {
      if env.folder.None? {
        return Cancelled;
      }
      var selectedFolder := env.folder.value;
      if env.logFile.None? {
        return Faulted(LogCreation);
      }
      logger := new FileLogger(selectedFolder, env.logFile.value);
      logger.Log(env.clock(0), StartMessage);
      StampAppend([], StartMessage, env.clock);
      if env.scan.None? {
        return Faulted(FolderScan);
      }
      var revitFiles := GetRevitFiles(env.scan.value);
      var n := |revitFiles|;
      TryBlockCompletes(env);
      Report([StartMessage], FoundMessage(n), env.clock);
      UpgradeFiles([StartMessage, FoundMessage(n)], revitFiles, env.outcome, env.clock);
      Report([StartMessage, FoundMessage(n)] + FileMessages(revitFiles, env.outcome, n), DoneMessage, env.clock);
      exit := Finished;
    }

    /** The `for` loop over the eligible files; `head` is what was logged before it. */
    method UpgradeFiles(ghost head: seq<string>, files: seq<string>, outcome: nat -> Outcome, clock: nat -> DateTime)
      requires logger != null && !logger.closed && logger.entries == Stamp(head, clock)
      modifies this`calls, logger
      ensures !logger.closed
      ensures logger.entries == Stamp(head + FileMessages(files, outcome, |files|), clock)
      ensures calls == old(calls) + LoopCalls(files, placeHolderPath, outcome, |files|)
    {
      for i := 0 to |files|
        invariant !logger.closed
        invariant logger.entries == Stamp(head + FileMessages(files, outcome, i), clock)
        invariant calls == old(calls) + LoopCalls(files, placeHolderPath, outcome, i)
      {
        UpgradeFile(head + FileMessages(files, outcome, i), i, |files|, files[i], outcome(i), clock);
        Regroup(head, FileMessages(files, outcome, i),
                [ProcessingMessage(i, |files|, files[i]), TerminalMessage(i, |files|, files[i], outcome(i))]);
        Regroup(old(calls), LoopCalls(files, placeHolderPath, outcome, i),
                FileCalls(files[i], placeHolderPath, outcome(i)));
      }
    }

    /** One iteration of the per-file loop, with its own `try`/`catch`. */
    method UpgradeFile(ghost logged: seq<string>, i: nat, n: nat, revitFile: string, o: Outcome, clock: nat -> DateTime)
      requires logger != null && !logger.closed && logger.entries == Stamp(logged, clock)
      modifies this`calls, logger
      ensures !logger.closed
      ensures logger.entries ==
        Stamp(logged + [ProcessingMessage(i, n, revitFile), TerminalMessage(i, n, revitFile, o)], clock)
      ensures calls == old(calls) + FileCalls(revitFile, placeHolderPath, o)
    {
      Report(logged, ProcessingMessage(i, n, revitFile), clock);
      calls := calls + [OpenAndActivate(revitFile)];
      var failure: Option<string>;
      if FailsAt(o, OpenFile) {
        failure := Some(o.message);
      } else {
        failure := CloseCurrentView(o);
      }
      if failure.None? {
        Report(logged + [ProcessingMessage(i, n, revitFile)], CompletedMessage(i, n, revitFile), clock);
      } else {
        var text := ErrorMessage(revitFile, failure.value);
        Report(logged + [ProcessingMessage(i, n, revitFile)], text, clock);
        calls := calls + [ShowError(text)];
      }
    }

    /** `UpdateProgress` on a live logger, seen as extending the stamped list of logged messages. */
    method Report(ghost logged: seq<string>, message: string, clock: nat -> DateTime)
      requires logger != null && !logger.closed && logger.entries == Stamp(logged, clock)
      modifies logger
      ensures !logger.closed && logger.entries == Stamp(logged + [message], clock)
    {
      UpdateProgress(message, clock);
      StampAppend(logged, message, clock);
    }

    /** `UpdateProgress`: log the message when there is a logger, do nothing otherwise. */
    method UpdateProgress(message: string, clock: nat -> DateTime)
      requires logger != null ==> !logger.closed
      modifies logger
      ensures logger != null ==> !logger.closed
      ensures logger != null ==>
        logger.entries == old(logger.entries) + [FormatLine(Timestamp(clock(|old(logger.entries)|)), message)]
    {
      if logger != null {
        logger.Log(clock(|logger.entries|), message);
      }
    }

    /** `CloseCurrentView`: swap the active document for the placeholder, closing it with `save = true`. */
    method CloseCurrentView(o: Outcome) returns (failure: Option<string>)
      modifies this`calls
      ensures ActiveDocument(old(calls)).None? ==>
        calls == old(calls) && failure == Some(NullReferenceMessage)
      ensures ActiveDocument(old(calls)).Some? ==>
        calls == old(calls) + SwapCalls(ActiveDocument(old(calls)).value, placeHolderPath, o) &&
        failure == SwapFailure(o)
    {
      var active := ActiveDocument(calls);
      if active.None? {
        return Some(NullReferenceMessage);
      }
      calls := calls + [OpenAndActivate(placeHolderPath)];
      if FailsAt(o, ActivatePlaceholder) {
        return Some(o.message);
      }
      calls := calls + [Close(active.value, true)];
      if FailsAt(o, CloseFile) {
        return Some(o.message);
      }
      failure := None;
    }
  }
}
