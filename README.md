# UpgradeVersion, modelled in Dafny

UpgradeVersion is a Revit external command. It upgrades every Revit model in a folder tree to the running Revit version. It does this by opening each model and then closing it with `save = true`, after activating a blank placeholder document in its place. This project models the command's core:

- `UpgradeVersionCommand.Execute`:
  - bootstrap the placeholder document;
  - register the dialog handler;
  - pick a folder and open the log;
  - scan and filter the folder;
  - run the per-file loop with its own `try`/`catch`;
  - in the `finally`, unregister the handler and dispose the logger.
- `UpdateProgress` and `CloseCurrentView`.
- The `DialogBoxShowing` handler, as a decision table.
- The `GetRevitFiles` filter for backups and the placeholder.
- `FileLogger`, which appends one `[yyyy-MM-dd HH:mm:ss] message` line per call.

Modules, one file each:

- `Wrappers` (`wrappers.dfy`): `Option`.
- `Decimal` (`decimal.dfy`): how .NET prints a non-negative integer, plain and zero-padded, and how such text is read back.
- `Paths` (`paths.dfy`): `Path.Combine`, `Path.GetFileName` and `Path.GetFileNameWithoutExtension` with `\` and `/` as separators.
- `Logging` (`file_logger.dfy`): the timestamp and line format, and the class `FileLogger`.
- `Discovery` (`discovery.dfy`): the backup pattern, the placeholder test and the order-preserving `Where` filter behind `GetRevitFiles`.
- `DialogPolicy` (`dialog_policy.dfy`): `ApplicationOnDialogBoxShowing`.
- `Upgrade` (`upgrade_command.dfy`): the host oracle `Env`, the calls the command makes (`Call`), the spec function `Run`, and the class `UpgradeVersionCommand`.
  - Its methods follow the C# control flow: `Execute`, the `try` body `UpgradeFolder`, the loop `UpgradeFiles`, one iteration `UpgradeFile`, `UpdateProgress` and `CloseCurrentView`.
  - Each method is proved against `Run`.
- `UpgradeProperties` (`upgrade_properties.dfy`): what every run guarantees, stated over `Run` and proved once.

The host is an input. `Env` supplies:

- whether the placeholder exists, and whether creating it throws;
- the folder dialog's choice;
- whether the log file opens, and what it already holds;
- the result of the recursive `*.rvt` scan;
- each file's outcome, by index: upgraded, or failed at a named step with an exception message;
- the clock reading for each log line.

The command's host calls are recorded, in order, in the field `calls`. Registering and unregistering the handler are the calls `Subscribe` and `Unsubscribe`. The error `MessageBox` is the call `ShowError`.

`PlaceHolderName` is evidently meant to keep the placeholder document out of the batch. The filter follows the code:

- The test asks whether the file name *without its extension* contains `placeholder.rvt` anywhere. `Discovery.EligibleNameIff` states the exact rule: a stripped name is kept iff it does not contain `placeholder.rvt` and does not end with `.` and four digits.
- So `placeholder.rvt` itself, whose stripped name is `placeholder`, is kept (`Discovery.PlaceholderFileIsKept`, `Discovery.FolderExample`).
- A file is dropped by this test whenever its stripped name contains `placeholder.rvt`. Examples are `placeholder.rvt.rvt`, `x.placeholder.rvt.rvt` and `myplaceholder.rvt2.rvt` (`Discovery.PlaceholderTestExamples`).

## Model

| member | source | states |
|---|---|---|
| Discovery.BackupMatchIffDotFourSuffix | Commands/UpgradeVersionCommand.cs:114 | the regex `\.\d{4}(\.\d{4})?$` matches a name iff the name ends with `.` and four digits |
| Discovery.OptionalGroupRedundant | Commands/UpgradeVersionCommand.cs:114 | dropping the optional second `.dddd` group never changes whether the regex matches |
| Discovery.EligibleNameIff | Commands/UpgradeVersionCommand.cs:112-114 | an extension-stripped name is kept iff it does not contain `placeholder.rvt` and does not end with `.dddd` |
| Discovery.ContainsIffOccurs | Commands/UpgradeVersionCommand.cs:114 | `Contains` holds iff the substring occurs at some index |
| Discovery.GetRevitFiles | Commands/UpgradeVersionCommand.cs:104-118 | the filtered list is no longer than the scan |
| Discovery.WhereKeepsOnlyAccepted | Commands/UpgradeVersionCommand.cs:110-115 | every kept file was scanned and passes the filter |
| Discovery.WhereIsSubsequence | Commands/UpgradeVersionCommand.cs:110-115 | the kept files are a subsequence of the scan, so scan order is kept |
| Discovery.WhereCounts | Commands/UpgradeVersionCommand.cs:110-115 | each accepted file is kept as often as it was scanned and each rejected one never, so nothing is added or duplicated |
| Discovery.WhereIdempotent | Commands/UpgradeVersionCommand.cs:110-115 | filtering the filtered list changes nothing |
| Discovery.WhereAppend | Commands/UpgradeVersionCommand.cs:110-115 | filtering a concatenation is the concatenation of the filtered parts |
| Discovery.PlaceholderFileIsKept | Commands/UpgradeVersionCommand.cs:20 | the placeholder file itself, `dir\placeholder.rvt`, passes the filter |
| Discovery.PlaceholderNameIsKept | Commands/UpgradeVersionCommand.cs:112-114 | the stripped name `placeholder` passes the filter |
| Discovery.PlaceholderSuffixIsDropped | Commands/UpgradeVersionCommand.cs:114 | a stripped name ending in `.placeholder.rvt` is rejected |
| Discovery.DoubledExtensionIsDropped | Commands/UpgradeVersionCommand.cs:112-114 | a file `stem.placeholder.rvt.rvt` is rejected |
| Discovery.BackupFileIsDropped | Commands/UpgradeVersionCommand.cs:112-114 | a file whose stem ends with `.dddd` is rejected |
| Discovery.PlainFileIsKept | Commands/UpgradeVersionCommand.cs:112-114 | a file whose stem has neither pattern is kept |
| Discovery.EligibleByStem | Commands/UpgradeVersionCommand.cs:112-114 | for `dir\stem.rvt` the decision is the one on `stem` |
| Discovery.PlaceholderTestExamples | Commands/UpgradeVersionCommand.cs:112-114 | the stripped names `placeholder.rvt`, `x.placeholder.rvt` and `myplaceholder.rvt2` are rejected, since each contains `placeholder.rvt`; `placeholder` is kept |
| Discovery.BackupNameExamples | Commands/UpgradeVersionCommand.cs:109-114 | `a` and `a.12345` are kept; `a.0001` and `a.0001.0001` are rejected |
| Discovery.FolderExample | Commands/UpgradeVersionCommand.cs:104-118 | a scan of `a`, `a.0001`, `a.0001.0001` and `placeholder` (stripped names) yields exactly `a` and `placeholder`, in that order |
| Paths.Combine | Commands/UpgradeVersionCommand.cs:28 | a rooted name, or any name with an empty directory, is returned unchanged; an empty name gives the directory; otherwise the result is the directory, then the character `\` exactly when the directory does not already end in a separator, then the name |
| Paths.LastIndexOfIsLast | Commands/UpgradeVersionCommand.cs:112 | the index found is the last occurrence of the character |
| Paths.FileNameHasNoSeparator | Commands/UpgradeVersionCommand.cs:112 | a file name holds no separator |
| Paths.StemOfCombine | Commands/UpgradeVersionCommand.cs:112 | the name without extension of `Combine(dir, stem.ext)` is `stem` |
| Paths.FileNameOfCombine | Commands/FileLogger.cs:12 | the file name of `Combine(dir, name)` is `name` |
| Decimal.Show | Commands/UpgradeVersionCommand.cs:58 | a count is printed as a non-empty run of digits without a leading zero |
| Decimal.ShowRoundTrip | Commands/UpgradeVersionCommand.cs:63 | the printed number reads back as itself |
| Decimal.ShowInjective | Commands/UpgradeVersionCommand.cs:63 | two numbers that print the same are equal |
| Decimal.DigitRunUnique | Commands/UpgradeVersionCommand.cs:63 | a digit run followed by a non-digit splits a text in only one way |
| Decimal.ShowPaddedRoundTrip | Commands/FileLogger.cs:18 | a zero-padded field that fits its width reads back as itself |
| Logging.Timestamp | Commands/FileLogger.cs:18 | the timestamp is 19 characters: four, two and two digits joined by `-`, a space, then two-digit hour, minute and second joined by `:` |
| Logging.TimestampRoundTrip | Commands/FileLogger.cs:18 | every field of the date and time is read back from the timestamp |
| Logging.ParseLine | Commands/FileLogger.cs:19 | a line that parses is `[` timestamp `] ` message, for a well-formed timestamp |
| Logging.ParseFormatLine | Commands/FileLogger.cs:19 | each written line reads back as its timestamp and its message |
| Logging.StampedLinesParse | Commands/FileLogger.cs:16-19 | the k-th line written reads back as the k-th clock reading and the k-th message |
| Logging.StampAppend | Commands/FileLogger.cs:16-19 | logging one more message appends exactly its line and changes no earlier line |
| Logging.LogFilePath | Commands/FileLogger.cs:12 | the log path is the folder, then at most one separator, then the whole of `upgrade_log.txt`: the file sits directly in the folder |
| Logging.FileLogger.constructor | Commands/FileLogger.cs:10-14 | the path is the folder combined with `upgrade_log.txt`; the file's earlier lines are kept, since it is opened for append; nothing has been written yet |
| Logging.FileLogger.Log | Commands/FileLogger.cs:16-20 | exactly one `[timestamp] message` line is appended after all earlier ones; the file content (AutoFlush) equals the old content plus that line |
| Logging.FileLogger.Dispose | Commands/FileLogger.cs:22-25 | the logger is closed and no line is written |
| DialogPolicy.OnDialogBoxShowing | Commands/UpgradeVersionCommand.cs:91-102 | override 2 iff the id is one of the two missing-updater ids; override 1 iff it is the schema-conflict id; no override and no cancel for any other id; cancel iff the id is recognised and the dialog is cancellable |
| Upgrade.UpgradeVersionCommand.constructor | Commands/UpgradeVersionCommand.cs:18-23 | a fresh command has no placeholder path, no logger and has made no call |
| Upgrade.UpgradeVersionCommand.Execute | Commands/UpgradeVersionCommand.cs:25-84 | the exit, the calls made and the placeholder path are those of `Run`; when a log was opened, the logger is fresh and disposed, and its lines are `Run`'s log stamped by the clock, after the file's earlier lines; otherwise the logger is untouched, and a logger left from an earlier run is disposed by the `finally` |
| Upgrade.UpgradeVersionCommand.EnsurePlaceholder | Commands/UpgradeVersionCommand.cs:29-36 | a new project document is created and saved at the placeholder path exactly when the placeholder is missing; the result says whether that threw |
| Upgrade.UpgradeVersionCommand.UpgradeFolder | Commands/UpgradeVersionCommand.cs:41-78 | the exit, the calls and the log of the `try` block are those of `TryBlock`: cancel with no logger; a fault with no logger if the log cannot be opened; a fault after the start line if the scan throws; otherwise the full log |
| Upgrade.UpgradeVersionCommand.UpgradeFiles | Commands/UpgradeVersionCommand.cs:60-75 | after the loop the logger holds the earlier lines followed by two lines per file in order, and the calls are each file's calls in order |
| Upgrade.UpgradeVersionCommand.UpgradeFile | Commands/UpgradeVersionCommand.cs:62-74 | one iteration logs the processing line and then the completion or error line, and makes the open, swap and error-dialog calls its outcome calls for |
| Upgrade.UpgradeVersionCommand.Report | Commands/UpgradeVersionCommand.cs:86-89 | on a live logger, a progress message extends the stamped log by exactly that message |
| Upgrade.UpgradeVersionCommand.UpdateProgress | Commands/UpgradeVersionCommand.cs:86-89 | with a logger, exactly one stamped line is appended; the logger stays open |
| Upgrade.UpgradeVersionCommand.CloseCurrentView | Commands/UpgradeVersionCommand.cs:120-126 | the placeholder is activated before the active document is closed with `save = true`; a throw at either step is reported with its message; with no active document it throws a null reference and makes no call |
| UpgradeProperties.FirstLetters | Commands/UpgradeVersionCommand.cs:53-77 | each kind of log line starts with its own letter |
| UpgradeProperties.LineKinds | Commands/UpgradeVersionCommand.cs:63-72 | completion and error lines are terminal, processing and fixed lines are not, and only error lines are errors |
| UpgradeProperties.FileProgressInjective | Commands/UpgradeVersionCommand.cs:63 | a progress line determines its position and its file |
| UpgradeProperties.ProcessingDistinct | Commands/UpgradeVersionCommand.cs:63 | a processing line differs from every other kind of line and names one position and one file |
| UpgradeProperties.CompletedDistinct | Commands/UpgradeVersionCommand.cs:69 | a completion line differs from every other kind of line; it equals a terminal line only for the same file and position, upgraded |
| UpgradeProperties.FileMessagesLength | Commands/UpgradeVersionCommand.cs:60-75 | k files log 2k lines |
| UpgradeProperties.FileMessagesAt | Commands/UpgradeVersionCommand.cs:60-75 | line 2j is file j's processing line and line 2j+1 its terminal line |
| UpgradeProperties.LayoutFind | Commands/UpgradeVersionCommand.cs:53-77 | in a run log, a line other than the three fixed ones is found exactly at the file slots that hold it |
| UpgradeProperties.LayoutIsolation | Commands/UpgradeVersionCommand.cs:60-75 | two run logs that differ in one file's terminal line differ in that line only |
| UpgradeProperties.CompletedLogShape | Commands/UpgradeVersionCommand.cs:53-77 | the log of a run over n files is the start line, `Found n files to upgrade`, a processing and a terminal line per file in order, and the completion line: 2n + 3 lines |
| UpgradeProperties.LogShape | Commands/UpgradeVersionCommand.cs:53-77 | the log of a completed run has the 2n + 3 line shape for its n eligible files in scan order |
| UpgradeProperties.ProcessingUniqueIn | Commands/UpgradeVersionCommand.cs:63 | file i's processing line appears at position 2 + 2i and nowhere else |
| UpgradeProperties.ProcessingLineUnique | Commands/UpgradeVersionCommand.cs:60-63 | in a completed run, file i's processing line appears once, at 2 + 2i |
| UpgradeProperties.CompletedUniqueIn | Commands/UpgradeVersionCommand.cs:69 | file i's completion line appears iff the file was upgraded, at 3 + 2i, right after its processing line |
| UpgradeProperties.CompletedLineUnique | Commands/UpgradeVersionCommand.cs:60-72 | in a completed run, file i's completion line appears once, right after its processing line, iff it was upgraded |
| UpgradeProperties.IsolationIn | Commands/UpgradeVersionCommand.cs:60-75 | changing one file's outcome changes its terminal line and no other line |
| UpgradeProperties.FailureIsolation | Commands/UpgradeVersionCommand.cs:60-75 | whatever file i's outcome, the same files are processed and every other log line is unchanged; a failure never stops the files after it |
| UpgradeProperties.CountTwoMore | Commands/UpgradeVersionCommand.cs:60-75 | counting over a list extended by two lines counts each of them |
| UpgradeProperties.FileTerminalLines | Commands/UpgradeVersionCommand.cs:60-75 | k files log k terminal lines, and as many error lines as failures |
| UpgradeProperties.CompletedLogCounts | Commands/UpgradeVersionCommand.cs:53-77 | the run log holds one terminal line per file and one error line per failure |
| UpgradeProperties.TerminalLineCounts | Commands/UpgradeVersionCommand.cs:60-75 | a completed run logs one terminal line per eligible file and one error line per failed file |
| Discovery.WhereNone | Commands/UpgradeVersionCommand.cs:110-115 | filtering a list with no accepted element yields nothing |
| UpgradeProperties.LoopCallsAreFileCalls | Commands/UpgradeVersionCommand.cs:60-75 | the loop only opens, closes and shows errors |
| UpgradeProperties.TryCallsAreFileCalls | Commands/UpgradeVersionCommand.cs:41-78 | the `try` block only opens, closes and shows errors |
| UpgradeProperties.RunCalls | Commands/UpgradeVersionCommand.cs:25-84 | a run that registers the handler makes bootstrap calls, then the registration, then file calls, then the unregistration |
| UpgradeProperties.BracketIn | Commands/UpgradeVersionCommand.cs:39-83 | in such a call list, registration and unregistration occur once each, around every opened document |
| UpgradeProperties.HandlerBrackets | Commands/UpgradeVersionCommand.cs:29-83 | with the placeholder in place, the handler is registered once right after the bootstrap and unregistered once as the very last call on every exit path, and every document is opened in between; if the bootstrap throws, only bootstrap calls are made |
| UpgradeProperties.PlaceholderCreatedIffMissing | Commands/UpgradeVersionCommand.cs:29-36 | a new project document is created iff the placeholder is missing, as the first call, and saved at the placeholder path iff creating it did not throw |
| UpgradeProperties.LoopCallsOpen | Commands/UpgradeVersionCommand.cs:60-66 | the loop opens every file it reaches |
| UpgradeProperties.EveryFileOpened | Commands/UpgradeVersionCommand.cs:60-66 | a completed run opens every eligible file, whatever the outcomes of the files before it |
| UpgradeProperties.ClosesAfterSwapAppend | Commands/UpgradeVersionCommand.cs:120-126 | joining two call lists in which every close saves right after a placeholder activation keeps that property |
| UpgradeProperties.LoopClosesAfterSwap | Commands/UpgradeVersionCommand.cs:120-126 | in the loop's calls, every close saves and comes right after the placeholder was activated |
| UpgradeProperties.RunClosesAfterSwap | Commands/UpgradeVersionCommand.cs:120-126 | in any run, every document closed is saved, right after the placeholder was activated |
| UpgradeProperties.FileCallsNotices | Commands/UpgradeVersionCommand.cs:71-74 | one file shows an error dialog iff it fails |
| UpgradeProperties.LoopNotices | Commands/UpgradeVersionCommand.cs:60-75 | the loop shows one error dialog per failed file |
| UpgradeProperties.NoticesIn | Commands/UpgradeVersionCommand.cs:38-83 | the bootstrap and the handler registration show no error dialog |
| UpgradeProperties.NoticePerFailure | Commands/UpgradeVersionCommand.cs:71-74 | a completed run shows exactly one error dialog per failed file |
| UpgradeProperties.CancelledRunLogsNothing | Commands/UpgradeVersionCommand.cs:45-47 | when the folder dialog is cancelled, no logger is created, nothing is logged, no document is opened, and the run ends as cancelled |
| UpgradeProperties.FoundTwo | Commands/UpgradeVersionCommand.cs:58 | two files are announced as `Found 2 files to upgrade` |
| UpgradeProperties.ProgressOneOfTwo | Commands/UpgradeVersionCommand.cs:63-69 | the first of two files logs `Processing file 1/2: f` and `Completed file 1/2: f` |
| UpgradeProperties.ProgressTwoOfTwo | Commands/UpgradeVersionCommand.cs:63-69 | the second of two files logs `Processing file 2/2: f` and `Completed file 2/2: f` |
| Discovery.KeepOuter | Commands/UpgradeVersionCommand.cs:110-115 | filtering two accepted files around any run of rejected ones keeps exactly the two, in order |
| UpgradeProperties.ExampleLog | Commands/UpgradeVersionCommand.cs:53-77 | the run log for two upgraded files is the seven expected lines |
| UpgradeProperties.ExampleRun | Commands/UpgradeVersionCommand.cs:25-84 | a folder with two eligible models around a backup, both upgraded, ends normally with exactly the seven expected lines |

## Left out

- Revit calls (`NewProjectDocument`, `SaveAs`, `OpenAndActivateDocument`, `Document.Close`, `ActiveUIDocument`) are recorded as calls. Their effects are the oracle's per-file outcome, so nothing about what the host does to a model is claimed.
- The active document is taken to be the one most recently opened and activated through the command. Documents the user had open before the run are not modelled.
- The folder dialog is an `Option` input. Its title, initial directory and disposal are not modelled.
- The `MessageBox` is the call `ShowError` with the dialog's text. Its caption, buttons and icon are not modelled, and neither is the user dismissing it.
- `Directory.GetFiles` is an input list. Its traversal order is not modelled, and neither is the wildcard quirk by which `*.rvt` also matches longer extensions such as `.rvtx`.
- `File.Exists`, `Directory.CreateDirectory` and the assembly's location are inputs. So is whether the placeholder's creation throws. A missing directory is assumed to be created.
- `DateTime.Now` is an input clock, indexed by log line.
- Logging.Timestamp: prints the Gregorian year, month and day. `DateTime.ToString("yyyy-MM-dd HH:mm:ss")` prints the fields of the current culture's calendar, so a culture such as th-TH prints the Thai Buddhist year; culture calendars are not modelled. The `:` of the format is written as `:`; .NET substitutes the culture's time separator there.
- `\d` in .NET matches every Unicode decimal digit; the model accepts ASCII digits only. `$` in .NET also matches before a final newline; file names are taken to hold none.
- Upgrade.UpgradeVersionCommand.Execute: assumes that unregistering the dialog handler in the `finally` never throws. In the source a throw there would skip `_logger?.Dispose()`, and the logger would stay open; the postcondition that a created logger ends disposed relies on this assumption.
- `Path.Combine` rejecting invalid path characters, and drive-relative paths, are not modelled.
- An exception thrown by `UpdateProgress` or `MessageBox.Show` inside the per-file `catch` would leave the loop. The model assumes those calls succeed once the log file is open.
- `StreamWriter` I/O errors after opening, encodings and line terminators are not modelled. A line is one `string` entry.
- Discovery.GetRevitFiles: its own contract states only that the list does not grow. Order, membership and multiplicity are stated by `WhereIsSubsequence`, `WhereKeepsOnlyAccepted` and `WhereCounts`.
- Upgrade.UpgradeVersionCommand.CloseCurrentView: the case with no active document never arises in a run, because the loop opens a file before calling it. The model reports it as the null-reference exception the source would throw.
