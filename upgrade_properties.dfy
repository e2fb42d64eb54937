/**
 * What a run of `Execute` guarantees, stated over `Run`: the shape of the
 * progress log, the one-to-one match between files and their progress lines,
 * the isolation of one file's failure, the bracketing of the whole run by the
 * dialog handler's registration, and the bootstrap of the placeholder.
 *
 * Each property is proved once over plain sequences (the eligible files, the
 * calls of a block) and then read off a run.
 */
module UpgradeProperties {
  import opened Wrappers
  import opened Decimal
  import opened Logging
  import opened Discovery
  import opened Upgrade

  predicate StartsWith(s: string, prefix: string) {
    |prefix| <= |s| && s[..|prefix|] == prefix
  }

  /** A line that reports a file's failure. */
  predicate IsErrorLine(line: string) {
    StartsWith(line, ErrorPrefix)
  }

  /** A line that ends one file's attempt: its completion or its failure. */
  predicate IsTerminalLine(line: string) {
    StartsWith(line, CompletedPrefix) || IsErrorLine(line)
  }

  /** A call that shows the user an error dialog. */
  predicate IsNotice(c: Call) {
    c.ShowError?
  }

  /** A call made while processing files. */
  predicate IsFileCall(c: Call) {
    c.OpenAndActivate? || c.Close? || c.ShowError?
  }

  /** A call made to create the placeholder. */
  predicate IsBootstrapCall(c: Call) {
    c.NewProjectDocument? || c.SaveAs?
  }

  /** A run that gets through the whole folder: placeholder ready, folder chosen, log opened, folder scanned. */
  predicate Completes(env: Env) {
    !BootstrapFails(env) && env.folder.Some? && env.logFile.Some? && env.scan.Some?
  }

  function Files(env: Env): seq<string>
    requires env.scan.Some?
  {
    GetRevitFiles(env.scan.value)
  }

  function Log(env: Env): seq<string>
    requires Completes(env)
  {
    Run(env).log.value
  }

  /** How many of the first k files fail. */
  function Failures(outcome: nat -> Outcome, k: nat): nat {
    if k == 0 then 0 else Failures(outcome, k - 1) + (if outcome(k - 1).Failed? then 1 else 0)
  }

  /** The same run, except that the file at index i has the outcome o. */
  function WithOutcome(env: Env, i: nat, o: Outcome): Env {
    env.(outcome := (j: nat) => if j == i then o else env.outcome(j))
  }

  // ---------------------------------------------------------------- lines

  /** Every kind of log line starts with its own letter. */
  lemma FirstLetters(i: nat, n: nat, file: string, message: string)
    ensures StartMessage[0] == 'S' && FoundMessage(n)[0] == 'F' && DoneMessage[0] == 'U'
    ensures ProcessingMessage(i, n, file)[0] == 'P' && CompletedMessage(i, n, file)[0] == 'C'
    ensures ErrorMessage(file, message)[0] == 'E'
  {
    assert ProcessingPrefix[0] == 'P' && CompletedPrefix[0] == 'C' && ErrorPrefix[0] == 'E';
  }

  lemma PrefixOfAppend(p: string, t: string)
    ensures StartsWith(p + t, p)
  {
    assert (p + t)[..|p|] == p;
  }

  /** Exactly the completion and error lines are terminal, and exactly the error lines are errors. */
  lemma LineKinds(i: nat, n: nat, file: string, message: string)
    ensures IsTerminalLine(CompletedMessage(i, n, file)) && !IsErrorLine(CompletedMessage(i, n, file))
    ensures IsTerminalLine(ErrorMessage(file, message)) && IsErrorLine(ErrorMessage(file, message))
    ensures !IsTerminalLine(ProcessingMessage(i, n, file))
    ensures !IsTerminalLine(StartMessage) && !IsTerminalLine(FoundMessage(n)) && !IsTerminalLine(DoneMessage)
  {
    FirstLetters(i, n, file, message);
    PrefixOfAppend(CompletedPrefix, Show(i + 1) + ("/" + Show(n) + ": " + file));
    PrefixOfAppend(ErrorPrefix, file + ": " + message);
    assert CompletedPrefix[0] == 'C' && ErrorPrefix[0] == 'E';
  }

  /** A progress line names its position and its file unambiguously. */
  lemma FileProgressInjective(prefix: string, i: nat, j: nat, n: nat, f: string, g: string)
    requires FileProgress(prefix, i, n, f) == FileProgress(prefix, j, n, g)
    ensures i == j && f == g
  {
    var t1 := "/" + Show(n) + ": " + f;
    var t2 := "/" + Show(n) + ": " + g;
    assert Show(i + 1) + t1 == FileProgress(prefix, i, n, f)[|prefix|..];
    assert Show(j + 1) + t2 == FileProgress(prefix, j, n, g)[|prefix|..];
    DigitRunUnique(Show(i + 1), t1, Show(j + 1), t2);
    ShowInjective(i + 1, j + 1);
    var sep := "/" + Show(n) + ": ";
    assert f == t1[|sep|..] && g == t2[|sep|..];
  }

  /** A processing line is no other kind of line, and names one file at one position. */
  lemma ProcessingDistinct(i: nat, j: nat, n: nat, f: string, g: string, o: Outcome)
    ensures ProcessingMessage(i, n, f) != StartMessage && ProcessingMessage(i, n, f) != FoundMessage(n)
    ensures ProcessingMessage(i, n, f) != DoneMessage
    ensures ProcessingMessage(i, n, f) != TerminalMessage(j, n, g, o)
    ensures ProcessingMessage(i, n, f) == ProcessingMessage(j, n, g) ==> i == j && f == g
  {
    FirstLetters(i, n, f, "");
    FirstLetters(j, n, g, if o.Failed? then o.message else "");
    if ProcessingMessage(i, n, f) == ProcessingMessage(j, n, g) {
      FileProgressInjective(ProcessingPrefix, i, j, n, f, g);
    }
  }

  /** A completion line is no other kind of line, and names one file at one position. */
  lemma CompletedDistinct(i: nat, j: nat, n: nat, f: string, g: string, o: Outcome)
    ensures CompletedMessage(i, n, f) != StartMessage && CompletedMessage(i, n, f) != FoundMessage(n)
    ensures CompletedMessage(i, n, f) != DoneMessage
    ensures CompletedMessage(i, n, f) != ProcessingMessage(j, n, g)
    ensures CompletedMessage(i, n, f) == TerminalMessage(j, n, g, o) ==> o.Upgraded? && i == j && f == g
  {
    FirstLetters(i, n, f, "");
    FirstLetters(j, n, g, if o.Failed? then o.message else "");
    if CompletedMessage(i, n, f) == TerminalMessage(j, n, g, o) && o.Upgraded? {
      FileProgressInjective(CompletedPrefix, i, j, n, f, g);
    }
  }

  // ---------------------------------------------------------------- the log

  lemma {:induction false} FileMessagesLength(files: seq<string>, outcome: nat -> Outcome, k: nat)
    requires k <= |files|
    ensures |FileMessages(files, outcome, k)| == 2 * k
  {
    if k > 0 {
      FileMessagesLength(files, outcome, k - 1);
    }
  }

  lemma {:induction false} FileMessagesAt(files: seq<string>, outcome: nat -> Outcome, k: nat, j: nat)
    requires j < k <= |files|
    ensures |FileMessages(files, outcome, k)| == 2 * k
    ensures FileMessages(files, outcome, k)[2 * j] == ProcessingMessage(j, |files|, files[j])
    ensures FileMessages(files, outcome, k)[2 * j + 1] == TerminalMessage(j, |files|, files[j], outcome(j))
  {
    FileMessagesLength(files, outcome, k);
    FileMessagesLength(files, outcome, k - 1);
    if j < k - 1 {
      FileMessagesAt(files, outcome, k - 1, j);
    }
  }

  /**
   * The layout of a run log over n files, whatever its lines are: a first and
   * a second line, then a processing line and a terminal line per file in
   * order, then a last line.
   */
  ghost predicate Layout<L>(m: seq<L>, n: nat, first: L, second: L, last: L, proc: nat -> L, term: nat -> L) {
    |m| == 2 * n + 3 && m[0] == first && m[1] == second && m[2 * n + 2] == last &&
    forall j :: 0 <= j < n ==> m[2 + 2 * j] == proc(j) && m[3 + 2 * j] == term(j)
  }

  /** A line other than the three fixed ones sits exactly where a file line equal to it sits. */
  lemma LayoutFind<L>(m: seq<L>, n: nat, first: L, second: L, last: L, proc: nat -> L, term: nat -> L, x: L, k: nat)
    requires Layout(m, n, first, second, last, proc, term) && k < |m|
    requires x != first && x != second && x != last
    ensures m[k] == x <==>
      2 <= k < 2 * n + 2 && (if k % 2 == 0 then proc((k - 2) / 2) else term((k - 2) / 2)) == x
  {
    if 2 <= k < 2 * n + 2 {
      var j := (k - 2) / 2;
      assert m[2 + 2 * j] == proc(j) && m[3 + 2 * j] == term(j);
    }
  }

  /** Two logs laid out alike that differ only in file i's terminal line differ only at position 3 + 2i. */
  lemma LayoutIsolation<L>(m1: seq<L>, m2: seq<L>, n: nat, first: L, second: L, last: L,
                           proc: nat -> L, t1: nat -> L, t2: nat -> L, i: nat)
    requires Layout(m1, n, first, second, last, proc, t1) && Layout(m2, n, first, second, last, proc, t2)
    requires i < n && forall j :: 0 <= j < n && j != i ==> t1(j) == t2(j)
    ensures |m1| == |m2| && m2[3 + 2 * i] == t2(i)
    ensures forall k :: 0 <= k < |m1| && k != 3 + 2 * i ==> m2[k] == m1[k]
  {
    forall k | 0 <= k < |m1| && k != 3 + 2 * i
      ensures m2[k] == m1[k]
    {
      if 2 <= k < 2 * n + 2 {
        var j := (k - 2) / 2;
        assert m1[2 + 2 * j] == proc(j) && m2[2 + 2 * j] == proc(j);
        assert m1[3 + 2 * j] == t1(j) && m2[3 + 2 * j] == t2(j);
      }
    }
  }

  /** The processing line of each file, by index. */
  function Procs(files: seq<string>): nat -> string {
    (j: nat) => if j < |files| then ProcessingMessage(j, |files|, files[j]) else ""
  }

  /** The terminal line of each file, by index: its completion or its error. */
  function Terms(files: seq<string>, outcome: nat -> Outcome): nat -> string {
    (j: nat) => if j < |files| then TerminalMessage(j, |files|, files[j], outcome(j)) else ""
  }

  /**
   * The log of a run over `files`: the start line, the count of files, a
   * processing line and a terminal line per file in order, and the completion
   * line; the terminal line is the completion or the error the file's outcome
   * calls for.
   */
  predicate IsRunLog(m: seq<string>, files: seq<string>, outcome: nat -> Outcome) {
    var n := |files|;
    |m| == 2 * n + 3 && m[0] == StartMessage && m[1] == FoundMessage(n) && m[2 * n + 2] == DoneMessage &&
    forall j :: 0 <= j < n ==>
      m[2 + 2 * j] == ProcessingMessage(j, n, files[j]) &&
      m[3 + 2 * j] == TerminalMessage(j, n, files[j], outcome(j))
  }

  lemma RunLogLayout(m: seq<string>, files: seq<string>, outcome: nat -> Outcome)
    requires IsRunLog(m, files, outcome)
    ensures Layout(m, |files|, StartMessage, FoundMessage(|files|), DoneMessage, Procs(files), Terms(files, outcome))
  {
    forall j | 0 <= j < |files|
      ensures m[2 + 2 * j] == Procs(files)(j) && m[3 + 2 * j] == Terms(files, outcome)(j)
    {
    }
  }

  lemma CompletedLogShape(files: seq<string>, outcome: nat -> Outcome)
    ensures IsRunLog(CompletedLog(files, outcome), files, outcome)
  {
    var n := |files|;
    var body := FileMessages(files, outcome, n);
    var m := CompletedLog(files, outcome);
    FileMessagesLength(files, outcome, n);
    forall j | 0 <= j < n
      ensures m[2 + 2 * j] == ProcessingMessage(j, n, files[j])
      ensures m[3 + 2 * j] == TerminalMessage(j, n, files[j], outcome(j))
    {
      FileMessagesAt(files, outcome, n, j);
      assert m[2 + 2 * j] == body[2 * j];
      assert m[3 + 2 * j] == body[2 * j + 1];
    }
  }

  /** A completed run logs what `CompletedLog` says for the eligible files. */
  lemma LogIs(env: Env)
    requires Completes(env)
    ensures Log(env) == CompletedLog(Files(env), env.outcome)
  {
    TryBlockCompletes(env);
    RunAroundTry(env);
  }

  /** A completed run logs 2n + 3 lines, laid out as `IsRunLog` says, for the n eligible files in scan order. */
  lemma LogShape(env: Env)
    requires Completes(env)
    ensures IsRunLog(Log(env), Files(env), env.outcome)
  {
    LogIs(env);
    CompletedLogShape(Files(env), env.outcome);
  }

  lemma ProcessingUniqueIn(m: seq<string>, files: seq<string>, outcome: nat -> Outcome, i: nat, k: nat)
    requires IsRunLog(m, files, outcome) && i < |files| && k < |m|
    ensures m[k] == ProcessingMessage(i, |files|, files[i]) <==> k == 2 + 2 * i
  {
    var n := |files|;
    var x := ProcessingMessage(i, n, files[i]);
    ProcessingDistinct(i, 0, n, files[i], files[i], Upgraded);
    RunLogLayout(m, files, outcome);
    LayoutFind(m, n, StartMessage, FoundMessage(n), DoneMessage, Procs(files), Terms(files, outcome), x, k);
    if 2 <= k < 2 * n + 2 {
      var j := (k - 2) / 2;
      ProcessingDistinct(i, j, n, files[i], files[j], outcome(j));
    }
  }

  /** The processing line of file i appears once, at position 2 + 2i. */
  lemma ProcessingLineUnique(env: Env, i: nat, k: nat)
    requires Completes(env) && i < |Files(env)| && k < |Log(env)|
    ensures Log(env)[k] == ProcessingMessage(i, |Files(env)|, Files(env)[i]) <==> k == 2 + 2 * i
  {
    LogShape(env);
    ProcessingUniqueIn(Log(env), Files(env), env.outcome, i, k);
  }

  lemma CompletedUniqueIn(m: seq<string>, files: seq<string>, outcome: nat -> Outcome, i: nat, k: nat)
    requires IsRunLog(m, files, outcome) && i < |files| && k < |m|
    ensures m[k] == CompletedMessage(i, |files|, files[i]) <==> k == 3 + 2 * i && outcome(i).Upgraded?
  {
    var n := |files|;
    var x := CompletedMessage(i, n, files[i]);
    CompletedDistinct(i, i, n, files[i], files[i], outcome(i));
    RunLogLayout(m, files, outcome);
    LayoutFind(m, n, StartMessage, FoundMessage(n), DoneMessage, Procs(files), Terms(files, outcome), x, k);
    if 2 <= k < 2 * n + 2 {
      var j := (k - 2) / 2;
      CompletedDistinct(i, j, n, files[i], files[j], outcome(j));
    }
  }

  /** The completion line of file i appears once, at position 3 + 2i, and only when the file was upgraded. */
  lemma CompletedLineUnique(env: Env, i: nat, k: nat)
    requires Completes(env) && i < |Files(env)| && k < |Log(env)|
    ensures Log(env)[k] == CompletedMessage(i, |Files(env)|, Files(env)[i]) <==>
      k == 3 + 2 * i && env.outcome(i).Upgraded?
  {
    LogShape(env);
    CompletedUniqueIn(Log(env), Files(env), env.outcome, i, k);
  }

  lemma IsolationIn(m1: seq<string>, m2: seq<string>, files: seq<string>, o1: nat -> Outcome, o2: nat -> Outcome, i: nat)
    requires IsRunLog(m1, files, o1) && IsRunLog(m2, files, o2) && i < |files|
    requires forall j: nat :: j != i ==> o1(j) == o2(j)
    ensures |m1| == |m2| && m2[3 + 2 * i] == TerminalMessage(i, |files|, files[i], o2(i))
    ensures forall k :: 0 <= k < |m1| && k != 3 + 2 * i ==> m2[k] == m1[k]
  {
    var n := |files|;
    var t1, t2 := Terms(files, o1), Terms(files, o2);
    forall j | 0 <= j < n && j != i
      ensures t1(j) == t2(j)
    {
      assert o1(j) == o2(j);
    }
    RunLogLayout(m1, files, o1);
    RunLogLayout(m2, files, o2);
    LayoutIsolation(m1, m2, n, StartMessage, FoundMessage(n), DoneMessage, Procs(files), t1, t2, i);
  }

  /**
   * One file's outcome affects only its own terminal line: changing it leaves
   * the files, the number of lines and every other line as they were, so a
   * failure never stops or changes the processing of the files after it.
   */
  lemma FailureIsolation(env: Env, i: nat, o: Outcome)
    requires Completes(env) && i < |Files(env)|
    ensures var env2 := WithOutcome(env, i, o);
      Completes(env2) && Files(env2) == Files(env) && |Log(env2)| == |Log(env)| &&
      |Log(env)| == 2 * |Files(env)| + 3 &&
      Log(env2)[3 + 2 * i] == TerminalMessage(i, |Files(env)|, Files(env)[i], o) &&
      forall k :: 0 <= k < |Log(env)| && k != 3 + 2 * i ==> Log(env2)[k] == Log(env)[k]
  {
    var env2 := WithOutcome(env, i, o);
    assert Files(env2) == Files(env);
    LogShape(env);
    LogShape(env2);
    IsolationIn(Log(env), Log(env2), Files(env), env.outcome, env2.outcome, i);
  }

  /** Filtering a list extended by two elements counts each of the two on its own. */
  lemma CountTwoMore<T>(xs: seq<T>, x: T, y: T, keep: T -> bool)
    ensures |Where(xs + [x, y], keep)| ==
      |Where(xs, keep)| + (if keep(x) then 1 else 0) + (if keep(y) then 1 else 0)
  {
    WhereAppend(xs, [x, y], keep);
    assert [x, y][1..] == [y];
  }

  lemma {:induction false} FileTerminalLines(files: seq<string>, outcome: nat -> Outcome, k: nat)
    requires k <= |files|
    ensures |Where(FileMessages(files, outcome, k), IsTerminalLine)| == k
    ensures |Where(FileMessages(files, outcome, k), IsErrorLine)| == Failures(outcome, k)
  {
    if k > 0 {
      FileTerminalLines(files, outcome, k - 1);
      var n := |files|;
      var f := files[k - 1];
      var o := outcome(k - 1);
      var p, t := ProcessingMessage(k - 1, n, f), TerminalMessage(k - 1, n, f, o);
      LineKinds(k - 1, n, f, if o.Failed? then o.message else "");
      assert IsTerminalLine(t) && !IsTerminalLine(p) && !IsErrorLine(p);
      assert IsErrorLine(t) <==> o.Failed?;
      CountTwoMore(FileMessages(files, outcome, k - 1), p, t, IsTerminalLine);
      CountTwoMore(FileMessages(files, outcome, k - 1), p, t, IsErrorLine);
    }
  }

  lemma CompletedLogCounts(files: seq<string>, outcome: nat -> Outcome)
    ensures |Where(CompletedLog(files, outcome), IsTerminalLine)| == |files|
    ensures |Where(CompletedLog(files, outcome), IsErrorLine)| == Failures(outcome, |files|)
  {
    var n := |files|;
    var head := [StartMessage, FoundMessage(n)];
    var body := FileMessages(files, outcome, n);
    FileTerminalLines(files, outcome, n);
    LineKinds(0, n, "", "");
    assert !IsErrorLine(StartMessage) && !IsErrorLine(FoundMessage(n)) && !IsErrorLine(DoneMessage);
    WhereAppend(head, body, IsTerminalLine);
    WhereAppend(head + body, [DoneMessage], IsTerminalLine);
    WhereAppend(head, body, IsErrorLine);
    WhereAppend(head + body, [DoneMessage], IsErrorLine);
  }

  /** A completed run logs exactly one terminal line per eligible file, and one error line per failed file. */
  lemma TerminalLineCounts(env: Env)
    requires Completes(env)
    ensures |Where(Log(env), IsTerminalLine)| == |Files(env)|
    ensures |Where(Log(env), IsErrorLine)| == Failures(env.outcome, |Files(env)|)
  {
    LogIs(env);
    CompletedLogCounts(Files(env), env.outcome);
  }

  // ---------------------------------------------------------------- the calls

  lemma {:induction false} LoopCallsAreFileCalls(files: seq<string>, placeholder: string, outcome: nat -> Outcome, k: nat)
    requires k <= |files|
    ensures forall c :: c in LoopCalls(files, placeholder, outcome, k) ==> IsFileCall(c)
  {
    if k > 0 {
      LoopCallsAreFileCalls(files, placeholder, outcome, k - 1);
    }
  }

  /** The calls of the `try` block, seen through the files the run processes. */
  lemma TryCalls(env: Env)
    ensures TryBlock(env).calls ==
      if env.folder.Some? && env.logFile.Some? && env.scan.Some?
      then LoopCalls(Files(env), PlaceholderPath(env), env.outcome, |Files(env)|)
      else []
  {
    if env.folder.Some? && env.logFile.Some? && env.scan.Some? {
      TryBlockCompletes(env);
    }
  }

  lemma TryCallsAreFileCalls(env: Env)
    ensures forall c :: c in TryBlock(env).calls ==> IsFileCall(c)
  {
    TryCalls(env);
    if env.folder.Some? && env.logFile.Some? && env.scan.Some? {
      LoopCallsAreFileCalls(Files(env), PlaceholderPath(env), env.outcome, |Files(env)|);
    }
  }

  /** The calls of a run that registers the handler: bootstrap, register, the `try` block, unregister. */
  lemma RunCalls(env: Env)
    requires !BootstrapFails(env)
    ensures Run(env).calls == BootstrapCalls(env) + [Subscribe] + TryBlock(env).calls + [Unsubscribe]
    ensures forall c :: c in BootstrapCalls(env) ==> IsBootstrapCall(c)
    ensures forall c :: c in TryBlock(env).calls ==> IsFileCall(c)
  {
    RunAroundTry(env);
    TryCallsAreFileCalls(env);
  }

  lemma BracketIn(b: seq<Call>, t: seq<Call>)
    requires forall c :: c in b ==> IsBootstrapCall(c)
    requires forall c :: c in t ==> IsFileCall(c)
    ensures var cs := b + [Subscribe] + t + [Unsubscribe];
      |cs| >= 2 && cs[|b|] == Subscribe && cs[|cs| - 1] == Unsubscribe &&
      multiset(cs)[Subscribe] == 1 && multiset(cs)[Unsubscribe] == 1 &&
      forall k :: 0 <= k < |cs| && cs[k].OpenAndActivate? ==> |b| < k < |cs| - 1
  {
    var cs := b + [Subscribe] + t + [Unsubscribe];
    assert Subscribe !in b && Unsubscribe !in b && Subscribe !in t && Unsubscribe !in t;
    assert multiset(b)[Subscribe] == 0 && multiset(t)[Subscribe] == 0;
    assert multiset(b)[Unsubscribe] == 0 && multiset(t)[Unsubscribe] == 0;
    forall k | 0 <= k < |b|
      ensures !cs[k].OpenAndActivate?
    {
      assert cs[k] == b[k] && b[k] in b;
    }
    forall k | 0 <= k < |cs| && cs[k].OpenAndActivate?
      ensures |b| < k < |cs| - 1
    {
    }
  }

  /**
   * The dialog handler is registered exactly once, right after the bootstrap,
   * and unregistered exactly once, as the very last call, whenever the
   * placeholder is in place, and every document is opened in between; when the
   * placeholder's creation throws, the handler is never registered and no
   * document is opened.
   */
  lemma HandlerBrackets(env: Env)
    ensures BootstrapFails(env) ==>
      forall c :: c in Run(env).calls ==> IsBootstrapCall(c)
    ensures !BootstrapFails(env) ==>
      var cs := Run(env).calls;
      |cs| >= 2 && cs[|BootstrapCalls(env)|] == Subscribe && cs[|cs| - 1] == Unsubscribe &&
      multiset(cs)[Subscribe] == 1 && multiset(cs)[Unsubscribe] == 1 &&
      forall k :: 0 <= k < |cs| && cs[k].OpenAndActivate? ==> |BootstrapCalls(env)| < k < |cs| - 1
  {
    if !BootstrapFails(env) {
      RunCalls(env);
      BracketIn(BootstrapCalls(env), TryBlock(env).calls);
    }
  }

  /**
   * The placeholder is created exactly when it is missing, first of all
   * calls: a new project document, saved at the placeholder path unless
   * creating the document threw.
   */
  lemma PlaceholderCreatedIffMissing(env: Env)
    ensures NewProjectDocument in Run(env).calls <==> !env.placeholderExists
    ensures SaveAs(PlaceholderPath(env)) in Run(env).calls <==>
      !env.placeholderExists && env.bootstrap != NewProjectThrows
    ensures !env.placeholderExists ==> Run(env).calls[0] == NewProjectDocument
  {
    if !BootstrapFails(env) {
      RunCalls(env);
      var t := TryBlock(env).calls;
      assert NewProjectDocument !in t && SaveAs(PlaceholderPath(env)) !in t;
    }
  }

  lemma {:induction false} LoopCallsOpen(files: seq<string>, placeholder: string, outcome: nat -> Outcome, k: nat, i: nat)
    requires i < k <= |files|
    ensures OpenAndActivate(files[i]) in LoopCalls(files, placeholder, outcome, k)
  {
    if i < k - 1 {
      LoopCallsOpen(files, placeholder, outcome, k - 1, i);
    } else {
      assert FileCalls(files[i], placeholder, outcome(i))[0] == OpenAndActivate(files[i]);
    }
  }

  /** Every eligible file is opened, whatever the outcomes of the files before it. */
  lemma EveryFileOpened(env: Env, i: nat)
    requires Completes(env) && i < |Files(env)|
    ensures OpenAndActivate(Files(env)[i]) in Run(env).calls
  {
    RunCalls(env);
    TryCalls(env);
    LoopCallsOpen(Files(env), PlaceholderPath(env), env.outcome, |Files(env)|, i);
  }

  /** Every close saves, and comes right after the placeholder was activated. */
  predicate ClosesAfterSwap(cs: seq<Call>, placeholder: string) {
    forall k :: 0 <= k < |cs| && cs[k].Close? ==>
      cs[k].save && 0 < k && cs[k - 1] == OpenAndActivate(placeholder)
  }

  lemma ClosesAfterSwapAppend(a: seq<Call>, b: seq<Call>, placeholder: string)
    requires ClosesAfterSwap(a, placeholder) && ClosesAfterSwap(b, placeholder)
    requires b != [] ==> !b[0].Close?
    ensures ClosesAfterSwap(a + b, placeholder)
  {
    var ab := a + b;
    forall k | 0 <= k < |ab| && ab[k].Close?
      ensures ab[k].save && 0 < k && ab[k - 1] == OpenAndActivate(placeholder)
    {
      if k >= |a| {
        assert ab[k] == b[k - |a|];
        if k > |a| {
          assert ab[k - 1] == b[k - 1 - |a|];
        }
      }
    }
  }

  lemma {:induction false} LoopClosesAfterSwap(files: seq<string>, placeholder: string, outcome: nat -> Outcome, k: nat)
    requires k <= |files|
    ensures ClosesAfterSwap(LoopCalls(files, placeholder, outcome, k), placeholder)
  {
    if k > 0 {
      LoopClosesAfterSwap(files, placeholder, outcome, k - 1);
      var f := files[k - 1];
      var o := outcome(k - 1);
      var block := FileCalls(f, placeholder, o);
      forall j | 0 <= j < |block| && block[j].Close?
        ensures block[j].save && 0 < j && block[j - 1] == OpenAndActivate(placeholder)
      {
        assert j == 2 && !FailsAt(o, OpenFile) && !FailsAt(o, ActivatePlaceholder);
      }
      ClosesAfterSwapAppend(LoopCalls(files, placeholder, outcome, k - 1), block, placeholder);
    }
  }

  /** Every document the run closes is saved, right after the placeholder was activated in its place. */
  lemma RunClosesAfterSwap(env: Env)
    ensures ClosesAfterSwap(Run(env).calls, PlaceholderPath(env))
  {
    var ph := PlaceholderPath(env);
    var t := TryBlock(env).calls;
    TryCalls(env);
    if env.folder.Some? && env.logFile.Some? && env.scan.Some? {
      LoopClosesAfterSwap(Files(env), ph, env.outcome, |Files(env)|);
    }
    assert ClosesAfterSwap(t, ph);
    if !BootstrapFails(env) {
      RunCalls(env);
      var b := BootstrapCalls(env);
      ClosesAfterSwapAppend(b, [Subscribe], ph);
      ClosesAfterSwapAppend(b + [Subscribe], t, ph);
      ClosesAfterSwapAppend(b + [Subscribe] + t, [Unsubscribe], ph);
    }
  }

  /** One file shows one error dialog when it fails and none otherwise. */
  lemma FileCallsNotices(file: string, placeholder: string, o: Outcome)
    ensures |Where(FileCalls(file, placeholder, o), IsNotice)| == if o.Failed? then 1 else 0
  {
    var handled := [OpenAndActivate(file)] + (if FailsAt(o, OpenFile) then [] else SwapCalls(file, placeholder, o));
    var report := if o.Failed? then [ShowError(ErrorMessage(file, o.message))] else [];
    WhereNone(handled, IsNotice);
    WhereAppend(handled, report, IsNotice);
  }

  lemma {:induction false} LoopNotices(files: seq<string>, placeholder: string, outcome: nat -> Outcome, k: nat)
    requires k <= |files|
    ensures |Where(LoopCalls(files, placeholder, outcome, k), IsNotice)| == Failures(outcome, k)
  {
    if k > 0 {
      LoopNotices(files, placeholder, outcome, k - 1);
      FileCallsNotices(files[k - 1], placeholder, outcome(k - 1));
      WhereAppend(LoopCalls(files, placeholder, outcome, k - 1), FileCalls(files[k - 1], placeholder, outcome(k - 1)), IsNotice);
    }
  }

  lemma NoticesIn(b: seq<Call>, t: seq<Call>)
    requires forall c :: c in b ==> IsBootstrapCall(c)
    ensures Where(b + [Subscribe] + t + [Unsubscribe], IsNotice) == Where(t, IsNotice)
  {
    WhereNone(b + [Subscribe], IsNotice);
    WhereAppend(b + [Subscribe], t, IsNotice);
    WhereAppend(b + [Subscribe] + t, [Unsubscribe], IsNotice);
  }

  /** A completed run shows one error dialog per failed file. */
  lemma NoticePerFailure(env: Env)
    requires Completes(env)
    ensures |Where(Run(env).calls, IsNotice)| == Failures(env.outcome, |Files(env)|)
  {
    RunCalls(env);
    TryCalls(env);
    NoticesIn(BootstrapCalls(env), TryBlock(env).calls);
    LoopNotices(Files(env), PlaceholderPath(env), env.outcome, |Files(env)|);
  }

  /** Without a chosen folder nothing is logged and no document is opened. */
  lemma CancelledRunLogsNothing(env: Env)
    requires env.folder.None?
    ensures Run(env).log.None?
    ensures Run(env).exit == (if BootstrapFails(env) then Faulted(PlaceholderCreation) else Cancelled)
    ensures forall c :: c in Run(env).calls ==> !IsFileCall(c)
  {
  }

  // ---------------------------------------------------------------- an example

  lemma FoundTwo()
    ensures FoundMessage(2) == "Found 2 files to upgrade"
  {
    assert Show(2) == "2";
  }

  lemma ProgressOneOfTwo(file: string)
    ensures ProcessingMessage(0, 2, file) == "Processing file 1/2: " + file
    ensures CompletedMessage(0, 2, file) == "Completed file 1/2: " + file
  {
    assert Show(1) == "1" && Show(2) == "2";
  }

  lemma ProgressTwoOfTwo(file: string)
    ensures ProcessingMessage(1, 2, file) == "Processing file 2/2: " + file
    ensures CompletedMessage(1, 2, file) == "Completed file 2/2: " + file
  {
    assert Show(2) == "2";
  }

  lemma ExampleLog(a: string, c: string, outcome: nat -> Outcome)
    requires outcome(0) == Upgraded && outcome(1) == Upgraded
    ensures CompletedLog([a, c], outcome) == [
      "Starting upgrade process...",
      "Found 2 files to upgrade",
      "Processing file 1/2: " + a,
      "Completed file 1/2: " + a,
      "Processing file 2/2: " + c,
      "Completed file 2/2: " + c,
      "Upgrade process completed!"]
  {
    assert FileMessages([a, c], outcome, 1) == [ProcessingMessage(0, 2, a), CompletedMessage(0, 2, a)];
    ProgressOneOfTwo(a);
    ProgressTwoOfTwo(c);
    FoundTwo();
  }

  /**
   * A folder holding a plain model, its backup and a second model, all of
   * which the host upgrades: the backup is skipped and the log reads, in order,
   * the start, "Found 2 files to upgrade", both files' processing and
   * completion lines, and the completion of the run.
   */
  lemma ExampleRun(env: Env, a: string, backup: string, c: string)
    requires env.placeholderExists && env.folder.Some? && env.logFile.Some?
    requires env.scan == Some([a, backup, c])
    requires IsEligible(a) && !IsEligible(backup) && IsEligible(c)
    requires env.outcome(0) == Upgraded && env.outcome(1) == Upgraded
    ensures Completes(env) && Run(env).exit == Finished
    ensures Log(env) == [
      "Starting upgrade process...",
      "Found 2 files to upgrade",
      "Processing file 1/2: " + a,
      "Completed file 1/2: " + a,
      "Processing file 2/2: " + c,
      "Completed file 2/2: " + c,
      "Upgrade process completed!"]
  {
    assert [a, backup, c] == [a] + [backup] + [c];
    KeepOuter(IsEligible, a, [backup], c);
    LogIs(env);
    ExampleLog(a, c, env.outcome);
  }
}
