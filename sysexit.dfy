/**
  Exit-code mapping and retries of the CALDP job runner (caldp/sysexit.py).

  exit_on_exception and exit_receiver are context managers: what happens inside
  their `with` block is an `Outcome`, and what leaves them is a new `Outcome`
  (exit_on_exception) or the process exit status (exit_receiver). Their logging
  is modelled on the logger specification `LogState`.
 */
module SysExit {
  import opened Wrappers
  import opened Strings
  import opened CaldpLog

  const SUCCESS: int := 0
  const GENERIC_ERROR: int := 1
  const CMDLINE_ERROR: int := 2
  const STAGE1_ERROR: int := 23
  const CALDP_MEMORY_ERROR: int := 32

  /** Two codes of the exit_codes module whose values this model leaves open. */
  datatype MemoryCodes = MemoryCodes(subprocessMemoryError: int, containerMemoryError: int)

  /** How a block of code ended: normally, or by raising SystemExit(code), MemoryError or another Exception. */
  datatype Outcome = Completed | SystemExit(code: int) | MemoryError | OtherException

  /** What one exit_on_exception did: how it was left, whether its block ran, and the logger afterwards. */
  datatype Handled = Handled(outcome: Outcome, blockRan: bool, log: LogState)

  /**
    What exit_on_exception does before yielding: enter the block, raise a
    simulated error inside its try, or fail to parse CALDP_SIMULATE_ERROR before
    the try, so that the ValueError leaves the `with` statement unhandled.
   */
  datatype Entry = Enter(log: LogState) | Simulate(error: Outcome) | Unparsable

  /** One `with exit_on_exception(exitCode, *args)` level. */
  datatype Guard = Guard(exitCode: int, args: seq<string>)

  /** What exit_receiver did: the code given to os._exit, whether its block ran, and the logger afterwards. */
  datatype Received = Received(code: int, blockRan: bool, log: LogState)

  const NO_TRACEBACK: string := "NoneType: None"

  /** The traceback lines that `_report_exception` logs as errors. */
  function ReportedLines(traceback: seq<string>): nat
    decreases |traceback|
  {
    if |traceback| == 0 then 0
    else (if traceback[0] != NO_TRACEBACK then 1 else 0) + ReportedLines(traceback[1..])
  }

  /** The traceback loop of `_report_exception`: it logs errors only, and changes no setting of the logger. */
  function ReportTraceback(s: LogState, traceback: seq<string>): (t: LogState)
    ensures t.infos == s.infos && t.warnings == s.warnings && t.debugs == s.debugs
    ensures t.verboseLevel == s.verboseLevel && t.filters == s.filters
    ensures |t.records| >= |s.records|
    decreases |traceback|
  {
    if |traceback| == 0 then s
    else
      var s1 := if traceback[0] != NO_TRACEBACK then s.Error([traceback[0]], " ") else s;
      ReportTraceback(s1, traceback[1..])
  }

  /**
    `_report_exception(exit_code, *args)`: an info divider, the arguments as one
    error when there are any, and one error per traceback line. The explanation
    of the exit code it prints is not part of this model.
   */
  function ReportException(s: LogState, args: seq<string>, traceback: seq<string>): (t: LogState)
    ensures t.infos == s.infos + 1 && t.warnings == s.warnings && t.debugs == s.debugs
    ensures t.verboseLevel == s.verboseLevel && t.filters == s.filters
    ensures s.verboseLevel > -1 ==> |t.records| > |s.records|
  {
    var s1 := s.Divider("Fatal Exception", "-", 75, InfoLevel);
    var s2 := if |args| > 0 then s1.Error(args, " ") else s1;
    ReportTraceback(s2, traceback)
  }

  lemma {:induction false} ReportTracebackCounts(s: LogState, traceback: seq<string>)
    ensures var t := ReportTraceback(s, traceback);
      && t.errors == s.errors + ReportedLines(traceback)
      && t.warnings == s.warnings && t.infos == s.infos && t.debugs == s.debugs
      && t.verboseLevel == s.verboseLevel && t.filters == s.filters
    decreases |traceback|
  {
    if |traceback| > 0 {
      var s1 := if traceback[0] != NO_TRACEBACK then s.Error([traceback[0]], " ") else s;
      ReportTracebackCounts(s1, traceback[1..]);
    }
  }

  /**
    `_report_exception` adds one error for a non-empty argument list and one for
    every traceback line other than "NoneType: None", and one info for the divider.
   */
  lemma ReportExceptionCounts(s: LogState, args: seq<string>, traceback: seq<string>)
    ensures var t := ReportException(s, args, traceback);
      && t.errors == s.errors + (if |args| > 0 then 1 else 0) + ReportedLines(traceback)
      && t.infos == s.infos + 1
      && t.warnings == s.warnings && t.debugs == s.debugs
      && t.verboseLevel == s.verboseLevel
  {
    var s1 := s.Divider("Fatal Exception", "-", 75, InfoLevel);
    var s2 := if |args| > 0 then s1.Error(args, " ") else s1;
    ReportTracebackCounts(s2, traceback);
  }

  /**
    The CALDP_SIMULATE_ERROR checks made before the block. `simulated` is what
    int() makes of the variable: Some(0) when it is unset, None when int()
    rejects its text.
   */
  function EnterBlock(s: LogState, codes: MemoryCodes, simulated: Option<int>, exitCode: int): (e: Entry)
    ensures e.Unparsable? <==> simulated.None?
    ensures e.Simulate? ==> e.error.MemoryError? || e.error.OtherException?
    ensures e.Enter? && e.log != s ==> simulated == Some(codes.containerMemoryError)
  {
    if simulated.None? then Unparsable
    else if simulated.value == CALDP_MEMORY_ERROR then Simulate(MemoryError)
    else if simulated.value == codes.subprocessMemoryError then Simulate(OtherException)
    else if simulated.value == codes.containerMemoryError then
      Enter(s.Info(["Simulating hard memory error by allocating memory"], " "))
    else if exitCode == simulated.value then Simulate(OtherException)
    else Enter(s)
  }

  /** The except clauses of exit_on_exception: how an outcome of its try block leaves it. */
  function LeaveBlock(s: LogState, exitCode: int, args: seq<string>, outcome: Outcome, traceback: seq<string>)
    : (r: (Outcome, LogState))
    ensures r.0.Completed? || r.0.SystemExit?
  {
    match outcome
    case Completed => (Completed, s)
    case SystemExit(c) => (SystemExit(c), ReportException(s, args, traceback))
    case MemoryError => (SystemExit(CALDP_MEMORY_ERROR), ReportException(s, args, traceback))
    case OtherException => (SystemExit(exitCode), ReportException(s, args, traceback))
  }

  /**
    `with exit_on_exception(exitCode, *args): <block>`, where `block` is how the
    block would end if it ran, `simulated` is CALDP_SIMULATE_ERROR as int() reads
    it (Some(0) when unset, None when int() rejects it) and `traceback` the lines
    of traceback.format_exc().
   */
  function ExitOnException(s: LogState, codes: MemoryCodes, simulated: Option<int>, exitCode: int,
                           args: seq<string>, block: Outcome, traceback: seq<string>): (h: Handled)
    ensures simulated.Some? ==> h.outcome.Completed? || h.outcome.SystemExit?
    ensures simulated.None? ==> h == Handled(OtherException, false, s)
    ensures h.outcome.Completed? ==> h.blockRan && block.Completed?
  {
    match EnterBlock(s, codes, simulated, exitCode)
    case Unparsable => Handled(OtherException, false, s)
    case Simulate(e) =>
      var (o, t) := LeaveBlock(s, exitCode, args, e, traceback);
      Handled(o, false, t)
    case Enter(s1) =>
      var (o, t) := LeaveBlock(s1, exitCode, args, block, traceback);
      Handled(o, true, t)
  }

  /** The exit status of the four kinds of outcome, without simulation. */
  function Mapped(block: Outcome, exitCode: int): (o: Outcome)
    ensures o.Completed? <==> block.Completed?
    ensures o.Completed? || o.SystemExit?
    ensures block.OtherException? ==> o == SystemExit(exitCode)
  {
    match block
    case Completed => Completed
    case SystemExit(c) => SystemExit(c)
    case MemoryError => SystemExit(CALDP_MEMORY_ERROR)
    case OtherException => SystemExit(exitCode)
  }

  /**
    Without a matching simulation the block runs, and: normal completion passes
    through; a SystemExit keeps its code; a MemoryError becomes SystemExit(32);
    any other exception becomes SystemExit(exitCode). Each exception is reported.
   */
  lemma ExceptionMapping(s: LogState, codes: MemoryCodes, simulated: int, exitCode: int,
                         args: seq<string>, block: Outcome, traceback: seq<string>)
    requires simulated != CALDP_MEMORY_ERROR && simulated != codes.subprocessMemoryError
    requires simulated != codes.containerMemoryError && simulated != exitCode
    ensures var h := ExitOnException(s, codes, Some(simulated), exitCode, args, block, traceback);
      && h.blockRan
      && h.outcome == Mapped(block, exitCode)
      && h.log == if block.Completed? then s else ReportException(s, args, traceback)
  {
  }

  /** The block runs unless a memory error is simulated or the simulated code is the handler's own (container code aside). */
  lemma BlockRunsIff(s: LogState, codes: MemoryCodes, simulated: int, exitCode: int,
                     args: seq<string>, block: Outcome, traceback: seq<string>)
    ensures ExitOnException(s, codes, Some(simulated), exitCode, args, block, traceback).blockRan
        <==> simulated != CALDP_MEMORY_ERROR && simulated != codes.subprocessMemoryError
             && (simulated == codes.containerMemoryError || simulated != exitCode)
  {
  }

  /** A simulated code equal to the handler's own never runs the block and exits with that code. */
  lemma SimulatedCodeExits(s: LogState, codes: MemoryCodes, exitCode: int,
                           args: seq<string>, block: Outcome, traceback: seq<string>)
    requires exitCode != codes.containerMemoryError
    ensures var h := ExitOnException(s, codes, Some(exitCode), exitCode, args, block, traceback);
      !h.blockRan && h.outcome == SystemExit(exitCode)
  {
  }

  /** A simulated CALDP_MEMORY_ERROR exits with 32 whatever the handler's code. */
  lemma SimulatedMemoryErrorExits(s: LogState, codes: MemoryCodes, exitCode: int,
                                  args: seq<string>, block: Outcome, traceback: seq<string>)
    ensures var h := ExitOnException(s, codes, Some(CALDP_MEMORY_ERROR), exitCode, args, block, traceback);
      !h.blockRan && h.outcome == SystemExit(CALDP_MEMORY_ERROR)
  {
  }

  /**
    With CALDP_SIMULATE_ERROR unset (read as 0), a handler whose own code is
    SUCCESS (0) takes the unset variable for a match: its block never runs.
   */
  lemma UnsetSimulationMatchesSuccessCode(s: LogState, codes: MemoryCodes,
                                          args: seq<string>, block: Outcome, traceback: seq<string>)
    requires codes.containerMemoryError != 0
    ensures var h := ExitOnException(s, codes, Some(0), SUCCESS, args, block, traceback);
      !h.blockRan && h.outcome == SystemExit(SUCCESS)
  {
  }

  /** Nested handlers, outermost first, around one block. */
  function Nest(s: LogState, codes: MemoryCodes, simulated: Option<int>, guards: seq<Guard>,
                block: Outcome, traceback: seq<string>): (h: Handled)
    ensures |guards| > 0 && simulated.Some? ==> h.outcome.Completed? || h.outcome.SystemExit?
    ensures h.outcome.Completed? ==> h.blockRan && block.Completed?
    decreases |guards|
  {
    if |guards| == 0 then Handled(block, true, s)
    else
      var g := guards[0];
      match EnterBlock(s, codes, simulated, g.exitCode)
      case Unparsable => Handled(OtherException, false, s)
      case Simulate(e) =>
        var (o, t) := LeaveBlock(s, g.exitCode, g.args, e, traceback);
        Handled(o, false, t)
      case Enter(s1) =>
        var inner := Nest(s1, codes, simulated, guards[1..], block, traceback);
        var (o, t) := LeaveBlock(inner.log, g.exitCode, g.args, inner.outcome, traceback);
        Handled(o, inner.blockRan, t)
  }

  /** One level of nesting is exit_on_exception itself. */
  lemma NestOfOne(s: LogState, codes: MemoryCodes, simulated: Option<int>, g: Guard,
                  block: Outcome, traceback: seq<string>)
    ensures Nest(s, codes, simulated, [g], block, traceback)
         == ExitOnException(s, codes, simulated, g.exitCode, g.args, block, traceback)
  {
    assert [g][1..] == [];
  }

  /**
    In nested handlers without simulation, the innermost handler decides the exit
    code: each outer handler re-raises the SystemExit it receives unchanged.
   */
  lemma {:induction false} InnerCodeWins(s: LogState, codes: MemoryCodes, simulated: int, guards: seq<Guard>,
                                         block: Outcome, traceback: seq<string>)
    requires |guards| > 0
    requires simulated != CALDP_MEMORY_ERROR && simulated != codes.subprocessMemoryError
    requires simulated != codes.containerMemoryError
    requires forall i :: 0 <= i < |guards| ==> guards[i].exitCode != simulated
    ensures var h := Nest(s, codes, Some(simulated), guards, block, traceback);
      h.blockRan && h.outcome == Mapped(block, guards[|guards| - 1].exitCode)
    decreases |guards|
  {
    if |guards| > 1 {
      InnerCodeWins(s, codes, simulated, guards[1..], block, traceback);
      assert guards[1..][|guards| - 2] == guards[|guards| - 1];
    }
  }

  /** The status exit_receiver hands to os._exit for each way its block can end. */
  function ExitStatus(block: Outcome): (code: int)
    ensures block.SystemExit? ==> code == block.code
    ensures !block.SystemExit? ==> (code == SUCCESS <==> block.Completed?)
  {
    match block
    case Completed => SUCCESS
    case SystemExit(c) => c
    case MemoryError => CALDP_MEMORY_ERROR
    case OtherException => GENERIC_ERROR
  }

  /**
    `with exit_receiver(): <block>`. `memoryLimit` is what get_linux_memory_limit()
    reads, None when the cgroup file is missing and it raises RuntimeError: that
    happens inside the try, before the block, and exits with GENERIC_ERROR.
   */
  function ExitReceiver(s: LogState, memoryLimit: Option<int>, block: Outcome): (r: Received)
    ensures r.blockRan <==> memoryLimit.Some?
  {
    match memoryLimit
    case None => Received(GENERIC_ERROR, false, s)
    case Some(limit) =>
      Received(ExitStatus(block), true, s.Info(["Container memory limit is: ", IntToString(limit)], " "))
  }

  /** exit_receiver: 0 on completion, the code of a SystemExit, 32 for MemoryError, 1 for anything else. */
  lemma ExitReceiverCodes(s: LogState, limit: int, c: int)
    ensures ExitReceiver(s, Some(limit), Completed).code == SUCCESS
    ensures ExitReceiver(s, Some(limit), SystemExit(c)).code == c
    ensures ExitReceiver(s, Some(limit), MemoryError).code == CALDP_MEMORY_ERROR
    ensures ExitReceiver(s, Some(limit), OtherException).code == GENERIC_ERROR
    ensures ExitReceiver(s, None, SystemExit(c)).code == GENERIC_ERROR
  {
  }

  /**
    The exit_receiver doctest: a RuntimeError inside exit_on_exception(STAGE1_ERROR)
    ends the process with 23, whatever the memory codes are. The receiver logs
    the memory limit first; the handler then runs on that log.
   */
  lemma Stage1ErrorExitsWith23(s: LogState, codes: MemoryCodes, limit: int,
                               args: seq<string>, traceback: seq<string>)
    ensures var s1 := s.Info(["Container memory limit is: ", IntToString(limit)], " ");
      var h := ExitOnException(s1, codes, Some(0), STAGE1_ERROR, args, OtherException, traceback);
      && ExitReceiver(s, Some(limit), h.outcome) == Received(STAGE1_ERROR, true, s1)
      && h.outcome == SystemExit(STAGE1_ERROR)
  {
  }

  /**
    A CALDP_SIMULATE_ERROR that int() rejects: the ValueError escapes
    exit_on_exception before its block, unreported, and exit_receiver ends the
    process with GENERIC_ERROR (1).
   */
  lemma MalformedSimulationExitsWith1(s: LogState, codes: MemoryCodes, limit: int, exitCode: int,
                                      args: seq<string>, block: Outcome, traceback: seq<string>)
    ensures var h := ExitOnException(s, codes, None, exitCode, args, block, traceback);
      && !h.blockRan && h.log == s
      && ExitReceiver(s, Some(limit), h.outcome).code == GENERIC_ERROR
  {
  }

  // ---------------------------------------------------------------------------
  // retry and exponential_backoff

  /** What one call of the retried function did. */
  datatype Attempt<T, E> = Returned(value: T) | Raised(error: E)

  /**
    How retry ended: with the first returned value, by re-raising the last
    exception, or with UnboundLocalError when no attempt was made at all.
   */
  datatype RetryResult<T, E> = Succeeded(value: T) | Failed(error: E) | Unbound

  function Pow(b: real, n: nat): real
    decreases n
  {
    if n == 0 then 1.0 else b * Pow(b, n - 1)
  }

  function Min(a: real, b: real): real { if a <= b then a else b }

  function Max(a: real, b: real): real { if a >= b then a else b }

  /**
    `max(min(jitter * backoff ** iteration, max_sleep), min_sleep)`, where jitter
    is the value random.uniform(0.5, 1) drew.
   */
  function ExponentialBackoff(iteration: nat, jitter: real, minSleep: real, maxSleep: real, backoff: real)
    : (sleep: real)
    ensures sleep >= minSleep
    ensures minSleep <= maxSleep ==> sleep <= maxSleep
    ensures minSleep <= jitter * Pow(backoff, iteration) <= maxSleep ==> sleep == jitter * Pow(backoff, iteration)
  {
    Max(Min(jitter * Pow(backoff, iteration), maxSleep), minSleep)
  }

  /**
    The sleep retry takes after its `tried`-th failure, as written: its own
    min_sleep, max_sleep and backoff are not passed on, so exponential_backoff's
    defaults (1, 64, 2) bound it.
   */
  function RetrySleepAsWritten(tried: nat, jitter: real, minSleep: real, maxSleep: real, backoff: real)
    : (sleep: real)
    ensures 1.0 <= sleep <= 64.0
  {
    ExponentialBackoff(tried, jitter, 1.0, 64.0, 2.0)
  }

  /** retry's documented max_sleep is not respected as written: 8 seconds against max_sleep = 5. */
  lemma RetryAsWrittenExceedsMaxSleep()
    ensures RetrySleepAsWritten(3, 1.0, 1.0, 5.0, 2.0) == 8.0
    ensures RetrySleepAsWritten(6, 1.0, 1.0, 60.0, 2.0) == 64.0
  {
    assert Pow(2.0, 3) == 8.0;
    assert Pow(2.0, 6) == 64.0;
  }

  /** The sleep retry takes after its `tried`-th failure, with its own min_sleep, max_sleep and backoff passed on. */
  function RetrySleep(tried: nat, jitter: real, minSleep: real, maxSleep: real, backoff: real): (sleep: real)
    ensures minSleep <= sleep
    ensures minSleep <= maxSleep ==> sleep <= maxSleep
  {
    ExponentialBackoff(tried, jitter, minSleep, maxSleep, backoff)
  }

  /**
    retry(func, max_retries, min_sleep, max_sleep, backoff) applied once. The
    `k`-th call of func (from 0) does `attempt(k)`; the `k`-th sleep uses the jitter
    `jitter(k)`. Returns how it ended, how many calls were made and the sleeps taken.
    Each sleep is the one caldp/sysexit.py line 158 computes: exponential_backoff(tried)
    with its default bounds. RetrySleep is the corrected sleep.
   */
  method Retry<T, E>(attempt: nat -> Attempt<T, E>, maxRetries: int, jitter: nat -> real,
                     minSleep: real, maxSleep: real, backoff: real)
    returns (r: RetryResult<T, E>, calls: nat, sleeps: seq<real>)
    ensures r.Succeeded? ==> 1 <= calls && (maxRetries >= 0 ==> calls <= maxRetries)
                             && attempt(calls - 1) == Returned(r.value)
    ensures !r.Succeeded? ==> calls == (if maxRetries < 0 then 0 else maxRetries)
    ensures r.Failed? ==> calls >= 1 && attempt(calls - 1) == Raised(r.error)
    ensures r.Unbound? <==> maxRetries <= 0
    ensures |sleeps| == if r.Succeeded? then calls - 1 else calls
    ensures forall k :: 0 <= k < |sleeps| ==>
      attempt(k).Raised? && sleeps[k] == RetrySleepAsWritten(k + 1, jitter(k), minSleep, maxSleep, backoff)
  {
    var tried: nat := 0;
    var exc: Option<E> := None;
    sleeps := [];
    while tried < maxRetries
      invariant tried <= (if maxRetries < 0 then 0 else maxRetries)
      invariant |sleeps| == tried
      invariant forall k :: 0 <= k < tried ==>
        attempt(k).Raised? && sleeps[k] == RetrySleepAsWritten(k + 1, jitter(k), minSleep, maxSleep, backoff)
      invariant exc.Some? <==> tried > 0
      invariant tried > 0 ==> attempt(tried - 1) == Raised(exc.value)
      decreases maxRetries - tried
    {
      var a := attempt(tried);
      if a.Returned? {
        return Succeeded(a.value), tried + 1, sleeps;
      }
      exc := Some(a.error);
      tried := tried + 1;
      sleeps := sleeps + [RetrySleepAsWritten(tried, jitter(tried - 1), minSleep, maxSleep, backoff)];
    }
    calls := tried;
    r := if exc.Some? then Failed(exc.value) else Unbound;
  }
}
