/**
  The CALDP counting logger (caldp/log.py).

  The logger counts every info/warn/error/debug call and, depending on its
  verbosity level, hands the formatted message to the logging library. Here the
  logging library is an abstract sequence of records (severity, text), and what
  `write` puts on standard output is an abstract string.

  `LogState` is the specification: one member function per logger operation,
  each giving the state after the call. `CaldpLogger` is the object the Python
  code mutates in place; each of its methods is proved to produce exactly the
  state the matching `LogState` function gives.
 */
module CaldpLog {
  import opened Wrappers
  import opened Strings

  /** Level used by verbose() when no verbosity is given, and by set_verbose(True). */
  const DEFAULT_VERBOSITY_LEVEL: int := 50

  /** A message-text filter: every formatted message passes through the registered filters. */
  type Filter = string -> string

  datatype Severity = DebugLevel | InfoLevel | WarningLevel | ErrorLevel

  /** One message handed to the logging library. */
  datatype Record = Record(severity: Severity, text: string)

  /** The argument of set_verbose: Python's True/False or an integer level. */
  datatype VerbosityArg = Flag(on: bool) | Level(level: int)

  /** One call of info/warn/error/debug with its positional arguments (already str()-ed) and its separator. */
  datatype Call = Call(severity: Severity, args: seq<string>, sep: string)

  /** The filters applied to `text`, the first registered first. */
  function ApplyFilters(filters: seq<Filter>, text: string): string
    decreases |filters|
  {
    if |filters| == 0 then text
    else filters[|filters| - 1](ApplyFilters(filters[..|filters| - 1], text))
  }

  /** The first registered filter sees the raw text; the others see its output. */
  lemma {:induction false} FiltersApplyInRegistrationOrder(filters: seq<Filter>, text: string)
    requires |filters| > 0
    ensures ApplyFilters(filters, text) == ApplyFilters(filters[1..], filters[0](text))
    decreases |filters|
  {
    var n := |filters|;
    if n == 1 {
      assert filters[..0] == [];
      assert filters[1..] == [];
    } else {
      var init := filters[..n - 1];
      FiltersApplyInRegistrationOrder(init, text);
      assert init[1..] == filters[1..][..n - 2];
      assert filters[1..][n - 2] == filters[n - 1];
    }
  }

  /** A filter that never removes a trailing newline. */
  ghost predicate KeepsNewline(f: Filter)
  {
    forall t :: EndsWith(t, "\n") ==> EndsWith(f(t), "\n")
  }

  lemma {:induction false} FiltersKeepNewline(filters: seq<Filter>, text: string)
    requires forall i :: 0 <= i < |filters| ==> KeepsNewline(filters[i])
    requires EndsWith(text, "\n")
    ensures EndsWith(ApplyFilters(filters, text), "\n")
    decreases |filters|
  {
    if |filters| > 0 {
      var n := |filters|;
      FiltersKeepNewline(filters[..n - 1], text);
      assert KeepsNewline(filters[n - 1]);
    }
  }

  /** should_output: a verbose message at `verbosity` is output unless the logger's level is below it. */
  predicate VerbosityAllows(verboseLevel: int, verbosity: int)
  {
    !(verboseLevel < verbosity)
  }

  /** The level set_verbose installs: True is the default level 50, False is 0. */
  function LevelOf(arg: VerbosityArg): (level: int)
    ensures arg == Flag(true) ==> level == DEFAULT_VERBOSITY_LEVEL
    ensures arg == Flag(false) ==> level == 0
    ensures arg.Level? ==> level == arg.level
  {
    match arg
    case Flag(on) => if on then DEFAULT_VERBOSITY_LEVEL else 0
    case Level(n) => n
  }

  /** The assertion of set_verbose, -3 <= level <= 100, in which Python reads True as 1 and False as 0. */
  predicate InVerbosityRange(arg: VerbosityArg)
  {
    match arg
    case Flag(_) => true
    case Level(n) => -3 <= n <= 100
  }

  /** The positional arguments divider() passes to its logging function. */
  function DividerArgs(name: string, ch: string, n: int): (r: seq<string>)
    ensures name == "" ==> r == [Repeat(ch, n)]
    ensures name != "" ==> |r| == 3 && r[1] == name && r[0] == r[2]
  {
    if name != "" then
      // Python's `//` floors; for the positive divisor 2 Dafny's `/` agrees.
      var n2 := (n - |name| - 2) / 2;
      [Repeat(ch, n2), name, Repeat(ch, n2)]
    else
      [Repeat(ch, n)]
  }

  /** The text of a divider line, as joined by the default separator. */
  lemma DividerWidth(name: string, ch: string, n: int)
    ensures name == "" ==> Join(DividerArgs(name, ch, n), " ") == Repeat(ch, n)
    ensures name != "" && |ch| == 1 && |name| + 2 <= n ==>
      n - 1 <= |Join(DividerArgs(name, ch, n), " ")| <= n
    ensures name != "" && |name| + 2 > n ==>
      Join(DividerArgs(name, ch, n), " ") == " " + name + " "
  {
    if name != "" {
      var n2 := (n - |name| - 2) / 2;
      var args := DividerArgs(name, ch, n);
      assert args[1..][1..] == [Repeat(ch, n2)];
      assert Join(args[1..], " ") == name + " " + Repeat(ch, n2);
      assert Join(args, " ") == Repeat(ch, n2) + " " + (name + " " + Repeat(ch, n2));
    }
  }

  /** The banner `_report_exception` logs: 29 dashes on each side of " Fatal Exception ", 75 characters. */
  lemma FatalExceptionBanner()
    ensures DividerArgs("Fatal Exception", "-", 75) == [Repeat("-", 29), "Fatal Exception", Repeat("-", 29)]
    ensures |Join(DividerArgs("Fatal Exception", "-", 75), " ")| == 75
  {
    var args := DividerArgs("Fatal Exception", "-", 75);
    assert args[1..][1..] == [args[2]];
    assert Join(args[1..], " ") == args[1] + " " + args[2];
    assert Join(args, " ") == args[0] + " " + (args[1] + " " + args[2]);
  }

  /**
    The observable state of a CaldpLogger: the four counters, the verbosity
    level, the end-of-line-pending flag, the filters, the records handed to
    the logging library and the text written to standard output.
   */
  datatype LogState = LogState(
    errors: int, warnings: int, infos: int, debugs: int,
    verboseLevel: int,
    eolPending: bool,
    filters: seq<Filter>,
    records: seq<Record>,
    stdout: string)
  {
    /** format(*args, sep=sep, end=end) */
    function Format(args: seq<string>, sep: string, end: string): (out: string)
      ensures filters == [] ==> out == Join(args, sep) + end
    {
      ApplyFilters(filters, Join(args, sep) + end)
    }

    /** write(*args, sep=sep, end=end) */
    function Write(args: seq<string>, sep: string, end: string): (s: LogState)
      ensures s.(eolPending := eolPending, stdout := stdout) == this
      ensures |s.stdout| >= |stdout| && s.stdout[..|stdout|] == stdout
    {
      var output := Format(args, sep, end);
      this.(eolPending := !EndsWith(output, "\n"), stdout := stdout + output)
    }

    /** The first step of eformat: an argument-less write() when an end of line is pending. */
    function FlushEol(): (s: LogState)
      ensures s.(eolPending := eolPending, stdout := stdout) == this
      ensures !eolPending ==> s == this
    {
      if eolPending then Write([], " ", "\n") else this
    }

    /** `self.logger.<severity>(self.eformat(*args, sep=sep))` */
    function Emit(severity: Severity, args: seq<string>, sep: string): (s: LogState)
      ensures s.(eolPending := eolPending, stdout := stdout, records := records) == this
      ensures |s.records| == |records| + 1 && s.records[..|records|] == records
      ensures s.records[|records|].severity == severity
    {
      var s := FlushEol();
      s.(records := s.records + [Record(severity, Format(args, sep, ""))])
    }

    function Info(args: seq<string>, sep: string): (s: LogState)
      ensures s.infos == infos + 1
      ensures s.(infos := infos, eolPending := eolPending, stdout := stdout, records := records) == this
      ensures |s.records| == |records| + (if verboseLevel > -1 then 1 else 0)
    {
      var s := this.(infos := infos + 1);
      if verboseLevel > -1 then s.Emit(InfoLevel, args, sep) else s
    }

    function Warn(args: seq<string>, sep: string): (s: LogState)
      ensures s.warnings == warnings + 1
      ensures s.(warnings := warnings, eolPending := eolPending, stdout := stdout, records := records) == this
      ensures |s.records| == |records| + (if verboseLevel > -2 then 1 else 0)
    {
      var s := this.(warnings := warnings + 1);
      if verboseLevel > -2 then s.Emit(WarningLevel, args, sep) else s
    }

    function Error(args: seq<string>, sep: string): (s: LogState)
      ensures s.errors == errors + 1
      ensures s.(errors := errors, eolPending := eolPending, stdout := stdout, records := records) == this
      ensures |s.records| == |records| + (if verboseLevel > -3 then 1 else 0)
    {
      var s := this.(errors := errors + 1);
      if verboseLevel > -3 then s.Emit(ErrorLevel, args, sep) else s
    }

    function Debug(args: seq<string>, sep: string): (s: LogState)
      ensures s.debugs == debugs + 1
      ensures s.(debugs := debugs, eolPending := eolPending, stdout := stdout, records := records) == this
      ensures |s.records| == |records| + 1
    {
      this.(debugs := debugs + 1).Emit(DebugLevel, args, sep)
    }

    /** The call `c`, dispatched on its severity. */
    function Log(c: Call): (s: LogState)
      ensures s.errors + s.warnings + s.infos + s.debugs == errors + warnings + infos + debugs + 1
      ensures s.verboseLevel == verboseLevel && s.filters == filters
    {
      match c.severity
      case InfoLevel => Info(c.args, c.sep)
      case WarningLevel => Warn(c.args, c.sep)
      case ErrorLevel => Error(c.args, c.sep)
      case DebugLevel => Debug(c.args, c.sep)
    }

    predicate ShouldOutput(verbosity: int)
      ensures ShouldOutput(verbosity) <==> verboseLevel >= verbosity
    {
      VerbosityAllows(verboseLevel, verbosity)
    }

    function Verbose(verbosity: int, args: seq<string>, sep: string): (s: LogState)
      ensures verboseLevel < verbosity ==> s == this
      ensures verboseLevel >= verbosity ==> s.debugs == debugs + 1
    {
      if ShouldOutput(verbosity) then Debug(args, sep) else this
    }

    function VerboseWarning(verbosity: int, args: seq<string>, sep: string): (s: LogState)
      ensures verboseLevel < verbosity ==> s == this
      ensures verboseLevel >= verbosity ==> s.warnings == warnings + 1
    {
      if ShouldOutput(verbosity) then Warn(args, sep) else this
    }

    function Status(): (int, int, int)
    {
      (errors, warnings, infos)
    }

    function Reset(): (s: LogState)
      ensures s.errors == 0 && s.warnings == 0 && s.infos == 0 && s.debugs == 0
      ensures s.(errors := errors, warnings := warnings, infos := infos, debugs := debugs) == this
    {
      this.(errors := 0, warnings := 0, infos := 0, debugs := 0)
    }

    /** The state after set_verbose(arg); a failed range assertion changes nothing. */
    function SetVerbose(arg: VerbosityArg): (s: LogState)
      ensures s.(verboseLevel := verboseLevel) == this
      ensures InVerbosityRange(arg) ==> s.verboseLevel == LevelOf(arg)
      ensures !InVerbosityRange(arg) ==> s == this
    {
      if InVerbosityRange(arg) then this.(verboseLevel := LevelOf(arg)) else this
    }

    /** increment_errors(N) */
    function IncrementErrors(n: int): (s: LogState)
      ensures s.errors == errors + n
      ensures s.(errors := errors) == this
    {
      this.(errors := errors + n)
    }

    /** divider(name, char, n, func): `func` is one of info/warn/error/debug. */
    function Divider(name: string, ch: string, n: int, func: Severity): (s: LogState)
      ensures s.errors + s.warnings + s.infos + s.debugs == errors + warnings + infos + debugs + 1
      ensures func == InfoLevel ==> s.infos == infos + 1 && s.errors == errors
    {
      Log(Call(func, DividerArgs(name, ch, n), " "))
    }

    /** The logging part of fatal_error; the exit that follows it is the caller's. */
    function FatalError(args: seq<string>, sep: string): (s: LogState)
      ensures s.errors == errors + 1 && s.infos == infos && s.warnings == warnings
      ensures verboseLevel > -3 ==> |s.records| == |records| + 1 && s.records[|records|].severity == ErrorLevel
    {
      Error(["(FATAL)"] + args, sep)
    }
  }

  /** The state after the calls, made in order. */
  function Run(s: LogState, calls: seq<Call>): LogState
    decreases |calls|
  {
    if |calls| == 0 then s else Run(s.Log(calls[0]), calls[1..])
  }

  /** How many of the calls have the given severity. */
  function Count(calls: seq<Call>, severity: Severity): nat
    decreases |calls|
  {
    if |calls| == 0 then 0
    else (if calls[0].severity == severity then 1 else 0) + Count(calls[1..], severity)
  }

  /** Whether a call of this severity reaches the logging library at this verbosity level. */
  predicate Emitted(severity: Severity, verboseLevel: int)
  {
    match severity
    case InfoLevel => verboseLevel > -1
    case WarningLevel => verboseLevel > -2
    case ErrorLevel => verboseLevel > -3
    case DebugLevel => true
  }

  /** How many of the calls reach the logging library at this verbosity level. */
  function CountEmitted(calls: seq<Call>, verboseLevel: int): nat
    decreases |calls|
  {
    if |calls| == 0 then 0
    else (if Emitted(calls[0].severity, verboseLevel) then 1 else 0) + CountEmitted(calls[1..], verboseLevel)
  }

  /**
    One call of info/warn/error/debug adds one to its own counter and changes no
    other counter, whatever the verbosity; it adds one record exactly when its
    severity's threshold lets it through, and that record carries the formatted text.
   */
  lemma CallCounts(s: LogState, c: Call)
    ensures var t := s.Log(c);
      && t.errors == s.errors + (if c.severity == ErrorLevel then 1 else 0)
      && t.warnings == s.warnings + (if c.severity == WarningLevel then 1 else 0)
      && t.infos == s.infos + (if c.severity == InfoLevel then 1 else 0)
      && t.debugs == s.debugs + (if c.severity == DebugLevel then 1 else 0)
      && t.verboseLevel == s.verboseLevel && t.filters == s.filters
      && (Emitted(c.severity, s.verboseLevel) ==>
            t.records == s.records + [Record(c.severity, s.Format(c.args, c.sep, ""))])
      && (!Emitted(c.severity, s.verboseLevel) ==> t.records == s.records && t.stdout == s.stdout)
  {
  }

  /** The thresholds of info, warn and error, in the terms of their verbosity level. */
  lemma EmissionThresholds(s: LogState, args: seq<string>, sep: string)
    ensures |s.Info(args, sep).records| == |s.records| + 1 <==> s.verboseLevel > -1
    ensures |s.Warn(args, sep).records| == |s.records| + 1 <==> s.verboseLevel > -2
    ensures |s.Error(args, sep).records| == |s.records| + 1 <==> s.verboseLevel > -3
    ensures |s.Debug(args, sep).records| == |s.records| + 1
  {
  }

  /** Any sequence of calls moves each counter by the number of calls of its severity. */
  lemma {:induction false} RunCounts(s: LogState, calls: seq<Call>)
    ensures var t := Run(s, calls);
      && t.errors == s.errors + Count(calls, ErrorLevel)
      && t.warnings == s.warnings + Count(calls, WarningLevel)
      && t.infos == s.infos + Count(calls, InfoLevel)
      && t.debugs == s.debugs + Count(calls, DebugLevel)
      && t.verboseLevel == s.verboseLevel
      && t.filters == s.filters
      && |t.records| == |s.records| + CountEmitted(calls, s.verboseLevel)
    decreases |calls|
  {
    if |calls| > 0 {
      CallCounts(s, calls[0]);
      RunCounts(s.Log(calls[0]), calls[1..]);
    }
  }

  /** After reset(), status() is (errors, warnings, infos) called, in any interleaving. */
  lemma StatusCountsCallsSinceReset(s: LogState, calls: seq<Call>)
    ensures Run(s.Reset(), calls).Status()
         == (Count(calls, ErrorLevel), Count(calls, WarningLevel), Count(calls, InfoLevel))
  {
    RunCounts(s.Reset(), calls);
  }

  /** The module doctest: after reset, one warning, two errors and one info give status (2, 1, 1). */
  lemma DoctestStatus(s: LogState)
    ensures Run(s.Reset(), [
              Call(WarningLevel, ["this is a test warning."], " "),
              Call(ErrorLevel, ["this is a test error."], " "),
              Call(ErrorLevel, ["this is another test error."], " "),
              Call(InfoLevel, ["this is just informative."], " ")]).Status() == (2, 1, 1)
  {
    var calls := [
      Call(WarningLevel, ["this is a test warning."], " "),
      Call(ErrorLevel, ["this is a test error."], " "),
      Call(ErrorLevel, ["this is another test error."], " "),
      Call(InfoLevel, ["this is just informative."], " ")];
    StatusCountsCallsSinceReset(s, calls);
    assert Count(calls, ErrorLevel) == 2;
    assert Count(calls, WarningLevel) == 1;
    assert Count(calls, InfoLevel) == 1;
  }

  /** reset() zeroes all four counters, debugs included, and touches nothing else. */
  lemma ResetZeroesCounters(s: LogState)
    ensures s.Reset().Status() == (0, 0, 0) && s.Reset().debugs == 0
    ensures s.Reset().records == s.records && s.Reset().verboseLevel == s.verboseLevel
  {
  }

  /**
    verbose()/verbose_warning() act only when should_output holds, that is when
    the level is at least the call's verbosity; a suppressed call changes nothing.
   */
  lemma VerboseGating(s: LogState, verbosity: int, args: seq<string>, sep: string)
    ensures s.ShouldOutput(verbosity) <==> s.verboseLevel >= verbosity
    ensures s.verboseLevel < verbosity ==>
      s.Verbose(verbosity, args, sep) == s && s.VerboseWarning(verbosity, args, sep) == s
    ensures s.verboseLevel >= verbosity ==>
      s.Verbose(verbosity, args, sep) == s.Debug(args, sep)
      && s.VerboseWarning(verbosity, args, sep) == s.Warn(args, sep)
  {
  }

  /** set_verbose installs the mapped level (True = 50, False = 0), which get_verbose then reports. */
  lemma SetVerboseThenGet(s: LogState, arg: VerbosityArg)
    ensures InVerbosityRange(arg) ==> s.SetVerbose(arg).verboseLevel == LevelOf(arg)
    ensures s.SetVerbose(Flag(true)).verboseLevel == 50
    ensures s.SetVerbose(Flag(false)).verboseLevel == 0
    ensures forall level :: -3 <= level <= 100 ==> s.SetVerbose(Level(level)).verboseLevel == level
    ensures !InVerbosityRange(arg) ==> s.SetVerbose(arg) == s
    ensures s.SetVerbose(arg).Status() == s.Status() && s.SetVerbose(arg).records == s.records
  {
  }

  /**
    The verbosity part of the module doctest: at level 0 verbose() is silent;
    set_verbose() turns on level 50, which a verbose() call at 50 passes and one at
    60 does not; set_verbose(60) answers 50 and lets the verbosity-60 call through.
   */
  lemma DoctestVerbosity(s: LogState, msg: string)
    requires s.verboseLevel == 0
    ensures s.Verbose(DEFAULT_VERBOSITY_LEVEL, [msg], " ") == s
    ensures var s1 := s.SetVerbose(Flag(true));
      && s1.verboseLevel == 50
      && s1.Verbose(50, [msg], " ").records == s1.FlushEol().records + [Record(DebugLevel, s1.Format([msg], " ", ""))]
      && s1.Verbose(60, [msg], " ") == s1
      && var s2 := s1.SetVerbose(Level(60));
         s2.Verbose(60, [msg], " ").debugs == s2.debugs + 1
  {
  }

  /**
    write() leaves an end of line pending exactly when its output does not end in
    a newline; the flush eformat does first leaves none pending as long as the
    filters keep a trailing newline (in particular when there are no filters).
   */
  lemma {:induction false} EolFlushClearsPending(s: LogState)
    requires forall i :: 0 <= i < |s.filters| ==> KeepsNewline(s.filters[i])
    ensures !s.FlushEol().eolPending
    ensures s.eolPending ==> s.FlushEol().stdout == s.stdout + ApplyFilters(s.filters, "\n")
    ensures !s.eolPending ==> s.FlushEol() == s
  {
    if s.eolPending {
      assert Join([], " ") + "\n" == "\n";
      FiltersKeepNewline(s.filters, "\n");
    }
  }

  /** increment_errors(N) adds N to the error count and logs nothing. */
  lemma IncrementErrorsOnlyCounts(s: LogState, n: int)
    ensures s.IncrementErrors(n).errors == s.errors + n
    ensures s.IncrementErrors(n).records == s.records
    ensures s.IncrementErrors(n).(errors := s.errors) == s
  {
  }

  /** The in-place logger. `filters` is public, as the Python list is. */
  class CaldpLogger {
    var errors: int
    var warnings: int
    var infos: int
    var debugs: int
    var verboseLevel: int
    var eolPending: bool
    var filters: seq<Filter>
    var records: seq<Record>
    var stdout: string

    ghost function State(): LogState
      reads this
    {
      LogState(errors, warnings, infos, debugs, verboseLevel, eolPending, filters, records, stdout)
    }

    /** `envVerbosity` is CALDP_VERBOSITY parsed as an integer, or None when it is unset. */
    constructor (envVerbosity: Option<int>)
      ensures State() == LogState(0, 0, 0, 0,
                                  if envVerbosity.Some? then envVerbosity.value else 0,
                                  false, [], [], "")
    {
      filters := [];
      records := [];
      stdout := "";
      errors, warnings, infos, debugs := 0, 0, 0, 0;
      eolPending := false;
      verboseLevel := if envVerbosity.Some? then envVerbosity.value else 0;
    }

    method Format(args: seq<string>, sep: string, end: string) returns (output: string)
      ensures output == State().Format(args, sep, end)
    {
      var text := Join(args, sep) + end;
      output := text;
      for i := 0 to |filters|
        invariant output == ApplyFilters(filters[..i], text)
      {
        assert filters[..i + 1][..i] == filters[..i];
        output := filters[i](output);
      }
      assert filters[..|filters|] == filters;
    }

    method EFormat(args: seq<string>, sep: string) returns (output: string)
      modifies this
      ensures State() == old(State()).FlushEol()
      ensures output == old(State()).Format(args, sep, "")
    {
      if eolPending {
        Write([], " ", "\n");
      }
      output := Format(args, sep, "");
    }

    method Write(args: seq<string>, sep: string, end: string)
      modifies this
      ensures State() == old(State()).Write(args, sep, end)
    {
      var output := Format(args, sep, end);
      eolPending := !EndsWith(output, "\n");
      stdout := stdout + output;
    }

    /** Hands the eformat-ed message to the logging library at the given severity. */
    method Emit(severity: Severity, args: seq<string>, sep: string)
      modifies this
      ensures State() == old(State()).Emit(severity, args, sep)
    {
      var text := EFormat(args, sep);
      records := records + [Record(severity, text)];
    }

    method Info(args: seq<string>, sep: string)
      modifies this
      ensures State() == old(State()).Info(args, sep)
    {
      infos := infos + 1;
      if verboseLevel > -1 {
        Emit(InfoLevel, args, sep);
      }
    }

    method Warn(args: seq<string>, sep: string)
      modifies this
      ensures State() == old(State()).Warn(args, sep)
    {
      warnings := warnings + 1;
      if verboseLevel > -2 {
        Emit(WarningLevel, args, sep);
      }
    }

    method Error(args: seq<string>, sep: string)
      modifies this
      ensures State() == old(State()).Error(args, sep)
    {
      errors := errors + 1;
      if verboseLevel > -3 {
        Emit(ErrorLevel, args, sep);
      }
    }

    method Debug(args: seq<string>, sep: string)
      modifies this
      ensures State() == old(State()).Debug(args, sep)
    {
      debugs := debugs + 1;
      Emit(DebugLevel, args, sep);
    }

    method Log(c: Call)
      modifies this
      ensures State() == old(State()).Log(c)
    {
      match c.severity
      case InfoLevel => Info(c.args, c.sep);
      case WarningLevel => Warn(c.args, c.sep);
      case ErrorLevel => Error(c.args, c.sep);
      case DebugLevel => Debug(c.args, c.sep);
    }

    predicate ShouldOutput(verbosity: int)
      reads this
      ensures ShouldOutput(verbosity) <==> State().ShouldOutput(verbosity)
    {
      VerbosityAllows(verboseLevel, verbosity)
    }

    method Verbose(verbosity: int, args: seq<string>, sep: string)
      modifies this
      ensures State() == old(State()).Verbose(verbosity, args, sep)
    {
      if ShouldOutput(verbosity) {
        Debug(args, sep);
      }
    }

    method VerboseWarning(verbosity: int, args: seq<string>, sep: string)
      modifies this
      ensures State() == old(State()).VerboseWarning(verbosity, args, sep)
    {
      if ShouldOutput(verbosity) {
        Warn(args, sep);
      }
    }

    function Status(): (r: (int, int, int))
      reads this
      ensures r == State().Status()
    {
      (errors, warnings, infos)
    }

    method Reset()
      modifies this
      ensures State() == old(State()).Reset()
    {
      errors, warnings, infos, debugs := 0, 0, 0, 0;
    }

    /** Returns the previous level; None stands for the AssertionError of an out-of-range level. */
    method SetVerbose(arg: VerbosityArg) returns (previous: Option<int>)
      modifies this
      ensures State() == old(State()).SetVerbose(arg)
      ensures previous == if InVerbosityRange(arg) then Some(old(verboseLevel)) else None
    {
      if !InVerbosityRange(arg) {
        return None;
      }
      previous := Some(verboseLevel);
      verboseLevel := LevelOf(arg);
    }

    /** get_verbose reports the level set_verbose last installed. */
    function GetVerbose(): (level: int)
      reads this
      ensures level == State().verboseLevel
    {
      verboseLevel
    }

    method IncrementErrors(n: int)
      modifies this
      ensures State() == old(State()).IncrementErrors(n)
    {
      errors := errors + n;
    }

    method Divider(name: string, ch: string, n: int, func: Severity)
      modifies this
      ensures State() == old(State()).Divider(name, ch, n, func)
    {
      Log(Call(func, DividerArgs(name, ch, n), " "));
    }

    /** Logs the "(FATAL)" error and returns the code of the SystemExit that follows, -1. */
    method FatalError(args: seq<string>, sep: string) returns (exitCode: int)
      modifies this
      ensures State() == old(State()).FatalError(args, sep)
      ensures exitCode == -1
    {
      Error(["(FATAL)"] + args, sep);
      exitCode := -1;
    }
  }
}
