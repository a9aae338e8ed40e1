/**
 * The zerolog adapter of log/zerolog/zerolog.go: an hclog logger over a
 * zerolog Logger. Every method takes the wrapper by value and returns a new
 * one or an event. The zerolog Logger itself is foreign; it is modelled by the
 * context the adapter attaches to it with `With`.
 */
module ZerologAdapter {
  import opened Results
  import opened Hclog

  datatype ZerologLevel = TraceLevel | DebugLevel | InfoLevel | WarnLevel | ErrorLevel

  /** A zerolog Logger: an opaque base and the argument lists attached by `With().Fields(args)`. */
  datatype ZerologLogger = ZerologLogger(base: nat, context: seq<seq<Any>>)

  /** One emitted event: the logger it came from, its level, message, argument list and extra string fields. */
  datatype Event = Event(logger: ZerologLogger, level: ZerologLevel, msg: string, args: seq<Any>, strs: seq<Field>)

  /** `Wrap`: a fresh wrapper has no name. */
  function Wrap(logger: ZerologLogger): (w: Wrapper)
    ensures w.name == "" && w.logger == logger
  {
    Wrapper(logger, "")
  }

  datatype Wrapper = Wrapper(logger: ZerologLogger, name: string) {

    /** The common body of `Trace`, `Debug`, `Info`, `Warn` and `Error`. */
    function Emit(level: ZerologLevel, msg: string, args: seq<Any>): (e: Event)
      ensures e.level == level && e.msg == msg && e.args == args && e.logger == logger
      ensures e.strs == [] <==> name == ""
      ensures name != "" ==> e.strs == [Field("logger", AString(name))]
    {
      Event(logger, level, msg, args, if name != "" then [Field("logger", AString(name))] else [])
    }

    function Trace(msg: string, args: seq<Any>): Event { Emit(TraceLevel, msg, args) }
    function Debug(msg: string, args: seq<Any>): Event { Emit(DebugLevel, msg, args) }
    function Info(msg: string, args: seq<Any>): Event { Emit(InfoLevel, msg, args) }
    function Warn(msg: string, args: seq<Any>): Event { Emit(WarnLevel, msg, args) }
    function Error(msg: string, args: seq<Any>): Event { Emit(ErrorLevel, msg, args) }

    /** `Log`: NoLevel and Trace go to Trace, the others to their namesakes; any other level emits nothing. */
    function Log(level: Hclog.Level, msg: string, args: seq<Any>): (r: Option<Event>)
      ensures r.Some? <==> Hclog.NoLevel <= level <= Hclog.Error
      ensures r.Some? ==> r.value.level == Route(level).value && r.value == Emit(r.value.level, msg, args)
    {
      match Route(level)
      case None => None
      case Some(z) => Some(Emit(z, msg, args))
    }

    function ImpliedArgs(): seq<Any> { [] }

    /** `With` attaches the arguments to the zerolog logger and keeps the name. */
    function With(args: seq<Any>): (w: Wrapper)
      ensures w.name == name && w.logger.base == logger.base
      ensures w.logger.context == logger.context + [args]
    {
      Wrapper(logger.(context := logger.context + [args]), name)
    }

    function Name(): string { name }

    /** `Named` joins with a dot, except that an empty name is simply replaced; the logger is kept. */
    function Named(n: string): (w: Wrapper)
      ensures w.logger == logger
      ensures name == "" ==> w.name == n
      ensures name != "" ==> w.name == name + "." + n
    {
      var newName := if name != "" then name + "." + n else n;
      Wrapper(logger, newName)
    }

    /** `ResetNamed` replaces the name outright and keeps the logger. */
    function ResetNamed(n: string): (w: Wrapper)
      ensures w == Wrapper(logger, n)
    {
      Wrapper(logger, n)
    }

    function SetLevel(level: Hclog.Level): Wrapper { this }
  }

  /** The level table of `Log`. */
  function Route(level: Hclog.Level): (r: Option<ZerologLevel>)
    ensures r.Some? <==> Hclog.NoLevel <= level <= Hclog.Error
    ensures level == Hclog.NoLevel || level == Hclog.Trace ==> r == Some(TraceLevel)
    ensures level == Hclog.Debug ==> r == Some(DebugLevel)
    ensures level == Hclog.Info ==> r == Some(InfoLevel)
    ensures level == Hclog.Warn ==> r == Some(WarnLevel)
    ensures level == Hclog.Error ==> r == Some(ErrorLevel)
  {
    if level == Hclog.NoLevel || level == Hclog.Trace then Some(TraceLevel)
    else if level == Hclog.Debug then Some(DebugLevel)
    else if level == Hclog.Info then Some(InfoLevel)
    else if level == Hclog.Warn then Some(WarnLevel)
    else if level == Hclog.Error then Some(ErrorLevel)
    else None
  }

  /** zerolog's numeric levels, from Trace (-1) to Error (3). */
  function Severity(z: ZerologLevel): int
  {
    match z
    case TraceLevel => -1
    case DebugLevel => 0
    case InfoLevel => 1
    case WarnLevel => 2
    case ErrorLevel => 3
  }

  /** Routing keeps the order of hclog levels. */
  lemma RouteMonotone(a: Hclog.Level, b: Hclog.Level)
    requires Hclog.NoLevel <= a <= b <= Hclog.Error
    ensures Severity(Route(a).value) <= Severity(Route(b).value)
  {
  }

  /** Nested names compose: naming `a` then `b` is naming `a.b`, unless both the old name and `a` are empty. */
  lemma NamedComposes(w: Wrapper, a: string, b: string)
    requires w.name != "" || a != ""
    ensures w.Named(a).Named(b) == w.Named(a + "." + b)
  {
    if w.name != "" {
      assert (w.name + "." + a) + "." + b == w.name + "." + (a + "." + b);
    }
  }

  /** Without any name, naming the empty string then `b` gives `b`, not `.b`. */
  lemma NamedEmptyThenName(l: ZerologLogger, b: string)
    ensures Wrap(l).Named("").Named(b).name == b
    ensures Wrap(l).Named("." + b).name == "." + b
  {
  }

  /**
   * The `logger` field rule across the naming operations: any wrapper adds the
   * field exactly when its name is non-empty, a fresh wrapper adds none, a
   * non-empty name adds exactly `logger=<name>`, and `With` keeps the name.
   */
  lemma LoggerFieldRule(w: Wrapper, l: ZerologLogger, n: string, msg: string, args: seq<Any>, extra: seq<Any>)
    ensures w.Info(msg, args).strs == [] <==> w.name == ""
    ensures w.name != "" ==> w.Info(msg, args).strs == [Field("logger", AString(w.name))]
    ensures Wrap(l).Name() == "" && Wrap(l).Info(msg, args).strs == []
    ensures w.With(extra).name == w.name && w.With(extra).logger.context == w.logger.context + [extra]
    ensures n != "" ==> w.ResetNamed(n).Info(msg, args).strs == [Field("logger", AString(n))]
    ensures w.With(extra).Info(msg, args).strs == w.Info(msg, args).strs
    ensures w.Named(n).Info(msg, args).strs == [] <==> w.name == "" && n == ""
  {
  }

  /** The no-op members: nothing implied, and SetLevel changes nothing. */
  lemma NoOps(w: Wrapper, level: Hclog.Level)
    ensures w.ImpliedArgs() == [] && w.SetLevel(level) == w
  {
  }
}
