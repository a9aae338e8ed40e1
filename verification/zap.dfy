/**
 * The zap adapter of log/zap/zap.go: an hclog logger over a zap Logger. The
 * hclog variadic key/value arguments become zap fields through
 * `convertArgsToZapFields`. The zap Logger itself is foreign; it is modelled by
 * the calls the adapter makes on it (`With` and `Named`).
 */
module ZapAdapter {
  import opened Results
  import opened Text
  import opened Hclog
  import ZerologAdapter

  // ---------------------------------------------------------------------------
  // convertArgsToZapFields

  /** `fmt.Sprintf("arg%d", k)`. */
  function ArgName(k: nat): string { "arg" + NatToDecimal(k) }

  /**
   * The fields for the chunk that ends (exclusively) at position `i`: a lone
   * leading argument, a pair with a string key, or a pair whose first element
   * is not a string.
   */
  function ChunkFields(args: seq<Any>, i: nat): seq<Field>
    requires 1 <= i <= |args|
  {
    if i == 1 then [Field(ArgName(0), args[0])]
    else match args[i - 2]
      case AString(k) => [Field(k, args[i - 1])]
      case _ => [Field(ArgName(i - 1), args[i - 1]), Field(ArgName(i - 2), args[i - 2])]
  }

  /** The fields for `args[..i]`, walked backwards two at a time. */
  function FieldsBelow(args: seq<Any>, i: nat): seq<Field>
    requires i <= |args|
    decreases i
  {
    if i == 0 then [] else ChunkFields(args, i) + FieldsBelow(args, if i >= 2 then i - 2 else 0)
  }

  /** The fields `convertArgsToZapFields` produces for the whole argument list. */
  function ZapFields(args: seq<Any>): seq<Field>
  {
    FieldsBelow(args, |args|)
  }

  /** `convertArgsToZapFields`: the backwards, step-by-two walk. */
  method ConvertArgsToZapFields(args: seq<Any>) returns (fields: seq<Field>)
    ensures fields == ZapFields(args)
  {
    fields := [];
    var i: int := |args|;
    while i > 0
      invariant -1 <= i <= |args|
      invariant fields + FieldsBelow(args, if i < 0 then 0 else i) == ZapFields(args)
      decreases i
    {
      var left := i - 2;
      if left < 0 {
        left := 0;
      }
      var items := args[left..i];
      ghost var before := fields;
      if |items| == 2 {
        match items[0] {
          case AString(k) =>
            fields := fields + [Field(k, items[1])];
          case _ =>
            fields := fields + [Field(ArgName(i - 1), items[1])];
            fields := fields + [Field(ArgName(left), items[0])];
        }
      } else if |items| == 1 {
        fields := fields + [Field(ArgName(left), items[0])];
      }
      assert fields == before + ChunkFields(args, i) by {
        if i == 1 {
          assert items == [args[0]];
        } else {
          assert items == [args[i - 2], args[i - 1]];
        }
      }
      WalkStep(args, i, before);
      i := i - 2;
    }
  }

  /** One step of the walk: the chunk ending at `i`, then the rest below it. */
  lemma WalkStep(args: seq<Any>, i: nat, before: seq<Field>)
    requires 1 <= i <= |args|
    ensures (before + ChunkFields(args, i)) + FieldsBelow(args, if i >= 2 then i - 2 else 0)
         == before + FieldsBelow(args, i)
  {
  }

  /** The number of chunks in `args[..i]` that are pairs with a string key. */
  function KeyedPairs(args: seq<Any>, i: nat): nat
    requires i <= |args|
    decreases i
  {
    if i < 2 then 0
    else (if args[i - 2].AString? then 1 else 0) + KeyedPairs(args, i - 2)
  }

  lemma {:induction false} FieldsBelowLength(args: seq<Any>, i: nat)
    requires i <= |args|
    ensures |FieldsBelow(args, i)| == i - KeyedPairs(args, i)
    ensures 2 * KeyedPairs(args, i) <= i
    decreases i
  {
    if i >= 2 {
      FieldsBelowLength(args, i - 2);
    }
  }

  /**
   * One field per argument, except that a string key and its value share one:
   * hence at least ⌈n/2⌉ and at most n fields, and none for no arguments.
   */
  lemma ZapFieldsLength(args: seq<Any>)
    ensures |ZapFields(args)| == |args| - KeyedPairs(args, |args|)
    ensures (|args| + 1) / 2 <= |ZapFields(args)| <= |args|
    ensures args == [] ==> ZapFields(args) == []
  {
    FieldsBelowLength(args, |args|);
  }

  /** The values of a field list, in order. */
  function Values(fields: seq<Field>): (r: seq<Any>)
    ensures |r| == |fields|
  {
    seq(|fields|, k requires 0 <= k < |fields| => fields[k].value)
  }

  /** The string keys in `args[..i]`, from the last pair backwards. */
  function KeysBelow(args: seq<Any>, i: nat): seq<Any>
    requires i <= |args|
    decreases i
  {
    if i < 2 then []
    else (if args[i - 2].AString? then [args[i - 2]] else []) + KeysBelow(args, i - 2)
  }

  lemma ValuesAppend(a: seq<Field>, b: seq<Field>)
    ensures Values(a + b) == Values(a) + Values(b)
  {
  }

  /** A pair's chunk keeps both its elements, one as a value and the other as a value or the key. */
  lemma ChunkKeepsPair(args: seq<Any>, i: nat)
    requires 2 <= i <= |args|
    ensures multiset(Values(ChunkFields(args, i))) + multiset(if args[i - 2].AString? then [args[i - 2]] else [])
         == multiset([args[i - 2], args[i - 1]])
  {
    if args[i - 2].AString? {
      assert Values(ChunkFields(args, i)) == [args[i - 1]];
    } else {
      assert Values(ChunkFields(args, i)) == [args[i - 1], args[i - 2]];
    }
  }

  lemma PrefixSplit(args: seq<Any>, i: nat)
    requires 2 <= i <= |args|
    ensures multiset(args[..i]) == multiset(args[..i - 2]) + multiset([args[i - 2], args[i - 1]])
  {
    assert args[..i] == args[..i - 2] + [args[i - 2], args[i - 1]];
  }

  lemma {:induction false} NothingLostBelow(args: seq<Any>, i: nat)
    requires i <= |args|
    ensures multiset(Values(FieldsBelow(args, i))) + multiset(KeysBelow(args, i)) == multiset(args[..i])
    decreases i
  {
    if i == 1 {
      assert Values(FieldsBelow(args, 1)) == [args[0]];
      assert args[..1] == [args[0]];
    } else if i >= 2 {
      NothingLostBelow(args, i - 2);
      ChunkKeepsPair(args, i);
      ValuesAppend(ChunkFields(args, i), FieldsBelow(args, i - 2));
      PrefixSplit(args, i);
    }
  }

  /** Every argument survives, either as a field value or as the key naming one. */
  lemma NothingLost(args: seq<Any>)
    ensures multiset(Values(ZapFields(args))) + multiset(KeysBelow(args, |args|)) == multiset(args)
  {
    NothingLostBelow(args, |args|);
    assert args[..|args|] == args;
  }

  lemma {:induction false} KeyedPairsReversedBelow(args: seq<Any>, i: nat)
    requires i <= |args| && i % 2 == 0
    requires forall j :: 0 <= j < i && j % 2 == 0 ==> args[j].AString?
    ensures |FieldsBelow(args, i)| == i / 2
    ensures forall k :: 0 <= k < i / 2 ==> FieldsBelow(args, i)[k] == Field(args[i - 2 - 2 * k].s, args[i - 1 - 2 * k])
    decreases i
  {
    if i >= 2 {
      KeyedPairsReversedBelow(args, i - 2);
      var r := FieldsBelow(args, i);
      assert r == [Field(args[i - 2].s, args[i - 1])] + FieldsBelow(args, i - 2);
      forall k | 1 <= k < i / 2
        ensures r[k] == Field(args[i - 2 - 2 * k].s, args[i - 1 - 2 * k])
      {
        assert r[k] == FieldsBelow(args, i - 2)[k - 1];
      }
    }
  }

  /**
   * With an even list whose every key is a string, each pair gives one named
   * field and the fields come out in reverse pair order: field k is the pair
   * that ends 2k places from the end.
   */
  lemma KeyedPairsReversed(args: seq<Any>)
    requires |args| % 2 == 0
    requires forall j :: 0 <= j < |args| && j % 2 == 0 ==> args[j].AString?
    ensures |ZapFields(args)| == |args| / 2
    ensures forall k :: 0 <= k < |args| / 2 ==>
      ZapFields(args)[k] == Field(args[|args| - 2 - 2 * k].s, args[|args| - 1 - 2 * k])
  {
    KeyedPairsReversedBelow(args, |args|);
  }

  /** The last pair is consumed first: a string key names one field, any other key gives `arg{n-1}` then `arg{n-2}`. */
  lemma LastPairFirst(args: seq<Any>)
    requires |args| >= 2
    ensures args[|args| - 2].AString? ==> ZapFields(args)[0] == Field(args[|args| - 2].s, args[|args| - 1])
    ensures !args[|args| - 2].AString? ==>
      ZapFields(args)[..2] == [Field(ArgName(|args| - 1), args[|args| - 1]), Field(ArgName(|args| - 2), args[|args| - 2])]
  {
    var n := |args|;
    assert ZapFields(args) == ChunkFields(args, n) + FieldsBelow(args, n - 2);
  }

  lemma {:induction false} OddEndsWithArg0Below(args: seq<Any>, i: nat)
    requires i <= |args| && i % 2 == 1
    ensures |FieldsBelow(args, i)| >= 1
    ensures FieldsBelow(args, i)[|FieldsBelow(args, i)| - 1] == Field("arg0", args[0])
    decreases i
  {
    if i == 1 {
      assert ArgName(0) == "arg0";
    } else {
      OddEndsWithArg0Below(args, i - 2);
    }
  }

  /** An odd argument list ends in a field `arg0` holding the first argument. */
  lemma OddEndsWithArg0(args: seq<Any>)
    requires |args| % 2 == 1
    ensures |ZapFields(args)| >= 1
    ensures ZapFields(args)[|ZapFields(args)| - 1] == Field("arg0", args[0])
  {
    OddEndsWithArg0Below(args, |args|);
  }

  // ---------------------------------------------------------------------------
  // The Wrapper

  datatype ZapLevel = DebugLevel | InfoLevel | WarnLevel | ErrorLevel

  /** zap's numeric levels, from Debug (-1) to Error (2). */
  function Severity(z: ZapLevel): int
  {
    match z
    case DebugLevel => -1
    case InfoLevel => 0
    case WarnLevel => 1
    case ErrorLevel => 2
  }

  /** A call the adapter makes on the zap Logger. */
  datatype ZapCall = WithFields(fields: seq<Field>) | NamedAs(name: string)

  /** A zap Logger: an opaque base and the calls that derived it. */
  datatype ZapLogger = ZapLogger(base: nat, calls: seq<ZapCall>)

  /** One emitted entry. */
  datatype Entry = Entry(logger: ZapLogger, level: ZapLevel, msg: string, fields: seq<Field>)

  const NilLoggerPanic := "cannot wrap nil zap.Logger"

  /** `Wrap`: a nil logger panics; otherwise the wrapper starts without a name. */
  function Wrap(logger: Option<ZapLogger>): (r: Result<Wrapper, string>)
    ensures r.Failure? <==> logger.None?
    ensures r.Failure? ==> r.error == NilLoggerPanic
    ensures r.Success? ==> r.value.logger == logger.value && r.value.name == ""
  {
    match logger
    case None => Failure(NilLoggerPanic)
    case Some(l) => Success(Wrapper(l, ""))
  }

  /** The level table of `Log`: NoLevel, Trace and Debug all go to Debug. */
  function Route(level: Level): (r: Option<ZapLevel>)
    ensures r.Some? <==> NoLevel <= level <= Error
    ensures NoLevel <= level <= Debug ==> r == Some(DebugLevel)
    ensures level == Info ==> r == Some(InfoLevel)
    ensures level == Warn ==> r == Some(WarnLevel)
    ensures level == Error ==> r == Some(ErrorLevel)
  {
    if level == NoLevel || level == Trace || level == Debug then Some(DebugLevel)
    else if level == Info then Some(InfoLevel)
    else if level == Warn then Some(WarnLevel)
    else if level == Error then Some(ErrorLevel)
    else None
  }

  datatype Wrapper = Wrapper(logger: ZapLogger, name: string) {

    /** The common body of the level methods: the arguments become zap fields. */
    function Emit(level: ZapLevel, msg: string, args: seq<Any>): (e: Entry)
      ensures e.logger == logger && e.level == level && e.msg == msg
      ensures e.fields == ZapFields(args)
    {
      Entry(logger, level, msg, ZapFields(args))
    }

    /** `Trace` has no zap counterpart and is emitted at Debug. */
    function Trace(msg: string, args: seq<Any>): Entry { Emit(DebugLevel, msg, args) }
    function Debug(msg: string, args: seq<Any>): Entry { Emit(DebugLevel, msg, args) }
    function Info(msg: string, args: seq<Any>): Entry { Emit(InfoLevel, msg, args) }
    function Warn(msg: string, args: seq<Any>): Entry { Emit(WarnLevel, msg, args) }
    function Error(msg: string, args: seq<Any>): Entry { Emit(ErrorLevel, msg, args) }

    /** `Log`: routes through the level table; a level outside it emits nothing. */
    function Log(level: Level, msg: string, args: seq<Any>): (r: Option<Entry>)
      ensures r.Some? <==> NoLevel <= level <= Hclog.Error
      ensures r.Some? ==> r.value == Emit(Route(level).value, msg, args)
    {
      match Route(level)
      case None => None
      case Some(z) => Some(Emit(z, msg, args))
    }

    function IsTrace(): bool { false }

    function ImpliedArgs(): seq<Any> { [] }

    /** `With` hands the converted arguments to the zap logger and keeps the name. */
    function With(args: seq<Any>): (w: Wrapper)
      ensures w.name == name && w.logger.base == logger.base
      ensures w.logger.calls == logger.calls + [WithFields(ZapFields(args))]
    {
      Wrapper(logger.(calls := logger.calls + [WithFields(ZapFields(args))]), name)
    }

    function Name(): string { name }

    /** `Named` as written: always `old + "." + n`, passed whole to the zap logger. */
    function Named(n: string): (w: Wrapper)
      ensures w.name == name + "." + n
      ensures w.logger.calls == logger.calls + [NamedAs(w.name)]
    {
      var newName := name + "." + n;
      Wrapper(logger.(calls := logger.calls + [NamedAs(newName)]), newName)
    }

    /** `Named` as evidently intended: the dot only joins two non-empty parts. */
    function NamedIntended(n: string): (w: Wrapper)
      ensures name == "" ==> w.name == n
      ensures name != "" ==> w.name == name + "." + n
      ensures w.logger.calls == logger.calls + [NamedAs(w.name)]
    {
      var newName := if name != "" then name + "." + n else n;
      Wrapper(logger.(calls := logger.calls + [NamedAs(newName)]), newName)
    }

    /** `ResetNamed` takes the name as given. */
    function ResetNamed(n: string): (w: Wrapper)
      ensures w.name == n
      ensures w.logger.calls == logger.calls + [NamedAs(n)]
    {
      Wrapper(logger.(calls := logger.calls + [NamedAs(n)]), n)
    }

    function SetLevel(level: Level): Wrapper { this }
  }

  /**
   * A nil logger panics; any other is wrapped with no name, and entries then
   * go to that logger carrying the converted arguments.
   */
  lemma WrapRules(l: ZapLogger, msg: string, args: seq<Any>)
    ensures Wrap(None) == Failure(NilLoggerPanic)
    ensures Wrap(Some(l)).Success? && Wrap(Some(l)).value.Name() == ""
    ensures Wrap(Some(l)).value.Info(msg, args) == Entry(l, InfoLevel, msg, ZapFields(args))
  {
  }

  /** Routing keeps the order of hclog levels. */
  lemma RouteMonotone(a: Level, b: Level)
    requires NoLevel <= a <= b <= Error
    ensures Severity(Route(a).value) <= Severity(Route(b).value)
  {
  }

  /**
   * The two adapters accept the same levels and agree from Debug up, counting
   * zap's and zerolog's levels by name; they differ only for NoLevel and
   * Trace, which zap lowers to Debug.
   */
  lemma AdaptersRouteAlike(level: Level)
    ensures Route(level).Some? <==> ZerologAdapter.Route(level).Some?
    ensures Debug <= level <= Error ==>
      Severity(Route(level).value) + 1 == ZerologAdapter.Severity(ZerologAdapter.Route(level).value)
    ensures NoLevel <= level <= Trace ==>
      Route(level) == Some(DebugLevel) && ZerologAdapter.Route(level) == Some(ZerologAdapter.TraceLevel)
  {
  }

  /** Trace is never reported enabled, and a Trace message is emitted at Debug. */
  lemma TraceIsDebug(w: Wrapper, msg: string, args: seq<Any>)
    ensures !w.IsTrace()
    ensures w.Trace(msg, args) == w.Debug(msg, args) && w.Trace(msg, args).level == DebugLevel
  {
  }

  /** Names compose by dots; `With` and `ResetNamed` behave as documented. */
  lemma NamingRules(w: Wrapper, a: string, b: string, args: seq<Any>)
    ensures w.Named(a).Named(b).name == w.Named(a + "." + b).name
    ensures w.ResetNamed(a).Named(b).name == a + "." + b
    ensures w.With(args).name == w.name
    ensures w.With(args).Named(a).name == w.Named(a).name
    ensures w.Named(a).ResetNamed(b).name == b
  {
    assert (w.name + "." + a) + "." + b == w.name + "." + (a + "." + b);
  }

  /** As written, naming a fresh wrapper yields a leading dot: `Named("svc")` gives `.svc`. */
  lemma NamedLeadingDot(l: ZapLogger, n: string)
    ensures Wrap(Some(l)).value.Named(n).name == "." + n
    ensures Wrap(Some(l)).value.Named(n).name != Wrap(Some(l)).value.NamedIntended(n).name
  {
    assert ("." + n)[0] == '.';
    if n != [] && n[0] == '.' {
      assert |"." + n| != |n|;
    }
  }

  /**
   * The corrected `Named` never introduces a leading dot, composes like
   * hclog's own naming, and names like the zerolog adapter.
   */
  lemma NamedIntendedRules(w: Wrapper, a: string, b: string, z: ZerologAdapter.Wrapper)
    ensures w.name == "" ==> w.NamedIntended(a).name == a
    ensures (w.name == [] || w.name[0] != '.') && (a == [] || a[0] != '.') && w.NamedIntended(a).name != [] ==>
      w.NamedIntended(a).name[0] != '.'
    ensures w.name != "" || a != "" ==>
      w.NamedIntended(a).NamedIntended(b).name == w.NamedIntended(a + "." + b).name
    ensures z.name == w.name ==> w.NamedIntended(a).name == z.Named(a).name
  {
    if w.name != "" {
      assert (w.name + "." + a) + "." + b == w.name + "." + (a + "." + b);
      assert (w.name + "." + a)[0] == w.name[0];
    }
  }

  /** The no-op members: nothing implied, and SetLevel changes nothing. */
  lemma NoOps(w: Wrapper, level: Level)
    ensures w.ImpliedArgs() == [] && w.SetLevel(level) == w
  {
  }
}
