/**
 * The parts of the hclog logging interface that the adapters and the core
 * depend on: levels, variadic arguments, structured fields and logger handles.
 */
module Hclog {
  import opened Results

  /** `hclog.Level` is an `int32`; every value outside the named ones is legal too. */
  newtype Level = x: int | -0x8000_0000 <= x < 0x8000_0000

  const NoLevel: Level := 0
  const Trace: Level := 1
  const Debug: Level := 2
  const Info: Level := 3
  const Warn: Level := 4
  const Error: Level := 5
  const Off: Level := 6

  /** A value passed through an `...interface{}` argument list. */
  datatype Any = AString(s: string) | AInt(i: int) | ABool(b: bool) | ANil | AOther(typeName: string)

  /** A structured log field: a key and the value it holds. */
  datatype Field = Field(key: string, value: Any)

  /** A logger handle: the package default or one supplied by the caller. */
  datatype LoggerRef = DefaultLogger | Supplied(handle: nat)

  /** A nil logger is replaced by `hclog.Default()`. */
  function OrDefault(logger: Option<LoggerRef>): (r: LoggerRef)
    ensures logger.Some? ==> r == logger.value
    ensures logger.None? ==> r == DefaultLogger
  {
    match logger
    case Some(l) => l
    case None => DefaultLogger
  }
}
