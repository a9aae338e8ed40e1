/**
 * `Watch` of watch.go: keeps a value refreshed from one Consul key. What is
 * modelled is the plan set-up and the change handler's decision table; the
 * call into `cfg.UnmarshalBinary` is represented by its outcome.
 */
module KonsulWatch {
  import opened Results
  import opened Hclog
  import opened ConsulApi

  /** What the watch plan hands the handler: nothing, a key/value pair, or something else. */
  datatype Raw = NilRaw | KVPairRaw(value: seq<bv8>) | OtherRaw(typeName: string)

  /** The outcome of `cfg.UnmarshalBinary(kv.Value)`. */
  datatype Unmarshal = Unmarshalled | UnmarshalFailed(err: string)

  /** `WatchOptions`; a non-nil `WatchNotification` callback is `notify`. */
  datatype WatchOptions = WatchOptions(logger: Option<LoggerRef>, panicOnUnmarshalFailure: bool, notify: bool)

  /** One call of `WatchNotification(key, err)`; a nil error is None. */
  datatype WatchNotice = WatchNotice(key: string, err: Option<string>)

  /**
   * What one handler call did: the bytes it passed to `UnmarshalBinary` (if it
   * called it), the notifications it issued, and the value it panicked with.
   */
  datatype HandlerOutcome = HandlerOutcome(unmarshalled: Option<seq<bv8>>, notices: seq<WatchNotice>, panicked: Option<string>)

  /** The error reported for a payload that is not a `*api.KVPair`. */
  function TypeError(typeName: string): string
  {
    "expected type *api.KVPair but got " + typeName
  }

  /** Notifies only when a callback is registered. */
  function NotifyIf(opts: WatchOptions, key: string, err: Option<string>): (r: seq<WatchNotice>)
    ensures opts.notify ==> r == [WatchNotice(key, err)]
    ensures !opts.notify ==> r == []
  {
    if opts.notify then [WatchNotice(key, err)] else []
  }

  /**
   * The handler closure of `Watch`. `unmarshal` is consulted only when the
   * payload is a key/value pair.
   */
  function HandleChange(opts: WatchOptions, key: string, raw: Raw, unmarshal: Unmarshal): (o: HandlerOutcome)
    ensures |o.notices| <= 1
    ensures !opts.notify ==> o.notices == []
    ensures opts.notify ==> (|o.notices| == 1 <==> !raw.NilRaw?)
    ensures forall k :: 0 <= k < |o.notices| ==> o.notices[k].key == key
    ensures o.unmarshalled.Some? <==> raw.KVPairRaw?
    ensures raw.KVPairRaw? ==> o.unmarshalled == Some(raw.value)
    ensures o.panicked.Some? <==> raw.KVPairRaw? && unmarshal.UnmarshalFailed? && opts.panicOnUnmarshalFailure
    ensures raw.NilRaw? ==> o == HandlerOutcome(None, [], None)
    ensures raw.OtherRaw? ==> forall k :: 0 <= k < |o.notices| ==> o.notices[k].err == Some(TypeError(raw.typeName))
    ensures raw.KVPairRaw? && unmarshal.UnmarshalFailed? ==>
      (forall k :: 0 <= k < |o.notices| ==> o.notices[k].err == Some(unmarshal.err))
      && (o.panicked.Some? ==> o.panicked.value == unmarshal.err)
    ensures raw.KVPairRaw? && unmarshal.Unmarshalled? ==>
      forall k :: 0 <= k < |o.notices| ==> o.notices[k].err == None
  {
    match raw
    case NilRaw => HandlerOutcome(None, [], None)
    case OtherRaw(t) => HandlerOutcome(None, NotifyIf(opts, key, Some(TypeError(t))), None)
    case KVPairRaw(v) =>
      match unmarshal
      case UnmarshalFailed(err) =>
        HandlerOutcome(Some(v), NotifyIf(opts, key, Some(err)),
                       if opts.panicOnUnmarshalFailure then Some(err) else None)
      case Unmarshalled =>
        HandlerOutcome(Some(v), NotifyIf(opts, key, None), None)
  }

  /** A notification carries an error exactly when the handler could not refresh the value. */
  lemma NoticeErrorIffFailure(opts: WatchOptions, key: string, raw: Raw, unmarshal: Unmarshal)
    requires opts.notify && !raw.NilRaw?
    ensures var o := HandleChange(opts, key, raw, unmarshal);
      o.notices[0].err.None? <==> raw.KVPairRaw? && unmarshal.Unmarshalled?
  {
  }

  /** A watch plan ready to run: the parameters it was parsed from and the logger it runs with. */
  datatype WatchPlan = WatchPlan(params: map<string, Param>, logger: LoggerRef)

  /**
   * The set-up part of `Watch`: the logger defaults to `hclog.Default()`, and
   * a `watch.Parse` failure (`parseError`) is returned wrapped, before anything runs.
   */
  function PlanWatch(key: string, opts: WatchOptions, parseError: Option<string>): (r: Result<WatchPlan, string>)
    ensures r.Failure? <==> parseError.Some?
    ensures r.Failure? ==> r.error == "failed to parse watch plan: " + parseError.value
    ensures r.Success? ==> r.value.logger == OrDefault(opts.logger)
    ensures r.Success? ==> r.value.params.Keys == {"type", "key"} && r.value.params["type"] == PStr("key") && r.value.params["key"] == PStr(key)
  {
    var logger := OrDefault(opts.logger);
    match parseError
    case Some(e) => Failure("failed to parse watch plan: " + e)
    case None => Success(WatchPlan(map["type" := PStr("key"), "key" := PStr(key)], logger))
  }
}
