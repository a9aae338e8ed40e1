/**
 * The Instancer of instancer.go: a client-side round-robin load balancer over
 * the endpoints of one Consul service, with listeners notified on every change.
 *
 * The watch plan's goroutine and locks are not modelled: every operation runs
 * to completion on its own. Calls to a listener's `OnChange` are returned as
 * `Notice` values, in the order the source makes them.
 */
module Konsul {
  import opened Results
  import opened Text
  import opened Hclog
  import opened ConsulApi

  const U64: int := 0x1_0000_0000_0000_0000

  /** Go's `uint64`. */
  newtype u64 = x: int | 0 <= x < 0x1_0000_0000_0000_0000

  /** `atomic.AddUint64(&c, 1)`: increment with wrap-around at 2^64. */
  function Advance(c: u64): (r: u64)
    ensures c as int + 1 < U64 ==> r as int == c as int + 1
    ensures c as int + 1 == U64 ==> r == 0
  {
    ((c as int + 1) % U64) as u64
  }

  // ---------------------------------------------------------------------------
  // Configuration

  /** `InstancerConfig`; a non-nil Consul client is `hasClient`. */
  datatype InstancerConfig = InstancerConfig(
    hasClient: bool,
    service: string,
    tag: string,
    passingOnly: bool,
    allowStale: bool,
    logger: Option<LoggerRef>)

  const NilClientPanic := "cannot provide nil consul api.Client, illegal use of api"
  const BlankServicePanic := "a consul service must be specified to load balance/monitor, illegal use of api"

  /** The service name is blank once surrounding white space is trimmed. */
  predicate IsBlank(s: string) { TrimSpace(s) == [] }

  /**
   * `InstancerConfig.validate`: a nil client or a blank service is a panic
   * (a Failure carrying the panic message); a nil logger becomes the default.
   */
  function Validate(c: InstancerConfig): (r: Result<InstancerConfig, string>)
    ensures r.Failure? <==> !c.hasClient || forall i :: 0 <= i < |c.service| ==> IsSpace(c.service[i])
    ensures !c.hasClient ==> r == Failure(NilClientPanic)
    ensures c.hasClient && IsBlank(c.service) ==> r == Failure(BlankServicePanic)
    ensures r.Success? ==> r.value.logger == Some(OrDefault(c.logger)) && r.value.(logger := c.logger) == c
  {
    if !c.hasClient then Failure(NilClientPanic)
    else if IsBlank(c.service) then Failure(BlankServicePanic)
    else Success(c.(logger := Some(OrDefault(c.logger))))
  }

  /** The parameter map handed to `watch.Parse` for a service watch. */
  function ServiceParams(c: InstancerConfig): (m: map<string, Param>)
    ensures m.Keys == {"type", "service", "passingonly", "stale"} + (if c.tag != "" then {"tag"} else {})
    ensures m["type"] == PStr("service") && m["service"] == PStr(c.service)
    ensures m["passingonly"] == PBool(c.passingOnly) && m["stale"] == PBool(c.allowStale)
    ensures "tag" in m ==> m["tag"] == PStr(c.tag)
  {
    var base := map["type" := PStr("service"), "service" := PStr(c.service),
                     "passingonly" := PBool(c.passingOnly), "stale" := PBool(c.allowStale)];
    if c.tag != "" then base["tag" := PStr(c.tag)] else base
  }

  /** The error `NewInstancer` returns when the watch plan cannot be parsed. */
  function PlanError(service: string, cause: string): string
  {
    "error creating watch plan for service " + service + ": " + cause
  }

  // ---------------------------------------------------------------------------
  // Endpoints

  /** The address an entry is reached at: the service address unless it is empty. */
  function Host(e: ServiceEntry): string
  {
    if e.serviceAddress != "" then e.serviceAddress else e.nodeAddress
  }

  /** `fmt.Sprintf("%s:%d", addr, port)`. */
  function Endpoint(e: ServiceEntry): string
  {
    Host(e) + ":" + IntToDecimal(e.servicePort)
  }

  /** Splits an endpoint at its last colon into a host and a decimal port. */
  function SplitHostPort(s: string): Option<(string, int)>
  {
    SplitAtLastColon(s, |s|)
  }

  /** Splits at the last colon strictly before position `k`, parsing what follows it as the port. */
  function SplitAtLastColon(s: string, k: nat): Option<(string, int)>
    requires k <= |s|
    decreases k
  {
    if k == 0 then None
    else if s[k - 1] == ':' then
      match ParseInt(s[k..])
      case None => None
      case Some(p) => Some((s[..k - 1], p))
    else SplitAtLastColon(s, k - 1)
  }

  lemma {:induction false} SplitAtLastColonAt(s: string, k: nat, host: string, port: string)
    requires s == host + ":" + port
    requires |host| + 1 <= k <= |s|
    requires forall i :: 0 <= i < |port| ==> port[i] != ':'
    ensures SplitAtLastColon(s, k) == (match ParseInt(port) case None => None case Some(p) => Some((host, p)))
    decreases k
  {
    if s[k - 1] != ':' {
      SplitAtLastColonAt(s, k - 1, host, port);
    } else {
      assert k - 1 == |host|;
      assert s[k..] == port;
      assert s[..k - 1] == host;
    }
  }

  /** An endpoint splits back into the chosen host and the entry's port, even when the host holds colons. */
  lemma EndpointSplits(e: ServiceEntry)
    ensures SplitHostPort(Endpoint(e)) == Some((Host(e), e.servicePort))
  {
    var port := IntToDecimal(e.servicePort);
    var s := Endpoint(e);
    assert s[|s| - 1] == port[|port| - 1];
    SplitAtLastColonAt(s, |s|, Host(e), port);
    ParseIntToDecimal(e.servicePort);
  }

  /** The snapshot a batch of entries produces, entry by entry and in order. */
  function Endpoints(d: seq<ServiceEntry>): (r: seq<string>)
  {
    seq(|d|, j requires 0 <= j < |d| => Endpoint(d[j]))
  }

  // ---------------------------------------------------------------------------
  // Round-robin selection

  /** The outcome of one `Instance` call: the endpoint, whether one was found, the next counter. */
  datatype Pick = Pick(endpoint: string, found: bool, next: u64)

  /** One selection from `instances` with the counter at `c`. */
  function Select(instances: seq<string>, c: u64): (p: Pick)
    ensures p.found <==> instances != []
    ensures !p.found ==> p.endpoint == "" && p.next == c
    ensures p.found ==> p.endpoint in instances && p.next == Advance(c)
    ensures p.found ==> p.endpoint == instances[c as int % |instances|]
  {
    if |instances| == 0 then Pick("", false, c)
    else Pick(instances[c as int % |instances|], true, Advance(c))
  }

  /** The endpoints returned by `k` consecutive selections over a fixed snapshot. */
  function Rounds(instances: seq<string>, c: u64, k: nat): (r: seq<string>)
    decreases k
  {
    if k == 0 then []
    else
      var p := Select(instances, c);
      [p.endpoint] + Rounds(instances, p.next, k - 1)
  }

  lemma {:induction false} RoundsAt(instances: seq<string>, c: u64, k: nat)
    requires instances != []
    requires c as int + k <= U64
    ensures |Rounds(instances, c, k)| == k
    ensures forall i :: 0 <= i < k ==> Rounds(instances, c, k)[i] == instances[(c as int + i) % |instances|]
    decreases k
  {
    if k > 0 {
      var n := |instances|;
      var rest := Rounds(instances, Advance(c), k - 1);
      if k > 1 {
        RoundsAt(instances, Advance(c), k - 1);
        forall i | 1 <= i < k
          ensures Rounds(instances, c, k)[i] == instances[(c as int + i) % n]
        {
          assert Rounds(instances, c, k)[i] == rest[i - 1];
        }
      } else {
        assert Rounds(instances, c, k) == [instances[c as int % n]];
      }
    }
  }

  /** Shifting by `i < n` from `c` lands `i` places after `c mod n`, wrapping once at `n`. */
  lemma ShiftedIndex(c: nat, n: nat, i: nat)
    requires 0 <= i < n
    ensures (c + i) % n == if c % n + i < n then c % n + i else c % n + i - n
  {
    var q, s := c / n, c % n;
    assert c + i == q * n + (s + i);
    if s + i < n {
      ModOfMultiplePlus(c + i, q, s + i, n);
    } else {
      assert c + i == (q + 1) * n + (s + i - n);
      ModOfMultiplePlus(c + i, q + 1, s + i - n, n);
    }
  }

  lemma ModOfMultiplePlus(x: int, q: int, r: int, n: int)
    requires 0 <= r < n && x == q * n + r
    ensures x % n == r
  {
    var d, m := x / n, x % n;
    assert (d - q) * n == r - m;
    if d > q {
      MulAtLeast(d - q, n);
    } else if d < q {
      MulAtLeast(q - d, n);
    }
  }

  lemma MulAtLeast(k: int, n: int)
    requires 1 <= k && 0 < n
    ensures k * n >= n
  {
  }

  /**
   * Cyclic fairness: over a stable snapshot of length N, N consecutive
   * selections return the snapshot rotated to start at `c mod N`, so every
   * position is visited exactly once. The window must not cross the counter's
   * wrap-around (see WrapRepeats).
   */
  lemma CyclicFairness(instances: seq<string>, c: u64)
    requires instances != []
    requires c as int + |instances| <= U64
    ensures var s := c as int % |instances|;
      Rounds(instances, c, |instances|) == instances[s..] + instances[..s]
    ensures multiset(Rounds(instances, c, |instances|)) == multiset(instances)
  {
    var n := |instances|;
    var s := c as int % n;
    var r := Rounds(instances, c, n);
    RoundsAt(instances, c, n);
    var rot := instances[s..] + instances[..s];
    forall i | 0 <= i < n ensures r[i] == rot[i] {
      ShiftedIndex(c as int, n, i);
    }
    assert r == rot;
    assert instances == instances[..s] + instances[s..];
  }

  /** Across the wrap-around the cycle breaks: with three endpoints, 2^64 - 1 and 0 both pick the first. */
  lemma WrapRepeats(a: string, b: string, c: string)
    ensures Rounds([a, b, c], (U64 - 1) as u64, 2) == [a, a]
  {
    assert (U64 - 1) % 3 == 0;
  }

  // ---------------------------------------------------------------------------
  // The Instancer

  /** The payload the watch plan hands to the change handler. */
  datatype Payload = ServiceEntries(entries: seq<ServiceEntry>) | Unexpected(typeName: string)

  /** One call of a listener's `OnChange`: its position in the list, the listener, the snapshot copy. */
  datatype Notice<L> = Notice(index: nat, listener: L, instances: seq<string>)

  /** The change handler's first loop: one endpoint per entry, in order. */
  method BuildInstances(d: seq<ServiceEntry>) returns (r: seq<string>)
    ensures r == Endpoints(d)
  {
    r := [];
    for j := 0 to |d|
      invariant |r| == j
      invariant forall k :: 0 <= k < j ==> r[k] == Endpoint(d[k])
    {
      var entry := d[j];
      var addr := entry.nodeAddress;
      if entry.serviceAddress != "" {
        addr := entry.serviceAddress;
      }
      r := r + [addr + ":" + IntToDecimal(entry.servicePort)];
    }
  }

  /** The change handler's second loop: every listener once, in registration order, with the same copy. */
  method NotifyAll<L>(listeners: seq<L>, snapshot: seq<string>) returns (notices: seq<Notice<L>>)
    ensures |notices| == |listeners|
    ensures forall k :: 0 <= k < |listeners| ==> notices[k] == Notice(k, listeners[k], snapshot)
  {
    notices := [];
    if |listeners| > 0 {
      for k := 0 to |listeners|
        invariant |notices| == k
        invariant forall m :: 0 <= m < k ==> notices[m] == Notice(m, listeners[m], snapshot)
      {
        notices := notices + [Notice(k, listeners[k], snapshot)];
      }
    }
  }

  class Instancer<L> {
    const service: string
    const logger: LoggerRef
    /** The parameters the watch plan was parsed from. */
    const params: map<string, Param>

    var instances: seq<string>
    var listeners: seq<L>
    var counter: u64
    /** `plan.IsStopped()`: set by Close. */
    var stopped: bool

    /** The struct literal of `NewInstancer`. */
    constructor (service: string, logger: LoggerRef, params: map<string, Param>)
      ensures this.service == service && this.logger == logger && this.params == params
      ensures instances == [] && listeners == [] && counter == 0 && !stopped
    {
      this.service := service;
      this.logger := logger;
      this.params := params;
      instances := [];
      listeners := [];
      counter := 0;
      stopped := false;
    }

    /** Stops the plan and clears the snapshot and the listeners; the counter is left alone. */
    method Close()
      modifies this
      ensures stopped && instances == [] && listeners == []
      ensures counter == old(counter)
    {
      stopped := true;
      instances := [];
      listeners := [];
    }

    /**
     * Appends `l` (no deduplication) and notifies it once, at once, with the
     * current snapshot, even an empty one.
     */
    method RegisterListener(l: L) returns (notice: Notice<L>)
      requires !stopped
      modifies this`listeners
      ensures listeners == old(listeners) + [l]
      ensures notice == Notice(|old(listeners)|, l, instances)
    {
      listeners := listeners + [l];
      var instancesCopy := instances;
      notice := Notice(|listeners| - 1, l, instancesCopy);
    }

    /**
     * Round-robin selection: `("", false)` on an empty snapshot with the
     * counter untouched; otherwise the endpoint at the pre-increment counter
     * modulo the snapshot length, and the counter advances by one (mod 2^64).
     */
    method Instance() returns (endpoint: string, found: bool)
      requires !stopped
      modifies this`counter
      ensures found <==> instances != []
      ensures !found ==> endpoint == "" && counter == old(counter)
      ensures found ==>
        && endpoint == instances[old(counter) as int % |instances|]
        && endpoint in instances
        && counter == Advance(old(counter))
      ensures Pick(endpoint, found, counter) == Select(instances, old(counter))
    {
      if |instances| == 0 {
        return "", false;
      }
      var prev := counter;
      counter := Advance(counter);
      var idx := prev as int % |instances|;
      return instances[idx], true;
    }

    /** A copy of the current snapshot. */
    method Instances() returns (snapshot: seq<string>)
      requires !stopped
      ensures snapshot == instances
    {
      snapshot := instances;
    }

    /**
     * The plan's change handler. A batch of service entries replaces the
     * snapshot wholesale and every listener is notified once, in order, with
     * the new snapshot; a payload of any other type changes nothing.
     */
    method Handler(index: u64, data: Payload) returns (notices: seq<Notice<L>>)
      modifies this`instances
      ensures listeners == old(listeners) && counter == old(counter) && stopped == old(stopped)
      ensures data.ServiceEntries? ==>
        && instances == Endpoints(data.entries)
        && |notices| == |listeners|
        && forall k :: 0 <= k < |listeners| ==> notices[k] == Notice(k, listeners[k], instances)
      ensures data.Unexpected? ==> instances == old(instances) && notices == []
    {
      match data
      case ServiceEntries(d) =>
        instances := BuildInstances(d);
        notices := NotifyAll(listeners, instances);
      case Unexpected(_) =>
        notices := [];
    }
  }

  /**
   * `NewInstancer` for a configuration that passes validation (an invalid one
   * panics). `parseError` is what `watch.Parse` reported for the parameters.
   */
  method NewInstancer<L>(config: InstancerConfig, parseError: Option<string>) returns (r: Result<Instancer<L>, string>)
    requires Validate(config).Success?
    ensures parseError.Some? <==> r.Failure?
    ensures parseError.Some? ==> r.error == PlanError(config.service, parseError.value)
    ensures r.Success? ==>
      && fresh(r.value)
      && r.value.instances == [] && r.value.listeners == [] && r.value.counter == 0 && !r.value.stopped
      && r.value.service == config.service
      && r.value.logger == OrDefault(config.logger)
      && r.value.params == ServiceParams(config)
  {
    var valid := Validate(config).value;
    var params := ServiceParams(valid);
    if parseError.Some? {
      return Failure(PlanError(config.service, parseError.value));
    }
    var instancer := new Instancer<L>(valid.service, valid.logger.value, params);
    return Success(instancer);
  }
}
