/** The gateway facade (`xiaomi.Gateway`): bootstrap over the transport, the
    collection of typed sensors, and the delivery of later events to them. */
module Gateway {
  import opened Wrappers
  import opened Errors
  import opened Envelope
  import opened EventRouter
  import opened Transport
  import opened Device

  const ModelSensorHT: string := "sensor_ht"
  const ModelWeatherV1: string := "weather.v1"

  /** One entry of the device collection. */
  datatype Child = HT(sensor: SensorHT) | Weather(station: WeatherV1) {
    function Sid(): string {
      match this
      case HT(s) => s.sid
      case Weather(w) => w.sid
    }
  }

  datatype Gateway = Gateway(transport: Transport, children: seq<Child>)

  /** The JSON decoders the bootstrap relies on, as `json.Unmarshal` behaves on
      a given text (None when it reports an error). */
  datatype Decoders = Decoders(
    list: string -> Option<seq<string>>,
    ht: string -> Option<HTData>,
    weather: string -> Option<WeatherData>)

  /** `NewGateway`: a transport error is reported as a token error whatever its
      cause (the code uses that message for both). */
  function NewGateway(addr: string, token: string): (r: Result<Gateway, Error>)
    ensures r.Ok? <==> New(addr, token).Ok?
    ensures r.Ok? ==> r.value == Gateway(New(addr, token).value, [])
    ensures r.Err? ==> r.error == Wrap(DecodeToken, New(addr, token).error)
  {
    match New(addr, token)
    case Err(e) => Err(Wrap(DecodeToken, e))
    case Ok(t) => Ok(Gateway(t, []))
  }

  /** `Sensors`: the collection as it stands. */
  function Sensors(g: Gateway): seq<Child> {
    g.children
  }

  /** The result of a bootstrap: the gateway as it is left, and the first error. */
  datatype Booted = Booted(g: Gateway, err: Option<Error>)

  /** What reading one child device leaves: the loop goes on with the
      (possibly grown) collection, or stops with the bootstrap's result. */
  datatype Step = Next(t: Transport, children: seq<Child>) | Stop(booted: Booted)

  /** One round of the loop of `Init`: read the device, build the typed sensor
      for the two known models and append it, skip any other model. */
  function ReadOne(t: Transport, children: seq<Child>, sid: string, reply: Network,
                   lib: Library, dec: Decoders, now: nat): (r: Step)
    ensures r.Stop? ==> r.booted.g.children == children && r.booted.err.Some?
    ensures r.Next? ==>
              (r.children == children
               || (|r.children| == |children| + 1 && children <= r.children
                   && r.children[|children|].Sid() == sid))
    // the read fails: stop, naming the device
    ensures var rd := RequestReadDevice(t, sid, reply, lib);
            rd.result.Err? ==> r == Stop(Booted(Gateway(rd.t, children), Some(Wrap(ReadDeviceInfo(sid), rd.result.error))))
    // a model other than the two known ones is skipped without an error
    ensures var rd := RequestReadDevice(t, sid, reply, lib);
            rd.result.Ok? && rd.result.value.model != ModelSensorHT && rd.result.value.model != ModelWeatherV1 ==>
              r == Next(rd.t, children)
    // `sensor_ht`: the built sensor is appended, or construction stops the loop
    ensures var rd := RequestReadDevice(t, sid, reply, lib);
            rd.result.Ok? && rd.result.value.model == ModelSensorHT ==>
              var built := NewSensorHT(rd.t, sid, dec.ht(rd.result.value.data), |children|, now);
              r == if built.result.Ok? then Next(built.t, children + [HT(built.result.value)])
                   else Stop(Booted(Gateway(built.t, children), Some(Wrap(CreateSensorHT, built.result.error))))
    // `weather.v1`: likewise with the weather station
    ensures var rd := RequestReadDevice(t, sid, reply, lib);
            rd.result.Ok? && rd.result.value.model == ModelWeatherV1 ==>
              var built := NewWeatherV1(rd.t, sid, dec.weather(rd.result.value.data), |children|, now);
              r == if built.result.Ok? then Next(built.t, children + [Weather(built.result.value)])
                   else Stop(Booted(Gateway(built.t, children), Some(Wrap(CreateWeatherV1, built.result.error))))
  {
    var rd := RequestReadDevice(t, sid, reply, lib);
    match rd.result
    case Err(e) => Stop(Booted(Gateway(rd.t, children), Some(Wrap(ReadDeviceInfo(sid), e))))
    case Ok(info) =>
      if info.model == ModelSensorHT then
        var built := NewSensorHT(rd.t, sid, dec.ht(info.data), |children|, now);
        match built.result
        case Err(e) => Stop(Booted(Gateway(built.t, children), Some(Wrap(CreateSensorHT, e))))
        case Ok(s) => Next(built.t, children + [HT(s)])
      else if info.model == ModelWeatherV1 then
        var built := NewWeatherV1(rd.t, sid, dec.weather(info.data), |children|, now);
        match built.result
        case Err(e) => Stop(Booted(Gateway(built.t, children), Some(Wrap(CreateWeatherV1, e))))
        case Ok(w) => Next(built.t, children + [Weather(w)])
      else Next(rd.t, children)
  }

  /** The loop of `Init` from position `i` of the SID list; the first error
      stops it and what was appended before stays in the collection. */
  function ReadChildren(t: Transport, children: seq<Child>, ids: seq<string>, i: nat,
                        replies: nat -> Network, lib: Library, dec: Decoders, now: nat): (b: Booted)
    requires i <= |ids|
    decreases |ids| - i
  {
    if i == |ids| then Booted(Gateway(t, children), None)
    else
      match ReadOne(t, children, ids[i], replies(i), lib, dec, now)
      case Stop(b) => b
      case Next(t', c') => ReadChildren(t', c', ids, i + 1, replies, lib, dec, now)
  }

  /** `Gateway.Init` as a function: start the transport (as `Start` is written),
      list the children, read them in order. */
  function Bootstrap(g: Gateway, sockets: Sockets, startNet: Network, listNet: Network,
                     replies: nat -> Network, lib: Library, dec: Decoders, now: nat): (b: Booted)
  {
    var st := StartAsWritten(g.transport, sockets, startNet, lib);
    if st.result.Err? then Booted(g.(transport := st.t), Some(Wrap(StartTransport, st.result.error)))
    else
      var ls := RequestGetChildDevicesIDs(st.t, listNet, lib, dec.list);
      if ls.result.Err? then Booted(g.(transport := ls.t), Some(Wrap(GetDevices, ls.result.error)))
      else ReadChildren(ls.t, g.children, ls.result.value, 0, replies, lib, dec, now)
  }

  /** `Gateway.Init`: the bootstrap loop over the child list. */
  method Init(g: Gateway, sockets: Sockets, startNet: Network, listNet: Network,
              replies: nat -> Network, lib: Library, dec: Decoders, now: nat)
    returns (g': Gateway, err: Option<Error>)
    ensures Booted(g', err) == Bootstrap(g, sockets, startNet, listNet, replies, lib, dec, now)
    ensures g.children <= g'.children
  {
    var st := StartAsWritten(g.transport, sockets, startNet, lib);
    if st.result.Err? {
      return g.(transport := st.t), Some(Wrap(StartTransport, st.result.error));
    }
    var ls := RequestGetChildDevicesIDs(st.t, listNet, lib, dec.list);
    if ls.result.Err? {
      return g.(transport := ls.t), Some(Wrap(GetDevices, ls.result.error));
    }
    var ids := ls.result.value;
    var t := ls.t;
    var children := g.children;
    var i := 0;
    while i < |ids|
      invariant i <= |ids|
      invariant ReadChildren(t, children, ids, i, replies, lib, dec, now)
             == ReadChildren(ls.t, g.children, ids, 0, replies, lib, dec, now)
      invariant g.children <= children
    {
      var step := ReadOne(t, children, ids[i], replies(i), lib, dec, now);
      if step.Stop? {
        return step.booted.g, step.booted.err;
      }
      t, children := step.t, step.children;
      i := i + 1;
    }
    return Gateway(t, children), None;
  }

  /** True iff `a` is `b` with some entries left out (order kept). */
  predicate Subsequence(a: seq<string>, b: seq<string>) {
    if a == [] then true
    else if b == [] then false
    else if a[0] == b[0] then Subsequence(a[1..], b[1..])
    else Subsequence(a, b[1..])
  }

  function Sids(cs: seq<Child>): (r: seq<string>)
    ensures |r| == |cs|
    ensures forall k :: 0 <= k < |cs| ==> r[k] == cs[k].Sid()
  {
    if cs == [] then [] else [cs[0].Sid()] + Sids(cs[1..])
  }

  /** Whatever happens, the loop only appends to the collection, and what it
      appends are sensors for SIDs of the list, in list order. */
  lemma {:induction false} ReadChildrenAppends(t: Transport, children: seq<Child>, ids: seq<string>, i: nat,
                                               replies: nat -> Network, lib: Library, dec: Decoders, now: nat)
    requires i <= |ids|
    ensures var b := ReadChildren(t, children, ids, i, replies, lib, dec, now);
            && children <= b.g.children
            && Subsequence(Sids(b.g.children[|children|..]), ids[i..])
    decreases |ids| - i
  {
    var b := ReadChildren(t, children, ids, i, replies, lib, dec, now);
    if i == |ids| {
      assert b.g.children[|children|..] == [];
    } else {
      var step := ReadOne(t, children, ids[i], replies(i), lib, dec, now);
      if step.Stop? {
        assert b.g.children[|children|..] == [];
      } else {
        ReadChildrenAppends(step.t, step.children, ids, i + 1, replies, lib, dec, now);
        if step.children == children {
          SkipSubsequence(Sids(b.g.children[|children|..]), ids, i);
        } else {
          ConsSubsequence(b.g.children, children, step.children, ids, i);
        }
      }
    }
  }

  /** One appended sensor for `ids[i]` followed by a subsequence of the rest. */
  lemma ConsSubsequence(all: seq<Child>, children: seq<Child>, c': seq<Child>, ids: seq<string>, i: nat)
    requires i < |ids| && |c'| == |children| + 1 && children <= c' && c'[|children|].Sid() == ids[i]
    requires c' <= all && Subsequence(Sids(all[|c'|..]), ids[i + 1..])
    ensures children <= all && Subsequence(Sids(all[|children|..]), ids[i..])
  {
    var s := Sids(all[|children|..]);
    assert s[0] == ids[i];
    assert s[1..] == Sids(all[|c'|..]);
    assert ids[i..][1..] == ids[i + 1..];
  }

  /** A subsequence of the rest is one of the whole list from `i`. */
  lemma {:induction false} SkipSubsequence(a: seq<string>, ids: seq<string>, i: nat)
    requires i < |ids| && Subsequence(a, ids[i + 1..])
    ensures Subsequence(a, ids[i..])
  {
    assert ids[i..][1..] == ids[i + 1..];
    if a != [] && a[0] == ids[i] {
      SubsequenceTail(a, ids[i + 1..]);
    }
  }

  /** Dropping the first entry keeps a subsequence a subsequence. */
  lemma {:induction false} SubsequenceTail(a: seq<string>, b: seq<string>)
    requires a != [] && Subsequence(a, b)
    ensures Subsequence(a[1..], b)
    decreases |b|, 0
  {
    if a[0] != b[0] {
      SubsequenceTail(a, b[1..]);
    }
    SubsequenceWeaken(a[1..], b[1..], b[0]);
    assert [b[0]] + b[1..] == b;
  }

  /** A subsequence of the tail of a list is one of the whole list. */
  lemma {:induction false} SubsequenceWeaken(a: seq<string>, b: seq<string>, x: string)
    requires Subsequence(a, b)
    ensures Subsequence(a, [x] + b)
    decreases |b|, 1
  {
    assert ([x] + b)[1..] == b;
    if a != [] && a[0] == x {
      SubsequenceTail(a, b);
    }
  }

  /** A route is sound when a sensor consumer names a slot of the collection
      holding the sensor of that SID (the gateway's own consumer is always sound). */
  predicate Targets(c: Consumer, sid: string, children: seq<Child>) {
    match c
    case GatewayHeartbeat => true
    case SensorHeartbeat(slot) => slot < |children| && children[slot].Sid() == sid
    case SensorReport(slot) => slot < |children| && children[slot].Sid() == sid
  }

  /** Every registered route of the transport is sound for the collection. */
  predicate Wired(g: Gateway) {
    && (forall sid :: sid in g.transport.router.heartbeat ==> Targets(g.transport.router.heartbeat[sid], sid, g.children))
    && (forall sid :: sid in g.transport.router.report ==> Targets(g.transport.router.report[sid], sid, g.children))
  }

  /** Routes stay sound when the collection grows at its end. */
  lemma TargetsGrow(c: Consumer, sid: string, children: seq<Child>, more: seq<Child>)
    requires Targets(c, sid, children) && children <= more
    ensures Targets(c, sid, more)
  {
  }

  /** One round of the loop keeps the routes sound: a new sensor is registered
      under its own SID at the slot it is appended to. */
  lemma ReadOneWired(t: Transport, children: seq<Child>, sid: string, reply: Network,
                     lib: Library, dec: Decoders, now: nat)
    requires Wired(Gateway(t, children))
    ensures var r := ReadOne(t, children, sid, reply, lib, dec, now);
            && (r.Next? ==> Wired(Gateway(r.t, r.children)))
            && (r.Stop? ==> Wired(r.booted.g))
  {
    var r := ReadOne(t, children, sid, reply, lib, dec, now);
    var rd := RequestReadDevice(t, sid, reply, lib);
    assert rd.t.router == t.router;
    if r.Next? && r.children != children {
      var t' := RegisterSensor(rd.t, sid, |children|);
      assert r.t == t';
      forall k | k in r.t.router.heartbeat
        ensures Targets(r.t.router.heartbeat[k], k, r.children)
      {
        if k != sid {
          TargetsGrow(t.router.heartbeat[k], k, children, r.children);
        }
      }
      forall k | k in r.t.router.report
        ensures Targets(r.t.router.report[k], k, r.children)
      {
        if k != sid {
          TargetsGrow(t.router.report[k], k, children, r.children);
        }
      }
    }
  }

  /** The loop keeps the routes sound. */
  lemma {:induction false} ReadChildrenWired(t: Transport, children: seq<Child>, ids: seq<string>, i: nat,
                                             replies: nat -> Network, lib: Library, dec: Decoders, now: nat)
    requires i <= |ids| && Wired(Gateway(t, children))
    ensures Wired(ReadChildren(t, children, ids, i, replies, lib, dec, now).g)
    decreases |ids| - i
  {
    if i < |ids| {
      var step := ReadOne(t, children, ids[i], replies(i), lib, dec, now);
      ReadOneWired(t, children, ids[i], replies(i), lib, dec, now);
      if step.Next? {
        ReadChildrenWired(step.t, step.children, ids, i + 1, replies, lib, dec, now);
      }
    }
  }

  /** The bootstrap keeps the routes sound, whatever the network does. */
  lemma BootstrapWired(g: Gateway, sockets: Sockets, startNet: Network, listNet: Network,
                       replies: nat -> Network, lib: Library, dec: Decoders, now: nat)
    requires Wired(g)
    ensures Wired(Bootstrap(g, sockets, startNet, listNet, replies, lib, dec, now).g)
  {
    var st := StartAsWritten(g.transport, sockets, startNet, lib);
    if st.result.Ok? {
      assert Wired(Gateway(st.t, g.children));
      var ls := RequestGetChildDevicesIDs(st.t, listNet, lib, dec.list);
      if ls.result.Ok? {
        assert ls.t.router == st.t.router;
        ReadChildrenWired(ls.t, g.children, ls.result.value, 0, replies, lib, dec, now);
      }
    }
  }

  /** The bootstrap's outcome: a failure to start or to list the children stops
      it before any device is read and leaves the collection as it was; every
      error carries the step that failed. */
  lemma BootstrapErrors(g: Gateway, sockets: Sockets, startNet: Network, listNet: Network,
                        replies: nat -> Network, lib: Library, dec: Decoders, now: nat)
    ensures var b := Bootstrap(g, sockets, startNet, listNet, replies, lib, dec, now);
            && (StartAsWritten(g.transport, sockets, startNet, lib).result.Err? ==>
                  b.g.children == g.children && b.err.Some? && b.err.value.reason == StartTransport)
            && (b.err.Some? ==> b.err.value.reason in {StartTransport, GetDevices, CreateSensorHT, CreateWeatherV1}
                                || b.err.value.reason.ReadDeviceInfo?)
            && g.children <= b.g.children
  {
    var st := StartAsWritten(g.transport, sockets, startNet, lib);
    if st.result.Ok? {
      var ls := RequestGetChildDevicesIDs(st.t, listNet, lib, dec.list);
      if ls.result.Ok? {
        ReadChildrenAppends(ls.t, g.children, ls.result.value, 0, replies, lib, dec, now);
        ReadChildrenErrors(ls.t, g.children, ls.result.value, 0, replies, lib, dec, now);
      }
    }
  }

  /** The start defect as the gateway shows it: when the bootstrap request
      times out, `Init` reports only that the transport did not start and that
      the device list call failed, without the timeout. */
  lemma BootstrapStartTimeout(g: Gateway, listNet: Network, replies: nat -> Network, lib: Library, dec: Decoders, now: nat)
    requires GetIdList !in g.transport.awaiting
    ensures var b := Bootstrap(g, SocketsUp, Silence, listNet, replies, lib, dec, now);
            && b.err == Some(Wrap(StartTransport, Leaf(CallDevicesList)))
            && !Mentions(b.err.value, TimedOut)
            && b.g.children == g.children
  {
    StartAsWrittenLosesCause(g.transport, lib);
  }

  /** Errors of the loop name the device step that failed. */
  lemma {:induction false} ReadChildrenErrors(t: Transport, children: seq<Child>, ids: seq<string>, i: nat,
                                              replies: nat -> Network, lib: Library, dec: Decoders, now: nat)
    requires i <= |ids|
    ensures var b := ReadChildren(t, children, ids, i, replies, lib, dec, now);
            b.err.Some? ==> b.err.value.reason in {CreateSensorHT, CreateWeatherV1} || b.err.value.reason.ReadDeviceInfo?
    decreases |ids| - i
  {
    if i < |ids| {
      var step := ReadOne(t, children, ids[i], replies(i), lib, dec, now);
      if step.Next? {
        ReadChildrenErrors(step.t, step.children, ids, i + 1, replies, lib, dec, now);
      }
    }
  }

  /** A device read failing after earlier sensors were built leaves those
      sensors in the collection: the bootstrap is not transactional. */
  lemma {:induction false} FailureKeepsEarlierSensors(t: Transport, children: seq<Child>, ids: seq<string>,
                                                      replies: nat -> Network, lib: Library, dec: Decoders, now: nat)
    requires |ids| == 2
    requires ReadOne(t, children, ids[0], replies(0), lib, dec, now).Next?
    requires var s0 := ReadOne(t, children, ids[0], replies(0), lib, dec, now);
             ReadOne(s0.t, s0.children, ids[1], replies(1), lib, dec, now).Stop?
    ensures var s0 := ReadOne(t, children, ids[0], replies(0), lib, dec, now);
            var b := ReadChildren(t, children, ids, 0, replies, lib, dec, now);
            b.err.Some? && b.g.children == s0.children
  {
    var s0 := ReadOne(t, children, ids[0], replies(0), lib, dec, now);
    assert ReadChildren(t, children, ids, 0, replies, lib, dec, now)
        == ReadChildren(s0.t, s0.children, ids, 1, replies, lib, dec, now);
  }

  /** A heartbeat or report handed to a sensor: its payload is decoded and
      applied as that sensor's `parseData` does. */
  function OnEvent(c: Child, data: string, dec: Decoders, now: nat): (c': Child)
    ensures c'.Sid() == c.Sid() && c'.HT? == c.HT?
    ensures c.HT? ==> c'.sensor == ParseHT(c.sensor, dec.ht(data), now).value
    ensures c.Weather? ==> c'.station == ParseWeather(c.station, dec.weather(data), now).value
  {
    match c
    case HT(s) => HT(OnEventHT(s, dec.ht(data), now))
    case Weather(w) => Weather(OnEventWeather(w, dec.weather(data), now))
  }

  /** Hand a decoded datagram to the transport; an event routed to a sensor
      updates that sensor in place (heartbeat and report parse alike), anything
      else leaves the collection unchanged. */
  function DeliverEvent(g: Gateway, decoded: Option<Message>, dec: Decoders, now: nat): (g': Gateway)
    ensures g'.transport == g.transport && |g'.children| == |g.children|
    ensures var rc := Receive(g.transport, decoded);
            rc.Routed? && rc.dispatch.Invoke? && !rc.dispatch.consumer.GatewayHeartbeat?
            && rc.dispatch.consumer.slot < |g.children| ==>
              g'.children[rc.dispatch.consumer.slot] == OnEvent(g.children[rc.dispatch.consumer.slot], rc.dispatch.data, dec, now)
    ensures Sids(g'.children) == Sids(g.children)
    ensures forall k :: 0 <= k < |g.children| && g'.children[k] != g.children[k] ==>
              && Receive(g.transport, decoded).Routed?
              && Receive(g.transport, decoded).dispatch.Invoke?
              && !Receive(g.transport, decoded).dispatch.consumer.GatewayHeartbeat?
              && Receive(g.transport, decoded).dispatch.consumer.slot == k
  {
    match Receive(g.transport, decoded)
    case Routed(Invoke(c, data)) =>
      if c.GatewayHeartbeat? || c.slot >= |g.children| then g
      else
        g.(children := g.children[c.slot := OnEvent(g.children[c.slot], data, dec, now)])
    case _ => g
  }

  /** On a soundly wired gateway an event for a registered sensor reaches the
      sensor whose SID it carries. */
  lemma EventReachesItsSensor(g: Gateway, m: Message, dec: Decoders, now: nat)
    requires Wired(g)
    requires !EndsWithAck(m.cmd)
    requires (m.cmd == HeartbeatCmd && m.sid in g.transport.router.heartbeat && !g.transport.router.heartbeat[m.sid].GatewayHeartbeat?)
          || (m.cmd == ReportCmd && m.sid in g.transport.router.report && !g.transport.router.report[m.sid].GatewayHeartbeat?)
    ensures var e := Receive(g.transport, Some(m));
            && e.Routed? && e.dispatch.Invoke? && !e.dispatch.consumer.GatewayHeartbeat?
            && var k := e.dispatch.consumer.slot;
               && k < |g.children| && g.children[k].Sid() == m.sid
               && var g' := DeliverEvent(g, Some(m), dec, now);
                  forall j :: 0 <= j < |g.children| && j != k ==> g'.children[j] == g.children[j]
  {
  }
}
