/** The gateway transport as a state-transition system.  Sockets, goroutines,
    channels and the request timer are gone: what a send, a wait or a receive
    produced is an input, and every operation returns the next state. */
module Transport {
  import opened Wrappers
  import opened Errors
  import opened Text
  import opened Hex
  import opened Address
  import opened Envelope
  import opened PendingTable
  import opened EventRouter

  const Port: nat := 9898
  const MulticastGroup: IPv4 := IPv4(224, 0, 0, 50)
  const AckSuffix: string := "_ack"
  const GetIdList: string := "get_id_list"
  const ReadCmd: string := "read"
  /** The fixed CBC initialisation vector of the protocol. */
  const InitVector: seq<byte> :=
    [0x17, 0x99, 0x6d, 0x09, 0x3d, 0x28, 0xdd, 0xb3, 0xba, 0x69, 0x5a, 0x2e, 0x6f, 0x58, 0x56, 0x2e]

  /** The library routines the transport calls and the model does not define:
      AES-CBC encryption (IV, key text, plain text) and `json.Marshal` of the
      request parameters. */
  datatype Library = Library(
    cbcEncrypt: (seq<byte>, string, string) -> seq<byte>,
    marshal: Params -> string)

  /** The transport's state: the configured address and token (whose bytes are
      the AES key), the gateway SID and session token learnt at start, the
      pending-request table with its ticket counter, and the consumer tables. */
  datatype Transport = Transport(
    address: IPv4,
    secret: string,
    gatewaySid: string,
    gatewayToken: string,
    awaiting: Table,
    issued: nat,
    router: Router)

  /** Every waiter in the table was issued before the counter. */
  predicate Valid(t: Transport) {
    forall cmd :: cmd in t.awaiting ==> t.awaiting[cmd].ticket < t.issued
  }

  /** The number of bytes of the UTF-8 encoding of `s` (`len([]byte(s))`). */
  function Utf8Len(s: string): nat {
    if s == [] then 0
    else
      var c := s[0] as int;
      (if c < 0x80 then 1 else if c < 0x800 then 2 else if c < 0x10000 then 3 else 4) + Utf8Len(s[1..])
  }

  /** `aes.NewCipher` accepts AES-128, AES-192 and AES-256 keys. */
  predicate ValidKeySize(n: nat) {
    n == 16 || n == 24 || n == 32
  }

  /** `New`: the token must be an AES key (checked first), the address an IPv4
      literal; the result has no gateway identity and empty tables. */
  function New(addr: string, token: string): (r: Result<Transport, Error>)
    ensures r.Ok? <==> ValidKeySize(Utf8Len(token)) && ParseIPv4(addr).Some?
    ensures !ValidKeySize(Utf8Len(token)) ==> r == Err(Wrap(DecodeToken, Leaf(InvalidKeySize(Utf8Len(token)))))
    ensures ValidKeySize(Utf8Len(token)) && ParseIPv4(addr).None? ==> r == Err(Leaf(DecodeAddress(addr)))
    ensures r.Ok? ==> && r.value.address == ParseIPv4(addr).value && r.value.secret == token
                      && r.value.gatewaySid == "" && r.value.gatewayToken == ""
                      && r.value.awaiting == map[] && r.value.router == EventRouter.Empty()
                      && Valid(r.value)
  {
    var size := Utf8Len(token);
    if !ValidKeySize(size) then Err(Wrap(DecodeToken, Leaf(InvalidKeySize(size))))
    else match ParseIPv4(addr)
      case None => Err(Leaf(DecodeAddress(addr)))
      case Some(ip) => Ok(Transport(ip, token, "", "", map[], 0, EventRouter.Empty()))
  }

  predicate EndsWithAck(cmd: string) {
    |cmd| >= |AckSuffix| && cmd[|cmd| - |AckSuffix|..] == AckSuffix
  }

  /** `strings.CutSuffix(cmd, "_ack")`: removes one trailing suffix, if present. */
  function CutAckSuffix(cmd: string): (r: (string, bool))
    ensures r.1 <==> EndsWithAck(cmd)
    ensures r.1 ==> r.0 + AckSuffix == cmd
    ensures !r.1 ==> r.0 == cmd
  {
    if EndsWithAck(cmd) then (cmd[..|cmd| - |AckSuffix|], true) else (cmd, false)
  }

  /** A decoded envelope is an acknowledgement of the command named by its
      `cmd` without the suffix, or an event. */
  datatype Inbound = Ack(msg: Message) | Event(msg: Message)

  function Classify(m: Message): (r: Inbound)
    ensures r.Ack? <==> EndsWithAck(m.cmd)
    ensures r.Ack? ==> r.msg.cmd + AckSuffix == m.cmd
    ensures r.Event? ==> r.msg == m
    ensures r.msg.(cmd := m.cmd) == m
  {
    var (name, isAck) := CutAckSuffix(m.cmd);
    if isAck then Ack(m.(cmd := name)) else Event(m)
  }

  /** Any name with the suffix appended is classified as an acknowledgement of
      exactly that name, even when the name itself ends in the suffix. */
  lemma {:induction false} AckOfName(m: Message, name: string)
    ensures Classify(m.(cmd := name + AckSuffix)) == Ack(m.(cmd := name))
  {
    var full := name + AckSuffix;
    assert full[|full| - |AckSuffix|..] == AckSuffix;
    assert full[..|full| - |AckSuffix|] == name;
  }

  /** Only one suffix is removed: `x_ack_ack` acknowledges `x_ack`. */
  lemma DoubleSuffix(m: Message)
    requires m.cmd == "x_ack_ack"
    ensures Classify(m) == Ack(m.(cmd := "x_ack"))
  {
    AckOfName(m, "x_ack");
    assert "x_ack" + AckSuffix == "x_ack_ack";
  }

  /** What handling one received datagram does.  None of these changes the
      transport: receiving never edits a table. */
  datatype Effect =
    | Dropped                                  // not valid JSON
    | Unexpected(msg: Message)                 // an acknowledgement nobody waits for
    | Deliver(waiter: Waiter, resp: Response)  // handed to the waiting request
    | Routed(dispatch: Dispatch)               // an event, given to the router

  /** `processIncomingMessage`, given what `json.Unmarshal` made of the datagram. */
  function Receive(t: Transport, decoded: Option<Message>): (e: Effect)
    ensures decoded.None? <==> e.Dropped?
    ensures e.Routed? <==> decoded.Some? && !EndsWithAck(decoded.value.cmd)
    ensures e.Routed? ==> e.dispatch == ProcessEvent(t.router, decoded.value)
    ensures e.Unexpected? <==> decoded.Some? && Classify(decoded.value).Ack? && Classify(decoded.value).msg.cmd !in t.awaiting
    ensures e.Deliver? ==> && decoded.Some? && Classify(decoded.value).Ack?
                           && var m := Classify(decoded.value).msg;
                              && m.cmd in t.awaiting && e.waiter == t.awaiting[m.cmd]
                              && e.resp == Replied(m, m.data)
  {
    match decoded
    case None => Dropped
    case Some(m) =>
      match Classify(m)
      case Ack(a) => ProcessIncomingCmd(t, a)
      case Event(ev) => Routed(ProcessEvent(t.router, ev))
  }

  /** `processIncomingCmd`: an acknowledgement goes to the waiter of its name,
      with `data` the envelope's `data`; without a waiter it is dropped.  A name
      left registered by a failed send still counts as a waiter here, though
      nobody reads its channel: in the code the unbuffered send then blocks the
      receiving goroutine for good, which this sequential model does not show. */
  function ProcessIncomingCmd(t: Transport, m: Message): (e: Effect)
    ensures e.Unexpected? || e.Deliver?
    ensures e.Unexpected? <==> m.cmd !in t.awaiting
    ensures e.Unexpected? ==> e.msg == m
    ensures e.Deliver? ==> e.waiter == t.awaiting[m.cmd] && e.resp == Replied(m, m.data)
  {
    match Get(t.awaiting, m.cmd)
    case None => Unexpected(m)
    case Some(w) => Deliver(w, Replied(m, m.data))
  }

  /** The `key` member of every request: the `%X` text of the session token
      encrypted under the configured token with the fixed IV. */
  function RequestKey(t: Transport, lib: Library): string {
    UpperHex(lib.cbcEncrypt(InitVector, t.secret, t.gatewayToken))
  }

  /** The parameters of an outgoing request: the caller's (nil meaning none)
      with `key` added, overwriting any `key` the caller passed. */
  function RequestData(params: Option<Params>, key: string): (d: Params)
    ensures "key" in d && d["key"] == Str(key)
    ensures d.Keys == params.GetOr(map[]).Keys + {"key"}
    ensures params.Some? ==> forall k :: k in params.value && k != "key" ==> d[k] == params.value[k]
  {
    params.GetOr(map[])["key" := Str(key)]
  }

  /** The envelope `request` writes: the addressed SID and command, `data` the
      JSON text of the parameters; `model` and `token` are empty and so omitted. */
  function Frame(t: Transport, sid: string, cmd: string, params: Option<Params>, lib: Library): (m: Message)
    ensures m.sid == sid && m.cmd == cmd && m.model == "" && m.token == ""
    ensures m.data == lib.marshal(RequestData(params, RequestKey(t, lib)))
  {
    Message(sid, "", lib.marshal(RequestData(params, RequestKey(t, lib))), "", cmd)
  }

  /** A request after the send step: answered already, or waiting. */
  datatype Pending = Done(resp: Response) | Waiting(waiter: Waiter)

  /** The state after `request`, the envelope handed to `sendMessage` (None if
      it was never called) and the pending outcome. */
  datatype Outbound = Outbound(t: Transport, written: Option<Message>, pending: Pending)

  /** `request` up to the send: a duplicate name fails at once with nothing
      written; otherwise the name is registered and the envelope is written.  A
      failed send returns an error but leaves the name registered. */
  function Request(t: Transport, sid: string, cmd: string, params: Option<Params>, lib: Library, sendOk: bool)
    : (o: Outbound)
    ensures cmd in t.awaiting ==> o == Outbound(t, None, Done(Failed(Leaf(AlreadyAwaiting(cmd)))))
    ensures cmd !in t.awaiting ==>
      && o.written == Some(Frame(t, sid, cmd, params, lib))
      && o.t == t.(awaiting := t.awaiting[cmd := Waiter(t.issued)], issued := t.issued + 1)
    ensures cmd !in t.awaiting && !sendOk ==> o.pending == Done(Failed(Wrap(SendCommand(cmd), Leaf(NetworkFailure))))
    ensures cmd !in t.awaiting && sendOk ==> o.pending == Waiting(Waiter(t.issued))
    ensures Valid(t) ==> Valid(o.t)
  {
    var w := Waiter(t.issued);
    match Queue(t.awaiting, cmd, w)
    case Err(e) => Outbound(t, None, Done(Failed(e)))
    case Ok(table) =>
      var t' := t.(awaiting := table, issued := t.issued + 1);
      var m := Frame(t, sid, cmd, params, lib);
      if !sendOk then Outbound(t', Some(m), Done(Failed(Wrap(SendCommand(cmd), Leaf(NetworkFailure)))))
      else Outbound(t', Some(m), Waiting(w))
  }

  /** Which branch of the `select` in `awaitResponseByName` fired. */
  datatype Wake = Timeout | Answer(resp: Response)

  /** `awaitResponseByName`: either way the name is dropped and exactly one
      response is delivered. */
  function Await(t: Transport, cmd: string, wake: Wake): (r: (Transport, Response))
    ensures r.0 == t.(awaiting := Drop(t.awaiting, cmd).0)
    ensures cmd !in r.0.awaiting
    ensures wake.Timeout? ==> r.1 == Failed(Leaf(TimedOut))
    ensures wake.Answer? ==> r.1 == wake.resp
  {
    var t' := t.(awaiting := Drop(t.awaiting, cmd).0);
    match wake
    case Timeout => (t', Failed(Leaf(TimedOut)))
    case Answer(resp) => (t', resp)
  }

  /** What the network did to one request: the send failed, nothing came back
      before the deadline, or one datagram arrived (as `json.Unmarshal` decoded it). */
  datatype Network = SendFails | Silence | Arrives(decoded: Option<Message>)

  /** One request from the caller's point of view: the state afterwards, the
      envelope written, and the response the caller reads from its channel. */
  datatype Call = Call(t: Transport, written: Option<Message>, resp: Response)

  /** `request` followed by its wait.  A datagram that is not the acknowledgement
      of this request (an event, someone else's ack, garbage) leaves the request
      to time out. */
  function Exchange(t: Transport, sid: string, cmd: string, params: Option<Params>, lib: Library, net: Network)
    : (c: Call)
    ensures c.t.router == t.router && c.t.gatewaySid == t.gatewaySid && c.t.gatewayToken == t.gatewayToken
    ensures c.t.address == t.address && c.t.secret == t.secret
    ensures cmd in t.awaiting ==> c == Call(t, None, Failed(Leaf(AlreadyAwaiting(cmd))))
    ensures cmd !in t.awaiting ==> c.written == Some(Frame(t, sid, cmd, params, lib))
    ensures cmd !in t.awaiting && net.SendFails? ==>
      && c.t.awaiting == t.awaiting[cmd := Waiter(t.issued)]
      && c.resp == Failed(Wrap(SendCommand(cmd), Leaf(NetworkFailure)))
    ensures cmd !in t.awaiting && !net.SendFails? ==> c.t.awaiting == t.awaiting
    ensures cmd !in t.awaiting && net.Silence? ==> c.resp == Failed(Leaf(TimedOut))
    ensures c.resp.Replied? ==> c.resp.msg.cmd == cmd && c.resp.data == c.resp.msg.data
    ensures Valid(t) ==> Valid(c.t)
  {
    var o := Request(t, sid, cmd, params, lib, !net.SendFails?);
    match o.pending
    case Done(resp) => Call(o.t, o.written, resp)
    case Waiting(w) =>
      var wake :=
        if net.Arrives? then
          match Receive(o.t, net.decoded)
          case Deliver(_, resp) => if resp.msg.cmd == cmd then Answer(resp) else Timeout
          case _ => Timeout
        else Timeout;
      var (t', resp) := Await(o.t, cmd, wake);
      assert t'.awaiting == t.awaiting by {
        QueueThenDrop(t.awaiting, cmd, w);
      }
      Call(t', o.written, resp)
  }

  /** The acknowledgement of a pending request reaches its caller unchanged
      apart from the removed suffix, and frees the name. */
  lemma ExchangeAcknowledged(t: Transport, sid: string, cmd: string, params: Option<Params>, lib: Library, m: Message)
    requires cmd !in t.awaiting
    ensures Exchange(t, sid, cmd, params, lib, Arrives(Some(m.(cmd := cmd + AckSuffix)))).resp
         == Replied(m.(cmd := cmd), m.data)
  {
    AckOfName(m, cmd);
  }

  /** After a failed send the name stays registered, so the next request with
      that name fails as a duplicate without writing anything. */
  lemma SendFailureBlocksName(t: Transport, sid: string, cmd: string, params: Option<Params>, lib: Library,
                              sid2: string, params2: Option<Params>, net2: Network)
    requires cmd !in t.awaiting
    ensures var c1 := Exchange(t, sid, cmd, params, lib, SendFails);
            Exchange(c1.t, sid2, cmd, params2, lib, net2) == Call(c1.t, None, Failed(Leaf(AlreadyAwaiting(cmd))))
  {
  }

  /** The result of an operation that performs a request: the next state, the
      envelope written (if any) and the value or error returned. */
  datatype Outcome<T> = Outcome(t: Transport, written: Option<Message>, result: Result<T, Error>)

  /** How opening the two sockets went. */
  datatype Sockets = SocketsUp | DialFails | MulticastFails

  /** The bootstrap round trip of `Start` shared by the code as written and the
      corrected version; `keepCause` says whether the request error is wrapped. */
  function StartWith(t: Transport, sockets: Sockets, net: Network, lib: Library, keepCause: bool): (r: Outcome<()>)
    ensures !sockets.SocketsUp? ==> r.t == t && r.written.None? && r.result.Err?
    ensures sockets.SocketsUp? && GetIdList !in t.awaiting ==> r.written == Some(Frame(t, "", GetIdList, None, lib))
    ensures r.result.Err? ==> r.t.gatewaySid == t.gatewaySid && r.t.gatewayToken == t.gatewayToken && r.t.router == t.router
    ensures sockets.SocketsUp? && r.result.Err? ==> r.result.error.reason == CallDevicesList
    ensures r.result.Ok? ==> r.t.router == RegisterHeartbeat(t.router, r.t.gatewaySid, GatewayHeartbeat)
    ensures r.t.address == t.address && r.t.secret == t.secret
    ensures Valid(t) ==> Valid(r.t)
  {
    match sockets
    case DialFails => Outcome(t, None, Err(Wrap(DialGateway, Leaf(NetworkFailure))))
    case MulticastFails => Outcome(t, None, Err(Wrap(DialMulticast, Leaf(NetworkFailure))))
    case SocketsUp =>
      var c := Exchange(t, "", GetIdList, None, lib, net);
      match c.resp
      case Failed(e) => Outcome(c.t, c.written, Err(Error(CallDevicesList, if keepCause then Some(e) else None)))
      case Replied(msg, _) =>
        var t' := c.t.(gatewaySid := msg.sid, gatewayToken := msg.token,
                       router := RegisterHeartbeat(c.t.router, msg.sid, GatewayHeartbeat));
        Outcome(t', c.written, Ok(()))
  }

  /** `Start` as the code is written, and as the gateway calls it: the state
      effects are those of the corrected `Start`, but on a failed bootstrap
      request the error wraps the (nil) socket error instead of the request's
      error, so it has no cause. */
  function StartAsWritten(t: Transport, sockets: Sockets, net: Network, lib: Library): (r: Outcome<()>)
    ensures !sockets.SocketsUp? ==> r.t == t && r.written.None? && r.result.Err?
    ensures sockets.SocketsUp? && GetIdList !in t.awaiting ==> r.written == Some(Frame(t, "", GetIdList, None, lib))
    ensures r.result.Err? ==> r.t.gatewaySid == t.gatewaySid && r.t.gatewayToken == t.gatewayToken && r.t.router == t.router
    ensures sockets.SocketsUp? && r.result.Err? ==> r.result.error == Leaf(CallDevicesList)
    ensures r.result.Ok? ==> r.t.router == RegisterHeartbeat(t.router, r.t.gatewaySid, GatewayHeartbeat)
    ensures r.t.address == t.address && r.t.secret == t.secret
    ensures Valid(t) ==> Valid(r.t)
  {
    StartWith(t, sockets, net, lib, false)
  }

  /** `Start`: open the sockets, then `get_id_list` with an empty SID; the reply
      supplies the gateway SID and session token, and the gateway's heartbeat
      consumer is registered.  Any failure leaves the identity and routes as they
      were, and the error keeps the request's error as its cause. */
  function Start(t: Transport, sockets: Sockets, net: Network, lib: Library): (r: Outcome<()>)
    ensures !sockets.SocketsUp? ==> r.t == t && r.written.None? && r.result.Err?
    ensures sockets.SocketsUp? && GetIdList !in t.awaiting ==> r.written == Some(Frame(t, "", GetIdList, None, lib))
    ensures r.result.Err? ==> r.t.gatewaySid == t.gatewaySid && r.t.gatewayToken == t.gatewayToken && r.t.router == t.router
    ensures sockets.SocketsUp? && r.result.Err? ==> r.result.error.reason == CallDevicesList && r.result.error.cause.Some?
    ensures r.result.Ok? ==> r.t.router == RegisterHeartbeat(t.router, r.t.gatewaySid, GatewayHeartbeat)
    ensures r.t.address == t.address && r.t.secret == t.secret
    ensures Valid(t) ==> Valid(r.t)
  {
    StartWith(t, sockets, net, lib, true)
  }

  /** A successful start takes the gateway's SID and token from the reply. */
  lemma StartLearnsIdentity(t: Transport, net: Network, lib: Library, m: Message)
    requires GetIdList !in t.awaiting
    requires net == Arrives(Some(m.(cmd := GetIdList + AckSuffix)))
    ensures var r := Start(t, SocketsUp, net, lib);
            && r.result.Ok? && r.t.gatewaySid == m.sid && r.t.gatewayToken == m.token
            && r.t.router.heartbeat[m.sid] == GatewayHeartbeat
            && r.t.awaiting == t.awaiting
  {
    ExchangeAcknowledged(t, "", GetIdList, None, lib, m);
  }

  /** The defect: when the bootstrap request times out, the error the code
      returns no longer says so, while the corrected `Start` keeps the cause. */
  lemma StartAsWrittenLosesCause(t: Transport, lib: Library)
    requires GetIdList !in t.awaiting
    ensures StartAsWritten(t, SocketsUp, Silence, lib).result == Err(Leaf(CallDevicesList))
    ensures !Mentions(StartAsWritten(t, SocketsUp, Silence, lib).result.error, TimedOut)
    ensures Start(t, SocketsUp, Silence, lib).result == Err(Wrap(CallDevicesList, Leaf(TimedOut)))
    ensures Root(Start(t, SocketsUp, Silence, lib).result.error) == TimedOut
  {
  }

  /** `RequestGetChildDevicesIDs`: `get_id_list` to the gateway SID without
      parameters; the reply's `data` must decode as a JSON array of strings,
      which is returned as received. */
  function RequestGetChildDevicesIDs(t: Transport, net: Network, lib: Library, decodeList: string -> Option<seq<string>>)
    : (r: Outcome<seq<string>>)
    ensures GetIdList !in t.awaiting ==> r.written == Some(Frame(t, t.gatewaySid, GetIdList, None, lib))
    ensures r.t == Exchange(t, t.gatewaySid, GetIdList, None, lib, net).t
    ensures r.result.Err? ==> r.result.error.reason in {GetDevicesList, ParseDevicesList}
    ensures r.result.Ok? ==> var resp := Exchange(t, t.gatewaySid, GetIdList, None, lib, net).resp;
                             resp.Replied? && decodeList(resp.data) == Some(r.result.value)
    ensures var resp := Exchange(t, t.gatewaySid, GetIdList, None, lib, net).resp;
            && (resp.Failed? ==> r.result == Err(Wrap(GetDevicesList, resp.err)))
            && (resp.Replied? && decodeList(resp.data).None? ==> r.result == Err(Wrap(ParseDevicesList, Leaf(JsonSyntax))))
            && (resp.Replied? && decodeList(resp.data).Some? ==> r.result == Ok(decodeList(resp.data).value))
  {
    var c := Exchange(t, t.gatewaySid, GetIdList, None, lib, net);
    match c.resp
    case Failed(e) => Outcome(c.t, c.written, Err(Wrap(GetDevicesList, e)))
    case Replied(_, data) =>
      match decodeList(data)
      case None => Outcome(c.t, c.written, Err(Wrap(ParseDevicesList, Leaf(JsonSyntax))))
      case Some(ids) => Outcome(c.t, c.written, Ok(ids))
  }

  /** What `RequestReadDevice` returns: the reply's model and its data text. */
  datatype DeviceInfo = DeviceInfo(model: string, data: string)

  /** `RequestReadDevice`: `read` to the given SID without parameters. */
  function RequestReadDevice(t: Transport, sid: string, net: Network, lib: Library): (r: Outcome<DeviceInfo>)
    ensures ReadCmd !in t.awaiting ==> r.written == Some(Frame(t, sid, ReadCmd, None, lib))
    ensures r.t == Exchange(t, sid, ReadCmd, None, lib, net).t
    ensures r.result.Err? ==> r.result.error.reason == GetDevicesList && r.result.error.cause.Some?
    ensures r.result.Ok? ==> var resp := Exchange(t, sid, ReadCmd, None, lib, net).resp;
                             resp.Replied? && r.result.value == DeviceInfo(resp.msg.model, resp.msg.data)
  {
    var c := Exchange(t, sid, ReadCmd, None, lib, net);
    match c.resp
    case Failed(e) => Outcome(c.t, c.written, Err(Wrap(GetDevicesList, e)))
    case Replied(msg, _) => Outcome(c.t, c.written, Ok(DeviceInfo(msg.model, msg.data)))
  }

  /** A read acknowledged by the device returns its model and data verbatim. */
  lemma ReadDeviceReply(t: Transport, sid: string, lib: Library, m: Message)
    requires ReadCmd !in t.awaiting
    ensures RequestReadDevice(t, sid, Arrives(Some(m.(cmd := ReadCmd + AckSuffix))), lib).result
         == Ok(DeviceInfo(m.model, m.data))
  {
    ExchangeAcknowledged(t, sid, ReadCmd, None, lib, m);
  }
}
