/** The interconnect service: it lists the peers of a BFD daemon, opens one
    monitoring stream per configured peer, and turns each BFD session state
    change into a DisablePeer or EnablePeer call on a GoBGP daemon.

    The gRPC calls are replaced by their outcomes, given as parameters: a
    dial yields a connection or an error, a server stream is the sequence of
    what its successive `Recv` calls return. A log call is recorded as an
    effect holding its level, format and operands; Logging renders it. */
module Service {
  import opened Outcome
  import opened Decimal
  import Logging

  type Bytes = seq<bv8>

  /** A gRPC client connection, known only by identity. */
  type ConnId = nat

  // --------------------------------------------------------- configuration

  datatype TlsConfig = TlsConfig(enable: bool, certFile: string)

  datatype ServerConfig = ServerConfig(host: string, tls: TlsConfig)

  /** `Config` without its logging part; `peers` maps a BFD peer name to a GoBGP neighbour address. */
  datatype Config = Config(bfd: ServerConfig, gobgp: ServerConfig, peers: map<string, string>)

  // ------------------------------------------------------------- effects

  /** `bfdapi.SessionState`; a value outside the four named ones keeps its number. */
  datatype SessionState = AdminDown | Down | Init | Up | Unrecognized(code: int)

  /** `SessionState.String()`. */
  function StateName(state: SessionState): (name: string)
    ensures |name| > 0
    // a named state prints as an upper-case identifier, an unnamed one as its number
    ensures !state.Unrecognized? ==> forall i :: 0 <= i < |name| ==> 'A' <= name[i] <= 'Z' || name[i] == '_'
    ensures state.Unrecognized? ==> name == IntToString(state.code)
    // the four names of the BFD API, which no number prints as
    ensures name in ["ADMIN_DOWN", "DOWN", "INIT", "UP"] <==> !state.Unrecognized?
  {
    match state
    case AdminDown => "ADMIN_DOWN"
    case Down => "DOWN"
    case Init => "INIT"
    case Up => "UP"
    case Unrecognized(code) => IntToString(code)
  }

  /** Different states print differently, so a log line names the state it saw. */
  lemma StateNameInjective(a: SessionState, b: SessionState)
    ensures StateName(a) == StateName(b) ==> a == b
  {
    if StateName(a) == StateName(b) {
      if a.Unrecognized? && b.Unrecognized? {
        IntToStringInjective(a.code, b.code);
      }
    }
  }

  /** A request sent to GoBGP; its reply is ignored. */
  datatype BgpCall = DisablePeer(address: string, communication: string) | EnablePeer(address: string)

  /** What the service does that is visible outside: a log call or a GoBGP call. */
  datatype Effect = Log(level: Logging.LogLevel, message: Logging.Message) | Call(request: BgpCall)

  const DisableReason: string := "disabled by bfd"

  /** `log.Errorf(format, err)` with one error operand. */
  function ErrorLog(format: string, error: string): Effect {
    Log(Logging.Error, Logging.Message(format, [Logging.ValueArg(error)]))
  }

  /** The GoBGP calls among `effects`, in order. */
  function Calls(effects: seq<Effect>): (calls: seq<BgpCall>)
    ensures |calls| <= |effects|
    ensures forall c :: c in calls ==> Call(c) in effects
  {
    if effects == [] then []
    else (if effects[0].Call? then [effects[0].request] else []) + Calls(effects[1..])
  }

  // ------------------------------------------ handleBfdPeerStateChange

  /** The configured address of a peer; a missing name reads as the empty string. */
  function Address(peers: map<string, string>, name: string): string {
    if name in peers then peers[name] else ""
  }

  /** The one effect of a state change: both down states disable the peer
      with the fixed reason, up enables it, anything else is only logged. */
  function HandleStateChange(peers: map<string, string>, name: string, state: SessionState): (e: Effect)
    ensures (e.Call? && e.request.DisablePeer?) <==> (state == AdminDown || state == Down)
    ensures (e.Call? && e.request.EnablePeer?) <==> state == Up
    ensures e.Call? ==> e.request.address == Address(peers, name)
    ensures e.Call? && e.request.DisablePeer? ==> e.request.communication == DisableReason
    ensures e.Log? ==>
              && e.level == Logging.Info
              && e.message.format == "ignoring session state change %s for peer %s"
              && e.message.args == [Logging.StrArg(StateName(state)), Logging.StrArg(name)]
  {
    match state
    case AdminDown => Call(DisablePeer(Address(peers, name), DisableReason))
    case Down => Call(DisablePeer(Address(peers, name), DisableReason))
    case Up => Call(EnablePeer(Address(peers, name)))
    case _ =>
      Log(Logging.Info, Logging.Message("ignoring session state change %s for peer %s",
                                        [Logging.StrArg(StateName(state)), Logging.StrArg(name)]))
  }

  // -------------------------------------------------------------- streams

  /** What one `Recv` on a server stream returns. */
  datatype Recv<T> = Item(value: T) | Eof | RecvError(error: string)

  /** The index of the first EOF or error; the length when every `Recv` so
      far returned a response (the stream has not ended: the next `Recv` blocks). */
  function FirstStop<T>(stream: seq<Recv<T>>): (k: nat)
    ensures k <= |stream|
    ensures forall i :: 0 <= i < k ==> stream[i].Item?
    ensures k < |stream| ==> !stream[k].Item?
  {
    if stream == [] || !stream[0].Item? then 0 else 1 + FirstStop(stream[1..])
  }

  /** The first index that holds no response is the first stop. */
  lemma FirstStopAt<T>(stream: seq<Recv<T>>, i: nat)
    requires i <= |stream| && forall j :: 0 <= j < i ==> stream[j].Item?
    requires i < |stream| ==> !stream[i].Item?
    ensures FirstStop(stream) == i
  {
  }

  /** Whether a loop reading `stream` leaves it. */
  predicate Ends<T>(stream: seq<Recv<T>>) {
    FirstStop(stream) < |stream|
  }

  /** The responses of a stream prefix with no EOF or error in it. */
  function Values<T>(stream: seq<Recv<T>>): (vs: seq<T>)
    requires forall i :: 0 <= i < |stream| ==> stream[i].Item?
    ensures |vs| == |stream|
    ensures forall i :: 0 <= i < |stream| ==> vs[i] == stream[i].value
  {
    if stream == [] then [] else Values(stream[..|stream| - 1]) + [stream[|stream| - 1].value]
  }

  lemma ValuesExtend<T>(stream: seq<Recv<T>>, i: nat)
    requires i < |stream| && forall j :: 0 <= j <= i ==> stream[j].Item?
    ensures Values(stream[..i + 1]) == Values(stream[..i]) + [stream[i].value]
  {
    assert stream[..i + 1][..i] == stream[..i];
  }

  /** The responses a reader receives before the stream stops. */
  function Received<T>(stream: seq<Recv<T>>): (vs: seq<T>)
    ensures |vs| == FirstStop(stream)
  {
    Values(stream[..FirstStop(stream)])
  }

  lemma ReceivedIgnoresRest<T>(stream: seq<Recv<T>>, rest: seq<Recv<T>>)
    requires Ends(stream)
    ensures FirstStop(stream + rest) == FirstStop(stream)
    ensures (stream + rest)[FirstStop(stream)] == stream[FirstStop(stream)]
    ensures Received(stream + rest) == Received(stream)
  {
    var k := FirstStop(stream);
    assert (stream + rest)[k] == stream[k];
    assert (stream + rest)[..k] == stream[..k];
  }

  // ------------------------------------------------------------ listPeers

  datatype PeerItem = PeerItem(name: string, uuid: Bytes)

  /** The map built by storing each item in turn: a later item with the same name overwrites. */
  function Directory(items: seq<PeerItem>): (dir: map<string, Bytes>)
    ensures dir.Keys == set i | i in items :: i.name
  {
    if items == [] then map[]
    else
      var last := items[|items| - 1];
      var front := items[..|items| - 1];
      assert items == front + [last];
      Directory(front)[last.name := last.uuid]
  }

  /** Storing one more item. */
  lemma DirectoryExtend(items: seq<PeerItem>, p: PeerItem)
    ensures Directory(items + [p]) == Directory(items)[p.name := p.uuid]
  {
    assert (items + [p])[..|items|] == items;
  }

  /** The last item with a given name decides its uuid. */
  lemma {:induction false} DirectoryLastWriteWins(items: seq<PeerItem>, k: nat)
    requires k < |items|
    requires forall j :: k < j < |items| ==> items[j].name != items[k].name
    ensures items[k].name in Directory(items)
    ensures Directory(items)[items[k].name] == items[k].uuid
  {
    var front := items[..|items| - 1];
    if k < |items| - 1 {
      DirectoryLastWriteWins(front, k);
    }
  }

  /** The outcome of `listPeers`: a directory, an error with no partial map,
      or no answer at all while the stream is still open. */
  datatype Listing = Listed(peers: map<string, Bytes>) | ListFailed(error: string) | ListBlocked

  /** `listPeers` for the answer `call` of the ListPeer call and the stream it opens. */
  function ListOutcome(call: Status, stream: seq<Recv<PeerItem>>): (r: Listing)
    ensures r.ListBlocked? <==> call.Success? && !Ends(stream)
    ensures r.Listed? ==> call.Success? && Ends(stream) && stream[FirstStop(stream)].Eof?
  {
    if call.Failure? then ListFailed(call.error)
    else
      var k := FirstStop(stream);
      if k == |stream| then ListBlocked
      else if stream[k].RecvError? then ListFailed(stream[k].error)
      else Listed(Directory(Received(stream)))
  }

  /** `listPeers`, storing each response into the map as it arrives. */
  method ListPeers(call: Status, stream: seq<Recv<PeerItem>>) returns (r: Listing)
    ensures r == ListOutcome(call, stream)
  {
    if call.Failure? {
      return ListFailed(call.error);
    }
    var peers: map<string, Bytes> := map[];
    var i := 0;
    while i < |stream|
      invariant 0 <= i <= |stream|
      invariant forall j :: 0 <= j < i ==> stream[j].Item?
      invariant peers == Directory(Values(stream[..i]))
    {
      match stream[i]
      case Eof =>
        ListOutcomeAt(call, stream, i);
        return Listed(peers);
      case RecvError(e) =>
        ListOutcomeAt(call, stream, i);
        return ListFailed(e);
      case Item(p) =>
        ValuesExtend(stream, i);
        DirectoryExtend(Values(stream[..i]), p);
        peers := peers[p.name := p.uuid];
      i := i + 1;
    }
    ListOutcomeAt(call, stream, i);
    return ListBlocked;
  }

  /** The outcome once a reader stops at index `i`. */
  lemma ListOutcomeAt(call: Status, stream: seq<Recv<PeerItem>>, i: nat)
    requires call.Success? && i <= |stream| && forall j :: 0 <= j < i ==> stream[j].Item?
    requires i < |stream| ==> !stream[i].Item?
    ensures ListOutcome(call, stream) ==
            if i == |stream| then ListBlocked
            else if stream[i].RecvError? then ListFailed(stream[i].error)
            else Listed(Directory(Values(stream[..i])))
  {
    FirstStopAt(stream, i);
  }

  /** A listing holds exactly the names received before EOF, each with the
      uuid of its last response. */
  lemma ListedIsLastWriteWins(call: Status, stream: seq<Recv<PeerItem>>, k: nat)
    requires ListOutcome(call, stream).Listed?
    ensures var dir := ListOutcome(call, stream).peers;
            && FirstStop(stream) < |stream| && stream[FirstStop(stream)].Eof?
            && dir.Keys == (set p | p in Received(stream) :: p.name)
            && (k < FirstStop(stream) &&
                (forall j :: k < j < FirstStop(stream) ==> stream[j].value.name != stream[k].value.name)
                ==> stream[k].value.name in dir && dir[stream[k].value.name] == stream[k].value.uuid)
  {
    var items := Received(stream);
    if k < FirstStop(stream) &&
       (forall j :: k < j < FirstStop(stream) ==> stream[j].value.name != stream[k].value.name) {
      DirectoryLastWriteWins(items, k);
    }
  }

  /** A failed call or any error on the stream gives an error and no map;
      a stream that never ends gives no answer. */
  lemma ListErrorsGiveNoMap(call: Status, stream: seq<Recv<PeerItem>>)
    ensures var r := ListOutcome(call, stream);
            && (r.ListFailed? <==> call.Failure? || (Ends(stream) && stream[FirstStop(stream)].RecvError?))
            && (call.Failure? ==> r == ListFailed(call.error))
            && (call.Success? && Ends(stream) && stream[FirstStop(stream)].RecvError? ==>
                  r == ListFailed(stream[FirstStop(stream)].error))
            && (r.ListBlocked? <==> call.Success? && !Ends(stream))
  {
  }

  /** Nothing after the first EOF or error is read. */
  lemma ListIgnoresRest(call: Status, stream: seq<Recv<PeerItem>>, rest: seq<Recv<PeerItem>>)
    requires Ends(stream)
    ensures ListOutcome(call, stream + rest) == ListOutcome(call, stream)
  {
    ReceivedIgnoresRest(stream, rest);
  }

  // -------------------------------------------------------- serviceEvents

  function ChangedLog(name: string, state: SessionState): Effect {
    Log(Logging.Info, Logging.Message("bfd peer %s changed to %s",
                                      [Logging.StrArg(name), Logging.StrArg(StateName(state))]))
  }

  function ReadFailedLog(error: string): Effect {
    ErrorLog("failed to read bfd monitoring stream: %+v", error)
  }

  /** The effects of one state change: the log line, then `handleBfdPeerStateChange`. */
  function Reaction(peers: map<string, string>, name: string, state: SessionState): seq<Effect> {
    [ChangedLog(name, state), HandleStateChange(peers, name, state)]
  }

  /** The effects of a run of state changes, one reaction each. */
  function Reactions(peers: map<string, string>, name: string, states: seq<SessionState>): (effects: seq<Effect>)
    ensures |effects| == 2 * |states|
  {
    if states == [] then []
    else Reactions(peers, name, states[..|states| - 1]) + Reaction(peers, name, states[|states| - 1])
  }

  lemma ReactionsAppend(peers: map<string, string>, name: string, states: seq<SessionState>, state: SessionState)
    ensures Reactions(peers, name, states + [state]) == Reactions(peers, name, states) + Reaction(peers, name, state)
  {
    assert (states + [state])[..|states|] == states;
  }

  /** The i-th state change gives the effects at 2i and 2i+1. */
  lemma {:induction false} ReactionsAt(peers: map<string, string>, name: string, states: seq<SessionState>, i: nat)
    requires i < |states|
    ensures Reactions(peers, name, states)[2 * i] == ChangedLog(name, states[i])
    ensures Reactions(peers, name, states)[2 * i + 1] == HandleStateChange(peers, name, states[i])
  {
    var front := states[..|states| - 1];
    if i < |states| - 1 {
      ReactionsAt(peers, name, front, i);
    }
  }

  /** The effects of `serviceEvents` on one peer's monitoring stream: one
      reaction per response in stream order, then a log line if the stream
      ended with an error. */
  function MonitorRun(peers: map<string, string>, name: string, stream: seq<Recv<SessionState>>): (effects: seq<Effect>)
    ensures |effects| == 2 * FirstStop(stream) + (if Ends(stream) && stream[FirstStop(stream)].RecvError? then 1 else 0)
  {
    var k := FirstStop(stream);
    Reactions(peers, name, Received(stream))
    + if k < |stream| && stream[k].RecvError? then [ReadFailedLog(stream[k].error)] else []
  }

  /** `MonitorRun` for a stream whose first EOF or error is at `i`, or that has none before `i == |stream|`. */
  lemma MonitorRunStopsAt(peers: map<string, string>, name: string, stream: seq<Recv<SessionState>>, i: nat)
    requires i <= |stream| && (forall j :: 0 <= j < i ==> stream[j].Item?) && (i < |stream| ==> !stream[i].Item?)
    ensures i == FirstStop(stream)
    ensures MonitorRun(peers, name, stream) ==
            Reactions(peers, name, Values(stream[..i]))
            + if i < |stream| && stream[i].RecvError? then [ReadFailedLog(stream[i].error)] else []
  {
  }

  /** Each response is handled once, in order, and an error is reported last. */
  lemma MonitorRunHandlesEachResponse(peers: map<string, string>, name: string, stream: seq<Recv<SessionState>>)
    ensures var effects := MonitorRun(peers, name, stream);
            var k := FirstStop(stream);
            && |effects| == 2 * k + (if Ends(stream) && stream[k].RecvError? then 1 else 0)
            && (forall i :: 0 <= i < k ==>
                  effects[2 * i] == ChangedLog(name, stream[i].value) &&
                  effects[2 * i + 1] == HandleStateChange(peers, name, stream[i].value))
            && (Ends(stream) && stream[k].RecvError? ==> effects[2 * k] == ReadFailedLog(stream[k].error))
  {
    var k := FirstStop(stream);
    var vs := Received(stream);
    var effects := MonitorRun(peers, name, stream);
    forall i | 0 <= i < k
      ensures effects[2 * i] == ChangedLog(name, stream[i].value)
      ensures effects[2 * i + 1] == HandleStateChange(peers, name, stream[i].value)
    {
      assert stream[..k][i] == stream[i];
      ReactionsAt(peers, name, vs, i);
    }
  }

  /** Nothing after the first EOF or error is processed. */
  lemma MonitorIgnoresRest(peers: map<string, string>, name: string,
                           stream: seq<Recv<SessionState>>, rest: seq<Recv<SessionState>>)
    requires Ends(stream)
    ensures MonitorRun(peers, name, stream + rest) == MonitorRun(peers, name, stream)
  {
    ReceivedIgnoresRest(stream, rest);
  }

  /** The GoBGP calls a run of state changes makes, one per up or down state. */
  function Actions(peers: map<string, string>, name: string, states: seq<SessionState>): seq<BgpCall> {
    if states == [] then []
    else
      var e := HandleStateChange(peers, name, states[|states| - 1]);
      Actions(peers, name, states[..|states| - 1]) + (if e.Call? then [e.request] else [])
  }

  lemma {:induction false} CallsAppend(a: seq<Effect>, b: seq<Effect>)
    ensures Calls(a + b) == Calls(a) + Calls(b)
  {
    if a != [] {
      assert (a + b)[0] == a[0];
      assert (a + b)[1..] == a[1..] + b;
      CallsAppend(a[1..], b);
      var head := if a[0].Call? then [a[0].request] else [];
      assert Calls(a + b) == head + (Calls(a[1..]) + Calls(b));
    } else {
      assert a + b == b;
    }
  }

  /** Only the state changes call GoBGP: the log lines between them add no call. */
  lemma {:induction false} CallsOfReactions(peers: map<string, string>, name: string, states: seq<SessionState>)
    ensures Calls(Reactions(peers, name, states)) == Actions(peers, name, states)
  {
    if states != [] {
      var front, last := states[..|states| - 1], states[|states| - 1];
      CallsOfReactions(peers, name, front);
      CallsAppend(Reactions(peers, name, front), Reaction(peers, name, last));
      assert Calls(Reaction(peers, name, last)) ==
             Calls([HandleStateChange(peers, name, last)]);
    }
  }

  /** The GoBGP calls of a monitoring run are those of its received states, in order. */
  lemma MonitorCalls(peers: map<string, string>, name: string, stream: seq<Recv<SessionState>>)
    ensures Calls(MonitorRun(peers, name, stream)) == Actions(peers, name, Received(stream))
  {
    var k := FirstStop(stream);
    CallsOfReactions(peers, name, Received(stream));
    if k < |stream| && stream[k].RecvError? {
      CallsAppend(Reactions(peers, name, Received(stream)), [ReadFailedLog(stream[k].error)]);
    } else {
      assert MonitorRun(peers, name, stream) == Reactions(peers, name, Received(stream));
    }
  }

  lemma ReceivedFlap()
    ensures Received([Item(Up), Item(Down), Item(Up), Eof]) == [Up, Down, Up]
  {
    var stream: seq<Recv<SessionState>> := [Item(Up), Item(Down), Item(Up), Eof];
    assert FirstStop(stream[3..]) == 0;
    assert FirstStop(stream) == 3;
    assert stream[..3] == [Item(Up), Item(Down), Item(Up)];
  }

  lemma ActionsFlap(peers: map<string, string>, name: string)
    ensures var enable, disable := EnablePeer(Address(peers, name)), DisablePeer(Address(peers, name), DisableReason);
            Actions(peers, name, [Up, Down, Up]) == [enable, disable, enable]
  {
    var enable, disable := EnablePeer(Address(peers, name)), DisablePeer(Address(peers, name), DisableReason);
    assert [Up][..0] == [];
    assert Actions(peers, name, [Up]) == [enable];
    assert [Up, Down][..1] == [Up];
    assert Actions(peers, name, [Up, Down]) == [enable, disable];
    assert [Up, Down, Up][..2] == [Up, Down];
  }

  /** A peer that goes up, down and up again is enabled, disabled and enabled
      at its configured address, whatever the stream holds after its EOF. */
  lemma FlappingPeer(peers: map<string, string>, name: string, rest: seq<Recv<SessionState>>)
    requires name in peers
    ensures var address := peers[name];
            Calls(MonitorRun(peers, name, [Item(Up), Item(Down), Item(Up), Eof] + rest)) ==
            [EnablePeer(address), DisablePeer(address, DisableReason), EnablePeer(address)]
  {
    var stream: seq<Recv<SessionState>> := [Item(Up), Item(Down), Item(Up), Eof];
    MonitorIgnoresRest(peers, name, stream, rest);
    MonitorCalls(peers, name, stream);
    ReceivedFlap();
    ActionsFlap(peers, name);
  }

  // ------------------------------------------------------ newGrpcConnection

  datatype Credentials = SystemTrust | FromFile(path: string)

  datatype DialOption = WithBlock | WithTransportCredentials(creds: Credentials) | WithInsecure

  /** A `grpc.DialContext` call: the target, the options, and the context's timeout. */
  datatype DialRequest = DialRequest(host: string, options: seq<DialOption>, timeoutSeconds: nat)

  /** What `newGrpcConnection` returns. The two failures differ in whether a
      cancel function comes with them. */
  datatype Dialed =
    | CertFailed(error: string)                    // (nil, nil, err)
    | DialFailed(request: DialRequest, error: string)  // (nil, cancel, err)
    | Connected(request: DialRequest, conn: ConnId)    // (conn, cancel, nil)
  {
    predicate HasCancel() {
      !CertFailed?
    }
  }

  /** The credentials option for a server's TLS settings. */
  function TransportOption(tls: TlsConfig): DialOption {
    if !tls.enable then WithInsecure
    else if tls.certFile == "" then WithTransportCredentials(SystemTrust)
    else WithTransportCredentials(FromFile(tls.certFile))
  }

  /** Whether the settings make `newGrpcConnection` load a certificate file. */
  predicate LoadsCert(tls: TlsConfig) {
    tls.enable && tls.certFile != ""
  }

  /** `newGrpcConnection`, given the outcome `certLoad` of loading the
      certificate file and the outcome `dial` of the dial. */
  function Connect(server: ServerConfig, certLoad: Status, dial: Result<ConnId>): (r: Dialed)
    ensures r.HasCancel() <==> !(LoadsCert(server.tls) && certLoad.Failure?)
    ensures r.Connected? <==> r.HasCancel() && dial.Ok?
  {
    if LoadsCert(server.tls) && certLoad.Failure? then CertFailed(certLoad.error)
    else
      var request := DialRequest(server.host, [WithBlock, TransportOption(server.tls)], 1);
      match dial
      case Err(e) => DialFailed(request, e)
      case Ok(c) => Connected(request, c)
  }

  /** The log call `newGrpcConnection` makes: the certificate path, when it loads one. */
  function ConnectLogs(tls: TlsConfig): seq<Effect> {
    if LoadsCert(tls) then [Log(Logging.Info, Logging.Message("%s", [Logging.StrArg(tls.certFile)]))] else []
  }

  /** `newGrpcConnection`, building its option list by appending. */
  method NewGrpcConnection(server: ServerConfig, certLoad: Status, dial: Result<ConnId>)
    returns (r: Dialed, logs: seq<Effect>)
    ensures r == Connect(server, certLoad, dial)
    ensures logs == ConnectLogs(server.tls)
  {
    var options := [WithBlock];
    logs := [];
    if server.tls.enable {
      var creds: Credentials;
      if server.tls.certFile == "" {
        creds := SystemTrust;
      } else {
        logs := logs + [Log(Logging.Info, Logging.Message("%s", [Logging.StrArg(server.tls.certFile)]))];
        if certLoad.Failure? {
          return CertFailed(certLoad.error), logs;
        }
        creds := FromFile(server.tls.certFile);
      }
      options := options + [WithTransportCredentials(creds)];
    } else {
      options := options + [WithInsecure];
    }
    var request := DialRequest(server.host, options, 1);
    match dial
    case Err(e) => r := DialFailed(request, e);
    case Ok(c) => r := Connected(request, c);
  }

  /** Every dial carries `WithBlock` first, then exactly one credentials
      option chosen by the TLS settings, with a one-second timeout. */
  lemma DialOptionChoice(server: ServerConfig, certLoad: Status, dial: Result<ConnId>)
    ensures var r := Connect(server, certLoad, dial);
            !r.CertFailed? ==>
              && r.request.host == server.host
              && r.request.timeoutSeconds == 1
              && |r.request.options| == 2
              && r.request.options[0] == WithBlock
              && (r.request.options[1] == WithInsecure <==> !server.tls.enable)
              && (r.request.options[1] == WithTransportCredentials(SystemTrust) <==>
                    server.tls.enable && server.tls.certFile == "")
              && (r.request.options[1] == WithTransportCredentials(FromFile(server.tls.certFile)) <==>
                    server.tls.enable && server.tls.certFile != "")
  {
  }

  /** A certificate failure returns before any dial and without a cancel
      function; a dial failure returns one. */
  lemma ConnectFailures(server: ServerConfig, certLoad: Status, dial: Result<ConnId>)
    ensures var r := Connect(server, certLoad, dial);
            && (r.CertFailed? <==> LoadsCert(server.tls) && certLoad.Failure?)
            && (r.CertFailed? ==> r == CertFailed(certLoad.error) && !r.HasCancel())
            && (r.DialFailed? <==> !(LoadsCert(server.tls) && certLoad.Failure?) && dial.Err?)
            && (r.DialFailed? ==> r.error == dial.error && r.HasCancel())
            && (r.Connected? <==> !(LoadsCert(server.tls) && certLoad.Failure?) && dial.Ok?)
            && (r.Connected? ==> r.conn == dial.value)
  {
  }

  /** The dial ignores the certificate outcome whenever no file is loaded. */
  lemma CertOutcomeIrrelevantWithoutFile(server: ServerConfig, a: Status, b: Status, dial: Result<ConnId>)
    requires !LoadsCert(server.tls)
    ensures Connect(server, a, dial) == Connect(server, b, dial)
  {
  }

  // ---------------------------------------------------- releasing a dial

  /** What calling a returned cancel function does. */
  datatype Release = Cancelled | NothingToCancel | NilCallPanic

  /** `cancel()` as `Start` writes it: called whatever `newGrpcConnection` returned. */
  function CancelAsWritten(d: Dialed): (r: Release)
    ensures r == NilCallPanic <==> !d.HasCancel()
    ensures r != NothingToCancel
  {
    if d.HasCancel() then Cancelled else NilCallPanic
  }

  /** `cancel()` called only when there is a cancel function. */
  function Cancel(d: Dialed): (r: Release)
    ensures r != NilCallPanic
    ensures r == Cancelled <==> d.HasCancel()
  {
    if d.HasCancel() then Cancelled else NothingToCancel
  }

  /** The two agree on every result that comes with a cancel function. */
  lemma CancelAgreesWhenPresent(d: Dialed)
    ensures d.HasCancel() <==> Cancel(d) == CancelAsWritten(d)
  {
  }

  /** With a certificate that cannot be loaded, `Start`'s deferred `cancel()`
      calls a nil function. */
  lemma CertFailurePanicsAsWritten(server: ServerConfig, certLoad: Status, dial: Result<ConnId>)
    requires LoadsCert(server.tls) && certLoad.Failure?
    ensures CancelAsWritten(Connect(server, certLoad, dial)) == NilCallPanic
    ensures Cancel(Connect(server, certLoad, dial)) == NothingToCancel
  {
  }

  // ---------------------------------------------------------------- Start

  datatype Endpoint = Bfd | Gobgp

  /** A call deferred in `Start`, in the order it runs when `Start` returns. */
  datatype Deferred = CloseConn(endpoint: Endpoint) | CallCancel(endpoint: Endpoint, outcome: Release)

  /** `MonitorPeerRequest`. */
  datatype MonitorRequest = MonitorRequest(name: string, uuid: Bytes)

  /** How far `Start` got. */
  datatype Stage =
    | BfdDialFailed
    | PeersUnlisted       // the ListPeer stream has not ended
    | ListingFailed
    | BgpDialFailed
    | MonitorFailed(index: nat)
    | Monitoring

  /** The outcomes of the calls `Start` makes, in the order it makes them.
      `monitorCalls[i]` answers the MonitorPeer call for the i-th name of the iteration order. */
  datatype Environment = Environment(
    bfdCert: Status, bfdDial: Result<ConnId>,
    listCall: Status, listStream: seq<Recv<PeerItem>>,
    bgpCert: Status, bgpDial: Result<ConnId>,
    monitorCalls: seq<Status>)

  /** The result of `Start` up to the point where it returns or blocks. */
  datatype Startup = Startup(
    stage: Stage,
    effects: seq<Effect>,             // log calls, in order
    bgpClient: Option<ConnId>,
    monitors: seq<MonitorRequest>,    // monitors started, each served by a goroutine
    pending: int,                     // the WaitGroup counter
    waiting: bool,                    // blocked in the deferred `wg.Wait()`
    deferred: seq<Deferred>)          // deferred calls run, once `Start` has returned

  /** `order` lists the configured peer names, each once: one iteration order of the map. */
  predicate Enumerates(order: seq<string>, peers: map<string, string>) {
    |order| == |peers| && (set n | n in order) == peers.Keys
  }

  /** The uuid `Start` sends for a name; an absent name has the empty uuid. */
  function Uuid(dir: map<string, Bytes>, name: string): Bytes {
    if name in dir then dir[name] else []
  }

  function RequestsFor(names: seq<string>, dir: map<string, Bytes>): (rs: seq<MonitorRequest>)
    ensures |rs| == |names|
    ensures forall i :: 0 <= i < |names| ==> rs[i] == MonitorRequest(names[i], Uuid(dir, names[i]))
  {
    if names == [] then []
    else RequestsFor(names[..|names| - 1], dir) + [MonitorRequest(names[|names| - 1], Uuid(dir, names[|names| - 1]))]
  }

  /** The index of the first failed call; the length when none failed. */
  function FirstFailure(calls: seq<Status>): (k: nat)
    ensures k <= |calls|
    ensures forall i :: 0 <= i < k ==> calls[i].Success?
    ensures k < |calls| ==> calls[k].Failure?
  {
    if calls == [] || calls[0].Failure? then 0 else 1 + FirstFailure(calls[1..])
  }

  /** No deferred `cancel()` calls a nil function. */
  predicate NoNilCancel(deferred: seq<Deferred>) {
    CallCancel(Bfd, NilCallPanic) !in deferred && CallCancel(Gobgp, NilCallPanic) !in deferred
  }

  /** The deferred calls after both dials succeeded, run once `wg.Wait()` returns. */
  const Teardown: seq<Deferred> :=
    [CloseConn(Gobgp), CallCancel(Gobgp, Cancelled), CloseConn(Bfd), CallCancel(Bfd, Cancelled)]

  /** `Start`: dial BFD, list its peers, dial GoBGP, then open one monitor
      per configured peer, stopping at the first failure. */
  function StartRun(config: Config, order: seq<string>, env: Environment): (r: Startup)
    requires Enumerates(order, config.peers) && |env.monitorCalls| == |order|
    ensures r.stage == BfdDialFailed <==> !Connect(config.bfd, env.bfdCert, env.bfdDial).Connected?
    ensures NoNilCancel(r.deferred)
  {
    var bfd := Connect(config.bfd, env.bfdCert, env.bfdDial);
    var logs1 := ConnectLogs(config.bfd.tls);
    if !bfd.Connected? then
      Startup(BfdDialFailed, logs1 + [ErrorLog("failed to dial bfdd: %v", bfd.error)],
              None, [], 0, false, [CallCancel(Bfd, Cancel(bfd))])
    else
      var rest := AfterBfdDial(config, order, env);
      rest.(effects := logs1 + rest.effects)
  }

  /** `Start` from the peer listing on, once the BFD dial succeeded. */
  function AfterBfdDial(config: Config, order: seq<string>, env: Environment): (r: Startup)
    requires Enumerates(order, config.peers) && |env.monitorCalls| == |order|
    ensures r.stage != BfdDialFailed && NoNilCancel(r.deferred)
    ensures r.stage == PeersUnlisted <==> ListOutcome(env.listCall, env.listStream).ListBlocked?
    ensures r.stage == ListingFailed <==> ListOutcome(env.listCall, env.listStream).ListFailed?
  {
    match ListOutcome(env.listCall, env.listStream)
    case ListBlocked =>
      Startup(PeersUnlisted, [], None, [], 0, false, [])
    case ListFailed(e) =>
      Startup(ListingFailed, [ErrorLog("failed to list peers: %v", e)],
              None, [], 0, false, [CloseConn(Bfd), CallCancel(Bfd, Cancelled)])
    case Listed(dir) => AfterListing(config, order, env, dir)
  }

  /** `Start` from the GoBGP dial on, once the peers are listed. */
  function AfterListing(config: Config, order: seq<string>, env: Environment, dir: map<string, Bytes>): (r: Startup)
    requires Enumerates(order, config.peers) && |env.monitorCalls| == |order|
    ensures r.stage == BgpDialFailed || r.stage == Monitoring || r.stage.MonitorFailed?
    ensures r.stage == BgpDialFailed <==> !Connect(config.gobgp, env.bgpCert, env.bgpDial).Connected?
    ensures NoNilCancel(r.deferred)
  {
    var bgp := Connect(config.gobgp, env.bgpCert, env.bgpDial);
    var logs := ConnectLogs(config.gobgp.tls);
    if !bgp.Connected? then
      Startup(BgpDialFailed, logs + [ErrorLog("failed to dial gobgpd: %v", bgp.error)], None, [], 0, false,
              [CallCancel(Gobgp, Cancel(bgp)), CallCancel(Gobgp, Cancel(bgp)), CloseConn(Bfd), CallCancel(Bfd, Cancelled)])
    else
      var m := MonitorLoop(|config.peers|, order, dir, env.monitorCalls, bgp.conn);
      m.(effects := logs + m.effects)
  }

  /** The end of `Start` once both dials succeeded: the counter set to the
      number of configured peers, one monitor per name until the first
      failure, then the deferred wait. */
  function MonitorLoop(count: nat, order: seq<string>, dir: map<string, Bytes>, calls: seq<Status>, conn: ConnId): (r: Startup)
    requires |calls| == |order| == count
    ensures r.stage == Monitoring || r.stage == MonitorFailed(FirstFailure(calls))
    ensures r.bgpClient == Some(conn) && |r.monitors| == FirstFailure(calls) <= r.pending
    ensures r.waiting <==> r.pending != 0
    ensures NoNilCancel(r.deferred)
  {
    var k := FirstFailure(calls);
    var failed := k < |order|;
    var pending := if failed then count - 1 else count;
    Startup(if failed then MonitorFailed(k) else Monitoring,
            if failed then [ErrorLog("failed to create monitor peer request: %v", calls[k].error)] else [],
            Some(conn),
            RequestsFor(order[..k], dir),
            pending,
            pending != 0,
            if pending == 0 then Teardown else [])
  }

  /** A failed BFD dial stops `Start` before it lists peers: nothing that
      comes later matters, and the only deferred call is the BFD cancel. */
  lemma BfdDialFailureStopsStart(config: Config, order: seq<string>, env: Environment, later: Environment)
    requires Enumerates(order, config.peers) && |env.monitorCalls| == |order| && |later.monitorCalls| == |order|
    requires !Connect(config.bfd, env.bfdCert, env.bfdDial).Connected?
    requires later.bfdCert == env.bfdCert && later.bfdDial == env.bfdDial
    ensures var r := StartRun(config, order, env);
            && r == StartRun(config, order, later)
            && r.stage == BfdDialFailed && r.bgpClient.None? && r.monitors == []
            && r.deferred == [CallCancel(Bfd, Cancel(Connect(config.bfd, env.bfdCert, env.bfdDial)))]
  {
  }

  /** A failed peer listing stops `Start` before the GoBGP dial. */
  lemma ListFailureStopsStart(config: Config, order: seq<string>, env: Environment, later: Environment)
    requires Enumerates(order, config.peers) && |env.monitorCalls| == |order| && |later.monitorCalls| == |order|
    requires Connect(config.bfd, env.bfdCert, env.bfdDial).Connected?
    requires ListOutcome(env.listCall, env.listStream).ListFailed?
    requires later == env.(bgpCert := later.bgpCert, bgpDial := later.bgpDial, monitorCalls := later.monitorCalls)
    ensures var r := StartRun(config, order, env);
            && r == StartRun(config, order, later)
            && r.stage == ListingFailed && r.bgpClient.None? && r.monitors == []
            && r.effects[|r.effects| - 1] ==
               ErrorLog("failed to list peers: %v", ListOutcome(env.listCall, env.listStream).error)
  {
  }

  /** A failed GoBGP dial stops `Start` before any monitor is started, and the
      GoBGP cancel runs twice: once directly, once deferred. */
  lemma BgpDialFailureStopsStart(config: Config, order: seq<string>, env: Environment, later: Environment)
    requires Enumerates(order, config.peers) && |env.monitorCalls| == |order| && |later.monitorCalls| == |order|
    requires Connect(config.bfd, env.bfdCert, env.bfdDial).Connected?
    requires ListOutcome(env.listCall, env.listStream).Listed?
    requires !Connect(config.gobgp, env.bgpCert, env.bgpDial).Connected?
    requires later == env.(monitorCalls := later.monitorCalls)
    ensures var r := StartRun(config, order, env);
            var c := Cancel(Connect(config.gobgp, env.bgpCert, env.bgpDial));
            && r == StartRun(config, order, later)
            && r.stage == BgpDialFailed && r.bgpClient.None? && r.monitors == []
            && r.deferred == [CallCancel(Gobgp, c), CallCancel(Gobgp, c), CloseConn(Bfd), CallCancel(Bfd, Cancelled)]
  {
  }

  /** Once both dials succeed, each monitor asks for the listed uuid of its
      name, empty when the name was not listed; the first MonitorPeer failure
      stops the loop, and the answers after it are never used. */
  lemma MonitorsFollowDirectory(config: Config, order: seq<string>, env: Environment, later: Environment)
    requires Enumerates(order, config.peers) && |env.monitorCalls| == |order| && |later.monitorCalls| == |order|
    requires Connect(config.bfd, env.bfdCert, env.bfdDial).Connected?
    requires ListOutcome(env.listCall, env.listStream).Listed?
    requires Connect(config.gobgp, env.bgpCert, env.bgpDial).Connected?
    requires later == env.(monitorCalls := later.monitorCalls)
    requires later.monitorCalls[..FirstFailure(env.monitorCalls)] == env.monitorCalls[..FirstFailure(env.monitorCalls)]
    requires FirstFailure(env.monitorCalls) < |order| ==> later.monitorCalls[FirstFailure(env.monitorCalls)] == env.monitorCalls[FirstFailure(env.monitorCalls)]
    ensures var r := StartRun(config, order, env);
            var dir := ListOutcome(env.listCall, env.listStream).peers;
            var k := FirstFailure(env.monitorCalls);
            && r == StartRun(config, order, later)
            && r.bgpClient == Some(Connect(config.gobgp, env.bgpCert, env.bgpDial).conn)
            && |r.monitors| == k
            && (forall i :: 0 <= i < k ==> r.monitors[i] == MonitorRequest(order[i], Uuid(dir, order[i])))
            && (r.stage == Monitoring <==> k == |order|)
            && (r.stage == MonitorFailed(k) <==> k < |order|)
  {
    var k := FirstFailure(env.monitorCalls);
    var k2 := FirstFailure(later.monitorCalls);
    forall i | 0 <= i < k
      ensures later.monitorCalls[i].Success?
    {
      assert later.monitorCalls[..k][i] == later.monitorCalls[i];
    }
    assert k2 == k;
  }

  /** The WaitGroup counter: every configured peer when every monitor
      started, one fewer after a MonitorPeer failure. `Start` waits while it
      is not zero, and otherwise runs its deferred calls. */
  lemma StartCounter(config: Config, order: seq<string>, env: Environment)
    requires Enumerates(order, config.peers) && |env.monitorCalls| == |order|
    ensures var r := StartRun(config, order, env);
            && (r.stage == Monitoring ==> r.pending == |config.peers| == |r.monitors|)
            && (r.stage.MonitorFailed? ==> r.pending == |config.peers| - 1 && |r.monitors| == r.stage.index)
            && (r.stage == Monitoring || r.stage.MonitorFailed? ==>
                  && r.pending >= |r.monitors|
                  && (r.waiting <==> r.pending > 0)
                  && (r.deferred == Teardown <==> r.pending == 0)
                  && (r.deferred == [] <==> r.pending > 0))
            && (!(r.stage == Monitoring || r.stage.MonitorFailed?) ==> !r.waiting && r.pending == 0)
  {
  }

  /** After the k-th MonitorPeer call fails, only k goroutines can decrement
      the counter, which stands at one fewer than the peers: when k is below
      that, `wg.Wait()` never returns and the connections are never closed. */
  lemma EarlyMonitorFailureWaitsForever(config: Config, order: seq<string>, env: Environment)
    requires Enumerates(order, config.peers) && |env.monitorCalls| == |order|
    requires StartRun(config, order, env).stage.MonitorFailed?
    ensures var r := StartRun(config, order, env);
            && r.pending - |r.monitors| == |config.peers| - 1 - r.stage.index
            && (r.stage.index < |config.peers| - 1 <==> r.pending - |r.monitors| > 0)
  {
  }

  /** The GoBGP client is set exactly when `Start` reaches the monitor loop. */
  lemma ClientSetOnlyAfterBothDials(config: Config, order: seq<string>, env: Environment)
    requires Enumerates(order, config.peers) && |env.monitorCalls| == |order|
    ensures var r := StartRun(config, order, env);
            && (r.bgpClient.Some? <==> r.stage == Monitoring || r.stage.MonitorFailed?)
            && (r.monitors != [] ==> r.bgpClient.Some?)
  {
  }

  /** A certificate that cannot be loaded for the BFD server stops `Start`
      before any dial; as written, its deferred `cancel()` then calls nil. */
  lemma StartBfdCertFailure(config: Config, order: seq<string>, env: Environment)
    requires Enumerates(order, config.peers) && |env.monitorCalls| == |order|
    requires LoadsCert(config.bfd.tls) && env.bfdCert.Failure?
    ensures var r := StartRun(config, order, env);
            && r.stage == BfdDialFailed
            && r.deferred == [CallCancel(Bfd, NothingToCancel)]
            && CancelAsWritten(Connect(config.bfd, env.bfdCert, env.bfdDial)) == NilCallPanic
  {
  }

  /** The read loop of `serviceEvents`: one reaction per response until EOF
      or an error; `ended` tells whether the loop was left. */
  method ReadMonitorStream(peers: map<string, string>, name: string, stream: seq<Recv<SessionState>>)
    returns (effects: seq<Effect>, ended: bool)
    ensures effects == MonitorRun(peers, name, stream)
    ensures ended == Ends(stream)
  {
    effects := [];
    var i := 0;
    while i < |stream| && stream[i].Item?
      invariant 0 <= i <= |stream|
      invariant forall j :: 0 <= j < i ==> stream[j].Item?
      invariant effects == Reactions(peers, name, Values(stream[..i]))
    {
      var state := stream[i].value;
      effects := effects + Reaction(peers, name, state);
      ValuesExtend(stream, i);
      ReactionsAppend(peers, name, Values(stream[..i]), state);
      i := i + 1;
    }
    MonitorRunStopsAt(peers, name, stream, i);
    if i < |stream| && stream[i].RecvError? {
      effects := effects + [ReadFailedLog(stream[i].error)];
    }
    ended := i < |stream|;
  }

  /** The loop of `Start` over the configured peers: one monitor request per
      name, with the listed uuid, until the first MonitorPeer failure. */
  method OpenMonitors(order: seq<string>, dir: map<string, Bytes>, calls: seq<Status>)
    returns (started: seq<MonitorRequest>, stop: nat)
    requires |calls| == |order|
    ensures stop == FirstFailure(calls)
    ensures started == RequestsFor(order[..stop], dir)
  {
    started := [];
    var i := 0;
    while i < |order| && calls[i].Success?
      invariant 0 <= i <= |order|
      invariant forall j :: 0 <= j < i ==> calls[j].Success?
      invariant started == RequestsFor(order[..i], dir)
    {
      var name := order[i];
      var uuid := if name in dir then dir[name] else [];
      assert order[..i + 1][..i] == order[..i];
      started := started + [MonitorRequest(name, uuid)];   // go s.serviceEvents(...)
      i := i + 1;
    }
    stop := i;
  }

  // ---------------------------------------------------------- the service

  /** `InterconnectService`, whose `bgpClient` field `Start` sets, together
      with the state the service shares with its monitor goroutines: the
      WaitGroup counter, what has been logged or called, and `Start`'s
      progress. */
  class InterconnectService {
    const config: Config
    var bgpClient: Option<ConnId>
    var stage: Option<Stage>            // None before `Start`
    var journal: seq<Effect>
    var monitors: seq<MonitorRequest>
    var running: nat                    // monitor goroutines that have not exited
    var pending: int                    // the WaitGroup counter
    var waiting: bool                   // `Start` blocked in `wg.Wait()`
    var deferred: seq<Deferred>         // deferred calls `Start` has run

    ghost predicate Valid()
      reads this
    {
      && pending >= running
      && (waiting ==> pending > 0)
      && (running > 0 ==> bgpClient.Some?)
    }

    /** Nothing has started yet; the journal may hold anything. */
    ghost predicate Idle()
      reads this
    {
      stage.None? && bgpClient.None? && monitors == [] && running == 0 && pending == 0 && !waiting && deferred == []
    }

    /** The fields hold the outcome `r`, with `r.effects` added to the journal `before`. */
    ghost predicate Holds(r: Startup, before: seq<Effect>)
      reads this
    {
      && stage == Some(r.stage)
      && journal == before + r.effects
      && bgpClient == r.bgpClient
      && monitors == r.monitors && running == |r.monitors|
      && pending == r.pending && waiting == r.waiting && deferred == r.deferred
    }

    /** Log calls made before a stage are those its outcome starts with. */
    lemma HoldsPrepended(r: Startup, before: seq<Effect>, logs: seq<Effect>)
      requires Holds(r, before + logs)
      ensures Holds(r.(effects := logs + r.effects), before)
    {
      assert before + logs + r.effects == before + (logs + r.effects);
    }

    /** `NewInterconnectService`. */
    constructor (config: Config)
      ensures Valid()
      ensures this.config == config && bgpClient.None? && stage.None?
      ensures journal == [] && monitors == [] && running == 0 && pending == 0 && !waiting && deferred == []
    {
      this.config := config;
      bgpClient := None;
      stage := None;
      journal := [];
      monitors := [];
      running := 0;
      pending := 0;
      waiting := false;
      deferred := [];
    }

    /** The deferred `wg.Wait()`: returns when the counter is zero, and then
        the remaining deferred calls run; blocks otherwise. */
    method Wait()
      requires pending >= running && (running > 0 ==> bgpClient.Some?)
      modifies this
      ensures Valid()
      ensures waiting == (pending != 0)
      ensures deferred == old(deferred) + (if pending == 0 then Teardown else [])
      ensures bgpClient == old(bgpClient) && stage == old(stage) && journal == old(journal)
      ensures monitors == old(monitors) && running == old(running) && pending == old(pending)
    {
      if pending == 0 {
        deferred := deferred + Teardown;
        waiting := false;
      } else {
        waiting := true;
      }
    }

    /** `Start`, for one iteration order of the configured peers. */
    method Start(order: seq<string>, env: Environment)
      requires Idle() && Enumerates(order, config.peers) && |env.monitorCalls| == |order|
      modifies this
      ensures Valid() && Holds(StartRun(config, order, env), old(journal))
    {
      var bfd, logs := NewGrpcConnection(config.bfd, env.bfdCert, env.bfdDial);
      journal := journal + logs;
      if !bfd.Connected? {
        journal := journal + [ErrorLog("failed to dial bfdd: %v", bfd.error)];
        deferred := deferred + [CallCancel(Bfd, Cancel(bfd))];
        stage := Some(BfdDialFailed);
        return;
      }
      ListAndMonitor(order, env);
      HoldsPrepended(AfterBfdDial(config, order, env), old(journal), logs);
    }

    /** `Start` from the peer listing on, as `AfterBfdDial` states it. */
    method ListAndMonitor(order: seq<string>, env: Environment)
      requires Idle() && Enumerates(order, config.peers) && |env.monitorCalls| == |order|
      modifies this
      ensures Valid() && Holds(AfterBfdDial(config, order, env), old(journal))
    {
      var listing := ListPeers(env.listCall, env.listStream);
      if listing.ListBlocked? {
        stage := Some(PeersUnlisted);
        return;
      }
      if listing.ListFailed? {
        journal := journal + [ErrorLog("failed to list peers: %v", listing.error)];
        deferred := deferred + [CloseConn(Bfd), CallCancel(Bfd, Cancelled)];
        stage := Some(ListingFailed);
        return;
      }
      DialAndMonitor(order, env, listing.peers);
    }

    /** `Start` from the GoBGP dial on, as `AfterListing` states it. */
    method DialAndMonitor(order: seq<string>, env: Environment, dir: map<string, Bytes>)
      requires Idle() && Enumerates(order, config.peers) && |env.monitorCalls| == |order|
      modifies this
      ensures Valid() && Holds(AfterListing(config, order, env, dir), old(journal))
    {
      var bgp, bgpLogs := NewGrpcConnection(config.gobgp, env.bgpCert, env.bgpDial);
      journal := journal + bgpLogs;
      if !bgp.Connected? {
        journal := journal + [ErrorLog("failed to dial gobgpd: %v", bgp.error)];
        deferred := deferred + [CallCancel(Gobgp, Cancel(bgp))];   // the explicit cancel()
        deferred := deferred + [CallCancel(Gobgp, Cancel(bgp)), CloseConn(Bfd), CallCancel(Bfd, Cancelled)];
        stage := Some(BgpDialFailed);
        return;
      }
      bgpClient := Some(bgp.conn);
      MonitorPeers(order, dir, env.monitorCalls, bgp.conn);
      HoldsPrepended(MonitorLoop(|config.peers|, order, dir, env.monitorCalls, bgp.conn), old(journal), bgpLogs);
    }

    /** The end of `Start`, as `MonitorLoop` states it. */
    method MonitorPeers(order: seq<string>, dir: map<string, Bytes>, calls: seq<Status>, conn: ConnId)
      requires Valid() && bgpClient == Some(conn) && stage.None?
      requires running == 0 && pending == 0 && !waiting && deferred == []
      requires |calls| == |order| == |config.peers|
      modifies this
      ensures Valid()
      ensures Holds(MonitorLoop(|config.peers|, order, dir, calls, conn), old(journal))
    {
      pending := pending + |config.peers|;   // wg.Add
      var started, i := OpenMonitors(order, dir, calls);
      monitors := started;
      running := |started|;
      if i < |order| {
        journal := journal + [ErrorLog("failed to create monitor peer request: %v", calls[i].error)];
        pending := pending - 1;   // wg.Done
        stage := Some(MonitorFailed(i));
      } else {
        stage := Some(Monitoring);
      }
      Wait();
      MonitorLoopHolds(order, dir, calls, conn, old(journal), i);
    }

    /** The state `MonitorPeers` leaves is the outcome `MonitorLoop` states. */
    lemma MonitorLoopHolds(order: seq<string>, dir: map<string, Bytes>, calls: seq<Status>, conn: ConnId,
                           before: seq<Effect>, k: nat)
      requires |calls| == |order| == |config.peers| && k == FirstFailure(calls)
      requires stage == Some(if k < |order| then MonitorFailed(k) else Monitoring)
      requires journal == before + (if k < |order| then [ErrorLog("failed to create monitor peer request: %v", calls[k].error)] else [])
      requires bgpClient == Some(conn) && monitors == RequestsFor(order[..k], dir) && running == |monitors|
      requires pending == (if k < |order| then |order| - 1 else |order|)
      requires waiting == (pending != 0) && deferred == [] + (if pending == 0 then Teardown else [])
      ensures Holds(MonitorLoop(|config.peers|, order, dir, calls, conn), before)
    {
      assert [] + Teardown == Teardown;
    }

    /** The deferred `wg.Done()` of a monitor goroutine; the last one lets a
        waiting `Start` return. */
    method Done()
      requires Valid() && running > 0
      modifies this
      ensures Valid()
      ensures running == old(running) - 1 && pending == old(pending) - 1
      ensures waiting == (old(waiting) && pending != 0)
      ensures deferred == old(deferred) + (if old(waiting) && pending == 0 then Teardown else [])
      ensures bgpClient == old(bgpClient) && stage == old(stage) && journal == old(journal) && monitors == old(monitors)
    {
      running := running - 1;
      pending := pending - 1;
      if waiting && pending == 0 {
        waiting := false;
        deferred := deferred + Teardown;
      }
    }

    /** `serviceEvents` for one monitor goroutine, reading its stream until
        EOF or an error. */
    method ServiceEvents(name: string, stream: seq<Recv<SessionState>>)
      requires Valid() && running > 0
      modifies this
      ensures Valid()
      ensures journal == old(journal) + MonitorRun(config.peers, name, stream)
      ensures Ends(stream) ==> running == old(running) - 1 && pending == old(pending) - 1
      ensures !Ends(stream) ==> running == old(running) && pending == old(pending)
      ensures waiting == (old(waiting) && pending != 0)
      ensures deferred == old(deferred) + (if old(waiting) && pending == 0 then Teardown else [])
      ensures bgpClient == old(bgpClient) && stage == old(stage) && monitors == old(monitors)
    {
      var effects, ended := ReadMonitorStream(config.peers, name, stream);
      journal := journal + effects;
      if ended {
        Done();   // the deferred wg.Done()
      }
    }
  }
}
