/**
 * SSH global requests (section 4 of RFC 4254, section 7.1 for port forwarding, and OpenSSH's
 * no-more-sessions@openssh.com extension): the payload variants with their replies and log
 * entries, the parser registry, and the dispatcher handleGlobalRequest.
 */
module GlobalRequests {
  import opened Base
  import Decimal
  import opened Wire

  // ---------------------------------------------------------------- payloads

  /** The decoded forms of the three supported request types. */
  datatype Payload =
    | TcpipForward(address: seq<byte>, port: uint32)
    | CancelTcpipForward(address: seq<byte>, port: uint32)
    | NoMoreSessions

  /** The structured log events the dispatcher hands to the connection's log. */
  datatype LogEntry =
    | TcpipForwardLog(address: seq<byte>)
    | CancelTcpipForwardLog(address: seq<byte>)
    | NoMoreSessionsLog

  datatype RequestError = UnmarshalError | InvalidRequestPayload | ReplyError

  datatype Decoded = Decoded(payload: Payload) | DecodeError(error: RequestError)

  /** The entries of `globalRequestPayloads`. */
  datatype PayloadParser = TcpipForwardParser | CancelTcpipForwardParser | NoMoreSessionsParser

  const GlobalRequestPayloads: map<string, PayloadParser> :=
    map["tcpip-forward" := TcpipForwardParser,
        "cancel-tcpip-forward" := CancelTcpipForwardParser,
        "no-more-sessions@openssh.com" := NoMoreSessionsParser]

  /** The label counted for requests of a type with no parser. */
  const UnknownLabel: string := "unknown"

  /** rand.Intn(65536-1024)+1024: the dynamic port range of a port-0 forward request. */
  const FirstDynamicPort: nat := 1024
  const DynamicPortCount: nat := 65536 - 1024

  const Colon: byte := 58
  const OpenBracket: byte := 91
  const CloseBracket: byte := 93

  // ---------------------------------------------------------------- parsers

  /** The wire form of the two forwarding requests: string address, uint32 port. */
  function EncodeAddressPort(address: seq<byte>, port: uint32): seq<byte>
  {
    MarshalString(address) + Uint32Bytes(port)
  }

  /** ssh.Unmarshal into struct { Address string; Port uint32 }: both fields, no byte left over. */
  function ParseAddressPort(data: seq<byte>): (r: Option<(seq<byte>, uint32)>)
    ensures r.Some? ==> data == EncodeAddressPort(r.value.0, r.value.1) && |r.value.0| < TWO_32
  {
    match ParseString(data)
    case None => None
    case Some(a) =>
      match ParseUint32(a.rest)
      case None => None
      case Some(p) =>
        if p.rest != [] then None
        else
          assert |a.value| <= |data|;
          assert a.rest == Uint32Bytes(p.value);
          Some((a.value, p.value))
  }

  /** The parser functions of globalRequestPayloads. */
  function Parse(parser: PayloadParser, data: seq<byte>): (r: Decoded)
    ensures parser == NoMoreSessionsParser ==>
      r == (if data == [] then Decoded(NoMoreSessions) else DecodeError(InvalidRequestPayload))
    ensures parser == TcpipForwardParser && r.Decoded? ==>
      r.payload.TcpipForward? && data == EncodeAddressPort(r.payload.address, r.payload.port)
    ensures parser == CancelTcpipForwardParser && r.Decoded? ==>
      r.payload.CancelTcpipForward? && data == EncodeAddressPort(r.payload.address, r.payload.port)
    ensures parser != NoMoreSessionsParser && r.DecodeError? ==> r.error == UnmarshalError
  {
    match parser
    case TcpipForwardParser =>
      (match ParseAddressPort(data)
       case None => DecodeError(UnmarshalError)
       case Some(ap) => Decoded(TcpipForward(ap.0, ap.1)))
    case CancelTcpipForwardParser =>
      (match ParseAddressPort(data)
       case None => DecodeError(UnmarshalError)
       case Some(ap) => Decoded(CancelTcpipForward(ap.0, ap.1)))
    case NoMoreSessionsParser =>
      if |data| != 0 then DecodeError(InvalidRequestPayload) else Decoded(NoMoreSessions)
  }

  /** Every well-formed forwarding payload decodes to the address and port it carries. */
  lemma ParseForwardRoundTrip(address: seq<byte>, port: uint32)
    requires |address| < TWO_32
    ensures Parse(TcpipForwardParser, EncodeAddressPort(address, port)) == Decoded(TcpipForward(address, port))
    ensures Parse(CancelTcpipForwardParser, EncodeAddressPort(address, port)) == Decoded(CancelTcpipForward(address, port))
  {
    ParseMarshalString(address, Uint32Bytes(port));
    assert Uint32Bytes(port) == Uint32Bytes(port) + [];
    ParseMarshalUint32(port, []);
  }

  // ---------------------------------------------------------------- replies and log entries

  /** The `reply` methods. `draw` is the value rand.Intn(65536-1024) returned. */
  function Reply(p: Payload, draw: nat): (r: seq<byte>)
    requires draw < DynamicPortCount
    ensures p.TcpipForward? && p.port == 0 ==>
      |r| == 4 && FirstDynamicPort <= ReadUint32(r) < 65536 && ReadUint32(r) == FirstDynamicPort + draw
    ensures !(p.TcpipForward? && p.port == 0) ==> r == []
  {
    if p.TcpipForward? && p.port == 0 then
      Uint32RoundTrip(draw + FirstDynamicPort);
      Uint32Bytes(draw + FirstDynamicPort)
    else []
  }

  /** net.JoinHostPort: a host with a colon is taken for an IPv6 literal and bracketed. */
  function JoinHostPort(host: seq<byte>, port: seq<byte>): seq<byte>
  {
    if Colon in host then [OpenBracket] + host + [CloseBracket, Colon] + port
    else host + [Colon] + port
  }

  /** A joined address is the host, bracketed exactly when it holds a colon, then a colon, then
      the port. */
  lemma JoinHostPortShape(host: seq<byte>, port: seq<byte>)
    ensures var r := JoinHostPort(host, port); var h := |r| - |port| - 1;
      && |r| > |port| && r[h] == Colon && r[h + 1..] == port
      && r[..h] == if Colon in host then [OpenBracket] + host + [CloseBracket] else host
  {
    var r := JoinHostPort(host, port);
    var front := if Colon in host then [OpenBracket] + host + [CloseBracket] else host;
    assert r == front + [Colon] + port;
    assert r[..|front|] == front;
  }

  /** The `logEntry` methods. */
  function LogEntryOf(p: Payload): (e: LogEntry)
    ensures e.TcpipForwardLog? <==> p.TcpipForward?
    ensures e.CancelTcpipForwardLog? <==> p.CancelTcpipForward?
    ensures e == NoMoreSessionsLog <==> p.NoMoreSessions?
  {
    match p
    case TcpipForward(a, port) => TcpipForwardLog(JoinHostPort(a, Decimal.FormatBytes(port)))
    case CancelTcpipForward(a, port) => CancelTcpipForwardLog(JoinHostPort(a, Decimal.FormatBytes(port)))
    case NoMoreSessions => NoMoreSessionsLog
  }

  /** Position of the last `b` in `s`. */
  function LastIndexOf(s: seq<byte>, b: byte): (r: Option<nat>)
    ensures r.Some? ==> r.value < |s| && s[r.value] == b && forall j :: r.value < j < |s| ==> s[j] != b
    ensures r.None? ==> b !in s
  {
    if s == [] then None
    else if s[|s| - 1] == b then Some(|s| - 1)
    else LastIndexOf(s[..|s| - 1], b)
  }

  /** Reference reading of a logged address: split at the last colon and drop IPv6 brackets. */
  function SplitHostPort(a: seq<byte>): Option<(seq<byte>, seq<byte>)>
  {
    match LastIndexOf(a, Colon)
    case None => None
    case Some(i) =>
      var h := a[..i];
      if |h| >= 2 && h[0] == OpenBracket && h[|h| - 1] == CloseBracket then Some((h[1..|h| - 1], a[i + 1..]))
      else Some((h, a[i + 1..]))
  }

  lemma DigitsHaveNoColon(n: nat)
    ensures Colon !in Decimal.FormatBytes(n)
  {
    var b := Decimal.FormatBytes(n);
    forall i | 0 <= i < |b| ensures b[i] != Colon {
      assert Decimal.IsDigitChar(Decimal.Format(n)[i]);
    }
  }

  /** The address a forwarding request logs gives back its host and decimal port. */
  lemma LoggedAddressSplits(host: seq<byte>, port: uint32)
    requires OpenBracket !in host
    ensures SplitHostPort(JoinHostPort(host, Decimal.FormatBytes(port))) == Some((host, Decimal.FormatBytes(port)))
  {
    var d := Decimal.FormatBytes(port);
    DigitsHaveNoColon(port);
    if Colon in host {
      var h := [OpenBracket] + host + [CloseBracket];
      assert JoinHostPort(host, d) == h + [Colon] + d;
      SplitAtLastColon(h, d);
      assert h[1..|h| - 1] == host;
    } else {
      SplitAtLastColon(host, d);
      assert !(|host| >= 2 && host[0] == OpenBracket);
    }
  }

  /** A colon followed by colon-free bytes is the last colon. */
  lemma SplitAtLastColon(h: seq<byte>, d: seq<byte>)
    requires Colon !in d
    ensures LastIndexOf(h + [Colon] + d, Colon) == Some(|h|)
    ensures (h + [Colon] + d)[..|h|] == h && (h + [Colon] + d)[|h| + 1..] == d
  {
    var a := h + [Colon] + d;
    assert a[..|h|] == h;
    assert a[|h| + 1..] == d;
    forall j | |h| < j < |a|
      ensures a[j] != Colon
    {
      assert a[j] == a[|h| + 1..][j - |h| - 1];
    }
    LastIndexUnique(a, Colon, |h|);
  }

  lemma LastIndexUnique(s: seq<byte>, b: byte, i: nat)
    requires i < |s| && s[i] == b && forall j :: i < j < |s| ==> s[j] != b
    ensures LastIndexOf(s, b) == Some(i)
    decreases |s|
  {
    if s[|s| - 1] != b {
      LastIndexUnique(s[..|s| - 1], b, i);
    }
  }

  // ---------------------------------------------------------------- dispatch

  datatype Request = Request(requestType: string, wantReply: bool, payload: seq<byte>)

  /** What the connection's peer and its log observe, in order: a reply that reached the peer
      (accepted or not, with its payload, empty for Go's nil), or a logged event. */
  datatype Event = ReplySent(accepted: bool, payload: seq<byte>) | Logged(entry: LogEntry)

  /** What handleGlobalRequest changes on a connection. */
  datatype ConnState = ConnState(noMoreSessions: bool, events: seq<Event>)

  /** The request counter vector, one count per label. */
  type Counters = map<string, nat>

  function Count(c: Counters, name: string): nat
  {
    if name in c then c[name] else 0
  }

  /** CounterVec.WithLabelValues(label).Inc(). */
  function Bump(c: Counters, name: string): (r: Counters)
    ensures Count(r, name) == Count(c, name) + 1
    ensures forall l :: l != name ==> Count(r, l) == Count(c, l)
  {
    c[name := Count(c, name) + 1]
  }

  /** The counter label a request is accounted under. */
  function CounterLabel(req: Request): (l: string)
    ensures l in GlobalRequestPayloads || l == UnknownLabel
    ensures l in GlobalRequestPayloads ==> l == req.requestType
    ensures req.requestType in GlobalRequestPayloads ==> l == req.requestType
  {
    if req.requestType in GlobalRequestPayloads then req.requestType else UnknownLabel
  }

  datatype Handled = Handled(conn: ConnState, counters: Counters, err: Option<RequestError>)

  /** handleGlobalRequest as a transition. `draw` is rand.Intn's value, `replyFails` whether
      request.Reply returns an error. */
  function Dispatch(conn: ConnState, counters: Counters, req: Request, draw: nat, replyFails: bool): (h: Handled)
    requires draw < DynamicPortCount
    ensures h.counters == Bump(counters, CounterLabel(req))
    ensures conn.noMoreSessions ==> h.conn.noMoreSessions
  {
    if req.requestType !in GlobalRequestPayloads then
      var c := Bump(counters, UnknownLabel);
      if !req.wantReply then Handled(conn, c, None)
      else if replyFails then Handled(conn, c, Some(ReplyError))
      else Handled(conn.(events := conn.events + [ReplySent(false, [])]), c, None)
    else
      var c := Bump(counters, req.requestType);
      match Parse(GlobalRequestPayloads[req.requestType], req.payload)
      case DecodeError(e) => Handled(conn, c, Some(e))
      case Decoded(p) =>
        var flagged := if p.NoMoreSessions? then conn.(noMoreSessions := true) else conn;
        if req.wantReply && replyFails then Handled(flagged, c, Some(ReplyError))
        else
          var replied :=
            if req.wantReply then flagged.(events := flagged.events + [ReplySent(true, Reply(p, draw))])
            else flagged;
          Handled(replied.(events := replied.events + [Logged(LogEntryOf(p))]), c, None)
  }

  // ---------------------------------------------------------------- the connection and the metric

  /** The part of connContext that handleGlobalRequest updates, with what its peer and log saw. */
  class Connection {
    var noMoreSessions: bool
    var events: seq<Event>

    constructor ()
      ensures State() == ConnState(false, [])
    {
      noMoreSessions := false;
      events := [];
    }

    function State(): ConnState
      reads this
    {
      ConnState(noMoreSessions, events)
    }

    /** request.Reply, when it succeeds. */
    method Reply(accepted: bool, payload: seq<byte>)
      modifies this
      ensures State() == old(State()).(events := old(events) + [ReplySent(accepted, payload)])
    {
      events := events + [ReplySent(accepted, payload)];
    }

    /** context.logEvent. */
    method LogEvent(entry: LogEntry)
      modifies this
      ensures State() == old(State()).(events := old(events) + [Logged(entry)])
    {
      events := events + [Logged(entry)];
    }
  }

  /** globalRequestsMetric, without the atomicity of its increments. */
  class GlobalRequestsMetric {
    var counts: Counters

    constructor ()
      ensures counts == map[]
    {
      counts := map[];
    }

    method Inc(name: string)
      modifies this
      ensures counts == Bump(old(counts), name)
    {
      counts := counts[name := Count(counts, name) + 1];
    }
  }

  /** handleGlobalRequest. `replyFails` says whether request.Reply fails; the ghost `draw`
      records the value rand.Intn gave when a port-0 forward reply was built. */
  method HandleGlobalRequest(request: Request, context: Connection, metric: GlobalRequestsMetric, replyFails: bool)
    returns (err: Option<RequestError>, ghost draw: nat)
    modifies context, metric
    ensures draw < DynamicPortCount
    ensures Handled(context.State(), metric.counts, err)
         == Dispatch(old(context.State()), old(metric.counts), request, draw, replyFails)
  {
    draw := 0;
    if request.requestType !in GlobalRequestPayloads {
      metric.Inc(UnknownLabel);
      if request.wantReply {
        if replyFails {
          return Some(ReplyError), draw;
        }
        context.Reply(false, []);
      }
      return None, draw;
    }
    metric.Inc(request.requestType);
    var decoded := Parse(GlobalRequestPayloads[request.requestType], request.payload);
    if decoded.DecodeError? {
      return Some(decoded.error), draw;
    }
    var payload := decoded.payload;
    if payload.NoMoreSessions? {
      context.noMoreSessions := true;
    }
    if request.wantReply {
      var intn: nat := 0;
      if payload.TcpipForward? && payload.port == 0 {
        intn :| intn < DynamicPortCount;
      }
      draw := intn;
      var reply := Reply(payload, intn);
      if replyFails {
        return Some(ReplyError), draw;
      }
      context.Reply(true, reply);
    }
    context.LogEvent(LogEntryOf(payload));
    return None, draw;
  }
}
