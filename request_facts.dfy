/**
 * What handleGlobalRequest promises: one counter per request, the no-more-sessions flag,
 * reply-then-log ordering, the error cases, and the same facts over a run of requests.
 */
module RequestFacts {
  import opened Base
  import opened Wire
  import Decimal
  import opened GlobalRequests

  const NoMoreSessionsType: string := "no-more-sessions@openssh.com"
  const TcpipForwardType: string := "tcpip-forward"
  const CancelTcpipForwardType: string := "cancel-tcpip-forward"

  /** A request the no-more-sessions parser accepts. */
  predicate ClosesSessions(req: Request)
  {
    req.requestType == NoMoreSessionsType && req.payload == []
  }

  /** A request whose type has a parser that accepts its payload. */
  predicate Decodes(req: Request)
  {
    req.requestType in GlobalRequestPayloads && Parse(GlobalRequestPayloads[req.requestType], req.payload).Decoded?
  }

  lemma DispatchUnknown(conn: ConnState, counters: Counters, req: Request, draw: nat, replyFails: bool)
    requires draw < DynamicPortCount
    requires req.requestType !in GlobalRequestPayloads
    ensures var h := Dispatch(conn, counters, req, draw, replyFails);
      && h.counters == Bump(counters, UnknownLabel)
      && h.conn.noMoreSessions == conn.noMoreSessions
      && h.conn.events == conn.events + (if req.wantReply && !replyFails then [ReplySent(false, [])] else [])
      && h.err == (if req.wantReply && replyFails then Some(ReplyError) else None)
  {
  }

  lemma DispatchDecodeError(conn: ConnState, counters: Counters, req: Request, draw: nat, replyFails: bool)
    requires draw < DynamicPortCount
    requires req.requestType in GlobalRequestPayloads && !Decodes(req)
    ensures var h := Dispatch(conn, counters, req, draw, replyFails);
      && h.conn == conn
      && h.counters == Bump(counters, req.requestType)
      && h.err == Some(Parse(GlobalRequestPayloads[req.requestType], req.payload).error)
  {
  }

  /** A decoded request: reply (when asked and it goes through), then log. */
  lemma DispatchDecoded(conn: ConnState, counters: Counters, req: Request, draw: nat, replyFails: bool)
    requires draw < DynamicPortCount
    requires Decodes(req)
    ensures var p := Parse(GlobalRequestPayloads[req.requestType], req.payload).payload;
      var h := Dispatch(conn, counters, req, draw, replyFails);
      && h.counters == Bump(counters, req.requestType)
      && h.err == (if req.wantReply && replyFails then Some(ReplyError) else None)
      && h.conn.events == conn.events
           + (if req.wantReply && !replyFails then [ReplySent(true, Reply(p, draw))] else [])
           + (if req.wantReply && replyFails then [] else [Logged(LogEntryOf(p))])
  {
  }

  /** Every request bumps exactly one counter: its own type's, or "unknown". */
  lemma DispatchCountsOnce(conn: ConnState, counters: Counters, req: Request, draw: nat, replyFails: bool)
    requires draw < DynamicPortCount
    ensures var h := Dispatch(conn, counters, req, draw, replyFails);
      forall l :: Count(h.counters, l) == Count(counters, l) + (if l == CounterLabel(req) then 1 else 0)
  {
  }

  /** The flag is set exactly by a well-formed no-more-sessions request and never cleared,
      whether or not the reply goes through. */
  lemma DispatchFlag(conn: ConnState, counters: Counters, req: Request, draw: nat, replyFails: bool)
    requires draw < DynamicPortCount
    ensures Dispatch(conn, counters, req, draw, replyFails).conn.noMoreSessions
        <==> conn.noMoreSessions || ClosesSessions(req)
  {
  }

  /** Errors come from a payload that does not decode or from a reply that fails, and nowhere else. */
  lemma DispatchError(conn: ConnState, counters: Counters, req: Request, draw: nat, replyFails: bool)
    requires draw < DynamicPortCount
    ensures Dispatch(conn, counters, req, draw, replyFails).err.Some?
        <==> (req.requestType in GlobalRequestPayloads && !Decodes(req)) || (req.wantReply && replyFails)
  {
  }

  /** Events are only appended, at most a reply and a log entry, and a log entry is appended
      exactly when the request decodes and no reply failed; it comes after the reply. */
  lemma DispatchEvents(conn: ConnState, counters: Counters, req: Request, draw: nat, replyFails: bool)
    requires draw < DynamicPortCount
    ensures var h := Dispatch(conn, counters, req, draw, replyFails);
      && conn.events <= h.conn.events
      && |h.conn.events| <= |conn.events| + 2
      && ((exists i :: |conn.events| <= i < |h.conn.events| && h.conn.events[i].Logged?)
          <==> Decodes(req) && !(req.wantReply && replyFails))
      && (forall i :: |conn.events| <= i < |h.conn.events| && h.conn.events[i].Logged? ==> i == |h.conn.events| - 1)
  {
    var h := Dispatch(conn, counters, req, draw, replyFails);
    if Decodes(req) {
      DispatchDecoded(conn, counters, req, draw, replyFails);
      if !(req.wantReply && replyFails) {
        assert h.conn.events[|h.conn.events| - 1].Logged?;
      }
    } else if req.requestType !in GlobalRequestPayloads {
      DispatchUnknown(conn, counters, req, draw, replyFails);
    }
  }

  /** A port-0 tcpip-forward request that asks for a reply gets an accepted reply carrying a
      4-byte port in the dynamic range, then its log entry. */
  lemma ForwardPortZeroReply(conn: ConnState, counters: Counters, address: seq<byte>, draw: nat)
    requires draw < DynamicPortCount && |address| < TWO_32
    ensures var h := Dispatch(conn, counters, Request(TcpipForwardType, true, EncodeAddressPort(address, 0)), draw, false);
      && h.err == None
      && |h.conn.events| == |conn.events| + 2
      && h.conn.events[|conn.events|].ReplySent?
      && h.conn.events[|conn.events|].accepted
      && |h.conn.events[|conn.events|].payload| == 4
      && FirstDynamicPort <= ReadUint32(h.conn.events[|conn.events|].payload) < 65536
      && h.conn.events[|conn.events| + 1].Logged?
  {
    ParseForwardRoundTrip(address, 0);
  }

  /** A forward request with a nonzero port, and every cancel and no-more-sessions request,
      is accepted with an empty reply payload. */
  lemma OtherRepliesEmpty(conn: ConnState, counters: Counters, req: Request, draw: nat)
    requires draw < DynamicPortCount
    requires Decodes(req) && req.wantReply
    requires var p := Parse(GlobalRequestPayloads[req.requestType], req.payload).payload;
      !(p.TcpipForward? && p.port == 0)
    ensures Dispatch(conn, counters, req, draw, false).conn.events[|conn.events|] == ReplySent(true, [])
  {
    DispatchDecoded(conn, counters, req, draw, false);
  }

  /** The address a forward request logs splits back into the request's host and its port in decimal. */
  lemma ForwardLogsHostPort(conn: ConnState, counters: Counters, wantReply: bool, address: seq<byte>, port: uint32, draw: nat)
    requires draw < DynamicPortCount && |address| < TWO_32 && OpenBracket !in address
    ensures var h := Dispatch(conn, counters, Request(TcpipForwardType, wantReply, EncodeAddressPort(address, port)), draw, false);
      && |h.conn.events| > 0
      && h.conn.events[|h.conn.events| - 1].Logged?
      && h.conn.events[|h.conn.events| - 1].entry.TcpipForwardLog?
      && SplitHostPort(h.conn.events[|h.conn.events| - 1].entry.address) == Some((address, Decimal.FormatBytes(port)))
  {
    ParseForwardRoundTrip(address, port);
    LoggedAddressSplits(address, port);
  }

  /** The address a cancel-forward request logs splits back into the request's host and its port in decimal. */
  lemma CancelLogsHostPort(conn: ConnState, counters: Counters, wantReply: bool, address: seq<byte>, port: uint32, draw: nat)
    requires draw < DynamicPortCount && |address| < TWO_32 && OpenBracket !in address
    ensures var h := Dispatch(conn, counters, Request(CancelTcpipForwardType, wantReply, EncodeAddressPort(address, port)), draw, false);
      && |h.conn.events| > 0
      && h.conn.events[|h.conn.events| - 1].Logged?
      && h.conn.events[|h.conn.events| - 1].entry.CancelTcpipForwardLog?
      && SplitHostPort(h.conn.events[|h.conn.events| - 1].entry.address) == Some((address, Decimal.FormatBytes(port)))
  {
    ParseForwardRoundTrip(address, port);
    LoggedAddressSplits(address, port);
  }

  // ---------------------------------------------------------------- runs of requests

  /** One request delivered on the connection, with the transport's and the random source's behaviour. */
  datatype Delivery = Delivery(req: Request, draw: nat, replyFails: bool)

  predicate ValidDeliveries(ds: seq<Delivery>)
  {
    forall i :: 0 <= i < |ds| ==> ds[i].draw < DynamicPortCount
  }

  /** The state after the requests of `ds`, in order. */
  function DispatchAll(conn: ConnState, counters: Counters, ds: seq<Delivery>): (ConnState, Counters)
    requires ValidDeliveries(ds)
    decreases |ds|
  {
    if ds == [] then (conn, counters)
    else
      var h := Dispatch(conn, counters, ds[0].req, ds[0].draw, ds[0].replyFails);
      DispatchAll(h.conn, h.counters, ds[1..])
  }

  /** How many of the requests are accounted under `l`. */
  function Occurrences(ds: seq<Delivery>, l: string): nat
  {
    if ds == [] then 0
    else (if CounterLabel(ds[0].req) == l then 1 else 0) + Occurrences(ds[1..], l)
  }

  /** After a run of requests the flag is set exactly when it was set before or some request
      in the run was a well-formed no-more-sessions request. */
  lemma {:induction false} RunFlag(conn: ConnState, counters: Counters, ds: seq<Delivery>)
    requires ValidDeliveries(ds)
    ensures DispatchAll(conn, counters, ds).0.noMoreSessions
        <==> conn.noMoreSessions || exists i :: 0 <= i < |ds| && ClosesSessions(ds[i].req)
    decreases |ds|
  {
    if ds != [] {
      var h := Dispatch(conn, counters, ds[0].req, ds[0].draw, ds[0].replyFails);
      DispatchFlag(conn, counters, ds[0].req, ds[0].draw, ds[0].replyFails);
      assert ValidDeliveries(ds[1..]) by {
        forall i | 0 <= i < |ds[1..]| ensures ds[1..][i].draw < DynamicPortCount {
          assert ds[1..][i] == ds[i + 1];
        }
      }
      RunFlag(h.conn, h.counters, ds[1..]);
      if exists i :: 0 <= i < |ds| && ClosesSessions(ds[i].req) {
        var i :| 0 <= i < |ds| && ClosesSessions(ds[i].req);
        if i > 0 {
          assert ds[1..][i - 1] == ds[i];
        }
      }
      if exists i :: 0 <= i < |ds[1..]| && ClosesSessions(ds[1..][i].req) {
        var i :| 0 <= i < |ds[1..]| && ClosesSessions(ds[1..][i].req);
        assert ds[i + 1] == ds[1..][i];
      }
    }
  }

  /** Each counter grows by the number of requests accounted under its label. */
  lemma {:induction false} RunCounts(conn: ConnState, counters: Counters, ds: seq<Delivery>, l: string)
    requires ValidDeliveries(ds)
    ensures Count(DispatchAll(conn, counters, ds).1, l) == Count(counters, l) + Occurrences(ds, l)
    decreases |ds|
  {
    if ds != [] {
      var h := Dispatch(conn, counters, ds[0].req, ds[0].draw, ds[0].replyFails);
      DispatchCountsOnce(conn, counters, ds[0].req, ds[0].draw, ds[0].replyFails);
      assert ValidDeliveries(ds[1..]) by {
        forall i | 0 <= i < |ds[1..]| ensures ds[1..][i].draw < DynamicPortCount {
          assert ds[1..][i] == ds[i + 1];
        }
      }
      RunCounts(h.conn, h.counters, ds[1..], l);
    }
  }

  /** A run only appends events: what the peer and the log saw before stays as it was. */
  lemma {:induction false} RunEventsExtend(conn: ConnState, counters: Counters, ds: seq<Delivery>)
    requires ValidDeliveries(ds)
    ensures conn.events <= DispatchAll(conn, counters, ds).0.events
    decreases |ds|
  {
    if ds != [] {
      var h := Dispatch(conn, counters, ds[0].req, ds[0].draw, ds[0].replyFails);
      DispatchEvents(conn, counters, ds[0].req, ds[0].draw, ds[0].replyFails);
      assert ValidDeliveries(ds[1..]) by {
        forall i | 0 <= i < |ds[1..]| ensures ds[1..][i].draw < DynamicPortCount {
          assert ds[1..][i] == ds[i + 1];
        }
      }
      RunEventsExtend(h.conn, h.counters, ds[1..]);
    }
  }
}
