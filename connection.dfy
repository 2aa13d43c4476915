/**
 * The client-side HTTP/2 connection: its connect/close lifecycle, the
 * processing of event batches from the h2 engine, the stream registry
 * and the observer registry.
 *
 * Collaborators are abstract: whatever the IOLoop, the TCP client, the
 * IOStream or the h2 engine would return is a parameter of the method
 * that consumes it, and everything done to them is appended to `trace`.
 */
module Connection {
  import opened Outcomes
  import opened Events
  import opened Tls
  import opened Trace
  import opened FlowControl
  import opened Dispatch

  /** What `on_close` does to the log when the transport was `io`. */
  function CloseEffects(io: Option<IoStreamRef>, reason: Reason): (r: seq<Action>)
    ensures |r| == if io.Some? then 2 else 1
    ensures r[|r| - 1] == ConnectionClosed(reason)
    ensures io.Some? ==> r[0] == CloseStream(io.value)
  {
    (if io.Some? then [CloseStream(io.value)] else []) + [ConnectionClosed(reason)]
  }

  /** Every `on_close` adds exactly one `on_connection_closed` call to the log, whatever came before. */
  lemma EachCloseNotifiesOnce(t: seq<Action>, io: Option<IoStreamRef>, reason: Reason)
    ensures ClosedCount(t + CloseEffects(io, reason)) == ClosedCount(t) + 1
  {
    var r := CloseEffects(io, reason);
    assert ClosedCount(r[..|r| - 1]) == 0;
    ClosedCountAppend(t, r);
  }

  /** The actions of a successful `on_connect`, up to and excluding the flush. */
  function Handshake(timer: TimerHandle, io: IoStreamRef): seq<Action>
  {
    [CancelTimer(timer), SetNoDelay(io), WatchClose(io),
     InitiateConnection, UpdateSettings(map[EnablePush := 0]), StartReading(io)]
  }

  class Http2ClientConnection {
    const host: string
    const port: nat
    /** Seconds the connect may take, in the IOLoop's clock units. */
    const connectTimeout: nat

    var isConnected: bool
    var timedOut: bool
    var connectTimeoutHandle: TimerHandle
    var stream: Option<IoStreamRef>
    var h2conn: Option<EngineRef>
    var ongoingStreams: Registry
    var eventHandlers: Observers
    var sslContext: Option<TlsContext>
    /** Everything done to the collaborators, oldest first. */
    var trace: seq<Action>

    /**
     * The transport and the engine are present exactly while connected, and
     * `timed_out` is set exactly when the timer handle is False; a timed-out
     * connection is not connected.
     */
    ghost predicate Valid()
      reads this
    {
      && (isConnected <==> h2conn.Some?)
      && (isConnected <==> stream.Some?)
      && (timedOut <==> connectTimeoutHandle.Expired?)
      && (timedOut ==> !isConnected)
    }

    constructor (host: string, port: nat, connectTimeout: nat, tlsDefaults: set<TlsOption>)
      ensures Valid()
      ensures this.host == host && this.port == port && this.connectTimeout == connectTimeout
      ensures !isConnected && !timedOut && connectTimeoutHandle == NoTimer
      ensures stream == None && h2conn == None
      ensures ongoingStreams == map[] && eventHandlers == map[]
      ensures sslContext == ContextFor(port, tlsDefaults)
      ensures trace == []
    {
      this.host := host;
      this.port := port;
      this.connectTimeout := connectTimeout;
      isConnected := false;
      timedOut := false;
      stream := None;
      connectTimeoutHandle := NoTimer;
      h2conn := None;
      ongoingStreams := map[];
      eventHandlers := map[];
      sslContext := None;
      trace := [];
      new;
      ParseSslOpts(tlsDefaults);
    }

    /**
     * `parse_ssl_opts`: for port 443 installs the HTTP/2 TLS context built
     * on the default context whose options are `tlsDefaults`; any other
     * port leaves `ssl_context` as it was.
     */
    method ParseSslOpts(tlsDefaults: set<TlsOption>)
      modifies this`sslContext
      ensures sslContext == if port == SecurePort then ContextFor(port, tlsDefaults) else old(sslContext)
    {
      if port != SecurePort {
        return;
      }
      sslContext := Some(H2Context(tlsDefaults));
    }

    /**
     * `connect`: refused (nothing changes) while a timer handle is live;
     * otherwise clears `timed_out`, arms one timer `handle` due at
     * `now + connect_timeout`, and starts the TCP connect with the TLS
     * context. Not refused when already connected: the handle is None then.
     */
    method Connect(now: int, handle: nat)
      requires Valid()
      modifies this`timedOut, this`connectTimeoutHandle, this`trace
      ensures Valid()
      ensures old(connectTimeoutHandle).IsTruthy() ==>
        timedOut == old(timedOut) && connectTimeoutHandle == old(connectTimeoutHandle) && trace == old(trace)
      ensures !old(connectTimeoutHandle).IsTruthy() ==>
        && !timedOut
        && connectTimeoutHandle == Pending(handle)
        && trace == old(trace) + [ArmTimer(handle, now + connectTimeout), TcpConnect(host, port, sslContext)]
    {
      if connectTimeoutHandle.IsTruthy() {
        return;
      }
      timedOut := false;
      connectTimeoutHandle := Pending(handle);
      trace := trace + [ArmTimer(handle, now + connectTimeout)];
      trace := trace + [TcpConnect(host, port, sslContext)];
    }

    /**
     * `on_connect`: after a timeout, only closes the late transport `io`.
     * Otherwise marks the connection connected, cancels the timer, installs
     * `io` and the new engine, initiates the HTTP/2 connection, sends
     * SETTINGS_ENABLE_PUSH = 0 (section 6.5.2 of RFC 7540), starts reading,
     * flushes the engine's `preface` bytes, and only then schedules
     * `on_connection_ready`.
     */
    method OnConnect(io: IoStreamRef, engine: EngineRef, preface: seq<byte>)
      requires Valid()
      modifies this`isConnected, this`connectTimeoutHandle, this`stream, this`h2conn, this`trace
      ensures Valid()
      ensures old(timedOut) ==>
        && isConnected == old(isConnected) && connectTimeoutHandle == old(connectTimeoutHandle)
        && stream == old(stream) && h2conn == old(h2conn)
        && trace == old(trace) + [CloseStream(io)]
      ensures !old(timedOut) ==>
        && isConnected && connectTimeoutHandle == NoTimer
        && stream == Some(io) && h2conn == Some(engine)
        && trace == old(trace) + Handshake(old(connectTimeoutHandle), io) + Flushed(io, preface) + [ReadyScheduled]
    {
      if timedOut {
        trace := trace + [CloseStream(io)];
        return;
      }
      isConnected := true;
      trace := trace + [CancelTimer(connectTimeoutHandle)];
      connectTimeoutHandle := NoTimer;
      stream := Some(io);
      trace := trace + [SetNoDelay(io), WatchClose(io)];
      h2conn := Some(engine);
      trace := trace + [InitiateConnection, UpdateSettings(map[EnablePush := 0]), StartReading(io)];
      var flushed := Flush(preface);
      trace := trace + [ReadyScheduled];
    }

    /**
     * `on_close`: always marks the connection disconnected and drops the
     * engine and the transport (closing it first; an error from that close
     * is swallowed and changes nothing), then calls
     * `on_connection_closed(reason)`, once per call: a second close
     * notifies again.
     */
    method OnClose(reason: Reason)
      modifies this`isConnected, this`h2conn, this`stream, this`trace
      ensures !isConnected && h2conn == None && stream == None
      ensures trace == old(trace) + CloseEffects(old(stream), reason)
      ensures (timedOut <==> connectTimeoutHandle.Expired?) ==> Valid()
    {
      isConnected := false;
      h2conn := None;
      if stream.Some? {
        trace := trace + [CloseStream(stream.value)];
        stream := None;
      }
      trace := trace + [ConnectionClosed(reason)];
    }

    /**
     * `on_timeout`: sets `timed_out`, makes the handle False (so a later
     * `connect` is allowed) and closes with HTTP error 599.
     */
    method OnTimeout()
      requires Valid()
      modifies this`timedOut, this`connectTimeoutHandle, this`isConnected, this`h2conn, this`stream, this`trace
      ensures Valid()
      ensures timedOut && connectTimeoutHandle == Expired && !connectTimeoutHandle.IsTruthy()
      ensures !isConnected && h2conn == None && stream == None
      ensures trace == old(trace) + CloseEffects(old(stream), TimeoutReason)
    {
      timedOut := true;
      connectTimeoutHandle := Expired;
      OnClose(TimeoutReason);
    }

    /** `on_error`: an error raised during connect or read closes with that error. */
    method OnError(reason: Reason)
      requires Valid()
      modifies this`isConnected, this`h2conn, this`stream, this`trace
      ensures Valid()
      ensures !isConnected && h2conn == None && stream == None
      ensures trace == old(trace) + CloseEffects(old(stream), reason)
    {
      OnClose(reason);
    }

    /**
     * `flush`: writes the engine's pending bytes to the transport when
     * there are any; without an engine the call raises.
     */
    method Flush(pending: seq<byte>) returns (status: Status)
      requires Valid()
      modifies this`trace
      ensures h2conn.None? ==> status == Raised(AttributeError) && trace == old(trace)
      ensures h2conn.Some? ==> status == Ok && trace == old(trace) + Flushed(stream.value, pending)
    {
      if h2conn.None? {
        return Raised(AttributeError);
      }
      if |pending| > 0 {
        trace := trace + [Write(stream.value, pending)];
      }
      status := Ok;
    }

    /**
     * `data_received`: hands the bytes to the engine, whose verdict is
     * `received` (a protocol error is a Failure), and processes a non-empty
     * batch. Every exception is swallowed, so a handler that raises ends
     * the batch and nothing reaches the caller.
     */
    method DataReceived(received: Result<seq<Event>>, pending: seq<byte>, failing: set<nat>, peerClosed: set<StreamId>)
      requires Valid()
      modifies this`trace
      ensures h2conn.None? || received.Failure? || received.value == [] ==> trace == old(trace)
      ensures h2conn.Some? && received.Success? && received.value != [] ==>
        exists status :: Processed(old(trace), trace, received.value, ongoingStreams, eventHandlers,
                                   stream.value, pending, failing, peerClosed, status)
    {
      if h2conn.None? || received.Failure? {
        return;
      }
      if received.value != [] {
        var status := ProcessEvents(received.value, pending, failing, peerClosed);
      }
    }

    /**
     * `process_events`: routes each event to the stream registered for its
     * truthy stream id, in batch order, accumulating the flow-controlled
     * bytes of every DataReceived (registered or not) per stream; then
     * issues one WINDOW_UPDATE per stream with a non-zero count (a
     * StreamClosedError there is swallowed), one for the connection with
     * the total when it is positive, and flushes when bytes were received
     * or the peer changed its settings (the SETTINGS ACK, section 6.5.3 of
     * RFC 7540). A handler that raises abandons the rest of the batch.
     * `connection_terminated` is computed by the source and never used, so
     * a ConnectionTerminated event changes nothing here.
     */
    method ProcessEvents(events: seq<Event>, pending: seq<byte>, failing: set<nat>, peerClosed: set<StreamId>)
      returns (status: Status)
      requires Valid() && h2conn.Some?
      modifies this`trace
      ensures Processed(old(trace), trace, events, ongoingStreams, eventHandlers, stream.value,
                        pending, failing, peerClosed, status)
    {
      var recvStreams, settingsUpdated, failedAt := RouteEvents(events, failing);
      if failedAt.Some? {
        FirstFailureAt(events, ongoingStreams, failing, failedAt.value);
        status := Raised(HandlerError);
        ProcessedOnFailure(old(trace), trace, events, failedAt.value, ongoingStreams, eventHandlers,
                           stream.value, pending, failing, peerClosed);
        return;
      }
      FirstFailureAt(events, ongoingStreams, failing, |events|);
      ghost var dispatched := trace;
      var recvConnection, updates := IncrementWindows(events, recvStreams, peerClosed);
      if recvConnection != 0 {
        trace := trace + [ConnectionWindowUpdate(recvConnection)];
      }
      ghost var credited := trace;
      assert credited == dispatched + updates + ConnectionUpdate(TotalReceived(events));
      if recvConnection != 0 || settingsUpdated {
        var flushed := Flush(pending);
      }
      assert trace == credited + (if TotalReceived(events) > 0 || HasSettingsChange(events) then Flushed(stream.value, pending) else []);
      status := Ok;
      ProcessedOnCompletion(old(trace), trace, events, ongoingStreams, eventHandlers,
                            stream.value, pending, failing, peerClosed, updates);
    }

    /**
     * The first loop of `process_events`: for each event in order, notes a
     * settings change, adds a DataReceived's bytes to its stream's ledger
     * entry, delivers the event to the handler registered for its truthy
     * stream id and then to the observers registered for it. Stops at the
     * first delivery whose handler raises, returning its position.
     */
    method RouteEvents(events: seq<Event>, failing: set<nat>)
      returns (recvStreams: map<StreamId, nat>, settingsUpdated: bool, failedAt: Option<nat>)
      modifies this`trace
      ensures failedAt.Some? ==>
        && failedAt.value < |events|
        && SurvivesUpTo(events, ongoingStreams, failing, failedAt.value)
        && failedAt.value in failing && Routed(events[failedAt.value], ongoingStreams)
        && trace == old(trace) + Dispatched(events[..failedAt.value], ongoingStreams, eventHandlers)
             + [Deliver(Owner(events[failedAt.value], ongoingStreams), events[failedAt.value])]
      ensures failedAt.None? ==>
        && SurvivesUpTo(events, ongoingStreams, failing, |events|)
        && recvStreams == Credits(events)
        && settingsUpdated == HasSettingsChange(events)
        && trace == old(trace) + Dispatched(events, ongoingStreams, eventHandlers)
    {
      ghost var start := trace;
      var reg, obs := ongoingStreams, eventHandlers;
      recvStreams := map[];
      settingsUpdated := false;
      // Computed as in the source, and never used.
      var connectionTerminated := false;
      var i := 0;
      while i < |events|
        invariant 0 <= i <= |events|
        invariant recvStreams == Credits(events[..i])
        invariant settingsUpdated == HasSettingsChange(events[..i])
        invariant SurvivesUpTo(events, reg, failing, i)
        invariant trace == start + Dispatched(events[..i], reg, obs)
      {
        var event := events[i];
        var sid := StreamIdOf(event);
        ghost var before, ledger, seen := trace, recvStreams, settingsUpdated;
        if event.RemoteSettingsChanged? {
          settingsUpdated := true;
        } else if event.ConnectionTerminated? {
          connectionTerminated := true;
        } else if event.DataReceived? {
          var sofar := if sid.value in recvStreams then recvStreams[sid.value] else 0;
          recvStreams := recvStreams[sid.value := sofar + event.flowControlledLength];
        }
        if sid.Some? && sid.value != 0 && sid.value in reg {
          trace := trace + [Deliver(reg[sid.value], event)];
          if i in failing {
            failedAt := Some(i);
            return;
          }
        }
        if event in obs {
          trace := trace + [Observe(event, obs[event])];
        }
        RouteStep(start, before, trace, events, i, reg, obs,
                  ledger, recvStreams, seen, settingsUpdated);
        i := i + 1;
      }
      assert events[..i] == events;
      failedAt := None;
    }

    /**
     * The second loop of `process_events`: for each stream of the ledger
     * with a non-zero count, in no particular order, adds the count to the
     * connection total and increments the stream's window; a stream the
     * peer has closed raises StreamClosedError, which is swallowed (its
     * bytes still count towards the connection total).
     */
    method IncrementWindows(ghost events: seq<Event>, recvStreams: map<StreamId, nat>, peerClosed: set<StreamId>)
      returns (recvConnection: nat, ghost updates: seq<Action>)
      requires recvStreams == Credits(events)
      modifies this`trace
      ensures recvConnection == TotalReceived(events)
      ensures trace == old(trace) + updates
      ensures multiset(updates) == multiset(StreamUpdates(recvStreams, peerClosed))
    {
      var remaining := recvStreams.Keys;
      recvConnection := 0;
      updates := [];
      CreditsAreReceivedBytes(events);
      ConnectionCreditIsTotal(events);
      while remaining != {}
        invariant remaining <= recvStreams.Keys
        invariant recvConnection + ReceivedOn(events, remaining) == TotalReceived(events)
        invariant trace == old(trace) + updates
        invariant multiset(updates) == multiset(UpdatesFor(recvStreams, peerClosed, recvStreams.Keys - remaining))
        decreases remaining
      {
        var s :| s in remaining;
        var numBytes := recvStreams[s];
        ReceivedOnSplit(events, remaining, s);
        UpdatesForStep(recvStreams, peerClosed, recvStreams.Keys - remaining, s);
        assert recvStreams.Keys - (remaining - {s}) == (recvStreams.Keys - remaining) + {s};
        remaining := remaining - {s};
        if numBytes != 0 {
          recvConnection := recvConnection + numBytes;
          if s !in peerClosed {
            trace := trace + [StreamWindowUpdate(s, numBytes)];
            updates := updates + [StreamWindowUpdate(s, numBytes)];
          }
        }
      }
      ReceivedOnNothing(events);
      assert recvStreams.Keys - remaining == recvStreams.Keys;
    }

    /**
     * `begin_stream`: registers `handler` under the id the engine hands out
     * (`nextId`, whatever `get_next_available_stream_id` returns) and
     * returns that id; other entries are unchanged. Without an engine the
     * call raises.
     */
    method BeginStream(handler: HandlerRef, nextId: StreamId) returns (r: Result<StreamId>)
      requires Valid()
      modifies this`ongoingStreams
      ensures h2conn.None? ==> r == Failure(AttributeError) && ongoingStreams == old(ongoingStreams)
      ensures h2conn.Some? ==> r == Success(nextId) && ongoingStreams == old(ongoingStreams)[nextId := handler]
    {
      if h2conn.None? {
        return Failure(AttributeError);
      }
      ongoingStreams := ongoingStreams[nextId := handler];
      r := Success(nextId);
    }

    /**
     * `end_stream`: removes exactly the entry for the handler's `stream_id`;
     * raises KeyError, changing nothing, when there is none.
     */
    method EndStream(streamId: StreamId) returns (status: Status)
      modifies this`ongoingStreams
      ensures streamId in old(ongoingStreams) ==> status == Ok && ongoingStreams == old(ongoingStreams) - {streamId}
      ensures streamId !in old(ongoingStreams) ==> status == Raised(KeyError) && ongoingStreams == old(ongoingStreams)
    {
      if streamId !in ongoingStreams {
        return Raised(KeyError);
      }
      ongoingStreams := ongoingStreams - {streamId};
      status := Ok;
    }

    /**
     * `add_event_handler`: adds `handler` to the set already stored for
     * `event`; for an event with no set the fresh empty set it adds to is
     * thrown away, so nothing is stored. The registry never gains a key.
     */
    method AddEventHandler(event: Event, handler: ObserverRef)
      modifies this`eventHandlers
      ensures eventHandlers.Keys == old(eventHandlers).Keys
      ensures eventHandlers == if event in old(eventHandlers)
        then old(eventHandlers)[event := old(eventHandlers)[event] + {handler}]
        else old(eventHandlers)
    {
      if event in eventHandlers {
        eventHandlers := eventHandlers[event := eventHandlers[event] + {handler}];
      }
    }

    /**
     * `add_event_handler` as its name promises (a `setdefault` in place of
     * the `get`): `handler` joins the set for `event`, which is created when
     * there is none; every other entry is unchanged.
     */
    method AddEventHandlerIntended(event: Event, handler: ObserverRef)
      modifies this`eventHandlers
      ensures eventHandlers.Keys == old(eventHandlers).Keys + {event}
      ensures handler in eventHandlers[event]
      ensures eventHandlers[event] - {handler} == (if event in old(eventHandlers) then old(eventHandlers)[event] else {}) - {handler}
      ensures forall e :: e in old(eventHandlers) && e != event ==> eventHandlers[e] == old(eventHandlers)[e]
    {
      var observers := if event in eventHandlers then eventHandlers[event] else {};
      eventHandlers := eventHandlers[event := observers + {handler}];
    }

    /**
     * `remove_event_handler`: removes `handler` from the set stored for
     * `event`; raises KeyError, changing nothing, when there is no such set
     * or the handler is not in it.
     */
    method RemoveEventHandler(event: Event, handler: ObserverRef) returns (status: Status)
      modifies this`eventHandlers
      ensures eventHandlers.Keys == old(eventHandlers).Keys
      ensures event in old(eventHandlers) && handler in old(eventHandlers)[event] ==>
        status == Ok && eventHandlers == old(eventHandlers)[event := old(eventHandlers)[event] - {handler}]
      ensures !(event in old(eventHandlers) && handler in old(eventHandlers)[event]) ==>
        status == Raised(KeyError) && eventHandlers == old(eventHandlers)
    {
      if event !in eventHandlers || handler !in eventHandlers[event] {
        return Raised(KeyError);
      }
      eventHandlers := eventHandlers[event := eventHandlers[event] - {handler}];
      status := Ok;
    }
  }
}
