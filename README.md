# th2c client connection, modelled in Dafny

This project models `HTTP2ClientConnection`, the client-side connection object
of the th2c HTTP/2 client (`th2c/connection.py`). It covers:

- **Lifecycle.** `connect` arms a connect timer and starts a TCP/TLS connect.
  `on_connect` installs the transport and an h2 engine, or closes a transport
  that arrives after the timeout. `on_timeout`, `on_error` and `on_close` tear
  the connection down.
- **Batch processing.** `data_received` and `process_events` route decoded h2
  events to the stream registered for their stream id and to event observers.
  They credit back the received DATA bytes with WINDOW_UPDATEs (flow control,
  section 6.9 of RFC 7540) and flush to acknowledge a SETTINGS change
  (section 6.5.3 of RFC 7540).
- **Registries.** The stream registry (`begin_stream`, `end_stream`) and the
  observer registry (`add_event_handler`, `remove_event_handler`).
- **TLS policy.** The TLS policy chosen for port 443 (`parse_ssl_opts`).

The connection is the class `Connection.Http2ClientConnection`. Its fields
mirror the object's attributes, and its methods update them in place. The
collaborators are never called. These are the IOLoop, the TCP client, the
IOStream and the h2 engine. What they would return is a parameter of the method
that consumes it:

- the timer handle;
- the engine;
- the decoded events, or a decode failure;
- the bytes `data_to_send()` would return;
- the batch positions whose `handle_event` raises;
- the streams whose WINDOW_UPDATE raises StreamClosedError.

Everything the connection does to a collaborator is appended to the field
`trace`, a log of `Trace.Action`s. The contracts state the new fields and the
new log.

The modules are:

- `Outcomes`: Option, Result and the exceptions that matter.
- `Events`: the h2 events the connection tells apart, and `stream_id` lookup.
- `Tls`: the TLS context record and the port-443 policy.
- `Trace`: the action log, the tri-valued timer handle, and close reasons.
- `FlowControl`: the per-stream byte ledger of a batch and its totals.
- `Dispatch`: routing, the first failing handler, the WINDOW_UPDATEs, and the
  predicate `Processed` that specifies a whole batch.
- `Connection`: the class.
- `Scenarios`: call sequences on a fresh connection, and a worked batch.

The timer handle is `NoTimer` (Python `None`), `Expired` (`False`, set by
`on_timeout`) or `Pending(id)` (a live handle). Only `Pending` is truthy, and
truthiness is all the `connect` guard tests.

In four places the code does not do what a connection manager is usually
expected to do; the model follows the code:

- `on_close` is not idempotent. Every call notifies `on_connection_closed`.
- `connect` is not refused once connected, because the handle is `None` then.
- A decode error in `data_received` is swallowed and does not close the
  connection.
- A handler that raises abandons the rest of its batch, including the
  WINDOW_UPDATEs and the flush.

## Model

| member | source | states |
|---|---|---|
| Tls.ContextPolicy | th2c/connection.py:60-71 | A TLS context exists exactly when the port is 443. It authenticates the server and keeps every default option. It adds exactly NO_TLSv1, NO_TLSv1_1 and NO_COMPRESSION, with ciphers "ECDHE+AESGCM" and ALPN ["h2"]. |
| Connection.Http2ClientConnection.constructor | th2c/connection.py:25-58 | A new connection is disconnected, not timed out, and has no timer, transport or engine. Its registries are empty, its log is empty, and its TLS context is the one the port's policy selects. |
| Connection.Http2ClientConnection.ParseSslOpts | th2c/connection.py:60-71 | Port 443 installs the HTTP/2 TLS context. Any other port leaves `ssl_context` unchanged. |
| Connection.Http2ClientConnection.Connect | th2c/connection.py:73-94 | With a live handle nothing changes. Otherwise `timed_out` is cleared and exactly one timer is armed at now + timeout. The TCP connect then starts with the host, the port and the TLS context. The invariant `Valid` is kept. |
| Connection.Http2ClientConnection.OnConnect | th2c/connection.py:100-142 | After a timeout, only the late transport is closed and no field changes. Otherwise the connection becomes connected and the timer is cancelled and cleared. The transport and engine are installed. The log then shows, in order: initiate, ENABLE_PUSH=0, start reading, the flush of exactly the pending bytes, and the ready callback. |
| Connection.Http2ClientConnection.OnClose | th2c/connection.py:144-159 | Afterwards the connection is disconnected, with no engine and no transport. The old transport, if any, is closed, and then the owner is notified once with the given reason. |
| Connection.EachCloseNotifiesOnce | th2c/connection.py:144-159 | Every close adds exactly one `on_connection_closed` call to the log, whatever the log held before. |
| Connection.Http2ClientConnection.OnTimeout | th2c/connection.py:161-169 | Sets `timed_out` and makes the handle False, which is not truthy, so a later connect is allowed. Then it closes with HTTP error 599. |
| Connection.Http2ClientConnection.OnError | th2c/connection.py:171-175 | Closes with the error that was raised. |
| Connection.Http2ClientConnection.DataReceived | th2c/connection.py:177-188 | Without an engine, on a decode failure, or for an empty batch, the log is unchanged. Otherwise the batch is processed as `Processed` specifies, and nothing propagates to the caller. |
| Connection.Http2ClientConnection.ProcessEvents | th2c/connection.py:190-247 | The log grows by exactly what `Processed` allows. If a handler raises, the log holds the dispatches up to and including that delivery, and nothing else follows. Otherwise it holds the dispatches, then the per-stream WINDOW_UPDATEs (as a multiset), then the connection WINDOW_UPDATE when the total is positive. A flush follows exactly when bytes were received or settings changed. |
| Connection.Http2ClientConnection.RouteEvents | th2c/connection.py:203-228 | The first loop stops at the first raising delivery, or completes. It ends with the ledger equal to the per-stream sums, the settings flag set iff a RemoteSettingsChanged was seen, and the log extended by the batch's dispatches. |
| Connection.Http2ClientConnection.IncrementWindows | th2c/connection.py:230-242 | The connection total is the sum of all received bytes. The per-stream WINDOW_UPDATEs issued form exactly the multiset of updates for the non-zero streams not closed by the peer. |
| Connection.Http2ClientConnection.Flush | th2c/connection.py:257-261 | Without an engine it raises AttributeError. Otherwise it writes exactly the pending bytes to the transport, and writes nothing when there are none. |
| Connection.Http2ClientConnection.BeginStream | th2c/connection.py:249-252 | Registers the handler under the engine-provided id, returns that id, and leaves other entries unchanged. It raises AttributeError without an engine. |
| Connection.Http2ClientConnection.EndStream | th2c/connection.py:254-255 | Removes exactly the stream's entry. It raises KeyError, changing nothing, when the entry is absent. |
| Connection.Http2ClientConnection.AddEventHandler | th2c/connection.py:263-264 | Never adds a key. It extends the observer set only for an event that already has one. |
| Connection.Http2ClientConnection.AddEventHandlerIntended | th2c/connection.py:263-264 | The intended registration: the handler joins the set for the event, which is created when missing. Other entries are unchanged. |
| Connection.Http2ClientConnection.RemoveEventHandler | th2c/connection.py:266-267 | Removes the handler from the event's set. It raises KeyError, changing nothing, when the event has no set or the handler is not in it. |
| FlowControl.CreditsAreReceivedBytes | th2c/connection.py:211-212 | The ledger has an entry exactly for the streams with DATA in the batch. Each entry is the sum of that stream's flow-controlled lengths, counted for registered and unregistered streams alike. |
| FlowControl.ConnectionCreditIsTotal | th2c/connection.py:230-234 | The sum of the ledger's entries, which is what the second loop accumulates as the connection increment, equals the total flow-controlled length of the batch. |
| FlowControl.SumOverCredits | th2c/connection.py:211-212 | For any set of ledger streams, the sum of their entries is the DATA bytes the batch carried on exactly those streams. |
| Dispatch.StreamUpdatesAreReceivedBytes | th2c/connection.py:230-242 | Each per-stream update credits a stream with DATA, not closed by the peer, with exactly its positive byte sum. Every such stream gets one. |
| Dispatch.ConnectionUpdate | th2c/connection.py:243-245 | The connection WINDOW_UPDATE is issued iff the total is positive, and carries the total. |
| Dispatch.DispatchRoutesByRegistry | th2c/connection.py:203-228 | The delivered events are exactly the events with a truthy, registered stream id, in batch order. Each goes to its stream's handler only. Events with no id, id 0 or an unregistered id reach no handler. |
| Dispatch.FirstFailure | th2c/connection.py:213-216 | Gives the first delivered event whose handler raises, or None exactly when no delivered event's handler raises. |
| Dispatch.FailureFrom | th2c/connection.py:213-216 | Gives the least position from i on whose delivery raises, or None when there is none. |
| Dispatch.FirstFailureAt | th2c/connection.py:203-216 | A loop that got through position i without a raising delivery and then stops on a raising delivery stopped at the first failure. If it reached the end, there is none. |
| Dispatch.HasSettingsChangeAt | th2c/connection.py:207-208 | The flush-for-ACK flag is set iff the batch contains a RemoteSettingsChanged event. |
| Dispatch.RouteStep | th2c/connection.py:203-228 | One pass of the first loop advances the ledger, the settings flag and the log exactly as one more event of the batch does. |
| Trace.Flushed | th2c/connection.py:257-261 | A flush writes at most once, exactly when there are pending bytes, and writes exactly those bytes. |
| Scenarios.LateTransportAfterTimeout | th2c/connection.py:100-105 | A timeout followed by a late transport arms one timer, connects once and notifies once with 599. It then closes the late transport and stays disconnected. |
| Scenarios.ConnectWhilePending | th2c/connection.py:73-78 | A second connect while the first is waiting does nothing. |
| Scenarios.ReconnectAfterTimeout | th2c/connection.py:161-169 | After a timeout, the next connect arms a new timer, connects again and clears `timed_out`. |
| Scenarios.ConnectWhileConnected | th2c/connection.py:107-111 | Once connected the handle is None, so a further connect arms a second timer and opens a second transport. |
| Scenarios.CloseTwice | th2c/connection.py:144-159 | Two closes notify the owner twice, each with its own reason. |
| Scenarios.FirstObserverIsLost | th2c/connection.py:263-267 | As written, a first observer for an event is not stored, and removing it raises KeyError. |
| Scenarios.FirstObserverIsKept | th2c/connection.py:263-267 | With the intended registration, the first observer is stored, and removing it succeeds and leaves the set empty. |
| Scenarios.ExampleBatch | th2c/connection.py:203-247 | A batch of DATA 10 and 5 on stream 1, 0 on stream 3 and 25 on peer-closed stream 7, plus a SETTINGS change, yields one stream update (1, 15), a connection update of 40, and a flush. |

## Left out

- The IOLoop is not modelled: its clock, `add_timeout`, `remove_timeout` and `add_callback`. The clock reading and the timer handle are parameters, and scheduling `on_connection_ready` is the log entry `ReadyScheduled`.
- Socket I/O is not modelled. The connect, read, write, `set_nodelay`, the close callback and `close` are log entries. A `close()` that raises in `on_close` is swallowed and changes nothing else, so it is not represented.
- The `ssl` module is not modelled. The default context's options are a parameter, and a context is a record of the options chosen.
- The internals of the h2 engine are not modelled: frame parsing, the contents of `data_to_send()`, and stream-id allocation. Their results are parameters. Nothing is assumed about ids being unique or increasing.
- `ExceptionStackContext` is not modelled. Whether `handle_exception` suppresses an exception is left out; a raising `handle_event` is modelled as ending the batch, through the catch in `data_received`.
- Connection.Http2ClientConnection.RouteEvents: the stream registry and observer map are read once at the start of the batch. A handler that begins or ends streams, or closes the connection, in the middle of a batch is not modelled; the source re-reads `_ongoing_streams` for every event.
- Connection.Http2ClientConnection.RouteEvents: observer callables are logged as one `Observe` entry per event and are assumed not to raise.
- Observer keys are compared as values. h2 events hash by identity, so a registered key matches only that very event object.
- Connection.Http2ClientConnection.IncrementWindows: only StreamClosedError from a per-stream increment is modelled. Any other exception from the engine is left out.
- The order of the per-stream WINDOW_UPDATEs is not modelled, because Python 2 dict iteration order is unspecified. They are stated as a multiset.
- A `connect_timeout` of None, or missing `on_connection_ready`/`on_connection_closed` callbacks, would raise TypeError in the source. The model assumes they are provided.
- The close callback that `on_connect` registers binds `io_stream.error` as it is at registration. The model logs the registration as `WatchClose`; the reason `OnClose` receives is its parameter.
- Clock readings and the connect timeout are whole numbers of clock units. The source uses float seconds (`IOLoop.current().time()` plus `connect_timeout`). The deadline only reaches the log through `ArmTimer`, and no rounding is modelled.
- Logging is left out.

## Findings

| source | as written | input that shows it | evidently intended | confidence | as-written member | corrected member |
|---|---|---|---|---|---|---|
| th2c/connection.py:263-264 | `event_handlers.get(event, set()).add(handler)` adds to a fresh set that is thrown away when the event has no entry, so nothing is ever registered on an empty registry | a new connection, `add_event_handler(e, h)`, then `remove_event_handler(e, h)`: the removal raises KeyError | `setdefault`: create the set for the event and add the handler | not executed | Scenarios.FirstObserverIsLost | Connection.Http2ClientConnection.AddEventHandlerIntended |
