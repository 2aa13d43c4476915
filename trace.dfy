/**
 * What the connection does to its collaborators (timer, transport, h2
 * engine, stream handlers, callbacks), recorded as a log of actions.
 */
module Trace {
  import opened Outcomes
  import opened Events
  import opened Tls

  newtype byte = x: int | 0 <= x < 256

  /** Identity of an IOStream returned by the TCP client. */
  type IoStreamRef = nat
  /** Identity of a caller-owned stream handler object. */
  type HandlerRef = nat
  /** Identity of a connection-level observer callable. */
  type ObserverRef = nat
  /** Identity of an h2 engine instance. */
  type EngineRef = nat

  /**
   * `_connect_timeout_t`: None before the first connect and after a
   * successful one, False after a timeout, a live handle while waiting.
   * Only a live handle is truthy.
   */
  datatype TimerHandle = NoTimer | Expired | Pending(id: nat) {
    predicate IsTruthy() { Pending? }
  }

  /** The reason handed to `on_close` and passed on to `on_connection_closed`. */
  datatype Reason = NoError | HttpError(code: nat) | Error(description: string)

  /** The error the timeout reports. */
  const TimeoutReason: Reason := HttpError(599)

  datatype SettingCode = EnablePush

  datatype Action =
    | ArmTimer(handle: nat, deadline: int)
    | CancelTimer(timer: TimerHandle)
    | TcpConnect(host: string, port: nat, tls: Option<TlsContext>)
    | SetNoDelay(io: IoStreamRef)
    | WatchClose(io: IoStreamRef)
    | StartReading(io: IoStreamRef)
    | CloseStream(io: IoStreamRef)
    | Write(io: IoStreamRef, bytes: seq<byte>)
    | InitiateConnection
    | UpdateSettings(settings: map<SettingCode, nat>)
    | Deliver(handler: HandlerRef, event: Event)
    | Observe(event: Event, observers: set<ObserverRef>)
    | StreamWindowUpdate(streamId: StreamId, increment: nat)
    | ConnectionWindowUpdate(increment: nat)
    | ReadyScheduled
    | ConnectionClosed(reason: Reason)

  /** What `flush` writes when the engine has `pending` bytes to send. */
  function Flushed(io: IoStreamRef, pending: seq<byte>): (r: seq<Action>)
    ensures |r| <= 1
    ensures r != [] <==> pending != []
    ensures r != [] ==> r[0] == Write(io, pending)
  {
    if |pending| > 0 then [Write(io, pending)] else []
  }

  /** Number of `on_connection_closed` invocations recorded in `t`. */
  function ClosedCount(t: seq<Action>): (n: nat)
    ensures n <= |t|
    ensures n == 0 <==> forall k :: 0 <= k < |t| ==> !t[k].ConnectionClosed?
  {
    if t == [] then 0
    else ClosedCount(t[..|t| - 1]) + (if t[|t| - 1].ConnectionClosed? then 1 else 0)
  }

  /** Close notifications in a concatenation of logs add up. */
  lemma {:induction false} ClosedCountAppend(a: seq<Action>, b: seq<Action>)
    ensures ClosedCount(a + b) == ClosedCount(a) + ClosedCount(b)
  {
    if b != [] {
      var init := b[..|b| - 1];
      assert (a + b)[..|a + b| - 1] == a + init;
      ClosedCountAppend(a, init);
    } else {
      assert a + b == a;
    }
  }
}
