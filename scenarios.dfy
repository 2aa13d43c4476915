/**
 * Call sequences on a fresh connection, showing how the lifecycle methods
 * interact: the connect guard, a timeout racing a late transport,
 * repeated closes and observer registration, and a worked batch.
 */
module Scenarios {
  import opened Outcomes
  import opened Tls
  import opened Trace
  import opened Connection
  import opened Events
  import opened FlowControl
  import opened Dispatch

  /**
   * The connect timed out before the transport arrived: the owner is told
   * of exactly one close, with HTTP error 599, the late transport is closed
   * and the connection never becomes connected.
   */
  method LateTransportAfterTimeout(
    host: string, port: nat, timeout: nat, tlsDefaults: set<TlsOption>,
    now: int, handle: nat, io: IoStreamRef, engine: EngineRef, preface: seq<byte>)
    returns (t: seq<Action>, connected: bool)
    ensures t == [ArmTimer(handle, now + timeout), TcpConnect(host, port, ContextFor(port, tlsDefaults)),
                  ConnectionClosed(TimeoutReason), CloseStream(io)]
    ensures !connected
  {
    var c := new Http2ClientConnection(host, port, timeout, tlsDefaults);
    c.Connect(now, handle);
    c.OnTimeout();
    c.OnConnect(io, engine, preface);
    t, connected := c.trace, c.isConnected;
  }

  /** While a connect is waiting for its transport, a second connect does nothing. */
  method ConnectWhilePending(
    host: string, port: nat, timeout: nat, tlsDefaults: set<TlsOption>,
    now: int, later: int, first: nat, second: nat)
    returns (t: seq<Action>)
    ensures t == [ArmTimer(first, now + timeout), TcpConnect(host, port, ContextFor(port, tlsDefaults))]
  {
    var c := new Http2ClientConnection(host, port, timeout, tlsDefaults);
    c.Connect(now, first);
    c.Connect(later, second);
    t := c.trace;
  }

  /** After a timeout the handle is False, so the next connect arms a new timer and tries again. */
  method ReconnectAfterTimeout(
    host: string, port: nat, timeout: nat, tlsDefaults: set<TlsOption>,
    now: int, later: int, first: nat, second: nat)
    returns (t: seq<Action>, timedOut: bool)
    ensures t == [ArmTimer(first, now + timeout), TcpConnect(host, port, ContextFor(port, tlsDefaults)),
                  ConnectionClosed(TimeoutReason),
                  ArmTimer(second, later + timeout), TcpConnect(host, port, ContextFor(port, tlsDefaults))]
    ensures !timedOut
  {
    var c := new Http2ClientConnection(host, port, timeout, tlsDefaults);
    c.Connect(now, first);
    c.OnTimeout();
    c.Connect(later, second);
    t, timedOut := c.trace, c.timedOut;
  }

  /**
   * Once connected the handle is None, so `connect` is not refused: it
   * arms a second timer and opens a second transport.
   */
  method ConnectWhileConnected(
    host: string, port: nat, timeout: nat, tlsDefaults: set<TlsOption>,
    now: int, later: int, first: nat, second: nat, io: IoStreamRef, engine: EngineRef, preface: seq<byte>)
    returns (t: seq<Action>, connected: bool)
    ensures connected
    ensures t == [ArmTimer(first, now + timeout), TcpConnect(host, port, ContextFor(port, tlsDefaults))]
      + Handshake(Pending(first), io) + Flushed(io, preface) + [ReadyScheduled]
      + [ArmTimer(second, later + timeout), TcpConnect(host, port, ContextFor(port, tlsDefaults))]
  {
    var c := new Http2ClientConnection(host, port, timeout, tlsDefaults);
    c.Connect(now, first);
    c.OnConnect(io, engine, preface);
    c.Connect(later, second);
    t, connected := c.trace, c.isConnected;
  }

  /**
   * `on_close` is not idempotent: a second close finds no transport to
   * close but notifies the owner again, with its own reason.
   */
  method CloseTwice(
    host: string, port: nat, timeout: nat, tlsDefaults: set<TlsOption>, first: Reason, second: Reason)
    returns (t: seq<Action>, connected: bool)
    ensures !connected
    ensures t == [ConnectionClosed(first), ConnectionClosed(second)]
  {
    var c := new Http2ClientConnection(host, port, timeout, tlsDefaults);
    c.OnClose(first);
    c.OnClose(second);
    t, connected := c.trace, c.isConnected;
  }

  /**
   * Registering an observer for an event that has none stores nothing (the
   * event does not even become a key), so removing it again raises KeyError.
   */
  method FirstObserverIsLost(
    host: string, port: nat, timeout: nat, tlsDefaults: set<TlsOption>, event: Event, handler: ObserverRef)
    returns (registered: bool, removal: Status)
    ensures !registered
    ensures removal == Raised(KeyError)
  {
    var c := new Http2ClientConnection(host, port, timeout, tlsDefaults);
    c.AddEventHandler(event, handler);
    registered := event in c.eventHandlers;
    removal := c.RemoveEventHandler(event, handler);
  }

  /** With the intended registration the observer is stored and can be removed again. */
  method FirstObserverIsKept(
    host: string, port: nat, timeout: nat, tlsDefaults: set<TlsOption>, event: Event, handler: ObserverRef)
    returns (registered: bool, removal: Status, remaining: set<ObserverRef>)
    ensures registered
    ensures removal == Ok && remaining == {}
  {
    var c := new Http2ClientConnection(host, port, timeout, tlsDefaults);
    c.AddEventHandlerIntended(event, handler);
    registered := event in c.eventHandlers && handler in c.eventHandlers[event];
    removal := c.RemoveEventHandler(event, handler);
    remaining := c.eventHandlers[event];
  }

  /**
   * A worked batch: stream 1 receives 10 and then 5 bytes, stream 3 an
   * empty DATA frame, stream 7 25 bytes, and the peer changes its settings.
   */
  const ExampleEvents: seq<Event> := [DataReceived(1, 10), DataReceived(3, 0), RemoteSettingsChanged,
                                      DataReceived(1, 5), DataReceived(7, 25)]

  /**
   * With stream 7 closed by the peer, only stream 1 gets a WINDOW_UPDATE
   * (of 15), the connection gets one of 40, and the SETTINGS change asks
   * for a flush.
   */
  lemma ExampleBatch()
    ensures Credits(ExampleEvents) == map[1 := 15, 3 := 0, 7 := 25]
    ensures StreamUpdates(Credits(ExampleEvents), {7}) == {StreamWindowUpdate(1, 15)}
    ensures ConnectionUpdate(TotalReceived(ExampleEvents)) == [ConnectionWindowUpdate(40)]
    ensures HasSettingsChange(ExampleEvents)
  {
    ExampleLedger();
    ExampleUpdates();
  }

  lemma ExampleLedger()
    ensures Credits(ExampleEvents) == map[1 := 15, 3 := 0, 7 := 25]
    ensures TotalReceived(ExampleEvents) == 40
    ensures HasSettingsChange(ExampleEvents)
  {
    var e1 := [DataReceived(1, 10)];
    var e2 := e1 + [DataReceived(3, 0)];
    var e3 := e2 + [RemoteSettingsChanged];
    var e4 := e3 + [DataReceived(1, 5)];
    assert e1[..0] == [] && e2[..1] == e1 && e3[..2] == e2 && e4[..3] == e3 && ExampleEvents[..4] == e4;
    assert Credits(e2) == map[1 := 10, 3 := 0];
    assert Credits(e4) == map[1 := 15, 3 := 0];
    assert TotalReceived(e2) == 10;
    assert TotalReceived(e4) == 15;
    assert HasSettingsChange(e3);
  }

  lemma ExampleUpdates()
    ensures StreamUpdates(map[1 := 15, 3 := 0, 7 := 25], {7}) == {StreamWindowUpdate(1, 15)}
  {
    var ledger: map<StreamId, nat> := map[1 := 15, 3 := 0, 7 := 25];
    assert ledger.Keys == {1, 3, 7};
    forall a | a in StreamUpdates(ledger, {7})
      ensures a == StreamWindowUpdate(1, 15)
    {
      var s :| s in ledger.Keys && ledger[s] > 0 && s !in {7} && a == StreamWindowUpdate(s, ledger[s]);
    }
    assert StreamWindowUpdate(1, ledger[1]) in StreamUpdates(ledger, {7});
  }
}
