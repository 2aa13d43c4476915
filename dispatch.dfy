/**
 * Routing of one batch of decoded events to stream handlers and observers,
 * and the effect of a whole batch (`process_events`) on the action log.
 */
module Dispatch {
  import opened Outcomes
  import opened Events
  import opened Trace
  import opened FlowControl

  /** `_ongoing_streams`: stream id to the caller's stream handler. */
  type Registry = map<StreamId, HandlerRef>
  /** `event_handlers`: event to the set of observers registered for it. */
  type Observers = map<Event, set<ObserverRef>>

  /** An event goes to a stream handler iff its stream id is truthy and registered. */
  predicate Routed(e: Event, reg: Registry) {
    IsStreamScoped(StreamIdOf(e)) && StreamIdOf(e).value in reg
  }

  /** The handler an event is routed to. */
  function Owner(e: Event, reg: Registry): HandlerRef
    requires Routed(e, reg)
  {
    reg[StreamIdOf(e).value]
  }

  /** What one pass of the first loop of `process_events` emits for `e`. */
  function DispatchOne(e: Event, reg: Registry, obs: Observers): seq<Action>
  {
    (if Routed(e, reg) then [Deliver(Owner(e, reg), e)] else [])
      + (if e in obs then [Observe(e, obs[e])] else [])
  }

  /** What the first loop of `process_events` emits for `events`, no handler failing. */
  function Dispatched(events: seq<Event>, reg: Registry, obs: Observers): seq<Action>
  {
    if events == [] then []
    else Dispatched(events[..|events| - 1], reg, obs) + DispatchOne(events[|events| - 1], reg, obs)
  }

  /** Reference view: the routed events of a batch, in batch order. */
  function RoutedEvents(events: seq<Event>, reg: Registry): seq<Event>
  {
    if events == [] then []
    else
      var e := events[|events| - 1];
      RoutedEvents(events[..|events| - 1], reg) + (if Routed(e, reg) then [e] else [])
  }

  /** The events handed to stream handlers in a log, in log order. */
  function DeliveredEvents(t: seq<Action>): seq<Event>
  {
    if t == [] then []
    else DeliveredEvents(t[..|t| - 1]) + (if t[|t| - 1].Deliver? then [t[|t| - 1].event] else [])
  }

  lemma {:induction false} DeliveredEventsAppend(a: seq<Action>, b: seq<Action>)
    ensures DeliveredEvents(a + b) == DeliveredEvents(a) + DeliveredEvents(b)
  {
    if b != [] {
      assert (a + b)[..|a + b| - 1] == a + b[..|b| - 1];
      DeliveredEventsAppend(a, b[..|b| - 1]);
    } else {
      assert a + b == a;
    }
  }

  /**
   * Routing: every delivery goes to the handler registered for the event's
   * truthy stream id, and the deliveries are exactly the routed events, in
   * batch order. Events with no stream id, stream id 0 or an unregistered
   * stream id reach no handler; without observers nothing but deliveries
   * is emitted.
   */
  lemma {:induction false} DispatchRoutesByRegistry(events: seq<Event>, reg: Registry, obs: Observers)
    ensures DeliveredEvents(Dispatched(events, reg, obs)) == RoutedEvents(events, reg)
    ensures forall a :: a in Dispatched(events, reg, obs) && a.Deliver? ==>
      a.event in events && Routed(a.event, reg) && a.handler == Owner(a.event, reg)
    ensures obs == map[] ==> forall a :: a in Dispatched(events, reg, obs) ==> a.Deliver?
  {
    if events != [] {
      var init := events[..|events| - 1];
      var e := events[|events| - 1];
      assert events == init + [e];
      DispatchRoutesByRegistry(init, reg, obs);
      DeliveredEventsAppend(Dispatched(init, reg, obs), DispatchOne(e, reg, obs));
      var one := DispatchOne(e, reg, obs);
      if Routed(e, reg) {
        if e in obs {
          assert one == [Deliver(Owner(e, reg), e)] + [Observe(e, obs[e])];
          DeliveredEventsAppend([Deliver(Owner(e, reg), e)], [Observe(e, obs[e])]);
        }
      } else if e in obs {
        assert DeliveredEvents(one) == DeliveredEvents([]) + [];
      }
    }
  }

  /** Index of the first routed event, from `i` on, whose handler raises. */
  function FailureFrom(events: seq<Event>, reg: Registry, failing: set<nat>, i: nat): (r: Option<nat>)
    requires i <= |events|
    decreases |events| - i
    ensures r.Some? ==> i <= r.value < |events| && r.value in failing && Routed(events[r.value], reg)
    ensures forall k :: i <= k < |events| && k in failing && Routed(events[k], reg) ==>
      r.Some? && r.value <= k
  {
    if i == |events| then None
    else if i in failing && Routed(events[i], reg) then Some(i)
    else FailureFrom(events, reg, failing, i + 1)
  }

  /**
   * The position at which a batch is abandoned: the first event that is
   * delivered to a handler whose `handle_event` raises (the positions in
   * `failing`), or None when every delivery returns.
   */
  function FirstFailure(events: seq<Event>, reg: Registry, failing: set<nat>): (r: Option<nat>)
    ensures r.Some? ==> r.value < |events| && r.value in failing && Routed(events[r.value], reg)
    ensures r.Some? ==> forall k :: 0 <= k < r.value && k in failing ==> !Routed(events[k], reg)
    ensures r.None? <==> forall k :: 0 <= k < |events| && k in failing ==> !Routed(events[k], reg)
  {
    FailureFrom(events, reg, failing, 0)
  }

  /** No handler raised while the first `i` events of the batch were delivered. */
  predicate SurvivesUpTo(events: seq<Event>, reg: Registry, failing: set<nat>, i: nat)
    requires i <= |events|
  {
    i == 0 || (SurvivesUpTo(events, reg, failing, i - 1) && !(i - 1 in failing && Routed(events[i - 1], reg)))
  }

  lemma {:induction false} SurvivesUpToNoFailure(events: seq<Event>, reg: Registry, failing: set<nat>, i: nat)
    requires i <= |events| && SurvivesUpTo(events, reg, failing, i)
    ensures forall k :: 0 <= k < i && k in failing ==> !Routed(events[k], reg)
  {
    if i > 0 {
      SurvivesUpToNoFailure(events, reg, failing, i - 1);
    }
  }

  /** Where the first loop of `process_events` stopped, in terms of the first failure. */
  lemma FirstFailureAt(events: seq<Event>, reg: Registry, failing: set<nat>, i: nat)
    requires i <= |events| && SurvivesUpTo(events, reg, failing, i)
    ensures i < |events| && i in failing && Routed(events[i], reg) ==> FirstFailure(events, reg, failing) == Some(i)
    ensures i == |events| ==> FirstFailure(events, reg, failing) == None
  {
    SurvivesUpToNoFailure(events, reg, failing, i);
  }

  /** Whether the batch holds a RemoteSettingsChanged event (its ACK must be flushed). */
  predicate HasSettingsChange(events: seq<Event>) {
    events != [] && (HasSettingsChange(events[..|events| - 1]) || events[|events| - 1].RemoteSettingsChanged?)
  }

  /** The batch holds a RemoteSettingsChanged event exactly when some position does. */
  lemma {:induction false} HasSettingsChangeAt(events: seq<Event>)
    ensures HasSettingsChange(events) <==> exists k :: 0 <= k < |events| && events[k].RemoteSettingsChanged?
  {
    if events != [] {
      var init := events[..|events| - 1];
      HasSettingsChangeAt(init);
      if HasSettingsChange(init) {
        var k :| 0 <= k < |init| && init[k].RemoteSettingsChanged?;
        assert events[k] == init[k];
      }
      if exists k :: 0 <= k < |events| && events[k].RemoteSettingsChanged? {
        var k :| 0 <= k < |events| && events[k].RemoteSettingsChanged?;
        if k < |init| { assert init[k] == events[k]; }
      }
    }
  }

  /** The per-stream WINDOW_UPDATEs for the streams in `ids`: non-zero and not closed by the peer. */
  ghost function UpdatesFor(ledger: map<StreamId, nat>, peerClosed: set<StreamId>, ids: set<StreamId>): set<Action>
  {
    set s | s in ids && s in ledger && ledger[s] > 0 && s !in peerClosed :: StreamWindowUpdate(s, ledger[s])
  }

  /** Taking one more stream into account adds at most its own update, which is new. */
  lemma UpdatesForStep(ledger: map<StreamId, nat>, peerClosed: set<StreamId>, ids: set<StreamId>, s: StreamId)
    requires s in ledger && s !in ids
    ensures multiset(UpdatesFor(ledger, peerClosed, ids + {s})) ==
      multiset(UpdatesFor(ledger, peerClosed, ids))
        + (if ledger[s] > 0 && s !in peerClosed then multiset{StreamWindowUpdate(s, ledger[s])} else multiset{})
  {
    var before := UpdatesFor(ledger, peerClosed, ids);
    var after := UpdatesFor(ledger, peerClosed, ids + {s});
    if ledger[s] > 0 && s !in peerClosed {
      var u := StreamWindowUpdate(s, ledger[s]);
      assert after == before + {u};
      assert u !in before;
    } else {
      assert after == before;
    }
  }

  /** The per-stream WINDOW_UPDATEs a batch issues. */
  ghost function StreamUpdates(ledger: map<StreamId, nat>, peerClosed: set<StreamId>): set<Action>
  {
    UpdatesFor(ledger, peerClosed, ledger.Keys)
  }

  /** Every per-stream update is for a stream with DATA, of exactly that stream's bytes, and never zero. */
  lemma StreamUpdatesAreReceivedBytes(events: seq<Event>, peerClosed: set<StreamId>)
    ensures forall a :: a in StreamUpdates(Credits(events), peerClosed) ==>
      && a.StreamWindowUpdate?
      && a.streamId in DataStreams(events)
      && a.streamId !in peerClosed
      && a.increment == ReceivedOn(events, {a.streamId}) > 0
    ensures forall s :: s in DataStreams(events) && s !in peerClosed && ReceivedOn(events, {s}) > 0 ==>
      StreamWindowUpdate(s, ReceivedOn(events, {s})) in StreamUpdates(Credits(events), peerClosed)
  {
    CreditsAreReceivedBytes(events);
  }

  /** The connection-level WINDOW_UPDATE, issued only for a positive total. */
  function ConnectionUpdate(total: nat): (r: seq<Action>)
    ensures r == [] <==> total == 0
    ensures r != [] ==> r == [ConnectionWindowUpdate(total)]
  {
    if total > 0 then [ConnectionWindowUpdate(total)] else []
  }

  /**
   * The effect of `process_events` on the log, from `before` to `after`,
   * when the registry is `reg`, the observers `obs`, the transport `io`,
   * the engine's outbound bytes `pending`, the handlers raise at the batch
   * positions in `failing`, and the peer has closed the streams in
   * `peerClosed` (their increments fail with StreamClosedError).
   */
  ghost predicate Processed(
    before: seq<Action>, after: seq<Action>, events: seq<Event>, reg: Registry, obs: Observers,
    io: IoStreamRef, pending: seq<byte>, failing: set<nat>, peerClosed: set<StreamId>, status: Status)
  {
    match FirstFailure(events, reg, failing)
    case Some(k) =>
      && status == Raised(HandlerError)
      && after == before + Dispatched(events[..k], reg, obs) + [Deliver(Owner(events[k], reg), events[k])]
    case None =>
      var total := TotalReceived(events);
      && status == Ok
      && exists updates: seq<Action> ::
        && multiset(updates) == multiset(StreamUpdates(Credits(events), peerClosed))
        && after == before + Dispatched(events, reg, obs) + updates + ConnectionUpdate(total)
             + (if total > 0 || HasSettingsChange(events) then Flushed(io, pending) else [])
  }

  /** One more event of the batch: how the first loop's three accumulators advance. */
  lemma BatchPrefixStep(events: seq<Event>, i: nat, reg: Registry, obs: Observers)
    requires i < |events|
    ensures Dispatched(events[..i + 1], reg, obs) == Dispatched(events[..i], reg, obs) + DispatchOne(events[i], reg, obs)
    ensures Credits(events[..i + 1]) == Credit(Credits(events[..i]), events[i])
    ensures HasSettingsChange(events[..i + 1]) <==> HasSettingsChange(events[..i]) || events[i].RemoteSettingsChanged?
  {
    var pre := events[..i + 1];
    assert pre[..i] == events[..i];
    assert pre[i] == events[i];
  }

  /** The log of a batch abandoned at position `k`, where a handler raised. */
  lemma ProcessedOnFailure(
    before: seq<Action>, after: seq<Action>, events: seq<Event>, k: nat, reg: Registry, obs: Observers,
    io: IoStreamRef, pending: seq<byte>, failing: set<nat>, peerClosed: set<StreamId>)
    requires k < |events| && FirstFailure(events, reg, failing) == Some(k)
    requires after == before + Dispatched(events[..k], reg, obs) + [Deliver(Owner(events[k], reg), events[k])]
    ensures Processed(before, after, events, reg, obs, io, pending, failing, peerClosed, Raised(HandlerError))
  {
  }

  /** The log of a batch every event of which was dispatched. */
  lemma ProcessedOnCompletion(
    before: seq<Action>, after: seq<Action>, events: seq<Event>, reg: Registry, obs: Observers,
    io: IoStreamRef, pending: seq<byte>, failing: set<nat>, peerClosed: set<StreamId>, updates: seq<Action>)
    requires FirstFailure(events, reg, failing) == None
    requires multiset(updates) == multiset(StreamUpdates(Credits(events), peerClosed))
    requires after == before + Dispatched(events, reg, obs) + updates + ConnectionUpdate(TotalReceived(events))
      + (if TotalReceived(events) > 0 || HasSettingsChange(events) then Flushed(io, pending) else [])
    ensures Processed(before, after, events, reg, obs, io, pending, failing, peerClosed, Ok)
  {
  }

  /** The first loop's accumulators after one more event, from their values before it. */
  lemma RouteStep(
    start: seq<Action>, before: seq<Action>, after: seq<Action>, events: seq<Event>, i: nat,
    reg: Registry, obs: Observers,
    ledger: map<StreamId, nat>, recv: map<StreamId, nat>, seen: bool, settings: bool)
    requires i < |events|
    requires before == start + Dispatched(events[..i], reg, obs)
    requires after == before + DispatchOne(events[i], reg, obs)
    requires ledger == Credits(events[..i]) && recv == Credit(ledger, events[i])
    requires seen == HasSettingsChange(events[..i])
    requires settings == (seen || events[i].RemoteSettingsChanged?)
    ensures after == start + Dispatched(events[..i + 1], reg, obs)
    ensures recv == Credits(events[..i + 1])
    ensures settings == HasSettingsChange(events[..i + 1])
  {
    BatchPrefixStep(events, i, reg, obs);
  }
}
