/**
 * The flow-control ledger of one batch of events: how many bytes each
 * stream received (the per-stream WINDOW_UPDATE increments) and in total
 * (the connection-level increment), section 6.9 of RFC 7540.
 */
module FlowControl {
  import opened Events

  /**
   * `recv_streams` after the first loop of `process_events` has seen
   * `events`: for each stream id with DATA in the batch, the running sum
   * of its `flow_controlled_length`s.
   */
  function Credits(events: seq<Event>): map<StreamId, nat>
  {
    if events == [] then map[]
    else Credit(Credits(events[..|events| - 1]), events[|events| - 1])
  }

  /** `recv_streams` after one more event. */
  function Credit(ledger: map<StreamId, nat>, e: Event): map<StreamId, nat>
  {
    if e.DataReceived? then
      ledger[e.streamId := (if e.streamId in ledger then ledger[e.streamId] else 0) + e.flowControlledLength]
    else ledger
  }

  /** The stream ids that have at least one DataReceived event in `events`. */
  ghost function DataStreams(events: seq<Event>): set<StreamId>
  {
    set k | 0 <= k < |events| && events[k].DataReceived? :: events[k].streamId
  }

  /** Total flow-controlled bytes of the DataReceived events for the streams in `ids`. */
  function ReceivedOn(events: seq<Event>, ids: set<StreamId>): nat
  {
    if events == [] then 0
    else
      var e := events[|events| - 1];
      ReceivedOn(events[..|events| - 1], ids)
        + (if e.DataReceived? && e.streamId in ids then e.flowControlledLength else 0)
  }

  /** Total flow-controlled bytes of all DataReceived events. */
  function TotalReceived(events: seq<Event>): nat
  {
    if events == [] then 0
    else
      var e := events[|events| - 1];
      TotalReceived(events[..|events| - 1]) + (if e.DataReceived? then e.flowControlledLength else 0)
  }

  lemma {:induction false} DataStreamsSnoc(events: seq<Event>, e: Event)
    ensures DataStreams(events + [e]) == DataStreams(events) + (if e.DataReceived? then {e.streamId} else {})
  {
    var evs := events + [e];
    forall s | s in DataStreams(evs)
      ensures s in DataStreams(events) + (if e.DataReceived? then {e.streamId} else {})
    {
      var k :| 0 <= k < |evs| && evs[k].DataReceived? && evs[k].streamId == s;
      if k < |events| { assert events[k] == evs[k]; }
    }
    forall s | s in DataStreams(events) ensures s in DataStreams(evs) {
      var k :| 0 <= k < |events| && events[k].DataReceived? && events[k].streamId == s;
      assert evs[k] == events[k];
    }
    if e.DataReceived? {
      assert evs[|events|] == e;
    }
  }

  /**
   * The per-stream ledger holds exactly the streams with DATA in the batch,
   * and for each the sum of its events' flow-controlled lengths; a stream
   * without DATA received nothing.
   */
  lemma {:induction false} CreditsAreReceivedBytes(events: seq<Event>)
    ensures Credits(events).Keys == DataStreams(events)
    ensures forall s :: s in Credits(events) ==> Credits(events)[s] == ReceivedOn(events, {s})
    ensures forall s :: s !in Credits(events) ==> ReceivedOn(events, {s}) == 0
  {
    if events == [] {
      assert DataStreams(events) == {};
    } else {
      var init := events[..|events| - 1];
      var e := events[|events| - 1];
      assert events == init + [e];
      CreditsAreReceivedBytes(init);
      DataStreamsSnoc(init, e);
    }
  }

  /** Splitting the streams counted into one stream and the rest. */
  lemma {:induction false} ReceivedOnSplit(events: seq<Event>, ids: set<StreamId>, s: StreamId)
    requires s in ids
    ensures ReceivedOn(events, ids) == ReceivedOn(events, {s}) + ReceivedOn(events, ids - {s})
  {
    if events != [] {
      ReceivedOnSplit(events[..|events| - 1], ids, s);
    }
  }

  lemma {:induction false} ReceivedOnNothing(events: seq<Event>)
    ensures ReceivedOn(events, {}) == 0
  {
    if events != [] {
      ReceivedOnNothing(events[..|events| - 1]);
    }
  }

  /** Counting every stream that has DATA counts every received byte. */
  lemma {:induction false} ReceivedOnCovering(events: seq<Event>, ids: set<StreamId>)
    requires DataStreams(events) <= ids
    ensures ReceivedOn(events, ids) == TotalReceived(events)
  {
    if events != [] {
      var init := events[..|events| - 1];
      var e := events[|events| - 1];
      assert events == init + [e];
      DataStreamsSnoc(init, e);
      ReceivedOnCovering(init, ids);
    }
  }

  /** The sum of the ledger's entries for the streams in `ids`. */
  ghost function SumOver(ledger: map<StreamId, nat>, ids: set<StreamId>): nat
    requires ids <= ledger.Keys
    decreases ids
  {
    if ids == {} then 0
    else
      var s :| s in ids;
      ledger[s] + SumOver(ledger, ids - {s})
  }

  /** Summing the ledger's entries for some streams counts exactly those streams' DATA bytes. */
  lemma {:induction false} SumOverCredits(events: seq<Event>, ids: set<StreamId>)
    requires ids <= Credits(events).Keys
    ensures SumOver(Credits(events), ids) == ReceivedOn(events, ids)
    decreases ids
  {
    var ledger := Credits(events);
    if ids == {} {
      ReceivedOnNothing(events);
    } else {
      var s :| s in ids && SumOver(ledger, ids) == ledger[s] + SumOver(ledger, ids - {s});
      CreditsAreReceivedBytes(events);
      SumOverCredits(events, ids - {s});
      ReceivedOnSplit(events, ids, s);
    }
  }

  /**
   * The connection-level increment, the sum of the per-stream ledger
   * entries, equals the total flow-controlled bytes of the batch.
   */
  lemma ConnectionCreditIsTotal(events: seq<Event>)
    ensures SumOver(Credits(events), Credits(events).Keys) == TotalReceived(events)
    ensures ReceivedOn(events, Credits(events).Keys) == TotalReceived(events)
  {
    CreditsAreReceivedBytes(events);
    ReceivedOnCovering(events, Credits(events).Keys);
    SumOverCredits(events, Credits(events).Keys);
  }
}
