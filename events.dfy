/** The decoded protocol events the connection consumes from the h2 engine. */
module Events {
  import opened Outcomes

  /** A stream identifier as assigned by the engine; 0 is the connection itself. */
  type StreamId = nat

  /**
   * The events the connection tells apart. `RemoteSettingsChanged` and
   * `ConnectionTerminated` carry no `stream_id` attribute; every other
   * event kind may or may not carry one.
   */
  datatype Event =
    | RemoteSettingsChanged
    | ConnectionTerminated
    | DataReceived(streamId: StreamId, flowControlledLength: nat)
    | Other(kind: string, sid: Option<StreamId>)

  /** `getattr(event, 'stream_id', None)` */
  function StreamIdOf(e: Event): Option<StreamId>
  {
    match e
    case DataReceived(s, _) => Some(s)
    case Other(_, s) => s
    case _ => None
  }

  /** Python truthiness of a stream id: present and not 0. */
  predicate IsStreamScoped(sid: Option<StreamId>) {
    sid.Some? && sid.value != 0
  }
}
