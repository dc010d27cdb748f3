/** CrisisEvent: no active event, or one event from a fixed catalogue of three. */
module Crisis {
  import opened Options

  class CrisisEvent {
    const events: seq<string> := ["Natural Disaster", "Economic Downturn", "Public Protest"]
    var currentEvent: Option<string>

    constructor ()
      ensures currentEvent == None
    {
      currentEvent := None;
    }

    /**
     * Makes the event at index `draw` (the `random.choice` over the
     * catalogue) the current one, replacing whatever was active.
     */
    method TriggerEvent(draw: nat)
      requires draw < |events|
      modifies this
      ensures currentEvent == Some(events[draw])
      ensures currentEvent.Some? && currentEvent.value in events
    {
      currentEvent := Some(events[draw]);
    }

    /** Clears the current event from any state; returns the event it resolved, if any. */
    method ResolveEvent() returns (resolved: Option<string>)
      modifies this
      ensures resolved == old(currentEvent)
      ensures currentEvent == None
    {
      resolved := currentEvent;
      currentEvent := None;
    }
  }
}
