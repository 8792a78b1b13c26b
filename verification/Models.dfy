/** The records that cross component boundaries (src/models.rs). */
module Models {
  import opened Prelude

  datatype SessionState = Unknown | Idle | Active | Failed

  datatype Session = Session(
    provider: string,
    id: string,
    title: string,
    state: SessionState,
    updatedAt: Option<Time>)
  {
    function Key(): string { provider + ":" + id }
  }

  datatype TrackingSource = Automatic | Manual

  datatype WatchTarget = WatchTarget(
    source: TrackingSource,
    provider: string,
    sessionId: string,
    note: Option<string>,
    title: Option<string>,
    addedAt: Time,
    lastActivityAt: Option<Time>)
  {
    function Key(): string { provider + ":" + sessionId }

    /** When the target was last known to be active, given one more observation. */
    function InactivitySince(observed: Option<Time>): Time {
      var activity := Later(observed, lastActivityAt).GetOr(addedAt);
      match source
      case Automatic => activity
      case Manual => Max(activity, addedAt)
    }
  }

  datatype Failure = Failure(
    provider: string,
    sessionId: string,
    turnId: string,
    condition: string,
    retryAfterSeconds: Option<nat>)
  {
    function Key(): string { provider + ":" + sessionId + ":" + turnId }
  }
}
