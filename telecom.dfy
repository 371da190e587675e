/** Vocabulary of the platform call-management subsystem (`android.telecom`). */
module Telecom {
  import opened Wrappers
  import opened Text

  /** `DisconnectCause` codes the connections use. */
  datatype DisconnectCause = Error | Local | Remote | Canceled | Rejected

  /**
   * `Connection` states: `New` for a connection no setter has touched yet, the
   * others as set by `setInitializing`, `setRinging`, `setDialing`, `setActive`
   * and `setDisconnected`.
   */
  datatype ConnectionState =
    | New
    | Initializing
    | Ringing
    | Dialing
    | Active
    | Disconnected(cause: DisconnectCause)

  /** `Build.VERSION_CODES.O` (8.0) and `Build.VERSION_CODES.Q` (10). */
  const SdkO: int := 26
  const SdkQ: int := 29

  /** The id of the self-managed phone account handle. */
  const PhoneAccountId: string := "voip-self-managed"

  /**
   * The caller name a connection shows (`setCallerDisplayName`): the caller id,
   * and only when it is present and non-empty.
   */
  function DisplayedCaller(callerId: Option<string>): (r: Option<string>)
    ensures r.Some? <==> callerId.Some? && callerId.value != []
    ensures r.Some? ==> r == callerId
  {
    if IsNullOrEmpty(callerId) then None else callerId
  }
}
