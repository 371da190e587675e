/**
 * The older `com.celya.voip.telecom` connection service: every request yields a
 * self-managed connection walked through Initializing and Active, and Ringing
 * for incoming calls, with an extra recording the direction.
 */
module LegacyTelecom {
  import opened Wrappers
  import opened Telecom

  /** A connection's address: a SIP/tel URI, or `Uri.EMPTY`. */
  datatype Address = EmptyUri | Uri(text: string)

  /** The states `createVoipConnection` sets, in order. */
  function CreationStates(isIncoming: bool): (r: seq<ConnectionState>)
    ensures |r| >= 2 && r[0] == Initializing && r[1] == Active
  {
    [Initializing, Active] + (if isIncoming then [Ringing] else [])
  }

  /** An incoming connection ends creation Ringing, an outgoing one Active. */
  lemma CreationEndState(isIncoming: bool)
    ensures var r := CreationStates(isIncoming);
      r[|r| - 1] == (if isIncoming then Ringing else Active)
    ensures Ringing in CreationStates(isIncoming) <==> isIncoming
  {
  }

  /** The private inner `VoipConnection`. */
  class VoipConnection {
    var selfManaged: bool
    var address: Option<Address>
    var state: ConnectionState
    var destroyed: bool
    var extraIncoming: Option<bool>
    /** Every state the connection has been put in, oldest first. */
    ghost var history: seq<ConnectionState>

    /** A bare platform connection: no properties, no address, state NEW. */
    constructor ()
      ensures !selfManaged && address == None && state == New && !destroyed && extraIncoming == None
      ensures history == []
    {
      selfManaged := false;
      address := None;
      state := New;
      destroyed := false;
      extraIncoming := None;
      history := [];
    }

    /** `onAnswer`: Active. */
    method OnAnswer()
      modifies this
      ensures state == Active && history == old(history) + [Active]
      ensures destroyed == old(destroyed) && selfManaged == old(selfManaged)
      ensures address == old(address) && extraIncoming == old(extraIncoming)
    {
      SetState(Active);
    }

    /** `onDisconnect`: Disconnected with LOCAL, then destroyed. */
    method OnDisconnect()
      modifies this
      ensures state == Disconnected(Local) && destroyed && history == old(history) + [Disconnected(Local)]
      ensures selfManaged == old(selfManaged) && address == old(address) && extraIncoming == old(extraIncoming)
    {
      SetState(Disconnected(Local));
      destroyed := true;
    }

    /** `onReject`: Disconnected with REJECTED, then destroyed. */
    method OnReject()
      modifies this
      ensures state == Disconnected(Rejected) && destroyed && history == old(history) + [Disconnected(Rejected)]
      ensures selfManaged == old(selfManaged) && address == old(address) && extraIncoming == old(extraIncoming)
    {
      SetState(Disconnected(Rejected));
      destroyed := true;
    }

    /** One of the platform state setters. */
    method SetState(s: ConnectionState)
      modifies this
      ensures state == s && history == old(history) + [s]
      ensures destroyed == old(destroyed) && selfManaged == old(selfManaged)
      ensures address == old(address) && extraIncoming == old(extraIncoming)
    {
      state := s;
      history := history + [s];
    }
  }

  /**
   * `createVoipConnection`: a fresh self-managed connection addressed to the
   * request's address (`Uri.EMPTY` without a request), walked through the
   * creation states, with the direction recorded in its extras.
   */
  method CreateVoipConnection(request: Option<Address>, isIncoming: bool) returns (c: VoipConnection)
    ensures fresh(c)
    ensures c.selfManaged && !c.destroyed
    ensures c.address == Some(if request.Some? then request.value else EmptyUri)
    ensures c.history == CreationStates(isIncoming)
    ensures c.state == c.history[|c.history| - 1]
    ensures c.extraIncoming == Some(isIncoming)
  {
    c := new VoipConnection();
    c.selfManaged := true;
    c.address := Some(if request.Some? then request.value else EmptyUri);
    c.SetState(Initializing);
    c.SetState(Active);
    if isIncoming {
      c.SetState(Ringing);
    }
    c.extraIncoming := Some(isIncoming);
  }

  /** `onCreateIncomingConnection`: an incoming connection, left Ringing. */
  method OnCreateIncomingConnection(request: Option<Address>) returns (c: VoipConnection)
    ensures fresh(c) && c.selfManaged && c.state == Ringing && c.extraIncoming == Some(true)
    ensures c.history == [Initializing, Active, Ringing]
  {
    c := CreateVoipConnection(request, true);
  }

  /** `onCreateOutgoingConnection`: an outgoing connection, left Active. */
  method OnCreateOutgoingConnection(request: Option<Address>) returns (c: VoipConnection)
    ensures fresh(c) && c.selfManaged && c.state == Active && c.extraIncoming == Some(false)
    ensures c.history == [Initializing, Active]
  {
    c := CreateVoipConnection(request, false);
  }
}
