/**
 * The call-event coordinator between the native SIP engine, Telecom, the
 * full-screen call activity and the Flutter event stream: routing of
 * `incoming_call`, relaying (and parking, while no Flutter listener is
 * attached) of `call_connected` and FCM tokens, audio-routing setters and the
 * Bluetooth availability event.
 */
module Coordinator {
  import opened Wrappers
  import opened Text
  import opened Audio
  import Pjsip

  /** The events posted to the Flutter sink, one constructor per map shape. */
  datatype FlutterEvent =
    | IncomingCallEvent(callId: string, callerId: string)
    | CallConnectedEvent(callId: string)
    | CallEndedEvent(callId: string, reason: Option<string>)
    | FcmTokenEvent(token: string, updatedAt: int)
    | BluetoothAvailableEvent(available: bool, name: string)
    | NativeEvent(eventType: string, message: string)

  /** An event and the sink it was posted to (the sink current at `emit` time). */
  datatype Posted = Posted(sink: nat, event: FlutterEvent)

  /** Calls the coordinator makes into other components, in order. */
  datatype Outcall =
    | StartIncomingCall(callId: string)
    | LaunchCallActivity(callId: string)
    | MarkCallActive(callId: string)
    | MarkCallEnded(callId: string)
    | BroadcastCallEnded
    | OpenMainActivityCallEnded
    | HangupCall(callId: string)
    | BroadcastTerminateRequested
    | OpenMainActivityTerminateRequested
    | SaveFcmToken(token: string)
    | ClearEngineCallback

  /** A CallActivity launch within this many milliseconds of the last suppresses another. */
  const DebounceMs: int := 5000

  /** What the `incoming_call` branch observes; the platform answers are inputs. */
  datatype IncomingObservation = IncomingObservation(
    hasContext: bool,
    telecomAccepted: bool,
    activityVisible: bool,
    visibleCallId: Option<string>,
    appInForeground: bool,
    nowMs: int,
    lastLaunchAtMs: int,
    launchSucceeds: bool)

  /** The ways an `incoming_call` is handled. */
  datatype IncomingRoute =
    | NoContextToFlutter
    | TelecomShowsIt
    | RelaunchVisibleActivity
    | ActivityAlreadyShowsIt
    | ForegroundToFlutter
    | DebounceSuppressed
    | ActivityLaunched
    | LaunchFailedToFlutter

  /** The `incoming_call` decision, in the order the branches are evaluated. */
  function RouteIncoming(message: string, o: IncomingObservation): IncomingRoute {
    if !o.hasContext then NoContextToFlutter
    else if o.telecomAccepted then TelecomShowsIt
    else if o.activityVisible then
      if !IsBlank(message) && o.visibleCallId != Some(message) then RelaunchVisibleActivity
      else ActivityAlreadyShowsIt
    else if o.appInForeground then ForegroundToFlutter
    else if o.nowMs - o.lastLaunchAtMs < DebounceMs then DebounceSuppressed
    else if o.launchSucceeds then ActivityLaunched
    else LaunchFailedToFlutter
  }

  /** Routes that try to start the call activity. */
  predicate LaunchesActivity(r: IncomingRoute) {
    r.RelaunchVisibleActivity? || r.ActivityLaunched? || r.LaunchFailedToFlutter?
  }

  /** Routes that send an `incoming_call` event to Flutter. */
  predicate TellsFlutter(r: IncomingRoute) {
    r.NoContextToFlutter? || r.ForegroundToFlutter? || r.LaunchFailedToFlutter?
  }

  /** A call Telecom accepts gets neither an activity launch nor a Flutter event. */
  lemma TelecomAcceptedIsQuiet(message: string, o: IncomingObservation)
    requires o.hasContext && o.telecomAccepted
    ensures !LaunchesActivity(RouteIncoming(message, o)) && !TellsFlutter(RouteIncoming(message, o))
  {
  }

  /**
   * When Telecom refuses and the activity is visible, Flutter is not told, and
   * the activity is relaunched exactly when the id is non-blank and not the one shown.
   */
  lemma VisibleActivityRouting(message: string, o: IncomingObservation)
    requires o.hasContext && !o.telecomAccepted && o.activityVisible
    ensures !TellsFlutter(RouteIncoming(message, o))
    ensures LaunchesActivity(RouteIncoming(message, o)) <==> !IsBlank(message) && o.visibleCallId != Some(message)
  {
  }

  /**
   * When Telecom refuses and no activity is visible: the foreground app is told;
   * otherwise a launch within the debounce window is suppressed; otherwise the
   * activity is launched, with Flutter told only if the launch throws.
   */
  lemma HiddenActivityRouting(message: string, o: IncomingObservation)
    requires o.hasContext && !o.telecomAccepted && !o.activityVisible
    ensures o.appInForeground ==> RouteIncoming(message, o) == ForegroundToFlutter
    ensures !o.appInForeground && o.nowMs - o.lastLaunchAtMs < DebounceMs ==>
      !LaunchesActivity(RouteIncoming(message, o)) && !TellsFlutter(RouteIncoming(message, o))
    ensures !o.appInForeground && o.nowMs - o.lastLaunchAtMs >= DebounceMs ==>
      LaunchesActivity(RouteIncoming(message, o)) && (TellsFlutter(RouteIncoming(message, o)) <==> !o.launchSucceeds)
  {
  }

  /**
   * Flutter hears of an incoming call exactly when no other surface took it:
   * no context, or Telecom refused, no activity is visible, and either the app
   * is in the foreground or an undebounced launch threw.
   */
  lemma FlutterToldIff(message: string, o: IncomingObservation)
    ensures TellsFlutter(RouteIncoming(message, o)) <==>
      !o.hasContext
      || (!o.telecomAccepted && !o.activityVisible
          && (o.appInForeground || (o.nowMs - o.lastLaunchAtMs >= DebounceMs && !o.launchSucceeds)))
    ensures LaunchesActivity(RouteIncoming(message, o)) ==> o.hasContext && !o.telecomAccepted
  {
  }

  /** `setSpeakerphone`: in-communication mode, the loudspeaker as asked, and SCO stopped when turning the speaker on. */
  function SpeakerphoneSet(a: AudioState, enabled: bool): AudioState {
    var b := a.(mode := ModeInCommunication, speakerphoneOn := enabled);
    if enabled && a.bluetoothScoOn then b.(scoStarted := false, bluetoothScoOn := false) else b
  }

  /** `setBluetooth`: in-communication mode; on turns the speaker off and SCO on, off stops SCO. */
  function BluetoothSet(a: AudioState, enabled: bool): AudioState {
    if enabled then a.(mode := ModeInCommunication, speakerphoneOn := false, scoStarted := true, bluetoothScoOn := true)
    else a.(mode := ModeInCommunication, scoStarted := false, bluetoothScoOn := false)
  }

  /** `setMuted`. */
  function MutedSet(a: AudioState, enabled: bool): AudioState {
    a.(microphoneMute := enabled)
  }

  /** The loudspeaker and Bluetooth SCO are not both routed. */
  predicate SingleRoute(a: AudioState) {
    !(a.speakerphoneOn && a.bluetoothScoOn)
  }

  /**
   * The routing setters: speaker on means SCO off, Bluetooth on means speaker
   * off and SCO on, both force in-communication mode, and none of the three
   * setters ever routes to the speaker and SCO at once.
   */
  lemma RoutingSetters(a: AudioState, enabled: bool)
    ensures SpeakerphoneSet(a, enabled).mode == ModeInCommunication && BluetoothSet(a, enabled).mode == ModeInCommunication
    ensures SpeakerphoneSet(a, true).speakerphoneOn && !SpeakerphoneSet(a, true).bluetoothScoOn
    ensures !BluetoothSet(a, true).speakerphoneOn && BluetoothSet(a, true).bluetoothScoOn
    ensures !BluetoothSet(a, false).bluetoothScoOn && BluetoothSet(a, false).speakerphoneOn == a.speakerphoneOn
    ensures SingleRoute(SpeakerphoneSet(a, enabled)) && SingleRoute(BluetoothSet(a, enabled))
    ensures SingleRoute(a) ==> SingleRoute(MutedSet(a, enabled))
    ensures MutedSet(a, enabled).microphoneMute == enabled && MutedSet(a, enabled).(microphoneMute := a.microphoneMute) == a
  {
  }

  /** The Flutter-facing relay state: sink, context, parked values and everything posted. */
  datatype Relay = Relay(
    sink: Option<nat>,
    hasContext: bool,
    pendingFcmToken: Option<string>,
    pendingConnected: Option<string>,
    posted: seq<Posted>)

  /** `emit`: posted to the current sink, dropped without one. */
  function Emitted(r: Relay, e: FlutterEvent): Relay {
    if r.sink.Some? then r.(posted := r.posted + [Posted(r.sink.value, e)]) else r
  }

  /** `callConnected`: relayed to an attached sink, otherwise parked, replacing any parked id. */
  function ConnectedStep(r: Relay, callId: string): Relay {
    if r.sink.None? then r.(pendingConnected := Some(callId)) else Emitted(r, CallConnectedEvent(callId))
  }

  /** The FCM token callbacks: a non-blank token is relayed to an attached sink, otherwise parked. */
  function TokenStep(r: Relay, token: Option<string>, updatedAt: int): Relay {
    if IsNullOrBlank(token) then r
    else if r.sink.Some? then Emitted(r, FcmTokenEvent(token.value, updatedAt))
    else r.(pendingFcmToken := token)
  }

  /**
   * The `call_connected` branch of `onEvent`: `markCallActive` first, whose
   * audio refresh `refresh` describes, then `callConnected`, which a throw
   * from the refresh (an `Error` nothing catches) skips.
   */
  function ConnectedEventStep(r: Relay, callId: string, refresh: Pjsip.NativeOutcome): Relay {
    if refresh.Threw? then r else ConnectedStep(r, callId)
  }

  /**
   * When the audio refresh throws (as it does while `nativeRefreshAudio` has no
   * native body), a `call_connected` event reaches Flutter neither now nor on
   * attach: the relay is unchanged, so nothing is posted and any parked id
   * stays as it was. When the refresh returns, the event is the relay step the
   * parking and replay lemmas are about.
   */
  lemma ConnectedEventLostWhenRefreshThrows(r: Relay, callId: string, refresh: Pjsip.NativeOutcome)
    ensures refresh.Threw? ==> ConnectedEventStep(r, callId, refresh) == r
    ensures refresh.Returned? ==> ConnectedEventStep(r, callId, refresh) == ConnectedStep(r, callId)
    ensures refresh.Returned? && r.sink.None? ==>
      ConnectedEventStep(r, callId, refresh).pendingConnected == Some(callId)
  {
  }

  /**
   * The FCM broadcast receiver: an intent of the token action with a token
   * extra is emitted, stamped with the receive time, whatever the token is;
   * unlike the token callbacks it parks nothing.
   */
  function BroadcastStep(r: Relay, tokenAction: bool, token: Option<string>, nowMs: int): Relay {
    if tokenAction && token.Some? then Emitted(r, FcmTokenEvent(token.value, nowMs)) else r
  }

  /**
   * A refreshed token broadcast while no sink is attached is lost: the relay
   * is unchanged, where the fetched token would have been parked; with a sink
   * it is posted as it is, blank or not.
   */
  lemma BroadcastTokenNotParked(r: Relay, token: string, nowMs: int)
    ensures r.sink.None? ==> BroadcastStep(r, true, Some(token), nowMs) == r
    ensures r.sink.None? && !IsBlank(token) ==> TokenStep(r, Some(token), nowMs).pendingFcmToken == Some(token)
    ensures r.sink.Some? ==>
      BroadcastStep(r, true, Some(token), nowMs) == r.(posted := r.posted + [Posted(r.sink.value, FcmTokenEvent(token, nowMs))])
  {
  }

  /**
   * `onListen`: attach the sink; replay a parked non-blank token (only with a
   * context) and then a parked non-blank call id, clearing each one replayed.
   */
  function ListenStep(r: Relay, sink: nat, updatedAt: int): Relay {
    var a := r.(sink := Some(sink));
    var b :=
      if a.hasContext && !IsNullOrBlank(a.pendingFcmToken)
      then Emitted(a, FcmTokenEvent(a.pendingFcmToken.value, updatedAt)).(pendingFcmToken := None)
      else a;
    if !IsNullOrBlank(b.pendingConnected)
    then Emitted(b, CallConnectedEvent(b.pendingConnected.value)).(pendingConnected := None)
    else b
  }

  /** `onCancel`. */
  function CancelStep(r: Relay): Relay {
    r.(sink := None)
  }

  /** A run of `callConnected` calls. */
  function ConnectedAll(r: Relay, callIds: seq<string>): Relay
    decreases |callIds|
  {
    if callIds == [] then r else ConnectedAll(ConnectedStep(r, callIds[0]), callIds[1..])
  }

  /** Without a sink, nothing is emitted and only the latest connected id is kept. */
  lemma {:induction false} LatestConnectedWins(r: Relay, callIds: seq<string>)
    requires r.sink.None? && callIds != []
    ensures ConnectedAll(r, callIds) == r.(pendingConnected := Some(callIds[|callIds| - 1]))
    decreases |callIds|
  {
    if |callIds| > 1 {
      LatestConnectedWins(ConnectedStep(r, callIds[0]), callIds[1..]);
      assert callIds[1..][|callIds[1..]| - 1] == callIds[|callIds| - 1];
    }
  }

  /** With a sink, every connected id is posted in order and nothing is parked. */
  lemma {:induction false} ConnectedRelayedInOrder(r: Relay, callIds: seq<string>)
    requires r.sink.Some?
    ensures ConnectedAll(r, callIds).pendingConnected == r.pendingConnected
    ensures ConnectedAll(r, callIds).posted
      == r.posted + seq(|callIds|, i requires 0 <= i < |callIds| => Posted(r.sink.value, CallConnectedEvent(callIds[i])))
    decreases |callIds|
  {
    if callIds != [] {
      var s := r.sink.value;
      var r1 := ConnectedStep(r, callIds[0]);
      ConnectedRelayedInOrder(r1, callIds[1..]);
      var tail := seq(|callIds[1..]|, i requires 0 <= i < |callIds[1..]| => Posted(s, CallConnectedEvent(callIds[1..][i])));
      var all := seq(|callIds|, i requires 0 <= i < |callIds| => Posted(s, CallConnectedEvent(callIds[i])));
      assert all == [Posted(s, CallConnectedEvent(callIds[0]))] + tail;
    }
  }

  /**
   * Ids connected while no listener is attached reach the next listener as a
   * single `call_connected` carrying the latest (non-blank) id, and a later
   * listener does not see it again.
   */
  lemma ParkedConnectedReplayedOnce(r: Relay, callIds: seq<string>, sink: nat, updatedAt: int, sink2: nat, updatedAt2: int)
    requires r.sink.None? && callIds != [] && !IsBlank(callIds[|callIds| - 1])
    requires !r.hasContext || IsNullOrBlank(r.pendingFcmToken)
    ensures var after := ListenStep(ConnectedAll(r, callIds), sink, updatedAt);
      && after.posted == r.posted + [Posted(sink, CallConnectedEvent(callIds[|callIds| - 1]))]
      && after.pendingConnected == None
      && ListenStep(CancelStep(after), sink2, updatedAt2).posted == after.posted
  {
    LatestConnectedWins(r, callIds);
  }

  /**
   * A token seen without a sink is parked; the next listener gets it once,
   * provided a context is known, and it is then cleared.
   */
  lemma ParkedTokenReplayedOnce(r: Relay, token: string, stamp: int, sink: nat, updatedAt: int)
    requires r.sink.None? && r.hasContext && !IsBlank(token) && IsNullOrBlank(r.pendingConnected)
    ensures var parked := TokenStep(r, Some(token), stamp);
      && parked.posted == r.posted && parked.pendingFcmToken == Some(token)
      && ListenStep(parked, sink, updatedAt).posted == r.posted + [Posted(sink, FcmTokenEvent(token, updatedAt))]
      && ListenStep(parked, sink, updatedAt).pendingFcmToken == None
  {
  }

  /** Without a context the parked token is neither replayed nor cleared; a blank token is never parked. */
  lemma TokenNeedsContext(r: Relay, token: Option<string>, stamp: int, sink: nat, updatedAt: int)
    ensures !r.hasContext ==> ListenStep(r, sink, updatedAt).pendingFcmToken == r.pendingFcmToken
    ensures IsNullOrBlank(token) ==> TokenStep(r, token, stamp) == r
  {
  }

  /** Nothing reaches Flutter while no sink is attached. */
  lemma NoSinkNoPost(r: Relay, e: FlutterEvent, callId: string, token: Option<string>, stamp: int)
    requires r.sink.None?
    ensures Emitted(r, e) == r
    ensures ConnectedStep(r, callId).posted == r.posted && TokenStep(r, token, stamp).posted == r.posted
  {
  }

  /** `publishBluetoothAvailability`: the new flag and the event, skipped when nothing new is known. */
  function BluetoothPublish(current: bool, available: bool, name: Option<string>): (bool, Option<FlutterEvent>) {
    if available == current && IsNullOrBlank(name) then (current, None)
    else (available, Some(BluetoothAvailableEvent(available, name.GetOr(""))))
  }

  /**
   * A change of availability is always published and recorded; an unchanged
   * one only with a device name; so republishing without a name is silent.
   */
  lemma BluetoothPublishDeduplicates(current: bool, available: bool, name: Option<string>, again: Option<string>)
    ensures BluetoothPublish(current, available, name).0 == available
    ensures available != current ==> BluetoothPublish(current, available, name).1.Some?
    ensures BluetoothPublish(current, available, name).1.Some? ==>
      BluetoothPublish(current, available, name).1.value.available == available
    ensures IsNullOrBlank(again) ==> BluetoothPublish(BluetoothPublish(current, available, name).0, available, again).1 == None
  {
  }

  class VoipEngine {
    const audio: AudioManager
    var eventSink: Option<nat>
    /** Whether `appContext` is known (set by `initialize`). */
    var hasContext: bool
    var bluetoothAvailable: bool
    var pendingFcmToken: Option<string>
    var pendingConnectedCallId: Option<string>
    var posted: seq<Posted>
    var outcalls: seq<Outcall>

    function RelayState(): Relay
      reads this
    {
      Relay(eventSink, hasContext, pendingFcmToken, pendingConnectedCallId, posted)
    }

    constructor (audio: AudioManager, hasContext: bool)
      ensures this.audio == audio && this.hasContext == hasContext
      ensures eventSink == None && !bluetoothAvailable && pendingFcmToken == None && pendingConnectedCallId == None
      ensures posted == [] && outcalls == []
    {
      this.audio := audio;
      this.hasContext := hasContext;
      eventSink := None;
      bluetoothAvailable := false;
      pendingFcmToken := None;
      pendingConnectedCallId := None;
      posted := [];
      outcalls := [];
    }

    /** `emit`. */
    method Emit(e: FlutterEvent)
      modifies this
      ensures RelayState() == Emitted(old(RelayState()), e)
      ensures outcalls == old(outcalls) && bluetoothAvailable == old(bluetoothAvailable)
    {
      if eventSink.Some? {
        posted := posted + [Posted(eventSink.value, e)];
      }
    }

    /** `setSpeakerphone`: a no-op without a context. */
    method SetSpeakerphone(enabled: bool)
      modifies audio
      ensures audio.State() == if hasContext then SpeakerphoneSet(old(audio.State()), enabled) else old(audio.State())
    {
      if !hasContext {
        return;
      }
      audio.mode := ModeInCommunication;
      audio.speakerphoneOn := enabled;
      if enabled && audio.bluetoothScoOn {
        audio.scoStarted := false;
        audio.bluetoothScoOn := false;
      }
    }

    /** `setBluetooth`: a no-op without a context. */
    method SetBluetooth(enabled: bool)
      modifies audio
      ensures audio.State() == if hasContext then BluetoothSet(old(audio.State()), enabled) else old(audio.State())
    {
      if !hasContext {
        return;
      }
      audio.mode := ModeInCommunication;
      if enabled {
        audio.speakerphoneOn := false;
        audio.scoStarted := true;
        audio.bluetoothScoOn := true;
      } else {
        audio.scoStarted := false;
        audio.bluetoothScoOn := false;
      }
    }

    /** `setMuted`: a no-op without a context. */
    method SetMuted(enabled: bool)
      modifies audio
      ensures audio.State() == if hasContext then MutedSet(old(audio.State()), enabled) else old(audio.State())
    {
      if !hasContext {
        return;
      }
      audio.microphoneMute := enabled;
    }

    /** `publishBluetoothAvailability`. */
    method PublishBluetoothAvailability(available: bool, name: Option<string>)
      modifies this
      ensures var (flag, event) := BluetoothPublish(old(bluetoothAvailable), available, name);
        && bluetoothAvailable == flag
        && RelayState() == (if event.Some? then Emitted(old(RelayState()), event.value) else old(RelayState()))
      ensures outcalls == old(outcalls)
    {
      if available == bluetoothAvailable && IsNullOrBlank(name) {
        return;
      }
      bluetoothAvailable := available;
      Emit(BluetoothAvailableEvent(available, name.GetOr("")));
    }

    /** The token-fetch success listener: a non-blank token is saved, then relayed or parked. */
    method OnTokenFetched(token: Option<string>, nowMs: int)
      modifies this
      ensures RelayState() == TokenStep(old(RelayState()), token, nowMs)
      ensures outcalls == old(outcalls) + (if IsNullOrBlank(token) then [] else [SaveFcmToken(token.value)])
      ensures bluetoothAvailable == old(bluetoothAvailable)
    {
      if IsNullOrBlank(token) {
        return;
      }
      outcalls := outcalls + [SaveFcmToken(token.value)];
      if eventSink.Some? {
        Emit(FcmTokenEvent(token.value, nowMs));
      } else {
        pendingFcmToken := token;
      }
    }

    /** `fcmReceiver.onReceive`: emits the broadcast token with the receive time; nothing is parked or saved. */
    method OnTokenBroadcast(tokenAction: bool, token: Option<string>, nowMs: int)
      modifies this
      ensures RelayState() == BroadcastStep(old(RelayState()), tokenAction, token, nowMs)
      ensures pendingFcmToken == old(pendingFcmToken)
      ensures outcalls == old(outcalls) && bluetoothAvailable == old(bluetoothAvailable)
    {
      if !tokenAction || token.None? {
        return;
      }
      Emit(FcmTokenEvent(token.value, nowMs));
    }

    /** The cached-token check: a non-blank stored token is relayed or parked. */
    method OnCachedToken(cached: Option<string>, updatedAt: int)
      modifies this
      ensures RelayState() == TokenStep(old(RelayState()), cached, updatedAt)
      ensures outcalls == old(outcalls) && bluetoothAvailable == old(bluetoothAvailable)
    {
      if IsNullOrBlank(cached) {
        return;
      }
      if eventSink.Some? {
        Emit(FcmTokenEvent(cached.value, updatedAt));
      } else {
        pendingFcmToken := cached;
      }
    }

    /** `onListen`; `updatedAt` is the token store's timestamp. */
    method OnListen(sink: nat, updatedAt: int)
      modifies this
      ensures RelayState() == ListenStep(old(RelayState()), sink, updatedAt)
      ensures outcalls == old(outcalls) && bluetoothAvailable == old(bluetoothAvailable)
    {
      eventSink := Some(sink);
      if hasContext && !IsNullOrBlank(pendingFcmToken) {
        Emit(FcmTokenEvent(pendingFcmToken.value, updatedAt));
        pendingFcmToken := None;
      }
      if !IsNullOrBlank(pendingConnectedCallId) {
        Emit(CallConnectedEvent(pendingConnectedCallId.value));
        pendingConnectedCallId := None;
      }
    }

    /** `onCancel`. */
    method OnCancel()
      modifies this
      ensures RelayState() == CancelStep(old(RelayState()))
      ensures outcalls == old(outcalls) && bluetoothAvailable == old(bluetoothAvailable)
    {
      eventSink := None;
    }

    /** `dispose`: detach the sink and the engine callback. */
    method Dispose()
      modifies this
      ensures RelayState() == CancelStep(old(RelayState()))
      ensures outcalls == old(outcalls) + [ClearEngineCallback] && bluetoothAvailable == old(bluetoothAvailable)
    {
      eventSink := None;
      outcalls := outcalls + [ClearEngineCallback];
    }

    /** `incomingCall`: the Flutter event, with `""` for a missing caller id. */
    method IncomingCall(callId: string, callerId: Option<string>)
      modifies this
      ensures RelayState() == Emitted(old(RelayState()), IncomingCallEvent(callId, callerId.GetOr("")))
      ensures outcalls == old(outcalls) && bluetoothAvailable == old(bluetoothAvailable)
    {
      Emit(IncomingCallEvent(callId, callerId.GetOr("")));
    }

    /** `callConnected`. */
    method CallConnected(callId: string)
      modifies this
      ensures RelayState() == ConnectedStep(old(RelayState()), callId)
      ensures outcalls == old(outcalls) && bluetoothAvailable == old(bluetoothAvailable)
    {
      if eventSink.None? {
        pendingConnectedCallId := Some(callId);
        return;
      }
      Emit(CallConnectedEvent(callId));
    }

    /**
     * `callEnded`: with a context, the broadcast and the main-activity intent
     * are attempted (their failures are caught); the Flutter event is emitted
     * in every case.
     */
    method CallEnded(callId: string, reason: Option<string>)
      modifies this
      ensures RelayState() == Emitted(old(RelayState()), CallEndedEvent(callId, reason))
      ensures outcalls == old(outcalls) + (if hasContext then [BroadcastCallEnded, OpenMainActivityCallEnded] else [])
      ensures bluetoothAvailable == old(bluetoothAvailable)
    {
      if hasContext {
        outcalls := outcalls + [BroadcastCallEnded, OpenMainActivityCallEnded];
      }
      Emit(CallEndedEvent(callId, reason));
    }

    /** `endCall`: hang up, then (with a context) announce the termination request. */
    method EndCall(callId: string)
      modifies this
      ensures RelayState() == old(RelayState()) && bluetoothAvailable == old(bluetoothAvailable)
      ensures outcalls == old(outcalls) + [HangupCall(callId)]
        + (if hasContext then [BroadcastTerminateRequested, OpenMainActivityTerminateRequested] else [])
    {
      outcalls := outcalls + [HangupCall(callId)];
      if hasContext {
        outcalls := outcalls + [BroadcastTerminateRequested, OpenMainActivityTerminateRequested];
      }
    }

    /**
     * `onEvent`: `incoming_call` is routed; `call_connected` marks the Telecom
     * connection active before relaying, and stops there when the audio
     * refresh in `markCallActive` throws (`refresh`; `escaped` says the
     * `Error` leaves the handler); `call_ended` marks it ended before
     * announcing the end; any other type is forwarded as `{type, message}`.
     */
    method OnEvent(eventType: string, message: string, o: IncomingObservation, refresh: Pjsip.NativeOutcome)
      returns (escaped: bool)
      requires o.hasContext == hasContext
      modifies this
      ensures escaped <==> eventType == "call_connected" && refresh.Threw?
      ensures bluetoothAvailable == old(bluetoothAvailable)
      ensures eventType == "incoming_call" ==>
        var route := RouteIncoming(message, o);
        && outcalls == old(outcalls)
          + (if hasContext then [StartIncomingCall(message)] else [])
          + (if LaunchesActivity(route) then [LaunchCallActivity(message)] else [])
        && RelayState() == (if TellsFlutter(route) then Emitted(old(RelayState()), IncomingCallEvent(message, "")) else old(RelayState()))
      ensures eventType == "call_connected" ==>
        outcalls == old(outcalls) + [MarkCallActive(message)]
        && RelayState() == ConnectedEventStep(old(RelayState()), message, refresh)
      ensures eventType == "call_ended" ==>
        && outcalls == old(outcalls) + [MarkCallEnded(message)]
          + (if hasContext then [BroadcastCallEnded, OpenMainActivityCallEnded] else [])
        && RelayState() == Emitted(old(RelayState()), CallEndedEvent(message, None))
      ensures eventType !in {"incoming_call", "call_connected", "call_ended"} ==>
        outcalls == old(outcalls) && RelayState() == Emitted(old(RelayState()), NativeEvent(eventType, message))
    {
      escaped := false;
      if eventType == "incoming_call" {
        OnIncomingCall(message, o);
      } else if eventType == "call_connected" {
        outcalls := outcalls + [MarkCallActive(message)];
        if refresh.Threw? {
          return true;
        }
        CallConnected(message);
      } else if eventType == "call_ended" {
        outcalls := outcalls + [MarkCallEnded(message)];
        CallEnded(message, None);
      } else {
        Emit(NativeEvent(eventType, message));
      }
    }

    /** The `incoming_call` branch of `onEvent`. */
    method OnIncomingCall(message: string, o: IncomingObservation)
      requires o.hasContext == hasContext
      modifies this
      ensures bluetoothAvailable == old(bluetoothAvailable)
      ensures var route := RouteIncoming(message, o);
        && outcalls == old(outcalls)
          + (if hasContext then [StartIncomingCall(message)] else [])
          + (if LaunchesActivity(route) then [LaunchCallActivity(message)] else [])
        && RelayState() == (if TellsFlutter(route) then Emitted(old(RelayState()), IncomingCallEvent(message, "")) else old(RelayState()))
    {
      if !hasContext {
        IncomingCall(message, None);
        return;
      }
      outcalls := outcalls + [StartIncomingCall(message)];
      if o.telecomAccepted {
        return;
      }
      if o.activityVisible {
        if !IsBlank(message) && o.visibleCallId != Some(message) {
          outcalls := outcalls + [LaunchCallActivity(message)];
        }
        return;
      }
      if o.appInForeground {
        IncomingCall(message, None);
        return;
      }
      if o.nowMs - o.lastLaunchAtMs < DebounceMs {
        return;
      }
      outcalls := outcalls + [LaunchCallActivity(message)];
      if !o.launchSucceeds {
        IncomingCall(message, None);
      }
    }
  }
}
