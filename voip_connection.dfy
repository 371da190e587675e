/**
 * The self-managed Telecom connection of the current revision: it starts and
 * stops the ringtone, saves the audio routing when the call goes live and
 * restores it when the call ends.
 */
module VoipConnections {
  import opened Wrappers
  import opened Text
  import opened Audio
  import opened Telecom

  /**
   * The part of the audio manager and of a connection that `startAudio` and
   * `stopAudio` touch: the manager's state, the three saved routing values and
   * whether the call's audio-focus request is held.
   */
  datatype AudioSession = AudioSession(
    audio: AudioState,
    previousMode: Option<int>,
    previousSpeakerphone: Option<bool>,
    previousMicMute: Option<bool>,
    callFocus: bool)

  predicate NothingSaved(s: AudioSession) {
    s.previousMode.None? && s.previousSpeakerphone.None? && s.previousMicMute.None?
  }

  /**
   * `startAudio`: unless a mode is already saved, remember mode, loudspeaker and
   * mute, switch to communication mode, unmute the microphone and request focus.
   */
  function AudioStarted(s: AudioSession): AudioSession {
    if s.previousMode.Some? then s
    else
      AudioSession(
        s.audio.(mode := ModeInCommunication, microphoneMute := false),
        Some(s.audio.mode), Some(s.audio.speakerphoneOn), Some(s.audio.microphoneMute),
        true)
  }

  /** `stopAudio`: abandon focus, write back each saved value that exists, forget them all. */
  function AudioStopped(s: AudioSession): AudioSession {
    var a := s.audio;
    var withMode := if s.previousMode.Some? then a.(mode := s.previousMode.value) else a;
    var withSpeaker :=
      if s.previousSpeakerphone.Some? then withMode.(speakerphoneOn := s.previousSpeakerphone.value) else withMode;
    var withMute :=
      if s.previousMicMute.Some? then withSpeaker.(microphoneMute := s.previousMicMute.value) else withSpeaker;
    AudioSession(withMute, None, None, None, false)
  }

  /** While saved state exists, a second `startAudio` changes nothing. */
  lemma StartAudioIdempotent(s: AudioSession)
    requires s.previousMode.Some?
    ensures AudioStarted(s) == s
  {
  }

  /** A first `startAudio` saves the prior values, then forces communication mode and an open microphone. */
  lemma StartAudioSavesPrior(s: AudioSession)
    requires NothingSaved(s)
    ensures var r := AudioStarted(s);
      && r.previousMode == Some(s.audio.mode)
      && r.previousSpeakerphone == Some(s.audio.speakerphoneOn)
      && r.previousMicMute == Some(s.audio.microphoneMute)
      && r.audio.mode == ModeInCommunication && !r.audio.microphoneMute
      && r.audio.speakerphoneOn == s.audio.speakerphoneOn
      && r.callFocus
  {
  }

  /** Start then stop returns the routing to what it was and leaves nothing saved. */
  lemma StartThenStopRestores(s: AudioSession)
    requires NothingSaved(s)
    ensures AudioStopped(AudioStarted(s)).audio == s.audio
    ensures NothingSaved(AudioStopped(AudioStarted(s))) && !AudioStopped(AudioStarted(s)).callFocus
  {
  }

  /** Stop without a prior start changes no routing. */
  lemma StopWithoutStartKeepsRouting(s: AudioSession)
    requires NothingSaved(s)
    ensures AudioStopped(s).audio == s.audio
  {
  }

  /** The ringing resources a connection holds: a ringtone, a vibrator and a ring-focus request. */
  datatype Ringer = Ringer(ringtone: bool, vibrator: bool, ringFocus: bool)

  const Silent := Ringer(false, false, false)

  /**
   * `startRinging`: nothing if a ringtone is already held or the ringer is silent;
   * otherwise request ring focus, hold the default ringtone in normal mode (when
   * one is found) and the vibrator in vibrate mode (when the service exists).
   */
  function RingingStarted(r: Ringer, ringerMode: int, ringtoneFound: bool, vibratorFound: bool): Ringer {
    if r.ringtone || ringerMode == RingerModeSilent then r
    else
      Ringer(
        ringerMode == RingerModeNormal && ringtoneFound,
        if ringerMode == RingerModeVibrate then vibratorFound else r.vibrator,
        true)
  }

  /** `startRinging` does nothing when a ringtone is already held or the ringer is silent. */
  lemma StartRingingGuard(r: Ringer, ringerMode: int, ringtoneFound: bool, vibratorFound: bool)
    requires r.ringtone || ringerMode == RingerModeSilent
    ensures RingingStarted(r, ringerMode, ringtoneFound, vibratorFound) == r
  {
  }

  /** Otherwise ring focus is requested, and a ringtone is held only in normal mode. */
  lemma StartRingingHolds(r: Ringer, ringerMode: int, ringtoneFound: bool, vibratorFound: bool)
    requires !r.ringtone && ringerMode != RingerModeSilent
    ensures var n := RingingStarted(r, ringerMode, ringtoneFound, vibratorFound);
      && n.ringFocus
      && (n.ringtone <==> ringerMode == RingerModeNormal && ringtoneFound)
      && (ringerMode == RingerModeVibrate ==> n.vibrator == vibratorFound)
  {
  }

  /** The display properties Telecom shows for a connection. */
  datatype Presentation = Presentation(selfManaged: bool, audioModeIsVoip: bool, callerDisplayName: Option<string>)

  class VoipConnection {
    const callId: Option<string>
    const callerId: Option<string>
    const audio: AudioManager

    var selfManaged: bool
    var audioModeIsVoip: bool
    var callerDisplayName: Option<string>
    var state: ConnectionState
    var destroyed: bool

    var audioFocusRequest: bool
    var previousMode: Option<int>
    var previousSpeakerphone: Option<bool>
    var previousMicMute: Option<bool>

    var ringtone: bool
    var vibrator: bool
    var ringFocusRequest: bool

    function Session(): AudioSession
      reads this, audio
    {
      AudioSession(audio.State(), previousMode, previousSpeakerphone, previousMicMute, audioFocusRequest)
    }

    function RingResources(): Ringer
      reads this
    {
      Ringer(ringtone, vibrator, ringFocusRequest)
    }

    function Shown(): Presentation
      reads this
    {
      Presentation(selfManaged, audioModeIsVoip, callerDisplayName)
    }

    /** A new connection is self-managed and Initializing; a caller name is shown only when non-empty. */
    constructor (audio: AudioManager, sdk: int, callId: Option<string>, callerId: Option<string>)
      ensures this.audio == audio && this.callId == callId && this.callerId == callerId
      ensures selfManaged && state == Initializing && !destroyed
      ensures audioModeIsVoip == (sdk >= SdkO)
      ensures callerDisplayName == DisplayedCaller(callerId)
      ensures NothingSaved(Session()) && !audioFocusRequest && RingResources() == Silent
    {
      this.audio := audio;
      this.callId := callId;
      this.callerId := callerId;
      selfManaged := true;
      audioModeIsVoip := sdk >= SdkO;
      callerDisplayName := DisplayedCaller(callerId);
      state := Initializing;
      destroyed := false;
      audioFocusRequest := false;
      previousMode, previousSpeakerphone, previousMicMute := None, None, None;
      ringtone, vibrator, ringFocusRequest := false, false, false;
    }

    /** `onAnswer`: stop ringing, take over the audio, go Active. */
    method OnAnswer()
      modifies this, audio
      ensures RingResources() == Silent && Session() == AudioStarted(old(Session()))
      ensures state == Active && destroyed == old(destroyed) && Shown() == old(Shown())
    {
      StopRinging();
      StartAudio();
      state := Active;
    }

    /** `onReject`: release ringing and audio, disconnect as REJECTED, destroy. */
    method OnReject()
      modifies this, audio
      ensures RingResources() == Silent && Session() == AudioStopped(old(Session()))
      ensures state == Disconnected(Rejected) && destroyed && Shown() == old(Shown())
    {
      Finish(Rejected);
    }

    /** `onDisconnect`: as `onReject`, with cause LOCAL. */
    method OnDisconnect()
      modifies this, audio
      ensures RingResources() == Silent && Session() == AudioStopped(old(Session()))
      ensures state == Disconnected(Local) && destroyed && Shown() == old(Shown())
    {
      Finish(Local);
    }

    /** `onAbort`: as `onReject`, with cause CANCELED. */
    method OnAbort()
      modifies this, audio
      ensures RingResources() == Silent && Session() == AudioStopped(old(Session()))
      ensures state == Disconnected(Canceled) && destroyed && Shown() == old(Shown())
    {
      Finish(Canceled);
    }

    method Finish(cause: DisconnectCause)
      modifies this, audio
      ensures RingResources() == Silent && Session() == AudioStopped(old(Session()))
      ensures state == Disconnected(cause) && destroyed && Shown() == old(Shown())
    {
      StopRinging();
      StopAudio();
      state := Disconnected(cause);
      destroyed := true;
    }

    /** `onCallConnected`: as `onAnswer` but without changing the Telecom state. */
    method OnCallConnected()
      modifies this, audio
      ensures RingResources() == Silent && Session() == AudioStarted(old(Session()))
      ensures state == old(state) && destroyed == old(destroyed) && Shown() == old(Shown())
    {
      StopRinging();
      StartAudio();
    }

    /** `markRinging`: Ringing state, then start the ringtone as the ringer mode allows. */
    method MarkRinging(ringtoneFound: bool, vibratorFound: bool)
      modifies this
      ensures state == Ringing
      ensures RingResources() == RingingStarted(old(RingResources()), audio.ringerMode, ringtoneFound, vibratorFound)
      ensures Session() == old(Session()) && destroyed == old(destroyed) && Shown() == old(Shown())
    {
      state := Ringing;
      StartRinging(ringtoneFound, vibratorFound);
    }

    /** `markDialing`. */
    method MarkDialing()
      modifies this
      ensures state == Dialing
      ensures RingResources() == old(RingResources()) && Session() == old(Session())
      ensures destroyed == old(destroyed) && Shown() == old(Shown())
    {
      state := Dialing;
    }

    /** `Connection.setActive`. */
    method SetActive()
      modifies this
      ensures state == Active
      ensures RingResources() == old(RingResources()) && Session() == old(Session())
      ensures destroyed == old(destroyed) && Shown() == old(Shown())
    {
      state := Active;
    }

    /** `Connection.setDisconnected(cause)` followed by `destroy()`. */
    method DisconnectAndDestroy(cause: DisconnectCause)
      modifies this
      ensures state == Disconnected(cause) && destroyed
      ensures RingResources() == old(RingResources()) && Session() == old(Session()) && Shown() == old(Shown())
    {
      state := Disconnected(cause);
      destroyed := true;
    }

    method StartAudio()
      modifies this, audio
      ensures Session() == AudioStarted(old(Session()))
      ensures RingResources() == old(RingResources()) && state == old(state)
      ensures destroyed == old(destroyed) && Shown() == old(Shown())
    {
      if previousMode.Some? {
        return;
      }
      previousMode := Some(audio.mode);
      previousSpeakerphone := Some(audio.speakerphoneOn);
      previousMicMute := Some(audio.microphoneMute);
      audio.mode := ModeInCommunication;
      audio.microphoneMute := false;
      audioFocusRequest := true;
    }

    method StopAudio()
      modifies this, audio
      ensures Session() == AudioStopped(old(Session()))
      ensures RingResources() == old(RingResources()) && state == old(state)
      ensures destroyed == old(destroyed) && Shown() == old(Shown())
    {
      audioFocusRequest := false;
      if previousMode.Some? {
        audio.mode := previousMode.value;
      }
      if previousSpeakerphone.Some? {
        audio.speakerphoneOn := previousSpeakerphone.value;
      }
      if previousMicMute.Some? {
        audio.microphoneMute := previousMicMute.value;
      }
      previousMode := None;
      previousSpeakerphone := None;
      previousMicMute := None;
    }

    method StartRinging(ringtoneFound: bool, vibratorFound: bool)
      modifies this
      ensures RingResources() == RingingStarted(old(RingResources()), audio.ringerMode, ringtoneFound, vibratorFound)
      ensures Session() == old(Session()) && state == old(state)
      ensures destroyed == old(destroyed) && Shown() == old(Shown())
    {
      if ringtone {
        return;
      }
      var ringerMode := audio.ringerMode;
      if ringerMode == RingerModeSilent {
        return;
      }
      var ring := ringerMode == RingerModeNormal && ringtoneFound;
      ringFocusRequest := true;
      if ring {
        ringtone := true;
      }
      if ringerMode == RingerModeVibrate {
        vibrator := vibratorFound;
      }
    }

    /** `stopRinging`: drop the ringtone, the vibrator and the ring-focus request. */
    method StopRinging()
      modifies this
      ensures RingResources() == Silent
      ensures Session() == old(Session()) && state == old(state)
      ensures destroyed == old(destroyed) && Shown() == old(Shown())
    {
      ringtone := false;
      vibrator := false;
      ringFocusRequest := false;
    }
  }
}
