/**
 * The platform audio manager shared by the engine's routing setters and by every
 * Telecom connection: the fields the call-coordination code reads and writes.
 */
module Audio {

  /** `AudioManager.MODE_NORMAL` and `AudioManager.MODE_IN_COMMUNICATION`. */
  const ModeNormal: int := 0
  const ModeInCommunication: int := 3

  /** `AudioManager.RINGER_MODE_SILENT`, `_VIBRATE` and `_NORMAL`. */
  const RingerModeSilent: int := 0
  const RingerModeVibrate: int := 1
  const RingerModeNormal: int := 2

  /**
   * A snapshot of the audio manager: audio mode, loudspeaker, Bluetooth SCO
   * routing flag, whether an SCO link was started, microphone mute and ringer mode.
   */
  datatype AudioState = AudioState(
    mode: int,
    speakerphoneOn: bool,
    bluetoothScoOn: bool,
    scoStarted: bool,
    microphoneMute: bool,
    ringerMode: int)

  class AudioManager {
    var mode: int
    var speakerphoneOn: bool
    var bluetoothScoOn: bool
    /** Set by `startBluetoothSco`, cleared by `stopBluetoothSco`. */
    var scoStarted: bool
    var microphoneMute: bool
    var ringerMode: int

    constructor (initial: AudioState)
      ensures State() == initial
    {
      mode := initial.mode;
      speakerphoneOn := initial.speakerphoneOn;
      bluetoothScoOn := initial.bluetoothScoOn;
      scoStarted := initial.scoStarted;
      microphoneMute := initial.microphoneMute;
      ringerMode := initial.ringerMode;
    }

    function State(): AudioState
      reads this
    {
      AudioState(mode, speakerphoneOn, bluetoothScoOn, scoStarted, microphoneMute, ringerMode)
    }

    /** Writes every field from a snapshot. */
    method Apply(s: AudioState)
      modifies this
      ensures State() == s
    {
      mode, speakerphoneOn, bluetoothScoOn := s.mode, s.speakerphoneOn, s.bluetoothScoOn;
      scoStarted, microphoneMute, ringerMode := s.scoStarted, s.microphoneMute, s.ringerMode;
    }
  }
}
