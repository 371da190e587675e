# CelyaVox call coordination, modelled in Dafny

This project models the call-coordination core of the CelyaVox Flutter VoIP
app. It covers the Android native side, the iOS provisioning side and the
older `com.example.voip` and `com.celya.voip` revisions that ship beside them:

- **Event coordinator** (`Coordinator`, `VoipEngine.kt`). It decides where an
  incoming call goes: Telecom, a call-activity relaunch, a Flutter event, or
  nothing inside the 5000 ms debounce. It parks the latest connected call id,
  and the FCM token from the token fetch or the token store, while no Flutter
  sink is attached, and replays each once on attach. A refreshed token that
  arrives by broadcast is emitted only to an attached sink and otherwise
  dropped. It also holds the audio-routing setters and the Bluetooth publish rule.
- **Telecom side.**
  - `ConnectionRegistry` (`VoipConnectionService.kt`): the call-id → connection
    registry, creation gating, and the register-and-retry path of
    `startIncomingCall`.
  - `VoipConnections` (`VoipConnection.kt`): audio save/restore, ringing, and
    the terminal transitions.
  - `LegacyTelecom` and `ExampleConnections`: the two older connection classes.
- **Engine gating and accounts.**
  - `Pjsip` and `ExamplePjsip`: the two `PjsipEngine.kt` revisions, gated on
    an `initialized` flag.
  - `NativeEngine` (`voip_engine.cpp`): the endpoint and account lifecycle, the
    SIP URI strings, and the call-state → event mapping.
  - `SipAccounts` and `SipStack`: the two `SipAccountManager.kt` files.
  - `WakeLocks` (`WakeLockManager.kt`): two locks that are not reference-counted.
- **Entry points.**
  - `MethodChannel` and `ExampleMethodChannel`: the Flutter method-channel
    dispatch functions.
  - `Push` (`VoipFirebaseService.kt`): push routing to an ordered list of actions.
- **Provisioning.**
  - `PullParser` (Kotlin) and `SaxParser` (Swift): the two XML entry parsers,
    each proved against a recursive specification. A render → parse round trip
    connects them, and on documents of trimmed entries they agree.
  - `AndroidProvisioning` and `IosProvisioning`: the two provisioning managers,
    covering alias lookup, secret separation, the 443 default port, the
    "provisioned only after success" rule and reset.

Each mutable source class is a Dafny `class`. Its methods tie the new state to
pure step functions of the old state, and the lemmas about those step functions
state what the source promises. Calls into other components are recorded in
logs (sequences of request values). Platform and native outcomes are method
parameters.

## Model

| member | source | states |
|---|---|---|
| Coordinator.TelecomAcceptedIsQuiet | android/app/src/main/kotlin/fr/celya/celyavox/VoipEngine.kt:301-306 | An `incoming_call` that Telecom accepts neither launches the call activity nor reaches Flutter. |
| Coordinator.VisibleActivityRouting | android/app/src/main/kotlin/fr/celya/celyavox/VoipEngine.kt:306-320 | When Telecom refuses while the call activity is visible, nothing reaches Flutter, and the activity is relaunched exactly when the id is non-blank and differs from the visible call's. |
| Coordinator.HiddenActivityRouting | android/app/src/main/kotlin/fr/celya/celyavox/VoipEngine.kt:322-339 | When Telecom refuses and no call activity is visible, a foreground app is told through Flutter; otherwise a launch within 5000 ms of the last is suppressed; otherwise the activity is launched, and Flutter is told only if the launch fails. |
| Coordinator.FlutterToldIff | android/app/src/main/kotlin/fr/celya/celyavox/VoipEngine.kt:301-343 | Flutter hears of an incoming call exactly when there is no context, or Telecom refused, no activity is visible, and the app is in the foreground or an undebounced launch failed; an activity launch always needs a context and a Telecom refusal. |
| Coordinator.RoutingSetters | android/app/src/main/kotlin/fr/celya/celyavox/VoipEngine.kt:122-151 | Speaker and Bluetooth setters put the audio in communication mode and never leave the loudspeaker and SCO routed together; mute changes only the microphone flag. |
| Coordinator.LatestConnectedWins | android/app/src/main/kotlin/fr/celya/celyavox/VoipEngine.kt:374-387 | With no sink attached, a run of `callConnected` posts nothing and parks only the last call id. |
| Coordinator.ConnectedRelayedInOrder | android/app/src/main/kotlin/fr/celya/celyavox/VoipEngine.kt:374-387 | With a sink attached, every connected id is posted in order and the parked id is untouched. |
| Coordinator.ParkedConnectedReplayedOnce | android/app/src/main/kotlin/fr/celya/celyavox/VoipEngine.kt:438-463 | A parked connected id is posted on the next `onListen` and cleared, so a second `onListen` does not repeat it. |
| Coordinator.ParkedTokenReplayedOnce | android/app/src/main/kotlin/fr/celya/celyavox/VoipEngine.kt:438-463 | A parked FCM token is posted once on attach, with the store's timestamp, and then cleared. |
| Coordinator.TokenNeedsContext | android/app/src/main/kotlin/fr/celya/celyavox/VoipEngine.kt:231-268 | A blank token is never saved or parked; without a context the parked token survives `onListen`. |
| Coordinator.NoSinkNoPost | android/app/src/main/kotlin/fr/celya/celyavox/VoipEngine.kt:293-296 | Nothing is posted while no sink is attached, whatever is emitted. |
| Coordinator.BluetoothPublishDeduplicates | android/app/src/main/kotlin/fr/celya/celyavox/VoipEngine.kt:194-204 | The availability flag always takes the new value; an event is sent when availability changes or a name is known, and repeating a state with no name sends nothing. |
| Coordinator.VoipEngine.constructor | android/app/src/main/kotlin/fr/celya/celyavox/VoipEngine.kt:25-42 | A new engine has no sink, no parked values, no Bluetooth and nothing posted. |
| Coordinator.VoipEngine.Emit | android/app/src/main/kotlin/fr/celya/celyavox/VoipEngine.kt:293-296 | The event is posted to the current sink, or dropped without one. |
| Coordinator.VoipEngine.SetSpeakerphone | android/app/src/main/kotlin/fr/celya/celyavox/VoipEngine.kt:122-131 | The audio state becomes the speakerphone setting of the old one; nothing changes without a context. |
| Coordinator.VoipEngine.SetBluetooth | android/app/src/main/kotlin/fr/celya/celyavox/VoipEngine.kt:133-145 | The audio state becomes the Bluetooth setting of the old one; nothing changes without a context. |
| Coordinator.VoipEngine.SetMuted | android/app/src/main/kotlin/fr/celya/celyavox/VoipEngine.kt:147-151 | Only the microphone mute changes; nothing changes without a context. |
| Coordinator.VoipEngine.PublishBluetoothAvailability | android/app/src/main/kotlin/fr/celya/celyavox/VoipEngine.kt:194-204 | The flag and the posted event follow the deduplicating publish rule. |
| Coordinator.VoipEngine.OnTokenFetched | android/app/src/main/kotlin/fr/celya/celyavox/VoipEngine.kt:231-252 | A non-blank fetched token is saved first, then relayed or parked. |
| Coordinator.VoipEngine.OnCachedToken | android/app/src/main/kotlin/fr/celya/celyavox/VoipEngine.kt:255-268 | A non-blank cached token is relayed with its stored timestamp, or parked. |
| Coordinator.VoipEngine.OnListen | android/app/src/main/kotlin/fr/celya/celyavox/VoipEngine.kt:438-463 | Attaching a sink replays the parked connected id and, given a context, the parked token, clearing each. |
| Coordinator.VoipEngine.OnCancel | android/app/src/main/kotlin/fr/celya/celyavox/VoipEngine.kt:465-467 | Detaching the sink keeps the parked values and posts nothing. |
| Coordinator.BroadcastTokenNotParked | android/app/src/main/kotlin/fr/celya/celyavox/VoipEngine.kt:209-220 | A broadcast token with no sink attached leaves the relay unchanged, where a fetched token would be parked; with a sink it is posted as it is. |
| Coordinator.VoipEngine.OnTokenBroadcast | android/app/src/main/kotlin/fr/celya/celyavox/VoipEngine.kt:210-220 | The relay becomes the broadcast step: emitted with the receive time, never parked or saved. |
| Coordinator.ConnectedEventLostWhenRefreshThrows | android/app/src/main/kotlin/fr/celya/celyavox/VoipEngine.kt:344-347 | A `call_connected` whose audio refresh throws is neither posted nor parked; one whose refresh returns is the connected relay step, parked without a sink. |
| Coordinator.VoipEngine.Dispose | android/app/src/main/kotlin/fr/celya/celyavox/VoipEngine.kt:66-72 | The sink is detached and the engine callback cleared. |
| Coordinator.VoipEngine.IncomingCall | android/app/src/main/kotlin/fr/celya/celyavox/VoipEngine.kt:364-372 | Posts an incoming-call event, with `""` for a missing caller id. |
| Coordinator.VoipEngine.CallConnected | android/app/src/main/kotlin/fr/celya/celyavox/VoipEngine.kt:374-387 | Relays the connected id, or parks it in place of any earlier one. |
| Coordinator.VoipEngine.CallEnded | android/app/src/main/kotlin/fr/celya/celyavox/VoipEngine.kt:389-418 | Posts the call-ended event; with a context it also broadcasts the end and reopens the main activity. |
| Coordinator.VoipEngine.EndCall | android/app/src/main/kotlin/fr/celya/celyavox/VoipEngine.kt:86-110 | Hangs up the call first, then, with a context, announces the termination; the relay is unchanged. |
| Coordinator.VoipEngine.OnEvent | android/app/src/main/kotlin/fr/celya/celyavox/VoipEngine.kt:298-354 | Dispatches on the native event type: incoming, connected and ended go to their handlers, and any other type is posted verbatim. On `call_connected` a throwing audio refresh in `markCallActive` escapes the handler before `callConnected`, leaving the relay unchanged; the handler escapes exactly then. |
| Coordinator.VoipEngine.OnIncomingCall | android/app/src/main/kotlin/fr/celya/celyavox/VoipEngine.kt:301-343 | Carries out the route the incoming-call decision picks: Telecom, an activity launch, a Flutter event or nothing. |
| ConnectionRegistry.RegisterThenUnregister | android/app/src/main/kotlin/fr/celya/celyavox/VoipConnectionService.kt:218-225 | Registering an id and then unregistering it leaves every other entry as it was. |
| ConnectionRegistry.UnregisterRemovesOnlyThatId | android/app/src/main/kotlin/fr/celya/celyavox/VoipConnectionService.kt:223-225 | Unregistering removes exactly the given id. |
| ConnectionRegistry.RegisterSelfManagedOutcome | android/app/src/main/kotlin/fr/celya/celyavox/VoipConnectionService.kt:118-145 | Self-managed registration succeeds exactly on Android 10 or later, with the role held and the platform accepting; Telecom is asked only when version and role allow. |
| ConnectionRegistry.StartIncomingCallGated | android/app/src/main/kotlin/fr/celya/celyavox/VoipConnectionService.kt:158-162 | Without Android 10 or the role, Telecom is not asked and the answer is false. |
| ConnectionRegistry.StartIncomingCallRetriesOnce | android/app/src/main/kotlin/fr/celya/celyavox/VoipConnectionService.kt:164-187 | The call is reported at most twice, the second time only after a refusal and a successful re-registration; the answer is true exactly when a report went through. |
| ConnectionRegistry.VoipConnectionService.constructor | android/app/src/main/kotlin/fr/celya/celyavox/VoipConnectionService.kt:115 | The registry starts empty, with nothing sent to the engine. |
| ConnectionRegistry.VoipConnectionService.OnCreateIncomingConnection | android/app/src/main/kotlin/fr/celya/celyavox/VoipConnectionService.kt:21-37 | An unsupported version or foreign account yields a failed connection; otherwise a connection is created, marked ringing and registered under its call id. |
| ConnectionRegistry.VoipConnectionService.OnCreateOutgoingConnection | android/app/src/main/kotlin/fr/celya/celyavox/VoipConnectionService.kt:39-54 | Same gate; an allowed request yields a registered connection marked dialing. |
| ConnectionRegistry.VoipConnectionService.ManagedAnswer | android/app/src/main/kotlin/fr/celya/celyavox/VoipConnectionService.kt:78-82 | The engine accepts the call, then the connection is answered and keeps its entry. |
| ConnectionRegistry.VoipConnectionService.ManagedReject | android/app/src/main/kotlin/fr/celya/celyavox/VoipConnectionService.kt:83-88 | The engine hangs up, the connection is rejected and destroyed, and its entry is removed. |
| ConnectionRegistry.VoipConnectionService.ManagedDisconnect | android/app/src/main/kotlin/fr/celya/celyavox/VoipConnectionService.kt:89-94 | As reject, with cause LOCAL. |
| ConnectionRegistry.VoipConnectionService.ManagedAbort | android/app/src/main/kotlin/fr/celya/celyavox/VoipConnectionService.kt:95-100 | As reject, with cause CANCELED. |
| ConnectionRegistry.VoipConnectionService.MarkCallActive | android/app/src/main/kotlin/fr/celya/celyavox/VoipConnectionService.kt:201-207 | A registered connection is set active with its audio taken over; the engine audio is refreshed either way, and a throw from the refresh escapes, exactly when the refresh throws, with the connection already active. |
| ConnectionRegistry.VoipConnectionService.MarkCallEnded | android/app/src/main/kotlin/fr/celya/celyavox/VoipConnectionService.kt:209-215 | The entry is removed, and a registered connection is disconnected as LOCAL and destroyed; an unknown id changes nothing else. |
| ConnectionRegistry.VoipConnectionService.RegisterConnection | android/app/src/main/kotlin/fr/celya/celyavox/VoipConnectionService.kt:218-221 | A non-null id maps to the connection; a null id changes nothing. |
| ConnectionRegistry.VoipConnectionService.UnregisterConnection | android/app/src/main/kotlin/fr/celya/celyavox/VoipConnectionService.kt:223-225 | A non-null id is removed; a null id changes nothing. |
| VoipConnections.StartAudioIdempotent | android/app/src/main/kotlin/fr/celya/celyavox/VoipConnection.kt:77-80 | While saved state exists, starting audio again changes nothing. |
| VoipConnections.StartAudioSavesPrior | android/app/src/main/kotlin/fr/celya/celyavox/VoipConnection.kt:77-106 | A first start saves the prior mode, speaker and mute, then forces communication mode and an open microphone. |
| VoipConnections.StartThenStopRestores | android/app/src/main/kotlin/fr/celya/celyavox/VoipConnection.kt:77-123 | Start followed by stop restores the routing exactly and leaves nothing saved and no focus held. |
| VoipConnections.StopWithoutStartKeepsRouting | android/app/src/main/kotlin/fr/celya/celyavox/VoipConnection.kt:108-123 | Stopping with nothing saved changes no routing. |
| VoipConnections.StartRingingGuard | android/app/src/main/kotlin/fr/celya/celyavox/VoipConnection.kt:134-140 | Ringing does not start when a ringtone is already held or the ringer is silent. |
| VoipConnections.StartRingingHolds | android/app/src/main/kotlin/fr/celya/celyavox/VoipConnection.kt:141-204 | Otherwise ring focus is requested and a ringtone is held only in normal ringer mode. |
| VoipConnections.VoipConnection.constructor | android/app/src/main/kotlin/fr/celya/celyavox/VoipConnection.kt:33-43 | A new connection is self-managed and Initializing, VoIP audio mode from Android 8, a caller name only when non-empty, nothing saved or ringing. |
| VoipConnections.VoipConnection.OnAnswer | android/app/src/main/kotlin/fr/celya/celyavox/VoipConnection.kt:45-49 | Ringing stops, the audio is taken over, and the state becomes Active. |
| VoipConnections.VoipConnection.OnReject | android/app/src/main/kotlin/fr/celya/celyavox/VoipConnection.kt:51-56 | Ringing and audio are released, the state is Disconnected(REJECTED), and the connection is destroyed. |
| VoipConnections.VoipConnection.OnDisconnect | android/app/src/main/kotlin/fr/celya/celyavox/VoipConnection.kt:58-63 | As reject, with cause LOCAL. |
| VoipConnections.VoipConnection.OnAbort | android/app/src/main/kotlin/fr/celya/celyavox/VoipConnection.kt:65-70 | As reject, with cause CANCELED. |
| VoipConnections.VoipConnection.OnCallConnected | android/app/src/main/kotlin/fr/celya/celyavox/VoipConnection.kt:72-75 | As answer, but the Telecom state is left alone. |
| VoipConnections.VoipConnection.MarkRinging | android/app/src/main/kotlin/fr/celya/celyavox/VoipConnection.kt:125-128 | The state becomes Ringing and ringing starts as the ringer mode allows. |
| VoipConnections.VoipConnection.MarkDialing | android/app/src/main/kotlin/fr/celya/celyavox/VoipConnection.kt:130-132 | The state becomes Dialing; audio and ringing are untouched. |
| VoipConnections.VoipConnection.StartAudio | android/app/src/main/kotlin/fr/celya/celyavox/VoipConnection.kt:77-106 | The audio session becomes the saving start of the old one; nothing else changes. |
| VoipConnections.VoipConnection.StopAudio | android/app/src/main/kotlin/fr/celya/celyavox/VoipConnection.kt:108-123 | The audio session becomes the restoring stop of the old one; nothing else changes. |
| VoipConnections.VoipConnection.StartRinging | android/app/src/main/kotlin/fr/celya/celyavox/VoipConnection.kt:134-204 | The ringing resources follow the guarded ringing rule; nothing else changes. |
| VoipConnections.VoipConnection.StopRinging | android/app/src/main/kotlin/fr/celya/celyavox/VoipConnection.kt:206-218 | Ringtone, vibrator and ring focus are all released; nothing else changes. |
| Telecom.DisplayedCaller | android/app/src/main/kotlin/fr/celya/celyavox/VoipConnection.kt:39-41 | A caller name is shown exactly when the caller id is present and non-empty, and it is that id. |
| Pjsip.PjsipEngine.constructor | android/app/src/main/kotlin/fr/celya/celyavox/PjsipEngine.kt:13-42 | A new engine is uninitialised, has no callback and has made no native call; whether the library loaded is fixed. |
| Pjsip.PjsipEngine.HandleNativeEvent | android/app/src/main/kotlin/fr/celya/celyavox/PjsipEngine.kt:36-39 | The event reaches the current callback, if any, and nothing else. |
| Pjsip.PjsipEngine.SetCallback | android/app/src/main/kotlin/fr/celya/celyavox/PjsipEngine.kt:44-46 | Replaces the callback; after clearing it nothing is delivered. |
| Pjsip.PjsipEngine.Init | android/app/src/main/kotlin/fr/celya/celyavox/PjsipEngine.kt:49-63 | False when the library did not load; true without a native call once initialised; otherwise the native result, stored, with a throw counted as false. |
| Pjsip.PjsipEngine.EnsureInit | android/app/src/main/kotlin/fr/celya/celyavox/PjsipEngine.kt:66-69 | Initialisation is tried only when not yet initialised. |
| Pjsip.PjsipEngine.Register | android/app/src/main/kotlin/fr/celya/celyavox/PjsipEngine.kt:66-69 | Tries init first, then calls native register even if init failed, and returns the native outcome. |
| Pjsip.PjsipEngine.Unregister | android/app/src/main/kotlin/fr/celya/celyavox/PjsipEngine.kt:72-81 | Calls native unregister only when initialised. |
| Pjsip.PjsipEngine.MakeCall | android/app/src/main/kotlin/fr/celya/celyavox/PjsipEngine.kt:84-87 | Tries init first, then calls native make-call regardless. |
| Pjsip.PjsipEngine.RefreshAudio | android/app/src/main/kotlin/fr/celya/celyavox/PjsipEngine.kt:90-93 | Tries init first, then calls native refresh regardless. |
| Pjsip.PjsipEngine.AcceptCall | android/app/src/main/kotlin/fr/celya/celyavox/PjsipEngine.kt:96-111 | False without a native call when uninitialised; otherwise true exactly when the native accept returns true. |
| Pjsip.PjsipEngine.HangupCall | android/app/src/main/kotlin/fr/celya/celyavox/PjsipEngine.kt:114-117 | False without a native call when uninitialised; otherwise the native outcome. |
| Pjsip.PjsipEngine.SendDtmf | android/app/src/main/kotlin/fr/celya/celyavox/PjsipEngine.kt:120-123 | False without a native call when uninitialised; otherwise the native outcome. |
| NativeEngine.AccountIdRoundTrip | android/app/src/main/cpp/voip_engine.cpp:174-191 | The account URI `sip:user@domain` splits back into the user and domain it was built from; the registrar is `sip:` plus the domain. |
| NativeEngine.SetupCleansUp | android/app/src/main/cpp/voip_engine.cpp:92-147 | Setup succeeds exactly when the endpoint starts and is not destroyed; a failure after create ends by destroying it. |
| NativeEngine.CallStateEventShape | android/app/src/main/cpp/voip_engine.cpp:75-84 | Only CONFIRMED and DISCONNECTED produce an event, `call_connected` and `call_ended` with the decimal call id. |
| NativeEngine.Endpoint.constructor | android/app/src/main/cpp/voip_engine.cpp:15-19 | No endpoint, no account, no Java class bound, nothing called or emitted. |
| NativeEngine.Endpoint.EnsureEndpoint | android/app/src/main/cpp/voip_engine.cpp:92-147 | Returns true immediately once initialised; otherwise runs setup, and the flag is set exactly when every step succeeds. |
| NativeEngine.Endpoint.NativeInit | android/app/src/main/cpp/voip_engine.cpp:149-153 | Binds the engine class and returns whether the endpoint is ready. |
| NativeEngine.Endpoint.NativeRegister | android/app/src/main/cpp/voip_engine.cpp:155-206 | Fails when the endpoint is not ready; otherwise deletes any old account, adds the new one with a proxy only when non-empty, and succeeds exactly when the add does. |
| NativeEngine.Endpoint.NativeUnregister | android/app/src/main/cpp/voip_engine.cpp:208-216 | Deletes the account, if any, and forgets it. |
| NativeEngine.Endpoint.NativeMakeCall | android/app/src/main/cpp/voip_engine.cpp:218-232 | Fails without a ready endpoint or an account; otherwise places a call to `sip:` plus the number. |
| NativeEngine.Endpoint.Emit | android/app/src/main/cpp/voip_engine.cpp:43-60 | An event reaches Java only when the engine class is bound. |
| NativeEngine.Endpoint.OnIncomingCall | android/app/src/main/cpp/voip_engine.cpp:62-73 | Answers 180 Ringing and emits `incoming_call` with the call id. |
| NativeEngine.Endpoint.OnCallState | android/app/src/main/cpp/voip_engine.cpp:75-84 | Emits exactly the event the call-state mapping gives. |
| NativeEngine.Endpoint.OnRegState | android/app/src/main/cpp/voip_engine.cpp:86-90 | When the account is readable, emits `registration` with its status text or `""`; otherwise nothing. |
| WakeLocks.NotReferenceCounted | android/app/src/main/kotlin/fr/celya/celyavox/WakeLockManager.kt:43-52 | However many acquires precede it, one release frees the platform lock. |
| WakeLocks.AcquireIdempotent | android/app/src/main/kotlin/fr/celya/celyavox/WakeLockManager.kt:37-38 | Acquiring a held lock changes nothing. |
| WakeLocks.AcquireTracked | android/app/src/main/kotlin/fr/celya/celyavox/WakeLockManager.kt:37-48 | After an acquire the field tracks the lock the platform holds, and the other lock is untouched. |
| WakeLocks.ReleaseAfterAcquires | android/app/src/main/kotlin/fr/celya/celyavox/WakeLockManager.kt:50-59 | After any run of acquires, a release leaves neither the field nor the platform holding the lock. |
| WakeLocks.FailedReleaseLeaks | android/app/src/main/kotlin/fr/celya/celyavox/WakeLockManager.kt:50-59 | A release whose platform call throws still clears the field; the failure is swallowed. |
| WakeLocks.WakeLockManager.constructor | android/app/src/main/kotlin/fr/celya/celyavox/WakeLockManager.kt:21-25 | No lock is held. |
| WakeLocks.WakeLockManager.Acquire | android/app/src/main/kotlin/fr/celya/celyavox/WakeLockManager.kt:27-30 | CPU lock first, then Wi-Fi lock. |
| WakeLocks.WakeLockManager.Release | android/app/src/main/kotlin/fr/celya/celyavox/WakeLockManager.kt:32-35 | CPU lock first, then Wi-Fi lock. |
| WakeLocks.WakeLockManager.AcquireCpu | android/app/src/main/kotlin/fr/celya/celyavox/WakeLockManager.kt:37-48 | The CPU lock follows the acquire step. |
| WakeLocks.WakeLockManager.ReleaseCpu | android/app/src/main/kotlin/fr/celya/celyavox/WakeLockManager.kt:50-59 | The CPU lock follows the release step. |
| WakeLocks.WakeLockManager.AcquireWifi | android/app/src/main/kotlin/fr/celya/celyavox/WakeLockManager.kt:61-72 | The Wi-Fi lock follows the acquire step. |
| WakeLocks.WakeLockManager.ReleaseWifi | android/app/src/main/kotlin/fr/celya/celyavox/WakeLockManager.kt:74-83 | The Wi-Fi lock follows the release step. |
| SipAccounts.RegistrationNoticeCases | android/app/src/main/kotlin/fr/celya/celyavox/SipAccountManager.kt:55-65 | Only `registration` events notify: a message containing `200` means registered, any other means failure with that message. |
| SipAccounts.SipAccountManager.constructor | android/app/src/main/kotlin/fr/celya/celyavox/SipAccountManager.kt:10-20 | No stored account and no notices. |
| SipAccounts.SipAccountManager.Register | android/app/src/main/kotlin/fr/celya/celyavox/SipAccountManager.kt:22-36 | Returns the native register result; success stores the account and notifies registered, failure notifies failure and keeps the old account. |
| SipAccounts.SipAccountManager.Unregister | android/app/src/main/kotlin/fr/celya/celyavox/SipAccountManager.kt:38-42 | The stored account is cleared and the listener told. |
| SipAccounts.SipAccountManager.ReRegister | android/app/src/main/kotlin/fr/celya/celyavox/SipAccountManager.kt:47-50 | False with no native call when no account is stored; otherwise registers the stored account again. |
| SipAccounts.SipAccountManager.HandleNativeEvent | android/app/src/main/kotlin/fr/celya/celyavox/SipAccountManager.kt:55-65 | Notifies as the registration-notice rule says; the stored account is unchanged. |
| MethodChannel.RequireArgument | android/app/src/main/kotlin/fr/celya/celyavox/VoipMethodChannel.kt:87-90 | The argument when present; otherwise an error naming the missing key. |
| MethodChannel.FirstMissing | android/app/src/main/kotlin/fr/celya/celyavox/VoipMethodChannel.kt:87-90 | None exactly when every required key is present; otherwise a missing one. |
| MethodChannel.MissingArgumentIssuesNothing | android/app/src/main/kotlin/fr/celya/celyavox/VoipMethodChannel.kt:29-32 | A missing required argument yields an `ARGUMENT` error and no engine command. |
| MethodChannel.CommandIssuedIff | android/app/src/main/kotlin/fr/celya/celyavox/VoipMethodChannel.kt:22-79 | An engine command is issued exactly for a known method with all its arguments, and, for `registerProvisioned`, complete credentials. |
| MethodChannel.RegisterArguments | android/app/src/main/kotlin/fr/celya/celyavox/VoipMethodChannel.kt:29-36 | `register` passes its arguments, with proxy `""` when absent, and replies success. |
| MethodChannel.RegisterProvisionedGuard | android/app/src/main/kotlin/fr/celya/celyavox/VoipMethodChannel.kt:37-48 | A blank username, password or domain yields a `PROVISIONING` error and no register. |
| MethodChannel.MakeCallReply | android/app/src/main/kotlin/fr/celya/celyavox/VoipMethodChannel.kt:53-61 | `makeCall` replies a `CALL` error exactly when starting the call returns false. |
| MethodChannel.AcceptAndHangupIgnoreResult | android/app/src/main/kotlin/fr/celya/celyavox/VoipMethodChannel.kt:62-71 | `acceptCall` and `hangupCall` reply success whatever the engine returns. |
| MethodChannel.ReplyUnlessEscaped | android/app/src/main/kotlin/fr/celya/celyavox/VoipMethodChannel.kt:22-79 | Flutter gets no reply exactly when a command was issued and the engine threw an `Error`, which neither catch clause takes. |
| MethodChannel.ViaNative | android/app/src/main/kotlin/fr/celya/celyavox/PjsipEngine.kt:65-69 | A native throw reaching the channel through `register` or `makeCall` is an escaping `Error`; a returned value passes through. |
| MethodChannel.MissingLibraryLeavesUnanswered | android/app/src/main/kotlin/fr/celya/celyavox/VoipMethodChannel.kt:29-61 | Without the native library, `register`, `registerProvisioned` and `makeCall` issue their command and send no reply. |
| MethodChannel.UnknownAndThrown | android/app/src/main/kotlin/fr/celya/celyavox/VoipMethodChannel.kt:72-78 | An unknown method is not implemented; a thrown exception yields `ERROR` with its message or `Unknown error`. |
| ExampleMethodChannel.MissingArgumentIssuesNothing | android/app/src/main/kotlin/com/example/voip/VoipMethodChannel.kt:36-54 | A missing `callee` or `callId` yields an `ARGUMENT` error and no command. |
| ExampleMethodChannel.StubsSucceedSilently | android/app/src/main/kotlin/com/example/voip/VoipMethodChannel.kt:28-45 | `register`, `unregister` and `acceptCall` reply success and issue nothing. |
| ExampleMethodChannel.MakeCallIgnoresResult | android/app/src/main/kotlin/com/example/voip/VoipMethodChannel.kt:36-50 | `makeCall` replies success even when starting fails, unlike the later channel; `hangupCall` ends the call. |
| ExampleMethodChannel.AgreesWithLaterChannel | android/app/src/main/kotlin/com/example/voip/VoipMethodChannel.kt:21-58 | Unknown methods are not implemented; every command issued is the one the later channel issues for the same call, and a throw gets the same reply: the same error for an `Exception`, none for an escaping `Error`. |
| Push.Fields | android/app/src/main/kotlin/fr/celya/celyavox/VoipFirebaseService.kt:20-22 | Type defaults to `unknown`, call id and caller id to `""`; present values are taken as they are. |
| Push.OnlyIncomingCallActs | android/app/src/main/kotlin/fr/celya/celyavox/VoipFirebaseService.kt:13-32 | A push acts exactly when its type is `incoming_call`; empty data does nothing. |
| Push.IncomingCallOrder | android/app/src/main/kotlin/fr/celya/celyavox/VoipFirebaseService.kt:34-45 | Foreground service, then Telecom, then the call activity, then SIP registration; the activity is launched even when Telecom throws. |
| Push.IncomingCallPushOrder | android/app/src/main/kotlin/fr/celya/celyavox/VoipFirebaseService.kt:28-31 | An incoming-call push carries out that order with the push's fields. |
| Push.RegisterSipInBackground | android/app/src/main/kotlin/fr/celya/celyavox/VoipFirebaseService.kt:62-80 | Registration is attempted exactly when username, password and domain are non-blank, with proxy `""` when absent. A native throw escapes the thread's `catch (e: Exception)` exactly when registration was attempted and the native register threw; without the library it always does. |
| Push.TokenRefresh.constructor | android/app/src/main/kotlin/fr/celya/celyavox/VoipFirebaseService.kt:11 | No token stored, nothing broadcast. |
| Push.TokenRefresh.OnNewToken | android/app/src/main/kotlin/fr/celya/celyavox/VoipFirebaseService.kt:82-89 | The token is saved before it is broadcast. |
| ProvisioningConfig.Config.Get | android/app/src/main/java/com/celya/voip/provisioning/ProvisioningXmlParser.kt:7-9 | The mapped value, or none for an absent key. |
| ProvisioningConfig.LastEntryWins | android/app/src/main/java/com/celya/voip/provisioning/ProvisioningXmlParser.kt:23 | A key is mapped exactly when some entry has it, and for duplicates the last entry's value wins. |
| ProvisioningConfig.GetLastAppended | android/app/src/main/java/com/celya/voip/provisioning/ProvisioningXmlParser.kt:23 | Storing an entry makes its key read back its value and leaves every other key alone. |
| PullParser.SkipToEntryEnd | android/app/src/main/java/com/celya/voip/provisioning/ProvisioningXmlParser.kt:37-39 | The position found is within the document. |
| PullParser.SkipFindsFirstEntryEnd | android/app/src/main/java/com/celya/voip/provisioning/ProvisioningXmlParser.kt:37-39 | It is the first `entry` end tag at or after the start. |
| PullParser.EntryValue | android/app/src/main/java/com/celya/voip/provisioning/ProvisioningXmlParser.kt:30-41 | The entry read ends after its start. |
| PullParser.EntryValueReads | android/app/src/main/java/com/celya/voip/provisioning/ProvisioningXmlParser.kt:30-36 | The value is the trimmed text only when the very next event is text, and `""` otherwise. |
| PullParser.CollectFrom | android/app/src/main/java/com/celya/voip/provisioning/ProvisioningXmlParser.kt:19-26 | Collection stops at the end of the document. |
| PullParser.ReadEntryValue | android/app/src/main/java/com/celya/voip/provisioning/ProvisioningXmlParser.kt:30-41 | The loop computes the specified entry read. |
| PullParser.ParseEvents | android/app/src/main/java/com/celya/voip/provisioning/ProvisioningXmlParser.kt:12-28 | The loop computes the specified parse. |
| PullParser.RenderParseRoundTrip | android/app/src/main/java/com/celya/voip/provisioning/ProvisioningXmlParser.kt:12-41 | Parsing a document of trimmed entries gives the map of those entries, whatever follows the end of the document. |
| PullParser.ParseFramed | android/app/src/main/java/com/celya/voip/provisioning/ProvisioningXmlParser.kt:19-25 | Parsing stops at END_DOCUMENT. |
| PullParser.WalkSteps | android/app/src/main/java/com/celya/voip/provisioning/ProvisioningXmlParser.kt:19-24 | Non-entry events are skipped, an entry contributes one mapping, and a missing name maps under `""`. |
| SaxParser.RunAppend | ios/Runner/Provisioning/ProvisioningXmlParser.swift:13-19 | Delegate callbacks compose: running two event runs equals running their concatenation. |
| SaxParser.TextAccumulates | ios/Runner/Provisioning/ProvisioningXmlParser.swift:28-30 | Character data is appended unconditionally. |
| SaxParser.EntryStoresAllText | ios/Runner/Provisioning/ProvisioningXmlParser.swift:21-39 | An entry stores all the text since it opened, trimmed, under its name or `""`, then resets key and value. |
| SaxParser.OtherCloseStoresNothing | ios/Runner/Provisioning/ProvisioningXmlParser.swift:33 | Closing a non-entry element stores nothing. |
| SaxParser.TrimAll | ios/Runner/Provisioning/ProvisioningXmlParser.swift:35 | Trimming keeps the number of entries. |
| SaxParser.RenderedEntries | ios/Runner/Provisioning/ProvisioningXmlParser.swift:13-39 | A document of entries yields the map of their trimmed values, the last duplicate winning. |
| SaxParser.ParsersAgree | ios/Runner/Provisioning/ProvisioningXmlParser.swift:13-19 | On documents of trimmed entries the SAX parser and the pull parser give the same map. |
| SaxParser.ProvisioningXmlParser.constructor | ios/Runner/Provisioning/ProvisioningXmlParser.swift:9-11 | No entries, no current key, empty value. |
| SaxParser.ProvisioningXmlParser.DidStart | ios/Runner/Provisioning/ProvisioningXmlParser.swift:21-26 | Opening an entry sets the key from `name` and resets the value; other elements change nothing. |
| SaxParser.ProvisioningXmlParser.Found | ios/Runner/Provisioning/ProvisioningXmlParser.swift:28-30 | The text is appended to the value. |
| SaxParser.ProvisioningXmlParser.DidEnd | ios/Runner/Provisioning/ProvisioningXmlParser.swift:32-39 | Closing an entry stores the trimmed value and resets key and value. |
| SaxParser.ProvisioningXmlParser.Parse | ios/Runner/Provisioning/ProvisioningXmlParser.swift:13-19 | Entries are cleared, then the events run through the delegate; the result is the collected map. |
| AndroidProvisioning.Stores.ProvisioningDump | android/app/src/main/java/com/celya/voip/provisioning/ProvisioningManager.kt:100-110 | The dump with the secure values overlaid on it. |
| AndroidProvisioning.FirstNonBlankIsFirst | android/app/src/main/java/com/celya/voip/provisioning/ProvisioningManager.kt:129-135 | A value is found exactly when some alias has a non-blank value, and it is the first such alias's. |
| AndroidProvisioning.GetAny | android/app/src/main/java/com/celya/voip/provisioning/ProvisioningManager.kt:129-135 | The loop returns the first non-blank alias value. |
| AndroidProvisioning.NonSensitive | android/app/src/main/java/com/celya/voip/provisioning/ProvisioningManager.kt:148-160 | Every entry except the four sensitive keys, unchanged. |
| AndroidProvisioning.StoreSeparatesSecrets | android/app/src/main/java/com/celya/voip/provisioning/ProvisioningManager.kt:65-74 | No secret reaches the plain prefs or the dump; secrets go only to secure storage. |
| AndroidProvisioning.StoreWrites | android/app/src/main/java/com/celya/voip/provisioning/ProvisioningManager.kt:65-74 | Username, domain and proxy go to prefs through their aliases when found; a missing value leaves the old one. |
| AndroidProvisioning.DumpAfterStore | android/app/src/main/java/com/celya/voip/provisioning/ProvisioningManager.kt:72-73 | After storing, the dump holds the non-sensitive entries with the secure values overlaid. |
| AndroidProvisioning.WssPort | android/app/src/main/java/com/celya/voip/provisioning/ProvisioningManager.kt:80 | The port is a 32-bit integer. |
| AndroidProvisioning.WssPortCases | android/app/src/main/java/com/celya/voip/provisioning/ProvisioningManager.kt:80 | 443 when `sip_wss_port` is absent or not a 32-bit integer; otherwise its value. |
| AndroidProvisioning.ResetForgets | android/app/src/main/java/com/celya/voip/provisioning/ProvisioningManager.kt:112-121 | Reset removes the five pref keys and clears secure storage, so the app is not provisioned. |
| AndroidProvisioning.ProvisioningManager.constructor | android/app/src/main/java/com/celya/voip/provisioning/ProvisioningManager.kt:13-19 | The stores are as given. |
| AndroidProvisioning.ProvisioningManager.Store | android/app/src/main/java/com/celya/voip/provisioning/ProvisioningManager.kt:65-74 | The stores become the result of the store step. |
| AndroidProvisioning.ProvisioningManager.ConfigureSip | android/app/src/main/java/com/celya/voip/provisioning/ProvisioningManager.kt:76-86 | Nothing without username, password and domain; otherwise the account is configured with the port rule; a missing stack is swallowed. |
| AndroidProvisioning.ProvisioningManager.Start | android/app/src/main/java/com/celya/voip/provisioning/ProvisioningManager.kt:21-63 | Throws, changing nothing, on an unreachable server, a non-2xx status or a bad document; otherwise stores, configures and only then sets the provisioned flag. |
| AndroidProvisioning.ProvisioningManager.ResetProvisioning | android/app/src/main/java/com/celya/voip/provisioning/ProvisioningManager.kt:112-121 | The stores become the reset step's result, and the app is not provisioned. |
| IosProvisioning.SavedEntries | ios/Runner/Provisioning/ProvisioningManager.swift:45-49 | Saving writes exactly the listed keys present in the config, and keeps every other keychain entry. |
| IosProvisioning.FirstRefused | ios/Runner/Provisioning/ProvisioningManager.swift:45-49 | The first stored key the keychain refuses, if any. |
| IosProvisioning.WssPort | ios/Runner/Provisioning/ProvisioningManager.swift:57 | The port is a 64-bit integer. |
| IosProvisioning.WssPortCases | ios/Runner/Provisioning/ProvisioningManager.swift:57 | 443 when `sip_wss_port` is absent or not an integer; otherwise its value. |
| IosProvisioning.Credentials | ios/Runner/Provisioning/ProvisioningManager.swift:51-56 | Present exactly when the three exact keys are, with their values; no aliases. |
| IosProvisioning.EmptyUsernameAccepted | ios/Runner/Provisioning/ProvisioningManager.swift:51-56 | An empty but present username is accepted, where the Android alias lookup rejects it. |
| IosProvisioning.ProvisioningManager.constructor | ios/Runner/Provisioning/ProvisioningManager.swift:9-19 | Empty keychain, not provisioned, no accounts. |
| IosProvisioning.ProvisioningManager.Store | ios/Runner/Provisioning/ProvisioningManager.swift:45-49 | Keys are saved in order up to the first refusal, which is returned. The refused item is deleted before its add fails, so it is missing from the keychain afterwards. |
| IosProvisioning.ProvisioningManager.ConfigureSip | ios/Runner/Provisioning/ProvisioningManager.swift:51-60 | Error -2 without the three keys, a stack error without PJSIP, otherwise the account is added. |
| IosProvisioning.ProvisioningManager.Complete | ios/Runner/Provisioning/ProvisioningManager.swift:21-43 | Transport error and missing data fail first; success exactly when store and configure succeed, and only success sets the flag. |
| SipStack.SipAccountManager.constructor | android/app/src/main/java/com/celya/voip/sip/SipAccountManager.kt:5-7 | Not initialised; no configuration handed to the adapter yet. |
| SipStack.SipAccountManager.InitializePjsip | android/app/src/main/java/com/celya/voip/sip/SipAccountManager.kt:9-13 | Does nothing once initialised; otherwise sets the flag only when the adapter does not throw. |
| SipStack.SipAccountManager.ConfigureAccount | android/app/src/main/java/com/celya/voip/sip/SipAccountManager.kt:15-29 | Initialises first, then hands the adapter's `createAccount` the four fields unchanged; a missing stack throws. The adapter creates no account: the log records what it accepted. |
| SipStack.SipAccountManager.CreateAccount | android/app/src/main/java/com/celya/voip/sip/SipAccountManager.kt:52-57 | The adapter throws exactly when PJSIP is absent, and otherwise only accepts the configuration. |
| LegacyTelecom.CreationStates | android/app/src/main/java/com/celya/voip/telecom/TelecomConnectionService.kt:30-34 | Initializing then Active, in that order. |
| LegacyTelecom.CreationEndState | android/app/src/main/java/com/celya/voip/telecom/TelecomConnectionService.kt:30-34 | Incoming ends Ringing and outgoing ends Active; Ringing occurs exactly for incoming. |
| LegacyTelecom.CreateVoipConnection | android/app/src/main/java/com/celya/voip/telecom/TelecomConnectionService.kt:26-39 | Self-managed, the request's address or the empty URI, the creation states, the direction in the extras. |
| LegacyTelecom.OnCreateIncomingConnection | android/app/src/main/java/com/celya/voip/telecom/TelecomConnectionService.kt:12-17 | An incoming connection left Ringing. |
| LegacyTelecom.OnCreateOutgoingConnection | android/app/src/main/java/com/celya/voip/telecom/TelecomConnectionService.kt:19-24 | An outgoing connection left Active. |
| LegacyTelecom.VoipConnection.constructor | android/app/src/main/java/com/celya/voip/telecom/TelecomConnectionService.kt:41 | A bare connection in state NEW. |
| LegacyTelecom.VoipConnection.OnAnswer | android/app/src/main/java/com/celya/voip/telecom/TelecomConnectionService.kt:42-44 | Answer sets Active. |
| LegacyTelecom.VoipConnection.OnDisconnect | android/app/src/main/java/com/celya/voip/telecom/TelecomConnectionService.kt:46-49 | LOCAL, then destroyed. |
| LegacyTelecom.VoipConnection.OnReject | android/app/src/main/java/com/celya/voip/telecom/TelecomConnectionService.kt:51-54 | REJECTED, then destroyed. |
| ExampleConnections.VoipConnection.constructor | android/app/src/main/kotlin/com/example/voip/VoipConnection.kt:12-22 | Self-managed and Initializing; a caller name only when non-empty. |
| ExampleConnections.VoipConnection.OnAnswer | android/app/src/main/kotlin/com/example/voip/VoipConnection.kt:24-26 | Active. |
| ExampleConnections.VoipConnection.OnReject | android/app/src/main/kotlin/com/example/voip/VoipConnection.kt:28-31 | REJECTED, then destroyed. |
| ExampleConnections.VoipConnection.OnDisconnect | android/app/src/main/kotlin/com/example/voip/VoipConnection.kt:33-36 | LOCAL, then destroyed. |
| ExampleConnections.VoipConnection.OnAbort | android/app/src/main/kotlin/com/example/voip/VoipConnection.kt:38-41 | CANCELED, then destroyed. |
| ExampleConnections.VoipConnection.MarkRinging | android/app/src/main/kotlin/com/example/voip/VoipConnection.kt:43-45 | Ringing. |
| ExampleConnections.VoipConnection.MarkDialing | android/app/src/main/kotlin/com/example/voip/VoipConnection.kt:47-49 | Dialing. |
| ExamplePjsip.PjsipEngine.constructor | android/app/src/main/kotlin/com/example/voip/PjsipEngine.kt:12-34 | Uninitialised, no callback, no native call. |
| ExamplePjsip.PjsipEngine.HandleNativeEvent | android/app/src/main/kotlin/com/example/voip/PjsipEngine.kt:28-31 | Forwards to the current callback only. |
| ExamplePjsip.PjsipEngine.SetCallback | android/app/src/main/kotlin/com/example/voip/PjsipEngine.kt:36-38 | Replaces the callback. |
| ExamplePjsip.PjsipEngine.Init | android/app/src/main/kotlin/com/example/voip/PjsipEngine.kt:41-46 | True without a native call once initialised; otherwise the native result, stored; a throw reaches the caller. |
| ExamplePjsip.PjsipEngine.Register | android/app/src/main/kotlin/com/example/voip/PjsipEngine.kt:49-52 | Tries init first, then calls native regardless. |
| ExamplePjsip.PjsipEngine.Unregister | android/app/src/main/kotlin/com/example/voip/PjsipEngine.kt:55-58 | A no-op when not initialised. |
| ExamplePjsip.PjsipEngine.MakeCall | android/app/src/main/kotlin/com/example/voip/PjsipEngine.kt:61-64 | Tries init first, then calls native regardless. |
| ExamplePjsip.PjsipEngine.AcceptCall | android/app/src/main/kotlin/com/example/voip/PjsipEngine.kt:67-70 | False without a native call when not initialised. |
| ExamplePjsip.PjsipEngine.HangupCall | android/app/src/main/kotlin/com/example/voip/PjsipEngine.kt:73-76 | False without a native call when not initialised. |
| Text.SkipLeading | android/app/src/main/java/com/celya/voip/provisioning/ProvisioningXmlParser.kt:34 | The first position from which the input does not hold whitespace: everything skipped is whitespace and the character there is not. |
| Text.SkipTrailing | android/app/src/main/java/com/celya/voip/provisioning/ProvisioningXmlParser.kt:34 | The end of the text once trailing whitespace is dropped: everything dropped is whitespace and the last character kept is not. |
| Text.TrimIsSlice | android/app/src/main/java/com/celya/voip/provisioning/ProvisioningXmlParser.kt:34 | The trimmed string is a slice of the input with only whitespace outside it. |
| Text.TrimHasNoOuterWhitespace | ios/Runner/Provisioning/ProvisioningXmlParser.swift:35 | A trimmed string neither starts nor ends with whitespace. |
| Text.TrimFixesUnpadded | ios/Runner/Provisioning/ProvisioningXmlParser.swift:35 | Trimming leaves a string unchanged exactly when it has no outer whitespace. |
| Text.BlankIffTrimsToEmpty | android/app/src/main/java/com/celya/voip/provisioning/ProvisioningManager.kt:129-135 | A string is blank exactly when it trims to empty. |
| Text.TrimIdempotent | ios/Runner/Provisioning/ProvisioningXmlParser.swift:35 | Trimming twice is trimming once. |
| Text.DigitChar | android/app/src/main/cpp/voip_engine.cpp:75-84 | A decimal digit with the given value. |
| Text.NatToDecimal | android/app/src/main/cpp/voip_engine.cpp:75-84 | A non-empty digit string without a leading zero. |
| Text.IntToDecimal | android/app/src/main/cpp/voip_engine.cpp:75-84 | A non-empty decimal rendering. |
| Text.NatToDecimalValue | android/app/src/main/cpp/voip_engine.cpp:75-84 | The rendered digits denote the number. |
| Text.ParseInt | android/app/src/main/java/com/celya/voip/provisioning/ProvisioningManager.kt:80 | A parsed value lies in the integer range asked for. |
| Text.DecimalRoundTrip | android/app/src/main/java/com/celya/voip/provisioning/ProvisioningManager.kt:80 | Parsing the rendering of an in-range integer gives it back. |
| Text.DecimalInjective | android/app/src/main/cpp/voip_engine.cpp:75-84 | Distinct call ids render as distinct strings. |

## Left out

- JNI, pjsua and platform internals (thread attach, `pjsua_*` calls, ringtone, vibrator, audio focus, `TelecomManager`, `RoleManager`): these are foreign calls. Each appears only as an oracle outcome or a recorded request.
- Concurrency (`@Synchronized`, `@Volatile`, `AtomicBoolean`, `ConcurrentHashMap`, `std::mutex`, main-thread posts, the background `Thread` of the push service): everything is modelled sequentially.
- Network I/O: the Android download is a `Download` value (reachable with a status code and an event stream, or unreachable). Timeouts, redirects and the error body are not modelled. The iOS `URLSession` task is a `Response` value handed to the completion.
- JSON: the provisioning dump is held as a map, not as the JSON text that `toJson`/`fromJson` produce.
- Byte decoding: the XML parsers start from the parser's event stream, not from the bytes.
- `nativeAcceptCall` and `nativeHangupCall` in `voip_engine.cpp`, and the `atoi` parsing of call ids: their results are oracle outcomes in `Pjsip.PjsipEngine`. `nativeRefreshAudio` and `nativeSendDtmf` have no native body, so reaching either throws `UnsatisfiedLinkError`. The model keeps them as oracle outcomes. For the refresh, `Coordinator.ConnectedEventLostWhenRefreshThrows` states what the throwing outcome does to `call_connected`.
- `VoipEngine.initialize`, `bindEventChannel`, device monitoring and broadcast-receiver registration: plumbing. The model has a `hasContext` flag in their place.
- `VoipEngine.kt:331`: a second `isVisible` test that cannot succeed sequentially, because the earlier branch returned. The model omits it.
- `VoipEngine` `register`/`unregister`/`startCall`/`acceptCall`/`refreshAudio`/`sendDtmf`: one-line forwards to `PjsipEngine`, which is modelled.
- `unregisterSelfManaged` and the `onCreate…ConnectionFailed` callbacks: they only log or forward to the platform.
- Storage wrappers (`SecureStorage.kt`, `SecureStorage.swift`, `FcmTokenStore.kt`): these are key/value maps. `ProvisioningManager.kt:120` calls a `clearAll` that `SecureStorage.kt` does not declare; the model clears the secure map.
- Keychain reads on iOS are not modelled. A failing keychain write is the `refused` key set.
- `ios/Runner/SIP/SipAccountManager.swift` is not part of this model. Its availability is the `pjsipAvailable` flag and its accounts are a log.
- The Swift completion's `guard let self else { return }`: when the manager is gone before the download ends, the completion is never called. `IosProvisioning.ProvisioningManager.Complete` assumes the manager is alive.
- The `dispose()` of both `VoipMethodChannel`s: each removes the method-call handler and calls `VoipEngine.dispose`, which is modelled as `Coordinator.VoipEngine.Dispose`. Removing the handler is platform plumbing.
- UI activities, notifications and foreground services: the model records the requests to start them and nothing more.
- Text.IsWhitespace: ASCII whitespace only (space, tab, line feed, carriage return, vertical tab, form feed). Kotlin `Char.isWhitespace`, which `trim` and `isBlank` use, also takes the ASCII separators U+001C, U+001D, U+001E and U+001F, so Kotlin differs from the model on them even in ASCII text. Kotlin `trim` and Swift `.whitespacesAndNewlines` also strip Unicode spaces.
- Text.ParseInt: an optional `+` or `-` and ASCII decimal digits, bounded to the range asked for: 32-bit for Kotlin `toIntOrNull`, 64-bit for Swift `Int(_:)`. Non-ASCII digits are not modelled.
- AndroidProvisioning.ProvisioningManager.Start: a missing PJSIP class is the only SIP-layer failure modelled, and it is swallowed as in `configureSip`. Other exceptions from `store` or `configureSip` are not modelled.
- Coordinator.VoipEngine.OnTokenFetched: the wall-clock `updatedAt` is a parameter, and the token-fetch failure listener only logs.
- Push.TokenRefresh.OnNewToken: the broadcast is a recorded effect; its intent action and extras are not modelled.
