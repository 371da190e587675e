/**
 * The Kotlin face of the native SIP engine (current revision): an
 * `initialized` flag gating the native entry points, a library-loaded flag
 * fixed when the class is loaded, and a single replaceable event callback.
 */
module Pjsip {
  import opened Wrappers

  /**
   * What a native entry point does when reached: return a value, or throw.
   * The native code raises no Java exception, so a throw is a `java.lang.Error`
   * (`UnsatisfiedLinkError` without the library), which `catch (e: Exception)`
   * does not take.
   */
  datatype NativeOutcome = Returned(value: bool) | Threw

  /** Native entry points, as the engine calls them. */
  datatype NativeCall =
    | NativeInit
    | NativeRegister(username: string, password: string, domain: string, proxy: string)
    | NativeUnregister
    | NativeMakeCall(number: string)
    | NativeAcceptCall(callId: string)
    | NativeHangupCall(callId: string)
    | NativeRefreshAudio
    | NativeSendDtmf(callId: string, digits: string)

  /** An event handed to a callback; listeners are told apart by an id. */
  datatype Delivery = Delivery(listener: nat, eventType: string, message: string)

  /**
   * Reaching a native entry point: without the loaded library every one of them
   * throws (`UnsatisfiedLinkError`) whatever the native code would have done.
   */
  function Reach(libraryLoaded: bool, native: NativeOutcome): NativeOutcome {
    if libraryLoaded then native else Threw
  }

  /** `true` exactly when a native call returned `true`; a throw counts as `false`. */
  predicate Succeeded(o: NativeOutcome) {
    o == Returned(true)
  }

  class PjsipEngine {
    /** Whether `System.loadLibrary("voip_engine")` succeeded when the class was loaded. */
    const libraryLoaded: bool
    var initialized: bool
    var callback: Option<nat>
    /** Native entry points invoked, oldest first (a call that throws is still listed). */
    var nativeCalls: seq<NativeCall>
    /** Events handed to callbacks, oldest first. */
    var delivered: seq<Delivery>

    /** The engine is only ever initialised with the library present. */
    predicate Valid()
      reads this
    {
      initialized ==> libraryLoaded
    }

    constructor (libraryLoaded: bool)
      ensures this.libraryLoaded == libraryLoaded && Valid()
      ensures !initialized && callback == None && nativeCalls == [] && delivered == []
    {
      this.libraryLoaded := libraryLoaded;
      initialized := false;
      callback := None;
      nativeCalls := [];
      delivered := [];
    }

    /** `handleNativeEvent`: the current callback, if any, receives the event. */
    method HandleNativeEvent(eventType: string, message: string)
      modifies this
      ensures delivered == old(delivered) + (if callback.Some? then [Delivery(callback.value, eventType, message)] else [])
      ensures callback == old(callback) && initialized == old(initialized) && nativeCalls == old(nativeCalls)
    {
      if callback.Some? {
        delivered := delivered + [Delivery(callback.value, eventType, message)];
      }
    }

    /** `setCallback`: replaces the callback; `None` stops delivery. */
    method SetCallback(cb: Option<nat>)
      modifies this
      ensures callback == cb
      ensures delivered == old(delivered) && initialized == old(initialized) && nativeCalls == old(nativeCalls)
    {
      callback := cb;
    }

    /**
     * `init`: false without the library; true without a native call once
     * initialised; otherwise the native result (a throw counting as false)
     * becomes the new flag.
     */
    method Init(native: NativeOutcome) returns (ok: bool)
      requires Valid()
      modifies this
      ensures Valid()
      ensures !libraryLoaded ==> !ok && initialized == old(initialized) && nativeCalls == old(nativeCalls)
      ensures libraryLoaded && old(initialized) ==> ok && initialized && nativeCalls == old(nativeCalls)
      ensures libraryLoaded && !old(initialized) ==>
        ok == Succeeded(native) && initialized == ok && nativeCalls == old(nativeCalls) + [NativeInit]
      ensures callback == old(callback) && delivered == old(delivered)
    {
      if !libraryLoaded {
        return false;
      }
      if initialized {
        return true;
      }
      nativeCalls := nativeCalls + [NativeInit];
      ok := Succeeded(native);
      initialized := ok;
    }

    /** The `if (!initialized.get()) init()` step shared by register, makeCall and refreshAudio. */
    method EnsureInit(native: NativeOutcome)
      requires Valid()
      modifies this
      ensures Valid()
      ensures initialized == (old(initialized) || (libraryLoaded && Succeeded(native)))
      ensures nativeCalls == old(nativeCalls) + (if !old(initialized) && libraryLoaded then [NativeInit] else [])
      ensures callback == old(callback) && delivered == old(delivered)
    {
      if !initialized {
        var _ := Init(native);
      }
    }

    /**
     * `register`: tries `init` first, then reaches the native register whatever
     * `init` gave; its outcome, throw included, is the caller's.
     */
    method Register(username: string, password: string, domain: string, proxy: string,
                    nativeInit: NativeOutcome, native: NativeOutcome) returns (r: NativeOutcome)
      requires Valid()
      modifies this
      ensures Valid()
      ensures initialized == (old(initialized) || (libraryLoaded && Succeeded(nativeInit)))
      ensures nativeCalls == old(nativeCalls)
        + (if !old(initialized) && libraryLoaded then [NativeInit] else [])
        + [NativeRegister(username, password, domain, proxy)]
      ensures r == Reach(libraryLoaded, native)
      ensures callback == old(callback) && delivered == old(delivered)
    {
      EnsureInit(nativeInit);
      nativeCalls := nativeCalls + [NativeRegister(username, password, domain, proxy)];
      r := Reach(libraryLoaded, native);
    }

    /** `unregister`: ignored when not initialised. */
    method Unregister()
      requires Valid()
      modifies this
      ensures Valid() && initialized == old(initialized)
      ensures nativeCalls == old(nativeCalls) + (if initialized then [NativeUnregister] else [])
      ensures callback == old(callback) && delivered == old(delivered)
    {
      if !initialized {
        return;
      }
      nativeCalls := nativeCalls + [NativeUnregister];
    }

    /** `makeCall`: as `register`, for the native make-call. */
    method MakeCall(number: string, nativeInit: NativeOutcome, native: NativeOutcome) returns (r: NativeOutcome)
      requires Valid()
      modifies this
      ensures Valid()
      ensures initialized == (old(initialized) || (libraryLoaded && Succeeded(nativeInit)))
      ensures nativeCalls == old(nativeCalls)
        + (if !old(initialized) && libraryLoaded then [NativeInit] else [])
        + [NativeMakeCall(number)]
      ensures r == Reach(libraryLoaded, native)
      ensures callback == old(callback) && delivered == old(delivered)
    {
      EnsureInit(nativeInit);
      nativeCalls := nativeCalls + [NativeMakeCall(number)];
      r := Reach(libraryLoaded, native);
    }

    /** `refreshAudio`: as `register`, for the native audio refresh. */
    method RefreshAudio(nativeInit: NativeOutcome, native: NativeOutcome) returns (r: NativeOutcome)
      requires Valid()
      modifies this
      ensures Valid()
      ensures initialized == (old(initialized) || (libraryLoaded && Succeeded(nativeInit)))
      ensures nativeCalls == old(nativeCalls)
        + (if !old(initialized) && libraryLoaded then [NativeInit] else [])
        + [NativeRefreshAudio]
      ensures r == Reach(libraryLoaded, native)
      ensures callback == old(callback) && delivered == old(delivered)
    {
      EnsureInit(nativeInit);
      nativeCalls := nativeCalls + [NativeRefreshAudio];
      r := Reach(libraryLoaded, native);
    }

    /** `acceptCall`: false without a native call when not initialised; a native throw is caught as false. */
    method AcceptCall(callId: string, native: NativeOutcome) returns (ok: bool)
      requires Valid()
      modifies this
      ensures Valid() && initialized == old(initialized)
      ensures !initialized ==> !ok && nativeCalls == old(nativeCalls)
      ensures initialized ==> ok == Succeeded(native) && nativeCalls == old(nativeCalls) + [NativeAcceptCall(callId)]
      ensures callback == old(callback) && delivered == old(delivered)
    {
      if !initialized {
        return false;
      }
      nativeCalls := nativeCalls + [NativeAcceptCall(callId)];
      ok := Succeeded(Reach(libraryLoaded, native));
    }

    /** `hangupCall`: false without a native call when not initialised; otherwise the native outcome. */
    method HangupCall(callId: string, native: NativeOutcome) returns (r: NativeOutcome)
      requires Valid()
      modifies this
      ensures Valid() && initialized == old(initialized)
      ensures !initialized ==> r == Returned(false) && nativeCalls == old(nativeCalls)
      ensures initialized ==> r == native && nativeCalls == old(nativeCalls) + [NativeHangupCall(callId)]
      ensures callback == old(callback) && delivered == old(delivered)
    {
      if !initialized {
        return Returned(false);
      }
      nativeCalls := nativeCalls + [NativeHangupCall(callId)];
      r := Reach(libraryLoaded, native);
    }

    /** `sendDtmf`: as `hangupCall`, for the native DTMF entry point. */
    method SendDtmf(callId: string, digits: string, native: NativeOutcome) returns (r: NativeOutcome)
      requires Valid()
      modifies this
      ensures Valid() && initialized == old(initialized)
      ensures !initialized ==> r == Returned(false) && nativeCalls == old(nativeCalls)
      ensures initialized ==> r == native && nativeCalls == old(nativeCalls) + [NativeSendDtmf(callId, digits)]
      ensures callback == old(callback) && delivered == old(delivered)
    {
      if !initialized {
        return Returned(false);
      }
      nativeCalls := nativeCalls + [NativeSendDtmf(callId, digits)];
      r := Reach(libraryLoaded, native);
    }
  }
}
