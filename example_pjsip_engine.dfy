/**
 * The earliest Kotlin face of the native SIP engine: the same `initialized`
 * gate, but no library-loaded flag and no exception handling, so a native
 * throw (a missing library included) reaches the caller from every method.
 */
module ExamplePjsip {
  import opened Wrappers
  import opened Pjsip

  class PjsipEngine {
    /** Whether `System.loadLibrary("voip_engine")` succeeded; the engine never consults it. */
    const libraryLoaded: bool
    var initialized: bool
    var callback: Option<nat>
    var nativeCalls: seq<NativeCall>
    var delivered: seq<Delivery>

    predicate Valid()
      reads this
    {
      initialized ==> libraryLoaded
    }

    constructor (libraryLoaded: bool)
      ensures this.libraryLoaded == libraryLoaded && Valid()
      ensures !initialized && callback == None && nativeCalls == [] && delivered == []
    {
      this.libraryLoaded := libraryLoaded;
      initialized := false;
      callback := None;
      nativeCalls := [];
      delivered := [];
    }

    /** `handleNativeEvent`: the current callback, if any, receives the event. */
    method HandleNativeEvent(eventType: string, message: string)
      modifies this
      ensures delivered == old(delivered) + (if callback.Some? then [Delivery(callback.value, eventType, message)] else [])
      ensures callback == old(callback) && initialized == old(initialized) && nativeCalls == old(nativeCalls)
    {
      if callback.Some? {
        delivered := delivered + [Delivery(callback.value, eventType, message)];
      }
    }

    /** `setCallback`. */
    method SetCallback(cb: Option<nat>)
      modifies this
      ensures callback == cb
      ensures delivered == old(delivered) && initialized == old(initialized) && nativeCalls == old(nativeCalls)
    {
      callback := cb;
    }

    /**
     * `init`: true without a native call once initialised; otherwise the
     * native result becomes the flag, and a native throw propagates with the
     * flag left false.
     */
    method Init(native: NativeOutcome) returns (r: NativeOutcome)
      requires Valid()
      modifies this
      ensures Valid()
      ensures old(initialized) ==> r == Returned(true) && initialized && nativeCalls == old(nativeCalls)
      ensures !old(initialized) ==>
        && r == Reach(libraryLoaded, native) && nativeCalls == old(nativeCalls) + [NativeInit]
        && initialized == Succeeded(r)
      ensures callback == old(callback) && delivered == old(delivered)
    {
      if initialized {
        return Returned(true);
      }
      nativeCalls := nativeCalls + [NativeInit];
      r := Reach(libraryLoaded, native);
      initialized := Succeeded(r);
    }

    /**
     * `register`: tries `init` first and then calls native whatever `init`
     * returned; only a throwing `init` stops it before the native register.
     */
    method Register(username: string, password: string, domain: string, proxy: string,
                    nativeInit: NativeOutcome, native: NativeOutcome) returns (r: NativeOutcome)
      requires Valid()
      modifies this
      ensures Valid()
      ensures var initThrew := !old(initialized) && Reach(libraryLoaded, nativeInit) == Threw;
        && initialized == (old(initialized) || Succeeded(Reach(libraryLoaded, nativeInit)))
        && nativeCalls == old(nativeCalls)
          + (if old(initialized) then [] else [NativeInit])
          + (if initThrew then [] else [NativeRegister(username, password, domain, proxy)])
        && r == (if initThrew then Threw else Reach(libraryLoaded, native))
      ensures callback == old(callback) && delivered == old(delivered)
    {
      if !initialized {
        var i := Init(nativeInit);
        if i == Threw {
          return Threw;
        }
      }
      nativeCalls := nativeCalls + [NativeRegister(username, password, domain, proxy)];
      r := Reach(libraryLoaded, native);
    }

    /** `unregister`: a no-op when not initialised. */
    method Unregister()
      requires Valid()
      modifies this
      ensures Valid() && initialized == old(initialized)
      ensures nativeCalls == old(nativeCalls) + (if initialized then [NativeUnregister] else [])
      ensures callback == old(callback) && delivered == old(delivered)
    {
      if !initialized {
        return;
      }
      nativeCalls := nativeCalls + [NativeUnregister];
    }

    /** `makeCall`: as `register`, for the native make-call. */
    method MakeCall(number: string, nativeInit: NativeOutcome, native: NativeOutcome) returns (r: NativeOutcome)
      requires Valid()
      modifies this
      ensures Valid()
      ensures var initThrew := !old(initialized) && Reach(libraryLoaded, nativeInit) == Threw;
        && initialized == (old(initialized) || Succeeded(Reach(libraryLoaded, nativeInit)))
        && nativeCalls == old(nativeCalls)
          + (if old(initialized) then [] else [NativeInit])
          + (if initThrew then [] else [NativeMakeCall(number)])
        && r == (if initThrew then Threw else Reach(libraryLoaded, native))
      ensures callback == old(callback) && delivered == old(delivered)
    {
      if !initialized {
        var i := Init(nativeInit);
        if i == Threw {
          return Threw;
        }
      }
      nativeCalls := nativeCalls + [NativeMakeCall(number)];
      r := Reach(libraryLoaded, native);
    }

    /** `acceptCall`: false without a native call when not initialised; otherwise the native outcome. */
    method AcceptCall(callId: string, native: NativeOutcome) returns (r: NativeOutcome)
      requires Valid()
      modifies this
      ensures Valid() && initialized == old(initialized)
      ensures !initialized ==> r == Returned(false) && nativeCalls == old(nativeCalls)
      ensures initialized ==> r == native && nativeCalls == old(nativeCalls) + [NativeAcceptCall(callId)]
      ensures callback == old(callback) && delivered == old(delivered)
    {
      if !initialized {
        return Returned(false);
      }
      nativeCalls := nativeCalls + [NativeAcceptCall(callId)];
      r := Reach(libraryLoaded, native);
    }

    /** `hangupCall`: false without a native call when not initialised; otherwise the native outcome. */
    method HangupCall(callId: string, native: NativeOutcome) returns (r: NativeOutcome)
      requires Valid()
      modifies this
      ensures Valid() && initialized == old(initialized)
      ensures !initialized ==> r == Returned(false) && nativeCalls == old(nativeCalls)
      ensures initialized ==> r == native && nativeCalls == old(nativeCalls) + [NativeHangupCall(callId)]
      ensures callback == old(callback) && delivered == old(delivered)
    {
      if !initialized {
        return Returned(false);
      }
      nativeCalls := nativeCalls + [NativeHangupCall(callId)];
      r := Reach(libraryLoaded, native);
    }
  }
}
