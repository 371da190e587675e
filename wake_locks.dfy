/**
 * The CPU and Wi-Fi wake locks held during a call. Each lock is created
 * non-reference-counted, acquired only when the manager does not already hold
 * one, and forgotten on release even when the platform release throws.
 * Platform failures are outcome parameters; every lock object the manager
 * creates gets a serial number so that the platform's view can be tracked.
 */
module WakeLocks {
  import opened Wrappers

  datatype LockKind = Cpu | Wifi

  /** Platform calls on a lock object, identified by its kind and serial. */
  datatype LockCall = AcquireLock(kind: LockKind, serial: nat) | ReleaseLock(kind: LockKind, serial: nat)

  /**
   * Whether the platform holds lock `serial` of `kind` after `calls`. The locks
   * are not reference counted, so the last acquire or release of that lock decides.
   */
  function PlatformHolds(calls: seq<LockCall>, kind: LockKind, serial: nat): bool {
    if calls == [] then false
    else
      var last := calls[|calls| - 1];
      if last.kind == kind && last.serial == serial then last.AcquireLock?
      else PlatformHolds(calls[..|calls| - 1], kind, serial)
  }

  /** However many times a lock was acquired, one release frees it. */
  lemma NotReferenceCounted(calls: seq<LockCall>, kind: LockKind, serial: nat, n: nat)
    ensures !PlatformHolds(calls + Repeat(AcquireLock(kind, serial), n) + [ReleaseLock(kind, serial)], kind, serial)
    ensures n > 0 ==> PlatformHolds(calls + Repeat(AcquireLock(kind, serial), n), kind, serial)
  {
    var s := calls + Repeat(AcquireLock(kind, serial), n);
    assert (s + [ReleaseLock(kind, serial)])[..|s|] == s;
    if n > 0 {
      assert s[|s| - 1] == AcquireLock(kind, serial);
    }
  }

  function Repeat(c: LockCall, n: nat): (r: seq<LockCall>)
    ensures |r| == n && forall i :: 0 <= i < n ==> r[i] == c
  {
    if n == 0 then [] else Repeat(c, n - 1) + [c]
  }

  /** The manager's two lock fields and the platform calls made so far. */
  datatype Locks = Locks(cpu: Option<nat>, wifi: Option<nat>, calls: seq<LockCall>, nextSerial: nat)

  function Slot(l: Locks, kind: LockKind): Option<nat> {
    if kind == Cpu then l.cpu else l.wifi
  }

  function WithSlot(l: Locks, kind: LockKind, v: Option<nat>): Locks {
    if kind == Cpu then l.(cpu := v) else l.(wifi := v)
  }

  /**
   * `acquireCpu` / `acquireWifi`: nothing when a held lock is stored; otherwise
   * a new lock is created and acquired, and stored only when neither step threw.
   */
  function AcquireStep(l: Locks, kind: LockKind, succeeds: bool): Locks {
    if Slot(l, kind).Some? then l
    else if !succeeds then l
    else
      var n := l.nextSerial;
      WithSlot(l.(calls := l.calls + [AcquireLock(kind, n)], nextSerial := n + 1), kind, Some(n))
  }

  /**
   * `releaseCpu` / `releaseWifi`: the platform release happens only for a
   * stored lock, and the field is cleared whether or not it threw.
   */
  function ReleaseStep(l: Locks, kind: LockKind, succeeds: bool): Locks {
    match Slot(l, kind)
    case None => l
    case Some(s) =>
      if succeeds then WithSlot(l.(calls := l.calls + [ReleaseLock(kind, s)]), kind, None)
      else WithSlot(l, kind, None)
  }

  /** Any number of acquire attempts, with the given outcomes. */
  function AcquireAll(l: Locks, kind: LockKind, outcomes: seq<bool>): Locks
    decreases |outcomes|
  {
    if outcomes == [] then l else AcquireAll(AcquireStep(l, kind, outcomes[0]), kind, outcomes[1..])
  }

  /** The platform holds exactly the lock the manager has stored, and nothing else of that kind. */
  ghost predicate Tracked(l: Locks, kind: LockKind) {
    && (forall s: nat :: PlatformHolds(l.calls, kind, s) ==> Slot(l, kind) == Some(s))
    && (Slot(l, kind).Some? ==> PlatformHolds(l.calls, kind, Slot(l, kind).value))
  }

  /** Acquiring while a lock is stored changes nothing. */
  lemma AcquireIdempotent(l: Locks, kind: LockKind, succeeds: bool)
    requires Slot(l, kind).Some?
    ensures AcquireStep(l, kind, succeeds) == l
  {
  }

  /** An acquire keeps the manager's field and the platform in step, and leaves the other lock alone. */
  lemma AcquireTracked(l: Locks, kind: LockKind, succeeds: bool)
    requires Tracked(l, kind)
    ensures Tracked(AcquireStep(l, kind, succeeds), kind)
    ensures var other := if kind == Cpu then Wifi else Cpu;
      Slot(AcquireStep(l, kind, succeeds), other) == Slot(l, other)
  {
    var r := AcquireStep(l, kind, succeeds);
    if Slot(l, kind).None? && succeeds {
      forall s: nat | PlatformHolds(r.calls, kind, s) ensures Slot(r, kind) == Some(s) {
        assert r.calls[..|r.calls| - 1] == l.calls;
      }
    }
  }

  /** A successful release after any number of acquire attempts leaves no lock of that kind held. */
  lemma {:induction false} ReleaseAfterAcquires(l: Locks, kind: LockKind, outcomes: seq<bool>)
    requires Tracked(l, kind)
    ensures var r := ReleaseStep(AcquireAll(l, kind, outcomes), kind, true);
      Slot(r, kind) == None && forall s: nat :: !PlatformHolds(r.calls, kind, s)
    decreases |outcomes|
  {
    if outcomes == [] {
      var r := ReleaseStep(l, kind, true);
      forall s: nat ensures !PlatformHolds(r.calls, kind, s) {
        if Slot(l, kind).Some? {
          assert r.calls[..|r.calls| - 1] == l.calls;
        }
      }
    } else {
      AcquireTracked(l, kind, outcomes[0]);
      ReleaseAfterAcquires(AcquireStep(l, kind, outcomes[0]), kind, outcomes[1..]);
    }
  }

  /** A release that throws forgets a lock the platform still holds. */
  lemma FailedReleaseLeaks(l: Locks, kind: LockKind)
    requires Tracked(l, kind) && Slot(l, kind).Some?
    ensures var r := ReleaseStep(l, kind, false);
      Slot(r, kind) == None && PlatformHolds(r.calls, kind, Slot(l, kind).value)
  {
  }

  class WakeLockManager {
    /** `cpuWakeLock` and `wifiLock`, as the serial of the stored lock object. */
    var cpuWakeLock: Option<nat>
    var wifiLock: Option<nat>
    var platformCalls: seq<LockCall>
    var nextSerial: nat

    function State(): Locks
      reads this
    {
      Locks(cpuWakeLock, wifiLock, platformCalls, nextSerial)
    }

    constructor ()
      ensures State() == Locks(None, None, [], 0)
    {
      cpuWakeLock, wifiLock := None, None;
      platformCalls := [];
      nextSerial := 0;
    }

    /** `acquire`: the CPU lock, then the Wi-Fi lock. */
    method Acquire(cpuSucceeds: bool, wifiSucceeds: bool)
      modifies this
      ensures State() == AcquireStep(AcquireStep(old(State()), Cpu, cpuSucceeds), Wifi, wifiSucceeds)
    {
      AcquireCpu(cpuSucceeds);
      AcquireWifi(wifiSucceeds);
    }

    /** `release`: the CPU lock, then the Wi-Fi lock. */
    method Release(cpuSucceeds: bool, wifiSucceeds: bool)
      modifies this
      ensures State() == ReleaseStep(ReleaseStep(old(State()), Cpu, cpuSucceeds), Wifi, wifiSucceeds)
    {
      ReleaseCpu(cpuSucceeds);
      ReleaseWifi(wifiSucceeds);
    }

    method AcquireCpu(succeeds: bool)
      modifies this
      ensures State() == AcquireStep(old(State()), Cpu, succeeds)
    {
      if cpuWakeLock.Some? {
        return;
      }
      if succeeds {
        platformCalls := platformCalls + [AcquireLock(Cpu, nextSerial)];
        cpuWakeLock := Some(nextSerial);
        nextSerial := nextSerial + 1;
      }
    }

    method ReleaseCpu(succeeds: bool)
      modifies this
      ensures State() == ReleaseStep(old(State()), Cpu, succeeds)
    {
      if cpuWakeLock.Some? && succeeds {
        platformCalls := platformCalls + [ReleaseLock(Cpu, cpuWakeLock.value)];
      }
      cpuWakeLock := None;
    }

    method AcquireWifi(succeeds: bool)
      modifies this
      ensures State() == AcquireStep(old(State()), Wifi, succeeds)
    {
      if wifiLock.Some? {
        return;
      }
      if succeeds {
        platformCalls := platformCalls + [AcquireLock(Wifi, nextSerial)];
        wifiLock := Some(nextSerial);
        nextSerial := nextSerial + 1;
      }
    }

    method ReleaseWifi(succeeds: bool)
      modifies this
      ensures State() == ReleaseStep(old(State()), Wifi, succeeds)
    {
      if wifiLock.Some? && succeeds {
        platformCalls := platformCalls + [ReleaseLock(Wifi, wifiLock.value)];
      }
      wifiLock := None;
    }
  }
}
