/**
 * `GPSService`: the last fix, the ordered list of location callbacks, the
 * permission-gated start of location updates, the self-rescheduling retry
 * tick, and the network-traffic rate shown in the notification.
 *
 * The platform is explicit input: whether the location permission is held,
 * what the location manager does when asked (`LocationProvider`), the
 * traffic counters and the clock.
 */
module Service {
  import opened Wrappers
  import opened Platform
  import Decimal

  /** Delay before the retry runnable runs again, in milliseconds. */
  const RetryDelayMs: int := 5000

  const KiB: nat := 1024
  const MiB: nat := 1024 * 1024

  // ---------------------------------------------------------------------
  // formatSpeed

  /**
   * `%.1f` of `n / d` with `d` a power of two (so the double quotient is
   * exact): the quotient in tenths, rounded half up as `java.util.Formatter`
   * does.
   */
  function RoundedTenths(n: nat, d: nat): (t: nat)
    requires d > 0
    ensures 2 * d * t <= 20 * n + d < 2 * d * t + 2 * d
  {
    (20 * n + d) / (2 * d)
  }

  /** A count of tenths written with one decimal, "I.D". */
  function TenthsText(t: nat): string {
    Decimal.NatToString(t / 10) + "." + [Decimal.DigitChar(t % 10)]
  }

  /** `formatSpeed`: bytes per second below 1024, else KB/s below 1048576, else MB/s. */
  function FormatSpeed(bytesPerSecond: int): string {
    if bytesPerSecond < KiB then Decimal.IntToString(bytesPerSecond) + " B/s"
    else if bytesPerSecond < MiB then TenthsText(RoundedTenths(bytesPerSecond, KiB)) + " KB/s"
    else TenthsText(RoundedTenths(bytesPerSecond, MiB)) + " MB/s"
  }

  /** What a reader of the notification text sees: a unit and a number. */
  datatype SpeedReading =
    | BytesPerSecond(bytes: int)
    | KilobytesPerSecond(tenths: nat)
    | MegabytesPerSecond(tenths: nat)

  predicate EndsWith(s: string, suffix: string) {
    |suffix| <= |s| && s[|s| - |suffix|..] == suffix
  }

  /** Reads "I.D" back as a count of tenths. */
  function ReadTenths(s: string): Option<nat> {
    if |s| >= 3 && s[|s| - 2] == '.' && Decimal.IsDigit(s[|s| - 1]) && Decimal.AllDigits(s[..|s| - 2])
    then Some(Decimal.DigitsValue(s[..|s| - 2]) * 10 + Decimal.DigitValue(s[|s| - 1]))
    else None
  }

  /** Reads a speed text back into its unit and number. */
  function ReadSpeedText(s: string): Option<SpeedReading> {
    if EndsWith(s, " B/s") then
      match Decimal.ParseInteger(s[..|s| - 4])
      case Some(n) => Some(BytesPerSecond(n))
      case None => None
    else if EndsWith(s, " KB/s") then
      match ReadTenths(s[..|s| - 5])
      case Some(t) => Some(KilobytesPerSecond(t))
      case None => None
    else if EndsWith(s, " MB/s") then
      match ReadTenths(s[..|s| - 5])
      case Some(t) => Some(MegabytesPerSecond(t))
      case None => None
    else None
  }

  lemma ReadTenthsText(t: nat)
    ensures ReadTenths(TenthsText(t)) == Some(t)
  {
    var s := TenthsText(t);
    var whole := Decimal.NatToString(t / 10);
    assert s[..|s| - 2] == whole;
    Decimal.DigitsValueOfNatToString(t / 10);
  }

  /**
   * The unit follows the size of the rate, and the number shown is the rate
   * itself in B/s, or the rate divided by 1024 (KB/s) or by 1048576 (MB/s)
   * rounded half up to one decimal.
   */
  lemma FormatSpeedReadsBack(n: int)
    ensures match ReadSpeedText(FormatSpeed(n))
      case None => false
      case Some(BytesPerSecond(b)) => n < 1024 && b == n
      case Some(KilobytesPerSecond(t)) => 1024 <= n < 1048576 && 2048 * t <= 20 * n + 1024 < 2048 * t + 2048
      case Some(MegabytesPerSecond(t)) => 1048576 <= n && 2097152 * t <= 20 * n + 1048576 < 2097152 * t + 2097152
  {
    var s := FormatSpeed(n);
    if n < KiB {
      assert s[..|s| - 4] == Decimal.IntToString(n);
      Decimal.ParseIntegerOfIntToString(n);
    } else {
      var d := if n < MiB then KiB else MiB;
      var t := RoundedTenths(n, d);
      var unit := if n < MiB then " KB/s" else " MB/s";
      assert s == TenthsText(t) + unit;
      assert s[|s| - 4] == unit[1];
      assert !EndsWith(s, " B/s");
      assert s[..|s| - 5] == TenthsText(t);
      ReadTenthsText(t);
    }
  }

  // ---------------------------------------------------------------------
  // getTrafficStats

  /**
   * `(delta / (elapsedMs / 1000.0)).toLong()`: bytes per second, truncated
   * toward zero, computed on exact numbers. The source divides in doubles,
   * and where the exact rate is a whole number the double quotient can fall
   * just below it and truncate one lower (539 bytes over 1078 ms).
   */
  function Rate(deltaBytes: int, elapsedMs: int): (r: int)
    requires elapsedMs > 0
    ensures deltaBytes >= 0 ==> 0 <= r && r * elapsedMs <= deltaBytes * 1000 < (r + 1) * elapsedMs
    ensures deltaBytes < 0 ==> r <= 0 && -r * elapsedMs <= -deltaBytes * 1000 < (-r + 1) * elapsedMs
  {
    if deltaBytes >= 0 then
      var q := (deltaBytes * 1000) / elapsedMs;
      QuotientBounds(deltaBytes * 1000, elapsedMs);
      q
    else
      var q := (-deltaBytes * 1000) / elapsedMs;
      QuotientBounds(-deltaBytes * 1000, elapsedMs);
      -q
  }

  lemma QuotientBounds(a: nat, b: int)
    requires b > 0
    ensures 0 <= a / b && (a / b) * b <= a < (a / b + 1) * b
  {
    var q, m := a / b, a % b;
    assert a == q * b + m && 0 <= m < b;
    assert (q + 1) * b == q * b + b;
  }

  // ---------------------------------------------------------------------
  // Location acquisition

  /** Identity of a callback passed to `addLocationListener`. */
  type ListenerId = nat

  /** One invocation of a registered callback with a fix. */
  datatype Delivery = Delivery(listener: ListenerId, location: Location)

  /**
   * What the location manager does when asked for GPS updates: whether
   * `requestLocationUpdates` throws `SecurityException`, whether
   * `getLastKnownLocation` does, and the last known fix it reports.
   */
  datatype LocationProvider = LocationProvider(requestThrows: bool, lastKnownThrows: bool, lastKnown: Option<Location>)

  /**
   * The acquisition state: the last fix, whether the service's listener is
   * registered with the location manager, and when the retry runnable is due
   * on the handler (absent when it is not posted).
   */
  datatype Acquisition = Acquisition(lastLocation: Option<Location>, updatesRequested: bool, retryDueAt: Option<int>)

  /**
   * `startLocationUpdates`: without permission nothing happens; with it the
   * listener is registered and `lastLocation` becomes the last known fix,
   * possibly absent. A `SecurityException` from either call is caught and
   * stops the rest of the attempt.
   */
  function StartUpdates(a: Acquisition, permission: bool, provider: LocationProvider): (b: Acquisition)
    ensures b.retryDueAt == a.retryDueAt
    ensures !permission || provider.requestThrows ==> b == a
    ensures permission && !provider.requestThrows ==> b.updatesRequested
    ensures permission && !provider.requestThrows && !provider.lastKnownThrows ==>
      b == a.(updatesRequested := true, lastLocation := provider.lastKnown)
    ensures permission && !provider.requestThrows && provider.lastKnownThrows ==>
      b == a.(updatesRequested := true)
    ensures b.lastLocation != a.lastLocation ==> b.lastLocation == provider.lastKnown
  {
    if !permission then a
    else if provider.requestThrows then a
    else if provider.lastKnownThrows then a.(updatesRequested := true)
    else a.(updatesRequested := true, lastLocation := provider.lastKnown)
  }

  /**
   * One run of `retryRunnable`: while permission is missing or no fix is
   * known it starts updates and posts itself again 5000 ms later; otherwise
   * it does nothing and is not posted again.
   */
  function RetryTick(a: Acquisition, now: int, permission: bool, provider: LocationProvider): (b: Acquisition)
    ensures b.retryDueAt.Some? <==> !permission || a.lastLocation.None?
    ensures b.retryDueAt.Some? ==>
      b == StartUpdates(a, permission, provider).(retryDueAt := Some(now + RetryDelayMs))
    ensures b.retryDueAt.None? ==> b == a.(retryDueAt := None)
  {
    if !permission || a.lastLocation.None? then
      StartUpdates(a, permission, provider).(retryDueAt := Some(now + RetryDelayMs))
    else
      a.(retryDueAt := None)
  }

  /**
   * Permission granted while the service waits: the next tick registers for
   * updates and posts itself again; once a fix has arrived the tick after
   * that, 5000 ms later, stops the loop for good, whatever the location
   * manager would have said.
   */
  lemma RetryStopsAfterGrantAndFix(
    a: Acquisition, now: int, provider: LocationProvider, fix: Location, later: LocationProvider)
    requires a.lastLocation.None? && !provider.requestThrows
    ensures var b := RetryTick(a, now, true, provider);
      b.updatesRequested && b.retryDueAt == Some(now + RetryDelayMs)
      && var c := b.(lastLocation := Some(fix));
      RetryTick(c, now + RetryDelayMs, true, later) == c.(retryDueAt := None)
  {
  }

  /** Without permission the tick never gives up and never touches the fix or the registration. */
  lemma RetryKeepsWaitingWithoutPermission(a: Acquisition, now: int, provider: LocationProvider)
    ensures var b := RetryTick(a, now, false, provider);
      b == a.(retryDueAt := Some(now + RetryDelayMs))
  {
  }

  // ---------------------------------------------------------------------
  // The listener list

  /** The position of the first occurrence of `x`. */
  function FirstIndex(s: seq<ListenerId>, x: ListenerId): (i: nat)
    requires x in s
    ensures i < |s| && s[i] == x && x !in s[..i]
  {
    if s[0] == x then 0
    else
      var j := FirstIndex(s[1..], x);
      assert s[..j + 1] == [s[0]] + s[1..][..j];
      j + 1
  }

  /** `MutableList.remove`: finds the first occurrence of `x`, if any, and removes it. */
  function RemoveFirst(s: seq<ListenerId>, x: ListenerId): (r: seq<ListenerId>)
    ensures x !in s ==> r == s
    ensures x in s ==> |r| == |s| - 1 && multiset(r) + multiset{x} == multiset(s)
    ensures x in s ==> forall k :: 0 <= k < |r| ==> r[k] == if k < FirstIndex(s, x) then s[k] else s[k + 1]
  {
    if x in s then
      var i := FirstIndex(s, x);
      assert s == s[..i] + [x] + s[i + 1..];
      s[..i] + s[i + 1..]
    else s
  }

  /** Removing a callback that was just added, and not before, gives back the old list. */
  lemma RemoveUndoesAdd(s: seq<ListenerId>, x: ListenerId)
    requires x !in s
    ensures RemoveFirst(s + [x], x) == s
  {
  }

  class GPSService {
    var lastLocation: Option<Location>
    var locationListeners: seq<ListenerId>
    /** Whether `locationListener` is registered with the location manager. */
    var updatesRequested: bool
    /** When the posted `retryRunnable` is due; absent when it is not posted. */
    var retryDueAt: Option<int>
    var lastTotalRxBytes: int
    var lastTotalTxBytes: int
    var lastUpdateTime: int

    ghost function State(): Acquisition
      reads this
    {
      Acquisition(lastLocation, updatesRequested, retryDueAt)
    }

    /** The field initialisers. */
    constructor ()
      ensures lastLocation.None? && locationListeners == []
      ensures !updatesRequested && retryDueAt.None?
      ensures lastTotalRxBytes == 0 && lastTotalTxBytes == 0 && lastUpdateTime == 0
    {
      lastLocation := None;
      locationListeners := [];
      updatesRequested := false;
      retryDueAt := None;
      lastTotalRxBytes, lastTotalTxBytes, lastUpdateTime := 0, 0, 0;
    }

    /**
     * The acquisition part of `onCreate`: the traffic baselines, a first
     * attempt to start updates, and the retry runnable posted to run now.
     */
    method OnCreate(rxBytes: int, txBytes: int, now: int, permission: bool, provider: LocationProvider)
      modifies this
      ensures lastTotalRxBytes == rxBytes && lastTotalTxBytes == txBytes && lastUpdateTime == now
      ensures State() == StartUpdates(old(State()), permission, provider).(retryDueAt := Some(now))
      ensures locationListeners == old(locationListeners)
    {
      lastTotalRxBytes := rxBytes;
      lastTotalTxBytes := txBytes;
      lastUpdateTime := now;
      StartLocationUpdates(permission, provider);
      retryDueAt := Some(now);
    }

    /** `addLocationListener`: appends at the end. */
    method AddLocationListener(listener: ListenerId)
      modifies this`locationListeners
      ensures locationListeners == old(locationListeners) + [listener]
    {
      locationListeners := locationListeners + [listener];
    }

    /** `removeLocationListener`: removes the first occurrence, the others keep their order. */
    method RemoveLocationListener(listener: ListenerId)
      modifies this`locationListeners
      ensures locationListeners == RemoveFirst(old(locationListeners), listener)
    {
      locationListeners := RemoveFirst(locationListeners, listener);
    }

    /**
     * `onLocationChanged`: the fix becomes `lastLocation`, then every
     * registered callback is invoked once with it, in registration order.
     */
    method OnLocationChanged(location: Location) returns (deliveries: seq<Delivery>)
      modifies this`lastLocation
      ensures lastLocation == Some(location)
      ensures |deliveries| == |locationListeners|
      ensures forall i :: 0 <= i < |deliveries| ==> deliveries[i] == Delivery(locationListeners[i], location)
    {
      lastLocation := Some(location);
      deliveries := [];
      for i := 0 to |locationListeners|
        invariant |deliveries| == i
        invariant forall k :: 0 <= k < i ==> deliveries[k] == Delivery(locationListeners[k], location)
      {
        deliveries := deliveries + [Delivery(locationListeners[i], location)];
      }
    }

    /** `startLocationUpdates`, with the permission check and the platform's answer as inputs. */
    method StartLocationUpdates(permission: bool, provider: LocationProvider)
      modifies this`lastLocation, this`updatesRequested
      ensures State() == StartUpdates(old(State()), permission, provider)
    {
      if permission {
        if !provider.requestThrows {
          updatesRequested := true;
          if !provider.lastKnownThrows {
            lastLocation := provider.lastKnown;
          }
        }
      }
    }

    /** `retryRunnable.run`, at time `now`; `reposted` tells whether it posted itself again. */
    method RunRetry(now: int, permission: bool, provider: LocationProvider) returns (reposted: bool)
      modifies this`lastLocation, this`updatesRequested, this`retryDueAt
      ensures State() == RetryTick(old(State()), now, permission, provider)
      ensures reposted <==> !permission || old(lastLocation).None?
    {
      if !permission || lastLocation.None? {
        StartLocationUpdates(permission, provider);
        retryDueAt := Some(now + RetryDelayMs);
        reposted := true;
      } else {
        retryDueAt := None;
        reposted := false;
      }
    }

    /**
     * `getTrafficStats`: with time elapsed since the baseline, the receive
     * and transmit rates and new baselines; otherwise "0 B/s" twice and the
     * baselines untouched.
     */
    method GetTrafficStats(currentRxBytes: int, currentTxBytes: int, currentTime: int)
      returns (rxSpeed: string, txSpeed: string)
      modifies this`lastTotalRxBytes, this`lastTotalTxBytes, this`lastUpdateTime
      ensures currentTime <= old(lastUpdateTime) ==>
        rxSpeed == "0 B/s" && txSpeed == "0 B/s"
        && lastTotalRxBytes == old(lastTotalRxBytes) && lastTotalTxBytes == old(lastTotalTxBytes)
        && lastUpdateTime == old(lastUpdateTime)
      ensures currentTime > old(lastUpdateTime) ==>
        lastTotalRxBytes == currentRxBytes && lastTotalTxBytes == currentTxBytes
        && lastUpdateTime == currentTime
        && rxSpeed == FormatSpeed(Rate(currentRxBytes - old(lastTotalRxBytes), currentTime - old(lastUpdateTime)))
        && txSpeed == FormatSpeed(Rate(currentTxBytes - old(lastTotalTxBytes), currentTime - old(lastUpdateTime)))
    {
      var elapsed := currentTime - lastUpdateTime;
      if elapsed > 0 {
        var rx := Rate(currentRxBytes - lastTotalRxBytes, elapsed);
        var tx := Rate(currentTxBytes - lastTotalTxBytes, elapsed);
        lastTotalRxBytes := currentRxBytes;
        lastTotalTxBytes := currentTxBytes;
        lastUpdateTime := currentTime;
        return FormatSpeed(rx), FormatSpeed(tx);
      }
      return "0 B/s", "0 B/s";
    }

    /**
     * The acquisition part of `onDestroy`: every pending runnable is removed,
     * and the listener is unregistered when permission is held. A second call
     * finds nothing left to change.
     */
    method OnDestroy(permission: bool)
      modifies this`retryDueAt, this`updatesRequested
      ensures retryDueAt.None?
      ensures updatesRequested == (old(updatesRequested) && !permission)
    {
      retryDueAt := None;
      if permission {
        updatesRequested := false;
      }
    }
  }
}
