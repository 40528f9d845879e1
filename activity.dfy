/**
 * `MainActivity`: the accelerometer speed estimator, the token and port
 * inputs, the server address it shows, and the search for a local IPv4
 * address. The shared preferences are a field the methods reassign; sensor
 * magnitudes (`sqrt(x*x + y*y + z*z)`), the Wi-Fi address and the network
 * interfaces are inputs.
 */
module Activity {
  import opened Wrappers
  import opened Platform
  import Decimal
  import Server

  const DefaultToken: string := "123456"
  const Loopback: string := "127.0.0.1"

  /** `Sensor.TYPE_LINEAR_ACCELERATION`. */
  const TypeLinearAcceleration: int := 10

  const Alpha: real := 0.8
  const MotionThreshold: real := 0.5
  const NominalInterval: real := 0.1
  const Decay: real := 0.95

  // ---------------------------------------------------------------------
  // The speed estimator

  /** The two fields the estimator keeps: the smoothed magnitude and the speed. */
  datatype Estimator = Estimator(lastAcceleration: real, currentSpeed: real)

  /** A sensor event: its sensor type and the magnitude of its three values. */
  datatype SensorEvent = SensorEvent(sensorType: int, magnitude: real)

  /**
   * One linear-acceleration sample: smooth the magnitude, integrate over the
   * nominal 0.1 s above the motion threshold, decay by 0.95 below it, and
   * clamp at zero.
   */
  function SensorStep(e: Estimator, magnitude: real): (r: Estimator)
    ensures r.currentSpeed >= 0.0
    ensures r.lastAcceleration == e.lastAcceleration * Alpha + magnitude * (1.0 - Alpha)
    ensures e.lastAcceleration <= magnitude ==> e.lastAcceleration <= r.lastAcceleration <= magnitude
    ensures magnitude <= e.lastAcceleration ==> magnitude <= r.lastAcceleration <= e.lastAcceleration
    ensures r.lastAcceleration > MotionThreshold && e.currentSpeed >= 0.0 ==>
      r.currentSpeed == e.currentSpeed + r.lastAcceleration / 10.0 && r.currentSpeed > e.currentSpeed
    ensures r.lastAcceleration <= MotionThreshold && e.currentSpeed >= 0.0 ==>
      r.currentSpeed == e.currentSpeed * 0.95 && r.currentSpeed <= e.currentSpeed
  {
    var smoothed := e.lastAcceleration * Alpha + magnitude * (1.0 - Alpha);
    var speed := if smoothed > MotionThreshold
      then e.currentSpeed + smoothed * NominalInterval
      else e.currentSpeed * Decay;
    Estimator(smoothed, if speed < 0.0 then 0.0 else speed)
  }

  /** `onSensorChanged`: only linear-acceleration events reach the estimator. */
  function OnSensor(e: Estimator, event: SensorEvent): (r: Estimator)
    ensures event.sensorType != TypeLinearAcceleration ==> r == e
    ensures event.sensorType == TypeLinearAcceleration ==> r.currentSpeed >= 0.0
  {
    if event.sensorType == TypeLinearAcceleration then SensorStep(e, event.magnitude) else e
  }

  /** The estimator after a sequence of events, delivered in order. */
  function Run(e: Estimator, events: seq<SensorEvent>): Estimator
    decreases |events|
  {
    if events == [] then e else Run(OnSensor(e, events[0]), events[1..])
  }

  /** The speed is never negative, whatever the events, from a non-negative start. */
  lemma {:induction false} RunSpeedNonNegative(e: Estimator, events: seq<SensorEvent>)
    requires e.currentSpeed >= 0.0
    ensures Run(e, events).currentSpeed >= 0.0
    decreases |events|
  {
    if events != [] {
      RunSpeedNonNegative(OnSensor(e, events[0]), events[1..]);
    }
  }

  /**
   * The smoothed magnitude stays within [0, bound] when it starts there and
   * every accelerometer magnitude does.
   */
  lemma {:induction false} RunSmoothedBounded(e: Estimator, events: seq<SensorEvent>, bound: real)
    requires 0.0 <= e.lastAcceleration <= bound
    requires forall i :: 0 <= i < |events| && events[i].sensorType == TypeLinearAcceleration ==>
      0.0 <= events[i].magnitude <= bound
    ensures 0.0 <= Run(e, events).lastAcceleration <= bound
    decreases |events|
  {
    if events != [] {
      RunSmoothedBounded(OnSensor(e, events[0]), events[1..], bound);
    }
  }

  /**
   * At rest (every magnitude, and the smoothed value, at most the threshold)
   * the speed never grows: it only decays.
   */
  lemma {:induction false} RunAtRestNeverSpeedsUp(e: Estimator, events: seq<SensorEvent>)
    requires 0.0 <= e.lastAcceleration <= MotionThreshold && e.currentSpeed >= 0.0
    requires forall i :: 0 <= i < |events| && events[i].sensorType == TypeLinearAcceleration ==>
      0.0 <= events[i].magnitude <= MotionThreshold
    ensures Run(e, events).currentSpeed <= e.currentSpeed
    decreases |events|
  {
    if events != [] {
      var next := OnSensor(e, events[0]);
      RunAtRestNeverSpeedsUp(next, events[1..]);
    }
  }

  // ---------------------------------------------------------------------
  // Token and port input

  /** What `savePort` makes of the text in the port field. */
  datatype PortOutcome =
    | Ignored               // empty input: nothing happens
    | Saved(port: int)      // stored, and the service restarted
    | OutOfRange(port: int) // a number outside 1024..65535: a toast, nothing stored
    | NotANumber            // `NumberFormatException`: a toast, nothing stored

  /** The decision `savePort` takes on its input. */
  function PortInput(input: string): (o: PortOutcome)
    ensures o == Ignored <==> input == ""
    ensures o == NotANumber <==> input != "" && Decimal.ParseInt(input).None?
    ensures o.Saved? ==> Decimal.ParseInt(input) == Some(o.port) && 1024 <= o.port <= 65535
    ensures o.OutOfRange? ==> Decimal.ParseInt(input) == Some(o.port) && !(1024 <= o.port <= 65535)
  {
    if input == "" then Ignored
    else match Decimal.ParseInt(input)
      case None => NotANumber
      case Some(port) => if 1024 <= port <= 65535 then Saved(port) else OutOfRange(port)
  }

  /** Typing the decimal text of any port in 1024..65535 stores exactly that port. */
  lemma PortInputAcceptsEveryValidPort(port: int)
    requires 1024 <= port <= 65535
    ensures PortInput(Decimal.IntToString(port)) == Saved(port)
  {
    Decimal.ParseIntOfIntToString(port);
  }

  // ---------------------------------------------------------------------
  // The server address

  /** `String.format("http://%s:%d%s?token=%s", ip, port, WebServer.API_PATH, token)`. */
  function ServerAddress(ip: string, port: int, token: string): string {
    "http://" + ip + ":" + Decimal.IntToString(port) + Server.ApiPath + "?token=" + token
  }

  /** The position of the first `c` in `s`. */
  function IndexOf(s: string, c: char): (r: Option<nat>)
    ensures r.Some? ==> r.value < |s| && s[r.value] == c && c !in s[..r.value]
    ensures r.None? ==> c !in s
  {
    if s == [] then None
    else if s[0] == c then Some(0)
    else match IndexOf(s[1..], c)
      case Some(i) =>
        assert s[..i + 1] == [s[0]] + s[1..][..i];
        Some(i + 1)
      case None => None
  }

  /** Splits `s` at the first `c`, dropping it. */
  function SplitAt(s: string, c: char): Option<(string, string)> {
    match IndexOf(s, c)
    case Some(i) => Some((s[..i], s[i + 1..]))
    case None => None
  }

  lemma SplitAtFirst(a: string, c: char, b: string)
    requires c !in a
    ensures SplitAt(a + [c] + b, c) == Some((a, b))
  {
    var s := a + [c] + b;
    assert s[|a|] == c;
    assert s[..|a|] == a;
    assert s[|a| + 1..] == b;
  }

  /** Splits an address back into host, port and token. */
  function ParseServerAddress(s: string): Option<(string, int, string)> {
    var scheme := "http://";
    var route := Server.ApiPath[1..] + "?token=";
    if |s| < |scheme| || s[..|scheme|] != scheme then None
    else match SplitAt(s[|scheme|..], ':')
      case None => None
      case Some((host, afterHost)) =>
        match SplitAt(afterHost, '/')
        case None => None
        case Some((portText, path)) =>
          match Decimal.ParseInteger(portText)
          case None => None
          case Some(port) =>
            if |path| < |route| || path[..|route|] != route then None
            else Some((host, port, path[|route|..]))
  }

  /** The text of a number has no '/' in it. */
  /**
   * The address `showServerAddress` builds: the stored port, with the
   * server's default when none is stored, and the activity's token.
   */
  function ShownAddress(ip: string, prefs: Prefs, token: string): string {
    ServerAddress(ip, prefs.port.GetOr(Server.DefaultPort), token)
  }

  lemma NoSlashInIntToString(n: int)
    ensures '/' !in Decimal.IntToString(n)
  {
  }

  /**
   * The address names the host, the port and the token it was built from:
   * splitting it at the first ':' after the scheme and the first '/' after
   * that recovers all three, for any host without ':' and any token.
   */
  lemma ServerAddressRoundTrip(ip: string, port: int, token: string)
    requires ':' !in ip
    ensures ParseServerAddress(ServerAddress(ip, port, token)) == Some((ip, port, token))
  {
    var portText := Decimal.IntToString(port);
    var route := Server.ApiPath[1..] + "?token=";
    var path := route + token;
    var afterHost := portText + ['/'] + path;
    var s := ServerAddress(ip, port, token);
    assert s == "http://" + (ip + [':'] + afterHost);
    assert s[7..] == ip + [':'] + afterHost;
    SplitAtFirst(ip, ':', afterHost);
    NoSlashInIntToString(port);
    SplitAtFirst(portText, '/', path);
    Decimal.ParseIntegerOfIntToString(port);
    assert path[..|route|] == route;
    assert path[|route|..] == token;
  }

  /** The token the activity shows in the address is the one the server admits. */
  lemma ShownTokenIsAccepted(prefs: Prefs, token: string, lastLocation: Option<Location>, now: int)
    requires prefs.token == Some(token)
    ensures Server.Serve(Server.Request(Server.ApiPath, map["token" := [token]]), prefs, lastLocation, now).status
      == Server.Ok
  {
  }

  // ---------------------------------------------------------------------
  // The local IP address

  /** An `InetAddress` as the search sees it; `hostAddress` may be null. */
  datatype InetAddress = InetAddress(isLoopback: bool, isIpv4: bool, hostAddress: Option<string>)

  datatype NetworkInterface = NetworkInterface(inetAddresses: seq<InetAddress>)

  /**
   * `NetworkInterface.getNetworkInterfaces()`: it throws, or returns the
   * interfaces, or null.
   */
  datatype Enumeration = EnumerationFails | Enumerated(interfaces: Option<seq<NetworkInterface>>)

  predicate IsCandidate(a: InetAddress) {
    !a.isLoopback && a.isIpv4
  }

  /** All addresses of all interfaces, in enumeration order. */
  function Addresses(interfaces: seq<NetworkInterface>): seq<InetAddress> {
    if interfaces == [] then [] else interfaces[0].inetAddresses + Addresses(interfaces[1..])
  }

  /** The host address of the first non-loopback IPv4 address, or the loopback text. */
  function FirstIpv4Host(addresses: seq<InetAddress>): string {
    if addresses == [] then Loopback
    else if IsCandidate(addresses[0]) then addresses[0].hostAddress.GetOr(Loopback)
    else FirstIpv4Host(addresses[1..])
  }

  /** The address at index `k` is the first candidate: it is one, and none comes before it. */
  ghost predicate FirstCandidateAt(addresses: seq<InetAddress>, k: int) {
    0 <= k < |addresses| && IsCandidate(addresses[k])
    && forall m :: 0 <= m < k ==> !IsCandidate(addresses[m])
  }

  /**
   * The search answers the host of the first non-loopback IPv4 address in
   * enumeration order, and "127.0.0.1" exactly when there is none.
   */
  lemma {:induction false} FirstIpv4HostIsFirstCandidate(addresses: seq<InetAddress>, k: int)
    ensures (forall m :: 0 <= m < |addresses| ==> !IsCandidate(addresses[m])) ==> FirstIpv4Host(addresses) == Loopback
    ensures FirstCandidateAt(addresses, k) ==> FirstIpv4Host(addresses) == addresses[k].hostAddress.GetOr(Loopback)
    decreases |addresses|
  {
    if addresses != [] && !IsCandidate(addresses[0]) {
      FirstIpv4HostIsFirstCandidate(addresses[1..], k - 1);
      assert (forall m :: 0 <= m < |addresses| ==> !IsCandidate(addresses[m])) ==>
        forall m :: 0 <= m < |addresses[1..]| ==> !IsCandidate(addresses[1..][m]);
      if FirstCandidateAt(addresses, k) {
        assert FirstCandidateAt(addresses[1..], k - 1);
      }
    }
  }

  /**
   * The port the shown address names is the one a server started with the
   * same preferences listens on, default included.
   */
  lemma ShownAddressNamesListeningPort(ip: string, prefs: Prefs, token: string)
    requires ':' !in ip
    ensures ParseServerAddress(ShownAddress(ip, prefs, token)) == Some((ip, Server.ListeningPort(prefs), token))
  {
    ServerAddressRoundTrip(ip, prefs.port.GetOr(Server.DefaultPort), token);
  }

  /** `Formatter.formatIpAddress`: the four bytes of the int, low byte first. */
  function Octets(ip: int): (b: seq<nat>)
    ensures |b| == 4 && forall i :: 0 <= i < 4 ==> b[i] < 256
    ensures b[0] + 256 * b[1] + 65536 * b[2] + 16777216 * b[3] == ip % 0x1_0000_0000
  {
    var u := ip % 0x1_0000_0000;
    var q1 := u / 256;
    var q2 := q1 / 256;
    var q3 := q2 / 256;
    SplitByte(u);
    SplitByte(q1);
    SplitByte(q2);
    assert q3 < 256;
    [u % 256, q1 % 256, q2 % 256, q3]
  }

  lemma SplitByte(x: nat)
    ensures x == 256 * (x / 256) + x % 256 && x % 256 < 256
  {
  }

  /** The dotted-quad text of a Wi-Fi address. */
  function FormatIpAddress(ip: int): (s: string)
    ensures ':' !in s
  {
    var b := Octets(ip);
    Decimal.NatToString(b[0]) + "." + Decimal.NatToString(b[1]) + "."
      + Decimal.NatToString(b[2]) + "." + Decimal.NatToString(b[3])
  }

  /** A non-empty run of decimal digits, as a number. */
  function ReadOctet(t: string): Option<nat> {
    if |t| > 0 && Decimal.AllDigits(t) then Some(Decimal.DigitsValue(t)) else None
  }

  /** Splits a dotted quad at its first three '.' and reads the four numbers. */
  function ReadDottedQuad(s: string): Option<seq<nat>> {
    match SplitAt(s, '.')
    case None => None
    case Some((t0, r0)) =>
      match SplitAt(r0, '.')
      case None => None
      case Some((t1, r1)) =>
        match SplitAt(r1, '.')
        case None => None
        case Some((t2, t3)) =>
          match (ReadOctet(t0), ReadOctet(t1), ReadOctet(t2), ReadOctet(t3))
          case (Some(b0), Some(b1), Some(b2), Some(b3)) => Some([b0, b1, b2, b3])
          case _ => None
  }

  lemma NoDotInNatToString(n: nat)
    ensures '.' !in Decimal.NatToString(n)
  {
    var s := Decimal.NatToString(n);
    assert forall i | 0 <= i < |s| :: s[i] != '.';
  }

  lemma ReadOctetOfNatToString(n: nat)
    ensures ReadOctet(Decimal.NatToString(n)) == Some(n)
  {
    Decimal.DigitsValueOfNatToString(n);
  }

  /** The text of a Wi-Fi address reads back as its four octets, low byte first. */
  lemma FormatIpAddressReadsBack(ip: int)
    ensures ReadDottedQuad(FormatIpAddress(ip)) == Some(Octets(ip))
  {
    var b := Octets(ip);
    var t0, t1, t2, t3 := Decimal.NatToString(b[0]), Decimal.NatToString(b[1]),
      Decimal.NatToString(b[2]), Decimal.NatToString(b[3]);
    var r1 := t2 + ['.'] + t3;
    var r0 := t1 + ['.'] + r1;
    assert FormatIpAddress(ip) == t0 + ['.'] + r0;
    NoDotInNatToString(b[0]);
    NoDotInNatToString(b[1]);
    NoDotInNatToString(b[2]);
    SplitAtFirst(t0, '.', r0);
    SplitAtFirst(t1, '.', r1);
    SplitAtFirst(t2, '.', t3);
    ReadOctetOfNatToString(b[0]);
    ReadOctetOfNatToString(b[1]);
    ReadOctetOfNatToString(b[2]);
    ReadOctetOfNatToString(b[3]);
  }

  /** What `getLocalIpAddress` answers. */
  function LocalIpAddress(wifiIpAddress: int, network: Enumeration): string {
    if wifiIpAddress != 0 then FormatIpAddress(wifiIpAddress)
    else match network
      case EnumerationFails => Loopback
      case Enumerated(None) => Loopback
      case Enumerated(Some(interfaces)) => FirstIpv4Host(Addresses(interfaces))
  }

  /**
   * `getLocalIpAddress`: the Wi-Fi address when it is not 0; otherwise the
   * first non-loopback IPv4 address over all interfaces, with "127.0.0.1"
   * when there is none or the enumeration throws.
   */
  method GetLocalIpAddress(wifiIpAddress: int, network: Enumeration) returns (ip: string)
    ensures ip == LocalIpAddress(wifiIpAddress, network)
  {
    if wifiIpAddress == 0 {
      if network.Enumerated? && network.interfaces.Some? {
        var interfaces := network.interfaces.value;
        for i := 0 to |interfaces|
          invariant FirstIpv4Host(Addresses(interfaces)) == FirstIpv4Host(Addresses(interfaces[i..]))
        {
          var addresses := interfaces[i].inetAddresses;
          assert interfaces[i..][1..] == interfaces[i + 1..];
          assert Addresses(interfaces[i..]) == addresses[0..] + Addresses(interfaces[i + 1..]);
          for j := 0 to |addresses|
            invariant FirstIpv4Host(Addresses(interfaces))
                   == FirstIpv4Host(addresses[j..] + Addresses(interfaces[i + 1..]))
          {
            var address := addresses[j];
            assert (addresses[j..] + Addresses(interfaces[i + 1..]))[0] == address;
            if !address.isLoopback && address.isIpv4 {
              return address.hostAddress.GetOr(Loopback);
            }
            assert (addresses[j..] + Addresses(interfaces[i + 1..]))[1..]
                == addresses[j + 1..] + Addresses(interfaces[i + 1..]);
          }
          assert addresses[|addresses|..] + Addresses(interfaces[i + 1..]) == Addresses(interfaces[i + 1..]);
        }
      }
      return Loopback;
    }
    return FormatIpAddress(wifiIpAddress);
  }

  // ---------------------------------------------------------------------
  // The activity's state

  class MainActivity {
    var token: string
    var prefs: Prefs
    var lastAcceleration: real
    var currentSpeed: real

    ghost function State(): Estimator
      reads this
    {
      Estimator(lastAcceleration, currentSpeed)
    }

    /** The field initialisers, over the preferences as stored. */
    constructor (stored: Prefs)
      ensures token == DefaultToken && prefs == stored
      ensures lastAcceleration == 0.0 && currentSpeed == 0.0
    {
      token := DefaultToken;
      prefs := stored;
      lastAcceleration, currentSpeed := 0.0, 0.0;
    }

    /**
     * The token part of `onCreate`: read the stored token, defaulting to
     * "123456", and write the default back when that is what was read.
     * Afterwards the stored and the shown token agree.
     */
    method LoadToken()
      modifies this`token, this`prefs
      ensures token == old(prefs).token.GetOr(DefaultToken)
      ensures prefs == if token == DefaultToken then old(prefs).(token := Some(DefaultToken)) else old(prefs)
      ensures prefs.token == Some(token)
    {
      token := prefs.token.GetOr(DefaultToken);
      if token == DefaultToken {
        prefs := prefs.(token := Some(DefaultToken));
      }
    }

    /** `saveToken`: empty input is ignored, anything else becomes the token and is stored. */
    method SaveToken(input: string)
      modifies this`token, this`prefs
      ensures input == "" ==> token == old(token) && prefs == old(prefs)
      ensures input != "" ==> token == input && prefs == old(prefs).(token := Some(input))
    {
      if input != "" {
        token := input;
        prefs := prefs.(token := Some(token));
      }
    }

    /** `savePort`: only a number in 1024..65535 is stored; otherwise nothing changes. */
    method SavePort(input: string) returns (outcome: PortOutcome)
      modifies this`prefs
      ensures outcome == PortInput(input)
      ensures prefs == if outcome.Saved? then old(prefs).(port := Some(outcome.port)) else old(prefs)
    {
      if input == "" {
        return Ignored;
      }
      var parsed := Decimal.ParseInt(input);
      if parsed.None? {
        return NotANumber;
      }
      var port := parsed.value;
      if 1024 <= port <= 65535 {
        prefs := prefs.(port := Some(port));
        outcome := Saved(port);
      } else {
        outcome := OutOfRange(port);
      }
    }

    /**
     * `onSensorChanged`, with the magnitude of the event's values given.
     * Events of other sensors leave both fields as they were.
     */
    method OnSensorChanged(event: SensorEvent)
      modifies this`lastAcceleration, this`currentSpeed
      ensures State() == OnSensor(old(State()), event)
      ensures old(lastAcceleration) >= 0.0 && event.magnitude >= 0.0 ==> lastAcceleration >= 0.0
      ensures old(currentSpeed) >= 0.0 ==> currentSpeed >= 0.0
    {
      if event.sensorType == TypeLinearAcceleration {
        lastAcceleration := lastAcceleration * Alpha + event.magnitude * (1.0 - Alpha);
        if lastAcceleration > MotionThreshold {
          currentSpeed := currentSpeed + lastAcceleration * NominalInterval;
        } else {
          currentSpeed := currentSpeed * Decay;
        }
        if currentSpeed < 0.0 {
          currentSpeed := 0.0;
        }
      }
    }
  }
}
