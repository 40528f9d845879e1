# time-of-gps in Dafny

A model of the logic inside a small Android app. The app tracks the device's
GPS position in a background service and estimates speed from the
accelerometer. It also publishes the last fix at `GET /time?token=…` on a
local HTTP server and through a read-only content provider.

The model has one module per source file, plus three helpers:

- `Server` (WebServer.kt): `serve` is a pure function. Its inputs are the
  decoded request, the stored preferences, the service's `lastLocation`
  (read once) and the clock. Its output is a `Response` value: status, MIME
  type, body and the headers `serve` adds.
- `Service` (GPSService.kt): a class `GPSService` with the fields the service
  updates in place. These are `lastLocation`, the ordered listener list,
  whether updates are requested, when the retry runnable is due, and the
  three traffic baselines. Its methods are proved against the pure functions
  `StartUpdates`, `RetryTick`, `RemoveFirst`, `Rate` and `FormatSpeed`. The
  platform is explicit input: the permission flag, what the location
  manager does when asked (`LocationProvider`: whether
  `requestLocationUpdates` throws, whether `getLastKnownLocation` throws, and
  the last known fix), the traffic counters and the clock.
- `Activity` (MainActivity.kt): a class `MainActivity` with the fields
  `token`, the `gps_prefs` store, `lastAcceleration` and `currentSpeed`. The
  estimator step is specified by the function `SensorStep`. Token and port
  input, the address string, and the IPv4 fallback search (a method with
  nested loops and an early return) are also here.
- `Provider` (GPSContentProvider.kt): `query` as a function from the
  binding to a cursor value, and the four write stubs.
- `Platform`: the fix (`android.location.Location`) and the `gps_prefs`
  store. `Decimal`: JVM decimal text (`Long.toString`, `%d`,
  `Integer.parseInt`). `Wrappers`: `Option` for Kotlin's nullable values.

Three points about the code:

- The JSON `"speed"` is the fix's own speed, or 0 when the fix has none. It
  is not the accelerometer estimate: that value lives only in
  `MainActivity.currentSpeed` and never reaches the server.
- A failure to bind the server's port is caught and logged in `onCreate`. It
  is not propagated, so it is not modelled.
- The server reads the port once, when it is constructed. The token is read
  on every request.

## Model

| member | source | states |
|---|---|---|
| `Server.Serve` | app/src/main/java/com/time/gps/WebServer.kt:24-70 | 401 exactly when the first `token` value is missing or differs from the stored or default token, whatever the path. The 401 is `text/plain` "Unauthorized: Invalid token" with no location data. An authorised `/time` gets 200 `application/json` with both CORS headers and the server's clock as `timestamp`. Any other authorised path gets 404 `text/plain` "Not Found". |
| `Server.JsonRoundTrip` | app/src/main/java/com/time/gps/WebServer.kt:38-48 | With no fix every number is 0 and status is "waiting". With a fix, status is "active", and a client reads back the fix's latitude, longitude, accuracy and time, plus its own speed (0 when it has none). |
| `Server.OnlyFirstTokenCompared` | app/src/main/java/com/time/gps/WebServer.kt:25 | Extra values of a repeated `token` parameter never change the response. |
| `Server.TokenReadPerRequest` | app/src/main/java/com/time/gps/WebServer.kt:19-28 | A request admitted under one stored token is refused once a different token is stored. Nothing is cached. |
| `Server.DefaultTokenWhenUnset` | app/src/main/java/com/time/gps/WebServer.kt:14-22 | While no token is stored, a request passes the token check iff its token is "123456". |
| `Provider.Query` | app/src/main/java/com/time/gps/GPSContentProvider.kt:37-54 | The columns are always latitude, longitude, accuracy, time, in that order. There is no row when the provider is unbound or there is no fix, and otherwise one row of four cells. |
| `Provider.QueryReadsBack` | app/src/main/java/com/time/gps/GPSContentProvider.kt:44-52 | Reading row 0 by column name gives the fix's latitude and longitude (double), accuracy (float) and time (long). There is no other column and no second row. |
| `Provider.QueryAgreesWithServer` | app/src/main/java/com/time/gps/GPSContentProvider.kt:45-51 | For the same fix, the provider's row holds the same four values as the server's JSON. |
| `Provider.GetType` | app/src/main/java/com/time/gps/GPSContentProvider.kt:56 | No MIME type (null). |
| `Provider.Insert` | app/src/main/java/com/time/gps/GPSContentProvider.kt:57 | Inserts nothing and returns null. |
| `Provider.Delete` | app/src/main/java/com/time/gps/GPSContentProvider.kt:58 | Deletes nothing and returns 0. |
| `Provider.Update` | app/src/main/java/com/time/gps/GPSContentProvider.kt:59 | Updates nothing and returns 0. |
| `Service.FormatSpeedReadsBack` | app/src/main/java/com/time/gps/GPSService.kt:96-102 | The text always reads back as a unit and a number. Below 1024 it is exactly n B/s. From 1024 up to 1048576 it is KB/s, otherwise MB/s, and the number is n/1024 or n/1048576 rounded half up to one decimal. |
| `Service.Rate` | app/src/main/java/com/time/gps/GPSService.kt:82-91 | The rate is the byte delta per elapsed second, truncated toward zero, with the delta's sign, on exact numbers. |
| `Service.StartUpdates` | app/src/main/java/com/time/gps/GPSService.kt:120-134 | Without permission, or when `requestLocationUpdates` throws, nothing changes. Otherwise updates are requested. The fix becomes the last known one, possibly none; when reading it throws, the old fix stays. The retry schedule is never touched. |
| `Service.RetryTick` | app/src/main/java/com/time/gps/GPSService.kt:111-118 | The tick re-posts itself 5000 ms later iff permission is missing or there is no fix, and then it has started updates. Otherwise only the pending post is gone. |
| `Service.RetryStopsAfterGrantAndFix` | app/src/main/java/com/time/gps/GPSService.kt:111-118 | After permission is granted, the next tick requests updates and re-posts itself. Once a fix has arrived, the tick 5000 ms later stops the loop. |
| `Service.RetryKeepsWaitingWithoutPermission` | app/src/main/java/com/time/gps/GPSService.kt:111-115 | Without permission the tick always re-posts itself and changes nothing else. |
| `Service.FirstIndex` | app/src/main/java/com/time/gps/GPSService.kt:61 | The index found holds the listener, and no earlier entry does. |
| `Service.RemoveFirst` | app/src/main/java/com/time/gps/GPSService.kt:60-62 | Exactly one occurrence, the first, is removed. The others keep their order. An absent listener leaves the list as it was. |
| `Service.RemoveUndoesAdd` | app/src/main/java/com/time/gps/GPSService.kt:56-62 | Removing a listener that was just appended, and was not there before, restores the list. |
| `Service.GPSService.constructor` | app/src/main/java/com/time/gps/GPSService.kt:29-37 | No fix, no listeners, no request, nothing posted, and zero baselines. |
| `Service.GPSService.OnCreate` | app/src/main/java/com/time/gps/GPSService.kt:136-149 | The baselines become the current counters and time. Updates are started once, and the retry runnable is posted to run at once. |
| `Service.GPSService.AddLocationListener` | app/src/main/java/com/time/gps/GPSService.kt:56-58 | Appends at the end. |
| `Service.GPSService.RemoveLocationListener` | app/src/main/java/com/time/gps/GPSService.kt:60-62 | The list becomes `RemoveFirst` of the old list. |
| `Service.GPSService.OnLocationChanged` | app/src/main/java/com/time/gps/GPSService.kt:65-68 | The fix becomes `lastLocation`. Every registered listener is invoked exactly once with it, in registration order. |
| `Service.GPSService.StartLocationUpdates` | app/src/main/java/com/time/gps/GPSService.kt:120-134 | The new state is `StartUpdates` of the old one. No `SecurityException` escapes. |
| `Service.GPSService.RunRetry` | app/src/main/java/com/time/gps/GPSService.kt:111-118 | The new state is `RetryTick` of the old one. It re-posts iff permission is missing or there is no fix. |
| `Service.GPSService.GetTrafficStats` | app/src/main/java/com/time/gps/GPSService.kt:77-94 | When no time has elapsed the result is "0 B/s" twice and all three baselines are unchanged. Otherwise the baselines become the current counters and time, and the texts format the two rates. |
| `Service.GPSService.OnDestroy` | app/src/main/java/com/time/gps/GPSService.kt:218-225 | Nothing stays posted. Updates are unregistered when permission is held. A second call changes nothing. |
| `Activity.SensorStep` | app/src/main/java/com/time/gps/MainActivity.kt:330-343 | The smoothed value is 0.8 times the previous one plus 0.2 times the magnitude, so it lies between the previous value and the magnitude. The speed is never negative. Above 0.5 the speed grows by a tenth of the smoothed value; otherwise it is multiplied by 0.95 and never grows. |
| `Activity.OnSensor` | app/src/main/java/com/time/gps/MainActivity.kt:328-329 | Events of any other sensor type leave both fields unchanged. After a linear-acceleration event the speed is at least 0. |
| `Activity.RunSpeedNonNegative` | app/src/main/java/com/time/gps/MainActivity.kt:343 | After any sequence of events the speed is at least 0. |
| `Activity.RunSmoothedBounded` | app/src/main/java/com/time/gps/MainActivity.kt:335 | The smoothed magnitude never leaves [0, bound] when it starts there and every sample's magnitude stays there. |
| `Activity.RunAtRestNeverSpeedsUp` | app/src/main/java/com/time/gps/MainActivity.kt:337-341 | When every magnitude is at most the 0.5 threshold, the speed never grows over any sequence of events. |
| `Activity.PortInput` | app/src/main/java/com/time/gps/MainActivity.kt:363-384 | Empty input is ignored. Input that is not an int gives `NotANumber`. Only a parsed value in 1024..65535 is `Saved`; any other value is `OutOfRange`. |
| `Activity.PortInputAcceptsEveryValidPort` | app/src/main/java/com/time/gps/MainActivity.kt:365-368 | Typing the decimal text of any port in 1024..65535 saves exactly that port. |
| `Activity.ServerAddressRoundTrip` | app/src/main/java/com/time/gps/MainActivity.kt:180-186 | The address "http://ip:port/time?token=t" splits back into the same host, port and token, for any host without ':'. |
| `Server.ListeningPort` | app/src/main/java/com/time/gps/WebServer.kt:8-16 | The server binds the stored port, or 8888 when none is stored. |
| `Activity.ShownAddressNamesListeningPort` | app/src/main/java/com/time/gps/MainActivity.kt:176-186 | The address shown names the host, the token, and the same port a server started with the same preferences binds, default included. |
| `Activity.ShownTokenIsAccepted` | app/src/main/java/com/time/gps/MainActivity.kt:107-115 | When the stored token is the activity's token, the server answers 200 on `/time` with that token. |
| `Activity.FirstIpv4HostIsFirstCandidate` | app/src/main/java/com/time/gps/MainActivity.kt:206-218 | The search returns the host of the first non-loopback IPv4 address in enumeration order. It returns "127.0.0.1" when there is none. |
| `Activity.Octets` | app/src/main/java/com/time/gps/MainActivity.kt:221 | Four bytes, low byte first, that rebuild the Wi-Fi address modulo 2^32. |
| `Activity.FormatIpAddress` | app/src/main/java/com/time/gps/MainActivity.kt:221 | The dotted-quad text has no ':' in it, so it can stand as the host of the address. |
| `Activity.FormatIpAddressReadsBack` | app/src/main/java/com/time/gps/MainActivity.kt:221 | The text splits at '.' into four decimal numbers that are the address's octets, low byte first. |
| `Activity.GetLocalIpAddress` | app/src/main/java/com/time/gps/MainActivity.kt:202-222 | The nested loops with an early return compute `LocalIpAddress`. That is the Wi-Fi address when it is not 0. Otherwise it is the first non-loopback IPv4 host, or "127.0.0.1" when enumeration throws, returns null or finds none. |
| `Activity.MainActivity.constructor` | app/src/main/java/com/time/gps/MainActivity.kt:43-50 | The token is the default and the preferences are the stored ones. Both estimator fields are 0. |
| `Activity.MainActivity.LoadToken` | app/src/main/java/com/time/gps/MainActivity.kt:107-115 | The token is the stored one, or "123456". The default is written back when it was the one read, so afterwards stored and shown token agree. |
| `Activity.MainActivity.SaveToken` | app/src/main/java/com/time/gps/MainActivity.kt:154-162 | Empty input changes nothing. Other input becomes the token and is stored. |
| `Activity.MainActivity.SavePort` | app/src/main/java/com/time/gps/MainActivity.kt:363-384 | The outcome is `PortInput` of the input. The stored port changes only on `Saved`. |
| `Activity.MainActivity.OnSensorChanged` | app/src/main/java/com/time/gps/MainActivity.kt:328-349 | The fields change as `OnSensor` says. The speed stays at least 0, and the smoothed value does too while magnitudes are non-negative. |
| `Decimal.ParseInteger` | app/src/main/java/com/time/gps/MainActivity.kt:367 | A text is read iff it is an optional '+' or '-' followed by at least one ASCII digit. Its value is the digits' decimal value, leading zeros allowed, negated after '-'. |
| `Decimal.ParseInt` | app/src/main/java/com/time/gps/MainActivity.kt:367 | `String.toInt` gives what `ParseInteger` reads when that lies within the 32-bit int range, and fails otherwise. |
| `Decimal.ParseIntOfIntToString` | app/src/main/java/com/time/gps/MainActivity.kt:367 | `toInt` reads back every int's decimal text as that int. |

## Left out

- Android lifecycle and supervision are platform glue: service binding, the
  foreground start, `START_STICKY`, the AlarmManager watchdog
  (ServiceMonitor.kt), boot start (BootReceiver.kt), and sensor registration
  in `onResume` and `onPause`.
- NanoHTTPD's own start, stop and socket binding are foreign calls. So are
  its query-string decoding and the extra headers `newFixedLengthResponse`
  adds. The request is modelled already decoded.
- Concurrency between the main-looper handler and the HTTP worker threads is
  not modelled. `serve` takes `lastLocation` as one value, which captures its
  single read of the field.
- Numbers are exact reals and unbounded ints. The model leaves out float and
  double rounding in the estimator and the JSON, the float-to-double
  widening, `Long` overflow of the counters and of `toLong`, org.json
  serialisation, and `sqrt`. A sensor event carries its magnitude.
- `Service.Rate`: computed on exact numbers. The source divides in doubles,
  so where the exact rate is a whole number it can come out one lower
  (539 bytes over 1078 ms gives 499, not 500).
- `Service.GPSService.GetTrafficStats`: inherits `Service.Rate`'s exact
  division, so such a rate is shown as "500 B/s" where the app shows
  "499 B/s".
- `Service.GPSService.StartLocationUpdates`: only `SecurityException` is
  modelled. The `IllegalArgumentException` that `requestLocationUpdates`
  throws on a device without a "gps" provider is not caught by the source
  and escapes `onCreate` and the retry tick; the model has no such outcome.
- `Service.FormatSpeedReadsBack`: the KB/s and MB/s text assumes a locale
  whose decimal separator is '.'. `String.format` uses the device locale.
- `Activity.ServerAddressRoundTrip`: `%d` is taken to print ASCII digits,
  whatever the locale. The token is not URL-encoded, and the model does not
  follow it through HTTP query decoding.
- `Service.GPSService.RunRetry`: permission is one input per tick. The
  source checks it twice in a tick (in the runnable and in
  `startLocationUpdates`), and the two checks could disagree.
- The traffic-notification runnable (`startTrafficUpdates`,
  `updateNotification`) and the notification itself are UI. Only
  `getTrafficStats` and `formatSpeed` are modelled.
- The bodies of the location callbacks (`updateLocationDisplay`,
  `showServerAddress`) are UI. `onLocationChanged` is modelled as the
  ordered trace of calls it makes. A callback that changes the list while
  it is iterated is not modelled.
- `Decimal.ParseInt`: ASCII digits only. `Integer.parseInt` also accepts
  other Unicode decimal digits.
- `showServerAddress`'s error text, toasts, the clipboard,
  `updateGPSStatus`, `isServiceRunning` and permission requests are UI.
  Restarting the service after a port is saved is only signalled by the
  `Saved` outcome.
