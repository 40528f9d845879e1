/**
 * The two platform records the core shares: a position fix
 * (`android.location.Location`) and the `gps_prefs` shared preferences.
 */
module Platform {
  import opened Wrappers

  /**
   * A position fix as the app reads it. Coordinates and accuracy are the
   * platform's doubles and floats, taken here as exact reals; `speed` is
   * absent when `hasSpeed()` is false; `time` is the fix's own timestamp in
   * milliseconds.
   */
  datatype Location = Location(
    latitude: real,
    longitude: real,
    accuracy: real,
    speed: Option<real>,
    time: int)

  /**
   * The `gps_prefs` store: the `token` string and the `port` int, each
   * absent until something writes it.
   */
  datatype Prefs = Prefs(token: Option<string>, port: Option<int>)
}
