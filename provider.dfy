/**
 * `GPSContentProvider`: a read-only view of the service's last fix as a
 * cursor of at most one row. The bound service is an input (it is set only
 * by the binding callbacks); the write operations do nothing.
 */
module Provider {
  import opened Wrappers
  import opened Platform
  import Server

  const Columns: seq<string> := ["latitude", "longitude", "accuracy", "time"]

  /** A cell of a `MatrixCursor` row, in the boxed type it was added as. */
  datatype CursorValue = DoubleValue(d: real) | FloatValue(f: real) | LongValue(l: int)

  datatype Cursor = Cursor(columnNames: seq<string>, rows: seq<seq<CursorValue>>)

  /** The `gpsService` field: unbound, or bound to a service with its `lastLocation`. */
  datatype Binding = Unbound | Bound(lastLocation: Option<Location>)

  /** The position of `name` among the column names, as `getColumnIndex` finds it. */
  function ColumnIndex(columns: seq<string>, name: string): (i: Option<nat>)
    ensures i.Some? ==> i.value < |columns| && columns[i.value] == name
    ensures i.None? ==> name !in columns
  {
    if columns == [] then None
    else if columns[0] == name then Some(0)
    else match ColumnIndex(columns[1..], name)
      case Some(j) => Some(j + 1)
      case None => None
  }

  /** The cell of row `row` under the column called `name`, when both exist. */
  function Get(cursor: Cursor, row: nat, name: string): Option<CursorValue> {
    match ColumnIndex(cursor.columnNames, name)
    case Some(j) =>
      if row < |cursor.rows| && j < |cursor.rows[row]| then Some(cursor.rows[row][j]) else None
    case None => None
  }

  /**
   * `query`: always the four columns latitude, longitude, accuracy, time;
   * no row while unbound or without a fix, else exactly one row of four cells.
   */
  function Query(service: Binding): (c: Cursor)
    ensures c.columnNames == Columns
    ensures |c.rows| == (if service.Bound? && service.lastLocation.Some? then 1 else 0)
    ensures forall row :: row in c.rows ==> |row| == |Columns|
  {
    var rows := match service
      case Bound(Some(location)) =>
        [[DoubleValue(location.latitude), DoubleValue(location.longitude),
          FloatValue(location.accuracy), LongValue(location.time)]]
      case _ => [];
    Cursor(Columns, rows)
  }

  /** Reading the one row by column name gives back the fix's four fields. */
  lemma QueryReadsBack(location: Location)
    ensures var c := Query(Bound(Some(location)));
      Get(c, 0, "latitude") == Some(DoubleValue(location.latitude))
      && Get(c, 0, "longitude") == Some(DoubleValue(location.longitude))
      && Get(c, 0, "accuracy") == Some(FloatValue(location.accuracy))
      && Get(c, 0, "time") == Some(LongValue(location.time))
      && Get(c, 0, "speed").None? && Get(c, 1, "latitude").None?
  {
  }

  /**
   * The provider and the HTTP endpoint report the same fix: the row's
   * latitude, longitude, accuracy and time are the JSON's.
   */
  lemma QueryAgreesWithServer(req: Server.Request, prefs: Prefs, location: Location, now: int)
    requires Server.Authorized(req, prefs) && req.uri == Server.ApiPath
    ensures var json := Server.Serve(req, prefs, Some(location), now).body.json;
      Query(Bound(Some(location))).rows
        == [[DoubleValue(json.latitude), DoubleValue(json.longitude),
             FloatValue(json.accuracy), LongValue(json.locationTime)]]
  {
  }

  /** `getType`: no MIME type is declared. */
  function GetType(uri: string): (r: Option<string>)
    ensures r.None?
  {
    None
  }

  /** `insert`: nothing is inserted and no URI comes back. */
  function Insert(uri: string, values: map<string, CursorValue>): (r: Option<string>)
    ensures r.None?
  {
    None
  }

  /** `delete`: no row is deleted. */
  function Delete(uri: string, selection: Option<string>): (r: int)
    ensures r == 0
  {
    0
  }

  /** `update`: no row is updated. */
  function Update(uri: string, values: map<string, CursorValue>, selection: Option<string>): (r: int)
    ensures r == 0
  {
    0
  }
}
