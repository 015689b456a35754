/**
 * The Flask log-batch endpoint (`log_entry` in app.py) and its two CORS hooks.
 *
 * `log_entry` keeps the items of `logs` that carry a log type, a message and a
 * timestamp, turns each into a row with a normalised timestamp, and hands the
 * rows to `executemany`. Library and database calls are parameters:
 * `body` is what `request.get_json()` returns (None when it raises),
 * `Library` carries `json.dumps` and `datetime.fromisoformat` followed by
 * `strftime('%Y-%m-%d %H:%M:%S')` and the zero test of a decoded number, and
 * `db` says how far the database step (cursor, `executemany`, `commit`) gets.
 */
module FlaskApp {
  import opened Wrappers
  import opened Values

  /**
   * `toSql(s)` is None when `fromisoformat(s)` raises ValueError.
   * `numberIsZero(m, e, isFloat)` says whether the int or float json.loads
   * makes of the literal m * 10^e is zero; a float can underflow to 0.0.
   */
  datatype Library = Library(dumps: Json -> string, toSql: string -> Option<string>, numberIsZero: (int, int, bool) -> bool)

  /**
   * The zero tests every conversion agrees on: a literal with mantissa 0 is
   * zero, and one whose value is at least 1 in magnitude is not.
   */
  ghost predicate ValidLibrary(lib: Library)
  {
    && (forall e, f :: lib.numberIsZero(0, e, f))
    && (forall m, e, f :: m != 0 && e >= 0 ==> !lib.numberIsZero(m, e, f))
  }

  /**
   * How far lines 76-80 get: `mysql.connection.cursor()` raises before any
   * insert, `executemany` or `commit` raises after the rows were handed over,
   * or all three succeed.
   */
  datatype DbStep = NoCursor | StoreFails | Stores

  /** One tuple `(log_type, message, extra_data, timestamp_sql)` (line 71). */
  datatype Row = Row(logType: Json, message: Json, extraData: Option<string>, timestamp: string)

  /** What the loop body does with one item: skip it, keep its row, or raise. */
  datatype ItemOutcome = Skipped | Kept(row: Row) | Raised

  datatype Header = Header(name: string, value: string)

  datatype Body =
    | Empty
    | NoValidLogs
    | Logged(count: nat)
    | InternalError
    | MethodNotAllowed

  datatype Response = Response(status: int, headers: seq<Header>, body: Body)

  /**
   * One request through the app: the response sent, whether the route body
   * ran, and the rows handed to `executemany` if that call was reached.
   */
  datatype Run = Run(response: Response, routeRan: bool, sunk: Option<seq<Row>>)

  const AllowOrigin := Header("Access-Control-Allow-Origin", "*")
  const AllowHeaders := Header("Access-Control-Allow-Headers", "Content-Type,Authorization")
  const AllowMethods := Header("Access-Control-Allow-Methods", "POST, GET, OPTIONS")

  /** `abort(500)` from the `except` clause (line 90). */
  const ServerError := Response(500, [], InternalError)

  /** Python truthiness of a decoded JSON value (lines 49 and 61). */
  predicate Truthy(v: Json, lib: Library)
  {
    match v
    case Null => false
    case Bool(b) => b
    case Number(mantissa, exponent, isFloat) => !lib.numberIsZero(mantissa, exponent, isFloat)
    case String(s) => s != ""
    case Array(elems) => elems != []
    case Object(members) => members != []
  }

  predicate IsSubstring(k: string, s: string)
  {
    exists i :: 0 <= i <= |s| && k <= s[i..]
  }

  /**
   * `key in v`: a dict tests its keys, a list its elements, a str its
   * substrings; None is the TypeError any other value raises.
   */
  function Contains(v: Json, key: string): (r: Option<bool>)
    ensures r.None? <==> !(v.Object? || v.Array? || v.String?)
    ensures v.Object? ==> r == Some(Lookup(v.members, key).Some?)
  {
    match v
    case Object(members) => Some(Lookup(members, key).Some?)
    case Array(elems) => Some(String(key) in elems)
    case String(s) => Some(IsSubstring(key, s))
    case _ => None
  }

  /**
   * Line 55: `all(key in log_item for key in [...])`. The first test raises for
   * a value that supports no `in`; otherwise every test yields a bool.
   */
  function HasRequiredKeys(item: Json): (r: Option<bool>)
    ensures r.None? <==> Contains(item, "log_type").None?
    ensures r == Some(true) <==>
      Contains(item, "log_type") == Some(true) && Contains(item, "message") == Some(true) &&
      Contains(item, "timestamp") == Some(true)
  {
    match Contains(item, "log_type")
    case None => None
    case Some(first) =>
      Some(first && Contains(item, "message") == Some(true) && Contains(item, "timestamp") == Some(true))
  }

  /** Line 65: `str.replace('Z', '+00:00')`, every occurrence. */
  function ReplaceZ(s: string): (r: string)
    ensures 'Z' !in r
    ensures 'Z' !in s ==> r == s
    ensures |r| >= |s|
    ensures |s| == 1 ==> r == if s[0] == 'Z' then "+00:00" else s
  {
    if s == [] then ""
    else (if s[0] == 'Z' then "+00:00" else [s[0]]) + ReplaceZ(s[1..])
  }

  /**
   * The replacement works character by character: together with its effect on
   * one character, this fixes `ReplaceZ` on every string.
   */
  lemma {:induction false} ReplaceZAppend(a: string, b: string)
    ensures ReplaceZ(a + b) == ReplaceZ(a) + ReplaceZ(b)
    decreases |a|
  {
    if a != [] {
      assert (a + b)[0] == a[0] && (a + b)[1..] == a[1..] + b;
      ReplaceZAppend(a[1..], b);
    } else {
      assert a + b == b;
    }
  }

  /**
   * Lines 64-69: the timestamp reformatted for SQL, or the original string
   * when it does not parse.
   */
  function SqlTimestamp(s: string, lib: Library): (t: string)
    ensures lib.toSql(ReplaceZ(s)).None? ==> t == s
    ensures lib.toSql(ReplaceZ(s)).Some? ==> t == lib.toSql(ReplaceZ(s)).value
  {
    match lib.toSql(ReplaceZ(s))
    case Some(formatted) => formatted
    case None => s
  }

  /**
   * Lines 55-71 for one item. `extra_data` is the JSON text of `data` when
   * `data` is truthy (line 61). A dict with the three keys is kept unless its
   * timestamp is not a str (`.replace` raises AttributeError); a list or str
   * that passes the `in` tests raises on `log_item['log_type']`.
   */
  function ClassifyItem(item: Json, lib: Library): (r: ItemOutcome)
    ensures r.Skipped? <==> HasRequiredKeys(item) == Some(false)
    ensures r.Kept? ==>
      && item.Object?
      && Lookup(item.members, "log_type") == Some(r.row.logType)
      && Lookup(item.members, "message") == Some(r.row.message)
      && Lookup(item.members, "timestamp").Some? && Lookup(item.members, "timestamp").value.String?
      && r.row.timestamp == SqlTimestamp(Lookup(item.members, "timestamp").value.s, lib)
      && var data := Lookup(item.members, "data");
         r.row.extraData == if data.Some? && Truthy(data.value, lib) then Some(lib.dumps(data.value)) else None
    ensures r.Kept? <==>
      && item.Object?
      && Lookup(item.members, "log_type").Some?
      && Lookup(item.members, "message").Some?
      && Lookup(item.members, "timestamp").Some?
      && Lookup(item.members, "timestamp").value.String?
  {
    match HasRequiredKeys(item)
    case None => Raised
    case Some(false) => Skipped
    case Some(true) =>
      match item
      case Object(members) =>
        (match Lookup(members, "timestamp").value
         case String(s) =>
           var data := Lookup(members, "data");
           var extra := if data.Some? && Truthy(data.value, lib) then Some(lib.dumps(data.value)) else None;
           Kept(Row(Lookup(members, "log_type").value, Lookup(members, "message").value, extra, SqlTimestamp(s, lib)))
         case _ => Raised)
      case _ => Raised
  }

  /**
   * Line 61 on a number: under a valid zero test, a `data` of 0 is dropped and
   * a number of magnitude at least 1 is stored as its `json.dumps` text.
   */
  lemma ZeroDataNotStored(item: Json, lib: Library)
    requires ValidLibrary(lib) && ClassifyItem(item, lib).Kept?
    ensures var data := Lookup(item.members, "data");
      && (data.Some? && data.value.Number? && data.value.mantissa == 0 ==>
            ClassifyItem(item, lib).row.extraData.None?)
      && (data.Some? && data.value.Number? && data.value.mantissa != 0 && data.value.exponent >= 0 ==>
            ClassifyItem(item, lib).row.extraData == Some(lib.dumps(data.value)))
  {
  }

  /** The rows the loop collects from `logs`, or None when some item raises. */
  function Collect(logs: seq<Json>, lib: Library): (r: Option<seq<Row>>)
    ensures r.Some? ==> |r.value| <= |logs|
    decreases |logs|
  {
    if logs == [] then Some([])
    else
      match Collect(logs[..|logs| - 1], lib)
      case None => None
      case Some(rows) =>
        match ClassifyItem(logs[|logs| - 1], lib)
        case Raised => None
        case Skipped => Some(rows)
        case Kept(row) => Some(rows + [row])
  }

  /** Once a prefix raises, so does the whole batch. */
  lemma {:induction false} CollectRaisedPrefix(logs: seq<Json>, k: nat, lib: Library)
    requires k <= |logs| && Collect(logs[..k], lib).None?
    ensures Collect(logs, lib).None?
    decreases |logs| - k
  {
    if k < |logs| {
      assert logs[..k + 1][..k] == logs[..k];
      CollectRaisedPrefix(logs, k + 1, lib);
    } else {
      assert logs[..k] == logs;
    }
  }

  /** The batch raises exactly when one of its items does. */
  lemma {:induction false} CollectRaisesIff(logs: seq<Json>, lib: Library)
    ensures Collect(logs, lib).None? <==> exists i :: 0 <= i < |logs| && ClassifyItem(logs[i], lib).Raised?
  {
    if logs != [] {
      var n := |logs| - 1;
      var init := logs[..n];
      CollectRaisesIff(init, lib);
      if Collect(init, lib).None? {
        var i :| 0 <= i < |init| && ClassifyItem(init[i], lib).Raised?;
        assert logs[i] == init[i];
      } else if !ClassifyItem(logs[n], lib).Raised? {
        forall i | 0 <= i < |logs| ensures !ClassifyItem(logs[i], lib).Raised? {
          if i < n { assert logs[i] == init[i]; }
        }
      }
    }
  }

  /** What the loop body does with each item, position by position. */
  function Outcomes(logs: seq<Json>, lib: Library): (outs: seq<ItemOutcome>)
    ensures |outs| == |logs|
  {
    seq(|logs|, i requires 0 <= i < |logs| => ClassifyItem(logs[i], lib))
  }

  /**
   * `idx` lists, in increasing order, the positions of exactly the kept
   * outcomes, and row j is the row kept at position idx[j].
   */
  ghost predicate SelectsKept(outs: seq<ItemOutcome>, rows: seq<Row>, idx: seq<nat>)
  {
    && |idx| == |rows|
    && (forall j :: 0 <= j < |idx| ==> idx[j] < |outs| && outs[idx[j]] == Kept(rows[j]))
    && (forall j, k :: 0 <= j < k < |idx| ==> idx[j] < idx[k])
    && (forall i :: 0 <= i < |outs| && outs[i].Kept? ==> i in idx)
  }

  /**
   * Lines 52-71: when no item raises, the rows are the kept items' rows, one
   * each, in input order; skipped items contribute nothing.
   */
  lemma {:induction false} CollectKeepsOrder(logs: seq<Json>, lib: Library)
    requires Collect(logs, lib).Some?
    ensures exists idx :: SelectsKept(Outcomes(logs, lib), Collect(logs, lib).value, idx)
  {
    if logs == [] {
      assert SelectsKept(Outcomes(logs, lib), [], []);
    } else {
      var n := |logs| - 1;
      CollectKeepsOrder(logs[..n], lib);
      var rows := Collect(logs[..n], lib).value;
      var outs := Outcomes(logs, lib);
      assert Outcomes(logs[..n], lib) == outs[..n];
      var idx: seq<nat> :| SelectsKept(outs[..n], rows, idx);
      assert outs[n] == ClassifyItem(logs[n], lib);
      SelectsExtend(outs, rows, idx);
    }
  }

  /** One more outcome at the end extends the selection by its position when it is kept. */
  lemma SelectsExtend(outs: seq<ItemOutcome>, rows: seq<Row>, idx: seq<nat>)
    requires outs != [] && SelectsKept(outs[..|outs| - 1], rows, idx)
    ensures var last := outs[|outs| - 1];
      && (last.Skipped? ==> SelectsKept(outs, rows, idx))
      && (last.Kept? ==> SelectsKept(outs, rows + [last.row], idx + [|outs| - 1]))
  {
  }

  /**
   * Lines 52-71: the `for` loop. `continue` skips an item; an exception leaves
   * the loop at once.
   */
  method CollectRows(logs: seq<Json>, lib: Library) returns (logsToInsert: seq<Row>, raised: bool)
    ensures raised <==> Collect(logs, lib).None?
    ensures !raised ==> Collect(logs, lib) == Some(logsToInsert)
  {
    logsToInsert, raised := [], false;
    var i := 0;
    while i < |logs|
      invariant 0 <= i <= |logs|
      invariant Collect(logs[..i], lib) == Some(logsToInsert)
    {
      assert logs[..i + 1][..i] == logs[..i];
      match ClassifyItem(logs[i], lib) {
        case Raised =>
          CollectRaisedPrefix(logs, i + 1, lib);
          raised := true;
          return;
        case Skipped =>
        case Kept(row) =>
          logsToInsert := logsToInsert + [row];
      }
      i := i + 1;
    }
    assert logs[..i] == logs;
  }

  /**
   * Line 49: the `logs` list of the request body. Every other body ends in
   * 500: `abort(400)`, the TypeError of `in` or of subscripting, and a
   * raising `get_json()` are all caught by the `except` at line 85.
   */
  function RequestLogs(body: Option<Json>, lib: Library): (logs: Option<seq<Json>>)
    ensures logs.Some? <==>
      body.Some? && body.value.Object? && Lookup(body.value.members, "logs").Some? &&
      Lookup(body.value.members, "logs").value.Array?
    ensures logs.Some? ==> logs.value == Lookup(body.value.members, "logs").value.elems
  {
    match body
    case None => None
    case Some(data) =>
      if !Truthy(data, lib) then None
      else match Contains(data, "logs")
        case None => None
        case Some(false) => None
        case Some(true) =>
          if !data.Object? then None
          else match Lookup(data.members, "logs").value
            case Array(elems) => Some(elems)
            case _ => None
  }

  /** What `log_entry` answers and what it hands to `executemany`. */
  ghost predicate RouteAnswers(body: Option<Json>, lib: Library, db: DbStep, response: Response, sunk: Option<seq<Row>>)
  {
    match RequestLogs(body, lib)
    case None => response == ServerError && sunk.None?
    case Some(logs) =>
      match Collect(logs, lib)
      case None => response == ServerError && sunk.None?
      case Some(rows) =>
        if rows == [] then response == Response(200, [], NoValidLogs) && sunk.None?
        else
          match db
          case NoCursor => response == ServerError && sunk.None?
          case StoreFails => response == ServerError && sunk == Some(rows)
          case Stores => response == Response(200, [], Logged(|rows|)) && sunk == Some(rows)
  }

  /** Lines 45-90: `log_entry`. */
  method LogEntry(body: Option<Json>, lib: Library, db: DbStep) returns (response: Response, sunk: Option<seq<Row>>)
    ensures RouteAnswers(body, lib, db, response, sunk)
  {
    var logs := RequestLogs(body, lib);
    if logs.None? {
      return ServerError, None;
    }
    var logsToInsert, raised := CollectRows(logs.value, lib);
    if raised {
      return ServerError, None;
    }
    if logsToInsert == [] {
      return Response(200, [], NoValidLogs), None;
    }
    if db == NoCursor {
      return ServerError, None;
    }
    sunk := Some(logsToInsert);
    response := if db == Stores then Response(200, [], Logged(|logsToInsert|)) else ServerError;
  }

  /** Lines 22-30: an OPTIONS request is answered before routing. */
  function HandleOptionsRequest(requestMethod: string): (r: Option<Response>)
    ensures r.Some? <==> requestMethod == "OPTIONS"
    ensures r.Some? ==> r.value.headers == [AllowHeaders, AllowMethods] && r.value.status == 200
  {
    if requestMethod == "OPTIONS" then Some(Response(200, [AllowHeaders, AllowMethods], Empty)) else None
  }

  /** Lines 35-40: every response gets `Access-Control-Allow-Origin: *` appended. */
  function AddCorsHeaders(response: Response): (r: Response)
    ensures r.status == response.status && r.body == response.body
    ensures |r.headers| == |response.headers| + 1
    ensures r.headers[..|r.headers| - 1] == response.headers && r.headers[|r.headers| - 1] == AllowOrigin
  {
    response.(headers := response.headers + [AllowOrigin])
  }

  /** The response without its last header: what the route produced before the after-request hook. */
  function BeforeHook(response: Response): Response
    requires response.headers != []
  {
    response.(headers := response.headers[..|response.headers| - 1])
  }

  /**
   * One request to `/api/log` through the app. `requestMethod` is
   * `request.method`, which Werkzeug has already upper-cased. The steps are the before-request hook,
   * routing (only POST reaches `log_entry`; Flask answers other methods with
   * 405), then the after-request hook on every response. The request path is
   * not an input: other paths (the 404 Flask gives, `/admin/logs`) are not
   * modelled.
   */
  method HandleRequest(requestMethod: string, body: Option<Json>, lib: Library, db: DbStep) returns (run: Run)
    ensures run.response.headers != [] && run.response.headers[|run.response.headers| - 1] == AllowOrigin
    ensures requestMethod == "OPTIONS" ==>
      run == Run(Response(200, [AllowHeaders, AllowMethods, AllowOrigin], Empty), false, None)
    ensures requestMethod != "OPTIONS" && requestMethod != "POST" ==>
      run == Run(Response(405, [AllowOrigin], MethodNotAllowed), false, None)
    ensures requestMethod == "POST" ==>
      run.routeRan && RouteAnswers(body, lib, db, BeforeHook(run.response), run.sunk)
  {
    var preflight := HandleOptionsRequest(requestMethod);
    var response: Response;
    var sunk: Option<seq<Row>> := None;
    var routeRan := false;
    if preflight.Some? {
      response := preflight.value;
    } else if requestMethod != "POST" {
      response := Response(405, [], MethodNotAllowed);
    } else {
      response, sunk := LogEntry(body, lib, db);
      routeRan := true;
    }
    var sent := AddCorsHeaders(response);
    assert BeforeHook(sent) == response;
    run := Run(sent, routeRan, sunk);
  }
}
