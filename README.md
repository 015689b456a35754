# Request handling in getpy, modelled in Dafny

The repository has three small request handlers:

- a Node forwarding proxy (`proxy.js`, `onRequest`). It takes the URL in the `target` query parameter, re-issues the inbound request against it, and relays the answer with `x-frame-options` and `content-security-policy` removed, so the page can be shown in an iframe;
- a PHP log-batch endpoint (`backend/log_collector.php`). It stores each well-formed entry of `{"logs": [...]}` through `insertLog` and answers 200 or 207 (Multi-Status) by counting outcomes;
- a Flask log-batch endpoint (`app.py`, `log_entry` and its two CORS hooks). It filters and maps the entries into insert tuples for `executemany`.

Each handler is one module. Library, network, clock and database calls are function-typed parameters or oracle values:

- `Proxy` (`proxy.dfy`): `parseUrl` stands for the WHATWG URL parser and `send` for the upstream's answer to an outbound request. The result of parsing the inbound URL and reading `searchParams.get("target")` is one input, `Result<Option<string>, string>`.
- `LogCollector` (`log_collector.dfy`): `decoded` is json_decode's result, `connects` says whether getDbConnection worked, and `insertOk(i)` is what insertLog returns for the i-th entry. `Library` carries filter_var, json_encode and date('c').
- `FlaskApp` (`flask_app.dfy`): `body` is `get_json()`'s result. `Library` carries `json.dumps`, `fromisoformat` + `strftime`, and `numberIsZero`, whether the int or float json.loads makes of a number literal is zero. `db` says how far the database step gets: the cursor cannot be opened, `executemany` or `commit` raises, or all succeed.
- `Values` (`values.dfy`): the decoded JSON tree both log handlers receive. Duplicate object keys resolve to the last occurrence, as in both decoders. A number is its literal's value plus whether the literal has a fraction or an exponent, which decides between int and float in json.loads (`json.dumps` writes `1` and `1.0` apart). What a decoder computes from the literal (a double that may round) is left to the library parameters: `numberIsZero` for Python truthiness, and `json.dumps` and `json_encode` for the stored text.
- `Wrappers` (`wrappers.dfy`): `Option` and `Result`.

The proxy's header filter and both log loops are methods with loops or in-place updates. Their `ensures` tie the result to specification functions (`Successes`, `Calls`, `Collect`) or predicates (`RelayedFrom`, `RouteAnswers`). The lemmas then prove what the source promises about those functions.

Where a reader might expect otherwise, the model follows the code:

- any scheme other than `https:` is forwarded over plain `http`, and no scheme is rejected;
- the outbound `host` header is the bare hostname, never `host:port`;
- header-name case is not handled by the proxy. Node lower-cases incoming names, so the model keys headers by lower-case names;
- in the Flask handler, the `abort(400)` for a malformed body is raised inside the `try`. The generic `except` turns it into a 500, so that handler never answers 400.

Other behaviour of the code as written:

- the PHP handler stores `$data['timestamp']` or, failing that, the server clock. The entry's own sanitised timestamp is never used (line 91 repeats `$data['timestamp']` twice). `LogCollector.OwnTimestampIgnored` proves the stored timestamp does not depend on it.
- PHP accepts a JSON object as `logs`, because `is_array` is true for it. Its values are visited once per distinct key, in first-occurrence order, each with the value of the key's last occurrence.
- In Flask, a str or list item that passes the three `in` tests (substring or element tests) raises TypeError on `log_item['log_type']`. Any scalar item raises at the first `in` test. A dict whose `timestamp` is not a str raises AttributeError on `.replace`. Each of these becomes a 500.

## Model

| member | source | states |
|---|---|---|
| `Proxy.ResolveTarget` | proxy.js:25-47 | every rejection of the target is a 400 with the plain-text content type |
| `Proxy.SelectTransport` | proxy.js:50 | the `https` transport is chosen if and only if the protocol is `https:` |
| `Proxy.SelectPort` | proxy.js:55 | the URL's explicit port when non-empty, else 443 for `https:` and 80 for every other scheme |
| `Proxy.OutboundHeaders` | proxy.js:58-61 | the outbound headers equal the inbound ones at every key but `host`; `host` is always present and equals the bare hostname |
| `Proxy.BuildRequest` | proxy.js:50-62 | transport iff `https:`, the target hostname, the port rule, path = pathname + search, method unchanged, and the header merge |
| `Proxy.RelayedFrom` | proxy.js:69-72 | the relayed headers are the upstream ones minus the two framing headers, values unchanged |
| `Proxy.StripSecurityHeaders` | proxy.js:69-72 | the relayed headers are the upstream ones with exactly the two framing headers removed: nothing added, nothing else changed |
| `Proxy.RelayedFromUnique` | proxy.js:69-75 | the relayed header set is determined by the upstream header set |
| `Proxy.RelayScenario` | proxy.js:69-75 | upstream `{content-security-policy, x-custom: v}` is relayed as `{x-custom: v}` alone |
| `Proxy.OnRequest` | proxy.js:23-90 | a missing or empty target gives 400 with no upstream request; a target the parser rejects gives 400 carrying the parser's message, with no upstream request; for an accepted target `request` is called once, with the options `BuildRequest` describes; the upstream status is forwarded with the filtered headers; an upstream error gives 502 with its message; a synchronous throw from `request` leaves the caller with no answer |
| `Values.Lookup` | backend/log_collector.php:111 | a key is found exactly when some member carries it |
| `Values.LookupIsLast` | backend/log_collector.php:111 | the value found is that of the last member with the key (a later duplicate overrides) |
| `Values.LookupAppend` | backend/log_collector.php:111 | a member appended at the end wins for its key and leaves every other key unchanged |
| `LogCollector.LogsOf` | backend/log_collector.php:110-118 | entries exist exactly when the body decoded, `logs` is set and non-null, and `logs` is an array; a JSON list is taken as is, and a JSON object yields `PhpValues` of its members |
| `LogCollector.IsPhpArray` | backend/log_collector.php:141 | `is_array` holds of a decoded JSON array or object and of nothing else |
| `LogCollector.IsSet` | backend/log_collector.php:138-141 | `isset($v[key])` holds when `v` is an object with a non-null value at `key` |
| `LogCollector.WellFormed` | backend/log_collector.php:138 | an entry is inserted only when `log_type`, `message` and `timestamp` are all set |
| `LogCollector.DistinctKeys` | backend/log_collector.php:136 | the keys of a decoded object, each once, and exactly those that occur |
| `LogCollector.DistinctKeysInOrder` | backend/log_collector.php:136 | the keys come in order of first occurrence: before any member carrying a later key there is a member carrying each earlier key |
| `LogCollector.PhpValues` | backend/log_collector.php:136 | `foreach` over an object-shaped `logs` visits one value per distinct key, in `DistinctKeys` order, and the value at each key is the one lookup finds there (the last occurrence) |
| `LogCollector.NormaliseData` | backend/log_collector.php:141 | absent or null `data` becomes null; an array is kept; any other value becomes `['raw_data' => value]`; the result is always null or an array |
| `LogCollector.NonEmpty` | backend/log_collector.php:83 | PHP truthiness of an array: it is truthy when it holds at least one element or member |
| `LogCollector.StoredData` | backend/log_collector.php:83 | JSON is stored exactly when `data` is a non-empty array, otherwise null |
| `LogCollector.StoredTimestamp` | backend/log_collector.php:91 | `data['timestamp']` when set, otherwise the current time |
| `LogCollector.CallFor` | backend/log_collector.php:139-145 | the insert for a well-formed entry: sanitised type and message, the stored data and timestamp rules |
| `LogCollector.Calls` | backend/log_collector.php:136-155 | the inserts of a batch, one per well-formed entry in order, so never more than there are entries |
| `LogCollector.SuccessFlags` | backend/log_collector.php:138-149 | one flag per entry: well-formed and its insert returned true |
| `LogCollector.CountTrue` | backend/log_collector.php:146 | a count of set flags never exceeds the number of flags |
| `LogCollector.CountTrueAll` | backend/log_collector.php:161 | every flag is counted exactly when every flag is set |
| `LogCollector.Successes` | backend/log_collector.php:133-155 | the success count never exceeds the number of entries |
| `LogCollector.InsertAll` | backend/log_collector.php:133-155 | successCount + errorCount equals the number of entries; successCount counts well-formed entries whose insert returned true; the inserts are one per well-formed entry, in order |
| `LogCollector.HandleLogBatch` | backend/log_collector.php:16-167 | OPTIONS gives 204 first; other non-POST methods give 405 before the body is read; a bad body gives 400 before any connection attempt; a failed connection gives 500 with no entry processed; otherwise 200 iff no error (empty batch included), else 207 reporting both counts |
| `LogCollector.AllLoggedIff` | backend/log_collector.php:161-167 | no error is counted if and only if every entry is well-formed and every insert succeeded |
| `LogCollector.CallsAppend` | backend/log_collector.php:136-155 | the inserts of a concatenated batch are those of its parts, in order |
| `LogCollector.MalformedNotInserted` | backend/log_collector.php:138-154 | a malformed entry leaves the inserts exactly as if it were absent |
| `LogCollector.MalformedIsError` | backend/log_collector.php:150-154 | a malformed entry forces a non-zero error count |
| `LogCollector.OwnTimestampIgnored` | backend/log_collector.php:91 | entries that differ only in their own `timestamp` store the same timestamp |
| `FlaskApp.Truthy` | app.py:49-61 | Python truthiness: None and False are falsy, a number is falsy when the decoded value is zero, a str, list or dict when empty |
| `FlaskApp.IsSubstring` | app.py:55 | `key in s` for a str: `key` occurs at some position of `s` |
| `FlaskApp.ZeroDataNotStored` | app.py:61 | with a valid zero test, `data` equal to a number with mantissa 0 gives `extra_data = None`, and a number of magnitude at least 1 is stored as `json.dumps` of it |
| `FlaskApp.Contains` | app.py:55 | `in` raises only for values that are not dict, list or str; for a dict it is a key test |
| `FlaskApp.HasRequiredKeys` | app.py:55 | the `all(...)` test holds exactly when all three `in` tests hold; it raises exactly when the first one does |
| `FlaskApp.ReplaceZ` | app.py:65 | no `Z` remains, a string without `Z` is unchanged, and on one character `Z` becomes `+00:00` while any other character stays |
| `FlaskApp.ReplaceZAppend` | app.py:65 | the replacement distributes over concatenation; with `ReplaceZ`'s one-character rule (`Z` becomes `+00:00`, any other character stays), it fixes the result on every string |
| `FlaskApp.SqlTimestamp` | app.py:64-69 | the reformatted time when the parse succeeds, else the original string unchanged |
| `FlaskApp.ClassifyItem` | app.py:53-71 | an item is kept exactly when it is a dict holding all three keys with a str timestamp; it is skipped exactly when the key test is false; a kept row carries the item's own log_type and message, the timestamp rule and the `extra_data` rule |
| `FlaskApp.Collect` | app.py:52-71 | the rows the loop collects, or none when an item raises; never more rows than items |
| `FlaskApp.Outcomes` | app.py:53 | one outcome per item |
| `FlaskApp.CollectRaisedPrefix` | app.py:52-71 | once a prefix of the batch raises, the whole batch does |
| `FlaskApp.CollectRaisesIff` | app.py:52-71 | the loop raises if and only if some item raises |
| `FlaskApp.CollectKeepsOrder` | app.py:52-71 | the rows are exactly the kept items' rows, one each, in input order |
| `FlaskApp.SelectsExtend` | app.py:52-71 | a further item extends the selection by its position exactly when it is kept |
| `FlaskApp.CollectRows` | app.py:52-71 | the loop raises exactly when `Collect` does, and otherwise builds exactly `Collect`'s rows |
| `FlaskApp.RequestLogs` | app.py:46-50 | the handler proceeds exactly when the body is a dict whose `logs` is a list |
| `FlaskApp.RouteAnswers` | app.py:45-90 | the answer `log_entry` gives for a body and a database outcome, and the rows that reach `executemany` |
| `FlaskApp.LogEntry` | app.py:45-90 | a bad body or a raising item gives 500; no valid item gives 200 "No valid logs to insert." with no `executemany`; a cursor that cannot be opened gives 500 with no `executemany`; otherwise the rows go to `executemany`, and the success message counts exactly them, or 500 when `executemany` or `commit` raises |
| `FlaskApp.HandleOptionsRequest` | app.py:22-30 | OPTIONS, and only OPTIONS, is answered before routing (the method as Werkzeug upper-cases it), with the allow-headers and allow-methods headers |
| `FlaskApp.AddCorsHeaders` | app.py:35-40 | `Access-Control-Allow-Origin: *` is appended; status, body and earlier headers are unchanged |
| `FlaskApp.HandleRequest` | app.py:22-44 | every response ends with `Access-Control-Allow-Origin: *`; OPTIONS never runs the route; non-POST methods get 405; POST answers as `log_entry` does |

## Left out

- Server start-up and the listener (proxy.js:10-16): process plumbing.
- Streaming. Neither the inbound body piped upstream nor the upstream body piped back (proxy.js:78, 89) is modelled. The body is the marker `UpstreamBody`. Backpressure and cancellation belong to the Node runtime.
- The `http`/`https` `request` call (proxy.js:65) is kept only as its outcome: a response (status and headers), an `error` event, or a synchronous throw. A throw (for example from an opaque-path target holding a space, `data:text/plain,a b`) is modelled as a request left without an answer. The process exit it causes, and the loss of every later request, are not modelled. An `error` event after the response has begun is not modelled.
- The WHATWG URL parser and `searchParams.get` are abstract parameters. The parser's results at lines 38 and 47 are taken to be equal, because it is deterministic.
- Proxy.OnRequest: header values are single strings. Node's array values (several `set-cookie` headers) are not modelled.
- All database I/O is an oracle: PDO/SQLite, getDbConnection, initializeDatabase, the SQL in insertLog, and the MySQL cursor with executemany, commit and rollback.
- Library and clock calls are uninterpreted: json_decode, json_encode, filter_var, date('c'), `get_json`, `json.dumps`, `fromisoformat` and `strftime`. json_encode is taken never to fail.
- LogCollector.StoredTimestamp: date('c') yields one value for the whole request, whereas the script reads the clock once per insert.
- LogCollector.HandleLogBatch: nothing is taken to be output before the status is set. With display_errors on (lines 3-4), PHP 8.1 and later print a deprecation notice for FILTER_SANITIZE_STRING (line 139) into the body. Without output buffering the headers are then already sent, so the 207 of line 165 would go out as 200. The model sends the status the code sets.
- FlaskApp.HandleRequest: the 405 Flask produces for other methods carries only the CORS header here. The framework's `Allow` header is not modelled.
- FlaskApp.HandleRequest: the response bodies are named variants, not jsonify's bytes or Flask's HTML error page.
- FlaskApp.HandleRequest: the header lists hold only the headers the app adds. The framework's own `Content-Type` and `Content-Length` (from `make_response`, `jsonify` and `abort`) are not modelled.
- FlaskApp.HandleRequest: every request is taken to be for `/api/log`. The request path is not an input, so Flask's 404 for other paths is not modelled.
- FlaskApp.ClassifyItem: the zero test of a decoded number is an oracle, `numberIsZero`. `ValidLibrary` pins the cases every conversion agrees on; float rounding and underflow to 0.0 (`1e-400`) are not computed. `NaN` and `Infinity`, which json.loads accepts, cannot be represented.
- `view_logs_admin` (app.py:94-115): a database read plus template rendering.
- Logging (`console.log`, `error_log`, `app.logger`): a side effect with no effect on the responses.
