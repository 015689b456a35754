/**
 * The PHP log-batch endpoint (backend/log_collector.php).
 *
 * A POST body `{"logs": [...]}` is decoded, every entry that carries a log
 * type, a message and a timestamp is handed to `insertLog`, and the handler
 * answers 200 when every entry was stored and 207 otherwise. PHP library calls
 * are parameters: `decoded` is the result of json_decode (None when
 * json_last_error() reports an error), `connects` says whether
 * getDbConnection returned a connection, `insertOk(i)` is what insertLog
 * returns when it is called for the i-th entry, and `Library` carries
 * filter_var(…, FILTER_SANITIZE_STRING), json_encode and date('c').
 */
module LogCollector {
  import opened Wrappers
  import opened Values

  /** The library calls the handler makes, as uninterpreted functions. */
  datatype Library = Library(sanitize: Json -> string, encode: Json -> string, now: string)

  /** The arguments bound to one INSERT statement by insertLog (lines 87-92). */
  datatype InsertCall = InsertCall(logType: string, message: string, data: Option<string>, timestamp: Json)

  /** The JSON bodies the handler echoes. */
  datatype Body =
    | NoContent
    | Failure(message: string)
    | Logged(successCount: nat)
    | PartiallyLogged(successCount: nat, errorCount: nat)

  /** Sent on every response, before any other logic runs (lines 7-13). */
  const ResponseHeaders: map<string, string> := map[
    "Content-Type" := "application/json",
    "Access-Control-Allow-Origin" := "*",
    "Access-Control-Allow-Methods" := "POST, OPTIONS",
    "Access-Control-Allow-Headers" := "Content-Type"]

  datatype Response = Response(code: int, headers: map<string, string>, body: Body)

  /**
   * One run of the script: the response, whether the request body was read,
   * whether a database connection was attempted, and the inserts made in order.
   */
  datatype Run = Run(response: Response, bodyRead: bool, dbAttempted: bool, calls: seq<InsertCall>)

  const OnlyPostMessage := "Only POST method is allowed."
  const InvalidInputMessage := "Invalid input data. Expected a JSON object with a \"logs\" array."
  const DbFailureMessage := "Failed to connect to the database."

  function Respond(code: int, body: Body): Response
  {
    Response(code, ResponseHeaders, body)
  }

  /** `is_array`: a decoded JSON array or object is a PHP array. */
  predicate IsPhpArray(v: Json)
  {
    v.Array? || v.Object?
  }

  /**
   * `isset($v[key])` for a non-numeric key: only a decoded object has string
   * keys, and a key holding null is not set.
   */
  predicate IsSet(v: Json, key: string)
  {
    v.Object? && Lookup(v.members, key).Some? && !Lookup(v.members, key).value.Null?
  }

  function Field(v: Json, key: string): Json
    requires IsSet(v, key)
  {
    Lookup(v.members, key).value
  }

  /** Line 138: the check an entry must pass before it is inserted. */
  predicate WellFormed(entry: Json)
  {
    IsSet(entry, "log_type") && IsSet(entry, "message") && IsSet(entry, "timestamp")
  }

  /** The keys of an object in the order its PHP array keeps them: each at its first occurrence. */
  function DistinctKeys(members: seq<Member>): (ks: seq<string>)
    ensures forall k :: k in ks <==> exists i :: 0 <= i < |members| && members[i].key == k
    ensures forall i, j :: 0 <= i < j < |ks| ==> ks[i] != ks[j]
    decreases |members|
  {
    if members == [] then []
    else
      var init := members[..|members| - 1];
      var ks := DistinctKeys(init);
      assert forall i :: 0 <= i < |init| ==> init[i] == members[i];
      if members[|members| - 1].key in ks then ks else ks + [members[|members| - 1].key]
  }

  /**
   * `ks` lists keys in order of first occurrence: whenever `ks[p]` comes before
   * `ks[q]`, every member carrying `ks[q]` is preceded by one carrying `ks[p]`.
   */
  ghost predicate KeysInFirstOrder(members: seq<Member>, ks: seq<string>)
  {
    forall p, q, a :: 0 <= p < q < |ks| && 0 <= a < |members| && members[a].key == ks[q] ==>
      exists b :: 0 <= b < a && members[b].key == ks[p]
  }

  /** `DistinctKeys` lists the keys in the order PHP's array keeps them. */
  lemma {:induction false} DistinctKeysInOrder(members: seq<Member>)
    ensures KeysInFirstOrder(members, DistinctKeys(members))
    decreases |members|
  {
    if members != [] {
      var n := |members| - 1;
      var init := members[..n];
      DistinctKeysInOrder(init);
      var ks, ks0 := DistinctKeys(members), DistinctKeys(init);
      forall p, q, a | 0 <= p < q < |ks| && 0 <= a < |members| && members[a].key == ks[q]
        ensures exists b :: 0 <= b < a && members[b].key == ks[p]
      {
        assert ks[p] == ks0[p];
        if a < n && q < |ks0| {
          assert init[a] == members[a] && ks[q] == ks0[q];
          var b :| 0 <= b < a && init[b].key == ks0[p];
          assert members[b] == init[b];
        } else {
          if a < n { assert false; }
          assert ks0[p] in ks0;
          var c :| 0 <= c < |init| && init[c].key == ks0[p];
          assert members[c] == init[c];
        }
      }
    }
  }

  /**
   * What `foreach` over a PHP array decoded from a JSON object visits: for each
   * key, in first-occurrence order, the value its last occurrence carries.
   */
  function PhpValues(members: seq<Member>): (vs: seq<Json>)
    ensures |vs| == |DistinctKeys(members)|
    ensures forall i :: 0 <= i < |vs| ==> Lookup(members, DistinctKeys(members)[i]) == Some(vs[i])
  {
    var ks := DistinctKeys(members);
    assert forall i :: 0 <= i < |ks| ==> ks[i] in ks && Lookup(members, ks[i]).Some?;
    seq(|ks|, i requires 0 <= i < |ks| => Lookup(members, ks[i]).value)
  }

  /**
   * Line 114: the entries of `$input['logs']`, or None when the body did not
   * decode, has no non-null `logs`, or `logs` is not an array.
   */
  function LogsOf(decoded: Option<Json>): (logs: Option<seq<Json>>)
    ensures logs.Some? <==> decoded.Some? && IsSet(decoded.value, "logs") && IsPhpArray(Field(decoded.value, "logs"))
    ensures logs.Some? && Field(decoded.value, "logs").Array? ==> logs.value == Field(decoded.value, "logs").elems
    ensures logs.Some? && Field(decoded.value, "logs").Object? ==> logs.value == PhpValues(Field(decoded.value, "logs").members)
  {
    if decoded.Some? && IsSet(decoded.value, "logs") then
      match Field(decoded.value, "logs")
      case Array(elems) => Some(elems)
      case Object(members) => Some(PhpValues(members))
      case _ => None
    else None
  }

  /**
   * Line 141: `$data`. None is PHP null; a present non-array value is wrapped as
   * `['raw_data' => value]`; an array is kept.
   */
  function NormaliseData(entry: Json): (d: Option<Json>)
    ensures d.Some? <==> IsSet(entry, "data")
    ensures d.Some? ==> IsPhpArray(d.value)
    ensures d.Some? && IsPhpArray(Field(entry, "data")) ==> d.value == Field(entry, "data")
    ensures d.Some? && !IsPhpArray(Field(entry, "data")) ==> d.value == Object([Member("raw_data", Field(entry, "data"))])
  {
    if !IsSet(entry, "data") then None
    else if IsPhpArray(Field(entry, "data")) then Some(Field(entry, "data"))
    else Some(Object([Member("raw_data", Field(entry, "data"))]))
  }

  /** PHP truthiness of an array: it is truthy when it is not empty. */
  predicate NonEmpty(v: Json)
    requires IsPhpArray(v)
  {
    if v.Array? then |v.elems| > 0 else |v.members| > 0
  }

  /** Line 83: `$data ? json_encode($data) : null`. */
  function StoredData(data: Option<Json>, encode: Json -> string): (s: Option<string>)
    requires data.Some? ==> IsPhpArray(data.value)
    ensures s.Some? <==> data.Some? && NonEmpty(data.value)
  {
    if data.Some? && NonEmpty(data.value) then Some(encode(data.value)) else None
  }

  /**
   * Line 91: `$data['timestamp'] ?? $data['timestamp'] ?? date('c')`. The
   * entry's own `timestamp` field plays no part.
   */
  function StoredTimestamp(data: Option<Json>, now: string): (t: Json)
    ensures data.Some? && IsSet(data.value, "timestamp") ==> t == Field(data.value, "timestamp")
    ensures !(data.Some? && IsSet(data.value, "timestamp")) ==> t == String(now)
  {
    if data.Some? && IsSet(data.value, "timestamp") then Field(data.value, "timestamp") else String(now)
  }

  /** Lines 139-145 and 83-91: the insert made for a well-formed entry. */
  function CallFor(entry: Json, lib: Library): InsertCall
    requires WellFormed(entry)
  {
    var data := NormaliseData(entry);
    InsertCall(lib.sanitize(Field(entry, "log_type")), lib.sanitize(Field(entry, "message")),
               StoredData(data, lib.encode), StoredTimestamp(data, lib.now))
  }

  /** The inserts the loop makes over `logs`, in order: one per well-formed entry. */
  function Calls(logs: seq<Json>, lib: Library): (calls: seq<InsertCall>)
    ensures |calls| <= |logs|
    decreases |logs|
  {
    if logs == [] then []
    else
      var last := logs[|logs| - 1];
      Calls(logs[..|logs| - 1], lib) + if WellFormed(last) then [CallFor(last, lib)] else []
  }

  /** Entry by entry, whether the loop counts it as a success. */
  function SuccessFlags(logs: seq<Json>, insertOk: nat -> bool): (flags: seq<bool>)
    ensures |flags| == |logs|
  {
    seq(|logs|, i requires 0 <= i < |logs| => WellFormed(logs[i]) && insertOk(i))
  }

  function CountTrue(flags: seq<bool>): (n: nat)
    ensures n <= |flags|
    decreases |flags|
  {
    if flags == [] then 0
    else CountTrue(flags[..|flags| - 1]) + if flags[|flags| - 1] then 1 else 0
  }

  /** All flags are counted exactly when all of them are set. */
  lemma {:induction false} CountTrueAll(flags: seq<bool>)
    ensures CountTrue(flags) == |flags| <==> forall i :: 0 <= i < |flags| ==> flags[i]
    decreases |flags|
  {
    if flags != [] {
      var init := flags[..|flags| - 1];
      CountTrueAll(init);
      assert forall i :: 0 <= i < |init| ==> init[i] == flags[i];
    }
  }

  /** The entries counted as successes: well-formed ones whose insert returned true. */
  function Successes(logs: seq<Json>, insertOk: nat -> bool): (n: nat)
    ensures n <= |logs|
  {
    CountTrue(SuccessFlags(logs, insertOk))
  }

  /**
   * Lines 133-155: the `foreach` that inserts and counts. Every entry adds one
   * to exactly one of the two counters.
   */
  method InsertAll(logs: seq<Json>, insertOk: nat -> bool, lib: Library)
    returns (successCount: nat, errorCount: nat, calls: seq<InsertCall>)
    ensures successCount + errorCount == |logs|
    ensures successCount == Successes(logs, insertOk)
    ensures calls == Calls(logs, lib)
  {
    successCount, errorCount, calls := 0, 0, [];
    ghost var flags := SuccessFlags(logs, insertOk);
    for i := 0 to |logs|
      invariant successCount + errorCount == i
      invariant successCount == CountTrue(flags[..i])
      invariant calls == Calls(logs[..i], lib)
    {
      assert logs[..i + 1][..i] == logs[..i];
      assert flags[..i + 1][..i] == flags[..i];
      var entry := logs[i];
      if WellFormed(entry) {
        calls := calls + [CallFor(entry, lib)];
        if insertOk(i) {
          successCount := successCount + 1;
        } else {
          errorCount := errorCount + 1;
        }
      } else {
        errorCount := errorCount + 1;
      }
    }
    assert logs[..|logs|] == logs;
    assert flags[..|logs|] == flags;
  }

  /**
   * The whole script. OPTIONS is answered with 204 first; any other non-POST
   * method with 405 before the body is read; a bad body with 400 before any
   * connection is attempted; a failed connection with 500 before any entry is
   * processed; otherwise 200 when no entry failed and 207 with both counts
   * when one did.
   */
  method HandleLogBatch(requestMethod: string, decoded: Option<Json>, connects: bool, insertOk: nat -> bool, lib: Library)
    returns (run: Run)
    ensures run.response.headers == ResponseHeaders
    ensures requestMethod == "OPTIONS" ==> run == Run(Respond(204, NoContent), false, false, [])
    ensures requestMethod != "OPTIONS" && requestMethod != "POST" ==>
      run == Run(Respond(405, Failure(OnlyPostMessage)), false, false, [])
    ensures requestMethod == "POST" && LogsOf(decoded).None? ==>
      run == Run(Respond(400, Failure(InvalidInputMessage)), true, false, [])
    ensures requestMethod == "POST" && LogsOf(decoded).Some? && !connects ==>
      run == Run(Respond(500, Failure(DbFailureMessage)), true, true, [])
    ensures requestMethod == "POST" && LogsOf(decoded).Some? && connects ==>
      var logs := LogsOf(decoded).value;
      var successes := Successes(logs, insertOk);
      && run.bodyRead && run.dbAttempted
      && run.calls == Calls(logs, lib)
      && (run.response.code == 200 <==> successes == |logs|)
      && run.response.code in {200, 207}
      && run.response.body == (if successes == |logs| then Logged(successes)
                               else PartiallyLogged(successes, |logs| - successes))
  {
    if requestMethod == "OPTIONS" {
      return Run(Respond(204, NoContent), false, false, []);
    }
    if requestMethod != "POST" {
      return Run(Respond(405, Failure(OnlyPostMessage)), false, false, []);
    }
    var logs := LogsOf(decoded);
    if logs.None? {
      return Run(Respond(400, Failure(InvalidInputMessage)), true, false, []);
    }
    if !connects {
      return Run(Respond(500, Failure(DbFailureMessage)), true, true, []);
    }
    var successCount, errorCount, calls := InsertAll(logs.value, insertOk, lib);
    var response := if errorCount == 0 then Respond(200, Logged(successCount))
                    else Respond(207, PartiallyLogged(successCount, errorCount));
    run := Run(response, true, true, calls);
  }

  /**
   * No error is reported exactly when every entry is well-formed and every
   * insert succeeded; so an empty batch is a plain success.
   */
  lemma AllLoggedIff(logs: seq<Json>, insertOk: nat -> bool)
    ensures Successes(logs, insertOk) == |logs| <==>
      forall i :: 0 <= i < |logs| ==> WellFormed(logs[i]) && insertOk(i)
  {
    var flags := SuccessFlags(logs, insertOk);
    CountTrueAll(flags);
    assert forall i :: 0 <= i < |logs| ==> flags[i] == (WellFormed(logs[i]) && insertOk(i));
  }

  /** The inserts of a concatenation are those of its parts, in order. */
  lemma {:induction false} CallsAppend(a: seq<Json>, b: seq<Json>, lib: Library)
    ensures Calls(a + b, lib) == Calls(a, lib) + Calls(b, lib)
    decreases |b|
  {
    if b == [] {
      assert a + b == a;
    } else {
      var init := b[..|b| - 1];
      assert (a + b)[..|a + b| - 1] == a + init;
      CallsAppend(a, init, lib);
    }
  }

  /** A malformed entry leaves the inserts exactly as if it were not in the batch. */
  lemma MalformedNotInserted(logs: seq<Json>, i: nat, lib: Library)
    requires i < |logs| && !WellFormed(logs[i])
    ensures Calls(logs, lib) == Calls(logs[..i] + logs[i + 1..], lib)
  {
    var before, entry, after := logs[..i], logs[i], logs[i + 1..];
    assert logs == (before + [entry]) + after;
    assert [entry][..0] == [];
    assert Calls([entry], lib) == [];
    CallsAppend(before, [entry], lib);
    CallsAppend(before + [entry], after, lib);
    CallsAppend(before, after, lib);
  }

  /** A malformed entry is always counted as an error. */
  lemma MalformedIsError(logs: seq<Json>, i: nat, insertOk: nat -> bool)
    requires i < |logs| && !WellFormed(logs[i])
    ensures Successes(logs, insertOk) < |logs|
  {
    AllLoggedIff(logs, insertOk);
  }

  /**
   * The stored timestamp never depends on the entry's own `timestamp`: two
   * entries that differ only there produce the same insert timestamp.
   */
  lemma OwnTimestampIgnored(members: seq<Member>, t1: Json, t2: Json, lib: Library)
    requires WellFormed(Object(members + [Member("timestamp", t1)]))
    requires WellFormed(Object(members + [Member("timestamp", t2)]))
    ensures CallFor(Object(members + [Member("timestamp", t1)]), lib).timestamp ==
            CallFor(Object(members + [Member("timestamp", t2)]), lib).timestamp
  {
  }
}
