/**
 * One page query against Loki (`fetchLogsFromLoki`): the request parameters,
 * the handling of the reply, and the page's last timestamp. The HTTP exchange
 * and the JSON decoding are given as an abstract `Exchange` value.
 */
module Query {
  import opened GoTime
  import opened Decimal
  import opened Outcomes
  import opened Response
  import opened Sorting

  /** `LokiConfig`, without its logger. */
  datatype LokiConfig = LokiConfig(lokiUrl: string, checkpointFile: string, query: string, maxQueryLogs: int)

  /** A GET request: base URL and `url.Values` (every key set once). */
  datatype Request = Request(url: string, params: map<string, string>)

  /** Where an exchange failed before a status code was seen. */
  datatype Stage = CreateRequest | SendRequest | ReadBody

  /** Whether `json.Unmarshal` accepted the body, and what it decoded. */
  datatype Decoding = Malformed | Decoded(result: seq<Stream>)

  /** What the HTTP client and the JSON decoder make of one request. */
  datatype Exchange =
    | TransportFailure(stage: Stage, reason: string)
    | Reply(status: int, body: string, decoding: Decoding)

  datatype FetchError =
    | RequestFailed(stage: Stage, reason: string)
    | UnexpectedStatus(code: int, body: string)

  /** The round trip of one request through the HTTP client and the JSON decoder. */
  function Send(client: Request -> Exchange, request: Request): Exchange {
    client(request)
  }

  const StatusOK: int := 200
  const MalformedPrefix: string := "[ERROR: Failed to parse Loki response] "

  /** The query starts at the cursor, unless the cursor is the zero time. */
  function EffectiveStart(startTime: Time, cursor: Time): Time {
    if IsZero(cursor) then startTime else cursor
  }

  /** The parameters of the query for one page. */
  function QueryParams(query: string, startTime: Time, endTime: Time, cursor: Time, maxQueryLogs: int): map<string, string> {
    map[
      "query" := query,
      "start" := FormatInt(EffectiveStart(startTime, cursor)),
      "end" := FormatInt(endTime),
      "limit" := FormatInt(maxQueryLogs),
      "direction" := "forward"]
  }

  function QueryRequest(cfg: LokiConfig, startTime: Time, endTime: Time, cursor: Time, maxQueryLogs: int): Request {
    Request(cfg.lokiUrl, QueryParams(cfg.query, startTime, endTime, cursor, maxQueryLogs))
  }

  /**
   * The request names exactly five parameters; the query text, the window
   * `[effective start, end)` in nanoseconds, the page cap and a forward
   * direction can be read back from them.
   */
  lemma QueryParamsCarryWindow(query: string, startTime: Time, endTime: Time, cursor: Time, maxQueryLogs: int)
    requires InInt64(EffectiveStart(startTime, cursor)) && InInt64(endTime) && InInt64(maxQueryLogs)
    ensures var p := QueryParams(query, startTime, endTime, cursor, maxQueryLogs);
      && p.Keys == {"query", "start", "end", "limit", "direction"}
      && p["query"] == query
      && ParseInt(p["start"]) == IntParse(EffectiveStart(startTime, cursor), true)
      && ParseInt(p["end"]) == IntParse(endTime, true)
      && ParseInt(p["limit"]) == IntParse(maxQueryLogs, true)
      && p["direction"] == "forward"
  {
    ParseFormatRoundTrip(EffectiveStart(startTime, cursor));
    ParseFormatRoundTrip(endTime);
    ParseFormatRoundTrip(maxQueryLogs);
  }

  /** `queryParams.Set(...)`, one parameter after the other. */
  method BuildQueryParams(query: string, startTime: Time, endTime: Time, cursor: Time, maxQueryLogs: int)
    returns (params: map<string, string>)
    ensures params == QueryParams(query, startTime, endTime, cursor, maxQueryLogs)
  {
    params := map[];
    params := params["query" := query];
    var effectiveStart := startTime;
    if !IsZero(cursor) {
      effectiveStart := cursor;
    }
    params := params["start" := FormatInt(effectiveStart)];
    params := params["end" := FormatInt(endTime)];
    params := params["limit" := FormatInt(maxQueryLogs)];
    params := params["direction" := "forward"];
  }

  /**
   * The timestamp of the final value of the last stream that has values, or
   * the zero time when no stream has any. A timestamp that does not parse
   * becomes whatever `strconv.ParseInt` returned alongside its error.
   */
  function LastTimestamp(result: seq<Stream>): (t: Time)
    ensures IsZero(t) || InInt64(t)
    decreases |result|
  {
    if result == [] then ZeroTime
    else
      var values := result[|result| - 1].values;
      if |values| > 0 then Unix(ParseInt(values[|values| - 1].timestamp).value)
      else LastTimestamp(result[..|result| - 1])
  }

  /** The last timestamp is the zero time exactly when every stream is empty. */
  lemma {:induction false} LastTimestampZero(result: seq<Stream>)
    ensures IsZero(LastTimestamp(result)) <==> forall i :: 0 <= i < |result| ==> result[i].values == []
    decreases |result|
  {
    if result != [] {
      var init := result[..|result| - 1];
      LastTimestampZero(init);
      if IsZero(LastTimestamp(result)) {
        forall i | 0 <= i < |result| ensures result[i].values == [] {
          if i < |init| {
            assert init[i] == result[i];
          }
        }
      }
    }
  }

  /** The last timestamp comes from the final value of stream `k` when every later stream is empty. */
  lemma {:induction false} LastTimestampOfLastNonEmpty(result: seq<Stream>, k: int)
    requires 0 <= k < |result| && result[k].values != []
    requires forall j :: k < j < |result| ==> result[j].values == []
    ensures var values := result[k].values;
      LastTimestamp(result) == Unix(ParseInt(values[|values| - 1].timestamp).value)
    decreases |result|
  {
    if k < |result| - 1 {
      var init := result[..|result| - 1];
      assert result[|result| - 1].values == [];
      assert LastTimestamp(result) == LastTimestamp(init);
      forall j | k < j < |init| ensures init[j].values == [] {
        assert init[j] == result[j];
      }
      LastTimestampOfLastNonEmpty(init, k);
    }
  }

  /**
   * The last timestamp is not the latest across streams: a later entry in an
   * earlier stream is ignored.
   */
  lemma LastTimestampIsNotMaximum()
    ensures var result := [Stream(map[], [Value("7", "late")]), Stream(map[], [Value("3", "early")])];
      LastTimestamp(result) == 3 && Value("7", "late") in Flatten(result)
  {
    var result := [Stream(map[], [Value("7", "late")]), Stream(map[], [Value("3", "early")])];
    assert result[..1] == [result[0]];
    assert ParseInt("3") == IntParse(3, true) by {
      assert "3"[..0] == [];
    }
  }

  /** The error a reply is turned into, if any. */
  function ReplyError(ex: Exchange): (e: Option<FetchError>)
    ensures e.None? <==> ex.Reply? && ex.status == StatusOK
  {
    match ex
    case TransportFailure(stage, reason) => Some(RequestFailed(stage, reason))
    case Reply(status, body, _) => if status != StatusOK then Some(UnexpectedStatus(status, body)) else None
  }

  /** The last timestamp of the page a reply yields. */
  function PageLast(ex: Exchange): Time {
    if ReplyError(ex).Some? || ex.decoding.Malformed? then ZeroTime else LastTimestamp(ex.decoding.result)
  }

  /** The number of lines of the page a reply yields. */
  function PageSize(ex: Exchange): nat {
    if ReplyError(ex).Some? then 0
    else if ex.decoding.Malformed? then 1
    else |EntriesOf(Flatten(ex.decoding.result))|
  }

  /**
   * `(logs, lastTimestamp, err)` is what `fetchLogsFromLoki` returns for the
   * reply `ex`: on a transport failure or a status other than 200, the error
   * and no lines; on an undecodable body, the body as one marked line; else
   * the collected entries' messages ordered by time, and the last timestamp.
   */
  ghost predicate PageOutcome(ex: Exchange, logs: seq<string>, lastTimestamp: Time, err: Option<FetchError>) {
    && err == ReplyError(ex)
    && lastTimestamp == PageLast(ex)
    && |logs| == PageSize(ex)
    && (if err.Some? then logs == []
        else if ex.decoding.Malformed? then logs == [MalformedPrefix + ex.body]
        else SortedMessagesOf(logs, EntriesOf(Flatten(ex.decoding.result))))
  }

  /** The backward scan over `lokiResponse.Data.Result` for the last timestamp. */
  method ScanLastTimestamp(result: seq<Stream>) returns (lastTimestamp: Time)
    ensures lastTimestamp == LastTimestamp(result)
  {
    lastTimestamp := ZeroTime;
    var i := |result| - 1;
    assert result[..i + 1] == result;
    while i >= 0
      invariant -1 <= i < |result|
      invariant LastTimestamp(result) == LastTimestamp(result[..i + 1])
      invariant lastTimestamp == ZeroTime
    {
      var values := result[i].values;
      assert result[..i + 1][i] == result[i];
      if |values| > 0 {
        lastTimestamp := Unix(ParseInt(values[|values| - 1].timestamp).value);
        break;
      }
      assert result[..i + 1][..i] == result[..i];
      i := i - 1;
    }
  }

  /** `fetchLogsFromLoki(startTime, endTime, cursor, maxqueryLogs)` with the exchange done by `client`. */
  method FetchLogsFromLoki(cfg: LokiConfig, client: Request -> Exchange, startTime: Time, endTime: Time, cursor: Time, maxQueryLogs: int)
    returns (logs: seq<string>, lastTimestamp: Time, err: Option<FetchError>)
    ensures PageOutcome(Send(client, QueryRequest(cfg, startTime, endTime, cursor, maxQueryLogs)), logs, lastTimestamp, err)
  {
    var params := BuildQueryParams(cfg.query, startTime, endTime, cursor, maxQueryLogs);
    var exchange := Send(client, Request(cfg.lokiUrl, params));
    match exchange {
      case TransportFailure(stage, reason) =>
        return [], ZeroTime, Some(RequestFailed(stage, reason));
      case Reply(status, body, decoding) =>
        if status != StatusOK {
          return [], ZeroTime, Some(UnexpectedStatus(status, body));
        }
        match decoding {
          case Malformed =>
            return [MalformedPrefix + body], ZeroTime, None;
          case Decoded(result) =>
            logs := SortingLogs(result);
            lastTimestamp := ScanLastTimestamp(result);
            err := None;
        }
    }
  }
}
