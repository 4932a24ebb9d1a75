/**
 * The webhook receiver service: ingestion of status reports posted to
 * `/webhook`, the bounded in-memory history of accepted reports, and the
 * two read-only views `/` and `/status`.
 */
module WebhookReceiver {
  import opened Wrappers
  import Json

  /** Capacity of the in-memory history (`MAX_HISTORY`). */
  const MaxHistory: nat := 100
  /** Number of entries returned by `/status` (`status_history[-10:]`). */
  const RecentCount: nat := 10

  /** Outcome of reading and decoding the request body (`await request.json()`). */
  datatype ParseResult =
    | Parsed(value: Json.Value)
    | DecodeError   // `json.JSONDecodeError`
    | ReadError     // any other exception while reading the body

  datatype LogLevel = Info | Error

  /** The record the handler writes to its logger. */
  datatype LogRecord =
    | StatusLine(level: LogLevel, clientIp: Option<Json.Value>, status: Option<Json.Value>,
                 playbook: Option<Json.Value>, summary: Option<Json.Value>)
    | InvalidJson       // "Invalid JSON payload: ..."
    | ProcessingError   // "Error processing webhook: ..."
  {
    function Level(): LogLevel
    {
      if StatusLine? then level else Error
    }
  }

  datatype Response = Response(code: int, body: Option<Json.Value>)

  function ErrorBody(message: string): Json.Value
  {
    Json.Obj(map["error" := Json.Str(message)])
  }

  const NoContent := Response(204, None)
  const BadRequest := Response(400, Some(ErrorBody("Invalid JSON payload")))
  const ServerError := Response(500, Some(ErrorBody("Internal server error")))

  /** The parsed payload with the server-side `timestamp` and `client_ip`
      stamped over whatever the client sent under those keys. */
  function Enrich(data: map<string, Json.Value>, timestamp: string, clientIp: string): (r: map<string, Json.Value>)
    ensures r.Keys == data.Keys + {"timestamp", "client_ip"}
    ensures r["timestamp"] == Json.Str(timestamp)
    ensures r["client_ip"] == Json.Str(clientIp)
    ensures forall k :: k in data && k != "timestamp" && k != "client_ip" ==> r[k] == data[k]
  {
    data["timestamp" := Json.Str(timestamp)]["client_ip" := Json.Str(clientIp)]
  }

  /** Severity of the status line: INFO only for the exact string "success". */
  function LevelFor(data: map<string, Json.Value>): (l: LogLevel)
    ensures l == Info <==> "status" in data && data["status"] == Json.Str("success")
  {
    if Json.Get(data, "status") == Some(Json.Str("success")) then Info else Error
  }

  /** Append `record`, then drop the oldest entry once the list exceeds capacity. */
  function Push(history: seq<Json.Value>, record: Json.Value): (h: seq<Json.Value>)
    ensures |h| > 0 && h[|h| - 1] == record
    ensures |history| <= MaxHistory ==> |h| <= MaxHistory
    ensures |history| < MaxHistory ==> h == history + [record]
    ensures |history| >= MaxHistory ==> h == history[1..] + [record]
  {
    var appended := history + [record];
    if |appended| > MaxHistory then appended[1..] else appended
  }

  /** Python's `s[-k:]` for `k >= 1`: the last `k` entries, or all of them. */
  function Tail(s: seq<Json.Value>, k: nat): (t: seq<Json.Value>)
    requires k > 0
    ensures |t| == if |s| < k then |s| else k
    ensures s == s[..|s| - |t|] + t
  {
    if |s| <= k then s else s[|s| - k..]
  }

  /** The most recent `min(MaxHistory, |accepted|)` accepted records, in arrival order. */
  ghost function Window(accepted: seq<Json.Value>): seq<Json.Value>
  {
    Tail(accepted, MaxHistory)
  }

  /** The history a fresh process holds after accepting `records` in order. */
  ghost function Replay(records: seq<Json.Value>): seq<Json.Value>
  {
    if records == [] then [] else Push(Replay(records[..|records| - 1]), records[|records| - 1])
  }

  /** One accepted report moves the window by exactly one. */
  lemma WindowStep(accepted: seq<Json.Value>, record: Json.Value)
    ensures Push(Window(accepted), record) == Window(accepted + [record])
  {
  }

  /** Capacity invariant: after any sequence of accepted reports the history
      holds exactly the last `min(MaxHistory, n)` of them, oldest first. */
  lemma {:induction false} ReplayIsWindow(records: seq<Json.Value>)
    ensures Replay(records) == Window(records)
    ensures |Replay(records)| == if |records| < MaxHistory then |records| else MaxHistory
  {
    if records != [] {
      var init := records[..|records| - 1];
      ReplayIsWindow(init);
      WindowStep(init, records[|records| - 1]);
      assert init + [records[|records| - 1]] == records;
    }
  }

  /** The tail of the window is the tail of everything accepted. */
  lemma TailOfWindow(accepted: seq<Json.Value>)
    ensures Tail(Window(accepted), RecentCount) == Tail(accepted, RecentCount)
  {
  }

  /** Whether the handler reaches its 204 return: a decoded JSON object
      and a known client address. */
  predicate Accepts(request: ParseResult, client: Option<string>)
  {
    request.Parsed? && request.value.Obj? && client.Some?
  }

  /** The status line logged for an accepted record. */
  function StatusLineFor(record: map<string, Json.Value>): (log: LogRecord)
    ensures log.StatusLine? && log.level == LevelFor(record)
    ensures log.clientIp == Json.Get(record, "client_ip") && log.status == Json.Get(record, "status")
    ensures log.playbook == Json.Get(record, "playbook") && log.summary == Json.Get(record, "summary")
  {
    StatusLine(LevelFor(record), Json.Get(record, "client_ip"), Json.Get(record, "status"),
               Json.Get(record, "playbook"), Json.Get(record, "summary"))
  }

  /** The receiver process: `status_history` and the handlers that use it. */
  class Receiver {
    /** `status_history`, oldest first. */
    var history: seq<Json.Value>
    /** Every record accepted since start-up (no such list exists in the service). */
    ghost var accepted: seq<Json.Value>

    ghost predicate Valid()
      reads this
    {
      history == Window(accepted)
    }

    constructor ()
      ensures Valid() && history == [] && accepted == []
    {
      history := [];
      accepted := [];
    }

    /** `GET /`: the health document; `received_count` is the current
        history length, so it never exceeds the capacity. */
    function Root(): (r: Json.Value)
      reads this
      ensures r.Obj? && r.fields.Keys == {"service", "status", "received_count"}
      ensures r.fields["service"] == Json.Str("ansible-webhook-receiver")
      ensures r.fields["status"] == Json.Str("healthy")
      ensures r.fields["received_count"] == Json.Num(|history|)
      ensures Valid() ==> r.fields["received_count"].n
                          == if |accepted| < MaxHistory then |accepted| else MaxHistory
    {
      Json.Obj(map["service" := Json.Str("ansible-webhook-receiver"),
                   "status" := Json.Str("healthy"),
                   "received_count" := Json.Num(|history|)])
    }

    /** `GET /status`: the history length and its last ten entries in order. */
    function GetStatus(): (r: Json.Value)
      reads this
      ensures r.Obj? && r.fields.Keys == {"history_count", "recent_updates"}
      ensures r.fields["history_count"] == Json.Num(|history|)
      ensures r.fields["recent_updates"].Arr?
      ensures var recent := r.fields["recent_updates"].items;
              && |recent| == (if |history| < RecentCount then |history| else RecentCount)
              && history == history[..|history| - |recent|] + recent
      ensures Valid() ==> r.fields["recent_updates"].items == Tail(accepted, RecentCount)
    {
      TailOfWindow(accepted);
      Json.Obj(map["history_count" := Json.Num(|history|),
                   "recent_updates" := Json.Arr(Tail(history, RecentCount))])
    }

    /** `POST /webhook`, given the decoded body, the clock reading and the
        request's client address (`None` when the server reports none). */
    method ReceiveWebhook(request: ParseResult, now: string, client: Option<string>)
      returns (response: Response, log: LogRecord)
      requires Valid()
      modifies this
      ensures Valid()
      ensures response == NoContent || response == BadRequest || response == ServerError
      ensures response == BadRequest <==> request.DecodeError?
      ensures response == NoContent <==> Accepts(request, client)
      ensures response == BadRequest ==> log == InvalidJson
      ensures response == ServerError ==> log == ProcessingError
      ensures response != NoContent ==> log.Level() == Error
      ensures response != NoContent ==> history == old(history) && accepted == old(accepted)
      ensures response == NoContent ==>
                var record := Enrich(request.value.fields, now, client.value);
                && history == Push(old(history), Json.Obj(record))
                && accepted == old(accepted) + [Json.Obj(record)]
                && log == StatusLineFor(record)
    {
      match request {
        case DecodeError =>
          return BadRequest, InvalidJson;
        case ReadError =>
          return ServerError, ProcessingError;
        case Parsed(value) =>
          if !value.Obj? {
            // item assignment on a list, string, number, boolean or null raises
            return ServerError, ProcessingError;
          }
          var data := value.fields;
          data := data["timestamp" := Json.Str(now)];
          if client.None? {
            // `request.client.host` on a missing client raises
            return ServerError, ProcessingError;
          }
          data := data["client_ip" := Json.Str(client.value)];
          log := StatusLineFor(data);
          var record := Json.Obj(data);
          history := history + [record];
          if |history| > MaxHistory {
            history := history[1..];
          }
          WindowStep(accepted, record);
          accepted := accepted + [record];
          response := NoContent;
      }
    }
  }
}
