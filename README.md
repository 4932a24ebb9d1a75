# Ansible pull status webhook — Dafny model

This project models the two pieces of logic in the status-reporting path of an
Ansible pull setup:

- the **webhook receiver** (`scripts/webhook-receiver/webhook_receiver.py`): a
  service that accepts status reports on `POST /webhook`, stamps each with a
  server-side timestamp and the caller's address, chooses a log severity, and
  keeps the last 100 accepted reports in memory (`status_history`,
  `MAX_HISTORY`), exposed through `GET /` and `GET /status`;
- the **`status_webhook` callback plugin**
  (`ansible-playbooks/plugins/callback/status_webhook.py`): when a playbook
  finishes it sorts the processed hosts, builds a per-host summary, folds an
  overall `success`/`failed` status, posts the payload, and only displays a
  message or a warning about the outcome.

Files:

- `wrappers.dfy` — `Option`, standing for Python's `None` or a present value.
- `json.dfy` — decoded JSON values, with objects as maps; `Get` is `dict.get`.
- `webhook_receiver.dfy` — module `WebhookReceiver`: the class `Receiver` owns
  `history` (`status_history`) and a ghost list `accepted` of every accepted
  record. Its invariant `Valid()` states that `history` is the last
  `min(100, |accepted|)` accepted records in arrival order.
  `ReceiveWebhook` is the `POST` handler, and `Root` and `GetStatus` are the
  two `GET` views.
- `str_order.dfy` — module `StrOrder`: Python's code-point order on `str` and
  `Sorted`, the result of `sorted()` on a set of host names.
- `status_webhook.dfy` — module `StatusWebhook`: the class `CallbackModule`
  with the fields `webhook_url`, `disabled` and `_playbook_name`, plus the
  messages shown through Ansible's display. `OnStats` is
  `v2_playbook_on_stats`.
- `pipeline.dfy` — module `Pipeline`: a payload as the receiver decodes it.
  Its lemma ties the producer's verdict to the receiver's log level.

Inputs the code takes from its environment are parameters:

- the decoded request body is `ParseResult` (`Parsed(v)`, `DecodeError`, or
  `ReadError` for any other exception while reading the body);
- the clock reading is `now: string`;
- `request.client` is `Option<string>`;
- `ANSIBLE_WEBHOOK_URL` is `Option<string>`;
- whether `requests` imports is `hasRequests: bool`;
- Ansible's `stats` is a map from each processed host to its counter map;
- the POST's outcome is `HttpResult` (`Status(code)` or `TransportError`).

Behaviour of the code worth knowing:

- The log level is INFO exactly when `status` is the string `"success"`, so a
  missing or unknown status logs at ERROR (webhook_receiver.py:78).
- `received_count` in `GET /` is the current history length
  (webhook_receiver.py:43), so it caps at 100. It is not a lifetime counter.
- No timestamp ordering is enforced (webhook_receiver.py:74). The timestamp
  is whatever the clock parameter says.
- A decoded body that is not a JSON object yields 500. Item assignment at
  line 74 raises on it. A request with no client address also yields 500,
  because `request.client.host` raises at line 75.

## Model

| member | source | states |
|---|---|---|
| `WebhookReceiver.Receiver.ReceiveWebhook` | scripts/webhook-receiver/webhook_receiver.py:56-110 | The only responses are 204, 400 `{"error": "Invalid JSON payload"}` and 500 `{"error": "Internal server error"}`. 400 happens iff the body failed to decode. 204 happens iff a JSON object was decoded and the client address is known. On any other response the history is unchanged. On 204 the enriched record is pushed onto the history and logged with its level. Every error response is logged at ERROR. The window invariant is kept throughout. |
| `WebhookReceiver.Receiver.constructor` | scripts/webhook-receiver/webhook_receiver.py:33 | The process starts with an empty history and nothing accepted. |
| `WebhookReceiver.Receiver.Root` | scripts/webhook-receiver/webhook_receiver.py:37-44 | The health document has exactly the keys `service`, `status` and `received_count`. `received_count` is the history length, which equals `min(100, accepted)`. The function reads state and changes nothing. |
| `WebhookReceiver.Receiver.GetStatus` | scripts/webhook-receiver/webhook_receiver.py:47-53 | `history_count` is the history length. `recent_updates` is the last `min(10, length)` entries, in their original order, and equals the last ten of everything accepted. The function changes nothing. |
| `WebhookReceiver.Enrich` | scripts/webhook-receiver/webhook_receiver.py:73-75 | The stored record has the payload's keys plus `timestamp` and `client_ip`. Those two keys hold the server's values, overwriting anything the client sent. Every other key keeps its value. |
| `WebhookReceiver.LevelFor` | scripts/webhook-receiver/webhook_receiver.py:77-78 | The level is INFO iff the key `status` is present and equal to the string `"success"`. Otherwise it is ERROR. |
| `Json.Get` | scripts/webhook-receiver/webhook_receiver.py:78-83 | `data.get(key)` is present iff the key is in the object, and then holds that key's value. |
| `WebhookReceiver.StatusLineFor` | scripts/webhook-receiver/webhook_receiver.py:78-84 | The logged line carries the chosen level and the record's `client_ip`, `status`, `playbook` and `summary`. Each field is absent when its key is absent. |
| `WebhookReceiver.Push` | scripts/webhook-receiver/webhook_receiver.py:86-89 | The new record is last. Below capacity the list grows by one and earlier entries are kept. At or above capacity exactly the oldest entry is dropped. From at most 100 entries the result has at most 100. |
| `WebhookReceiver.Tail` | scripts/webhook-receiver/webhook_receiver.py:52 | `s[-k:]` has `min(k, \|s\|)` elements and is a suffix of `s`. |
| `WebhookReceiver.WindowStep` | scripts/webhook-receiver/webhook_receiver.py:86-89 | Pushing onto the window of the accepted records gives the window of those records plus the new one. |
| `WebhookReceiver.ReplayIsWindow` | scripts/webhook-receiver/webhook_receiver.py:86-89 | After any sequence of accepted reports, the history is exactly the last `min(100, n)` of them in arrival order. |
| `WebhookReceiver.TailOfWindow` | scripts/webhook-receiver/webhook_receiver.py:50-53 | The last ten history entries are the last ten accepted reports. |
| `StatusWebhook.CallbackModule.constructor` | ansible-playbooks/plugins/callback/status_webhook.py:25-39 | `webhook_url` is `ANSIBLE_WEBHOOK_URL` when set, else `http://localhost:9191/webhook`. Without `requests` the plugin is disabled and shows a warning. No playbook name is recorded yet. |
| `StatusWebhook.CallbackModule.OnPlaybookStart` | ansible-playbooks/plugins/callback/status_webhook.py:98-100 | It records the base name of the playbook file. |
| `StatusWebhook.Basename` | ansible-playbooks/plugins/callback/status_webhook.py:100 | The base name is the longest suffix of the path that contains no `/`. |
| `StatusWebhook.CallbackModule.PlaybookLabel` | ansible-playbooks/plugins/callback/status_webhook.py:73 | The payload's `playbook` is the recorded name, or `unknown` when no start event was seen. |
| `StatusWebhook.CallbackModule.OnStats` | ansible-playbooks/plugins/callback/status_webhook.py:41-96 | A payload is sent iff the plugin is enabled and some host was processed. When disabled nothing is sent or shown. With no hosts it sends nothing and shows the "no hosts" warning. Otherwise the payload's `hosts` is the sorted host list, `summary` is exactly the stats map, `status` is `failed` iff some host failed, and `playbook` is the label. One delivery notice is shown and no error is raised. |
| `StatusWebhook.Aggregate` | ansible-playbooks/plugins/callback/status_webhook.py:56-66 | The summary has exactly the given hosts as keys, each mapped to its counters. The overall status is `failed` iff some host has `failures > 0` or `unreachable > 0` (a missing counter reads as 0). Otherwise it is `success`. |
| `StatusWebhook.Counter` | ansible-playbooks/plugins/callback/status_webhook.py:65 | `host_stats.get(key, 0)` is the counter when present and 0 when missing. |
| `StatusWebhook.HostFailed` | ansible-playbooks/plugins/callback/status_webhook.py:65 | A host failed iff its `failures` or its `unreachable` counter, missing read as 0, is positive. |
| `StatusWebhook.DeliveryNotice` | ansible-playbooks/plugins/callback/status_webhook.py:85-96 | Delivery is reported as successful iff the status code is in 200..299. Any other code gives the "bad status" warning with that code. A transport exception gives the "send failed" warning. The notice is a warning exactly when delivery did not succeed. |
| `StrOrder.Sorted` | ansible-playbooks/plugins/callback/status_webhook.py:50 | `sorted(hosts)` lists every host exactly once, in strictly increasing code-point order. |
| `StrOrder.SortedIsTheSortedListing` | ansible-playbooks/plugins/callback/status_webhook.py:50 | Any strictly increasing listing of the host set equals `Sorted`, so the order is fully determined. |
| `StrOrder.LeastExists` | ansible-playbooks/plugins/callback/status_webhook.py:50 | Every non-empty set of host names has a least element under Python's string order. |
| `StrOrder.LessTotal` | ansible-playbooks/plugins/callback/status_webhook.py:50 | Python's string order is total: two different strings are always ordered one way or the other. |
| `StrOrder.LessTransitive` | ansible-playbooks/plugins/callback/status_webhook.py:50 | Python's string order is transitive. |
| `Pipeline.PayloadJson` | ansible-playbooks/plugins/callback/status_webhook.py:69-83 | The posted JSON object has exactly the keys `status`, `hosts`, `summary` and `playbook`, with the payload's values. `summary` maps each host to that host's counters. |
| `Pipeline.ReceiverLevelMatchesRun` | scripts/webhook-receiver/webhook_receiver.py:69-78 | The receiver accepts every payload the plugin builds when the client is known. It logs that payload at INFO exactly when no host failed. |

## Left out

- FastAPI and uvicorn plumbing is not modelled: routing, `Response`/`JSONResponse` objects, start-up and shut-down hooks, and the server launch (webhook_receiver.py:26-30, 113-130). Responses are `Response(code, body)`.
- Logging handlers and the log file are not modelled (webhook_receiver.py:15-24). The handler returns the record it would log instead of writing it. The exception text included in the error log lines is not modelled.
- JSON parsing itself is not modelled. It is the `ParseResult` input. JSON numbers are integers here, and object key order is not kept.
- `datetime.utcnow().isoformat()` and `request.client` are parameters. The timestamp's format is not checked, and no ordering between timestamps is claimed.
- Concurrency is not modelled. The handlers are `async` and take no locks; calls are modelled as strictly sequential.
- The network I/O of `requests.post` is not modelled: the URL, headers and 10-second timeout. Its outcome is the `HttpResult` input. The response text in the "bad status" warning is not modelled, and neither is the message's colour.
- `os.getenv`, Ansible's `CallbackBase`, its `stats` object and `_display` are replaced by inputs and by the `displayed` list. `disabled` is taken as false unless `requests` is missing, which is the base class's default.
- `StatusWebhook.Basename`: models `os.path.basename` as the suffix after the last `/` only. Other path semantics, such as Windows separators, are not modelled.
- `WebhookReceiver.Receiver.ReceiveWebhook`: "the history changes iff the response is 204" is stated for the ghost list of accepted records. The history value itself can come out equal to the previous one when a full history consists entirely of copies of the new record.
