/**
 * The payload the callback plugin posts, as the receiver decodes it
 * (`json.dumps(payload)` on one side, `request.json()` on the other).
 */
module Pipeline {
  import Json
  import Wrappers
  import StatusWebhook
  import WebhookReceiver

  function CountersJson(c: StatusWebhook.Counters): (v: Json.Value)
    ensures v.Obj? && v.fields.Keys == c.Keys
    ensures forall k :: k in c ==> v.fields[k] == Json.Num(c[k])
  {
    Json.Obj(map k | k in c :: Json.Num(c[k]))
  }

  function StringsJson(hosts: seq<string>): (v: Json.Value)
    ensures v.Arr? && |v.items| == |hosts|
    ensures forall i :: 0 <= i < |hosts| ==> v.items[i] == Json.Str(hosts[i])
  {
    Json.Arr(seq(|hosts|, i requires 0 <= i < |hosts| => Json.Str(hosts[i])))
  }

  /** The JSON object the receiver decodes from a posted payload. */
  function PayloadJson(p: StatusWebhook.Payload): (v: Json.Value)
    ensures v.Obj? && v.fields.Keys == {"status", "hosts", "summary", "playbook"}
    ensures v.fields["status"] == Json.Str(p.status)
    ensures v.fields["playbook"] == Json.Str(p.playbook)
    ensures v.fields["hosts"] == StringsJson(p.hosts)
    ensures v.fields["summary"].Obj? && v.fields["summary"].fields.Keys == p.summary.Keys
    ensures forall h :: h in p.summary ==> v.fields["summary"].fields[h] == CountersJson(p.summary[h])
  {
    Json.Obj(map["status" := Json.Str(p.status),
                 "hosts" := StringsJson(p.hosts),
                 "summary" := Json.Obj(map h | h in p.summary :: CountersJson(p.summary[h])),
                 "playbook" := Json.Str(p.playbook)])
  }

  /** A payload built from `stats` is always accepted by the receiver (from a
      known client) and logged at INFO exactly when no host failed: the
      receiver trusts the producer's verdict without recomputing it. */
  lemma ReceiverLevelMatchesRun(stats: StatusWebhook.Stats, p: StatusWebhook.Payload,
                                timestamp: string, clientIp: string)
    requires p.status == if StatusWebhook.AnyHostFailed(stats) then "failed" else "success"
    ensures WebhookReceiver.Accepts(WebhookReceiver.Parsed(PayloadJson(p)), Wrappers.Some(clientIp))
    ensures var record := WebhookReceiver.Enrich(PayloadJson(p).fields, timestamp, clientIp);
            WebhookReceiver.LevelFor(record) == WebhookReceiver.Info <==> !StatusWebhook.AnyHostFailed(stats)
  {
  }
}
