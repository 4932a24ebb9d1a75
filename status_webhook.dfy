/**
 * The Ansible callback plugin that posts a run's per-host summary to the
 * receiver when a playbook finishes.
 */
module StatusWebhook {
  import opened Wrappers
  import StrOrder

  /** Destination used when `ANSIBLE_WEBHOOK_URL` is not set. */
  const DefaultUrl := "http://localhost:9191/webhook"
  /** Playbook name reported when no start event was seen. */
  const UnknownPlaybook := "unknown"

  /** Counters of one host, as `stats.summarize(host)` returns them. */
  type Counters = map<string, int>
  /** Ansible's run statistics: each processed host with its counters. */
  type Stats = map<string, Counters>

  /** What became of the POST: an HTTP status code, or a `RequestException`. */
  datatype HttpResult = Status(code: int) | TransportError

  /** Messages the plugin shows through Ansible's display. */
  datatype Notice =
    | MissingRequests     // warning: the `requests` library is missing
    | NoHosts             // warning: "No hosts found in stats"
    | Delivered(url: string)
    | BadStatus(code: int)  // warning: "Webhook returned status ..."
    | SendFailed          // warning: "Failed to send webhook: ..."
  {
    predicate IsWarning()
    {
      !Delivered?
    }
  }

  datatype Payload = Payload(status: string, hosts: seq<string>, summary: Stats, playbook: string)

  /** `host_stats.get(key, 0)`. */
  function Counter(c: Counters, key: string): (r: int)
    ensures key in c ==> r == c[key]
    ensures key !in c ==> r == 0
  {
    if key in c then c[key] else 0
  }

  /** A host counts as failed when it had failures or was unreachable. */
  predicate HostFailed(c: Counters)
    ensures HostFailed(c) <==> ("failures" in c && c["failures"] > 0) || ("unreachable" in c && c["unreachable"] > 0)
  {
    Counter(c, "failures") > 0 || Counter(c, "unreachable") > 0
  }

  ghost predicate AnyHostFailed(stats: Stats)
  {
    exists h :: h in stats && HostFailed(stats[h])
  }

  /** `os.path.basename`, taken as the part after the last `/`. */
  function Basename(path: string): (r: string)
    ensures '/' !in r
    ensures |r| <= |path| && r == path[|path| - |r|..]
    ensures |r| < |path| ==> path[|path| - |r| - 1] == '/'
    decreases |path|
  {
    if |path| == 0 || path[|path| - 1] == '/' then ""
    else Basename(path[..|path| - 1]) + [path[|path| - 1]]
  }

  /** What the plugin displays about the delivery: success exactly for a
      2xx status code (section 15.3 of RFC 9110), otherwise a warning. */
  function DeliveryNotice(url: string, result: HttpResult): (n: Notice)
    ensures n.Delivered? <==> result.Status? && 200 <= result.code < 300
    ensures n.Delivered? ==> n.url == url
    ensures n.BadStatus? <==> result.Status? && !(200 <= result.code < 300)
    ensures n.BadStatus? ==> n.code == result.code
    ensures n.SendFailed? <==> result.TransportError?
    ensures n.IsWarning() <==> !(result.Status? && 200 <= result.code < 300)
  {
    match result
    case Status(code) => if code >= 200 && code < 300 then Delivered(url) else BadStatus(code)
    case TransportError => SendFailed
  }

  /** The per-host loop: copy each host's counters into the summary and
      fold the overall status. */
  method Aggregate(hosts: seq<string>, stats: Stats) returns (summary: Stats, overall: string)
    requires forall h :: h in hosts ==> h in stats
    ensures summary.Keys == set h | h in hosts
    ensures forall h :: h in hosts ==> summary[h] == stats[h]
    ensures overall == "failed" <==> exists h :: h in hosts && HostFailed(stats[h])
    ensures overall == "success" || overall == "failed"
  {
    summary := map[];
    overall := "success";
    for i := 0 to |hosts|
      invariant summary.Keys == set h | h in hosts[..i]
      invariant forall h :: h in hosts[..i] ==> summary[h] == stats[h]
      invariant overall == "success" || overall == "failed"
      invariant overall == "failed" <==> exists h :: h in hosts[..i] && HostFailed(stats[h])
    {
      var host := hosts[i];
      var hostStats := stats[host];
      summary := summary[host := hostStats];
      if Counter(hostStats, "failures") > 0 || Counter(hostStats, "unreachable") > 0 {
        overall := "failed";
      }
      assert hosts[..i + 1] == hosts[..i] + [host];
    }
    assert hosts[..|hosts|] == hosts;
  }

  /** The callback plugin object. */
  class CallbackModule {
    var webhookUrl: string
    var disabled: bool
    /** `_playbook_name`; `None` until `v2_playbook_on_start` has run. */
    var playbookName: Option<string>
    /** Everything shown through Ansible's display, oldest first. */
    var displayed: seq<Notice>

    /** `__init__`, given the environment's `ANSIBLE_WEBHOOK_URL` and whether
        `requests` could be imported. */
    constructor (envUrl: Option<string>, hasRequests: bool)
      ensures webhookUrl == (if envUrl.Some? then envUrl.value else DefaultUrl)
      ensures disabled == !hasRequests
      ensures playbookName == None
      ensures displayed == if hasRequests then [] else [MissingRequests]
    {
      webhookUrl := if envUrl.Some? then envUrl.value else DefaultUrl;
      playbookName := None;
      disabled := false;
      displayed := [];
      if !hasRequests {
        displayed := [MissingRequests];
        disabled := true;
      }
    }

    /** `v2_playbook_on_start`: remember the playbook file's base name. */
    method OnPlaybookStart(fileName: string)
      modifies this`playbookName
      ensures playbookName == Some(Basename(fileName))
    {
      playbookName := Some(Basename(fileName));
    }

    /** The playbook name put in the payload. */
    function PlaybookLabel(): (r: string)
      reads this
      ensures playbookName.Some? ==> r == playbookName.value
      ensures playbookName.None? ==> r == UnknownPlaybook
    {
      if playbookName.Some? then playbookName.value else UnknownPlaybook
    }

    /** `v2_playbook_on_stats`, given the run statistics and what the POST
        would return. Returns the payload that was posted, if any. */
    method OnStats(stats: Stats, delivery: HttpResult) returns (sent: Option<Payload>)
      modifies this`displayed
      ensures sent.Some? <==> !disabled && stats != map[]
      ensures disabled ==> displayed == old(displayed)
      ensures !disabled && stats == map[] ==> displayed == old(displayed) + [NoHosts]
      ensures sent.Some? ==>
                && sent.value.hosts == StrOrder.Sorted(stats.Keys)
                && sent.value.summary == stats
                && sent.value.status == (if AnyHostFailed(stats) then "failed" else "success")
                && sent.value.playbook == PlaybookLabel()
                && displayed == old(displayed) + [DeliveryNotice(webhookUrl, delivery)]
    {
      if disabled {
        return None;
      }
      var hosts := StrOrder.Sorted(stats.Keys);
      if |hosts| == 0 {
        displayed := displayed + [NoHosts];
        return None;
      }
      var summary, overall := Aggregate(hosts, stats);
      var payload := Payload(overall, hosts, summary, PlaybookLabel());
      // the POST; a non-2xx code or a `RequestException` is only warned about
      displayed := displayed + [DeliveryNotice(webhookUrl, delivery)];
      sent := Some(payload);
    }
  }
}
