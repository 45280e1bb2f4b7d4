/** The fetch layer of `cloneWebpage`: `fetchWithRetry` (a bounded retry loop over
    `fetch`) and `fetchWithProxies` (an ordered walk over three CORS relays, each
    answer parsed as JSON and unwrapped from its `contents` envelope).

    The network is an oracle: `fetch(url, i)` is what the i-th attempt of one retry
    run at `url` yields. `response.json()` and `encodeURIComponent` are oracles too. */
module Fetch {
  import opened Js

  /** A `Response`: `ok` is true for a 2xx status; the body is kept opaque. */
  datatype Response = Response(ok: bool, body: string)

  /** One call to `fetch`: it resolves with a response, or it rejects. */
  datatype Attempt = Respond(response: Response) | Raise(thrown: Exception)

  datatype Network = Network(
    fetch: (string, nat) -> Attempt,        // outcome of attempt i at a request URL
    json: string -> Option<Json>,           // `response.json()`: None when it rejects
    encode: string -> Result<string, Exception>)  // `encodeURIComponent`, which throws URIError on a lone surrogate

  /** The default `attempts` of `fetchWithRetry`; every caller uses it. */
  const DefaultAttempts: nat := 3

  function FailedAfter(attempts: nat): Exception
  {
    ErrorObject("Failed to fetch after " + NatToDecimal(attempts) + " attempts")
  }

  const AllProxiesFailed: Exception := ErrorObject("All proxy services failed")

  // ---------------------------------------------------------------------------
  // fetchWithRetry

  /** The outcome of a retry run and the number of `fetch` calls it issued. */
  datatype RetryRun = RetryRun(result: Result<Response, Exception>, calls: nat)

  predicate OkAt(net: Network, url: string, i: nat)
  {
    net.fetch(url, i).Respond? && net.fetch(url, i).response.ok
  }

  /** The retry loop from attempt `i` on. A non-ok response is retried silently; an
      exception is retried unless it came from the last attempt, where it is rethrown. */
  function RetryFrom(net: Network, url: string, attempts: nat, i: nat): RetryRun
    decreases attempts - i
  {
    if i >= attempts then RetryRun(Err(FailedAfter(attempts)), i)
    else match net.fetch(url, i)
      case Respond(resp) =>
        if resp.ok then RetryRun(Ok(resp), i + 1) else RetryFrom(net, url, attempts, i + 1)
      case Raise(e) =>
        if i == attempts - 1 then RetryRun(Err(e), i + 1) else RetryFrom(net, url, attempts, i + 1)
  }

  function Retry(net: Network, url: string, attempts: nat): RetryRun
  {
    RetryFrom(net, url, attempts, 0)
  }

  /** `fetchWithRetry(url, attempts)`: the result and the number of `fetch` calls made. */
  method FetchWithRetry(net: Network, url: string, attempts: nat) returns (r: Result<Response, Exception>, calls: nat)
    ensures RetryRun(r, calls) == Retry(net, url, attempts)
  {
    var i := 0;
    while i < attempts
      invariant 0 <= i <= attempts
      invariant RetryFrom(net, url, attempts, i) == Retry(net, url, attempts)
    {
      match net.fetch(url, i) {
        case Respond(resp) =>
          if resp.ok {
            return Ok(resp), i + 1;
          }
        case Raise(e) =>
          if i == attempts - 1 {
            return Err(e), i + 1;
          }
      }
      i := i + 1;
    }
    return Err(FailedAfter(attempts)), attempts;
  }

  lemma {:induction false} RetryFromSpec(net: Network, url: string, attempts: nat, i: nat)
    requires i <= attempts
    ensures var run := RetryFrom(net, url, attempts, i);
      && (attempts == i ==> run == RetryRun(Err(FailedAfter(attempts)), i))
      && (run.result.Ok? ==>
            && i < run.calls <= attempts
            && OkAt(net, url, run.calls - 1)
            && run.result.value == net.fetch(url, run.calls - 1).response
            && forall j :: i <= j < run.calls - 1 ==> !OkAt(net, url, j))
      && (run.result.Err? ==>
            && run.calls == attempts
            && (forall j :: i <= j < attempts ==> !OkAt(net, url, j))
            && (i < attempts ==>
                  run.result.error ==
                    if net.fetch(url, attempts - 1).Raise? then net.fetch(url, attempts - 1).thrown
                    else FailedAfter(attempts)))
    decreases attempts - i
  {
    if i < attempts {
      match net.fetch(url, i)
      case Respond(resp) =>
        if !resp.ok { RetryFromSpec(net, url, attempts, i + 1); }
      case Raise(e) =>
        if i != attempts - 1 { RetryFromSpec(net, url, attempts, i + 1); }
    }
  }

  /** At most `attempts` calls; a success is the FIRST ok response and no call follows
      it; after an unsuccessful run every attempt was made and none was ok. */
  lemma RetryReturnsFirstOk(net: Network, url: string, attempts: nat)
    ensures var run := Retry(net, url, attempts);
      && run.calls <= attempts
      && (run.result.Ok? <==> exists j :: 0 <= j < attempts && OkAt(net, url, j))
      && (run.result.Ok? ==>
            && run.calls >= 1
            && OkAt(net, url, run.calls - 1)
            && run.result.value == net.fetch(url, run.calls - 1).response
            && forall j :: 0 <= j < run.calls - 1 ==> !OkAt(net, url, j))
      && (run.result.Err? ==> run.calls == attempts)
  {
    RetryFromSpec(net, url, attempts, 0);
  }

  /** With no ok response among the attempts, the error depends only on the last one:
      an exception it raised is propagated unchanged, otherwise the generic
      "Failed to fetch after N attempts" is thrown. Exceptions before the last are retried. */
  lemma RetryExhausted(net: Network, url: string, attempts: nat)
    requires forall j :: 0 <= j < attempts ==> !OkAt(net, url, j)
    ensures var run := Retry(net, url, attempts);
      && run.result.Err?
      && run.calls == attempts
      && run.result.error ==
           if attempts > 0 && net.fetch(url, attempts - 1).Raise? then net.fetch(url, attempts - 1).thrown
           else FailedAfter(attempts)
  {
    RetryFromSpec(net, url, attempts, 0);
  }

  // ---------------------------------------------------------------------------
  // fetchWithProxies

  /** The three relays, in the order they are tried. */
  datatype Relay = AllOrigins | HtmlDriven | CodeTabs

  const Relays: seq<Relay> := [AllOrigins, HtmlDriven, CodeTabs]

  /** The relay URL built around an already percent-encoded target URL. */
  function RelayUrl(relay: Relay, encoded: string): string
  {
    match relay
    case AllOrigins => "https://api.allorigins.win/get?url=" + encoded + "&charset=UTF-8"
    case HtmlDriven => "https://cors-proxy.htmldriven.com/?url=" + encoded
    case CodeTabs => "https://api.codetabs.com/v1/proxy?quest=" + encoded
  }

  /** The envelope unwrap: the payload's `contents` member when that member is truthy,
      otherwise the whole payload. Reading a member of `null` throws a TypeError, which
      the relay loop catches (None here). */
  function Unwrap(data: Json): Option<Json>
  {
    match data
    case JNull => None
    case JObj(fields) =>
      if "contents" in fields && Truthy(fields["contents"]) then Some(fields["contents"]) else Some(data)
    case _ => Some(data)
  }

  /** An allorigins-style envelope `{ contents: s, status: ... }` around a page body. */
  function Envelope(body: string, status: Json): Json
  {
    JObj(map["contents" := JStr(body), "status" := status])
  }

  /** Unwrapping never yields `null`; an object with a truthy `contents` member yields
      that member, whatever its type; an enveloped non-empty body comes back exactly,
      an empty one leaves the whole envelope in place; a payload without a truthy
      `contents` member passes through unchanged. */
  lemma UnwrapEnvelope(data: Json, body: string, status: Json)
    ensures Unwrap(data).Some? <==> data != JNull
    ensures Unwrap(data).Some? ==> Unwrap(data).value != JNull
    ensures data.JObj? && "contents" in data.fields && Truthy(data.fields["contents"])
            ==> Unwrap(data) == Some(data.fields["contents"])
    ensures body != "" ==> Unwrap(Envelope(body, status)) == Some(JStr(body))
    ensures body == "" ==> Unwrap(Envelope(body, status)) == Some(Envelope(body, status))
    ensures (!data.JObj? || "contents" !in data.fields || !Truthy(data.fields["contents"])) && data != JNull
            ==> Unwrap(data) == Some(data)
  {
  }

  /** What relay `k` contributes for an encoded target: the unwrapped payload when its
      retry run, its JSON parse and the unwrap all succeed. */
  function RelayAnswer(net: Network, encoded: string, k: nat): Option<Json>
    requires k < |Relays|
  {
    var run := Retry(net, RelayUrl(Relays[k], encoded), DefaultAttempts);
    if run.result.Err? then None
    else match net.json(run.result.value.body)
      case None => None
      case Some(data) => Unwrap(data)
  }

  /** The outcome of `fetchWithProxies` and the number of relays whose turn began. */
  datatype ProxyRun = ProxyRun(result: Result<Json, Exception>, tried: nat)

  /** The relay loop from relay `k` on. When `encodeURIComponent` throws, the catch
      block's log message rebuilds the relay URL and throws again, so that exception
      escapes instead of the loop moving on. */
  function ProxiesFrom(net: Network, target: string, k: nat): ProxyRun
    requires k <= |Relays|
    decreases |Relays| - k
  {
    if k == |Relays| then ProxyRun(Err(AllProxiesFailed), k)
    else match net.encode(target)
      case Err(e) => ProxyRun(Err(e), k + 1)
      case Ok(encoded) =>
        match RelayAnswer(net, encoded, k)
        case Some(c) => ProxyRun(Ok(c), k + 1)
        case None => ProxiesFrom(net, target, k + 1)
  }

  function Proxies(net: Network, target: string): ProxyRun
  {
    ProxiesFrom(net, target, 0)
  }

  /** `fetchWithProxies(targetUrl)`: the unwrapped `contents` and the relays tried. */
  method FetchWithProxies(net: Network, target: string) returns (r: Result<Json, Exception>, tried: nat)
    ensures ProxyRun(r, tried) == Proxies(net, target)
  {
    var k := 0;
    while k < |Relays|
      invariant 0 <= k <= |Relays|
      invariant ProxiesFrom(net, target, k) == Proxies(net, target)
    {
      var encoded := net.encode(target);
      if encoded.Err? {
        return Err(encoded.error), k + 1;
      }
      var response, _ := FetchWithRetry(net, RelayUrl(Relays[k], encoded.value), DefaultAttempts);
      if response.Ok? {
        var data := net.json(response.value.body);
        if data.Some? {
          var unwrapped := Unwrap(data.value);
          if unwrapped.Some? {
            return Ok(unwrapped.value), k + 1;
          }
        }
      }
      k := k + 1;
    }
    return Err(AllProxiesFailed), |Relays|;
  }

  /** Relays are tried strictly in list order and the first that answers wins: no later
      relay is consulted. If none answers, "All proxy services failed" is thrown; the one
      other escaping error is an exception from `encodeURIComponent`. */
  lemma ProxiesFirstAnswer(net: Network, target: string)
    ensures var run := Proxies(net, target);
      && (run.result.Ok? ==>
            && net.encode(target).Ok?
            && 1 <= run.tried <= |Relays|
            && RelayAnswer(net, net.encode(target).value, run.tried - 1) == Some(run.result.value)
            && forall j :: 0 <= j < run.tried - 1 ==> RelayAnswer(net, net.encode(target).value, j).None?)
      && (net.encode(target).Err? ==> run == ProxyRun(Err(net.encode(target).error), 1))
      && (net.encode(target).Ok? ==>
            (run.result.Err? <==> forall j :: 0 <= j < |Relays| ==> RelayAnswer(net, net.encode(target).value, j).None?))
      && (net.encode(target).Ok? && run.result.Err? ==> run == ProxyRun(Err(AllProxiesFailed), |Relays|))
  {
  }

  /** The payload returned by a successful relay is never `null`, so the
      `textContent` it is stored into holds exactly its string conversion. */
  lemma ProxiesContentsNotNull(net: Network, target: string)
    ensures Proxies(net, target).result.Ok? ==> Proxies(net, target).result.value != JNull
    ensures Proxies(net, target).result.Ok? ==>
      TextContent(Proxies(net, target).result.value) == ToJsString(Proxies(net, target).result.value)
  {
  }
}
