/** The upstream client: URL rewriting, header filtering for the pass-through
    proxy, and the request `api.fetch` sends for a path on the compute API. */
module Api {
  import opened Wrappers
  import opened Strings
  import opened Http

  const UpstreamHost := "api.machines.dev"
  const UpstreamOrigin := "https://api.machines.dev"

  /** `rewriteUpstreamUrl`: the inbound URL with host, scheme and port
      replaced; path, query and fragment are kept. */
  method RewriteUpstreamUrl(u: Url) returns (href: string)
    ensures href == UpstreamOrigin + u.pathname + u.search + u.hash
  {
    var url := u;
    url := url.(hostname := UpstreamHost);
    url := url.(protocol := "https:");
    url := url.(port := "");
    href := Href(url);
  }

  /** Header names the proxy never forwards. */
  predicate Stripped(name: string) {
    ToLower(name) == "accept-encoding" || ToLower(name) == "connection"
  }

  /** The test ignores case: a name is stripped exactly when its lower-cased form is. */
  lemma StrippedIgnoresCase(name: string)
    ensures Stripped(ToLower(name)) == Stripped(name)
  {
    assert ToLower(ToLower(name)) == ToLower(name);
  }

  /** The headers copied from `entries`: every entry whose name is not
      stripped, stored under its lower-cased name, a later entry overwriting
      an earlier one of the same name. */
  function Copied(entries: HeaderEntries): (h: HeaderMap)
    ensures "accept-encoding" !in h && "connection" !in h
    ensures forall k :: k in h ==>
      exists i :: 0 <= i < |entries| && ToLower(entries[i].0) == k && h[k] == entries[i].1
  {
    if |entries| == 0 then map[]
    else
      var earlier := Copied(entries[..|entries| - 1]);
      var (name, value) := entries[|entries| - 1];
      assert forall i :: 0 <= i < |entries| - 1 ==> entries[..|entries| - 1][i] == entries[i];
      if Stripped(name) then earlier else earlier[ToLower(name) := value]
  }

  /** A header that is not stripped and not repeated later is copied with its value. */
  lemma {:induction false} CopiedKeepsLast(entries: HeaderEntries, i: nat)
    requires i < |entries| && !Stripped(entries[i].0)
    requires forall j :: i < j < |entries| ==> ToLower(entries[j].0) != ToLower(entries[i].0)
    ensures ToLower(entries[i].0) in Copied(entries)
    ensures Copied(entries)[ToLower(entries[i].0)] == entries[i].1
  {
    var n := |entries| - 1;
    var front := entries[..n];
    if i < n {
      assert front[i] == entries[i];
      CopiedKeepsLast(front, i);
      assert ToLower(entries[n].0) != ToLower(entries[i].0);
    }
  }

  /** `filterHeaders`: copy every header except Accept-Encoding and
      Connection (any case), then force host and accept-encoding. */
  method FilterHeaders(entries: HeaderEntries) returns (h: HeaderMap)
    ensures h == Copied(entries)["host" := UpstreamHost]["accept-encoding" := "identity"]
    ensures "host" in h && h["host"] == UpstreamHost
    ensures "accept-encoding" in h && h["accept-encoding"] == "identity"
    ensures "connection" !in h
  {
    h := map[];
    for i := 0 to |entries|
      invariant h == Copied(entries[..i])
    {
      var (key, value) := entries[i];
      assert entries[..i + 1][..i] == entries[..i];
      if ToLower(key) != "accept-encoding" && ToLower(key) != "connection" {
        h := h[ToLower(key) := value];
      }
    }
    assert entries[..|entries|] == entries;
    h := h["host" := UpstreamHost];
    h := h["accept-encoding" := "identity"];
  }

  /** The options argument of `api.fetch`. */
  datatype RequestInit = RequestInit(verb: Option<string>, headers: HeaderEntries, body: Body)

  /** The headers `api.fetch` sends: the caller's, with Accept-Encoding set
      to identity only when the caller gave none. */
  function WithDefaultEncoding(h: HeaderMap): (out: HeaderMap)
    ensures "accept-encoding" in out
    ensures forall k :: k in h ==> k in out && out[k] == h[k]
  {
    if "accept-encoding" in h then h else h["accept-encoding" := "identity"]
  }

  /** The defaulting adds accept-encoding and nothing else, keeps every value
      the caller gave (its accept-encoding included) and fills in identity
      otherwise. */
  lemma DefaultEncodingKeeps(h: HeaderMap)
    ensures WithDefaultEncoding(h).Keys == h.Keys + {"accept-encoding"}
    ensures forall k :: k in h ==> WithDefaultEncoding(h)[k] == h[k]
    ensures "accept-encoding" !in h ==> WithDefaultEncoding(h)["accept-encoding"] == "identity"
  {
  }

  /** The request `api.fetch(path, init)` sends: to the upstream origin plus
      `path`, with the caller's method (GET by default), body and headers, the
      latter after Accept-Encoding defaulting. */
  predicate IsUpstreamRequest(out: Outgoing, path: string, init: RequestInit) {
    && out.url == UpstreamOrigin + path
    && out.verb == init.verb.GetOr("GET")
    && out.body == init.body
    && out.headers == WithDefaultEncoding(HeadersFrom(init.headers))
  }

  /** `api.fetch`, up to the point where the request is handed to `fetch`. */
  method Fetch(path: string, init: RequestInit) returns (out: Outgoing)
    ensures IsUpstreamRequest(out, path, init)
  {
    var url := UpstreamOrigin + path;
    var headers := HeadersFrom(init.headers);
    if !("accept-encoding" in headers) {
      headers := headers["accept-encoding" := "identity"];
    }
    out := Outgoing(init.verb.GetOr("GET"), url, headers, init.body);
  }

  /** `api.proxy`: the inbound request re-targeted at the upstream with its
      method and body unchanged, and the upstream's response handed back as
      it came (`new Response(response.body, response)`); a rejected fetch
      rejects. */
  method Proxy(req: Request, reply: FetchReply) returns (sent: Outgoing, res: Result<Response>)
    ensures sent.verb == req.verb && sent.body == req.body
    ensures sent.url == UpstreamOrigin + req.url.pathname + req.url.search + req.url.hash
    ensures sent.headers == Copied(req.headers)["host" := UpstreamHost]["accept-encoding" := "identity"]
    ensures reply.Responded? ==> res == Ok(reply.response)
    ensures reply.Rejected? ==> res == Err(reply.message)
  {
    var upstreamUrl := RewriteUpstreamUrl(req.url);
    var headers := FilterHeaders(req.headers);
    sent := Outgoing(req.verb, upstreamUrl, headers, req.body);
    match reply
    case Responded(response) =>
      res := Ok(Response(response.status, response.statusText, response.headers, response.body));
    case Rejected(message) =>
      res := Err(message);
  }
}
