/** The Fetch-API values the proxy handles: requests, responses, headers and
    URLs, abstracted to the parts the system reads or writes. Response bodies
    are kept as the structured documents the system builds, not as bytes. */
module Http {
  import opened Wrappers
  import opened Strings

  /** A Headers object's entries in iteration order: (name, value) pairs. */
  type HeaderEntries = seq<(string, string)>

  /** Headers built with `set`/`append`: the Fetch API stores names
      lower-cased, so a map from lower-cased names to values. */
  type HeaderMap = map<string, string>

  datatype Body =
    | NoBody
    /** A body forwarded or returned without being read. */
    | Raw(text: string)
    /** JSON `{value}`, the body of a secret write. */
    | SecretValue(value: string)
    /** JSON `{error, status}`, the body of every error response built here. */
    | ErrorJson(error: string, status: string)
    /** JSON `{success, bucketDeleted}`, the body of a successful delete. */
    | DeletedJson(success: bool, bucketDeleted: bool)

  datatype Response = Response(status: int, statusText: string, headers: HeaderMap, body: Body) {
    /** `Response.ok`. */
    predicate Ok() {
      200 <= status <= 299
    }
  }

  /** The fields of a WHATWG URL that the system reads or assigns. */
  datatype Url = Url(protocol: string, hostname: string, port: string, pathname: string, search: string, hash: string)

  /** `url.toString()` for a URL without user info. */
  function Href(u: Url): string {
    u.protocol + "//" + u.hostname + (if u.port == "" then "" else ":" + u.port) + u.pathname + u.search + u.hash
  }

  /** An inbound request. */
  datatype Request = Request(verb: string, url: Url, headers: HeaderEntries, body: Body)

  /** A request the system sends upstream. */
  datatype Outgoing = Outgoing(verb: string, url: string, headers: HeaderMap, body: Body)

  /** What awaiting `fetch` yields: a response, or a rejection (network failure). */
  datatype FetchReply = Responded(response: Response) | Rejected(message: string)

  /** The fetch produced a response with an ok status. */
  predicate Delivered(reply: FetchReply) {
    reply.Responded? && reply.response.Ok()
  }

  /** `headers.get(name)`: names compare case-insensitively. */
  function HeaderGet(h: HeaderEntries, name: string): (r: Option<string>)
    ensures r.Some? <==> exists i :: 0 <= i < |h| && ToLower(h[i].0) == ToLower(name)
    ensures r.Some? ==> exists i :: 0 <= i < |h| && ToLower(h[i].0) == ToLower(name) && h[i].1 == r.value
  {
    if |h| == 0 then None
    else if ToLower(h[0].0) == ToLower(name) then Some(h[0].1)
    else
      var r := HeaderGet(h[1..], name);
      assert forall i :: 0 < i < |h| ==> h[i] == h[1..][i - 1];
      r
  }

  /** `new Headers(record)`: each entry is appended, so a repeated name
      accumulates its values separated by ", ". */
  function HeadersFrom(entries: HeaderEntries): HeaderMap {
    if |entries| == 0 then map[]
    else
      var earlier := HeadersFrom(entries[..|entries| - 1]);
      var (name, value) := entries[|entries| - 1];
      var k := ToLower(name);
      earlier[k := if k in earlier then earlier[k] + ", " + value else value]
  }

  /** The names of `new Headers(record)` are the lower-cased names of the
      record's entries. */
  lemma {:induction false} HeadersFromKeys(entries: HeaderEntries)
    ensures forall k :: k in HeadersFrom(entries) <==> exists i :: 0 <= i < |entries| && ToLower(entries[i].0) == k
  {
    if |entries| > 0 {
      var n := |entries| - 1;
      HeadersFromKeys(entries[..n]);
      assert forall i :: 0 <= i < n ==> entries[..n][i] == entries[i];
    }
  }

  /** A name given once keeps its value. */
  lemma {:induction false} HeadersFromSingle(entries: HeaderEntries, i: nat)
    requires i < |entries|
    requires forall j :: 0 <= j < |entries| && j != i ==> ToLower(entries[j].0) != ToLower(entries[i].0)
    ensures ToLower(entries[i].0) in HeadersFrom(entries) && HeadersFrom(entries)[ToLower(entries[i].0)] == entries[i].1
  {
    var n := |entries| - 1;
    HeadersFromKeys(entries[..n]);
    if i < n {
      assert forall j :: 0 <= j < n ==> entries[..n][j] == entries[j];
      HeadersFromSingle(entries[..n], i);
    } else {
      assert forall j :: 0 <= j < n ==> entries[..n][j] == entries[j];
    }
  }

  /** A JSON response built by this system (`new Response(JSON.stringify(b), {status, headers})`). */
  function JsonResponse(status: int, body: Body): Response {
    Response(status, "", map["content-type" := "application/json"], body)
  }
}
