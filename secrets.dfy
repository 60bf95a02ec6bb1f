/** App secrets on the compute API (lib/secrets.ts): reading an app's secret
    list, writing one secret, and writing a record of secrets with one call
    per entry and an all-or-report decision over the collected responses. */
module Secrets {
  import opened Wrappers
  import opened Strings
  import opened Http
  import opened Api
  import opened Remote

  function SecretsPath(app: string): string {
    "/v1/apps/" + app + "/secrets"
  }

  function SecretPath(app: string, key: string): string {
    SecretsPath(app) + "/" + key
  }

  /** What awaiting a fetch yields to the caller: the response, whatever its
      status, or the rejection. */
  function Settled(reply: FetchReply): (r: Result<Response>)
    ensures r.Ok? <==> reply.Responded?
    ensures r.Ok? ==> r.value == reply.response
    ensures r.Err? ==> r.message == reply.message
  {
    match reply
    case Responded(response) => Ok(response)
    case Rejected(message) => Err(message)
  }

  /** The options listSecrets passes to `api.fetch`. */
  function ListInit(auth: string): RequestInit {
    RequestInit(None, [("Authorization", auth)], NoBody)
  }

  /** `listSecrets`: a GET of the app's secret list carrying the caller's
      Authorization header. The response is returned as it came, after its
      body has been parsed as JSON for the log line: `logParse` is the result
      of that parse, and a parse failure rejects. */
  method ListSecrets(w: World, app: string, auth: string, reply: FetchReply, logParse: Outcome)
    returns (sent: Outgoing, res: Result<Response>)
    modifies w
    ensures IsUpstreamRequest(sent, SecretsPath(app), ListInit(auth))
    ensures sent.verb == "GET" && sent.url == UpstreamOrigin + SecretsPath(app)
    ensures res == if reply.Responded? && logParse.Fail? then Err(logParse.message) else Settled(reply)
    ensures w.log == old(w.log) + [Op.ListSecrets(app)]
    ensures unchanged(w`apps, w`buckets, w`accessKeys, w`policies, w`attachments, w`secrets)
  {
    sent := Fetch(SecretsPath(app), ListInit(auth));
    w.ReadSecrets(app);
    match reply
    case Rejected(message) =>
      res := Err(message);
    case Responded(response) =>
      if logParse.Fail? {
        res := Err(logParse.message);
      } else {
        res := Ok(response);
      }
  }

  /** The options setSecret passes to `api.fetch`. */
  function SecretInit(value: string, auth: string): RequestInit {
    RequestInit(Some("POST"), [("Content-Type", "application/json"), ("Authorization", auth)], SecretValue(value))
  }

  /** `setSecret`: a POST of `{value}` to the secret's path; the awaited
      fetch result is handed back without looking at its status. */
  method SetSecret(w: World, app: string, key: string, value: string, auth: string, reply: FetchReply)
    returns (sent: Outgoing, settled: FetchReply)
    modifies w
    ensures IsUpstreamRequest(sent, SecretPath(app, key), SecretInit(value, auth))
    ensures sent.verb == "POST" && sent.url == UpstreamOrigin + SecretPath(app, key) && sent.body == SecretValue(value)
    ensures settled == reply
    ensures w.log == old(w.log) + [Op.SetSecret(app, key, value)]
    ensures w.secrets == if Delivered(reply) then old(w.secrets)[app := SecretsOf(old(w.secrets), app)[key := value]] else old(w.secrets)
    ensures unchanged(w`apps, w`buckets, w`accessKeys, w`policies, w`attachments)
  {
    sent := Fetch(SecretPath(app, key), SecretInit(value, auth));
    w.WriteSecret(app, key, value, reply);
    settled := reply;
  }

  // ---------------------------------------------------------------- the decision

  predicate AllResponded(replies: seq<FetchReply>) {
    forall i :: 0 <= i < |replies| ==> replies[i].Responded?
  }

  /** The rejection `Promise.all` reports, taken as the first in entry order. */
  function FirstRejection(replies: seq<FetchReply>): (m: string)
    requires !AllResponded(replies)
    ensures exists i :: 0 <= i < |replies| && replies[i] == Rejected(m) && AllResponded(replies[..i])
  {
    if replies[0].Rejected? then
      assert replies[..0] == [];
      replies[0].message
    else
      var m := FirstRejection(replies[1..]);
      var i :| 0 <= i < |replies| - 1 && replies[1..][i] == Rejected(m) && AllResponded(replies[1..][..i]);
      assert replies[..i + 1] == [replies[0]] + replies[1..][..i];
      m
  }

  function Responses(replies: seq<FetchReply>): (responses: seq<Response>)
    requires AllResponded(replies)
  {
    seq(|replies|, i requires 0 <= i < |replies| => replies[i].response)
  }

  /** `responses.filter(r => !r.ok).map(r => r.statusText)`. */
  function FailedStatusTexts(responses: seq<Response>): (texts: seq<string>)
    ensures |texts| <= |responses|
    ensures |texts| == 0 <==> forall i :: 0 <= i < |responses| ==> responses[i].Ok()
  {
    if |responses| == 0 then []
    else
      var rest := FailedStatusTexts(responses[1..]);
      assert forall i :: 0 < i < |responses| ==> responses[i] == responses[1..][i - 1];
      (if responses[0].Ok() then [] else [responses[0].statusText]) + rest
  }

  /** A status text is collected exactly when some response that is not ok carries it. */
  lemma {:induction false} FailedStatusTextsExact(responses: seq<Response>)
    ensures forall t :: t in FailedStatusTexts(responses) <==>
      exists i :: 0 <= i < |responses| && !responses[i].Ok() && responses[i].statusText == t
  {
    if |responses| > 0 {
      FailedStatusTextsExact(responses[1..]);
      assert forall i :: 1 <= i < |responses| ==> responses[i] == responses[1..][i - 1];
      forall t | exists i :: 0 <= i < |responses| && !responses[i].Ok() && responses[i].statusText == t
        ensures t in FailedStatusTexts(responses)
      {
        var i :| 0 <= i < |responses| && !responses[i].Ok() && responses[i].statusText == t;
        if i > 0 {
          assert responses[1..][i - 1].statusText == t;
        }
      }
    }
  }

  /** The texts keep the responses' order: collecting over a concatenation
      concatenates what is collected over the parts. */
  lemma {:induction false} FailedStatusTextsAppend(a: seq<Response>, b: seq<Response>)
    ensures FailedStatusTexts(a + b) == FailedStatusTexts(a) + FailedStatusTexts(b)
  {
    if |a| == 0 {
      assert a + b == b;
    } else {
      var ab := a + b;
      assert ab[0] == a[0] && ab[1..] == a[1..] + b;
      FailedStatusTextsAppend(a[1..], b);
      var head := if a[0].Ok() then [] else [a[0].statusText];
      var tail := FailedStatusTexts(a[1..]);
      assert head + (tail + FailedStatusTexts(b)) == head + tail + FailedStatusTexts(b);
    }
  }

  function FailureMessage(texts: seq<string>): string {
    "Failed to set secrets: " + Join(texts, ", ")
  }

  /** What setSecrets returns or throws once every write has settled: a
      rejection rejects; otherwise it throws naming the status texts of the
      responses that are not ok, or returns all responses in entry order. */
  function SettleSecrets(replies: seq<FetchReply>): (r: Result<seq<Response>>)
    ensures r.Ok? <==> forall i :: 0 <= i < |replies| ==> Delivered(replies[i])
    ensures r.Ok? ==> |r.value| == |replies| && forall i :: 0 <= i < |replies| ==> r.value[i] == replies[i].response
    ensures !AllResponded(replies) ==> r == Err(FirstRejection(replies))
    ensures AllResponded(replies) && r.Err? ==> r.message == FailureMessage(FailedStatusTexts(Responses(replies)))
  {
    if !AllResponded(replies) then Err(FirstRejection(replies))
    else
      var responses := Responses(replies);
      var failed := FailedStatusTexts(responses);
      assert forall i :: 0 <= i < |replies| ==> responses[i] == replies[i].response;
      if |failed| > 0 then Err(FailureMessage(failed)) else Ok(responses)
  }

  // ---------------------------------------------------------------- setSecrets

  /** A record's entries: no key occurs twice. */
  predicate DistinctKeys(entries: seq<(string, string)>) {
    forall i, j :: 0 <= i < j < |entries| ==> entries[i].0 != entries[j].0
  }

  /** The secret writes of setSecrets, one per entry, in entry order. */
  function WriteOps(app: string, entries: seq<(string, string)>): seq<Op> {
    if |entries| == 0 then []
    else WriteOps(app, entries[..|entries| - 1]) + [Op.SetSecret(app, entries[|entries| - 1].0, entries[|entries| - 1].1)]
  }

  /** The secret store once every write has settled: exactly the writes whose
      reply was ok took effect. */
  function StoreAfter(store: map<string, map<string, string>>, app: string, entries: seq<(string, string)>, replies: seq<FetchReply>)
    : map<string, map<string, string>>
    requires |entries| == |replies|
  {
    if |entries| == 0 then store
    else
      var n := |entries| - 1;
      var before := StoreAfter(store, app, entries[..n], replies[..n]);
      if Delivered(replies[n]) then before[app := SecretsOf(before, app)[entries[n].0 := entries[n].1]] else before
  }

  /** `setSecrets`: one `setSecret` per entry, every one issued (the
      backend's replies are given in entry order) before the decision over the
      collected results is taken. The request each write sends is the one
      SetSecret states. */
  method SetSecrets(w: World, app: string, entries: seq<(string, string)>, auth: string, replies: seq<FetchReply>)
    returns (res: Result<seq<Response>>)
    requires |replies| == |entries| && DistinctKeys(entries)
    modifies w
    ensures res == SettleSecrets(replies)
    ensures w.log == old(w.log) + WriteOps(app, entries)
    ensures w.secrets == StoreAfter(old(w.secrets), app, entries, replies)
    ensures unchanged(w`apps, w`buckets, w`accessKeys, w`policies, w`attachments)
  {
    var settled: seq<FetchReply> := [];
    for i := 0 to |entries|
      invariant settled == replies[..i]
      invariant w.log == old(w.log) + WriteOps(app, entries[..i])
      invariant w.secrets == StoreAfter(old(w.secrets), app, entries[..i], replies[..i])
      invariant unchanged(w`apps, w`buckets, w`accessKeys, w`policies, w`attachments)
    {
      var (key, value) := entries[i];
      var request, reply := SetSecret(w, app, key, value, auth, replies[i]);
      assert entries[..i + 1][..i] == entries[..i] && replies[..i + 1][..i] == replies[..i];
      settled := settled + [reply];
    }
    assert entries[..|entries|] == entries && replies[..|replies|] == replies;
    res := SettleSecrets(settled);
  }

  /** Nothing is rolled back: an entry whose write was ok is in the app's
      store afterwards with its value, whatever happened to the others. */
  lemma {:induction false} WrittenSecretsStay(
    store: map<string, map<string, string>>, app: string, entries: seq<(string, string)>, replies: seq<FetchReply>, i: nat)
    requires |entries| == |replies| && DistinctKeys(entries)
    requires i < |entries| && Delivered(replies[i])
    ensures entries[i].0 in SecretsOf(StoreAfter(store, app, entries, replies), app)
    ensures SecretsOf(StoreAfter(store, app, entries, replies), app)[entries[i].0] == entries[i].1
  {
    var n := |entries| - 1;
    if i < n {
      assert entries[..n][i] == entries[i] && replies[..n][i] == replies[i];
      WrittenSecretsStay(store, app, entries[..n], replies[..n], i);
      assert entries[n].0 != entries[i].0;
    }
  }

  /** The writes touch only `app`'s store, remove nothing from it, and a key
      is in it afterwards exactly when it was before or has an ok write. */
  lemma {:induction false} StoreAfterFrame(
    store: map<string, map<string, string>>, app: string, entries: seq<(string, string)>, replies: seq<FetchReply>)
    requires |entries| == |replies|
    ensures forall a :: a != app ==> SecretsOf(StoreAfter(store, app, entries, replies), a) == SecretsOf(store, a)
    ensures forall k :: k in SecretsOf(StoreAfter(store, app, entries, replies), app) <==>
      k in SecretsOf(store, app) || exists i :: 0 <= i < |entries| && Delivered(replies[i]) && entries[i].0 == k
    ensures forall k :: k in SecretsOf(store, app) && (forall i :: 0 <= i < |entries| ==> entries[i].0 != k) ==>
      SecretsOf(StoreAfter(store, app, entries, replies), app)[k] == SecretsOf(store, app)[k]
  {
    if |entries| > 0 {
      var n := |entries| - 1;
      StoreAfterFrame(store, app, entries[..n], replies[..n]);
      assert forall i :: 0 <= i < n ==> entries[..n][i] == entries[i] && replies[..n][i] == replies[i];
    }
  }

  /** setSecrets makes exactly one write per entry, for that entry's key and value. */
  lemma {:induction false} OneWritePerEntry(app: string, entries: seq<(string, string)>)
    ensures |WriteOps(app, entries)| == |entries|
    ensures forall i :: 0 <= i < |entries| ==> WriteOps(app, entries)[i] == Op.SetSecret(app, entries[i].0, entries[i].1)
  {
    if |entries| > 0 {
      var n := |entries| - 1;
      OneWritePerEntry(app, entries[..n]);
      assert forall i :: 0 <= i < n ==> entries[..n][i] == entries[i];
    }
  }
}
