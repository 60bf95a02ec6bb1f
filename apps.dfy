/** The app handlers (lib/apps.ts): `create`, a saga of upstream app create,
    bucket provisioning and secret writes with compensation on failure;
    `destroy`, bucket delete then app delete; and the error-swallowing
    `deleteApp`. */
module Apps {
  import opened Wrappers
  import opened Strings
  import opened Http
  import opened Api
  import opened Remote
  import opened Tigris
  import opened Secrets

  /** The `app_name` field of the parsed request body. */
  datatype AppNameField = Absent | StringName(name: string) | NonString

  /** The outcome of reading the inbound body as JSON: a failure (the body is
      not JSON, or is JSON `null`) rejects the handler. */
  datatype CreateBody = Unreadable(message: string) | Parsed(appName: AppNameField)

  /** What a handler's promise settles to: a response, or a rejection. */
  datatype HandlerResult = Respond(response: Response) | Reject(message: string)

  /** The backends' replies during one run of `create`, in call order. */
  datatype CreateReplies = CreateReplies(
    upstream: FetchReply,
    bucket: BucketReplies,
    keyIdWrite: FetchReply,
    secretKeyWrite: FetchReply,
    bucketWrite: FetchReply,
    deleteBucket: Outcome,
    deleteApp: FetchReply)

  const KeyIdSecret := "FLY_TIGRIS_ACCESS_KEY_ID"
  const SecretKeySecret := "FLY_TIGRIS_SECRET_ACCESS_KEY"
  const BucketSecret := "FLY_TIGRIS_BUCKET"

  const AppNameRequired := "app_name is required in request body"
  const SetupFailed := "Failed to set up Tigris: "
  const MissingAppName := "Missing app name in URL"

  function ErrorResponse(status: int, error: string): Response {
    JsonResponse(status, ErrorJson(error, "error"))
  }

  /** The secrets create writes, in the order of its object literal. */
  function SecretEntries(c: Credentials): seq<(string, string)> {
    [(KeyIdSecret, c.accessKeyId), (SecretKeySecret, c.secretAccessKey), (BucketSecret, c.bucket)]
  }

  function SecretReplies(r: CreateReplies): seq<FetchReply> {
    [r.keyIdWrite, r.secretKeyWrite, r.bucketWrite]
  }

  function AuthHeader(req: Request): string {
    HeaderGet(req.headers, "Authorization").GetOr("")
  }

  /** The options deleteApp passes to `api.fetch`. */
  function DeleteInit(auth: string): RequestInit {
    RequestInit(Some("DELETE"), [("Authorization", auth)], NoBody)
  }

  /** `deleteApp`: a DELETE of `/apps/<name>` (not under `/v1`). It never
      fails: a rejection is logged and dropped, and the status is not looked
      at, so there is no result. */
  method DeleteApp(w: World, app: string, auth: string, reply: FetchReply) returns (sent: Outgoing)
    modifies w
    ensures IsUpstreamRequest(sent, "/apps/" + app, DeleteInit(auth))
    ensures sent.verb == "DELETE" && sent.url == UpstreamOrigin + "/apps/" + app
    ensures w.log == old(w.log) + [Op.DeleteApp(app)]
    ensures w.apps == if Delivered(reply) then old(w.apps) - {app} else old(w.apps)
    ensures unchanged(w`buckets, w`accessKeys, w`policies, w`attachments, w`secrets)
  {
    sent := Fetch("/apps/" + app, DeleteInit(auth));
    w.DeleteApp(app, reply);
  }

  // ---------------------------------------------------------------- create

  /** The body names the app by a non-empty string. */
  predicate NameGiven(body: CreateBody) {
    body.Parsed? && body.appName.StringName? && body.appName.name != ""
  }

  /** create got past validation and the upstream created the app, so it
      entered its try block. */
  predicate Provisioning(body: CreateBody, r: CreateReplies) {
    NameGiven(body) && Delivered(r.upstream)
  }

  /** The bucket and credentials came back (`bucketCreated` is set), so the
      secrets are written. */
  predicate BucketReady(app: string, r: CreateReplies) {
    BucketOutcome(app, r.bucket).Ok?
  }

  predicate WritesFailed(app: string, r: CreateReplies) {
    BucketReady(app, r) && SettleSecrets(SecretReplies(r)).Err?
  }

  /** The catch block reaches deleteApp: the bucket setup failed, or the
      writes failed and the compensating bucket delete did not throw. */
  predicate CatchDeletesApp(app: string, r: CreateReplies) {
    !BucketReady(app, r) || (WritesFailed(app, r) && r.deleteBucket.Pass?)
  }

  // The try/catch block of create, once the upstream has created the app.

  function ProvisionOutcome(app: string, created: Response, r: CreateReplies): (res: HandlerResult)
    requires created.Ok()
    ensures res == Respond(created) <==> BucketReady(app, r) && !WritesFailed(app, r)
    ensures res.Reject? <==> WritesFailed(app, r) && r.deleteBucket.Fail?
    ensures res.Respond? && res != Respond(created) ==>
      res.response.status == 500 && res.response.body.ErrorJson? && StartsWith(res.response.body.error, SetupFailed)
  {
    match BucketOutcome(app, r.bucket)
    case Err(cause) => Respond(ErrorResponse(500, SetupFailed + cause))
    case Ok(credentials) =>
      match SettleSecrets(SecretReplies(r))
      case Ok(_) => Respond(created)
      case Err(cause) =>
        if r.deleteBucket.Fail? then Reject(r.deleteBucket.message)
        else Respond(ErrorResponse(500, SetupFailed + cause))
  }

  /** The log after the try/catch block, starting from `log`: the calls are
      appended in the order they are made. */
  function ProvisionLog(log: seq<Op>, app: string, r: CreateReplies): seq<Op> {
    if !BucketReady(app, r) then log + BucketOps(app, r.bucket) + [Op.DeleteApp(app)]
    else
      var writes := WriteOps(app, SecretEntries(BucketOutcome(app, r.bucket).value));
      if !WritesFailed(app, r) then log + BucketOps(app, r.bucket) + writes
      else if r.deleteBucket.Fail? then log + BucketOps(app, r.bucket) + writes + [Op.DeleteBucket(app)]
      else log + BucketOps(app, r.bucket) + writes + [Op.DeleteBucket(app)] + [Op.DeleteApp(app)]
  }

  function ProvisionApps(apps: set<string>, app: string, r: CreateReplies): set<string> {
    if CatchDeletesApp(app, r) && Delivered(r.deleteApp) then apps - {app} else apps
  }

  function ProvisionBuckets(buckets: set<string>, app: string, r: CreateReplies): set<string> {
    var provisioned := BucketsAfter(buckets, app, r.bucket);
    if WritesFailed(app, r) && r.deleteBucket.Pass? then provisioned - {app} else provisioned
  }

  function ProvisionSecrets(store: map<string, map<string, string>>, app: string, r: CreateReplies)
    : map<string, map<string, string>>
  {
    if BucketReady(app, r) then StoreAfter(store, app, SecretEntries(BucketOutcome(app, r.bucket).value), SecretReplies(r))
    else store
  }

  /** The catch block of create: the bucket delete when `bucketCreated` is
      set, which is not guarded, so when it throws deleteApp is skipped and
      the handler rejects; then deleteApp and the 500 answer. */
  method Compensate(w: World, app: string, auth: string, bucketCreated: bool, failure: string, r: CreateReplies)
    returns (res: HandlerResult)
    modifies w
    ensures var rethrown := bucketCreated && r.deleteBucket.Fail?;
      && res == (if rethrown then Reject(r.deleteBucket.message) else Respond(ErrorResponse(500, SetupFailed + failure)))
      && w.log == (if !bucketCreated then old(w.log) + [Op.DeleteApp(app)]
                   else if rethrown then old(w.log) + [Op.DeleteBucket(app)]
                   else old(w.log) + [Op.DeleteBucket(app)] + [Op.DeleteApp(app)])
      && w.buckets == (if bucketCreated && r.deleteBucket.Pass? then old(w.buckets) - {app} else old(w.buckets))
      && w.apps == (if !rethrown && Delivered(r.deleteApp) then old(w.apps) - {app} else old(w.apps))
    ensures unchanged(w`accessKeys, w`policies, w`attachments, w`secrets)
  {
    if bucketCreated {
      var cleaned := w.DeleteBucket(app, r.deleteBucket);
      if cleaned.Fail? {
        return Reject(cleaned.message);
      }
    }
    var deleteRequest := DeleteApp(w, app, auth, r.deleteApp);
    res := Respond(ErrorResponse(500, SetupFailed + failure));
  }

  /** The try/catch block of create, `bucketCreated` being its local flag. */
  method Provision(w: World, app: string, auth: string, created: Response, r: CreateReplies) returns (res: HandlerResult)
    requires created.Ok()
    modifies w
    ensures res == ProvisionOutcome(app, created, r)
    ensures w.log == ProvisionLog(old(w.log), app, r)
    ensures w.apps == ProvisionApps(old(w.apps), app, r)
    ensures w.buckets == ProvisionBuckets(old(w.buckets), app, r)
    ensures w.secrets == ProvisionSecrets(old(w.secrets), app, r)
    ensures w.accessKeys == BucketKeys(old(w.accessKeys), app, r.bucket)
    ensures w.policies == BucketPolicies(old(w.policies), app, r.bucket)
    ensures w.attachments == BucketAttachments(old(w.attachments), app, r.bucket)
  {
    var bucketCreated := false;
    var succeeded := false;
    var failure := "";
    var credentials := CreateTigrisBucket(w, app, r.bucket);
    if credentials.Ok? {
      bucketCreated := true;
      var written := SetSecrets(w, app, SecretEntries(credentials.value), auth, SecretReplies(r));
      if written.Ok? {
        succeeded := true;
      } else {
        failure := written.message;
      }
    } else {
      failure := credentials.message;
    }
    if succeeded {
      res := Respond(created);
    } else {
      res := Compensate(w, app, auth, bucketCreated, failure, r);
    }
  }

  // create once `app_name` has been validated.

  /** What create returns or rejects with once it has a valid app name. */
  function NamedOutcome(app: string, r: CreateReplies): (res: HandlerResult)
    ensures r.upstream.Rejected? ==> res == Reject(r.upstream.message)
    ensures r.upstream.Responded? && !r.upstream.response.Ok() ==> res == Respond(r.upstream.response)
  {
    match r.upstream
    case Rejected(message) => Reject(message)
    case Responded(created) =>
      if !created.Ok() then Respond(created) else ProvisionOutcome(app, created, r)
  }

  function NamedLog(log: seq<Op>, app: string, r: CreateReplies): seq<Op> {
    if Delivered(r.upstream) then ProvisionLog(log + [Op.CreateApp(app)], app, r) else log + [Op.CreateApp(app)]
  }

  function NamedApps(apps: set<string>, app: string, r: CreateReplies): set<string> {
    if Delivered(r.upstream) then ProvisionApps(apps + {app}, app, r) else apps
  }

  /** The rest of create after validation: the proxied upstream create, whose
      response is returned as it came unless it is ok, then the try/catch
      block. */
  method CreateNamed(w: World, req: Request, app: string, auth: string, r: CreateReplies) returns (res: HandlerResult)
    modifies w
    ensures res == NamedOutcome(app, r)
    ensures w.log == NamedLog(old(w.log), app, r)
    ensures w.apps == NamedApps(old(w.apps), app, r)
    ensures Delivered(r.upstream) ==>
      && w.buckets == ProvisionBuckets(old(w.buckets), app, r)
      && w.secrets == ProvisionSecrets(old(w.secrets), app, r)
      && w.accessKeys == BucketKeys(old(w.accessKeys), app, r.bucket)
      && w.policies == BucketPolicies(old(w.policies), app, r.bucket)
      && w.attachments == BucketAttachments(old(w.attachments), app, r.bucket)
    ensures !Delivered(r.upstream) ==> unchanged(w`buckets, w`secrets, w`accessKeys, w`policies, w`attachments)
  {
    var sent, proxied := Proxy(req, r.upstream);
    w.CreateApp(app, r.upstream);
    if proxied.Err? {
      res := Reject(proxied.message);
    } else if !proxied.value.Ok() {
      res := Respond(proxied.value);
    } else {
      var createResponse := proxied.value;
      res := Provision(w, app, auth, createResponse, r);
    }
  }

  // The whole of create.

  /** What create returns or rejects with. */
  function CreateOutcome(body: CreateBody, r: CreateReplies): (res: HandlerResult)
    ensures body.Parsed? && !NameGiven(body) ==> res == Respond(ErrorResponse(400, AppNameRequired))
    ensures NameGiven(body) && r.upstream.Responded? && !r.upstream.response.Ok() ==> res == Respond(r.upstream.response)
    ensures res.Reject? <==>
      body.Unreadable? || (NameGiven(body) && r.upstream.Rejected?)
      || (Provisioning(body, r) && WritesFailed(body.appName.name, r) && r.deleteBucket.Fail?)
  {
    match body
    case Unreadable(message) => Reject(message)
    case Parsed(field) =>
      if !NameGiven(body) then Respond(ErrorResponse(400, AppNameRequired))
      else NamedOutcome(field.name, r)
  }

  /** The log after create, starting from `log`. */
  function CreateLog(log: seq<Op>, body: CreateBody, r: CreateReplies): seq<Op> {
    if NameGiven(body) then NamedLog(log, body.appName.name, r) else log
  }

  function AppsAfterCreate(apps: set<string>, body: CreateBody, r: CreateReplies): set<string> {
    if NameGiven(body) then NamedApps(apps, body.appName.name, r) else apps
  }

  /** `create`: a body without a non-empty string `app_name` is refused
      before any call; otherwise CreateNamed. */
  method Create(w: World, req: Request, body: CreateBody, r: CreateReplies) returns (res: HandlerResult)
    modifies w
    ensures res == CreateOutcome(body, r)
    ensures w.log == CreateLog(old(w.log), body, r)
    ensures w.apps == AppsAfterCreate(old(w.apps), body, r)
    ensures Provisioning(body, r) ==>
      && w.buckets == ProvisionBuckets(old(w.buckets), body.appName.name, r)
      && w.secrets == ProvisionSecrets(old(w.secrets), body.appName.name, r)
      && w.accessKeys == BucketKeys(old(w.accessKeys), body.appName.name, r.bucket)
      && w.policies == BucketPolicies(old(w.policies), body.appName.name, r.bucket)
      && w.attachments == BucketAttachments(old(w.attachments), body.appName.name, r.bucket)
    ensures !Provisioning(body, r) ==> unchanged(w`buckets, w`secrets, w`accessKeys, w`policies, w`attachments)
  {
    var authHeader := AuthHeader(req);
    if body.Unreadable? {
      return Reject(body.message);
    }
    var appName := body.appName;
    if !appName.StringName? || appName.name == "" {
      return Respond(ErrorResponse(400, AppNameRequired));
    }
    res := CreateNamed(w, req, appName.name, authHeader, r);
  }

  /** A body without a usable `app_name` is refused with 400 before any call. */
  lemma CreateRefusesMissingName(log: seq<Op>, body: CreateBody, r: CreateReplies)
    requires body.Parsed? && !NameGiven(body)
    ensures CreateOutcome(body, r) == Respond(ErrorResponse(400, AppNameRequired))
    ensures CreateLog(log, body, r) == log
  {
  }

  /** An upstream create that is not ok is handed back unchanged, and no
      bucket or secret call follows. */
  lemma CreateReturnsUpstreamFailure(log: seq<Op>, body: CreateBody, r: CreateReplies)
    requires NameGiven(body) && r.upstream.Responded? && !r.upstream.response.Ok()
    ensures CreateOutcome(body, r) == Respond(r.upstream.response)
    ensures CreateLog(log, body, r) == log + [Op.CreateApp(body.appName.name)]
  {
  }

  /** Full success: the upstream response is returned, the bucket named after
      the app exists, and the three secrets hold the credentials. */
  lemma {:induction false} CreateSuccess(
    log: seq<Op>, buckets: set<string>, store: map<string, map<string, string>>, body: CreateBody, r: CreateReplies)
    requires Provisioning(body, r)
    requires CreateOutcome(body, r) == Respond(r.upstream.response)
    ensures var app := body.appName.name; var c := BucketOutcome(app, r.bucket).value;
      && BucketReady(app, r)
      && app in ProvisionBuckets(buckets, app, r)
      && c.bucket == app
      && var secrets := SecretsOf(ProvisionSecrets(store, app, r), app);
      && KeyIdSecret in secrets && secrets[KeyIdSecret] == c.accessKeyId
      && SecretKeySecret in secrets && secrets[SecretKeySecret] == c.secretAccessKey
      && BucketSecret in secrets && secrets[BucketSecret] == app
      && CreateLog(log, body, r) == log + [Op.CreateApp(app)] + BucketOps(app, r.bucket) + WriteOps(app, SecretEntries(c))
  {
    var app := body.appName.name;
    var c := BucketOutcome(app, r.bucket).value;
    var entries := SecretEntries(c);
    var replies := SecretReplies(r);
    assert SettleSecrets(replies).Ok?;
    assert Delivered(replies[0]) && Delivered(replies[1]) && Delivered(replies[2]);
    assert DistinctKeys(entries);
    WrittenSecretsStay(store, app, entries, replies, 0);
    WrittenSecretsStay(store, app, entries, replies, 1);
    WrittenSecretsStay(store, app, entries, replies, 2);
  }

  /** A failed bucket setup leaves `bucketCreated` false: create deletes the
      app but makes no bucket delete of its own, and answers 500. */
  lemma CreateBucketFailure(log: seq<Op>, body: CreateBody, r: CreateReplies)
    requires Provisioning(body, r) && !BucketReady(body.appName.name, r)
    ensures var app := body.appName.name;
      && CreateLog(log, body, r) == log + [Op.CreateApp(app)] + BucketOps(app, r.bucket) + [Op.DeleteApp(app)]
      && CreateOutcome(body, r) == Respond(ErrorResponse(500, SetupFailed + BucketOutcome(app, r.bucket).message))
  {
  }

  /** Failed secret writes: the bucket is deleted, then the app, and create
      answers 500; when that bucket delete throws, the app is not deleted
      and create rejects with the delete's error. */
  lemma CreateSecretsFailure(log: seq<Op>, body: CreateBody, r: CreateReplies)
    requires Provisioning(body, r) && WritesFailed(body.appName.name, r)
    ensures var app := body.appName.name; var c := BucketOutcome(app, r.bucket).value;
      var before := log + [Op.CreateApp(app)] + BucketOps(app, r.bucket) + WriteOps(app, SecretEntries(c));
      && (r.deleteBucket.Pass? ==>
            CreateLog(log, body, r) == before + [Op.DeleteBucket(app)] + [Op.DeleteApp(app)]
            && CreateOutcome(body, r) == Respond(ErrorResponse(500, SetupFailed + SettleSecrets(SecretReplies(r)).message)))
      && (r.deleteBucket.Fail? ==>
            CreateLog(log, body, r) == before + [Op.DeleteBucket(app)]
            && CreateOutcome(body, r) == Reject(r.deleteBucket.message))
  {
  }

  // ---------------------------------------------------------------- destroy

  datatype DestroyReplies = DestroyReplies(deleteBucket: Outcome, deleteApp: FetchReply)

  /** The app name destroy takes from the URL: the last piece of the path. */
  function DestroyTarget(req: Request): (app: string)
    ensures '/' !in app && |app| <= |req.url.pathname|
  {
    LastSegmentIsSuffix(req.url.pathname, '/');
    LastSegment(req.url.pathname, '/')
  }

  /** `destroy`: bucket delete first, its failure only clearing the
      `bucketDeleted` flag, then the app delete, then 202. The 500 branch of
      the source is unreachable because deleteApp never throws. */
  method Destroy(w: World, req: Request, r: DestroyReplies) returns (res: Response)
    modifies w
    ensures DestroyTarget(req) == "" ==> res == ErrorResponse(400, MissingAppName) && unchanged(w)
    ensures DestroyTarget(req) != "" ==>
      var app := DestroyTarget(req);
      && res == JsonResponse(202, DeletedJson(true, r.deleteBucket.Pass?))
      && w.log == old(w.log) + [Op.DeleteBucket(app), Op.DeleteApp(app)]
      && w.buckets == (if r.deleteBucket.Pass? then old(w.buckets) - {app} else old(w.buckets))
      && w.apps == (if Delivered(r.deleteApp) then old(w.apps) - {app} else old(w.apps))
      && unchanged(w`accessKeys, w`policies, w`attachments, w`secrets)
  {
    var appName := DestroyTarget(req);
    var authHeader := AuthHeader(req);
    if appName == "" {
      return ErrorResponse(400, MissingAppName);
    }
    var bucketDeleted := false;
    var cleaned := w.DeleteBucket(appName, r.deleteBucket);
    if cleaned.Pass? {
      bucketDeleted := true;
    }
    var deleteRequest := DeleteApp(w, appName, authHeader, r.deleteApp);
    res := JsonResponse(202, DeletedJson(true, bucketDeleted));
  }

  /** The name destroy acts on is the slash-free tail of the path. */
  lemma DestroyTargetIsTail(req: Request)
    ensures var app := DestroyTarget(req); var p := req.url.pathname;
      && '/' !in app && |app| <= |p| && p[|p| - |app|..] == app
      && (|app| < |p| ==> p[|p| - |app| - 1] == '/')
  {
    LastSegmentIsSuffix(req.url.pathname, '/');
  }
}
