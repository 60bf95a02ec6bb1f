/** The bucket provisioner (lib/tigris.ts): configuration lookup, the
    result-returning IAM helpers, `createCredentials` and the
    `createTigrisBucket` saga with its compensating bucket delete. The bucket
    calls `createBucket` and `deleteBucket` are Remote.World.CreateBucket and
    Remote.World.DeleteBucket. */
module Tigris {
  import opened Wrappers
  import opened Strings
  import opened TigrisPolicy
  import opened Remote

  /** Credentials handed back to the caller; they cannot be fetched again later. */
  datatype Credentials = Credentials(accessKeyId: string, secretAccessKey: string, bucket: string)

  /** The storage backend's replies during one run of createTigrisBucket:
      one per call the run may make, in call order. */
  datatype BucketReplies = BucketReplies(
    createBucket: Outcome,
    accessKey: AccessKeyReply,
    policy: PolicyReply,
    attach: Outcome,
    deleteBucket: Outcome)

  const SetupPrefix := "Failed to set up Tigris bucket: "
  const AccessKeyMissing := "Failed to create access key"
  const PolicyArnMissing := "Failed to create policy: " + "Missing policy ARN in response"

  // ---------------------------------------------------------------- configuration

  function MissingConfig(key: string): string {
    "Missing configuration for Tigris: " + key + ". Ensure environment variables are set."
  }

  /** `getConfigOrThrow(key)` over the process environment `env`: an unset or
      empty variable throws an error naming it. */
  function GetConfigOrThrow(env: map<string, string>, key: string): (r: Result<string>)
    ensures r.Ok? <==> key in env && env[key] != ""
    ensures r.Ok? ==> r.value == env[key]
    ensures r.Err? ==> r.message == MissingConfig(key)
  {
    if key in env && env[key] != "" then Ok(env[key]) else Err(MissingConfig(key))
  }

  datatype TigrisConfig = TigrisConfig(accessKey: string, secretKey: string)

  /** The module's start-up reads: the access key first, then the secret key;
      the first one missing aborts the start with its error. */
  function LoadConfig(env: map<string, string>): (r: Result<TigrisConfig>)
    ensures r.Ok? <==> GetConfigOrThrow(env, "FLY_TIGRIS_ACCESS_KEY").Ok? && GetConfigOrThrow(env, "FLY_TIGRIS_SECRET_ACCESS_KEY").Ok?
    ensures r.Ok? ==> r.value == TigrisConfig(env["FLY_TIGRIS_ACCESS_KEY"], env["FLY_TIGRIS_SECRET_ACCESS_KEY"])
    ensures r.Err? ==> r.message == MissingConfig(
      if GetConfigOrThrow(env, "FLY_TIGRIS_ACCESS_KEY").Err? then "FLY_TIGRIS_ACCESS_KEY" else "FLY_TIGRIS_SECRET_ACCESS_KEY")
  {
    match GetConfigOrThrow(env, "FLY_TIGRIS_ACCESS_KEY")
    case Err(e) => Err(e)
    case Ok(accessKey) =>
      match GetConfigOrThrow(env, "FLY_TIGRIS_SECRET_ACCESS_KEY")
      case Err(e) => Err(e)
      case Ok(secretKey) => Ok(TigrisConfig(accessKey, secretKey))
  }

  // ---------------------------------------------------------------- result-returning helpers

  /** The `{error, status}` record the helpers return instead of throwing. */
  datatype ErrorRecord = ErrorRecord(error: string, status: string)

  datatype KeyOrError = IssuedKey(accessKeyId: string, secretAccessKey: string) | KeyError(record: ErrorRecord)

  /** `createAccessKey`'s decision on the reply: it never throws; an SDK
      error or a reply missing either key field becomes an error record. */
  function CreateAccessKeyResult(reply: AccessKeyReply): (r: KeyOrError)
    ensures r.IssuedKey? <==>
      reply.KeyReplied? && reply.accessKey.Some?
      && reply.accessKey.value.accessKeyId != "" && reply.accessKey.value.secretAccessKey != ""
    ensures r.IssuedKey? ==>
      r.accessKeyId == reply.accessKey.value.accessKeyId && r.secretAccessKey == reply.accessKey.value.secretAccessKey
    ensures r.KeyError? ==> r.record.status == "error" && StartsWith(r.record.error, "Failed to create access key: ")
  {
    match reply
    case KeyRejected(message) => KeyError(ErrorRecord("Failed to create access key: " + message, "error"))
    case KeyReplied(key) =>
      if key.None? || key.value.accessKeyId == "" || key.value.secretAccessKey == "" then
        KeyError(ErrorRecord("Failed to create access key: " + "Missing access key information in response", "error"))
      else IssuedKey(key.value.accessKeyId, key.value.secretAccessKey)
  }

  datatype ArnOrError = PolicyArn(arn: string) | PolicyError(record: ErrorRecord)

  /** `createPolicy`'s decision on the reply: an SDK error or a missing ARN
      becomes an error record. */
  function CreatePolicyResult(reply: PolicyReply): (r: ArnOrError)
    ensures r.PolicyArn? <==> reply.PolicyReplied? && reply.arn.Some? && reply.arn.value != ""
    ensures r.PolicyArn? ==> r.arn == reply.arn.value
    ensures r.PolicyError? ==> r.record.status == "error" && StartsWith(r.record.error, "Failed to create policy: ")
  {
    match reply
    case PolicyRejected(message) => PolicyError(ErrorRecord("Failed to create policy: " + message, "error"))
    case PolicyReplied(arn) =>
      if arn.None? || arn.value == "" then PolicyError(ErrorRecord(PolicyArnMissing, "error"))
      else PolicyArn(arn.value)
  }

  // ---------------------------------------------------------------- createCredentials

  function PolicyName(bucket: string): string {
    bucket + "-policy"
  }

  /** The access-key reply carries an `AccessKey`. */
  predicate KeyIssued(reply: AccessKeyReply) {
    reply.KeyReplied? && reply.accessKey.Some?
  }

  /** The policy reply carries a non-empty `Policy.Arn`. */
  predicate ArnReturned(reply: PolicyReply) {
    reply.PolicyReplied? && reply.arn.Some? && reply.arn.value != ""
  }

  predicate CredentialsSucceed(r: BucketReplies) {
    KeyIssued(r.accessKey) && ArnReturned(r.policy) && r.attach.Pass?
  }

  /** The IAM calls createCredentials makes, in order: the access key, then
      (only if it came back) the policy, then (only if it has an ARN) the
      attachment, all for the user named after the bucket. */
  function CredentialOps(bucket: string, r: BucketReplies): seq<Op> {
    [CreateAccessKey(bucket)]
    + (if KeyIssued(r.accessKey) then [CreatePolicy(PolicyName(bucket), CreateBucketPolicyDocument(bucket))] else [])
    + (if KeyIssued(r.accessKey) && ArnReturned(r.policy) then [AttachUserPolicy(bucket, r.policy.arn.value)] else [])
  }

  /** What createCredentials returns or throws. */
  function CredentialsOutcome(bucket: string, r: BucketReplies): (c: Result<Credentials>)
    ensures c.Ok? <==> CredentialsSucceed(r)
    ensures c.Ok? ==> c.value == Credentials(
      r.accessKey.accessKey.value.accessKeyId, r.accessKey.accessKey.value.secretAccessKey, bucket)
    ensures !KeyIssued(r.accessKey) ==> c == Err(if r.accessKey.KeyRejected? then r.accessKey.message else AccessKeyMissing)
  {
    match r.accessKey
    case KeyRejected(message) => Err(message)
    case KeyReplied(key) =>
      if key.None? then Err(AccessKeyMissing)
      else match r.policy
        case PolicyRejected(message) => Err(message)
        case PolicyReplied(arn) =>
          if arn.None? || arn.value == "" then Err(PolicyArnMissing)
          else if r.attach.Fail? then Err(r.attach.message)
          else Ok(Credentials(key.value.accessKeyId, key.value.secretAccessKey, bucket))
  }

  function KeysAfter(keys: set<(string, string)>, bucket: string, r: BucketReplies): set<(string, string)> {
    if KeyIssued(r.accessKey) then keys + {(bucket, r.accessKey.accessKey.value.accessKeyId)} else keys
  }

  function PoliciesAfter(policies: map<string, PolicyDocument>, bucket: string, r: BucketReplies): map<string, PolicyDocument> {
    if KeyIssued(r.accessKey) && r.policy.PolicyReplied?
    then policies[PolicyName(bucket) := CreateBucketPolicyDocument(bucket)]
    else policies
  }

  function AttachmentsAfter(attachments: set<(string, string)>, bucket: string, r: BucketReplies): set<(string, string)> {
    if CredentialsSucceed(r) then attachments + {(bucket, r.policy.arn.value)} else attachments
  }

  /** `createCredentials`: access key, then policy `<bucket>-policy`, then
      the attachment; a missing AccessKey or ARN throws before the next call.
      Nothing created is undone when a later step fails. */
  method CreateCredentials(w: World, bucket: string, r: BucketReplies) returns (res: Result<Credentials>)
    modifies w
    ensures res == CredentialsOutcome(bucket, r)
    ensures w.log == old(w.log) + CredentialOps(bucket, r)
    ensures w.accessKeys == KeysAfter(old(w.accessKeys), bucket, r)
    ensures w.policies == PoliciesAfter(old(w.policies), bucket, r)
    ensures w.attachments == AttachmentsAfter(old(w.attachments), bucket, r)
    ensures unchanged(w`apps, w`buckets, w`secrets)
  {
    var keyReply := w.CreateAccessKey(bucket, r.accessKey);
    if keyReply.KeyRejected? {
      return Err(keyReply.message);
    }
    if keyReply.accessKey.None? {
      return Err(AccessKeyMissing);
    }
    var key := keyReply.accessKey.value;
    var policyName := PolicyName(bucket);
    var policyDocument := CreateBucketPolicyDocument(bucket);
    var policyReply := w.CreatePolicy(policyName, policyDocument, r.policy);
    if policyReply.PolicyRejected? {
      return Err(policyReply.message);
    }
    if policyReply.arn.None? || policyReply.arn.value == "" {
      return Err(PolicyArnMissing);
    }
    var attached := w.AttachUserPolicy(bucket, policyReply.arn.value, r.attach);
    if attached.Fail? {
      return Err(attached.message);
    }
    res := Ok(Credentials(key.accessKeyId, key.secretAccessKey, bucket));
  }

  /** Attaching is the last IAM call and happens only after both the key and
      the policy ARN came back. */
  lemma AttachOnlyAfterKeyAndPolicy(bucket: string, r: BucketReplies, user: string, arn: string)
    requires AttachUserPolicy(user, arn) in CredentialOps(bucket, r)
    ensures KeyIssued(r.accessKey) && ArnReturned(r.policy) && user == bucket && arn == r.policy.arn.value
    ensures CredentialOps(bucket, r) ==
      [CreateAccessKey(bucket), CreatePolicy(PolicyName(bucket), CreateBucketPolicyDocument(bucket)), AttachUserPolicy(bucket, arn)]
  {
  }

  /** A missing AccessKey stops before any policy; a missing ARN stops before any attachment. */
  lemma EarlyAborts(bucket: string, r: BucketReplies)
    ensures !KeyIssued(r.accessKey) ==> CredentialOps(bucket, r) == [CreateAccessKey(bucket)]
    ensures KeyIssued(r.accessKey) && !ArnReturned(r.policy) ==>
      CredentialOps(bucket, r) == [CreateAccessKey(bucket), CreatePolicy(PolicyName(bucket), CreateBucketPolicyDocument(bucket))]
  {
  }

  // ---------------------------------------------------------------- createTigrisBucket

  /** The calls createTigrisBucket makes: the bucket, then (if it was created)
      the IAM calls, then (if those failed) the compensating delete of the
      same bucket. */
  function BucketOps(bucket: string, r: BucketReplies): seq<Op> {
    [CreateBucket(bucket)]
    + if r.createBucket.Fail? then []
      else CredentialOps(bucket, r) + (if CredentialsSucceed(r) then [] else [DeleteBucket(bucket)])
  }

  /** What createTigrisBucket returns or throws. */
  function BucketOutcome(bucket: string, r: BucketReplies): (res: Result<Credentials>)
    ensures res.Ok? <==> r.createBucket.Pass? && CredentialsSucceed(r)
    ensures res.Ok? ==> res.value == CredentialsOutcome(bucket, r).value && res.value.bucket == bucket
    ensures res.Err? ==> StartsWith(res.message, SetupPrefix)
  {
    if r.createBucket.Fail? then Err(SetupPrefix + r.createBucket.message)
    else match CredentialsOutcome(bucket, r)
      case Ok(credentials) => Ok(credentials)
      case Err(cause) =>
        if r.deleteBucket.Fail? then Err(SetupPrefix + r.deleteBucket.message)
        else Err(SetupPrefix + cause)
  }

  function BucketsAfter(buckets: set<string>, bucket: string, r: BucketReplies): set<string> {
    if r.createBucket.Fail? then buckets
    else if CredentialsSucceed(r) || r.deleteBucket.Fail? then buckets + {bucket}
    else buckets - {bucket}
  }

  /** The IAM state after createTigrisBucket: createCredentials ran only if
      the bucket was created. */
  function BucketKeys(keys: set<(string, string)>, bucket: string, r: BucketReplies): set<(string, string)> {
    if r.createBucket.Pass? then KeysAfter(keys, bucket, r) else keys
  }

  function BucketPolicies(policies: map<string, PolicyDocument>, bucket: string, r: BucketReplies): map<string, PolicyDocument> {
    if r.createBucket.Pass? then PoliciesAfter(policies, bucket, r) else policies
  }

  function BucketAttachments(attachments: set<(string, string)>, bucket: string, r: BucketReplies): set<(string, string)> {
    if r.createBucket.Pass? then AttachmentsAfter(attachments, bucket, r) else attachments
  }

  /** `createTigrisBucket`: bucket first, then credentials; when the
      credentials fail the bucket is deleted and the error rethrown, and a
      failing delete's error takes the place of the original one. Every error
      leaving it carries SetupPrefix. */
  method CreateTigrisBucket(w: World, bucket: string, r: BucketReplies) returns (res: Result<Credentials>)
    modifies w
    ensures res == BucketOutcome(bucket, r)
    ensures w.log == old(w.log) + BucketOps(bucket, r)
    ensures w.buckets == BucketsAfter(old(w.buckets), bucket, r)
    ensures w.accessKeys == BucketKeys(old(w.accessKeys), bucket, r)
    ensures w.policies == BucketPolicies(old(w.policies), bucket, r)
    ensures w.attachments == BucketAttachments(old(w.attachments), bucket, r)
    ensures unchanged(w`apps, w`secrets)
  {
    var created := w.CreateBucket(bucket, r.createBucket);
    if created.Fail? {
      return Err(SetupPrefix + created.message);
    }
    var credentials := CreateCredentials(w, bucket, r);
    if credentials.Ok? {
      return credentials;
    }
    var cleaned := w.DeleteBucket(bucket, r.deleteBucket);
    if cleaned.Fail? {
      return Err(SetupPrefix + cleaned.message);
    }
    res := Err(SetupPrefix + credentials.message);
  }

  /** A failed bucket create makes no IAM call and reports its own error. */
  lemma BucketFailureStopsEverything(bucket: string, r: BucketReplies)
    requires r.createBucket.Fail?
    ensures BucketOps(bucket, r) == [CreateBucket(bucket)]
    ensures forall op :: op in BucketOps(bucket, r) ==> !op.IsIam()
    ensures BucketOutcome(bucket, r) == Err(SetupPrefix + r.createBucket.message)
  {
  }

  /** When the credentials fail after the bucket exists, the same bucket is
      deleted as the last call; keys and policies already created stay; the
      error is the delete's own if the delete fails, else the credentials'. */
  lemma CredentialFailureCompensates(bucket: string, r: BucketReplies)
    requires r.createBucket.Pass? && !CredentialsSucceed(r)
    ensures var ops := BucketOps(bucket, r); ops[|ops| - 1] == DeleteBucket(bucket)
    ensures forall op :: op in BucketOps(bucket, r) && !op.IsIam() ==> op == CreateBucket(bucket) || op == DeleteBucket(bucket)
    ensures BucketOutcome(bucket, r) == Err(SetupPrefix +
      if r.deleteBucket.Fail? then r.deleteBucket.message else CredentialsOutcome(bucket, r).message)
    ensures forall keys: set<(string, string)> :: keys <= KeysAfter(keys, bucket, r)
    ensures forall policies: map<string, PolicyDocument> :: policies.Keys <= PoliciesAfter(policies, bucket, r).Keys
  {
  }
}
