/** The two backends the proxy talks to, as one abstract remote world: the
    compute backend's apps and per-app secret stores, and the storage
    backend's buckets, IAM access keys, policies and user-policy attachments.
    Each remote call is a method that takes the backend's reply as an
    argument, appends the call to `log`, and changes the state only when the
    reply reports success. */
module Remote {
  import opened Wrappers
  import opened Http
  import opened TigrisPolicy

  /** An IAM access key as CreateAccessKeyCommand returns it. A field the
      reply leaves out is represented by the empty string. */
  datatype AccessKey = AccessKey(accessKeyId: string, secretAccessKey: string)

  /** The awaited result of sending CreateAccessKeyCommand: an SDK error, or
      a reply that may lack its `AccessKey`. */
  datatype AccessKeyReply = KeyRejected(message: string) | KeyReplied(accessKey: Option<AccessKey>)

  /** The awaited result of sending CreatePolicyCommand: an SDK error, or a
      reply that may lack `Policy.Arn`. */
  datatype PolicyReply = PolicyRejected(message: string) | PolicyReplied(arn: Option<string>)

  /** One call made to a backend. */
  datatype Op =
    | CreateApp(app: string)
    | DeleteApp(app: string)
    | SetSecret(app: string, key: string, value: string)
    | ListSecrets(app: string)
    | CreateBucket(bucket: string)
    | DeleteBucket(bucket: string)
    | CreateAccessKey(user: string)
    | CreatePolicy(name: string, document: PolicyDocument)
    | AttachUserPolicy(user: string, policyArn: string)
  {
    /** A call to the storage backend's identity service. */
    predicate IsIam() {
      CreateAccessKey? || CreatePolicy? || AttachUserPolicy?
    }
  }

  /** The secret store of `app` in `store`, empty when it has none. */
  function SecretsOf(store: map<string, map<string, string>>, app: string): map<string, string> {
    if app in store then store[app] else map[]
  }

  class World {
    var apps: set<string>
    var buckets: set<string>
    /** (user, access key id) of every access key issued. */
    var accessKeys: set<(string, string)>
    /** Policy name to document. */
    var policies: map<string, PolicyDocument>
    /** (user, policy ARN) of every attachment. */
    var attachments: set<(string, string)>
    /** App name to its secret store. */
    var secrets: map<string, map<string, string>>
    /** Every call made so far, in order. */
    var log: seq<Op>

    constructor ()
      ensures apps == {} && buckets == {} && accessKeys == {} && policies == map[]
      ensures attachments == {} && secrets == map[] && log == []
    {
      apps, buckets, accessKeys, policies, attachments, secrets, log := {}, {}, {}, map[], {}, map[], [];
    }

    /** The upstream app create (the proxied POST /v1/apps). */
    method CreateApp(app: string, reply: FetchReply)
      modifies this
      ensures log == old(log) + [Op.CreateApp(app)]
      ensures apps == if Delivered(reply) then old(apps) + {app} else old(apps)
      ensures unchanged(this`buckets, this`accessKeys, this`policies, this`attachments, this`secrets)
    {
      log := log + [Op.CreateApp(app)];
      if Delivered(reply) {
        apps := apps + {app};
      }
    }

    /** The upstream app delete; the backend deletes only when it answers ok. */
    method DeleteApp(app: string, reply: FetchReply)
      modifies this
      ensures log == old(log) + [Op.DeleteApp(app)]
      ensures apps == if Delivered(reply) then old(apps) - {app} else old(apps)
      ensures unchanged(this`buckets, this`accessKeys, this`policies, this`attachments, this`secrets)
    {
      log := log + [Op.DeleteApp(app)];
      if Delivered(reply) {
        apps := apps - {app};
      }
    }

    /** One secret write; the store keeps the value only when the backend answers ok. */
    method WriteSecret(app: string, key: string, value: string, reply: FetchReply)
      modifies this
      ensures log == old(log) + [Op.SetSecret(app, key, value)]
      ensures secrets == if Delivered(reply) then old(secrets)[app := SecretsOf(old(secrets), app)[key := value]] else old(secrets)
      ensures unchanged(this`apps, this`buckets, this`accessKeys, this`policies, this`attachments)
    {
      log := log + [Op.SetSecret(app, key, value)];
      if Delivered(reply) {
        secrets := secrets[app := SecretsOf(secrets, app)[key := value]];
      }
    }

    /** A read of an app's secret list; nothing changes. */
    method ReadSecrets(app: string)
      modifies this
      ensures log == old(log) + [Op.ListSecrets(app)]
      ensures unchanged(this`apps, this`buckets, this`accessKeys, this`policies, this`attachments, this`secrets)
    {
      log := log + [Op.ListSecrets(app)];
    }

    /** `createBucket` (lib/tigris.ts): the SDK call, whose error is rethrown. */
    method CreateBucket(bucket: string, reply: Outcome) returns (res: Outcome)
      modifies this
      ensures res == reply
      ensures log == old(log) + [Op.CreateBucket(bucket)]
      ensures buckets == if reply.Pass? then old(buckets) + {bucket} else old(buckets)
      ensures unchanged(this`apps, this`accessKeys, this`policies, this`attachments, this`secrets)
    {
      log := log + [Op.CreateBucket(bucket)];
      if reply.Pass? {
        buckets := buckets + {bucket};
      }
      res := reply;
    }

    /** `deleteBucket` (lib/tigris.ts): the SDK call, whose error is rethrown. */
    method DeleteBucket(bucket: string, reply: Outcome) returns (res: Outcome)
      modifies this
      ensures res == reply
      ensures log == old(log) + [Op.DeleteBucket(bucket)]
      ensures buckets == if reply.Pass? then old(buckets) - {bucket} else old(buckets)
      ensures unchanged(this`apps, this`accessKeys, this`policies, this`attachments, this`secrets)
    {
      log := log + [Op.DeleteBucket(bucket)];
      if reply.Pass? {
        buckets := buckets - {bucket};
      }
      res := reply;
    }

    method CreateAccessKey(user: string, reply: AccessKeyReply) returns (res: AccessKeyReply)
      modifies this
      ensures res == reply
      ensures log == old(log) + [Op.CreateAccessKey(user)]
      ensures accessKeys == if reply.KeyReplied? && reply.accessKey.Some?
                            then old(accessKeys) + {(user, reply.accessKey.value.accessKeyId)}
                            else old(accessKeys)
      ensures unchanged(this`apps, this`buckets, this`policies, this`attachments, this`secrets)
    {
      log := log + [Op.CreateAccessKey(user)];
      if reply.KeyReplied? && reply.accessKey.Some? {
        accessKeys := accessKeys + {(user, reply.accessKey.value.accessKeyId)};
      }
      res := reply;
    }

    method CreatePolicy(name: string, document: PolicyDocument, reply: PolicyReply) returns (res: PolicyReply)
      modifies this
      ensures res == reply
      ensures log == old(log) + [Op.CreatePolicy(name, document)]
      ensures policies == if reply.PolicyReplied? then old(policies)[name := document] else old(policies)
      ensures unchanged(this`apps, this`buckets, this`accessKeys, this`attachments, this`secrets)
    {
      log := log + [Op.CreatePolicy(name, document)];
      if reply.PolicyReplied? {
        policies := policies[name := document];
      }
      res := reply;
    }

    method AttachUserPolicy(user: string, policyArn: string, reply: Outcome) returns (res: Outcome)
      modifies this
      ensures res == reply
      ensures log == old(log) + [Op.AttachUserPolicy(user, policyArn)]
      ensures attachments == if reply.Pass? then old(attachments) + {(user, policyArn)} else old(attachments)
      ensures unchanged(this`apps, this`buckets, this`accessKeys, this`policies, this`secrets)
    {
      log := log + [Op.AttachUserPolicy(user, policyArn)];
      if reply.Pass? {
        attachments := attachments + {(user, policyArn)};
      }
      res := reply;
    }
  }
}
