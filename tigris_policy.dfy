/** The least-privilege policy document attached to a bucket's identity
    (`createBucketPolicyDocument`), kept as the structured document rather
    than its JSON text. */
module TigrisPolicy {
  import opened Strings

  datatype Statement = Statement(sid: string, effect: string, actions: seq<string>, resources: seq<string>)

  datatype PolicyDocument = PolicyDocument(version: string, statements: seq<Statement>)

  const ArnPrefix := "arn:aws:s3:::"
  const ListActions := ["s3:ListObjects", "s3:ListObjectsV2"]

  /** The ARN of a bucket itself. */
  function BucketArn(bucket: string): string {
    ArnPrefix + bucket
  }

  /** The ARN pattern of every object in a bucket. */
  function ObjectsArn(bucket: string): string {
    ArnPrefix + bucket + "/*"
  }

  function CreateBucketPolicyDocument(bucket: string): (doc: PolicyDocument)
    ensures doc.version == "2012-10-17" && |doc.statements| == 2
    ensures forall st :: st in doc.statements ==> st.effect == "Allow"
  {
    PolicyDocument("2012-10-17", [
      Statement("ListObjectsInBucket", "Allow", ListActions, [BucketArn(bucket)]),
      Statement("ManageAllObjectsInBucketWildcard", "Allow", ["s3:*"], [ObjectsArn(bucket)])
    ])
  }

  /** The document allows `action` on `resource`. */
  predicate Grants(doc: PolicyDocument, action: string, resource: string) {
    exists st :: st in doc.statements && st.effect == "Allow" && action in st.actions && resource in st.resources
  }

  /** What the document allows is exactly: listing on the bucket ARN, and
      every action on the bucket's objects; nothing else, and nothing on any
      other resource. */
  lemma PolicyGrantsExactly(bucket: string, action: string, resource: string)
    ensures Grants(CreateBucketPolicyDocument(bucket), action, resource) <==>
      (resource == BucketArn(bucket) && action in ListActions)
      || (resource == ObjectsArn(bucket) && action == "s3:*")
  {
    var doc := CreateBucketPolicyDocument(bucket);
    if resource == BucketArn(bucket) && action in ListActions {
      assert doc.statements[0] in doc.statements;
    }
    if resource == ObjectsArn(bucket) && action == "s3:*" {
      assert doc.statements[1] in doc.statements;
    }
  }

  /** Every resource any statement of the document names. */
  function Resources(statements: seq<Statement>): set<string> {
    if |statements| == 0 then {}
    else (set r | r in statements[0].resources) + Resources(statements[1..])
  }

  /** Between bucket names without '/' (which bucket names never contain),
      the documents of two different buckets name no common resource: a
      document names no bucket but its own. */
  lemma PoliciesOfDistinctBucketsDisjoint(a: string, b: string)
    requires '/' !in a && '/' !in b && a != b
    ensures Resources(CreateBucketPolicyDocument(a).statements) !! Resources(CreateBucketPolicyDocument(b).statements)
  {
    var p := ArnPrefix;
    forall x: string, y: string | p + x == p + y ensures x == y {
      assert x == (p + x)[|p|..] && y == (p + y)[|p|..];
    }
    forall x: string, y: string | '/' !in x ensures p + x != p + y + "/*" {
      assert (p + x)[|p|..] == x;
      assert (p + y + "/*")[|p|..] == y + "/*";
      assert (y + "/*")[|y|] == '/';
    }
    assert BucketArn(a) != ObjectsArn(b) && ObjectsArn(a) != BucketArn(b) by {
      assert ObjectsArn(b) == p + b + "/*" && ObjectsArn(a) == p + a + "/*";
    }
    ResourcesOfPolicy(a);
    ResourcesOfPolicy(b);
    assert BucketArn(a) != BucketArn(b);
    assert BucketArn(a) != ObjectsArn(b);
    assert ObjectsArn(a) != BucketArn(b);
    assert ObjectsArn(a) != ObjectsArn(b) by {
      var oa, ob := ObjectsArn(a), ObjectsArn(b);
      if |a| == |b| {
        assert oa[..|p| + |a|] == p + a && ob[..|p| + |b|] == p + b;
      }
    }
  }

  lemma ResourcesOfPolicy(bucket: string)
    ensures Resources(CreateBucketPolicyDocument(bucket).statements) == {BucketArn(bucket), ObjectsArn(bucket)}
  {
    var sts := CreateBucketPolicyDocument(bucket).statements;
    assert (set r | r in sts[0].resources) == {BucketArn(bucket)} by {
      assert sts[0].resources == [BucketArn(bucket)];
    }
    assert (set r | r in sts[1].resources) == {ObjectsArn(bucket)} by {
      assert sts[1].resources == [ObjectsArn(bucket)];
    }
    assert sts[1..][0] == sts[1];
    assert sts[1..][1..] == [];
    assert Resources(sts[1..]) == {ObjectsArn(bucket)};
  }
}
