// The SQS adapter: queue details and the attribute maps built from them,
// the classification of SDK errors, the queue policy built by AddPermission,
// and the adapter operations, each issued against the provider.
module SqsQueue {
  import opened Errors
  import Cloud

  /** The details of a queue, all as strings, "" meaning "not set". */
  datatype QueueDetails = QueueDetails(
    queueUrl: string,
    queueArn: string,
    delaySeconds: string,
    maximumMessageSize: string,
    messageRetentionPeriod: string,
    policy: string,
    receiveMessageWaitTimeSeconds: string,
    visibilityTimeout: string)

  const NoDetails: QueueDetails := QueueDetails("", "", "", "", "", "", "", "")

  /** The SQS attributes the adapter writes, in the order the builders test them. */
  const WritableAttributes: seq<Cloud.AttributeName> :=
    [Cloud.DelaySeconds, Cloud.MaximumMessageSize, Cloud.MessageRetentionPeriod, Cloud.Policy,
     Cloud.ReceiveMessageWaitTimeSeconds, Cloud.VisibilityTimeout]

  /** The field of `d` that holds the SQS attribute `a` ("" for other names). */
  function Attribute(d: QueueDetails, a: Cloud.AttributeName): string {
    match a
    case QueueArn => d.queueArn
    case DelaySeconds => d.delaySeconds
    case MaximumMessageSize => d.maximumMessageSize
    case MessageRetentionPeriod => d.messageRetentionPeriod
    case Policy => d.policy
    case ReceiveMessageWaitTimeSeconds => d.receiveMessageWaitTimeSeconds
    case VisibilityTimeout => d.visibilityTimeout
    case OtherAttribute(_) => ""
  }

  /** A map lookup that gives "" for a missing key, as Go's map index does. */
  function Lookup(m: Cloud.AttributeMap, a: Cloud.AttributeName): string {
    if a in m then m[a] else ""
  }

  /** `m` with `a` set to `v` when `v` is non-empty: one step of the builders. */
  function Put(m: Cloud.AttributeMap, a: Cloud.AttributeName, v: string): Cloud.AttributeMap {
    if v != "" then m[a := v] else m
  }

  /** The attributes sent for `d`: the writable fields in the builders'
      order, each inserted when it is non-empty. */
  function SentAttributes(d: QueueDetails): Cloud.AttributeMap {
    Put(Put(Put(Put(Put(Put(map[],
      Cloud.DelaySeconds, d.delaySeconds),
      Cloud.MaximumMessageSize, d.maximumMessageSize),
      Cloud.MessageRetentionPeriod, d.messageRetentionPeriod),
      Cloud.Policy, d.policy),
      Cloud.ReceiveMessageWaitTimeSeconds, d.receiveMessageWaitTimeSeconds),
      Cloud.VisibilityTimeout, d.visibilityTimeout)
  }

  /** Each writable attribute is sent exactly when its field is non-empty, and
      carries that field's value; no other attribute (in particular not the
      ARN) is ever sent. */
  lemma {:induction false} SentAttributesMeaning(d: QueueDetails)
    ensures var m := SentAttributes(d);
      && (forall a :: a in m <==> a in WritableAttributes && Attribute(d, a) != "")
      && (forall a :: a in m ==> m[a] == Attribute(d, a))
  {
    forall a {
      SentAttributeAt(d, a);
    }
  }

  /** The same, for one attribute. */
  lemma {:induction false} SentAttributeAt(d: QueueDetails, a: Cloud.AttributeName)
    ensures var m := SentAttributes(d);
      && (a in m <==> a in WritableAttributes && Attribute(d, a) != "")
      && (a in m ==> m[a] == Attribute(d, a))
  {
    match a
    case QueueArn =>
    case DelaySeconds =>
    case MaximumMessageSize =>
    case MessageRetentionPeriod =>
    case Policy =>
    case ReceiveMessageWaitTimeSeconds =>
    case VisibilityTimeout =>
    case OtherAttribute(_) =>
  }

  /** The URL and the ARN of the details never affect what is sent, and
      details with no field set send the empty map. */
  lemma SentIgnoresUrlAndArn(d: QueueDetails, url: string, arn: string)
    ensures SentAttributes(d.(queueUrl := url, queueArn := arn)) == SentAttributes(d)
    ensures SentAttributes(NoDetails) == map[]
    ensures Cloud.QueueArn !in SentAttributes(d)
  {
  }

  datatype CreateQueueInput = CreateQueueInput(queueName: string, attributes: Cloud.AttributeMap)

  datatype SetQueueAttributesInput = SetQueueAttributesInput(queueUrl: string, attributes: Cloud.AttributeMap)

  /** The CreateQueue request for `d`: starts from an empty map and inserts each
      non-empty writable field under its attribute name. */
  method BuildCreateQueueInput(queueName: string, d: QueueDetails) returns (input: CreateQueueInput)
    ensures input.queueName == queueName
    ensures input.attributes == SentAttributes(d)
  {
    input := CreateQueueInput(queueName, map[]);
    if d.delaySeconds != "" {
      input := input.(attributes := input.attributes[Cloud.DelaySeconds := d.delaySeconds]);
    }
    if d.maximumMessageSize != "" {
      input := input.(attributes := input.attributes[Cloud.MaximumMessageSize := d.maximumMessageSize]);
    }
    if d.messageRetentionPeriod != "" {
      input := input.(attributes := input.attributes[Cloud.MessageRetentionPeriod := d.messageRetentionPeriod]);
    }
    if d.policy != "" {
      input := input.(attributes := input.attributes[Cloud.Policy := d.policy]);
    }
    if d.receiveMessageWaitTimeSeconds != "" {
      input := input.(attributes := input.attributes[Cloud.ReceiveMessageWaitTimeSeconds := d.receiveMessageWaitTimeSeconds]);
    }
    if d.visibilityTimeout != "" {
      input := input.(attributes := input.attributes[Cloud.VisibilityTimeout := d.visibilityTimeout]);
    }
  }

  /** The SetQueueAttributes request for `d`: the same selection as for
      CreateQueue, addressed to the queue URL. */
  method BuildSetQueueAttributesInput(queueUrl: string, d: QueueDetails) returns (input: SetQueueAttributesInput)
    ensures input.queueUrl == queueUrl
    ensures input.attributes == SentAttributes(d)
  {
    input := SetQueueAttributesInput(queueUrl, map[]);
    if d.delaySeconds != "" {
      input := input.(attributes := input.attributes[Cloud.DelaySeconds := d.delaySeconds]);
    }
    if d.maximumMessageSize != "" {
      input := input.(attributes := input.attributes[Cloud.MaximumMessageSize := d.maximumMessageSize]);
    }
    if d.messageRetentionPeriod != "" {
      input := input.(attributes := input.attributes[Cloud.MessageRetentionPeriod := d.messageRetentionPeriod]);
    }
    if d.policy != "" {
      input := input.(attributes := input.attributes[Cloud.Policy := d.policy]);
    }
    if d.receiveMessageWaitTimeSeconds != "" {
      input := input.(attributes := input.attributes[Cloud.ReceiveMessageWaitTimeSeconds := d.receiveMessageWaitTimeSeconds]);
    }
    if d.visibilityTimeout != "" {
      input := input.(attributes := input.attributes[Cloud.VisibilityTimeout := d.visibilityTimeout]);
    }
  }

  /** The details read back from a queue: its URL, and every other field taken
      from the attribute of the same name, "" when that attribute is missing. */
  function BuildQueueDetails(queueUrl: string, attributes: Cloud.AttributeMap): (d: QueueDetails)
    ensures d.queueUrl == queueUrl
    ensures forall a: Cloud.AttributeName :: !a.OtherAttribute? ==> Attribute(d, a) == Lookup(attributes, a)
  {
    QueueDetails(
      queueUrl,
      Lookup(attributes, Cloud.QueueArn),
      Lookup(attributes, Cloud.DelaySeconds),
      Lookup(attributes, Cloud.MaximumMessageSize),
      Lookup(attributes, Cloud.MessageRetentionPeriod),
      Lookup(attributes, Cloud.Policy),
      Lookup(attributes, Cloud.ReceiveMessageWaitTimeSeconds),
      Lookup(attributes, Cloud.VisibilityTimeout))
  }

  /** Reading back what was sent recovers every writable field; the URL is the
      one given and the ARN, never sent, reads as "". */
  lemma DetailsRoundTrip(queueUrl: string, d: QueueDetails)
    ensures BuildQueueDetails(queueUrl, SentAttributes(d)) == d.(queueUrl := queueUrl, queueArn := "")
  {
    var m := SentAttributes(d);
    SentAttributesMeaning(d);
    assert Lookup(m, Cloud.QueueArn) == "";
    assert Lookup(m, Cloud.DelaySeconds) == d.delaySeconds;
    assert Lookup(m, Cloud.MaximumMessageSize) == d.maximumMessageSize;
    assert Lookup(m, Cloud.MessageRetentionPeriod) == d.messageRetentionPeriod;
    assert Lookup(m, Cloud.Policy) == d.policy;
    assert Lookup(m, Cloud.ReceiveMessageWaitTimeSeconds) == d.receiveMessageWaitTimeSeconds;
    assert Lookup(m, Cloud.VisibilityTimeout) == d.visibilityTimeout;
  }

  /** Sending the details read from a queue writes back exactly its non-empty
      writable attributes, unchanged. */
  lemma AttributesRoundTrip(queueUrl: string, attributes: Cloud.AttributeMap)
    ensures var m := SentAttributes(BuildQueueDetails(queueUrl, attributes));
      && (forall a :: a in m <==> a in WritableAttributes && a in attributes && attributes[a] != "")
      && (forall a :: a in m ==> m[a] == attributes[a])
  {
    var d := BuildQueueDetails(queueUrl, attributes);
    SentAttributesMeaning(d);
    forall a | a in WritableAttributes
      ensures Attribute(d, a) == Lookup(attributes, a)
    {
    }
  }

  /** A request failure with status 400 or 404: what SQS answers for a queue
      that does not exist. */
  predicate IsNotFound(e: SdkError) {
    e.RequestFailure? && (e.status == 400 || e.status == 404)
  }

  /** The classification the adapter applies to every SDK error except those of
      CreateQueue: "not found" failures become ErrQueueDoesNotExist, other AWS
      errors "code: message", and any other error passes unchanged. */
  function ClassifyQueueError(e: SdkError): (r: Error)
    ensures r == QueueDoesNotExist <==> IsNotFound(e) || e == Other(QueueDoesNotExist)
    ensures !IsNotFound(e) ==> r == TranslateAwsError(e)
    ensures IsAws(e) && !IsNotFound(e) ==> r.Text?
  {
    match e
    case RequestFailure(code, message, status) =>
      if status == 400 || status == 404 then QueueDoesNotExist else Text(code + ": " + message)
    case AwsError(code, message) => Text(code + ": " + message)
    case Other(cause) => cause
  }

  // The queue policy that AddPermission writes.

  datatype QueuePolicyStatement = QueuePolicyStatement(
    sid: string,
    effect: string,
    principal: map<string, string>,
    action: string,
    resource: string)

  datatype QueuePolicy = QueuePolicy(version: string, id: string, statement: seq<QueuePolicyStatement>)

  const PolicyVersion: string := "2012-10-17"
  const PolicyId: string := "SQSQueuePolicy"

  /** The statement granting `userArn` the SQS action `action` on `queueArn`. */
  function BuildQueuePolicyStatement(policyId: string, userArn: string, action: string, queueArn: string): (st: QueuePolicyStatement)
    ensures st.sid == policyId && st.effect == "Allow" && st.resource == queueArn
    ensures st.principal.Keys == {"AWS"} && st.principal["AWS"] == userArn
    ensures |st.action| == 4 + |action| && st.action[..4] == "sqs:" && st.action[4..] == action
  {
    QueuePolicyStatement(policyId, "Allow", map["AWS" := userArn], "sqs:" + action, queueArn)
  }

  /** The fixed policy envelope around a list of statements. */
  function PolicyEnvelope(statements: seq<QueuePolicyStatement>): (q: QueuePolicy)
    ensures q.version == "2012-10-17" && q.id == "SQSQueuePolicy" && q.statement == statements
  {
    QueuePolicy(PolicyVersion, PolicyId, statements)
  }

  /** Wraps statements in the envelope and serialises it with `marshal`, which
      may fail. */
  function BuildQueuePolicy(statements: seq<QueuePolicyStatement>, marshal: QueuePolicy -> Result<string>): (r: Result<string>)
    ensures r == marshal(QueuePolicy("2012-10-17", "SQSQueuePolicy", statements))
  {
    marshal(PolicyEnvelope(statements))
  }

  /** The statements AddPermission writes: those of the existing policy (parsed
      with `parse`, which may fail) followed by `st`, or `st` alone when the
      queue has no policy. */
  function ExtendedStatements(existing: string, st: QueuePolicyStatement, parse: string -> Result<QueuePolicy>): (r: Result<seq<QueuePolicyStatement>>)
    ensures existing == "" ==> r == Ok([st])
    ensures existing != "" ==> (r.Ok? <==> parse(existing).Ok?)
    ensures existing != "" && r.Err? ==> r.error == parse(existing).error
    ensures r.Ok? ==>
              var prior := if existing == "" then [] else parse(existing).value.statement;
              |r.value| == |prior| + 1 && r.value[..|prior|] == prior && r.value[|prior|] == st
  {
    if existing == "" then Ok([st])
    else match parse(existing)
      case Err(e) => Err(e)
      case Ok(policy) => Ok(policy.statement + [st])
  }

  /** The serialised policy AddPermission stores for the described queue: the
      envelope around the new statement alone when the queue has no policy,
      else around the parsed statements followed by the new one; a parse or a
      marshal failure is the error. */
  function UpdatedPolicy(described: QueueDetails, st: QueuePolicyStatement,
                         parse: string -> Result<QueuePolicy>, marshal: QueuePolicy -> Result<string>): (r: Result<string>)
    ensures described.policy == "" ==> r == marshal(QueuePolicy(PolicyVersion, PolicyId, [st]))
    ensures described.policy != "" && parse(described.policy).Err? ==> r == Err(parse(described.policy).error)
    ensures described.policy != "" && parse(described.policy).Ok? ==>
      r == marshal(QueuePolicy(PolicyVersion, PolicyId, parse(described.policy).value.statement + [st]))
  {
    match ExtendedStatements(described.policy, st, parse)
    case Err(e) => Err(e)
    case Ok(statements) => BuildQueuePolicy(statements, marshal)
  }

  /** What AddPermission sends back for a queue read as `attributes`: every
      non-empty writable attribute it already had, with the policy replaced. */
  lemma ResentAttributes(queueUrl: string, attributes: Cloud.AttributeMap, policy: string)
    requires policy != ""
    ensures var m := SentAttributes(BuildQueueDetails(queueUrl, attributes).(policy := policy));
      && Cloud.Policy in m && m[Cloud.Policy] == policy
      && (forall a :: a != Cloud.Policy ==>
            (a in m <==> a in WritableAttributes && a in attributes && attributes[a] != ""))
      && (forall a :: a != Cloud.Policy && a in m ==> m[a] == attributes[a])
  {
    var e := BuildQueueDetails(queueUrl, attributes).(policy := policy);
    var m := SentAttributes(e);
    SentAttributeAt(e, Cloud.Policy);
    forall a | a != Cloud.Policy
      ensures (a in m <==> a in WritableAttributes && a in attributes && attributes[a] != "")
      ensures a in m ==> m[a] == attributes[a]
    {
      SentAttributeAt(e, a);
    }
  }

  /** Stored attributes with the policy replaced, when the new one is non-empty. */
  function WithPolicy(attributes: Cloud.AttributeMap, policy: string): Cloud.AttributeMap {
    if policy != "" then attributes[Cloud.Policy := policy] else attributes
  }

  /** Writing a queue's described attributes back with the policy `policy`
      leaves what the queue stores as it was, except that a non-empty policy
      replaces the stored one. */
  lemma {:induction false} ResentStores(queueUrl: string, attributes: Cloud.AttributeMap, policy: string)
    ensures var m := SentAttributes(BuildQueueDetails(queueUrl, attributes).(policy := policy));
      attributes + m == WithPolicy(attributes, policy)
  {
    var e := BuildQueueDetails(queueUrl, attributes).(policy := policy);
    var m := SentAttributes(e);
    var want := WithPolicy(attributes, policy);
    forall a
      ensures a in attributes + m <==> a in want
      ensures a in want ==> (attributes + m)[a] == want[a]
    {
      SentAttributeAt(e, a);
    }
    assert attributes + m == want;
  }

  // The adapter's operations.  Each issues its requests against the provider
  // `p`; the log shows the requests made and the replies they got.

  /** One SQS request, its error classified. */
  method Issue(p: Cloud.Provider, req: Cloud.Request) returns (reply: Cloud.Reply, err: Option<Error>)
    requires p.Valid()
    modifies p`state, p`log
    ensures p.Valid()
    ensures p.log == old(p.log) + [Cloud.Call(req, reply)]
    ensures Cloud.Fits(req, reply)
    ensures err == (if reply.Failed? then Some(ClassifyQueueError(reply.error)) else None)
    ensures Cloud.IsQuery(req) || reply.Failed? ==> p.state == old(p.state)
    ensures !reply.Failed? ==> (reply, p.state) == Cloud.Respond(old(p.state), p.issuedKey, req)
    ensures Cloud.IsSqs(req) ==> p.state.users == old(p.state.users) && p.state.policies == old(p.state.policies)
  {
    ghost var s0 := p.state;
    reply := p.Send(req);
    Cloud.RespondFrame(s0, p.issuedKey, req);
    err := if reply.Failed? then Some(ClassifyQueueError(reply.error)) else None;
  }

  /** Resolves a queue name to its URL (the adapter's getQueueURL). */
  method ResolveQueueUrl(p: Cloud.Provider, queueName: string) returns (queueUrl: string, err: Option<Error>)
    requires p.Valid()
    modifies p`state, p`log
    ensures p.Valid() && p.state == old(p.state)
    ensures |p.log| == |old(p.log)| + 1 && old(p.log) <= p.log
    ensures var c := p.log[|old(p.log)|];
      && c.request == Cloud.GetQueueUrl(queueName)
      && (c.reply.Failed? ==> queueUrl == "" && err == Some(ClassifyQueueError(c.reply.error)))
      && (!c.reply.Failed? ==> c.reply.Url? && queueUrl == c.reply.queueUrl && err.None?)
    ensures err.None? ==> queueName in p.state.queues && queueUrl == Cloud.QueueUrl(queueName)
  {
    var reply;
    reply, err := Issue(p, Cloud.GetQueueUrl(queueName));
    queueUrl := if reply.Failed? then "" else reply.queueUrl;
  }

  /** Reads all attributes of the queue at `queueUrl` (getQueueAttributes). */
  method FetchQueueAttributes(p: Cloud.Provider, queueUrl: string) returns (attributes: Cloud.AttributeMap, err: Option<Error>)
    requires p.Valid()
    modifies p`state, p`log
    ensures p.Valid() && p.state == old(p.state)
    ensures |p.log| == |old(p.log)| + 1 && old(p.log) <= p.log
    ensures var c := p.log[|old(p.log)|];
      && c.request == Cloud.GetQueueAttributes(queueUrl)
      && (c.reply.Failed? ==> attributes == map[] && err == Some(ClassifyQueueError(c.reply.error)))
      && (!c.reply.Failed? ==> c.reply.Attributes? && attributes == c.reply.attributes && err.None?)
    ensures err.None? ==> var name := Cloud.QueueNameOf(queueUrl);
      name.Some? && name.value in p.state.queues && attributes == p.state.queues[name.value]
  {
    var reply;
    reply, err := Issue(p, Cloud.GetQueueAttributes(queueUrl));
    attributes := if reply.Failed? then map[] else reply.attributes;
  }

  /** Writes the non-empty attributes of `d` to the queue at `queueUrl`
      (setQueueAttributes). */
  method StoreQueueAttributes(p: Cloud.Provider, queueUrl: string, d: QueueDetails) returns (err: Option<Error>)
    requires p.Valid()
    modifies p`state, p`log
    ensures p.Valid()
    ensures |p.log| == |old(p.log)| + 1 && old(p.log) <= p.log
    ensures var c := p.log[|old(p.log)|];
      && c.request == Cloud.SetQueueAttributes(queueUrl, SentAttributes(d))
      && err == (if c.reply.Failed? then Some(ClassifyQueueError(c.reply.error)) else None)
    ensures p.state.users == old(p.state.users) && p.state.policies == old(p.state.policies)
    ensures err.Some? ==> p.state == old(p.state)
    ensures err.None? ==> var name := Cloud.QueueNameOf(queueUrl);
      && name.Some? && name.value in old(p.state.queues)
      && p.state.queues == old(p.state.queues)[name.value := old(p.state.queues)[name.value] + SentAttributes(d)]
  {
    var input := BuildSetQueueAttributesInput(queueUrl, d);
    var reply;
    reply, err := Issue(p, Cloud.SetQueueAttributes(input.queueUrl, input.attributes));
  }

  /** The calls of a Describe: resolve the URL; only if that succeeds, read the
      attributes; on either failure empty details and the classified error. */
  ghost predicate DescribeTrace(queueName: string, t: seq<Cloud.Call>, details: QueueDetails, err: Option<Error>) {
    1 <= |t| && t[0].request == Cloud.GetQueueUrl(queueName) &&
    if t[0].reply.Failed? then
      |t| == 1 && details == NoDetails && err == Some(ClassifyQueueError(t[0].reply.error))
    else
      t[0].reply.Url? && |t| == 2 && t[1].request == Cloud.GetQueueAttributes(t[0].reply.queueUrl) &&
      if t[1].reply.Failed? then
        details == NoDetails && err == Some(ClassifyQueueError(t[1].reply.error))
      else
        t[1].reply.Attributes? && err.None? && details == BuildQueueDetails(t[0].reply.queueUrl, t[1].reply.attributes)
  }

  /** The number of calls a Describe makes, read from its first reply. */
  function DescribeLength(t: seq<Cloud.Call>): nat {
    if |t| > 0 && !t[0].reply.Failed? then 2 else 1
  }

  /** The calls of an operation on a named queue: resolve the URL; only if that
      succeeds, issue `next(url)`; the error is the classified failure, if any. */
  ghost predicate ResolvedThen(queueName: string, t: seq<Cloud.Call>, next: string -> Cloud.Request, err: Option<Error>) {
    1 <= |t| && t[0].request == Cloud.GetQueueUrl(queueName) &&
    if t[0].reply.Failed? then
      |t| == 1 && err == Some(ClassifyQueueError(t[0].reply.error))
    else
      t[0].reply.Url? && |t| == 2 && t[1].request == next(t[0].reply.queueUrl) &&
      err == (if t[1].reply.Failed? then Some(ClassifyQueueError(t[1].reply.error)) else None)
  }

  method Describe(p: Cloud.Provider, queueName: string) returns (details: QueueDetails, err: Option<Error>)
    requires p.Valid()
    modifies p`state, p`log
    ensures p.Valid() && p.state == old(p.state) && old(p.log) <= p.log
    ensures DescribeTrace(queueName, p.log[|old(p.log)|..], details, err)
    ensures err.None? ==>
      && queueName in p.state.queues
      && details == BuildQueueDetails(Cloud.QueueUrl(queueName), p.state.queues[queueName])
  {
    details := NoDetails;
    var queueUrl, urlErr := ResolveQueueUrl(p, queueName);
    if urlErr.Some? {
      err := urlErr;
      assert p.log[|old(p.log)|..] == [p.log[|old(p.log)|]];
      return;
    }
    ghost var mid := p.log;
    var attributes, attrErr := FetchQueueAttributes(p, queueUrl);
    Cloud.QueueUrlRoundTrip(queueName);
    assert p.log[|old(p.log)|..] == [mid[|old(p.log)|], p.log[|mid|]];
    if attrErr.Some? {
      err := attrErr;
      return;
    }
    details := BuildQueueDetails(queueUrl, attributes);
    err := None;
  }

  /** Creates a queue with the non-empty attributes of `d`.  Its errors are only
      translated: no status is inspected, so a "not found" status never turns
      into ErrQueueDoesNotExist here. */
  method Create(p: Cloud.Provider, queueName: string, d: QueueDetails) returns (err: Option<Error>)
    requires p.Valid()
    modifies p`state, p`log
    ensures p.Valid()
    ensures |p.log| == |old(p.log)| + 1 && old(p.log) <= p.log
    ensures var c := p.log[|old(p.log)|];
      && c.request == Cloud.CreateQueue(queueName, SentAttributes(d))
      && err == (if c.reply.Failed? then Some(TranslateAwsError(c.reply.error)) else None)
      && (err == Some(QueueDoesNotExist) ==> c.reply.error == Other(QueueDoesNotExist))
    ensures p.state.users == old(p.state.users) && p.state.policies == old(p.state.policies)
    ensures err.Some? ==> p.state == old(p.state)
    ensures err.None? ==>
      p.state.queues == old(p.state.queues)[queueName := Cloud.Stored(queueName, SentAttributes(d))]
  {
    var input := BuildCreateQueueInput(queueName, d);
    ghost var s0 := p.state;
    var reply := p.Send(Cloud.CreateQueue(input.queueName, input.attributes));
    Cloud.RespondFrame(s0, p.issuedKey, Cloud.CreateQueue(input.queueName, input.attributes));
    err := if reply.Failed? then Some(TranslateAwsError(reply.error)) else None;
  }

  method Modify(p: Cloud.Provider, queueName: string, d: QueueDetails) returns (err: Option<Error>)
    requires p.Valid()
    modifies p`state, p`log
    ensures p.Valid() && old(p.log) <= p.log
    ensures ResolvedThen(queueName, p.log[|old(p.log)|..], url => Cloud.SetQueueAttributes(url, SentAttributes(d)), err)
    ensures p.state.users == old(p.state.users) && p.state.policies == old(p.state.policies)
    ensures err.Some? ==> p.state == old(p.state)
    ensures err.None? ==>
      && queueName in old(p.state.queues)
      && p.state.queues == old(p.state.queues)[queueName := old(p.state.queues)[queueName] + SentAttributes(d)]
  {
    var queueUrl, urlErr := ResolveQueueUrl(p, queueName);
    if urlErr.Some? {
      assert p.log[|old(p.log)|..] == [p.log[|old(p.log)|]];
      return urlErr;
    }
    ghost var mid := p.log;
    err := StoreQueueAttributes(p, queueUrl, d);
    Cloud.QueueUrlRoundTrip(queueName);
    assert p.log[|old(p.log)|..] == [mid[|old(p.log)|], p.log[|mid|]];
  }

  method Delete(p: Cloud.Provider, queueName: string) returns (err: Option<Error>)
    requires p.Valid()
    modifies p`state, p`log
    ensures p.Valid() && old(p.log) <= p.log
    ensures ResolvedThen(queueName, p.log[|old(p.log)|..], url => Cloud.DeleteQueue(url), err)
    ensures p.state.users == old(p.state.users) && p.state.policies == old(p.state.policies)
    ensures err.Some? ==> p.state == old(p.state)
    ensures err.None? ==> queueName in old(p.state.queues) && p.state.queues == old(p.state.queues) - {queueName}
  {
    var queueUrl, urlErr := ResolveQueueUrl(p, queueName);
    if urlErr.Some? {
      assert p.log[|old(p.log)|..] == [p.log[|old(p.log)|]];
      return urlErr;
    }
    ghost var mid := p.log;
    var reply;
    reply, err := Issue(p, Cloud.DeleteQueue(queueUrl));
    Cloud.QueueUrlRoundTrip(queueName);
    assert p.log[|old(p.log)|..] == [mid[|old(p.log)|], p.log[|mid|]];
  }

  method RemovePermission(p: Cloud.Provider, queueName: string, permissionLabel: string) returns (err: Option<Error>)
    requires p.Valid()
    modifies p`state, p`log
    ensures p.Valid() && old(p.log) <= p.log
    ensures ResolvedThen(queueName, p.log[|old(p.log)|..], url => Cloud.RemovePermission(url, permissionLabel), err)
    ensures p.state == old(p.state)
  {
    var queueUrl, urlErr := ResolveQueueUrl(p, queueName);
    if urlErr.Some? {
      assert p.log[|old(p.log)|..] == [p.log[|old(p.log)|]];
      return urlErr;
    }
    ghost var mid := p.log;
    var reply;
    reply, err := Issue(p, Cloud.RemovePermission(queueUrl, permissionLabel));
    assert p.log[|old(p.log)|..] == [mid[|old(p.log)|], p.log[|mid|]];
  }

  /** Grants `userArn` the SQS action `action` on the queue, as a statement with
      id `permissionLabel` appended to the queue's policy.  The queue is
      described first; its failure, a policy that does not parse or one that
      does not serialise ends the operation before anything is written;
      otherwise the described attributes are written back with the new policy. */
  method AddPermission(p: Cloud.Provider, queueName: string, permissionLabel: string, userArn: string, action: string,
                       parse: string -> Result<QueuePolicy>, marshal: QueuePolicy -> Result<string>)
    returns (err: Option<Error>, ghost described: QueueDetails, ghost describeErr: Option<Error>)
    requires p.Valid()
    modifies p`state, p`log
    ensures p.Valid() && old(p.log) <= p.log
    ensures var t := p.log[|old(p.log)|..];
      var k := DescribeLength(t);
      var update := UpdatedPolicy(described, BuildQueuePolicyStatement(permissionLabel, userArn, action, described.queueArn), parse, marshal);
      && k <= |t| && DescribeTrace(queueName, t[..k], described, describeErr)
      && (describeErr.Some? ==> |t| == k && err == describeErr)
      && (describeErr.None? && update.Err? ==> |t| == k && err == Some(update.error))
      && (describeErr.None? && update.Ok? ==>
            && |t| == k + 1
            && t[k].request == Cloud.SetQueueAttributes(described.queueUrl, SentAttributes(described.(policy := update.value)))
            && err == (if t[k].reply.Failed? then Some(ClassifyQueueError(t[k].reply.error)) else None))
    ensures p.state.users == old(p.state.users) && p.state.policies == old(p.state.policies)
    ensures err.Some? ==> p.state == old(p.state)
    ensures err.None? ==> queueName in old(p.state.queues)
    ensures err.None? ==> described == BuildQueueDetails(Cloud.QueueUrl(queueName), old(p.state.queues)[queueName])
    ensures err.None? ==>
      var update := UpdatedPolicy(described, BuildQueuePolicyStatement(permissionLabel, userArn, action, described.queueArn), parse, marshal);
      update.Ok? && p.state.queues == old(p.state.queues)[queueName := WithPolicy(old(p.state.queues)[queueName], update.value)]
  {
    var queueDetails, derr := Describe(p, queueName);
    described, describeErr := queueDetails, derr;
    ghost var t0 := p.log[|old(p.log)|..];
    assert DescribeLength(t0) == |t0|;
    if derr.Some? {
      return derr, described, describeErr;
    }
    var statement := BuildQueuePolicyStatement(permissionLabel, userArn, action, queueDetails.queueArn);
    var encoded := UpdatedPolicy(queueDetails, statement, parse, marshal);
    if encoded.Err? {
      return Some(encoded.error), described, describeErr;
    }
    queueDetails := queueDetails.(policy := encoded.value);
    ghost var mid := p.log;
    err := StoreQueueAttributes(p, queueDetails.queueUrl, queueDetails);
    Cloud.QueueUrlRoundTrip(queueName);
    ResentStores(queueDetails.queueUrl, old(p.state.queues)[queueName], encoded.value);
    Cloud.Appended(old(p.log), mid, p.log);
    Cloud.Concatenated(t0, p.log[|mid|..]);
  }
}
