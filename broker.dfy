// The service broker: provisioning, updating and deprovisioning a queue per
// service instance, and binding and unbinding an IAM user per binding.
// Both adapters talk to one provider `p`, whose log records every call.
module Broker {
  import opened Errors
  import Parameters
  import Catalog
  import Config
  import Cloud
  import SqsQueue
  import IamUser

  datatype Broker = Broker(
    sqsPrefix: string,
    allowUserProvisionParameters: bool,
    allowUserUpdateParameters: bool,
    catalog: Catalog.Catalog)

  /** A broker takes its prefix, toggles and catalog from the configuration. */
  function New(c: Config.Config): (b: Broker)
    ensures b.sqsPrefix == c.queuePrefix && b.catalog == c.catalog
    ensures b.allowUserProvisionParameters == c.allowUserProvisionParameters
    ensures b.allowUserUpdateParameters == c.allowUserUpdateParameters
  {
    Broker(c.queuePrefix, c.allowUserProvisionParameters, c.allowUserUpdateParameters, c.catalog)
  }

  // ---------------------------------------------------------------------
  // Resource names

  /** `n` reads "prefix-id": the prefix, one dash, then the ID, nothing else. */
  predicate IsPrefixed(n: string, prefix: string, id: string) {
    |n| == |prefix| + 1 + |id| &&
    n[..|prefix|] == prefix && n[|prefix|] == '-' && n[|prefix| + 1..] == id
  }

  function Prefixed(prefix: string, id: string): (n: string)
    ensures IsPrefixed(n, prefix, id)
  {
    prefix + "-" + id
  }

  function QueueName(b: Broker, instanceId: string): (n: string)
    ensures IsPrefixed(n, b.sqsPrefix, instanceId)
  {
    Prefixed(b.sqsPrefix, instanceId)
  }

  function UserName(b: Broker, bindingId: string): (n: string)
    ensures IsPrefixed(n, b.sqsPrefix, bindingId)
  {
    Prefixed(b.sqsPrefix, bindingId)
  }

  function PolicyName(b: Broker, bindingId: string): (n: string)
    ensures IsPrefixed(n, b.sqsPrefix, bindingId)
  {
    Prefixed(b.sqsPrefix, bindingId)
  }

  /** A binding's user and policy share one name, which is also the name the
      queue of an instance with the same ID would get. */
  lemma NamesCoincide(b: Broker, id: string)
    ensures UserName(b, id) == PolicyName(b, id) == QueueName(b, id)
  {
  }

  /** Under one prefix, distinct IDs give distinct names. */
  lemma {:induction false} NamesInjective(b: Broker, id1: string, id2: string)
    requires QueueName(b, id1) == QueueName(b, id2)
    ensures id1 == id2
  {
    var n := QueueName(b, id1);
    assert id1 == n[|b.sqsPrefix| + 1..];
  }

  // ---------------------------------------------------------------------
  // Queue details from the plan and the caller's parameters

  function PlanField(props: Catalog.SqsProperties, t: Parameters.Tunable): string {
    match t
    case DelaySeconds => props.delaySeconds
    case MaximumMessageSize => props.maximumMessageSize
    case MessageRetentionPeriod => props.messageRetentionPeriod
    case ReceiveMessageWaitTimeSeconds => props.receiveMessageWaitTimeSeconds
    case VisibilityTimeout => props.visibilityTimeout
  }

  /** The queue attribute each tunable sets. */
  function AttributeOf(t: Parameters.Tunable): (a: Cloud.AttributeName)
    ensures a in SqsQueue.WritableAttributes && a != Cloud.Policy && a != Cloud.QueueArn
  {
    match t
    case DelaySeconds => Cloud.DelaySeconds
    case MaximumMessageSize => Cloud.MaximumMessageSize
    case MessageRetentionPeriod => Cloud.MessageRetentionPeriod
    case ReceiveMessageWaitTimeSeconds => Cloud.ReceiveMessageWaitTimeSeconds
    case VisibilityTimeout => Cloud.VisibilityTimeout
  }

  function DetailField(d: SqsQueue.QueueDetails, t: Parameters.Tunable): string {
    SqsQueue.Attribute(d, AttributeOf(t))
  }

  /** The plan's properties as queue details: URL, ARN and policy empty. */
  function QueueDetailsFromPlan(plan: Catalog.ServicePlan): (d: SqsQueue.QueueDetails)
    ensures d.queueUrl == "" && d.queueArn == "" && d.policy == ""
    ensures forall t :: DetailField(d, t) == PlanField(plan.sqsProperties, t)
  {
    var props := plan.sqsProperties;
    SqsQueue.QueueDetails("", "", props.delaySeconds, props.maximumMessageSize, props.messageRetentionPeriod, "",
                          props.receiveMessageWaitTimeSeconds, props.visibilityTimeout)
  }

  /** The value of one tunable after the merge: the caller's, when non-empty,
      else the plan's. */
  function Merged(plan: Catalog.ServicePlan, params: Parameters.QueueParameters, t: Parameters.Tunable): string {
    if Parameters.Get(params, t) != "" then Parameters.Get(params, t) else PlanField(plan.sqsProperties, t)
  }

  /** The details provision and update send: every tunable merged, URL, ARN and
      policy empty.  These are the only fields, so the details are determined. */
  ghost predicate IsMerged(plan: Catalog.ServicePlan, params: Parameters.QueueParameters, d: SqsQueue.QueueDetails) {
    d.queueUrl == "" && d.queueArn == "" && d.policy == "" &&
    forall t :: DetailField(d, t) == Merged(plan, params, t)
  }

  /** Plan defaults overwritten, one field at a time, by the caller's non-empty
      parameters.  Provision and update use this same code on their own
      parameter types, whose fields and keys are identical. */
  method MergeQueueDetails(plan: Catalog.ServicePlan, params: Parameters.QueueParameters) returns (d: SqsQueue.QueueDetails)
    ensures IsMerged(plan, params, d)
  {
    d := QueueDetailsFromPlan(plan);
    if params.delaySeconds != "" {
      d := d.(delaySeconds := params.delaySeconds);
    }
    if params.maximumMessageSize != "" {
      d := d.(maximumMessageSize := params.maximumMessageSize);
    }
    if params.messageRetentionPeriod != "" {
      d := d.(messageRetentionPeriod := params.messageRetentionPeriod);
    }
    if params.receiveMessageWaitTimeSeconds != "" {
      d := d.(receiveMessageWaitTimeSeconds := params.receiveMessageWaitTimeSeconds);
    }
    if params.visibilityTimeout != "" {
      d := d.(visibilityTimeout := params.visibilityTimeout);
    }
    MergedByFields(plan, params, d);
  }

  /** The merge, field by field. */
  lemma MergedByFields(plan: Catalog.ServicePlan, params: Parameters.QueueParameters, d: SqsQueue.QueueDetails)
    requires d.queueUrl == "" && d.queueArn == "" && d.policy == ""
    requires var props := plan.sqsProperties;
      && d.delaySeconds == (if params.delaySeconds != "" then params.delaySeconds else props.delaySeconds)
      && d.maximumMessageSize == (if params.maximumMessageSize != "" then params.maximumMessageSize else props.maximumMessageSize)
      && d.messageRetentionPeriod == (if params.messageRetentionPeriod != "" then params.messageRetentionPeriod else props.messageRetentionPeriod)
      && d.receiveMessageWaitTimeSeconds == (if params.receiveMessageWaitTimeSeconds != "" then params.receiveMessageWaitTimeSeconds else props.receiveMessageWaitTimeSeconds)
      && d.visibilityTimeout == (if params.visibilityTimeout != "" then params.visibilityTimeout else props.visibilityTimeout)
    ensures IsMerged(plan, params, d)
  {
    forall t
      ensures DetailField(d, t) == Merged(plan, params, t)
    {
      match t
      case DelaySeconds =>
      case MaximumMessageSize =>
      case MessageRetentionPeriod =>
      case ReceiveMessageWaitTimeSeconds =>
      case VisibilityTimeout =>
    }
  }

  /** Merged details are unique: the predicate pins down every field. */
  lemma {:induction false} MergedUnique(plan: Catalog.ServicePlan, params: Parameters.QueueParameters, d1: SqsQueue.QueueDetails, d2: SqsQueue.QueueDetails)
    requires IsMerged(plan, params, d1) && IsMerged(plan, params, d2)
    ensures d1 == d2
  {
    assert DetailField(d1, Parameters.DelaySeconds) == DetailField(d2, Parameters.DelaySeconds);
    assert DetailField(d1, Parameters.MaximumMessageSize) == DetailField(d2, Parameters.MaximumMessageSize);
    assert DetailField(d1, Parameters.MessageRetentionPeriod) == DetailField(d2, Parameters.MessageRetentionPeriod);
    assert DetailField(d1, Parameters.ReceiveMessageWaitTimeSeconds) == DetailField(d2, Parameters.ReceiveMessageWaitTimeSeconds);
    assert DetailField(d1, Parameters.VisibilityTimeout) == DetailField(d2, Parameters.VisibilityTimeout);
  }

  /** Without parameters the merge gives exactly the plan's details. */
  lemma {:induction false} MergeWithoutParameters(plan: Catalog.ServicePlan, d: SqsQueue.QueueDetails)
    requires IsMerged(plan, Parameters.NoParameters, d)
    ensures d == QueueDetailsFromPlan(plan)
  {
    var q := QueueDetailsFromPlan(plan);
    forall t
      ensures DetailField(q, t) == Merged(plan, Parameters.NoParameters, t)
    {
      assert Parameters.Get(Parameters.NoParameters, t) == "";
    }
    MergedUnique(plan, Parameters.NoParameters, d, q);
  }

  /** What reaches the provider: a tunable's attribute is sent exactly when its
      merged value is non-empty, with that value; the policy and the ARN are
      never sent, so no caller parameter can set the queue policy. */
  lemma {:induction false} MergedAttributesSent(plan: Catalog.ServicePlan, params: Parameters.QueueParameters, d: SqsQueue.QueueDetails)
    requires IsMerged(plan, params, d)
    ensures var m := SqsQueue.SentAttributes(d);
      && Cloud.Policy !in m && Cloud.QueueArn !in m
      && (forall t :: AttributeOf(t) in m <==> Merged(plan, params, t) != "")
      && (forall t :: AttributeOf(t) in m ==> m[AttributeOf(t)] == Merged(plan, params, t))
  {
    SqsQueue.SentAttributesMeaning(d);
    forall t
      ensures DetailField(d, t) == Merged(plan, params, t)
    {
    }
  }

  /** The caller's parameters as the broker uses them: decoded only when the
      operation's toggle allows it, else the zero value without looking.
      `keyOrder` is the order in which the decoder visits the map's keys. */
  function EffectiveParameters(allow: bool, raw: map<string, Parameters.Value>, keyOrder: seq<string>)
    : (r: Result<Parameters.QueueParameters>)
    ensures !allow ==> r == Ok(Parameters.NoParameters)
    ensures allow ==> r == Parameters.Decode(raw, keyOrder)
  {
    if allow then Parameters.Decode(raw, keyOrder) else Ok(Parameters.NoParameters)
  }

  /** With the toggle off, even a malformed parameter map is ignored, and the
      merge yields the plan's own details. */
  lemma {:induction false} ToggleOffIgnoresParameters(plan: Catalog.ServicePlan, raw: map<string, Parameters.Value>,
                                                      keyOrder: seq<string>, d: SqsQueue.QueueDetails)
    requires IsMerged(plan, EffectiveParameters(false, raw, keyOrder).value, d)
    ensures EffectiveParameters(false, raw, keyOrder).Ok?
    ensures d == QueueDetailsFromPlan(plan)
  {
    MergeWithoutParameters(plan, d);
  }

  /** Whatever the caller's map holds, under whatever keys ("Policy" or
      "policy" included), the attributes sent are among the five tunables'.
      The policy and the ARN are never sent, and each tunable sent carries
      the plan's value or a string found under a key that case-folds to its
      own key. */
  lemma {:induction false} NoParameterReachesPolicy(plan: Catalog.ServicePlan, allow: bool, raw: map<string, Parameters.Value>,
                                                    keyOrder: seq<string>, d: SqsQueue.QueueDetails)
    requires EffectiveParameters(allow, raw, keyOrder).Ok?
    requires IsMerged(plan, EffectiveParameters(allow, raw, keyOrder).value, d)
    ensures var m := SqsQueue.SentAttributes(d);
      && Cloud.Policy !in m && Cloud.QueueArn !in m
      && (forall a :: a in m ==> exists t :: a == AttributeOf(t))
      && (forall t :: AttributeOf(t) in m ==>
            || m[AttributeOf(t)] == PlanField(plan.sqsProperties, t)
            || exists k :: k in raw && Parameters.EqualFold(k, Parameters.Key(t)) && raw[k] == Parameters.Str(m[AttributeOf(t)]))
  {
    var params := EffectiveParameters(allow, raw, keyOrder).value;
    var m := SqsQueue.SentAttributes(d);
    MergedAttributesSent(plan, params, d);
    OnlyTunablesSent(d);
    if allow {
      Parameters.DecodeMeaning(raw, keyOrder);
    }
    forall t | AttributeOf(t) in m && m[AttributeOf(t)] != PlanField(plan.sqsProperties, t)
      ensures exists k :: k in raw && Parameters.EqualFold(k, Parameters.Key(t)) && raw[k] == Parameters.Str(m[AttributeOf(t)])
    {
      assert allow;
      var key := Parameters.Key(t);
      var f := Parameters.Found(raw, keyOrder, key);
      Parameters.FoundMeaning(raw, keyOrder, key);
      assert Parameters.FieldText(f) == m[AttributeOf(t)] != "";
      var k :| k in raw && Parameters.EqualFold(k, key) && f.value == raw[k];
    }
  }

  /** Details without a policy send only tunables' attributes. */
  lemma {:induction false} OnlyTunablesSent(d: SqsQueue.QueueDetails)
    requires d.policy == ""
    ensures forall a :: a in SqsQueue.SentAttributes(d) ==> exists t :: a == AttributeOf(t)
  {
    var m := SqsQueue.SentAttributes(d);
    SqsQueue.SentAttributesMeaning(d);
    forall a | a in m
      ensures exists t :: a == AttributeOf(t)
    {
      assert a in SqsQueue.WritableAttributes && a != Cloud.Policy;
      if a == Cloud.DelaySeconds {
        assert a == AttributeOf(Parameters.DelaySeconds);
      } else if a == Cloud.MaximumMessageSize {
        assert a == AttributeOf(Parameters.MaximumMessageSize);
      } else if a == Cloud.MessageRetentionPeriod {
        assert a == AttributeOf(Parameters.MessageRetentionPeriod);
      } else if a == Cloud.ReceiveMessageWaitTimeSeconds {
        assert a == AttributeOf(Parameters.ReceiveMessageWaitTimeSeconds);
      } else {
        assert a == AttributeOf(Parameters.VisibilityTimeout);
      }
    }
  }

  // ---------------------------------------------------------------------
  // Error mapping

  /** The queue adapter's "not found" becomes the broker's "instance does not
      exist"; every other error is returned as it is. */
  function InstanceError(e: Option<Error>): (r: Option<Error>)
    ensures e == Some(QueueDoesNotExist) ==> r == Some(InstanceDoesNotExist)
    ensures e != Some(QueueDoesNotExist) ==> r == e
  {
    if e == Some(QueueDoesNotExist) then Some(InstanceDoesNotExist) else e
  }

  /** A queue call failing with `e` is reported by the broker as "instance does
      not exist" exactly when the SDK said not found (status 400 or 404) or
      handed over one of the two sentinels; the queue sentinel never escapes,
      and everything else keeps the adapter's classification. */
  lemma {:induction false} InstanceErrorOfFailure(e: SdkError)
    ensures InstanceError(Some(SqsQueue.ClassifyQueueError(e))) == Some(InstanceDoesNotExist)
        <==> SqsQueue.IsNotFound(e) || e == Other(QueueDoesNotExist) || e == Other(InstanceDoesNotExist)
    ensures InstanceError(Some(SqsQueue.ClassifyQueueError(e))) != Some(QueueDoesNotExist)
    ensures !SqsQueue.IsNotFound(e) && e != Other(QueueDoesNotExist) ==>
      InstanceError(Some(SqsQueue.ClassifyQueueError(e))) == Some(TranslateAwsError(e))
  {
    var c := SqsQueue.ClassifyQueueError(e);
    if !SqsQueue.IsNotFound(e) {
      assert c == TranslateAwsError(e);
    }
  }

  // ---------------------------------------------------------------------
  // Instances

  /** The error for an unknown plan: a message from which the plan ID can be
      read back between its fixed opening and closing. */
  function PlanNotFound(planId: string): (e: Error)
    ensures e.Text? && |e.message| == |planId| + 25
    ensures e.message[..14] == "Service Plan '" && e.message[|e.message| - 11..] == "' not found"
    ensures e.message[14..|e.message| - 11] == planId
  {
    Text("Service Plan '" + planId + "' not found")
  }

  /** The error for an unknown service, likewise naming the service ID. */
  function ServiceNotFound(serviceId: string): (e: Error)
    ensures e.Text? && |e.message| == |serviceId| + 20
    ensures e.message[..9] == "Service '" && e.message[|e.message| - 11..] == "' not found"
    ensures e.message[9..|e.message| - 11] == serviceId
  {
    Text("Service '" + serviceId + "' not found")
  }

  /** Provision never completes asynchronously.  A parameter decode failure is
      reported first, then an unknown plan; in both cases no call is made.
      Otherwise exactly one queue creation is issued, with the merged
      attributes, and its error is returned unchanged.  The request's
      acceptsIncomplete flag plays no part. */
  method Provision(p: Cloud.Provider, b: Broker, instanceId: string, planId: string,
                   parameters: map<string, Parameters.Value>, keyOrder: seq<string>, acceptsIncomplete: bool)
    returns (async: bool, err: Option<Error>, ghost sent: SqsQueue.QueueDetails)
    requires p.Valid()
    modifies p`state, p`log
    ensures p.Valid() && old(p.log) <= p.log && !async
    ensures var decoded := EffectiveParameters(b.allowUserProvisionParameters, parameters, keyOrder);
      var plan := Catalog.FindServicePlan(b.catalog, planId);
      var t := p.log[|old(p.log)|..];
      && (decoded.Err? ==> t == [] && err == Some(decoded.error))
      && (decoded.Ok? && plan.None? ==> t == [] && err == Some(PlanNotFound(planId)))
      && (decoded.Ok? && plan.Some? ==>
            && IsMerged(plan.value, decoded.value, sent)
            && |t| == 1 && t[0].request == Cloud.CreateQueue(QueueName(b, instanceId), SqsQueue.SentAttributes(sent))
            && err == (if t[0].reply.Failed? then Some(TranslateAwsError(t[0].reply.error)) else None))
    ensures p.state.users == old(p.state.users) && p.state.policies == old(p.state.policies)
    ensures err.Some? ==> p.state == old(p.state)
    ensures err.None? ==>
      var queueName := QueueName(b, instanceId);
      p.state.queues == old(p.state.queues)[queueName := Cloud.Stored(queueName, SqsQueue.SentAttributes(sent))]
  {
    async, sent := false, SqsQueue.NoDetails;
    var provisionParameters := Parameters.NoParameters;
    if b.allowUserProvisionParameters {
      var decoded := Parameters.Decode(parameters, keyOrder);
      if decoded.Err? {
        return false, Some(decoded.error), sent;
      }
      provisionParameters := decoded.value;
    }
    var servicePlan := Catalog.FindServicePlan(b.catalog, planId);
    if servicePlan.None? {
      return false, Some(PlanNotFound(planId)), sent;
    }
    var createQueueDetails := MergeQueueDetails(servicePlan.value, provisionParameters);
    sent := createQueueDetails;
    err := SqsQueue.Create(p, QueueName(b, instanceId), createQueueDetails);
    assert p.log[|old(p.log)|..] == [p.log[|old(p.log)|]];
  }

  /** Update never completes asynchronously.  Its checks run in a fixed order
      and the first failure wins with no call made: parameter decoding, the
      service lookup, the service's plan_updateable flag, the plan lookup.
      Only then is the queue modified: its URL resolved, then its attributes
      set to the merged details, the queue's "not found" reported as the
      instance not existing. */
  method Update(p: Cloud.Provider, b: Broker, instanceId: string, serviceId: string, planId: string,
                parameters: map<string, Parameters.Value>, keyOrder: seq<string>, acceptsIncomplete: bool)
    returns (async: bool, err: Option<Error>, ghost sent: SqsQueue.QueueDetails, ghost modifyErr: Option<Error>)
    requires p.Valid()
    modifies p`state, p`log
    ensures p.Valid() && old(p.log) <= p.log && !async
    ensures var decoded := EffectiveParameters(b.allowUserUpdateParameters, parameters, keyOrder);
      var service := Catalog.FindService(b.catalog, serviceId);
      var plan := Catalog.FindServicePlan(b.catalog, planId);
      var t := p.log[|old(p.log)|..];
      && (decoded.Err? ==> t == [] && err == Some(decoded.error))
      && (decoded.Ok? && service.None? ==> t == [] && err == Some(ServiceNotFound(serviceId)))
      && (decoded.Ok? && service.Some? && !service.value.planUpdateable ==> t == [] && err == Some(InstanceNotUpdateable))
      && (decoded.Ok? && service.Some? && service.value.planUpdateable && plan.None? ==>
            t == [] && err == Some(PlanNotFound(planId)))
      && (decoded.Ok? && service.Some? && service.value.planUpdateable && plan.Some? ==>
            && IsMerged(plan.value, decoded.value, sent)
            && SqsQueue.ResolvedThen(QueueName(b, instanceId), t,
                                     url => Cloud.SetQueueAttributes(url, SqsQueue.SentAttributes(sent)), modifyErr)
            && err == InstanceError(modifyErr))
    ensures p.state.users == old(p.state.users) && p.state.policies == old(p.state.policies)
    ensures err.Some? ==> p.state == old(p.state)
    ensures err.None? ==>
      var queueName := QueueName(b, instanceId);
      && queueName in old(p.state.queues)
      && p.state.queues == old(p.state.queues)[queueName := old(p.state.queues)[queueName] + SqsQueue.SentAttributes(sent)]
  {
    sent, modifyErr := SqsQueue.NoDetails, None;
    var updateParameters := Parameters.NoParameters;
    if b.allowUserUpdateParameters {
      var decoded := Parameters.Decode(parameters, keyOrder);
      if decoded.Err? {
        return false, Some(decoded.error), sent, modifyErr;
      }
      updateParameters := decoded.value;
    }
    var service := Catalog.FindService(b.catalog, serviceId);
    if service.None? {
      return false, Some(ServiceNotFound(serviceId)), sent, modifyErr;
    }
    if !service.value.planUpdateable {
      return false, Some(InstanceNotUpdateable), sent, modifyErr;
    }
    var servicePlan := Catalog.FindServicePlan(b.catalog, planId);
    if servicePlan.None? {
      return false, Some(PlanNotFound(planId)), sent, modifyErr;
    }
    var modifyQueueDetails := MergeQueueDetails(servicePlan.value, updateParameters);
    sent := modifyQueueDetails;
    var e := SqsQueue.Modify(p, QueueName(b, instanceId), modifyQueueDetails);
    modifyErr := e;
    if e == Some(QueueDoesNotExist) {
      return false, Some(InstanceDoesNotExist), sent, modifyErr;
    }
    return false, e, sent, modifyErr;
  }

  /** Deprovision never completes asynchronously: it deletes the instance's
      queue (URL first, then the deletion), reporting the queue's "not found"
      as the instance not existing. */
  method Deprovision(p: Cloud.Provider, b: Broker, instanceId: string, acceptsIncomplete: bool)
    returns (async: bool, err: Option<Error>, ghost deleteErr: Option<Error>)
    requires p.Valid()
    modifies p`state, p`log
    ensures p.Valid() && old(p.log) <= p.log && !async
    ensures SqsQueue.ResolvedThen(QueueName(b, instanceId), p.log[|old(p.log)|..], url => Cloud.DeleteQueue(url), deleteErr)
    ensures err == InstanceError(deleteErr)
    ensures p.state.users == old(p.state.users) && p.state.policies == old(p.state.policies)
    ensures err.Some? ==> p.state == old(p.state)
    ensures err.None? ==>
      var queueName := QueueName(b, instanceId);
      queueName in old(p.state.queues) && p.state.queues == old(p.state.queues) - {queueName}
  {
    var e := SqsQueue.Delete(p, QueueName(b, instanceId));
    deleteErr := e;
    if e == Some(QueueDoesNotExist) {
      return false, Some(InstanceDoesNotExist), deleteErr;
    }
    return false, e, deleteErr;
  }

  // ---------------------------------------------------------------------
  // Bindings

  datatype Credentials = Credentials(username: string, password: string, uri: string)

  /** `t` issued exactly the requests `rs`, in that order. */
  ghost predicate Issues(t: seq<Cloud.Call>, rs: seq<Cloud.Request>) {
    |t| == |rs| && forall i :: 0 <= i < |t| ==> t[i].request == rs[i]
  }

  /** The deferred compensation of a failed binding, in the order it runs: the
      policy if one was created, then the access key if one was created, then
      the user. */
  function RollbackRequests(userName: string, accessKeyId: string, policyArn: string): (r: seq<Cloud.Request>)
    ensures 1 <= |r| <= 3 && r[|r| - 1] == Cloud.DeleteUser(userName)
    ensures forall q <- r :: Cloud.IsIam(q) && Cloud.IsRemoval(q)
    ensures Cloud.DeletePolicy(policyArn) in r <==> policyArn != ""
    ensures Cloud.DeleteAccessKey(userName, accessKeyId) in r <==> accessKeyId != ""
  {
    (if policyArn != "" then [Cloud.DeletePolicy(policyArn)] else []) +
    (if accessKeyId != "" then [Cloud.DeleteAccessKey(userName, accessKeyId)] else []) +
    [Cloud.DeleteUser(userName)]
  }

  /** Two traces, one after the other, issue their requests one after the other. */
  lemma {:induction false} IssuesThen(t1: seq<Cloud.Call>, rs1: seq<Cloud.Request>, t2: seq<Cloud.Call>, rs2: seq<Cloud.Request>)
    requires Issues(t1, rs1) && Issues(t2, rs2)
    ensures Issues(t1 + t2, rs1 + rs2)
  {
    forall i | 0 <= i < |t1 + t2|
      ensures (t1 + t2)[i].request == (rs1 + rs2)[i]
    {
      if i >= |t1| {
        assert (t1 + t2)[i] == t2[i - |t1|];
      }
    }
  }

  /** One IAM request whose outcome is ignored, as the deferred compensation
      ignores every outcome. */
  method Discard(p: Cloud.Provider, req: Cloud.Request)
    requires p.Valid() && Cloud.IsIam(req)
    modifies p`state, p`log
    ensures p.Valid() && old(p.log) <= p.log
    ensures Issues(p.log[|old(p.log)|..], [req])
    ensures p.state.queues == old(p.state.queues)
  {
    var reply, ignored := IamUser.Perform(p, req);
    assert p.log[|old(p.log)|..] == [Cloud.Call(req, reply)];
  }

  /** The deferred compensation of Bind: the policy's deletion if one was
      created, the access key's if one was issued, then the user's, each
      issued whatever the others' errors. */
  method Rollback(p: Cloud.Provider, userName: string, accessKeyId: string, policyArn: string)
    requires p.Valid()
    modifies p`state, p`log
    ensures p.Valid() && old(p.log) <= p.log
    ensures Issues(p.log[|old(p.log)|..], RollbackRequests(userName, accessKeyId, policyArn))
    ensures p.state.queues == old(p.state.queues)
  {
    ghost var rs: seq<Cloud.Request> := [];
    if policyArn != "" {
      Discard(p, Cloud.DeletePolicy(policyArn));
      rs := [Cloud.DeletePolicy(policyArn)];
    }
    ghost var m1 := p.log;
    assert Issues(m1[|old(p.log)|..], rs);
    if accessKeyId != "" {
      Discard(p, Cloud.DeleteAccessKey(userName, accessKeyId));
      Cloud.Appended(old(p.log), m1, p.log);
      IssuesThen(m1[|old(p.log)|..], rs, p.log[|m1|..], [Cloud.DeleteAccessKey(userName, accessKeyId)]);
      rs := rs + [Cloud.DeleteAccessKey(userName, accessKeyId)];
    }
    ghost var m2 := p.log;
    assert Issues(m2[|old(p.log)|..], rs);
    Discard(p, Cloud.DeleteUser(userName));
    Cloud.Appended(old(p.log), m2, p.log);
    IssuesThen(m2[|old(p.log)|..], rs, p.log[|m2|..], [Cloud.DeleteUser(userName)]);
  }

  /** The forward requests of a binding's IAM part, in order; the policy
      attached is the one the policy creation returned. */
  function ForwardRequests(userName: string, policyName: string, queueArn: string, policyArn: string): seq<Cloud.Request> {
    [Cloud.CreateUser(userName), Cloud.CreateAccessKey(userName),
     Cloud.CreatePolicy(policyName, "Allow", "sqs:*", queueArn), Cloud.AttachUserPolicy(userName, policyArn)]
  }

  /** The access key ID the `forward` forward calls of `t` produced ("" unless
      the key creation ran and succeeded). */
  ghost function KeyIdIn(t: seq<Cloud.Call>, forward: nat): string {
    if 2 <= forward && 2 <= |t| && t[1].reply.NewKey? then t[1].reply.key.id else ""
  }

  /** The policy ARN the `forward` forward calls of `t` produced. */
  ghost function PolicyArnIn(t: seq<Cloud.Call>, forward: nat): string {
    if 3 <= forward && 3 <= |t| && t[2].reply.NewPolicy? then t[2].reply.policyArn else ""
  }

  /** The forward calls `t` of a binding's IAM part: a run of the four
      forward requests up to the first failure, whose translation is the
      error; without a failure all four ran and the key creation returned a
      key. */
  ghost predicate ForwardTrace(userName: string, policyName: string, queueArn: string,
                               t: seq<Cloud.Call>, err: Option<Error>) {
    1 <= |t| &&
    Halted(t, ForwardRequests(userName, policyName, queueArn, PolicyArnIn(t, |t|)), err) &&
    (err.None? ==> t[1].reply.NewKey?)
  }

  /** What a binding's completed IAM part adds to the provider: a new user
      holding exactly the new access key and the new policy, a policy that
      grants all SQS actions on the queue's ARN, and nothing else. */
  ghost predicate ForwardEffect(s0: Cloud.State, s1: Cloud.State, userName: string, policyName: string, queueArn: string,
                                accessKeyId: string, policyArn: string) {
    && userName !in s0.users && policyArn == Cloud.PolicyArn(policyName) && policyArn !in s0.policies
    && s1.queues == s0.queues
    && s1.users == s0.users[userName := Cloud.UserRecord(Cloud.UserArn(userName), Cloud.UserId(userName), [accessKeyId], [policyArn])]
    && s1.policies == s0.policies[policyArn := Cloud.PolicyRecord(policyName, "Allow", "sqs:*", queueArn)]
  }

  /** The forward part of Bind.  `created` says whether the user was created,
      which is when Bind arms its deferred compensation. */
  method ForwardCalls(p: Cloud.Provider, userName: string, policyName: string, queueArn: string)
    returns (accessKeyId: string, secretAccessKey: string, policyArn: string, err: Option<Error>, created: bool)
    requires p.Valid()
    modifies p`state, p`log
    ensures p.Valid() && old(p.log) <= p.log
    ensures var t := p.log[|old(p.log)|..];
      && ForwardTrace(userName, policyName, queueArn, t, err)
      && accessKeyId == KeyIdIn(t, |t|) && policyArn == PolicyArnIn(t, |t|)
      && (created <==> |t| > 1)
      && (err.None? ==> secretAccessKey == t[1].reply.key.secret)
    ensures p.state.queues == old(p.state.queues)
    ensures err.None? ==> ForwardEffect(old(p.state), p.state, userName, policyName, queueArn, accessKeyId, policyArn)
    ensures err.None? ==> Cloud.AccessKey(accessKeyId, secretAccessKey) == p.issuedKey
  {
    ghost var start := |p.log|;
    accessKeyId, secretAccessKey, policyArn, created := "", "", "", false;
    err := IamUser.Create(p, userName);
    ghost var t1 := p.log[start..];
    HaltedOne(old(p.log), p.log, Cloud.CreateUser(userName), err);
    if err.Some? {
      HaltedWithin(t1, [Cloud.CreateUser(userName)], ForwardRequests(userName, policyName, queueArn, ""), err);
      return;
    }
    ghost var mid := p.log;
    created := true;
    accessKeyId, secretAccessKey, policyArn, err := GrantCalls(p, userName, policyName, queueArn, old(p.state));
    ghost var t2 := p.log[|mid|..];
    Cloud.Appended(old(p.log), mid, p.log);
    HaltedThen(t1, [Cloud.CreateUser(userName)], t2, GrantRequests(userName, policyName, queueArn, policyArn), err);
    ForwardTraceOf(userName, policyName, queueArn, t1, t2, policyArn, err);
  }

  /** The forward requests after the user's creation. */
  function GrantRequests(userName: string, policyName: string, queueArn: string, policyArn: string): seq<Cloud.Request> {
    [Cloud.CreateAccessKey(userName), Cloud.CreatePolicy(policyName, "Allow", "sqs:*", queueArn),
     Cloud.AttachUserPolicy(userName, policyArn)]
  }

  /** The user's creation followed by a run of the remaining forward requests
      is a forward trace, whose key and policy are those of the later run. */
  lemma {:induction false} ForwardTraceOf(userName: string, policyName: string, queueArn: string,
                                          t1: seq<Cloud.Call>, t2: seq<Cloud.Call>, policyArn: string, err: Option<Error>)
    requires |t1| == 1 && 1 <= |t2|
    requires Halted(t1 + t2, [Cloud.CreateUser(userName)] + GrantRequests(userName, policyName, queueArn, policyArn), err)
    requires policyArn == (if 2 <= |t2| && t2[1].reply.NewPolicy? then t2[1].reply.policyArn else "")
    requires err.None? ==> t2[0].reply.NewKey?
    ensures ForwardTrace(userName, policyName, queueArn, t1 + t2, err)
    ensures KeyIdIn(t1 + t2, |t1 + t2|) == (if t2[0].reply.NewKey? then t2[0].reply.key.id else "")
    ensures PolicyArnIn(t1 + t2, |t1 + t2|) == policyArn
  {
    var t := t1 + t2;
    assert t[1] == t2[0];
    if 2 <= |t2| {
      assert t[2] == t2[1];
    }
    assert [Cloud.CreateUser(userName)] + GrantRequests(userName, policyName, queueArn, policyArn)
        == ForwardRequests(userName, policyName, queueArn, policyArn);
  }

  /** The forward calls once the user exists: the access key, then the
      policy and its attachment, stopping at the first failure. */
  method GrantCalls(p: Cloud.Provider, userName: string, policyName: string, queueArn: string, ghost s0: Cloud.State)
    returns (accessKeyId: string, secretAccessKey: string, policyArn: string, err: Option<Error>)
    requires p.Valid()
    requires userName !in s0.users
    requires p.state == s0.(users := s0.users[userName := Cloud.UserRecord(Cloud.UserArn(userName), Cloud.UserId(userName), [], [])])
    modifies p`state, p`log
    ensures p.Valid() && old(p.log) <= p.log
    ensures var t := p.log[|old(p.log)|..];
      && 1 <= |t| && Halted(t, GrantRequests(userName, policyName, queueArn, policyArn), err)
      && accessKeyId == (if t[0].reply.NewKey? then t[0].reply.key.id else "")
      && policyArn == (if 2 <= |t| && t[1].reply.NewPolicy? then t[1].reply.policyArn else "")
      && (err.None? ==> t[0].reply.NewKey? && secretAccessKey == t[0].reply.key.secret)
    ensures p.state.queues == old(p.state.queues)
    ensures err.None? ==> ForwardEffect(s0, p.state, userName, policyName, queueArn, accessKeyId, policyArn)
    ensures err.None? ==> Cloud.AccessKey(accessKeyId, secretAccessKey) == p.issuedKey
  {
    ghost var start := |p.log|;
    policyArn := "";
    accessKeyId, secretAccessKey, err := IamUser.CreateAccessKey(p, userName);
    ghost var t1 := p.log[start..];
    HaltedOne(old(p.log), p.log, Cloud.CreateAccessKey(userName), err);
    if err.Some? {
      HaltedWithin(t1, [Cloud.CreateAccessKey(userName)], GrantRequests(userName, policyName, queueArn, ""), err);
    } else {
      ghost var mid := p.log;
      KeyIssued(s0, old(p.state), p.state, userName, accessKeyId);
      policyArn, err := PolicyCalls(p, userName, policyName, queueArn, s0, accessKeyId);
      Cloud.Appended(old(p.log), mid, p.log);
      GrantTraceOf(t1, p.log[|mid|..], userName, policyName, queueArn, accessKeyId, policyArn, err);
    }
  }

  /** A new user's first access key is its only one. */
  lemma {:induction false} KeyIssued(s0: Cloud.State, s1: Cloud.State, s2: Cloud.State, userName: string, accessKeyId: string)
    requires s1 == s0.(users := s0.users[userName := Cloud.UserRecord(Cloud.UserArn(userName), Cloud.UserId(userName), [], [])])
    requires s2.queues == s1.queues && s2.policies == s1.policies
    requires s2.users == s1.users[userName := s1.users[userName].(accessKeys := s1.users[userName].accessKeys + [accessKeyId])]
    ensures s2 == s0.(users := s0.users[userName := Cloud.UserRecord(Cloud.UserArn(userName), Cloud.UserId(userName), [accessKeyId], [])])
  {
    assert [] + [accessKeyId] == [accessKeyId];
  }

  /** The key's creation followed by a run of the policy's creation and
      attachment is a run of the grant requests, with that run's key and
      policy. */
  lemma {:induction false} GrantTraceOf(t1: seq<Cloud.Call>, t2: seq<Cloud.Call>, userName: string, policyName: string,
                                        queueArn: string, accessKeyId: string, policyArn: string, err: Option<Error>)
    requires Halted(t1, [Cloud.CreateAccessKey(userName)], None) && t1[0].reply.NewKey? && accessKeyId == t1[0].reply.key.id
    requires 1 <= |t2| && Halted(t2, [Cloud.CreatePolicy(policyName, "Allow", "sqs:*", queueArn), Cloud.AttachUserPolicy(userName, policyArn)], err)
    requires policyArn == (if t2[0].reply.NewPolicy? then t2[0].reply.policyArn else "")
    ensures var t := t1 + t2;
      && 1 <= |t| && t[0] == t1[0] && Halted(t, GrantRequests(userName, policyName, queueArn, policyArn), err)
      && accessKeyId == (if t[0].reply.NewKey? then t[0].reply.key.id else "")
      && policyArn == (if 2 <= |t| && t[1].reply.NewPolicy? then t[1].reply.policyArn else "")
  {
    HaltedThen(t1, [Cloud.CreateAccessKey(userName)], t2,
               [Cloud.CreatePolicy(policyName, "Allow", "sqs:*", queueArn), Cloud.AttachUserPolicy(userName, policyArn)], err);
    assert (t1 + t2)[0] == t1[0] && (t1 + t2)[1] == t2[0];
    assert [Cloud.CreateAccessKey(userName)] + [Cloud.CreatePolicy(policyName, "Allow", "sqs:*", queueArn), Cloud.AttachUserPolicy(userName, policyArn)]
        == GrantRequests(userName, policyName, queueArn, policyArn);
  }

  /** The policy on the queue's ARN and its attachment to the user, who by
      now holds the new access key; the attachment only if the creation
      succeeded. */
  method PolicyCalls(p: Cloud.Provider, userName: string, policyName: string, queueArn: string,
                     ghost s0: Cloud.State, ghost accessKeyId: string)
    returns (policyArn: string, err: Option<Error>)
    requires p.Valid()
    requires userName !in s0.users
    requires p.state == s0.(users := s0.users[userName := Cloud.UserRecord(Cloud.UserArn(userName), Cloud.UserId(userName), [accessKeyId], [])])
    modifies p`state, p`log
    ensures p.Valid() && old(p.log) <= p.log
    ensures var t := p.log[|old(p.log)|..];
      && 1 <= |t|
      && Halted(t, [Cloud.CreatePolicy(policyName, "Allow", "sqs:*", queueArn), Cloud.AttachUserPolicy(userName, policyArn)], err)
      && policyArn == (if t[0].reply.NewPolicy? then t[0].reply.policyArn else "")
    ensures p.state.queues == old(p.state.queues)
    ensures err.None? ==> ForwardEffect(s0, p.state, userName, policyName, queueArn, accessKeyId, policyArn)
  {
    ghost var start := |p.log|;
    ghost var create := Cloud.CreatePolicy(policyName, "Allow", "sqs:*", queueArn);
    policyArn, err := IamUser.CreatePolicy(p, policyName, "Allow", "sqs:*", queueArn);
    ghost var t1 := p.log[start..];
    HaltedOne(old(p.log), p.log, create, err);
    if err.Some? {
      HaltedWithin(t1, [create], [create, Cloud.AttachUserPolicy(userName, policyArn)], err);
      return;
    }
    ghost var s3, mid := p.state, p.log;
    err := IamUser.AttachUserPolicy(p, userName, policyArn);
    HaltedOne(mid, p.log, Cloud.AttachUserPolicy(userName, policyArn), err);
    Cloud.Appended(old(p.log), mid, p.log);
    HaltedThen(t1, [create], p.log[|mid|..], [Cloud.AttachUserPolicy(userName, policyArn)], err);
    if err.None? {
      ForwardEffectOf(s0, old(p.state), s3, p.state, userName, policyName, queueArn, accessKeyId, policyArn);
    }
  }

  /** The policy's creation and its attachment, after the user and the key,
      add up to the binding's effect. */
  lemma {:induction false} ForwardEffectOf(s0: Cloud.State, s2: Cloud.State, s3: Cloud.State, s4: Cloud.State,
                                           userName: string, policyName: string, queueArn: string,
                                           accessKeyId: string, policyArn: string)
    requires userName !in s0.users
    requires s2 == s0.(users := s0.users[userName := Cloud.UserRecord(Cloud.UserArn(userName), Cloud.UserId(userName), [accessKeyId], [])])
    requires policyArn == Cloud.PolicyArn(policyName) && policyArn !in s2.policies
    requires s3.users == s2.users && s3.queues == s2.queues
    requires s3.policies == s2.policies[policyArn := Cloud.PolicyRecord(policyName, "Allow", "sqs:*", queueArn)]
    requires userName in s3.users && s4.policies == s3.policies && s4.queues == s3.queues
    requires var u := s3.users[userName];
      s4.users == s3.users[userName := if policyArn in u.attachedPolicies then u else u.(attachedPolicies := u.attachedPolicies + [policyArn])]
    ensures ForwardEffect(s0, s4, userName, policyName, queueArn, accessKeyId, policyArn)
  {
    var u3 := s3.users[userName];
    assert policyArn !in u3.attachedPolicies && u3.attachedPolicies + [policyArn] == [policyArn];
  }


  /** The calls of a binding's IAM part: the forward calls, then, if one
      failed after the user had been created, the compensation for what
      exists, whatever its own errors. */
  ghost predicate CredentialTrace(userName: string, policyName: string, queueArn: string,
                                  t: seq<Cloud.Call>, err: Option<Error>, forward: nat) {
    1 <= forward <= |t| &&
    ForwardTrace(userName, policyName, queueArn, t[..forward], err) &&
    Issues(t[forward..], if err.None? || forward == 1 then []
                         else RollbackRequests(userName, KeyIdIn(t, forward), PolicyArnIn(t, forward)))
  }

  /** The IAM part of Bind: user, access key, policy, attachment, with the
      deferred compensation run on failure once the user exists. */
  method CreateCredentials(p: Cloud.Provider, userName: string, policyName: string, queueArn: string)
    returns (accessKeyId: string, secretAccessKey: string, err: Option<Error>, ghost forward: nat)
    requires p.Valid()
    modifies p`state, p`log
    ensures p.Valid() && old(p.log) <= p.log
    ensures CredentialTrace(userName, policyName, queueArn, p.log[|old(p.log)|..], err, forward)
    ensures err.None? ==> var c := p.log[|old(p.log)| + 1];
      accessKeyId == c.reply.key.id && secretAccessKey == c.reply.key.secret
    ensures p.state.queues == old(p.state.queues)
    ensures err.None? ==> ForwardEffect(old(p.state), p.state, userName, policyName, queueArn, accessKeyId, Cloud.PolicyArn(policyName))
    ensures err.None? ==> Cloud.AccessKey(accessKeyId, secretAccessKey) == p.issuedKey
  {
    ghost var start := |p.log|;
    var policyArn, created;
    accessKeyId, secretAccessKey, policyArn, err, created := ForwardCalls(p, userName, policyName, queueArn);
    ghost var tf := p.log[start..];
    ghost var mid := p.log;
    forward := |tf|;
    if err.Some? && created {
      Rollback(p, userName, accessKeyId, policyArn);
    }
    ghost var tu := p.log[|mid|..];
    Cloud.Appended(old(p.log), mid, p.log);
    CredentialTraceOf(userName, policyName, queueArn, tf, tu, err);
  }

  /** Forward calls followed by the compensation they call for form a
      binding's IAM trace. */
  lemma {:induction false} CredentialTraceOf(userName: string, policyName: string, queueArn: string,
                                             tf: seq<Cloud.Call>, tu: seq<Cloud.Call>, err: Option<Error>)
    requires ForwardTrace(userName, policyName, queueArn, tf, err)
    requires Issues(tu, if err.None? || |tf| == 1 then []
                        else RollbackRequests(userName, KeyIdIn(tf, |tf|), PolicyArnIn(tf, |tf|)))
    ensures CredentialTrace(userName, policyName, queueArn, tf + tu, err, |tf|)
  {
    var t := tf + tu;
    assert t[..|tf|] == tf && t[|tf|..] == tu;
    assert KeyIdIn(t, |tf|) == KeyIdIn(tf, |tf|);
    assert PolicyArnIn(t, |tf|) == PolicyArnIn(tf, |tf|);
  }

  /** The calls of a binding once its service is known to be bindable: the
      queue's description; if that fails, nothing more; otherwise the IAM
      part, on the ARN of the queue described. */
  ghost predicate BindTrace(queueName: string, userName: string, policyName: string, t: seq<Cloud.Call>,
                            described: SqsQueue.QueueDetails, describeErr: Option<Error>, err: Option<Error>, forward: nat) {
    var k := SqsQueue.DescribeLength(t);
    && k <= |t| && SqsQueue.DescribeTrace(queueName, t[..k], described, describeErr)
    && (describeErr.Some? ==> |t| == k && err == InstanceError(describeErr))
    && (describeErr.None? ==> CredentialTrace(userName, policyName, described.queueArn, t[k..], err, forward))
  }

  /** A failed description is a whole binding trace. */
  lemma {:induction false} BindTraceOfDescribe(queueName: string, userName: string, policyName: string, t: seq<Cloud.Call>,
                                               described: SqsQueue.QueueDetails, describeErr: Option<Error>, forward: nat)
    requires SqsQueue.DescribeTrace(queueName, t, described, describeErr) && describeErr.Some?
    ensures BindTrace(queueName, userName, policyName, t, described, describeErr, InstanceError(describeErr), forward)
  {
    assert t[..|t|] == t;
  }

  /** A successful description followed by the IAM part is a binding trace,
      and the IAM part starts right after the description's two calls. */
  lemma {:induction false} BindTraceOfCredentials(queueName: string, userName: string, policyName: string,
                                                  t0: seq<Cloud.Call>, t1: seq<Cloud.Call>,
                                                  described: SqsQueue.QueueDetails, err: Option<Error>, forward: nat)
    requires SqsQueue.DescribeTrace(queueName, t0, described, None)
    requires CredentialTrace(userName, policyName, described.queueArn, t1, err, forward)
    ensures SqsQueue.DescribeLength(t0 + t1) == 2 && (t0 + t1)[2..] == t1
    ensures BindTrace(queueName, userName, policyName, t0 + t1, described, None, err, forward)
  {
    var t := t0 + t1;
    assert t[0] == t0[0];
    assert t[..2] == t0 && t[2..] == t1;
  }

  /** What a successful binding did to the provider: the instance's queue
      exists and was described as stored; the binding's user now exists with
      the credentials' access key and the binding's policy, which grants all
      SQS actions on that queue's ARN. */
  ghost predicate BoundEffect(s0: Cloud.State, s1: Cloud.State, queueName: string, userName: string, policyName: string,
                              described: SqsQueue.QueueDetails, credentials: Credentials) {
    && queueName in s0.queues
    && described == SqsQueue.BuildQueueDetails(Cloud.QueueUrl(queueName), s0.queues[queueName])
    && credentials.uri == Cloud.QueueUrl(queueName)
    && ForwardEffect(s0, s1, userName, policyName, described.queueArn, credentials.username, Cloud.PolicyArn(policyName))
  }

  /** The part of Bind after the service checks: describe the instance's
      queue, then create the credentials on its ARN. */
  method BindQueue(p: Cloud.Provider, queueName: string, userName: string, policyName: string)
    returns (credentials: Option<Credentials>, err: Option<Error>,
             ghost described: SqsQueue.QueueDetails, ghost describeErr: Option<Error>, ghost forward: nat)
    requires p.Valid()
    modifies p`state, p`log
    ensures p.Valid() && old(p.log) <= p.log
    ensures err.Some? <==> credentials.None?
    ensures var t := p.log[|old(p.log)|..];
      && BindTrace(queueName, userName, policyName, t, described, describeErr, err, forward)
      && (err.None? ==> |t| >= 4 && credentials == Some(Credentials(t[3].reply.key.id, t[3].reply.key.secret, described.queueUrl)))
    ensures p.state.queues == old(p.state.queues)
    ensures err.None? ==> BoundEffect(old(p.state), p.state, queueName, userName, policyName, described, credentials.value)
    ensures err.None? ==> credentials.value.username == p.issuedKey.id && credentials.value.password == p.issuedKey.secret
  {
    forward := 0;
    var queueDetails, e := SqsQueue.Describe(p, queueName);
    described, describeErr := queueDetails, e;
    ghost var t0 := p.log[|old(p.log)|..];
    if e.Some? {
      BindTraceOfDescribe(queueName, userName, policyName, t0, described, describeErr, forward);
      return None, InstanceError(e), described, describeErr, forward;
    }
    ghost var mid := p.log;
    var accessKeyId, secretAccessKey;
    accessKeyId, secretAccessKey, err, forward := CreateCredentials(p, userName, policyName, queueDetails.queueArn);
    ghost var t1 := p.log[|mid|..];
    Cloud.Appended(old(p.log), mid, p.log);
    BindTraceOfCredentials(queueName, userName, policyName, t0, t1, described, err, forward);
    credentials := if err.Some? then None else Some(Credentials(accessKeyId, secretAccessKey, queueDetails.queueUrl));
  }

  /** Bind checks the service and its bindable flag, then describes the
      instance's queue, all before any IAM call; each failure ends it, the
      queue's "not found" reported as the instance not existing.  Then the
      IAM part runs, and on success the credentials are the access key and
      the queue's URL. */
  method Bind(p: Cloud.Provider, b: Broker, instanceId: string, bindingId: string, serviceId: string)
    returns (credentials: Option<Credentials>, err: Option<Error>,
             ghost described: SqsQueue.QueueDetails, ghost describeErr: Option<Error>, ghost forward: nat)
    requires p.Valid()
    modifies p`state, p`log
    ensures p.Valid() && old(p.log) <= p.log
    ensures err.Some? <==> credentials.None?
    ensures var service := Catalog.FindService(b.catalog, serviceId);
      var t := p.log[|old(p.log)|..];
      && (service.None? ==> t == [] && err == Some(ServiceNotFound(serviceId)))
      && (service.Some? && !service.value.bindable ==> t == [] && err == Some(InstanceNotBindable))
      && (service.Some? && service.value.bindable ==>
            && BindTrace(QueueName(b, instanceId), UserName(b, bindingId), PolicyName(b, bindingId), t, described, describeErr, err, forward)
            && (err.None? ==> |t| >= 4 && credentials == Some(Credentials(t[3].reply.key.id, t[3].reply.key.secret, described.queueUrl))))
    ensures p.state.queues == old(p.state.queues)
    ensures err.None? ==>
      BoundEffect(old(p.state), p.state, QueueName(b, instanceId), UserName(b, bindingId), PolicyName(b, bindingId), described, credentials.value)
    ensures err.None? ==> credentials.value.username == p.issuedKey.id && credentials.value.password == p.issuedKey.secret
  {
    described, describeErr, forward := SqsQueue.NoDetails, None, 0;
    var service := Catalog.FindService(b.catalog, serviceId);
    if service.None? {
      return None, Some(ServiceNotFound(serviceId)), described, describeErr, forward;
    }
    if !service.value.bindable {
      return None, Some(InstanceNotBindable), described, describeErr, forward;
    }
    credentials, err, described, describeErr, forward := BindQueue(p, QueueName(b, instanceId), UserName(b, bindingId), PolicyName(b, bindingId));
  }

  /** One deletion per access key, in list order. */
  function KeyDeletions(userName: string, accessKeyIds: seq<string>): (r: seq<Cloud.Request>)
    ensures |r| == |accessKeyIds|
    ensures forall i :: 0 <= i < |r| ==> r[i] == Cloud.DeleteAccessKey(userName, accessKeyIds[i])
  {
    if accessKeyIds == [] then []
    else [Cloud.DeleteAccessKey(userName, accessKeyIds[0])] + KeyDeletions(userName, accessKeyIds[1..])
  }

  /** For each attached policy, in list order: detach it, then delete it. */
  function PolicyRemovals(userName: string, policyArns: seq<string>): (r: seq<Cloud.Request>)
    ensures |r| == 2 * |policyArns|
  {
    if policyArns == [] then []
    else [Cloud.DetachUserPolicy(userName, policyArns[0]), Cloud.DeletePolicy(policyArns[0])]
         + PolicyRemovals(userName, policyArns[1..])
  }

  /** The removals of the i-th policy sit at positions 2i and 2i + 1. */
  lemma {:induction false} PolicyRemovalsAt(userName: string, policyArns: seq<string>, i: nat)
    requires i < |policyArns|
    ensures PolicyRemovals(userName, policyArns)[2 * i] == Cloud.DetachUserPolicy(userName, policyArns[i])
    ensures PolicyRemovals(userName, policyArns)[2 * i + 1] == Cloud.DeletePolicy(policyArns[i])
  {
    if i > 0 {
      PolicyRemovalsAt(userName, policyArns[1..], i - 1);
    }
  }

  /** The requests of an unbinding that runs to the end. */
  function TeardownRequests(userName: string, accessKeyIds: seq<string>, policyArns: seq<string>): (r: seq<Cloud.Request>)
    ensures |r| == 3 + |accessKeyIds| + 2 * |policyArns|
    ensures r[0] == Cloud.ListAccessKeys(userName) && r[1 + |accessKeyIds|] == Cloud.ListAttachedUserPolicies(userName)
    ensures r[|r| - 1] == Cloud.DeleteUser(userName)
  {
    [Cloud.ListAccessKeys(userName)] + KeyDeletions(userName, accessKeyIds) +
    ([Cloud.ListAttachedUserPolicies(userName)] + PolicyRemovals(userName, policyArns)) +
    [Cloud.DeleteUser(userName)]
  }

  /** `t` issued the first |t| requests of `plan`. */
  ghost predicate RunsPlan(t: seq<Cloud.Call>, plan: seq<Cloud.Request>) {
    |t| <= |plan| && forall i :: 0 <= i < |t| ==> t[i].request == plan[i]
  }

  /** `t` ran `plan` up to its first failure: every call but the last
      succeeded; with an error, the last call failed and the error is its
      translation; without one, the whole plan ran and every call succeeded. */
  ghost predicate Halted(t: seq<Cloud.Call>, plan: seq<Cloud.Request>, err: Option<Error>) {
    RunsPlan(t, plan) &&
    (forall i :: 0 <= i < |t| - 1 ==> !t[i].reply.Failed?) &&
    if err.Some? then
      1 <= |t| && t[|t| - 1].reply.Failed? && err == Some(TranslateAwsError(t[|t| - 1].reply.error))
    else
      |t| == |plan| && forall i :: 0 <= i < |t| ==> !t[i].reply.Failed?
  }

  /** A plan run to the end, followed by a run of a second plan, is a run of
      the two plans one after the other. */
  lemma {:induction false} HaltedThen(t1: seq<Cloud.Call>, plan1: seq<Cloud.Request>,
                                      t2: seq<Cloud.Call>, plan2: seq<Cloud.Request>, err: Option<Error>)
    requires Halted(t1, plan1, None) && Halted(t2, plan2, err)
    ensures Halted(t1 + t2, plan1 + plan2, err)
  {
    var t := t1 + t2;
    forall i | 0 <= i < |t|
      ensures t[i].request == (plan1 + plan2)[i]
    {
      if i >= |t1| {
        assert t[i] == t2[i - |t1|];
      }
    }
    forall i | 0 <= i < |t| - 1
      ensures !t[i].reply.Failed?
    {
      if i >= |t1| {
        assert t[i] == t2[i - |t1|];
      }
    }
    if err.Some? {
      assert t[|t| - 1] == t2[|t2| - 1];
    } else {
      forall i | 0 <= i < |t|
        ensures !t[i].reply.Failed?
      {
        if i >= |t1| {
          assert t[i] == t2[i - |t1|];
        }
      }
    }
  }

  /** A run that stopped at a failure is also a halted run of any longer plan
      that begins with its own. */
  lemma {:induction false} HaltedWithin(t: seq<Cloud.Call>, plan: seq<Cloud.Request>, longer: seq<Cloud.Request>, err: Option<Error>)
    requires Halted(t, plan, err) && err.Some? && plan <= longer
    ensures Halted(t, longer, err)
  {
    forall i | 0 <= i < |t|
      ensures t[i].request == longer[i]
    {
      assert plan[i] == longer[..|plan|][i];
    }
  }

  /** The teardown creates nothing: it lists and removes only. */
  lemma {:induction false} TeardownCreatesNothing(userName: string, accessKeyIds: seq<string>, policyArns: seq<string>)
    ensures forall r <- TeardownRequests(userName, accessKeyIds, policyArns) ::
      Cloud.IsIam(r) && !Cloud.IsCreation(r) && (Cloud.IsQuery(r) || Cloud.IsRemoval(r))
  {
    var plan := TeardownRequests(userName, accessKeyIds, policyArns);
    forall i | 0 <= i < |plan|
      ensures Cloud.IsIam(plan[i]) && !Cloud.IsCreation(plan[i]) && (Cloud.IsQuery(plan[i]) || Cloud.IsRemoval(plan[i]))
    {
      var k := |accessKeyIds|;
      if 1 <= i <= k {
        assert plan[i] == KeyDeletions(userName, accessKeyIds)[i - 1];
      } else if k + 2 <= i < |plan| - 1 {
        var j := i - k - 2;
        assert plan[i] == PolicyRemovals(userName, policyArns)[j];
        PolicyRemovalsAt(userName, policyArns, j / 2);
        assert j == 2 * (j / 2) || j == 2 * (j / 2) + 1;
      }
    }
  }

  // ---------------------------------------------------------------------
  // What a teardown leaves behind

  /** `s` with the first occurrence of each of `xs` removed, one after
      another in list order (as deleting the keys or detaching the policies
      one by one does). */
  function WithoutEach(s: seq<string>, xs: seq<string>): seq<string>
    decreases |xs|
  {
    if xs == [] then s
    else Cloud.RemoveFirst(WithoutEach(s, xs[..|xs| - 1]), xs[|xs| - 1])
  }

  /** Removing a list's own first i elements, one by one, leaves the rest of
      the list. */
  lemma {:induction false} WithoutOwnPrefix(s: seq<string>, i: nat)
    requires i <= |s|
    ensures WithoutEach(s, s[..i]) == s[i..]
  {
    if i > 0 {
      assert s[..i][..i - 1] == s[..i - 1];
      WithoutOwnPrefix(s, i - 1);
      assert s[i - 1..][1..] == s[i..];
    }
  }

  /** The users once `ids` were deleted, in order, from `userName`'s keys. */
  function KeysRemoved(users: map<string, Cloud.UserRecord>, userName: string, ids: seq<string>): map<string, Cloud.UserRecord> {
    if userName in users
    then users[userName := users[userName].(accessKeys := WithoutEach(users[userName].accessKeys, ids))]
    else users
  }

  /** The users once `arns` were detached, in order, from `userName`. */
  function PoliciesDetached(users: map<string, Cloud.UserRecord>, userName: string, arns: seq<string>): map<string, Cloud.UserRecord> {
    if userName in users
    then users[userName := users[userName].(attachedPolicies := WithoutEach(users[userName].attachedPolicies, arns))]
    else users
  }

  function Elements(s: seq<string>): set<string> {
    set x | x in s
  }

  /** Deleting no key and detaching no policy leaves every user as it was;
      neither changes which users exist. */
  lemma {:induction false} NothingRemoved(users: map<string, Cloud.UserRecord>, userName: string, xs: seq<string>)
    ensures KeysRemoved(users, userName, []) == users && PoliciesDetached(users, userName, []) == users
    ensures KeysRemoved(users, userName, xs).Keys == users.Keys && PoliciesDetached(users, userName, xs).Keys == users.Keys
  {
    if userName in users {
      assert users[userName := users[userName]] == users;
    }
  }

  /** One more key deleted after the first i of `ids`. */
  lemma {:induction false} KeysRemovedStep(users: map<string, Cloud.UserRecord>, userName: string, ids: seq<string>, i: nat)
    requires i < |ids| && userName in users
    ensures var before := KeysRemoved(users, userName, ids[..i]);
      KeysRemoved(users, userName, ids[..i + 1]) ==
        before[userName := before[userName].(accessKeys := Cloud.RemoveFirst(before[userName].accessKeys, ids[i]))]
  {
    assert ids[..i + 1][..i] == ids[..i];
  }

  /** One more policy detached after the first i of `arns`. */
  lemma {:induction false} PoliciesDetachedStep(users: map<string, Cloud.UserRecord>, userName: string, arns: seq<string>, i: nat)
    requires i < |arns| && userName in users
    ensures var before := PoliciesDetached(users, userName, arns[..i]);
      PoliciesDetached(users, userName, arns[..i + 1]) ==
        before[userName := before[userName].(attachedPolicies := Cloud.RemoveFirst(before[userName].attachedPolicies, arns[i]))]
  {
    assert arns[..i + 1][..i] == arns[..i];
  }

  /** One more policy deleted after the first i of `arns`. */
  lemma {:induction false} ElementsStep(arns: seq<string>, i: nat)
    requires i < |arns|
    ensures Elements(arns[..i + 1]) == Elements(arns[..i]) + {arns[i]}
  {
    assert arns[..i + 1] == arns[..i] + [arns[i]];
  }

  /** Deletes each access key in list order, stopping at the first failure.
      `deleted` keys were deleted: all of them without an error, and with
      one, those before the key whose deletion failed. */
  method DeleteAccessKeys(p: Cloud.Provider, userName: string, accessKeyIds: seq<string>)
    returns (err: Option<Error>, ghost deleted: nat)
    requires p.Valid()
    modifies p`state, p`log
    ensures p.Valid() && old(p.log) <= p.log
    ensures Halted(p.log[|old(p.log)|..], KeyDeletions(userName, accessKeyIds), err)
    ensures p.state.queues == old(p.state.queues)
    ensures deleted <= |accessKeyIds| && (err.None? <==> deleted == |accessKeyIds|)
    ensures |p.log| == |old(p.log)| + deleted + (if err.Some? then 1 else 0)
    ensures p.state.users == KeysRemoved(old(p.state.users), userName, accessKeyIds[..deleted])
    ensures p.state.policies == old(p.state.policies)
  {
    NothingRemoved(p.state.users, userName, []);
    var i := 0;
    while i < |accessKeyIds|
      invariant 0 <= i <= |accessKeyIds|
      invariant p.Valid() && old(p.log) <= p.log
      invariant Halted(p.log[|old(p.log)|..], KeyDeletions(userName, accessKeyIds[..i]), None)
      invariant p.state.queues == old(p.state.queues) && p.state.policies == old(p.state.policies)
      invariant p.state.users == KeysRemoved(old(p.state.users), userName, accessKeyIds[..i])
    {
      ghost var before := p.log;
      err := IamUser.DeleteAccessKey(p, userName, accessKeyIds[i]);
      HaltedOne(before, p.log, Cloud.DeleteAccessKey(userName, accessKeyIds[i]), err);
      Cloud.Appended(old(p.log), before, p.log);
      DeletionsStep(before[|old(p.log)|..], p.log[|before|..], userName, accessKeyIds, i, err);
      if err.Some? {
        return err, i;
      }
      NothingRemoved(old(p.state.users), userName, accessKeyIds[..i]);
      KeysRemovedStep(old(p.state.users), userName, accessKeyIds, i);
      i := i + 1;
    }
    assert accessKeyIds[..i] == accessKeyIds;
    return None, i;
  }

  /** One issued request is a run of the one-request plan. */
  lemma {:induction false} HaltedOne(before: seq<Cloud.Call>, after: seq<Cloud.Call>, req: Cloud.Request, err: Option<Error>)
    requires IamUser.Issued(before, after, req, err)
    ensures Halted(after[|before|..], [req], err)
  {
    assert after[|before|..] == [after[|before|]];
  }

  /** The deletions of the first i + 1 keys are those of the first i and one
      more, and they begin the deletions of all the keys. */
  lemma {:induction false} DeletionsPrefix(userName: string, accessKeyIds: seq<string>, i: nat)
    requires i < |accessKeyIds|
    ensures var done := KeyDeletions(userName, accessKeyIds[..i]) + [Cloud.DeleteAccessKey(userName, accessKeyIds[i])];
      KeyDeletions(userName, accessKeyIds[..i + 1]) == done && done <= KeyDeletions(userName, accessKeyIds)
  {
    var first := KeyDeletions(userName, accessKeyIds[..i]);
    var done := first + [Cloud.DeleteAccessKey(userName, accessKeyIds[i])];
    var more := KeyDeletions(userName, accessKeyIds[..i + 1]);
    var all := KeyDeletions(userName, accessKeyIds);
    forall k | 0 <= k <= i
      ensures more[k] == done[k] == all[k]
    {
      if k < i {
        assert done[k] == first[k];
      }
    }
  }

  /** One more key deleted after the first i: a failure there halts the whole
      list's run; otherwise the first i + 1 ran to the end. */
  lemma {:induction false} DeletionsStep(t1: seq<Cloud.Call>, t2: seq<Cloud.Call>, userName: string,
                                         accessKeyIds: seq<string>, i: nat, err: Option<Error>)
    requires i < |accessKeyIds|
    requires Halted(t1, KeyDeletions(userName, accessKeyIds[..i]), None)
    requires Halted(t2, [Cloud.DeleteAccessKey(userName, accessKeyIds[i])], err)
    ensures err.None? ==> Halted(t1 + t2, KeyDeletions(userName, accessKeyIds[..i + 1]), None)
    ensures err.Some? ==> Halted(t1 + t2, KeyDeletions(userName, accessKeyIds), err)
  {
    var done, next := KeyDeletions(userName, accessKeyIds[..i]), [Cloud.DeleteAccessKey(userName, accessKeyIds[i])];
    HaltedThen(t1, done, t2, next, err);
    DeletionsPrefix(userName, accessKeyIds, i);
    if err.Some? {
      HaltedWithin(t1 + t2, done + next, KeyDeletions(userName, accessKeyIds), err);
    }
  }

  /** PolicyRemovals distributes over concatenation. */
  lemma {:induction false} PolicyRemovalsAppend(userName: string, a: seq<string>, b: seq<string>)
    ensures PolicyRemovals(userName, a + b) == PolicyRemovals(userName, a) + PolicyRemovals(userName, b)
  {
    if a == [] {
      assert a + b == b;
    } else {
      assert (a + b)[0] == a[0] && (a + b)[1..] == a[1..] + b;
      PolicyRemovalsAppend(userName, a[1..], b);
    }
  }

  /** One more policy removed after the first j: a failure there halts the
      whole list's run; otherwise the first j + 1 ran to the end. */
  lemma {:induction false} RemovalsStep(t1: seq<Cloud.Call>, t2: seq<Cloud.Call>, userName: string,
                                        policyArns: seq<string>, j: nat, err: Option<Error>)
    requires j < |policyArns|
    requires Halted(t1, PolicyRemovals(userName, policyArns[..j]), None)
    requires Halted(t2, PolicyRemovals(userName, [policyArns[j]]), err)
    ensures err.None? ==> Halted(t1 + t2, PolicyRemovals(userName, policyArns[..j + 1]), None)
    ensures err.Some? ==> Halted(t1 + t2, PolicyRemovals(userName, policyArns), err)
  {
    HaltedThen(t1, PolicyRemovals(userName, policyArns[..j]), t2, PolicyRemovals(userName, [policyArns[j]]), err);
    assert policyArns[..j + 1] == policyArns[..j] + [policyArns[j]];
    PolicyRemovalsAppend(userName, policyArns[..j], [policyArns[j]]);
    if err.Some? {
      assert policyArns == policyArns[..j + 1] + policyArns[j + 1..];
      PolicyRemovalsAppend(userName, policyArns[..j + 1], policyArns[j + 1..]);
      HaltedWithin(t1 + t2, PolicyRemovals(userName, policyArns[..j + 1]), PolicyRemovals(userName, policyArns), err);
    }
  }

  /** Detaches one policy, then deletes it unless the detaching failed.
      `detached` says whether the detaching succeeded. */
  method RemovePolicy(p: Cloud.Provider, userName: string, policyArn: string) returns (err: Option<Error>, ghost detached: bool)
    requires p.Valid()
    modifies p`state, p`log
    ensures p.Valid() && old(p.log) <= p.log
    ensures Halted(p.log[|old(p.log)|..], PolicyRemovals(userName, [policyArn]), err)
    ensures p.state.queues == old(p.state.queues)
    ensures err.None? ==> detached
    ensures detached <==> |p.log| == |old(p.log)| + 2
    ensures !detached ==> p.state == old(p.state)
    ensures detached ==>
      && userName in old(p.state.users) && policyArn in old(p.state.users)[userName].attachedPolicies
      && var u := old(p.state.users)[userName];
         p.state.users == old(p.state.users)[userName := u.(attachedPolicies := Cloud.RemoveFirst(u.attachedPolicies, policyArn))]
    ensures err.None? ==> policyArn in old(p.state.policies) && p.state.policies == old(p.state.policies) - {policyArn}
    ensures err.Some? ==> p.state.policies == old(p.state.policies)
  {
    assert PolicyRemovals(userName, [policyArn]) == [Cloud.DetachUserPolicy(userName, policyArn), Cloud.DeletePolicy(policyArn)];
    err := IamUser.DetachUserPolicy(p, userName, policyArn);
    if err.Some? {
      return err, false;
    }
    detached := true;
    err := IamUser.DeletePolicy(p, policyArn);
  }

  /** Detaches and deletes each policy in list order, stopping at the first
      failure.  The first `deleted` policies were detached and deleted; with
      an error, the next one may have been detached as well (`detached`). */
  method RemovePolicies(p: Cloud.Provider, userName: string, policyArns: seq<string>)
    returns (err: Option<Error>, ghost detached: nat, ghost deleted: nat)
    requires p.Valid()
    modifies p`state, p`log
    ensures p.Valid() && old(p.log) <= p.log
    ensures Halted(p.log[|old(p.log)|..], PolicyRemovals(userName, policyArns), err)
    ensures p.state.queues == old(p.state.queues)
    ensures deleted <= detached <= deleted + 1 && detached <= |policyArns|
    ensures err.None? <==> deleted == |policyArns|
    ensures |p.log| == |old(p.log)| + detached + deleted + (if err.Some? then 1 else 0)
    ensures p.state.users == PoliciesDetached(old(p.state.users), userName, policyArns[..detached])
    ensures p.state.policies == old(p.state.policies) - Elements(policyArns[..deleted])
  {
    ghost var start := |p.log|;
    NothingRemoved(p.state.users, userName, []);
    assert p.state.policies - Elements(policyArns[..0]) == p.state.policies;
    var j := 0;
    while j < |policyArns|
      invariant 0 <= j <= |policyArns|
      invariant p.Valid() && old(p.log) <= p.log
      invariant Halted(p.log[start..], PolicyRemovals(userName, policyArns[..j]), None)
      invariant p.state.queues == old(p.state.queues)
      invariant p.state.users == PoliciesDetached(old(p.state.users), userName, policyArns[..j])
      invariant p.state.policies == old(p.state.policies) - Elements(policyArns[..j])
    {
      ghost var mid := p.log;
      ghost var once: bool;
      err, once := RemovePolicy(p, userName, policyArns[j]);
      Cloud.Appended(old(p.log), mid, p.log);
      RemovalsStep(mid[start..], p.log[|mid|..], userName, policyArns, j, err);
      if once {
        NothingRemoved(old(p.state.users), userName, policyArns[..j]);
        PoliciesDetachedStep(old(p.state.users), userName, policyArns, j);
      }
      if err.Some? {
        return err, if once then j + 1 else j, j;
      }
      ElementsStep(policyArns, j);
      j := j + 1;
    }
    assert policyArns[..j] == policyArns;
    return None, j, j;
  }

  /** Lists the user's access keys and deletes each; `deleted` of them were
      deleted.  Once the listing succeeded, the user keeps the keys not yet
      deleted, and none without an error. */
  method ClearAccessKeys(p: Cloud.Provider, userName: string) returns (err: Option<Error>, ghost keys: seq<string>, ghost deleted: nat)
    requires p.Valid()
    modifies p`state, p`log
    ensures p.Valid() && old(p.log) <= p.log && |old(p.log)| < |p.log|
    ensures Halted(p.log[|old(p.log)|..], KeyPhase(userName, keys), err)
    ensures p.state.queues == old(p.state.queues) && p.state.policies == old(p.state.policies)
    ensures p.log[|old(p.log)|].reply.Failed? ||
            (userName in old(p.state.users) && keys == old(p.state.users[userName]).accessKeys)
    ensures deleted <= |keys| && (err.None? ==> deleted == |keys|)
    ensures p.log[|old(p.log)|].reply.Failed? ==>
      err.Some? && keys == [] && deleted == 0 && |p.log| == |old(p.log)| + 1 && p.state == old(p.state)
    ensures !p.log[|old(p.log)|].reply.Failed? ==> |p.log| == |old(p.log)| + 1 + deleted + (if err.Some? then 1 else 0)
    ensures p.state.users == KeysRemoved(old(p.state.users), userName, keys[..deleted])
    ensures !p.log[|old(p.log)|].reply.Failed? ==>
      p.state.users == old(p.state.users)[userName := old(p.state.users[userName]).(accessKeys := keys[deleted..])]
    ensures err.None? ==>
      && userName in old(p.state.users) && keys == old(p.state.users[userName]).accessKeys
      && p.state.users == old(p.state.users)[userName := old(p.state.users[userName]).(accessKeys := [])]
  {
    ghost var start := |p.log|;
    var accessKeys, e := IamUser.ListAccessKeys(p, userName);
    keys := accessKeys;
    ghost var plan := [Cloud.ListAccessKeys(userName)];
    if e.Some? {
      assert keys == [] && plan + KeyDeletions(userName, keys) == plan;
      NothingRemoved(p.state.users, userName, []);
      return e, keys, 0;
    }
    ghost var mid := p.log;
    err, deleted := DeleteAccessKeys(p, userName, accessKeys);
    Cloud.Appended(old(p.log), mid, p.log);
    HaltedThen(mid[start..], plan, p.log[|mid|..], KeyDeletions(userName, keys), err);
    WithoutOwnPrefix(keys, deleted);
  }

  /** Lists the user's attached policies and detaches and deletes each; the
      counts are those of RemovePolicies.  Once the listing succeeded, the
      user keeps the policies not yet detached, and none without an error. */
  method ClearPolicies(p: Cloud.Provider, userName: string)
    returns (err: Option<Error>, ghost policies: seq<string>, ghost detached: nat, ghost deleted: nat)
    requires p.Valid()
    modifies p`state, p`log
    ensures p.Valid() && old(p.log) <= p.log && |old(p.log)| < |p.log|
    ensures Halted(p.log[|old(p.log)|..], PolicyPhase(userName, policies), err)
    ensures p.state.queues == old(p.state.queues)
    ensures !p.log[|old(p.log)|].reply.Failed? ==> p.log[|old(p.log)|].reply == Cloud.Names(policies)
    ensures p.log[|old(p.log)|].reply.Failed? ||
            (userName in old(p.state.users) && policies == old(p.state.users[userName]).attachedPolicies)
    ensures deleted <= detached <= deleted + 1 && detached <= |policies|
    ensures err.None? ==> deleted == |policies|
    ensures p.log[|old(p.log)|].reply.Failed? ==>
      err.Some? && policies == [] && detached == 0 && deleted == 0 && |p.log| == |old(p.log)| + 1 && p.state == old(p.state)
    ensures !p.log[|old(p.log)|].reply.Failed? ==>
      |p.log| == |old(p.log)| + 1 + detached + deleted + (if err.Some? then 1 else 0)
    ensures p.state.users == PoliciesDetached(old(p.state.users), userName, policies[..detached])
    ensures p.state.policies == old(p.state.policies) - Elements(policies[..deleted])
    ensures !p.log[|old(p.log)|].reply.Failed? ==>
      p.state.users == old(p.state.users)[userName := old(p.state.users[userName]).(attachedPolicies := policies[detached..])]
    ensures err.None? ==>
      && userName in old(p.state.users) && policies == old(p.state.users[userName]).attachedPolicies
      && p.state.users == old(p.state.users)[userName := old(p.state.users[userName]).(attachedPolicies := [])]
      && p.state.policies == old(p.state.policies) - Elements(policies)
  {
    ghost var start := |p.log|;
    var userPolicies, e := IamUser.ListAttachedUserPolicies(p, userName);
    policies := userPolicies;
    ghost var plan := [Cloud.ListAttachedUserPolicies(userName)];
    if e.Some? {
      assert policies == [] && plan + PolicyRemovals(userName, policies) == plan;
      NothingRemoved(p.state.users, userName, []);
      assert p.state.policies - Elements(policies[..0]) == p.state.policies;
      return e, policies, 0, 0;
    }
    ghost var mid := p.log;
    err, detached, deleted := RemovePolicies(p, userName, userPolicies);
    Cloud.Appended(old(p.log), mid, p.log);
    HaltedThen(mid[start..], plan, p.log[|mid|..], PolicyRemovals(userName, policies), err);
    WithoutOwnPrefix(policies, detached);
    if err.None? {
      assert policies[..deleted] == policies;
    }
  }

  /** The key phase and the policy phase of a teardown. */
  function KeyPhase(userName: string, accessKeyIds: seq<string>): seq<Cloud.Request> {
    [Cloud.ListAccessKeys(userName)] + KeyDeletions(userName, accessKeyIds)
  }

  function PolicyPhase(userName: string, policyArns: seq<string>): seq<Cloud.Request> {
    [Cloud.ListAttachedUserPolicies(userName)] + PolicyRemovals(userName, policyArns)
  }

  /** How the two phases' runs make up a run of both: a failure in the key
      phase ends it there; otherwise the policy phase decides. */
  lemma {:induction false} TeardownOfPhases(userName: string, keys: seq<string>, policies: seq<string>,
                                            t1: seq<Cloud.Call>, e1: Option<Error>,
                                            t2: seq<Cloud.Call>, e2: Option<Error>)
    requires Halted(t1, KeyPhase(userName, keys), e1)
    requires e1.None? ==> Halted(t2, PolicyPhase(userName, policies), e2)
    ensures e1.Some? ==> Halted(t1, KeyPhase(userName, keys) + PolicyPhase(userName, policies), e1)
    ensures e1.None? ==> Halted(t1 + t2, KeyPhase(userName, keys) + PolicyPhase(userName, policies), e2)
  {
    var kp, pp := KeyPhase(userName, keys), PolicyPhase(userName, policies);
    if e1.Some? {
      HaltedWithin(t1, kp, kp + pp, e1);
    } else {
      HaltedThen(t1, kp, t2, pp, e2);
    }
  }

  /** The two phases of Unbind before the user's own deletion: the user's
      access keys, then its attached policies, up to the first failure. */
  method ClearUser(p: Cloud.Provider, u: string)
    returns (err: Option<Error>, ghost keys: seq<string>, ghost policies: seq<string>,
             ghost keysDeleted: nat, ghost detached: nat, ghost policiesDeleted: nat)
    requires p.Valid()
    modifies p`state, p`log
    ensures p.Valid() && old(p.log) <= p.log && |old(p.log)| < |p.log|
    ensures Halted(p.log[|old(p.log)|..], KeyPhase(u, keys) + PolicyPhase(u, policies), err)
    ensures p.state.queues == old(p.state.queues)
    ensures p.log[|old(p.log)|].reply.Failed? || (u in old(p.state.users) && keys == old(p.state.users[u]).accessKeys)
    ensures var i := |old(p.log)| + 1 + |keys|;
      i < |p.log| && !p.log[i].reply.Failed? ==>
        p.log[i].reply == Cloud.Names(policies) && u in old(p.state.users) && policies == old(p.state.users[u]).attachedPolicies
    ensures keysDeleted <= |keys| && policiesDeleted <= detached <= |policies|
    ensures p.log[|old(p.log)|].reply.Failed? ==>
      && err.Some? && keys == [] && policies == [] && keysDeleted == detached == policiesDeleted == 0
      && |p.log| == |old(p.log)| + 1 && p.state == old(p.state)
    ensures keysDeleted < |keys| ==> err.Some? && |p.log| == |old(p.log)| + 2 + keysDeleted
    ensures var i := |old(p.log)| + 1 + |keys|;
      !(i < |p.log| && !p.log[i].reply.Failed?) ==> policies == [] && detached == 0 && policiesDeleted == 0
    ensures var i := |old(p.log)| + 1 + |keys|;
      i < |p.log| ==> keysDeleted == |keys| && (p.log[i].reply.Failed? ==> err.Some? && |p.log| == i + 1)
    ensures var i := |old(p.log)| + 1 + |keys|;
      i < |p.log| && !p.log[i].reply.Failed? ==> |p.log| == i + 1 + detached + policiesDeleted + (if err.Some? then 1 else 0)
    ensures p.state.users == PoliciesDetached(KeysRemoved(old(p.state.users), u, keys[..keysDeleted]), u, policies[..detached])
    ensures p.state.policies == old(p.state.policies) - Elements(policies[..policiesDeleted])
    ensures err.None? ==>
      && u in old(p.state.users) && keys == old(p.state.users[u]).accessKeys
      && policies == old(p.state.users[u]).attachedPolicies
      && p.state.users == old(p.state.users)[u := old(p.state.users[u]).(accessKeys := [], attachedPolicies := [])]
      && p.state.policies == old(p.state.policies) - Elements(policies)
  {
    ghost var start := |p.log|;
    ghost var s0 := p.state;
    policies, detached, policiesDeleted := [], 0, 0;
    var e2 := None;
    err, keys, keysDeleted := ClearAccessKeys(p, u);
    ghost var m1 := p.log;
    ghost var t1 := p.log[start..];
    ghost var s1 := p.state;
    if err.Some? {
      TeardownOfPhases(u, keys, policies, t1, err, [], e2);
      assert |p.log| <= start + 1 + |keys|;
      NothingRemoved(s1.users, u, []);
      assert s0.policies - Elements(policies[..0]) == s0.policies;
    } else {
      assert keys[..keysDeleted] == keys && |m1| == start + 1 + |keys|;
      assert u in s0.users && s1.users[u].attachedPolicies == s0.users[u].attachedPolicies;
      err, policies, detached, policiesDeleted := ClearPolicies(p, u);
      Cloud.Appended(old(p.log), m1, p.log);
      TeardownOfPhases(u, keys, policies, t1, None, p.log[|m1|..], err);
      if err.None? {
        BothCleared(s0.users, s1.users, p.state.users, u);
      }
    }
  }

  /** Emptying a user's keys and then its policies empties both, and the
      first leaves the policies alone. */
  lemma {:induction false} BothCleared(users0: map<string, Cloud.UserRecord>, users1: map<string, Cloud.UserRecord>,
                                       users2: map<string, Cloud.UserRecord>, u: string)
    requires u in users0 && users1 == users0[u := users0[u].(accessKeys := [])]
    requires users2 == users1[u := users1[u].(attachedPolicies := [])]
    ensures users1[u].attachedPolicies == users0[u].attachedPolicies
    ensures users2 == users0[u := users0[u].(accessKeys := [], attachedPolicies := [])]
  {
  }

  /** Unbind deletes the user's access keys, in list order; detaches and
      deletes the user's attached policies, in list order; then deletes the
      user.  The first failure ends it, and its translated error is returned;
      nothing done before is undone.  The keys are the user's own, and the
      policies the list the provider returned (both empty when their listing
      was not reached or failed); `keysDeleted`, `detached` and
      `policiesDeleted` count what was removed before it ended. */
  method Unbind(p: Cloud.Provider, b: Broker, instanceId: string, bindingId: string)
    returns (err: Option<Error>, ghost keys: seq<string>, ghost policies: seq<string>,
             ghost keysDeleted: nat, ghost detached: nat, ghost policiesDeleted: nat)
    requires p.Valid()
    modifies p`state, p`log
    ensures p.Valid() && old(p.log) <= p.log && |old(p.log)| < |p.log|
    ensures Halted(p.log[|old(p.log)|..], TeardownRequests(UserName(b, bindingId), keys, policies), err)
    ensures var u := UserName(b, bindingId);
      p.log[|old(p.log)|].reply.Failed? || (u in old(p.state.users) && keys == old(p.state.users[u]).accessKeys)
    ensures var u, i := UserName(b, bindingId), |old(p.log)| + 1 + |keys|;
      i < |p.log| && !p.log[i].reply.Failed? ==>
        p.log[i].reply == Cloud.Names(policies) && u in old(p.state.users) && policies == old(p.state.users[u]).attachedPolicies
    ensures keysDeleted <= |keys| && policiesDeleted <= detached <= |policies|
    ensures p.log[|old(p.log)|].reply.Failed? ==>
      && err.Some? && keys == [] && policies == [] && keysDeleted == detached == policiesDeleted == 0
      && |p.log| == |old(p.log)| + 1 && p.state == old(p.state)
    ensures keysDeleted < |keys| ==> err.Some? && |p.log| == |old(p.log)| + 2 + keysDeleted
    ensures var i := |old(p.log)| + 1 + |keys|;
      !(i < |p.log| && !p.log[i].reply.Failed?) ==> policies == [] && detached == 0 && policiesDeleted == 0
    ensures var i := |old(p.log)| + 1 + |keys|;
      i < |p.log| ==> keysDeleted == |keys| && (p.log[i].reply.Failed? ==> err.Some? && |p.log| == i + 1)
    ensures var i := |old(p.log)| + 1 + |keys|;
      i < |p.log| && !p.log[i].reply.Failed? ==> |p.log| == i + 1 + detached + policiesDeleted + 1
    ensures var u := UserName(b, bindingId);
      err.Some? ==> p.state.users == PoliciesDetached(KeysRemoved(old(p.state.users), u, keys[..keysDeleted]), u, policies[..detached])
    ensures p.state.policies == old(p.state.policies) - Elements(policies[..policiesDeleted])
    ensures var u := UserName(b, bindingId);
      err.None? ==>
        && u in old(p.state.users) && keys == old(p.state.users[u]).accessKeys
        && policies == old(p.state.users[u]).attachedPolicies
        && p.state.users == old(p.state.users) - {u}
        && p.state.policies == old(p.state.policies) - Elements(policies)
    ensures p.state.queues == old(p.state.queues)
  {
    var u := UserName(b, bindingId);
    ghost var start := |p.log|;
    ghost var s0 := p.state;
    err, keys, policies, keysDeleted, detached, policiesDeleted := ClearUser(p, u);
    ghost var mid := p.log;
    ghost var cleared := KeyPhase(u, keys) + PolicyPhase(u, policies);
    assert TeardownRequests(u, keys, policies) == cleared + [Cloud.DeleteUser(u)];
    if err.Some? {
      HaltedWithin(p.log[start..], cleared, TeardownRequests(u, keys, policies), err);
    } else {
      ghost var s1 := p.state;
      err := IamUser.Delete(p, u);
      Cloud.Appended(old(p.log), mid, p.log);
      HaltedOne(mid, p.log, Cloud.DeleteUser(u), err);
      HaltedThen(mid[start..], cleared, p.log[|mid|..], [Cloud.DeleteUser(u)], err);
      if err.None? {
        UserDeleted(s0.users, u, s1.users[u]);
      }
    }
  }

  /** Deleting a user that was just updated leaves the other users as they
      were before the update. */
  lemma {:induction false} UserDeleted(users: map<string, Cloud.UserRecord>, u: string, r: Cloud.UserRecord)
    ensures users[u := r] - {u} == users - {u}
  {
  }
}
