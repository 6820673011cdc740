// The cloud behind the two adapters: the SQS and IAM requests the adapters
// issue, the provider state they act on (queues by name, users with their
// access keys and attached policies, policies by ARN), an injectable failure
// for any request, and a ghost log of every request with its reply.
module Cloud {
  import opened Errors

  /** The names of SQS queue attributes: the seven the adapter reads or writes,
      and any other name the provider may report. */
  datatype AttributeName =
    | QueueArn
    | DelaySeconds
    | MaximumMessageSize
    | MessageRetentionPeriod
    | Policy
    | ReceiveMessageWaitTimeSeconds
    | VisibilityTimeout
    | OtherAttribute(name: OtherName)

  /** How SQS spells the seven named attributes. */
  const NamedAttributeSpellings: set<string> :=
    {"QueueArn", "DelaySeconds", "MaximumMessageSize", "MessageRetentionPeriod", "Policy",
     "ReceiveMessageWaitTimeSeconds", "VisibilityTimeout"}

  /** The name of any other attribute: never one of the seven spellings, so
      each attribute has exactly one name in a map. */
  type OtherName = s: string | s !in NamedAttributeSpellings witness ""

  type AttributeMap = map<AttributeName, string>

  /** Every SDK request the adapters issue.  The last six IAM requests are the
      ones the broker's user dependency offers beyond the adapter file. */
  datatype Request =
    // SQS
    | GetQueueUrl(queueName: string)
    | GetQueueAttributes(queueUrl: string)                 // attribute names ["All"]
    | SetQueueAttributes(queueUrl: string, attributes: AttributeMap)
    | CreateQueue(queueName: string, attributes: AttributeMap)
    | DeleteQueue(queueUrl: string)
    | RemovePermission(queueUrl: string, permissionLabel: string)
    // IAM
    | GetUser(userName: string)
    | CreateUser(userName: string)
    | DeleteUser(userName: string)
    | CreateAccessKey(userName: string)
    | DeleteAccessKey(userName: string, accessKeyId: string)
    | ListAccessKeys(userName: string)
    | CreatePolicy(policyName: string, effect: string, action: string, resource: string)
    | AttachUserPolicy(userName: string, policyArn: string)
    | ListAttachedUserPolicies(userName: string)
    | DetachUserPolicy(userName: string, policyArn: string)
    | DeletePolicy(policyArn: string)

  predicate IsSqs(r: Request) {
    r.GetQueueUrl? || r.GetQueueAttributes? || r.SetQueueAttributes? ||
    r.CreateQueue? || r.DeleteQueue? || r.RemovePermission?
  }

  predicate IsIam(r: Request) {
    !IsSqs(r)
  }

  /** Requests that only read provider state. */
  predicate IsQuery(r: Request) {
    r.GetQueueUrl? || r.GetQueueAttributes? || r.GetUser? || r.ListAccessKeys? || r.ListAttachedUserPolicies?
  }

  /** Requests that remove something from the provider. */
  predicate IsRemoval(r: Request) {
    r.DeleteQueue? || r.RemovePermission? || r.DeleteUser? || r.DeleteAccessKey? ||
    r.DetachUserPolicy? || r.DeletePolicy?
  }

  /** Requests that add something to the provider. */
  predicate IsCreation(r: Request) {
    r.CreateQueue? || r.CreateUser? || r.CreateAccessKey? || r.CreatePolicy? || r.AttachUserPolicy?
  }

  datatype AccessKey = AccessKey(id: string, secret: string)

  datatype Reply =
    | Failed(error: SdkError)
    | Done
    | Url(queueUrl: string)
    | Attributes(attributes: AttributeMap)
    | UserInfo(arn: string, userId: string)
    | NewKey(key: AccessKey)
    | NewPolicy(policyArn: string)
    | Names(names: seq<string>)

  /** The reply shapes a request can get: a failure, or its own kind of result. */
  predicate Fits(req: Request, reply: Reply) {
    reply.Failed? ||
    match req
    case GetQueueUrl(_) => reply.Url?
    case GetQueueAttributes(_) => reply.Attributes?
    case CreateQueue(_, _) => reply.Url?
    case GetUser(_) => reply.UserInfo?
    case CreateAccessKey(_) => reply.NewKey?
    case CreatePolicy(_, _, _, _) => reply.NewPolicy?
    case ListAccessKeys(_) => reply.Names?
    case ListAttachedUserPolicies(_) => reply.Names?
    case _ => reply.Done?
  }

  /** One logged request and the reply it got. */
  datatype Call = Call(request: Request, reply: Reply)

  /** The calls made since `a`, across an intermediate log `b`, are those
      made up to `b` followed by those made after it. */
  lemma {:induction false} Appended(a: seq<Call>, b: seq<Call>, c: seq<Call>)
    requires a <= b <= c
    ensures c[|a|..] == b[|a|..] + c[|b|..]
  {
    assert c[|a|..] == c[|a|..|b|] + c[|b|..];
    assert b[|a|..] == c[|a|..|b|];
  }

  /** A trace followed by another splits back into the two. */
  lemma {:induction false} Concatenated(t0: seq<Call>, t1: seq<Call>)
    requires |t0| > 0
    ensures (t0 + t1)[..|t0|] == t0 && (t0 + t1)[|t0|..] == t1 && (t0 + t1)[0] == t0[0]
  {
  }

  /** A logged call whose reply fits its request. */
  predicate WellFormed(c: Call) {
    Fits(c.request, c.reply)
  }

  datatype UserRecord = UserRecord(arn: string, userId: string, accessKeys: seq<string>, attachedPolicies: seq<string>)

  datatype PolicyRecord = PolicyRecord(policyName: string, effect: string, action: string, resource: string)

  /** What the provider holds: each queue's stored attributes by queue name,
      users by name, policies by ARN. */
  datatype State = State(
    queues: map<string, AttributeMap>,
    users: map<string, UserRecord>,
    policies: map<string, PolicyRecord>)

  const QueueUrlBase: string := "https://sqs.us-east-1.amazonaws.com/123456789012/"
  const QueueArnBase: string := "arn:aws:sqs:us-east-1:123456789012:"
  const IamArnBase: string := "arn:aws:iam::123456789012:"

  function QueueUrl(queueName: string): string {
    QueueUrlBase + queueName
  }

  /** The queue a URL designates, if it is one of the provider's queue URLs. */
  function QueueNameOf(queueUrl: string): (r: Option<string>)
    ensures r.Some? ==> QueueUrl(r.value) == queueUrl
  {
    if |QueueUrlBase| <= |queueUrl| && queueUrl[..|QueueUrlBase|] == QueueUrlBase
    then Some(queueUrl[|QueueUrlBase|..])
    else None
  }

  lemma QueueUrlRoundTrip(queueName: string)
    ensures QueueNameOf(QueueUrl(queueName)) == Some(queueName)
  {
    var u := QueueUrl(queueName);
    assert u[..|QueueUrlBase|] == QueueUrlBase;
    assert u[|QueueUrlBase|..] == queueName;
  }

  function ArnOfQueue(queueName: string): string {
    QueueArnBase + queueName
  }

  function UserArn(userName: string): string {
    IamArnBase + "user/" + userName
  }

  function UserId(userName: string): string {
    "AIDA" + userName
  }

  function PolicyArn(policyName: string): string {
    IamArnBase + "policy/" + policyName
  }

  // The failures the provider itself reports.
  const NonExistentQueue: SdkError :=
    RequestFailure("AWS.SimpleQueueService.NonExistentQueue", "The specified queue does not exist for this wsdl version.", 400)
  const QueueAlreadyExists: SdkError :=
    RequestFailure("QueueAlreadyExists", "A queue already exists with the same name and a different value for attribute(s).", 400)
  const NoSuchEntity: SdkError :=
    RequestFailure("NoSuchEntity", "The request was rejected because it referenced a resource entity that does not exist.", 404)
  const EntityAlreadyExists: SdkError :=
    RequestFailure("EntityAlreadyExists", "The request was rejected because it attempted to create a resource that already exists.", 409)
  const DeleteConflict: SdkError :=
    RequestFailure("DeleteConflict", "The request was rejected because it attempted to delete a resource that has attached subordinate entities.", 409)

  /** The attributes a new queue stores: those it was created with, and its ARN. */
  function Stored(queueName: string, attributes: AttributeMap): AttributeMap {
    attributes[QueueArn := ArnOfQueue(queueName)]
  }

  /** `s` without the first occurrence of `x`. */
  function RemoveFirst(s: seq<string>, x: string): (r: seq<string>)
    ensures x in s ==> |r| == |s| - 1
    ensures x !in s ==> r == s
  {
    if s == [] then []
    else if s[0] == x then s[1..]
    else [s[0]] + RemoveFirst(s[1..], x)
  }

  predicate AttachedAnywhere(s: State, policyArn: string) {
    exists name | name in s.users :: policyArn in s.users[name].attachedPolicies
  }

  /** How the provider answers a request that is not made to fail.  Only a
      creation adds a queue, a user or a policy, and only a removal takes one
      away. */
  function Respond(s: State, issued: AccessKey, req: Request): (out: (Reply, State))
    ensures !IsCreation(req) ==>
      out.1.queues.Keys <= s.queues.Keys && out.1.users.Keys <= s.users.Keys && out.1.policies.Keys <= s.policies.Keys
    ensures !IsRemoval(req) ==>
      s.queues.Keys <= out.1.queues.Keys && s.users.Keys <= out.1.users.Keys && s.policies.Keys <= out.1.policies.Keys
  {
    match req
    case GetQueueUrl(name) =>
      if name in s.queues then (Url(QueueUrl(name)), s) else (Failed(NonExistentQueue), s)
    case GetQueueAttributes(url) =>
      var name := QueueNameOf(url);
      if name.Some? && name.value in s.queues then (Attributes(s.queues[name.value]), s)
      else (Failed(NonExistentQueue), s)
    case SetQueueAttributes(url, attributes) =>
      var name := QueueNameOf(url);
      if name.Some? && name.value in s.queues
      then (Done, s.(queues := s.queues[name.value := s.queues[name.value] + attributes]))
      else (Failed(NonExistentQueue), s)
    case CreateQueue(name, attributes) =>
      if name !in s.queues then (Url(QueueUrl(name)), s.(queues := s.queues[name := Stored(name, attributes)]))
      else if s.queues[name] == Stored(name, attributes) then (Url(QueueUrl(name)), s)
      else (Failed(QueueAlreadyExists), s)
    case DeleteQueue(url) =>
      var name := QueueNameOf(url);
      if name.Some? && name.value in s.queues then (Done, s.(queues := s.queues - {name.value}))
      else (Failed(NonExistentQueue), s)
    case RemovePermission(url, _) =>
      var name := QueueNameOf(url);
      if name.Some? && name.value in s.queues then (Done, s) else (Failed(NonExistentQueue), s)
    case GetUser(name) =>
      if name in s.users then (UserInfo(s.users[name].arn, s.users[name].userId), s)
      else (Failed(NoSuchEntity), s)
    case CreateUser(name) =>
      if name in s.users then (Failed(EntityAlreadyExists), s)
      else (Done, s.(users := s.users[name := UserRecord(UserArn(name), UserId(name), [], [])]))
    case DeleteUser(name) =>
      if name !in s.users then (Failed(NoSuchEntity), s)
      else if s.users[name].accessKeys != [] || s.users[name].attachedPolicies != [] then (Failed(DeleteConflict), s)
      else (Done, s.(users := s.users - {name}))
    case CreateAccessKey(name) =>
      if name !in s.users then (Failed(NoSuchEntity), s)
      else
        var u := s.users[name];
        (NewKey(issued), s.(users := s.users[name := u.(accessKeys := u.accessKeys + [issued.id])]))
    case DeleteAccessKey(name, id) =>
      if name !in s.users || id !in s.users[name].accessKeys then (Failed(NoSuchEntity), s)
      else
        var u := s.users[name];
        (Done, s.(users := s.users[name := u.(accessKeys := RemoveFirst(u.accessKeys, id))]))
    case ListAccessKeys(name) =>
      if name in s.users then (Names(s.users[name].accessKeys), s) else (Failed(NoSuchEntity), s)
    case CreatePolicy(policyName, effect, action, resource) =>
      var arn := PolicyArn(policyName);
      if arn in s.policies then (Failed(EntityAlreadyExists), s)
      else (NewPolicy(arn), s.(policies := s.policies[arn := PolicyRecord(policyName, effect, action, resource)]))
    case AttachUserPolicy(name, arn) =>
      if name !in s.users || arn !in s.policies then (Failed(NoSuchEntity), s)
      else if arn in s.users[name].attachedPolicies then (Done, s)
      else
        var u := s.users[name];
        (Done, s.(users := s.users[name := u.(attachedPolicies := u.attachedPolicies + [arn])]))
    case ListAttachedUserPolicies(name) =>
      if name in s.users then (Names(s.users[name].attachedPolicies), s) else (Failed(NoSuchEntity), s)
    case DetachUserPolicy(name, arn) =>
      if name !in s.users || arn !in s.users[name].attachedPolicies then (Failed(NoSuchEntity), s)
      else
        var u := s.users[name];
        (Done, s.(users := s.users[name := u.(attachedPolicies := RemoveFirst(u.attachedPolicies, arn))]))
    case DeletePolicy(arn) =>
      if arn !in s.policies then (Failed(NoSuchEntity), s)
      else if AttachedAnywhere(s, arn) then (Failed(DeleteConflict), s)
      else (Done, s.(policies := s.policies - {arn}))
  }

  /** Every answer has the reply shape of its request. */
  lemma RespondFits(s: State, issued: AccessKey, req: Request)
    ensures Fits(req, Respond(s, issued, req).0)
  {
  }

  /** A failure or a query changes nothing; an IAM request leaves the queues
      alone and an SQS request the users and the policies. */
  lemma RespondFrame(s: State, issued: AccessKey, req: Request)
    ensures var out := Respond(s, issued, req);
      && (out.0.Failed? || IsQuery(req) ==> out.1 == s)
      && (IsIam(req) ==> out.1.queues == s.queues)
      && (IsSqs(req) ==> out.1.users == s.users && out.1.policies == s.policies)
  {
  }

  /** The provider: its state, the failures injected per request (an injected
      request fails with that error and changes nothing), the access key it
      issues next, and the log of every request made. */
  class Provider {
    var state: State
    var faults: map<Request, SdkError>
    var issuedKey: AccessKey
    ghost var log: seq<Call>

    ghost predicate Valid()
      reads this
    {
      forall i {:trigger WellFormed(log[i])} :: 0 <= i < |log| ==> WellFormed(log[i])
    }

    constructor (state0: State, faults0: map<Request, SdkError>, issuedKey0: AccessKey)
      ensures Valid()
      ensures state == state0 && faults == faults0 && issuedKey == issuedKey0 && log == []
    {
      state, faults, issuedKey := state0, faults0, issuedKey0;
      log := [];
    }

    method Send(req: Request) returns (reply: Reply)
      requires Valid()
      modifies this`state, this`log
      ensures Valid()
      ensures log == old(log) + [Call(req, reply)]
      ensures Fits(req, reply)
      ensures req in faults ==> reply == Failed(faults[req]) && state == old(state)
      ensures req !in faults ==> (reply, state) == Respond(old(state), issuedKey, req)
    {
      if req in faults {
        reply := Failed(faults[req]);
      } else {
        var out := Respond(state, issuedKey, req);
        RespondFits(state, issuedKey, req);
        RespondFrame(state, issuedKey, req);
        reply, state := out.0, out.1;
      }
      ghost var before := log;
      log := log + [Call(req, reply)];
      forall i | 0 <= i < |log|
        ensures WellFormed(log[i])
      {
        if i < |before| {
          assert log[i] == before[i] && WellFormed(before[i]);
        }
      }
    }
  }
}
