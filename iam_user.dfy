// The IAM adapter: each operation is one IAM request followed by the shared
// translation of its error (an AWS error becomes "code: message", any other
// error passes unchanged) and the shaping of its result.
module IamUser {
  import opened Errors
  import Cloud

  datatype UserDetails = UserDetails(userName: string, arn: string, userId: string)

  /** The log grew by exactly one call of `req`, and `err` is that call's
      failure, translated. */
  ghost predicate Issued(before: seq<Cloud.Call>, after: seq<Cloud.Call>, req: Cloud.Request, err: Option<Error>) {
    |after| == |before| + 1 && before <= after && after[|before|].request == req &&
    err == (if after[|before|].reply.Failed? then Some(TranslateAwsError(after[|before|].reply.error)) else None)
  }

  /** One IAM request with the translation every IAM operation shares.  No
      status code is inspected, so ErrUserDoesNotExist is never produced
      unless the SDK itself returned that very error. */
  method Perform(p: Cloud.Provider, req: Cloud.Request) returns (reply: Cloud.Reply, err: Option<Error>)
    requires p.Valid() && Cloud.IsIam(req)
    modifies p`state, p`log
    ensures p.Valid()
    ensures p.log == old(p.log) + [Cloud.Call(req, reply)]
    ensures Cloud.Fits(req, reply)
    ensures Issued(old(p.log), p.log, req, err)
    ensures err == Some(UserDoesNotExist) ==> reply.error == Other(UserDoesNotExist)
    ensures p.state.queues == old(p.state.queues)
    ensures Cloud.IsQuery(req) || reply.Failed? ==> p.state == old(p.state)
    ensures !reply.Failed? ==> (reply, p.state) == Cloud.Respond(old(p.state), p.issuedKey, req)
  {
    ghost var s0 := p.state;
    reply := p.Send(req);
    Cloud.RespondFrame(s0, p.issuedKey, req);
    err := if reply.Failed? then Some(TranslateAwsError(reply.error)) else None;
  }

  /** Describes a user.  The details always carry the requested name; the ARN
      and the user ID are filled in only when the request succeeds. */
  method Describe(p: Cloud.Provider, userName: string) returns (details: UserDetails, err: Option<Error>)
    requires p.Valid()
    modifies p`state, p`log
    ensures p.Valid() && p.state == old(p.state)
    ensures Issued(old(p.log), p.log, Cloud.GetUser(userName), err)
    ensures details.userName == userName
    ensures var reply := p.log[|old(p.log)|].reply;
      && (reply.Failed? ==> details == UserDetails(userName, "", ""))
      && (!reply.Failed? ==> reply.UserInfo? && details == UserDetails(userName, reply.arn, reply.userId))
  {
    details := UserDetails(userName, "", "");
    var reply;
    reply, err := Perform(p, Cloud.GetUser(userName));
    if reply.Failed? {
      return;
    }
    details := details.(arn := reply.arn);
    details := details.(userId := reply.userId);
  }

  method Create(p: Cloud.Provider, userName: string) returns (err: Option<Error>)
    requires p.Valid()
    modifies p`state, p`log
    ensures p.Valid() && p.state.queues == old(p.state.queues)
    ensures Issued(old(p.log), p.log, Cloud.CreateUser(userName), err)
    ensures err.Some? ==> p.state == old(p.state)
    ensures err.None? ==>
      && userName !in old(p.state.users) && p.state.policies == old(p.state.policies)
      && p.state.users == old(p.state.users)[userName := Cloud.UserRecord(Cloud.UserArn(userName), Cloud.UserId(userName), [], [])]
  {
    var reply;
    reply, err := Perform(p, Cloud.CreateUser(userName));
  }

  method Delete(p: Cloud.Provider, userName: string) returns (err: Option<Error>)
    requires p.Valid()
    modifies p`state, p`log
    ensures p.Valid() && p.state.queues == old(p.state.queues)
    ensures Issued(old(p.log), p.log, Cloud.DeleteUser(userName), err)
    ensures err.None? ==> userName !in p.state.users
    ensures err.Some? ==> p.state == old(p.state)
    ensures err.None? ==>
      && userName in old(p.state.users) && p.state.policies == old(p.state.policies)
      && old(p.state.users)[userName].accessKeys == [] && old(p.state.users)[userName].attachedPolicies == []
      && p.state.users == old(p.state.users) - {userName}
  {
    var reply;
    reply, err := Perform(p, Cloud.DeleteUser(userName));
  }

  /** Creates an access key: ("", "") with the error on failure, the issued key
      ID and secret otherwise. */
  method CreateAccessKey(p: Cloud.Provider, userName: string) returns (accessKeyId: string, secretAccessKey: string, err: Option<Error>)
    requires p.Valid()
    modifies p`state, p`log
    ensures p.Valid() && p.state.queues == old(p.state.queues)
    ensures Issued(old(p.log), p.log, Cloud.CreateAccessKey(userName), err)
    ensures var reply := p.log[|old(p.log)|].reply;
      && (reply.Failed? ==> accessKeyId == "" && secretAccessKey == "")
      && (!reply.Failed? ==> reply.NewKey? && accessKeyId == reply.key.id && secretAccessKey == reply.key.secret)
    ensures err.Some? ==> p.state == old(p.state)
    ensures err.None? ==>
      && userName in old(p.state.users) && p.state.policies == old(p.state.policies)
      && Cloud.AccessKey(accessKeyId, secretAccessKey) == p.issuedKey
      && var u := old(p.state.users)[userName];
         p.state.users == old(p.state.users)[userName := u.(accessKeys := u.accessKeys + [accessKeyId])]
  {
    var reply;
    reply, err := Perform(p, Cloud.CreateAccessKey(userName));
    if reply.Failed? {
      return "", "", err;
    }
    return reply.key.id, reply.key.secret, None;
  }

  method DeleteAccessKey(p: Cloud.Provider, userName: string, accessKeyId: string) returns (err: Option<Error>)
    requires p.Valid()
    modifies p`state, p`log
    ensures p.Valid() && p.state.queues == old(p.state.queues)
    ensures Issued(old(p.log), p.log, Cloud.DeleteAccessKey(userName, accessKeyId), err)
    ensures err.Some? ==> p.state == old(p.state)
    ensures err.None? ==>
      && userName in old(p.state.users) && p.state.policies == old(p.state.policies)
      && var u := old(p.state.users)[userName];
         && accessKeyId in u.accessKeys
         && p.state.users == old(p.state.users)[userName := u.(accessKeys := Cloud.RemoveFirst(u.accessKeys, accessKeyId))]
  {
    var reply;
    reply, err := Perform(p, Cloud.DeleteAccessKey(userName, accessKeyId));
  }

  // The user operations below are used by the broker but their adapter code
  // is not part of this model; they are given the same one-request shape and
  // the same error translation as the operations above.

  /** Lists a user's access key IDs in the provider's order ([] on failure). */
  method ListAccessKeys(p: Cloud.Provider, userName: string) returns (accessKeyIds: seq<string>, err: Option<Error>)
    requires p.Valid()
    modifies p`state, p`log
    ensures p.Valid() && p.state == old(p.state)
    ensures Issued(old(p.log), p.log, Cloud.ListAccessKeys(userName), err)
    ensures err.None? ==> userName in p.state.users && accessKeyIds == p.state.users[userName].accessKeys
    ensures err.Some? ==> accessKeyIds == []
    ensures err.None? ==> p.log[|old(p.log)|].reply == Cloud.Names(accessKeyIds)
  {
    var reply;
    reply, err := Perform(p, Cloud.ListAccessKeys(userName));
    accessKeyIds := if reply.Failed? then [] else reply.names;
  }

  /** Creates a policy and gives its ARN ("" on failure). */
  method CreatePolicy(p: Cloud.Provider, policyName: string, effect: string, action: string, resource: string)
    returns (policyArn: string, err: Option<Error>)
    requires p.Valid()
    modifies p`state, p`log
    ensures p.Valid() && p.state.queues == old(p.state.queues)
    ensures Issued(old(p.log), p.log, Cloud.CreatePolicy(policyName, effect, action, resource), err)
    ensures var reply := p.log[|old(p.log)|].reply;
      && (reply.Failed? ==> policyArn == "")
      && (!reply.Failed? ==> reply.NewPolicy? && policyArn == reply.policyArn)
    ensures err.Some? ==> p.state == old(p.state)
    ensures err.None? ==>
      && policyArn == Cloud.PolicyArn(policyName) && policyArn !in old(p.state.policies)
      && p.state.users == old(p.state.users)
      && p.state.policies == old(p.state.policies)[policyArn := Cloud.PolicyRecord(policyName, effect, action, resource)]
  {
    var reply;
    reply, err := Perform(p, Cloud.CreatePolicy(policyName, effect, action, resource));
    policyArn := if reply.Failed? then "" else reply.policyArn;
  }

  method AttachUserPolicy(p: Cloud.Provider, userName: string, policyArn: string) returns (err: Option<Error>)
    requires p.Valid()
    modifies p`state, p`log
    ensures p.Valid() && p.state.queues == old(p.state.queues)
    ensures Issued(old(p.log), p.log, Cloud.AttachUserPolicy(userName, policyArn), err)
    ensures err.Some? ==> p.state == old(p.state)
    ensures err.None? ==>
      && userName in old(p.state.users) && policyArn in old(p.state.policies)
      && p.state.policies == old(p.state.policies)
      && var u := old(p.state.users)[userName];
         p.state.users == old(p.state.users)[userName :=
           if policyArn in u.attachedPolicies then u else u.(attachedPolicies := u.attachedPolicies + [policyArn])]
  {
    var reply;
    reply, err := Perform(p, Cloud.AttachUserPolicy(userName, policyArn));
  }

  /** Lists the ARNs of the policies attached to a user ([] on failure). */
  method ListAttachedUserPolicies(p: Cloud.Provider, userName: string) returns (policyArns: seq<string>, err: Option<Error>)
    requires p.Valid()
    modifies p`state, p`log
    ensures p.Valid() && p.state == old(p.state)
    ensures Issued(old(p.log), p.log, Cloud.ListAttachedUserPolicies(userName), err)
    ensures err.None? ==> userName in p.state.users && policyArns == p.state.users[userName].attachedPolicies
    ensures err.Some? ==> policyArns == []
    ensures err.None? ==> p.log[|old(p.log)|].reply == Cloud.Names(policyArns)
  {
    var reply;
    reply, err := Perform(p, Cloud.ListAttachedUserPolicies(userName));
    policyArns := if reply.Failed? then [] else reply.names;
  }

  method DetachUserPolicy(p: Cloud.Provider, userName: string, policyArn: string) returns (err: Option<Error>)
    requires p.Valid()
    modifies p`state, p`log
    ensures p.Valid() && p.state.queues == old(p.state.queues)
    ensures Issued(old(p.log), p.log, Cloud.DetachUserPolicy(userName, policyArn), err)
    ensures err.Some? ==> p.state == old(p.state)
    ensures err.None? ==>
      && userName in old(p.state.users) && p.state.policies == old(p.state.policies)
      && var u := old(p.state.users)[userName];
         && policyArn in u.attachedPolicies
         && p.state.users == old(p.state.users)[userName := u.(attachedPolicies := Cloud.RemoveFirst(u.attachedPolicies, policyArn))]
  {
    var reply;
    reply, err := Perform(p, Cloud.DetachUserPolicy(userName, policyArn));
  }

  method DeletePolicy(p: Cloud.Provider, policyArn: string) returns (err: Option<Error>)
    requires p.Valid()
    modifies p`state, p`log
    ensures p.Valid() && p.state.queues == old(p.state.queues)
    ensures Issued(old(p.log), p.log, Cloud.DeletePolicy(policyArn), err)
    ensures err.Some? ==> p.state == old(p.state)
    ensures err.None? ==>
      && policyArn in old(p.state.policies) && !Cloud.AttachedAnywhere(old(p.state), policyArn)
      && p.state.users == old(p.state.users) && p.state.policies == old(p.state.policies) - {policyArn}
  {
    var reply;
    reply, err := Perform(p, Cloud.DeletePolicy(policyArn));
  }
}
