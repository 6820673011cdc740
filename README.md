# sqs-broker, modelled in Dafny

The sqs-broker is a Cloud Foundry service broker that hands out Amazon SQS
queues. It provisions an instance by creating a queue named after the
instance ID. It updates an instance by writing new queue attributes, and
deprovisions one by deleting its queue. It binds an application with a new
IAM user. That user gets an access key and a policy that allows `sqs:*` on
the queue. Unbinding removes the user's keys, its policies and the user.

The model covers five parts of the repository:

- the broker orchestrator (`module Broker`, broker.dfy);
- the SQS adapter (`module SqsQueue`, sqs_queue.dfy);
- the IAM adapter (`module IamUser`, iam_user.dfy);
- the configuration validator (`module Config`, config.dfy);
- the provision and update parameter tables (`module Parameters`, parameters.dfy).

Some modules support these parts.

- **`Errors`** holds the error values and the one AWS error translation that
  both adapters share. An AWS error becomes the text "code: message". Any
  other error passes through unchanged.
- **`Catalog`** is a small stand-in for the service catalog. It has services
  with their `bindable` and `plan_updateable` flags, and plans with their SQS
  properties.
- **`Cloud`** holds what the adapters talk to. It is a `Provider` object that
  holds the cloud's state: queues with their attributes, users with their
  access keys and attached policies, and policies. It also holds the faults
  injected per request, and a ghost log of every request made and the reply
  it got.
  - A request listed in `faults` fails with that SDK error and changes
    nothing. This plays the part of the fakes in the repository's tests.
  - Every other request is answered by `Respond`, which gives AWS-like
    semantics. A missing queue is `AWS.SimpleQueueService.NonExistentQueue`.
    A missing user or policy is `NoSuchEntity`. Creating something that
    exists is `QueueAlreadyExists` or `EntityAlreadyExists`. A user that
    still has keys or policies is `DeleteConflict`.

Each adapter operation is a method of its module that takes the provider as
a parameter. Its contract says which requests it issued, in which order,
what it returns for each reply, and what the provider holds afterwards. The broker's operations call the adapters in turn. Their contracts
state the order of the checks, which requests follow, and how the errors are
mapped:

- the queue's "not found" becomes `ErrInstanceDoesNotExist`;
- a failed binding runs the deferred compensation for whatever it had
  already created;
- an unbinding stops at its first failed call; what it removed before that call stays removed, and nothing else changes.

## Model

| member | source | states |
|---|---|---|
| Errors.TranslateAwsError | awsiam/iam_user.go:43-46 | an AWS error (with or without an HTTP status) becomes the text "code: message"; any other error is passed through unchanged; a sentinel error comes out only if it went in |
| Errors.TranslationIgnoresStatus | awssqs/sqs_queue.go:62-69 | the HTTP status of a request failure never changes its translation, which is always a text |
| Parameters.FieldOf | sqsbroker/parameters.go:3-9 | the five mapstructure keys name exactly the five tunables: a key maps to a tunable iff it is that tunable's key |
| Parameters.KeysDistinct | sqsbroker/parameters.go:3-9 | distinct tunables have distinct keys |
| Parameters.FirstFolded | sqsbroker/parameters.go:3-9 | the position, in the decoder's visiting order, of the first map key equal to the field's key under case folding; no earlier visited key is; the order's length when none is |
| Parameters.Found | sqsbroker/parameters.go:3-9 | a key present exactly is read exactly, before any case-insensitive match |
| Parameters.FoundMeaning | sqsbroker/parameters.go:3-9 | without an exact key, a value is found iff a visited key equals the field's key under case folding, and what is found is the value of such a key |
| Parameters.FoundIgnoresOrder | sqsbroker/parameters.go:3-9 | the visiting order changes what a field reads only when no key matches exactly and several keys case-fold to it |
| Parameters.EqualFold | sqsbroker/parameters.go:3-9 | strings.EqualFold as the decoder applies it to a field's key: same length, and each pair of characters equal after folding ASCII case, LATIN SMALL LETTER LONG S onto "s" and KELVIN SIGN onto "k"; FoundMeaning states how it selects a key |
| Parameters.Decode | sqsbroker/broker.go:78-80 | mapstructure.Decode of the raw parameters into the five fields, also used at broker.go:106; DecodeMeaning, DecodeFailuresListed and DecodeFailuresOnlyMismatches state what it gives |
| Parameters.DecodeField | sqsbroker/parameters.go:3-9 | a field with no matching key or a null value decodes to "", a string to itself, and any other value to one mismatch naming the field's key and the type found |
| Parameters.DecodeMeaning | sqsbroker/parameters.go:3-17 | decoding succeeds iff every field decodes, and each field then holds what it decodes to alone; a failure carries the mismatches of all five fields |
| Parameters.MismatchOfField | sqsbroker/parameters.go:3-9 | a field adds exactly one mismatch, its key and the type found, iff it holds a non-string value, and none otherwise |
| Parameters.DecodeFailuresListed | sqsbroker/parameters.go:3-17 | a failed decoding lists at least one mismatch, and lists every field that holds a non-string value |
| Parameters.DecodeFailuresOnlyMismatches | sqsbroker/parameters.go:3-17 | every mismatch a failed decoding lists is a field that holds a non-string value, with that value's type |
| Parameters.DecodeEmpty | sqsbroker/parameters.go:3-17 | an empty parameter map decodes to all-empty parameters |
| Catalog.FindService | sqsbroker/broker.go:111-114 | finds a service iff one with that ID is in the catalog, and the one found has that ID |
| Catalog.FindServicePlan | sqsbroker/broker.go:84-87 | finds a plan iff one with that ID is in the catalog, and the one found has that ID |
| Config.Validate | sqsbroker/config.go:16-30 | valid iff the region and the queue prefix are non-empty and the catalog validates; otherwise the first failing check's message, catalog errors prefixed "Validating Catalog configuration: " |
| Config.TogglesDoNotMatter | sqsbroker/config.go:8-30 | the two user-parameter toggles never affect validity |
| Config.CatalogCheckedLast | sqsbroker/config.go:16-27 | an empty region or prefix is reported whatever the catalog validator says |
| Cloud.Provider.Send | awssqs/fakes/fake_queue.go:40-85 | every request is logged with its reply, which fits the request; an injected request fails with its injected error and leaves the state alone; any other is answered as the cloud's semantics say |
| Cloud.Respond | awssqs/sqs_queue.go:56-248 | the cloud model, which has no counterpart in the source: how the provider answers the SDK calls the adapters make; only a creation adds a queue, a user or a policy, and only a removal takes one away |
| Cloud.QueueNameOf | awssqs/sqs_queue.go:209-216 | the cloud model's reading of the queue URL a request carries (the source itself never parses a URL): a URL that designates a queue is that queue's URL |
| Cloud.QueueUrlRoundTrip | awssqs/sqs_queue.go:183-206 | the URL a queue name resolves to designates that queue again |
| Cloud.RemoveFirst | awsiam/iam_user.go:113-131 | deleting a listed key or policy removes one occurrence; an unlisted one leaves the list as it was |
| Cloud.RespondFits | awsiam/iam_user.go:40-110 | the cloud model, which has no counterpart in the source: every answer has the reply shape of its request (a URL for GetQueueUrl, a key for CreateAccessKey, and so on) or is a failure |
| Cloud.RespondFrame | awsiam/iam_user.go:30-131 | the cloud model, which has no counterpart in the source: a failed request or a query changes nothing; an IAM request never touches the queues, an SQS request never the users or policies |
| SqsQueue.SentAttributesMeaning | awssqs/sqs_queue.go:272-303 | exactly the writable attributes whose detail is non-empty are sent, each with its detail's value; nothing else is sent |
| SqsQueue.SentAttributeAt | awssqs/sqs_queue.go:272-303 | the same, for one named attribute |
| SqsQueue.SentIgnoresUrlAndArn | awssqs/sqs_queue.go:257-336 | the URL and the ARN are never sent; empty details send nothing |
| SqsQueue.BuildCreateQueueInput | awssqs/sqs_queue.go:272-303 | the create input names the queue and carries exactly the sent attributes |
| SqsQueue.BuildSetQueueAttributesInput | awssqs/sqs_queue.go:305-336 | the set-attributes input names the URL and carries exactly the sent attributes |
| SqsQueue.BuildQueueDetails | awssqs/sqs_queue.go:257-270 | the details carry the URL, and each known attribute's value ("" when absent) |
| SqsQueue.DetailsRoundTrip | awssqs/sqs_queue.go:257-336 | reading back what is sent gives the details again, except the URL, which is the one given, and the ARN, which is never sent |
| SqsQueue.AttributesRoundTrip | awssqs/sqs_queue.go:257-336 | sending details read from attributes sends back every non-empty writable attribute unchanged and nothing else |
| SqsQueue.ClassifyQueueError | awssqs/sqs_queue.go:190-201 | the error becomes ErrQueueDoesNotExist iff it is an AWS request failure with status 400 or 404, whatever its code (or already that sentinel); otherwise it is the shared translation |
| SqsQueue.BuildQueuePolicyStatement | awssqs/sqs_queue.go:353-365 | the statement allows "sqs:" + action on the queue ARN to the user ARN as its AWS principal, under the given ID |
| SqsQueue.PolicyEnvelope | awssqs/sqs_queue.go:338-343 | a policy document has version "2012-10-17", ID "SQSQueuePolicy" and the given statements |
| SqsQueue.BuildQueuePolicy | awssqs/sqs_queue.go:338-351 | the serialised policy is the marshalling of the envelope with version "2012-10-17", ID "SQSQueuePolicy" and the given statements, or its error |
| SqsQueue.ExtendedStatements | awssqs/sqs_queue.go:126-138 | an empty policy gives just the new statement; otherwise the parsed statements with the new one appended, or the parse error |
| SqsQueue.UpdatedPolicy | awssqs/sqs_queue.go:126-146 | with no policy, the envelope around the new statement alone; with one that parses, around its statements followed by the new one; with one that does not, the parse error; a marshal failure is the error |
| SqsQueue.ResentAttributes | awssqs/sqs_queue.go:144-146 | writing described attributes back with a new policy changes only the policy attribute |
| SqsQueue.ResentStores | awssqs/sqs_queue.go:144-146 | writing described attributes back leaves what the queue stores as it was, except that a non-empty policy replaces the stored one |
| SqsQueue.Issue | awssqs/sqs_queue.go:189-202 | one request is logged; its failure is classified; a query changes nothing |
| SqsQueue.ResolveQueueUrl | awssqs/sqs_queue.go:183-206 | one GetQueueUrl request; the URL of the reply, or "" and the classified error |
| SqsQueue.FetchQueueAttributes | awssqs/sqs_queue.go:208-232 | one GetQueueAttributes request for all attributes; the reply's map, or an empty one and the classified error |
| SqsQueue.StoreQueueAttributes | awssqs/sqs_queue.go:234-255 | one SetQueueAttributes request with exactly the sent attributes; its classified error |
| SqsQueue.Describe | awssqs/sqs_queue.go:42-56 | resolve the URL; only then read the attributes; the details built from them, or empty details and the classified error; the state is unchanged; on success the queue exists and the details are those of its stored attributes |
| SqsQueue.Create | awssqs/sqs_queue.go:58-73 | one CreateQueue request with the sent attributes; its error only translated, so never ErrQueueDoesNotExist from a status; on success the queue stores the sent attributes and its ARN; on failure nothing changes; users and policies never change |
| SqsQueue.Modify | awssqs/sqs_queue.go:75-87 | resolve the URL; only then set the sent attributes; the classified error of whichever failed; on success the queue existed and the sent attributes are merged into what it stores; on failure nothing changes |
| SqsQueue.Delete | awssqs/sqs_queue.go:89-117 | resolve the URL; only then delete the queue; the classified error of whichever failed; on success the queue existed and is gone, nothing else changed; on failure nothing changes |
| SqsQueue.RemovePermission | awssqs/sqs_queue.go:152-181 | resolve the URL; only then remove the labelled permission; the classified error of whichever failed |
| SqsQueue.AddPermission | awssqs/sqs_queue.go:119-150 | describe the queue; a describe, parse or marshal failure ends it with no write; otherwise one SetQueueAttributes writing the described attributes back with the extended policy; on success the queue stores the extended policy and nothing else changed; on failure nothing changes |
| IamUser.Perform | awsiam/iam_user.go:40-47 | one IAM request is logged, its failure translated; ErrUserDoesNotExist only if the SDK returned it; queues unchanged; a query or a failure changes nothing |
| IamUser.Describe | awsiam/iam_user.go:30-54 | one GetUser request; the details carry the requested name, with the ARN and the ID of the reply only on success |
| IamUser.Create | awsiam/iam_user.go:56-73 | one CreateUser request; its translated error; on success the user was new and now exists with no keys and no policies, nothing else changed; on failure nothing changes |
| IamUser.Delete | awsiam/iam_user.go:75-92 | one DeleteUser request; its translated error; on success the user existed with no keys and no attached policies and is gone, nothing else changed; on failure nothing changes |
| IamUser.CreateAccessKey | awsiam/iam_user.go:94-111 | one CreateAccessKey request; the new key's ID and secret, or "" and "" with the translated error; on success the user existed and holds the new key as its last one; on failure nothing changes |
| IamUser.DeleteAccessKey | awsiam/iam_user.go:113-131 | one DeleteAccessKey request naming the user and the key; its translated error; on success the key was the user's and one occurrence is removed; on failure nothing changes |
| IamUser.ListAccessKeys | awsiam/user.go:11 | one ListAccessKeys request, state unchanged; on success exactly the user's key IDs, otherwise none |
| IamUser.CreatePolicy | sqsbroker/broker.go:203-206 | one CreatePolicy request with the given effect, action and resource; the new policy's ARN, or "" with the translated error; on success the policy was new and now exists as given |
| IamUser.AttachUserPolicy | sqsbroker/broker.go:208-210 | one AttachUserPolicy request; its translated error; on success the user and the policy existed and the policy is among the user's attached ones |
| IamUser.ListAttachedUserPolicies | sqsbroker/broker.go:239-242 | one ListAttachedUserPolicies request, state unchanged; on success exactly the user's attached policy ARNs, otherwise none |
| IamUser.DetachUserPolicy | sqsbroker/broker.go:245-247 | one DetachUserPolicy request; its translated error; on success the policy was attached and one attachment is removed |
| IamUser.DeletePolicy | sqsbroker/broker.go:249-251 | one DeletePolicy request; its translated error; on success the policy existed, was attached to no user, and is gone |
| Broker.New | sqsbroker/broker.go:31-46 | the broker keeps the configuration's prefix, both toggles and catalog |
| Broker.Prefixed | sqsbroker/broker.go:269-279 | a name is the prefix, a dash, then the ID |
| Broker.QueueName | sqsbroker/broker.go:269-271 | the queue of an instance is "<prefix>-<instance ID>" |
| Broker.UserName | sqsbroker/broker.go:273-275 | the user of a binding is "<prefix>-<binding ID>" |
| Broker.PolicyName | sqsbroker/broker.go:277-279 | the policy of a binding is "<prefix>-<binding ID>" |
| Broker.NamesCoincide | sqsbroker/broker.go:269-279 | a binding's user and policy share one name, and an instance with the same ID has it as its queue name |
| Broker.NamesInjective | sqsbroker/broker.go:269-279 | distinct IDs give distinct queue, user and policy names |
| Broker.AttributeOf | sqsbroker/broker.go:281-305 | each tunable is written as its own writable attribute, never the policy or the ARN |
| Broker.QueueDetailsFromPlan | sqsbroker/broker.go:333-343 | a plan gives details with its five SQS properties and empty URL, ARN and policy |
| Broker.MergeQueueDetails | sqsbroker/broker.go:281-305 | each tunable is the user's value when non-empty and the plan's otherwise; URL, ARN and policy stay empty |
| Broker.MergedByFields | sqsbroker/broker.go:281-305 | the five field assignments (the user's value when non-empty, else the plan's) and empty URL, ARN and policy make merged details |
| Broker.MergedUnique | sqsbroker/broker.go:281-331 | the merge rule fixes the details uniquely |
| Broker.MergeWithoutParameters | sqsbroker/broker.go:281-343 | without user parameters the merge is the plan's details |
| Broker.MergedAttributesSent | sqsbroker/broker.go:281-343 | merged details never send a policy or an ARN; a tunable's attribute is sent iff the user or the plan sets it, with the merged value |
| Broker.OnlyTunablesSent | sqsbroker/broker.go:281-305 | details without a policy send only the five tunables' attributes |
| Broker.EffectiveParameters | sqsbroker/broker.go:77-82 | with the toggle off the raw parameters are ignored and decoding cannot fail; with it on they are decoded in the given key order |
| Broker.ToggleOffIgnoresParameters | sqsbroker/broker.go:77-82 | with the toggle off the queue gets the plan's details whatever parameters are given |
| Broker.NoParameterReachesPolicy | sqsbroker/broker.go:77-92 | whatever map the caller sends, under whatever keys, only the five tunables' attributes reach the queue, never its policy or ARN, and each carries the plan's value or a string found under a key that case-folds to that tunable's key |
| Broker.InstanceError | sqsbroker/broker.go:127-130 | the queue's "not found" becomes ErrInstanceDoesNotExist; every other error and success pass through |
| Broker.InstanceErrorOfFailure | sqsbroker/broker.go:127-130 | a classified queue error ends as ErrInstanceDoesNotExist iff it was a queue "not found"; ErrQueueDoesNotExist never escapes the broker |
| Broker.PlanNotFound | sqsbroker/broker.go:84-87 | the error for an unknown plan (also at line 122) is a text from which the plan ID reads back between "Service Plan '" and "' not found" |
| Broker.ServiceNotFound | sqsbroker/broker.go:111-114 | the error for an unknown service (also at line 168) is a text from which the service ID reads back between "Service '" and "' not found" |
| Broker.Provision | sqsbroker/broker.go:68-95 | never asynchronous; a decode error or an unknown plan ends it with no request; otherwise exactly one CreateQueue of the instance's queue with the merged attributes, and its translated error; on success the queue stores those attributes and its ARN; on failure nothing changes; users and policies never change |
| Broker.Update | sqsbroker/broker.go:97-134 | decode, then service, plan-updateable flag, plan, in this order, each failure with no request; then resolve the queue and set the merged attributes, its "not found" reported as ErrInstanceDoesNotExist; on success the queue existed and the merged attributes are merged into what it stores; on failure nothing changes |
| Broker.Deprovision | sqsbroker/broker.go:136-151 | resolve the instance's queue, then delete it; "not found" reported as ErrInstanceDoesNotExist; on success the queue existed and is gone, nothing else changed; on failure nothing changes |
| Broker.IssuesThen | sqsbroker/broker.go:186-196 | two traces one after the other issue their request lists one after the other |
| Broker.RollbackRequests | sqsbroker/broker.go:186-196 | the compensation only removes IAM entities and ends with the user's deletion; it deletes the policy iff an ARN is known and the key iff an ID is known |
| Broker.Discard | sqsbroker/broker.go:186-196 | issues exactly the one IAM request, whatever its outcome; the queues are untouched |
| Broker.Rollback | sqsbroker/broker.go:186-196 | issues exactly the compensation, in its order: the policy's deletion if an ARN is known, the key's if an ID is known, then the user's, whatever their errors; the queues are untouched |
| Broker.ForwardRequests | sqsbroker/broker.go:183-210 | the forward plan of a binding's IAM part: create the user, create its key, create the policy allowing sqs:* on the queue ARN, attach the returned policy |
| Broker.ForwardCalls | sqsbroker/broker.go:183-210 | create the user, the key, the policy on the queue ARN, then attach the returned policy, each only after the previous succeeded; the first failure is the error; the key ID and ARN are those the replies gave; `created` says whether the user was created; on success a new user holds exactly the issued key and the new policy, which allows sqs:* on the queue ARN, and nothing else changed |
| Broker.ForwardTraceOf | sqsbroker/broker.go:183-210 | the user's creation followed by a run of the remaining forward requests is a forward trace, with that run's key ID and policy ARN |
| Broker.GrantRequests | sqsbroker/broker.go:198-210 | the forward plan once the user exists: the key, the policy, its attachment |
| Broker.KeyIssued | sqsbroker/broker.go:198-201 | a new user's first access key is its only one |
| Broker.GrantCalls | sqsbroker/broker.go:198-210 | once the user exists: the key, then the policy and its attachment, stopping at the first failure; on success the binding's user, key and policy are in place |
| Broker.GrantTraceOf | sqsbroker/broker.go:198-210 | the key's creation followed by a run of the policy's creation and attachment is a run of the grant requests, with that run's key ID and policy ARN |
| Broker.PolicyCalls | sqsbroker/broker.go:203-210 | the policy on the queue ARN, and its attachment only if the creation succeeded; on success the new policy is attached to the user |
| Broker.ForwardEffectOf | sqsbroker/broker.go:203-210 | the policy's creation and attachment after the user and the key make up the binding's whole effect |
| Broker.CreateCredentials | sqsbroker/broker.go:183-210 | the forward calls, then, if one after the user's creation failed, deletion of the policy if created, the key if issued, and the user; on success the key's ID and secret, and the binding's user, key and policy in place; the queues are untouched |
| Broker.CredentialTraceOf | sqsbroker/broker.go:183-210 | forward calls followed by the compensation they call for form a binding's IAM trace |
| Broker.BindTraceOfDescribe | sqsbroker/broker.go:175-181 | a failed queue description is a whole binding trace, its error translated for the instance |
| Broker.BindTraceOfCredentials | sqsbroker/broker.go:175-210 | a successful description followed by the IAM part is a binding trace, whose IAM part starts after the description's two calls |
| Broker.BindQueue | sqsbroker/broker.go:175-218 | describe the queue, its "not found" reported as ErrInstanceDoesNotExist; only then the IAM part on its ARN; credentials iff no error, made of the new key's ID and secret and the queue URL; on success the queue existed and the new user holds that key and a policy on that queue's ARN |
| Broker.Bind | sqsbroker/broker.go:153-219 | an unknown or unbindable service ends it with no request; then the queue is described and the IAM part follows; credentials iff no error, made of the issued key's ID and secret and the queue URL; on success a new user holds exactly that key and a new policy allowing sqs:* on the queue's ARN; the queues never change |
| Broker.TeardownRequests | sqsbroker/broker.go:228-256 | the unbinding plan: the key listing first, the policy listing right after one deletion per key, two requests per policy, and the user's deletion last |
| Broker.KeyDeletions | sqsbroker/broker.go:233-237 | one deletion per listed key, in list order |
| Broker.PolicyRemovals | sqsbroker/broker.go:244-252 | two requests per attached policy |
| Broker.PolicyRemovalsAt | sqsbroker/broker.go:244-252 | for each policy, its detachment comes right before its deletion |
| Broker.PolicyRemovalsAppend | sqsbroker/broker.go:244-252 | removing two lists of policies is removing the first, then the second |
| Broker.RunsPlan | sqsbroker/broker.go:221-259 | a trace issued the first requests of a plan, in order |
| Broker.Halted | sqsbroker/broker.go:221-259 | a trace ran a plan up to its first failure, whose translated error is the result; without an error the whole plan ran and every call succeeded |
| Broker.HaltedThen | sqsbroker/broker.go:221-259 | a plan stopped within its second part means the whole plan was run up to that stop |
| Broker.HaltedWithin | sqsbroker/broker.go:221-259 | stopping with an error early in a plan stops any longer plan that extends it |
| Broker.TeardownCreatesNothing | sqsbroker/broker.go:221-259 | unbinding only lists and removes IAM entities; it never creates and never touches SQS |
| Broker.HaltedOne | sqsbroker/broker.go:233-237 | one issued IAM request is a run of the one-request plan, stopped by its error if any |
| Broker.DeletionsPrefix | sqsbroker/broker.go:233-237 | the deletions of the first i + 1 keys are those of the first i and one more, and begin the deletions of all keys |
| Broker.DeletionsStep | sqsbroker/broker.go:233-237 | one more key deletion after i successful ones: a failure halts the whole list's run, a success extends the run to i + 1 keys |
| Broker.RemovalsStep | sqsbroker/broker.go:244-252 | one more policy removed after j complete removals: a failure halts the whole list's run, a success extends the run to j + 1 policies |
| Broker.WithoutEach | sqsbroker/broker.go:233-252 | a list with the entries named removed one after another, one occurrence each, as the loops remove keys and policies |
| Broker.KeysRemoved | sqsbroker/broker.go:233-237 | the users once keys were deleted in order from one user; other users are left as they were |
| Broker.PoliciesDetached | sqsbroker/broker.go:244-247 | the users once policies were detached in order from one user; other users are left as they were |
| Broker.Elements | sqsbroker/broker.go:249-251 | the ARNs whose policies were deleted |
| Broker.WithoutOwnPrefix | sqsbroker/broker.go:233-252 | deleting a list's own first i entries one by one, as the loops do with the listed keys and policies, leaves the rest of the list |
| Broker.NothingRemoved | sqsbroker/broker.go:233-252 | deleting no key and detaching no policy changes no user, and neither adds or removes a user |
| Broker.KeysRemovedStep | sqsbroker/broker.go:233-237 | after one more successful key deletion the user's keys are the old ones without the first i + 1 deleted keys, and every other user is as it was |
| Broker.PoliciesDetachedStep | sqsbroker/broker.go:244-247 | after one more successful detachment the user's policies are the old ones without the first i + 1 detached policies, and every other user is as it was |
| Broker.ElementsStep | sqsbroker/broker.go:249-251 | one more deleted policy adds its ARN to those deleted |
| Broker.DeleteAccessKeys | sqsbroker/broker.go:233-237 | deletes the keys in order, stopping at the first failure; `deleted` keys were deleted, all of them iff there is no error, and the log shows exactly `deleted` successful calls plus the failing one; the user has lost exactly those keys, every other user is unchanged, and no policy or queue changed |
| Broker.RemovePolicy | sqsbroker/broker.go:245-251 | detaches the policy, and only then deletes it; the detachment succeeded iff both requests were issued; a failed detachment changes nothing; a successful one removes the policy from the user's list only; on success the policy existed and is deleted; no other user, policy or queue changes |
| Broker.RemovePolicies | sqsbroker/broker.go:244-252 | detaches and deletes each policy in order, stopping at the first failure; the first `deleted` policies are detached and deleted, and with an error the next one may also be detached, as many calls succeeded as the log shows; the user has lost exactly the detached policies, the policy map exactly the deleted ones, nothing else changes |
| Broker.ClearAccessKeys | sqsbroker/broker.go:228-237 | lists the user's keys, then deletes exactly those, stopping at the first failure; a failed listing ends it with nothing changed and nothing counted; once listed, the log length fixes how many keys were deleted, the user keeps exactly the keys not yet deleted, and none without an error; no policy, other user or queue changes |
| Broker.ClearPolicies | sqsbroker/broker.go:239-252 | lists the user's attached policies (its own list), then removes exactly those, stopping at the first failure; a failed listing ends it with nothing changed and nothing counted; once listed, the log length fixes how many were detached and deleted, the user keeps exactly the policies not yet detached, the deleted ones are gone from the policy map, and without an error the user has none left |
| Broker.KeyPhase | sqsbroker/broker.go:228-237 | the key phase's plan: list the keys, then one deletion per key |
| Broker.PolicyPhase | sqsbroker/broker.go:239-252 | the policy phase's plan: list the attached policies, then detach and delete each |
| Broker.TeardownOfPhases | sqsbroker/broker.go:228-252 | the key phase and the policy phase together run the first two parts of the unbinding plan, stopped at the first failure |
| Broker.ClearUser | sqsbroker/broker.go:228-252 | the key phase, then, only if it succeeded, the policy phase, up to the first failure; a failed key listing changes nothing; a phase not reached or whose listing failed counts nothing; the log length fixes every count; what was deleted and detached is exactly the counted prefix of each list; without an error the user is left with no key and no policy, and its policies are deleted |
| Broker.BothCleared | sqsbroker/broker.go:228-252 | emptying the user's keys and then its policies empties both, and the first leaves the policies alone |
| Broker.Unbind | sqsbroker/broker.go:221-259 | list keys, delete each, list attached policies, detach and delete each, delete the user, stopping at the first failure with its error; the keys and policies are the user's own, and empty when their listing failed or was not reached; a failed first listing changes nothing; the log length fixes how many keys were deleted and policies detached and deleted; a halted unbinding leaves the user without exactly those keys and detached policies and deletes exactly those policies; on success the user, its keys and its policies are gone and every other user and policy is unchanged; the queues never change |
| Broker.UserDeleted | sqsbroker/broker.go:254-256 | deleting a user that was just updated leaves the other users as they were before the update |

## Left out

- Services is not modelled. It only re-encodes the catalog through JSON into the broker framework's type.
- LastOperation is not modelled. It always fails with the error "This broker does not support LastOperation".
- JSON is not modelled. Parsing and marshalling the queue policy are function parameters of AddPermission. The raw provision parameters arrive as an already parsed map.
- Logging (lager), the AWS SDK's transport, the brokerapi framework and main.go are not part of this model.
- sqsbroker/catalog.go is not part of this model. `Catalog` is a stand-in with only the fields the broker reads, and the catalog's validation is a function parameter of Config.Validate.
- Parameters.Decode: mapstructure's error text is not modelled. The error lists, in field order, each offending field's key and the type of the value found there.
- Parameters.Decode: Go's map iteration order is unspecified. The order in which the decoder visits the map's keys is a parameter, and a key missing from it is never matched case-insensitively.
- Parameters.DecodeField: mapstructure's weak conversions are not modelled; the source does not enable them, so every non-string, non-null value is a mismatch.
- Parameters.EqualFold: Go's full Unicode case folding is modelled only as far as it can match a key made of lower-case ASCII letters and underscores, which every field key is.
- The default attributes AWS gives a new queue are not modelled. A new queue stores the attributes sent with it and its ARN. SetQueueAttributes merges the attributes sent into those stored.
- SqsQueue.RemovePermission: a removal answers only whether the queue exists. The model keeps no per-label permissions, so the state does not change.
- IamUser.ListAccessKeys, IamUser.CreatePolicy, IamUser.AttachUserPolicy, IamUser.ListAttachedUserPolicies, IamUser.DetachUserPolicy and IamUser.DeletePolicy: the broker calls these, but the IAM adapter does not implement them. They are modelled on the pattern of the implemented operations: one request, then the shared translation.
- Broker.MergeQueueDetails: the instance ID and the request details it receives are unused in the source, and are left out.
- Broker.Bind: the model does not prove that a failed binding's compensation restores the earlier IAM state. It states only which compensating requests are issued.
- Broker.Provision, Broker.Update and Broker.Deprovision: the acceptsIncomplete flag is unused in the source. Each returns "not asynchronous".
- Differences between the source files:
  - broker.go:38 reads `config.SQSPrefix`, while config.go declares the field `QueuePrefix`.
  - broker.go:183 takes two results from `user.Create`, while awsiam/user.go declares one (the error).
  - broker.go:90 takes two results from `queue.Create`, matching awssqs/queue.go but not sqs_queue.go.
  - awssqs/queue.go declares `Create` with a string result, while sqs_queue.go's `Create` returns only an error.

  The model follows the code paths of broker.go, sqs_queue.go and iam_user.go, with a single prefix and a `Create` that returns only an error.
