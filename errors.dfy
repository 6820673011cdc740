// Errors shared by the SQS adapter, the IAM adapter and the broker, and the
// one error translation that every IAM operation and SQS queue creation use.
module Errors {
  datatype Option<T> = None | Some(value: T)

  datatype Result<T> = Ok(value: T) | Err(error: Error)

  /** An error as the cloud SDK hands it to an adapter, in the three shapes the
      adapters tell apart. */
  datatype SdkError =
    | RequestFailure(code: string, message: string, status: int)  // awserr.RequestFailure (also an awserr.Error)
    | AwsError(code: string, message: string)                      // an awserr.Error without an HTTP status
    | Other(cause: Error)                                           // any other Go error value

  /** An error as the adapters and the broker return it.  Sentinels are
      constructors, so comparing with `==` is Go's comparison by identity. */
  datatype Error =
    | QueueDoesNotExist                       // awssqs.ErrQueueDoesNotExist, "sqs queue does not exist"
    | UserDoesNotExist                        // awsiam.ErrUserDoesNotExist, "iam user does not exist"
    | InstanceDoesNotExist                    // brokerapi.ErrInstanceDoesNotExist
    | InstanceNotUpdateable                   // brokerapi.ErrInstanceNotUpdateable
    | InstanceNotBindable                     // brokerapi.ErrInstanceNotBindable
    | Text(message: string)                   // a fresh errors.New / fmt.Errorf value
    | DecodeFailure(mismatches: seq<Mismatch>) // the decoder's error: every parameter of the wrong type

  /** One field the parameter decoder could not fill: its key, and the type of
      the value it found there. */
  datatype Mismatch = Mismatch(key: string, got: string)

  predicate IsAws(e: SdkError) {
    e.RequestFailure? || e.AwsError?
  }

  /** An AWS error becomes the text "code: message"; every other error is
      passed through unchanged.  The HTTP status is never looked at. */
  function TranslateAwsError(e: SdkError): (r: Error)
    ensures IsAws(e) ==> r == Text(e.code + ": " + e.message)
    ensures !IsAws(e) ==> r == e.cause
    ensures r == UserDoesNotExist ==> e == Other(UserDoesNotExist)
    ensures r == QueueDoesNotExist ==> e == Other(QueueDoesNotExist)
  {
    match e
    case RequestFailure(code, message, _) => Text(code + ": " + message)
    case AwsError(code, message) => Text(code + ": " + message)
    case Other(cause) => cause
  }

  /** The status code of a request failure does not change its translation:
      a failure with any status reads exactly like the plain AWS error. */
  lemma TranslationIgnoresStatus(code: string, message: string, status: int)
    ensures TranslateAwsError(RequestFailure(code, message, status)) == TranslateAwsError(AwsError(code, message))
    ensures TranslateAwsError(AwsError(code, message)).Text?
  {
  }
}
