/**
 * Outcomes shared by every part of the provider: an optional value, a result
 * that is either a value or an error, and the errors the provider raises.
 *
 * Go reports failure as a second `error` return; here every fallible
 * operation returns a `Result`, and each distinct `fmt.Errorf` message of the
 * source is a distinct `Error` constructor, so that properties can say WHICH
 * error an operation reports.
 */
module Errors {

  datatype Option<T> = None | Some(value: T)

  /** Failure-compatible, so that `:-` gives Go's early `return ..., err`. */
  datatype Result<T> = Ok(value: T) | Err(error: Error) {
    predicate IsFailure() {
      Err?
    }

    function PropagateFailure<U>(): Result<U>
      requires Err?
    {
      Err(error)
    }

    function Extract(): T
      requires Ok?
    {
      value
    }
  }

  /** fmt.Errorf("<context>: %v", err) around whatever error `r` carries. */
  function WithContext<T>(r: Result<T>, context: string): (w: Result<T>)
    ensures r.Ok? ==> w == r
    ensures r.Err? ==> w == Err(Context(context, r.error))
  {
    if r.Ok? then r else Err(Context(context, r.error))
  }

  /** What a vendor client call can fail with. */
  datatype VendorFailure =
    | GrpcNotFound                 // a gRPC status whose code is NotFound
    | BucketNotExist               // storage.ErrBucketNotExist
    | OtherFailure(message: string)

  datatype Error =
    // the orchestrator's distinguished "does not exist" condition
    | NotFound
    // a generated handler whose capability is nil
    | Unimplemented
    // failures of the value library's accessors (sdk.Map, sdk.String, ...)
    | NotAMap
    | NotAString
    | NotABool
    | NotAList
    | NotAStringMap
    | NotAFileList
    // fmt.Errorf("<context>: %v", cause)
    | Context(context: string, cause: Error)
    // identifier registry
    | ExpectedIdentifier
    | InvalidResourceType(tag: string)
    // generated Parse*List
    | InvalidListType
    // IAM policy codec
    | UnsupportedMember(member: string)
    | InvalidServiceAccountEmail(member: string)
    | InvalidPredefinedRole(role: string)
    | InvalidCustomRole(role: string)
    | UnsupportedRoleType
    | UnsupportedMemberType
    | UnsupportedIdentifierType
    | InvalidIdentifierType
    // bucket labels
    | ExpectedStringLabel(key: string)
    | LabelMissing(key: string)
    | LabelNotString(key: string)
    // custom project roles
    | InvalidLaunchStage(stage: string)
    // API gateway
    | InvalidApiConfigName(name: string)
    | ExpectedApiConfigIdentifier
    | ExpectedApiIdentifier
    // API config
    | ApiFieldNotApiIdentifier
    | ServiceAccountFieldNotServiceAccountIdentifier
    | FileReadFailed(path: string)
    // anything a vendor client returns
    | Vendor(failure: VendorFailure)
}
