/** What an invocation can throw. The handler never catches anything for good: every
    fault ends the invocation and reaches the Lambda host. */
module Errors {
  import opened Js

  /** An error object rejected by the Secrets Manager client; only its `code` is read. */
  datatype AwsError = AwsError(code: JsValue)

  datatype Fault =
    | SecretsFault(error: AwsError)   // re-thrown Secrets Manager rejection, unchanged
    | SyntaxFault                     // `JSON.parse` rejected the secret text
    | TypeFault                       // property read on null/undefined, or an unusable Buffer input
    | RequestFault(reason: JsValue)   // rejection of the upstream HTTPS request
}
