/**
 * The error taxonomy of the activities. Every error the activities build
 * themselves is a non-retryable application error with a code; every other
 * error (one the database driver returns) is a plain error, which the
 * workflow engine retries.
 */
module Errors {

  /** Codes of the non-retryable application errors: "INVALID-DATA", "NOT_FOUND", "DB-ERROR", "WORKFLOW_ERROR". */
  datatype Code = InvalidData | NotFound | DbError | WorkflowError

  /** Why the database driver failed, for the plain errors passed through unchanged. */
  datatype Cause =
    | Unavailable          // the statement could not be executed
    | NoRows               // Scan on a query that matched no row, when the driver reports it
    | ConstraintViolation  // an insert the schema refuses

  datatype Error = Application(code: Code) | Plain(cause: Cause)

  /** Only plain errors are retried by the activity retry policy. */
  predicate Retryable(e: Error) {
    e.Plain?
  }
}
