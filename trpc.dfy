/** The error shapes a tRPC procedure reports to its caller. */
module Trpc {

  /** The codes the routers use. */
  datatype ErrorCode = BadRequest | Unauthorized | InternalServerError

  datatype ApiError =
    /** A thrown TRPCError, or a plain Error, which tRPC reports as
        INTERNAL_SERVER_ERROR carrying the Error's message. */
    | Failure(code: ErrorCode, message: string)
    /** The zod input schema rejected the input: BAD_REQUEST with one
        message per failed check, in schema order. */
    | InputInvalid(issues: seq<string>)
  {
    function Code(): ErrorCode {
      if InputInvalid? then BadRequest else code
    }
  }

  /** `throw new Error(message)` inside a procedure. */
  function Thrown(message: string): (e: ApiError)
    ensures e.Code() == InternalServerError && e.message == message
  {
    Failure(InternalServerError, message)
  }

  /** What a protected procedure reports when the session has no user. */
  const SessionRequired: ApiError := Failure(Unauthorized, "UNAUTHORIZED")
}
