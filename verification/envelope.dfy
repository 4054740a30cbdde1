/** The uniform response envelope of the platform backend: every service
    operation answers either with a success payload or with a failure that
    carries an HTTP status and a machine-readable error code. */
module Envelope {

  datatype Option<+T> = None | Some(value: T)

  /** The error codes the campaign and application operations report. */
  datatype ErrorCode =
    | CampaignNotFound
    | Unauthorized
    | CreateFailed
    | UpdateFailed
    | ApplicationFailed
    | FetchFailed

  datatype Result<+T> = Success(value: T) | Failure(status: int, code: ErrorCode)

  const BadRequest := 400
  const Forbidden := 403
  const NotFound := 404
  const ServerError := 500
}
