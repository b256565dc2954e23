/**
 * The frontend's API error classes (`errors.ts`) and the message the UI shows
 * for a caught value. Each class is a kind of `ApiFailure`; its constructor is
 * a function that fixes the status, code and name. A field record is a list of
 * (field, message) pairs in insertion order.
 */
module Errors {
  import opened Common

  datatype ApiKind = BaseApi | Validation | NotFound | Conflict | Network

  /** A value an API call may throw: an `ApiError` of some kind, a plain `Error`, or anything else. */
  datatype Failure =
    | ApiFailure(kind: ApiKind, name: string, message: string, status: int, code: Option<string>,
                 fields: Option<seq<(string, string)>>)
    | PlainError(message: string)
    | NonError

  /** `new ApiError(message, status, code)`. */
  function NewApiError(message: string, status: int, code: Option<string>): (r: Failure)
    ensures r.ApiFailure? && r.kind == BaseApi && r.name == "ApiError"
    ensures r.message == message && r.status == status && r.code == code && r.fields.None?
  {
    ApiFailure(BaseApi, "ApiError", message, status, code, None)
  }

  /** `new ValidationError(message, fields)`: status 400, code VALIDATION_ERROR. */
  function NewValidationError(message: string, fields: Option<seq<(string, string)>>): (r: Failure)
    ensures r.ApiFailure? && r.kind == Validation && r.name == "ValidationError"
    ensures r.message == message && r.status == 400 && r.code == Some("VALIDATION_ERROR") && r.fields == fields
  {
    ApiFailure(Validation, "ValidationError", message, 400, Some("VALIDATION_ERROR"), fields)
  }

  /** `new NotFoundError(resource, id)`: status 404, code NOT_FOUND, message `<resource> not found: <id>`. */
  function NewNotFoundError(resource: string, id: string): (r: Failure)
    ensures r.ApiFailure? && r.kind == NotFound && r.name == "NotFoundError"
    ensures r.message == resource + " not found: " + id && r.status == 404 && r.code == Some("NOT_FOUND")
    ensures r.fields.None?
  {
    ApiFailure(NotFound, "NotFoundError", resource + " not found: " + id, 404, Some("NOT_FOUND"), None)
  }

  /** `new ConflictError(message)`: status 409, code CONFLICT. */
  function NewConflictError(message: string): (r: Failure)
    ensures r.ApiFailure? && r.kind == Conflict && r.name == "ConflictError"
    ensures r.message == message && r.status == 409 && r.code == Some("CONFLICT") && r.fields.None?
  {
    ApiFailure(Conflict, "ConflictError", message, 409, Some("CONFLICT"), None)
  }

  const DefaultNetworkMessage := "Network error - please check your connection"

  /** `new NetworkError(message?)`: status 0, code NETWORK_ERROR, the connection hint when no message is given. */
  function NewNetworkError(message: Option<string>): (r: Failure)
    ensures r.ApiFailure? && r.kind == Network && r.name == "NetworkError"
    ensures r.status == 0 && r.code == Some("NETWORK_ERROR") && r.fields.None?
    ensures r.message == (if message.Some? then message.value else DefaultNetworkMessage)
  {
    ApiFailure(Network, "NetworkError", if message.Some? then message.value else DefaultNetworkMessage,
               0, Some("NETWORK_ERROR"), None)
  }

  /** The four subclasses carry four different statuses and codes. */
  lemma SubclassStatusesDistinct(m1: string, f: Option<seq<(string, string)>>, res: string, id: string,
                                 m2: string, m3: Option<string>)
    ensures var statuses := [NewValidationError(m1, f).status, NewNotFoundError(res, id).status,
                             NewConflictError(m2).status, NewNetworkError(m3).status];
      forall i, j :: 0 <= i < j < 4 ==> statuses[i] != statuses[j]
    ensures var codes := [NewValidationError(m1, f).code, NewNotFoundError(res, id).code,
                          NewConflictError(m2).code, NewNetworkError(m3).code];
      forall i, j :: 0 <= i < j < 4 ==> codes[i] != codes[j]
  {
  }

  /** `Object.values(fields)`. */
  function FieldMessages(fields: seq<(string, string)>): (r: seq<string>)
    ensures |r| == |fields| && forall i :: 0 <= i < |r| ==> r[i] == fields[i].1
  {
    seq(|fields|, i requires 0 <= i < |fields| => fields[i].1)
  }

  const UnexpectedMessage := "An unexpected error occurred"

  /**
   * `getErrorMessage`: the field messages joined by ", " for a validation
   * error that has some, the error's own message for any other error, and a
   * fixed text for anything that is not an error.
   */
  function GetErrorMessage(error: Failure): (r: string)
    ensures error.ApiFailure? && error.kind == Validation && error.fields.Some? && |error.fields.value| > 0
      ==> r == Join(FieldMessages(error.fields.value), ", ")
    ensures error.ApiFailure? && !(error.kind == Validation && error.fields.Some? && |error.fields.value| > 0)
      ==> r == error.message
    ensures error.PlainError? ==> r == error.message
    ensures error.NonError? ==> r == UnexpectedMessage
  {
    if error.ApiFailure? && error.kind == Validation && error.fields.Some? && |error.fields.value| > 0 then
      Join(FieldMessages(error.fields.value), ", ")
    else if error.ApiFailure? then error.message
    else if error.PlainError? then error.message
    else UnexpectedMessage
  }

  /** One field error is shown as that field's message alone. */
  lemma OneFieldMessage(message: string, field: string, text: string)
    ensures GetErrorMessage(NewValidationError(message, Some([(field, text)]))) == text
  {
    assert FieldMessages([(field, text)]) == [text];
  }

  /** A validation error without field errors falls back to its own message. */
  lemma NoFieldsOwnMessage(message: string, fields: Option<seq<(string, string)>>)
    requires fields.None? || fields.value == []
    ensures GetErrorMessage(NewValidationError(message, fields)) == message
  {
  }

  /** A missing node is reported as `<resource> not found: <id>`. */
  lemma NotFoundMessage(resource: string, id: string)
    ensures GetErrorMessage(NewNotFoundError(resource, id)) == resource + " not found: " + id
  {
  }

  /** A network error built without a message shows the connection hint. */
  lemma NetworkDefaultMessage()
    ensures GetErrorMessage(NewNetworkError(None)) == DefaultNetworkMessage
  {
  }
}
