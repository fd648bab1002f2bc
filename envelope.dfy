/** The uniform response envelope `{success, data, message, error}` and its two factories. */
module Envelope {
  import opened Wrappers

  const DEFAULT_SUCCESS_MESSAGE: string := "Operación exitosa"
  const DEFAULT_ERROR_MESSAGE: string := "Error en la operación"

  /**
   * `ApiResponse<T>`. `data == None` stands for `default(T)`: null for a reference type,
   * `false` for `bool`.
   */
  datatype ApiResponse<T> = ApiResponse(success: bool, data: Option<T>, message: string, error: string)

  /** A default-constructed envelope. */
  function EmptyResponse<T>(): (r: ApiResponse<T>)
    ensures !r.success && r.data == None
    ensures r.message == "" && r.error == ""
  {
    ApiResponse(false, None, "", "")
  }

  /** `SuccessResult(data, message)`: flagged successful, carrying the data and no error. */
  function SuccessResult<T>(data: T, message: string := DEFAULT_SUCCESS_MESSAGE): (r: ApiResponse<T>)
    ensures r.success && r.data == Some(data)
    ensures r.message == message && r.error == ""
  {
    ApiResponse(true, Some(data), message, "")
  }

  /** `ErrorResult(error, message)`: flagged failed, with the default data and the given error. */
  function ErrorResult<T>(error: string, message: string := DEFAULT_ERROR_MESSAGE): (r: ApiResponse<T>)
    ensures !r.success && r.data == None
    ensures r.message == message && r.error == error
  {
    ApiResponse(false, None, message, error)
  }

  /** The envelope shape the factories produce: data exactly when successful, no error text on success. */
  predicate WellFormed<T>(r: ApiResponse<T>)
  {
    if r.success then r.data.Some? && r.error == "" else r.data.None?
  }

  /** Both factories produce well-formed envelopes, and each is recognised by its flag alone. */
  lemma FactoriesWellFormed<T>(data: T, error: string, m1: string, m2: string)
    ensures WellFormed(SuccessResult(data, m1)) && WellFormed(ErrorResult<T>(error, m2))
    ensures SuccessResult(data, m1) != ErrorResult<T>(error, m2)
  {
  }

  /** The default messages, when a caller gives none. */
  lemma DefaultMessages<T>(data: T, error: string)
    ensures SuccessResult(data).message == "Operación exitosa"
    ensures ErrorResult<T>(error).message == "Error en la operación"
  {
  }

  /**
   * An error envelope need not carry error text: `ErrorResult("")` is well formed and failed,
   * yet its `error` is empty.
   */
  lemma FailedEnvelopeMayLackErrorText<T>()
    ensures var r := ErrorResult<T>("", DEFAULT_ERROR_MESSAGE); WellFormed(r) && !r.success && r.error == ""
  {
  }
}
