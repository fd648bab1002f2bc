/**
 * The properties controller: each action calls the service once and maps what the call did
 * (returned a value, returned null, or threw) to an envelope, always under HTTP 200.
 */
module Controllers {
  import opened Wrappers
  import opened Entities
  import opened Envelope

  const STATUS_OK: int := 200
  const NOT_FOUND_ERROR: string := "Propiedad no encontrada"

  /** What a service call did: returned a value, or threw an exception with a message. */
  datatype ServiceCall<T> = Returned(value: T) | Threw(message: string)

  /** An action's result: the status code and the envelope it carries. */
  datatype ActionResult<T> = ActionResult(statusCode: int, body: ApiResponse<T>)

  /** `Ok(body)`. */
  function Ok<T>(body: ApiResponse<T>): (r: ActionResult<T>)
    ensures r.statusCode == STATUS_OK && r.body == body
  {
    ActionResult(STATUS_OK, body)
  }

  /** A failed store write surfaces to the controller as a thrown exception carrying its message. */
  function FromResult<T>(r: Result<T, string>): (c: ServiceCall<T>)
    ensures r.Success? <==> c.Returned?
    ensures r.Success? ==> c.value == r.value
    ensures r.Failure? ==> c.message == r.error
  {
    match r
    case Success(v) => Returned(v)
    case Failure(e) => Threw(e)
  }

  /** GET /api/properties. */
  function GetProperties(call: ServiceCall<seq<PropertyDto>>): (r: ActionResult<seq<PropertyDto>>)
    ensures r.statusCode == STATUS_OK
    ensures r.body.success <==> call.Returned?
    ensures call.Returned? ==> r.body.data == Some(call.value) && r.body.message == "Propiedades obtenidas exitosamente"
    ensures call.Threw? ==> r.body.error == call.message && r.body.message == "Error al obtener propiedades"
  {
    match call
    case Returned(ps) => Ok(SuccessResult(ps, "Propiedades obtenidas exitosamente"))
    case Threw(m) => Ok(ErrorResult(m, "Error al obtener propiedades"))
  }

  /** GET /api/properties/{id}: a null result is reported as not found. */
  function GetProperty(call: ServiceCall<Option<PropertyDto>>): (r: ActionResult<PropertyDto>)
    ensures r.statusCode == STATUS_OK
    ensures r.body.success <==> call.Returned? && call.value.Some?
    ensures call.Returned? && call.value.Some? ==>
      r.body.data == call.value && r.body.message == "Propiedad obtenida exitosamente"
    ensures call.Returned? && call.value.None? ==>
      r.body.error == NOT_FOUND_ERROR && r.body.message == "No se encontró la propiedad solicitada"
    ensures call.Threw? ==> r.body.error == call.message && r.body.message == "Error al obtener la propiedad"
  {
    match call
    case Returned(None) => Ok(ErrorResult(NOT_FOUND_ERROR, "No se encontró la propiedad solicitada"))
    case Returned(Some(p)) => Ok(SuccessResult(p, "Propiedad obtenida exitosamente"))
    case Threw(m) => Ok(ErrorResult(m, "Error al obtener la propiedad"))
  }

  /** POST /api/properties. */
  function CreateProperty(call: ServiceCall<PropertyDto>): (r: ActionResult<PropertyDto>)
    ensures r.statusCode == STATUS_OK
    ensures r.body.success <==> call.Returned?
    ensures call.Returned? ==> r.body.data == Some(call.value) && r.body.message == "Propiedad creada exitosamente"
    ensures call.Threw? ==> r.body.error == call.message && r.body.message == "Error al crear la propiedad"
  {
    match call
    case Returned(p) => Ok(SuccessResult(p, "Propiedad creada exitosamente"))
    case Threw(m) => Ok(ErrorResult(m, "Error al crear la propiedad"))
  }

  /** PUT /api/properties/{id}: a null result is reported as not found. */
  function UpdateProperty(call: ServiceCall<Option<PropertyDto>>): (r: ActionResult<PropertyDto>)
    ensures r.statusCode == STATUS_OK
    ensures r.body.success <==> call.Returned? && call.value.Some?
    ensures call.Returned? && call.value.Some? ==>
      r.body.data == call.value && r.body.message == "Propiedad actualizada exitosamente"
    ensures call.Returned? && call.value.None? ==>
      r.body.error == NOT_FOUND_ERROR && r.body.message == "No se encontró la propiedad para actualizar"
    ensures call.Threw? ==> r.body.error == call.message && r.body.message == "Error al actualizar la propiedad"
  {
    match call
    case Returned(None) => Ok(ErrorResult(NOT_FOUND_ERROR, "No se encontró la propiedad para actualizar"))
    case Returned(Some(p)) => Ok(SuccessResult(p, "Propiedad actualizada exitosamente"))
    case Threw(m) => Ok(ErrorResult(m, "Error al actualizar la propiedad"))
  }

  /** DELETE /api/properties/{id}: false is reported as not found, true as data `true`. */
  function DeleteProperty(call: ServiceCall<bool>): (r: ActionResult<bool>)
    ensures r.statusCode == STATUS_OK
    ensures r.body.success <==> call.Returned? && call.value
    ensures r.body.success ==> r.body.data == Some(true) && r.body.message == "Propiedad eliminada exitosamente"
    ensures call.Returned? && !call.value ==>
      r.body.error == NOT_FOUND_ERROR && r.body.message == "No se encontró la propiedad para eliminar"
    ensures call.Threw? ==> r.body.error == call.message && r.body.message == "Error al eliminar la propiedad"
  {
    match call
    case Returned(false) => Ok(ErrorResult(NOT_FOUND_ERROR, "No se encontró la propiedad para eliminar"))
    case Returned(true) => Ok(SuccessResult(true, "Propiedad eliminada exitosamente"))
    case Threw(m) => Ok(ErrorResult(m, "Error al eliminar la propiedad"))
  }

  /** Every envelope an action produces has the factories' shape. */
  lemma ActionsWellFormed(
    list: ServiceCall<seq<PropertyDto>>, one: ServiceCall<Option<PropertyDto>>,
    created: ServiceCall<PropertyDto>, deleted: ServiceCall<bool>)
    ensures WellFormed(GetProperties(list).body) && WellFormed(GetProperty(one).body)
    ensures WellFormed(CreateProperty(created).body) && WellFormed(UpdateProperty(one).body)
    ensures WellFormed(DeleteProperty(deleted).body)
  {
  }

  /**
   * A thrown exception never escapes an action: whatever the action, the result is a 200
   * whose envelope failed with the exception's message as its error.
   */
  lemma ExceptionsBecomeFailedEnvelopes(message: string)
    ensures var a := GetProperties(Threw(message));
      a.statusCode == STATUS_OK && !a.body.success && a.body.error == message
    ensures var a := GetProperty(Threw(message));
      a.statusCode == STATUS_OK && !a.body.success && a.body.error == message
    ensures var a := CreateProperty(Threw(message));
      a.statusCode == STATUS_OK && !a.body.success && a.body.error == message
    ensures var a := UpdateProperty(Threw(message));
      a.statusCode == STATUS_OK && !a.body.success && a.body.error == message
    ensures var a := DeleteProperty(Threw(message));
      a.statusCode == STATUS_OK && !a.body.success && a.body.error == message
  {
  }
}
