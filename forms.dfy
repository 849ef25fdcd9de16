/**
 * What the configuration form provider of either skill answers: the JSON
 * Schema of the configuration, the UI schema that tells the platform how to
 * render it, the pre-filled form data and whether the form may be saved; or
 * a rejection carrying an error name and message.
 */
module Forms {
  import opened JsValues

  datatype FormState = FormState(
    schema: Value,
    uiSchema: Value,
    formData: Object,
    isFormSubmittable: bool)

  /**
   * The error names the providers reject with.  The name given to an
   * undefined configuration never reaches the caller: it is thrown inside the
   * provider's `try` and the `catch` renames it `UnexpectedError`.
   */
  datatype ErrorName = EventError | UnexpectedError

  datatype FormError = FormError(name: ErrorName, message: string)

  // The English texts of the messages (the only locale either skill ships).
  const ConfigurationIsNotValidMessage: string := "The configuration is not valid"
  const EventErrorMessage: string := "is not a valid event in the configuration of this skill"

  /** The rejection of an undefined configuration, after the `catch` renamed it. */
  function InvalidConfiguration(): (e: FormError)
    ensures e.name == UnexpectedError && e.message == ConfigurationIsNotValidMessage
  {
    FormError(UnexpectedError, ConfigurationIsNotValidMessage)
  }

  /** The rejection of an event no `case` handles: the message starts with the event's name. */
  function UnsupportedEvent(event: string): (e: FormError)
    ensures e.name == EventError
    ensures e.message == event + " " + EventErrorMessage
    ensures |e.message| > |event| && e.message[..|event|] == event
  {
    FormError(EventError, event + " " + EventErrorMessage)
  }
}
