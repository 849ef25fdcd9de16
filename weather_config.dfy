/**
 * The configuration side of the weather skill: a reduced form provider
 * (an API key and a number of forecast hours), and input and output schemas
 * and a usage snippet that do not depend on the configuration.
 */
module WeatherConfig {
  import opened JsValues
  import opened Forms

  /** `schema_init` */
  function Schema(): Value {
    Obj(map[
      "type" := Str("object"),
      "title" := Str("Weather report configurator"),
      "description" := Str("Set up how you want to receive your weather report."),
      "required" := Arr([Str("api_key")]),
      "properties" := Obj(map[
        "api_key" := Obj(map["title" := Str("API Key"), "type" := Str("string")]),
        "number_of_hours" := Obj(map[
          "title" := Str("Get prediction for ... hours"),
          "type" := Str("integer"),
          "minimum" := Num(3),
          "maximum" := Num(36),
          "multipleOf" := Num(3)])])])
  }

  /** A field that asks the platform to call the provider again with `updateValues`. */
  function TriggersUpdate(): Value {
    Obj(map["triggerEvent" := Str("updateValues")])
  }

  /** `uiSchema_init` */
  function UiSchema(): Value {
    Obj(map[
      "api_key" := Obj(map["ui:autofocus" := Bool(true), "ui:options" := TriggersUpdate()]),
      "number_of_hours" := Obj(map["ui:widget" := Str("range"), "ui:options" := TriggersUpdate()])])
  }

  /** `formData_init` */
  function DefaultFormData(): Object {
    map["api_key" := Str(""), "number_of_hours" := Num(6)]
  }

  predicate IsFormEvent(event: string) {
    event == "init" || event == "reopen" || event == "updateValues"
  }

  /** `{...formData, ...configuration}`: every configuration key, and a default for each key it lacks. */
  function MergedFormData(configuration: Object): (formData: Object)
    ensures formData.Keys == configuration.Keys + {"api_key", "number_of_hours"}
    ensures forall k :: k in configuration ==> formData[k] == configuration[k]
    ensures "api_key" !in configuration ==> formData["api_key"] == Str("")
    ensures "number_of_hours" !in configuration ==> formData["number_of_hours"] == Num(6)
  {
    DefaultFormData() + configuration
  }

  /**
   * `form(configuration, event, locale)`; `None` stands for an undefined
   * configuration.  The form can be saved once an API key is given, except
   * on `init`.
   */
  function Form(configuration: Option<Object>, event: string): (r: Result<FormState, FormError>)
    ensures configuration.None? ==> r == Failure(InvalidConfiguration())
    ensures configuration.Some? && !IsFormEvent(event) ==> r == Failure(UnsupportedEvent(event))
    ensures r.Success? <==> configuration.Some? && IsFormEvent(event)
    ensures r.Success? ==> r.value.schema == Schema() && r.value.uiSchema == UiSchema()
    ensures r.Success? ==>
              (r.value.isFormSubmittable <==> event != "init" && Truthy(Get(configuration.value, "api_key")))
    ensures r.Success? && event != "updateValues" ==> r.value.formData == MergedFormData(configuration.value)
    ensures r.Success? && event == "updateValues" ==> r.value.formData == configuration.value
  {
    if configuration.None? then Failure(InvalidConfiguration())
    else
      var configuration := configuration.value;
      match event
      case "init" =>
        Success(FormState(Schema(), UiSchema(), MergedFormData(configuration), false))
      case "reopen" =>
        Success(FormState(Schema(), UiSchema(), MergedFormData(configuration), Truthy(Get(configuration, "api_key"))))
      case "updateValues" =>
        Success(FormState(Schema(), UiSchema(), configuration, Truthy(Get(configuration, "api_key"))))
      case _ =>
        Failure(UnsupportedEvent(event))
  }

  /** `updateValues` drops the defaults: a key missing from the configuration is missing from the form data. */
  lemma UpdateValuesDropsDefaults(configuration: Object)
    requires "number_of_hours" !in configuration
    ensures Form(Some(configuration), "updateValues").Success?
    ensures "number_of_hours" !in Form(Some(configuration), "updateValues").value.formData
    ensures Form(Some(configuration), "reopen").value.formData["number_of_hours"] == Num(6)
  {
  }

  /** `inputSchema(configuration)` */
  function InputSchema(configuration: Object): Value {
    Obj(map["$schema" := Str("http://json-schema.org/draft-07/schema#"), "title" := Str("Skill input schema")])
  }

  /** `outputSchema(configuration)` */
  function OutputSchema(configuration: Object): Value {
    Obj(map["$schema" := Str("http://json-schema.org/draft-07/schema#"), "title" := Str("Skill output schema")])
  }

  /** `snippet(configuration)` */
  function Snippet(configuration: Object): string {
    "// Snippet code to get and execute a skill\n" +
    "const skill = task.getSkill(\"<SKILL_NAME>\");\n" +
    "const result = await skill.execute(<SKILL_INPUT>);\n" +
    "task.context.logger.info(result);\n" +
    "return result;"
  }

  /** Nothing the weather skill declares depends on its configuration, nor does the form's schema on the event. */
  lemma DeclarationsIgnoreConfiguration(c1: Object, c2: Object, e1: string, e2: string)
    requires IsFormEvent(e1) && IsFormEvent(e2)
    ensures InputSchema(c1) == InputSchema(c2)
    ensures OutputSchema(c1) == OutputSchema(c2)
    ensures Snippet(c1) == Snippet(c2)
    ensures Form(Some(c1), e1).value.schema == Form(Some(c2), e2).value.schema
    ensures Form(Some(c1), e1).value.uiSchema == Form(Some(c2), e2).value.uiSchema
  {
  }
}
