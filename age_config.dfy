/**
 * The configuration side of the age-estimation skill: the form provider that
 * the platform calls while a user edits the configuration, and the input and
 * output schemas and the usage snippet derived from a configuration.
 *
 * The configuration decides whether the estimate is made for a country
 * (`useCountry` is the string "true" or "false") and, if so, whether the
 * country code is fixed in the configuration (`countryRetrievalMethod` is
 * "set", with the code in `countryId`) or given with each call ("provide").
 * The ISO 3166-1 alpha-2 code list is a parameter, `codes`.
 */
module AgeConfig {
  import opened JsValues
  import opened Forms

  const SetInConfiguration: string := "set"
  const ProvidedAtRuntime: string := "provide"

  // ---------------------------------------------------------------------------
  // Reading the configuration

  /** `configuration.useCountry === 'true'` */
  predicate UsesCountry(configuration: Object) {
    Get(configuration, "useCountry") == Str("true")
  }

  /** `configuration.countryRetrievalMethod === 'set'` */
  predicate CountrySetInConfiguration(configuration: Object) {
    Get(configuration, "countryRetrievalMethod") == Str(SetInConfiguration)
  }

  /** `configuration.countryRetrievalMethod === 'provide'` */
  predicate CountryProvidedAtRuntime(configuration: Object) {
    Get(configuration, "countryRetrievalMethod") == Str(ProvidedAtRuntime)
  }

  /** The input of each call must carry the country code. */
  predicate CountryFromInput(configuration: Object) {
    UsesCountry(configuration) && CountryProvidedAtRuntime(configuration)
  }

  /** The configuration fixes a country code that is not an ISO 3166-1 alpha-2 code. */
  predicate CountryIdRejected(configuration: Object, codes: set<string>) {
    && UsesCountry(configuration)
    && CountrySetInConfiguration(configuration)
    && !Includes(codes, Get(configuration, "countryId"))
  }

  predicate IsFormEvent(event: string) {
    event == "init" || event == "reopen" || event == "changeCountryOption"
  }

  // ---------------------------------------------------------------------------
  // The fixed parts of the form (English texts)

  const CountryIdErrorText: string := "is not a valid country ID. Only ISO 3166-1 alpha-2 codes are supported."

  function StringEnum(values: seq<string>): Value {
    Arr(seq(|values|, i requires 0 <= i < |values| => Str(values[i])))
  }

  /** One branch of a `oneOf`: the property `name` takes exactly `value`. */
  function EnumBranch(name: string, value: string): Value {
    Obj(map[name := Obj(map["enum" := StringEnum([value])])])
  }

  function CountryIdDeclaration(): Value {
    Obj(map["title" := Str("Country"), "type" := Str("string")])
  }

  /** The branch taken when the country is fixed in the configuration: `countryId` is required. */
  function CountryIdBranch(): Value {
    Obj(map[
      "properties" := Obj(map[
        "countryRetrievalMethod" := Obj(map["enum" := StringEnum([SetInConfiguration])]),
        "countryId" := CountryIdDeclaration()]),
      "required" := StringEnum(["countryId"])])
  }

  /** The branch taken when a country is used: a retrieval method is required, and it has its own branches. */
  function UseCountryBranch(): Value {
    Obj(map[
      "properties" := Obj(map[
        "useCountry" := Obj(map["enum" := StringEnum(["true"])]),
        "countryRetrievalMethod" := Obj(map[
          "title" := Str("How do you want the country to be provided?"),
          "type" := Str("string"),
          "enum" := StringEnum([SetInConfiguration, ProvidedAtRuntime]),
          "enumNames" := StringEnum(["Set the country now", "Set the country at runtime"]),
          "default" := Str(SetInConfiguration)])]),
      "required" := StringEnum(["countryRetrievalMethod"]),
      "dependencies" := Obj(map[
        "countryRetrievalMethod" := Obj(map[
          "oneOf" := Arr([
            CountryIdBranch(),
            Obj(map["properties" := EnumBranch("countryRetrievalMethod", ProvidedAtRuntime)])])])])])
  }

  /** `schema_init`: the conditional configuration schema. */
  function BaseSchema(): Value {
    Obj(map[
      "type" := Str("object"),
      "description" := Str("Specify whether you want to estimate the age for a given country or not."),
      "properties" := Obj(map[
        "useCountry" := Obj(map[
          "type" := Str("string"),
          "enum" := StringEnum(["true", "false"]),
          "enumNames" := StringEnum([
            "Estimate the average age of a person for a given country",
            "Estimate the average age of a person for a given country"])]),
        "link" := Obj(map[
          "type" := Str("string"),
          "title" := Str("See the available data"),
          "description" := Str("Don't know whether to choose a specific country or not?"),
          "url" := Str("https://agify.io/our-data")])]),
      "required" := StringEnum(["useCountry"]),
      "dependencies" := Obj(map[
        "useCountry" := Obj(map[
          "oneOf" := Arr([
            UseCountryBranch(),
            Obj(map["properties" := EnumBranch("useCountry", "false")])])])])])
  }

  /** A field that asks the platform to call the provider again with `changeCountryOption`. */
  function TriggersCountryEvent(): Value {
    Obj(map["triggerEvent" := Str("changeCountryOption")])
  }

  /** `uiSchema_init` */
  function UiSchema(): Value {
    Obj(map[
      "useCountry" := Obj(map["ui:widget" := Str("CheckboxWidget"), "ui:options" := TriggersCountryEvent()]),
      "link" := Obj(map["ui:field" := Str("LinkField")]),
      "countryRetrievalMethod" := Obj(map["ui:widget" := Str("radio"), "ui:options" := TriggersCountryEvent()]),
      "countryId" := Obj(map[
        "ui:placeholder" := Str("Enter the country ID in ISO 3166-1 alpha-2 format. For example: US."),
        "ui:options" := TriggersCountryEvent()])])
  }

  /** `formData_init` */
  function DefaultFormData(): Object {
    map["useCountry" := Str("false")]
  }

  /** `dependencies.useCountry.oneOf[0]`: from the base schema to the branch that uses a country. */
  const UseCountryBranchPath: seq<Step> := [Key("dependencies"), Key("useCountry"), Key("oneOf"), At(0)]

  /** `dependencies.countryRetrievalMethod.oneOf[0]`: from there to the branch that fixes the country. */
  const CountryIdBranchPath: seq<Step> := [Key("dependencies"), Key("countryRetrievalMethod"), Key("oneOf"), At(0)]

  const CountryIdPropertyPath: seq<Step> := [Key("properties"), Key("countryId")]

  /** `dependencies.useCountry.oneOf[0].dependencies.countryRetrievalMethod.oneOf[0].properties.countryId` */
  const CountryIdPath: seq<Step> := UseCountryBranchPath + CountryIdBranchPath + CountryIdPropertyPath

  const CountryIdErrorPath: seq<Step> := CountryIdPath + [Key("error")]

  /** One step of a path into an object. */
  lemma KeyStep(f: Object, k: string, p: seq<Step>)
    requires k in f
    ensures GetPath(Obj(f), [Key(k)] + p) == GetPath(f[k], p)
    ensures Exists(Obj(f), [Key(k)] + p) == Exists(f[k], p)
  {
    assert ([Key(k)] + p)[1..] == p;
  }

  /** One step of a path into an array. */
  lemma AtStep(a: seq<Value>, i: nat, p: seq<Step>)
    requires i < |a|
    ensures GetPath(Arr(a), [At(i)] + p) == GetPath(a[i], p)
    ensures Exists(Arr(a), [At(i)] + p) == Exists(a[i], p)
  {
    assert ([At(i)] + p)[1..] == p;
  }

  /** `dependencies.<name>.oneOf[0]` leads from a schema to the first branch of its `oneOf`. */
  lemma FirstBranchReached(schema: Value, name: string, branch: Value)
    requires schema.Obj? && "dependencies" in schema.fields
    requires var d := schema.fields["dependencies"];
      d.Obj? && name in d.fields && d.fields[name].Obj? && "oneOf" in d.fields[name].fields
    requires var o := schema.fields["dependencies"].fields[name].fields["oneOf"];
      o.Arr? && |o.items| > 0 && o.items[0] == branch
    ensures GetPath(schema, [Key("dependencies"), Key(name), Key("oneOf"), At(0)]) == branch
    ensures Exists(schema, [Key("dependencies"), Key(name), Key("oneOf"), At(0)])
  {
    var d := schema.fields["dependencies"];
    var n := d.fields[name];
    var o := n.fields["oneOf"];
    AtStep(o.items, 0, []);
    KeyStep(n.fields, "oneOf", [At(0)]);
    KeyStep(d.fields, name, [Key("oneOf"), At(0)]);
    KeyStep(schema.fields, "dependencies", [Key(name), Key("oneOf"), At(0)]);
  }

  /** The nested `countryId` property exists in the base schema. */
  lemma CountryIdPathExists()
    ensures Exists(BaseSchema(), CountryIdPath)
    ensures GetPath(BaseSchema(), CountryIdPath) == CountryIdDeclaration()
  {
    var base, p1, p2, p3 := BaseSchema(), UseCountryBranchPath, CountryIdBranchPath, CountryIdPropertyPath;
    FirstBranchReached(base, "useCountry", UseCountryBranch());
    FirstBranchReached(UseCountryBranch(), "countryRetrievalMethod", CountryIdBranch());
    var properties := CountryIdBranch().fields["properties"];
    KeyStep(properties.fields, "countryId", []);
    KeyStep(CountryIdBranch().fields, "properties", [Key("countryId")]);
    GetPathAppend(base, p1, p2);
    ExistsAppend(base, p1, p2);
    GetPathAppend(base, p1 + p2, p3);
    ExistsAppend(base, p1 + p2, p3);
  }

  /**
   * The schema with the error annotation on the nested `countryId` property:
   * the annotation is new, and nothing outside it differs from the base schema.
   */
  function AnnotatedSchema(): (s: Value)
    ensures GetPath(BaseSchema(), CountryIdErrorPath) == Undefined
    ensures GetPath(s, CountryIdErrorPath) == Str(CountryIdErrorText)
    ensures forall q :: Disjoint(CountryIdErrorPath, q) ==> GetPath(s, q) == GetPath(BaseSchema(), q)
    ensures s != BaseSchema()
  {
    var base, error := BaseSchema(), Str(CountryIdErrorText);
    CountryIdPathExists();
    GetPathAppend(base, CountryIdPath, [Key("error")]);
    AssignableAppend(base, CountryIdPath, [Key("error")]);
    GetSetSame(base, CountryIdErrorPath, error);
    SetPathFrame(base, CountryIdErrorPath, error);
    SetPath(base, CountryIdErrorPath, error)
  }

  // ---------------------------------------------------------------------------
  // The form provider

  /** `init`: the defaults overlaid with every configuration key, the configuration winning. */
  function InitialFormData(configuration: Object): (formData: Object)
    ensures formData.Keys == configuration.Keys + {"useCountry"}
    ensures forall k :: k in configuration ==> formData[k] == configuration[k]
    ensures "useCountry" !in configuration ==> formData["useCountry"] == Str("false")
  {
    DefaultFormData() + configuration
  }

  /**
   * `reopen` and `changeCountryOption`: only the three country fields are
   * copied, each under the condition that makes it meaningful.
   */
  function ReopenedFormData(configuration: Object): (formData: Object)
    ensures formData.Keys <= {"useCountry", "countryRetrievalMethod", "countryId"}
    ensures "useCountry" in formData
    ensures formData["useCountry"] ==
              if Truthy(Get(configuration, "useCountry")) then configuration["useCountry"] else Str("false")
    ensures "countryRetrievalMethod" in formData <==> UsesCountry(configuration)
    ensures "countryRetrievalMethod" in formData ==>
              formData["countryRetrievalMethod"] == Get(configuration, "countryRetrievalMethod")
    ensures "countryId" in formData <==> UsesCountry(configuration) && CountrySetInConfiguration(configuration)
    ensures "countryId" in formData ==> formData["countryId"] == Get(configuration, "countryId")
  {
    var formData := DefaultFormData();
    var formData :=
      if Truthy(Get(configuration, "useCountry")) then formData["useCountry" := Get(configuration, "useCountry")]
      else formData;
    if UsesCountry(configuration) then
      var formData := formData["countryRetrievalMethod" := Get(configuration, "countryRetrievalMethod")];
      if CountrySetInConfiguration(configuration) then formData["countryId" := Get(configuration, "countryId")]
      else formData
    else formData
  }

  /**
   * The answer to `reopen` and `changeCountryOption`: the form can be saved
   * unless the configuration fixes a country code outside the ISO list, and
   * exactly then the nested `countryId` property carries an error.
   */
  function ReopenedForm(configuration: Object, codes: set<string>): (state: FormState)
    ensures state.uiSchema == UiSchema()
    ensures state.formData == ReopenedFormData(configuration)
    ensures !state.isFormSubmittable <==> CountryIdRejected(configuration, codes)
    ensures state.isFormSubmittable <==> state.schema == BaseSchema()
    ensures !state.isFormSubmittable ==> GetPath(state.schema, CountryIdErrorPath) == Str(CountryIdErrorText)
    ensures !state.isFormSubmittable ==> state.schema == AnnotatedSchema()
    ensures forall q :: Disjoint(CountryIdErrorPath, q) ==> GetPath(state.schema, q) == GetPath(BaseSchema(), q)
  {
    var isFormSubmittable := !CountryIdRejected(configuration, codes);
    var schema := if isFormSubmittable then BaseSchema() else AnnotatedSchema();
    FormState(schema, UiSchema(), ReopenedFormData(configuration), isFormSubmittable)
  }

  /**
   * `form(configuration, event, locale)` with the locale fixed to English.
   * `None` stands for an undefined configuration.
   */
  function Form(configuration: Option<Object>, event: string, codes: set<string>): (r: Result<FormState, FormError>)
    ensures configuration.None? ==> r == Failure(InvalidConfiguration())
    ensures configuration.Some? && !IsFormEvent(event) ==> r == Failure(UnsupportedEvent(event))
    ensures r.Success? <==> configuration.Some? && IsFormEvent(event)
    ensures r.Success? ==> r.value.uiSchema == UiSchema()
    ensures r.Success? ==>
              (!r.value.isFormSubmittable <==> event != "init" && CountryIdRejected(configuration.value, codes))
    ensures r.Success? && event == "init" ==>
              r.value == FormState(BaseSchema(), UiSchema(), InitialFormData(configuration.value), true)
    ensures r.Success? && event != "init" ==> r.value == ReopenedForm(configuration.value, codes)
  {
    if configuration.None? then Failure(InvalidConfiguration())
    else
      var configuration := configuration.value;
      if event == "init" then
        Success(FormState(BaseSchema(), UiSchema(), InitialFormData(configuration), true))
      else if event == "reopen" || event == "changeCountryOption" then
        Success(ReopenedForm(configuration, codes))
      else
        Failure(UnsupportedEvent(event))
  }

  /** The schema differs from the base schema only by the error annotation, and only when the form cannot be saved. */
  lemma FormSchemaOnlyGainsError(configuration: Object, event: string, codes: set<string>)
    requires Form(Some(configuration), event, codes).Success?
    ensures var state := Form(Some(configuration), event, codes).value;
            && (state.isFormSubmittable <==> state.schema == BaseSchema())
            && (!state.isFormSubmittable ==> GetPath(state.schema, CountryIdErrorPath) == Str(CountryIdErrorText))
            && forall q :: Disjoint(CountryIdErrorPath, q) ==> GetPath(state.schema, q) == GetPath(BaseSchema(), q)
  {
  }

  /** `form({}, 'init', null)`: the base schema, `{useCountry: 'false'}`, submittable. */
  lemma InitOnEmptyConfiguration(codes: set<string>)
    ensures Form(Some(map[]), "init", codes) ==
              Success(FormState(BaseSchema(), UiSchema(), map["useCountry" := Str("false")], true))
  {
    var empty: Object := map[];
    EmptyInitialFormData();
    var r := Form(Some(empty), "init", codes);
    assert r.Success?;
    assert r.value == FormState(BaseSchema(), UiSchema(), InitialFormData(empty), true);
  }

  lemma EmptyInitialFormData()
    ensures InitialFormData(map[]) == map["useCountry" := Str("false")]
  {
    var empty: Object := map[];
    assert InitialFormData(empty).Keys == {"useCountry"};
  }

  /** "UK" is no ISO 3166-1 alpha-2 code: the form keeps it, cannot be saved, and flags the nested `countryId`. */
  lemma UnitedKingdomFlagged(codes: set<string>)
    requires "UK" !in codes
    ensures var configuration := map[
                  "useCountry" := Str("true"), "countryRetrievalMethod" := Str("set"), "countryId" := Str("UK")];
            var r := Form(Some(configuration), "changeCountryOption", codes);
            && r.Success?
            && r.value.formData == configuration
            && !r.value.isFormSubmittable
            && r.value.schema == AnnotatedSchema()
  {
    var configuration := map[
      "useCountry" := Str("true"), "countryRetrievalMethod" := Str("set"), "countryId" := Str("UK")];
    UnitedKingdomFormData();
    assert CountryIdRejected(configuration, codes);
    var r := Form(Some(configuration), "changeCountryOption", codes);
    assert r.Success?;
    assert r.value == ReopenedForm(configuration, codes);
  }

  lemma UnitedKingdomFormData()
    ensures var configuration := map[
                  "useCountry" := Str("true"), "countryRetrievalMethod" := Str("set"), "countryId" := Str("UK")];
            ReopenedFormData(configuration) == configuration
  {
    var configuration := map[
      "useCountry" := Str("true"), "countryRetrievalMethod" := Str("set"), "countryId" := Str("UK")];
    var formData := ReopenedFormData(configuration);
    assert formData.Keys == configuration.Keys;
  }

  // ---------------------------------------------------------------------------
  // Input and output schemas, usage snippet

  function PropertiesOf(schema: Value): Object {
    var p := Prop(schema, "properties");
    if p.Obj? then p.fields else map[]
  }

  function RequiredOf(schema: Value): seq<Value> {
    var r := Prop(schema, "required");
    if r.Arr? then r.items else []
  }

  /** `schema.properties[name] = declaration; schema.required.push(name)` */
  function AddRequiredProperty(schema: Value, name: string, declaration: Value): (r: Value)
    requires schema.Obj?
    ensures PropertiesOf(r) == PropertiesOf(schema)[name := declaration]
    ensures RequiredOf(r) == RequiredOf(schema) + [Str(name)]
    ensures r.Obj? && r.fields.Keys == schema.fields.Keys + {"properties", "required"}
    ensures forall k :: k != "properties" && k != "required" ==> Prop(r, k) == Prop(schema, k)
  {
    var properties := PropertiesOf(schema)[name := declaration];
    var required := RequiredOf(schema) + [Str(name)];
    Obj(schema.fields["properties" := Obj(properties)]["required" := Arr(required)])
  }

  function StringProperty(description: string): Value {
    Obj(map["description" := Str(description), "type" := Str("string")])
  }

  function BaseInputSchema(): Value {
    Obj(map[
      "$schema" := Str("http://json-schema.org/draft-07/schema#"),
      "title" := Str("Input schema for skill: Age Estimate"),
      "type" := Str("object"),
      "properties" := Obj(map[
        "name" := StringProperty("The first name to be used to estimate the age"),
        "timeout" := Obj(map[
          "description" := Str("Timeout in milliseconds before canceling requests. This timeout is set by default to `5000` ms."),
          "type" := Str("integer"),
          "default" := Num(5000),
          "minimum" := Num(0)])]),
      "required" := StringEnum(["name"])])
  }

  lemma BaseInputSchemaShape()
    ensures BaseInputSchema().Obj?
    ensures PropertiesOf(BaseInputSchema()).Keys == {"name", "timeout"}
    ensures RequiredOf(BaseInputSchema()) == [Str("name")]
  {
  }

  function InputCountryIdDeclaration(): Value {
    StringProperty("The ID of the country (in ISO 3166-1 alpha-2 format) to be used to estimate the age")
  }

  /** `inputSchema(configuration)`: a required string `countryId` exactly when the input must carry it. */
  function InputSchema(configuration: Object): (schema: Value)
    ensures PropertiesOf(schema).Keys ==
              {"name", "timeout"} + (if CountryFromInput(configuration) then {"countryId"} else {})
    ensures RequiredOf(schema) ==
              [Str("name")] + (if CountryFromInput(configuration) then [Str("countryId")] else [])
    ensures CountryFromInput(configuration) ==> Prop(PropertiesOf(schema)["countryId"], "type") == Str("string")
    ensures CountryFromInput(configuration) ==> PropertiesOf(schema)["countryId"] == InputCountryIdDeclaration()
    ensures CountryFromInput(configuration) ==>
              forall k :: k != "properties" && k != "required" ==> Prop(schema, k) == Prop(BaseInputSchema(), k)
    ensures CountryFromInput(configuration) ==>
              forall k :: k != "countryId" ==> Get(PropertiesOf(schema), k) == Get(PropertiesOf(BaseInputSchema()), k)
    ensures !CountryFromInput(configuration) ==> schema == BaseInputSchema()
  {
    var schema := BaseInputSchema();
    BaseInputSchemaShape();
    if CountryFromInput(configuration) then AddRequiredProperty(schema, "countryId", InputCountryIdDeclaration())
    else schema
  }

  function IntegerProperty(description: string): Value {
    Obj(map["description" := Str(description), "type" := Str("integer")])
  }

  function BaseOutputSchema(): Value {
    Obj(map[
      "$schema" := Str("http://json-schema.org/draft-07/schema#"),
      "title" := Str("Output schema for skill: Age Estimate"),
      "type" := Str("object"),
      "properties" := Obj(map[
        "name" := StringProperty("The first name used to estimate the age"),
        "age" := IntegerProperty("The estimated age"),
        "count" := IntegerProperty("The number of persons with the given first name who are used to estimate the age")]),
      "required" := StringEnum(["name", "age", "count"])])
  }

  lemma BaseOutputSchemaShape()
    ensures BaseOutputSchema().Obj?
    ensures PropertiesOf(BaseOutputSchema()).Keys == {"name", "age", "count"}
    ensures RequiredOf(BaseOutputSchema()) == [Str("name"), Str("age"), Str("count")]
  {
  }

  function OutputCountryIdDeclaration(): Value {
    StringProperty("The ID of the country (in ISO 3166-1 alpha-2 format) used to estimate the age")
  }

  /** `outputSchema(configuration)`: a required string `countryId` whenever a country is used, whatever the method. */
  function OutputSchema(configuration: Object): (schema: Value)
    ensures PropertiesOf(schema).Keys ==
              {"name", "age", "count"} + (if UsesCountry(configuration) then {"countryId"} else {})
    ensures RequiredOf(schema) ==
              [Str("name"), Str("age"), Str("count")] + (if UsesCountry(configuration) then [Str("countryId")] else [])
    ensures UsesCountry(configuration) ==> Prop(PropertiesOf(schema)["countryId"], "type") == Str("string")
    ensures UsesCountry(configuration) ==> PropertiesOf(schema)["countryId"] == OutputCountryIdDeclaration()
    ensures UsesCountry(configuration) ==>
              forall k :: k != "properties" && k != "required" ==> Prop(schema, k) == Prop(BaseOutputSchema(), k)
    ensures UsesCountry(configuration) ==>
              forall k :: k != "countryId" ==> Get(PropertiesOf(schema), k) == Get(PropertiesOf(BaseOutputSchema()), k)
    ensures !UsesCountry(configuration) ==> schema == BaseOutputSchema()
  {
    var schema := BaseOutputSchema();
    BaseOutputSchemaShape();
    if UsesCountry(configuration) then AddRequiredProperty(schema, "countryId", OutputCountryIdDeclaration())
    else schema
  }

  /** What the input schema requires, the output schema requires too. */
  lemma OutputRequiresWhatInputRequires(configuration: Object)
    ensures forall x :: x in RequiredOf(InputSchema(configuration)) ==> x in RequiredOf(OutputSchema(configuration))
  {
  }

  const SnippetHead: string :=
    "// Snippet code to get and execute a skill\n" +
    "const skill = task.getSkill(\"<SKILL_NAME>\");\n"

  const SnippetTail: string :=
    "const result = await skill.execute(input);\n" +
    "task.context.logger.info(result);\n" +
    "return result;"

  /** `snippet(configuration)` */
  function Snippet(configuration: Object): (snippet: string)
    ensures |snippet| > |SnippetHead| + |SnippetTail|
    ensures snippet[..|SnippetHead|] == SnippetHead
    ensures snippet[|snippet| - |SnippetTail|..] == SnippetTail
  {
    var input :=
      if CountryFromInput(configuration) then
        "const input = {\n" +
        ("\tname: \"Jane\"" + ",\n" +
         ("\tcountryId: \"US\"" + "\n")) +
        "};\n"
      else
        "const input = {\n" +
        ("\tname: \"Jane\"" + "\n") +
        "};\n";
    SnippetHead + input + SnippetTail
  }

  /** The example value the snippet shows for a field. */
  function ExampleValue(field: Value): string {
    if field == Str("countryId") then "\"US\"" else "\"Jane\""
  }

  /** `\tfield: value`, the line of an example input that sets one field. */
  function ExampleLine(field: Value): string {
    "\t" + Display(field) + ": " + ExampleValue(field)
  }

  /** One line per field, separated by commas. */
  function ExampleFields(fields: seq<Value>): string
    decreases |fields|
  {
    if fields == [] then ""
    else if |fields| == 1 then ExampleLine(fields[0]) + "\n"
    else ExampleLine(fields[0]) + ",\n" + ExampleFields(fields[1..])
  }

  /** An example input object literal holding the given fields. */
  function ExampleInput(fields: seq<Value>): string {
    "const input = {\n" + ExampleFields(fields) + "};\n"
  }

  lemma ExampleLineOfName()
    ensures ExampleLine(Str("name")) == "\tname: \"Jane\""
  {
    assert Display(Str("name")) == "name";
  }

  lemma ExampleLineOfCountryId()
    ensures ExampleLine(Str("countryId")) == "\tcountryId: \"US\""
  {
  }

  lemma ExampleInputOfName()
    ensures ExampleInput([Str("name")]) == "const input = {\n" + ("\tname: \"Jane\"" + "\n") + "};\n"
  {
    ExampleLineOfName();
  }

  lemma ExampleInputOfNameAndCountryId()
    ensures ExampleInput([Str("name"), Str("countryId")]) ==
              "const input = {\n" + ("\tname: \"Jane\"" + ",\n" + ("\tcountryId: \"US\"" + "\n")) + "};\n"
  {
    var name, country := Str("name"), Str("countryId");
    ExampleLineOfName();
    ExampleLineOfCountryId();
    assert [name, country][1..] == [country];
    assert ExampleFields([name, country]) == ExampleLine(name) + ",\n" + (ExampleLine(country) + "\n");
  }

  /** The snippet's example input holds exactly the fields the input schema requires, in the same order. */
  lemma SnippetInputMatchesInputSchema(configuration: Object)
    ensures Snippet(configuration) ==
              SnippetHead + ExampleInput(RequiredOf(InputSchema(configuration))) + SnippetTail
  {
    if CountryFromInput(configuration) {
      assert RequiredOf(InputSchema(configuration)) == [Str("name"), Str("countryId")];
      ExampleInputOfNameAndCountryId();
    } else {
      assert RequiredOf(InputSchema(configuration)) == [Str("name")];
      ExampleInputOfName();
    }
  }
}
