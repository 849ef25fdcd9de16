/**
 * The executor of the age-estimation skill: it checks the runtime input
 * against the configuration, picks the country code (if any), builds the GET
 * request to the age-estimation service and shapes the service's answer into
 * the skill's output.
 *
 * The HTTP call itself is not modelled: `AgeRequest` gives the request the
 * executor would issue, and `Execute` takes the service's answer to it as a
 * parameter.  The ISO 3166-1 alpha-2 code list is the parameter `codes`.
 */
module AgeApi {
  import opened JsValues
  import AgeConfig

  const Url: string := "https://api.agify.io/"

  /** Milliseconds before the request is aborted, unless the input says otherwise. */
  const DefaultTimeout: int := 5000

  datatype AgeError =
    | NoInput
    | UseCountryUndefined
    | CountryIdMissingInConfiguration
    | CountryIdOverridden
    | CountryIdUndefined
    | RetrievalMethodUndefined
    | InvalidCountryId(countryId: Value)
    | RequestFailed(status: Value, error: Value)
      /** A JavaScript TypeError: `receiver.property` with `receiver` undefined or null. */
    | TypeError(receiver: Value, property: string)

  // The texts of the validation errors.
  const NoInputMessage: string := "Skill is called without input."
  const UseCountryUndefinedMessage: string :=
    "The flag indicating whether to use the country is undefined. You must set the flag indicating whether to use the country in the configuration."
  const CountryIdMissingMessage: string :=
    "The country ID is missing in the configuration. You must set the country ID in the configuration or specify that you want to provide it at runtime."
  const CountryIdOverriddenMessage: string :=
    "The country ID is already defined in the configuration and cannot be overridden at runtime."
  const CountryIdUndefinedMessage: string :=
    "The country ID is undefined. You must set the country ID in the configuration or provide it in the `countryId` property in the input at runtime."
  const RetrievalMethodUndefinedMessage: string :=
    "The country retrieval method is undefined. You must set the country retrieval method in the configuration."
  const InvalidCountryIdSuffix: string := " country ID is not valid. Only ISO 3166-1 alpha-2 codes are supported."
  const RequestFailedPrefix: string := "Request failed with status code "

  /**
   * The message of the `Error` each failure rejects with.  Interpolating a
   * string shows the string itself, so an invalid code and a service error
   * text appear verbatim.
   */
  function Message(e: AgeError): (m: string)
    ensures e.InvalidCountryId? && e.countryId.Str? ==> m == "The " + e.countryId.s + InvalidCountryIdSuffix
    ensures e.RequestFailed? && e.status.Num? && e.status.n >= 0 && e.error.Str? ==>
              m == RequestFailedPrefix + NatToString(e.status.n) + ": " + e.error.s
  {
    match e
    case NoInput => NoInputMessage
    case UseCountryUndefined => UseCountryUndefinedMessage
    case CountryIdMissingInConfiguration => CountryIdMissingMessage
    case CountryIdOverridden => CountryIdOverriddenMessage
    case CountryIdUndefined => CountryIdUndefinedMessage
    case RetrievalMethodUndefined => RetrievalMethodUndefinedMessage
    case InvalidCountryId(id) => "The " + Display(id) + InvalidCountryIdSuffix
    case RequestFailed(status, error) => RequestFailedPrefix + Display(status) + ": " + Display(error)
    case TypeError(receiver, property) => TypeErrorMessage(receiver, property)
  }

  /** The GET request: the service's `Url`, the query parameters and the timeout. */
  datatype AgeQuery = AgeQuery(url: string, params: Object, timeout: Value)

  /** How the service answered the request. */
  datatype AgeResponse =
      /** A success status, with the parsed JSON body. */
    | Answered(data: Value)
      /** An error status, with the parsed JSON body of the error response. */
    | Rejected(status: Value, data: Value)
      /** No response at all: the timeout expired or the network failed. */
    | Unanswered

  // ---------------------------------------------------------------------------
  // Validation and the request

  /**
   * The decision tree that picks the country code: from the configuration
   * when the method is "set", from the input when it is "provide", none
   * (`Undefined`) when no country is used.
   */
  function SelectCountry(configuration: Object, input: Value): (r: Result<Value, AgeError>)
    ensures "useCountry" !in configuration ==> r == Failure(UseCountryUndefined)
    ensures "useCountry" in configuration && !AgeConfig.UsesCountry(configuration) ==> r == Success(Undefined)
    ensures AgeConfig.UsesCountry(configuration) && AgeConfig.CountrySetInConfiguration(configuration) ==>
              r == if "countryId" !in configuration then Failure(CountryIdMissingInConfiguration)
                   else if HasOwn(input, "countryId") then Failure(CountryIdOverridden)
                   else Success(configuration["countryId"])
    ensures AgeConfig.UsesCountry(configuration) && AgeConfig.CountryProvidedAtRuntime(configuration) ==>
              r == if HasOwn(input, "countryId") then Success(Prop(input, "countryId")) else Failure(CountryIdUndefined)
    ensures (&& AgeConfig.UsesCountry(configuration)
             && !AgeConfig.CountrySetInConfiguration(configuration)
             && !AgeConfig.CountryProvidedAtRuntime(configuration)) ==> r == Failure(RetrievalMethodUndefined)
    ensures r.Success? && r.value != Undefined ==> AgeConfig.UsesCountry(configuration)
  {
    if "useCountry" !in configuration then Failure(UseCountryUndefined)
    else if AgeConfig.UsesCountry(configuration) then
      if AgeConfig.CountrySetInConfiguration(configuration) then
        if "countryId" !in configuration then Failure(CountryIdMissingInConfiguration)
        else
          var countryId := configuration["countryId"];
          if HasOwn(input, "countryId") then Failure(CountryIdOverridden)
          else Success(countryId)
      else if AgeConfig.CountryProvidedAtRuntime(configuration) then
        if !HasOwn(input, "countryId") then Failure(CountryIdUndefined)
        else Success(Prop(input, "countryId"))
      else Failure(RetrievalMethodUndefined)
    else Success(Undefined)
  }

  /** `input.timeout` when truthy, the default otherwise: never 0 nor absent. */
  function TimeoutOf(input: Value): (timeout: Value)
    ensures Truthy(timeout)
    ensures Truthy(Prop(input, "timeout")) ==> timeout == Prop(input, "timeout")
    ensures !Truthy(Prop(input, "timeout")) ==> timeout == Num(DefaultTimeout)
  {
    if Truthy(Prop(input, "timeout")) then Prop(input, "timeout") else Num(DefaultTimeout)
  }

  /**
   * The part of `estimateAge` before the call: a truthy country code must be
   * an ISO 3166-1 alpha-2 code, and then it is sent as `country_id`.
   */
  function EstimateAgeQuery(firstName: Value, countryId: Value, timeout: Value, codes: set<string>): (r: Result<AgeQuery, AgeError>)
    ensures r.Failure? <==> Truthy(countryId) && !Includes(codes, countryId)
    ensures r.Failure? ==> r.error == InvalidCountryId(countryId)
    ensures r.Success? ==>
              && r.value.params.Keys == {"name"} + (if Truthy(countryId) then {"country_id"} else {})
              && r.value.params["name"] == firstName
              && ("country_id" in r.value.params ==> r.value.params["country_id"] == countryId)
              && r.value.timeout == timeout
              && r.value.url == Url
  {
    var params := map["name" := firstName];
    if Truthy(countryId) then
      if !Includes(codes, countryId) then Failure(InvalidCountryId(countryId))
      else Success(AgeQuery(Url, params["country_id" := countryId], timeout))
    else Success(AgeQuery(Url, params, timeout))
  }

  /** Everything the executor checks before the call, and the request it then issues. */
  function AgeRequest(configuration: Object, input: Value, codes: set<string>): (r: Result<AgeQuery, AgeError>)
    ensures !Truthy(input) ==> r == Failure(NoInput)
    ensures Truthy(input) && "useCountry" !in configuration ==> r == Failure(UseCountryUndefined)
    ensures Truthy(input) && SelectCountry(configuration, input).Failure? ==>
              r == Failure(SelectCountry(configuration, input).error)
    ensures r.Success? ==>
              "name" in r.value.params && r.value.params["name"] == Prop(input, "name") && r.value.timeout == TimeoutOf(input)
    ensures r.Success? && "country_id" in r.value.params ==>
              AgeConfig.UsesCountry(configuration) && Includes(codes, r.value.params["country_id"])
    ensures r.Success? && !AgeConfig.UsesCountry(configuration) ==> r.value.params.Keys == {"name"}
    ensures Truthy(input) && SelectCountry(configuration, input).Success? ==>
              r == EstimateAgeQuery(Prop(input, "name"), SelectCountry(configuration, input).value, TimeoutOf(input), codes)
  {
    if !Truthy(input) then Failure(NoInput)
    else match SelectCountry(configuration, input)
      case Failure(e) => Failure(e)
      case Success(countryId) =>
        var timeout := TimeoutOf(input);
        EstimateAgeQuery(Prop(input, "name"), countryId, timeout, codes)
  }

  // ---------------------------------------------------------------------------
  // The answer

  /** The output built from the service's answer, or the error the executor rejects with. */
  function AgeOutput(response: AgeResponse): (r: Result<Object, AgeError>)
    ensures r.Success? <==> response.Answered? && !IsNullish(response.data)
    ensures r.Success? ==>
              var data := response.data;
              && r.value.Keys == {"name", "age", "count"} + (if Truthy(Prop(data, "country_id")) then {"countryId"} else {})
              && r.value["name"] == Prop(data, "name")
              && r.value["age"] == Prop(data, "age")
              && r.value["count"] == Prop(data, "count")
              && ("countryId" in r.value ==> r.value["countryId"] == Prop(data, "country_id"))
    ensures response.Rejected? && !IsNullish(response.data) ==>
              r == Failure(RequestFailed(response.status, Prop(response.data, "error")))
    ensures response.Rejected? && IsNullish(response.data) ==> r == Failure(TypeError(response.data, "error"))
    ensures response.Unanswered? || (response.Answered? && IsNullish(response.data)) ==>
              r == Failure(TypeError(Undefined, "status"))
  {
    match response
    case Answered(data) =>
      if IsNullish(data) then
        // `response.data.name` throws a TypeError, which has no `response`.
        Failure(TypeError(Undefined, "status"))
      else
        var result := map["name" := Prop(data, "name"), "age" := Prop(data, "age"), "count" := Prop(data, "count")];
        if Truthy(Prop(data, "country_id")) then Success(result["countryId" := Prop(data, "country_id")])
        else Success(result)
    case Rejected(status, data) =>
      if IsNullish(data) then Failure(TypeError(data, "error"))
      else Failure(RequestFailed(status, Prop(data, "error")))
    case Unanswered =>
      Failure(TypeError(Undefined, "status"))
  }

  /** One call of the skill, given the service's answer to the request it issues. */
  function Execute(configuration: Object, input: Value, codes: set<string>, response: AgeResponse): (r: Result<Object, AgeError>)
    ensures AgeRequest(configuration, input, codes).Failure? ==>
              r == Failure(AgeRequest(configuration, input, codes).error)
    ensures AgeRequest(configuration, input, codes).Success? ==> r == AgeOutput(response)
  {
    match AgeRequest(configuration, input, codes)
    case Failure(e) => Failure(e)
    case Success(_) => AgeOutput(response)
  }

  // ---------------------------------------------------------------------------
  // Properties across calls and components

  /** Validation happens before the call: a rejected input fails the same way whatever the service would answer. */
  lemma ValidationPrecedesRequest(configuration: Object, input: Value, codes: set<string>, r1: AgeResponse, r2: AgeResponse)
    requires AgeRequest(configuration, input, codes).Failure?
    ensures Execute(configuration, input, codes, r1) == Execute(configuration, input, codes, r2)
    ensures Execute(configuration, input, codes, r1).Failure?
  {
  }

  /** The configuration wins: with "set", a runtime country code is rejected, even when the configured one is missing. */
  lemma ConfiguredCountryCannotBeOverridden(configuration: Object, input: Value, codes: set<string>, response: AgeResponse)
    requires Truthy(input) && HasOwn(input, "countryId")
    requires AgeConfig.UsesCountry(configuration) && AgeConfig.CountrySetInConfiguration(configuration)
    ensures Execute(configuration, input, codes, response).Failure?
    ensures Execute(configuration, input, codes, response).error ==
              if "countryId" in configuration then CountryIdOverridden else CountryIdMissingInConfiguration
    ensures Message(Execute(configuration, input, codes, response).error) ==
              if "countryId" in configuration
              then "The country ID is already defined in the configuration and cannot be overridden at runtime."
              else "The country ID is missing in the configuration. You must set the country ID in the configuration or specify that you want to provide it at runtime."
  {
  }

  /** An input lacking the `countryId` that the configuration's input schema requires is rejected. */
  lemma InputSchemaRequirementEnforced(configuration: Object, input: Value, codes: set<string>, response: AgeResponse)
    requires Truthy(input) && !HasOwn(input, "countryId")
    requires Str("countryId") in AgeConfig.RequiredOf(AgeConfig.InputSchema(configuration))
    ensures Execute(configuration, input, codes, response) == Failure(CountryIdUndefined)
  {
  }

  /** Without a country, the input's `countryId` is ignored and no `country_id` is sent. */
  lemma InputCountryIgnoredWithoutCountry(configuration: Object, input: Value, codes: set<string>)
    requires Truthy(input) && "useCountry" in configuration && !AgeConfig.UsesCountry(configuration)
    ensures AgeRequest(configuration, input, codes) ==
              Success(AgeQuery(Url, map["name" := Prop(input, "name")], TimeoutOf(input)))
  {
  }

  // ---------------------------------------------------------------------------
  // Scenarios

  /** `{useCountry: 'false'}` with `{name: 'Jane'}`: name, age and count, and no `countryId`. */
  lemma JaneWithoutCountry(codes: set<string>, age: Value, count: Value)
    ensures var r := Execute(map["useCountry" := Str("false")], Obj(map["name" := Str("Jane")]), codes,
                             Answered(Obj(map["name" := Str("Jane"), "age" := age, "count" := count])));
            r.Success? && r.value == map["name" := Str("Jane"), "age" := age, "count" := count]
  {
  }

  /** "UK" is not an ISO 3166-1 alpha-2 code: the call fails before any request. */
  lemma UnitedKingdomRejected(codes: set<string>, response: AgeResponse)
    requires "UK" !in codes
    ensures var r := Execute(map["useCountry" := Str("true"), "countryRetrievalMethod" := Str("provide")],
                             Obj(map["name" := Str("Jane"), "countryId" := Str("UK")]), codes, response);
            && r == Failure(InvalidCountryId(Str("UK")))
            && Message(r.error) == "The " + "UK" + " country ID is not valid. Only ISO 3166-1 alpha-2 codes are supported."
  {
  }

  /** No input: rejected before anything else, whatever the configuration. */
  lemma NoInputRejected(configuration: Object, codes: set<string>, response: AgeResponse)
    ensures var r := Execute(configuration, Undefined, codes, response);
            r.Failure? && Message(r.error) == "Skill is called without input."
  {
  }

  /** `{}` as configuration: the flag is missing. */
  lemma MissingFlagRejected(codes: set<string>, response: AgeResponse)
    ensures var r := Execute(map[], Obj(map["name" := Str("Jane")]), codes, response);
            && r == Failure(UseCountryUndefined)
            && Message(r.error) ==
                 "The flag indicating whether to use the country is undefined. You must set the flag indicating whether to use the country in the configuration."
  {
  }

  /** "provide" without an input code. */
  lemma MissingInputCountryRejected(codes: set<string>, response: AgeResponse)
    ensures var r := Execute(map["useCountry" := Str("true"), "countryRetrievalMethod" := Str("provide")],
                             Obj(map["name" := Str("Jane")]), codes, response);
            && r == Failure(CountryIdUndefined)
            && Message(r.error) ==
                 "The country ID is undefined. You must set the country ID in the configuration or provide it in the `countryId` property in the input at runtime."
  {
  }

  /** A country without a retrieval method. */
  lemma MissingMethodRejected(codes: set<string>, response: AgeResponse)
    ensures var r := Execute(map["useCountry" := Str("true")],
                             Obj(map["name" := Str("Jane"), "countryId" := Str("US")]), codes, response);
            && r == Failure(RetrievalMethodUndefined)
            && Message(r.error) ==
                 "The country retrieval method is undefined. You must set the country retrieval method in the configuration."
  {
  }

  /** No first name: the request goes out without one, and the service's 422 answer becomes the error. */
  lemma MissingNameRejectedByService(codes: set<string>)
    ensures var r := Execute(map["useCountry" := Str("false")], Obj(map[]), codes,
                             Rejected(Num(422), Obj(map["error" := Str("Missing 'name' parameter")])));
            && AgeRequest(map["useCountry" := Str("false")], Obj(map[]), codes).Success?
            && r.Failure?
            && Message(r.error) == "Request failed with status code " + "422" + ": " + "Missing 'name' parameter"
  {
    assert NatToString(422) == "422";
  }
}
