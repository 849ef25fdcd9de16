# Age-estimation and weather skills

This project models the decision logic of two automation-platform skills.
Each skill has two halves. A configuration side gives the form the platform
shows while a user edits the skill's configuration, plus the input schema,
output schema and usage snippet derived from that configuration. An executor
runs the skill.

- **Age estimation**, in the folder `Weather/GetWeather`. The configuration says
  whether the estimate is made for a country and, if so, where the country code
  comes from:
  - fixed in the configuration (`countryRetrievalMethod` is `"set"`);
  - given with each call (`"provide"`).

  The executor checks the input against the configuration. It validates the
  code against the ISO 3166-1 alpha-2 list, sends the GET request to the
  age-estimation service, and shapes the answer into `{name, age, count[, countryId]}`.
- **Weather**, in the folder `GetWeather`. The configuration holds an API key and a
  number of forecast hours. The executor asks the forecast service for a city's
  3-hourly forecast. It keeps as many entries as cover the configured hours and
  projects each one to its time, temperature range and weather condition.

Everything is modelled as total functions on a small JSON value type
(`JsValues.Value`, which includes `undefined`). Each JavaScript function builds
its result in local variables that do not outlive the call. Some details are
parameters or abstract values:

- The ISO code list is the parameter `codes`.
- Each HTTP exchange is an abstract response value.
- The message texts are the English ones.
- The literal builders `schema_init`, `uiSchema_init` and `formData_init`
  become constant functions. For the age skill (Weather/GetWeather/skill-config.js:17-149)
  they are `AgeConfig.BaseSchema`, `AgeConfig.UiSchema` and `AgeConfig.DefaultFormData`.
  For the weather skill (GetWeather/skill-config.js:11-57) they are
  `WeatherConfig.Schema`, `WeatherConfig.UiSchema` and `WeatherConfig.DefaultFormData`.
- Nested schema fields are addressed by paths (`GetPath`, `SetPath`). This lets
  "nothing else changes" be stated for the one field the age form annotates.

Modules:

- `JsValues` holds the value type, JavaScript truthiness and property reads,
  template-literal display and the path lemmas.
- `Forms` holds the answer and error shapes that both form providers share.
- `AgeConfig` and `AgeApi` model the age-estimation skill.
- `WeatherConfig` and `WeatherApi` model the weather skill.

## Model

| member | source | states |
|---|---|---|
| Forms.InvalidConfiguration | Weather/GetWeather/skill-config.js:160-164 | An undefined configuration is rejected with the "configuration is not valid" message. The `catch` renames the error `UnexpectedError` (lines 210-213). |
| Forms.UnsupportedEvent | Weather/GetWeather/skill-config.js:198-201 | An unknown event is rejected with the `EventError` name. The message is the event, a space, then the event-error text, so it starts with the event's name. |
| AgeConfig.AnnotatedSchema | Weather/GetWeather/skill-config.js:190 | Sets the error text on `dependencies.useCountry.oneOf[0].dependencies.countryRetrievalMethod.oneOf[0].properties.countryId.error`. That field is absent from the base schema. Every path disjoint from it reads the same as in the base schema. |
| AgeConfig.InitialFormData | Weather/GetWeather/skill-config.js:171-177 | `init` form data is the default `{useCountry: 'false'}` overlaid with every configuration key. The configuration wins, and `useCountry` is `'false'` only when the configuration lacks it. |
| AgeConfig.ReopenedFormData | Weather/GetWeather/skill-config.js:179-188 | Only `useCountry`, `countryRetrievalMethod` and `countryId` can appear. `useCountry` is copied when truthy and otherwise stays `'false'`. The method is present exactly when `useCountry === 'true'`. `countryId` is present exactly when, in addition, the method is `'set'`. |
| AgeConfig.ReopenedForm | Weather/GetWeather/skill-config.js:179-197 | The form cannot be saved exactly when `useCountry` is `'true'`, the method is `'set'` and `countryId` is not an ISO code. It is saveable exactly when the schema is the base schema. When it is not saveable, the schema is the annotated schema: the nested `countryId` carries the error, and all else is unchanged. |
| AgeConfig.Form | Weather/GetWeather/skill-config.js:152-215 | An undefined configuration and an unknown event give their errors. It succeeds exactly for `init`, `reopen` and `changeCountryOption`. uiSchema is fixed. `init` gives the base schema, the merged data and submittable. The other two events give the reopened form. The form is not submittable exactly when the event is not `init` and the configured code is rejected. |
| AgeConfig.FormSchemaOnlyGainsError | Weather/GetWeather/skill-config.js:166-169 | For every successful form, the schema equals the base schema exactly when the form is submittable. Otherwise it gains the error annotation and nothing else. |
| AgeConfig.InitOnEmptyConfiguration | Weather/GetWeather/tests/skill-config.test.js:400-415 | `init` on `{}` gives the base schema, the fixed uiSchema, `{useCountry: 'false'}` and submittable. |
| AgeConfig.UnitedKingdomFlagged | Weather/GetWeather/tests/skill-config.test.js:474-500 | With the method `'set'` and `countryId` `'UK'`, `changeCountryOption` keeps the three fields. The form is not submittable and has the annotated schema. |
| AgeConfig.CountryIdPathExists | Weather/GetWeather/skill-config.js:17-116 | The base schema has the nested `countryId` declaration at the path the annotation writes below. |
| AgeConfig.AddRequiredProperty | Weather/GetWeather/skill-config.js:239-243 | Adding a property declares it and appends its name to `required`. Every other member of the schema is unchanged. |
| AgeConfig.InputSchema | Weather/GetWeather/skill-config.js:216-246 | The `countryId` property and the `required` entry after `name` are present iff `useCountry === 'true'` and the method is `'provide'`. The added declaration is the string property of lines 239-242. Every other member of the schema, and every other property declaration, is that of the base input schema. Otherwise the schema is the base input schema. |
| AgeConfig.OutputSchema | Weather/GetWeather/skill-config.js:247-281 | `countryId` is declared and required after `name`, `age` and `count` iff `useCountry === 'true'`, whatever the method. The added declaration is the string property of lines 274-277. Every other member and declaration is that of the base output schema. Otherwise the schema is the base output schema. |
| AgeConfig.OutputRequiresWhatInputRequires | Weather/GetWeather/skill-config.js:238-244 | Whenever the input schema requires `countryId`, the output schema requires it too. |
| AgeConfig.Snippet | Weather/GetWeather/skill-config.js:282-304 | The snippet starts with the `getSkill` header and ends with the `execute`/log/return tail, with the example input between them. |
| AgeConfig.SnippetInputMatchesInputSchema | Weather/GetWeather/skill-config.js:282-304 | The snippet's example input has one line per required input field, in order: `name: "Jane"`, then `countryId: "US"` exactly when the input schema requires it. |
| AgeApi.SelectCountry | Weather/GetWeather/skill-api.js:49-77 | The full decision tree. A missing own `useCountry` fails. Anything but `'true'` uses no country. `'set'` fails on a missing configured code, then on an input code, else uses the configured code. `'provide'` fails without an input code, else uses it. Any other method fails. |
| AgeApi.Message | Weather/GetWeather/skill-api.js:22-75 | The texts of the eight errors (lines 22, 35, 43, 51, 56, 62, 68, 75). An invalid code appears verbatim in "The … country ID is not valid…". A service error appears as "Request failed with status code <status>: <error>", the status written in decimal. |
| AgeApi.TimeoutOf | Weather/GetWeather/skill-api.js:79 | The timeout is `input.timeout` when truthy and 5000 otherwise, so it is never 0 nor absent. |
| AgeApi.EstimateAgeQuery | Weather/GetWeather/skill-api.js:12-25 | Fails exactly when the code is truthy and not an ISO code. Otherwise the request goes to the service URL, and the query has `name` and, exactly for a truthy code, `country_id`, with the given timeout. |
| AgeApi.AgeRequest | Weather/GetWeather/skill-api.js:39-81 | A falsy input fails with the no-input error first. Country selection errors come next. Once a country (or none) is selected, the result is exactly `estimateAge`'s query for `input.name`, the selected code and the timeout. So a truthy non-ISO code fails with the invalid-code error, and otherwise a request results whose `country_id` is the selected code. A sent `country_id` implies `useCountry === 'true'` and an ISO code. Without a country, only `name` is sent. |
| AgeApi.AgeOutput | Weather/GetWeather/skill-api.js:26-36 | Success exactly for a non-nullish answered body. The output is `name`, `age` and `count`, plus `countryId` exactly when `country_id` is truthy. An error status becomes "Request failed with status code …". No response, or a null body on success, becomes the `TypeError` of reading `status` of `undefined`. An error status with a null body becomes the `TypeError` of reading `error` of that body. |
| AgeApi.Execute | Weather/GetWeather/skill-api.js:39-85 | A failed validation is the call's error. Otherwise the result is the output mapped from the answer. |
| AgeApi.ValidationPrecedesRequest | Weather/GetWeather/skill-api.js:42-77 | An input that validation rejects fails the same way whatever the service would answer. |
| AgeApi.ConfiguredCountryCannotBeOverridden | Weather/GetWeather/skill-api.js:54-63 | With `'set'` and an input `countryId`, the call fails with the "missing in the configuration" error or the "cannot be overridden" error. The missing-configuration check wins. The messages are the texts the tests expect (tests/skill-api.test.js:134, 151). |
| AgeApi.InputSchemaRequirementEnforced | Weather/GetWeather/skill-api.js:65-69 | An input lacking the `countryId` that the configuration's input schema requires is rejected with "country ID is undefined". |
| AgeApi.InputCountryIgnoredWithoutCountry | Weather/GetWeather/skill-api.js:53 | When `useCountry` is present but not `'true'`, the request carries only `name`, whatever the input's `countryId`. |
| AgeApi.JaneWithoutCountry | Weather/GetWeather/tests/skill-api.test.js:106-118 | `{useCountry: 'false'}` with `{name: 'Jane'}` yields name, age and count, without `countryId`. |
| AgeApi.UnitedKingdomRejected | Weather/GetWeather/tests/skill-api.test.js:187-202 | With the method `'provide'` and input code `'UK'`, the call fails with the invalid-code error whatever the service would answer. The message is "The UK country ID is not valid. Only ISO 3166-1 alpha-2 codes are supported." |
| AgeApi.NoInputRejected | Weather/GetWeather/tests/skill-api.test.js:32-40 | An undefined input fails with "Skill is called without input.", whatever the configuration and the answer. |
| AgeApi.MissingFlagRejected | Weather/GetWeather/tests/skill-api.test.js:217-229 | The configuration `{}` fails with `UseCountryUndefined` and the flag message the test expects. |
| AgeApi.MissingInputCountryRejected | Weather/GetWeather/tests/skill-api.test.js:155-169 | `'provide'` with an input lacking `countryId` fails with `CountryIdUndefined` and the message the test expects. |
| AgeApi.MissingMethodRejected | Weather/GetWeather/tests/skill-api.test.js:171-185 | `useCountry: 'true'` without a method fails with `RetrievalMethodUndefined` and the message the test expects. |
| AgeApi.MissingNameRejectedByService | Weather/GetWeather/tests/skill-api.test.js:204-215 | An input without `name` passes validation. A 422 answer with the error "Missing 'name' parameter" gives "Request failed with status code 422: Missing 'name' parameter". |
| WeatherConfig.MergedFormData | GetWeather/skill-config.js:82-85 | The defaults `{api_key: '', number_of_hours: 6}` are overlaid with the configuration. Every configuration key wins, and a default is kept only for a missing key. |
| WeatherConfig.Form | GetWeather/skill-config.js:60-120 | An undefined configuration and an unknown event give their errors. It succeeds exactly for `init`, `reopen` and `updateValues`. The schema and uiSchema are fixed. Submittable exactly when the event is not `init` and `api_key` is truthy. `updateValues` gives the configuration itself and the other events give the merged data. |
| WeatherConfig.UpdateValuesDropsDefaults | GetWeather/skill-config.js:97-101 | `updateValues` discards the defaults: a missing `number_of_hours` stays missing, while `reopen` fills in 6. |
| WeatherConfig.DeclarationsIgnoreConfiguration | GetWeather/skill-config.js:121-142 | The input schema, output schema and snippet do not depend on the configuration. Neither does the form's schema or uiSchema, nor do they depend on the event. |
| WeatherApi.WeatherRequest | GetWeather/skill-api.js:11-27 | A falsy input fails with `NO_INPUT`. Otherwise the request goes to the forecast URL with the query `q = input.city`, `appid = api_key`, `units = 'metric'`. |
| WeatherApi.HoursBound | GetWeather/skill-api.js:30 | The number `number_of_hours` converts to: a number is itself, `null` and `false` become 0, and `true` becomes 1. Every falsy value that is not NaN becomes 0. Anything else (a missing value in particular) is NaN. |
| WeatherApi.KeptCount | GetWeather/skill-api.js:30 | The number of kept entries never exceeds the list length. |
| WeatherApi.KeepByIndex | GetWeather/skill-api.js:30 | The filter keeps exactly the entries whose index `i` satisfies `3*i < number_of_hours`. The result is the list's prefix of length min(length, ceil(hours/3)), or empty for NaN. |
| WeatherApi.Project | GetWeather/skill-api.js:31-39 | Succeeds exactly when `main` is not nullish and `weather[0]` exists and is not nullish. The projection is `{time: dt, temp: {max: main.temp_max, min: main.temp_min}, weather: weather[0].main}`. A nullish `main` fails with the TypeError of reading `temp_max` (line 35). That check comes first. Otherwise a missing or nullish `weather[0]` fails with the TypeError of reading `main` (line 38). |
| WeatherApi.FirstFailureShifts | GetWeather/skill-api.js:31 | A first failing entry in the tail is the first failing entry of the whole list, one index later. |
| WeatherApi.ProjectAll | GetWeather/skill-api.js:31-40 | Succeeds exactly when every entry projects. The result is then the projections in order. Otherwise the error is that of the first entry that fails. |
| WeatherApi.Execute | GetWeather/skill-api.js:11-47 | No input gives `NO_INPUT`. A request error is re-thrown unchanged. An answered call succeeds exactly when every kept entry projects. Otherwise its error is that of the first kept entry that fails. A result holds `city` from the response and one projected entry per kept index, in order. An absent `number_of_hours` gives empty `data`. |
| WeatherApi.Message | GetWeather/skill-api.js:13-46 | `NO_INPUT` for a missing input (line 13). A re-thrown error keeps its own message (line 46). |
| WeatherApi.NoInputRejected | GetWeather/skill-api.js:11-14 | An undefined input fails with the message `NO_INPUT`, whatever the configuration and the answer. |
| WeatherApi.TwelveHoursKeepFour | GetWeather/skill-api.js:30 | A scenario of the model's own, on the test configuration's `number_of_hours: 12` (GetWeather/tests/skill-api.test.js:58-61): a 40-entry forecast keeps its first four entries. |
| JsValues.GetSetSame | Weather/GetWeather/skill-config.js:190 | After assigning a field along an assignable path, reading that path gives the assigned value. |
| JsValues.GetSetOther | Weather/GetWeather/skill-config.js:190 | Assigning along one path leaves every disjoint path's value unchanged. |

## Left out

- The HTTP calls through axios, the `async`/Promise plumbing and all logging are left out. Each response is an abstract parameter (`AgeApi.AgeResponse`, `WeatherApi.WeatherResponse`), and a rejection is a `Failure`.
- Locale negotiation through the `accept-language` library is left out. The message and title texts are the English ones of `nls/en.json`, which is not part of this model. Where a test quotes a text, that text is used. The weather skill reads its own `GetWeather/nls/en.json`, which is not part of this model and which no test quotes. `WeatherConfig.Form` therefore reuses the age skill's texts for its two form errors.
- The contents of the ISO 3166-1 alpha-2 list are left out. The list is the set `codes`. The scenario lemmas assume only that `"UK"` is outside it.
- `JSON.parse(JSON.stringify(…))` deep copies are not modelled. They only produce fresh values, and values here are immutable.
- The ajv validation of configurations against `skill-spec.json` is not part of this model.
- AgeConfig.Form and WeatherConfig.Form take a configuration that is an object or undefined. A truthy non-object configuration (a string or number) is not modelled.
- JsValues.Value has integers only. Fractional and non-finite numbers are not modelled, and neither is the floating-point `number_of_hours / 3`. The filter is stated as the integer comparison `3*i < n`.
- WeatherApi.HoursBound treats a string or array `number_of_hours` as NaN, keeping nothing. JavaScript would convert a numeric string such as `"12"` to a number.
- WeatherApi.Entry requires the response's `list` entries to be objects with a `weather` array. A malformed body is not modelled, nor is an item whose `weather` is not an array.
