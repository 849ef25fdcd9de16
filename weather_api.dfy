/**
 * The executor of the weather skill: it asks the forecast service for a
 * city's forecast (one entry per 3 hours) and keeps as many entries as cover
 * the configured number of hours, each projected to its time, temperature
 * range and weather condition.
 *
 * The HTTP call itself is not modelled: `WeatherRequest` gives the request,
 * and `Execute` takes the service's answer as a parameter.
 */
module WeatherApi {
  import opened JsValues

  const BaseUri: string := "http://api.openweathermap.org/data/2.5/forecast"

  /** The GET request: the forecast service's `BaseUri` and the query parameters. */
  datatype WeatherQuery = WeatherQuery(uri: string, q: Value, appid: Value, units: string)

  /** One element of the forecast `list`: `dt`, `main` and the `weather` conditions. */
  datatype Entry = Entry(dt: Value, main: Value, weather: seq<Value>)

  /** The service's answer: the parsed body, or the error the HTTP client threw. */
  datatype WeatherResponse =
    | Answered(list: seq<Entry>, city: Value)
    | Failed(error: Value)

  /** The `temp` member of an output element. */
  datatype Temp = Temp(max: Value, min: Value)

  /** One element of the output's `data`. */
  datatype Hour = Hour(time: Value, temp: Temp, weather: Value)

  datatype Report = Report(data: seq<Hour>, city: Value)

  datatype WeatherError =
    | NoInput
      /** The HTTP client's error, re-thrown unchanged. */
    | Rethrown(error: Value)
      /** A JavaScript TypeError: `receiver.property` with `receiver` undefined or null. */
    | TypeError(receiver: Value, property: string)

  /** The message of the `Error` each failure rejects with; a re-thrown error keeps its own message. */
  function Message(e: WeatherError): (m: string)
    ensures e.Rethrown? ==> m == Display(Prop(e.error, "message"))
    ensures e.Rethrown? && Prop(e.error, "message").Str? ==> m == Prop(e.error, "message").s
  {
    match e
    case NoInput => "NO_INPUT"
    case Rethrown(error) => Display(Prop(error, "message"))
    case TypeError(receiver, property) => TypeErrorMessage(receiver, property)
  }

  /** The request for the input's city, with the configured API key, in metric units. */
  function WeatherRequest(configuration: Object, input: Value): (r: Result<WeatherQuery, WeatherError>)
    ensures r.Failure? <==> !Truthy(input)
    ensures r.Failure? ==> r.error == NoInput
    ensures r.Success? ==>
              r.value.uri == BaseUri && r.value.q == Prop(input, "city") && r.value.appid == Get(configuration, "api_key") && r.value.units == "metric"
  {
    if !Truthy(input) then Failure(NoInput)
    else Success(WeatherQuery(BaseUri, Prop(input, "city"), Get(configuration, "api_key"), "metric"))
  }

  // ---------------------------------------------------------------------------
  // Truncation: `list.filter((elem, index) => index < configuration.number_of_hours / 3)`

  /**
   * The number `number_of_hours` converts to, or `None` for NaN: `null` and
   * `false` convert to 0, `true` to 1, and a missing value to NaN.
   */
  function HoursBound(hours: Value): (bound: Option<int>)
    ensures bound.Some? <==> hours.Num? || hours.Null? || hours.Bool?
    ensures hours.Num? ==> bound == Some(hours.n)
    ensures bound.Some? && !Truthy(hours) ==> bound.value == 0
    ensures hours == Bool(true) ==> bound == Some(1)
  {
    match hours
    case Num(n) => Some(n)
    case Null => Some(0)
    case Bool(b) => Some(if b then 1 else 0)
    case _ => None
  }

  /** `index < hours / 3`, which is false for NaN. */
  predicate IndexKept(index: nat, bound: Option<int>) {
    bound.Some? && 3 * index < bound.value
  }

  /** How many leading entries the filter keeps: the hours divided by 3, rounded up, at most `len`. */
  function KeptCount(len: nat, bound: Option<int>): (k: nat)
    ensures k <= len
  {
    if bound.None? || bound.value <= 0 then 0
    else if len < (bound.value + 2) / 3 then len
    else (bound.value + 2) / 3
  }

  /** The filter, element by element: it keeps exactly the entries at indexes that pass, so a prefix. */
  function KeepByIndex<T>(list: seq<T>, bound: Option<int>): (kept: seq<T>)
    ensures kept == list[..KeptCount(|list|, bound)]
    ensures forall i :: 0 <= i < |list| ==> (i < |kept| <==> IndexKept(i, bound))
    decreases |list|
  {
    if list == [] then []
    else
      var last := |list| - 1;
      KeepByIndex(list[..last], bound) + (if IndexKept(last, bound) then [list[last]] else [])
  }

  // ---------------------------------------------------------------------------
  // Projection: `.map(elem => ({time, temp: {max, min}, weather}))`

  /** One entry's projection, or the TypeError of reading through a missing `main` or condition. */
  function Project(e: Entry): (r: Result<Hour, WeatherError>)
    ensures r.Success? <==> !IsNullish(e.main) && |e.weather| > 0 && !IsNullish(e.weather[0])
    ensures r.Success? ==>
              r.value == Hour(e.dt, Temp(Prop(e.main, "temp_max"), Prop(e.main, "temp_min")), Prop(e.weather[0], "main"))
    ensures IsNullish(e.main) ==> r == Failure(TypeError(e.main, "temp_max"))
    ensures !IsNullish(e.main) && (|e.weather| == 0 || IsNullish(e.weather[0])) ==>
              r == Failure(TypeError(if |e.weather| > 0 then e.weather[0] else Undefined, "main"))
  {
    if IsNullish(e.main) then Failure(TypeError(e.main, "temp_max"))
    else
      var condition := if |e.weather| > 0 then e.weather[0] else Undefined;
      if IsNullish(condition) then Failure(TypeError(condition, "main"))
      else Success(Hour(e.dt, Temp(Prop(e.main, "temp_max"), Prop(e.main, "temp_min")), Prop(condition, "main")))
  }

  /** The index of the first entry whose projection fails with `e`. */
  predicate FailsFirstAt(entries: seq<Entry>, i: int, e: WeatherError) {
    && 0 <= i < |entries|
    && Project(entries[i]) == Failure(e)
    && forall j :: 0 <= j < i ==> Project(entries[j]).Success?
  }

  /** A first failure in the tail is a first failure of the whole list, one index later. */
  lemma FirstFailureShifts(entries: seq<Entry>, e: WeatherError)
    requires |entries| > 0 && Project(entries[0]).Success?
    requires exists i :: FailsFirstAt(entries[1..], i, e)
    ensures exists i :: FailsFirstAt(entries, i, e)
  {
    var i :| FailsFirstAt(entries[1..], i, e);
    forall j | 0 <= j < i + 1 ensures Project(entries[j]).Success? {
      if j > 0 { assert entries[j] == entries[1..][j - 1]; }
    }
    assert FailsFirstAt(entries, i + 1, e);
  }

  /** `map`: every entry projected, in order; or the error of the first entry that fails. */
  function ProjectAll(entries: seq<Entry>): (r: Result<seq<Hour>, WeatherError>)
    ensures r.Success? <==> forall i :: 0 <= i < |entries| ==> Project(entries[i]).Success?
    ensures r.Success? ==>
              |r.value| == |entries| && forall i :: 0 <= i < |entries| ==> r.value[i] == Project(entries[i]).value
    ensures r.Failure? ==> exists i :: FailsFirstAt(entries, i, r.error)
    decreases |entries|
  {
    if entries == [] then Success([])
    else match Project(entries[0])
      case Failure(e) =>
        assert FailsFirstAt(entries, 0, e);
        Failure(e)
      case Success(hour) =>
        match ProjectAll(entries[1..])
        case Failure(e) =>
          FirstFailureShifts(entries, e);
          Failure(e)
        case Success(hours) => Success([hour] + hours)
  }

  // ---------------------------------------------------------------------------
  // The executor

  /** One call of the skill, given the service's answer to the request it issues. */
  function Execute(configuration: Object, input: Value, response: WeatherResponse): (r: Result<Report, WeatherError>)
    ensures !Truthy(input) ==> r == Failure(NoInput)
    ensures Truthy(input) && response.Failed? ==> r == Failure(Rethrown(response.error))
    ensures r.Success? ==>
              var n := KeptCount(|response.list|, HoursBound(Get(configuration, "number_of_hours")));
              && response.Answered?
              && r.value.city == response.city
              && |r.value.data| == n
              && forall i :: 0 <= i < n ==> Project(response.list[i]) == Success(r.value.data[i])
    ensures Truthy(input) && response.Answered? ==>
              var n := KeptCount(|response.list|, HoursBound(Get(configuration, "number_of_hours")));
              && (r.Success? <==> forall i :: 0 <= i < n ==> Project(response.list[i]).Success?)
              && (r.Failure? ==> exists i :: FailsFirstAt(response.list[..n], i, r.error))
    ensures Truthy(input) && response.Answered? && "number_of_hours" !in configuration ==>
              r == Success(Report([], response.city))
  {
    match WeatherRequest(configuration, input)
    case Failure(e) => Failure(e)
    case Success(_) =>
      match response
      case Failed(error) => Failure(Rethrown(error))
      case Answered(list, city) =>
        var kept := KeepByIndex(list, HoursBound(Get(configuration, "number_of_hours")));
        match ProjectAll(kept)
        case Failure(e) => Failure(e)
        case Success(data) => Success(Report(data, city))
  }

  /** No input: the executor rejects with `NO_INPUT`, whatever the service would answer. */
  lemma NoInputRejected(configuration: Object, response: WeatherResponse)
    ensures var r := Execute(configuration, Undefined, response);
            r.Failure? && Message(r.error) == "NO_INPUT"
  {
  }

  /** Twelve hours of a five-day forecast (40 entries) keep the first four entries. */
  lemma TwelveHoursKeepFour(list: seq<Entry>)
    requires |list| == 40
    ensures KeepByIndex(list, HoursBound(Num(12))) == list[..4]
  {
  }
}
