/** The state-alert tool `get_alert`: it builds the active-alerts URL for a
    state, takes what `make_call` returned for it, and either answers with one
    of two fixed messages or hands the collection to `format_alerts`. */
module Weather {
  import opened JsonValues
  import opened AlertFormat

  /** Base of the National Weather Service API. */
  const NwsApiBase: string := "https://api.weather.gov"

  /** Path of the active-alerts-by-area endpoint, up to the state code. */
  const AlertsPath: string := "/alerts/active/area/"

  /** The reply when the fetch failed or returned nothing. */
  const UnableMessage: string := "Unable to get alert"

  /** The reply when the fetch succeeded but carried no features. */
  const NoAlertsMessage: string := "No active alerts"

  /** Everything in an alerts URL before the state code. */
  function AlertsPrefix(): string
  {
    NwsApiBase + AlertsPath
  }

  /** The URL `get_alert` requests for `state`; the state code is appended
      as given, with no case folding or validation. */
  function AlertsUrl(state: string): (url: string)
    ensures AlertsPrefix() <= url
    ensures url[|AlertsPrefix()|..] == state
  {
    AlertsPrefix() + state
  }

  /** The state code an alerts URL was built from, if it is one. */
  function StateOf(url: string): (state: Option<string>)
    ensures state.Some? <==> AlertsPrefix() <= url
    ensures state.Some? ==> |state.value| == |url| - |AlertsPrefix()|
  {
    if AlertsPrefix() <= url then Some(url[|AlertsPrefix()|..]) else None
  }

  /** The state code is recovered unchanged from the URL built for it. */
  lemma {:induction false} StateOfAlertsUrl(state: string)
    ensures StateOf(AlertsUrl(state)) == Some(state)
  {
  }

  /** Conversely, a URL of the alerts endpoint is the one built for its state. */
  lemma {:induction false} AlertsUrlOfStateOf(url: string)
    requires StateOf(url).Some?
    ensures AlertsUrl(StateOf(url).value) == url
  {
  }

  /** Distinct state codes are sent to distinct URLs. */
  lemma {:induction false} AlertsUrlInjective(a: string, b: string)
    requires AlertsUrl(a) == AlertsUrl(b)
    ensures a == b
  {
  }

  /** What the HTTP exchange inside `make_call` produced: a decoded JSON body,
      or the text of the exception it raised. */
  datatype FetchOutcome = Fetched(body: Json) | Failed(message: string)

  /** The value `make_call` returns: the decoded body as it is, or the
      single-key mapping `{"error": message}`. */
  function MakeCall(outcome: FetchOutcome): (data: Json)
    ensures outcome.Failed? ==> data.Object? && "error" in data.fields && |data.fields| == 1
    ensures outcome.Failed? ==> data.fields["error"] == Str(outcome.message)
  {
    match outcome
    case Fetched(body) => body
    case Failed(message) => Object(map["error" := Str(message)])
  }

  /** What `get_alert` answers: one of its two fixed messages, or the records
      of `format_alerts`. */
  datatype Reply = Message(text: string) | Alerts(records: seq<AlertRecord>)

  /** The first guard of `get_alert`: the fetch gave nothing, or an error. */
  predicate FetchFailed(data: Json)
    requires Truthy(data) ==> SupportsIn(data)
  {
    !Truthy(data) || Contains(data, "error")
  }

  /** A fetch result on which `get_alert` does not raise: `"error" in data`
      is defined when it is evaluated, `data.get` exists when it is reached,
      and the features handed to `format_alerts` can be iterated. */
  predicate Handled(data: Json)
  {
    Truthy(data) ==>
      && SupportsIn(data)
      && (Contains(data, "error")
          || (data.Object? &&
              (Truthy(Get(data.fields, "features")) ==> WellFormedCollection(data.fields))))
  }

  /** The decision of `get_alert` once the fetch result `data` is known. Its
      three exits are taken exactly under their conditions, the error check
      first; a list of records is never empty. */
  function Respond(data: Json): (reply: Reply)
    requires Handled(data)
    ensures reply == Message(UnableMessage) <==> FetchFailed(data)
    ensures reply == Message(NoAlertsMessage) <==>
              !FetchFailed(data) && !Truthy(Get(data.fields, "features"))
    ensures reply.Alerts? <==>
              !FetchFailed(data) && Truthy(Get(data.fields, "features"))
    ensures reply.Alerts? ==>
              data.fields["features"].Array? &&
              |reply.records| == |data.fields["features"].items| > 0
    ensures reply.Alerts? ==> reply.records == FormatAlerts(data.fields)
  {
    if !Truthy(data) || Contains(data, "error") then
      Message(UnableMessage)
    else if !Truthy(Get(data.fields, "features")) then
      Message(NoAlertsMessage)
    else
      Alerts(FormatAlerts(data.fields))
  }

  /** `get_alert(state)`, with `make_call` supplied as `fetch`: the outcome of
      fetching each URL. */
  function GetAlert(state: string, fetch: string -> FetchOutcome): (reply: Reply)
    requires Handled(MakeCall(fetch(AlertsUrl(state))))
    ensures fetch(AlertsUrl(state)).Failed? ==> reply == Message(UnableMessage)
    ensures reply.Alerts? ==>
              && fetch(AlertsUrl(state)).Fetched?
              && fetch(AlertsUrl(state)).body.Object?
              && WellFormedCollection(fetch(AlertsUrl(state)).body.fields)
              && reply.records == FormatAlerts(fetch(AlertsUrl(state)).body.fields)
  {
    var data := MakeCall(fetch(AlertsUrl(state)));
    Respond(data)
  }

  /** Every failure of the fetch, whatever its message (even an empty one),
      is handled and answered with "Unable to get alert". */
  lemma {:induction false} FailureIsUnable(message: string)
    ensures Handled(MakeCall(Failed(message)))
    ensures Respond(MakeCall(Failed(message))) == Message(UnableMessage)
  {
  }

  /** The error check comes before the features check: a mapping with an
      `error` key is answered "Unable to get alert" however many features it has. */
  lemma {:induction false} ErrorCheckedFirst(fields: map<string, Json>)
    requires "error" in fields
    ensures Handled(Object(fields))
    ensures Respond(Object(fields)) == Message(UnableMessage)
  {
  }

  /** `get_alert` requests only the alerts URL of `state`: two fetchers that
      agree on that one URL give the same reply. */
  lemma {:induction false} OnlyAlertsUrlFetched(state: string, f: string -> FetchOutcome, g: string -> FetchOutcome)
    requires f(AlertsUrl(state)) == g(AlertsUrl(state))
    requires Handled(MakeCall(f(AlertsUrl(state))))
    ensures Handled(MakeCall(g(AlertsUrl(state))))
    ensures GetAlert(state, f) == GetAlert(state, g)
  {
  }

  /** The URL built for California. */
  lemma UrlForCalifornia()
    ensures AlertsUrl("CA") == "https://api.weather.gov/alerts/active/area/CA"
  {
  }

  /** A timeout reported by the fetch gives "Unable to get alert". */
  lemma TimeoutExample()
    ensures GetAlert("ZZ", _ => Failed("timeout")) == Message(UnableMessage)
  {
  }

  /** An empty feature list gives "No active alerts". */
  lemma EmptyFeaturesExample()
    ensures GetAlert("TX", _ => Fetched(Object(map["features" := Array([])]))) == Message(NoAlertsMessage)
  {
  }

  /** One flood warning for Travis County comes back as one record: `id`,
      `event` and `area` filled in, the other thirteen fields `None`. */
  lemma TravisCountyExample()
    ensures GetAlert("TX", _ => Fetched(Object(map["features" := Array([
              Object(map["properties" := Object(map[
                "id" := Str("A1"), "event" := Str("Flood Warning"), "areaDesc" := Str("Travis County")])])])])))
            == Alerts([AlertRecord(Str("A1"), Str("Flood Warning"), Str("Travis County"),
                                   Null, Null, Null, Null, Null, Null, Null, Null, Null, Null, Null, Null, Null)])
  {
  }

  /** Python's `in` on a list tests elements: a decoded list body holding the
      string "error" takes the first exit too. */
  lemma ErrorElementInList()
    ensures Respond(Array([Number(1.0), Str("error")])) == Message(UnableMessage)
  {
  }
}
