# Weather alerts adapter: a Dafny model

This project models the pure part of the weather tool server `weather.py`.
That server has three tools: `make_call`, `format_alerts` and `get_alert`.

- `format_alerts` turns a National Weather Service GeoJSON alert collection
  into a list of flat alert records. Each record has sixteen fixed keys.
- `get_alert` builds the active-alerts URL for a state and takes what
  `make_call` returned for it. It answers "Unable to get alert" or
  "No active alerts", or it returns the formatted records.
- `make_call` is modelled only by the shape of its result. That result is the
  decoded body, or the mapping `{"error": message}` when the request raised.

Files:

- `json.dfy` (module `JsonValues`): decoded JSON values. It also holds the
  Python semantics the tools rely on: truthiness, `dict.get`, and `in` on
  mappings, lists and strings. Python's `None` is the JSON `Null`.
- `alerts.dfy` (module `AlertFormat`): the `AlertRecord` datatype, the table
  `FieldMap` of record keys and the properties they come from, and
  `format_alerts` with its properties.
- `weather.dfy` (module `Weather`): the URL template, `make_call`'s result
  shape, and the three exits of `get_alert`.

Python raises on some ill-typed shapes. The model states these as
preconditions and does not model the crashes:

- `AlertFormat.WellFormedFeature`: each feature is a mapping, and its
  `properties`, when present, is a mapping.
- `AlertFormat.WellFormedCollection`: `features`, when present, is a list of
  such features. An empty string or an empty mapping is also accepted, since
  Python iterates over them without raising.
- `Weather.Handled`: `"error" in data` must be defined when it is evaluated,
  `data.get` must exist when it is reached, and the collection must be well
  formed whenever `format_alerts` is called.

## Model

| member | source | states |
|---|---|---|
| AlertFormat.FormatProperties | weather.py:37-55 | the record built from one `properties` mapping holds, at position i, key `FieldMap[i].0` and the value of `props.get(FieldMap[i].1)` |
| AlertFormat.FeatureList | weather.py:36 | the features iterated are the `features` list; a missing `features` key gives no features |
| AlertFormat.FormatFeatures | weather.py:34-58 | the loop yields exactly one record per feature, in the same order; record i is built from feature i's `properties` |
| AlertFormat.FormatAlerts | weather.py:29-58 | `format_alerts` returns one record per element of `features`, in order; without a `features` key it returns the empty list |
| AlertFormat.FormatFeaturesAppend | weather.py:36-56 | features are formatted independently: formatting a concatenation gives the concatenation of the formatted parts, so nothing is filtered, merged or reordered |
| AlertFormat.OnlyPropertiesMatter | weather.py:36-37 | only `properties` is read from a feature: feature lists whose `properties` agree pairwise on the read keys format alike, whatever their other fields |
| AlertFormat.FormatDependsOnlyOnReadProperties | weather.py:37-55 | two `properties` mappings give the same record if and only if `props.get` agrees on the sixteen read properties |
| AlertFormat.CopiedFromInvertsFormat | weather.py:38-55 | each read property is found again in the record field it was copied to; an unread property is found nowhere |
| AlertFormat.RecoverAfterFormat | weather.py:37-55 | round trip: the non-null read properties can be recovered exactly from the record |
| AlertFormat.RecoverAfterFormatExact | weather.py:37-55 | a `properties` mapping with only read, non-null properties is recovered unchanged from its record |
| AlertFormat.RecordHasExactlyTheKeys | weather.py:38-55 | a record, seen as a dictionary, has a key exactly when it is one of the sixteen record keys |
| AlertFormat.FieldHoldsProperty | weather.py:38-55 | looking up record key `FieldMap[i].0` gives property `FieldMap[i].1`; `area` holds `areaDesc`, `sender` holds `senderName`, and every other key holds the property of the same name |
| AlertFormat.MissingPropertyGivesNone | weather.py:39-54 | a property missing from `properties` gives `None` under its record key, and the key is still present |
| AlertFormat.NoPropertiesAllNone | weather.py:37 | a feature without `properties` gives a record whose sixteen fields are all `None` |
| JsonValues.IsSubstringAt | weather.py:71 | the recursive substring test behind `"error" in data` on a string holds exactly when the text occurs at some position |
| Weather.AlertsUrl | weather.py:68 | the URL is the base URL, then `/alerts/active/area/`, then the state code unchanged |
| Weather.StateOfAlertsUrl | weather.py:68 | round trip: the state code is read back unchanged from the URL built for it |
| Weather.AlertsUrlOfStateOf | weather.py:68 | round trip: an alerts-endpoint URL is the URL built for the state code it ends with |
| Weather.AlertsUrlInjective | weather.py:68 | different state codes are sent to different URLs, so no code is folded or normalised |
| Weather.UrlForCalifornia | weather.py:68 | the URL for "CA" is exactly `https://api.weather.gov/alerts/active/area/CA` |
| Weather.MakeCall | weather.py:24-25 | a failed request becomes the one-key mapping `{"error": message}` |
| Weather.Respond | weather.py:71-77 | "Unable to get alert" exactly when the result is falsy or contains `error`; "No active alerts" exactly when it does not but `features` is falsy; otherwise the non-empty list `format_alerts(data)` with one record per feature |
| Weather.GetAlert | weather.py:62-77 | a failed fetch of the alerts URL gives "Unable to get alert"; a list of records is `format_alerts` of the fetched mapping |
| Weather.FailureIsUnable | weather.py:71-72 | every error value `{"error": message}` from `make_call` (weather.py:25), whatever the message, is handled and answered "Unable to get alert" |
| Weather.ErrorCheckedFirst | weather.py:71-75 | a mapping with an `error` key is answered "Unable to get alert" even when it carries features: the error check comes first |
| Weather.OnlyAlertsUrlFetched | weather.py:68-69 | the reply depends only on what the fetch returns for the state's alerts URL |
| Weather.ErrorElementInList | weather.py:71 | `in` on a list tests elements, so a list body containing the string "error" is answered "Unable to get alert" |
| Weather.TimeoutExample | weather.py:71-72 | a fetch that fails with "timeout" gives "Unable to get alert" |
| Weather.EmptyFeaturesExample | weather.py:74-75 | a fetch returning `{"features": []}` gives "No active alerts" |
| Weather.TravisCountyExample | weather.py:62-77 | one flood-warning feature with `id`, `event` and `areaDesc` gives one record with those three fields and thirteen `None` fields |

## Left out

- The HTTP exchange in `make_call` (weather.py:14-23) is left out: the client, its headers, the 30-second timeout, `raise_for_status` and JSON decoding. It is network I/O. `Weather.FetchOutcome` stands for its result, and `GetAlert` takes the fetch as a parameter. `USER_AGENT` (weather.py:8) is used only in those headers.
- `async`/`await` is left out. Nothing runs concurrently, so every tool is a pure function.
- FastMCP registration (`@mcp.tool()`) and the stdio server entry point (weather.py:3-5, 80-82) are left out. They are framework plumbing.
- Python faults on ill-typed shapes are preconditions, not modelled errors. Examples: a truthy number or boolean reaching `"error" in data`, a list or string reaching `data.get`, `features` bound to a non-empty string, a number or `None`, and `properties` bound to a non-mapping.
- JSON numbers are exact `real`s. Python float rounding and NaN are left out. The only thing the tools do with a number is test its truthiness.
- The key order of the decoded input mappings is left out. Inputs are `map`s, because the tools only look keys up. Output records keep their key order (`AlertFormat.Entries`).
- Determinism of `format_alerts` holds by construction: Dafny functions are pure, so no lemma states it.
