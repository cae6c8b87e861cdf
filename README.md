# utopia-php/analytics in Dafny

A model of the analytics library `utopia-php/analytics` with proofs about it. The library turns an
`Event` (type, URL, name, value and an ordered property array) into HTTP requests for one of several
backends: ClickHouse, Mixpanel, Orbit, ReoDev, Plausible, Google Analytics (the adapter and the older
stand-alone tracker), ActiveCampaign and HubSpot. It then reads each backend's answer as a result.

How the model is put together:

- **Events and the gate.** `Event` is a class whose setters change it in place. `Gate.Analytics` is the
  enable/disable switch, a class with one boolean field.
- **Values.** PHP values are `Php.Value`. PHP arrays are `Php.Assoc`, a sequence of key/value pairs
  that keeps insertion order. The array built-ins the adapters use are functions with their map
  laws proved: `$a[$k] = v`, `unset`, `array_merge`, `array_filter`, `??` and `isset`. So are
  `empty()`, PHP 8's loose `>` and `==`, and the `(string)` cast. `'0'` and `''` are falsy.
- **The transport.** Each HTTP round trip is one recorded `Http.Request` (method, URL, headers, body)
  answered by one `Http.Reply` that the caller supplies. A reply carries a transport failure (curl
  reported an error, or the HTTP helper threw), or else a status, raw header lines and a body.
- **Results.** An operation returns an `Http.Outcome`: the requests it made, in order, and what it
  returned or threw.
- **Requests to the base class.** Several adapters hand a path and an array to the adapter base
  class's `call()`/`execute()`, or to the fetch library. For those, the model records that path and
  that array as they are handed over. The base class is not part of this model.
- **Library functions.** `json_encode`, `json_decode` and `parse_url` are fields of a `Php.Runtime`
  value, so any behaviour of theirs is allowed. `http_build_query` is kept symbolic, as the array it
  would encode.
- **Form of the code.** The parts of the source that change state are imperative Dafny:
  - the `Event` setters and the gate;
  - the ClickHouse adapter object with its `schemaEnsured` flag;
  - the loops of ClickHouse `send`, `buildDimensions`, the `param_` payload and the header callback;
  - Mixpanel's property copy, ReoDev's `unset`s and HubSpot's association search.

  Each of these is a method proved equal to a specification function. The properties the library
  promises are proved as lemmas about those functions.

Two behaviours are modelled as written and stated by lemmas, not corrected:

- **ClickHouse meta keys.** The reserved-key list holds the dimension column names, not the prop
  keys they are read from. So a prop such as `referrer_source` fills its column and also appears
  again among the meta keys (`ClickHouseRows.PropBackedColumnsRepeatInMeta`).
- **Plausible goal names.** `send` provisions the goal under the event type, but `validate` filters
  on the event name (`Plausible.GoalNamesDiffer`).

## Model

| member | source | states |
|---|---|---|
| Events.Event.constructor | src/Analytics/Event.php:10-24 | a new event has type, URL and name '', a null value and no props |
| Events.Event.SetType | src/Analytics/Event.php:37-42 | the type reads back as set, nothing else changes, the same object is returned |
| Events.Event.SetUrl | src/Analytics/Event.php:55-60 | the URL reads back as set, nothing else changes, the same object is returned |
| Events.Event.SetName | src/Analytics/Event.php:73-78 | the name reads back as set, nothing else changes, the same object is returned |
| Events.Event.SetValue | src/Analytics/Event.php:91-96 | the value (or null) reads back as set, nothing else changes, the same object is returned |
| Events.Event.GetProp | src/Analytics/Event.php:133-140 | a missing key reads null, a present key reads its stored value |
| Events.Event.AddProp | src/Analytics/Event.php:111-116 | the key reads the new string and every other key reads as before; a new key is appended last, an existing one is overwritten in its slot; keys stay unique |
| Events.Event.RemoveProp | src/Analytics/Event.php:121-128 | the key reads null and is gone, the other entries keep values and order; removing an absent key changes nothing |
| Events.Event.SetProps | src/Analytics/Event.php:147-152 | the props become exactly the given array, other fields unchanged |
| Events.Build | src/Analytics/Event.php:37-116 | chained setters on a fresh event all act on that one object, which reads back everything set |
| Gate.Analytics.constructor | src/Analytics/Analytics.php:19 | a new instance is enabled |
| Gate.Analytics.Enable | src/Analytics/Analytics.php:24-27 | afterwards enabled is true, whatever it was |
| Gate.Analytics.Disable | src/Analytics/Analytics.php:32-35 | afterwards enabled is false, whatever it was |
| Gate.LastCallWins | src/Analytics/Analytics.php:24-35 | after any non-empty sequence of calls the state is set by the last call |
| Gate.RepeatIsIdempotent | src/Analytics/Analytics.php:24-35 | repeating enable (or disable) any number of times equals doing it once |
| ClickHouseRows.GuardIdentifierAsWritten | src/Analytics/Adapter/ClickHouse.php:426-431 | the guard as written passes exactly what the PCRE pattern without the D modifier matches, and otherwise throws "Invalid ClickHouse identifier: " + name |
| ClickHouseRows.GuardAdmitsTrailingNewline | src/Analytics/Adapter/ClickHouse.php:428 | "events\n" passes the guard as written although it is not an identifier |
| ClickHouseRows.GuardIdentifier | src/Analytics/Adapter/ClickHouse.php:426-431 | the intended guard passes exactly the names matching `[A-Za-z_][A-Za-z0-9_]*`, and otherwise throws the same error |
| ClickHouseRows.GuardsAgreeOffNewline | src/Analytics/Adapter/ClickHouse.php:428 | both guards agree on every name without a final newline |
| ClickHouseRows.ConfigureAsWritten | src/Analytics/Adapter/ClickHouse.php:46-61 | the constructor as written succeeds iff the guard as written passes both database and table (so one final "\n" is accepted); the database is checked first; on success the endpoint loses its trailing '/'s and the other settings are kept |
| ClickHouseRows.ConstructorAdmitsTrailingNewline | src/Analytics/Adapter/ClickHouse.php:53-55 | the constructor as written accepts the database "analytics\n", which the corrected constructor refuses with the identifier error |
| ClickHouseRows.ConstructorsAgreeOffNewline | src/Analytics/Adapter/ClickHouse.php:53-55 | on names without a final newline the two constructors give the same result |
| ClickHouseRows.Configure | src/Analytics/Adapter/ClickHouse.php:46-61 | the corrected constructor: succeeds iff database and table are identifiers; the database is checked first; on success the endpoint loses exactly its trailing '/'s and the other settings are kept |
| ClickHouseRows.ValidateEvent | src/Analytics/Adapter/ClickHouse.php:332-345 | an event passes iff type, URL and name are all non-empty in PHP's sense; otherwise it throws the message of the first empty one, checked in that order |
| ClickHouseRows.FirstInvalidIsFirst | src/Analytics/Adapter/ClickHouse.php:83-84 | a batch fails iff some event fails, and then with the error of its first failing event |
| ClickHouseRows.FirstInvalidSnoc | src/Analytics/Adapter/ClickHouse.php:83-84 | a batch that has passed so far, extended by one event, fails exactly when that event fails, and with its error |
| ClickHouseRows.FirstInvalidOfPrefix | src/Analytics/Adapter/ClickHouse.php:83-84 | once a prefix of the batch has failed, the whole batch fails with that error |
| ClickHouseRows.PathNameSplits | src/Analytics/Adapter/ClickHouse.php:361-363 | the path name splits at its first '?' back into path (or '/') and query, and has no '?' without a query |
| ClickHouseRows.DimensionKeys | src/Analytics/Adapter/ClickHouse.php:367-392 | every event's dimension keys are the same 22 column names, in order |
| ClickHouseRows.DimensionReadsProp | src/Analytics/Adapter/ClickHouse.php:373-389 | each prop-backed column holds its prop, or '' when missing or null (null for the two revenue amounts) |
| ClickHouseRows.MetaValueReadsBack | src/Analytics/Adapter/ClickHouse.php:412-419 | a string meta value is itself, an int's text parses back to the int, a bool is "1" or "" |
| ClickHouseRows.MetaKeysExactly | src/Analytics/Adapter/ClickHouse.php:392-404 | a key is a meta key iff it is a prop key and not a reserved column name |
| ClickHouseRows.PropBackedColumnsRepeatInMeta | src/Analytics/Adapter/ClickHouse.php:374-398 | a present prop feeding a column is repeated as a meta key iff its prop key is not itself a column name (true of `referrer_source`, false of `referrer`) |
| ClickHouseRows.MetaAligned | src/Analytics/Adapter/ClickHouse.php:397-404 | metaKey and metaValue have the same length, and each value is the stringified prop of the key at the same position |
| ClickHouseRows.MetaKeysInPropOrder | src/Analytics/Adapter/ClickHouse.php:397-404 | the meta keys of earlier props come before those of later ones |
| ClickHouseRows.RowTail | src/Analytics/Adapter/ClickHouse.php:88-94 | the five appended columns are metaKey, metaValue, userAgent, clientIp and createdAt, each once |
| ClickHouseRows.TailColumnsAreNew | src/Analytics/Adapter/ClickHouse.php:88-94 | none of the five appended columns is a dimension column |
| ClickHouseRows.RowShape | src/Analytics/Adapter/ClickHouse.php:88-130 | a row's keys are the dimension columns then metaKey, metaValue, userAgent, clientIp, createdAt, matching the INSERT column list, and it starts with the dimensions unchanged |
| ClickHouseRows.Rows | src/Analytics/Adapter/ClickHouse.php:82-95 | one row per event |
| ClickHouseAdapter.ParamPayloadIsPrefixed | src/Analytics/Adapter/ClickHouse.php:246-250 | with distinct names, every parameter appears once under `param_` + its name, in order |
| ClickHouseAdapter.QueryParamsShape | src/Analytics/Adapter/ClickHouse.php:252-259 | the query is database, user, the `param_` parameters, and the password only when it is non-empty |
| ClickHouseAdapter.JsonLines | src/Analytics/Adapter/ClickHouse.php:267-270 | one JSON text per row, in order |
| ClickHouseAdapter.BodyCarriesRows | src/Analytics/Adapter/ClickHouse.php:263-273 | with rows, splitting the body at newlines gives the SQL's lines then each row's JSON, in order |
| ClickHouseAdapter.ParseHeaderLine | src/Analytics/Adapter/ClickHouse.php:287-295 | a header line is skipped iff it has no ':' |
| ClickHouseAdapter.HeaderAbsent | src/Analytics/Adapter/ClickHouse.php:287-298 | a header is absent iff no line names it |
| ClickHouseAdapter.HeaderLastWins | src/Analytics/Adapter/ClickHouse.php:295 | a header reads the value of the last line naming it |
| ClickHouseAdapter.ReturnArrayOrString | src/Analytics/Adapter/ClickHouse.php:244 | the `array\|string` return type passes arrays and strings, casts bools and ints to strings, and raises a TypeError for null |
| ClickHouseAdapter.Interpret | src/Analytics/Adapter/ClickHouse.php:303-323 | a transport error throws with its message and status; a status of 400 or more throws the body, or a fixed message when the body is empty; a body is decoded when JSON is expected or when the content type starts with `application/json`, and a decode failure throws; any other answer is the raw body |
| ClickHouseAdapter.SendWithoutRequest | src/Analytics/Adapter/ClickHouse.php:76-99 | disabled, or given an empty batch, `send` returns false with no request; a batch with an invalid event throws the first invalid event's error with no request |
| ClickHouseAdapter.InvalidEventSendsNothing | src/Analytics/Adapter/ClickHouse.php:76-99 | one invalid event anywhere in an enabled batch means no request is sent and `send` throws |
| ClickHouseAdapter.InsertSqlLines | src/Analytics/Adapter/ClickHouse.php:101-131 | with newline-free names the INSERT text is the target line, then one line per row column in row order, then the format clause |
| ClickHouseAdapter.SendsOneRowPerEvent | src/Analytics/Adapter/ClickHouse.php:80-137 | a valid batch gives exactly one POST whose body lines are the INSERT then one JSON row per event in order; true iff the response passes the rules of `execute` |
| ClickHouseAdapter.ValidateReadsCount | src/Analytics/Adapter/ClickHouse.php:151-163 | the SELECT binds type, name and URL as `param_` parameters; for a count n, as an int or as its text, `validate` is true iff n > 0 |
| ClickHouseAdapter.SelectQuery | src/Analytics/Adapter/ClickHouse.php:157-161 | the SELECT's query parameters are exactly database, user, param_eventType, param_eventName, param_url and the optional password |
| ClickHouseAdapter.CountReadsBack | src/Analytics/Adapter/ClickHouse.php:163 | `cnt > 0` on a quoted or unquoted count n holds iff n > 0 |
| ClickHouseAdapter.ValidateNeedsCount | src/Analytics/Adapter/ClickHouse.php:157-163 | true only when enabled, valid, answered and counted above zero; an answer without `cnt` never validates |
| ClickHouseAdapter.ClickHouse.constructor | src/Analytics/Adapter/ClickHouse.php:46-61 | a new adapter is enabled, has client IP '', no user agent, and has not created its table |
| ClickHouseAdapter.ClickHouse.Create | src/Analytics/Adapter/ClickHouse.php:46-61 | construction, with the corrected guard, throws exactly the identifier error, and otherwise yields a fresh enabled adapter with the configured settings |
| ClickHouseAdapter.ClickHouse.BuildDimensions | src/Analytics/Adapter/ClickHouse.php:359-407 | the loop yields the dimensions and the meta keys and values of the specification |
| ClickHouseAdapter.ClickHouse.BuildRow | src/Analytics/Adapter/ClickHouse.php:86-94 | the row built is the specified row |
| ClickHouseAdapter.ClickHouse.BuildParamPayload | src/Analytics/Adapter/ClickHouse.php:246-250 | the loop yields the specified `param_` payload |
| ClickHouseAdapter.ClickHouse.CollectHeaders | src/Analytics/Adapter/ClickHouse.php:287-298 | the callback run over the lines yields the specified header array |
| ClickHouseAdapter.ClickHouse.Execute | src/Analytics/Adapter/ClickHouse.php:244-327 | the one POST sent and the result are those of the specification |
| ClickHouseAdapter.ClickHouse.BuildRows | src/Analytics/Adapter/ClickHouse.php:80-95 | the loop stops with the error of the first invalid event of the batch; when none fails, it has built one row per event, in order |
| ClickHouseAdapter.ClickHouse.Send | src/Analytics/Adapter/ClickHouse.php:74-138 | the validating, row-building loop and the INSERT behave as the specified `send` |
| ClickHouseAdapter.ClickHouse.Validate | src/Analytics/Adapter/ClickHouse.php:143-164 | behaves as the specified `validate` |
| ClickHouseAdapter.ClickHouse.Setup | src/Analytics/Adapter/ClickHouse.php:180-232 | with the flag set, nothing is sent; otherwise one CREATE, and the flag is set iff it succeeded |
| ClickHouseAdapter.ClickHouse.ResetStorage | src/Analytics/Adapter/ClickHouse.php:170-175 | a failed DROP throws with the flag untouched; otherwise DROP then CREATE always, and the flag reflects the CREATE |
| ClickHouseAdapter.SetupTwice | src/Analytics/Adapter/ClickHouse.php:182-184 | after a successful `setup` a second one sends nothing |
| Mixpanel.CopyUnsetGet | src/Analytics/Adapter/Mixpanel.php:54-58 | the copy keeps a key already set in the base, and otherwise reads the prop, or the base when there is none |
| Mixpanel.CopyUnsetKeys | src/Analytics/Adapter/Mixpanel.php:54-58 | the keys are the base keys, then the other prop keys in prop order |
| Mixpanel.PropertiesKeepBase | src/Analytics/Adapter/Mixpanel.php:48-58 | token, time (prop or now) and distinct_id are never overridden, and every other prop passes through under its key |
| Mixpanel.PropertiesOrder | src/Analytics/Adapter/Mixpanel.php:48-58 | the property keys are token, time, distinct_id, then the remaining prop keys in order |
| Mixpanel.BuildProperties | src/Analytics/Adapter/Mixpanel.php:48-58 | the copy loop yields the specified properties |
| Mixpanel.Send | src/Analytics/Adapter/Mixpanel.php:42-77 | behaves as the specified `send` |
| Mixpanel.SendRule | src/Analytics/Adapter/Mixpanel.php:44-76 | one `/track` POST iff distinct_id is truthy (the enabled flag is not read); true iff the answer is exactly '1' |
| Mixpanel.Validate | src/Analytics/Adapter/Mixpanel.php:99-114 | behaves as the specified `validate` |
| Mixpanel.ValidateRule | src/Analytics/Adapter/Mixpanel.php:99-114 | false iff disabled; an empty distinct_id throws before any request; a send that returns false throws; otherwise true |
| Http.NotImplemented | src/Analytics/Adapter/ReoDev.php:97-120 | `setClientIP`, `setUserAgent` and `validate` of the ReoDev adapter, and `setClientIP` and `setUserAgent` of the Mixpanel (Mixpanel.php:84-97) and Orbit (Orbit.php:110-124) adapters, always throw "Not implemented" |
| Orbit.Configure | src/Analytics/Adapter/Orbit.php:60-65 | the endpoint is the base URL followed by the workspace id |
| Orbit.SendRule | src/Analytics/Adapter/Orbit.php:73-102 | no request iff the email is falsy (then false); otherwise one POST, and true unless it threw |
| Orbit.ActivityEntries | src/Analytics/Adapter/Orbit.php:79-90 | the title and activity type are kept exactly when not '' |
| Orbit.IdentityEntries | src/Analytics/Adapter/Orbit.php:84-91 | past the guard the email is always kept; the username only when not null or ''; the source unless '' |
| ReoDev.Configure | src/Analytics/Adapter/ReoDev.php:41-46 | the settings are kept and the endpoint is the default |
| ReoDev.Send | src/Analytics/Adapter/ReoDev.php:51-90 | the three `unset`s and the PUT behave as the specified `send` |
| ReoDev.StripsIdentity | src/Analytics/Adapter/ReoDev.php:57-60 | the three `unset`s drop exactly email, name and account |
| ReoDev.DataKeepsOtherProps | src/Analytics/Adapter/ReoDev.php:57-62 | every prop other than email, name and account reaches `data` unchanged |
| ReoDev.SendRule | src/Analytics/Adapter/ReoDev.php:53-89 | no request iff the email is falsy; otherwise one PUT whose entity is keyed by the email, and true unless it threw |
| Plausible.Configure | src/Analytics/Adapter/Plausible.php:62-68 | the four settings are kept |
| Plausible.ProvisionGoal | src/Analytics/Adapter/Plausible.php:115-136 | one goal PUT, then true unless it threw |
| Plausible.SendOrder | src/Analytics/Adapter/Plausible.php:75-108 | disabled: false with no request; enabled: the goal PUT comes first and the event POST follows unless the PUT threw; true iff neither threw |
| Plausible.EventFields | src/Analytics/Adapter/Plausible.php:85-92 | the event's keys in order; name is the event type; referrer and screen_width are the props or null |
| Plausible.ValidateRule | src/Analytics/Adapter/Plausible.php:138-170 | disabled gives false; an empty type, then an empty URL, throws before any request; a missing visitor count throws; otherwise `value > 0`, which on an int count is the integer comparison |
| Plausible.GoalNamesDiffer | src/Analytics/Adapter/Plausible.php:152-155 | `validate` filters on a goal named after the event name, while `send` provisions one named after the type |
| GoogleAnalyticsAdapter.CreateEvent | src/Analytics/Adapter/GoogleAnalytics.php:59-78 | disabled: false with no request (what tests/Analytics/AnalyticsTest.php:56-58 expects of this adapter); enabled: one form POST of the event hit, true unless it threw |
| GoogleAnalyticsAdapter.CreatePageView | src/Analytics/Adapter/GoogleAnalytics.php:94-112 | disabled: false with no request; enabled: one form POST of the page-view hit, true unless it threw |
| GoogleAnalyticsAdapter.HitFields | src/Analytics/Adapter/GoogleAnalytics.php:73-76 | the merged hit is tid, cid, v = 1, then the query fields in order, none overridden |
| LegacyGoogleAnalytics.Execute | src/Analytics/GoogleAnalytics.php:112-144 | one form POST to the collect URL; for a query with unique keys other than tid, cid and v the fields are tid, cid, v then the query; a curl error throws "Error:" + message, otherwise true |
| LegacyGoogleAnalytics.HitForms | src/Analytics/GoogleAnalytics.php:61-144 | the event and page-view hits post tid, cid and v followed by their own fields in order |
| LegacyGoogleAnalytics.GoogleAnalytics.constructor | src/Analytics/GoogleAnalytics.php:36-40 | the tracker keeps tid and cid and starts enabled |
| LegacyGoogleAnalytics.GoogleAnalytics.CreateEvent | src/Analytics/GoogleAnalytics.php:61-77 | disabled: false with no request; otherwise the execute of {ec, ea, el, ev, t: event} |
| LegacyGoogleAnalytics.GoogleAnalytics.CreatePageView | src/Analytics/GoogleAnalytics.php:95-110 | disabled: false with no request; otherwise the execute of {dh, dp, dt, t: pageview} |
| LegacyGoogleAnalytics.DisableThenEnable | src/Analytics/GoogleAnalytics.php:63-65 | a disabled tracker returns false with no request; enabled again it posts once and is left enabled |
| ActiveCampaign.Configure | src/Analytics/Adapter/ActiveCampaign.php:183-190 | the five settings are kept |
| ActiveCampaign.ContactExists | src/Analytics/Adapter/ActiveCampaign.php:78-101 | one GET; false on a transport error or when meta.total is not above zero, otherwise the first contact's id |
| ActiveCampaign.ContactExistsReadsTotal | src/Analytics/Adapter/ActiveCampaign.php:96-100 | on an answer with total n, the first contact's id when n > 0 and false otherwise |
| ActiveCampaign.NoCountNoContact | src/Analytics/Adapter/ActiveCampaign.php:96-100 | a body that is not JSON, or has no total, means no contact |
| ActiveCampaign.CreateContact | src/Analytics/Adapter/ActiveCampaign.php:111-140 | never throws; true iff no transport error and status 201 |
| ActiveCampaign.DeleteContactRule | src/Analytics/Adapter/ActiveCampaign.php:148-174 | the DELETE is sent iff the lookup found a truthy id, and it names that id; true iff it answered 200 |
| ActiveCampaign.CreateEvent | src/Analytics/Adapter/ActiveCampaign.php:198-238 | disabled: false with no request; enabled: one form POST; true iff no transport error |
| ActiveCampaign.EventFormFields | src/Analytics/Adapter/ActiveCampaign.php:204-212 | key, event and actid are posted exactly when not ''; the two JSON fields whenever their text is non-empty |
| HubSpot.Configure | src/Analytics/Adapter/HubSpot.php:16-21 | the only default header is `Authorization: Bearer <token>` |
| HubSpot.Track | src/Analytics/Adapter/HubSpot.php:26-44 | `send` and `validate` make no request and return the enabled flag |
| HubSpot.ExistsNeverThrows | src/Analytics/Adapter/HubSpot.php:57-84 | the search makes one GET and never throws an Exception; a thrown call or a non-JSON body gives false |
| HubSpot.ExistsReadsTotal | src/Analytics/Adapter/HubSpot.php:74-78 | on an answer with total n, the first result's id when n > 0 and false otherwise |
| HubSpot.ContactExists | src/Analytics/Adapter/HubSpot.php:57-84 | a search for an `email EQ` filter on contacts |
| HubSpot.AccountExists | src/Analytics/Adapter/HubSpot.php:163-190 | a search for a `name EQ` filter on companies |
| HubSpot.CreateContact | src/Analytics/Adapter/HubSpot.php:89-109 | one POST of the contact; true iff it did not throw |
| HubSpot.UpdateContact | src/Analytics/Adapter/HubSpot.php:114-134 | one PATCH of the contact by id; true iff it did not throw |
| HubSpot.DeleteContactRule | src/Analytics/Adapter/HubSpot.php:139-158 | the DELETE is sent iff the search found a truthy id, and it names that id; true iff it went through |
| HubSpot.CreateAccount | src/Analytics/Adapter/HubSpot.php:195-213 | one POST of name and domain; true iff it did not throw |
| HubSpot.UpdateAccount | src/Analytics/Adapter/HubSpot.php:218-236 | one PATCH of name and domain by id; true iff it did not throw |
| HubSpot.DeleteAccount | src/Analytics/Adapter/HubSpot.php:241-254 | one DELETE by id; true iff it did not throw |
| HubSpot.LastMatchIsLast | src/Analytics/Adapter/HubSpot.php:270-276 | the association id found is that of the last entry whose from.id loosely equals the contact id, and null when none does |
| HubSpot.FindAssociation | src/Analytics/Adapter/HubSpot.php:270-276 | the loop yields the last match |
| HubSpot.SyncSuccessThrows | src/Analytics/Adapter/HubSpot.php:261-312 | as written, every sync whose calls go through ends in a TypeError |
| HubSpot.SyncAssociationRule | src/Analytics/Adapter/HubSpot.php:263-306 | the GET first; an empty association id means a PUT create, any other id a PATCH of that id; never throws |
| HubSpot.Sync | src/Analytics/Adapter/HubSpot.php:261-312 | the loop and the chosen write behave as the corrected `syncAssociation` |

## Left out

- Transport: curl options, timeouts, redirects and handle clean-up are not modelled. So are the fetch library and the adapter base class's `call()`/`execute()`/`logError()`. Each round trip is an arbitrary reply.
- Base-class requests: URL prefixing, default-header merging and body serialisation happen in the base class, which is not part of this model. The recorded request is what the adapter hands over.
- `src/Analytics/Adapter.php` declares only `getName`, `enable`, `disable` and `createEvent`. The adapters' `send`, `validate` and `enabled` come from a base class that is not part of this model. Each adapter takes its enabled flag as a parameter; ClickHouse holds a `Gate.Analytics` object for it.
- `getName` of every adapter: it returns a constant string.
- `Analytics::getUniqueByHostname`: host lookup and md5 are not modelled.
- The stand-alone `src/Analytics/Plausible.php`: it reads server superglobals and is curl plumbing only.
- Library functions are oracles: `json_encode`, `json_decode`, `parse_url`. `json_encode` returning false is not distinguished from a string.
- `http_build_query` is kept symbolic: nested arrays and bracket keys are not encoded.
- ClickHouseAdapter.JsonParseError: the message omits the `json_last_error_msg()` suffix.
- ClickHouseAdapter.TableSchema: the column types, codecs and MergeTree settings are not reproduced; the statement is the table name around a fixed placeholder.
- ClickHouseRows.Configure: the constructor the rest of the model uses, including ClickHouseAdapter.ClickHouse.Create, is built on the corrected guard; it refuses a database or table with one final "\n" that the source's constructor accepts. The source's behaviour is ClickHouseRows.ConfigureAsWritten.
- ClickHouseAdapter.ClickHouse.Execute: the "Failed to initialize cURL handle" error (src/Analytics/Adapter/ClickHouse.php:275-278) is not modelled.
- ClickHouseAdapter.ClickHouse.Send: a single `Event` argument is modelled as a batch of one (src/Analytics/Adapter/ClickHouse.php:80).
- ClickHouseAdapter.ClickHouse: the client IP and user agent setters belong to the base class, which is not part of this model, so these fields keep their constructor values.
- ClickHouseRows.Row: `createdAt` is a string supplied by the caller in place of the UTC clock.
- ClickHouseRows.Rows: one `now` serves every row of a batch, where the source reads the clock once per event (src/Analytics/Adapter/ClickHouse.php:93), so rows built across a second boundary can carry different `createdAt` values there; the same holds for ClickHouseAdapter.SendOutcome, ClickHouse.BuildRows and ClickHouse.Send.
- Mixpanel.BaseProperties: the default `time` is a value supplied by the caller in place of `microtime(true)`, a float.
- Floats: `Php.Value` has no floats, so float props and PHP's comparisons on them are not modelled.
- Php.GreaterThanZero: numeric strings are the integer-shaped ones; leading whitespace, '+', fractions and exponents are read as non-numeric.
- Php.At: indexing a decoded scalar reads null; PHP's errors for string offsets are not modelled.
- ActiveCampaign.ContactExists: the id is returned as decoded; its coercion under the `bool|int` return type is not modelled.
- HubSpot.Exists: same as ActiveCampaign: the `bool|int` coercion of the returned id is not modelled, including the TypeError PHP raises for a null or array id (a total above zero with an empty `results`), which the `catch (\Exception)` does not catch.
- HubSpot.ExistsNeverThrows: says that no Exception escapes; the uncaught TypeError above is outside the model.
- HubSpot.UpdateAccount: takes its owner id and extra fields and, as in the source, sends neither.
- The test suite's constructors take comma strings that match none of the constructors, and its ClickHouse part needs a live server; only the disabled-adapter expectation of tests/Analytics/AnalyticsTest.php:56-58 is carried over, as the `!enabled` clause of GoogleAnalyticsAdapter.CreateEvent.

## Findings

| source | as written | input that shows it | evidently intended | confidence | as-written member | corrected member |
|---|---|---|---|---|---|---|
| src/Analytics/Adapter/ClickHouse.php:428 | the identifier pattern `^...$` has no D modifier, so `$` also matches before a final newline | the database name "analytics\n" passes the guard and the constructor builds the adapter, so the newline reaches every SQL statement (ClickHouseRows.ConstructorAdmitsTrailingNewline; the guard alone: ClickHouseRows.GuardAdmitsTrailingNewline) | only names made of letters, digits and underscores, not starting with a digit, pass | not executed | ClickHouseRows.ConfigureAsWritten | ClickHouseRows.Configure |
| src/Analytics/Adapter/HubSpot.php:261-312 | `syncAssociation(): bool` has no `return` after its try block | any sync whose GET and PUT (or PATCH) both go through raises a TypeError (HubSpot.SyncSuccessThrows) | return true after a successful create or update | not executed | HubSpot.SyncAssociationAsWritten | HubSpot.SyncAssociation |
