# uptimerobot-go: request building and response gating

A model of the core of a Go client for the UptimeRobot HTTP API: how a
request is built from the configured address and the API key, how each
resource operation validates its input and fills the form parameters,
how the response gate classifies what comes back, and how every operation
chains validate → transport → gate → decode.

The model is written against the source files of two packages:

- `api` (api/api.go, api/monitors.go, api/alert_contacts.go): the address
  `api.uptimerobot.com/v2` is split at `/` into a host and a version
  prefix; the monitor and alert-contact operations live here.
- `v2` (api/v2/api.go): the whole address is the host, paths are used as
  given, and `toHTTP` stores the encoded parameters in the request.

## Layout

| file | module | models |
|---|---|---|
| wrappers.dfy | `Wrappers` | Option, and Result for Go's `(value, error)` pairs |
| decimal.dfy | `Decimal` | `strconv.Itoa`, and the reading of its text back into an integer |
| text.dfy | `Text` | `strings.Split` on one character, and `strings.Join` |
| values.dfy | `UrlValues` | `url.Values` with `Set` (replace the list by one value) and `Get` |
| http.dfy | `Http` | URLs, the request as the transport sees it, round trips, the `Response` class with its body-close counter, the gate's classification and its error text |
| api.dfy | `Api` | `Config`, `Client`, `request`, `newRequest`, `doRequest`, `requireOK`, and the validate → transport → gate → decode composition |
| monitors.dfy | `ApiMonitors` | the four monitor setters and `Monitors.New/Edit/Delete/Get` |
| alert_contacts.dfy | `ApiAlertContacts` | the two alert-contact setters and `AlertContacts.New/Delete/Get` |
| v2_api.dfy | `V2` | `Config`, `Client`, `request`, `newRequest`, `toHTTP`, `requireOK` of the `v2` package |

How things are represented:

- The parameter table is `map<string, seq<string>>`; `Set` writes the
  one-element list `[v]`. Every setter is a method that updates the
  request's table in place, specified by a function (`NewMonitorFill`,
  …) that gives either the refusal text or the filled table. Its contract
  states key by key what is written and that every other key is kept.
- The partners of the setters are the `Read…` functions: how a receiver
  reads a form back. The `…ReadBack` lemmas prove that a filled form reads
  back as the request it came from, except where the source loses
  information on purpose or by accident (see below).
- The transport is a function parameter `Wire -> RoundTrip`; decoding is
  a function parameter `string -> Result<T>`. Each operation returns
  `sent`, the request handed to the transport (`None` when the setter
  refused it), and `raw`, the response object, so that "no call after a
  validation error" and "the body is closed exactly once" can be stated.
- A response is a `Response` object whose `closes` field counts calls
  to `Body.Close`.
- The outcome of each operation is a function of its inputs (`NewResult`,
  `Settle(EditDispatch(…), decode)`, …); each operation method is proved
  equal to it.

Behaviour of the source kept as written:

- `setEditMonitorRequest` writes the friendly name under the key
  `friendly_ame` (api/monitors.go:173). `EditMonitorNameMisfiled` shows
  that the key `friendly_name` is never written.
- `setGetMonitorsRequest` writes the `ResponseTimes` value under
  `response_times_limit` (api/monitors.go:247). `GetMonitorsReadBack` and
  `GetMonitorsLimitLost` show that the limit itself is never sent.
- The monitor paths begin with `/v2/` and the address already carries
  `v2`, so `Monitors.New` requests `/v2/v2/newMonitor`
  (`MonitorPathsDoubleVersion`). The alert-contact paths do not, and get
  `/v2/...` once (`AlertContactPathsSingleVersion`).
- `setGetMonitorsRequest` declares an error result but always returns
  nil. `SetGetMonitorsRequest` therefore has no error result, and
  `Monitors.Get` has no refusal branch.
- `NewClient` in both packages declares an error result but always
  returns nil (api/api.go:58, api/v2/api.go:59). `Api.Client.NewClient`
  and `V2.Client.NewClient` are therefore constructors with no error
  result.

Where the source does not compile as shown, the model reads it as follows:

- In the `api` package the request's table is declared as the field `body`
  (api/api.go:43), but the setters in api/monitors.go and
  api/alert_contacts.go write to `r.params`. The model treats both names
  as the same table, `params`.

## Model

| member | source | states |
|---|---|---|
| `Decimal.IntToString` | api/monitors.go:140 | Itoa's text is non-empty and has no space; it starts with '-' exactly for negative values; the rest is digits with no leading zero (a non-negative value is digits only, "0" being the only text starting with '0') |
| `Decimal.IntRoundTrip` | api/monitors.go:140 | reading back the text Itoa wrote gives the original integer |
| `Decimal.IntToStringInjective` | api/monitors.go:171 | distinct integers are written as distinct texts |
| `Text.Split` | api/api.go:79 | at least one segment; no segment holds the separator; two or more segments exactly when the separator occurs |
| `Text.JoinSplit` | api/api.go:79 | joining the segments with the separator gives back the split string |
| `Text.SplitAtFirst` | api/api.go:79-80 | the first segment is everything before the first separator; the rest is the split of what follows it |
| `Api.AddressParts` | api/api.go:79-88 | for "host/version…" the URL is https, the host is the first segment, the path is "/version" + path, later segments ignored |
| `Api.EndpointUrl` | api/api.go:79-88 | under NewClient's address the host is api.uptimerobot.com and every path gains "/v2" |
| `UrlValues.Set` | api/api.go:93-96 | the name holds exactly the one value, the keys grow by the name only, and every other name is unchanged |
| `Api.InitialParams` | api/api.go:90-96 | format=xml always; api_key present exactly when a key is configured, holding it; no other keys |
| `Api.InitialParamsAuthenticated` | api/api.go:92-96 | a fresh request satisfies the invariant "format=xml and the key iff configured" |
| `Api.Client.NewClient` | api/api.go:48-59 | the client holds the address api.uptimerobot.com/v2 and the given key |
| `Api.Client.NewRequest` | api/api.go:78-99 | a fresh request with the given method, the URL from the address split, and the initial parameters |
| `Api.Client.DoRequest` | api/api.go:102-111 | the round trip's error is returned; a response, when there is one, is fresh, carries status and body, and is open |
| `Api.RequireOK` | api/api.go:120-134 | transport error: same error, nil response, body closed once if present; status ≠ 200: nil response, "Unexpected response code: <status> (<body>)", closed once; 200: the same response, no error, still open |
| `Api.Send` | api/monitors.go:112 | after doRequest and requireOK a rejected response is closed once and a passed one is open and returned |
| `Api.RefusalSkipsTransport` | api/monitors.go:107-110 | a setter error is the outcome whatever the transport, and nothing is sent |
| `Api.RejectionSkipsDecode` | api/monitors.go:112-115 | a gate error is the outcome whatever the decoder |
| `Api.SettledMeansStatus200` | api/api.go:127-133 | a decoded result exists only for a filled request whose reply had status 200 and decoded |
| `Api.Dispatch` | api/monitors.go:106-112 | a refused fill stops before the transport with its error; a filled one sends the verb, the request URL and the filled table, and the reply is judged by the gate |
| `Api.Settle` | api/monitors.go:113-128 | a refusal or a gate error is the outcome; a passed reply is decoded from its body |
| `Api.SettlePassed` | api/api.go:127-133 | a filled request whose reply has status 200 is decoded from that reply's body |
| `Api.BadStatusReported` | api/api.go:127-132 | a reply with status ≠ 200 yields the error naming that status and that body |
| `Http.UnexpectedCode` | api/api.go:131 | the non-200 error text begins with "Unexpected response code: " and ends with ')' |
| `Http.Classify` | api/api.go:120-133 | a transport error is rejected with that error; status 200 passes the reply; any other status is rejected with UnexpectedCode of status and body |
| `Http.UnexpectedCodeInjective` | api/api.go:131 | the non-200 error text determines both the status and the body |
| `Http.PassedIffStatus200` | api/api.go:127-133 | the gate passes exactly a received reply with status 200, unchanged |
| `ApiMonitors.NewMonitorFill` | api/monitors.go:131-142 | empty name: "FriendlyName: required value"; else empty URL: "URL: required value"; else friendly_name, url and type=Itoa(type) written, every other key kept |
| `ApiMonitors.SetNewMonitorRequest` | api/monitors.go:131-142 | on refusal returns the error and leaves the table unchanged; otherwise the table is the filled one |
| `ApiMonitors.EditMonitorFill` | api/monitors.go:167-182 | ID 0: "ID: required value"; else id written, name under friendly_ame, url and type each only when non-zero, everything else kept |
| `ApiMonitors.SetEditMonitorRequest` | api/monitors.go:167-182 | on refusal the table is unchanged; otherwise it is the filled one |
| `ApiMonitors.DeleteMonitorFill` | api/monitors.go:207-213 | ID 0: "ID: required value"; else exactly the key id is written |
| `ApiMonitors.SetDeleteMonitorRequest` | api/monitors.go:207-213 | on refusal the table is unchanged; otherwise it is the filled one |
| `ApiMonitors.GetMonitorsParams` | api/monitors.go:239-250 | monitors, response_times and response_times_limit each written only when set, the limit carrying Itoa(ResponseTimes); other keys kept |
| `ApiMonitors.SetGetMonitorsRequest` | api/monitors.go:239-250 | the table becomes the one GetMonitorsParams gives |
| `ApiMonitors.NewMonitorReadBack` | api/monitors.go:138-140 | a filled new-monitor form reads back as the request it came from |
| `ApiMonitors.EditMonitorReadBack` | api/monitors.go:171-180 | on a fresh table a filled edit form reads back (name from friendly_ame, absent fields as zero) as its request |
| `ApiMonitors.EditMonitorNameMisfiled` | api/monitors.go:172-174 | an edit never writes the key friendly_name |
| `ApiMonitors.DeleteMonitorReadBack` | api/monitors.go:211 | a filled delete form reads back as its request |
| `ApiMonitors.GetMonitorsReadBack` | api/monitors.go:240-248 | on a fresh table the form reads back as its request, except the limit arrives as ResponseTimes whenever it is set |
| `ApiMonitors.GetMonitorsLimitLost` | api/monitors.go:246-248 | a request with ResponseTimes 1 and limit 5 arrives with limit 1 |
| `ApiMonitors.SettersKeepAuthentication` | api/monitors.go:131-250 | no monitor setter disturbs format=xml or the key |
| `ApiMonitors.DecodeCreated` | api/monitors.go:117-128 | a decode error passes through; a decoded 0 becomes errorResponse's text; a decoded non-zero ID is the success; success only with a non-zero ID |
| `ApiMonitors.ErrorResponse` | api/monitors.go:94-101 | a decode error of the error payload is the text; otherwise the payload's type is |
| `ApiMonitors.NewResult` | api/monitors.go:105-129 | a setter error is the outcome; a successful outcome has a non-zero ID |
| `ApiMonitors.NewAcceptsNonZeroId` | api/monitors.go:112-128 | a filled request whose reply passes and decodes to a non-zero ID yields exactly that response |
| `ApiMonitors.NewRejectsZeroId` | api/monitors.go:94-101 | a passed reply decoding to ID 0 yields an error whose text is the error payload's type |
| `ApiMonitors.EditDeleteKeepZeroId` | api/monitors.go:160-164 | Edit and Delete return a decoded ID of 0 as a success |
| `ApiMonitors.SentRequestsAuthenticated` | api/monitors.go:106-112 | every request New, Edit, Delete or Get hands to the transport carries format=xml, and api_key exactly when a key is configured, holding it |
| `ApiMonitors.MonitorPathsDoubleVersion` | api/monitors.go:106 | under NewClient's address a monitor path "/v2/x" is requested as "/v2/v2/x" on api.uptimerobot.com |
| `ApiMonitors.Monitors.constructor` | api/monitors.go:85-87 | the handle holds the given client |
| `ApiMonitors.Monitors.New` | api/monitors.go:105-129 | sends only a filled request, returns NewResult, closes a response exactly once |
| `ApiMonitors.Monitors.Edit` | api/monitors.go:146-165 | sends only a filled request, returns the decoded body of a passed reply or the first error, closes a response exactly once |
| `ApiMonitors.Monitors.Delete` | api/monitors.go:186-205 | as Edit, for the delete form |
| `ApiMonitors.Monitors.Get` | api/monitors.go:217-237 | always sends, returns the decoded body of a passed reply or the gate's error, closes a response exactly once |
| `ApiAlertContacts.NewAlertContactFill` | api/alert_contacts.go:85-99 | type 0: "alertContactType: required value"; else empty value: "AlertContactValue: required value"; else type and value written, name only when non-empty, others kept |
| `ApiAlertContacts.SetNewAlertContactRequest` | api/alert_contacts.go:85-99 | on refusal the table is unchanged; otherwise it is the filled one |
| `ApiAlertContacts.DeleteAlertContactFill` | api/alert_contacts.go:122-128 | ID 0: "Id: required value"; else exactly alertContactID is written |
| `ApiAlertContacts.SetDeleteAlertContactRequest` | api/alert_contacts.go:122-128 | on refusal the table is unchanged; otherwise it is the filled one |
| `ApiAlertContacts.NewAlertContactReadBack` | api/alert_contacts.go:92-96 | on a fresh table a filled new-contact form reads back as its request |
| `ApiAlertContacts.DeleteAlertContactReadBack` | api/alert_contacts.go:126 | a filled delete form reads back as its request |
| `ApiAlertContacts.SettersKeepAuthentication` | api/alert_contacts.go:85-128 | no alert-contact setter disturbs format=xml or the key |
| `ApiAlertContacts.GetDispatch` | api/alert_contacts.go:131-134 | Get always sends, with GET, exactly the parameters newRequest put there |
| `ApiAlertContacts.AlertContactCallsUseGet` | api/alert_contacts.go:66-132 | every alert-contact request that is sent uses GET |
| `ApiAlertContacts.SentRequestsAuthenticated` | api/alert_contacts.go:66-72 | every request New, Delete or Get hands to the transport carries format=xml, and api_key exactly when a key is configured, holding it |
| `ApiAlertContacts.AlertContactPathsSingleVersion` | api/alert_contacts.go:66 | under NewClient's address an alert-contact path "/x" is requested as "/v2/x" on api.uptimerobot.com |
| `ApiAlertContacts.AlertContacts.constructor` | api/alert_contacts.go:30-32 | the handle holds the given client |
| `ApiAlertContacts.AlertContacts.New` | api/alert_contacts.go:65-83 | sends only a filled request, returns the decoded body of a passed reply or the first error, closes a response exactly once |
| `ApiAlertContacts.AlertContacts.Delete` | api/alert_contacts.go:102-120 | as New, for the delete form |
| `ApiAlertContacts.AlertContacts.Get` | api/alert_contacts.go:131-146 | always sends, returns the decoded body of a passed reply or the gate's error, closes a response exactly once |
| `V2.InitialParams` | api/v2/api.go:90-96 | format=xml always; api_key exactly when a key is configured; no other keys |
| `V2.Client.NewClient` | api/v2/api.go:49-60 | the client holds the address api.uptimerobot.com and the given key |
| `V2.Client.NewRequest` | api/v2/api.go:81-98 | a fresh request: https, the whole address as host, the path unchanged, the initial parameters, no body yet |
| `V2.Request.ToHTTP` | api/v2/api.go:63-79 | the body field now holds the encoding of the current parameters, whatever it held before; the parameters are unchanged |
| `V2.RequireOK` | api/v2/api.go:119-133 | the same three cases as the api package's requireOK |

## Left out

- HTTP transport: `http.NewRequest`, the headers set in `toHTTP` and `http.Client.Do` are not modelled; the round trip is a function parameter. A failure of `http.NewRequest` counts as a transport failure with no response.
- Elapsed time: `doRequest` measures it with the clock and nothing decides on it, so durations are not modelled.
- XML decoding: `xml.Unmarshal` and `xml.NewDecoder` are function parameters of the body text. Streaming and buffered decoding are the same function of the body, and the ignored error of `ioutil.ReadAll` is not modelled.
- Form encoding: `url.Values.Encode` is a function parameter of `V2.Request.ToHTTP`. In the `api` package the transport receives the table itself.
- `V2.Request.ToHTTP`: the body is modelled as the encoded text, not as an `io.Reader` that is consumed when read.
- api/accountdetails.go is not part of this model: its `Get` only chains `newRequest`, `requireOK` and decoding.
- Paginated monitor listing, and joining alert-contact IDs, do not occur in these source files and are not modelled.
- `Config.HttpClient`, `Config.WaitTime` and `request.obj` are not modelled; the first is the transport parameter and the others are never read.
- Integers are unbounded. Go's `int` is 32 or 64 bits wide depending on the platform. The core compares integers (`StatusCode != 200`, `ID == 0`, `MonitorType != 0`) and converts them to text, but does no arithmetic on them, so every value a Go `int` can hold is a model value with the same outcome.
- `Api.Client.NewRequest` requires the address to contain '/'. The source indexes the second segment and panics without one.
- `Api.Client.DoRequest`: when `http.Client.Do` fails with a response (a redirect refused by `CheckRedirect`), net/http has already closed that response's body, and `requireOK` closes it a second time. The model hands back an open response there, so `raw.closes == 1` counts only the closes in this package.
- `Api.RequireOK` and `V2.RequireOK` require a response when there is no error, as `http.Client.Do` guarantees. The source would dereference nil otherwise.
- `Decimal.ParseInt` is the reading the receiver applies in the read-back lemmas, not Go's `strconv.Atoi`. It accepts an optional '-' followed by digits.
- `Client.Monitors()` and `Client.AlertContacts()` are modelled as the handles' constructors.
