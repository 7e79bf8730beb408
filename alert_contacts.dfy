/** The alert-contact operations of the `api` package: their parameter setters and their pipelines. */
module ApiAlertContacts {
  import opened Wrappers
  import opened Decimal
  import opened UrlValues
  import opened Http
  import opened Api

  /** Alert contact types, numbered from 1; 0 means "not given". */
  const AlertContactSMS := 1
  const AlertContactEmail := 2
  const AlertContactTwitterDM := 3
  const AlertContactBoxcar := 4
  const AlertContactWebHook := 5
  const AlertContactPushbullet := 6
  const AlertContactZapier := 7
  const AlertContactPushover := 8
  const AlertContactHipChat := 9
  const AlertContactSlack := 10

  datatype NewAlertContactRequest = NewAlertContactRequest(alertContactType: int, alertContactValue: string,
                                                           alertContactFriendlyName: string)
  datatype DeleteAlertContactRequest = DeleteAlertContactRequest(id: int)

  datatype AlertContactResponse = AlertContactResponse(id: int)
  datatype AlertContact = AlertContact(id: int, value: string, friendlyName: string, alertContactType: int, status: int)
  datatype GetAlertContactsResponse = GetAlertContactsResponse(alertContacts: seq<AlertContact>)

  /** `setNewAlertContactRequest`: type, then value, are required; the friendly name is optional. */
  function NewAlertContactFill(p: Values, req: NewAlertContactRequest): (f: Fill)
    ensures req.alertContactType == 0 ==> f == Refused("alertContactType: required value")
    ensures req.alertContactType != 0 && req.alertContactValue == "" ==> f == Refused("AlertContactValue: required value")
    ensures req.alertContactType != 0 && req.alertContactValue != "" ==>
      && f.Filled?
      && Holds(f.params, "alertContactType", IntToString(req.alertContactType))
      && Holds(f.params, "alertContactValue", req.alertContactValue)
      && (req.alertContactFriendlyName != "" ==> Holds(f.params, "alertContactFriendlyName", req.alertContactFriendlyName))
      && (req.alertContactFriendlyName == "" ==> Kept(p, f.params, "alertContactFriendlyName"))
      && (forall k :: k != "alertContactType" && k != "alertContactValue" && k != "alertContactFriendlyName" ==>
            Kept(p, f.params, k))
  {
    if req.alertContactType == 0 then Refused("alertContactType: required value")
    else if req.alertContactValue == "" then Refused("AlertContactValue: required value")
    else
      var typed := Set(p, "alertContactType", IntToString(req.alertContactType));
      var valued := Set(typed, "alertContactValue", req.alertContactValue);
      Filled(if req.alertContactFriendlyName != "" then Set(valued, "alertContactFriendlyName", req.alertContactFriendlyName) else valued)
  }

  method SetNewAlertContactRequest(r: Request, req: NewAlertContactRequest) returns (err: Option<string>)
    modifies r`params
    ensures Applied(NewAlertContactFill(old(r.params), req), err, old(r.params), r.params)
  {
    if req.alertContactType == 0 {
      return Some("alertContactType: required value");
    }
    if req.alertContactValue == "" {
      return Some("AlertContactValue: required value");
    }
    r.params := Set(r.params, "alertContactType", IntToString(req.alertContactType));
    r.params := Set(r.params, "alertContactValue", req.alertContactValue);
    if req.alertContactFriendlyName != "" {
      r.params := Set(r.params, "alertContactFriendlyName", req.alertContactFriendlyName);
    }
    return None;
  }

  /** `setDeleteAlertContactRequest`: the ID is required and is the only key written. */
  function DeleteAlertContactFill(p: Values, req: DeleteAlertContactRequest): (f: Fill)
    ensures req.id == 0 ==> f == Refused("Id: required value")
    ensures req.id != 0 ==>
      && f.Filled?
      && Holds(f.params, "alertContactID", IntToString(req.id))
      && (forall k :: k != "alertContactID" ==> Kept(p, f.params, k))
  {
    if req.id == 0 then Refused("Id: required value") else Filled(Set(p, "alertContactID", IntToString(req.id)))
  }

  method SetDeleteAlertContactRequest(r: Request, req: DeleteAlertContactRequest) returns (err: Option<string>)
    modifies r`params
    ensures Applied(DeleteAlertContactFill(old(r.params), req), err, old(r.params), r.params)
  {
    if req.id == 0 {
      return Some("Id: required value");
    }
    r.params := Set(r.params, "alertContactID", IntToString(req.id));
    return None;
  }

  /** The request a receiver reads back from a new-alert-contact form. */
  function ReadNewAlertContact(p: Values): Option<NewAlertContactRequest> {
    match ParseInt(Get(p, "alertContactType"))
    case None => None
    case Some(t) => Some(NewAlertContactRequest(t, Get(p, "alertContactValue"), Get(p, "alertContactFriendlyName")))
  }

  function ReadDeleteAlertContact(p: Values): Option<DeleteAlertContactRequest> {
    match ParseInt(Get(p, "alertContactID"))
    case None => None
    case Some(id) => Some(DeleteAlertContactRequest(id))
  }

  /** On a table fresh from `newRequest`, a filled new-contact form reads back as its request. */
  lemma NewAlertContactReadBack(p: Values, req: NewAlertContactRequest)
    requires p.Keys <= {"format", "api_key"}
    requires NewAlertContactFill(p, req).Filled?
    ensures ReadNewAlertContact(NewAlertContactFill(p, req).params) == Some(req)
  {
    IntRoundTrip(req.alertContactType);
    if req.alertContactFriendlyName == "" {
      assert "alertContactFriendlyName" !in NewAlertContactFill(p, req).params;
    }
  }

  lemma DeleteAlertContactReadBack(p: Values, req: DeleteAlertContactRequest)
    requires DeleteAlertContactFill(p, req).Filled?
    ensures ReadDeleteAlertContact(DeleteAlertContactFill(p, req).params) == Some(req)
  {
    IntRoundTrip(req.id);
  }

  /** No setter touches the output format or the key. */
  lemma SettersKeepAuthentication(p: Values, apiKey: string, n: NewAlertContactRequest, d: DeleteAlertContactRequest)
    requires Authenticated(p, apiKey)
    ensures NewAlertContactFill(p, n).Filled? ==> Authenticated(NewAlertContactFill(p, n).params, apiKey)
    ensures DeleteAlertContactFill(p, d).Filled? ==> Authenticated(DeleteAlertContactFill(p, d).params, apiKey)
  {
    if NewAlertContactFill(p, n).Filled? {
      assert Kept(p, NewAlertContactFill(p, n).params, "format") && Kept(p, NewAlertContactFill(p, n).params, "api_key");
    }
    if DeleteAlertContactFill(p, d).Filled? {
      assert Kept(p, DeleteAlertContactFill(p, d).params, "format") && Kept(p, DeleteAlertContactFill(p, d).params, "api_key");
    }
  }

  function NewDispatch(config: Config, req: NewAlertContactRequest, transport: Wire -> RoundTrip): Gated
    requires '/' in config.address
  {
    Dispatch(config, "GET", "/newAlertContact", NewAlertContactFill(InitialParams(config.apiKey), req), transport)
  }

  function DeleteDispatch(config: Config, req: DeleteAlertContactRequest, transport: Wire -> RoundTrip): Gated
    requires '/' in config.address
  {
    Dispatch(config, "GET", "/deleteAlertContact", DeleteAlertContactFill(InitialParams(config.apiKey), req), transport)
  }

  /** `Get` has no setter: it sends the parameters `newRequest` put there and nothing else. */
  function GetDispatch(config: Config, transport: Wire -> RoundTrip): (g: Gated)
    requires '/' in config.address
    ensures g.Sent? && g.wire.verb == "GET" && g.wire.params == InitialParams(config.apiKey)
    ensures g.wire.params.Keys <= {"format", "api_key"}
  {
    Dispatch(config, "GET", "/getAlertContacts", Filled(InitialParams(config.apiKey)), transport)
  }

  /** Every alert-contact call that reaches the transport uses GET. */
  lemma AlertContactCallsUseGet(config: Config, n: NewAlertContactRequest, d: DeleteAlertContactRequest,
                                transport: Wire -> RoundTrip)
    requires '/' in config.address
    ensures NewDispatch(config, n, transport).Sent? ==> NewDispatch(config, n, transport).wire.verb == "GET"
    ensures DeleteDispatch(config, d, transport).Sent? ==> DeleteDispatch(config, d, transport).wire.verb == "GET"
    ensures GetDispatch(config, transport).wire.verb == "GET"
  {
  }

  /** Whatever an alert-contact operation hands to the transport carries format=xml, and the key iff configured. */
  lemma SentRequestsAuthenticated(config: Config, n: NewAlertContactRequest, d: DeleteAlertContactRequest,
                                  transport: Wire -> RoundTrip)
    requires '/' in config.address
    ensures SentWire(NewDispatch(config, n, transport)).Some? ==>
      Authenticated(SentWire(NewDispatch(config, n, transport)).value.params, config.apiKey)
    ensures SentWire(DeleteDispatch(config, d, transport)).Some? ==>
      Authenticated(SentWire(DeleteDispatch(config, d, transport)).value.params, config.apiKey)
    ensures Authenticated(SentWire(GetDispatch(config, transport)).value.params, config.apiKey)
  {
    InitialParamsAuthenticated(config.apiKey);
    SettersKeepAuthentication(InitialParams(config.apiKey), config.apiKey, n, d);
  }

  /** The alert-contact paths carry no version, so under `NewClient`'s address they gain "/v2" once. */
  lemma AlertContactPathsSingleVersion(name: string)
    ensures '/' in Endpoint
    ensures RequestUrl(Endpoint, "/" + name) == Url("https", "api.uptimerobot.com", "/v2/" + name)
  {
    EndpointUrl("/" + name);
    assert "/v2" + ("/" + name) == "/v2/" + name;
  }

  /** The alert-contacts handle: every operation builds a fresh request from the shared client. */
  class AlertContacts {
    const c: Client

    constructor (c: Client)
      ensures this.c == c
    {
      this.c := c;
    }

    method New(req: NewAlertContactRequest, transport: Wire -> RoundTrip, decode: string -> Result<AlertContactResponse>)
      returns (result: Result<AlertContactResponse>, sent: Option<Wire>, raw: Response?)
      requires '/' in c.config.address
      ensures sent == SentWire(NewDispatch(c.config, req, transport))
      ensures result == Settle(NewDispatch(c.config, req, transport), decode)
      ensures raw != null <==> sent.Some? && ReplyOf(transport(sent.value)).Some?
      ensures raw != null ==> fresh(raw) && raw.closes == 1
    {
      var r := c.NewRequest("GET", "/newAlertContact");
      var err := SetNewAlertContactRequest(r, req);
      if err.Some? {
        return Err(err.value), None, null;
      }
      sent := Some(r.Wire());
      var resp, e;
      resp, e, raw := Send(c, r, transport);
      if e.Some? {
        return Err(e.value), sent, raw;
      }
      result := decode(resp.body);
      resp.Close();
    }

    method Delete(req: DeleteAlertContactRequest, transport: Wire -> RoundTrip, decode: string -> Result<AlertContactResponse>)
      returns (result: Result<AlertContactResponse>, sent: Option<Wire>, raw: Response?)
      requires '/' in c.config.address
      ensures sent == SentWire(DeleteDispatch(c.config, req, transport))
      ensures result == Settle(DeleteDispatch(c.config, req, transport), decode)
      ensures raw != null <==> sent.Some? && ReplyOf(transport(sent.value)).Some?
      ensures raw != null ==> fresh(raw) && raw.closes == 1
    {
      var r := c.NewRequest("GET", "/deleteAlertContact");
      var err := SetDeleteAlertContactRequest(r, req);
      if err.Some? {
        return Err(err.value), None, null;
      }
      sent := Some(r.Wire());
      var resp, e;
      resp, e, raw := Send(c, r, transport);
      if e.Some? {
        return Err(e.value), sent, raw;
      }
      result := decode(resp.body);
      resp.Close();
    }

    method Get(transport: Wire -> RoundTrip, decode: string -> Result<GetAlertContactsResponse>)
      returns (result: Result<GetAlertContactsResponse>, sent: Option<Wire>, raw: Response?)
      requires '/' in c.config.address
      ensures sent == SentWire(GetDispatch(c.config, transport))
      ensures result == Settle(GetDispatch(c.config, transport), decode)
      ensures raw != null <==> ReplyOf(transport(sent.value)).Some?
      ensures raw != null ==> fresh(raw) && raw.closes == 1
    {
      var r := c.NewRequest("GET", "/getAlertContacts");
      sent := Some(r.Wire());
      var resp, e;
      resp, e, raw := Send(c, r, transport);
      if e.Some? {
        return Err(e.value), sent, raw;
      }
      result := decode(resp.body);
      resp.Close();
    }
  }
}
