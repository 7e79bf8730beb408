/** The monitor operations of the `api` package: their parameter setters and their pipelines. */
module ApiMonitors {
  import opened Wrappers
  import opened Decimal
  import opened UrlValues
  import opened Http
  import opened Api

  /** Monitor types; the setters pass any integer through unchecked. */
  const HTTP := 1
  const Keyword := 2
  const Ping := 3
  const Port := 4

  datatype NewMonitorRequest = NewMonitorRequest(friendlyName: string, url: string, monitorType: int)
  datatype EditMonitorRequest = EditMonitorRequest(id: int, friendlyName: string, url: string, monitorType: int)
  datatype DeleteMonitorRequest = DeleteMonitorRequest(id: int)
  datatype GetMonitorsRequest = GetMonitorsRequest(monitorID: string, responseTimes: int, responseTimesLimit: int)

  datatype MonitorResponse = MonitorResponse(id: int)
  datatype XMLResponseTime = XMLResponseTime(value: int)
  datatype XMLMonitor = XMLMonitor(id: int, friendlyName: string, url: string, status: string,
                                   monitorType: string, subType: string, responseTimes: seq<XMLResponseTime>)
  datatype XMLMonitors = XMLMonitors(monitors: seq<XMLMonitor>)
  /** The error payload the service sends with status 200 when a creation fails. */
  datatype XMLErrorResponse = XMLErrorResponse(errorType: string)

  // ---------------------------------------------------------------- setters

  /** `setNewMonitorRequest`: name, then URL, are required; the type is written unchecked. */
  function NewMonitorFill(p: Values, req: NewMonitorRequest): (f: Fill)
    ensures req.friendlyName == "" ==> f == Refused("FriendlyName: required value")
    ensures req.friendlyName != "" && req.url == "" ==> f == Refused("URL: required value")
    ensures req.friendlyName != "" && req.url != "" ==>
      && f.Filled?
      && Holds(f.params, "friendly_name", req.friendlyName)
      && Holds(f.params, "url", req.url)
      && Holds(f.params, "type", IntToString(req.monitorType))
      && (forall k :: k != "friendly_name" && k != "url" && k != "type" ==> Kept(p, f.params, k))
  {
    if req.friendlyName == "" then Refused("FriendlyName: required value")
    else if req.url == "" then Refused("URL: required value")
    else Filled(Set(Set(Set(p, "friendly_name", req.friendlyName), "url", req.url), "type", IntToString(req.monitorType)))
  }

  method SetNewMonitorRequest(r: Request, req: NewMonitorRequest) returns (err: Option<string>)
    modifies r`params
    ensures Applied(NewMonitorFill(old(r.params), req), err, old(r.params), r.params)
  {
    if req.friendlyName == "" {
      return Some("FriendlyName: required value");
    }
    if req.url == "" {
      return Some("URL: required value");
    }
    r.params := Set(r.params, "friendly_name", req.friendlyName);
    r.params := Set(r.params, "url", req.url);
    r.params := Set(r.params, "type", IntToString(req.monitorType));
    return None;
  }

  /**
   * `setEditMonitorRequest`: the ID is required; name, URL and type are
   * written only when set. The name goes under the key "friendly_ame",
   * as the source spells it.
   */
  function EditMonitorFill(p: Values, req: EditMonitorRequest): (f: Fill)
    ensures req.id == 0 ==> f == Refused("ID: required value")
    ensures req.id != 0 ==>
      && f.Filled?
      && Holds(f.params, "id", IntToString(req.id))
      && (req.friendlyName != "" ==> Holds(f.params, "friendly_ame", req.friendlyName))
      && (req.friendlyName == "" ==> Kept(p, f.params, "friendly_ame"))
      && (req.url != "" ==> Holds(f.params, "url", req.url))
      && (req.url == "" ==> Kept(p, f.params, "url"))
      && (req.monitorType != 0 ==> Holds(f.params, "type", IntToString(req.monitorType)))
      && (req.monitorType == 0 ==> Kept(p, f.params, "type"))
      && (forall k :: k != "id" && k != "friendly_ame" && k != "url" && k != "type" ==> Kept(p, f.params, k))
  {
    if req.id == 0 then Refused("ID: required value")
    else
      var withId := Set(p, "id", IntToString(req.id));
      var withName := if req.friendlyName != "" then Set(withId, "friendly_ame", req.friendlyName) else withId;
      var withUrl := if req.url != "" then Set(withName, "url", req.url) else withName;
      Filled(if req.monitorType != 0 then Set(withUrl, "type", IntToString(req.monitorType)) else withUrl)
  }

  method SetEditMonitorRequest(r: Request, req: EditMonitorRequest) returns (err: Option<string>)
    modifies r`params
    ensures Applied(EditMonitorFill(old(r.params), req), err, old(r.params), r.params)
  {
    if req.id == 0 {
      return Some("ID: required value");
    }
    r.params := Set(r.params, "id", IntToString(req.id));
    if req.friendlyName != "" {
      r.params := Set(r.params, "friendly_ame", req.friendlyName);
    }
    if req.url != "" {
      r.params := Set(r.params, "url", req.url);
    }
    if req.monitorType != 0 {
      r.params := Set(r.params, "type", IntToString(req.monitorType));
    }
    return None;
  }

  /** `setDeleteMonitorRequest`: the ID is required and is the only key written. */
  function DeleteMonitorFill(p: Values, req: DeleteMonitorRequest): (f: Fill)
    ensures req.id == 0 ==> f == Refused("ID: required value")
    ensures req.id != 0 ==>
      && f.Filled?
      && Holds(f.params, "id", IntToString(req.id))
      && (forall k :: k != "id" ==> Kept(p, f.params, k))
  {
    if req.id == 0 then Refused("ID: required value") else Filled(Set(p, "id", IntToString(req.id)))
  }

  method SetDeleteMonitorRequest(r: Request, req: DeleteMonitorRequest) returns (err: Option<string>)
    modifies r`params
    ensures Applied(DeleteMonitorFill(old(r.params), req), err, old(r.params), r.params)
  {
    if req.id == 0 {
      return Some("ID: required value");
    }
    r.params := Set(r.params, "id", IntToString(req.id));
    return None;
  }

  /**
   * `setGetMonitorsRequest`: never refuses; each field is written only
   * when set, and "response_times_limit" carries the ResponseTimes value,
   * as the source writes it.
   */
  function GetMonitorsParams(p: Values, req: GetMonitorsRequest): (q: Values)
    ensures req.monitorID != "" ==> Holds(q, "monitors", req.monitorID)
    ensures req.monitorID == "" ==> Kept(p, q, "monitors")
    ensures req.responseTimes != 0 ==> Holds(q, "response_times", IntToString(req.responseTimes))
    ensures req.responseTimes == 0 ==> Kept(p, q, "response_times")
    ensures req.responseTimesLimit != 0 ==> Holds(q, "response_times_limit", IntToString(req.responseTimes))
    ensures req.responseTimesLimit == 0 ==> Kept(p, q, "response_times_limit")
    ensures forall k :: k != "monitors" && k != "response_times" && k != "response_times_limit" ==> Kept(p, q, k)
  {
    var withIds := if req.monitorID != "" then Set(p, "monitors", req.monitorID) else p;
    var withTimes := if req.responseTimes != 0 then Set(withIds, "response_times", IntToString(req.responseTimes)) else withIds;
    if req.responseTimesLimit != 0 then Set(withTimes, "response_times_limit", IntToString(req.responseTimes)) else withTimes
  }

  method SetGetMonitorsRequest(r: Request, req: GetMonitorsRequest)
    modifies r`params
    ensures r.params == GetMonitorsParams(old(r.params), req)
  {
    if req.monitorID != "" {
      r.params := Set(r.params, "monitors", req.monitorID);
    }
    if req.responseTimes != 0 {
      r.params := Set(r.params, "response_times", IntToString(req.responseTimes));
    }
    if req.responseTimesLimit != 0 {
      r.params := Set(r.params, "response_times_limit", IntToString(req.responseTimes));
    }
  }

  // ------------------------------------------------- what the service reads

  /** The request a receiver reads back from a new-monitor form. */
  function ReadNewMonitor(p: Values): Option<NewMonitorRequest> {
    match ParseInt(Get(p, "type"))
    case None => None
    case Some(t) => Some(NewMonitorRequest(Get(p, "friendly_name"), Get(p, "url"), t))
  }

  /** The request a receiver reads back from an edit-monitor form, with the source's key for the name. */
  function ReadEditMonitor(p: Values): Option<EditMonitorRequest> {
    match (ParseInt(Get(p, "id")), OptionalInt(p, "type"))
    case (Some(id), Some(t)) => Some(EditMonitorRequest(id, Get(p, "friendly_ame"), Get(p, "url"), t))
    case _ => None
  }

  function ReadDeleteMonitor(p: Values): Option<DeleteMonitorRequest> {
    match ParseInt(Get(p, "id"))
    case None => None
    case Some(id) => Some(DeleteMonitorRequest(id))
  }

  function ReadGetMonitors(p: Values): Option<GetMonitorsRequest> {
    match (OptionalInt(p, "response_times"), OptionalInt(p, "response_times_limit"))
    case (Some(times), Some(limit)) => Some(GetMonitorsRequest(Get(p, "monitors"), times, limit))
    case _ => None
  }

  /** A filled new-monitor form reads back as the request it was filled from. */
  lemma NewMonitorReadBack(p: Values, req: NewMonitorRequest)
    requires NewMonitorFill(p, req).Filled?
    ensures ReadNewMonitor(NewMonitorFill(p, req).params) == Some(req)
  {
    IntRoundTrip(req.monitorType);
  }

  /** On a table fresh from `newRequest`, a filled edit form reads back as its request. */
  lemma EditMonitorReadBack(p: Values, req: EditMonitorRequest)
    requires p.Keys <= {"format", "api_key"}
    requires EditMonitorFill(p, req).Filled?
    ensures ReadEditMonitor(EditMonitorFill(p, req).params) == Some(req)
  {
    var q := EditMonitorFill(p, req).params;
    IntRoundTrip(req.id);
    if req.monitorType != 0 {
      IntRoundTrip(req.monitorType);
    } else {
      assert "type" !in q;
    }
    if req.friendlyName == "" {
      assert "friendly_ame" !in q;
    }
    if req.url == "" {
      assert "url" !in q;
    }
  }

  /** The edited name never reaches the key the create call uses. */
  lemma EditMonitorNameMisfiled(p: Values, req: EditMonitorRequest)
    requires "friendly_name" !in p
    requires EditMonitorFill(p, req).Filled?
    ensures "friendly_name" !in EditMonitorFill(p, req).params
  {
  }

  lemma DeleteMonitorReadBack(p: Values, req: DeleteMonitorRequest)
    requires DeleteMonitorFill(p, req).Filled?
    ensures ReadDeleteMonitor(DeleteMonitorFill(p, req).params) == Some(req)
  {
    IntRoundTrip(req.id);
  }

  /**
   * On a table fresh from `newRequest`, a get-monitors form reads back as
   * its request except the limit, which arrives as ResponseTimes whenever
   * a limit is set.
   */
  lemma GetMonitorsReadBack(p: Values, req: GetMonitorsRequest)
    requires p.Keys <= {"format", "api_key"}
    ensures ReadGetMonitors(GetMonitorsParams(p, req)) ==
      Some(GetMonitorsRequest(req.monitorID, req.responseTimes, if req.responseTimesLimit != 0 then req.responseTimes else 0))
  {
    var q := GetMonitorsParams(p, req);
    if req.responseTimes != 0 {
      IntRoundTrip(req.responseTimes);
    } else {
      assert "response_times" !in q;
    }
    if req.responseTimesLimit != 0 {
      IntRoundTrip(req.responseTimes);
    } else {
      assert "response_times_limit" !in q;
    }
    if req.monitorID == "" {
      assert "monitors" !in q;
    }
  }

  /** So a request with a limit other than its ResponseTimes does not arrive as sent. */
  lemma GetMonitorsLimitLost(apiKey: string)
    ensures var req := GetMonitorsRequest("", 1, 5);
      ReadGetMonitors(GetMonitorsParams(InitialParams(apiKey), req)) == Some(GetMonitorsRequest("", 1, 1))
  {
    GetMonitorsReadBack(InitialParams(apiKey), GetMonitorsRequest("", 1, 5));
  }

  /** No setter touches the output format or the key. */
  lemma SettersKeepAuthentication(p: Values, apiKey: string, n: NewMonitorRequest, e: EditMonitorRequest,
                                  d: DeleteMonitorRequest, g: GetMonitorsRequest)
    requires Authenticated(p, apiKey)
    ensures NewMonitorFill(p, n).Filled? ==> Authenticated(NewMonitorFill(p, n).params, apiKey)
    ensures EditMonitorFill(p, e).Filled? ==> Authenticated(EditMonitorFill(p, e).params, apiKey)
    ensures DeleteMonitorFill(p, d).Filled? ==> Authenticated(DeleteMonitorFill(p, d).params, apiKey)
    ensures Authenticated(GetMonitorsParams(p, g), apiKey)
  {
    if NewMonitorFill(p, n).Filled? {
      assert Kept(p, NewMonitorFill(p, n).params, "format") && Kept(p, NewMonitorFill(p, n).params, "api_key");
    }
    if EditMonitorFill(p, e).Filled? {
      assert Kept(p, EditMonitorFill(p, e).params, "format") && Kept(p, EditMonitorFill(p, e).params, "api_key");
    }
    if DeleteMonitorFill(p, d).Filled? {
      assert Kept(p, DeleteMonitorFill(p, d).params, "format") && Kept(p, DeleteMonitorFill(p, d).params, "api_key");
    }
    assert Kept(p, GetMonitorsParams(p, g), "format") && Kept(p, GetMonitorsParams(p, g), "api_key");
  }

  // ------------------------------------------------------------ pipelines

  /** The text `errorResponse` makes of a body: the payload's type, or the decoder's error. */
  function ErrorResponse(decodeError: string -> Result<XMLErrorResponse>, body: string): (e: string)
    ensures decodeError(body).Err? ==> e == decodeError(body).error
    ensures decodeError(body).Ok? ==> e == decodeError(body).value.errorType
  {
    match decodeError(body)
    case Err(e) => e
    case Ok(payload) => payload.errorType
  }

  /**
   * The decoding step of `New`: a decoded ID of 0 is an application error,
   * reported with the type of the error payload read from the same body.
   */
  function DecodeCreated(decode: string -> Result<MonitorResponse>, decodeError: string -> Result<XMLErrorResponse>,
                         body: string): (r: Result<MonitorResponse>)
    ensures r.Ok? ==> r.value.id != 0 && decode(body) == r
    ensures decode(body).Err? ==> r == decode(body)
    ensures decode(body).Ok? && decode(body).value.id == 0 ==> r == Err(ErrorResponse(decodeError, body))
    ensures decode(body).Ok? && decode(body).value.id != 0 ==> r == decode(body)
  {
    match decode(body)
    case Err(e) => Err(e)
    case Ok(out) => if out.id == 0 then Err(ErrorResponse(decodeError, body)) else Ok(out)
  }

  function NewDispatch(config: Config, req: NewMonitorRequest, transport: Wire -> RoundTrip): Gated
    requires '/' in config.address
  {
    Dispatch(config, "POST", "/v2/newMonitor", NewMonitorFill(InitialParams(config.apiKey), req), transport)
  }

  /** The outcome of `Monitors.New`. */
  function NewResult(config: Config, req: NewMonitorRequest, transport: Wire -> RoundTrip,
                     decode: string -> Result<MonitorResponse>, decodeError: string -> Result<XMLErrorResponse>): (r: Result<MonitorResponse>)
    requires '/' in config.address
    ensures NewMonitorFill(InitialParams(config.apiKey), req).Refused? ==>
      r == Err(NewMonitorFill(InitialParams(config.apiKey), req).err)
    ensures r.Ok? ==> r.value.id != 0
  {
    Settle(NewDispatch(config, req, transport), body => DecodeCreated(decode, decodeError, body))
  }

  function EditDispatch(config: Config, req: EditMonitorRequest, transport: Wire -> RoundTrip): Gated
    requires '/' in config.address
  {
    Dispatch(config, "POST", "/v2/editMonitor", EditMonitorFill(InitialParams(config.apiKey), req), transport)
  }

  function DeleteDispatch(config: Config, req: DeleteMonitorRequest, transport: Wire -> RoundTrip): Gated
    requires '/' in config.address
  {
    Dispatch(config, "POST", "/v2/deleteMonitor", DeleteMonitorFill(InitialParams(config.apiKey), req), transport)
  }

  function GetDispatch(config: Config, req: GetMonitorsRequest, transport: Wire -> RoundTrip): Gated
    requires '/' in config.address
  {
    Dispatch(config, "POST", "/v2/getMonitors", Filled(GetMonitorsParams(InitialParams(config.apiKey), req)), transport)
  }

  /** `New` turns a passed reply whose ID decodes as 0 into the payload's error type. */
  lemma NewRejectsZeroId(config: Config, req: NewMonitorRequest, transport: Wire -> RoundTrip,
                         decode: string -> Result<MonitorResponse>, decodeError: string -> Result<XMLErrorResponse>)
    requires '/' in config.address
    requires var g := NewDispatch(config, req, transport);
      g.Sent? && g.verdict.Passed? && decode(g.verdict.reply.body) == Ok(MonitorResponse(0))
    requires decodeError(NewDispatch(config, req, transport).verdict.reply.body).Ok?
    ensures NewResult(config, req, transport, decode, decodeError) ==
      Err(decodeError(NewDispatch(config, req, transport).verdict.reply.body).value.errorType)
  {
  }

  /** A passed reply that decodes to a non-zero ID is what `New` returns. */
  lemma NewAcceptsNonZeroId(config: Config, req: NewMonitorRequest, transport: Wire -> RoundTrip,
                            decode: string -> Result<MonitorResponse>, decodeError: string -> Result<XMLErrorResponse>,
                            m: MonitorResponse)
    requires '/' in config.address
    requires var g := NewDispatch(config, req, transport);
      g.Sent? && g.verdict.Passed? && decode(g.verdict.reply.body) == Ok(m)
    requires m.id != 0
    ensures NewResult(config, req, transport, decode, decodeError) == Ok(m)
  {
  }

  /** `Edit` and `Delete` do not check the ID: a decoded 0 is returned as it is. */
  lemma EditDeleteKeepZeroId(config: Config, e: EditMonitorRequest, d: DeleteMonitorRequest, transport: Wire -> RoundTrip,
                             decode: string -> Result<MonitorResponse>)
    requires '/' in config.address
    ensures var g := EditDispatch(config, e, transport);
      g.Sent? && g.verdict.Passed? && decode(g.verdict.reply.body) == Ok(MonitorResponse(0)) ==>
      Settle(g, decode) == Ok(MonitorResponse(0))
    ensures var g := DeleteDispatch(config, d, transport);
      g.Sent? && g.verdict.Passed? && decode(g.verdict.reply.body) == Ok(MonitorResponse(0)) ==>
      Settle(g, decode) == Ok(MonitorResponse(0))
  {
  }

  /** Whatever a monitor operation hands to the transport carries format=xml, and the key iff configured. */
  lemma SentRequestsAuthenticated(config: Config, n: NewMonitorRequest, e: EditMonitorRequest,
                                  d: DeleteMonitorRequest, g: GetMonitorsRequest, transport: Wire -> RoundTrip)
    requires '/' in config.address
    ensures SentWire(NewDispatch(config, n, transport)).Some? ==>
      Authenticated(SentWire(NewDispatch(config, n, transport)).value.params, config.apiKey)
    ensures SentWire(EditDispatch(config, e, transport)).Some? ==>
      Authenticated(SentWire(EditDispatch(config, e, transport)).value.params, config.apiKey)
    ensures SentWire(DeleteDispatch(config, d, transport)).Some? ==>
      Authenticated(SentWire(DeleteDispatch(config, d, transport)).value.params, config.apiKey)
    ensures SentWire(GetDispatch(config, g, transport)).Some? ==>
      Authenticated(SentWire(GetDispatch(config, g, transport)).value.params, config.apiKey)
  {
    InitialParamsAuthenticated(config.apiKey);
    SettersKeepAuthentication(InitialParams(config.apiKey), config.apiKey, n, e, d, g);
  }

  /** The monitor paths already carry "/v2", so under `NewClient`'s address they gain it twice. */
  lemma MonitorPathsDoubleVersion(name: string)
    ensures '/' in Endpoint
    ensures RequestUrl(Endpoint, "/v2/" + name) == Url("https", "api.uptimerobot.com", "/v2/v2/" + name)
  {
    EndpointUrl("/v2/" + name);
    assert "/v2" + ("/v2/" + name) == "/v2/v2/" + name;
  }

  /** The monitors handle: every operation builds a fresh request from the shared client. */
  class Monitors {
    const c: Client

    constructor (c: Client)
      ensures this.c == c
    {
      this.c := c;
    }

    /**
     * `New`: validate, send, gate, decode with the zero-ID check. `sent` is
     * the request given to the transport (none when the setter refused);
     * `raw` is the response, closed exactly once.
     */
    method New(req: NewMonitorRequest, transport: Wire -> RoundTrip,
               decode: string -> Result<MonitorResponse>, decodeError: string -> Result<XMLErrorResponse>)
      returns (result: Result<MonitorResponse>, sent: Option<Wire>, raw: Response?)
      requires '/' in c.config.address
      ensures sent == SentWire(NewDispatch(c.config, req, transport))
      ensures result == NewResult(c.config, req, transport, decode, decodeError)
      ensures raw != null <==> sent.Some? && ReplyOf(transport(sent.value)).Some?
      ensures raw != null ==> fresh(raw) && raw.closes == 1
    {
      var r := c.NewRequest("POST", "/v2/newMonitor");
      var err := SetNewMonitorRequest(r, req);
      if err.Some? {
        return Err(err.value), None, null;
      }
      sent := Some(r.Wire());
      var resp, e;
      resp, e, raw := Send(c, r, transport);
      if e.Some? {
        return Err(e.value), sent, raw;
      }
      var body := resp.body;
      var out := decode(body);
      if out.Err? {
        resp.Close();
        return Err(out.error), sent, raw;
      }
      if out.value.id == 0 {
        resp.Close();
        return Err(ErrorResponse(decodeError, body)), sent, raw;
      }
      resp.Close();
      return out, sent, raw;
    }

    method Edit(req: EditMonitorRequest, transport: Wire -> RoundTrip, decode: string -> Result<MonitorResponse>)
      returns (result: Result<MonitorResponse>, sent: Option<Wire>, raw: Response?)
      requires '/' in c.config.address
      ensures sent == SentWire(EditDispatch(c.config, req, transport))
      ensures result == Settle(EditDispatch(c.config, req, transport), decode)
      ensures raw != null <==> sent.Some? && ReplyOf(transport(sent.value)).Some?
      ensures raw != null ==> fresh(raw) && raw.closes == 1
    {
      var r := c.NewRequest("POST", "/v2/editMonitor");
      var err := SetEditMonitorRequest(r, req);
      if err.Some? {
        return Err(err.value), None, null;
      }
      sent := Some(r.Wire());
      var resp, e;
      resp, e, raw := Send(c, r, transport);
      if e.Some? {
        return Err(e.value), sent, raw;
      }
      result := decode(resp.body);
      resp.Close();
    }

    method Delete(req: DeleteMonitorRequest, transport: Wire -> RoundTrip, decode: string -> Result<MonitorResponse>)
      returns (result: Result<MonitorResponse>, sent: Option<Wire>, raw: Response?)
      requires '/' in c.config.address
      ensures sent == SentWire(DeleteDispatch(c.config, req, transport))
      ensures result == Settle(DeleteDispatch(c.config, req, transport), decode)
      ensures raw != null <==> sent.Some? && ReplyOf(transport(sent.value)).Some?
      ensures raw != null ==> fresh(raw) && raw.closes == 1
    {
      var r := c.NewRequest("POST", "/v2/deleteMonitor");
      var err := SetDeleteMonitorRequest(r, req);
      if err.Some? {
        return Err(err.value), None, null;
      }
      sent := Some(r.Wire());
      var resp, e;
      resp, e, raw := Send(c, r, transport);
      if e.Some? {
        return Err(e.value), sent, raw;
      }
      result := decode(resp.body);
      resp.Close();
    }

    method Get(req: GetMonitorsRequest, transport: Wire -> RoundTrip, decode: string -> Result<XMLMonitors>)
      returns (result: Result<XMLMonitors>, sent: Option<Wire>, raw: Response?)
      requires '/' in c.config.address
      ensures sent == SentWire(GetDispatch(c.config, req, transport))
      ensures result == Settle(GetDispatch(c.config, req, transport), decode)
      ensures raw != null <==> ReplyOf(transport(sent.value)).Some?
      ensures raw != null ==> fresh(raw) && raw.closes == 1
    {
      var r := c.NewRequest("POST", "/v2/getMonitors");
      SetGetMonitorsRequest(r, req);
      sent := Some(r.Wire());
      var resp, e;
      resp, e, raw := Send(c, r, transport);
      if e.Some? {
        return Err(e.value), sent, raw;
      }
      result := decode(resp.body);
      resp.Close();
    }
  }
}
