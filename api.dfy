/**
 * The shared request pipeline of the `api` package: the client, the
 * request builder, the transport call (abstract) and the response gate.
 */
module Api {
  import opened Wrappers
  import opened Decimal
  import opened Text
  import opened UrlValues
  import opened Http

  /** The address `NewClient` configures, "api.uptimerobot.com/v2": a host and a version segment. */
  const Endpoint := "api.uptimerobot.com" + "/v2"

  /** The parts of `Config` the pipeline reads; the HTTP client and wait time are not modelled. */
  datatype Config = Config(address: string, apiKey: string)

  /** The host: the address up to its first '/'. */
  function AddressHost(address: string): string
    requires '/' in address
  {
    Split(address, '/')[0]
  }

  /** The request path: "/" and the address's second segment, then the endpoint path. */
  function VersionedPath(address: string, path: string): string
    requires '/' in address
  {
    "/" + Split(address, '/')[1] + path
  }

  function RequestUrl(address: string, path: string): Url
    requires '/' in address
  {
    Url("https", AddressHost(address), VersionedPath(address, path))
  }

  /**
   * For an address "host/version..." the host is the first segment, the
   * version prefixes the path, and anything after a second '/' is ignored.
   */
  lemma AddressParts(host: string, version: string, tail: string, path: string)
    requires '/' !in host && '/' !in version
    requires tail == "" || tail[0] == '/'
    ensures '/' in host + "/" + version + tail
    ensures RequestUrl(host + "/" + version + tail, path) == Url("https", host, "/" + version + path)
  {
    var address := host + "/" + version + tail;
    assert address == host + ['/'] + (version + tail);
    assert address[|host|] == '/';
    SplitAtFirst(host, '/', version + tail);
    if tail == "" {
      assert version + tail == version;
      SplitWithoutSep(version, '/');
    } else {
      assert version + tail == version + ['/'] + tail[1..];
      SplitAtFirst(version, '/', tail[1..]);
    }
  }

  /** Under the address `NewClient` sets, the host is api.uptimerobot.com and every path gains "/v2". */
  lemma EndpointUrl(path: string)
    ensures '/' in Endpoint
    ensures RequestUrl(Endpoint, path) == Url("https", "api.uptimerobot.com", "/v2" + path)
  {
    var host := "api.uptimerobot.com";
    assert '/' !in host by {
      forall i | 0 <= i < |host| ensures host[i] != '/' { }
    }
    assert '/' !in "v2";
    assert Endpoint == host + "/" + "v2" + "";
    AddressParts(host, "v2", "", path);
  }

  /** The parameters a request starts with: the output format, and the key when one is configured. */
  function InitialParams(apiKey: string): (p: Values)
    ensures Holds(p, "format", "xml")
    ensures "api_key" in p <==> apiKey != ""
    ensures apiKey != "" ==> Holds(p, "api_key", apiKey)
    ensures p.Keys <= {"format", "api_key"}
  {
    var keyed := if apiKey != "" then Set(map[], "api_key", apiKey) else map[];
    Set(keyed, "format", "xml")
  }

  /** The invariant every request keeps up to the transport: format=xml, and the key iff configured. */
  predicate Authenticated(p: Values, apiKey: string) {
    && Holds(p, "format", "xml")
    && ("api_key" in p <==> apiKey != "")
    && (apiKey != "" ==> Holds(p, "api_key", apiKey))
  }

  lemma InitialParamsAuthenticated(apiKey: string)
    ensures Authenticated(InitialParams(apiKey), apiKey)
  {
  }

  /** What a parameter setter does to a table: refuses with an error text, or fills it. */
  datatype Fill = Refused(err: string) | Filled(params: Values)

  /**
   * A setter's effect on the request: on refusal it returns the error and
   * leaves the table as it was; otherwise it returns no error and the table
   * is the filled one.
   */
  predicate Applied(fill: Fill, err: Option<string>, before: Values, after: Values) {
    && (fill.Refused? ==> err == Some(fill.err) && after == before)
    && (fill.Filled? ==> err.None? && after == fill.params)
  }

  /** How a receiver reads an optional integer parameter: absent means 0. */
  function OptionalInt(p: Values, name: string): Option<int> {
    if name in p then ParseInt(Get(p, name)) else Some(0)
  }

  /** A request under construction: its method and URL are fixed, its parameters are filled in place. */
  class Request {
    const config: Config
    /** The HTTP method. */
    const verb: string
    const url: Url
    var params: Values

    constructor (config: Config, verb: string, url: Url)
      ensures this.config == config && this.verb == verb && this.url == url && params == map[]
    {
      this.config := config;
      this.verb := verb;
      this.url := url;
      params := map[];
    }

    /** The request as `toHTTP` hands it to the transport. */
    function Wire(): Wire
      reads this
    {
      Http.Wire(verb, url, params)
    }
  }

  class Client {
    const config: Config

    constructor NewClient(apiKey: string)
      ensures config == Config(Endpoint, apiKey)
    {
      config := Config(Endpoint, apiKey);
    }

    /** `newRequest`: split the address into host and version, then seed the parameters. */
    method NewRequest(verb: string, path: string) returns (r: Request)
      requires '/' in config.address
      ensures fresh(r)
      ensures r.config == config && r.verb == verb && r.url == RequestUrl(config.address, path)
      ensures r.params == InitialParams(config.apiKey)
    {
      var parts := Split(config.address, '/');
      var host := parts[0];
      var apiVersion := "/" + parts[1];
      r := new Request(config, verb, Url("https", host, apiVersion + path));
      if config.apiKey != "" {
        r.params := Set(r.params, "api_key", r.config.apiKey);
      }
      r.params := Set(r.params, "format", "xml");
    }

    /**
     * `doRequest`: one round trip through the given transport. A response,
     * when there is one, is a fresh object whose body is still open.
     */
    method DoRequest(r: Request, transport: Wire -> RoundTrip) returns (resp: Response?, err: Option<string>)
      ensures var rt := transport(r.Wire());
        && (err.Some? <==> rt.Failed?)
        && (rt.Failed? ==> err == Some(rt.err))
        && (resp != null <==> ReplyOf(rt).Some?)
        && (resp != null ==> fresh(resp) && Reply(resp.status, resp.body) == ReplyOf(rt).value && resp.closes == 0)
    {
      var rt := transport(r.Wire());
      match rt
      case Failed(e, partial) =>
        err := Some(e);
        if partial.Some? {
          resp := new Response(partial.value);
        } else {
          resp := null;
        }
      case Received(reply) =>
        err := None;
        resp := new Response(reply);
    }
  }

  /**
   * `requireOK`: a transport error passes through and closes any response;
   * a status other than 200 becomes an error naming status and body, and
   * closes the response; a 200 response passes through, still open.
   */
  method RequireOK(resp: Response?, e: Option<string>) returns (out: Response?, err: Option<string>)
    requires e.None? ==> resp != null
    modifies resp
    ensures e.Some? ==> out == null && err == e
    ensures e.Some? && resp != null ==> resp.closes == old(resp.closes) + 1
    ensures e.None? && resp.status != 200 ==>
      out == null && err == Some(UnexpectedCode(resp.status, resp.body)) && resp.closes == old(resp.closes) + 1
    ensures e.None? && resp.status == 200 ==> out == resp && err.None? && resp.closes == old(resp.closes)
  {
    if e.Some? {
      if resp != null {
        resp.Close();
      }
      return null, e;
    }
    if resp.status != 200 {
      var buf := resp.body;
      resp.Close();
      return null, Some(UnexpectedCode(resp.status, buf));
    }
    return resp, None;
  }

  /**
   * `requireOK(c.doRequest(r))`, the step every operation takes once its
   * request is filled. `raw` is the response the transport produced, if
   * any: it is closed exactly when the gate rejects, and open otherwise.
   */
  method Send(c: Client, r: Request, transport: Wire -> RoundTrip) returns (resp: Response?, err: Option<string>, raw: Response?)
    ensures var v := Classify(transport(r.Wire()));
      && (v.Passed? ==> err.None? && resp == raw && raw != null && Reply(raw.status, raw.body) == v.reply && raw.closes == 0)
      && (v.Rejected? ==> resp == null && err == Some(v.err) && (raw != null ==> raw.closes == 1))
    ensures raw != null <==> ReplyOf(transport(r.Wire())).Some?
    ensures raw != null ==> fresh(raw)
  {
    var e;
    raw, e := c.DoRequest(r, transport);
    resp, err := RequireOK(raw, e);
  }

  /** How far an operation got: refused by its setter, or sent and judged by the gate. */
  datatype Gated = Invalid(err: string) | Sent(wire: Wire, verdict: Verdict)

  /** Build the request for (verb, path), fill it, and if the setter accepts, send it and gate the reply. */
  function Dispatch(config: Config, verb: string, path: string, fill: Fill, transport: Wire -> RoundTrip): (g: Gated)
    requires '/' in config.address
    ensures fill.Refused? ==> g == Invalid(fill.err)
    ensures fill.Filled? ==> g.Sent? && g.wire == Http.Wire(verb, RequestUrl(config.address, path), fill.params)
    ensures fill.Filled? ==> g.verdict == Classify(transport(g.wire))
  {
    match fill
    case Refused(e) => Invalid(e)
    case Filled(p) =>
      var w := Http.Wire(verb, RequestUrl(config.address, path), p);
      Sent(w, Classify(transport(w)))
  }

  /** The request the transport was given, if it was called at all. */
  function SentWire(g: Gated): Option<Wire> {
    if g.Sent? then Some(g.wire) else None
  }

  /** Decode the body of a reply that passed the gate; any earlier error is the result. */
  function Settle<T>(g: Gated, decode: string -> Result<T>): (r: Result<T>)
    ensures g.Invalid? ==> r == Err(g.err)
    ensures g.Sent? && g.verdict.Rejected? ==> r == Err(g.verdict.err)
    ensures g.Sent? && g.verdict.Passed? ==> r == decode(g.verdict.reply.body)
  {
    match g
    case Invalid(e) => Err(e)
    case Sent(_, Rejected(e)) => Err(e)
    case Sent(_, Passed(reply)) => decode(reply.body)
  }

  /** A refused setter means no transport call: the outcome is the setter's error whatever the transport. */
  lemma RefusalSkipsTransport<T>(config: Config, verb: string, path: string, err: string,
                                 t1: Wire -> RoundTrip, t2: Wire -> RoundTrip, decode: string -> Result<T>)
    requires '/' in config.address
    ensures Dispatch(config, verb, path, Refused(err), t1) == Dispatch(config, verb, path, Refused(err), t2)
    ensures SentWire(Dispatch(config, verb, path, Refused(err), t1)).None?
    ensures Settle(Dispatch(config, verb, path, Refused(err), t1), decode) == Err(err)
  {
  }

  /** A gate error means no decoding: the outcome is the gate's error whatever the decoder. */
  lemma RejectionSkipsDecode<T>(g: Gated, d1: string -> Result<T>, d2: string -> Result<T>)
    requires g.Sent? && g.verdict.Rejected?
    ensures Settle(g, d1) == Settle(g, d2) == Err(g.verdict.err)
  {
  }

  /** A decoded result exists only for a filled request whose reply had status 200. */
  lemma SettledMeansStatus200<T>(config: Config, verb: string, path: string, fill: Fill,
                                 transport: Wire -> RoundTrip, decode: string -> Result<T>)
    requires '/' in config.address
    requires Settle(Dispatch(config, verb, path, fill, transport), decode).Ok?
    ensures fill.Filled?
    ensures var rt := transport(Http.Wire(verb, RequestUrl(config.address, path), fill.params));
      rt.Received? && rt.reply.status == 200 && decode(rt.reply.body).Ok?
  {
  }

  /** A filled request whose reply is status 200 is decoded from that reply's body. */
  lemma SettlePassed<T>(config: Config, verb: string, path: string, p: Values,
                        transport: Wire -> RoundTrip, decode: string -> Result<T>, body: string)
    requires '/' in config.address
    requires transport(Http.Wire(verb, RequestUrl(config.address, path), p)) == Received(Reply(200, body))
    ensures Settle(Dispatch(config, verb, path, Filled(p), transport), decode) == decode(body)
  {
  }

  /** A reply with another status yields the error naming that status and that body. */
  lemma BadStatusReported<T>(config: Config, verb: string, path: string, p: Values,
                             transport: Wire -> RoundTrip, decode: string -> Result<T>, status: int, body: string)
    requires '/' in config.address
    requires transport(Http.Wire(verb, RequestUrl(config.address, path), p)) == Received(Reply(status, body))
    requires status != 200
    ensures Settle(Dispatch(config, verb, path, Filled(p), transport), decode) == Err(UnexpectedCode(status, body))
  {
  }
}
