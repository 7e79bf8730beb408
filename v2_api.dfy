/**
 * The request pipeline of the `v2` package: the whole configured address
 * is the host, the path is used as given, and `toHTTP` stores the encoded
 * parameters in the request's body field.
 */
module V2 {
  import opened Wrappers
  import opened UrlValues
  import opened Http

  /** The address `NewClient` configures: a bare host. */
  const Endpoint := "api.uptimerobot.com"

  /** The parts of `Config` the pipeline reads; the HTTP client and wait time are not modelled. */
  datatype Config = Config(address: string, apiKey: string)

  /** The parameters a request starts with: the output format, and the key when one is configured. */
  function InitialParams(apiKey: string): (p: Values)
    ensures Holds(p, "format", "xml")
    ensures "api_key" in p <==> apiKey != ""
    ensures apiKey != "" ==> Holds(p, "api_key", apiKey)
    ensures p.Keys <= {"format", "api_key"}
  {
    var keyed := if apiKey != "" then Set(map[], "api_key", apiKey) else map[];
    Set(keyed, "format", "xml")
  }

  class Request {
    const config: Config
    /** The HTTP method. */
    const verb: string
    const url: Url
    var params: Values
    /** The encoded form, as last stored by `ToHTTP`; None before the first call. */
    var body: Option<string>

    constructor (config: Config, verb: string, url: Url)
      ensures this.config == config && this.verb == verb && this.url == url
      ensures params == map[] && body == None
    {
      this.config := config;
      this.verb := verb;
      this.url := url;
      params := map[];
      body := None;
    }

    /**
     * `toHTTP`: overwrites the body field with the encoding of the current
     * parameters, whatever it held before, and yields the request for the
     * transport. The form encoding is the given function of the table.
     */
    method ToHTTP(encode: Values -> string) returns (w: Wire)
      modifies this`body
      ensures body == Some(encode(params))
      ensures w == Wire(verb, url, params)
    {
      body := Some(encode(params));
      w := Wire(verb, url, params);
    }
  }

  class Client {
    const config: Config

    constructor NewClient(apiKey: string)
      ensures config == Config(Endpoint, apiKey)
    {
      config := Config(Endpoint, apiKey);
    }

    /** `newRequest`: the address is the host, the path is kept, the parameters are seeded. */
    method NewRequest(verb: string, path: string) returns (r: Request)
      ensures fresh(r)
      ensures r.config == config && r.verb == verb
      ensures r.url == Url("https", config.address, path)
      ensures r.params == InitialParams(config.apiKey) && r.body == None
    {
      r := new Request(config, verb, Url("https", config.address, path));
      if config.apiKey != "" {
        r.params := Set(r.params, "api_key", r.config.apiKey);
      }
      r.params := Set(r.params, "format", "xml");
    }
  }

  /**
   * `requireOK`, as in the `api` package: a transport error passes through
   * and closes any response; a status other than 200 becomes an error
   * naming status and body, and closes the response; a 200 response passes
   * through, still open.
   */
  method RequireOK(resp: Response?, e: Option<string>) returns (out: Response?, err: Option<string>)
    requires e.None? ==> resp != null
    modifies resp
    ensures e.Some? ==> out == null && err == e
    ensures e.Some? && resp != null ==> resp.closes == old(resp.closes) + 1
    ensures e.None? && resp.status != 200 ==>
      out == null && err == Some(UnexpectedCode(resp.status, resp.body)) && resp.closes == old(resp.closes) + 1
    ensures e.None? && resp.status == 200 ==> out == resp && err.None? && resp.closes == old(resp.closes)
  {
    if e.Some? {
      if resp != null {
        resp.Close();
      }
      return null, e;
    }
    if resp.status != 200 {
      var buf := resp.body;
      resp.Close();
      return null, Some(UnexpectedCode(resp.status, buf));
    }
    return resp, None;
  }
}
