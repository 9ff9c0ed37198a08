/**
 * The request executor: verb helpers that build the transport options, and
 * one request operation that normalises the path, applies the debug and TLS
 * settings read from the configuration at call time, issues exactly one
 * transport call and turns a transport failure into an API error.
 */
module Http {
  import opened Wrappers
  import opened Php
  import opened Transport
  import opened Errors
  import opened Config

  /** The options a request carries once the configuration has been applied:
      `debug => true` added when debugging, `verify` always set. */
  function TransportOptions(options: map<string, Value>, debug: bool, verify: bool): (r: map<string, Value>)
    ensures "verify" in r && r["verify"] == Bool(verify)
    ensures debug ==> "debug" in r && r["debug"] == Bool(true)
    ensures !debug ==> ("debug" in r <==> "debug" in options)
    ensures !debug && "debug" in options ==> r["debug"] == options["debug"]
    ensures forall k :: k in options && k != "debug" && k != "verify" ==> k in r && r[k] == options[k]
    ensures forall k :: k in r ==> k in options || k == "debug" || k == "verify"
  {
    var withDebug := if debug then options["debug" := Bool(true)] else options;
    withDebug["verify" := Bool(verify)]
  }

  /** The request the transport receives for a call with this verb, endpoint
      and options: leading slashes stripped from the endpoint. */
  function Outgoing(verb: Verb, endpoint: string, options: map<string, Value>, debug: bool, verify: bool): (r: OutgoingRequest)
    ensures r.verb == verb && r.options == TransportOptions(options, debug, verify)
    ensures |r.path| <= |endpoint| && (|r.path| == 0 || r.path[0] != '/')
    ensures endpoint == Repeat('/', |endpoint| - |r.path|) + r.path
  {
    var path := TrimLeft(endpoint, '/');
    assert endpoint == endpoint[..|endpoint| - |path|] + path;
    assert endpoint[..|endpoint| - |path|] == Repeat('/', |endpoint| - |path|);
    OutgoingRequest(verb, path, TransportOptions(options, debug, verify))
  }

  /** Leading slashes make no difference to the request that goes out. */
  lemma {:induction false} LeadingSlashesIgnored(verb: Verb, endpoint: string, n: nat, options: map<string, Value>, debug: bool, verify: bool)
    ensures Outgoing(verb, Repeat('/', n) + endpoint, options, debug, verify)
         == Outgoing(verb, endpoint, options, debug, verify)
  {
    var s := Repeat('/', n) + endpoint;
    if n == 0 {
      assert s == endpoint;
    } else {
      assert s[1..] == Repeat('/', n - 1) + endpoint;
      assert TrimLeft(s, '/') == TrimLeft(s[1..], '/');
      LeadingSlashesIgnored(verb, endpoint, n - 1, options, debug, verify);
    }
  }

  lemma LeadingSlashExample(options: map<string, Value>, debug: bool, verify: bool)
    ensures Outgoing(POST, "/shipments", options, debug, verify) == Outgoing(POST, "shipments", options, debug, verify)
    ensures Outgoing(POST, "shipments", options, debug, verify).path == "shipments"
  {
    var e, s := "shipments", "/shipments";
    assert s[0] == '/' && s[1..] == e && e[0] != '/';
    assert TrimLeft(s, '/') == TrimLeft(e, '/') == e;
  }

  /** `query` for GET. */
  function QueryOptions(params: map<string, Value>): map<string, Value>
  {
    map["query" := Dict(params)]
  }

  /** `json` for POST and PUT. */
  function JsonOptions(data: map<string, Value>): map<string, Value>
  {
    map["json" := Dict(data)]
  }

  /** What a call returns: the parsed body, or the API error its failure
      surfaces as. */
  function Completion(failure: Option<TransportError>, reply: map<string, Value>): (r: Result<map<string, Value>>)
    ensures failure.None? <==> r.Ok?
    ensures failure.None? ==> r.value == reply
    ensures failure.Some? ==> r.error == WrapFailure(failure.value)
  {
    match failure
    case None => Ok(reply)
    case Some(e) => Err(WrapFailure(e))
  }

  class HttpClient {
    const transport: Recorder
    const config: TryOtoConfig

    constructor (transport: Recorder, config: TryOtoConfig)
      ensures this.transport == transport && this.config == config
    {
      this.transport := transport;
      this.config := config;
    }

    /** Sends GET with the parameters as the query. */
    method Get(endpoint: string, params: map<string, Value> := map[]) returns (r: Result<map<string, Value>>)
      modifies transport`log
      ensures transport.log == old(transport.log)
        + [Outgoing(GET, endpoint, QueryOptions(params), config.GetDebug(), config.GetVerifySsl())]
      ensures r == Completion(transport.failure, transport.reply)
    {
      r := Request(GET, endpoint, map["query" := Dict(params)]);
    }

    /** Sends POST with the data as the JSON body. */
    method Post(endpoint: string, data: map<string, Value> := map[]) returns (r: Result<map<string, Value>>)
      modifies transport`log
      ensures transport.log == old(transport.log)
        + [Outgoing(POST, endpoint, JsonOptions(data), config.GetDebug(), config.GetVerifySsl())]
      ensures r == Completion(transport.failure, transport.reply)
    {
      r := Request(POST, endpoint, map["json" := Dict(data)]);
    }

    /** Sends PUT with the data as the JSON body. */
    method Put(endpoint: string, data: map<string, Value> := map[]) returns (r: Result<map<string, Value>>)
      modifies transport`log
      ensures transport.log == old(transport.log)
        + [Outgoing(PUT, endpoint, JsonOptions(data), config.GetDebug(), config.GetVerifySsl())]
      ensures r == Completion(transport.failure, transport.reply)
    {
      r := Request(PUT, endpoint, map["json" := Dict(data)]);
    }

    /** Sends DELETE with no body. */
    method Delete(endpoint: string) returns (r: Result<map<string, Value>>)
      modifies transport`log
      ensures transport.log == old(transport.log)
        + [Outgoing(DELETE, endpoint, map[], config.GetDebug(), config.GetVerifySsl())]
      ensures r == Completion(transport.failure, transport.reply)
    {
      r := Request(DELETE, endpoint);
    }

    /** Normalises the endpoint, applies the configuration's debug and TLS
        settings, issues exactly one transport call and wraps its failure. */
    method Request(verb: Verb, endpoint: string, options: map<string, Value> := map[]) returns (r: Result<map<string, Value>>)
      modifies transport`log
      ensures transport.log == old(transport.log)
        + [Outgoing(verb, endpoint, options, config.GetDebug(), config.GetVerifySsl())]
      ensures r == Completion(transport.failure, transport.reply)
    {
      var path := TrimLeft(endpoint, '/');
      var sent := options;
      if config.GetDebug() {
        sent := sent["debug" := Bool(true)];
      }
      sent := sent["verify" := Bool(config.GetVerifySsl())];
      var outcome := transport.Send(OutgoingRequest(verb, path, sent));
      match outcome
      case Delivered(body) => r := Ok(body);
      case Failed(e) => r := Err(ApiError(ApiFailurePrefix + e.message, e.code, e));
    }
  }

  /** What the verb helpers send, key by key: `query` for GET, `json` for POST
      and PUT, nothing for DELETE, plus `verify`, plus `debug` exactly when
      debugging. */
  lemma HelperOptions(params: map<string, Value>, debug: bool, verify: bool)
    ensures TransportOptions(QueryOptions(params), debug, verify).Keys
         == {"query", "verify"} + (if debug then {"debug"} else {})
    ensures TransportOptions(QueryOptions(params), debug, verify)["query"] == Dict(params)
    ensures TransportOptions(JsonOptions(params), debug, verify).Keys
         == {"json", "verify"} + (if debug then {"debug"} else {})
    ensures TransportOptions(JsonOptions(params), debug, verify)["json"] == Dict(params)
    ensures TransportOptions(map[], debug, verify).Keys
         == {"verify"} + (if debug then {"debug"} else {})
  {
  }

}
