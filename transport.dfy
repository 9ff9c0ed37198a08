/**
 * The HTTP transport the request executor hands its calls to, as a
 * recorder: every call is appended to a log of request descriptors, and the
 * transport answers every call in the same scripted way, either with a
 * (parsed) response body or with a failure.
 */
module Transport {
  import opened Wrappers
  import opened Php

  datatype Verb = GET | POST | PUT | DELETE

  /** One outgoing call: verb, path relative to the base URL, and the
      transport options (`query`, `json`, `debug`, `verify`). */
  datatype OutgoingRequest = OutgoingRequest(verb: Verb, path: string, options: map<string, Value>)

  /** A failure raised by the transport, with its message and code. */
  datatype TransportError = TransportError(message: string, code: int)

  datatype Outcome = Delivered(body: map<string, Value>) | Failed(error: TransportError)

  class Recorder {
    /** Every call issued so far, oldest first. */
    var log: seq<OutgoingRequest>
    /** When present, every call fails with this error. */
    const failure: Option<TransportError>
    /** The parsed body every successful call answers with. */
    const reply: map<string, Value>

    constructor (failure: Option<TransportError>, reply: map<string, Value>)
      ensures log == []
      ensures this.failure == failure && this.reply == reply
    {
      log := [];
      this.failure := failure;
      this.reply := reply;
    }

    /** Issues one call: it is logged whether or not it then fails. */
    method Send(request: OutgoingRequest) returns (outcome: Outcome)
      modifies this`log
      ensures log == old(log) + [request]
      ensures failure.None? ==> outcome == Delivered(reply)
      ensures failure.Some? ==> outcome == Failed(failure.value)
    {
      log := log + [request];
      match failure
      case None => outcome := Delivered(reply);
      case Some(e) => outcome := Failed(e);
    }
  }

}
