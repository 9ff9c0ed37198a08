/**
 * End-to-end scenarios of the services: tracking and creating over a default
 * configuration and a transport that answers every call successfully, and
 * cancelling with debugging on over a transport that fails.
 */
module Scenarios {
  import opened Wrappers
  import opened Php
  import opened Transport
  import opened Errors
  import opened Config
  import opened Http
  import opened Shipment
  import opened Tracking

  /** Tracking "" is refused with no call; tracking "TRK123" makes one GET to
      `tracking/TRK123` with an empty query and returns the reply. */
  method TrackScenario(reply: map<string, Value>)
    returns (refused: Result<map<string, Value>>, tracked: Result<map<string, Value>>, log: seq<OutgoingRequest>)
    ensures refused == Err(ValidationError("Takip numarası gereklidir."))
    ensures tracked == Ok(reply)
    ensures log == [OutgoingRequest(GET, "tracking/TRK123", map["query" := Dict(map[]), "verify" := Bool(true)])]
  {
    var config := new TryOtoConfig();
    assert config.entries == Defaults;
    assert !config.GetDebug() && config.GetVerifySsl();
    var client := new Recorder(None, reply);
    var service := new TrackingService(client, config);
    refused := service.Track("");
    assert client.log == [];
    tracked := service.Track("TRK123");
    assert "tracking/" + "TRK123" == "tracking/TRK123";
    assert TransportOptions(QueryOptions(map[]), false, true) == map["query" := Dict(map[]), "verify" := Bool(true)];
    log := client.log;
  }

  /** Creating from an empty payload is refused, naming the recipient name,
      with no call; a payload with all four fields makes one POST to
      `shipments` with that payload as the body. */
  method CreateScenario(reply: map<string, Value>)
    returns (refused: Result<map<string, Value>>, created: Result<map<string, Value>>, log: seq<OutgoingRequest>)
    ensures refused == Err(ValidationError("'alici_adi' alanı gereklidir."))
    ensures created == Ok(reply)
    ensures log == [OutgoingRequest(POST, "shipments", map[
      "json" := Dict(map["alici_adi" := Str("A"), "adres" := Str("B"), "telefon" := Str("C"), "kargo_firmasi" := Str("D")]),
      "verify" := Bool(true)])]
  {
    var config := new TryOtoConfig();
    assert config.entries == Defaults;
    assert !config.GetDebug() && config.GetVerifySsl();
    var client := new Recorder(None, reply);
    var service := new ShipmentService(client, config);
    ValidationExamples();
    refused := service.Create(map[]);
    assert client.log == [];
    created := service.Create(map["alici_adi" := Str("A"), "adres" := Str("B"), "telefon" := Str("C"), "kargo_firmasi" := Str("D")]);
    log := client.log;
  }

  /** A failing transport surfaces as an API error carrying the marker, the
      transport's message and code, and the failure itself; the call is still
      made once. With debugging switched on, `debug => true` goes out too. */
  method FailureScenario()
    returns (r: Result<map<string, Value>>, log: seq<OutgoingRequest>)
    ensures r == Err(ApiError("API isteği başarısız: boom", 500, TransportError("boom", 500)))
    ensures log == [OutgoingRequest(DELETE, "shipments/TRK123", map["debug" := Bool(true), "verify" := Bool(true)])]
  {
    var config := new TryOtoConfig(map["debug" := Bool(true)]);
    assert config.entries["debug"] == Bool(true) && config.entries["verify_ssl"] == Bool(true);
    var client := new Recorder(Some(TransportError("boom", 500)), map[]);
    var service := new ShipmentService(client, config);
    r := service.Cancel("TRK123");
    assert ApiFailurePrefix + "boom" == "API isteği başarısız: boom";
    assert "shipments/" + "TRK123" == "shipments/TRK123";
    assert TransportOptions(map[], true, true) == map["debug" := Bool(true), "verify" := Bool(true)];
    log := client.log;
  }

}
