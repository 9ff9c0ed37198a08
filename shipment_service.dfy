/**
 * The shipment service: create, cancel and update a shipment, each checking
 * its required input before it delegates one call to the request executor.
 */
module Shipment {
  import opened Wrappers
  import opened Php
  import opened Transport
  import opened Errors
  import opened Config
  import opened Http

  /** The fields a new shipment must carry, in the order they are checked:
      recipient name, address, phone and courier company. */
  const RequiredFields: seq<string> := ["alici_adi", "adres", "telefon", "kargo_firmasi"]

  const TrackingNumberRequired: string := "Takip numarası gereklidir."

  const FieldRequiredSuffix: string := "' alanı gereklidir."

  /** The message naming a missing field: the field name in single quotes,
      then the fixed suffix. */
  function FieldRequired(field: string): (m: string)
    ensures |m| == |field| + 1 + |FieldRequiredSuffix|
    ensures m[0] == '\'' && m[1..|field| + 1] == field && m[|field| + 1..] == FieldRequiredSuffix
  {
    "'" + field + FieldRequiredSuffix
  }

  /** Different fields give different messages, so the message identifies the
      field it names. */
  lemma FieldRequiredInjective(f: string, g: string)
    ensures FieldRequired(f) == FieldRequired(g) ==> f == g
  {
  }

  /** The position of the first field that `data` lacks or holds empty, or
      `|fields|` when none is missing. */
  function FirstMissingIndex(data: map<string, Value>, fields: seq<string>): (i: nat)
    ensures i <= |fields|
    ensures forall j :: 0 <= j < i ==> !EmptyAt(data, fields[j])
    ensures i < |fields| ==> EmptyAt(data, fields[i])
  {
    if fields == [] then 0
    else if EmptyAt(data, fields[0]) then 0
    else 1 + FirstMissingIndex(data, fields[1..])
  }

  /** The outcome of validating `data`: the error naming the first missing
      required field, or success. */
  function Validation(data: map<string, Value>): (r: Result<bool>)
    ensures r.Ok? ==> r.value && forall j :: 0 <= j < |RequiredFields| ==> !EmptyAt(data, RequiredFields[j])
    ensures r.Err? ==> exists f :: f in RequiredFields && EmptyAt(data, f) && r.error == ValidationError(FieldRequired(f))
  {
    var i := FirstMissingIndex(data, RequiredFields);
    if i < |RequiredFields| then
      assert RequiredFields[i] in RequiredFields;
      Err(ValidationError(FieldRequired(RequiredFields[i])))
    else Ok(true)
  }

  /** Validation fails exactly when some required field is missing, and then
      names the first one in the checking order. */
  lemma ValidationNamesFirstMissing(data: map<string, Value>)
    ensures Validation(data).Ok? <==> forall f :: f in RequiredFields ==> !EmptyAt(data, f)
    ensures Validation(data).Err? ==>
      exists i :: 0 <= i < |RequiredFields| && EmptyAt(data, RequiredFields[i])
        && Validation(data).error == ValidationError(FieldRequired(RequiredFields[i]))
        && forall j :: 0 <= j < i ==> !EmptyAt(data, RequiredFields[j])
  {
    var i := FirstMissingIndex(data, RequiredFields);
    if i == |RequiredFields| {
      forall f | f in RequiredFields ensures !EmptyAt(data, f) {
        var j :| 0 <= j < |RequiredFields| && RequiredFields[j] == f;
      }
    }
  }

  /** An empty payload is refused with the recipient name as the first
      missing field; one that carries all four fields passes. */
  lemma ValidationExamples()
    ensures Validation(map[]) == Err(ValidationError("'alici_adi' alanı gereklidir."))
    ensures Validation(map["alici_adi" := Str("A"), "adres" := Str("B"), "telefon" := Str("C"), "kargo_firmasi" := Str("D")]) == Ok(true)
  {
    assert EmptyAt(map[], RequiredFields[0]);
    assert FirstMissingIndex(map[], RequiredFields) == 0;
    assert FieldRequired(RequiredFields[0]) == "'alici_adi' alanı gereklidir.";
  }

  class ShipmentService {
    const http: HttpClient

    constructor (client: Recorder, config: TryOtoConfig)
      ensures fresh(http)
      ensures http.transport == client && http.config == config
    {
      http := new HttpClient(client, config);
    }

    /** Checks the required fields in order and stops at the first missing one. */
    method ValidateShipmentData(data: map<string, Value>) returns (r: Result<bool>)
      ensures r == Validation(data)
    {
      var fields := RequiredFields;
      for k := 0 to |fields|
        invariant forall j :: 0 <= j < k ==> !EmptyAt(data, fields[j])
      {
        if EmptyAt(data, fields[k]) {
          return Err(ValidationError(FieldRequired(fields[k])));
        }
      }
      return Ok(true);
    }

    /** Validates, then sends one POST to `shipments` with the data as given. */
    method Create(data: map<string, Value>) returns (r: Result<map<string, Value>>)
      modifies http.transport`log
      ensures Validation(data).Err? ==> r == Err(Validation(data).error) && http.transport.log == old(http.transport.log)
      ensures Validation(data).Ok? ==>
        http.transport.log == old(http.transport.log) + [OutgoingRequest(POST, "shipments", TransportOptions(JsonOptions(data), http.config.GetDebug(), http.config.GetVerifySsl()))]
      ensures Validation(data).Ok? ==> r == Completion(http.transport.failure, http.transport.reply)
    {
      var valid := ValidateShipmentData(data);
      if valid.Err? {
        return Err(valid.error);
      }
      r := http.Post("shipments", data);
    }

    /** Refuses an empty tracking number, otherwise sends one DELETE to
        `shipments/` followed by the tracking number. */
    method Cancel(trackingNumber: string) returns (r: Result<map<string, Value>>)
      modifies http.transport`log
      ensures IsEmptyString(trackingNumber) ==>
        r == Err(ValidationError(TrackingNumberRequired)) && http.transport.log == old(http.transport.log)
      ensures !IsEmptyString(trackingNumber) ==>
        http.transport.log == old(http.transport.log) + [OutgoingRequest(DELETE, "shipments/" + trackingNumber, TransportOptions(map[], http.config.GetDebug(), http.config.GetVerifySsl()))]
      ensures !IsEmptyString(trackingNumber) ==> r == Completion(http.transport.failure, http.transport.reply)
    {
      if IsEmptyString(trackingNumber) {
        return Err(ValidationError(TrackingNumberRequired));
      }
      r := http.Delete("shipments/" + trackingNumber);
    }

    /** Refuses an empty tracking number, otherwise sends one PUT to
        `shipments/` followed by the tracking number, with the data as given. */
    method Update(trackingNumber: string, data: map<string, Value>) returns (r: Result<map<string, Value>>)
      modifies http.transport`log
      ensures IsEmptyString(trackingNumber) ==>
        r == Err(ValidationError(TrackingNumberRequired)) && http.transport.log == old(http.transport.log)
      ensures !IsEmptyString(trackingNumber) ==>
        http.transport.log == old(http.transport.log) + [OutgoingRequest(PUT, "shipments/" + trackingNumber, TransportOptions(JsonOptions(data), http.config.GetDebug(), http.config.GetVerifySsl()))]
      ensures !IsEmptyString(trackingNumber) ==> r == Completion(http.transport.failure, http.transport.reply)
    {
      if IsEmptyString(trackingNumber) {
        return Err(ValidationError(TrackingNumberRequired));
      }
      r := http.Put("shipments/" + trackingNumber, data);
    }
  }

}
