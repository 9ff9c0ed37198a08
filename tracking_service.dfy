/**
 * The tracking service: track one shipment, several at once, or all those in
 * a date range, each checking its required input before it delegates one
 * call to the request executor.
 */
module Tracking {
  import opened Wrappers
  import opened Php
  import opened Transport
  import opened Errors
  import opened Config
  import opened Http

  const TrackingNumberRequired: string := "Takip numarası gereklidir."
  const TrackingNumbersRequired: string := "En az bir takip numarası gereklidir."
  const DatesRequired: string := "Başlangıç ve bitiş tarihleri gereklidir."

  /** The body of a batch lookup: the list under `tracking_numbers`, nothing else. */
  function BatchBody(trackingNumbers: seq<Value>): (body: map<string, Value>)
    ensures body.Keys == {"tracking_numbers"}
    ensures body["tracking_numbers"] == List(trackingNumbers)
  {
    map["tracking_numbers" := List(trackingNumbers)]
  }

  /** The query of a date-range lookup: the two dates, the page and the page size. */
  function DateRangeQuery(startDate: string, endDate: string, page: int, limit: int): (query: map<string, Value>)
    ensures query.Keys == {"start_date", "end_date", "page", "limit"}
    ensures query["start_date"] == Str(startDate) && query["end_date"] == Str(endDate)
    ensures query["page"] == Int(page) && query["limit"] == Int(limit)
  {
    map["start_date" := Str(startDate), "end_date" := Str(endDate), "page" := Int(page), "limit" := Int(limit)]
  }

  class TrackingService {
    const http: HttpClient

    constructor (client: Recorder, config: TryOtoConfig)
      ensures fresh(http)
      ensures http.transport == client && http.config == config
    {
      http := new HttpClient(client, config);
    }

    /** Refuses an empty tracking number, otherwise sends one GET to
        `tracking/` followed by the tracking number, with an empty query. */
    method Track(trackingNumber: string) returns (r: Result<map<string, Value>>)
      modifies http.transport`log
      ensures IsEmptyString(trackingNumber) ==>
        r == Err(ValidationError(TrackingNumberRequired)) && http.transport.log == old(http.transport.log)
      ensures !IsEmptyString(trackingNumber) ==>
        http.transport.log == old(http.transport.log) + [OutgoingRequest(GET, "tracking/" + trackingNumber, TransportOptions(QueryOptions(map[]), http.config.GetDebug(), http.config.GetVerifySsl()))]
      ensures !IsEmptyString(trackingNumber) ==> r == Completion(http.transport.failure, http.transport.reply)
    {
      if IsEmptyString(trackingNumber) {
        return Err(ValidationError(TrackingNumberRequired));
      }
      r := http.Get("tracking/" + trackingNumber);
    }

    /** Refuses an empty list, otherwise sends one POST to `tracking/batch`
        whose body holds the list under `tracking_numbers`. */
    method MultiTrack(trackingNumbers: seq<Value>) returns (r: Result<map<string, Value>>)
      modifies http.transport`log
      ensures trackingNumbers == [] ==>
        r == Err(ValidationError(TrackingNumbersRequired)) && http.transport.log == old(http.transport.log)
      ensures trackingNumbers != [] ==>
        http.transport.log == old(http.transport.log) + [OutgoingRequest(POST, "tracking/batch", TransportOptions(JsonOptions(BatchBody(trackingNumbers)), http.config.GetDebug(), http.config.GetVerifySsl()))]
      ensures trackingNumbers != [] ==> r == Completion(http.transport.failure, http.transport.reply)
    {
      if Empty(List(trackingNumbers)) {
        return Err(ValidationError(TrackingNumbersRequired));
      }
      r := http.Post("tracking/batch", BatchBody(trackingNumbers));
    }

    /** Refuses an empty start or end date, otherwise sends one GET to
        `tracking/date-range` with the dates, the page (1 unless given) and
        the page size (50 unless given) as the query. */
    method TrackByDateRange(startDate: string, endDate: string, page: int := 1, limit: int := 50) returns (r: Result<map<string, Value>>)
      modifies http.transport`log
      ensures IsEmptyString(startDate) || IsEmptyString(endDate) ==>
        r == Err(ValidationError(DatesRequired)) && http.transport.log == old(http.transport.log)
      ensures !IsEmptyString(startDate) && !IsEmptyString(endDate) ==>
        http.transport.log == old(http.transport.log) + [OutgoingRequest(GET, "tracking/date-range", TransportOptions(QueryOptions(DateRangeQuery(startDate, endDate, page, limit)), http.config.GetDebug(), http.config.GetVerifySsl()))]
      ensures !IsEmptyString(startDate) && !IsEmptyString(endDate) ==> r == Completion(http.transport.failure, http.transport.reply)
    {
      if IsEmptyString(startDate) || IsEmptyString(endDate) {
        return Err(ValidationError(DatesRequired));
      }
      r := http.Get("tracking/date-range", DateRangeQuery(startDate, endDate, page, limit));
    }
  }

}
