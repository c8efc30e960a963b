/**
 * config/KafkaProducerTracingInterceptor.java: on every send, add the
 * current trace id and the send time as UTF-8 headers to the outgoing
 * record. The clock reading and the UUID a missing id would come from are
 * inputs.
 */
module KafkaProducerTracingInterceptor {
  import opened Wrappers
  import opened Data
  import opened Mdc
  import opened Uuid
  import opened KafkaRecords
  import opened Exceptions
  import Text
  import Utf8
  import TraceContextService

  const TimestampHeader: string := "X-Timestamp"

  /** The two headers onSend appends, in that order. */
  function TracingHeaders(traceId: string, now: Millis): (hs: seq<Header>)
    ensures |hs| == 2 && hs[0].key == TraceIdHeader && hs[1].key == TimestampHeader
    ensures hs[0].value == Some(Utf8.Encode(traceId)) && hs[1].value == Some(Utf8.Encode(Text.IntToString(now)))
  {
    [Header(TraceIdHeader, Some(Utf8.Encode(traceId))), Header(TimestampHeader, Some(Utf8.Encode(Text.IntToString(now))))]
  }

  class KafkaProducerTracingInterceptor {
    const mdc: MappedDiagnosticContext

    constructor (mdc: MappedDiagnosticContext)
      ensures this.mdc == mdc
    {
      this.mdc := mdc;
    }

    /**
     * onSend: the record comes back as it went in, with the two headers
     * appended to whatever it already had; the id is the MDC's trace id
     * (drawn and stored first if there was none).
     */
    method OnSend(record: ProducerRecord, uuid: Uuid, now: Millis) returns (r: ProducerRecord)
      modifies record, mdc
      ensures r == record
      ensures var (m, id) := CurrentTraceId(old(mdc.entries), GenerateTraceId(uuid));
        mdc.entries == m && record.headers == old(record.headers) + TracingHeaders(id, now)
    {
      ghost var before := record.headers;
      var traceId := TraceContextService.GetCurrentTraceIdStatic(mdc, uuid);
      if !Text.Blank(traceId) {
        var traceHeader := Header(TraceIdHeader, Some(Utf8.Encode(traceId)));
        record.headers := record.headers + [traceHeader];
        var timeHeader := Header(TimestampHeader, Some(Utf8.Encode(Text.IntToString(now))));
        record.headers := record.headers + [timeHeader];
        assert record.headers == before + [traceHeader, timeHeader];
      } else {
        assert false;
      }
      r := record;
    }

    /** onAcknowledgement: reads the trace id (creating one if absent) when there is something to log. */
    method OnAcknowledgement(metadataPresent: bool, exception: Option<Exn>, uuid: Uuid)
      modifies mdc
      ensures mdc.entries ==
        if exception.Some? || metadataPresent then CurrentTraceId(old(mdc.entries), GenerateTraceId(uuid)).0
        else old(mdc.entries)
    {
      if exception.Some? {
        var traceId := TraceContextService.GetCurrentTraceIdStatic(mdc, uuid);
      } else if metadataPresent {
        var traceId := TraceContextService.GetCurrentTraceIdStatic(mdc, uuid);
      }
    }
  }
}
