/**
 * The trace id across Kafka: the producer interceptor writes the MDC's id
 * into the record's headers as UTF-8, and the consumer interceptor, reading
 * the last X-Trace-Id header back, restores exactly that id (RFC 3629
 * decoding inverts encoding). The X-Timestamp written beside it parses back
 * to the send time.
 */
module TracePropagation {
  import opened Wrappers
  import opened Data
  import opened Mdc
  import opened Uuid
  import opened KafkaRecords
  import Text
  import Utf8
  import KafkaProducerTracingInterceptor
  import KafkaConsumerTracingInterceptor

  /** The headers onSend appends are what lastHeader finds, whatever the record had before. */
  lemma TracingHeadersAreLast(existing: seq<Header>, traceId: string, now: Millis)
    ensures var hs := existing + KafkaProducerTracingInterceptor.TracingHeaders(traceId, now);
      LastHeader(hs, TraceIdHeader) == Some(Header(TraceIdHeader, Some(Utf8.Encode(traceId)))) &&
      LastHeader(hs, KafkaProducerTracingInterceptor.TimestampHeader) ==
        Some(Header(KafkaProducerTracingInterceptor.TimestampHeader, Some(Utf8.Encode(Text.IntToString(now)))))
  {
    var added := KafkaProducerTracingInterceptor.TracingHeaders(traceId, now);
    assert existing + added == (existing + [added[0]]) + [added[1]];
    LastHeaderOfAdd(existing, added[0], TraceIdHeader);
    LastHeaderOfAdd(existing + [added[0]], added[1], TraceIdHeader);
    LastHeaderOfAdd(existing + [added[0]], added[1], KafkaProducerTracingInterceptor.TimestampHeader);
  }

  /**
   * Producer MDC `pm` and consumer MDC `cm`: a record sent while the
   * producer's current id is `id` sets the consumer's traceId to `id`, its
   * operation to the topic's name, and completes with the send time.
   */
  lemma TraceIdRoundTrip(pm: map<string, string>, uuid: Uuid, now: Millis,
                         cm: map<string, string>, topic: string, key: Option<string>, value: string,
                         existing: seq<Header>, uuid': Uuid)
    ensures var (pm', id) := CurrentTraceId(pm, GenerateTraceId(uuid));
      var record := ConsumerRecord(topic, key, value, existing + KafkaProducerTracingInterceptor.TracingHeaders(id, now));
      Lookup(pm', TraceIdKey) == Some(id) &&
      KafkaConsumerTracingInterceptor.ConsumeOne(cm, record, uuid') ==
        (cm[TraceIdKey := id][OperationKey := KafkaConsumerTracingInterceptor.OperationFor(topic)],
         KafkaConsumerTracingInterceptor.Completed(Some(now)))
  {
    var (pm', id) := CurrentTraceId(pm, GenerateTraceId(uuid));
    CurrentTraceIdStored(pm, GenerateTraceId(uuid), GenerateTraceId(uuid));
    var record := ConsumerRecord(topic, key, value, existing + KafkaProducerTracingInterceptor.TracingHeaders(id, now));
    TracingHeadersAreLast(existing, id, now);
    KafkaConsumerTracingInterceptor.ConsumeOneWithHeader(cm, record, uuid', Utf8.Encode(id));
    Utf8.DecodeEncode(id);
    TimestampRoundTrip(record.headers, now);
  }

  /** The X-Timestamp onSend writes parses back to the send time. */
  lemma TimestampRoundTrip(headers: seq<Header>, now: Millis)
    requires LastHeader(headers, KafkaProducerTracingInterceptor.TimestampHeader) ==
      Some(Header(KafkaProducerTracingInterceptor.TimestampHeader, Some(Utf8.Encode(Text.IntToString(now)))))
    ensures KafkaConsumerTracingInterceptor.TimestampOutcome(headers) == KafkaConsumerTracingInterceptor.Completed(Some(now))
  {
    Utf8.DecodeEncode(Text.IntToString(now));
    Text.ParseLongOfIntToString(now);
  }
}
