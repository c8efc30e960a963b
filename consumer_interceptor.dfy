/**
 * config/kafka/KafkaConsumerTracingInterceptor.java: for each consumed
 * record in turn, put the record's trace id (its last X-Trace-Id header,
 * else the current or a generated id) and a KAFKA_CONSUME_ operation name
 * into the MDC, then read the X-Timestamp header. Any exception ends only
 * the iteration it happens in.
 */
module KafkaConsumerTracingInterceptor {
  import opened Wrappers
  import opened Data
  import opened Mdc
  import opened Uuid
  import opened KafkaRecords
  import opened Exceptions
  import Text
  import Utf8
  import TraceContextUtil
  import KafkaProducerTracingInterceptor

  /** How one iteration of the loop ends. */
  datatype Outcome =
    /** The body ran to its end, with the parsed X-Timestamp if there was one. */
    | Completed(sentAt: Option<int>)
    /** An exception was caught; the MDC keeps the writes made before it. */
    | Aborted(cause: Exn)

  function OperationFor(topic: string): (op: string)
    ensures |op| == 14 + |topic| && op[..14] == "KAFKA_CONSUME_"
    ensures forall i :: 0 <= i < |topic| ==> op[14 + i] == Text.UpperChar(topic[i])
  {
    "KAFKA_CONSUME_" + Text.Upper(topic)
  }

  /** `new String(null, UTF_8)` throws NullPointerException. */
  const NullHeaderValue: Exn := Exn(NullPointerException, None, None, None, None)

  function NumberFormat(s: string): (e: Exn)
    ensures e.cls == NumberFormatException
  {
    Exn(NumberFormatException, Some("For input string: \"" + s + "\""), None, None, None)
  }

  /** The X-Timestamp step: absent is fine, a null value or text Long.parseLong rejects throws. */
  function TimestampOutcome(headers: seq<Header>): (o: Outcome)
    ensures LastHeader(headers, KafkaProducerTracingInterceptor.TimestampHeader).None? ==> o == Completed(None)
  {
    match LastHeader(headers, KafkaProducerTracingInterceptor.TimestampHeader)
    case None => Completed(None)
    case Some(h) =>
      match h.value
      case None => Aborted(NullHeaderValue)
      case Some(bs) =>
        var text := Utf8.Decode(bs);
        match Text.ParseLong(text)
        case Some(t) => Completed(Some(t))
        case None => Aborted(NumberFormat(text))
  }

  /** One iteration: the MDC afterwards and how the iteration ends. */
  function ConsumeOne(m: map<string, string>, record: ConsumerRecord, uuid: Uuid): (r: (map<string, string>, Outcome))
  {
    var traceHeader := LastHeader(record.headers, TraceIdHeader);
    if traceHeader.Some? && traceHeader.value.value.None? then (m, Aborted(NullHeaderValue))
    else
      var (m1, traceId) :=
        if traceHeader.Some? then (m, Utf8.Decode(traceHeader.value.value.value))
        else CurrentTraceId(m, GenerateTraceId(uuid));
      (m1[TraceIdKey := traceId][OperationKey := OperationFor(record.topic)], TimestampOutcome(record.headers))
  }

  /** The MDC after the loop has visited `records` in order. */
  function ConsumeAll(m: map<string, string>, records: seq<ConsumerRecord>, uuids: seq<Uuid>): map<string, string>
    requires |uuids| == |records|
  {
    if records == [] then m
    else
      var n := |records| - 1;
      ConsumeOne(ConsumeAll(m, records[..n], uuids[..n]), records[n], uuids[n]).0
  }

  /**
   * A record with a readable X-Trace-Id sets the MDC's traceId to that
   * header's text, even when it is blank, and the operation to
   * KAFKA_CONSUME_ + upper(topic), whatever the X-Timestamp header holds.
   */
  lemma ConsumeOneWithHeader(m: map<string, string>, record: ConsumerRecord, uuid: Uuid, bs: seq<Utf8.Byte>)
    requires LastHeader(record.headers, TraceIdHeader) == Some(Header(TraceIdHeader, Some(bs)))
    ensures ConsumeOne(m, record, uuid).0 == m[TraceIdKey := Utf8.Decode(bs)][OperationKey := OperationFor(record.topic)]
  {
  }

  /** Without an X-Trace-Id header the current id is kept, or a fresh one is stored. */
  lemma ConsumeOneWithoutHeader(m: map<string, string>, record: ConsumerRecord, uuid: Uuid)
    requires LastHeader(record.headers, TraceIdHeader).None?
    ensures var m' := ConsumeOne(m, record, uuid).0;
      Lookup(m', TraceIdKey) == Some(CurrentTraceId(m, GenerateTraceId(uuid)).1) &&
      (Text.Usable(Lookup(m, TraceIdKey)) ==> Lookup(m', TraceIdKey) == Lookup(m, TraceIdKey)) &&
      Lookup(m', OperationKey) == Some(OperationFor(record.topic))
  {
  }

  /** A bad X-Timestamp aborts the iteration after both MDC writes. */
  lemma BadTimestampKeepsWrites(m: map<string, string>, record: ConsumerRecord, uuid: Uuid, bs: seq<Utf8.Byte>)
    requires LastHeader(record.headers, TraceIdHeader).None? || LastHeader(record.headers, TraceIdHeader).value.value.Some?
    requires LastHeader(record.headers, KafkaProducerTracingInterceptor.TimestampHeader) ==
      Some(Header(KafkaProducerTracingInterceptor.TimestampHeader, Some(bs)))
    requires Text.ParseLong(Utf8.Decode(bs)).None?
    ensures ConsumeOne(m, record, uuid).1.Aborted?
    ensures ConsumeOne(m, record, uuid).1.cause.cls == NumberFormatException
    ensures TraceIdKey in ConsumeOne(m, record, uuid).0
    ensures Lookup(ConsumeOne(m, record, uuid).0, OperationKey) == Some(OperationFor(record.topic))
  {
  }

  /** After the loop the MDC holds what the last record wrote. */
  lemma {:induction false} LastRecordWins(m: map<string, string>, records: seq<ConsumerRecord>, uuids: seq<Uuid>, bs: seq<Utf8.Byte>)
    requires |uuids| == |records| && records != []
    requires LastHeader(records[|records| - 1].headers, TraceIdHeader) == Some(Header(TraceIdHeader, Some(bs)))
    ensures Lookup(ConsumeAll(m, records, uuids), TraceIdKey) == Some(Utf8.Decode(bs))
    ensures Lookup(ConsumeAll(m, records, uuids), OperationKey) == Some(OperationFor(records[|records| - 1].topic))
  {
    var n := |records| - 1;
    ConsumeOneWithHeader(ConsumeAll(m, records[..n], uuids[..n]), records[n], uuids[n], bs);
  }

  /** Records whose X-Trace-Id values are null leave the MDC alone. */
  lemma NullTraceHeaderChangesNothing(m: map<string, string>, record: ConsumerRecord, uuid: Uuid)
    requires LastHeader(record.headers, TraceIdHeader).Some? && LastHeader(record.headers, TraceIdHeader).value.value.None?
    ensures ConsumeOne(m, record, uuid) == (m, Aborted(NullHeaderValue))
  {
  }

  class KafkaConsumerTracingInterceptor {
    const mdc: MappedDiagnosticContext

    constructor (mdc: MappedDiagnosticContext)
      ensures this.mdc == mdc
    {
      this.mdc := mdc;
    }

    /**
     * onConsume; `uuids[i]` is the UUID a generated id for record i would
     * come from. The records are returned as given.
     */
    method OnConsume(records: seq<ConsumerRecord>, uuids: seq<Uuid>) returns (r: seq<ConsumerRecord>)
      requires |uuids| == |records|
      modifies mdc
      ensures r == records
      ensures mdc.entries == ConsumeAll(old(mdc.entries), records, uuids)
    {
      var i := 0;
      while i < |records|
        invariant 0 <= i <= |records|
        invariant mdc.entries == ConsumeAll(old(mdc.entries), records[..i], uuids[..i])
      {
        assert records[..i + 1][..i] == records[..i] && uuids[..i + 1][..i] == uuids[..i];
        ConsumeRecord(records[i], uuids[i]);
        i := i + 1;
      }
      assert records[..i] == records && uuids[..i] == uuids;
      r := records;
    }

    /** The body of the loop for one record, up to where an exception would leave it. */
    method ConsumeRecord(record: ConsumerRecord, uuid: Uuid)
      modifies mdc
      ensures mdc.entries == ConsumeOne(old(mdc.entries), record, uuid).0
    {
      var traceHeader := LastHeader(record.headers, TraceIdHeader);
      var traceId: string;
      if traceHeader.Some? {
        if traceHeader.value.value.None? {
          return;
        }
        traceId := Utf8.Decode(traceHeader.value.value.value);
      } else {
        traceId := TraceContextUtil.GetCurrentTraceId(mdc, uuid);
      }
      var operation := OperationFor(record.topic);
      mdc.entries := mdc.entries[TraceIdKey := traceId];
      mdc.entries := mdc.entries[OperationKey := operation];
      // The X-Timestamp header only feeds a log line; TimestampOutcome says how that step ends.
    }

    /** onCommit: reads the trace id for a log line, creating one if absent. */
    method OnCommit(uuid: Uuid)
      modifies mdc
      ensures mdc.entries == CurrentTraceId(old(mdc.entries), GenerateTraceId(uuid)).0
    {
      var traceId := TraceContextUtil.GetCurrentTraceId(mdc, uuid);
    }
  }
}
