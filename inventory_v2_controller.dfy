/**
 * controller/InventoryV2Controller.java: the same inventory upload twice,
 * instrumented once with an OpenTelemetry timed operation and once with the
 * Micrometer timer. Both publish the decoded record itself, through the
 * `sendInventoryData` KafkaProducerService does not define.
 */
module InventoryV2Controller {
  import opened Wrappers
  import opened Data
  import opened Exceptions
  import opened Json
  import opened Http
  import ErrorMessages
  import Text
  import Mdc
  import Uuid
  import TraceContextUtil
  import KafkaProducerService
  import MetricsService
  import Otel = OpenTelemetryMetricsService
  import opened InventoryController

  /** Both variants: readValue, size(), publish; `fault` is what the publish step throws. */
  function V2Outcome(mapper: ObjectMapper, file: Upload, fault: Option<Exn>): (o: Outcome)
    ensures o.Rejected? <==> file.IsEmpty()
    ensures o.Accepted? <==> (!file.IsEmpty() && fault.None? && mapper.readInventory(file.content).Success? &&
      mapper.readInventory(file.content).value.inventory.Some?)
    ensures o.Accepted? ==> (o.payload == InventoryPayload(mapper.readInventory(file.content).value) &&
      o.articles == |mapper.readInventory(file.content).value.inventory.value|)
  {
    if file.IsEmpty() then Rejected
    else match ReadInventoryFile(mapper, file)
      case Failure(e) => Failed(e)
      case Success((data, n)) => if fault.Some? then Failed(fault.value) else Accepted(n, InventoryPayload(data))
  }

  function OTelResponse(o: Outcome, spanTraceId: string): Response<string> {
    match o
    case Rejected => Response(BadRequest, ErrorMessages.FileEmpty)
    case Failed(e) => Response(BadRequest, "Error processing inventory file: " + Text.Show(e.message))
    case Accepted(n, _) =>
      Response(Ok, "Inventory uploaded successfully using OpenTelemetry. " + Text.NatToString(n) + " articles processed. Trace ID: " + spanTraceId)
  }

  function MicrometerResponse(o: Outcome, traceId: string): Response<string> {
    match o
    case Rejected => Response(BadRequest, ErrorMessages.FileEmpty)
    case Failed(e) => Response(BadRequest, "Error processing inventory file: " + Text.Show(e.message))
    case Accepted(n, _) =>
      Response(Ok, "Inventory uploaded successfully using Micrometer. " + Text.NatToString(n) + " articles processed. TraceId: " + traceId)
  }

  /** The OpenTelemetry uploads counter after a request. */
  function OTelUploads(c: map<Otel.Attributes, int>, o: Outcome, sizeBytes: int): map<Otel.Attributes, int> {
    match o
    case Rejected => Otel.Add(c, Otel.FailureAttributes(InventoryType, EmptyFileTag), 1)
    case Failed(_) => Otel.Add(c, Otel.FailureAttributes(InventoryType, ProcessingErrorTag), 1)
    case Accepted(n, _) => Otel.Add(c, Otel.SuccessAttributes(InventoryType, n, sizeBytes), 1)
  }

  /** The attribute set the timed operation records into the upload-duration histogram. */
  function OperationRecord(o: Outcome): Otel.Attributes {
    var common := map[Otel.OperationType := Otel.Str(Otel.FileUploadOperation), Otel.DataType := Otel.Str(InventoryType)];
    if o.Accepted? then common[Otel.OutcomeKey := Otel.Str("success")][Otel.ItemCount := Otel.Long(o.articles)]
    else common[Otel.OutcomeKey := Otel.Str("error")]
  }

  /** The success metric and `recordSuccess` carry the same item count, which the response reports. */
  lemma OTelCountsAgree(c: map<Otel.Attributes, int>, o: Outcome, sizeBytes: int)
    requires o.Accepted?
    ensures var u := OTelUploads(c, o, sizeBytes);
      Otel.SuccessAttributes(InventoryType, o.articles, sizeBytes) in u &&
      Otel.SuccessAttributes(InventoryType, o.articles, sizeBytes)[Otel.ItemCount] == OperationRecord(o)[Otel.ItemCount]
    ensures OTelResponse(o, "").status == Ok
  {
  }

  /** Every request records exactly one upload outcome; only a success moves the item counter. */
  lemma OTelOutcomeKinds(c: map<Otel.Attributes, int>, o: Outcome, sizeBytes: int)
    ensures OperationRecord(o)[Otel.OutcomeKey] == Otel.Str(if o.Accepted? then "success" else "error")
    ensures OTelResponse(o, "").status == Ok <==> o.Accepted?
    ensures OTelResponse(o, "").status != Ok ==> OTelResponse(o, "").status == BadRequest
  {
  }

  /** The two variants agree on everything but the wording of the success message. */
  lemma VariantsAgree(o: Outcome, a: string, b: string)
    ensures OTelResponse(o, a).status == MicrometerResponse(o, b).status
    ensures !o.Accepted? ==> OTelResponse(o, a) == MicrometerResponse(o, b)
  {
  }

  class InventoryV2Controller {
    const objectMapper: ObjectMapper
    const kafkaProducerService: KafkaProducerService.KafkaProducerService
    const micrometerMetricsService: MetricsService.MetricsService
    const otelMetricsService: Otel.OpenTelemetryMetricsService
    const mdc: Mdc.MappedDiagnosticContext

    constructor (objectMapper: ObjectMapper, kafkaProducerService: KafkaProducerService.KafkaProducerService,
                 micrometerMetricsService: MetricsService.MetricsService, otelMetricsService: Otel.OpenTelemetryMetricsService,
                 mdc: Mdc.MappedDiagnosticContext)
      ensures this.objectMapper == objectMapper && this.kafkaProducerService == kafkaProducerService
      ensures this.micrometerMetricsService == micrometerMetricsService && this.otelMetricsService == otelMetricsService
      ensures this.mdc == mdc
    {
      this.objectMapper := objectMapper;
      this.kafkaProducerService := kafkaProducerService;
      this.micrometerMetricsService := micrometerMetricsService;
      this.otelMetricsService := otelMetricsService;
      this.mdc := mdc;
    }

    /** The steps of either `try` that can throw: decode, size(), publish. */
    method TryUpload(file: Upload, fault: Option<Exn>) returns (o: Outcome)
      requires !file.IsEmpty()
      modifies kafkaProducerService`published
      ensures o == V2Outcome(objectMapper, file, fault)
      ensures kafkaProducerService.published == old(kafkaProducerService.published) + Published(o)
    {
      var decoded := objectMapper.readInventory(file.content);
      if decoded.Failure? {
        return Failed(decoded.error);
      }
      if decoded.value.inventory.None? {
        return Failed(NullListReturnedBy(InventoryAccessor));
      }
      var thrown := kafkaProducerService.Publish(InventoryPayload(decoded.value), fault);
      if thrown.Some? {
        return Failed(thrown.value);
      }
      return Accepted(|decoded.value.inventory.value|, InventoryPayload(decoded.value));
    }

    /**
     * `uploadInventoryOTel`. The try-with-resources closes the "file_upload"
     * operation on every path, so the active count returns to where it was.
     * `spanTraceId` is the current span's trace id.
     */
    method UploadInventoryOTel(file: Upload, fault: Option<Exn>, spanTraceId: string) returns (response: Response<string>)
      modifies otelMetricsService, kafkaProducerService`published
      ensures response == OTelResponse(V2Outcome(objectMapper, file, fault), spanTraceId)
      ensures otelMetricsService.activeOperations == old(otelMetricsService.activeOperations)
      ensures otelMetricsService.activeOperationsGauge == old(otelMetricsService.activeOperationsGauge)
      ensures otelMetricsService.uploads == OTelUploads(old(otelMetricsService.uploads), V2Outcome(objectMapper, file, fault), file.Size())
      ensures var o := V2Outcome(objectMapper, file, fault);
        otelMetricsService.itemsProcessed ==
          if o.Accepted? then Otel.Add(old(otelMetricsService.itemsProcessed), map[Otel.DataType := Otel.Str(InventoryType)], o.articles)
          else old(otelMetricsService.itemsProcessed)
      ensures var o := V2Outcome(objectMapper, file, fault);
        otelMetricsService.kafkaMessages ==
          if o.Accepted? then Otel.Add(old(otelMetricsService.kafkaMessages), Otel.KafkaAttributes(UploadMessageType), 1)
          else old(otelMetricsService.kafkaMessages)
      ensures otelMetricsService.uploadDurations == old(otelMetricsService.uploadDurations) + [OperationRecord(V2Outcome(objectMapper, file, fault))]
      ensures otelMetricsService.processingDurations == old(otelMetricsService.processingDurations)
      ensures kafkaProducerService.published == old(kafkaProducerService.published) + Published(V2Outcome(objectMapper, file, fault))
    {
      var timedOperation := otelMetricsService.StartFileUploadOperation(Otel.FileUploadOperation, InventoryType);
      Otel.FileUploadIsUploadType();
      var o: Outcome := Rejected;
      if !file.IsEmpty() {
        o := TryUpload(file, fault);
      }
      RecordOTel(timedOperation, o, file.Size());
      response := OTelResponse(o, spanTraceId);
      timedOperation.Close();
    }

    /** The metric calls on each path of `uploadInventoryOTel`. */
    method RecordOTel(timedOperation: Otel.TimedOperation, o: Outcome, sizeBytes: int)
      requires timedOperation.owner == otelMetricsService
      requires timedOperation.operationType == Otel.FileUploadOperation && timedOperation.dataType == InventoryType
      requires Otel.IsUploadType(timedOperation.operationType)
      modifies otelMetricsService`uploads, otelMetricsService`itemsProcessed, otelMetricsService`kafkaMessages
      modifies otelMetricsService`uploadDurations, otelMetricsService`processingDurations
      ensures otelMetricsService.uploads == OTelUploads(old(otelMetricsService.uploads), o, sizeBytes)
      ensures otelMetricsService.itemsProcessed ==
        if o.Accepted? then Otel.Add(old(otelMetricsService.itemsProcessed), map[Otel.DataType := Otel.Str(InventoryType)], o.articles)
        else old(otelMetricsService.itemsProcessed)
      ensures otelMetricsService.kafkaMessages ==
        if o.Accepted? then Otel.Add(old(otelMetricsService.kafkaMessages), Otel.KafkaAttributes(UploadMessageType), 1)
        else old(otelMetricsService.kafkaMessages)
      ensures otelMetricsService.uploadDurations == old(otelMetricsService.uploadDurations) + [OperationRecord(o)]
      ensures otelMetricsService.processingDurations == old(otelMetricsService.processingDurations)
    {
      match o {
        case Rejected =>
          otelMetricsService.RecordFailedUpload(InventoryType, EmptyFileTag);
          timedOperation.RecordError("Empty file provided");
        case Failed(e) =>
          otelMetricsService.RecordFailedUpload(InventoryType, ProcessingErrorTag);
          timedOperation.RecordError("Processing failed: " + Text.Show(e.message));
        case Accepted(n, _) =>
          otelMetricsService.RecordSuccessfulUpload(InventoryType, n, sizeBytes);
          otelMetricsService.RecordKafkaMessage(UploadMessageType);
          timedOperation.RecordSuccess(n);
      }
    }

    /** `uploadInventoryMicrometer`: the Micrometer timer is stopped in `finally`. */
    method UploadInventoryMicrometer(file: Upload, uuid: Uuid.Uuid, fault: Option<Exn>) returns (response: Response<string>)
      modifies mdc, micrometerMetricsService, kafkaProducerService`published
      ensures var (entries, traceId) := Mdc.CurrentTraceId(old(mdc.entries), Uuid.GenerateTraceId(uuid));
        mdc.entries == entries && response == MicrometerResponse(V2Outcome(objectMapper, file, fault), traceId)
      ensures micrometerMetricsService.currentProcessingCount == old(micrometerMetricsService.currentProcessingCount)
      ensures micrometerMetricsService.counters ==
        Counters(old(micrometerMetricsService.counters), V2Outcome(objectMapper, file, fault), EmptyFileTag, file.Size(), UploadMessageType)
      ensures micrometerMetricsService.timerRecords == old(micrometerMetricsService.timerRecords) +
        KafkaTimers(V2Outcome(objectMapper, file, fault)) + [MetricsService.MeterId(MetricsService.UploadDuration, map[])]
      ensures kafkaProducerService.published == old(kafkaProducerService.published) + Published(V2Outcome(objectMapper, file, fault))
    {
      ghost var o := V2Outcome(objectMapper, file, fault);
      var traceId := TraceContextUtil.GetCurrentTraceId(mdc, uuid);
      response := ProcessMicrometer(file, traceId, fault);
      assert response == MicrometerResponse(o, traceId);
    }

    /** The body of `uploadInventoryMicrometer` after the trace-id lookup. */
    method ProcessMicrometer(file: Upload, traceId: string, fault: Option<Exn>) returns (response: Response<string>)
      modifies micrometerMetricsService, kafkaProducerService`published
      ensures response == MicrometerResponse(V2Outcome(objectMapper, file, fault), traceId)
      ensures micrometerMetricsService.currentProcessingCount == old(micrometerMetricsService.currentProcessingCount)
      ensures micrometerMetricsService.counters ==
        Counters(old(micrometerMetricsService.counters), V2Outcome(objectMapper, file, fault), EmptyFileTag, file.Size(), UploadMessageType)
      ensures micrometerMetricsService.timerRecords == old(micrometerMetricsService.timerRecords) +
        KafkaTimers(V2Outcome(objectMapper, file, fault)) + [MetricsService.MeterId(MetricsService.UploadDuration, map[])]
      ensures kafkaProducerService.published == old(kafkaProducerService.published) + Published(V2Outcome(objectMapper, file, fault))
    {
      var timer := micrometerMetricsService.StartFileUploadTimer();
      var o: Outcome := Rejected;
      if !file.IsEmpty() {
        o := TryUpload(file, fault);
      }
      RecordMicrometer(o, file.Size());
      response := MicrometerResponse(o, traceId);
      micrometerMetricsService.StopFileUploadTimer(timer);
    }

    method RecordMicrometer(o: Outcome, sizeBytes: int)
      modifies micrometerMetricsService`counters, micrometerMetricsService`timerRecords
      ensures micrometerMetricsService.counters == Counters(old(micrometerMetricsService.counters), o, EmptyFileTag, sizeBytes, UploadMessageType)
      ensures micrometerMetricsService.timerRecords == old(micrometerMetricsService.timerRecords) + KafkaTimers(o)
    {
      match o {
        case Rejected =>
          micrometerMetricsService.RecordFailedUpload(InventoryType, EmptyFileTag);
        case Failed(_) =>
          micrometerMetricsService.RecordFailedUpload(InventoryType, ProcessingErrorTag);
        case Accepted(n, _) =>
          micrometerMetricsService.RecordSuccessfulUpload(InventoryType, n, sizeBytes);
          micrometerMetricsService.RecordKafkaMessage(UploadMessageType);
      }
    }
  }
}
