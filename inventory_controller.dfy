/**
 * controller/InventoryController.java: the two inventory endpoints. Each
 * looks up the trace id, starts a timer, validates, serialises the record
 * to JSON and publishes it as text, records metrics, and answers with a
 * string; any exception in the `try` becomes a 400 and the timer is
 * stopped in `finally`.
 */
module InventoryController {
  import opened Wrappers
  import opened Data
  import opened Exceptions
  import opened Json
  import opened Http
  import ErrorMessages
  import Text
  import Mdc
  import Uuid
  import TraceContextUtil
  import KafkaProducerService
  import MetricsService

  const InventoryType: string := "inventory"
  const EmptyFileTag: string := "empty_file"
  const InvalidDataTag: string := "invalid_data"
  const ProcessingErrorTag: string := "processing_error"
  const UploadMessageType: string := "INVENTORY_UPLOAD"
  const DataMessageType: string := "INVENTORY_DATA"
  const UploadPrefix: string := "INVENTORY_UPLOAD: "
  const DataPrefix: string := "INVENTORY_DATA: "

  /** How a request ends. */
  datatype Outcome =
    /** The validation at the top of the `try` answered 400. */
    | Rejected
    /** An exception reached the `catch`. */
    | Failed(error: Exn)
    /** The record was published with this many articles. */
    | Accepted(articles: nat, payload: Payload)

  /** `readValue` followed by `inventory().size()`, which throws on a null list. */
  function ReadInventoryFile(mapper: ObjectMapper, file: Upload): Result<(InventoryData, nat), Exn> {
    match mapper.readInventory(file.content)
    case Failure(e) => Failure(e)
    case Success(data) =>
      match data.inventory
      case None => Failure(NullListReturnedBy(InventoryAccessor))
      case Some(items) => Success((data, |items|))
  }

  /** `uploadInventory`; `fault` is what the publish step throws. */
  function UploadOutcome(mapper: ObjectMapper, file: Upload, fault: Option<Exn>): Outcome {
    if file.IsEmpty() then Rejected
    else match ReadInventoryFile(mapper, file)
      case Failure(e) => Failed(e)
      case Success((data, n)) =>
        match mapper.writeInventory(data)
        case Failure(e) => Failed(e)
        case Success(json) => if fault.Some? then Failed(fault.value) else Accepted(n, TextPayload(UploadPrefix + json))
  }

  /** `uploadInventoryData`: a null body or a null list is rejected; an empty list is not. */
  function DataOutcome(mapper: ObjectMapper, inventoryData: Option<InventoryData>, fault: Option<Exn>): Outcome {
    if inventoryData.None? || inventoryData.value.inventory.None? then Rejected
    else match mapper.writeInventory(inventoryData.value)
      case Failure(e) => Failed(e)
      case Success(json) =>
        if fault.Some? then Failed(fault.value)
        else Accepted(|inventoryData.value.inventory.value|, TextPayload(DataPrefix + json))
  }

  function UploadResponse(o: Outcome, traceId: string): Response<string> {
    match o
    case Rejected => Response(BadRequest, ErrorMessages.FileEmpty)
    case Failed(e) => Response(BadRequest, "Error processing inventory file: " + Text.Show(e.message))
    case Accepted(n, _) =>
      Response(Ok, "Inventory uploaded successfully. " + Text.NatToString(n) + " articles processed. TraceId: " + traceId)
  }

  /** The data endpoint's error text speaks of products data. */
  function DataResponse(o: Outcome, traceId: string): Response<string> {
    match o
    case Rejected => Response(BadRequest, ErrorMessages.InvalidInventoryData)
    case Failed(e) => Response(BadRequest, "Error processing products data: " + Text.Show(e.message))
    case Accepted(n, _) =>
      Response(Ok, "Inventory data processed successfully. " + Text.NatToString(n) + " articles received. TraceId: " + traceId)
  }

  /** The counters after a request: one failure, or one success, its items and one Kafka message. */
  function Counters(c: map<MetricsService.MeterId, int>, o: Outcome, rejectTag: string, sizeBytes: int, messageType: string): map<MetricsService.MeterId, int> {
    match o
    case Rejected => MetricsService.Bump(c, MetricsService.FailureId(InventoryType, rejectTag), 1)
    case Failed(_) => MetricsService.Bump(c, MetricsService.FailureId(InventoryType, ProcessingErrorTag), 1)
    case Accepted(n, _) =>
      MetricsService.Bump(MetricsService.Bump(MetricsService.Bump(c,
        MetricsService.SuccessId(InventoryType, sizeBytes), 1),
        MetricsService.ItemsId(InventoryType), n),
        MetricsService.KafkaId(messageType), 1)
  }

  /** What a request publishes: its payload iff it was accepted. */
  function Published(o: Outcome): seq<Payload> {
    if o.Accepted? then [o.payload] else []
  }

  /** The Kafka publish timer is recorded iff the request was accepted. */
  function KafkaTimers(o: Outcome): seq<MetricsService.MeterId> {
    if o.Accepted? then [MetricsService.MeterId(MetricsService.KafkaPublishDuration, map[])] else []
  }

  // ---------------------------------------------------------------------------
  // What the endpoints promise

  /** 200 exactly when something was published, 400 otherwise. */
  lemma StatusIff(o: Outcome, traceId: string)
    ensures UploadResponse(o, traceId).status == Ok <==> |Published(o)| == 1
    ensures DataResponse(o, traceId).status == Ok <==> |Published(o)| == 1
    ensures UploadResponse(o, traceId).status != Ok ==> UploadResponse(o, traceId).status == BadRequest && Published(o) == []
    ensures DataResponse(o, traceId).status != Ok ==> DataResponse(o, traceId).status == BadRequest && Published(o) == []
  {
  }

  /** An empty file is rejected before anything is decoded. */
  lemma EmptyFileNotDecoded(m1: ObjectMapper, m2: ObjectMapper, file: Upload, f1: Option<Exn>, f2: Option<Exn>)
    requires file.IsEmpty()
    ensures UploadOutcome(m1, file, f1) == UploadOutcome(m2, file, f2) == Rejected
  {
  }

  /** An accepted upload publishes the JSON of what the file decodes to and counts its articles. */
  lemma AcceptedUpload(mapper: ObjectMapper, file: Upload, fault: Option<Exn>)
    requires UploadOutcome(mapper, file, fault).Accepted?
    ensures var data := mapper.readInventory(file.content);
      data.Success? && data.value.inventory.Some? && mapper.writeInventory(data.value).Success? && fault.None? &&
      UploadOutcome(mapper, file, fault) ==
        Accepted(|data.value.inventory.value|, TextPayload(UploadPrefix + mapper.writeInventory(data.value).value))
  {
  }

  /** A decoded record with no list fails the upload with a NullPointerException. */
  lemma NullListFailsUpload(mapper: ObjectMapper, file: Upload, fault: Option<Exn>)
    requires !file.IsEmpty() && mapper.readInventory(file.content).Success?
    requires mapper.readInventory(file.content).value.inventory.None?
    ensures UploadOutcome(mapper, file, fault) == Failed(NullListReturnedBy(InventoryAccessor))
  {
  }

  /**
   * The data endpoint accepts a list of any length, the empty one and one
   * holding nulls included, when it serialises and the publish succeeds; it
   * counts every element and publishes the serialised record.
   */
  lemma AnyListAccepted(mapper: ObjectMapper, items: seq<Option<InventoryItem>>, fault: Option<Exn>)
    requires mapper.writeInventory(InventoryData(Some(items))).Success? && fault.None?
    ensures DataOutcome(mapper, Some(InventoryData(Some(items))), fault) ==
      Accepted(|items|, TextPayload(DataPrefix + mapper.writeInventory(InventoryData(Some(items))).value))
    ensures Published(DataOutcome(mapper, Some(InventoryData(Some(items))), fault)) ==
      [TextPayload(DataPrefix + mapper.writeInventory(InventoryData(Some(items))).value)]
  {
  }

  /**
   * The counters move by exactly one upload (a success or a failure) and,
   * on success only, by the article count the response reports.
   */
  lemma CountersMove(c: map<MetricsService.MeterId, int>, o: Outcome, rejectTag: string, sizeBytes: int, messageType: string)
    requires rejectTag != ProcessingErrorTag
    ensures var c' := Counters(c, o, rejectTag, sizeBytes, messageType);
      MetricsService.CountOf(c', MetricsService.ItemsId(InventoryType)) ==
        MetricsService.CountOf(c, MetricsService.ItemsId(InventoryType)) + (if o.Accepted? then o.articles else 0)
    ensures var c' := Counters(c, o, rejectTag, sizeBytes, messageType);
      !o.Accepted? ==> forall id :: id != MetricsService.FailureId(InventoryType, if o.Rejected? then rejectTag else ProcessingErrorTag) ==>
        MetricsService.CountOf(c', id) == MetricsService.CountOf(c, id)
  {
    MetricsService.FailureIdDistinct(InventoryType, rejectTag, InventoryType, sizeBytes);
    MetricsService.FailureIdDistinct(InventoryType, ProcessingErrorTag, InventoryType, sizeBytes);
    assert MetricsService.ItemsId(InventoryType) != MetricsService.KafkaId(messageType) by {
      assert MetricsService.ItemsId(InventoryType).name != MetricsService.KafkaId(messageType).name;
    }
  }

  class InventoryController {
    const objectMapper: ObjectMapper
    const kafkaProducerService: KafkaProducerService.KafkaProducerService
    const metricsService: MetricsService.MetricsService
    /** The MDC of the request thread, where TraceContext.getCurrentTraceId looks. */
    const mdc: Mdc.MappedDiagnosticContext

    constructor (objectMapper: ObjectMapper, kafkaProducerService: KafkaProducerService.KafkaProducerService,
                 metricsService: MetricsService.MetricsService, mdc: Mdc.MappedDiagnosticContext)
      ensures this.objectMapper == objectMapper && this.kafkaProducerService == kafkaProducerService
      ensures this.metricsService == metricsService && this.mdc == mdc
    {
      this.objectMapper := objectMapper;
      this.kafkaProducerService := kafkaProducerService;
      this.metricsService := metricsService;
      this.mdc := mdc;
    }

    /** `uploadInventory`; `fault` is what the one-argument `sendMessage` throws. */
    method UploadInventory(file: Upload, uuid: Uuid.Uuid, fault: Option<Exn>) returns (response: Response<string>)
      modifies mdc, metricsService, kafkaProducerService`published
      ensures mdc.entries == Mdc.CurrentTraceId(old(mdc.entries), Uuid.GenerateTraceId(uuid)).0
      ensures response == UploadResponse(UploadOutcome(objectMapper, file, fault), Mdc.CurrentTraceId(old(mdc.entries), Uuid.GenerateTraceId(uuid)).1)
      ensures metricsService.currentProcessingCount == old(metricsService.currentProcessingCount)
      ensures metricsService.counters ==
        Counters(old(metricsService.counters), UploadOutcome(objectMapper, file, fault), EmptyFileTag, file.Size(), UploadMessageType)
      ensures metricsService.timerRecords == old(metricsService.timerRecords) +
        KafkaTimers(UploadOutcome(objectMapper, file, fault)) + [MetricsService.MeterId(MetricsService.UploadDuration, map[])]
      ensures kafkaProducerService.published == old(kafkaProducerService.published) + Published(UploadOutcome(objectMapper, file, fault))
    {
      ghost var o := UploadOutcome(objectMapper, file, fault);
      var traceId := TraceContextUtil.GetCurrentTraceId(mdc, uuid);
      response := ProcessUpload(file, traceId, fault);
      assert response == UploadResponse(o, traceId);
    }

    /** The body of `uploadInventory` after the trace-id lookup: a timed `try` with its `finally`. */
    method ProcessUpload(file: Upload, traceId: string, fault: Option<Exn>) returns (response: Response<string>)
      modifies metricsService, kafkaProducerService`published
      ensures response == UploadResponse(UploadOutcome(objectMapper, file, fault), traceId)
      ensures metricsService.currentProcessingCount == old(metricsService.currentProcessingCount)
      ensures metricsService.counters ==
        Counters(old(metricsService.counters), UploadOutcome(objectMapper, file, fault), EmptyFileTag, file.Size(), UploadMessageType)
      ensures metricsService.timerRecords == old(metricsService.timerRecords) +
        KafkaTimers(UploadOutcome(objectMapper, file, fault)) + [MetricsService.MeterId(MetricsService.UploadDuration, map[])]
      ensures kafkaProducerService.published == old(kafkaProducerService.published) + Published(UploadOutcome(objectMapper, file, fault))
    {
      var timer := metricsService.StartFileUploadTimer();
      var o: Outcome := Rejected;
      if !file.IsEmpty() {
        o := TryUpload(file, fault);
      }
      RecordOutcome(o, EmptyFileTag, file.Size(), UploadMessageType);
      response := UploadResponse(o, traceId);
      metricsService.StopFileUploadTimer(timer);
    }

    /** The steps of the upload's `try` that can throw: decode, size(), serialise, publish. */
    method TryUpload(file: Upload, fault: Option<Exn>) returns (o: Outcome)
      requires !file.IsEmpty()
      modifies kafkaProducerService`published
      ensures o == UploadOutcome(objectMapper, file, fault)
      ensures kafkaProducerService.published == old(kafkaProducerService.published) + Published(o)
    {
      var decoded := objectMapper.readInventory(file.content);
      if decoded.Failure? {
        return Failed(decoded.error);
      }
      if decoded.value.inventory.None? {
        return Failed(NullListReturnedBy(InventoryAccessor));
      }
      var json := objectMapper.writeInventory(decoded.value);
      if json.Failure? {
        return Failed(json.error);
      }
      var payload := TextPayload(UploadPrefix + json.value);
      var thrown := kafkaProducerService.Publish(payload, fault);
      if thrown.Some? {
        return Failed(thrown.value);
      }
      return Accepted(|decoded.value.inventory.value|, payload);
    }

    /** The metric calls on each path: the failure counter, or the success and Kafka counters. */
    method RecordOutcome(o: Outcome, rejectTag: string, sizeBytes: int, messageType: string)
      modifies metricsService`counters, metricsService`timerRecords
      ensures metricsService.counters == Counters(old(metricsService.counters), o, rejectTag, sizeBytes, messageType)
      ensures metricsService.timerRecords == old(metricsService.timerRecords) + KafkaTimers(o)
    {
      match o {
        case Rejected =>
          metricsService.RecordFailedUpload(InventoryType, rejectTag);
        case Failed(_) =>
          metricsService.RecordFailedUpload(InventoryType, ProcessingErrorTag);
        case Accepted(n, _) =>
          metricsService.RecordSuccessfulUpload(InventoryType, n, sizeBytes);
          metricsService.RecordKafkaMessage(messageType);
      }
    }

    /** `uploadInventoryData`; `fault` is what the one-argument `sendMessage` throws. */
    method UploadInventoryData(inventoryData: Option<InventoryData>, uuid: Uuid.Uuid, fault: Option<Exn>) returns (response: Response<string>)
      modifies mdc, metricsService, kafkaProducerService`published
      ensures var (entries, traceId) := Mdc.CurrentTraceId(old(mdc.entries), Uuid.GenerateTraceId(uuid));
        mdc.entries == entries && response == DataResponse(DataOutcome(objectMapper, inventoryData, fault), traceId)
      ensures metricsService.currentProcessingCount == old(metricsService.currentProcessingCount)
      ensures metricsService.counters ==
        Counters(old(metricsService.counters), DataOutcome(objectMapper, inventoryData, fault), InvalidDataTag, 0, DataMessageType)
      ensures metricsService.timerRecords == old(metricsService.timerRecords) +
        KafkaTimers(DataOutcome(objectMapper, inventoryData, fault)) + [MetricsService.MeterId(MetricsService.ProcessingDuration, map[])]
      ensures kafkaProducerService.published == old(kafkaProducerService.published) + Published(DataOutcome(objectMapper, inventoryData, fault))
    {
      ghost var o := DataOutcome(objectMapper, inventoryData, fault);
      var traceId := TraceContextUtil.GetCurrentTraceId(mdc, uuid);
      response := ProcessData(inventoryData, traceId, fault);
      assert response == DataResponse(o, traceId);
    }

    /** The body of `uploadInventoryData` after the trace-id lookup: a timed `try` with its `finally`. */
    method ProcessData(inventoryData: Option<InventoryData>, traceId: string, fault: Option<Exn>) returns (response: Response<string>)
      modifies metricsService`counters, metricsService`timerRecords, kafkaProducerService`published
      ensures response == DataResponse(DataOutcome(objectMapper, inventoryData, fault), traceId)
      ensures metricsService.counters ==
        Counters(old(metricsService.counters), DataOutcome(objectMapper, inventoryData, fault), InvalidDataTag, 0, DataMessageType)
      ensures metricsService.timerRecords == old(metricsService.timerRecords) +
        KafkaTimers(DataOutcome(objectMapper, inventoryData, fault)) + [MetricsService.MeterId(MetricsService.ProcessingDuration, map[])]
      ensures kafkaProducerService.published == old(kafkaProducerService.published) + Published(DataOutcome(objectMapper, inventoryData, fault))
    {
      var timer := metricsService.StartDataProcessingTimer();
      var o: Outcome := Rejected;
      if inventoryData.Some? && inventoryData.value.inventory.Some? {
        o := TryPublishData(inventoryData.value, fault);
      }
      RecordOutcome(o, InvalidDataTag, 0, DataMessageType);
      response := DataResponse(o, traceId);
      metricsService.StopDataProcessingTimer(timer);
    }

    /** The steps of the data endpoint's `try` that can throw: serialise and publish. */
    method TryPublishData(inventoryData: InventoryData, fault: Option<Exn>) returns (o: Outcome)
      requires inventoryData.inventory.Some?
      modifies kafkaProducerService`published
      ensures o == DataOutcome(objectMapper, Some(inventoryData), fault)
      ensures kafkaProducerService.published == old(kafkaProducerService.published) + Published(o)
    {
      var json := objectMapper.writeInventory(inventoryData);
      if json.Failure? {
        return Failed(json.error);
      }
      var payload := TextPayload(DataPrefix + json.value);
      var thrown := kafkaProducerService.Publish(payload, fault);
      if thrown.Some? {
        return Failed(thrown.value);
      }
      return Accepted(|inventoryData.inventory.value|, payload);
    }
  }
}
