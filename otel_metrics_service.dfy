/**
 * service/OpenTelemetryMetricsService.java: OpenTelemetry counters keyed by
 * attribute sets, the two duration histograms a TimedOperation records into,
 * and the active-operations tracker. Spans, scopes and durations are not
 * modelled; a histogram is the sequence of attribute sets recorded into it.
 */
module OpenTelemetryMetricsService {
  import Text
  import MetricsService

  /** An attribute value: `AttributeKey.stringKey` or `AttributeKey.longKey`. */
  datatype AttrValue = Str(s: string) | Long(n: int)

  type Attributes = map<string, AttrValue>

  const OperationType: string := "operation.type"
  const DataType: string := "data.type"
  const OutcomeKey: string := "outcome"
  const ErrorType: string := "error.type"
  const ItemCount: string := "items.count"
  const FileSize: string := "file.size.bytes"
  const FileSizeCategory: string := "file.size.category"

  /** categorizeFileSize, the same buckets as MetricsService.categorizeSizeBytes. */
  function CategorizeFileSize(bytes: int): (c: string)
    ensures c == "small" <==> bytes < 1024
    ensures c == "medium" <==> 1024 <= bytes < 1024 * 1024
    ensures c == "large" <==> 1024 * 1024 <= bytes < 10 * 1024 * 1024
    ensures c == "xlarge" <==> 10 * 1024 * 1024 <= bytes
  {
    if bytes < 1024 then "small"
    else if bytes < 1024 * 1024 then "medium"
    else if bytes < 10 * 1024 * 1024 then "large"
    else "xlarge"
  }

  /** The two services bucket file sizes identically. */
  lemma CategoriesAgree(bytes: int)
    ensures CategorizeFileSize(bytes) == MetricsService.CategorizeSizeBytes(bytes)
  {
  }

  function SuccessAttributes(dataType: string, itemCount: int, fileSizeBytes: int): Attributes {
    map[DataType := Str(dataType), OutcomeKey := Str("success"), ItemCount := Long(itemCount),
        FileSize := Long(fileSizeBytes), FileSizeCategory := Str(CategorizeFileSize(fileSizeBytes))]
  }

  function FailureAttributes(dataType: string, errorType: string): Attributes {
    map[DataType := Str(dataType), OutcomeKey := Str("error"), ErrorType := Str(errorType)]
  }

  function KafkaAttributes(messageType: string): Attributes {
    map[OperationType := Str(Text.Lower(messageType))]
  }

  /** `counter.add(amount, attributes)`: the sum kept for that attribute set. */
  function Add(counter: map<Attributes, int>, attrs: Attributes, amount: int): (r: map<Attributes, int>)
    ensures attrs in r && r[attrs] == (if attrs in counter then counter[attrs] else 0) + amount
    ensures forall a :: a in counter && a != attrs ==> a in r && r[a] == counter[a]
    ensures r.Keys == counter.Keys + {attrs}
  {
    counter[attrs := (if attrs in counter then counter[attrs] else 0) + amount]
  }

  /** A success and a failure never land on the same upload series. */
  lemma OutcomesSeparate(dataType: string, itemCount: int, size: int, d: string, errorType: string)
    ensures SuccessAttributes(dataType, itemCount, size) != FailureAttributes(d, errorType)
  {
    assert SuccessAttributes(dataType, itemCount, size)[OutcomeKey] == Str("success");
    assert FailureAttributes(d, errorType)[OutcomeKey] == Str("error");
  }

  /** The Kafka series is keyed case-insensitively on the message type (ASCII letters). */
  lemma KafkaAttributesIgnoreCase(messageType: string)
    ensures KafkaAttributes(Text.Upper(messageType)) == KafkaAttributes(messageType)
  {
    Text.LowerOfUpper(messageType);
  }

  /** A timed operation counts as an upload iff its operation type contains "upload". */
  predicate IsUploadType(operationType: string) {
    Text.Contains(operationType, "upload")
  }

  /** The operation type the V2 controller starts its file uploads with. */
  const FileUploadOperation: string := "file_upload"

  lemma FileUploadIsUploadType()
    ensures IsUploadType(FileUploadOperation)
  {
    Text.ContainsAt(FileUploadOperation, "upload", 5);
  }

  /** How the start of an operation moves the active count: file uploads by one, processing not at all. */
  function StartDelta(startedAsFileUpload: bool): int {
    if startedAsFileUpload then 1 else 0
  }

  /** How `close()` moves the active count, decided by the operation type alone. */
  function CloseDelta(operationType: string): int {
    if IsUploadType(operationType) then -1 else 0
  }

  /**
   * Starting and closing an operation leaves the active count where it was
   * exactly when the way it was started agrees with its operation type.
   */
  lemma OperationBalanceIff(startedAsFileUpload: bool, operationType: string)
    ensures StartDelta(startedAsFileUpload) + CloseDelta(operationType) == 0
      <==> (startedAsFileUpload <==> IsUploadType(operationType))
  {
  }

  /** The file-upload operations the V2 controller opens are balanced by their close. */
  lemma FileUploadOperationBalances()
    ensures StartDelta(true) + CloseDelta(FileUploadOperation) == 0
  {
    FileUploadIsUploadType();
  }

  class OpenTelemetryMetricsService {
    var uploads: map<Attributes, int>
    var itemsProcessed: map<Attributes, int>
    var kafkaMessages: map<Attributes, int>
    /** warehouse.upload.duration and warehouse.processing.duration recordings, oldest first. */
    var uploadDurations: seq<Attributes>
    var processingDurations: seq<Attributes>
    /** The AtomicLong the gauge callback reads. */
    var activeOperations: int
    /** The sum of the warehouse.operations.active up-down counter. */
    var activeOperationsGauge: int

    constructor ()
      ensures uploads == map[] && itemsProcessed == map[] && kafkaMessages == map[]
      ensures uploadDurations == [] && processingDurations == []
      ensures activeOperations == 0 && activeOperationsGauge == 0
    {
      uploads := map[];
      itemsProcessed := map[];
      kafkaMessages := map[];
      uploadDurations := [];
      processingDurations := [];
      activeOperations := 0;
      activeOperationsGauge := 0;
    }

    method RecordSuccessfulUpload(dataType: string, itemCount: int, fileSizeBytes: int)
      modifies this`uploads, this`itemsProcessed
      ensures uploads == Add(old(uploads), SuccessAttributes(dataType, itemCount, fileSizeBytes), 1)
      ensures itemsProcessed == Add(old(itemsProcessed), map[DataType := Str(dataType)], itemCount)
    {
      uploads := Add(uploads, SuccessAttributes(dataType, itemCount, fileSizeBytes), 1);
      itemsProcessed := Add(itemsProcessed, map[DataType := Str(dataType)], itemCount);
    }

    method RecordFailedUpload(dataType: string, errorType: string)
      modifies this`uploads
      ensures uploads == Add(old(uploads), FailureAttributes(dataType, errorType), 1)
    {
      uploads := Add(uploads, FailureAttributes(dataType, errorType), 1);
    }

    method RecordKafkaMessage(messageType: string)
      modifies this`kafkaMessages
      ensures kafkaMessages == Add(old(kafkaMessages), KafkaAttributes(messageType), 1)
    {
      kafkaMessages := Add(kafkaMessages, KafkaAttributes(messageType), 1);
    }

    method StartFileUploadOperation(operationType: string, dataType: string) returns (op: TimedOperation)
      modifies this`activeOperations, this`activeOperationsGauge
      ensures fresh(op) && op.owner == this
      ensures op.operationType == operationType && op.dataType == dataType
      ensures activeOperations == old(activeOperations) + StartDelta(true)
      ensures activeOperationsGauge == old(activeOperationsGauge) + StartDelta(true)
    {
      activeOperations := activeOperations + 1;
      activeOperationsGauge := activeOperationsGauge + 1;
      op := new TimedOperation(this, operationType, dataType);
    }

    /** Opens an operation without touching the active count. */
    method StartProcessingOperation(operationType: string, dataType: string) returns (op: TimedOperation)
      ensures fresh(op) && op.owner == this
      ensures op.operationType == operationType && op.dataType == dataType
    {
      op := new TimedOperation(this, operationType, dataType);
    }
  }

  /** The inner class TimedOperation; its span, scope and start time are not modelled. */
  class TimedOperation {
    const owner: OpenTelemetryMetricsService
    const operationType: string
    const dataType: string

    constructor (owner: OpenTelemetryMetricsService, operationType: string, dataType: string)
      ensures this.owner == owner && this.operationType == operationType && this.dataType == dataType
    {
      this.owner := owner;
      this.operationType := operationType;
      this.dataType := dataType;
    }

    function SuccessRecord(itemCount: int): Attributes {
      map[OperationType := Str(operationType), DataType := Str(dataType),
          OutcomeKey := Str("success"), ItemCount := Long(itemCount)]
    }

    function ErrorRecord(): Attributes {
      map[OperationType := Str(operationType), DataType := Str(dataType), OutcomeKey := Str("error")]
    }

    /** Records into the upload histogram iff the operation type contains "upload", else into processing. */
    method Record(attrs: Attributes)
      modifies owner`uploadDurations, owner`processingDurations
      ensures IsUploadType(operationType) ==>
        owner.uploadDurations == old(owner.uploadDurations) + [attrs] &&
        owner.processingDurations == old(owner.processingDurations)
      ensures !IsUploadType(operationType) ==>
        owner.processingDurations == old(owner.processingDurations) + [attrs] &&
        owner.uploadDurations == old(owner.uploadDurations)
    {
      if Text.Contains(operationType, "upload") {
        owner.uploadDurations := owner.uploadDurations + [attrs];
      } else {
        owner.processingDurations := owner.processingDurations + [attrs];
      }
    }

    method RecordSuccess(itemCount: int)
      modifies owner`uploadDurations, owner`processingDurations
      ensures IsUploadType(operationType) ==>
        owner.uploadDurations == old(owner.uploadDurations) + [SuccessRecord(itemCount)] &&
        owner.processingDurations == old(owner.processingDurations)
      ensures !IsUploadType(operationType) ==>
        owner.processingDurations == old(owner.processingDurations) + [SuccessRecord(itemCount)] &&
        owner.uploadDurations == old(owner.uploadDurations)
    {
      Record(SuccessRecord(itemCount));
    }

    /** The error message goes to the span only, which is not modelled. */
    method RecordError(errorMessage: string)
      modifies owner`uploadDurations, owner`processingDurations
      ensures IsUploadType(operationType) ==>
        owner.uploadDurations == old(owner.uploadDurations) + [ErrorRecord()] &&
        owner.processingDurations == old(owner.processingDurations)
      ensures !IsUploadType(operationType) ==>
        owner.processingDurations == old(owner.processingDurations) + [ErrorRecord()] &&
        owner.uploadDurations == old(owner.uploadDurations)
    {
      Record(ErrorRecord());
    }

    /** The decrement sits in a `finally`, so it happens whether or not ending the span fails. */
    method Close()
      modifies owner`activeOperations, owner`activeOperationsGauge
      ensures owner.activeOperations == old(owner.activeOperations) + CloseDelta(operationType)
      ensures owner.activeOperationsGauge == old(owner.activeOperationsGauge) + CloseDelta(operationType)
    {
      if Text.Contains(operationType, "upload") {
        owner.activeOperations := owner.activeOperations - 1;
        owner.activeOperationsGauge := owner.activeOperationsGauge - 1;
      }
    }
  }
}
