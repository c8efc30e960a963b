/**
 * service/MetricsService.java: Micrometer counters keyed by name and tags,
 * the `currentProcessingCount` gauge that file-upload timers move, and the
 * file-size bucketing. Counter values are integers here (Micrometer keeps
 * doubles); timer durations are not modelled, only which timer a sample is
 * stopped into.
 */
module MetricsService {
  import Text

  /** A meter's identity: its name and tag map. */
  datatype MeterId = MeterId(name: string, tags: map<string, string>)

  /** A started Timer.Sample; its start time is not modelled. */
  datatype Sample = Sample

  /** The value of a counter; one never registered reads as 0. */
  function CountOf(counters: map<MeterId, int>, id: MeterId): (n: int)
    ensures id !in counters ==> n == 0
  {
    if id in counters then counters[id] else 0
  }

  /** `Counter.builder(name).tags(...).register(registry).increment(by)`. */
  function Bump(counters: map<MeterId, int>, id: MeterId, amount: int): (r: map<MeterId, int>)
    ensures CountOf(r, id) == CountOf(counters, id) + amount
    ensures forall other :: other != id ==> CountOf(r, other) == CountOf(counters, other)
  {
    counters[id := CountOf(counters, id) + amount]
  }

  const Small: string := "small"
  const Medium: string := "medium"
  const Large: string := "large"
  const XLarge: string := "xlarge"

  /** The order of the four buckets. */
  function BucketRank(c: string): nat {
    if c == Small then 0 else if c == Medium then 1 else if c == Large then 2 else 3
  }

  /** categorizeSizeBytes: below 1 KiB, below 1 MiB, below 10 MiB, or above. */
  function CategorizeSizeBytes(bytes: int): (c: string)
    ensures c == Small <==> bytes < 1024
    ensures c == Medium <==> 1024 <= bytes < 1024 * 1024
    ensures c == Large <==> 1024 * 1024 <= bytes < 10 * 1024 * 1024
    ensures c == XLarge <==> 10 * 1024 * 1024 <= bytes
  {
    if bytes < 1024 then Small
    else if bytes < 1024 * 1024 then Medium
    else if bytes < 10 * 1024 * 1024 then Large
    else XLarge
  }

  /** Bigger files never fall into a smaller bucket. */
  lemma CategorizeMonotone(a: int, b: int)
    requires a <= b
    ensures BucketRank(CategorizeSizeBytes(a)) <= BucketRank(CategorizeSizeBytes(b))
  {
  }

  const UploadsTotal: string := "warehouse.uploads.total"
  const ItemsProcessed: string := "warehouse.items.processed"
  const KafkaMessagesSent: string := "warehouse.kafka.messages.sent"
  const KafkaPublishDuration: string := "warehouse.kafka.publish.duration"
  const UploadDuration: string := "warehouse.upload.duration"
  const ProcessingDuration: string := "warehouse.processing.duration"
  const OperationsTotal: string := "warehouse.operations.total"
  const OperationDuration: string := "warehouse.operation.duration"
  const ItemsTotal: string := "warehouse.items.total"

  function SuccessId(uploadType: string, fileSizeBytes: int): MeterId {
    MeterId(UploadsTotal, map["type" := uploadType, "outcome" := "success", "size_category" := CategorizeSizeBytes(fileSizeBytes)])
  }

  function FailureId(uploadType: string, errorType: string): MeterId {
    MeterId(UploadsTotal, map["type" := uploadType, "outcome" := "error", "error_type" := errorType])
  }

  function ItemsId(uploadType: string): MeterId {
    MeterId(ItemsProcessed, map["type" := uploadType])
  }

  function KafkaId(messageType: string): MeterId {
    MeterId(KafkaMessagesSent, map["message_type" := messageType])
  }

  /** A failed upload is counted apart from every success and from the item counts. */
  lemma FailureIdDistinct(uploadType: string, errorType: string, t: string, size: int)
    ensures FailureId(uploadType, errorType) != SuccessId(t, size)
    ensures FailureId(uploadType, errorType) != ItemsId(t)
  {
    assert FailureId(uploadType, errorType).tags["outcome"] == "error";
    assert SuccessId(t, size).tags["outcome"] == "success";
  }

  class MetricsService {
    var counters: map<MeterId, int>
    /** The AtomicInteger behind the warehouse.processing.active gauge. */
    var currentProcessingCount: int
    /** The timers samples have been stopped into, oldest first. */
    var timerRecords: seq<MeterId>

    constructor ()
      ensures counters == map[] && currentProcessingCount == 0 && timerRecords == []
    {
      counters := map[];
      currentProcessingCount := 0;
      timerRecords := [];
    }

    method RecordSuccessfulUpload(uploadType: string, itemCount: int, fileSizeBytes: int)
      modifies this`counters
      ensures counters == Bump(Bump(old(counters), SuccessId(uploadType, fileSizeBytes), 1), ItemsId(uploadType), itemCount)
    {
      counters := Bump(counters, SuccessId(uploadType, fileSizeBytes), 1);
      counters := Bump(counters, ItemsId(uploadType), itemCount);
    }

    method RecordFailedUpload(uploadType: string, errorType: string)
      modifies this`counters
      ensures counters == Bump(old(counters), FailureId(uploadType, errorType), 1)
    {
      counters := Bump(counters, FailureId(uploadType, errorType), 1);
    }

    method RecordKafkaMessage(messageType: string)
      modifies this`counters, this`timerRecords
      ensures counters == Bump(old(counters), KafkaId(messageType), 1)
      ensures timerRecords == old(timerRecords) + [MeterId(KafkaPublishDuration, map[])]
    {
      var kafkaSample := Sample;
      counters := Bump(counters, KafkaId(messageType), 1);
      timerRecords := timerRecords + [MeterId(KafkaPublishDuration, map[])];
    }

    method StartFileUploadTimer() returns (sample: Sample)
      modifies this`currentProcessingCount
      ensures currentProcessingCount == old(currentProcessingCount) + 1
    {
      currentProcessingCount := currentProcessingCount + 1;
      sample := Sample;
    }

    /** The decrement sits in a `finally`, so it happens however the stop goes. */
    method StopFileUploadTimer(sample: Sample)
      modifies this`currentProcessingCount, this`timerRecords
      ensures currentProcessingCount == old(currentProcessingCount) - 1
      ensures timerRecords == old(timerRecords) + [MeterId(UploadDuration, map[])]
    {
      timerRecords := timerRecords + [MeterId(UploadDuration, map[])];
      currentProcessingCount := currentProcessingCount - 1;
    }

    /** Starting a data-processing timer leaves the gauge alone. */
    method StartDataProcessingTimer() returns (sample: Sample)
    {
      sample := Sample;
    }

    method StopDataProcessingTimer(sample: Sample)
      modifies this`timerRecords
      ensures timerRecords == old(timerRecords) + [MeterId(ProcessingDuration, map[])]
    {
      timerRecords := timerRecords + [MeterId(ProcessingDuration, map[])];
    }

    method RecordProcessingMetrics(operation: string, operationType: string, itemCount: int, durationMs: int)
      modifies this`counters, this`timerRecords
      ensures counters == Bump(Bump(old(counters),
        MeterId(OperationsTotal, map["operation" := operation, "type" := operationType, "status" := "completed"]), 1),
        MeterId(ItemsTotal, map["operation" := operation, "type" := operationType]), itemCount)
      ensures timerRecords == old(timerRecords) + [MeterId(OperationDuration, map["operation" := operation, "type" := operationType])]
    {
      counters := Bump(counters, MeterId(OperationsTotal, map["operation" := operation, "type" := operationType, "status" := "completed"]), 1);
      timerRecords := timerRecords + [MeterId(OperationDuration, map["operation" := operation, "type" := operationType])];
      counters := Bump(counters, MeterId(ItemsTotal, map["operation" := operation, "type" := operationType]), itemCount);
    }
  }
}
