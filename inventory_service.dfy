/**
 * service/InventoryService.java: decode an uploaded inventory file, publish
 * it keyed by its hash code, and hand it back; every failure after the
 * emptiness check surfaces as a FileProcessingException wrapping the cause.
 */
module InventoryService {
  import opened Wrappers
  import opened Data
  import opened Exceptions
  import opened Json
  import ErrorMessages
  import Text
  import KafkaProducerService

  /** `String.valueOf(inventoryData.hashCode())`. */
  function PublishKey(hashCode: InventoryData -> Int32, inventoryData: InventoryData): (key: string)
    ensures key != []
  {
    Text.IntToString(hashCode(inventoryData))
  }

  /** The key is the decimal form of the hash code: parsing it back gives the hash code. */
  lemma PublishKeyParses(hashCode: InventoryData -> Int32, inventoryData: InventoryData)
    ensures Text.ParseLong(PublishKey(hashCode, inventoryData)) == Some(hashCode(inventoryData) as int)
  {
    Text.ParseLongOfIntToString(hashCode(inventoryData));
  }

  /** Records with different hash codes are published under different keys. */
  lemma PublishKeyInjective(hashCode: InventoryData -> Int32, a: InventoryData, b: InventoryData)
    requires hashCode(a) != hashCode(b)
    ensures PublishKey(hashCode, a) != PublishKey(hashCode, b)
  {
    if PublishKey(hashCode, a) == PublishKey(hashCode, b) {
      Text.IntToStringInjective(hashCode(a), hashCode(b));
    }
  }

  /** What `proceedFile` returns or throws. */
  function ProceedFileResult(mapper: ObjectMapper, file: Option<Upload>): (r: Result<InventoryData, Exn>)
    ensures r.Failure? ==> r.error.cls == FileProcessingException
  {
    if Absent(file) then Failure(FileProcessing(ErrorMessages.FileEmpty))
    else match mapper.readInventory(file.value.content)
      case Failure(e) => Failure(FileProcessingCausedBy(ErrorMessages.FailedToProcessInventoryFile, e))
      case Success(data) => Success(data)
  }

  /** The emptiness check is outside the `try`: its exception is thrown as is, with no cause. */
  lemma EmptyFileNotWrapped(mapper: ObjectMapper, file: Option<Upload>)
    requires Absent(file)
    ensures ProceedFileResult(mapper, file) == Failure(FileProcessing(ErrorMessages.FileEmpty))
    ensures ProceedFileResult(mapper, file).error.cause.None?
  {
  }

  /** A decode failure is wrapped, with the decoder's exception as the cause. */
  lemma DecodeFailureWrapped(mapper: ObjectMapper, file: Option<Upload>)
    requires !Absent(file) && mapper.readInventory(file.value.content).Failure?
    ensures ProceedFileResult(mapper, file).Failure?
    ensures ProceedFileResult(mapper, file).error.message == Some(ErrorMessages.FailedToProcessInventoryFile)
    ensures ProceedFileResult(mapper, file).error.cause == Some(mapper.readInventory(file.value.content).error)
  {
  }

  /** A successful call hands back exactly what the file decodes to. */
  lemma SuccessReturnsDecoded(mapper: ObjectMapper, file: Option<Upload>)
    ensures ProceedFileResult(mapper, file).Success? <==>
      !Absent(file) && mapper.readInventory(file.value.content).Success?
    ensures ProceedFileResult(mapper, file).Success? ==>
      ProceedFileResult(mapper, file).value == mapper.readInventory(file.value.content).value
  {
  }

  class InventoryService {
    const objectMapper: ObjectMapper
    const kafkaProducerService: KafkaProducerService.KafkaProducerService
    /** `InventoryData.hashCode()`, a function of the record here. */
    const hashCode: InventoryData -> Int32

    constructor (objectMapper: ObjectMapper, kafkaProducerService: KafkaProducerService.KafkaProducerService, hashCode: InventoryData -> Int32)
      ensures this.objectMapper == objectMapper && this.kafkaProducerService == kafkaProducerService
      ensures this.hashCode == hashCode
    {
      this.objectMapper := objectMapper;
      this.kafkaProducerService := kafkaProducerService;
      this.hashCode := hashCode;
    }

    method PublishInventoryData(inventoryData: InventoryData, completion: KafkaProducerService.Completion, now: Millis)
      modifies kafkaProducerService`sent
      ensures kafkaProducerService.sent == old(kafkaProducerService.sent) +
        KafkaProducerService.Traffic(kafkaProducerService.topics, kafkaProducerService.topics.inventory,
          Some(PublishKey(hashCode, inventoryData)), InventoryPayload(inventoryData), completion, now)
    {
      var key := Text.IntToString(hashCode(inventoryData));
      kafkaProducerService.SendInventoryUpdate(Some(key), InventoryPayload(inventoryData), completion, now);
    }

    /** `proceedFile`; the delivery outcome and clock of the send it makes are inputs. */
    method ProceedFile(file: Option<Upload>, completion: KafkaProducerService.Completion, now: Millis) returns (r: Result<InventoryData, Exn>)
      modifies kafkaProducerService`sent
      ensures r == ProceedFileResult(objectMapper, file)
      ensures r.Success? ==> (kafkaProducerService.sent == old(kafkaProducerService.sent) +
        KafkaProducerService.Traffic(kafkaProducerService.topics, kafkaProducerService.topics.inventory,
          Some(PublishKey(hashCode, r.value)), InventoryPayload(r.value), completion, now))
      ensures r.Failure? ==> kafkaProducerService.sent == old(kafkaProducerService.sent)
    {
      if file.None? || file.value.IsEmpty() {
        return Failure(FileProcessing(ErrorMessages.FileEmpty));
      }
      var decoded := objectMapper.readInventory(file.value.content);
      if decoded.Failure? {
        return Failure(FileProcessingCausedBy(ErrorMessages.FailedToProcessInventoryFile, decoded.error));
      }
      PublishInventoryData(decoded.value, completion, now);
      return Success(decoded.value);
    }
  }
}
