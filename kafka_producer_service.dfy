/**
 * service/KafkaProducerService.java: every update becomes one record on
 * its topic; when the broker reports a failure, a dead-letter envelope of
 * the failed record goes to an error topic. The outbound traffic is the
 * log `sent`; whether a send succeeds is an input of each call, and the
 * dead-letter send the completion callback makes is recorded right after
 * the record it reports on.
 */
module KafkaProducerService {
  import opened Wrappers
  import opened Data
  import opened Exceptions

  /** A record handed to KafkaTemplate.send: (topic, key, value). */
  datatype Send = Send(topic: string, key: Option<string>, value: Payload)

  /** How the future returned by KafkaTemplate.send completes. */
  datatype Completion = Delivered | DeliveryFailed(throwable: Exn)

  /** The four configured topic names (app.kafka.topics.*). */
  datatype Topics = Topics(product: string, inventory: string, productError: string, inventoryError: string)

  /** The error topic for a failed send to `topic`. */
  function ErrorTopic(topics: Topics, topic: string): (t: string)
    ensures t == topics.productError || t == topics.inventoryError
  {
    if topic == topics.product then topics.productError else topics.inventoryError
  }

  /**
   * Failures on the product topic go to the product error topic and every
   * other failure, whatever its topic, to the inventory error topic.
   */
  lemma ErrorTopicRule(topics: Topics, topic: string)
    requires topics.productError != topics.inventoryError
    ensures ErrorTopic(topics, topic) == topics.productError <==> topic == topics.product
    ensures ErrorTopic(topics, topic) == topics.inventoryError <==> topic != topics.product
  {
  }

  /** The dead-letter envelope of a failed send. */
  function DeadLetter(key: Option<string>, message: Payload, topic: string, throwable: Exn, now: Millis): (e: KafkaCommonErrorEvent)
    ensures e.key == key && e.originalMessage == message && e.originalTopic == topic
    ensures e.errorMessage == throwable.message && e.timestamp == now
  {
    KafkaCommonErrorEvent(key, message, topic, throwable.message, now)
  }

  /** The records one sendMessage call puts on the wire, in order. */
  function Traffic(topics: Topics, topic: string, key: Option<string>, message: Payload, completion: Completion, now: Millis): (r: seq<Send>)
    ensures 1 <= |r| <= 2 && r[0] == Send(topic, key, message)
    ensures |r| == 2 <==> completion.DeliveryFailed?
    ensures completion.DeliveryFailed? ==>
      r[1] == Send(ErrorTopic(topics, topic), key, ErrorEventPayload(DeadLetter(key, message, topic, completion.throwable, now)))
  {
    [Send(topic, key, message)] +
    match completion
    case Delivered => []
    case DeliveryFailed(t) => [Send(ErrorTopic(topics, topic), key, ErrorEventPayload(DeadLetter(key, message, topic, t, now)))]
  }

  /**
   * A dead letter is sent without a completion handler, so it is never
   * itself forwarded: the second record of a call, if any, is the only
   * envelope, and it wraps the first record.
   */
  lemma DeadLetterIsNotForwarded(topics: Topics, topic: string, key: Option<string>, message: Payload, completion: Completion, now: Millis)
    ensures var r := Traffic(topics, topic, key, message, completion, now);
      (forall i :: 0 <= i < |r| && r[i].value.ErrorEventPayload? && !message.ErrorEventPayload? ==> i == 1) &&
      (|r| == 2 ==> r[1].value.event.originalMessage == r[0].value && r[1].value.event.originalTopic == r[0].topic)
  {
  }

  class KafkaProducerService {
    const topics: Topics
    /** Every record sent through KafkaTemplate, oldest first. */
    var sent: seq<Send>
    /**
     * The payloads of the publish calls that KafkaProducerService.java does
     * not define (sendProductData, sendInventoryData and a one-argument
     * sendMessage); their topic and key are unknown.
     */
    var published: seq<Payload>

    constructor (topics: Topics)
      ensures this.topics == topics && sent == [] && published == []
    {
      this.topics := topics;
      sent := [];
      published := [];
    }

    method SendProductUpdate(productId: Option<string>, productData: Payload, completion: Completion, now: Millis)
      modifies this`sent
      ensures sent == old(sent) + Traffic(topics, topics.product, productId, productData, completion, now)
    {
      SendMessage(topics.product, productId, productData, completion, now);
    }

    method SendInventoryUpdate(inventoryId: Option<string>, inventoryData: Payload, completion: Completion, now: Millis)
      modifies this`sent
      ensures sent == old(sent) + Traffic(topics, topics.inventory, inventoryId, inventoryData, completion, now)
    {
      SendMessage(topics.inventory, inventoryId, inventoryData, completion, now);
    }

    /** The private sendMessage: one send, then the completion callback. */
    method SendMessage(topic: string, key: Option<string>, message: Payload, completion: Completion, now: Millis)
      modifies this`sent
      ensures sent == old(sent) + Traffic(topics, topic, key, message, completion, now)
    {
      sent := sent + [Send(topic, key, message)];
      match completion {
        case Delivered =>
        case DeliveryFailed(throwable) =>
          var errorTopic := ErrorTopic(topics, topic);
          SendErrorMessage(errorTopic, key, message, topic, throwable, now);
      }
    }

    method SendErrorMessage(errorTopic: string, key: Option<string>, originalMessage: Payload, originalTopic: string, throwable: Exn, now: Millis)
      modifies this`sent
      ensures sent == old(sent) + [Send(errorTopic, key, ErrorEventPayload(DeadLetter(key, originalMessage, originalTopic, throwable, now)))]
    {
      var event := KafkaCommonErrorEvent(key, originalMessage, originalTopic, throwable.message, now);
      sent := sent + [Send(errorTopic, key, ErrorEventPayload(event))];
    }

    /**
     * One of the undefined publish calls: the payload is published, unless
     * the call throws `fault`, in which case nothing is.
     */
    method Publish(payload: Payload, fault: Option<Exn>) returns (thrown: Option<Exn>)
      modifies this`published
      ensures thrown == fault
      ensures published == old(published) + (if fault.None? then [payload] else [])
    {
      thrown := fault;
      if fault.None? {
        published := published + [payload];
      }
    }
  }
}
