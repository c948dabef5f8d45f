/** The input side of lib/sqs-helper/index.js: the configuration a caller
    passes to `buildHooks`, its six property bags, the defaults they are
    layered over, and the validation that rejects a configuration. */
module SqsConfig {
  import opened Js

  /** One of the three queues of a queue group. The source's `SQSTypes`
      constants and its `{ mainQueue }`/`{ delayQueue }`/`{ dlq }` flags both
      name one of these. */
  datatype QueueType = Main | Delay | Dlq

  /** A consumer property bag. A field is `None` when the key is absent and
      `Some(Undefined)` when it is present with the value `undefined`;
      `extra` holds every other key. */
  datatype ConsumerProps = ConsumerProps(
    timeout: Option<Value>,
    handler: Option<Value>,
    description: Option<Value>,
    maximumBatchingWindow: Option<Value>,
    batchSize: Option<Value>,
    prefixPath: Option<Value>,
    functionProperties: Option<Value>,
    rawProperties: Option<Value>,
    eventProperties: Option<Value>,
    useMainHandler: Option<Value>,
    extra: map<string, Value>)
  {
    /** `Object.keys(bag).length === 0` */
    predicate NoKeys()
    {
      && timeout.None? && handler.None? && description.None?
      && maximumBatchingWindow.None? && batchSize.None? && prefixPath.None?
      && functionProperties.None? && rawProperties.None? && eventProperties.None?
      && useMainHandler.None? && extra == map[]
    }

    /** `{ ...this, ...over }`: every key of `over` wins, every other key of
        `this` stays, and the result has a key when either has one. */
    function Layer(over: ConsumerProps): (r: ConsumerProps)
      ensures r.timeout == Override(timeout, over.timeout)
      ensures r.handler == Override(handler, over.handler)
      ensures r.description == Override(description, over.description)
      ensures r.maximumBatchingWindow == Override(maximumBatchingWindow, over.maximumBatchingWindow)
      ensures r.batchSize == Override(batchSize, over.batchSize)
      ensures r.prefixPath == Override(prefixPath, over.prefixPath)
      ensures r.functionProperties == Override(functionProperties, over.functionProperties)
      ensures r.rawProperties == Override(rawProperties, over.rawProperties)
      ensures r.eventProperties == Override(eventProperties, over.eventProperties)
      ensures r.useMainHandler == Override(useMainHandler, over.useMainHandler)
      ensures r.extra.Keys == extra.Keys + over.extra.Keys
      ensures forall k :: k in over.extra ==> r.extra[k] == over.extra[k]
      ensures forall k :: k in extra && k !in over.extra ==> r.extra[k] == extra[k]
      ensures r.NoKeys() <==> NoKeys() && over.NoKeys()
    {
      ConsumerProps(
        Override(timeout, over.timeout),
        Override(handler, over.handler),
        Override(description, over.description),
        Override(maximumBatchingWindow, over.maximumBatchingWindow),
        Override(batchSize, over.batchSize),
        Override(prefixPath, over.prefixPath),
        Override(functionProperties, over.functionProperties),
        Override(rawProperties, over.rawProperties),
        Override(eventProperties, over.eventProperties),
        Override(useMainHandler, over.useMainHandler),
        extra + over.extra)
    }
  }

  /** The bag with no keys. */
  const NoConsumerProps := ConsumerProps(None, None, None, None, None, None, None, None, None, None, map[])

  /** A queue property bag; `extra` is what the source collects with
      `...extraProperties` and copies into the queue's `Properties`. */
  datatype QueueProps = QueueProps(
    maxReceiveCount: Option<Value>,
    receiveMessageWaitTimeSeconds: Option<Value>,
    visibilityTimeout: Option<Value>,
    messageRetentionPeriod: Option<Value>,
    delaySeconds: Option<Value>,
    fifoQueue: Option<Value>,
    fifoThroughputLimit: Option<Value>,
    contentBasedDeduplication: Option<Value>,
    deduplicationScope: Option<Value>,
    addTags: Option<Value>,
    generateEnvVars: Option<Value>,
    extra: map<string, Value>)
  {
    /** `{ ...this, ...over }` */
    function Layer(over: QueueProps): (r: QueueProps)
      ensures r.maxReceiveCount == Override(maxReceiveCount, over.maxReceiveCount)
      ensures r.receiveMessageWaitTimeSeconds == Override(receiveMessageWaitTimeSeconds, over.receiveMessageWaitTimeSeconds)
      ensures r.visibilityTimeout == Override(visibilityTimeout, over.visibilityTimeout)
      ensures r.messageRetentionPeriod == Override(messageRetentionPeriod, over.messageRetentionPeriod)
      ensures r.delaySeconds == Override(delaySeconds, over.delaySeconds)
      ensures r.fifoQueue == Override(fifoQueue, over.fifoQueue)
      ensures r.fifoThroughputLimit == Override(fifoThroughputLimit, over.fifoThroughputLimit)
      ensures r.contentBasedDeduplication == Override(contentBasedDeduplication, over.contentBasedDeduplication)
      ensures r.deduplicationScope == Override(deduplicationScope, over.deduplicationScope)
      ensures r.addTags == Override(addTags, over.addTags)
      ensures r.generateEnvVars == Override(generateEnvVars, over.generateEnvVars)
      ensures r.extra.Keys == extra.Keys + over.extra.Keys
      ensures forall k :: k in over.extra ==> r.extra[k] == over.extra[k]
      ensures forall k :: k in extra && k !in over.extra ==> r.extra[k] == extra[k]
    {
      QueueProps(
        Override(maxReceiveCount, over.maxReceiveCount),
        Override(receiveMessageWaitTimeSeconds, over.receiveMessageWaitTimeSeconds),
        Override(visibilityTimeout, over.visibilityTimeout),
        Override(messageRetentionPeriod, over.messageRetentionPeriod),
        Override(delaySeconds, over.delaySeconds),
        Override(fifoQueue, over.fifoQueue),
        Override(fifoThroughputLimit, over.fifoThroughputLimit),
        Override(contentBasedDeduplication, over.contentBasedDeduplication),
        Override(deduplicationScope, over.deduplicationScope),
        Override(addTags, over.addTags),
        Override(generateEnvVars, over.generateEnvVars),
        extra + over.extra)
    }
  }

  const NoQueueProps := QueueProps(None, None, None, None, None, None, None, None, None, None, None, map[])

  /** What a caller put under one of the six bag keys: nothing (any falsy
      value), a truthy value that is not an object, an array, or an object. */
  datatype Slot<T> = Unset | NonObject | ArrayValue | Given(props: T)
  {
    /** `properties && (typeof properties !== 'object' || Array.isArray(properties))` */
    predicate NotAnObject()
    {
      NonObject? || ArrayValue?
    }
  }

  /** A truthy `sourceSnsTopic`; a missing key reads as `Undefined`. */
  datatype SnsSource = SnsSource(name: Value, filterPolicy: Value)

  /** The argument of `buildHooks`. A `name` that is not a string is not
      modelled; `sourceSnsTopic` is `None` when it is falsy. */
  datatype SqsConfig = SqsConfig(
    name: Option<string>,
    consumerProperties: Slot<ConsumerProps>,
    mainQueueProperties: Slot<QueueProps>,
    delayConsumerProperties: Slot<ConsumerProps>,
    delayQueueProperties: Slot<QueueProps>,
    dlqConsumerProperties: Slot<ConsumerProps>,
    dlqQueueProperties: Slot<QueueProps>,
    sourceSnsTopic: Option<SnsSource>)

  /** The names record `index.js` reads from `./helper/generate-names`: the
      fields it uses, which are not those of the generate-names function of
      this repository (that one returns `sqsName` and `dlqName`). */
  datatype QueueNames = QueueNames(
    titleName: string,
    filename: string,
    envVarName: string,
    mainQueue: string,
    delayQueue: string,
    dlq: string,
    mainQueuePolicy: string)

  /** The record `./helper/generate-arns` returns. */
  datatype QueueArns = QueueArns(mainQueue: string, delayQueue: string, dlq: string)

  /** The helper modules `index.js` requires and that are not part of this
      model: naming, ARNs, FIFO suffixing, the SNS topic ARN, `isObject`,
      the default property bags, the default tags and the `SQSTypes` labels. */
  datatype SqsEnv = SqsEnv(
    generateNames: string -> QueueNames,
    generateArns: (QueueNames, bool) -> QueueArns,
    fixFifoName: (string, bool) -> string,
    snsTopicArn: string -> string,
    isObject: Value -> bool,
    baseArn: string,
    baseUrl: string,
    consumerDefaults: ConsumerProps,
    mainQueueDefaults: QueueProps,
    delayQueueDefaults: QueueProps,
    dlqConsumerDefaults: ConsumerProps,
    dlqQueueDefaults: QueueProps,
    defaultTags: seq<Value>,
    sqsTypeName: QueueType -> string)

  /** `{ ...defaults, ...userBag }` for a bag that passed validation. */
  function ConsumerWithDefaults(defaults: ConsumerProps, slot: Slot<ConsumerProps>): (r: ConsumerProps)
    requires !slot.NotAnObject()
    ensures slot.Unset? ==> r == defaults
    ensures slot.Given? ==> r == defaults.Layer(slot.props)
  {
    if slot.Given? then defaults.Layer(slot.props) else defaults
  }

  function QueueWithDefaults(defaults: QueueProps, slot: Slot<QueueProps>): (r: QueueProps)
    requires !slot.NotAnObject()
    ensures slot.Unset? ==> r == defaults
    ensures slot.Given? ==> r == defaults.Layer(slot.props)
  {
    if slot.Given? then defaults.Layer(slot.props) else defaults
  }

  /** Why `buildHooks` throws; the message text is not modelled. */
  datatype SqsError =
    | MissingName
    | NotAnObject(bagLabel: string)
    | SnsNameNotString(received: Value)
    | FilterPolicyNotObject(received: Value)

  /** One entry of the list `validateConfigs` walks: the bag's label and
      whether it is present but not a plain object. */
  datatype BagCheck = BagCheck(bagName: string, rejected: bool)

  function Bags(cfg: SqsConfig): (r: seq<BagCheck>)
    ensures |r| == 6
  {
    [ BagCheck("Main Consumer", cfg.consumerProperties.NotAnObject()),
      BagCheck("Main Queue", cfg.mainQueueProperties.NotAnObject()),
      BagCheck("Delay Consumer", cfg.delayConsumerProperties.NotAnObject()),
      BagCheck("Delay Queue", cfg.delayQueueProperties.NotAnObject()),
      BagCheck("DLQ Consumer", cfg.dlqConsumerProperties.NotAnObject()),
      BagCheck("DLQ Queue", cfg.dlqQueueProperties.NotAnObject()) ]
  }

  /** Every one of the six bags is absent or a plain object. */
  predicate BagsAreObjects(cfg: SqsConfig)
  {
    && !cfg.consumerProperties.NotAnObject()
    && !cfg.mainQueueProperties.NotAnObject()
    && !cfg.delayConsumerProperties.NotAnObject()
    && !cfg.delayQueueProperties.NotAnObject()
    && !cfg.dlqConsumerProperties.NotAnObject()
    && !cfg.dlqQueueProperties.NotAnObject()
  }

  /** The label of the first rejected bag, the one whose error is thrown. */
  function FirstRejected(bags: seq<BagCheck>): (r: Option<string>)
    ensures r.None? <==> forall i :: 0 <= i < |bags| ==> !bags[i].rejected
    ensures r.Some? ==> exists i :: (0 <= i < |bags| && bags[i].rejected && bags[i].bagName == r.value
      && forall j :: 0 <= j < i ==> !bags[j].rejected)
    decreases |bags|
  {
    if bags == [] then None
    else if bags[0].rejected then Some(bags[0].bagName)
    else
      var r := FirstRejected(bags[1..]);
      assert forall i :: 1 <= i < |bags| ==> bags[i] == bags[1..][i - 1];
      r
  }

  /** The error `validateConfigs` throws, if any, in the order it checks:
      the name, the six bags in order, then the SNS source's name and its
      filter policy. */
  function ValidationError(isObject: Value -> bool, cfg: SqsConfig): Option<SqsError>
  {
    if cfg.name.None? || cfg.name.value == "" then Some(MissingName)
    else if FirstRejected(Bags(cfg)).Some? then Some(NotAnObject(FirstRejected(Bags(cfg)).value))
    else if cfg.sourceSnsTopic.Some? && !cfg.sourceSnsTopic.value.name.Str? then
      Some(SnsNameNotString(cfg.sourceSnsTopic.value.name))
    else if cfg.sourceSnsTopic.Some? && Truthy(cfg.sourceSnsTopic.value.filterPolicy)
      && !isObject(cfg.sourceSnsTopic.value.filterPolicy) then
      Some(FilterPolicyNotObject(cfg.sourceSnsTopic.value.filterPolicy))
    else None
  }

  /** A configuration is rejected exactly in the four documented cases. */
  lemma ValidationRejectsExactly(isObject: Value -> bool, cfg: SqsConfig)
    ensures ValidationError(isObject, cfg).Some? <==>
      || cfg.name.None? || cfg.name.value == ""
      || !BagsAreObjects(cfg)
      || (cfg.sourceSnsTopic.Some? && !cfg.sourceSnsTopic.value.name.Str?)
      || (cfg.sourceSnsTopic.Some? && Truthy(cfg.sourceSnsTopic.value.filterPolicy)
          && !isObject(cfg.sourceSnsTopic.value.filterPolicy))
    ensures ValidationError(isObject, cfg) == Some(MissingName) <==> cfg.name.None? || cfg.name.value == ""
  {
    var bags := Bags(cfg);
    if !BagsAreObjects(cfg) {
      var i := if cfg.consumerProperties.NotAnObject() then 0
        else if cfg.mainQueueProperties.NotAnObject() then 1
        else if cfg.delayConsumerProperties.NotAnObject() then 2
        else if cfg.delayQueueProperties.NotAnObject() then 3
        else if cfg.dlqConsumerProperties.NotAnObject() then 4
        else 5;
      assert bags[i].rejected;
    }
  }
}
