/** lib/sqs-helper/index.js: the queue-group builder. The source keeps its
    state in static fields of the `SQSHelper` class; here that state is the
    fields of one `SqsHelper` object. `SetConfigsWithDefaults` writes them and
    the builders read them. */
module Sqs {
  import opened Js
  import opened Hooks
  import opened SqsConfig

  const ReportBatchItemFailures := "ReportBatchItemFailures"
  const SqsUrlSuffix := "_SQS_QUEUE_URL"
  const DelayUrlSuffix := "_DELAY_QUEUE_URL"
  const DlqUrlSuffix := "_DLQ_QUEUE_URL"

  /** The keys of a consumer function definition before `functionProperties`
      is spread over it. */
  const FunctionKeys := {"functionName", "handler", "description", "timeout", "rawProperties", "events"}

  /** The FIFO-only queue properties. */
  const FifoKeys := {"FifoQueue", "FifoThroughputLimit", "DeduplicationScope", "ContentBasedDeduplication"}

  /** A tier's bag asks for its messages to go to the main consumer. */
  predicate UsesMainHandler(props: Option<ConsumerProps>)
  {
    props.Some? && Truthy(ValueOf(props.value.useMainHandler))
  }

  /** `shouldAddConsumer`: whether a tier gets a consumer function of its
      own. It never does when its messages go to the main consumer, and never
      without a bag. */
  function ShouldAddConsumer(props: Option<ConsumerProps>): (r: bool)
    ensures r ==> props.Some? && !props.value.NoKeys()
    ensures !(r && UsesMainHandler(props))
    ensures props.Some? && !props.value.NoKeys() && !UsesMainHandler(props) ==> r
  {
    props.Some? && !props.value.NoKeys() && !Truthy(ValueOf(props.value.useMainHandler))
  }

  /** `${baseUrl}${self:custom.serviceName}<queue name, FIFO-suffixed>` */
  function QueueUrl(env: SqsEnv, queueName: string, isFifo: bool): string
  {
    env.baseUrl + ServiceNameRef + env.fixFifoName(queueName, isFifo)
  }

  /** The static `getEnvVar`: the main queue's URL under the entity's
      `_SQS_QUEUE_URL` variable, without building anything. */
  function GetEnvVar(env: SqsEnv, queueName: string, isFifo: bool): (r: map<string, Value>)
    ensures |r| == 1
    ensures var names := env.generateNames(queueName);
      names.envVarName + SqsUrlSuffix in r
      && r[names.envVarName + SqsUrlSuffix] == Str(QueueUrl(env, names.mainQueue, isFifo))
  {
    var names := env.generateNames(queueName);
    map[names.envVarName + SqsUrlSuffix := Str(QueueUrl(env, names.mainQueue, isFifo))]
  }

  /** The static `sqsPermissions` getter: the IAM statement for consumers
      of every queue of the service. */
  function SqsPermissions(env: SqsEnv): (r: Hook)
    ensures r.kind == IamStatementHook
    ensures Get(r.payload, "action") == Arr([Str("sqs:SendMessage"), Str("sqs:DeleteMessage"),
      Str("sqs:ReceiveMessage"), Str("sqs:GetQueueAttributes")])
    ensures Get(r.payload, "resource") == Str(env.baseArn + ":*")
  {
    Hook(IamStatementHook, Obj(map[
      "action" := Arr([Str("sqs:SendMessage"), Str("sqs:DeleteMessage"),
        Str("sqs:ReceiveMessage"), Str("sqs:GetQueueAttributes")]),
      "resource" := Str(env.baseArn + ":*")]))
  }

  /** The `sqs` object of an event source before `eventProperties` is
      spread over it: it reports partial batch failures, and carries the
      batch size and batching window only when they are truthy. */
  function EventSourceBase(arn: string, batchSize: Value, maximumBatchingWindow: Value): (m: map<string, Value>)
    ensures m.Keys == {"arn", "functionResponseType"}
                      + (if Truthy(batchSize) then {"batchSize"} else {})
                      + (if Truthy(maximumBatchingWindow) then {"maximumBatchingWindow"} else {})
    ensures m["arn"] == Str(arn) && m["functionResponseType"] == Str(ReportBatchItemFailures)
    ensures Truthy(batchSize) ==> m["batchSize"] == batchSize
    ensures Truthy(maximumBatchingWindow) ==> m["maximumBatchingWindow"] == maximumBatchingWindow
  {
    map["arn" := Str(arn), "functionResponseType" := Str(ReportBatchItemFailures)]
    + SpreadIfTruthy("batchSize", batchSize)
    + SpreadIfTruthy("maximumBatchingWindow", maximumBatchingWindow)
  }

  /** `createEventSource`: one SQS event of a consumer function;
      `eventProperties` is spread last and wins. */
  function CreateEventSource(arn: string, batchSize: Value, maximumBatchingWindow: Value, eventProperties: Value): (r: Value)
    ensures r.Obj? && r.fields.Keys == {"sqs"} && r.fields["sqs"].Obj?
    ensures var sqs := r.fields["sqs"].fields; var over := Spread(eventProperties);
      var base := EventSourceBase(arn, batchSize, maximumBatchingWindow);
      && sqs.Keys == base.Keys + over.Keys
      && (forall k :: k in over ==> sqs[k] == over[k])
      && (forall k :: k in base && k !in over ==> sqs[k] == base[k])
  {
    Obj(map["sqs" := Obj(EventSourceBase(arn, batchSize, maximumBatchingWindow) + Spread(eventProperties))])
  }

  /** The event source a consumer bag describes for a queue. */
  function BagEventSource(arn: string, props: ConsumerProps): Value
  {
    CreateEventSource(arn, ValueOf(props.batchSize), ValueOf(props.maximumBatchingWindow), ValueOf(props.eventProperties))
  }

  /** `{ Key, Value }` of a queue tag. */
  function Tag(key: string, value: string): Value
  {
    Obj(map["Key" := Str(key), "Value" := Str(value)])
  }

  /** The object literal of a consumer function definition. */
  function FunctionDefinition(functionName: Value, handler: Value, description: Value, timeout: Value,
                              rawProperties: Value, events: Value): (m: map<string, Value>)
    ensures m.Keys == FunctionKeys
    ensures m["functionName"] == functionName && m["handler"] == handler && m["description"] == description
    ensures m["timeout"] == timeout && m["rawProperties"] == rawProperties && m["events"] == events
  {
    map[
      "functionName" := functionName,
      "handler" := handler,
      "description" := description,
      "timeout" := timeout,
      "rawProperties" := rawProperties,
      "events" := events]
  }

  /** A queue resource hook; `DependsOn` is there only when given. */
  function QueueResource(name: string, properties: map<string, Value>, dependsOn: Option<string>): (r: Hook)
    ensures r.kind == ResourceHook
    ensures Get(r.payload, "name") == Str(name)
    ensures var res := Get(r.payload, "resource");
      && Get(res, "Type") == Str("AWS::SQS::Queue")
      && Get(res, "Properties") == Obj(properties)
      && Get(res, "DependsOn") == (if dependsOn.Some? then Arr([Str(dependsOn.value)]) else Undefined)
  {
    Hook(ResourceHook, Obj(map[
      "name" := Str(name),
      "resource" := Obj(
        map["Type" := Str("AWS::SQS::Queue"), "Properties" := Obj(properties)]
        + (if dependsOn.Some? then map["DependsOn" := Arr([Str(dependsOn.value)])] else map[]))]))
  }

  /** `[own, ...delay, ...dlq]`: a consumer's own event source, then the
      optional extra ones. */
  function EventList(own: Value, delay: Option<Value>, dlq: Option<Value>): (r: seq<Value>)
    ensures |r| == 1 + (if delay.Some? then 1 else 0) + (if dlq.Some? then 1 else 0)
    ensures r[0] == own
    ensures delay.Some? ==> r[1] == delay.value
    ensures dlq.Some? ==> r[|r| - 1] == dlq.value
  {
    [own] + (if delay.Some? then [delay.value] else []) + (if dlq.Some? then [dlq.value] else [])
  }

  /** A consumer's `rawProperties`: it depends on its queue unless the
      bag's own `rawProperties` say otherwise, and keeps every key of them. */
  function RawProperties(queueName: string, rawProperties: Value): (r: Value)
    ensures r.Obj?
    ensures var raw := Spread(rawProperties);
      && r.fields.Keys == {"dependsOn"} + raw.Keys
      && (forall k :: k in raw ==> r.fields[k] == raw[k])
      && ("dependsOn" !in raw ==> r.fields["dependsOn"] == Arr([Str(queueName)]))
  {
    Obj(map["dependsOn" := Arr([Str(queueName)])] + Spread(rawProperties))
  }

  /** The queue policy resource letting topic `topicArn` send to the queue
      `queueArn`. */
  function SnsPublishPolicy(name: string, queueUrl: string, queueArn: string, topicArn: string, dependsOn: string): (r: Hook)
    ensures r.kind == ResourceHook
    ensures var res := Get(r.payload, "resource");
      var statement := Get(Get(res, "Properties"), "PolicyDocument");
      && Get(r.payload, "name") == Str(name)
      && Get(res, "Type") == Str("AWS::SQS::QueuePolicy")
      && Get(res, "DependsOn") == Arr([Str(dependsOn)])
      && Get(Get(res, "Properties"), "Queues") == Arr([Str(queueUrl)])
      && Get(statement, "Statement") == Arr([Obj(map[
           "Effect" := Str("Allow"),
           "Action" := Str("sqs:SendMessage"),
           "Resource" := Str(queueArn),
           "Principal" := Obj(map["Service" := Str("sns.amazonaws.com")]),
           "Condition" := Obj(map["ArnEquals" := Obj(map["aws:SourceArn" := Str(topicArn)])])])])
  {
    Hook(ResourceHook, Obj(map[
      "name" := Str(name),
      "resource" := Obj(map[
        "Type" := Str("AWS::SQS::QueuePolicy"),
        "Properties" := Obj(map[
          "Queues" := Arr([Str(queueUrl)]),
          "PolicyDocument" := Obj(map[
            "Version" := Str("2012-10-17"),
            "Statement" := Arr([Obj(map[
              "Effect" := Str("Allow"),
              "Action" := Str("sqs:SendMessage"),
              "Resource" := Str(queueArn),
              "Principal" := Obj(map["Service" := Str("sns.amazonaws.com")]),
              "Condition" := Obj(map["ArnEquals" := Obj(map["aws:SourceArn" := Str(topicArn)])])])])])]),
        "DependsOn" := Arr([Str(dependsOn)])])]))
  }

  /** The subscription resource delivering raw messages of topic `topicArn`
      to the queue `endpoint`, with a filter policy only when one is truthy. */
  function SnsSubscription(name: string, endpoint: string, topicArn: string, filterPolicy: Value, dependsOn: string): (r: Hook)
    ensures r.kind == ResourceHook
    ensures var res := Get(r.payload, "resource");
      var props := Get(res, "Properties");
      && Get(r.payload, "name") == Str(name)
      && Get(res, "Type") == Str("AWS::SNS::Subscription")
      && Get(res, "DependsOn") == Arr([Str(dependsOn)])
      && Get(props, "Protocol") == Str("sqs")
      && Get(props, "Endpoint") == Str(endpoint)
      && Get(props, "RawMessageDelivery") == Bool(true)
      && Get(props, "TopicArn") == Str(topicArn)
      && props.Obj? && ("FilterPolicy" in props.fields <==> Truthy(filterPolicy))
      && Get(props, "FilterPolicy") == (if Truthy(filterPolicy) then filterPolicy else Undefined)
  {
    Hook(ResourceHook, Obj(map[
      "name" := Str(name),
      "resource" := Obj(map[
        "Type" := Str("AWS::SNS::Subscription"),
        "Properties" := Obj(
          map[
            "Protocol" := Str("sqs"),
            "Endpoint" := Str(endpoint),
            "RawMessageDelivery" := Bool(true),
            "TopicArn" := Str(topicArn)]
          + (if Truthy(filterPolicy) then map["FilterPolicy" := filterPolicy] else map[])),
        "DependsOn" := Arr([Str(dependsOn)])])]))
  }

  /** The FIFO-only properties, all absent unless the group is FIFO. */
  function FifoEntries(q: QueueProps, fifo: bool): (m: map<string, Value>)
    ensures forall k :: k in m ==> k in FifoKeys
    ensures !fifo ==> m == map[]
    ensures fifo ==> "FifoQueue" in m && m["FifoQueue"] == Bool(true)
    ensures "FifoThroughputLimit" in m <==> fifo && Truthy(ValueOf(q.fifoThroughputLimit))
    ensures "DeduplicationScope" in m <==> fifo && Truthy(ValueOf(q.deduplicationScope))
    ensures fifo && Truthy(ValueOf(q.fifoThroughputLimit)) ==> m["FifoThroughputLimit"] == ValueOf(q.fifoThroughputLimit)
    ensures fifo && Truthy(ValueOf(q.deduplicationScope)) ==> m["DeduplicationScope"] == ValueOf(q.deduplicationScope)
    ensures "ContentBasedDeduplication" in m <==> fifo && Truthy(ValueOf(q.contentBasedDeduplication))
    ensures "ContentBasedDeduplication" in m ==> m["ContentBasedDeduplication"] == Bool(true)
  {
    if !fifo then map[]
    else
      map["FifoQueue" := Bool(true)]
      + SpreadIfTruthy("FifoThroughputLimit", ValueOf(q.fifoThroughputLimit))
      + SpreadIfTruthy("DeduplicationScope", ValueOf(q.deduplicationScope))
      + (if Truthy(ValueOf(q.contentBasedDeduplication)) then map["ContentBasedDeduplication" := Bool(true)] else map[])
  }

  /** The keys a queue's `Properties` hold apart from the FIFO-only ones,
      the tags and the bag's other keys. */
  const ScalarKeys := {"QueueName", "ReceiveMessageWaitTimeSeconds", "VisibilityTimeout",
    "RedrivePolicy", "MessageRetentionPeriod", "DelaySeconds"}

  /** The entries every queue's `Properties` start with: its name, its
      polling wait and its visibility timeout. */
  function BaseProperties(queueName: string, q: QueueProps): (m: map<string, Value>)
    ensures m.Keys == {"QueueName", "ReceiveMessageWaitTimeSeconds", "VisibilityTimeout"}
    ensures m["QueueName"] == Str(queueName)
    ensures m["ReceiveMessageWaitTimeSeconds"] == ValueOf(q.receiveMessageWaitTimeSeconds)
    ensures m["VisibilityTimeout"] == ValueOf(q.visibilityTimeout)
  {
    map[
      "QueueName" := Str(queueName),
      "ReceiveMessageWaitTimeSeconds" := ValueOf(q.receiveMessageWaitTimeSeconds),
      "VisibilityTimeout" := ValueOf(q.visibilityTimeout)]
  }

  /** The name, polling, visibility, redrive, retention and delay entries
      of a queue's `Properties`. */
  function ScalarProperties(queueName: string, q: QueueProps, redrive: Option<Value>): (m: map<string, Value>)
    ensures forall k :: k in m ==> k in ScalarKeys
    ensures "QueueName" in m && m["QueueName"] == Str(queueName)
    ensures "ReceiveMessageWaitTimeSeconds" in m && m["ReceiveMessageWaitTimeSeconds"] == ValueOf(q.receiveMessageWaitTimeSeconds)
    ensures "VisibilityTimeout" in m && m["VisibilityTimeout"] == ValueOf(q.visibilityTimeout)
    ensures "RedrivePolicy" in m <==> redrive.Some?
    ensures redrive.Some? ==> m["RedrivePolicy"] == redrive.value
    ensures "MessageRetentionPeriod" in m <==> Truthy(ValueOf(q.messageRetentionPeriod))
    ensures Truthy(ValueOf(q.messageRetentionPeriod)) ==> m["MessageRetentionPeriod"] == ValueOf(q.messageRetentionPeriod)
    ensures "DelaySeconds" in m <==> Truthy(ValueOf(q.delaySeconds))
    ensures Truthy(ValueOf(q.delaySeconds)) ==> m["DelaySeconds"] == ValueOf(q.delaySeconds)
  {
    BaseProperties(queueName, q) + OptionalProperties(q, redrive)
  }

  /** The redrive, retention and delay entries, each there only when it has
      a value: the redrive policy when given, the other two when truthy. */
  function OptionalProperties(q: QueueProps, redrive: Option<Value>): (m: map<string, Value>)
    ensures forall k :: k in m ==> k in {"RedrivePolicy", "MessageRetentionPeriod", "DelaySeconds"}
    ensures "RedrivePolicy" in m <==> redrive.Some?
    ensures redrive.Some? ==> m["RedrivePolicy"] == redrive.value
    ensures "MessageRetentionPeriod" in m <==> Truthy(ValueOf(q.messageRetentionPeriod))
    ensures Truthy(ValueOf(q.messageRetentionPeriod)) ==> m["MessageRetentionPeriod"] == ValueOf(q.messageRetentionPeriod)
    ensures "DelaySeconds" in m <==> Truthy(ValueOf(q.delaySeconds))
    ensures Truthy(ValueOf(q.delaySeconds)) ==> m["DelaySeconds"] == ValueOf(q.delaySeconds)
  {
    OptionalEntry("RedrivePolicy", redrive)
    + SpreadIfTruthy("MessageRetentionPeriod", ValueOf(q.messageRetentionPeriod))
    + SpreadIfTruthy("DelaySeconds", ValueOf(q.delaySeconds))
  }

  /** The `Properties` object of a queue resource. The bag's other keys are
      spread last and win over every key; short of that, the redrive policy
      is there exactly when given, the FIFO-only keys only in a FIFO group,
      and the tags are the ones given. */
  function PropertiesOf(queueName: string, q: QueueProps, redrive: Option<Value>, fifo: bool, tags: seq<Value>): (p: map<string, Value>)
    ensures forall k :: k in q.extra ==> k in p && p[k] == q.extra[k]
    ensures "QueueName" !in q.extra ==> "QueueName" in p && p["QueueName"] == Str(queueName)
    ensures "RedrivePolicy" !in q.extra ==>
      && ("RedrivePolicy" in p <==> redrive.Some?)
      && (redrive.Some? ==> p["RedrivePolicy"] == redrive.value)
    ensures (forall k :: k in FifoKeys ==> k !in q.extra) ==>
      && (!fifo ==> forall k :: k in FifoKeys ==> k !in p)
      && (fifo ==> "FifoQueue" in p && p["FifoQueue"] == Bool(true))
      && (fifo ==> ("ContentBasedDeduplication" in p <==> Truthy(ValueOf(q.contentBasedDeduplication))))
    ensures "Tags" !in q.extra ==> "Tags" in p && p["Tags"] == Arr(tags)
  {
    OwnProperties(queueName, q, redrive, fifo, tags) + q.extra
  }

  /** The entries of a queue's `Properties` before the bag's other keys are
      spread over them: the scalar entries, the FIFO-only ones and the tags. */
  function OwnProperties(queueName: string, q: QueueProps, redrive: Option<Value>, fifo: bool, tags: seq<Value>): (m: map<string, Value>)
    ensures "QueueName" in m && m["QueueName"] == Str(queueName)
    ensures "RedrivePolicy" in m <==> redrive.Some?
    ensures redrive.Some? ==> m["RedrivePolicy"] == redrive.value
    ensures !fifo ==> forall k :: k in FifoKeys ==> k !in m
    ensures fifo ==> "FifoQueue" in m && m["FifoQueue"] == Bool(true)
    ensures fifo ==> ("ContentBasedDeduplication" in m <==> Truthy(ValueOf(q.contentBasedDeduplication)))
    ensures "Tags" in m && m["Tags"] == Arr(tags)
  {
    PropertyKeysDistinct();
    ScalarProperties(queueName, q, redrive) + FifoAndTags(q, fifo, tags)
  }

  /** The FIFO-only entries followed by the tags. */
  function FifoAndTags(q: QueueProps, fifo: bool, tags: seq<Value>): (m: map<string, Value>)
    ensures forall k :: k in m ==> k in FifoKeys || k == "Tags"
    ensures !fifo ==> forall k :: k in FifoKeys ==> k !in m
    ensures fifo ==> "FifoQueue" in m && m["FifoQueue"] == Bool(true)
    ensures fifo ==> ("ContentBasedDeduplication" in m <==> Truthy(ValueOf(q.contentBasedDeduplication)))
    ensures "Tags" in m && m["Tags"] == Arr(tags)
  {
    PropertyKeysDistinct();
    FifoEntries(q, fifo) + map["Tags" := Arr(tags)]
  }

  /** The keys of a queue's `Properties`: the scalar entries, the FIFO-only
      entries, the tags and the bag's other keys, and nothing else. */
  lemma PropertiesOfKeys(queueName: string, q: QueueProps, redrive: Option<Value>, fifo: bool, tags: seq<Value>)
    ensures forall k :: k in PropertiesOf(queueName, q, redrive, fifo, tags) <==>
      k in ScalarProperties(queueName, q, redrive) || k in FifoEntries(q, fifo) || k == "Tags" || k in q.extra
  {
  }

  /** Every scalar and FIFO-only entry of a queue's `Properties` keeps its
      value unless one of the bag's other keys replaces it. */
  lemma PropertiesOfValues(queueName: string, q: QueueProps, redrive: Option<Value>, fifo: bool, tags: seq<Value>)
    ensures var p := PropertiesOf(queueName, q, redrive, fifo, tags);
      var scalar := ScalarProperties(queueName, q, redrive); var fifoEntries := FifoEntries(q, fifo);
      && (forall k :: k in scalar && k !in q.extra ==> p[k] == scalar[k])
      && (forall k :: k in fifoEntries && k !in q.extra ==> p[k] == fifoEntries[k])
  {
    PropertyKeysDistinct();
  }

  /** No FIFO-only key is a scalar key or "Tags", and no scalar key is "Tags". */
  lemma PropertyKeysDistinct()
    ensures forall k :: k in FifoKeys ==> k !in ScalarKeys && k != "Tags"
    ensures "Tags" !in ScalarKeys
  {
  }

  class SqsHelper {
    /** The required helper modules. */
    const env: SqsEnv

    /** `_setGlobalEnvVars`, which persists across calls. */
    var globalEnvVarsSetting: Value

    var consumerProperties: ConsumerProps
    var mainQueueProperties: QueueProps
    var delayConsumerProperties: ConsumerProps
    var delayQueueProperties: QueueProps
    var dlqConsumerProperties: Option<ConsumerProps>
    var dlqQueueProperties: QueueProps
    var fifoQueue: bool
    var useDelayQueue: bool
    var sourceSnsTopic: Option<SnsSource>
    var names: QueueNames
    var arns: QueueArns

    constructor (env: SqsEnv)
      ensures this.env == env && globalEnvVarsSetting == Undefined
    {
      this.env := env;
      globalEnvVarsSetting := Undefined;
      consumerProperties := NoConsumerProps;
      mainQueueProperties := NoQueueProps;
      delayConsumerProperties := NoConsumerProps;
      delayQueueProperties := NoQueueProps;
      dlqConsumerProperties := None;
      dlqQueueProperties := NoQueueProps;
      fifoQueue := false;
      useDelayQueue := false;
      sourceSnsTopic := None;
      names := QueueNames("", "", "", "", "", "", "");
      arns := QueueArns("", "", "");
    }

    /** The `setGlobalEnvVars` getter: `_setGlobalEnvVars ?? true`. */
    function SetGlobalEnvVars(): (r: Value)
      reads this
      ensures globalEnvVarsSetting.Undefined? || globalEnvVarsSetting.Null? ==> r == Bool(true)
      ensures !globalEnvVarsSetting.Undefined? && !globalEnvVarsSetting.Null? ==> r == globalEnvVarsSetting
    {
      if globalEnvVarsSetting.Undefined? || globalEnvVarsSetting.Null? then Bool(true) else globalEnvVarsSetting
    }

    /** `shouldSetGlobalEnvVars`, through the `setGlobalEnvVars` setter. */
    method ShouldSetGlobalEnvVars(setting: Value)
      modifies this`globalEnvVarsSetting
      ensures globalEnvVarsSetting == setting
    {
      globalEnvVarsSetting := setting;
    }

    /** The state `setConfigsWithDefaults` leaves for configuration `cfg`. */
    ghost predicate ConfiguredFrom(cfg: SqsConfig)
      reads this
    {
      && cfg.name.Some?
      && BagsAreObjects(cfg)
      && BagsFrom(cfg)
      && FlagsFrom(cfg)
    }

    /** Each of the six bags is the caller's bag layered over its defaults;
        the DLQ consumer bag stays absent unless the caller gave one. */
    ghost predicate BagsFrom(cfg: SqsConfig)
      requires BagsAreObjects(cfg)
      reads this`consumerProperties, this`mainQueueProperties, this`delayConsumerProperties,
        this`delayQueueProperties, this`dlqConsumerProperties, this`dlqQueueProperties
    {
      && consumerProperties == ConsumerWithDefaults(env.consumerDefaults, cfg.consumerProperties)
      && mainQueueProperties == QueueWithDefaults(env.mainQueueDefaults, cfg.mainQueueProperties)
      && delayConsumerProperties == ConsumerWithDefaults(env.consumerDefaults, cfg.delayConsumerProperties)
      && delayQueueProperties == QueueWithDefaults(env.delayQueueDefaults, cfg.delayQueueProperties)
      && dlqConsumerProperties == (if cfg.dlqConsumerProperties.Given?
                                   then Some(env.dlqConsumerDefaults.Layer(cfg.dlqConsumerProperties.props))
                                   else None)
      && dlqQueueProperties == QueueWithDefaults(env.dlqQueueDefaults, cfg.dlqQueueProperties)
    }

    /** The FIFO and delay flags come from the caller's own bags, not from
        the defaults; the names and ARNs from the entity name. */
    ghost predicate FlagsFrom(cfg: SqsConfig)
      requires cfg.name.Some?
      reads this`fifoQueue, this`useDelayQueue, this`sourceSnsTopic, this`names, this`arns
    {
      && fifoQueue == (cfg.mainQueueProperties.Given? && Truthy(ValueOf(cfg.mainQueueProperties.props.fifoQueue)))
      && useDelayQueue == cfg.delayQueueProperties.Given?
      && sourceSnsTopic == cfg.sourceSnsTopic
      && names == env.generateNames(cfg.name.value)
      && arns == env.generateArns(names, fifoQueue)
    }

    /** `validateConfigs`: the name, then each of the six bags in order, then
        the SNS source. */
    method ValidateConfigs(cfg: SqsConfig) returns (err: Option<SqsError>)
      ensures err == ValidationError(env.isObject, cfg)
    {
      if cfg.name.None? || cfg.name.value == "" {
        return Some(MissingName);
      }
      var bags := Bags(cfg);
      var i := 0;
      while i < |bags|
        invariant 0 <= i <= |bags|
        invariant forall j :: 0 <= j < i ==> !bags[j].rejected
      {
        if bags[i].rejected {
          return Some(NotAnObject(bags[i].bagName));
        }
        i := i + 1;
      }
      if cfg.sourceSnsTopic.Some? {
        var topic := cfg.sourceSnsTopic.value;
        if !topic.name.Str? {
          return Some(SnsNameNotString(topic.name));
        }
        if Truthy(topic.filterPolicy) && !env.isObject(topic.filterPolicy) {
          return Some(FilterPolicyNotObject(topic.filterPolicy));
        }
      }
      return None;
    }

    /** `setConfigsWithDefaults`: layers each bag over its defaults (the DLQ
        consumer bag stays null unless given), and derives the FIFO and delay
        flags from the caller's own bags. */
    method SetConfigsWithDefaults(cfg: SqsConfig)
      requires cfg.name.Some? && BagsAreObjects(cfg)
      modifies this
      ensures ConfiguredFrom(cfg)
      ensures globalEnvVarsSetting == old(globalEnvVarsSetting)
    {
      SetBags(cfg);
      SetFlags(cfg);
    }

    method SetBags(cfg: SqsConfig)
      requires BagsAreObjects(cfg)
      modifies this`consumerProperties, this`mainQueueProperties, this`delayConsumerProperties,
        this`delayQueueProperties, this`dlqConsumerProperties, this`dlqQueueProperties
      ensures BagsFrom(cfg)
    {
      consumerProperties := ConsumerWithDefaults(env.consumerDefaults, cfg.consumerProperties);
      mainQueueProperties := QueueWithDefaults(env.mainQueueDefaults, cfg.mainQueueProperties);
      delayConsumerProperties := ConsumerWithDefaults(env.consumerDefaults, cfg.delayConsumerProperties);
      delayQueueProperties := QueueWithDefaults(env.delayQueueDefaults, cfg.delayQueueProperties);
      dlqConsumerProperties := if cfg.dlqConsumerProperties.Given?
        then Some(env.dlqConsumerDefaults.Layer(cfg.dlqConsumerProperties.props))
        else None;
      dlqQueueProperties := QueueWithDefaults(env.dlqQueueDefaults, cfg.dlqQueueProperties);
    }

    method SetFlags(cfg: SqsConfig)
      requires cfg.name.Some?
      modifies this`fifoQueue, this`useDelayQueue, this`sourceSnsTopic, this`names, this`arns
      ensures FlagsFrom(cfg)
    {
      fifoQueue := cfg.mainQueueProperties.Given? && Truthy(ValueOf(cfg.mainQueueProperties.props.fifoQueue));
      useDelayQueue := cfg.delayQueueProperties.Given?;
      sourceSnsTopic := cfg.sourceSnsTopic;
      names := env.generateNames(cfg.name.value);
      arns := env.generateArns(names, fifoQueue);
    }

    function QueueName(t: QueueType): string
      reads this
    {
      match t
      case Main => names.mainQueue
      case Delay => names.delayQueue
      case Dlq => names.dlq
    }

    function QueueArn(t: QueueType): string
      reads this
    {
      match t
      case Main => arns.mainQueue
      case Delay => arns.delayQueue
      case Dlq => arns.dlq
    }

    /** The queue bag of a tier, as `setConfigsWithDefaults` left it. */
    function QueueBag(t: QueueType): QueueProps
      reads this
    {
      match t
      case Main => mainQueueProperties
      case Delay => delayQueueProperties
      case Dlq => dlqQueueProperties
    }

    /** The consumer bag of a tier, as `setConfigsWithDefaults` left it. */
    function ConsumerBag(t: QueueType): Option<ConsumerProps>
      reads this
    {
      match t
      case Main => Some(consumerProperties)
      case Delay => Some(delayConsumerProperties)
      case Dlq => dlqConsumerProperties
    }

    /** The map `getSQSUrlEnvVars` fills: one URL per tier whose queue bag
        sets `generateEnvVars`. */
    function UrlVars(): (m: map<string, Value>)
      reads this
      ensures m.Keys <= {names.envVarName + SqsUrlSuffix, names.envVarName + DelayUrlSuffix, names.envVarName + DlqUrlSuffix}
      ensures names.envVarName + SqsUrlSuffix in m <==> Truthy(ValueOf(mainQueueProperties.generateEnvVars))
      ensures names.envVarName + DelayUrlSuffix in m <==> Truthy(ValueOf(delayQueueProperties.generateEnvVars))
      ensures names.envVarName + DlqUrlSuffix in m <==> Truthy(ValueOf(dlqQueueProperties.generateEnvVars))
      ensures names.envVarName + SqsUrlSuffix in m ==>
        m[names.envVarName + SqsUrlSuffix] == Str(QueueUrl(env, names.mainQueue, fifoQueue))
      ensures names.envVarName + DelayUrlSuffix in m ==>
        m[names.envVarName + DelayUrlSuffix] == Str(QueueUrl(env, names.delayQueue, fifoQueue))
      ensures names.envVarName + DlqUrlSuffix in m ==>
        m[names.envVarName + DlqUrlSuffix] == Str(QueueUrl(env, names.dlq, fifoQueue))
    {
      var p := names.envVarName;
      SuffixesDiffer(p, SqsUrlSuffix, DelayUrlSuffix);
      SuffixesDiffer(p, SqsUrlSuffix, DlqUrlSuffix);
      SuffixesDiffer(p, DelayUrlSuffix, DlqUrlSuffix);
      var m0: map<string, Value> := map[];
      var m1 := if Truthy(ValueOf(mainQueueProperties.generateEnvVars))
        then m0[p + SqsUrlSuffix := Str(QueueUrl(env, names.mainQueue, fifoQueue))] else m0;
      var m2 := if Truthy(ValueOf(delayQueueProperties.generateEnvVars))
        then m1[p + DelayUrlSuffix := Str(QueueUrl(env, names.delayQueue, fifoQueue))] else m1;
      if Truthy(ValueOf(dlqQueueProperties.generateEnvVars))
      then m2[p + DlqUrlSuffix := Str(QueueUrl(env, names.dlq, fifoQueue))] else m2
    }

    /** What `getSQSUrlEnvVars` returns: at most one `envVars` hook, none when
        global variables are off or no tier asks for one. */
    function SqsUrlEnvVars(): (r: seq<Hook>)
      reads this
      ensures |r| <= 1
      ensures |r| == 1 <==>
        && Truthy(SetGlobalEnvVars())
        && (|| Truthy(ValueOf(mainQueueProperties.generateEnvVars))
            || Truthy(ValueOf(delayQueueProperties.generateEnvVars))
            || Truthy(ValueOf(dlqQueueProperties.generateEnvVars)))
      ensures |r| == 1 ==> r[0] == Hook(EnvVarsHook, Obj(UrlVars()))
    {
      if !Truthy(SetGlobalEnvVars()) then []
      else
        var vars := UrlVars();
        assert Truthy(ValueOf(mainQueueProperties.generateEnvVars)) ==> names.envVarName + SqsUrlSuffix in vars;
        if |vars| == 0 then [] else [Hook(EnvVarsHook, Obj(vars))]
    }

    /** `getSQSUrlEnvVars`, filling the map one tier at a time. */
    method GetSqsUrlEnvVars() returns (hooks: seq<Hook>)
      ensures hooks == SqsUrlEnvVars()
    {
      if !Truthy(SetGlobalEnvVars()) {
        return [];
      }
      var globalEnvVars: map<string, Value> := map[];
      if Truthy(ValueOf(mainQueueProperties.generateEnvVars)) {
        globalEnvVars := globalEnvVars[names.envVarName + SqsUrlSuffix := Str(QueueUrl(env, names.mainQueue, fifoQueue))];
      }
      if Truthy(ValueOf(delayQueueProperties.generateEnvVars)) {
        globalEnvVars := globalEnvVars[names.envVarName + DelayUrlSuffix := Str(QueueUrl(env, names.delayQueue, fifoQueue))];
      }
      if Truthy(ValueOf(dlqQueueProperties.generateEnvVars)) {
        globalEnvVars := globalEnvVars[names.envVarName + DlqUrlSuffix := Str(QueueUrl(env, names.dlq, fifoQueue))];
      }
      assert globalEnvVars == UrlVars();
      if |globalEnvVars| == 0 {
        return [];
      }
      return [Hook(EnvVarsHook, Obj(globalEnvVars))];
    }

    /** The events of a tier's consumer function: its own queue first; the
        main consumer also takes the delay and DLQ queues whose bags set
        `useMainHandler`. */
    function ConsumerEvents(c: ConsumerProps, t: QueueType): (r: seq<Value>)
      reads this
      ensures |r| >= 1 && r[0] == BagEventSource(QueueArn(t), c)
      ensures t != Main ==> |r| == 1
      ensures t == Main ==> |r| == 1 + (if UsesMainHandler(Some(delayConsumerProperties)) then 1 else 0)
                                     + (if UsesMainHandler(dlqConsumerProperties) then 1 else 0)
      ensures t == Main && UsesMainHandler(Some(delayConsumerProperties)) ==>
        r[1] == BagEventSource(arns.delayQueue, delayConsumerProperties)
      ensures t == Main && UsesMainHandler(dlqConsumerProperties) ==>
        r[|r| - 1] == BagEventSource(arns.dlq, dlqConsumerProperties.value)
    {
      EventList(BagEventSource(QueueArn(t), c),
        if t == Main && UsesMainHandler(Some(delayConsumerProperties))
        then Some(BagEventSource(arns.delayQueue, delayConsumerProperties)) else None,
        if t == Main && UsesMainHandler(dlqConsumerProperties)
        then Some(BagEventSource(arns.dlq, dlqConsumerProperties.value)) else None)
    }

    /** The function name of a tier's consumer, before "QueueConsumer". */
    function ConsumerName(t: QueueType): string
      reads this
    {
      match t
      case Main => names.titleName
      case Delay => names.titleName + "Delay"
      case Dlq => names.titleName + "DLQ"
    }

    /** The handler file of a tier's consumer, under `prefixPath` when that
        is truthy. */
    function ConsumerFile(t: QueueType, prefixPath: Value): string
      reads this
    {
      var filename := match t
        case Main => names.filename
        case Delay => names.filename + "-delay"
        case Dlq => names.filename + "-dlq";
      if Truthy(prefixPath) then Display(prefixPath) + "/" + filename else filename
    }

    /** The consumer function definition of a tier before its
        `functionProperties` are spread over it: the handler defaults to the
        tier's consumer file and the description to the tier's name; the
        function depends on the tier's queue and listens to its events. */
    function ConsumerDefinition(c: ConsumerProps, t: QueueType): (m: map<string, Value>)
      reads this
      ensures m.Keys == FunctionKeys
      ensures m["functionName"] == Str(ConsumerName(t) + "QueueConsumer")
      ensures m["handler"] == Or(ValueOf(c.handler), Str("src/sqs-consumer/" + ConsumerFile(t, ValueOf(c.prefixPath)) + "-consumer.handler"))
      ensures m["description"] == Or(ValueOf(c.description), Str(ConsumerName(t) + " SQS Queue Consumer"))
      ensures m["timeout"] == ValueOf(c.timeout)
      ensures m["events"] == Arr(ConsumerEvents(c, t))
      ensures m["rawProperties"] == RawProperties(QueueName(t), ValueOf(c.rawProperties))
    {
      FunctionDefinition(
        Str(ConsumerName(t) + "QueueConsumer"),
        Or(ValueOf(c.handler), Str("src/sqs-consumer/" + ConsumerFile(t, ValueOf(c.prefixPath)) + "-consumer.handler")),
        Or(ValueOf(c.description), Str(ConsumerName(t) + " SQS Queue Consumer")),
        ValueOf(c.timeout),
        RawProperties(QueueName(t), ValueOf(c.rawProperties)),
        Arr(ConsumerEvents(c, t)))
    }

    /** `buildConsumerFunction`: the function hook consuming a tier's queue.
        `functionProperties` is spread last and wins over every key. */
    function BuildConsumerFunction(c: ConsumerProps, t: QueueType): (r: Hook)
      reads this
      ensures r.kind == FunctionHook && r.payload.Obj?
      ensures var f := r.payload.fields; var over := Spread(ValueOf(c.functionProperties));
        && f.Keys == FunctionKeys + over.Keys
        && (forall k :: k in over ==> f[k] == over[k])
        && (forall k :: k in FunctionKeys && k !in over ==> f[k] == ConsumerDefinition(c, t)[k])
    {
      Hook(FunctionHook, Obj(ConsumerDefinition(c, t) + Spread(ValueOf(c.functionProperties))))
    }

    /** The queue a tier's messages go to after `maxReceiveCount` failures:
        main to delay (when a delay tier is used) or to the DLQ, delay to the
        DLQ, and nothing after the DLQ. */
    function DeadLetterTargetArn(t: QueueType): Option<string>
      reads this
    {
      match t
      case Main => Some(if useDelayQueue then arns.delayQueue else arns.dlq)
      case Delay => Some(arns.dlq)
      case Dlq => None
    }

    /** The queue resource a tier's queue resource depends on: the one it
        sends dead letters to. */
    function DependsOnQueue(t: QueueType): Option<string>
      reads this
    {
      match t
      case Main => Some(if useDelayQueue then names.delayQueue else names.dlq)
      case Delay => Some(names.dlq)
      case Dlq => None
    }

    /** `queueHasConsumer`: the main queue always has one; a delay or DLQ
        queue has one when its consumer bag exists and has a key, that is,
        when it gets its own consumer or routes to the main one. */
    function QueueHasConsumer(t: QueueType): (r: bool)
      reads this
      ensures t == Main ==> r
      ensures t != Main ==> (r <==> ConsumerBag(t).Some? && !ConsumerBag(t).value.NoKeys())
      ensures t != Main ==> (r <==> ShouldAddConsumer(ConsumerBag(t)) || UsesMainHandler(ConsumerBag(t)))
    {
      match t
      case Main => true
      case Delay => ShouldAddConsumer(Some(delayConsumerProperties)) || Truthy(ValueOf(delayConsumerProperties.useMainHandler))
      case Dlq => ShouldAddConsumer(dlqConsumerProperties) || UsesMainHandler(dlqConsumerProperties)
    }

    /** The `Tags` of a queue: the default tags, then the resource set, the
        queue type and whether it has a consumer, then `addTags`. */
    function QueueTags(q: QueueProps, t: QueueType): (tags: seq<Value>)
      reads this
      ensures var d := |env.defaultTags|;
        && |tags| == d + 3 + |SpreadItems(ValueOf(q.addTags))|
        && tags[..d] == env.defaultTags
        && tags[d] == Tag("ResourceSet", names.titleName)
        && tags[d + 1] == Tag("SQSType", env.sqsTypeName(t))
        && tags[d + 2] == Tag("HasConsumer", if QueueHasConsumer(t) then "true" else "false")
        && tags[d + 3..] == SpreadItems(ValueOf(q.addTags))
    {
      env.defaultTags
      + [ Tag("ResourceSet", names.titleName),
          Tag("SQSType", env.sqsTypeName(t)),
          Tag("HasConsumer", if QueueHasConsumer(t) then "true" else "false") ]
      + SpreadItems(ValueOf(q.addTags))
    }

    /** `{ maxReceiveCount, deadLetterTargetArn }`, the object the source
        serializes with `JSON.stringify`. */
    static function RedrivePolicy(maxReceiveCount: Value, deadLetterTargetArn: string): (r: Value)
      ensures Get(r, "maxReceiveCount") == maxReceiveCount
      ensures Get(r, "deadLetterTargetArn") == Str(deadLetterTargetArn)
    {
      Obj(map["maxReceiveCount" := maxReceiveCount, "deadLetterTargetArn" := Str(deadLetterTargetArn)])
    }

    /** The redrive policy of a tier: present when it has a non-empty
        dead-letter target. */
    function Redrive(maxReceiveCount: Value, t: QueueType): (r: Option<Value>)
      reads this
    {
      var target := DeadLetterTargetArn(t);
      if target.Some? && target.value != "" then Some(RedrivePolicy(maxReceiveCount, target.value)) else None
    }

    /** The `Properties` of a tier's queue resource. */
    function QueueProperties(q: QueueProps, t: QueueType): (p: map<string, Value>)
      reads this
    {
      PropertiesOf(ServiceNameRef + env.fixFifoName(QueueName(t), fifoQueue), q,
        Redrive(ValueOf(q.maxReceiveCount), t), fifoQueue, QueueTags(q, t))
    }

    /** `buildQueueResource`: the queue resource of a tier, depending on the
        queue it sends dead letters to. */
    function BuildQueueResource(q: QueueProps, t: QueueType): (r: Hook)
      reads this
      ensures r.kind == ResourceHook
      ensures Get(r.payload, "name") == Str(QueueName(t))
      ensures var res := Get(r.payload, "resource");
        && Get(res, "Type") == Str("AWS::SQS::Queue")
        && Get(res, "Properties") == Obj(QueueProperties(q, t))
        && Get(res, "DependsOn") == (if DependsOnQueue(t).Some? && DependsOnQueue(t).value != ""
                                     then Arr([Str(DependsOnQueue(t).value)]) else Undefined)
    {
      var dependsOn := DependsOnQueue(t);
      QueueResource(QueueName(t), QueueProperties(q, t),
        if dependsOn.Some? && dependsOn.value != "" then Some(dependsOn.value) else None)
    }

    /** The ARN of the source topic, from its name. */
    function SourceTopicArn(): string
      reads this
      requires sourceSnsTopic.Some?
    {
      env.snsTopicArn(Display(sourceSnsTopic.value.name))
    }

    /** `buildSnsPublishPolicy`: with a source topic, the queue policy that
        lets that topic (and only it) send to the main queue. */
    function BuildSnsPublishPolicy(): (r: seq<Hook>)
      reads this
      ensures sourceSnsTopic.None? <==> r == []
      ensures sourceSnsTopic.Some? ==> |r| == 1 && r[0].kind == ResourceHook
      ensures sourceSnsTopic.Some? ==>
        var res := Get(r[0].payload, "resource");
        var statement := Get(Get(res, "Properties"), "PolicyDocument");
        && Get(r[0].payload, "name") == Str(names.mainQueuePolicy)
        && Get(res, "Type") == Str("AWS::SQS::QueuePolicy")
        && Get(res, "DependsOn") == Arr([Str(names.mainQueue)])
        && Get(Get(res, "Properties"), "Queues") == Arr([Str(QueueUrl(env, names.mainQueue, fifoQueue))])
        && Get(statement, "Statement") == Arr([Obj(map[
             "Effect" := Str("Allow"),
             "Action" := Str("sqs:SendMessage"),
             "Resource" := Str(arns.mainQueue),
             "Principal" := Obj(map["Service" := Str("sns.amazonaws.com")]),
             "Condition" := Obj(map["ArnEquals" := Obj(map["aws:SourceArn" := Str(SourceTopicArn())])])])])
    {
      if sourceSnsTopic.None? then []
      else
        [SnsPublishPolicy(names.mainQueuePolicy, QueueUrl(env, names.mainQueue, fifoQueue), arns.mainQueue,
           SourceTopicArn(), names.mainQueue)]
    }

    /** `buildSnsToSqsSubscription`: with a source topic, its subscription
        delivering raw messages to the main queue, filtered when a filter
        policy is given. */
    function BuildSnsToSqsSubscription(): (r: seq<Hook>)
      reads this
      ensures sourceSnsTopic.None? <==> r == []
      ensures sourceSnsTopic.Some? ==> |r| == 1 && r[0].kind == ResourceHook
      ensures sourceSnsTopic.Some? ==>
        var res := Get(r[0].payload, "resource");
        var props := Get(res, "Properties");
        var filter := sourceSnsTopic.value.filterPolicy;
        && Get(r[0].payload, "name") == Str("SubSNS" + Display(sourceSnsTopic.value.name) + "SQS" + names.titleName)
        && Get(res, "Type") == Str("AWS::SNS::Subscription")
        && Get(res, "DependsOn") == Arr([Str(names.mainQueue)])
        && Get(props, "Protocol") == Str("sqs")
        && Get(props, "Endpoint") == Str(arns.mainQueue)
        && Get(props, "RawMessageDelivery") == Bool(true)
        && Get(props, "TopicArn") == Str(SourceTopicArn())
        && props.Obj? && ("FilterPolicy" in props.fields <==> Truthy(filter))
        && Get(props, "FilterPolicy") == (if Truthy(filter) then filter else Undefined)
    {
      if sourceSnsTopic.None? then []
      else
        var topic := sourceSnsTopic.value;
        [SnsSubscription("SubSNS" + Display(topic.name) + "SQS" + names.titleName, arns.mainQueue,
           SourceTopicArn(), topic.filterPolicy, names.mainQueue)]
    }

    /** The delay tier's hooks, present only when the caller gave a delay
        queue bag. */
    function DelayHooks(): (r: seq<Hook>)
      reads this
      ensures |r| == (if !useDelayQueue then 0 else if ShouldAddConsumer(Some(delayConsumerProperties)) then 2 else 1)
    {
      if !useDelayQueue then []
      else
        (if ShouldAddConsumer(Some(delayConsumerProperties))
         then [BuildConsumerFunction(delayConsumerProperties, Delay)] else [])
        + [BuildQueueResource(delayQueueProperties, Delay)]
    }

    /** The delay tier's hooks, pushed one at a time. */
    method BuildDelayHooks() returns (delayHooks: seq<Hook>)
      ensures delayHooks == DelayHooks()
    {
      delayHooks := [];
      if useDelayQueue {
        if ShouldAddConsumer(Some(delayConsumerProperties)) {
          delayHooks := [BuildConsumerFunction(delayConsumerProperties, Delay)];
        }
        delayHooks := delayHooks + [BuildQueueResource(delayQueueProperties, Delay)];
      }
    }

    /** The hooks `buildHooks` returns once the state is set, in its order. */
    function ExpectedHooks(): seq<Hook>
      reads this
    {
      SqsUrlEnvVars()
      + [ BuildConsumerFunction(consumerProperties, Main),
          BuildQueueResource(mainQueueProperties, Main) ]
      + DelayHooks()
      + [ BuildQueueResource(dlqQueueProperties, Dlq) ]
      + (if ShouldAddConsumer(dlqConsumerProperties) then [BuildConsumerFunction(dlqConsumerProperties.value, Dlq)] else [])
      + BuildSnsPublishPolicy()
      + BuildSnsToSqsSubscription()
    }

    /** `buildHooks`: validate, set the defaulted state, then emit the hooks.
        A rejected configuration changes nothing and emits nothing. */
    method BuildHooks(cfg: SqsConfig) returns (r: Result<seq<Hook>, SqsError>)
      modifies this
      ensures ValidationError(env.isObject, cfg).Some? ==>
        r == Failure(ValidationError(env.isObject, cfg).value) && unchanged(this)
      ensures ValidationError(env.isObject, cfg).None? ==>
        && ConfiguredFrom(cfg)
        && globalEnvVarsSetting == old(globalEnvVarsSetting)
        && r == Success(ExpectedHooks())
    {
      var err := ValidateConfigs(cfg);
      if err.Some? {
        return Failure(err.value);
      }
      ValidationRejectsExactly(env.isObject, cfg);
      SetConfigsWithDefaults(cfg);

      var hooks := EmitHooks();
      return Success(hooks);
    }

    /** The hook list `buildHooks` returns once the state is set. */
    method EmitHooks() returns (hooks: seq<Hook>)
      ensures hooks == ExpectedHooks()
    {
      var delayHooks := BuildDelayHooks();
      var envVars := GetSqsUrlEnvVars();
      var mainConsumer := BuildConsumerFunction(consumerProperties, Main);
      var mainQueue := BuildQueueResource(mainQueueProperties, Main);
      var dlqQueue := BuildQueueResource(dlqQueueProperties, Dlq);
      var dlqConsumer := if ShouldAddConsumer(dlqConsumerProperties)
        then [BuildConsumerFunction(dlqConsumerProperties.value, Dlq)] else [];
      hooks := envVars + [mainConsumer, mainQueue] + delayHooks + [dlqQueue] + dlqConsumer
        + BuildSnsPublishPolicy() + BuildSnsToSqsSubscription();
    }
  }
}
