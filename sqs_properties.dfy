/** What the queue group built by lib/sqs-helper/index.js guarantees across
    its operations: where a queue's dead letters go, which queue properties
    exist only for FIFO groups, what a queue's tags say about its consumer,
    and the order of the hooks. */
module SqsProperties {
  import opened Js
  import opened Hooks
  import opened SqsConfig
  import opened Sqs

  /** A queue's redrive policy names the tier's dead-letter target and the
      bag's `maxReceiveCount`; it is absent when the tier has no target. */
  lemma RedriveOf(h: SqsHelper, q: QueueProps, t: QueueType)
    requires "RedrivePolicy" !in q.extra
    ensures var p := h.QueueProperties(q, t); var target := h.DeadLetterTargetArn(t);
      && ("RedrivePolicy" in p <==> target.Some? && target.value != "")
      && ("RedrivePolicy" in p ==>
            && Get(p["RedrivePolicy"], "deadLetterTargetArn") == Str(target.value)
            && Get(p["RedrivePolicy"], "maxReceiveCount") == ValueOf(q.maxReceiveCount))
  {
    var redrive := h.Redrive(ValueOf(q.maxReceiveCount), t);
    var p := h.QueueProperties(q, t);
    assert "RedrivePolicy" in p <==> redrive.Some?;
    if redrive.Some? {
      assert p["RedrivePolicy"] == redrive.value;
    }
  }

  /** The dead-letter chain of a configured group: the main queue sends to
      the delay queue when the caller gave a delay queue bag and to the DLQ
      otherwise, the delay queue sends to the DLQ, and the DLQ sends nowhere
      (unless a bag's own keys replace the redrive policy). */
  lemma RedriveChain(h: SqsHelper, cfg: SqsConfig, t: QueueType)
    requires cfg.name.Some? && h.FlagsFrom(cfg)
    requires h.arns.delayQueue != "" && h.arns.dlq != ""
    requires "RedrivePolicy" !in h.QueueBag(t).extra
    ensures var p := h.QueueProperties(h.QueueBag(t), t);
      && ("RedrivePolicy" in p <==> t != Dlq)
      && (t == Main ==> Get(p["RedrivePolicy"], "deadLetterTargetArn")
                          == Str(if cfg.delayQueueProperties.Given? then h.arns.delayQueue else h.arns.dlq))
      && (t == Delay ==> Get(p["RedrivePolicy"], "deadLetterTargetArn") == Str(h.arns.dlq))
  {
    RedriveOf(h, h.QueueBag(t), t);
  }

  /** The FIFO-only properties appear only in a FIFO group, one whose
      caller's main queue bag set `fifoQueue` (the defaults do not count);
      in a FIFO group every queue is marked `FifoQueue: true` and has
      content-based deduplication exactly when its bag asks for it. */
  lemma FifoOnlyWhenFifo(h: SqsHelper, cfg: SqsConfig, q: QueueProps, t: QueueType)
    requires h.ConfiguredFrom(cfg)
    requires forall k :: k in FifoKeys ==> k !in q.extra
    ensures var p := h.QueueProperties(q, t);
      var fifo := cfg.mainQueueProperties.Given? && Truthy(ValueOf(cfg.mainQueueProperties.props.fifoQueue));
      && (!fifo ==> forall k :: k in FifoKeys ==> k !in p)
      && (fifo ==> "FifoQueue" in p && p["FifoQueue"] == Bool(true))
      && (fifo ==> ("ContentBasedDeduplication" in p <==> Truthy(ValueOf(q.contentBasedDeduplication))))
  {
  }

  /** The `Tags` of a queue whose bag does not replace them: the default
      tags, then the resource set, the queue type and whether the queue has a
      consumer. */
  lemma TagsOf(h: SqsHelper, q: QueueProps, t: QueueType)
    requires "Tags" !in q.extra
    ensures var p := h.QueueProperties(q, t); var d := |h.env.defaultTags|;
      && "Tags" in p && p["Tags"].Arr? && |p["Tags"].items| >= d + 3
      && p["Tags"].items[..d] == h.env.defaultTags
      && p["Tags"].items[d] == Tag("ResourceSet", h.names.titleName)
      && p["Tags"].items[d + 1] == Tag("SQSType", h.env.sqsTypeName(t))
      && p["Tags"].items[d + 2] == Tag("HasConsumer", if h.QueueHasConsumer(t) then "true" else "false")
  {
  }

  /** The `HasConsumer` tag of a configured group in terms of the caller's
      configuration: the main queue always has a consumer; the DLQ has one
      exactly when the caller gave a DLQ consumer bag that, over its
      defaults, has a key; the delay queue's bag is layered over the consumer
      defaults even when the caller gave none, so it has one unless both the
      defaults and the caller's bag are empty. */
  lemma HasConsumerFromConfig(h: SqsHelper, cfg: SqsConfig)
    requires h.ConfiguredFrom(cfg)
    ensures h.QueueHasConsumer(Main)
    ensures h.QueueHasConsumer(Dlq) <==>
      cfg.dlqConsumerProperties.Given?
      && !(h.env.dlqConsumerDefaults.NoKeys() && cfg.dlqConsumerProperties.props.NoKeys())
    ensures h.QueueHasConsumer(Delay) <==>
      !(h.env.consumerDefaults.NoKeys()
        && (cfg.delayConsumerProperties.Given? ==> cfg.delayConsumerProperties.props.NoKeys()))
  {
  }

  /** The static `getEnvVar` of the group's name gives the same variable,
      with the same URL, as the main queue's entry in the `envVars` hook of a
      configured group. */
  lemma GetEnvVarAgrees(h: SqsHelper, cfg: SqsConfig)
    requires cfg.name.Some? && h.FlagsFrom(cfg)
    requires Truthy(ValueOf(h.mainQueueProperties.generateEnvVars))
    ensures var key := h.names.envVarName + SqsUrlSuffix;
      && key in h.UrlVars()
      && GetEnvVar(h.env, cfg.name.value, h.fifoQueue) == map[key := h.UrlVars()[key]]
  {
  }
  /** The resource dependencies follow the dead-letter chain: the main
      queue depends on the delay queue when the caller gave a delay queue
      bag and on the DLQ otherwise, the delay queue depends on the DLQ, and
      the DLQ depends on nothing. */
  lemma DependsOnChain(h: SqsHelper, cfg: SqsConfig, t: QueueType)
    requires cfg.name.Some? && h.FlagsFrom(cfg)
    requires h.names.delayQueue != "" && h.names.dlq != ""
    ensures var r := h.BuildQueueResource(h.QueueBag(t), t); var dependsOn := Get(Get(r.payload, "resource"), "DependsOn");
      && (t == Main ==> dependsOn == Arr([Str(if cfg.delayQueueProperties.Given? then h.names.delayQueue else h.names.dlq)]))
      && (t == Delay ==> dependsOn == Arr([Str(h.names.dlq)]))
      && (t == Dlq ==> dependsOn == Undefined)
  {
    var r := h.BuildQueueResource(h.QueueBag(t), t);
    assert Get(Get(r.payload, "resource"), "DependsOn")
      == (if h.DependsOnQueue(t).Some? && h.DependsOnQueue(t).value != ""
          then Arr([Str(h.DependsOnQueue(t).value)]) else Undefined);
  }

  /** The delay bag is always layered over the consumer defaults, so a
      truthy `useMainHandler` there, from the caller's delay consumer bag or
      from the defaults, gives the main consumer a second event source, the
      delay bag's source on the delay queue's ARN, whether or not the caller
      gave a delay queue bag. */
  lemma MainConsumerDelaySource(h: SqsHelper, cfg: SqsConfig)
    requires h.ConfiguredFrom(cfg)
    ensures var own := if cfg.delayConsumerProperties.Given? then cfg.delayConsumerProperties.props.useMainHandler else None;
      var events := h.ConsumerEvents(h.consumerProperties, Main);
      Truthy(ValueOf(Override(h.env.consumerDefaults.useMainHandler, own))) ==>
        |events| >= 2 && events[1] == BagEventSource(h.arns.delayQueue, h.delayConsumerProperties)
  {
  }
}
