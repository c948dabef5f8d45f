# Serverless helper hooks: SQS queue groups, SNS topics and event listeners

This project models the configuration generators of a Serverless Framework
helper plugin in Dafny. Each generator takes a small configuration record and
turns it into an ordered list of tagged hooks (`resource`, `function`,
`iamStatement`, `envVars`) or into an amended service configuration. Dafny
then proves properties of these models.

- **SQS queue-group builder** (`lib/sqs-helper/index.js`): `buildHooks`
  runs in three steps.
  - It validates the entity name, the six property bags and the SNS source.
  - It layers the caller's bags over their defaults and stores the result in
    the helper's state.
  - It emits the hooks in a fixed order: the queue URL variables, the main
    consumer and queue, the delay tier, the DLQ and its consumer, then the SNS
    queue policy and subscription.

  The source keeps this state in static fields. Here the state is the class
  `Sqs.SqsHelper`: `SetConfigsWithDefaults` writes its fields and the
  builders read them. Modules:
  - `SqsConfig` holds the input side: bags, defaults and validation.
  - `Sqs` holds the builders.
  - `SqsProperties` holds the cross-operation lemmas: the redrive and
    dependency chains, FIFO-only properties, tags and environment variables.
  - `SqsLayout` proves the order of the emitted hooks.
- **Name generator** (`lib/sqs-helper/helper/generate-names.js`): names are
  derived by case conversion and suffixing (`GenerateNames`).
- **SNS topic builder** (`lib/sns-helper/index.js`): validate, store the
  topic, then emit the topic resource and its publish permission
  (`Sns.SnsHelper`), plus the standalone `getEnvVar`.
- **Event-listener hook** (`lib/event-listener/index.js`): merge the
  defaults, check the required names, and append one listener function to the
  service configuration (`EventListener`).

The `Js` module models the JavaScript values the generators handle.
- Objects are maps, and an object spread `{ ...a, ...b }` is the map union
  `a + b`, in which `b` wins.
- `Truthy` is JavaScript truthiness.
- `Get` reads a property, giving `undefined` for a missing key or a
  non-object.

Hooks are `Hooks.Hook(kind, payload)`. The helpers the core requires without
defining them are fields of arrow type in environment records (`SqsEnv`,
`SnsEnv`, `LodashCase`, `CaseConversions`). Every property proved holds for
all of their implementations. These helpers are:
- the case conversions;
- the default bags and default tags;
- `fixFifoName`, `generateArns` and `isObject`;
- the SNS configuration validator and the SNS ARN generator;
- the SQS type labels.

The SQS builder reads the fields `mainQueue`, `delayQueue`, `dlq` and
`mainQueuePolicy` from the names record it requires. The `generate-names.js`
of this repository returns `sqsName` and `dlqName` instead. The model keeps
both as written:
- the record the builder reads is the abstract input `SqsConfig.QueueNames`,
  produced by `SqsEnv.generateNames`;
- `GenerateNames.GenerateNames` models the file itself.

The delay consumer bag is always layered over the consumer defaults. So the
main consumer gets a delay-queue event source whenever that bag's
`useMainHandler` is truthy, even when no delay queue is configured. The model
keeps this behaviour (`SqsProperties.MainConsumerDelaySource`).

## Model

| member | source | states |
|---|---|---|
| GenerateNames.GenerateNames | lib/sqs-helper/helper/generate-names.js:5-16 | the title, file and env-var names are the three case conversions of the name; `sqsName` is exactly the title name followed by `Queue` and `dlqName` the title name followed by `DLQ`, so the two never coincide |
| SqsConfig.ConsumerProps.Layer | lib/sqs-helper/index.js:135-142 | `{ ...defaults, ...bag }` on a consumer bag: each key of the caller's bag wins, every other key (named or extra) keeps its default value, and the result has no key exactly when neither has one |
| SqsConfig.QueueProps.Layer | lib/sqs-helper/index.js:135-142 | the same layering for a queue bag: the caller's keys win and every extra property found only in the defaults keeps its default value |
| SqsConfig.ConsumerWithDefaults | lib/sqs-helper/index.js:135-139 | an absent bag leaves the defaults; a given bag is layered over them |
| SqsConfig.QueueWithDefaults | lib/sqs-helper/index.js:136-142 | the same for a queue bag |
| SqsConfig.FirstRejected | lib/sqs-helper/index.js:110-120 | there is no rejected label exactly when no bag is rejected; otherwise the label is that of the first rejected bag in the checking order |
| SqsConfig.ValidationRejectsExactly | lib/sqs-helper/index.js:105-131 | validation fails exactly when the name is missing or empty, a bag is present but not a plain object, the SNS source's name is not a string, or its filter policy is truthy and not an object; it fails with the missing-name error exactly when the name is missing or empty |
| Sqs.ShouldAddConsumer | lib/sqs-helper/index.js:155-159 | a tier gets its own consumer exactly when its bag exists, has a key, and does not set `useMainHandler` |
| Sqs.GetEnvVar | lib/sqs-helper/index.js:56-63 | a one-entry map from `<envVarName>_SQS_QUEUE_URL` to the main queue's URL, FIFO-suffixed as asked |
| Sqs.SqsPermissions | lib/sqs-helper/index.js:39-50 | an IAM statement allowing the four consumer actions on every queue under the base ARN |
| Sqs.CreateEventSource | lib/sqs-helper/index.js:242-256 | one `sqs` event on the ARN, reporting partial batch failures, with `batchSize` and `maximumBatchingWindow` only when truthy; `eventProperties` wins over every key |
| Sqs.SqsHelper.SetGlobalEnvVars | lib/sqs-helper/index.js:29-31 | the stored setting, or `true` when it is `undefined` or `null` |
| Sqs.SqsHelper.ShouldSetGlobalEnvVars | lib/sqs-helper/index.js:33-37 | stores the setting and changes nothing else |
| Sqs.SqsHelper.ValidateConfigs | lib/sqs-helper/index.js:105-131 | the loop over the six bags returns the error of the specification function `ValidationError`, in the source's checking order |
| Sqs.SqsHelper.SetConfigsWithDefaults | lib/sqs-helper/index.js:133-153 | leaves every bag layered over its defaults (the DLQ consumer bag absent unless given), the FIFO flag from the caller's main queue bag only, the delay flag from the presence of the caller's delay queue bag, and the names and ARNs of the entity; the global setting is kept |
| Sqs.SqsHelper.UrlVars | lib/sqs-helper/index.js:166-175 | one URL variable per tier whose queue bag sets `generateEnvVars`, each holding that tier's FIFO-suffixed queue URL, and no other key |
| Sqs.SqsHelper.SqsUrlEnvVars | lib/sqs-helper/index.js:161-183 | at most one `envVars` hook; one exactly when global variables are on and some tier sets `generateEnvVars` |
| Sqs.SqsHelper.GetSqsUrlEnvVars | lib/sqs-helper/index.js:161-183 | filling the map tier by tier gives `SqsUrlEnvVars` |
| Sqs.SqsHelper.ConsumerEvents | lib/sqs-helper/index.js:233-236 | the first event source is the consumer's own queue; only the main consumer adds more, one for the delay queue and one for the DLQ, each exactly when that bag sets `useMainHandler` |
| Sqs.SqsHelper.ConsumerDefinition | lib/sqs-helper/index.js:198-232 | the function name, the handler and description defaults of each tier (under `prefixPath` when truthy), the timeout, the dependency on the tier's queue and the events |
| Sqs.SqsHelper.BuildConsumerFunction | lib/sqs-helper/index.js:185-240 | a `function` hook whose keys are the definition's keys plus those of `functionProperties`, which win |
| Sqs.SqsHelper.QueueHasConsumer | lib/sqs-helper/index.js:336-349 | the main queue always has a consumer; the delay queue or DLQ has one exactly when its consumer bag exists and has a key, that is, when it gets its own consumer or routes to the main one |
| Sqs.SqsHelper.QueueTags | lib/sqs-helper/index.js:322-328 | the default tags, then `ResourceSet`, `SQSType` and `HasConsumer`, then the caller's `addTags` |
| Sqs.SqsHelper.RedrivePolicy | lib/sqs-helper/index.js:313-315 | the redrive object carries the bag's `maxReceiveCount` and the dead-letter target |
| Sqs.BaseProperties | lib/sqs-helper/index.js:309-311 | every queue's `Properties` hold its service-prefixed name and the bag's polling wait and visibility timeout, even when they are `undefined` |
| Sqs.OptionalProperties | lib/sqs-helper/index.js:313-317 | the redrive policy is there exactly when the tier has one, and the retention period and delay exactly when the bag's value is truthy, each with that value; no other key |
| Sqs.ScalarProperties | lib/sqs-helper/index.js:309-317 | the name, polling wait and visibility timeout always, the redrive policy when given, the retention period and delay when truthy, with their values and no other key |
| Sqs.FifoEntries | lib/sqs-helper/index.js:318-321 | nothing outside a FIFO group; in one, `FifoQueue: true`, the throughput limit and deduplication scope when truthy with their values, and `ContentBasedDeduplication: true` exactly when the bag's flag is truthy; no key outside the four FIFO-only ones |
| Sqs.PropertiesOf | lib/sqs-helper/index.js:308-330 | the bag's other keys are spread last and win; short of that the name, the redrive policy exactly when given, the FIFO-only keys only in a FIFO group and the given tags |
| Sqs.PropertiesOfKeys | lib/sqs-helper/index.js:308-330 | a queue's `Properties` hold exactly the scalar entries, the FIFO-only entries, `Tags` and the bag's other keys |
| Sqs.PropertiesOfValues | lib/sqs-helper/index.js:308-330 | every scalar and FIFO-only entry keeps its value unless one of the bag's other keys replaces it |
| Sqs.SqsHelper.BuildQueueResource | lib/sqs-helper/index.js:258-334 | a queue resource named after the tier's queue, with the tier's properties and a `DependsOn` only when the tier has a dependency |
| Sqs.SqsHelper.BuildSnsPublishPolicy | lib/sqs-helper/index.js:351-388 | nothing without a source topic; otherwise one queue policy letting only that topic's ARN send to the main queue |
| Sqs.SqsHelper.BuildSnsToSqsSubscription | lib/sqs-helper/index.js:390-411 | nothing without a source topic; otherwise one raw-delivery subscription of the main queue to the topic, with a `FilterPolicy` exactly when one is truthy |
| Sqs.SqsHelper.DelayHooks | lib/sqs-helper/index.js:71-81 | no delay hook without a delay tier; with one, one or two hooks depending on whether the delay bag gets its own consumer |
| Sqs.SqsHelper.BuildDelayHooks | lib/sqs-helper/index.js:71-81 | pushing the delay hooks one at a time gives `DelayHooks` |
| Sqs.SqsHelper.EmitHooks | lib/sqs-helper/index.js:83-102 | the assembled list is the fixed-order list `ExpectedHooks` |
| Sqs.SqsHelper.BuildHooks | lib/sqs-helper/index.js:65-103 | a rejected configuration yields its validation error and leaves the state unchanged, so no hook is emitted; an accepted one leaves the state configured from it and yields `ExpectedHooks` |
| SqsProperties.RedriveOf | lib/sqs-helper/index.js:281-292 | a queue has a `RedrivePolicy` exactly when its tier has a non-empty dead-letter target, and the policy names that target and the bag's `maxReceiveCount` |
| SqsProperties.RedriveChain | lib/sqs-helper/index.js:281-292 | in a configured group the main queue sends dead letters to the delay queue when the caller gave a delay queue bag and to the DLQ otherwise, the delay queue to the DLQ, and the DLQ nowhere |
| SqsProperties.DependsOnChain | lib/sqs-helper/index.js:281-292 | the main queue depends on the delay queue when a delay tier is used and on the DLQ otherwise, the delay queue on the DLQ, and the DLQ on nothing |
| SqsProperties.FifoOnlyWhenFifo | lib/sqs-helper/index.js:318-321 | without the caller's own `fifoQueue` no FIFO-only property appears; with it, every queue is `FifoQueue: true` and has content-based deduplication exactly when its bag asks |
| SqsProperties.TagsOf | lib/sqs-helper/index.js:322-328 | a queue's `Tags` start with the default tags followed by the resource set, the type and the consumer flag |
| SqsProperties.HasConsumerFromConfig | lib/sqs-helper/index.js:336-349 | in terms of the caller's configuration: the main queue always has a consumer, the DLQ exactly when the caller gave a DLQ consumer bag that has a key over its defaults, and the delay queue unless both the defaults and the caller's bag are empty |
| SqsProperties.GetEnvVarAgrees | lib/sqs-helper/index.js:56-63 | `getEnvVar` of the group's name gives the same variable and URL as the main queue's entry of the `envVars` hook |
| SqsProperties.MainConsumerDelaySource | lib/sqs-helper/index.js:139 | a truthy `useMainHandler` in the layered delay consumer bag gives the main consumer the delay queue's event source, with or without a delay tier |
| SqsLayout.FilterMembers | lib/sqs-helper/index.js:83-102 | a role is kept by the layout filter exactly when it is listed and its hook is present |
| SqsLayout.FilterAscending | lib/sqs-helper/index.js:83-102 | filtering keeps the roles in increasing rank |
| SqsLayout.FilterAppend | lib/sqs-helper/index.js:83-102 | filtering a concatenation is concatenating the filtered parts |
| SqsLayout.MatchesJoin | lib/sqs-helper/index.js:83-102 | matching hook and role lists can be concatenated |
| SqsLayout.MatchesAt | lib/sqs-helper/index.js:83-102 | matching lists have equal length and agree position by position |
| SqsLayout.AssembleMatchesLayout | lib/sqs-helper/index.js:83-102 | the assembled output of valid parts is, hook by hook, the hooks of the present roles in the fixed order |
| SqsLayout.LayoutAscending | lib/sqs-helper/index.js:83-102 | the roles of every output strictly increase in rank, so each role appears at most once |
| SqsLayout.ExpectedHooksAssemble | lib/sqs-helper/index.js:83-102 | the output of a state is its parts put together in the source's order |
| SqsLayout.HooksInFixedOrder | lib/sqs-helper/index.js:71-102 | `buildHooks` emits the URL variables, the main consumer and queue, the delay consumer and queue, the DLQ and its consumer, the queue policy and the subscription, each when present and in that order |
| SqsLayout.DelayHooksOrder | lib/sqs-helper/index.js:73-81 | the delay queue is the last delay hook, preceded by the delay consumer when there is one |
| SqsLayout.LayoutFromConfig | lib/sqs-helper/index.js:71-102 | in a configured group the main and DLQ hooks are always emitted; the delay queue exactly when the caller gave a delay queue bag, and the delay consumer only then; the DLQ consumer only when the caller gave a DLQ consumer bag; the two SNS hooks exactly when there is a source topic |
| Sns.GetEnvVar | lib/sns-helper/index.js:30-34 | a one-entry map from `<UPPER_SNAKE name>_SNS_TOPIC_ARN` to the topic's ARN; it reads no state |
| Sns.TopicResource | lib/sns-helper/index.js:56-67 | the topic resource is named after the topic followed by `Topic`, has the topic name as `TopicName` and the service name, a space and the topic name as `DisplayName` |
| Sns.PublishPermission | lib/sns-helper/index.js:72-79 | the statement grants exactly `sns:Publish` on the given ARN |
| Sns.SnsHelper.SetConfigsWithDefaults | lib/sns-helper/index.js:48-51 | stores the configuration's `topic` as it is |
| Sns.SnsHelper.BuildTopic | lib/sns-helper/index.js:56-67 | the resource of the stored topic |
| Sns.SnsHelper.BuildTopicPermissions | lib/sns-helper/index.js:72-79 | permission to publish to the stored topic's ARN |
| Sns.SnsHelper.BuildHooks | lib/sns-helper/index.js:13-28 | validation comes first and a rejected configuration changes nothing; an accepted one is stored, and with a topic the result is exactly the topic resource followed by its permission |
| Sns.TopicAndPermissionAgree | lib/sns-helper/index.js:30-34 | the two hooks are a resource then an IAM statement, and `getEnvVar` of the topic's name holds the ARN the permission grants |
| EventListener.Params | lib/event-listener/index.js:45-55 | the caller's parameters win and `mustHaveClient` false and `listenersDirName` `event-listeners` fill the keys the caller did not give |
| EventListener.RemoveSpaces | lib/event-listener/index.js:20 | the result has no space and keeps exactly the non-space characters |
| EventListener.RemoveSpacesAppend | lib/event-listener/index.js:20 | removing spaces distributes over concatenation |
| EventListener.RemoveSpacesIdempotent | lib/event-listener/index.js:20 | removing spaces twice is removing them once |
| EventListener.Authorizer | lib/event-listener/index.js:18 | `ServiceAuthorizer` exactly when `mustHaveClient` is truthy, `ServiceNoClientAuthorizer` exactly when it is not |
| EventListener.ListenerName | lib/event-listener/index.js:20 | the title-cased entity, then the title-cased event, then `Listener`, with every space removed |
| EventListener.HttpEndpoint | lib/event-listener/index.js:28-37 | the endpoint object: `lambda` integration, the path, `post`, the authorizer reference and the three template placeholders |
| EventListener.HttpEvent | lib/event-listener/index.js:26-39 | a `post` on the listener path through the `lambda` integration, behind the chosen authorizer, with the template placeholders |
| EventListener.Listener | lib/event-listener/index.js:10-43 | one function under the listener name, with the handler under `src/<listenersDirName>/<entity>/<event>` and the path `/listener/<entity>/<event>` in kebab case |
| EventListener.ExistingFunctions | lib/event-listener/index.js:78 | an array gives its items, a falsy value nothing, a string the one-character strings of its characters in order, and every other truthy value a `TypeError` |
| EventListener.EventListenerHook | lib/event-listener/index.js:50-82 | a falsy `entityName` fails first, then a falsy `eventName`; on success every other configuration key is kept and `functions` is the old list plus exactly the new listener at the end |

## Left out

- The string case conversions (lodash `startCase` and `kebabCase`, and the repository's `upperCamelCase`, `kebabCase` and `upperSnakeCase`) are arbitrary functions given as parameters. `lib/utils/string` is not part of this model.
- The other helpers the core requires are not part of this model. They are parameters of `SqsEnv` and `SnsEnv`, and the proofs hold for any of them:
  - the default bags and default tags;
  - `fixFifoName`, `generateArns` and `isObject`;
  - the SQS type labels and the base ARN and URL;
  - the SNS configuration validator and the SNS ARN generator.
- The logger warnings of the event-listener hook (lib/event-listener/index.js:63-73) are left out: they are output only and do not change the result.
- Error messages are modelled as error kinds (`SqsError`, `SnsError`, `ListenerError`), not as the exact text, which includes `util.inspect` output.
- `Sqs.SqsHelper.RedrivePolicy`: the source serializes the redrive policy with `JSON.stringify`. The model keeps the object `{ maxReceiveCount, deadLetterTargetArn }`.
- The `${self:custom...}` and `${file(...)}` placeholders are opaque text. Their resolution is not modelled.
- The static state of the source classes is one object per helper. Concurrent calls that share that state are not modelled.
- The key order of JavaScript objects is not modelled: objects are maps.
- Numbers are integers. Floating point is not modelled.
- `Js.Spread` spreads objects only. Spreading a truthy non-object (an array or a string) into an object literal gives no keys here. In JavaScript it would give index keys.
- `Js.SpreadItems`: spreading a truthy `addTags` that is not an array gives no tags. In JavaScript a string would give its characters, and any other non-iterable would throw.
- Sqs.SqsHelper.BuildHooks: the configuration argument is always a record.
  - A `null` configuration is not modelled. The source throws a `TypeError` for it.
  - A `name` that is not a string is not modelled. The source only tests its `length`.
- EventListener.EventListenerHook: the service configuration is always an object. A non-object configuration, whose destructuring would behave differently, is not modelled.
- Sqs.SqsHelper.QueueHasConsumer: the source compares the `SQSTypes` label strings, and the model compares the three tiers of `QueueType`. They agree only when the three labels are pairwise distinct, which the model assumes. If, say, the delay label equalled the main label, the source would tag the delay queue `HasConsumer: 'true'` always.
- Sns.SnsHelper.BuildHooks: the SNS validator is an arbitrary predicate. Which configurations it accepts is not part of this model.
