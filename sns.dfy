/** lib/sns-helper/index.js: the SNS topic builder. The source keeps the
    topic configuration in a static field; here it is the field of one
    `SnsHelper` object, written by `SetConfigsWithDefaults` and read by the
    two builders. */
module Sns {
  import opened Js
  import opened Hooks

  const TopicArnSuffix := "_SNS_TOPIC_ARN"

  /** The helpers the source requires and that are not part of this model:
      the configuration validator, the topic ARN of a topic name
      (`generateArns(name).topic`) and `upperSnakeCase`. */
  datatype SnsEnv = SnsEnv(
    validate: Value -> bool,
    topicArn: Value -> string,
    upperSnakeCase: string -> string)

  /** Why `buildHooks` throws: the validator rejected the configuration, or
      a property was read from `null` or `undefined` (a `TypeError`). */
  datatype SnsError = InvalidConfig | PropertyOfNullish(property: string)

  /** `undefined` and `null`, the values whose properties cannot be read. */
  predicate Nullish(v: Value)
  {
    v.Undefined? || v.Null?
  }

  /** The static `getEnvVar`: the topic's ARN under the variable named after
      the topic. It takes no state: it does not depend on `buildHooks`. */
  function GetEnvVar(env: SnsEnv, topicName: string): (r: map<string, Value>)
    ensures |r| == 1
    ensures env.upperSnakeCase(topicName) + TopicArnSuffix in r
    ensures r[env.upperSnakeCase(topicName) + TopicArnSuffix] == Str(env.topicArn(Str(topicName)))
  {
    map[env.upperSnakeCase(topicName) + TopicArnSuffix := Str(env.topicArn(Str(topicName)))]
  }

  /** The topic resource of topic `name`. */
  function TopicResource(name: Value): (r: Hook)
    ensures r.kind == ResourceHook
    ensures Get(r.payload, "name") == Str(Display(name) + "Topic")
    ensures var res := Get(r.payload, "resource");
      && Get(res, "Type") == Str("AWS::SNS::Topic")
      && Get(Get(res, "Properties"), "TopicName") == name
      && Get(Get(res, "Properties"), "DisplayName") == Str(ServiceNameRef + " " + Display(name))
  {
    Hook(ResourceHook, Obj(map[
      "name" := Str(Display(name) + "Topic"),
      "resource" := Obj(map[
        "Type" := Str("AWS::SNS::Topic"),
        "Properties" := Obj(map[
          "TopicName" := name,
          "DisplayName" := Str(ServiceNameRef + " " + Display(name))])])]))
  }

  /** The statement allowing publication to the topic with ARN `arn`, and
      nothing else. */
  function PublishPermission(arn: string): (r: Hook)
    ensures r.kind == IamStatementHook
    ensures r.payload.Obj? && r.payload.fields.Keys == {"action", "resource"}
    ensures Get(r.payload, "action") == Arr([Str("sns:Publish")])
    ensures Get(r.payload, "resource") == Str(arn)
  {
    Hook(IamStatementHook, Obj(map["action" := Arr([Str("sns:Publish")]), "resource" := Str(arn)]))
  }

  class SnsHelper {
    const env: SnsEnv

    /** `topicProperties`: the `topic` of the last configuration. */
    var topicProperties: Value

    constructor (env: SnsEnv)
      ensures this.env == env && topicProperties == Undefined
    {
      this.env := env;
      topicProperties := Undefined;
    }

    /** `setConfigsWithDefaults`: stores the configuration's `topic` as it
        is; there are no defaults. */
    method SetConfigsWithDefaults(config: Value)
      requires !Nullish(config)
      modifies this`topicProperties
      ensures topicProperties == Get(config, "topic")
    {
      topicProperties := Get(config, "topic");
    }

    /** The stored topic's name. */
    function TopicName(): Value
      reads this
      requires !Nullish(topicProperties)
    {
      Get(topicProperties, "name")
    }

    /** `buildTopic`: the topic resource, named after the topic. */
    function BuildTopic(): (r: Hook)
      reads this
      requires !Nullish(topicProperties)
      ensures r.kind == ResourceHook
      ensures Get(r.payload, "name") == Str(Display(TopicName()) + "Topic")
      ensures Get(Get(Get(r.payload, "resource"), "Properties"), "TopicName") == TopicName()
      ensures Get(Get(Get(r.payload, "resource"), "Properties"), "DisplayName")
        == Str(ServiceNameRef + " " + Display(TopicName()))
    {
      TopicResource(TopicName())
    }

    /** `buildTopicPermissions`: permission to publish to the same topic. */
    function BuildTopicPermissions(): (r: Hook)
      reads this
      requires !Nullish(topicProperties)
      ensures r.kind == IamStatementHook
      ensures Get(r.payload, "action") == Arr([Str("sns:Publish")])
      ensures Get(r.payload, "resource") == Str(env.topicArn(TopicName()))
    {
      PublishPermission(env.topicArn(TopicName()))
    }

    /** `buildHooks`: validate the configuration (an absent one is `{}`),
        store it, then return the topic and its permission, in that order.
        A rejected configuration changes nothing; a configuration without a
        topic is stored and then fails when the topic's name is read. */
    method BuildHooks(config: Value) returns (r: Result<seq<Hook>, SnsError>)
      modifies this`topicProperties
      ensures var cfg := if config.Undefined? then Obj(map[]) else config;
        && (!env.validate(cfg) ==> r == Failure(InvalidConfig) && topicProperties == old(topicProperties))
        && (env.validate(cfg) && cfg.Null? ==>
              r == Failure(PropertyOfNullish("topic")) && topicProperties == old(topicProperties))
        && (env.validate(cfg) && !cfg.Null? ==> topicProperties == Get(cfg, "topic"))
        && (env.validate(cfg) && !cfg.Null? && Nullish(Get(cfg, "topic")) ==>
              r == Failure(PropertyOfNullish("name")))
        && (env.validate(cfg) && !cfg.Null? && !Nullish(Get(cfg, "topic")) ==>
              r == Success([BuildTopic(), BuildTopicPermissions()]))
    {
      var cfg := if config.Undefined? then Obj(map[]) else config;
      if !env.validate(cfg) {
        return Failure(InvalidConfig);
      }
      if cfg.Null? {
        return Failure(PropertyOfNullish("topic"));
      }
      SetConfigsWithDefaults(cfg);
      if Nullish(topicProperties) {
        return Failure(PropertyOfNullish("name"));
      }
      var topic := BuildTopic();
      var permission := BuildTopicPermissions();
      return Success([topic, permission]);
    }
  }

  /** A successful `buildHooks` returns exactly two hooks, the topic
      resource and then the permission to publish to that same topic, and
      `getEnvVar` of the topic's name gives the ARN the permission grants. */
  lemma TopicAndPermissionAgree(h: SnsHelper, name: string)
    requires !Nullish(h.topicProperties) && h.TopicName() == Str(name)
    ensures var hooks := [h.BuildTopic(), h.BuildTopicPermissions()];
      && hooks[0].kind == ResourceHook && hooks[1].kind == IamStatementHook
      && Get(hooks[0].payload, "name") == Str(name + "Topic")
      && Get(hooks[1].payload, "resource")
           == GetEnvVar(h.env, name)[h.env.upperSnakeCase(name) + TopicArnSuffix]
  {
  }
}
