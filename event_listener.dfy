/** lib/event-listener/index.js: the hook that adds one event-listener
    function to the service configuration. The source is pure: the hook maps
    a configuration and its parameters to a new configuration or throws. */
module EventListener {
  import opened Js

  /** The lodash case conversions the source requires; their implementation
      is foreign to this model. */
  datatype LodashCase = LodashCase(startCase: Value -> string, kebabCase: Value -> string)

  /** Why the hook throws: a parameter it needs is missing or falsy, or the
      existing `functions` is a truthy value that cannot be spread into an
      array (a `TypeError`). */
  datatype ListenerError = MissingEntityName | MissingEventName | FunctionsNotIterable

  const Integration := "lambda"
  const ServiceAuthorizer := "ServiceAuthorizer"
  const ServiceNoClientAuthorizer := "ServiceNoClientAuthorizer"
  const RequestTemplate := "${self:custom.apiRequestTemplate}"
  const ResponseTemplate := "${self:custom.apiResponseTemplate}"
  const OfflineResponseTemplate := "${self:custom.apiOfflineResponseTemplate}"

  /** The parameters every hook call starts from. */
  const DefaultParams: map<string, Value> :=
    map["mustHaveClient" := Bool(false), "listenersDirName" := Str("event-listeners")]

  /** `{ ...defaultParams, ...hookParams }`: the caller's parameters win, the
      defaults fill in the keys the caller did not give. */
  function Params(hookParams: Value): (r: map<string, Value>)
    ensures r.Keys == DefaultParams.Keys + Spread(hookParams).Keys
    ensures forall k :: k in Spread(hookParams) ==> r[k] == Spread(hookParams)[k]
    ensures "mustHaveClient" !in Spread(hookParams) ==> r["mustHaveClient"] == Bool(false)
    ensures "listenersDirName" !in Spread(hookParams) ==> r["listenersDirName"] == Str("event-listeners")
  {
    DefaultParams + Spread(hookParams)
  }

  /** `s.replace(/ /g, '')`: every space removed, every other character kept
      in order. */
  function RemoveSpaces(s: string): (r: string)
    ensures |r| <= |s|
    ensures ' ' !in r
    ensures forall c :: c in r <==> c in s && c != ' '
    decreases |s|
  {
    if s == [] then []
    else if s[|s| - 1] == ' ' then RemoveSpaces(s[..|s| - 1])
    else RemoveSpaces(s[..|s| - 1]) + [s[|s| - 1]]
  }

  /** Removing the spaces of a concatenation removes them from each part. */
  lemma {:induction false} RemoveSpacesAppend(a: string, b: string)
    ensures RemoveSpaces(a + b) == RemoveSpaces(a) + RemoveSpaces(b)
    decreases |b|
  {
    if b == [] {
      assert a + b == a;
    } else {
      var b' := b[..|b| - 1];
      assert (a + b)[..|a + b| - 1] == a + b';
      assert (a + b)[|a + b| - 1] == b[|b| - 1];
      RemoveSpacesAppend(a, b');
    }
  }

  /** A text without spaces is left as it is. */
  lemma {:induction false} RemoveSpacesKeeps(s: string)
    requires ' ' !in s
    ensures RemoveSpaces(s) == s
    decreases |s|
  {
    if s != [] {
      assert ' ' !in s[..|s| - 1];
      RemoveSpacesKeeps(s[..|s| - 1]);
      assert s[..|s| - 1] + [s[|s| - 1]] == s;
    }
  }

  /** Removing spaces twice is removing them once. */
  lemma RemoveSpacesIdempotent(s: string)
    ensures RemoveSpaces(RemoveSpaces(s)) == RemoveSpaces(s)
  {
    RemoveSpacesKeeps(RemoveSpaces(s));
  }

  /** The authorizer a listener is protected by. */
  function Authorizer(mustHaveClient: Value): (r: string)
    ensures r == ServiceAuthorizer <==> Truthy(mustHaveClient)
    ensures r == ServiceNoClientAuthorizer <==> !Truthy(mustHaveClient)
  {
    if Truthy(mustHaveClient) then ServiceAuthorizer else ServiceNoClientAuthorizer
  }

  /** The name of the function: both names title-cased, then `Listener`,
      with no space. */
  function ListenerName(entityTitle: string, eventTitle: string): (r: string)
    ensures ' ' !in r
    ensures r == RemoveSpaces(entityTitle) + RemoveSpaces(eventTitle) + "Listener"
  {
    RemoveSpacesAppend(entityTitle + eventTitle, "Listener");
    RemoveSpacesAppend(entityTitle, eventTitle);
    RemoveSpacesKeeps("Listener");
    RemoveSpaces(entityTitle + eventTitle + "Listener")
  }

  /** The authorizer reference of the serverless authorizers file. */
  function AuthorizerRef(authorizer: string): string
  {
    "${file(./serverless/functions/subtemplates/authorizers.yml):" + authorizer + "}"
  }

  /** The HTTP endpoint a listener receives: a POST on the listener's path,
      through the Lambda integration, behind `authorizer`. */
  function HttpEndpoint(path: string, authorizer: string): (r: Value)
    ensures r.Obj?
    ensures Get(r, "integration") == Str(Integration)
    ensures Get(r, "path") == Str(path)
    ensures Get(r, "method") == Str("post")
    ensures Get(r, "authorizer") == Str(AuthorizerRef(authorizer))
    ensures Get(Get(r, "request"), "template") == Str(RequestTemplate)
    ensures Get(r, "response") == Str(ResponseTemplate)
    ensures Get(r, "responses") == Str(OfflineResponseTemplate)
  {
    Obj(map[
      "integration" := Str(Integration),
      "path" := Str(path),
      "method" := Str("post"),
      "authorizer" := Str(AuthorizerRef(authorizer)),
      "request" := Single("template", Str(RequestTemplate)),
      "response" := Str(ResponseTemplate),
      "responses" := Str(OfflineResponseTemplate)])
  }

  /** The HTTP event of a listener: its endpoint under the one key `http`. */
  function HttpEvent(path: string, authorizer: string): (r: Value)
    ensures var http := Get(r, "http");
      && r.Obj? && r.fields.Keys == {"http"}
      && Get(http, "integration") == Str(Integration)
      && Get(http, "path") == Str(path)
      && Get(http, "method") == Str("post")
      && Get(http, "authorizer") == Str("${file(./serverless/functions/subtemplates/authorizers.yml):" + authorizer + "}")
      && Get(Get(http, "request"), "template") == Str(RequestTemplate)
      && Get(http, "response") == Str(ResponseTemplate)
      && Get(http, "responses") == Str(OfflineResponseTemplate)
  {
    Single("http", HttpEndpoint(path, authorizer))
  }

  /** A function definition with one event. */
  function ListenerFunction(handler: string, description: string, event: Value): (r: Value)
    ensures r.Obj? && r.fields.Keys == {"handler", "description", "events"}
    ensures Get(r, "handler") == Str(handler)
    ensures Get(r, "description") == Str(description)
    ensures Get(r, "events") == Arr([event])
  {
    Obj(map["handler" := Str(handler), "description" := Str(description), "events" := Arr([event])])
  }

  /** An object with the one key `key`. */
  function Single(key: string, v: Value): (r: Value)
    ensures r.Obj? && r.fields.Keys == {key}
    ensures Get(r, key) == v
  {
    Obj(map[key := v])
  }

  /** `eventListener`: the one-function object for the listener of
      `eventName` on `entityName`. The handler lives under
      `src/<listenersDirName>/<entity>/<event>` and the path is
      `/listener/<entity>/<event>`, both in kebab case. */
  function Listener(cases: LodashCase, params: map<string, Value>): (r: Value)
    ensures var entity := Get(Obj(params), "entityName"); var event := Get(Obj(params), "eventName");
      var name := RemoveSpaces(cases.startCase(entity)) + RemoveSpaces(cases.startCase(event)) + "Listener";
      var path := cases.kebabCase(entity) + "/" + cases.kebabCase(event);
      var f := Get(r, name);
      && r.Obj? && r.fields.Keys == {name}
      && Get(f, "handler") == Str("src/" + Display(Get(Obj(params), "listenersDirName")) + "/" + path + ".handler")
      && Get(f, "description") == Str(cases.startCase(entity) + " " + cases.startCase(event) + " Listener")
      && Get(f, "events") == Arr([HttpEvent("/listener/" + path, Authorizer(Get(Obj(params), "mustHaveClient")))])
  {
    var entity := Get(Obj(params), "entityName");
    var event := Get(Obj(params), "eventName");
    var entityTitle := cases.startCase(entity);
    var eventTitle := cases.startCase(event);
    var path := cases.kebabCase(entity) + "/" + cases.kebabCase(event);
    var authorizer := Authorizer(Get(Obj(params), "mustHaveClient"));
    var handler := "src/" + Display(Get(Obj(params), "listenersDirName")) + "/" + path + ".handler";
    var description := entityTitle + " " + eventTitle + " Listener";
    var http := HttpEvent("/listener/" + path, authorizer);
    Single(ListenerName(entityTitle, eventTitle), ListenerFunction(handler, description, http))
  }

  /** Spreading a string: one one-character string per character. */
  function Characters(s: string): (r: seq<Value>)
    ensures |r| == |s|
    ensures forall i :: 0 <= i < |s| ==> r[i] == Str([s[i]])
  {
    if s == [] then [] else [Str([s[0]])] + Characters(s[1..])
  }

  /** `[...(functions || [])]`: an array's items, nothing for a falsy value,
      one string per character for a string, and a `TypeError` for any other
      value. */
  function ExistingFunctions(functions: Value): (r: Option<seq<Value>>)
    ensures functions.Arr? ==> r == Some(functions.items)
    ensures !Truthy(functions) ==> r == Some([])
    ensures functions.Str? ==> r == Some(Characters(functions.s))
    ensures r.None? <==> functions.Obj? || (functions.Num? && functions.n != 0) || functions == Bool(true)
  {
    match functions
    case Arr(items) => Some(items)
    case Str(s) => Some(Characters(s))
    case _ => if Truthy(functions) then None else Some([])
  }

  /** The hook: checks `entityName` and then `eventName`, then returns the
      service configuration with the listener appended to its functions and
      every other key kept. */
  function EventListenerHook(cases: LodashCase, serviceConfig: map<string, Value>, hookParams: Value)
    : (r: Result<map<string, Value>, ListenerError>)
    ensures var params := Params(hookParams);
      && (r == Failure(MissingEntityName) <==> !Truthy(Get(Obj(params), "entityName")))
      && (r == Failure(MissingEventName) <==>
            Truthy(Get(Obj(params), "entityName")) && !Truthy(Get(Obj(params), "eventName")))
    ensures var functions := Get(Obj(serviceConfig), "functions");
      r.Success? <==>
        Truthy(Get(Obj(Params(hookParams)), "entityName")) && Truthy(Get(Obj(Params(hookParams)), "eventName"))
        && ExistingFunctions(functions).Some?
    ensures r.Success? ==>
      && r.value.Keys == serviceConfig.Keys + {"functions"}
      && (forall k :: k in serviceConfig && k != "functions" ==> r.value[k] == serviceConfig[k])
      && r.value["functions"]
           == Arr(ExistingFunctions(Get(Obj(serviceConfig), "functions")).value + [Listener(cases, Params(hookParams))])
  {
    var params := Params(hookParams);
    if !Truthy(Get(Obj(params), "entityName")) then Failure(MissingEntityName)
    else if !Truthy(Get(Obj(params), "eventName")) then Failure(MissingEventName)
    else
      match ExistingFunctions(Get(Obj(serviceConfig), "functions"))
      case None => Failure(FunctionsNotIterable)
      case Some(existing) =>
        Success(WithFunctions(serviceConfig, existing + [Listener(cases, params)]))
  }

  /** `{ ...rest, functions }` where `rest` is the configuration without its
      own `functions`. */
  function WithFunctions(config: map<string, Value>, functions: seq<Value>): (r: map<string, Value>)
    ensures r.Keys == config.Keys + {"functions"}
    ensures forall k :: k in config && k != "functions" ==> r[k] == config[k]
    ensures r["functions"] == Arr(functions)
  {
    var rest := map k | k in config && k != "functions" :: config[k];
    rest + map["functions" := Arr(functions)]
  }
}
