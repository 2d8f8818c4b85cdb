/**
 * The generated api_gateway package: the resource's attrs and config structs,
 * their `ToValue` encodings and `Parse*` decoders, the list decoders and the
 * resource handler.
 *
 * `ParseConfig` reads its `api_config` field through the provider's identifier
 * registry, whose table has no `api_config` entry; `ParseConfigIn` takes the
 * table as a parameter so that the code as written (`ParseConfig`) and the
 * evidently intended decoder (`ParseConfigComplete`) are both stated.
 */
module ApiGatewayCodec {
  import opened Errors
  import opened Values
  import opened Identifiers
  import Lists
  import Handlers

  datatype Attrs = Attrs(create: string, defaultHostname: string, state: string, update: string)

  datatype Config = Config(apiConfig: ResourceIdentifier, displayName: string, labels: map<string, string>)

  /** The typed resource: an api_gateway identifier with its config and attrs. */
  datatype ApiGateway = ApiGateway(identifier: ResourceIdentifier, config: Config, attrs: Attrs)

  const AttrsContext := "error parsing attrs for api_gateway"
  const ConfigContext := "error parsing config for api_gateway"

  /** Attrs.ToValue: a map with exactly the four attribute keys. */
  function AttrsToValue(a: Attrs): (v: Value)
    ensures v.Map? && v.entries.Keys == {"create", "default_hostname", "state", "update"}
  {
    Map(map["create" := Str(a.create), "default_hostname" := Str(a.defaultHostname),
            "state" := Str(a.state), "update" := Str(a.update)])
  }

  /**
   * ParseAttrs: a map whose four attribute keys hold strings; a non-map is
   * reported with the "error parsing attrs" context, a bad field with the
   * resource's own context.
   */
  function ParseAttrs(v: Value): (r: Result<Attrs>)
    ensures !v.Map? ==> r == Err(Context("error parsing attrs", NotAMap))
    ensures r.Ok? <==> v.Map? && HasString(v.entries, "create") && HasString(v.entries, "default_hostname") &&
                       HasString(v.entries, "state") && HasString(v.entries, "update")
    ensures v.Map? && r.Err? ==> r == Err(Context(AttrsContext, NotAString))
    ensures r.Ok? ==> r.value == Attrs(v.entries["create"].s, v.entries["default_hostname"].s,
                                       v.entries["state"].s, v.entries["update"].s)
  {
    var m :- WithContext(AsMap(v), "error parsing attrs");
    var create :- StringField(m, "create", AttrsContext);
    var defaultHostname :- StringField(m, "default_hostname", AttrsContext);
    var state :- StringField(m, "state", AttrsContext);
    var update :- StringField(m, "update", AttrsContext);
    Ok(Attrs(create, defaultHostname, state, update))
  }

  lemma AttrsRoundTrip(a: Attrs)
    ensures ParseAttrs(AttrsToValue(a)) == Ok(a)
  {
  }

  /** Config.ToValue: a map with exactly the three config keys, the api config as its identifier value. */
  function ConfigToValue(c: Config): (v: Value)
    ensures v.Map? && v.entries.Keys == {"api_config", "display_name", "labels"}
    ensures v.entries["api_config"] == Ident(ToValue(c.apiConfig))
  {
    Map(map["api_config" := Ident(ToValue(c.apiConfig)), "display_name" := Str(c.displayName),
            "labels" := StringMap(c.labels)])
  }

  /**
   * ParseConfig over an identifier table: the api config through the table,
   * then the display name, then the labels; the first failure is the result.
   */
  function ParseConfigIn(registry: set<string>, v: Value): (r: Result<Config>)
    ensures !v.Map? ==> r == Err(Context("error parsing config", NotAMap))
    ensures v.Map? && ParseIdentifierIn(registry, Get(v.entries, "api_config")).Err? ==>
              r == Err(Context(ConfigContext, ParseIdentifierIn(registry, Get(v.entries, "api_config")).error))
    ensures r.Ok? <==> v.Map? && ParseIdentifierIn(registry, Get(v.entries, "api_config")).Ok? &&
                       HasString(v.entries, "display_name") && AsStringMap(Get(v.entries, "labels")).Ok?
    ensures r.Ok? ==> r.value == Config(ParseIdentifierIn(registry, v.entries["api_config"]).value,
                                        v.entries["display_name"].s, AsStringMap(v.entries["labels"]).value)
  {
    var m :- WithContext(AsMap(v), "error parsing config");
    var apiConfig :- WithContext(ParseIdentifierIn(registry, Get(m, "api_config")), ConfigContext);
    var displayName :- StringField(m, "display_name", ConfigContext);
    var labels :- WithContext(AsStringMap(Get(m, "labels")), ConfigContext);
    Ok(Config(apiConfig, displayName, labels))
  }

  /** ParseConfig as generated: the api config goes through the source's four-entry table. */
  function ParseConfig(v: Value): (r: Result<Config>)
    ensures r.Ok? ==> ResourceType(r.value.apiConfig) in SourceRegistry
  {
    ParseConfigIn(SourceRegistry, v)
  }

  /**
   * ParseConfig with every identifier kind in the table: the config parses
   * exactly when its fields do, and the api config keeps the tag it was read from.
   */
  function ParseConfigComplete(v: Value): (r: Result<Config>)
    ensures r.Ok? <==> v.Map? && ParseIdentifierIn(AllResourceTypes, Get(v.entries, "api_config")).Ok? &&
                       HasString(v.entries, "display_name") && AsStringMap(Get(v.entries, "labels")).Ok?
    ensures r.Ok? ==> v.Map? && v.entries["api_config"].Ident? &&
                      ResourceType(r.value.apiConfig) == v.entries["api_config"].id.resourceType
  {
    ParseConfigIn(AllResourceTypes, v)
  }

  /** Over any table, ParseConfig reads back ToValue exactly when the api config resolves in it. */
  lemma ConfigRoundTripIn(registry: set<string>, c: Config)
    ensures ParseConfigIn(registry, ConfigToValue(c)).Ok? <==> ResolvableIn(registry, c.apiConfig)
    ensures ResolvableIn(registry, c.apiConfig) ==> ParseConfigIn(registry, ConfigToValue(c)) == Ok(c)
  {
    RegistryRoundTrip(registry, c.apiConfig);
  }

  /**
   * As written, no config whose api config is an api config identifier (the
   * only kind the gateway client accepts) survives its own encoding: the
   * registry rejects the tag.
   */
  lemma ParseConfigRejectsApiConfig(c: Config)
    requires c.apiConfig.ApiConfigId?
    ensures ParseConfig(ConfigToValue(c)) == Err(Context(ConfigContext, InvalidResourceType("api_config")))
  {
  }

  /** With the complete table every config with its service accounts set round-trips. */
  lemma ConfigRoundTripComplete(c: Config)
    requires HasServiceAccounts(c.apiConfig)
    ensures ParseConfigComplete(ConfigToValue(c)) == Ok(c)
  {
    AllResolvable(c.apiConfig);
    ConfigRoundTripIn(AllResourceTypes, c);
  }

  /** ParseAttrsList: the elements in order, or the first failing element's error. */
  method ParseAttrsList(v: Value) returns (r: Result<seq<Attrs>>)
    ensures !v.List? ==> r == Err(InvalidListType)
    ensures r.Ok? ==> v.List? && |r.value| == |v.items| &&
                      forall k :: 0 <= k < |v.items| ==> ParseAttrs(v.items[k]) == Ok(r.value[k])
    ensures v.List? ==> (r.Ok? <==> forall k :: 0 <= k < |v.items| ==> ParseAttrs(v.items[k]).Ok?)
    ensures v.List? && r.Err? ==>
              exists k :: 0 <= k < |v.items| && ParseAttrs(v.items[k]).Err? && r.error == ParseAttrs(v.items[k]).error &&
                          forall j :: 0 <= j < k ==> ParseAttrs(v.items[j]).Ok?
    ensures v.List? ==> r == Lists.ParseAll(v.items, ParseAttrs)
  {
    r := Lists.ParseList(v, ParseAttrs);
    if v.List? {
      Lists.ParseAllCases(v.items, ParseAttrs);
    }
  }

  /**
   * ParseConfigList, as generated (the source's identifier table): the
   * elements in order, or the first failing element's error.
   */
  method ParseConfigList(v: Value) returns (r: Result<seq<Config>>)
    ensures !v.List? ==> r == Err(InvalidListType)
    ensures r.Ok? ==> v.List? && |r.value| == |v.items| &&
                      forall k :: 0 <= k < |v.items| ==> ParseConfig(v.items[k]) == Ok(r.value[k])
    ensures v.List? ==> (r.Ok? <==> forall k :: 0 <= k < |v.items| ==> ParseConfig(v.items[k]).Ok?)
    ensures v.List? && r.Err? ==>
              exists k :: 0 <= k < |v.items| && ParseConfig(v.items[k]).Err? && r.error == ParseConfig(v.items[k]).error &&
                          forall j :: 0 <= j < k ==> ParseConfig(v.items[j]).Ok?
    ensures v.List? ==> r == Lists.ParseAll(v.items, ParseConfig)
  {
    r := Lists.ParseList(v, ParseConfig);
    if v.List? {
      Lists.ParseAllCases(v.items, ParseConfig);
    }
  }

  /** ApiGateway.ToResourceValue */
  function ToResourceValue(x: ApiGateway): (r: Resource)
    ensures r.identifier == ToValue(x.identifier)
    ensures r.config == ConfigToValue(x.config) && r.attrs == AttrsToValue(x.attrs)
  {
    Resource(ToValue(x.identifier), ConfigToValue(x.config), AttrsToValue(x.attrs))
  }

  /**
   * The resource value a handler reports: the identifier and attrs read back,
   * and so does the config with the complete table; with the generated
   * parser a config naming an api config identifier does not.
   */
  lemma ResourceRoundTrip(x: ApiGateway)
    ensures x.identifier.ApiGatewayId? ==> ParseApiGatewayIdentifier(ToResourceValue(x).identifier) == Ok(x.identifier)
    ensures ParseAttrs(ToResourceValue(x).attrs) == Ok(x.attrs)
    ensures HasServiceAccounts(x.config.apiConfig) ==> ParseConfigComplete(ToResourceValue(x).config) == Ok(x.config)
    ensures x.config.apiConfig.ApiConfigId? ==>
              ParseConfig(ToResourceValue(x).config) == Err(Context(ConfigContext, InvalidResourceType("api_config")))
  {
    if x.identifier.ApiGatewayId? {
      ApiGatewayRoundTrip(x.identifier);
    }
    AttrsRoundTrip(x.attrs);
    if HasServiceAccounts(x.config.apiConfig) {
      ConfigRoundTripComplete(x.config);
    }
    if x.config.apiConfig.ApiConfigId? {
      ParseConfigRejectsApiConfig(x.config);
    }
  }

  /** The handler's parsers: identifier.ParseApiGatewayIdentifier and ParseConfig. */
  function HandlerCodec(): Handlers.Codec<ResourceIdentifier, Config, ApiGateway> {
    Handlers.Codec(ParseApiGatewayIdentifier, ParseConfig, ToResourceValue)
  }

  /**
   * With the generated parsers, an update handler reaches its updator only
   * when the api config is resolvable in the source's table, so never with an
   * api config identifier.
   */
  lemma UpdateHandlerRejectsApiConfig(h: Handlers.Handler<ResourceIdentifier, Config, ApiGateway>,
                                      gateway: ResourceIdentifier, c: Config, mask: seq<MaskField>)
    requires h.updator.Some? && gateway.ApiGatewayId? && c.apiConfig.ApiConfigId?
    ensures Handlers.UpdateResource(h, HandlerCodec(), ToValue(gateway), ConfigToValue(c), mask)
         == Err(Context(ConfigContext, InvalidResourceType("api_config")))
  {
    ParseConfigRejectsApiConfig(c);
  }

  /**
   * A handler built with the complete table hands the updator the identifier
   * and config that were encoded: the updator's error comes back unchanged,
   * and its resource comes back in value form.
   */
  lemma UpdateHandlerCompleteRoundTrip(h: Handlers.Handler<ResourceIdentifier, Config, ApiGateway>,
                                       gateway: ResourceIdentifier, c: Config, mask: seq<MaskField>)
    requires h.updator.Some? && gateway.ApiGatewayId? && HasServiceAccounts(c.apiConfig)
    ensures h.updator.value(gateway, c, mask).Err? ==>
              Handlers.UpdateResource(h, Handlers.Codec(ParseApiGatewayIdentifier, ParseConfigComplete, ToResourceValue),
                                      ToValue(gateway), ConfigToValue(c), mask)
                == Err(h.updator.value(gateway, c, mask).error)
    ensures h.updator.value(gateway, c, mask).Ok? ==>
              Handlers.UpdateResource(h, Handlers.Codec(ParseApiGatewayIdentifier, ParseConfigComplete, ToResourceValue),
                                      ToValue(gateway), ConfigToValue(c), mask)
                == Ok(ToResourceValue(h.updator.value(gateway, c, mask).value))
  {
    ConfigRoundTripComplete(c);
    ApiGatewayRoundTrip(gateway);
  }
}
