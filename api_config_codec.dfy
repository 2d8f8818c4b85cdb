/**
 * The generated api_config package: attrs and config structs, their
 * encodings and decoders, and the resource handler. The config's OpenAPI
 * documents are a list of file handles.
 */
module ApiConfigCodec {
  import opened Errors
  import opened Values
  import opened Identifiers
  import Handlers

  datatype Attrs = Attrs(create: string, state: string, update: string)

  datatype Config = Config(displayName: string, openApiDocuments: seq<FileRef>)

  /** The typed resource: an api_config identifier with its config and attrs. */
  datatype ApiConfig = ApiConfig(identifier: ResourceIdentifier, config: Config, attrs: Attrs)

  const AttrsContext := "error parsing attrs for api_config"
  const ConfigContext := "error parsing config for api_config"

  /** Attrs.ToValue: a map with exactly the three attribute keys. */
  function AttrsToValue(a: Attrs): (v: Value)
    ensures v.Map? && v.entries.Keys == {"create", "state", "update"}
  {
    Map(map["create" := Str(a.create), "state" := Str(a.state), "update" := Str(a.update)])
  }

  /** ParseAttrs: a map whose three attribute keys hold strings. */
  function ParseAttrs(v: Value): (r: Result<Attrs>)
    ensures !v.Map? ==> r == Err(Context("error parsing attrs", NotAMap))
    ensures r.Ok? <==> v.Map? && HasString(v.entries, "create") && HasString(v.entries, "state") &&
                       HasString(v.entries, "update")
    ensures v.Map? && r.Err? ==> r == Err(Context(AttrsContext, NotAString))
    ensures r.Ok? ==> r.value == Attrs(v.entries["create"].s, v.entries["state"].s, v.entries["update"].s)
  {
    var m :- WithContext(AsMap(v), "error parsing attrs");
    var create :- StringField(m, "create", AttrsContext);
    var state :- StringField(m, "state", AttrsContext);
    var update :- StringField(m, "update", AttrsContext);
    Ok(Attrs(create, state, update))
  }

  lemma AttrsRoundTrip(a: Attrs)
    ensures ParseAttrs(AttrsToValue(a)) == Ok(a)
  {
  }

  /** Config.ToValue: the display name and the documents as a list of files, in order. */
  function ConfigToValue(c: Config): (v: Value)
    ensures v.Map? && v.entries.Keys == {"display_name", "open_api_documents"}
    ensures v.entries["open_api_documents"].List? && |v.entries["open_api_documents"].items| == |c.openApiDocuments|
  {
    Map(map["display_name" := Str(c.displayName), "open_api_documents" := FileList(c.openApiDocuments)])
  }

  /** ParseConfig: the display name, then the list of files. */
  function ParseConfig(v: Value): (r: Result<Config>)
    ensures !v.Map? ==> r == Err(Context("error parsing config", NotAMap))
    ensures r.Ok? <==> v.Map? && HasString(v.entries, "display_name") &&
                       AsFileList(Get(v.entries, "open_api_documents")).Ok?
    ensures v.Map? && !HasString(v.entries, "display_name") ==> r == Err(Context(ConfigContext, NotAString))
    ensures v.Map? && HasString(v.entries, "display_name") && r.Err? ==> r == Err(Context(ConfigContext, NotAFileList))
    ensures r.Ok? ==> r.value.displayName == v.entries["display_name"].s &&
                      |r.value.openApiDocuments| == |v.entries["open_api_documents"].items|
    ensures r.Ok? ==> AsFileList(v.entries["open_api_documents"]) == Ok(r.value.openApiDocuments)
  {
    var m :- WithContext(AsMap(v), "error parsing config");
    var displayName :- StringField(m, "display_name", ConfigContext);
    var docs :- WithContext(AsFileList(Get(m, "open_api_documents")), ConfigContext);
    Ok(Config(displayName, docs))
  }

  /** The display name and the ordered list of files survive encoding. */
  lemma ConfigRoundTrip(c: Config)
    ensures ParseConfig(ConfigToValue(c)) == Ok(c)
  {
  }

  /** ApiConfig.ToResourceValue */
  function ToResourceValue(x: ApiConfig): (r: Resource)
    ensures r.identifier == ToValue(x.identifier)
    ensures r.config == ConfigToValue(x.config) && r.attrs == AttrsToValue(x.attrs)
  {
    Resource(ToValue(x.identifier), ConfigToValue(x.config), AttrsToValue(x.attrs))
  }

  /** The config and attrs of the resource value a handler reports read back as they were. */
  lemma ResourceRoundTrip(x: ApiConfig)
    ensures ParseConfig(ToResourceValue(x).config) == Ok(x.config)
    ensures ParseAttrs(ToResourceValue(x).attrs) == Ok(x.attrs)
  {
    ConfigRoundTrip(x.config);
    AttrsRoundTrip(x.attrs);
  }

  /**
   * The handler's parsers. The identifier parser resolves the nested api and
   * service account through the source's identifier table.
   */
  function HandlerCodec(): Handlers.Codec<ResourceIdentifier, Config, ApiConfig> {
    Handlers.Codec((id: Identifier) => ParseApiConfigIdentifier(SourceRegistry, id), ParseConfig, ToResourceValue)
  }

  /**
   * Through the generated handler, a getter is reached only with an api
   * config identifier whose nested api is one of the source table's kinds, so
   * never with the api identifier the internal client requires.
   */
  lemma GetHandlerNestedApi(h: Handlers.Handler<ResourceIdentifier, Config, ApiConfig>, id: Identifier)
    requires h.getter.Some?
    requires Handlers.GetResource(h, HandlerCodec(), id).Ok?
    ensures HandlerCodec().parseIdentifier(id).Ok?
    ensures var x := HandlerCodec().parseIdentifier(id).value;
            x.ApiConfigId? && ResourceType(x.api) in SourceRegistry && !x.api.ApiId?
  {
    var x := HandlerCodec().parseIdentifier(id).value;
    assert ParseApiConfigIdentifier(SourceRegistry, id) == Ok(x);
    assert ParseIdentifierIn(SourceRegistry, Get(id.body.entries, "api")) == Ok(x.api);
  }
}
