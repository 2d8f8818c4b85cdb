/**
 * The generated bucket package: attrs and config structs, their encodings
 * and decoders, the list decoders and the resource handler.
 */
module BucketCodec {
  import opened Errors
  import opened Values
  import opened Identifiers
  import Lists
  import Handlers

  datatype Attrs = Attrs(create: string, etag: string)

  datatype Config = Config(labels: map<string, string>)

  /** The typed resource: a bucket identifier with its config and attrs. */
  datatype Bucket = Bucket(identifier: ResourceIdentifier, config: Config, attrs: Attrs)

  const AttrsContext := "error parsing attrs for bucket"
  const ConfigContext := "error parsing config for bucket"

  /** Attrs.ToValue: a map with exactly the keys create and etag. */
  function AttrsToValue(a: Attrs): (v: Value)
    ensures v.Map? && v.entries.Keys == {"create", "etag"}
  {
    Map(map["create" := Str(a.create), "etag" := Str(a.etag)])
  }

  /** ParseAttrs: a map whose create and etag keys hold strings. */
  function ParseAttrs(v: Value): (r: Result<Attrs>)
    ensures !v.Map? ==> r == Err(Context("error parsing attrs", NotAMap))
    ensures r.Ok? <==> v.Map? && HasString(v.entries, "create") && HasString(v.entries, "etag")
    ensures v.Map? && r.Err? ==> r == Err(Context(AttrsContext, NotAString))
    ensures r.Ok? ==> r.value == Attrs(v.entries["create"].s, v.entries["etag"].s)
  {
    var m :- WithContext(AsMap(v), "error parsing attrs");
    var create :- StringField(m, "create", AttrsContext);
    var etag :- StringField(m, "etag", AttrsContext);
    Ok(Attrs(create, etag))
  }

  lemma AttrsRoundTrip(a: Attrs)
    ensures ParseAttrs(AttrsToValue(a)) == Ok(a)
  {
  }

  /** Config.ToValue: a map whose only key is labels, holding the labels as strings. */
  function ConfigToValue(c: Config): (v: Value)
    ensures v.Map? && v.entries.Keys == {"labels"}
    ensures AsStringMap(v.entries["labels"]) == Ok(c.labels)
  {
    Map(map["labels" := StringMap(c.labels)])
  }

  /** ParseConfig: a map whose labels entry is a map of strings. */
  function ParseConfig(v: Value): (r: Result<Config>)
    ensures !v.Map? ==> r == Err(Context("error parsing config", NotAMap))
    ensures r.Ok? <==> v.Map? && AsStringMap(Get(v.entries, "labels")).Ok?
    ensures v.Map? && r.Err? ==> r == Err(Context(ConfigContext, NotAStringMap))
    ensures r.Ok? ==> r.value.labels.Keys == v.entries["labels"].entries.Keys &&
                      forall k :: k in r.value.labels ==> v.entries["labels"].entries[k] == Str(r.value.labels[k])
  {
    var m :- WithContext(AsMap(v), "error parsing config");
    var labels :- WithContext(AsStringMap(Get(m, "labels")), ConfigContext);
    Ok(Config(labels))
  }

  lemma ConfigRoundTrip(c: Config)
    ensures ParseConfig(ConfigToValue(c)) == Ok(c)
  {
  }

  /** ParseAttrsList: the elements in order, or the first failing element's error. */
  method ParseAttrsList(v: Value) returns (r: Result<seq<Attrs>>)
    ensures !v.List? ==> r == Err(InvalidListType)
    ensures r.Ok? ==> v.List? && |r.value| == |v.items| &&
                      forall k :: 0 <= k < |v.items| ==> ParseAttrs(v.items[k]) == Ok(r.value[k])
    ensures v.List? ==> (r.Ok? <==> forall k :: 0 <= k < |v.items| ==> ParseAttrs(v.items[k]).Ok?)
    ensures v.List? && r.Err? ==>
              exists k :: 0 <= k < |v.items| && ParseAttrs(v.items[k]).Err? && r.error == ParseAttrs(v.items[k]).error &&
                          forall j :: 0 <= j < k ==> ParseAttrs(v.items[j]).Ok?
    ensures v.List? ==> r == Lists.ParseAll(v.items, ParseAttrs)
  {
    r := Lists.ParseList(v, ParseAttrs);
    if v.List? {
      Lists.ParseAllCases(v.items, ParseAttrs);
    }
  }

  /** ParseConfigList: the elements in order, or the first failing element's error. */
  method ParseConfigList(v: Value) returns (r: Result<seq<Config>>)
    ensures !v.List? ==> r == Err(InvalidListType)
    ensures r.Ok? ==> v.List? && |r.value| == |v.items| &&
                      forall k :: 0 <= k < |v.items| ==> ParseConfig(v.items[k]) == Ok(r.value[k])
    ensures v.List? ==> (r.Ok? <==> forall k :: 0 <= k < |v.items| ==> ParseConfig(v.items[k]).Ok?)
    ensures v.List? && r.Err? ==>
              exists k :: 0 <= k < |v.items| && ParseConfig(v.items[k]).Err? && r.error == ParseConfig(v.items[k]).error &&
                          forall j :: 0 <= j < k ==> ParseConfig(v.items[j]).Ok?
    ensures v.List? ==> r == Lists.ParseAll(v.items, ParseConfig)
  {
    r := Lists.ParseList(v, ParseConfig);
    if v.List? {
      Lists.ParseAllCases(v.items, ParseConfig);
    }
  }

  /** Bucket.ToResourceValue */
  function ToResourceValue(x: Bucket): (r: Resource)
    ensures r.identifier == ToValue(x.identifier)
    ensures r.config == ConfigToValue(x.config) && r.attrs == AttrsToValue(x.attrs)
  {
    Resource(ToValue(x.identifier), ConfigToValue(x.config), AttrsToValue(x.attrs))
  }

  /** The resource value a handler reports reads back as the bucket it came from. */
  lemma ResourceRoundTrip(x: Bucket)
    ensures x.identifier.BucketId? ==> ParseBucketIdentifier(ToResourceValue(x).identifier) == Ok(x.identifier)
    ensures ParseConfig(ToResourceValue(x).config) == Ok(x.config)
    ensures ParseAttrs(ToResourceValue(x).attrs) == Ok(x.attrs)
  {
    if x.identifier.BucketId? {
      BucketRoundTrip(x.identifier);
    }
    ConfigRoundTrip(x.config);
    AttrsRoundTrip(x.attrs);
  }

  function HandlerCodec(): Handlers.Codec<ResourceIdentifier, Config, Bucket> {
    Handlers.Codec(ParseBucketIdentifier, ParseConfig, ToResourceValue)
  }

  /** An encoded bucket identifier and config reach the creator as they were. */
  lemma CreateHandlerRoundTrip(h: Handlers.Handler<ResourceIdentifier, Config, Bucket>, id: ResourceIdentifier, c: Config)
    requires h.creator.Some? && id.BucketId?
    ensures Handlers.CreateResource(h, HandlerCodec(), ToValue(id), ConfigToValue(c))
         == (match h.creator.value(id, c)
             case Ok(b) => Ok(ToResourceValue(b))
             case Err(e) => Err(e))
  {
    BucketRoundTrip(id);
    ConfigRoundTrip(c);
  }
}
