/**
 * The generated resource handlers (`<Resource>Handler` in each
 * gen/provider/<resource> package). Every generated handler has the same
 * shape: four optional capabilities (getter, creator, updator, deleter) and an
 * optional close function. Each operation checks that its capability is
 * present, parses the identifier (and, for create and update, the config), and
 * only then calls the capability, turning its result into a resource value.
 *
 * A handler is modelled over the typed identifier `I`, config `C` and
 * resource `R` of its package; the capabilities are functions supplied by the
 * internal client, and `Option` stands for a nil interface.
 */
module Handlers {
  import opened Errors
  import opened Values

  /** The capabilities of a generated handler; `None` is a nil field. */
  datatype Handler<!I, !C, R> = Handler(
    getter: Option<I -> Result<R>>,
    creator: Option<(I, C) -> Result<R>>,
    updator: Option<(I, C, seq<MaskField>) -> Result<R>>,
    deleter: Option<I -> Option<Error>>,
    closeFunc: Option<() -> Option<Error>>)

  /** What a package supplies to its handler: its two parsers and `ToResourceValue`. */
  datatype Codec<I, C, !R> = Codec(
    parseIdentifier: Identifier -> Result<I>,
    parseConfig: Value -> Result<C>,
    toResourceValue: R -> Resource)

  /**
   * GetResource: "unimplemented" without a getter, whatever the identifier;
   * an identifier that does not parse is returned as is; otherwise the
   * getter's failure, or its resource as a value.
   */
  function GetResource<I, C, R>(h: Handler<I, C, R>, codec: Codec<I, C, R>, id: Identifier): (r: Result<Resource>)
    ensures h.getter.None? ==> r == Err(Unimplemented)
    ensures h.getter.Some? && codec.parseIdentifier(id).Err? ==> r == Err(codec.parseIdentifier(id).error)
    ensures r.Ok? <==> h.getter.Some? && codec.parseIdentifier(id).Ok? &&
                       h.getter.value(codec.parseIdentifier(id).value).Ok?
    ensures r.Ok? ==> r.value == codec.toResourceValue(h.getter.value(codec.parseIdentifier(id).value).value)
  {
    if h.getter.None? then Err(Unimplemented)
    else
      var idVal :- codec.parseIdentifier(id);
      var res :- h.getter.value(idVal);
      Ok(codec.toResourceValue(res))
  }

  /**
   * CreateResource: capability check, then the identifier, then the config;
   * the creator sees both parsed values.
   */
  function CreateResource<I, C, R>(h: Handler<I, C, R>, codec: Codec<I, C, R>, id: Identifier, config: Value): (r: Result<Resource>)
    ensures h.creator.None? ==> r == Err(Unimplemented)
    ensures h.creator.Some? && codec.parseIdentifier(id).Err? ==> r == Err(codec.parseIdentifier(id).error)
    ensures h.creator.Some? && codec.parseIdentifier(id).Ok? && codec.parseConfig(config).Err? ==>
              r == Err(codec.parseConfig(config).error)
    ensures r.Ok? <==> h.creator.Some? && codec.parseIdentifier(id).Ok? && codec.parseConfig(config).Ok? &&
                       h.creator.value(codec.parseIdentifier(id).value, codec.parseConfig(config).value).Ok?
    ensures r.Ok? ==> r.value == codec.toResourceValue(
              h.creator.value(codec.parseIdentifier(id).value, codec.parseConfig(config).value).value)
  {
    if h.creator.None? then Err(Unimplemented)
    else
      var idVal :- codec.parseIdentifier(id);
      var configVal :- codec.parseConfig(config);
      var res :- h.creator.value(idVal, configVal);
      Ok(codec.toResourceValue(res))
  }

  /** UpdateResource: as CreateResource, and the mask reaches the updator unchanged. */
  function UpdateResource<I, C, R>(h: Handler<I, C, R>, codec: Codec<I, C, R>, id: Identifier, config: Value,
                                   mask: seq<MaskField>): (r: Result<Resource>)
    ensures h.updator.None? ==> r == Err(Unimplemented)
    ensures h.updator.Some? && codec.parseIdentifier(id).Err? ==> r == Err(codec.parseIdentifier(id).error)
    ensures h.updator.Some? && codec.parseIdentifier(id).Ok? && codec.parseConfig(config).Err? ==>
              r == Err(codec.parseConfig(config).error)
    ensures r.Ok? <==> h.updator.Some? && codec.parseIdentifier(id).Ok? && codec.parseConfig(config).Ok? &&
                       h.updator.value(codec.parseIdentifier(id).value, codec.parseConfig(config).value, mask).Ok?
    ensures r.Ok? ==> r.value == codec.toResourceValue(
              h.updator.value(codec.parseIdentifier(id).value, codec.parseConfig(config).value, mask).value)
  {
    if h.updator.None? then Err(Unimplemented)
    else
      var idVal :- codec.parseIdentifier(id);
      var configVal :- codec.parseConfig(config);
      var res :- h.updator.value(idVal, configVal, mask);
      Ok(codec.toResourceValue(res))
  }

  /** DeleteResource: capability check, identifier, then the deleter's error or nil. */
  function DeleteResource<I, C, R>(h: Handler<I, C, R>, codec: Codec<I, C, R>, id: Identifier): (r: Option<Error>)
    ensures h.deleter.None? ==> r == Some(Unimplemented)
    ensures h.deleter.Some? && codec.parseIdentifier(id).Err? ==> r == Some(codec.parseIdentifier(id).error)
    ensures h.deleter.Some? && codec.parseIdentifier(id).Ok? ==> r == h.deleter.value(codec.parseIdentifier(id).value)
  {
    if h.deleter.None? then Some(Unimplemented)
    else
      match codec.parseIdentifier(id)
      case Err(e) => Some(e)
      case Ok(idVal) => h.deleter.value(idVal)
  }

  /** Close: the close function's error when one is set, nil otherwise. */
  function Close<I, C, R>(h: Handler<I, C, R>): (r: Option<Error>)
    ensures h.closeFunc.None? ==> r == None
    ensures h.closeFunc.Some? ==> r == h.closeFunc.value()
  {
    if h.closeFunc.Some? then h.closeFunc.value() else None
  }

  // ---------------------------------------------------------------------------
  // The capability is consulted only after both parses succeed: replacing it
  // changes nothing when a parse fails.

  lemma GetParseFailureSkipsGetter<I, C, R>(h1: Handler<I, C, R>, h2: Handler<I, C, R>, codec: Codec<I, C, R>, id: Identifier)
    requires h1.getter.Some? && h2.getter.Some?
    requires codec.parseIdentifier(id).Err?
    ensures GetResource(h1, codec, id) == GetResource(h2, codec, id)
  {
  }

  lemma CreateParseFailureSkipsCreator<I, C, R>(h1: Handler<I, C, R>, h2: Handler<I, C, R>, codec: Codec<I, C, R>,
                                                id: Identifier, config: Value)
    requires h1.creator.Some? && h2.creator.Some?
    requires codec.parseIdentifier(id).Err? || codec.parseConfig(config).Err?
    ensures CreateResource(h1, codec, id, config) == CreateResource(h2, codec, id, config)
  {
  }

  lemma UpdateParseFailureSkipsUpdator<I, C, R>(h1: Handler<I, C, R>, h2: Handler<I, C, R>, codec: Codec<I, C, R>,
                                                id: Identifier, config: Value, mask: seq<MaskField>)
    requires h1.updator.Some? && h2.updator.Some?
    requires codec.parseIdentifier(id).Err? || codec.parseConfig(config).Err?
    ensures UpdateResource(h1, codec, id, config, mask) == UpdateResource(h2, codec, id, config, mask)
  {
  }

  lemma DeleteParseFailureSkipsDeleter<I, C, R>(h1: Handler<I, C, R>, h2: Handler<I, C, R>, codec: Codec<I, C, R>, id: Identifier)
    requires h1.deleter.Some? && h2.deleter.Some?
    requires codec.parseIdentifier(id).Err?
    ensures DeleteResource(h1, codec, id) == DeleteResource(h2, codec, id)
  {
  }
}
