/**
 * The generated service_account package: attrs and config structs, their
 * encodings and decoders, and the resource handler (which has no close
 * function). Unlike the other generated decoders, these two report no error:
 * a value of the wrong shape decodes to the zero struct.
 */
module ServiceAccountCodec {
  import opened Errors
  import opened Values
  import opened Identifiers
  import Handlers

  datatype ServiceAccountAttrs = ServiceAccountAttrs(uniqueId: string, disabled: bool)

  datatype ServiceAccountConfig = ServiceAccountConfig(displayName: string, description: string)

  /** The typed resource: a service_account identifier with its config and attrs. */
  datatype ServiceAccount = ServiceAccount(identifier: ResourceIdentifier, config: ServiceAccountConfig,
                                           attrs: ServiceAccountAttrs)

  const ZeroAttrs := ServiceAccountAttrs("", false)
  const ZeroConfig := ServiceAccountConfig("", "")

  /** ServiceAccountAttrs.ToValue: a map with exactly the keys unique_id and disabled. */
  function AttrsToValue(a: ServiceAccountAttrs): (v: Value)
    ensures v.Map? && v.entries.Keys == {"unique_id", "disabled"}
  {
    Map(map["unique_id" := Str(a.uniqueId), "disabled" := Bool(a.disabled)])
  }

  /**
   * ParseServiceAccountAttrs: the string unique_id and boolean disabled of a
   * map; anything else is the zero struct, never an error.
   */
  function ParseAttrs(v: Value): (r: Result<ServiceAccountAttrs>)
    ensures r.Ok?
    ensures v.Map? && HasString(v.entries, "unique_id") && Get(v.entries, "disabled").Bool? ==>
              r.value == ServiceAccountAttrs(v.entries["unique_id"].s, v.entries["disabled"].b)
    ensures !(v.Map? && HasString(v.entries, "unique_id") && Get(v.entries, "disabled").Bool?) ==>
              r.value == ZeroAttrs
  {
    match AsMap(v)
    case Err(_) => Ok(ZeroAttrs)
    case Ok(m) =>
      match AsString(Get(m, "unique_id"))
      case Err(_) => Ok(ZeroAttrs)
      case Ok(uniqueId) =>
        match AsBool(Get(m, "disabled"))
        case Err(_) => Ok(ZeroAttrs)
        case Ok(disabled) => Ok(ServiceAccountAttrs(uniqueId, disabled))
  }

  lemma AttrsRoundTrip(a: ServiceAccountAttrs)
    ensures ParseAttrs(AttrsToValue(a)) == Ok(a)
  {
  }

  /** ServiceAccountConfig.ToValue: a map with exactly the keys display_name and description. */
  function ConfigToValue(c: ServiceAccountConfig): (v: Value)
    ensures v.Map? && v.entries.Keys == {"display_name", "description"}
  {
    Map(map["display_name" := Str(c.displayName), "description" := Str(c.description)])
  }

  /**
   * ParseServiceAccountConfig: the two strings of a map; anything else is the
   * zero struct, never an error.
   */
  function ParseConfig(v: Value): (r: Result<ServiceAccountConfig>)
    ensures r.Ok?
    ensures v.Map? && HasString(v.entries, "display_name") && HasString(v.entries, "description") ==>
              r.value == ServiceAccountConfig(v.entries["display_name"].s, v.entries["description"].s)
    ensures !(v.Map? && HasString(v.entries, "display_name") && HasString(v.entries, "description")) ==>
              r.value == ZeroConfig
  {
    match AsMap(v)
    case Err(_) => Ok(ZeroConfig)
    case Ok(m) =>
      match AsString(Get(m, "display_name"))
      case Err(_) => Ok(ZeroConfig)
      case Ok(displayName) =>
        match AsString(Get(m, "description"))
        case Err(_) => Ok(ZeroConfig)
        case Ok(description) => Ok(ServiceAccountConfig(displayName, description))
  }

  lemma ConfigRoundTrip(c: ServiceAccountConfig)
    ensures ParseConfig(ConfigToValue(c)) == Ok(c)
  {
  }

  /** ServiceAccount.ToResourceValue */
  function ToResourceValue(x: ServiceAccount): (r: Resource)
    ensures r.identifier == ToValue(x.identifier)
    ensures r.config == ConfigToValue(x.config) && r.attrs == AttrsToValue(x.attrs)
  {
    Resource(ToValue(x.identifier), ConfigToValue(x.config), AttrsToValue(x.attrs))
  }

  /** The resource value a handler reports reads back as the service account it came from. */
  lemma ResourceRoundTrip(x: ServiceAccount)
    ensures x.identifier.ServiceAccountId? ==>
              ParseServiceAccountIdentifier(ToResourceValue(x).identifier) == Ok(x.identifier)
    ensures ParseConfig(ToResourceValue(x).config) == Ok(x.config)
    ensures ParseAttrs(ToResourceValue(x).attrs) == Ok(x.attrs)
  {
    if x.identifier.ServiceAccountId? {
      ServiceAccountRoundTrip(x.identifier);
    }
    ConfigRoundTrip(x.config);
    AttrsRoundTrip(x.attrs);
  }

  function HandlerCodec(): Handlers.Codec<ResourceIdentifier, ServiceAccountConfig, ServiceAccount> {
    Handlers.Codec(ParseServiceAccountIdentifier, ParseConfig, ToResourceValue)
  }

  /**
   * Since the config decoder never fails, a create whose identifier parses
   * always reaches the creator, with the zero config when the config value is
   * malformed.
   */
  lemma CreateHandlerMalformedConfig(h: Handlers.Handler<ResourceIdentifier, ServiceAccountConfig, ServiceAccount>,
                                     id: ResourceIdentifier, config: Value)
    requires h.creator.Some? && id.ServiceAccountId?
    requires !config.Map?
    ensures Handlers.CreateResource(h, HandlerCodec(), ToValue(id), config)
         == (match h.creator.value(id, ZeroConfig)
             case Ok(s) => Ok(ToResourceValue(s))
             case Err(e) => Err(e))
  {
    ServiceAccountRoundTrip(id);
  }
}
