/**
 * The API gateway client (internal/api_gateway): the Getter, Creator,
 * Updator and Deleter behind the generated API gateway handler.
 *
 * The API Gateway service is not part of this model: each operation returns
 * the service calls it makes, in order (`sent`), and takes the service's
 * reply as a parameter, a failed call or a failed wait for the operation
 * being one error. The gateway's `api_config` travels as a resource name
 * `projects/<p>/locations/global/apis/<a>/configs/<c>`, read back with the
 * pattern of module Patterns.
 */
module ApiGatewayClient {
  import opened Errors
  import opened Values
  import opened Identifiers
  import opened Strings
  import Patterns
  import Masks
  import opened ApiGatewayCodec

  /** apigatewaypb.Gateway as the client writes it and reads it back. */
  datatype Gateway = Gateway(name: string, labels: map<string, string>, displayName: string, apiConfig: string)

  /** A gateway the service returns, with its timestamps and state rendered as text. */
  datatype GatewayReply = GatewayReply(gateway: Gateway, create: string, update: string, state: string, defaultHostname: string)

  /** The API Gateway calls the client makes. */
  datatype Request =
    | GetGatewayCall(name: string)
    | CreateGatewayCall(parent: string, gatewayId: string, gateway: Gateway)
    | UpdateGatewayCall(paths: seq<string>, gateway: Gateway)
    | DeleteGatewayCall(name: string)

  // ---------------------------------------------------------------------------
  // Resource names

  /** The gateway's resource name, `projects/<p>/locations/<l>/gateways/<g>`. */
  function GatewayName(id: ResourceIdentifier): string
    requires id.ApiGatewayId?
  {
    "projects/" + id.project + "/locations/" + id.location + "/gateways/" + id.gatewayId
  }

  /** The parent a gateway is created under, `projects/<p>/locations/<l>`. */
  function GatewayParent(id: ResourceIdentifier): string
    requires id.ApiGatewayId?
  {
    "projects/" + id.project + "/locations/" + id.location
  }

  // ---------------------------------------------------------------------------
  // The API config a gateway serves

  /**
   * The api_config written for a config: its API config identifier, whose
   * api must be an API identifier, as a resource name. Either check failing
   * is an error raised before any call.
   */
  function TargetConfigName(c: Config): (r: Result<string>)
    ensures !c.apiConfig.ApiConfigId? ==> r == Err(ExpectedApiConfigIdentifier)
    ensures c.apiConfig.ApiConfigId? && !c.apiConfig.api.ApiId? ==> r == Err(ExpectedApiIdentifier)
    ensures r.Ok? <==> c.apiConfig.ApiConfigId? && c.apiConfig.api.ApiId?
  {
    if !c.apiConfig.ApiConfigId? then Err(ExpectedApiConfigIdentifier)
    else if !c.apiConfig.api.ApiId? then Err(ExpectedApiIdentifier)
    else Ok(Patterns.ApiConfigName(c.apiConfig.api.project, c.apiConfig.api.apiId, c.apiConfig.apiConfigId))
  }

  /**
   * The gateway reported from a reply: an api_config name the pattern does
   * not match is an error; otherwise the API config identifier is built from
   * the name's API and config parts, in the project given when there is one
   * (Get) and else in the name's project part (Create, Update).
   */
  function Reported(id: ResourceIdentifier, reply: GatewayReply, project: Option<string>): (r: Result<ApiGateway>)
    ensures r.Err? <==> Patterns.MatchApiConfigName(reply.gateway.apiConfig).None?
    ensures r.Err? ==> r.error == InvalidApiConfigName(reply.gateway.apiConfig)
    ensures r.Ok? ==> r.value.identifier == id && r.value.config.displayName == reply.gateway.displayName &&
                      r.value.config.labels == reply.gateway.labels &&
                      r.value.attrs == Attrs(reply.create, reply.defaultHostname, reply.state, reply.update)
    ensures r.Ok? ==> r.value.config.apiConfig.ApiConfigId? && r.value.config.apiConfig.api.ApiId? &&
                      r.value.config.apiConfig.serviceAccount.None?
    ensures r.Ok? && project.Some? ==> r.value.config.apiConfig.api.project == project.value
  {
    match Patterns.MatchApiConfigName(reply.gateway.apiConfig)
    case None => Err(InvalidApiConfigName(reply.gateway.apiConfig))
    case Some((p, a, c)) =>
      var apiProject := if project.Some? then project.value else p;
      Ok(ApiGateway(id, Config(ApiConfigId(ApiId(a, apiProject), c, None), reply.gateway.displayName, reply.gateway.labels),
                    Attrs(reply.create, reply.defaultHostname, reply.state, reply.update)))
  }

  /** An API config whose parts the name pattern reads back unchanged. */
  predicate Recoverable(c: Config) {
    c.apiConfig.ApiConfigId? && c.apiConfig.api.ApiId? &&
    var project, api, config := c.apiConfig.api.project, c.apiConfig.api.apiId, c.apiConfig.apiConfigId;
    |project| > 0 && '/' !in project && '/' !in api && '/' !in config &&
    '\n' !in project && '\n' !in api && '\n' !in config
  }

  /**
   * A gateway that echoes the api_config the client wrote is reported with
   * the API config identifier it was given (less its service account, which
   * the name does not carry) when Create or Update reads it, while Get puts
   * the API in the gateway's project whatever project the name holds.
   */
  lemma EchoedApiConfig(id: ResourceIdentifier, c: Config, reply: GatewayReply, project: Option<string>)
    requires Recoverable(c)
    requires reply.gateway.apiConfig == TargetConfigName(c).value
    ensures Reported(id, reply, project).Ok?
    ensures project.None? ==>
              Reported(id, reply, project).value.config.apiConfig == ApiConfigId(c.apiConfig.api, c.apiConfig.apiConfigId, None)
    ensures project.Some? ==>
              Reported(id, reply, project).value.config.apiConfig ==
              ApiConfigId(ApiId(c.apiConfig.api.apiId, project.value), c.apiConfig.apiConfigId, None)
  {
    Patterns.ApiConfigNameRoundTrip(c.apiConfig.api.project, c.apiConfig.api.apiId, c.apiConfig.apiConfigId);
  }

  // ---------------------------------------------------------------------------
  // The operations

  /** Get: one GetGateway call on the gateway's name; a gRPC NotFound status is NotFound. */
  method GetGateway(id: ResourceIdentifier, reply: Result<GatewayReply>) returns (sent: seq<Request>, r: Result<ApiGateway>)
    requires id.ApiGatewayId?
    ensures sent == [GetGatewayCall(GatewayName(id))]
    ensures reply.Err? && reply.error == Vendor(GrpcNotFound) ==> r == Err(NotFound)
    ensures reply.Err? && reply.error != Vendor(GrpcNotFound) ==> r == Err(reply.error)
    ensures reply.Ok? ==> r == Reported(id, reply.value, Some(id.project))
  {
    sent := [GetGatewayCall(GatewayName(id))];
    if reply.Err? {
      if reply.error == Vendor(GrpcNotFound) {
        return sent, Err(NotFound);
      }
      return sent, Err(reply.error);
    }
    r := Reported(id, reply.value, Some(id.project));
  }

  /**
   * Create: the identifier checks first, with nothing sent when they fail;
   * then one CreateGateway call under the parent, carrying the config's
   * labels, display name and API config name.
   */
  method CreateGateway(id: ResourceIdentifier, config: Config, reply: Result<GatewayReply>)
    returns (sent: seq<Request>, r: Result<ApiGateway>)
    requires id.ApiGatewayId?
    ensures TargetConfigName(config).Err? ==> sent == [] && r == Err(TargetConfigName(config).error)
    ensures TargetConfigName(config).Ok? ==>
              sent == [CreateGatewayCall(GatewayParent(id), id.gatewayId,
                                         Gateway("", config.labels, config.displayName, TargetConfigName(config).value))]
    ensures TargetConfigName(config).Ok? && reply.Err? ==> r == Err(reply.error)
    ensures TargetConfigName(config).Ok? && reply.Ok? ==> r == Reported(id, reply.value, None)
  {
    var target := TargetConfigName(config);
    if target.Err? {
      return [], Err(target.error);
    }
    sent := [CreateGatewayCall(GatewayParent(id), id.gatewayId, Gateway("", config.labels, config.displayName, target.value))];
    if reply.Err? {
      return sent, Err(reply.error);
    }
    r := Reported(id, reply.value, None);
  }

  /** The field paths a gateway update honours: labels, display_name and api_config, each under its own name. */
  function GatewayPath(name: string): (p: Option<string>)
    ensures p.Some? <==> name == "labels" || name == "display_name" || name == "api_config"
    ensures p.Some? ==> p.value == name
  {
    if name == "labels" || name == "display_name" || name == "api_config" then Some(name) else None
  }

  /** Update's mask loop: the paths of the entries it knows, in mask order, repeats kept. */
  method UpdatePaths(mask: seq<MaskField>) returns (paths: seq<string>)
    ensures paths == Masks.Paths(mask, GatewayPath)
  {
    paths := [];
    var i := 0;
    while i < |mask|
      invariant 0 <= i <= |mask|
      invariant Masks.Paths(mask, GatewayPath) == paths + Masks.Paths(mask[i..], GatewayPath)
    {
      var m := mask[i];
      Masks.PathsFrom(mask, i, GatewayPath);
      var own: seq<string> := [];
      if m.name == "labels" {
        own := ["labels"];
      } else if m.name == "display_name" {
        own := ["display_name"];
      } else if m.name == "api_config" {
        own := ["api_config"];
      }
      assert own == Masks.EntryPath(m, GatewayPath);
      Masks.Regroup(paths, own, Masks.Paths(mask[i + 1..], GatewayPath));
      paths := paths + own;
      i := i + 1;
    }
    assert mask[i..] == [];
    assert paths + [] == paths;
  }

  /**
   * Update: the identifier checks first, with nothing sent when they fail;
   * then one UpdateGateway call whose field mask follows the mask and whose
   * gateway carries the name and every config field whatever the mask says.
   */
  method UpdateGateway(id: ResourceIdentifier, config: Config, mask: seq<MaskField>, reply: Result<GatewayReply>)
    returns (sent: seq<Request>, r: Result<ApiGateway>)
    requires id.ApiGatewayId?
    ensures TargetConfigName(config).Err? ==> sent == [] && r == Err(TargetConfigName(config).error)
    ensures TargetConfigName(config).Ok? ==>
              sent == [UpdateGatewayCall(Masks.Paths(mask, GatewayPath),
                                         Gateway(GatewayName(id), config.labels, config.displayName, TargetConfigName(config).value))]
    ensures TargetConfigName(config).Ok? && reply.Err? ==> r == Err(reply.error)
    ensures TargetConfigName(config).Ok? && reply.Ok? ==> r == Reported(id, reply.value, None)
  {
    var target := TargetConfigName(config);
    if target.Err? {
      return [], Err(target.error);
    }
    var paths := UpdatePaths(mask);
    sent := [UpdateGatewayCall(paths, Gateway(GatewayName(id), config.labels, config.displayName, target.value))];
    if reply.Err? {
      return sent, Err(reply.error);
    }
    r := Reported(id, reply.value, None);
  }

  /** Delete: one DeleteGateway call on the gateway's name; its outcome is the result. */
  function DeleteGateway(id: ResourceIdentifier, outcome: Option<Error>): (result: (seq<Request>, Option<Error>))
    requires id.ApiGatewayId?
    ensures result.0 == [DeleteGatewayCall(GatewayName(id))] && result.1 == outcome
  {
    ([DeleteGatewayCall(GatewayName(id))], outcome)
  }
}
