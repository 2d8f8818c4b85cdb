/**
 * The API client (internal/api): the Getter, Creator, Updator and Deleter
 * behind the generated API handler.
 *
 * The API Gateway service is not part of this model: each operation returns
 * the service calls it makes, in order (`sent`), and takes the service's
 * reply as a parameter, a failed call or a failed wait for the operation
 * being one error.
 */
module ApiClient {
  import opened Errors
  import opened Values
  import opened Identifiers
  import Patterns
  import Masks

  /** api.Config: what a user declares for an API. */
  datatype Config = Config(displayName: string, labels: map<string, string>)

  /** api.Attrs: what the service reports, its timestamps and state rendered as text. */
  datatype Attrs = Attrs(create: string, update: string, state: string)

  /** api.Api: an API resource as the provider reports it. */
  datatype Api = Api(identifier: ResourceIdentifier, config: Config, attrs: Attrs)

  /** apigatewaypb.Api as the client writes it; an empty field is one the client left unset. */
  datatype ApiObject = ApiObject(name: string, displayName: string, labels: map<string, string>)

  /** An API the service returns. */
  datatype ApiReply = ApiReply(displayName: string, labels: map<string, string>, create: string, update: string, state: string)

  /** The API Gateway calls the client makes. */
  datatype Request =
    | GetApiCall(name: string)
    | CreateApiCall(parent: string)
    | UpdateApiCall(paths: seq<string>, api: ApiObject)
    | DeleteApiCall(name: string)

  // ---------------------------------------------------------------------------
  // Resource names

  /** The API's resource name, `projects/<p>/locations/global/apis/<a>`. */
  function ApiName(id: ResourceIdentifier): string
    requires id.ApiId?
  {
    Patterns.ProjectsLit + id.project + Patterns.ApisLit + id.apiId
  }

  /** The parent an API is created under, `projects/<p>/locations/global`. */
  function ApiParent(project: string): string {
    Patterns.ProjectsLit + project + "/locations/global"
  }

  /**
   * The names of an API's configs extend the API's name with `/configs/<c>`,
   * and the config name pattern reads the API's project and id back from
   * such a name when they hold no '/' or newline and the project is not empty.
   */
  lemma ConfigNameUnderApi(id: ResourceIdentifier, config: string)
    requires id.ApiId?
    requires |id.project| > 0 && '/' !in id.project && '/' !in id.apiId && '/' !in config
    requires '\n' !in id.project && '\n' !in id.apiId && '\n' !in config
    ensures Patterns.ApiConfigName(id.project, id.apiId, config) == ApiName(id) + Patterns.ConfigsLit + config
    ensures Patterns.MatchApiConfigName(ApiName(id) + Patterns.ConfigsLit + config) == Some((id.project, id.apiId, config))
  {
    Patterns.ApiConfigNameRoundTrip(id.project, id.apiId, config);
  }

  // ---------------------------------------------------------------------------
  // Replies

  /** The API reported from a reply: the identifier asked for, the reply's fields. */
  function Reported(id: ResourceIdentifier, reply: ApiReply): Api {
    Api(id, Config(reply.displayName, reply.labels), Attrs(reply.create, reply.update, reply.state))
  }

  /** Create and Update: an error of the call or of the wait is passed on; a reply is reported. */
  function ReadBack(id: ResourceIdentifier, reply: Result<ApiReply>): (r: Result<Api>)
    ensures reply.Err? ==> r == Err(reply.error)
    ensures reply.Ok? ==> r.Ok? && r.value.identifier == id &&
                          r.value.config == Config(reply.value.displayName, reply.value.labels) &&
                          r.value.attrs == Attrs(reply.value.create, reply.value.update, reply.value.state)
  {
    if reply.Err? then Err(reply.error) else Ok(Reported(id, reply.value))
  }

  // ---------------------------------------------------------------------------
  // The operations

  /** Get: one GetApi call on the API's name; a gRPC NotFound status is NotFound. */
  method GetApi(id: ResourceIdentifier, reply: Result<ApiReply>) returns (sent: seq<Request>, r: Result<Api>)
    requires id.ApiId?
    ensures sent == [GetApiCall(ApiName(id))]
    ensures reply.Err? && reply.error == Vendor(GrpcNotFound) ==> r == Err(NotFound)
    ensures reply.Err? && reply.error != Vendor(GrpcNotFound) ==> r == Err(reply.error)
    ensures reply.Ok? ==> r == Ok(Reported(id, reply.value))
  {
    sent := [GetApiCall(ApiName(id))];
    if reply.Err? {
      if reply.error == Vendor(GrpcNotFound) {
        return sent, Err(NotFound);
      }
      return sent, Err(reply.error);
    }
    r := Ok(Reported(id, reply.value));
  }

  /**
   * Create: one CreateApi call that carries only the parent in the API's
   * project; neither the API id nor the config travels with it.
   */
  method CreateApi(id: ResourceIdentifier, config: Config, reply: Result<ApiReply>) returns (sent: seq<Request>, r: Result<Api>)
    requires id.ApiId?
    ensures sent == [CreateApiCall(ApiParent(id.project))]
    ensures r == ReadBack(id, reply)
  {
    sent := [CreateApiCall(ApiParent(id.project))];
    r := ReadBack(id, reply);
  }

  /** The field paths an API update honours: display_name and labels, each under its own name. */
  function ApiPath(name: string): (p: Option<string>)
    ensures p.Some? <==> name == "display_name" || name == "labels"
    ensures p.Some? ==> p.value == name
  {
    if name == "display_name" || name == "labels" then Some(name) else None
  }

  /** The API body an update sends: the name always, each other field only when masked. */
  function MaskedObject(id: ResourceIdentifier, config: Config, mask: seq<MaskField>): ApiObject
    requires id.ApiId?
  {
    ApiObject(ApiName(id),
              if Masks.Masked(mask, "display_name") then config.displayName else "",
              if Masks.Masked(mask, "labels") then config.labels else map[])
  }

  /** Update's mask loop: each known entry copies its field from the config and appends its path. */
  method MaskLoop(id: ResourceIdentifier, config: Config, mask: seq<MaskField>) returns (body: ApiObject, paths: seq<string>)
    requires id.ApiId?
    ensures body == MaskedObject(id, config, mask)
    ensures paths == Masks.Paths(mask, ApiPath)
  {
    body := ApiObject(ApiName(id), "", map[]);
    paths := [];
    var i := 0;
    while i < |mask|
      invariant 0 <= i <= |mask|
      invariant Masks.Paths(mask, ApiPath) == paths + Masks.Paths(mask[i..], ApiPath)
      invariant body.name == ApiName(id)
      invariant body.displayName == if Masks.MaskedBefore(mask, i, "display_name") then config.displayName else ""
      invariant body.labels == if Masks.MaskedBefore(mask, i, "labels") then config.labels else map[]
    {
      Masks.PathsFrom(mask, i, ApiPath);
      Masks.MaskedStep(mask, i, "display_name");
      Masks.MaskedStep(mask, i, "labels");
      var own: seq<string> := [];
      if mask[i].name == "display_name" {
        body, own := body.(displayName := config.displayName), ["display_name"];
      } else if mask[i].name == "labels" {
        body, own := body.(labels := config.labels), ["labels"];
      }
      assert own == Masks.EntryPath(mask[i], ApiPath);
      Masks.Regroup(paths, own, Masks.Paths(mask[i + 1..], ApiPath));
      paths := paths + own;
      i := i + 1;
    }
    assert mask[i..] == [];
    assert paths + [] == paths;
  }

  /** Update: one UpdateApi call on the body and field mask the mask loop builds. */
  method UpdateApi(id: ResourceIdentifier, config: Config, mask: seq<MaskField>, reply: Result<ApiReply>)
    returns (sent: seq<Request>, r: Result<Api>)
    requires id.ApiId?
    ensures sent == [UpdateApiCall(Masks.Paths(mask, ApiPath), MaskedObject(id, config, mask))]
    ensures r == ReadBack(id, reply)
  {
    var body, paths := MaskLoop(id, config, mask);
    sent := [UpdateApiCall(paths, body)];
    r := ReadBack(id, reply);
  }

  /**
   * What an update sends follows the mask: a field travels, and its path is
   * in the field mask, exactly when the mask names it.
   */
  lemma MaskedFields(id: ResourceIdentifier, config: Config, mask: seq<MaskField>)
    requires id.ApiId?
    ensures "display_name" in Masks.Paths(mask, ApiPath) <==> Masks.Masked(mask, "display_name")
    ensures "labels" in Masks.Paths(mask, ApiPath) <==> Masks.Masked(mask, "labels")
    ensures Masks.Masked(mask, "display_name") ==> MaskedObject(id, config, mask).displayName == config.displayName
    ensures Masks.Masked(mask, "labels") ==> MaskedObject(id, config, mask).labels == config.labels
    ensures forall p :: p in Masks.Paths(mask, ApiPath) ==> p == "display_name" || p == "labels"
  {
    Masks.PathsMasked(mask, ApiPath, "display_name");
    Masks.PathsMasked(mask, ApiPath, "labels");
    KnownPaths(mask);
  }

  /** Every path in an update's field mask is one the client honours. */
  lemma {:induction false} KnownPaths(mask: seq<MaskField>)
    ensures forall p :: p in Masks.Paths(mask, ApiPath) ==> p == "display_name" || p == "labels"
  {
    if mask != [] {
      KnownPaths(mask[1..]);
    }
  }

  /** An entry whose name the client does not know changes neither the body nor the field mask it sends. */
  lemma UnknownEntryIgnored(id: ResourceIdentifier, config: Config, a: seq<MaskField>, m: MaskField, b: seq<MaskField>)
    requires id.ApiId?
    requires ApiPath(m.name).None?
    ensures MaskedObject(id, config, a + [m] + b) == MaskedObject(id, config, a + b)
    ensures Masks.Paths(a + [m] + b, ApiPath) == Masks.Paths(a + b, ApiPath)
  {
    Masks.PathsSkip(a, m, b, ApiPath);
    Masks.MaskedSkip(a, m, b, "display_name");
    Masks.MaskedSkip(a, m, b, "labels");
  }

  /** Delete: one DeleteApi call on the API's name, with no wait; the call's outcome is the result. */
  function DeleteApi(id: ResourceIdentifier, outcome: Option<Error>): (result: (seq<Request>, Option<Error>))
    requires id.ApiId?
    ensures result.0 == [DeleteApiCall(ApiName(id))] && result.1 == outcome
  {
    ([DeleteApiCall(ApiName(id))], outcome)
  }
}
