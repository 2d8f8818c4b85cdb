/**
 * The concrete resource identifiers of the provider, their encoding as
 * sdk.Identifier values (`ToValue`, `ResourceType`) and the registry that
 * turns a generic value back into a concrete identifier (`ParseIdentifier`).
 *
 * The source's registry is a `switch` on the resource-type tag with four arms
 * (bucket, bucket_object, function, service_account). Here the set of tags
 * that reach a per-type parser is the parameter `registry`, and the source's
 * table is `ParseIdentifier(v) == ParseIdentifierIn(SourceRegistry, v)`; a
 * parser of an identifier that nests another identifier resolves the nested
 * one through the same table, as the generated code does.
 *
 * Only the generated files for the api, iam_role and iam_role_custom_project
 * identifiers and the registry are part of this model's source text; the
 * bucket, bucket_object, function, service_account, api_gateway and api_config
 * parsers are written the same way, with the field names of their schemas.
 */
module Identifiers {
  import opened Errors
  import opened Values

  /** sdk.ResourceIdentifier: the closed set of identifier structs of the provider. */
  datatype ResourceIdentifier =
    | BucketId(project: string, location: string, name: string)
    | BucketObjectId(bucket: ResourceIdentifier, name: string)
    | FunctionId(project: string, location: string, name: string)
    | ServiceAccountId(project: string, accountId: string)
    | ApiId(apiId: string, project: string)
    | ApiConfigId(api: ResourceIdentifier, apiConfigId: string, serviceAccount: Option<ResourceIdentifier>)
    | ApiGatewayId(project: string, location: string, gatewayId: string)
    | IamRoleId(name: string)
    | IamRoleCustomProjectId(name: string, project: string)
    | IamPolicyId(resource: ResourceIdentifier)

  /** The `ResourceType()` method of each identifier struct. */
  function ResourceType(x: ResourceIdentifier): string {
    match x
    case BucketId(_, _, _) => "bucket"
    case BucketObjectId(_, _) => "bucket_object"
    case FunctionId(_, _, _) => "function"
    case ServiceAccountId(_, _) => "service_account"
    case ApiId(_, _) => "api"
    case ApiConfigId(_, _, _) => "api_config"
    case ApiGatewayId(_, _, _) => "api_gateway"
    case IamRoleId(_) => "iam_role"
    case IamRoleCustomProjectId(_, _) => "iam_role_custom_project"
    case IamPolicyId(_) => "iam_policy"
  }

  /** The field names each identifier's schema declares. */
  function FieldNames(x: ResourceIdentifier): set<string> {
    match x
    case BucketId(_, _, _) => {"project", "location", "name"}
    case BucketObjectId(_, _) => {"bucket", "name"}
    case FunctionId(_, _, _) => {"project", "location", "name"}
    case ServiceAccountId(_, _) => {"project", "account_id"}
    case ApiId(_, _) => {"api_id", "project"}
    case ApiConfigId(_, _, _) => {"api", "api_config_id", "service_account"}
    case ApiGatewayId(_, _, _) => {"project", "location", "gateway_id"}
    case IamRoleId(_) => {"name"}
    case IamRoleCustomProjectId(_, _) => {"name", "project"}
    case IamPolicyId(_) => {"resource"}
  }

  /**
   * The `ToValue` method of each identifier struct: the tag `ResourceType()`
   * reports and a map with exactly the schema's field names; a nested
   * identifier is stored as its own `ToValue`, and a nil one as nil.
   */
  function ToValue(x: ResourceIdentifier): (r: Identifier)
    ensures r.resourceType == ResourceType(x)
    ensures r.body.Map? && r.body.entries.Keys == FieldNames(x)
  {
    match x
    case BucketId(p, l, n) =>
      Identifier("bucket", Map(map["project" := Str(p), "location" := Str(l), "name" := Str(n)]))
    case BucketObjectId(b, n) =>
      Identifier("bucket_object", Map(map["bucket" := Ident(ToValue(b)), "name" := Str(n)]))
    case FunctionId(p, l, n) =>
      Identifier("function", Map(map["project" := Str(p), "location" := Str(l), "name" := Str(n)]))
    case ServiceAccountId(p, a) =>
      Identifier("service_account", Map(map["project" := Str(p), "account_id" := Str(a)]))
    case ApiId(a, p) =>
      Identifier("api", Map(map["api_id" := Str(a), "project" := Str(p)]))
    case ApiConfigId(api, c, sa) =>
      Identifier("api_config", Map(map["api" := Ident(ToValue(api)), "api_config_id" := Str(c),
                                       "service_account" := if sa.Some? then Ident(ToValue(sa.value)) else Nil]))
    case ApiGatewayId(p, l, g) =>
      Identifier("api_gateway", Map(map["project" := Str(p), "location" := Str(l), "gateway_id" := Str(g)]))
    case IamRoleId(n) =>
      Identifier("iam_role", Map(map["name" := Str(n)]))
    case IamRoleCustomProjectId(n, p) =>
      Identifier("iam_role_custom_project", Map(map["name" := Str(n), "project" := Str(p)]))
    case IamPolicyId(res) =>
      Identifier("iam_policy", Map(map["resource" := Ident(ToValue(res))]))
  }

  // ---------------------------------------------------------------------------
  // Per-type parsers. Each reads the identifier's fields with sdk.Map and
  // sdk.String, wrapping any failure with its own context, and never looks at
  // the identifier's tag.

  /** `sdk.Map[any](v.Value)` with the parser's error context. */
  function Fields(v: Identifier, context: string): Result<map<string, Value>> {
    WithContext(AsMap(v.body), context)
  }

  /** `sdk.String(m[key])` with the parser's error context. */
  function StringField(m: map<string, Value>, key: string, context: string): (r: Result<string>)
    ensures r.Ok? <==> Get(m, key).Str?
    ensures r.Ok? ==> m[key] == Str(r.value)
    ensures r.Err? ==> r.error == Context(context, NotAString)
  {
    WithContext(AsString(Get(m, key)), context)
  }

  /** True when `m[key]` holds a string. */
  predicate HasString(m: map<string, Value>, key: string) {
    key in m && m[key].Str?
  }

  const ApiContext := "error parsing api_identifier"

  /** ParseApiIdentifier: the api_id and project strings of a map. */
  function ParseApiIdentifier(v: Identifier): (r: Result<ResourceIdentifier>)
    ensures r.Ok? <==> v.body.Map? && HasString(v.body.entries, "api_id") && HasString(v.body.entries, "project")
    ensures r.Ok? ==> r.value == ApiId(v.body.entries["api_id"].s, v.body.entries["project"].s)
    ensures !v.body.Map? ==> r == Err(Context(ApiContext, NotAMap))
    ensures v.body.Map? && r.Err? ==> r == Err(Context(ApiContext, NotAString))
  {
    var m :- Fields(v, ApiContext);
    var apiId :- StringField(m, "api_id", ApiContext);
    var project :- StringField(m, "project", ApiContext);
    Ok(ApiId(apiId, project))
  }

  const IamRoleContext := "error parsing iam_role_identifier"

  /** ParseIamRoleIdentifier: the name string of a map. */
  function ParseIamRoleIdentifier(v: Identifier): (r: Result<ResourceIdentifier>)
    ensures r.Ok? <==> v.body.Map? && HasString(v.body.entries, "name")
    ensures r.Ok? ==> r.value == IamRoleId(v.body.entries["name"].s)
    ensures !v.body.Map? ==> r == Err(Context(IamRoleContext, NotAMap))
    ensures v.body.Map? && r.Err? ==> r == Err(Context(IamRoleContext, NotAString))
  {
    var m :- Fields(v, IamRoleContext);
    var name :- StringField(m, "name", IamRoleContext);
    Ok(IamRoleId(name))
  }

  const IamRoleCustomProjectContext := "error parsing iam_role_custom_project_identifier"

  /** ParseIamRoleCustomProjectIdentifier: the name and project strings of a map. */
  function ParseIamRoleCustomProjectIdentifier(v: Identifier): (r: Result<ResourceIdentifier>)
    ensures r.Ok? <==> v.body.Map? && HasString(v.body.entries, "name") && HasString(v.body.entries, "project")
    ensures r.Ok? ==> r.value == IamRoleCustomProjectId(v.body.entries["name"].s, v.body.entries["project"].s)
    ensures !v.body.Map? ==> r == Err(Context(IamRoleCustomProjectContext, NotAMap))
    ensures v.body.Map? && r.Err? ==> r == Err(Context(IamRoleCustomProjectContext, NotAString))
  {
    var m :- Fields(v, IamRoleCustomProjectContext);
    var name :- StringField(m, "name", IamRoleCustomProjectContext);
    var project :- StringField(m, "project", IamRoleCustomProjectContext);
    Ok(IamRoleCustomProjectId(name, project))
  }

  // The parsers below follow the same generated pattern for identifiers whose
  // generated files are not part of this model's source text.

  function ParseBucketIdentifier(v: Identifier): (r: Result<ResourceIdentifier>)
    ensures r.Ok? ==> r.value.BucketId?
  {
    var ctx := "error parsing bucket_identifier";
    var m :- Fields(v, ctx);
    var project :- StringField(m, "project", ctx);
    var location :- StringField(m, "location", ctx);
    var name :- StringField(m, "name", ctx);
    Ok(BucketId(project, location, name))
  }

  function ParseFunctionIdentifier(v: Identifier): (r: Result<ResourceIdentifier>)
    ensures r.Ok? ==> r.value.FunctionId?
  {
    var ctx := "error parsing function_identifier";
    var m :- Fields(v, ctx);
    var project :- StringField(m, "project", ctx);
    var location :- StringField(m, "location", ctx);
    var name :- StringField(m, "name", ctx);
    Ok(FunctionId(project, location, name))
  }

  function ParseServiceAccountIdentifier(v: Identifier): (r: Result<ResourceIdentifier>)
    ensures r.Ok? ==> r.value.ServiceAccountId?
  {
    var ctx := "error parsing service_account_identifier";
    var m :- Fields(v, ctx);
    var project :- StringField(m, "project", ctx);
    var accountId :- StringField(m, "account_id", ctx);
    Ok(ServiceAccountId(project, accountId))
  }

  function ParseApiGatewayIdentifier(v: Identifier): (r: Result<ResourceIdentifier>)
    ensures r.Ok? ==> r.value.ApiGatewayId?
  {
    var ctx := "error parsing api_gateway_identifier";
    var m :- Fields(v, ctx);
    var project :- StringField(m, "project", ctx);
    var location :- StringField(m, "location", ctx);
    var gatewayId :- StringField(m, "gateway_id", ctx);
    Ok(ApiGatewayId(project, location, gatewayId))
  }

  /**
   * The nested identifier stored under `key`, resolved through the same table
   * and wrapped with the enclosing parser's context; nil when the key is absent.
   */
  function NestedIdentifier(registry: set<string>, v: Identifier, key: string, context: string): (r: Result<ResourceIdentifier>)
    requires v.body.Map?
    ensures r.Err? && key !in v.body.entries ==> r.error == Context(context, ExpectedIdentifier)
    decreases v, 0
  {
    if key in v.body.entries then
      var nested := v.body.entries[key];
      assert nested in v.body.entries.Values;
      WithContext(ParseIdentifierIn(registry, nested), context)
    else Err(Context(context, ExpectedIdentifier))
  }

  function ParseBucketObjectIdentifier(registry: set<string>, v: Identifier): (r: Result<ResourceIdentifier>)
    ensures r.Ok? ==> r.value.BucketObjectId?
    decreases v, 1
  {
    var ctx := "error parsing bucket_object_identifier";
    var m :- Fields(v, ctx);
    var bucket :- NestedIdentifier(registry, v, "bucket", ctx);
    var name :- StringField(m, "name", ctx);
    Ok(BucketObjectId(bucket, name))
  }

  function ParseApiConfigIdentifier(registry: set<string>, v: Identifier): (r: Result<ResourceIdentifier>)
    ensures r.Ok? ==> r.value.ApiConfigId?
    decreases v, 1
  {
    var ctx := "error parsing api_config_identifier";
    var m :- Fields(v, ctx);
    var api :- NestedIdentifier(registry, v, "api", ctx);
    var configId :- StringField(m, "api_config_id", ctx);
    var serviceAccount :- NestedIdentifier(registry, v, "service_account", ctx);
    Ok(ApiConfigId(api, configId, Some(serviceAccount)))
  }

  function ParseIamPolicyIdentifier(registry: set<string>, v: Identifier): (r: Result<ResourceIdentifier>)
    ensures r.Ok? ==> r.value.IamPolicyId?
    decreases v, 1
  {
    var ctx := "error parsing iam_policy_identifier";
    var m :- Fields(v, ctx);
    var resource :- NestedIdentifier(registry, v, "resource", ctx);
    Ok(IamPolicyId(resource))
  }

  // ---------------------------------------------------------------------------
  // The registry

  /** The tags of the source's dispatch table. */
  const SourceRegistry: set<string> := {"bucket", "bucket_object", "function", "service_account"}

  /** Every tag an identifier of this provider can carry. */
  const AllResourceTypes: set<string> :=
    {"bucket", "bucket_object", "function", "service_account", "api", "api_config",
     "api_gateway", "iam_role", "iam_role_custom_project", "iam_policy"}

  /** The per-type parser of a tag, `nested` being the table nested identifiers are resolved with. */
  function ParseTagged(registry: set<string>, v: Identifier): (r: Result<ResourceIdentifier>)
    ensures r.Ok? ==> ResourceType(r.value) == v.resourceType
    decreases v, 2
  {
    match v.resourceType
    case "bucket" => ParseBucketIdentifier(v)
    case "bucket_object" => ParseBucketObjectIdentifier(registry, v)
    case "function" => ParseFunctionIdentifier(v)
    case "service_account" => ParseServiceAccountIdentifier(v)
    case "api" => ParseApiIdentifier(v)
    case "api_config" => ParseApiConfigIdentifier(registry, v)
    case "api_gateway" => ParseApiGatewayIdentifier(v)
    case "iam_role" => ParseIamRoleIdentifier(v)
    case "iam_role_custom_project" => ParseIamRoleCustomProjectIdentifier(v)
    case "iam_policy" => ParseIamPolicyIdentifier(registry, v)
    case _ => Err(InvalidResourceType(v.resourceType))
  }

  /**
   * ParseIdentifier over a dispatch table: anything but an identifier is an
   * error; a tag outside the table is an "invalid resource type" error; a tag
   * in the table selects its parser, whose result is returned unchanged.
   * The tag alone selects: the fields are not looked at before dispatch.
   */
  function ParseIdentifierIn(registry: set<string>, v: Value): (r: Result<ResourceIdentifier>)
    ensures !v.Ident? ==> r == Err(ExpectedIdentifier)
    ensures v.Ident? && v.id.resourceType !in registry ==> r == Err(InvalidResourceType(v.id.resourceType))
    ensures v.Ident? && v.id.resourceType in registry ==> r == ParseTagged(registry, v.id)
    ensures r.Ok? ==> v.Ident? && v.id.resourceType in registry && ResourceType(r.value) == v.id.resourceType
    decreases v
  {
    if !v.Ident? then Err(ExpectedIdentifier)
    else if v.id.resourceType !in registry then Err(InvalidResourceType(v.id.resourceType))
    else ParseTagged(registry, v.id)
  }

  /** identifier.ParseIdentifier as generated: the four-arm table. */
  function ParseIdentifier(v: Value): (r: Result<ResourceIdentifier>)
    ensures !v.Ident? ==> r == Err(ExpectedIdentifier)
    ensures v.Ident? && v.id.resourceType == "bucket" ==> r == ParseBucketIdentifier(v.id)
    ensures v.Ident? && v.id.resourceType == "bucket_object" ==> r == ParseBucketObjectIdentifier(SourceRegistry, v.id)
    ensures v.Ident? && v.id.resourceType == "function" ==> r == ParseFunctionIdentifier(v.id)
    ensures v.Ident? && v.id.resourceType == "service_account" ==> r == ParseServiceAccountIdentifier(v.id)
    ensures v.Ident? && v.id.resourceType !in SourceRegistry ==> r == Err(InvalidResourceType(v.id.resourceType))
  {
    ParseIdentifierIn(SourceRegistry, v)
  }

  // ---------------------------------------------------------------------------
  // Round trips

  /** The api identifier's ToValue is read back exactly by its parser. */
  lemma ApiRoundTrip(apiId: string, project: string)
    ensures ParseApiIdentifier(ToValue(ApiId(apiId, project))) == Ok(ApiId(apiId, project))
  {
  }

  lemma IamRoleRoundTrip(name: string)
    ensures ParseIamRoleIdentifier(ToValue(IamRoleId(name))) == Ok(IamRoleId(name))
  {
  }

  lemma IamRoleCustomProjectRoundTrip(name: string, project: string)
    ensures ParseIamRoleCustomProjectIdentifier(ToValue(IamRoleCustomProjectId(name, project)))
         == Ok(IamRoleCustomProjectId(name, project))
  {
  }

  lemma BucketRoundTrip(x: ResourceIdentifier)
    requires x.BucketId?
    ensures ParseBucketIdentifier(ToValue(x)) == Ok(x)
  {
  }

  lemma ServiceAccountRoundTrip(x: ResourceIdentifier)
    requires x.ServiceAccountId?
    ensures ParseServiceAccountIdentifier(ToValue(x)) == Ok(x)
  {
  }

  lemma ApiGatewayRoundTrip(x: ResourceIdentifier)
    requires x.ApiGatewayId?
    ensures ParseApiGatewayIdentifier(ToValue(x)) == Ok(x)
  {
  }

  /** The per-type parsers ignore the tag: a differently tagged identifier with the right fields parses. */
  lemma ParsersIgnoreTag(v: Identifier, tag: string)
    ensures ParseApiIdentifier(Identifier(tag, v.body)) == ParseApiIdentifier(v)
    ensures ParseIamRoleIdentifier(Identifier(tag, v.body)) == ParseIamRoleIdentifier(v)
    ensures ParseIamRoleCustomProjectIdentifier(Identifier(tag, v.body)) == ParseIamRoleCustomProjectIdentifier(v)
  {
  }

  /** The identifiers a table can read back: every tag, nested ones included, is in it. */
  predicate ResolvableIn(registry: set<string>, x: ResourceIdentifier) {
    ResourceType(x) in registry &&
    match x
    case BucketObjectId(b, _) => ResolvableIn(registry, b)
    case ApiConfigId(api, _, sa) => ResolvableIn(registry, api) && sa.Some? && ResolvableIn(registry, sa.value)
    case IamPolicyId(res) => ResolvableIn(registry, res)
    case _ => true
  }

  /** The round trip of one identifier through a table, as RegistryRoundTrip states it. */
  predicate RoundTripsIn(registry: set<string>, x: ResourceIdentifier) {
    (ParseIdentifierIn(registry, Ident(ToValue(x))).Ok? <==> ResolvableIn(registry, x)) &&
    (ResolvableIn(registry, x) ==> ParseIdentifierIn(registry, Ident(ToValue(x))) == Ok(x))
  }

  /**
   * A table reads back an identifier's ToValue exactly when the identifier is
   * resolvable in it, and then it gives the identifier back.
   */
  lemma {:induction false} RegistryRoundTrip(registry: set<string>, x: ResourceIdentifier)
    ensures ParseIdentifierIn(registry, Ident(ToValue(x))).Ok? <==> ResolvableIn(registry, x)
    ensures ResolvableIn(registry, x) ==> ParseIdentifierIn(registry, Ident(ToValue(x))) == Ok(x)
  {
    match x
    case BucketObjectId(b, n) =>
      RegistryRoundTrip(registry, b);
      BucketObjectStep(registry, b, n);
    case ApiConfigId(api, c, sa) =>
      RegistryRoundTrip(registry, api);
      if sa.Some? {
        RegistryRoundTrip(registry, sa.value);
      }
      ApiConfigStep(registry, api, c, sa);
    case IamPolicyId(res) =>
      RegistryRoundTrip(registry, res);
      IamPolicyStep(registry, res);
    case _ =>
  }

  /** The bucket object case: it round-trips when its bucket does. */
  lemma BucketObjectStep(registry: set<string>, b: ResourceIdentifier, n: string)
    requires RoundTripsIn(registry, b)
    ensures RoundTripsIn(registry, BucketObjectId(b, n))
  {
    var x := BucketObjectId(b, n);
    var v := ToValue(x);
    var m := v.body.entries;
    var ctx := "error parsing bucket_object_identifier";
    assert m["bucket"] == Ident(ToValue(b));
    assert m["name"] == Str(n);
    assert NestedIdentifier(registry, v, "bucket", ctx)
        == WithContext(ParseIdentifierIn(registry, Ident(ToValue(b))), ctx);
    if "bucket_object" in registry {
      assert ParseIdentifierIn(registry, Ident(v)) == ParseBucketObjectIdentifier(registry, v);
    }
  }

  /** The api config case: it round-trips when its api and its service account do. */
  lemma ApiConfigStep(registry: set<string>, api: ResourceIdentifier, c: string, sa: Option<ResourceIdentifier>)
    requires RoundTripsIn(registry, api)
    requires sa.Some? ==> RoundTripsIn(registry, sa.value)
    ensures RoundTripsIn(registry, ApiConfigId(api, c, sa))
  {
    var x := ApiConfigId(api, c, sa);
    var v := ToValue(x);
    var m := v.body.entries;
    var ctx := "error parsing api_config_identifier";
    assert m["api"] == Ident(ToValue(api));
    assert m["api_config_id"] == Str(c);
    assert NestedIdentifier(registry, v, "api", ctx)
        == WithContext(ParseIdentifierIn(registry, Ident(ToValue(api))), ctx);
    if sa.Some? {
      assert m["service_account"] == Ident(ToValue(sa.value));
      assert NestedIdentifier(registry, v, "service_account", ctx)
          == WithContext(ParseIdentifierIn(registry, Ident(ToValue(sa.value))), ctx);
    } else {
      assert m["service_account"] == Nil;
      assert NestedIdentifier(registry, v, "service_account", ctx).Err?;
    }
    if "api_config" in registry {
      assert ParseIdentifierIn(registry, Ident(v)) == ParseApiConfigIdentifier(registry, v);
      if ResolvableIn(registry, x) {
        assert ParseApiConfigIdentifier(registry, v) == Ok(x);
      }
    }
  }

  /** The IAM policy case: it round-trips when its resource does. */
  lemma IamPolicyStep(registry: set<string>, res: ResourceIdentifier)
    requires RoundTripsIn(registry, res)
    ensures RoundTripsIn(registry, IamPolicyId(res))
  {
    var x := IamPolicyId(res);
    var v := ToValue(x);
    var m := v.body.entries;
    var ctx := "error parsing iam_policy_identifier";
    assert m["resource"] == Ident(ToValue(res));
    assert NestedIdentifier(registry, v, "resource", ctx)
        == WithContext(ParseIdentifierIn(registry, Ident(ToValue(res))), ctx);
    if "iam_policy" in registry {
      assert ParseIdentifierIn(registry, Ident(v)) == ParseIamPolicyIdentifier(registry, v);
    }
  }

  /**
   * The source's table reads back buckets, functions, service accounts and
   * bucket objects of such buckets; every other identifier, the api, api
   * config, api gateway, IAM role, custom role and IAM policy ones included,
   * is an "invalid resource type" error.
   */
  lemma {:induction false} SourceRegistryRoundTrip(x: ResourceIdentifier)
    ensures x.BucketId? || x.FunctionId? || x.ServiceAccountId? ==> ParseIdentifier(Ident(ToValue(x))) == Ok(x)
    ensures x.BucketObjectId? && ResolvableIn(SourceRegistry, x.bucket) ==> ParseIdentifier(Ident(ToValue(x))) == Ok(x)
    ensures ResourceType(x) !in SourceRegistry ==> ParseIdentifier(Ident(ToValue(x))) == Err(InvalidResourceType(ResourceType(x)))
  {
    RegistryRoundTrip(SourceRegistry, x);
  }

  /** The api config parser reads back an identifier whose nested ones resolve in the table. */
  lemma ApiConfigRoundTrip(registry: set<string>, x: ResourceIdentifier)
    requires x.ApiConfigId? && "api_config" in registry && ResolvableIn(registry, x)
    ensures ParseApiConfigIdentifier(registry, ToValue(x)) == Ok(x)
  {
    RegistryRoundTrip(registry, x);
  }

  /** Every nested service account of an api config identifier is set (none is nil). */
  predicate HasServiceAccounts(x: ResourceIdentifier) {
    match x
    case BucketObjectId(b, _) => HasServiceAccounts(b)
    case ApiConfigId(api, _, sa) => HasServiceAccounts(api) && sa.Some? && HasServiceAccounts(sa.value)
    case IamPolicyId(res) => HasServiceAccounts(res)
    case _ => true
  }

  /** The complete table resolves exactly the identifiers without a nil service account. */
  lemma {:induction false} AllResolvable(x: ResourceIdentifier)
    ensures ResolvableIn(AllResourceTypes, x) <==> HasServiceAccounts(x)
  {
    match x
    case BucketObjectId(b, _) => AllResolvable(b);
    case ApiConfigId(api, _, sa) =>
      AllResolvable(api);
      if sa.Some? {
        AllResolvable(sa.value);
      }
    case IamPolicyId(res) => AllResolvable(res);
    case _ =>
  }

  /**
   * With every tag in the table, ParseIdentifier undoes ToValue for every
   * identifier whose service accounts are set, and rejects the others.
   */
  lemma CompleteRegistryRoundTrip(x: ResourceIdentifier)
    ensures ParseIdentifierIn(AllResourceTypes, Ident(ToValue(x))).Ok? <==> HasServiceAccounts(x)
    ensures HasServiceAccounts(x) ==> ParseIdentifierIn(AllResourceTypes, Ident(ToValue(x))) == Ok(x)
  {
    AllResolvable(x);
    RegistryRoundTrip(AllResourceTypes, x);
  }
}
