/**
 * The API config client (internal/api_config): the Getter, Creator, Updator
 * and Deleter behind the generated API config handler.
 *
 * The API Gateway service is not part of this model: each operation returns
 * the service calls it makes, in order (`sent`), and takes the service's
 * reply as a parameter, a failed call or a failed wait for the operation
 * being one error. Reading a local file is the parameter `read`, and the
 * CRC32C checksum of a document, rendered in decimal, is the parameter
 * `checksum`.
 */
module ApiConfigClient {
  import opened Errors
  import opened Values
  import opened Identifiers
  import opened Strings
  import Patterns
  import Masks
  import Lists
  import IamPolicy
  import ApiClient
  import opened ApiConfigCodec

  /** An OpenAPI document as the service carries it: the file's path and contents. */
  datatype Document = Document(path: string, contents: seq<byte>)

  /** apigatewaypb.ApiConfig as the client writes it; an empty field is one the client left unset. */
  datatype ApiConfigBody = ApiConfigBody(name: string, displayName: string, gatewayServiceAccount: string, documents: seq<Document>)

  /** An API config the service returns (read in the FULL view, which carries the documents' contents). */
  datatype ApiConfigReply = ApiConfigReply(displayName: string, documents: seq<Document>, create: string, update: string, state: string)

  /** GetApiConfigRequest.View: how much of the config a Get returns; only FULL carries the documents. */
  datatype ConfigView = ConfigViewUnspecified | Basic | Full

  /** The API Gateway calls the client makes. */
  datatype Request =
    | GetApiConfigCall(name: string, view: ConfigView)
    | CreateApiConfigCall(parent: string, apiConfigId: string, body: ApiConfigBody)
    | UpdateApiConfigCall(paths: seq<string>, body: ApiConfigBody)
    | DeleteApiConfigCall(name: string)

  // ---------------------------------------------------------------------------
  // Identifiers and names

  /** Every operation first needs the identifier's api to be an API identifier. */
  function ApiOf(id: ResourceIdentifier): (r: Result<ResourceIdentifier>)
    requires id.ApiConfigId?
    ensures r.Ok? <==> id.api.ApiId?
    ensures r.Ok? ==> r.value == id.api
    ensures r.Err? ==> r.error == ApiFieldNotApiIdentifier
  {
    if id.api.ApiId? then Ok(id.api) else Err(ApiFieldNotApiIdentifier)
  }

  /** The config's resource name, `projects/<p>/locations/global/apis/<a>/configs/<c>`. */
  function ConfigName(id: ResourceIdentifier): string
    requires id.ApiConfigId? && id.api.ApiId?
  {
    Patterns.ApiConfigName(id.api.project, id.api.apiId, id.apiConfigId)
  }

  /**
   * A config's name extends the name of the API it is created under, and the
   * gateway client's pattern reads the three parts back from it when they
   * hold no '/' or newline and the project is not empty.
   */
  lemma ConfigNameParts(id: ResourceIdentifier)
    requires id.ApiConfigId? && id.api.ApiId?
    requires |id.api.project| > 0 && '/' !in id.api.project && '/' !in id.api.apiId && '/' !in id.apiConfigId
    requires '\n' !in id.api.project && '\n' !in id.api.apiId && '\n' !in id.apiConfigId
    ensures ConfigName(id) == ApiClient.ApiName(id.api) + Patterns.ConfigsLit + id.apiConfigId
    ensures Patterns.MatchApiConfigName(ConfigName(id)) == Some((id.api.project, id.api.apiId, id.apiConfigId))
  {
    ApiClient.ConfigNameUnderApi(id.api, id.apiConfigId);
  }

  /** The gateway's service account, `<account>@<project>.iam.gserviceaccount.com`. */
  function GatewayAccount(sa: ResourceIdentifier): string
    requires sa.ServiceAccountId?
  {
    sa.accountId + "@" + sa.project + Patterns.MemberSuffix
  }

  /**
   * The gateway's service account is the email of the IAM member the policy
   * client writes for the same account, and the policy client reads that
   * member back as the account.
   */
  lemma GatewayAccountIsMember(sa: ResourceIdentifier)
    requires IamPolicy.RecoverableAccount(sa)
    ensures IamPolicy.EncodeMember(sa) == Ok(Patterns.MemberPrefix + GatewayAccount(sa))
    ensures IamPolicy.DecodeMember(Patterns.MemberPrefix + GatewayAccount(sa)) == Ok(sa)
  {
    Prepend(Patterns.MemberPrefix, sa.accountId, "@", sa.project, Patterns.MemberSuffix);
    IamPolicy.MemberRoundTrip(sa);
  }

  /** A prefix put before a four-part text is the first of five parts. */
  lemma Prepend(w: string, x: string, y: string, z: string, u: string)
    ensures w + (x + y + z + u) == w + x + y + z + u
  {
  }

  // ---------------------------------------------------------------------------
  // Documents

  /** One config file read from disk into a document; a read error is the error. */
  function ReadDocument(read: string -> Result<seq<byte>>, f: FileRef): (r: Result<Document>)
    ensures r.Err? <==> read(f.path).Err?
    ensures r.Err? ==> r.error == read(f.path).error
    ensures r.Ok? ==> r.value == Document(f.path, read(f.path).value)
  {
    match read(f.path)
    case Err(e) => Err(e)
    case Ok(data) => Ok(Document(f.path, data))
  }

  /** ReadDocument as a parse step over the config's files. */
  function Reader(read: string -> Result<seq<byte>>): FileRef -> Result<Document> {
    f => ReadDocument(read, f)
  }

  /** Create's document loop: one document per file, in order; the first failed read ends it with its error. */
  method ReadDocuments(files: seq<FileRef>, read: string -> Result<seq<byte>>) returns (r: Result<seq<Document>>)
    ensures r == Lists.ParseAll(files, Reader(read))
  {
    var docs := new Document[|files|];
    for i := 0 to |files|
      invariant forall k :: 0 <= k < i ==> Reader(read)(files[k]) == Ok(docs[k])
    {
      var data := read(files[i].path);
      if data.Err? {
        Lists.FirstFailure(files, Reader(read), i);
        return Err(data.error);
      }
      docs[i] := Document(files[i].path, data.value);
    }
    Lists.ParseAllCases(files, Reader(read));
    assert Lists.ParseAll(files, Reader(read)).value == docs[..];
    return Ok(docs[..]);
  }

  /**
   * Reading the config's files succeeds exactly when every file reads; each
   * document then has its file's path and contents, in file order, and
   * otherwise the error is that of the first file that does not read.
   */
  lemma ReadDocumentsCases(files: seq<FileRef>, read: string -> Result<seq<byte>>)
    ensures Lists.ParseAll(files, Reader(read)).Ok? <==> forall k :: 0 <= k < |files| ==> read(files[k].path).Ok?
    ensures Lists.ParseAll(files, Reader(read)).Ok? ==>
              |Lists.ParseAll(files, Reader(read)).value| == |files| &&
              forall k :: 0 <= k < |files| ==>
                Lists.ParseAll(files, Reader(read)).value[k] == Document(files[k].path, read(files[k].path).value)
    ensures Lists.ParseAll(files, Reader(read)).Err? ==>
              exists k :: 0 <= k < |files| && read(files[k].path).Err? &&
                          Lists.ParseAll(files, Reader(read)).error == read(files[k].path).error &&
                          forall j :: 0 <= j < k ==> read(files[j].path).Ok?
  {
    var f := Reader(read);
    forall k | 0 <= k < |files|
      ensures f(files[k]) == ReadDocument(read, files[k])
    {
    }
    Lists.ParseAllCases(files, f);
  }

  /** The files reported for documents: each document's path and the checksum of its contents, in order. */
  predicate Checksummed(files: seq<FileRef>, docs: seq<Document>, checksum: seq<byte> -> string) {
    |files| == |docs| &&
    forall k :: 0 <= k < |docs| ==> files[k] == FileRef(docs[k].path, checksum(docs[k].contents))
  }

  /** The files loop of Get, Create and Update, filling a slice made to the documents' length. */
  method FileList(docs: seq<Document>, checksum: seq<byte> -> string) returns (files: seq<FileRef>)
    ensures Checksummed(files, docs, checksum)
  {
    var a := new FileRef[|docs|];
    for i := 0 to |docs|
      invariant forall k :: 0 <= k < i ==> a[k] == FileRef(docs[k].path, checksum(docs[k].contents))
    {
      a[i] := FileRef(docs[i].path, checksum(docs[i].contents));
    }
    files := a[..];
  }

  /**
   * When the service returns the documents Create read, and each config file
   * carried the checksum of the contents read for it, the files reported are
   * the config's files.
   */
  lemma EchoedDocuments(files: seq<FileRef>, read: string -> Result<seq<byte>>, checksum: seq<byte> -> string,
                        reported: seq<FileRef>)
    requires Lists.ParseAll(files, Reader(read)).Ok?
    requires forall k :: 0 <= k < |files| ==> read(files[k].path).Ok? ==> files[k].checksum == checksum(read(files[k].path).value)
    requires Checksummed(reported, Lists.ParseAll(files, Reader(read)).value, checksum)
    ensures reported == files
  {
    ReadDocumentsCases(files, read);
  }

  // ---------------------------------------------------------------------------
  // Replies

  /** An API config reported from a reply: the identifier asked for, the reply's display name, files and attributes. */
  predicate Reports(x: ApiConfig, id: ResourceIdentifier, reply: ApiConfigReply, checksum: seq<byte> -> string) {
    x.identifier == id && x.config.displayName == reply.displayName &&
    Checksummed(x.config.openApiDocuments, reply.documents, checksum) &&
    x.attrs == Attrs(reply.create, reply.state, reply.update)
  }

  /** The API config built from a reply. */
  method Report(id: ResourceIdentifier, reply: ApiConfigReply, checksum: seq<byte> -> string) returns (x: ApiConfig)
    ensures Reports(x, id, reply, checksum)
  {
    var files := FileList(reply.documents, checksum);
    x := ApiConfig(id, Config(reply.displayName, files), Attrs(reply.create, reply.state, reply.update));
  }

  /** Create and Update, after the call: an error of the call or of the wait is passed on; a reply is reported. */
  method ReadBack(id: ResourceIdentifier, reply: Result<ApiConfigReply>, checksum: seq<byte> -> string) returns (r: Result<ApiConfig>)
    ensures reply.Err? ==> r == Err(reply.error)
    ensures reply.Ok? ==> r.Ok? && Reports(r.value, id, reply.value, checksum)
  {
    if reply.Err? {
      return Err(reply.error);
    }
    var x := Report(id, reply.value, checksum);
    return Ok(x);
  }

  // ---------------------------------------------------------------------------
  // The operations

  /**
   * Get: the api check first, with nothing sent when it fails; then one
   * GetApiConfig call on the config's name. A gRPC NotFound status is NotFound.
   */
  method GetApiConfig(id: ResourceIdentifier, checksum: seq<byte> -> string, reply: Result<ApiConfigReply>)
    returns (sent: seq<Request>, r: Result<ApiConfig>)
    requires id.ApiConfigId?
    ensures !id.api.ApiId? ==> sent == [] && r == Err(ApiFieldNotApiIdentifier)
    ensures id.api.ApiId? ==> sent == [GetApiConfigCall(ConfigName(id), Full)]
    ensures id.api.ApiId? && reply.Err? && reply.error == Vendor(GrpcNotFound) ==> r == Err(NotFound)
    ensures id.api.ApiId? && reply.Err? && reply.error != Vendor(GrpcNotFound) ==> r == Err(reply.error)
    ensures id.api.ApiId? && reply.Ok? ==> r.Ok? && Reports(r.value, id, reply.value, checksum)
  {
    var api := ApiOf(id);
    if api.Err? {
      return [], Err(api.error);
    }
    sent := [GetApiConfigCall(ConfigName(id), Full)];
    if reply.Err? {
      if reply.error == Vendor(GrpcNotFound) {
        return sent, Err(NotFound);
      }
      return sent, Err(reply.error);
    }
    var x := Report(id, reply.value, checksum);
    r := Ok(x);
  }

  /** What Create sends once every check has passed and every file has been read. */
  function CreateCall(id: ResourceIdentifier, config: Config, docs: seq<Document>): Request
    requires id.ApiConfigId? && id.api.ApiId?
    requires id.serviceAccount.Some? && id.serviceAccount.value.ServiceAccountId?
  {
    CreateApiConfigCall(ApiClient.ApiName(id.api), id.apiConfigId,
                        ApiConfigBody("", config.displayName, GatewayAccount(id.serviceAccount.value), docs))
  }

  /**
   * Create: the api check, then the service account check, then the file
   * reads, any failure ending it with nothing sent; then one CreateApiConfig
   * call under the API, carrying the display name, the gateway's service
   * account and the documents read.
   */
  method CreateApiConfig(id: ResourceIdentifier, config: Config, read: string -> Result<seq<byte>>,
                         checksum: seq<byte> -> string, reply: Result<ApiConfigReply>)
    returns (sent: seq<Request>, r: Result<ApiConfig>)
    requires id.ApiConfigId?
    ensures !id.api.ApiId? ==> sent == [] && r == Err(ApiFieldNotApiIdentifier)
    ensures id.api.ApiId? && !(id.serviceAccount.Some? && id.serviceAccount.value.ServiceAccountId?) ==>
              sent == [] && r == Err(ServiceAccountFieldNotServiceAccountIdentifier)
    ensures id.api.ApiId? && id.serviceAccount.Some? && id.serviceAccount.value.ServiceAccountId? ==>
              var docs := Lists.ParseAll(config.openApiDocuments, Reader(read));
              (docs.Err? ==> sent == [] && r == Err(docs.error)) &&
              (docs.Ok? ==> sent == [CreateCall(id, config, docs.value)]) &&
              (docs.Ok? && reply.Err? ==> r == Err(reply.error)) &&
              (docs.Ok? && reply.Ok? ==> r.Ok? && Reports(r.value, id, reply.value, checksum))
  {
    var api := ApiOf(id);
    if api.Err? {
      return [], Err(api.error);
    }
    if !(id.serviceAccount.Some? && id.serviceAccount.value.ServiceAccountId?) {
      return [], Err(ServiceAccountFieldNotServiceAccountIdentifier);
    }
    var docs := ReadDocuments(config.openApiDocuments, read);
    if docs.Err? {
      return [], Err(docs.error);
    }
    sent := [CreateCall(id, config, docs.value)];
    r := ReadBack(id, reply, checksum);
  }

  /** The field paths an API config update honours: display_name alone. */
  function ConfigPath(name: string): (p: Option<string>)
    ensures p.Some? <==> name == "display_name"
    ensures p.Some? ==> p.value == name
  {
    if name == "display_name" then Some(name) else None
  }

  /** The body an update sends: the name always, the display name only when masked. */
  function MaskedBody(id: ResourceIdentifier, config: Config, mask: seq<MaskField>): ApiConfigBody
    requires id.ApiConfigId? && id.api.ApiId?
  {
    ApiConfigBody(ConfigName(id), if Masks.Masked(mask, "display_name") then config.displayName else "", "", [])
  }

  /** Update's mask loop: each display_name entry copies the display name and appends its path. */
  method MaskLoop(id: ResourceIdentifier, config: Config, mask: seq<MaskField>) returns (body: ApiConfigBody, paths: seq<string>)
    requires id.ApiConfigId? && id.api.ApiId?
    ensures body == MaskedBody(id, config, mask)
    ensures paths == Masks.Paths(mask, ConfigPath)
  {
    body := ApiConfigBody(ConfigName(id), "", "", []);
    paths := [];
    var i := 0;
    while i < |mask|
      invariant 0 <= i <= |mask|
      invariant Masks.Paths(mask, ConfigPath) == paths + Masks.Paths(mask[i..], ConfigPath)
      invariant body == ApiConfigBody(ConfigName(id), if Masks.MaskedBefore(mask, i, "display_name") then config.displayName else "", "", [])
    {
      Masks.PathsFrom(mask, i, ConfigPath);
      Masks.MaskedStep(mask, i, "display_name");
      var own: seq<string> := [];
      if mask[i].name == "display_name" {
        body, own := body.(displayName := config.displayName), ["display_name"];
      }
      assert own == Masks.EntryPath(mask[i], ConfigPath);
      Masks.Regroup(paths, own, Masks.Paths(mask[i + 1..], ConfigPath));
      paths := paths + own;
      i := i + 1;
    }
    assert mask[i..] == [];
    assert paths + [] == paths;
  }

  /**
   * Update: the api check first, with nothing sent when it fails; then one
   * UpdateApiConfig call on the body and field mask the mask loop builds.
   */
  method UpdateApiConfig(id: ResourceIdentifier, config: Config, mask: seq<MaskField>,
                         checksum: seq<byte> -> string, reply: Result<ApiConfigReply>)
    returns (sent: seq<Request>, r: Result<ApiConfig>)
    requires id.ApiConfigId?
    ensures !id.api.ApiId? ==> sent == [] && r == Err(ApiFieldNotApiIdentifier)
    ensures id.api.ApiId? ==> sent == [UpdateApiConfigCall(Masks.Paths(mask, ConfigPath), MaskedBody(id, config, mask))]
    ensures id.api.ApiId? && reply.Err? ==> r == Err(reply.error)
    ensures id.api.ApiId? && reply.Ok? ==> r.Ok? && Reports(r.value, id, reply.value, checksum)
  {
    var api := ApiOf(id);
    if api.Err? {
      return [], Err(api.error);
    }
    var body, paths := MaskLoop(id, config, mask);
    sent := [UpdateApiConfigCall(paths, body)];
    r := ReadBack(id, reply, checksum);
  }

  /**
   * The display name travels, and display_name is in the field mask, exactly
   * when the mask names it; every other entry leaves the update as it was.
   */
  lemma MaskedDisplayName(id: ResourceIdentifier, config: Config, a: seq<MaskField>, m: MaskField, b: seq<MaskField>)
    requires id.ApiConfigId? && id.api.ApiId?
    ensures "display_name" in Masks.Paths(a + b, ConfigPath) <==> Masks.Masked(a + b, "display_name")
    ensures Masks.Masked(a + b, "display_name") ==> MaskedBody(id, config, a + b).displayName == config.displayName
    ensures m.name != "display_name" ==>
              MaskedBody(id, config, a + [m] + b) == MaskedBody(id, config, a + b) &&
              Masks.Paths(a + [m] + b, ConfigPath) == Masks.Paths(a + b, ConfigPath)
  {
    Masks.PathsMasked(a + b, ConfigPath, "display_name");
    if m.name != "display_name" {
      Masks.PathsSkip(a, m, b, ConfigPath);
      Masks.MaskedSkip(a, m, b, "display_name");
    }
  }

  /** Delete: the api check first, with nothing sent when it fails; then one DeleteApiConfig call, waited on. */
  function DeleteApiConfig(id: ResourceIdentifier, outcome: Option<Error>): (result: (seq<Request>, Option<Error>))
    requires id.ApiConfigId?
    ensures !id.api.ApiId? ==> result == ([], Some(ApiFieldNotApiIdentifier))
    ensures id.api.ApiId? ==> result.0 == [DeleteApiConfigCall(ConfigName(id))] && result.1 == outcome
  {
    if !id.api.ApiId? then ([], Some(ApiFieldNotApiIdentifier))
    else ([DeleteApiConfigCall(ConfigName(id))], outcome)
  }
}
