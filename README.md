# athanor-provider-gcp, modelled in Dafny

This project models the request-building and value-conversion layer of the
Google Cloud provider for the athanor orchestrator. The provider's generated
code turns the orchestrator's loosely typed values into typed resources. Its
hand-written clients turn those resources into Google Cloud requests and read
the replies back. The model covers:

- **Identifiers** (`Identifiers`): each resource identifier's `ToValue`, its
  `Parse*Identifier` and the `ParseIdentifier` registry. The registry
  dispatches on the resource-type tag and knows only four tags.
- **Generated codecs and handlers** (`ApiGatewayCodec`, `ApiConfigCodec`,
  `BucketCodec`, `ServiceAccountCodec`, `Handlers`): the attrs and config
  `ToValue`/`Parse*`/`Parse*List` functions, and the
  Get/Create/Update/Delete/Close handler wrappers. A wrapper checks its
  capability, parses the identifier and then the config, and only then calls
  the capability.
- **The IAM policy client** (`IamPolicy`): it decodes wire role and member
  strings into identifiers, and encodes custom roles and service accounts
  back. `IamPolicy.IamPolicyClient` records the GetIamPolicy/SetIamPolicy
  requests it sends, so the order of requests and the etags they reuse are
  statements about that trace.
- **The other hand-written clients** (`BucketClient`, `ApiGatewayClient`,
  `ApiClient`, `ApiConfigClient`, `RoleClient`): label coercion and label
  edits, update-mask handling, launch-stage conversion, resource-name
  formatting, the gateway's API-config name parser, and the mapping of
  NotFound errors. Each operation returns the vendor calls it makes, in order,
  and takes the vendor's reply as a parameter.
- **Shared pieces**: Go's `strings.Split` and `%x` (`Strings`); the two
  regular expressions, as leftmost-first greedy matchers (`Patterns`); the
  mask-to-field-path loop (`Masks`); the generated list loops (`Lists`); and
  the value accessors of the orchestrator's SDK (`Values`).

Every error message the source formats is its own `Error` constructor, so a
contract can say which error an operation reports.

## Model

| member | source | states |
|---|---|---|
| Values.Get | gen/provider/identifier/api.go:38-42 | Looking up a missing key in a Go map yields nil; a present key yields its value |
| Values.AsMap | gen/provider/identifier/api.go:33-36 | sdk.Map succeeds exactly on a map value and returns its entries; anything else fails with NotAMap |
| Values.AsString | gen/provider/identifier/api.go:38-45 | sdk.String succeeds exactly on a string value (so nil fails); otherwise NotAString |
| Values.AsBool | gen/provider/service_account/service_account.go:156-159 | sdk.Bool succeeds exactly on a boolean value; otherwise NotABool |
| Values.AsStringMap | gen/provider/bucket/bucket.go:205-214 | A string map decodes exactly when every entry is a string; the keys and values are kept |
| Values.StringMap | gen/provider/bucket/bucket.go:199-203 | Encoding a string map keeps its keys and decodes back to the same map |
| Values.AsFileList | gen/provider/api_config/api_config.go:195-213 | A file list decodes exactly when every element is a file; length and order are kept |
| Values.FileList | gen/provider/api_config/api_config.go:188-193 | Encoding a file list decodes back to the same list |
| Identifiers.ToValue | gen/provider/identifier/api.go:17-29 | The tag ToValue writes is the identifier's ResourceType(), and the field map has exactly that type's keys (api_id and project for an API; name for a role; name and project for a custom role) |
| Identifiers.StringField | gen/provider/identifier/api.go:38-45 | A field parses exactly when present as a string; the error names the identifier's parse context |
| Identifiers.ParseApiIdentifier | gen/provider/identifier/api.go:31-51 | Succeeds exactly on a map holding strings api_id and project, and returns them; a non-map is NotAMap; a missing or non-string field is NotAString; the tag is not read |
| Identifiers.ParseIamRoleIdentifier | gen/provider/identifier/iam_role.go:29-44 | Succeeds exactly on a map holding a string name; the non-map and bad-field errors are distinct |
| Identifiers.ParseIamRoleCustomProjectIdentifier | gen/provider/identifier/iam_role_custom_project.go:31-51 | Succeeds exactly on a map holding strings name and project; the non-map and bad-field errors are distinct |
| Identifiers.ApiRoundTrip | gen/provider/identifier/api.go:17-51 | ParseApiIdentifier(ToValue(x)) == x for every API identifier |
| Identifiers.IamRoleRoundTrip | gen/provider/identifier/iam_role.go:16-44 | ParseIamRoleIdentifier(ToValue(x)) == x for every role identifier |
| Identifiers.IamRoleCustomProjectRoundTrip | gen/provider/identifier/iam_role_custom_project.go:17-51 | ParseIamRoleCustomProjectIdentifier(ToValue(x)) == x for every custom role identifier |
| Identifiers.ParsersIgnoreTag | gen/provider/identifier/api.go:31-51 | The three parsers give the same result whatever tag the value carries, so a differently tagged identifier with the right fields parses |
| Identifiers.ParseIdentifier | gen/provider/identifier/identifier.go:12-31 | A non-identifier value is an error; tags bucket, bucket_object, function and service_account go to their own parser, whose result is returned unchanged; every other tag is "invalid resource type" |
| Identifiers.ParseIdentifierIn | gen/provider/identifier/identifier.go:12-31 | The dispatch over a given set of known tags: non-identifiers and unknown tags fail before any field is read, and a success always has the tag it was read from |
| Identifiers.ParseTagged | gen/provider/identifier/identifier.go:18-29 | The parser a tag selects yields an identifier of that tag's type |
| Identifiers.RegistryRoundTrip | gen/provider/identifier/identifier.go:18-29 | An identifier reads back through a registry exactly when its tag, and the tag of every identifier nested in it, is in the registry; it then reads back unchanged |
| Identifiers.SourceRegistryRoundTrip | gen/provider/identifier/identifier.go:18-29 | Through the four-tag registry, buckets, functions and service accounts read back, and so do bucket objects whose bucket does; any identifier with another tag is "invalid resource type" |
| Identifiers.AllResolvable | gen/provider/identifier/identifier.go:18-29 | With every tag known, an identifier resolves exactly when every optional service account in it is present |
| Identifiers.CompleteRegistryRoundTrip | gen/provider/identifier/identifier.go:18-29 | With every tag known, ToValue then ParseIdentifier is the identity on every identifier whose optional service accounts are present |
| Handlers.GetResource | gen/provider/api_gateway/api_gateway.go:58-74 | A nil Getter is Unimplemented; an identifier parse error is returned as is; success means every step succeeded, and the result is the resource's value form |
| Handlers.CreateResource | gen/provider/api_gateway/api_gateway.go:76-97 | A nil Creator is Unimplemented; the identifier error comes before the config error; success means both parses and the Creator succeeded |
| Handlers.UpdateResource | gen/provider/api_gateway/api_gateway.go:99-120 | The same as Create for the Updator, which receives the mask unchanged |
| Handlers.DeleteResource | gen/provider/api_gateway/api_gateway.go:122-133 | A nil Deleter is Unimplemented; an identifier parse error is returned; otherwise the Deleter's outcome |
| Handlers.Close | gen/provider/api_gateway/api_gateway.go:135-141 | Close returns CloseFunc() when it is set, and nil otherwise |
| Handlers.GetParseFailureSkipsGetter | gen/provider/api_gateway/api_gateway.go:63-66 | When the identifier does not parse, the result does not depend on the Getter, so the Getter is not called |
| Handlers.CreateParseFailureSkipsCreator | gen/provider/api_gateway/api_gateway.go:81-89 | When the identifier or the config does not parse, the result does not depend on the Creator |
| Handlers.UpdateParseFailureSkipsUpdator | gen/provider/api_gateway/api_gateway.go:104-112 | When the identifier or the config does not parse, the result does not depend on the Updator |
| Handlers.DeleteParseFailureSkipsDeleter | gen/provider/api_gateway/api_gateway.go:127-130 | When the identifier does not parse, the result does not depend on the Deleter |
| Lists.ParseAllCases | gen/provider/api_gateway/api_gateway.go:190-207 | A list parses exactly when every element does, giving one result per element in order; otherwise the error is that of the first failing element |
| Lists.ParseList | gen/provider/api_gateway/api_gateway.go:249-266 | A non-list is "invalid list type"; a list is parsed element by element (the loop appends each parsed element) |
| ApiGatewayCodec.AttrsToValue | gen/provider/api_gateway/api_gateway.go:150-157 | The attrs value is a map with exactly the keys create, default_hostname, state and update |
| ApiGatewayCodec.ParseAttrs | gen/provider/api_gateway/api_gateway.go:159-188 | Succeeds exactly on a map holding the four strings; a non-map and a bad field give different errors, and no partial result |
| ApiGatewayCodec.AttrsRoundTrip | gen/provider/api_gateway/api_gateway.go:150-188 | ParseAttrs(ToValue(a)) == a |
| ApiGatewayCodec.ConfigToValue | gen/provider/api_gateway/api_gateway.go:215-221 | The config value has exactly the keys api_config, display_name and labels; api_config is the identifier's value form |
| ApiGatewayCodec.ParseConfigIn | gen/provider/api_gateway/api_gateway.go:223-247 | All or nothing: a non-map is an error; an api_config that does not resolve is reported before any other field; success exactly when api_config resolves, display_name is a string and labels a string map, and then all three are returned |
| ApiGatewayCodec.ParseConfig | gen/provider/api_gateway/api_gateway.go:223-247 | As written: api_config goes through the four-tag registry, so a parsed api_config always has one of those four tags |
| ApiGatewayCodec.ConfigRoundTripIn | gen/provider/api_gateway/api_gateway.go:215-247 | A config reads back through a registry exactly when its api_config does, and then unchanged |
| ApiGatewayCodec.ParseConfigRejectsApiConfig | gen/provider/api_gateway/api_gateway.go:229 | As written, every config whose api_config is an API config identifier fails to parse, with "invalid resource type: api_config" |
| ApiGatewayCodec.ParseConfigComplete | gen/provider/api_gateway/api_gateway.go:223-247 | Corrected: api_config is resolved through a registry that knows every identifier type; the config parses exactly when its three fields do, and the parsed api_config keeps the tag it was read from |
| ApiGatewayCodec.ConfigRoundTripComplete | gen/provider/api_gateway/api_gateway.go:215-247 | Corrected: ParseConfig(ToValue(c)) == c whenever c's api_config carries its service accounts |
| ApiGatewayCodec.ParseAttrsList | gen/provider/api_gateway/api_gateway.go:190-207 | Rejects a non-list; otherwise succeeds exactly when every element parses, with one attrs per element in order; a failure is the error of the first element that fails |
| ApiGatewayCodec.ParseConfigList | gen/provider/api_gateway/api_gateway.go:249-266 | Rejects a non-list; otherwise succeeds exactly when every element parses, with one config per element in order; a failure is the error of the first element that fails |
| ApiGatewayCodec.ToResourceValue | gen/provider/api_gateway/api_gateway.go:19-31 | The resource value carries the identifier's, the config's and the attrs' value forms |
| ApiGatewayCodec.ResourceRoundTrip | gen/provider/api_gateway/api_gateway.go:19-31 | The reported resource value reads back: the gateway identifier and the attrs always; the config with the complete registry whenever its service accounts are present; as written, a config naming an API config identifier is rejected |
| ApiGatewayCodec.UpdateHandlerRejectsApiConfig | gen/provider/api_gateway/api_gateway.go:99-120 | As written, the generated Update handler fails on every well-formed gateway config, before the Updator is called |
| ApiGatewayCodec.UpdateHandlerCompleteRoundTrip | gen/provider/api_gateway/api_gateway.go:99-120 | Corrected: the Update handler passes the gateway's own identifier, config and mask to the Updator; the Updator's error comes back unchanged, and its resource in value form |
| ApiConfigCodec.AttrsToValue | gen/provider/api_config/api_config.go:149-155 | The attrs value is a map with exactly the keys create, state and update |
| ApiConfigCodec.ParseAttrs | gen/provider/api_config/api_config.go:157-181 | Succeeds exactly on a map holding the three strings; otherwise an error and no partial result |
| ApiConfigCodec.AttrsRoundTrip | gen/provider/api_config/api_config.go:149-181 | ParseAttrs(ToValue(a)) == a |
| ApiConfigCodec.ConfigToValue | gen/provider/api_config/api_config.go:188-193 | The config value has exactly the keys display_name and open_api_documents, one list element per file |
| ApiConfigCodec.ParseConfig | gen/provider/api_config/api_config.go:195-214 | Succeeds exactly on a map with a string display_name and a file list; the errors for the two fields are distinct; the files are kept, in order |
| ApiConfigCodec.ConfigRoundTrip | gen/provider/api_config/api_config.go:188-214 | ParseConfig(ToValue(c)) == c: the display name and the ordered file list are kept |
| ApiConfigCodec.ToResourceValue | gen/provider/api_config/api_config.go:19-31 | The resource value carries the three value forms |
| ApiConfigCodec.ResourceRoundTrip | gen/provider/api_config/api_config.go:19-31 | The config and attrs of the reported resource value read back as they were |
| ApiConfigCodec.GetHandlerNestedApi | gen/provider/api_config/api_config.go:58-74 | A Get that succeeds has parsed an API config identifier whose api has one of the four registry tags, and so is never an API identifier |
| BucketCodec.AttrsToValue | gen/provider/bucket/bucket.go:148-153 | The attrs value has exactly the keys create and etag |
| BucketCodec.ParseAttrs | gen/provider/bucket/bucket.go:155-174 | Succeeds exactly on a map holding strings create and etag; otherwise an error and no partial result |
| BucketCodec.AttrsRoundTrip | gen/provider/bucket/bucket.go:148-174 | ParseAttrs(ToValue(a)) == a |
| BucketCodec.ConfigToValue | gen/provider/bucket/bucket.go:199-203 | The config value has exactly the key labels, a string map of the labels |
| BucketCodec.ParseConfig | gen/provider/bucket/bucket.go:205-219 | Succeeds exactly on a map whose labels are a string map, keeping every key and value; otherwise an error |
| BucketCodec.ConfigRoundTrip | gen/provider/bucket/bucket.go:199-219 | ParseConfig(ToValue(c)) == c for the labels map |
| BucketCodec.ParseAttrsList | gen/provider/bucket/bucket.go:176-193 | Rejects a non-list; otherwise succeeds exactly when every element parses, keeping order and length; a failure is the error of the first element that fails |
| BucketCodec.ParseConfigList | gen/provider/bucket/bucket.go:221-238 | Rejects a non-list; otherwise succeeds exactly when every element parses, keeping order and length; a failure is the error of the first element that fails |
| BucketCodec.ToResourceValue | gen/provider/bucket/bucket.go:19-31 | The resource value carries the three value forms |
| BucketCodec.ResourceRoundTrip | gen/provider/bucket/bucket.go:19-31 | The reported resource value reads back: the bucket identifier, the labels and the attrs |
| BucketCodec.CreateHandlerRoundTrip | gen/provider/bucket/bucket.go:76-97 | The Create handler, given a bucket identifier and config in value form, calls the Creator on them unchanged and reports its result |
| ServiceAccountCodec.AttrsToValue | gen/provider/service_account/service_account.go:138-143 | The attrs value has exactly the keys unique_id and disabled |
| ServiceAccountCodec.ParseAttrs | gen/provider/service_account/service_account.go:145-165 | Never fails: a well-formed map gives its fields, and any malformed input gives the zero struct with no error |
| ServiceAccountCodec.AttrsRoundTrip | gen/provider/service_account/service_account.go:138-165 | ParseAttrs(ToValue(a)) == a |
| ServiceAccountCodec.ConfigToValue | gen/provider/service_account/service_account.go:172-177 | The config value has exactly the keys display_name and description |
| ServiceAccountCodec.ParseConfig | gen/provider/service_account/service_account.go:179-199 | Never fails: a well-formed map gives its fields, and any malformed input gives the zero struct |
| ServiceAccountCodec.ConfigRoundTrip | gen/provider/service_account/service_account.go:172-199 | ParseConfig(ToValue(c)) == c |
| ServiceAccountCodec.ToResourceValue | gen/provider/service_account/service_account.go:19-31 | The resource value carries the three value forms |
| ServiceAccountCodec.ResourceRoundTrip | gen/provider/service_account/service_account.go:19-31 | The reported resource value reads back: the service account identifier, the config and the attrs |
| ServiceAccountCodec.CreateHandlerMalformedConfig | gen/provider/service_account/service_account.go:74-95 | A config that is not a map does not stop Create: the Creator is called with the zero config |
| Strings.Split | internal/iam_policy/iam_policy.go:105 | strings.Split always yields at least one piece |
| Strings.SplitLength | internal/iam_policy/iam_policy.go:114-115 | The number of pieces is the number of separators plus one, so `len(parts) < 4` means fewer than three '/' |
| Strings.SplitPiecesFree | internal/iam_policy/iam_policy.go:105 | No piece contains the separator |
| Strings.JoinSplit | internal/iam_policy/iam_policy.go:105 | Joining the pieces with the separator gives back the string |
| Strings.SplitJoin | internal/iam_policy/iam_policy.go:105 | Splitting a join of separator-free pieces gives back the pieces |
| Strings.Hex | internal/iam_policy/iam_policy.go:136 | `%x` of n bytes is 2n lowercase hexadecimal digits |
| Strings.UnhexHex | internal/iam_policy/iam_policy.go:136 | The hex text of an etag decodes back to the etag's bytes |
| Strings.HexInjective | internal/iam_policy/iam_policy.go:136 | Different etags are reported as different hex texts |
| Patterns.MatchServiceAccount | internal/iam_policy/iam_policy.go:24 | customServiceAccountRe's groups 1 and 2, each non-empty and newline-free, or None when the pattern does not occur |
| Patterns.MatchServiceAccountFinds | internal/iam_policy/iam_policy.go:86-89 | The matcher finds a match exactly when the pattern matches somewhere in the member |
| Patterns.SearchMemberLeftmost | internal/iam_policy/iam_policy.go:24 | The match found starts leftmost, and each group is the longest that still lets the rest match |
| Patterns.MemberRoundTrip | internal/iam_policy/iam_policy.go:24 | The member written for (account, project) reads back as (account, project) when both are non-empty, the project holds no '@' and neither holds a newline |
| Patterns.MatchApiConfigName | internal/api_gateway/api_gateway.go:22 | apiConfigRe's three groups; the project group `(.+)` is never empty |
| Patterns.MatchApiConfigNameFinds | internal/api_gateway/api_gateway.go:65-68 | The matcher finds a match exactly when the pattern matches somewhere in the name |
| Patterns.SearchConfigLeftmost | internal/api_gateway/api_gateway.go:22 | The match found starts leftmost, and each group is the longest that still lets the rest match |
| Patterns.ApiConfigNameRoundTrip | internal/api_gateway/api_gateway.go:114-122 | `projects/P/locations/global/apis/A/configs/C` reads back as (P, A, C) when P is non-empty and none holds '/' or a newline |
| Masks.PathsAppend | internal/api_gateway/api_gateway.go:164-174 | The field mask of two masks in a row is the first's paths followed by the second's, so paths keep mask order and repeats |
| Masks.PathsSkip | internal/api_gateway/api_gateway.go:164-174 | A mask entry with a name the client does not know adds no path, wherever it stands |
| Masks.PathsKeep | internal/api_gateway/api_gateway.go:164-174 | A known entry puts its path at its own place among the others |
| Masks.PathsMasked | internal/api/api.go:113-122 | A known name's path is in the field mask exactly when some entry has that name |
| IamPolicy.FunctionName | internal/iam_policy/iam_policy.go:62 | A function's resource name starts `projects/` |
| IamPolicy.DecodeMember | internal/iam_policy/iam_policy.go:79-99 | A decoded member is always a service account with non-empty account id and project |
| IamPolicy.DecodeMemberCases | internal/iam_policy/iam_policy.go:79-99 | "unsupported member type" exactly when the text before the first ':' is not serviceAccount; success exactly when it is and the pattern matches; groups 1 and 2 become AccountId and Project |
| IamPolicy.MemberTypeIsServiceAccount | internal/iam_policy/iam_policy.go:79-84 | The first ':'-piece is serviceAccount exactly when the member is `serviceAccount` or starts with `serviceAccount:` |
| IamPolicy.DecodeRole | internal/iam_policy/iam_policy.go:102-122 | A decoded role is a predefined or a custom project role; the only error is the custom-role one |
| IamPolicy.DecodeRoleCases | internal/iam_policy/iam_policy.go:102-122 | An error exactly for a `projects/` role with fewer than 4 pieces; a nil role with no error exactly when neither prefix matches; `roles/` takes piece 1 as the name (the `< 2` check never fires); `projects/` takes pieces 1 and 3 |
| IamPolicy.PredefinedRole | internal/iam_policy/iam_policy.go:104-112 | `roles/<n>` followed by anything from a '/' on decodes to IamRole(n): later pieces are dropped |
| IamPolicy.CustomRoleIgnoresThirdPiece | internal/iam_policy/iam_policy.go:113-121 | `projects/<p>/<x>/<n>` decodes to (p, n) whatever the piece x is |
| IamPolicy.DecodeBinding | internal/iam_policy/iam_policy.go:76-127 | A binding decodes exactly when every member and the role decode; members keep their order, the first member error is the binding's error, and with the members decoded a bad role's error is |
| IamPolicy.DecodePolicy | internal/iam_policy/iam_policy.go:74-138 | A policy decodes exactly when every binding does, one binding per wire binding in order, and its etag is the hex of the wire etag |
| IamPolicy.CustomRoleName | internal/iam_policy/iam_policy.go:153 | A custom role name starts `projects/` |
| IamPolicy.EncodeRole | internal/iam_policy/iam_policy.go:150-156 | Only a custom project role encodes; any other role, nil included, is "unsupported role type" |
| IamPolicy.EncodeMember | internal/iam_policy/iam_policy.go:158-166 | Only a service account encodes; any other member is "unsupported member type" |
| IamPolicy.EncodeBinding | internal/iam_policy/iam_policy.go:148-171 | A binding encodes exactly when its role and all its members do; the role error is reported first; the member count is kept |
| IamPolicy.CustomRoleRoundTrip | internal/iam_policy/iam_policy.go:113-121 | Encoding a custom role and decoding it gives it back when project and name hold no '/' |
| IamPolicy.MemberRoundTrip | internal/iam_policy/iam_policy.go:86-96 | Encoding a service account and decoding it gives it back when both parts are non-empty and newline-free and the project holds no '@' |
| IamPolicy.BindingRoundTrip | internal/iam_policy/iam_policy.go:148-171 | A binding of a custom role and such service accounts encodes, and decodes back to itself |
| IamPolicy.BindingsRoundTrip | internal/iam_policy/iam_policy.go:148-172 | The same for a whole list of bindings, in order |
| IamPolicy.DecodeMembers | internal/iam_policy/iam_policy.go:76-100 | The member loop yields the same result as decoding every member, stopping at the first error |
| IamPolicy.DecodeBindings | internal/iam_policy/iam_policy.go:74-128 | The binding loop yields the same result as decoding every binding, stopping at the first error |
| IamPolicy.EncodeMembers | internal/iam_policy/iam_policy.go:158-166 | The member loop yields the same result as encoding every member, stopping at the first error |
| IamPolicy.EncodeBindings | internal/iam_policy/iam_policy.go:148-172 | The binding loop yields the same result as encoding every binding, stopping at the first error |
| IamPolicy.GetOutcome | internal/iam_policy/iam_policy.go:66-72 | A vendor error is passed on; a policy with no bindings is NotFound; otherwise the decoded policy, which always has a binding |
| IamPolicy.SetOutcome | internal/iam_policy/iam_policy.go:181-247 | A vendor error is passed on; otherwise the decoded policy, with no NotFound rule, so an empty policy is reported as empty |
| IamPolicy.DecodeReply | internal/iam_policy/iam_policy.go:185-237 | The reply-decoding loop of Create and Update yields SetOutcome |
| IamPolicy.EchoedPolicyRoundTrip | internal/iam_policy/iam_policy.go:148-247 | A vendor that echoes the policy it was sent makes the client report the config it was given, with the etag in hex |
| IamPolicy.IamPolicyClient.Get | internal/iam_policy/iam_policy.go:59-142 | A non-function resource is an error with no request; otherwise exactly one GetIamPolicy on the function's name, and GetOutcome of the reply |
| IamPolicy.IamPolicyClient.Create | internal/iam_policy/iam_policy.go:144-251 | A non-function resource or a binding that does not encode is an error with no request; otherwise one SetIamPolicy with version 3, the encoded bindings and no etag |
| IamPolicy.IamPolicyClient.Update | internal/iam_policy/iam_policy.go:253-369 | A GetIamPolicy first; then, if it succeeded and the bindings encode, a SetIamPolicy with version 3 and the fetched raw etag; the mask is not used |
| IamPolicy.IamPolicyClient.Delete | internal/iam_policy/iam_policy.go:371-394 | A GetIamPolicy, then a SetIamPolicy with version 3, no bindings and the fetched etag; a non-function resource is "invalid identifier type" with no request |
| BucketClient.CopyLabels | internal/bucket/bucket.go:48-51 | The copied labels hold exactly the vendor's labels, as strings |
| BucketClient.Reported | internal/bucket/bucket.go:48-60 | The reported bucket has the identifier asked for, the vendor's creation time and labels |
| BucketClient.ReadBack | internal/bucket/bucket.go:89-107 | A vendor error is passed on; otherwise the reported bucket |
| BucketClient.GetFailure | internal/bucket/bucket.go:39-46 | A missing bucket is NotFound and only that; any other failure is wrapped with "oh no" |
| BucketClient.GetBucket | internal/bucket/bucket.go:37-61 | One Attrs call on the bucket's name; its failure mapped by GetFailure, its reply reported |
| BucketClient.CoerceLabels | internal/bucket/bucket.go:72-79 | Succeeds exactly when every label value is a string, keeping every label; otherwise the error names a label whose value is not a string |
| BucketClient.CreateBucket | internal/bucket/bucket.go:64-107 | A non-string label is an error raised before any call; otherwise Create with the coerced labels and location, then Attrs unless Create failed |
| BucketClient.EchoedLabelsRoundTrip | internal/bucket/bucket.go:72-105 | A bucket created with string labels and echoed by the vendor is reported with the labels it was given |
| BucketClient.OwnLabels | internal/bucket/bucket.go:119-121 | Only an entry named labels contributes sub-fields |
| BucketClient.EditFor | internal/bucket/bucket.go:122-137 | A Delete sub-field deletes its label; any other sets it to the config's string; a missing key is "value for label is missing" and a non-string "is not a string" |
| BucketClient.LabelEditsCases | internal/bucket/bucket.go:118-139 | The edits succeed exactly when every labels sub-field is a delete or has a string in the config, one edit per sub-field in order; otherwise the error is that of a failing non-delete sub-field |
| BucketClient.UnmaskedEntryIgnored | internal/bucket/bucket.go:119-121 | An entry not named labels changes nothing, wherever it stands |
| BucketClient.DeletesIgnoreConfig | internal/bucket/bucket.go:123-124 | When every sub-field is a delete, the edits succeed, are all deletes and do not depend on the config |
| BucketClient.EntryEdits | internal/bucket/bucket.go:122-137 | The sub-field loop yields the edits of its sub-fields, stopping at the first error |
| BucketClient.MaskEdits | internal/bucket/bucket.go:118-139 | The mask loop yields LabelEdits of the mask |
| BucketClient.UpdateBucket | internal/bucket/bucket.go:110-160 | Any mask error is returned with nothing sent; otherwise one Update call with the edits, and its reply reported |
| BucketClient.DeleteBucket | internal/bucket/bucket.go:163-172 | One Delete call on the bucket's name; its outcome is the result |
| ApiGatewayClient.TargetConfigName | internal/api_gateway/api_gateway.go:98-114 | A non-API-config identifier and a non-API nested api are two distinct errors; otherwise the formatted API config name |
| ApiGatewayClient.Reported | internal/api_gateway/api_gateway.go:126-150 | An api_config the pattern does not match is "invalid API config ID"; otherwise the gateway with the reply's fields and an API config identifier in the given project (Get) or the parsed one (Create, Update) |
| ApiGatewayClient.EchoedApiConfig | internal/api_gateway/api_gateway.go:114-140 | A reply echoing the written api_config reads back to the config's API config identifier; Get puts the API in the gateway's project instead |
| ApiGatewayClient.GetGateway | internal/api_gateway/api_gateway.go:54-95 | One GetGateway call on the gateway's name; a gRPC NotFound is NotFound; other errors pass; a reply is reported with the gateway's project |
| ApiGatewayClient.CreateGateway | internal/api_gateway/api_gateway.go:97-151 | The identifier checks come first with nothing sent; then one CreateGateway under the parent with the labels, display name and API config name |
| ApiGatewayClient.GatewayPath | internal/api_gateway/api_gateway.go:166-173 | Exactly labels, display_name and api_config have a path, their own name |
| ApiGatewayClient.UpdatePaths | internal/api_gateway/api_gateway.go:164-174 | The mask loop's paths are the mask's known names in order, repeats kept |
| ApiGatewayClient.UpdateGateway | internal/api_gateway/api_gateway.go:153-219 | The identifier checks first; then one UpdateGateway whose field mask follows the mask and whose body carries every field whatever the mask |
| ApiGatewayClient.DeleteGateway | internal/api_gateway/api_gateway.go:221-230 | One DeleteGateway call on the gateway's name; its outcome is the result |
| ApiClient.ConfigNameUnderApi | internal/api/api.go:56 | An API config's name is the API's name followed by `/configs/<c>`, and the config name pattern reads the API back from it |
| ApiClient.ReadBack | internal/api/api.go:89-105 | A call or wait error is passed on; a reply is reported with the identifier asked for, its display name and labels as config and its create, update and state as attrs |
| ApiClient.GetApi | internal/api/api.go:54-78 | One GetApi call on `projects/<p>/locations/global/apis/<a>`; a gRPC NotFound is NotFound |
| ApiClient.CreateApi | internal/api/api.go:80-106 | One CreateApi call that carries only the parent `projects/<p>/locations/global` |
| ApiClient.ApiPath | internal/api/api.go:114-121 | Exactly display_name and labels have a path, their own name |
| ApiClient.MaskLoop | internal/api/api.go:109-122 | The object has the name and the masked fields only; the paths are the known names in mask order |
| ApiClient.UpdateApi | internal/api/api.go:108-149 | One UpdateApi call with the masked object and its field mask |
| ApiClient.MaskedFields | internal/api/api.go:110-122 | A field is sent, and its path is in the field mask, exactly when the mask names it; no other path appears |
| ApiClient.KnownPaths | internal/api/api.go:113-122 | Every path in the field mask is display_name or labels |
| ApiClient.UnknownEntryIgnored | internal/api/api.go:113-122 | An entry with another name changes neither the object nor the field mask |
| ApiClient.DeleteApi | internal/api/api.go:151-156 | One DeleteApi call on the API's name, with no wait; its outcome is the result |
| ApiConfigClient.ApiOf | internal/api_config/api_config.go:52-55 | The api field must be an API identifier; otherwise "field api must be an api identifier" |
| ApiConfigClient.ConfigNameParts | internal/api_config/api_config.go:58 | The config's name extends the API's name, and the gateway's config name pattern reads its parts back |
| ApiConfigClient.GatewayAccountIsMember | internal/api_config/api_config.go:120 | The gateway service account is the e-mail the IAM policy client writes after `serviceAccount:`, and it decodes back to the service account |
| ApiConfigClient.ReadDocument | internal/api_config/api_config.go:105-115 | A read error is returned; otherwise a document with the file's path and the contents read |
| ApiConfigClient.ReadDocuments | internal/api_config/api_config.go:103-116 | The document loop yields one document per file, in order, or the first read error |
| ApiConfigClient.ReadDocumentsCases | internal/api_config/api_config.go:103-116 | The documents exist exactly when every read succeeds, one per file with its path; otherwise the error of the first failing read |
| ApiConfigClient.FileList | internal/api_config/api_config.go:69-76 | One file per returned document, in order, with the document's path and the checksum of its contents |
| ApiConfigClient.EchoedDocuments | internal/api_config/api_config.go:137-144 | When the vendor echoes the documents and the files' checksums are those of their contents, the reported files are the config's files |
| ApiConfigClient.Report | internal/api_config/api_config.go:78-89 | The reported config has the identifier asked for, the reply's display name and the file list of its documents |
| ApiConfigClient.ReadBack | internal/api_config/api_config.go:132-157 | A call or wait error is passed on; a reply is reported |
| ApiConfigClient.GetApiConfig | internal/api_config/api_config.go:51-90 | A non-API api is an error with no call; otherwise one GetApiConfig on the config's name in the FULL view; a gRPC NotFound is NotFound |
| ApiConfigClient.CreateApiConfig | internal/api_config/api_config.go:92-158 | The api check, then the service-account check, then the reads, each failing with no call; then one CreateApiConfig with the documents and the gateway account |
| ApiConfigClient.ConfigPath | internal/api_config/api_config.go:171-176 | Only display_name has a path, its own name |
| ApiConfigClient.MaskLoop | internal/api_config/api_config.go:166-177 | The body has the name and the display name only when masked; the paths are the display_name entries |
| ApiConfigClient.UpdateApiConfig | internal/api_config/api_config.go:160-214 | A non-API api is an error with no call; otherwise one UpdateApiConfig with the masked body and its field mask |
| ApiConfigClient.MaskedDisplayName | internal/api_config/api_config.go:166-177 | display_name is sent and in the field mask exactly when masked; any other entry changes nothing |
| ApiConfigClient.DeleteApiConfig | internal/api_config/api_config.go:216-229 | A non-API api is an error with no call; otherwise one DeleteApiConfig on the config's name |
| RoleClient.ConvertStage | internal/iam_role_custom_project/role.go:166-183 | A stage that converts has exactly that name; any other string is "invalid role launch stage" |
| RoleClient.StageRoundTrip | internal/iam_role_custom_project/role.go:166-183 | Exactly ALPHA, BETA, GA, DEPRECATED, DISABLED and EAP convert, case-sensitively, each to its own stage |
| RoleClient.RoleNameRoundTrip | internal/iam_role_custom_project/role.go:48 | The role name `projects/<p>/roles/<n>` is the custom role the IAM policy decoder reads back |
| RoleClient.Reported | internal/iam_role_custom_project/role.go:54-66 | The reported role has the reply's fields, its stage by name, and the etag in hex |
| RoleClient.ReadBack | internal/iam_role_custom_project/role.go:85-101 | A vendor error is passed on; a reply is reported |
| RoleClient.GetRole | internal/iam_role_custom_project/role.go:46-67 | One GetRole call on the role name; its reply reported |
| RoleClient.CreateRole | internal/iam_role_custom_project/role.go:69-102 | An invalid stage is an error with no call; otherwise one CreateRole under the project with the converted stage |
| RoleClient.RolePath | internal/iam_role_custom_project/role.go:109-128 | title, description and stage map to their own paths, permissions to included_permissions, other names to none |
| RoleClient.ApplyEntry | internal/iam_role_custom_project/role.go:110-127 | One entry copies its field from the config and yields its path; a masked stage that does not convert is an error |
| RoleClient.MaskLoop | internal/iam_role_custom_project/role.go:106-128 | The mask loop yields MaskedEdit of the mask |
| RoleClient.UpdateRole | internal/iam_role_custom_project/role.go:104-157 | A masked invalid stage is an error with nothing sent; otherwise one UpdateRole on the role name with the masked role and paths |
| RoleClient.UnknownEntryIgnored | internal/iam_role_custom_project/role.go:109-128 | An entry with another name changes neither the role nor the paths |
| RoleClient.MaskedEditCases | internal/iam_role_custom_project/role.go:106-128 | An error exactly when stage is masked and does not convert; a masked stage is the config's; unmasked permissions stay empty; a path is sent exactly when its name is masked |
| RoleClient.DeleteRole | internal/iam_role_custom_project/role.go:159-164 | One DeleteRole call on the role name; its outcome is the result |

## Left out

- Vendor SDK clients: the Cloud Functions, API Gateway, IAM Admin and Cloud Storage clients are not modelled, and neither are long-running-operation waits. Each reply is a parameter, and a failed call or failed wait is a single error.
- `storage.NewClient` failures in the bucket client, and the deferred `Close`, are not modelled.
- CRC32C is not modelled. The checksum of a document is a function parameter (`checksum`), and its `%d` rendering is part of that function.
- `os.ReadFile` is not modelled. File reads are a function parameter (`read`).
- Timestamps and enum states rendered with `String()` are plain strings taken from the reply. Launch stages are the exception: they are modelled by name.
- Logging (`log.Printf`) is not modelled.
- The order of Go map iteration is not modelled. In `CreateBucket`, when several labels are not strings, the error names one of them without saying which.
- Identifiers.ParseBucketIdentifier, ParseFunctionIdentifier, ParseServiceAccountIdentifier, ParseApiGatewayIdentifier, ParseBucketObjectIdentifier, ParseApiConfigIdentifier and ParseIamPolicyIdentifier: their generated files are not part of this model. They are written by analogy with the API parser, and their contracts only state the identifier type they yield.
- ApiConfigCodec.GetHandlerNestedApi rests on that analogy: the nested `api` is assumed to be resolved through the same four-tag registry.
- The orchestrator SDK's accessors (`sdk.Map`, `sdk.String`, `sdk.Bool`, `sdk.List`, `ToType`) are not part of this model. They are assumed to be the partial functions in module Values.
- Go's regular-expression engine is not modelled. The two patterns are written as specialised leftmost-first greedy matchers.
- internal/function, internal/bucket_object, internal/service_account and internal/iam_role are not part of this model. They are single vendor calls, file uploads and waits. The label coercion in internal/function duplicates the bucket client's.
- cmd/provider, example, schema and gen/sdk are not part of this model. They hold plugin wiring, consumer blueprints and declarative tables.
- RoleClient.Reported: a reply's stage is one of the six named launch stages (ALPHA=0, BETA=1, GA=2, DEPRECATED=4, DISABLED=5, EAP=6). A stage number outside them, which `String()` renders as a number, is not modelled.
- RoleClient.UpdateRole: when the mask does not name stage, the role it sends leaves the stage at Go's zero value, ALPHA (0), which the service ignores because stage is not in the field mask; the model writes that unset stage as `None`.
- ApiClient.CreateApi is modelled as written: the request carries neither the API id nor the config.
- ApiConfigClient.CreateApiConfig: the text of its service-account error ("must be an api identifier") is modelled as its own error constant.
- IamPolicy.IamPolicyClient.Get, Create and Update report the etag as the lowercase hex of the etag bytes. The vendor-side etag conflict check is not modelled.

## Findings

| source | as written | input that shows it | evidently intended | confidence | as-written member | corrected member |
|---|---|---|---|---|---|---|
| gen/provider/api_gateway/api_gateway.go:229 | `ParseConfig` reads `api_config` with the four-tag `ParseIdentifier`, which knows only bucket, bucket_object, function and service_account | any gateway config whose `api_config` is an API config identifier, e.g. the value form of a gateway config pointing at `projects/p/locations/global/apis/a/configs/c` | an API config identifier parses back, so the generated Update and Create handlers accept well-formed gateway configs | not executed | ApiGatewayCodec.ParseConfigRejectsApiConfig | ApiGatewayCodec.ConfigRoundTripComplete |
