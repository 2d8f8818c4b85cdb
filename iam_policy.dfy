/**
 * The IAM policy client of internal/iam_policy: the conversion between the
 * vendor's policy bindings (role and member strings) and the provider's
 * bindings (identifiers), and the sequence of GetIamPolicy / SetIamPolicy
 * requests each operation sends for a Cloud Function.
 *
 * The vendor client is a recorded trace: `IamPolicyClient.calls` lists the
 * requests sent, and each reply is a parameter of the operation.
 */
module IamPolicy {
  import opened Errors
  import opened Strings
  import opened Identifiers
  import opened Patterns
  import Values
  import Lists

  /** iampb.Binding: a role name and member strings. */
  datatype WireBinding = WireBinding(role: string, members: seq<string>)

  /** iampb.Policy; an absent etag is the empty byte string. */
  datatype WirePolicy = WirePolicy(version: int, bindings: seq<WireBinding>, etag: seq<byte>)

  /** The requests the client sends. */
  datatype GcpCall =
    | GetIamPolicy(resource: string)
    | SetIamPolicy(resource: string, policy: WirePolicy)

  /** iampolicy.Binding; a nil role is `None`. */
  datatype Binding = Binding(role: Option<ResourceIdentifier>, members: seq<ResourceIdentifier>)

  datatype Config = Config(bindings: seq<Binding>)

  datatype Attrs = Attrs(etag: string)

  datatype Policy = Policy(identifier: ResourceIdentifier, config: Config, attrs: Attrs)

  /** The policy version every SetIamPolicy request carries. */
  const PolicyVersion := 3

  /** The resource name of a Cloud Function. */
  function FunctionName(f: ResourceIdentifier): (s: string)
    requires f.FunctionId?
    ensures HasPrefix(s, "projects/")
  {
    "projects/" + f.project + "/locations/" + f.location + "/functions/" + f.name
  }

  // ---------------------------------------------------------------------------
  // Decoding

  /**
   * A member string: the text before its first ':' must be "serviceAccount",
   * and the whole string must match the custom service account pattern,
   * whose two groups are the account id and the project.
   */
  function DecodeMember(member: string): (r: Result<ResourceIdentifier>)
    ensures r.Ok? ==> r.value.ServiceAccountId? && |r.value.accountId| > 0 && |r.value.project| > 0
  {
    if Split(member, ':')[0] != "serviceAccount" then Err(UnsupportedMember(member))
    else
      match MatchServiceAccount(member)
      case None => Err(InvalidServiceAccountEmail(member))
      case Some((accountId, project)) => Ok(ServiceAccountId(project, accountId))
  }

  /**
   * What DecodeMember reports: "unsupported member type" unless the member
   * is "serviceAccount" or starts with "serviceAccount:"; a service account
   * exactly when the pattern matches, with its two groups.
   */
  lemma DecodeMemberCases(member: string)
    ensures DecodeMember(member) == Err(UnsupportedMember(member)) <==>
              member != "serviceAccount" && !HasPrefix(member, MemberPrefix)
    ensures DecodeMember(member).Ok? <==> HasPrefix(member, MemberPrefix) && MatchServiceAccount(member).Some?
    ensures DecodeMember(member).Ok? ==>
              DecodeMember(member).value == ServiceAccountId(MatchServiceAccount(member).value.1, MatchServiceAccount(member).value.0)
  {
    MemberTypeIsServiceAccount(member);
  }

  /** The member type (text before the first ':') is "serviceAccount" exactly for these strings. */
  lemma MemberTypeIsServiceAccount(member: string)
    ensures Split(member, ':')[0] == "serviceAccount" <==> member == "serviceAccount" || HasPrefix(member, MemberPrefix)
  {
    var w := "serviceAccount";
    assert ':' !in w;
    assert MemberPrefix == w + [':'];
    SplitHead(member, ':');
    var i := IndexOf(member, ':');
    if HasPrefix(member, MemberPrefix) {
      IndexOfAfterPrefix(member, w, ':');
      assert member[..i] == w by {
        assert member[..|MemberPrefix|][..i] == member[..i];
      }
    }
    if member == w {
      IndexOfAbsent(member, ':');
    }
    if member[..i] == w && i < |member| {
      assert member[..i + 1] == member[..i] + [member[i]];
    }
  }

  /**
   * A role string: "roles/<n>/..." is a predefined role named by its second
   * '/'-piece; "projects/<p>/<x>/<n>/..." a custom project role named by its
   * fourth piece in the project of its second; any other string no role at
   * all. The only error is a "projects/" role with fewer than four pieces.
   */
  function DecodeRole(role: string): (r: Result<Option<ResourceIdentifier>>)
    ensures r.Err? ==> r.error == InvalidCustomRole(role)
    ensures r.Ok? && r.value.Some? ==> r.value.value.IamRoleId? || r.value.value.IamRoleCustomProjectId?
  {
    if HasPrefix(role, "roles/") then
      var parts := Split(role, '/');
      assert role[5] == "roles/"[5];
      OccurrencesPositive(role, '/');
      SplitLength(role, '/');
      if |parts| < 2 then Err(InvalidPredefinedRole(role))
      else Ok(Some(IamRoleId(parts[1])))
    else if HasPrefix(role, "projects/") then
      var parts := Split(role, '/');
      if |parts| < 4 then Err(InvalidCustomRole(role))
      else Ok(Some(IamRoleCustomProjectId(parts[3], parts[1])))
    else
      Ok(None)
  }

  /**
   * What DecodeRole reports: an error exactly for a "projects/" role with
   * fewer than three '/'; no role exactly when neither prefix is present; and
   * otherwise the role named by the pieces of the string.
   */
  lemma DecodeRoleCases(role: string)
    ensures DecodeRole(role).Err? <==> !HasPrefix(role, "roles/") && HasPrefix(role, "projects/") && Occurrences(role, '/') < 3
    ensures DecodeRole(role) == Ok(None) <==> !HasPrefix(role, "roles/") && !HasPrefix(role, "projects/")
    ensures DecodeRole(role).Ok? && DecodeRole(role).value.Some? ==>
              (HasPrefix(role, "roles/") && |Split(role, '/')| >= 2 &&
               DecodeRole(role).value.value == IamRoleId(Split(role, '/')[1])) ||
              (HasPrefix(role, "projects/") && |Split(role, '/')| >= 4 &&
               DecodeRole(role).value.value == IamRoleCustomProjectId(Split(role, '/')[3], Split(role, '/')[1]))
  {
    SplitLength(role, '/');
  }

  /** A binding: its members in order (the first bad one is the error), then its role. */
  function DecodeBinding(b: WireBinding): (r: Result<Binding>)
    ensures Lists.ParseAll(b.members, DecodeMember).Err? ==> r == Err(Lists.ParseAll(b.members, DecodeMember).error)
    ensures Lists.ParseAll(b.members, DecodeMember).Ok? && DecodeRole(b.role).Err? ==> r == Err(DecodeRole(b.role).error)
    ensures r.Ok? <==> (forall k :: 0 <= k < |b.members| ==> DecodeMember(b.members[k]).Ok?) && DecodeRole(b.role).Ok?
    ensures r.Ok? ==> |r.value.members| == |b.members| && r.value.role == DecodeRole(b.role).value &&
                      forall k :: 0 <= k < |b.members| ==> DecodeMember(b.members[k]) == Ok(r.value.members[k])
  {
    Lists.ParseAllCases(b.members, DecodeMember);
    var members :- Lists.ParseAll(b.members, DecodeMember);
    var role :- DecodeRole(b.role);
    Ok(Binding(role, members))
  }

  /** The policy a response describes: its bindings decoded, its etag in lower-case hex. */
  function DecodePolicy(id: ResourceIdentifier, wire: WirePolicy): (r: Result<Policy>)
    ensures r.Ok? <==> forall k :: 0 <= k < |wire.bindings| ==> DecodeBinding(wire.bindings[k]).Ok?
    ensures r.Ok? ==> r.value.identifier == id && |r.value.config.bindings| == |wire.bindings| &&
                      (forall k :: 0 <= k < |wire.bindings| ==> DecodeBinding(wire.bindings[k]) == Ok(r.value.config.bindings[k])) &&
                      Unhex(r.value.attrs.etag) == Some(wire.etag)
  {
    Lists.ParseAllCases(wire.bindings, DecodeBinding);
    var bindings :- Lists.ParseAll(wire.bindings, DecodeBinding);
    UnhexHex(wire.etag);
    Ok(Policy(id, Config(bindings), Attrs(Hex(wire.etag))))
  }

  // ---------------------------------------------------------------------------
  // Encoding

  /** The role name written for a custom project role. */
  function CustomRoleName(project: string, name: string): (s: string)
    ensures HasPrefix(s, "projects/")
  {
    "projects/" + project + "/roles/" + name
  }

  /** Only a custom project role can be written; anything else (a nil role too) is an error. */
  function EncodeRole(role: Option<ResourceIdentifier>): (r: Result<string>)
    ensures r.Ok? <==> role.Some? && role.value.IamRoleCustomProjectId?
    ensures r.Err? ==> r.error == UnsupportedRoleType
  {
    match role
    case Some(IamRoleCustomProjectId(name, project)) => Ok(CustomRoleName(project, name))
    case _ => Err(UnsupportedRoleType)
  }

  /** Only a service account can be written as a member. */
  function EncodeMember(m: ResourceIdentifier): (r: Result<string>)
    ensures r.Ok? <==> m.ServiceAccountId?
    ensures r.Err? ==> r.error == UnsupportedMemberType
  {
    match m
    case ServiceAccountId(project, accountId) => Ok(ServiceAccountMember(accountId, project))
    case _ => Err(UnsupportedMemberType)
  }

  /** A binding: its role first, then its members in order. */
  function EncodeBinding(b: Binding): (r: Result<WireBinding>)
    ensures EncodeRole(b.role).Err? ==> r == Err(UnsupportedRoleType)
    ensures r.Ok? <==> EncodeRole(b.role).Ok? && forall k :: 0 <= k < |b.members| ==> b.members[k].ServiceAccountId?
    ensures r.Ok? ==> r.value.role == EncodeRole(b.role).value && |r.value.members| == |b.members|
  {
    var role :- EncodeRole(b.role);
    Lists.ParseAllCases(b.members, EncodeMember);
    var members :- Lists.ParseAll(b.members, EncodeMember);
    Ok(WireBinding(role, members))
  }

  // ---------------------------------------------------------------------------
  // What decoding reads back

  /** "roles/<n>" is the predefined role n when n holds no '/'; the source's `len(parts) < 2` never fires. */
  lemma PredefinedRole(name: string, rest: string)
    requires '/' !in name
    requires rest == [] || rest[0] == '/'
    ensures DecodeRole("roles/" + name + rest) == Ok(Some(IamRoleId(name)))
  {
    var role := "roles/" + name + rest;
    var tail := name + rest;
    assert role == "roles" + ['/'] + tail;
    assert HasPrefix(role, "roles/");
    SplitCons("roles", '/', tail);
    FirstPiece(name, rest);
    assert Split(role, '/')[1] == name;
  }

  /** A name without '/' followed by nothing or by a '/' is the first '/'-piece. */
  lemma FirstPiece(name: string, rest: string)
    requires '/' !in name
    requires rest == [] || rest[0] == '/'
    ensures Split(name + rest, '/')[0] == name
  {
    if rest == [] {
      SplitNone(name, '/');
      assert name + rest == name;
    } else {
      assert name + rest == name + ['/'] + rest[1..];
      SplitCons(name, '/', rest[1..]);
    }
  }

  /**
   * "projects/<p>/<x>/<n>" is the custom role n of project p whatever the
   * third piece x says, when no piece holds a '/'.
   */
  lemma {:induction false} CustomRoleIgnoresThirdPiece(project: string, x: string, name: string)
    requires '/' !in project && '/' !in x && '/' !in name
    ensures DecodeRole("projects/" + project + "/" + x + "/" + name) == Ok(Some(IamRoleCustomProjectId(name, project)))
  {
    var role := "projects/" + project + "/" + x + "/" + name;
    assert '/' !in "projects";
    CustomRoleShape(project, x, name);
    SplitFourPieces("projects", project, x, name);
    assert !HasPrefix(role, "roles/") by {
      assert role[0] == 'p';
    }
    assert role[..9] == "projects/";
  }

  /** Four '/'-free pieces joined by '/' split back into those pieces. */
  lemma SplitFourPieces(a: string, b: string, c: string, d: string)
    requires '/' !in a && '/' !in b && '/' !in c && '/' !in d
    ensures Split(a + ['/'] + (b + ['/'] + (c + ['/'] + d)), '/') == [a, b, c, d]
  {
    var rest := b + ['/'] + (c + ['/'] + d);
    assert Split(rest, '/') == [b, c, d] by {
      SplitThreePieces(b, c, d);
    }
    assert Split(a + ['/'] + rest, '/') == [a] + Split(rest, '/') by {
      SplitCons(a, '/', rest);
    }
    assert [a] + [b, c, d] == [a, b, c, d];
  }

  lemma CustomRoleShape(project: string, x: string, name: string)
    ensures "projects/" + project + "/" + x + "/" + name == "projects" + ['/'] + (project + ['/'] + (x + ['/'] + name))
  {
    assert "projects/" == "projects" + ['/'] && "/" == ['/'];
  }

  lemma SplitThreePieces(project: string, x: string, name: string)
    requires '/' !in project && '/' !in x && '/' !in name
    ensures Split(project + ['/'] + (x + ['/'] + name), '/') == [project, x, name]
  {
    SplitNone(name, '/');
    SplitCons(x, '/', name);
    SplitCons(project, '/', x + ['/'] + name);
    assert [project] + [x, name] == [project, x, name];
  }

  /** The custom role round trip: EncodeRole then DecodeRole gives the role back. */
  lemma CustomRoleRoundTrip(name: string, project: string)
    requires '/' !in project && '/' !in name
    ensures DecodeRole(EncodeRole(Some(IamRoleCustomProjectId(name, project))).value) == Ok(Some(IamRoleCustomProjectId(name, project)))
  {
    assert CustomRoleName(project, name) == "projects/" + project + "/" + "roles" + "/" + name;
    CustomRoleIgnoresThirdPiece(project, "roles", name);
  }

  /** A service account that the member pattern can read back. */
  predicate RecoverableAccount(m: ResourceIdentifier) {
    m.ServiceAccountId? && |m.accountId| > 0 && |m.project| > 0 &&
    '@' !in m.project && '\n' !in m.accountId && '\n' !in m.project
  }

  /** The member round trip: EncodeMember then DecodeMember gives the service account back. */
  lemma MemberRoundTrip(m: ResourceIdentifier)
    requires RecoverableAccount(m)
    ensures DecodeMember(EncodeMember(m).value) == Ok(m)
  {
    var s := ServiceAccountMember(m.accountId, m.project);
    assert s[..|MemberPrefix|] == MemberPrefix;
    Patterns.MemberRoundTrip(m.accountId, m.project);
    DecodeMemberCases(s);
  }

  /** A binding the encoder writes and the decoder reads back unchanged. */
  predicate RecoverableBinding(b: Binding) {
    b.role.Some? && b.role.value.IamRoleCustomProjectId? &&
    '/' !in b.role.value.name && '/' !in b.role.value.project &&
    forall k :: 0 <= k < |b.members| ==> RecoverableAccount(b.members[k])
  }

  lemma BindingRoundTrip(b: Binding)
    requires RecoverableBinding(b)
    ensures EncodeBinding(b).Ok? && DecodeBinding(EncodeBinding(b).value) == Ok(b)
  {
    CustomRoleRoundTrip(b.role.value.name, b.role.value.project);
    forall k | 0 <= k < |b.members|
      ensures EncodeMember(b.members[k]).Ok? && DecodeMember(EncodeMember(b.members[k]).value) == Ok(b.members[k])
    {
      MemberRoundTrip(b.members[k]);
    }
    Lists.ParseAllInverse(b.members, EncodeMember, DecodeMember);
  }

  /** Every binding of a config encodes, and the encoded bindings decode back to the config. */
  lemma BindingsRoundTrip(bindings: seq<Binding>)
    requires forall k :: 0 <= k < |bindings| ==> RecoverableBinding(bindings[k])
    ensures Lists.ParseAll(bindings, EncodeBinding).Ok?
    ensures Lists.ParseAll(Lists.ParseAll(bindings, EncodeBinding).value, DecodeBinding) == Ok(bindings)
  {
    forall k | 0 <= k < |bindings|
      ensures EncodeBinding(bindings[k]).Ok? && DecodeBinding(EncodeBinding(bindings[k]).value) == Ok(bindings[k])
    {
      BindingRoundTrip(bindings[k]);
    }
    Lists.ParseAllInverse(bindings, EncodeBinding, DecodeBinding);
  }

  // ---------------------------------------------------------------------------
  // The loops of the client, filling preallocated slices index by index

  /** The member loop of the decoder. */
  method DecodeMembers(members: seq<string>) returns (r: Result<seq<ResourceIdentifier>>)
    ensures r == Lists.ParseAll(members, DecodeMember)
  {
    var out: seq<ResourceIdentifier> := [];
    var j := 0;
    while j < |members|
      invariant 0 <= j <= |members|
      invariant Lists.ParseAll(members[..j], DecodeMember) == Ok(out)
    {
      var m := DecodeMember(members[j]);
      Lists.ParseAllStep(members, j, DecodeMember, out, m);
      if m.Err? {
        return Err(m.error);
      }
      out := out + [m.value];
      j := j + 1;
    }
    assert members[..j] == members;
    return Ok(out);
  }

  /** The binding loop of the decoder: members first, then the role, binding by binding. */
  method DecodeBindings(wire: seq<WireBinding>) returns (r: Result<seq<Binding>>)
    ensures r == Lists.ParseAll(wire, DecodeBinding)
  {
    var out: seq<Binding> := [];
    var i := 0;
    while i < |wire|
      invariant 0 <= i <= |wire|
      invariant Lists.ParseAll(wire[..i], DecodeBinding) == Ok(out)
    {
      Lists.ParseAllStep(wire, i, DecodeBinding, out, DecodeBinding(wire[i]));
      var members := DecodeMembers(wire[i].members);
      if members.Err? {
        return Err(members.error);
      }
      var role := DecodeRole(wire[i].role);
      if role.Err? {
        return Err(role.error);
      }
      out := out + [Binding(role.value, members.value)];
      i := i + 1;
    }
    assert wire[..i] == wire;
    return Ok(out);
  }

  /** The member loop of the encoder. */
  method EncodeMembers(members: seq<ResourceIdentifier>) returns (r: Result<seq<string>>)
    ensures r == Lists.ParseAll(members, EncodeMember)
  {
    var out: seq<string> := [];
    var j := 0;
    while j < |members|
      invariant 0 <= j <= |members|
      invariant Lists.ParseAll(members[..j], EncodeMember) == Ok(out)
    {
      var m := EncodeMember(members[j]);
      Lists.ParseAllStep(members, j, EncodeMember, out, m);
      if m.Err? {
        return Err(m.error);
      }
      out := out + [m.value];
      j := j + 1;
    }
    assert members[..j] == members;
    return Ok(out);
  }

  /** The binding loop of the encoder: the role first, then the members, binding by binding. */
  method EncodeBindings(bindings: seq<Binding>) returns (r: Result<seq<WireBinding>>)
    ensures r == Lists.ParseAll(bindings, EncodeBinding)
  {
    var out: seq<WireBinding> := [];
    var i := 0;
    while i < |bindings|
      invariant 0 <= i <= |bindings|
      invariant Lists.ParseAll(bindings[..i], EncodeBinding) == Ok(out)
    {
      Lists.ParseAllStep(bindings, i, EncodeBinding, out, EncodeBinding(bindings[i]));
      var role := EncodeRole(bindings[i].role);
      if role.Err? {
        return Err(role.error);
      }
      var members := EncodeMembers(bindings[i].members);
      if members.Err? {
        return Err(members.error);
      }
      out := out + [WireBinding(role.value, members.value)];
      i := i + 1;
    }
    assert bindings[..i] == bindings;
    return Ok(out);
  }

  // ---------------------------------------------------------------------------
  // Outcomes of the operations, given the vendor's replies

  /** GetIamPolicy's outcome: the vendor error, NotFound for a policy with no bindings, or the decoded policy. */
  function GetOutcome(id: ResourceIdentifier, reply: Result<WirePolicy>): (r: Result<Policy>)
    ensures reply.Err? ==> r == Err(reply.error)
    ensures reply.Ok? && |reply.value.bindings| == 0 ==> r == Err(NotFound)
    ensures reply.Ok? && |reply.value.bindings| > 0 ==> r == DecodePolicy(id, reply.value)
    ensures r.Ok? ==> |r.value.config.bindings| > 0
  {
    match reply
    case Err(e) => Err(e)
    case Ok(wire) => if |wire.bindings| == 0 then Err(NotFound) else DecodePolicy(id, wire)
  }

  /** The outcome of a SetIamPolicy: the vendor error or the decoded policy, with no NotFound rule. */
  function SetOutcome(id: ResourceIdentifier, reply: Result<WirePolicy>): (r: Result<Policy>)
    ensures reply.Err? ==> r == Err(reply.error)
    ensures reply.Ok? ==> r == DecodePolicy(id, reply.value)
    ensures reply == Ok(WirePolicy(PolicyVersion, [], [])) ==> r == Ok(Policy(id, Config([]), Attrs("")))
  {
    match reply
    case Err(e) => Err(e)
    case Ok(wire) => DecodePolicy(id, wire)
  }

  /**
   * A vendor that answers a SetIamPolicy with the policy it was sent makes
   * the operation report the config it was given, with the etag in hex.
   */
  lemma EchoedPolicyRoundTrip(id: ResourceIdentifier, config: Config, etag: seq<byte>)
    requires forall k :: 0 <= k < |config.bindings| ==> RecoverableBinding(config.bindings[k])
    ensures Lists.ParseAll(config.bindings, EncodeBinding).Ok?
    ensures SetOutcome(id, Ok(WirePolicy(PolicyVersion, Lists.ParseAll(config.bindings, EncodeBinding).value, etag)))
         == Ok(Policy(id, config, Attrs(Hex(etag))))
  {
    BindingsRoundTrip(config.bindings);
  }

  // ---------------------------------------------------------------------------
  // The client

  class IamPolicyClient {
    /** The requests sent to the Cloud Functions IAM endpoint, oldest first. */
    var calls: seq<GcpCall>

    constructor()
      ensures calls == []
    {
      calls := [];
    }

    /** GetIamPolicy: only a Cloud Function's policy can be read. */
    method Get(id: ResourceIdentifier, reply: Result<WirePolicy>) returns (r: Result<Policy>)
      requires id.IamPolicyId?
      modifies this
      ensures !id.resource.FunctionId? ==> r == Err(UnsupportedIdentifierType) && calls == old(calls)
      ensures id.resource.FunctionId? ==>
                calls == old(calls) + [GetIamPolicy(FunctionName(id.resource))] && r == GetOutcome(id, reply)
    {
      if !id.resource.FunctionId? {
        return Err(UnsupportedIdentifierType);
      }
      calls := calls + [GetIamPolicy(FunctionName(id.resource))];
      if reply.Err? {
        return Err(reply.error);
      }
      if |reply.value.bindings| == 0 {
        return Err(NotFound);
      }
      var bindings := DecodeBindings(reply.value.bindings);
      if bindings.Err? {
        return Err(bindings.error);
      }
      UnhexHex(reply.value.etag);
      return Ok(Policy(id, Config(bindings.value), Attrs(Hex(reply.value.etag))));
    }

    /**
     * CreateIamPolicy: encode the config, then one SetIamPolicy of version 3
     * without an etag; an encoding error sends nothing.
     */
    method Create(id: ResourceIdentifier, config: Config, reply: Result<WirePolicy>) returns (r: Result<Policy>)
      requires id.IamPolicyId?
      modifies this
      ensures !id.resource.FunctionId? ==> r == Err(UnsupportedIdentifierType) && calls == old(calls)
      ensures id.resource.FunctionId? && Lists.ParseAll(config.bindings, EncodeBinding).Err? ==>
                r == Err(Lists.ParseAll(config.bindings, EncodeBinding).error) && calls == old(calls)
      ensures id.resource.FunctionId? && Lists.ParseAll(config.bindings, EncodeBinding).Ok? ==>
                calls == old(calls) + [SetIamPolicy(FunctionName(id.resource),
                  WirePolicy(PolicyVersion, Lists.ParseAll(config.bindings, EncodeBinding).value, []))] &&
                r == SetOutcome(id, reply)
    {
      if !id.resource.FunctionId? {
        return Err(UnsupportedIdentifierType);
      }
      var bindings := EncodeBindings(config.bindings);
      if bindings.Err? {
        return Err(bindings.error);
      }
      calls := calls + [SetIamPolicy(FunctionName(id.resource), WirePolicy(PolicyVersion, bindings.value, []))];
      r := DecodeReply(id, reply);
    }

    /**
     * UpdateIamPolicy: read the current policy, then write the encoded config
     * with version 3 and the etag just read. The mask is not consulted.
     */
    method Update(id: ResourceIdentifier, config: Config, mask: seq<Values.MaskField>,
                  getReply: Result<WirePolicy>, setReply: Result<WirePolicy>) returns (r: Result<Policy>)
      requires id.IamPolicyId?
      modifies this
      ensures !id.resource.FunctionId? ==> r == Err(UnsupportedIdentifierType) && calls == old(calls)
      ensures id.resource.FunctionId? && getReply.Err? ==>
                r == Err(getReply.error) && calls == old(calls) + [GetIamPolicy(FunctionName(id.resource))]
      ensures id.resource.FunctionId? && getReply.Ok? && Lists.ParseAll(config.bindings, EncodeBinding).Err? ==>
                r == Err(Lists.ParseAll(config.bindings, EncodeBinding).error) &&
                calls == old(calls) + [GetIamPolicy(FunctionName(id.resource))]
      ensures id.resource.FunctionId? && getReply.Ok? && Lists.ParseAll(config.bindings, EncodeBinding).Ok? ==>
                calls == old(calls) + [GetIamPolicy(FunctionName(id.resource)),
                  SetIamPolicy(FunctionName(id.resource),
                    WirePolicy(PolicyVersion, Lists.ParseAll(config.bindings, EncodeBinding).value, getReply.value.etag))] &&
                r == SetOutcome(id, setReply)
    {
      if !id.resource.FunctionId? {
        return Err(UnsupportedIdentifierType);
      }
      var resource := FunctionName(id.resource);
      calls := calls + [GetIamPolicy(resource)];
      if getReply.Err? {
        return Err(getReply.error);
      }
      var bindings := EncodeBindings(config.bindings);
      if bindings.Err? {
        return Err(bindings.error);
      }
      calls := calls + [SetIamPolicy(resource, WirePolicy(PolicyVersion, bindings.value, getReply.value.etag))];
      r := DecodeReply(id, setReply);
    }

    /**
     * DeleteIamPolicy: read the current policy, then write one with no
     * bindings, version 3 and the etag just read.
     */
    method Delete(id: ResourceIdentifier, getReply: Result<WirePolicy>, setReply: Result<WirePolicy>)
      returns (err: Option<Error>)
      requires id.IamPolicyId?
      modifies this
      ensures !id.resource.FunctionId? ==> err == Some(InvalidIdentifierType) && calls == old(calls)
      ensures id.resource.FunctionId? && getReply.Err? ==>
                err == Some(getReply.error) && calls == old(calls) + [GetIamPolicy(FunctionName(id.resource))]
      ensures id.resource.FunctionId? && getReply.Ok? ==>
                calls == old(calls) + [GetIamPolicy(FunctionName(id.resource)),
                  SetIamPolicy(FunctionName(id.resource), WirePolicy(PolicyVersion, [], getReply.value.etag))] &&
                err == (if setReply.Err? then Some(setReply.error) else None)
    {
      if !id.resource.FunctionId? {
        return Some(InvalidIdentifierType);
      }
      var resource := FunctionName(id.resource);
      calls := calls + [GetIamPolicy(resource)];
      if getReply.Err? {
        return Some(getReply.error);
      }
      calls := calls + [SetIamPolicy(resource, WirePolicy(PolicyVersion, [], getReply.value.etag))];
      err := if setReply.Err? then Some(setReply.error) else None;
    }
  }

  /** The response handling shared by Create and Update: decode the returned policy. */
  method DecodeReply(id: ResourceIdentifier, reply: Result<WirePolicy>) returns (r: Result<Policy>)
    ensures r == SetOutcome(id, reply)
  {
    if reply.Err? {
      return Err(reply.error);
    }
    var bindings := DecodeBindings(reply.value.bindings);
    if bindings.Err? {
      return Err(bindings.error);
    }
    return Ok(Policy(id, Config(bindings.value), Attrs(Hex(reply.value.etag))));
  }
}
