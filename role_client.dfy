/**
 * The custom project role client (internal/iam_role_custom_project): the
 * Getter, Creator, Updator and Deleter of roles defined in a project.
 *
 * The IAM admin service is not part of this model: each operation returns
 * the calls it makes, in order (`sent`), and takes the service's reply as a
 * parameter. The generated iam_role_custom_project package is not part of
 * this model either; its Config and Attrs are the fields the client reads
 * and writes.
 */
module RoleClient {
  import opened Errors
  import opened Values
  import opened Identifiers
  import opened Strings
  import Masks
  import IamPolicy

  /** adminpb.Role_RoleLaunchStage. */
  datatype LaunchStage = Alpha | Beta | GA | Deprecated | Disabled | Eap

  /** The generated role config: the stage is kept as the text of the stage's name. */
  datatype Config = Config(description: string, title: string, permissions: seq<string>, stage: string)

  datatype Attrs = Attrs(deleted: bool, etag: string)

  datatype Role = Role(identifier: ResourceIdentifier, config: Config, attrs: Attrs)

  /**
   * adminpb.Role as the client writes it. A field the client does not set
   * keeps Go's zero value. For the stage that zero value is ALPHA (0), which
   * the service ignores unless the field mask names stage; `None` here stands
   * for that unset field.
   */
  datatype RoleBody = RoleBody(title: string, description: string, permissions: seq<string>, stage: Option<LaunchStage>)

  /** adminpb.Role as the service returns it. */
  datatype RoleReply = RoleReply(title: string, description: string, permissions: seq<string>, stage: LaunchStage,
                                 deleted: bool, etag: seq<byte>)

  /** The IAM admin calls the client makes. */
  datatype Request =
    | GetRoleCall(name: string)
    | CreateRoleCall(parent: string, roleId: string, role: RoleBody)
    | UpdateRoleCall(name: string, role: RoleBody, paths: seq<string>)
    | DeleteRoleCall(name: string)

  // ---------------------------------------------------------------------------
  // Launch stages

  /** The `String()` of a launch stage: its name in the protocol definition. */
  function StageName(s: LaunchStage): string {
    match s
    case Alpha => "ALPHA"
    case Beta => "BETA"
    case GA => "GA"
    case Deprecated => "DEPRECATED"
    case Disabled => "DISABLED"
    case Eap => "EAP"
  }

  /** convertStage: a stage's exact name, upper case, is that stage; any other text is an error. */
  function ConvertStage(str: string): (r: Result<LaunchStage>)
    ensures r.Ok? ==> StageName(r.value) == str
    ensures r.Err? ==> r.error == InvalidLaunchStage(str)
  {
    if str == "ALPHA" then Ok(Alpha)
    else if str == "BETA" then Ok(Beta)
    else if str == "GA" then Ok(GA)
    else if str == "DEPRECATED" then Ok(Deprecated)
    else if str == "DISABLED" then Ok(Disabled)
    else if str == "EAP" then Ok(Eap)
    else Err(InvalidLaunchStage(str))
  }

  /**
   * The stage names are exactly the accepted texts: each converts to its own
   * stage, so distinct stages have distinct names, and nothing else converts.
   */
  lemma StageRoundTrip(s: LaunchStage, str: string)
    ensures ConvertStage(StageName(s)) == Ok(s)
    ensures ConvertStage(str).Ok? <==> str in {"ALPHA", "BETA", "GA", "DEPRECATED", "DISABLED", "EAP"}
  {
  }

  // ---------------------------------------------------------------------------
  // Names and replies

  /** The role's resource name, `projects/<p>/roles/<n>`: the name an IAM policy binding carries. */
  function RoleName(id: ResourceIdentifier): string
    requires id.IamRoleCustomProjectId?
  {
    IamPolicy.CustomRoleName(id.project, id.name)
  }

  /** A role name the client writes is read back as the same role by the IAM policy codec. */
  lemma RoleNameRoundTrip(id: ResourceIdentifier)
    requires id.IamRoleCustomProjectId? && '/' !in id.project && '/' !in id.name
    ensures IamPolicy.DecodeRole(RoleName(id)) == Ok(Some(id))
  {
    IamPolicy.CustomRoleRoundTrip(id.name, id.project);
  }

  /**
   * The role reported from a reply: the reply's fields, its stage by name
   * (which converts back to the stage) and its etag in lower-case hex (which
   * reads back as the etag's bytes).
   */
  function Reported(id: ResourceIdentifier, reply: RoleReply): (r: Role)
    ensures r.identifier == id
    ensures r.config.title == reply.title && r.config.description == reply.description &&
            r.config.permissions == reply.permissions
    ensures ConvertStage(r.config.stage) == Ok(reply.stage)
    ensures r.attrs.deleted == reply.deleted && Unhex(r.attrs.etag) == Some(reply.etag)
  {
    StageRoundTrip(reply.stage, "");
    UnhexHex(reply.etag);
    Role(id, Config(reply.description, reply.title, reply.permissions, StageName(reply.stage)),
         Attrs(reply.deleted, Hex(reply.etag)))
  }

  /** A successful call's reply as the role, or the call's error unchanged. */
  function ReadBack(id: ResourceIdentifier, reply: Result<RoleReply>): (r: Result<Role>)
    ensures reply.Err? ==> r == Err(reply.error)
    ensures reply.Ok? ==> r == Ok(Reported(id, reply.value))
  {
    if reply.Err? then Err(reply.error) else Ok(Reported(id, reply.value))
  }

  // ---------------------------------------------------------------------------
  // The operations

  /** Get: one GetRole call on the role's name; every error is passed on unchanged. */
  method GetRole(id: ResourceIdentifier, reply: Result<RoleReply>) returns (sent: seq<Request>, r: Result<Role>)
    requires id.IamRoleCustomProjectId?
    ensures sent == [GetRoleCall(RoleName(id))]
    ensures r == ReadBack(id, reply)
  {
    sent := [GetRoleCall(RoleName(id))];
    if reply.Err? {
      return sent, Err(reply.error);
    }
    r := Ok(Reported(id, reply.value));
  }

  /**
   * Create: the stage is converted first, and a stage that does not convert
   * is an error with nothing sent; then one CreateRole call in the project
   * carrying every config field.
   */
  method CreateRole(id: ResourceIdentifier, config: Config, reply: Result<RoleReply>) returns (sent: seq<Request>, r: Result<Role>)
    requires id.IamRoleCustomProjectId?
    ensures ConvertStage(config.stage).Err? ==> sent == [] && r == Err(InvalidLaunchStage(config.stage))
    ensures ConvertStage(config.stage).Ok? ==>
              sent == [CreateRoleCall("projects/" + id.project, id.name,
                                      RoleBody(config.title, config.description, config.permissions,
                                               Some(ConvertStage(config.stage).value)))] &&
              r == ReadBack(id, reply)
  {
    var stage := ConvertStage(config.stage);
    if stage.Err? {
      return [], Err(stage.error);
    }
    sent := [CreateRoleCall("projects/" + id.project, id.name,
                            RoleBody(config.title, config.description, config.permissions, Some(stage.value)))];
    r := ReadBack(id, reply);
  }

  /** The field paths a role update honours; a config's permissions are the role's included_permissions. */
  function RolePath(name: string): (p: Option<string>)
    ensures p.Some? <==> name == "title" || name == "description" || name == "stage" || name == "permissions"
    ensures name == "permissions" ==> p == Some("included_permissions")
    ensures name == "title" || name == "description" || name == "stage" ==> p == Some(name)
  {
    if name == "title" then Some("title")
    else if name == "description" then Some("description")
    else if name == "stage" then Some("stage")
    else if name == "permissions" then Some("included_permissions")
    else None
  }

  /** The role and field mask an update sends. */
  datatype Edit = Edit(role: RoleBody, paths: seq<string>)

  /**
   * The role the mask loop has built after the first i entries: each field
   * masked among them copied from the config, the others at their zero value.
   */
  function FieldsBefore(config: Config, mask: seq<MaskField>, i: int): RoleBody
    requires 0 <= i <= |mask|
  {
    RoleBody(if Masks.MaskedBefore(mask, i, "title") then config.title else "",
             if Masks.MaskedBefore(mask, i, "description") then config.description else "",
             if Masks.MaskedBefore(mask, i, "permissions") then config.permissions else [],
             if Masks.MaskedBefore(mask, i, "stage") && ConvertStage(config.stage).Ok? then Some(ConvertStage(config.stage).value)
             else None)
  }

  /**
   * What Update's mask loop builds: a masked stage that does not convert is
   * an error; otherwise each masked field is copied from the config, every
   * other field stays at its zero value, and the field mask follows the mask.
   */
  function MaskedEdit(config: Config, mask: seq<MaskField>): (r: Result<Edit>)
  {
    if Masks.Masked(mask, "stage") && ConvertStage(config.stage).Err? then Err(InvalidLaunchStage(config.stage))
    else Ok(Edit(FieldsBefore(config, mask, |mask|), Masks.Paths(mask, RolePath)))
  }

  /**
   * The body of Update's mask loop for one entry: a known entry copies its
   * field from the config and contributes its path; a stage entry whose stage
   * does not convert is an error.
   */
  method ApplyEntry(config: Config, role: RoleBody, m: MaskField) returns (next: Result<RoleBody>, own: seq<string>)
    ensures next.Ok? ==> own == Masks.EntryPath(m, RolePath)
    ensures next.Err? <==> m.name == "stage" && ConvertStage(config.stage).Err?
    ensures next.Err? ==> next.error == InvalidLaunchStage(config.stage)
    ensures next.Ok? ==>
              next.value.title == (if m.name == "title" then config.title else role.title) &&
              next.value.description == (if m.name == "description" then config.description else role.description) &&
              next.value.permissions == (if m.name == "permissions" then config.permissions else role.permissions) &&
              next.value.stage == (if m.name == "stage" then Some(ConvertStage(config.stage).value) else role.stage)
  {
    next, own := Ok(role), [];
    if m.name == "title" {
      next, own := Ok(role.(title := config.title)), ["title"];
    } else if m.name == "description" {
      next, own := Ok(role.(description := config.description)), ["description"];
    } else if m.name == "stage" {
      var stage := ConvertStage(config.stage);
      if stage.Err? {
        return Err(stage.error), [];
      }
      next, own := Ok(role.(stage := Some(stage.value))), ["stage"];
    } else if m.name == "permissions" {
      next, own := Ok(role.(permissions := config.permissions)), ["included_permissions"];
    }
  }

  /** One more entry: the fields the loop body leaves are those of the first i + 1 entries. */
  lemma FieldsStep(config: Config, mask: seq<MaskField>, i: int, next: RoleBody)
    requires 0 <= i < |mask|
    requires Masks.MaskedBefore(mask, i, "stage") ==> ConvertStage(config.stage).Ok?
    requires mask[i].name == "stage" ==> ConvertStage(config.stage).Ok?
    requires var role, m := FieldsBefore(config, mask, i), mask[i];
             next.title == (if m.name == "title" then config.title else role.title) &&
             next.description == (if m.name == "description" then config.description else role.description) &&
             next.permissions == (if m.name == "permissions" then config.permissions else role.permissions) &&
             next.stage == (if m.name == "stage" then Some(ConvertStage(config.stage).value) else role.stage)
    ensures Masks.MaskedBefore(mask, i + 1, "stage") ==> ConvertStage(config.stage).Ok?
    ensures next == FieldsBefore(config, mask, i + 1)
  {
    Masks.MaskedStep(mask, i, "title");
    Masks.MaskedStep(mask, i, "description");
    Masks.MaskedStep(mask, i, "stage");
    Masks.MaskedStep(mask, i, "permissions");
  }

  /** Update's mask loop: each entry sets its field and appends its path; a bad stage ends it. */
  method MaskLoop(config: Config, mask: seq<MaskField>) returns (r: Result<Edit>)
    ensures r == MaskedEdit(config, mask)
  {
    var role := RoleBody("", "", [], None);
    var paths: seq<string> := [];
    var i := 0;
    while i < |mask|
      invariant 0 <= i <= |mask|
      invariant Masks.Paths(mask, RolePath) == paths + Masks.Paths(mask[i..], RolePath)
      invariant Masks.MaskedBefore(mask, i, "stage") ==> ConvertStage(config.stage).Ok?
      invariant role == FieldsBefore(config, mask, i)
    {
      Masks.PathsFrom(mask, i, RolePath);
      var next, own := ApplyEntry(config, role, mask[i]);
      if next.Err? {
        assert Masks.Masked(mask, "stage") by {
          assert mask[i].name == "stage";
        }
        return Err(next.error);
      }
      FieldsStep(config, mask, i, next.value);
      Masks.Regroup(paths, own, Masks.Paths(mask[i + 1..], RolePath));
      role, paths := next.value, paths + own;
      i := i + 1;
    }
    assert mask[i..] == [];
    assert paths + [] == paths;
    return Ok(Edit(role, paths));
  }

  /**
   * Update: the mask loop first, and a masked stage that does not convert is
   * an error with nothing sent; then one UpdateRole call on the role's name
   * with the role and field mask the loop built.
   */
  method UpdateRole(id: ResourceIdentifier, config: Config, mask: seq<MaskField>, reply: Result<RoleReply>)
    returns (sent: seq<Request>, r: Result<Role>)
    requires id.IamRoleCustomProjectId?
    ensures MaskedEdit(config, mask).Err? ==> sent == [] && r == Err(MaskedEdit(config, mask).error)
    ensures MaskedEdit(config, mask).Ok? ==>
              sent == [UpdateRoleCall(RoleName(id), MaskedEdit(config, mask).value.role, MaskedEdit(config, mask).value.paths)] &&
              r == ReadBack(id, reply)
  {
    var edit := MaskLoop(config, mask);
    if edit.Err? {
      return [], Err(edit.error);
    }
    sent := [UpdateRoleCall(RoleName(id), edit.value.role, edit.value.paths)];
    r := ReadBack(id, reply);
  }

  /** An entry whose name the client does not know changes neither the role nor the field mask it sends. */
  lemma UnknownEntryIgnored(config: Config, a: seq<MaskField>, m: MaskField, b: seq<MaskField>)
    requires RolePath(m.name).None?
    ensures MaskedEdit(config, a + [m] + b) == MaskedEdit(config, a + b)
  {
    Masks.PathsSkip(a, m, b, RolePath);
    Masks.MaskedSkip(a, m, b, "title");
    Masks.MaskedSkip(a, m, b, "description");
    Masks.MaskedSkip(a, m, b, "stage");
    Masks.MaskedSkip(a, m, b, "permissions");
  }

  /**
   * What an update sends follows the mask alone: a mask without a stage entry
   * never fails, a stage entry with a good stage sends that stage, and the
   * permissions travel exactly when masked, as does their role path
   * included_permissions in the field mask.
   */
  lemma MaskedEditCases(config: Config, mask: seq<MaskField>)
    ensures MaskedEdit(config, mask).Err? <==> Masks.Masked(mask, "stage") && ConvertStage(config.stage).Err?
    ensures MaskedEdit(config, mask).Ok? && Masks.Masked(mask, "stage") ==>
              StageName(MaskedEdit(config, mask).value.role.stage.value) == config.stage
    ensures MaskedEdit(config, mask).Ok? && !Masks.Masked(mask, "permissions") ==>
              MaskedEdit(config, mask).value.role.permissions == []
    ensures MaskedEdit(config, mask).Ok? ==>
              ("included_permissions" in MaskedEdit(config, mask).value.paths <==> Masks.Masked(mask, "permissions")) &&
              ("stage" in MaskedEdit(config, mask).value.paths <==> Masks.Masked(mask, "stage"))
  {
    Masks.PathsMasked(mask, RolePath, "permissions");
    Masks.PathsMasked(mask, RolePath, "stage");
  }

  /** Delete: one DeleteRole call on the role's name; its outcome is the result. */
  function DeleteRole(id: ResourceIdentifier, outcome: Option<Error>): (result: (seq<Request>, Option<Error>))
    requires id.IamRoleCustomProjectId?
    ensures result.0 == [DeleteRoleCall(RoleName(id))] && result.1 == outcome
  {
    ([DeleteRoleCall(RoleName(id))], outcome)
  }
}
