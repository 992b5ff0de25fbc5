/**
 The access domain's data: actions, rules on entities, the roles a member holds, and the source of an answer.
 Identifiers are opaque; they are numbers here, and NO_ID stands for the empty string.
 */
module AccessModel {
  import opened Options

  type Id = nat
  const NO_ID: Id := 0

  datatype Result<+T> = Ok(value: T) | Err(error: Error)

  datatype Error = Unauthorized | Invalid | NotFound | Forbidden | Conflict

  /** Where a permission applies: inside one project, across the workspace, or instance-wide. */
  datatype Area = ProjectArea | WorkspaceArea | InstanceArea

  /**
   One permission. Member is the empty action; In this project and See on a machine are off the grid, held only
   through rules; every other action sits on the grid with its area.
   */
  datatype Action = Member | ProjectsOpen | MachinesSee | Grid(area: Area, name: nat)

  // Each area's actions are numbered in catalog order.
  const DOCS_READ := Grid(ProjectArea, 0)
  const DEPLOYS_WRITE := Grid(ProjectArea, 17)
  const STACKS_READ := Grid(ProjectArea, 18)
  const STACKS_WRITE := Grid(ProjectArea, 19)
  const PERMISSIONS_WRITE := Grid(ProjectArea, 27)
  const PROJECTS_ACCESS := Grid(ProjectArea, 31)
  const PLAYS_READ := Grid(WorkspaceArea, 0)
  const PLAYS_WRITE := Grid(WorkspaceArea, 1)
  const PLAYS_DELETE := Grid(WorkspaceArea, 2)
  const PLAYS_RUN := Grid(WorkspaceArea, 3)
  const CHANNELS_READ := Grid(WorkspaceArea, 28)
  const CHANNELS_WRITE := Grid(WorkspaceArea, 29)
  const CHANNELS_POST := Grid(WorkspaceArea, 31)
  const MACHINES_WRITE := Grid(InstanceArea, 3)
  const MACHINES_DEPLOY := Grid(InstanceArea, 4)
  const MACHINES_DELETE := Grid(InstanceArea, 5)

  /** The project-area actions of the grid, in catalog order. */
  function ProjectAreaActions(): seq<Action> {
    seq(32, (i: nat) => Grid(ProjectArea, i))
  }

  // The actions each entity's rules may set.
  function DocActions(): seq<Action> { ProjectAreaActions()[..6] + [PERMISSIONS_WRITE] }

  function StackActions(): seq<Action> { ProjectAreaActions()[18..22] + ProjectAreaActions()[16..18] }

  function PlayActions(): seq<Action> { [PLAYS_READ, PLAYS_RUN, PLAYS_WRITE, PLAYS_DELETE] }

  function ChannelActions(): seq<Action> { [CHANNELS_READ, CHANNELS_POST] }

  function ProjectActions(): seq<Action> { [ProjectsOpen] + ProjectAreaActions() }

  function MachineActions(): seq<Action> { [MachinesSee, MACHINES_DEPLOY, MACHINES_WRITE, MACHINES_DELETE] }

  function AreaOf(a: Action): Area {
    match a
    case Member => WorkspaceArea
    case ProjectsOpen => ProjectArea
    case MachinesSee => InstanceArea
    case Grid(area, _) => area
  }

  datatype Kind =
    | DocKind | FolderKind | PlayKind | ProjectKind | ChannelKind | StackKind | MachineKind | AreaKind | WorkspaceKind

  datatype Resource = Resource(kind: Kind, id: Id)

  datatype Target = Person(id: Id) | Role(id: Id)

  /** What one rule sets an action to. */
  datatype State = Allow | Deny | Fallback

  /** A rule on one entity for a person or a role. */
  datatype Rule = Rule(on: Resource, target: Target, allow: set<Action>, deny: set<Action>)

  /** The rules on one entity that reach one person: the rule naming them, and those naming a role they hold. */
  datatype Rules = Rules(person: Option<Rule>, roles: seq<Rule>)

  datatype HeldRole = HeldRole(id: Id, isOwner: bool, permissions: set<Action>)

  /** A member's roles in one workspace. An empty `roles` means `roleID` alone. */
  datatype RoleInfo = RoleInfo(roleID: Id, isOwnerRole: bool, permissions: set<Action>, roles: seq<HeldRole>)

  const NO_ROLES := RoleInfo(NO_ID, false, {}, [])

  datatype SourceKind =
    | NoSource | OwnerSource | InstanceOwnerSource | MemberSource | RoleSource | RuleSource | OutsideProject
    | NotInProject | EveryMember | ChannelMember | NotOnMachine | NoDeployTo

  /** What decided an access answer. */
  datatype Source = Source(kind: SourceKind, on: Resource, target: Target, state: State)

  const NO_SOURCE := Source(NoSource, Resource(WorkspaceKind, NO_ID), Person(NO_ID), Fallback)

  datatype Verdict = Verdict(allowed: bool, source: Source)

  function SourceOf(kind: SourceKind, on: Resource, target: Target, allowed: bool): Source {
    Source(kind, on, target, if allowed then Allow else Deny)
  }

  function HeldIDs(roles: seq<HeldRole>): (ids: seq<Id>)
    ensures |ids| == |roles|
    ensures forall i :: 0 <= i < |ids| ==> ids[i] == roles[i].id
  {
    seq(|roles|, i requires 0 <= i < |roles| => roles[i].id)
  }

  /** Every role held, in the order given. */
  function RoleIDs(r: RoleInfo): seq<Id> {
    if r.roles == [] && r.roleID != NO_ID then [r.roleID] else HeldIDs(r.roles)
  }

  /** The role a roles' answer names: the Owner role, else the first allowing the action, else the first. */
  function SourceRoleIn(r: RoleInfo, roles: seq<HeldRole>, a: Action): Id {
    if roles == [] then r.roleID
    else if roles[0].isOwner || (!r.isOwnerRole && a in roles[0].permissions) then roles[0].id
    else SourceRoleIn(r, roles[1..], a)
  }

  function SourceRole(r: RoleInfo, a: Action): Id {
    SourceRoleIn(r, r.roles, a)
  }

  function Union(roles: seq<HeldRole>): set<Action> {
    set i, a | 0 <= i < |roles| && a in roles[i].permissions :: a
  }

  predicate AnyOwner(roles: seq<HeldRole>) {
    exists i :: 0 <= i < |roles| && roles[i].isOwner
  }

  /** A record that answers for the roles it lists: its name the first one's, its grants theirs together. */
  ghost predicate OfItsRoles(r: RoleInfo) {
    && r.roleID == (if r.roles == [] then NO_ID else r.roles[0].id)
    && (r.isOwnerRole <==> exists i :: 0 <= i < |r.roles| && r.roles[i].isOwner)
    && forall a :: a in r.permissions <==> exists i :: 0 <= i < |r.roles| && a in r.roles[i].permissions
  }

  /** A role record that grants nothing unless some role is held; without it a source can contradict its answer. */
  predicate GrantsThroughRoles(r: RoleInfo) {
    RoleIDs(r) == [] ==> r.permissions == {}
  }

  /** The RoleInfo of a member holding `roles`, in the order given. */
  method RolesHeld(roles: seq<HeldRole>) returns (info: RoleInfo)
    ensures info == HeldInfo(roles)
    ensures info.roles == roles && OfItsRoles(info)
    ensures GrantsThroughRoles(info)
  {
    var owner := false;
    var union: set<Action> := {};
    for i := 0 to |roles|
      invariant owner == AnyOwner(roles[..i])
      invariant union == Union(roles[..i])
    {
      assert roles[..i+1] == roles[..i] + [roles[i]];
      assert AnyOwner(roles[..i+1]) == (AnyOwner(roles[..i]) || roles[i].isOwner) by {
        if roles[i].isOwner { assert roles[..i+1][i].isOwner; }
        if AnyOwner(roles[..i]) { var j :| 0 <= j < i && roles[..i][j].isOwner; assert roles[..i+1][j].isOwner; }
      }
      UnionExtends(roles[..i], roles[i]);
      owner := owner || roles[i].isOwner;
      union := union + roles[i].permissions;
    }
    assert roles[..|roles|] == roles;
    info := RoleInfo(if roles == [] then NO_ID else roles[0].id, owner, union, roles);
  }

  function HeldInfo(roles: seq<HeldRole>): RoleInfo {
    RoleInfo(if roles == [] then NO_ID else roles[0].id, AnyOwner(roles), Union(roles), roles)
  }

  lemma UnionExtends(roles: seq<HeldRole>, r: HeldRole)
    ensures Union(roles + [r]) == Union(roles) + r.permissions
  {
    var more := roles + [r];
    forall a | a in Union(roles) + r.permissions ensures a in Union(more) {
      if a in Union(roles) {
        var i :| 0 <= i < |roles| && a in roles[i].permissions;
        assert a in more[i].permissions;
      } else {
        assert a in more[|roles|].permissions;
      }
    }
  }
}
