/**
 What access reads from storage, as maps with the repositories' contracts, and the single checks built on those reads.
 Every read here succeeds or finds nothing; failing reads belong to the memo's model.
 */
module AccessStore {
  import opened Options
  import opened AccessModel
  import opened Evaluator

  datatype Key = Key(on: Resource, target: Target)

  /** The stored allow and deny sets of one rule. */
  datatype Row = Row(allow: set<Action>, deny: set<Action>)

  datatype DocScope = DocScope(workspaceID: Id, projectID: Id, folderID: Id)

  datatype StackScope = StackScope(workspaceID: Id, projectID: Id, baseID: Id, machine: Id)

  datatype ChannelScope = ChannelScope(workspaceID: Id, isPrivate: bool, memberIDs: seq<Id>)

  datatype RoleRow = RoleRow(workspaceID: Id, held: HeldRole)

  datatype AreaRow = AreaRow(key: Id, actions: seq<Action>)

  /**
   `members` is keyed by (workspace, person); `roleOrder` lists every role in the order an entity lists its targets.
   */
  datatype Store = Store(
    rules: map<Key, Row>,
    roles: map<Id, RoleRow>,
    roleOrder: seq<Id>,
    members: map<(Id, Id), RoleInfo>,
    memberships: map<Id, seq<Id>>,
    projects: map<Id, Id>,
    workspaceProjects: map<Id, seq<Id>>,
    docs: map<Id, DocScope>,
    folders: map<Id, DocScope>,
    plays: map<Id, Id>,
    channels: map<Id, ChannelScope>,
    stacks: map<Id, StackScope>,
    machineIDs: seq<Id>,
    machineNames: map<Id, Id>,
    ownerWorkspace: Id,
    areas: seq<AreaRow>,
    accounts: set<Id>)

  const NO_DOC := DocScope(NO_ID, NO_ID, NO_ID)
  const NO_STACK := StackScope(NO_ID, NO_ID, NO_ID, NO_ID)

  function Find<K, V>(m: map<K, V>, k: K): Option<V> {
    if k in m then Some(m[k]) else None
  }

  function FindOr<K, V>(m: map<K, V>, k: K, default: V): V {
    if k in m then m[k] else default
  }

  // ------------------------------------------------------------------ rules reaching a person

  function RuleAt(s: Store, k: Key): Option<Rule> {
    if k in s.rules then Some(Rule(k.on, k.target, s.rules[k].allow, s.rules[k].deny)) else None
  }

  /** What the rule on an entity for a target sets an action to; an absent rule sets nothing. */
  function StateAt(s: Store, k: Key, a: Action): State {
    if k in s.rules then StateOf(RuleAt(s, k).value, a) else Fallback
  }

  /** The rules on `on` for `roleIDs`, in the order given. */
  function Collect(s: Store, on: Resource, roleIDs: seq<Id>): seq<Rule> {
    if roleIDs == [] then []
    else
      var rest := Collect(s, on, roleIDs[1..]);
      if Key(on, Role(roleIDs[0])) in s.rules then [RuleAt(s, Key(on, Role(roleIDs[0]))).value] + rest else rest
  }

  function Among(order: seq<Id>, ids: seq<Id>): seq<Id> {
    if order == [] then [] else if order[0] in ids then [order[0]] + Among(order[1..], ids) else Among(order[1..], ids)
  }

  predicate HoldsSomewhere(s: Store, u: Id, role: Id) {
    exists k :: k in s.members && k.1 == u && role in RoleIDs(s.members[k])
  }

  function HeldBy(s: Store, u: Id, order: seq<Id>): seq<Id> {
    if order == [] then []
    else if HoldsSomewhere(s, u, order[0]) then [order[0]] + HeldBy(s, u, order[1..])
    else HeldBy(s, u, order[1..])
  }

  /** The rules naming the person or a role they hold in any workspace; none when there are none. */
  function RulesOn(s: Store, on: Resource, u: Id): Option<Rules> {
    var person := RuleAt(s, Key(on, Person(u)));
    var roles := Collect(s, on, HeldBy(s, u, s.roleOrder));
    if person.None? && roles == [] then None else Some(Rules(person, roles))
  }

  /** The rules for `roleIDs` on an entity. */
  function RoleRules(s: Store, on: Resource, roleIDs: seq<Id>): seq<Rule> {
    Collect(s, on, Among(s.roleOrder, roleIDs))
  }

  /** The rules reaching the person on a project, by name or through the roles held in its workspace. */
  function ProjectRules(s: Store, u: Id, roleIDs: seq<Id>, p: Id): Option<Rules> {
    var on := Resource(ProjectKind, p);
    var own := RuleAt(s, Key(on, Person(u)));
    var roles := RoleRules(s, on, roleIDs);
    if own.None? && roles == [] then None else Some(Rules(own, roles))
  }

  // ------------------------------------------------------------------ layers

  function MemberRole(s: Store, view: Option<Id>, w: Id, u: Id): Option<RoleInfo> {
    if view.Some? && w != view.value then None else Find(s.members, (w, u))
  }

  function Standing(s: Store, view: Option<Id>, u: Id, w: Id): RoleInfo {
    var info := MemberRole(s, view, w, u);
    if info.Some? then info.value else NO_ROLES
  }

  /** The layers built from a membership read and a read of the project's rules. */
  function BuildLayers(u: Id, w: Id, p: Id, info: Option<RoleInfo>, rules: Option<Rules>): Layers {
    var ws := Layers(u, w, p, NO_ROLES, false, false, None, false);
    var known := if info.Some? then ws.(member := true, owner := info.value.isOwnerRole, roles := info.value) else ws;
    In(known, p, rules)
  }

  function InfoRoleIDs(info: Option<RoleInfo>): seq<Id> {
    if info.Some? then RoleIDs(info.value) else []
  }

  function ReadLayers(s: Store, u: Id, w: Id, p: Id): Layers {
    if w == NO_ID then BuildLayers(u, w, p, None, None)
    else
      var info := Find(s.members, (w, u));
      BuildLayers(u, w, p, info, if p == NO_ID then None else ProjectRules(s, u, InfoRoleIDs(info), p))
  }

  /** A view-as request sees nobody as a member outside the workspace it is pinned to. */
  function LayersFor(s: Store, view: Option<Id>, u: Id, w: Id, p: Id): Layers {
    if view.Some? && w != view.value then BuildLayers(u, w, p, None, None) else ReadLayers(s, u, w, p)
  }

  function RoleIDsIn(s: Store, view: Option<Id>, u: Id, w: Id): seq<Id> {
    InfoRoleIDs(MemberRole(s, view, w, u))
  }

  // ------------------------------------------------------------------ single checks

  const NOTHING := Resource(WorkspaceKind, NO_ID)

  function DocScopeOf(s: Store, d: Id): DocScope { FindOr(s.docs, d, NO_DOC) }

  function FolderScopeOf(s: Store, f: Id): DocScope { FindOr(s.folders, f, NO_DOC) }

  function StackScopeOf(s: Store, id: Id): StackScope { FindOr(s.stacks, id, NO_STACK) }

  /** A doc's folder's rules, then its own; nothing when neither has any. */
  function DocChain(s: Store, d: Id, u: Id): seq<Option<Rules>> {
    var f := DocScopeOf(s, d).folderID;
    var inFolder := if f == NO_ID then None else RulesOn(s, Resource(FolderKind, f), u);
    var own := RulesOn(s, Resource(DocKind, d), u);
    if inFolder.None? && own.None? then [] else [inFolder, own]
  }

  function ChainOf(s: Store, on: Resource, u: Id): seq<Option<Rules>> {
    if on.id == NO_ID || on.kind == ProjectKind || on.kind == WorkspaceKind then []
    else if on.kind == DocKind then DocChain(s, on.id, u)
    else [RulesOn(s, on, u)]
  }

  /** A channel's read before its rules: every member's on a public channel, its members' on a private one. */
  function ChannelBase(s: Store, u: Id, c: Id): Verdict {
    var on := Resource(ChannelKind, c);
    if c !in s.channels || (s.channels[c].isPrivate && u !in s.channels[c].memberIDs) then
      Verdict(false, SourceOf(ChannelMember, on, Person(u), false))
    else
      Verdict(true, SourceOf(if s.channels[c].isPrivate then ChannelMember else EveryMember, on, Person(u), true))
  }

  function ChannelRead(s: Store, view: Option<Id>, u: Id, w: Id, c: Id, own: bool): Verdict {
    var ws := LayersFor(s, view, u, w, NO_ID);
    if ws.owner || !ws.member then Decide(ws, CHANNELS_READ, [])
    else
      var base := ChannelBase(s, u, c);
      if !base.allowed then base
      else
        var rules := RulesOn(s, Resource(ChannelKind, c), u);
        ApplyRules(base, if own then rules else PersonAtFallback(rules, CHANNELS_READ), RoleIDs(ws.roles),
                   CHANNELS_READ)
  }

  function Check(s: Store, view: Option<Id>, u: Id, w: Id, p: Id, a: Action, on: Resource): Verdict {
    if on.kind == ChannelKind && a == CHANNELS_READ then ChannelRead(s, view, u, w, on.id, true)
    else Decide(LayersFor(s, view, u, w, p), a, ChainOf(s, on, u))
  }

  function ProjectOf(s: Store, on: Resource): Id {
    match on.kind
    case ProjectKind => on.id
    case DocKind => DocScopeOf(s, on.id).projectID
    case FolderKind => FolderScopeOf(s, on.id).projectID
    case StackKind => StackScopeOf(s, on.id).projectID
    case _ => NO_ID
  }

  predicate HasPermission(s: Store, view: Option<Id>, u: Id, w: Id, a: Action, on: Resource) {
    u != NO_ID && Check(s, view, u, w, ProjectOf(s, on), a, on).allowed
  }

  predicate CanInProject(s: Store, view: Option<Id>, u: Id, p: Id, a: Action) {
    u != NO_ID && p in s.projects && Check(s, view, u, s.projects[p], p, a, NOTHING).allowed
  }

  predicate Can(s: Store, view: Option<Id>, u: Id, d: Id, a: Action) {
    HasPermission(s, view, u, DocScopeOf(s, d).workspaceID, a, Resource(DocKind, d))
  }

  function WorkspaceOfEntity(s: Store, on: Resource): Id {
    match on.kind
    case FolderKind => FolderScopeOf(s, on.id).workspaceID
    case StackKind => StackScopeOf(s, on.id).workspaceID
    case PlayKind => FindOr(s.plays, on.id, NO_ID)
    case ChannelKind => if on.id in s.channels then s.channels[on.id].workspaceID else NO_ID
    case ProjectKind => FindOr(s.projects, on.id, NO_ID)
    case _ => DocScopeOf(s, on.id).workspaceID
  }

  // ------------------------------------------------------------------ an action at Fallback

  function WithoutAction(r: Rule, a: Action): Rule {
    r.(allow := r.allow - {a}, deny := r.deny - {a})
  }

  function PersonAtFallback(r: Option<Rules>, a: Action): Option<Rules> {
    if r.None? || r.value.person.None? then r
    else Some(r.value.(person := Some(WithoutAction(r.value.person.value, a))))
  }

  function AtFallback(rules: seq<Rule>, a: Action): (out: seq<Rule>)
    ensures |out| == |rules| && forall i :: 0 <= i < |out| ==> out[i] == WithoutAction(rules[i], a)
  {
    seq(|rules|, i requires 0 <= i < |rules| => WithoutAction(rules[i], a))
  }

  // ------------------------------------------------------------------ machines

  /** Where a machine answer's own bits come from: a person's roles in every workspace, or one role's set. */
  datatype Bits = Across(userID: Id, layers: seq<Layers>) | OfRole(ws: Layers)

  datatype Holder = Holder(target: Target, roleIDs: seq<Id>, bits: Bits, rules: Option<Rules>, known: bool,
                           owner: Option<Source>)

  datatype MachineAnswer = MachineAnswer(seen: bool, held: bool, source: Source)

  /** The first workspace whose roles grant the action, else the last where a role is held. */
  function Spread(v: Verdict, layers: seq<Layers>, a: Action): Verdict
    decreases |layers|
  {
    if layers == [] || v.allowed then v
    else
      var g := Granted(layers[0], a);
      Spread(if g.allowed || RoleIDs(layers[0].roles) != [] then g else v, layers[1..], a)
  }

  function NoRoleAnswer(u: Id): Verdict {
    Verdict(false, SourceOf(RoleSource, Resource(WorkspaceKind, NO_ID), Person(u), false))
  }

  function BitsAnswer(b: Bits, a: Action): Verdict {
    match b
    case Across(u, layers) => Spread(NoRoleAnswer(u), layers, a)
    case OfRole(ws) => Granted(ws, a)
  }

  /** The holder's rules with their own saying nothing about `a`. */
  function Without(h: Holder, a: Action): Option<Rules> {
    if h.rules.None? || h.target.Person? then PersonAtFallback(h.rules, a)
    else Some(h.rules.value.(roles := AtFallback(h.rules.value.roles, a)))
  }

  function AnswerOn(h: Holder, m: Id, a: Action, fallback: bool): MachineAnswer {
    var notOn := SourceOf(NotOnMachine, Resource(MachineKind, m), h.target, false);
    if !h.known then MachineAnswer(false, false, notOn)
    else if h.owner.Some? then MachineAnswer(true, true, h.owner.value)
    else
      var seeRules := if fallback && a == MachinesSee then Without(h, a) else h.rules;
      var see := ApplyRules(Verdict(false, notOn), seeRules, h.roleIDs, MachinesSee);
      if !see.allowed || a == MachinesSee then MachineAnswer(see.allowed, see.allowed, see.source)
      else
        var v := ApplyRules(BitsAnswer(h.bits, a), if fallback then Without(h, a) else h.rules, h.roleIDs, a);
        MachineAnswer(true, v.allowed, v.source)
  }

  /** The rules that decide whether a machine is seen, and those that decide an action on it. */
  function SeeRules(h: Holder, a: Action, fallback: bool): Option<Rules> {
    if fallback && a == MachinesSee then Without(h, a) else h.rules
  }

  function ActionRules(h: Holder, a: Action, fallback: bool): Option<Rules> {
    if fallback then Without(h, a) else h.rules
  }

  /** Holders that differ in their rules alone, which act alike, are answered alike. */
  lemma HoldersAgree(h: Holder, g: Holder, m: Id, a: Action, hAtFallback: bool, gAtFallback: bool)
    requires g == h.(rules := g.rules)
    requires var notOn := Verdict(false, SourceOf(NotOnMachine, Resource(MachineKind, m), h.target, false));
             ApplyRules(notOn, SeeRules(h, a, hAtFallback), h.roleIDs, MachinesSee) ==
             ApplyRules(notOn, SeeRules(g, a, gAtFallback), h.roleIDs, MachinesSee)
    requires a != MachinesSee ==>
               ApplyRules(BitsAnswer(h.bits, a), ActionRules(h, a, hAtFallback), h.roleIDs, a) ==
               ApplyRules(BitsAnswer(h.bits, a), ActionRules(g, a, gAtFallback), h.roleIDs, a)
    ensures AnswerOn(h, m, a, hAtFallback) == AnswerOn(g, m, a, gAtFallback)
  {
  }

  /** A person's workspaces; a view-as request keeps only the one it is pinned to. */
  function WorkspacesOf(s: Store, view: Option<Id>, u: Id): seq<Id> {
    if u == NO_ID then []
    else
      var all := FindOr(s.memberships, u, []);
      if view.None? then all else Among(all, [view.value])
  }

  function LayersAcross(s: Store, view: Option<Id>, u: Id, workspaceIDs: seq<Id>): (out: seq<Layers>)
    ensures |out| == |workspaceIDs|
    ensures forall i :: 0 <= i < |out| ==> out[i] == LayersFor(s, view, u, workspaceIDs[i], NO_ID)
  {
    seq(|workspaceIDs|, i requires 0 <= i < |workspaceIDs| => LayersFor(s, view, u, workspaceIDs[i], NO_ID))
  }

  function RoleIDsOf(layers: seq<Layers>): seq<Id> {
    if layers == [] then [] else RoleIDs(layers[0].roles) + RoleIDsOf(layers[1..])
  }

  function InstanceOwner(s: Store, view: Option<Id>, u: Id): Option<Source> {
    if u == NO_ID || s.ownerWorkspace == NO_ID then None
    else
      var info := Standing(s, view, u, s.ownerWorkspace);
      if !info.isOwnerRole then None
      else Some(SourceOf(OwnerSource, Resource(WorkspaceKind, s.ownerWorkspace), Role(SourceRole(info, Member)), true))
  }

  function HolderOf(s: Store, view: Option<Id>, u: Id, m: Id): Holder {
    if u == NO_ID then Holder(Person(u), [], Across(u, []), None, false, None)
    else if InstanceOwner(s, view, u).Some? then
      Holder(Person(u), [], Across(u, []), None, m in s.machineIDs, InstanceOwner(s, view, u))
    else
      var layers := LayersAcross(s, view, u, WorkspacesOf(s, view, u));
      Holder(Person(u), RoleIDsOf(layers), Across(u, layers), RulesOn(s, Resource(MachineKind, m), u), true, None)
  }

  function MachineView(s: Store, view: Option<Id>, u: Id, m: Id, a: Action, fallback: bool): MachineAnswer {
    AnswerOn(HolderOf(s, view, u, m), m, a, fallback)
  }

  function RoleLayers(w: Id, held: HeldRole, owner: bool): Layers {
    Layers(NO_ID, w, NO_ID, HeldInfo([held]), true, owner, None, false)
  }

  /** A holder of one role alone; a rule naming a person never reaches a role. */
  function RoleHolder(s: Store, role: Id, m: Id): Holder
    requires role in s.roles
  {
    var row := s.roles[role];
    var held := row.held.(id := role);
    var owner :=
      if held.isOwner && row.workspaceID == s.ownerWorkspace then
        Some(SourceOf(OwnerSource, Resource(WorkspaceKind, row.workspaceID), Role(role), true))
      else None;
    Holder(Role(role), [role], OfRole(RoleLayers(row.workspaceID, held, held.isOwner)),
           Some(Rules(None, RoleRules(s, Resource(MachineKind, m), [role]))), true, owner)
  }

  // ------------------------------------------------------------------ instance areas

  /** Area `i` is the first with the key. */
  ghost predicate FirstArea(areas: seq<AreaRow>, key: Id, i: nat) {
    i < |areas| && areas[i].key == key && forall j :: 0 <= j < i ==> areas[j].key != key
  }

  function AreaWith(areas: seq<AreaRow>, key: Id): (area: Option<AreaRow>)
    ensures area.None? <==> forall i :: 0 <= i < |areas| ==> areas[i].key != key
    ensures area.Some? ==> exists i: nat :: FirstArea(areas, key, i) && area.value == areas[i]
  {
    if areas == [] then None
    else if areas[0].key == key then
      assert FirstArea(areas, key, 0);
      Some(areas[0])
    else
      var area := AreaWith(areas[1..], key);
      assert forall i :: 0 < i < |areas| ==> areas[i] == areas[1..][i - 1];
      assert area.Some? ==> exists i: nat :: FirstArea(areas, key, i) && area.value == areas[i] by {
        if area.Some? {
          var i: nat :| FirstArea(areas[1..], key, i) && area.value == areas[1..][i];
          assert FirstArea(areas, key, i + 1);
        }
      }
      area
  }

  /** How far a scan of a person's workspaces for an area's action has come. */
  datatype AreaScan = Settled(v: Verdict) | Scanning(v: Verdict, roleIDs: seq<Id>, ownsAnother: bool)

  predicate OwnerHolds(s: Store, w: Id, area: Id, a: Action) {
    w == s.ownerWorkspace || (area == NO_ID && AreaOf(a) != InstanceArea)
  }

  function ScanStep(s: Store, view: Option<Id>, u: Id, w: Id, area: Id, a: Action, scan: AreaScan): AreaScan {
    if scan.Settled? then scan
    else
      var ws := LayersFor(s, view, u, w, NO_ID);
      if ws.owner && OwnerHolds(s, w, area, a) then Settled(Decide(ws, a, []))
      else
        var g := Granted(ws, a);
        var next := if !scan.v.allowed && (g.allowed || RoleIDs(ws.roles) != []) then g else scan.v;
        Scanning(next, scan.roleIDs + RoleIDs(ws.roles), scan.ownsAnother || ws.owner)
  }

  function Scan(s: Store, view: Option<Id>, u: Id, workspaceIDs: seq<Id>, area: Id, a: Action, scan: AreaScan): AreaScan
    decreases |workspaceIDs|
  {
    if workspaceIDs == [] then scan
    else Scan(s, view, u, workspaceIDs[1..], area, a, ScanStep(s, view, u, workspaceIDs[0], area, a, scan))
  }

  /** The scanned answer with the area's rules laid over it. */
  function AreaVerdict(u: Id, area: Id, a: Action, scan: AreaScan, rules: Option<Rules>): Verdict {
    if scan.Settled? then scan.v
    else
      var v := if scan.ownsAnother && !scan.v.allowed
               then scan.v.(source := SourceOf(InstanceOwnerSource, Resource(AreaKind, area), Person(u), false))
               else scan.v;
      if area == NO_ID then v else ApplyRules(v, rules, scan.roleIDs, a)
  }

  /** An action on an instance area: the instance Owner always, else the roles held anywhere, then the area's rules. */
  function DecideArea(s: Store, view: Option<Id>, u: Id, area: Id, a: Action, own: bool): Verdict {
    var scan := Scan(s, view, u, WorkspacesOf(s, view, u), area, a, Scanning(NoRoleAnswer(u), [], false));
    var rules := RulesOn(s, Resource(AreaKind, area), u);
    AreaVerdict(u, area, a, scan, if own then rules else PersonAtFallback(rules, a))
  }

  /** The source's loop over the person's workspaces. */
  method DecideAreaByScanning(s: Store, view: Option<Id>, u: Id, area: Id, a: Action, own: bool) returns (v: Verdict)
    ensures v == DecideArea(s, view, u, area, a, own)
  {
    var workspaceIDs := WorkspacesOf(s, view, u);
    v := NoRoleAnswer(u);
    var roleIDs: seq<Id> := [];
    var ownsAnother := false;
    ghost var start := Scanning(v, [], false);
    for i := 0 to |workspaceIDs|
      invariant Scan(s, view, u, workspaceIDs[i..], area, a, Scanning(v, roleIDs, ownsAnother))
             == Scan(s, view, u, workspaceIDs, area, a, start)
    {
      assert workspaceIDs[i..][1..] == workspaceIDs[i+1..];
      var ws := LayersFor(s, view, u, workspaceIDs[i], NO_ID);
      if ws.owner && OwnerHolds(s, workspaceIDs[i], area, a) {
        SettledStays(s, view, u, workspaceIDs[i+1..], area, a, Settled(Decide(ws, a, [])));
        v := DecideByFolding(ws, a, []);
        return;
      }
      ownsAnother := ownsAnother || ws.owner;
      roleIDs := roleIDs + RoleIDs(ws.roles);
      if v.allowed {
        continue;
      }
      var g := Granted(ws, a);
      if g.allowed || RoleIDs(ws.roles) != [] {
        v := g;
      }
    }
    if ownsAnother && !v.allowed {
      v := v.(source := SourceOf(InstanceOwnerSource, Resource(AreaKind, area), Person(u), false));
    }
    if area == NO_ID {
      return;
    }
    var rules := RulesOn(s, Resource(AreaKind, area), u);
    v := ApplyRules(v, if own then rules else PersonAtFallback(rules, a), roleIDs, a);
  }

  lemma {:induction false} SettledStays(s: Store, view: Option<Id>, u: Id, workspaceIDs: seq<Id>, area: Id, a: Action,
                                        scan: AreaScan)
    requires scan.Settled?
    ensures Scan(s, view, u, workspaceIDs, area, a, scan) == scan
    decreases |workspaceIDs|
  {
    if workspaceIDs != [] {
      SettledStays(s, view, u, workspaceIDs[1..], area, a, scan);
    }
  }

  // ------------------------------------------------------------------ the repositories' contracts

  ghost predicate Distinct(ids: seq<Id>) {
    forall i, j :: 0 <= i < j < |ids| ==> ids[i] != ids[j]
  }

  /** The contracts the reads promise one another: each list is of exactly what the matching map holds. */
  ghost predicate Consistent(s: Store) {
    && Distinct(s.roleOrder)
    && (forall r :: r in s.roleOrder <==> r in s.roles)
    && (forall u: Id, w: Id :: w in FindOr(s.memberships, u, []) <==> (w, u) in s.members)
    && (forall w: Id, p: Id :: p in FindOr(s.workspaceProjects, w, []) <==> p in s.projects && s.projects[p] == w)
    && (forall p :: p in s.projects ==> p != NO_ID && s.projects[p] != NO_ID)
    && (forall d :: d in s.docs && s.docs[d].projectID != NO_ID ==>
                      s.docs[d].projectID in s.projects && s.projects[s.docs[d].projectID] == s.docs[d].workspaceID)
    && (forall k :: k in s.members ==> k.0 != NO_ID && GrantsThroughRoles(s.members[k]))
    && NO_ID !in s.docs
    && (forall k :: k in s.rules ==> k.on.id != NO_ID)
  }
}
