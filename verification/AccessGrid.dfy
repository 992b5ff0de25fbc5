/**
 The Access page. A save lists on each named project exactly the roles and people given and hides each named channel
 from exactly the roles given, moving only the rules that have to move.
 */
module AccessGrid {
  import opened Options
  import opened AccessModel
  import opened Evaluator
  import opened AccessStore
  import opened RuleRows

  /** What the page is built from, as stored: the role columns, the public channels, the members and every rule. */
  datatype GridSource = GridSource(
    roles: seq<Id>, channels: seq<Id>, memberIDs: seq<Id>, rules: seq<Rule>, finished: bool)

  /** What a save writes: the rules it moves, and whether it marks the access setup finished. */
  datatype GridWrite = GridWrite(changed: map<Key, Row>, finishes: bool)

  datatype ProjectSave = ProjectSave(projectID: Id, roleIDs: seq<Id>, userIDs: seq<Id>)

  datatype ChannelSave = ChannelSave(channelID: Id, hiddenRoleIDs: seq<Id>)

  function KeyOf(r: Rule): Key { Key(r.on, r.target) }

  function RowOf(r: Rule): Row { Row(r.allow, r.deny) }

  /** One rule per entity and target, as the table's key has it. */
  ghost predicate OneRulePerKey(rules: seq<Rule>) {
    forall i, j :: 0 <= i < j < |rules| ==> KeyOf(rules[i]) != KeyOf(rules[j])
  }

  /** The stored row of a key: the first rule found with it. */
  function RuleOf(rules: seq<Rule>, k: Key): (row: Row)
    ensures (forall i :: 0 <= i < |rules| ==> KeyOf(rules[i]) != k) ==> row == EMPTY_ROW
    ensures OneRulePerKey(rules) ==> forall i :: 0 <= i < |rules| && KeyOf(rules[i]) == k ==> row == RowOf(rules[i])
  {
    if rules == [] then EMPTY_ROW
    else if KeyOf(rules[0]) == k then RowOf(rules[0])
    else RuleOf(rules[1..], k)
  }

  function OnProject(p: Id, t: Target): Key { Key(Resource(ProjectKind, p), t) }

  function OnChannel(c: Id, t: Target): Key { Key(Resource(ChannelKind, c), t) }

  // ------------------------------------------------------------------ reading

  /** The roles and people a project's rules let in. */
  method Listed(src: GridSource, p: Id) returns (roleIDs: seq<Id>, userIDs: seq<Id>)
    requires OneRulePerKey(src.rules)
    ensures
      forall r :: r in roleIDs <==>
                  r in src.roles &&
                  RowState(RuleOf(src.rules, OnProject(p, Role(r))), ProjectsOpen) == Allow
    ensures forall u :: u in userIDs <==> RowState(RuleOf(src.rules, OnProject(p, Person(u))), ProjectsOpen) == Allow
  {
    roleIDs := [];
    for i := 0 to |src.roles|
      invariant
        forall r :: r in roleIDs <==>
                    r in src.roles[..i] &&
                    RowState(RuleOf(src.rules, OnProject(p, Role(r))), ProjectsOpen) == Allow
    {
      assert src.roles[..i+1] == src.roles[..i] + [src.roles[i]];
      if RowState(RuleOf(src.rules, OnProject(p, Role(src.roles[i]))), ProjectsOpen) == Allow {
        roleIDs := roleIDs + [src.roles[i]];
      }
    }
    assert src.roles[..|src.roles|] == src.roles;
    userIDs := [];
    for i := 0 to |src.rules|
      invariant forall u :: u in userIDs <==>
                            exists j :: 0 <= j < i && KeyOf(src.rules[j]) == OnProject(p, Person(u)) &&
                                        StateOf(src.rules[j], ProjectsOpen) == Allow
    {
      var ow := src.rules[i];
      if ow.on == Resource(ProjectKind, p) && ow.target.Person? && StateOf(ow, ProjectsOpen) == Allow {
        userIDs := userIDs + [ow.target.id];
        assert KeyOf(ow) == OnProject(p, Person(ow.target.id));
      }
    }
    forall u ensures u in userIDs <==> RowState(RuleOf(src.rules, OnProject(p, Person(u))), ProjectsOpen) == Allow {
      var k := OnProject(p, Person(u));
      if j :| 0 <= j < |src.rules| && KeyOf(src.rules[j]) == k {
        assert RuleOf(src.rules, k) == RowOf(src.rules[j]);
      }
    }
  }

  /** The roles a channel's rules deny reading it. */
  method HiddenFrom(src: GridSource, c: Id) returns (roleIDs: seq<Id>)
    ensures
      forall r :: r in roleIDs <==>
                  r in src.roles &&
                  RowState(RuleOf(src.rules, OnChannel(c, Role(r))), CHANNELS_READ) == Deny
  {
    roleIDs := [];
    for i := 0 to |src.roles|
      invariant
        forall r :: r in roleIDs <==>
                    r in src.roles[..i] &&
                    RowState(RuleOf(src.rules, OnChannel(c, Role(r))), CHANNELS_READ) == Deny
    {
      assert src.roles[..i+1] == src.roles[..i] + [src.roles[i]];
      if RowState(RuleOf(src.rules, OnChannel(c, Role(src.roles[i]))), CHANNELS_READ) == Deny {
        roleIDs := roleIDs + [src.roles[i]];
      }
    }
    assert src.roles[..|src.roles|] == src.roles;
  }

  // ------------------------------------------------------------------ planning

  /** A row with an action moved to a state when on and not there yet, and off it to Fallback when off and there. */
  function Switched(r: Row, a: Action, st: State, on: bool): Row
    requires st != Fallback
  {
    if (RowState(r, a) == st) == on then r
    else if !on then MoveTo(r, a, SetFallback)
    else MoveTo(r, a, if st == Allow then SetAllow else SetDeny)
  }

  /** Where an action ends up. */
  function Landed(from: State, st: State, on: bool): State {
    if on then st else if from == st then Fallback else from
  }

  lemma SwitchedLands(r: Row, a: Action, st: State, on: bool, b: Action)
    requires st != Fallback
    ensures RowState(Switched(r, a, st, on), b) == if b == a then Landed(RowState(r, a), st, on) else RowState(r, b)
    ensures Switched(Switched(r, a, st, on), a, st, on) == Switched(r, a, st, on)
  {
  }

  /** The rules a save moves, each starting from the stored one. */
  class GridPlan {
    const src: GridSource
    var changed: map<Key, Row>

    constructor (s: GridSource)
      ensures src == s && changed == map[]
    {
      src := s;
      changed := map[];
    }

    /** The row a key would have if the plan were stored. */
    function At(k: Key): Row
      reads this
    {
      if k in changed then changed[k] else RuleOf(src.rules, k)
    }

    method Set(k: Key, a: Action, st: State, on: bool)
      requires st != Fallback
      modifies this`changed
      ensures forall q :: At(q) == if q == k then Switched(old(At(k)), a, st, on) else old(At(q))
      ensures Switched(old(At(k)), a, st, on) == old(At(k)) ==> changed == old(changed)
    {
      var ow := At(k);
      var current := RowState(ow, a) == st;
      if current == on {
        return;
      }
      var next := MoveTo(ow, a, SetFallback);
      if on {
        next := MoveTo(ow, a, if st == Allow then SetAllow else SetDeny);
      }
      assert RowState(next, a) != RowState(ow, a);
      changed := changed[k := next];
    }

    /** Moves In this project for each role column. */
    method ListRoles(g: ProjectSave)
      modifies this`changed
      ensures forall k :: At(k) == SwitchedAmong(src, g, old(changed), src.roles, [], k)
      ensures (forall k :: SwitchedAmong(src, g, old(changed), src.roles, [], k) == RowIn(src, old(changed), k)) ==>
                changed == old(changed)
    {
      ghost var was := changed;
      for i := 0 to |src.roles|
        invariant forall k :: At(k) == SwitchedAmong(src, g, was, src.roles[..i], [], k)
        invariant (forall k :: SwitchedAmong(src, g, was, src.roles, [], k) == RowIn(src, was, k)) ==> changed == was
      {
        var r := src.roles[i];
        assert src.roles[..i+1] == src.roles[..i] + [r];
        var k := OnProject(g.projectID, Role(r));
        SwitchedLands(RowIn(src, was, k), ProjectsOpen, Allow, r in g.roleIDs, ProjectsOpen);
        assert SwitchedAmong(src, g, was, src.roles, [], k) ==
               Switched(RowIn(src, was, k), ProjectsOpen, Allow, r in g.roleIDs);
        Set(k, ProjectsOpen, Allow, r in g.roleIDs);
      }
      assert src.roles[..|src.roles|] == src.roles;
    }

    /** Moves In this project for each of some people. */
    method ListPeople(g: ProjectSave, people: seq<Id>)
      modifies this`changed
      ensures forall k :: At(k) == SwitchedAmong(src, g, old(changed), [], people, k)
      ensures (forall k :: SwitchedAmong(src, g, old(changed), [], people, k) == RowIn(src, old(changed), k)) ==>
                changed == old(changed)
    {
      ghost var was := changed;
      for i := 0 to |people|
        invariant forall k :: At(k) == SwitchedAmong(src, g, was, [], people[..i], k)
        invariant (forall k :: SwitchedAmong(src, g, was, [], people, k) == RowIn(src, was, k)) ==> changed == was
      {
        var u := people[i];
        assert people[..i+1] == people[..i] + [u];
        var k := OnProject(g.projectID, Person(u));
        SwitchedLands(RowIn(src, was, k), ProjectsOpen, Allow, u in g.userIDs, ProjectsOpen);
        assert SwitchedAmong(src, g, was, [], people, k) ==
               Switched(RowIn(src, was, k), ProjectsOpen, Allow, u in g.userIDs);
        Set(k, ProjectsOpen, Allow, u in g.userIDs);
      }
      assert people[..|people|] == people;
    }

    /** Each role is a column. */
    method KnownRoles(roleIDs: seq<Id>) returns (err: Option<Error>)
      ensures err == if exists r :: r in roleIDs && r !in src.roles then Some(NotFound) else None
    {
      for i := 0 to |roleIDs|
        invariant forall j :: 0 <= j < i ==> roleIDs[j] in src.roles
      {
        if roleIDs[i] !in src.roles {
          return Some(NotFound);
        }
      }
      return None;
    }

    method KnownPeople(userIDs: seq<Id>) returns (err: Option<Error>)
      ensures err == if exists u :: u in userIDs && u !in src.memberIDs then Some(Invalid) else None
    {
      for i := 0 to |userIDs|
        invariant forall j :: 0 <= j < i ==> userIDs[j] in src.memberIDs
      {
        if userIDs[i] !in src.memberIDs {
          return Some(Invalid);
        }
      }
      return None;
    }

    /** Lists exactly the given roles and people on a project; a Deny on anyone it does not name stays. */
    method Project(g: ProjectSave, managed: seq<Id>) returns (err: Option<Error>)
      requires OneRulePerKey(src.rules)
      modifies this`changed
      ensures err == ProjectRefusal(src, g, managed)
      ensures err.Some? ==> changed == old(changed)
      ensures err.None? ==> forall k :: At(k) == ListedRow(src, g, old(changed), k)
      ensures err.None? && (forall k :: ListedRow(src, g, old(changed), k) == RowIn(src, old(changed), k)) ==>
                changed == old(changed)
    {
      if g.projectID !in managed {
        return Some(NotFound);
      }
      err := KnownRoles(g.roleIDs);
      if err.Some? {
        return;
      }
      err := KnownPeople(g.userIDs);
      if err.Some? {
        return;
      }
      ghost var was := changed;
      ListRoles(g);
      ghost var mid := changed;
      var _, listed := Listed(src, g.projectID);
      var people := listed + g.userIDs;
      ListPeople(g, people);
      forall k ensures At(k) == ListedRow(src, g, was, k) {
        assert RowIn(src, mid, k) == SwitchedAmong(src, g, was, src.roles, [], k);
      }
      if forall k :: ListedRow(src, g, was, k) == RowIn(src, was, k) {
        forall k ensures SwitchedAmong(src, g, was, src.roles, [], k) == RowIn(src, was, k) {
          assert ListedRow(src, g, was, k) == RowIn(src, was, k);
        }
        forall k ensures SwitchedAmong(src, g, mid, [], people, k) == RowIn(src, mid, k) {
          assert ListedRow(src, g, was, k) == RowIn(src, was, k);
        }
      }
    }

    /** Hides a public channel from exactly the given roles. */
    method Channel(g: ChannelSave) returns (err: Option<Error>)
      modifies this`changed
      ensures err == if g.channelID !in src.channels then Some(NotFound)
                     else if exists r :: r in g.hiddenRoleIDs && r !in src.roles then Some(NotFound)
                     else None
      ensures err.Some? ==> changed == old(changed)
      ensures err.None? ==> forall k :: At(k) == HiddenRow(src, g, old(changed), k)
      ensures err.None? && (forall k :: HiddenRow(src, g, old(changed), k) == RowIn(src, old(changed), k)) ==>
                changed == old(changed)
    {
      if g.channelID !in src.channels {
        return Some(NotFound);
      }
      err := KnownRoles(g.hiddenRoleIDs);
      if err.Some? {
        return;
      }
      ghost var was := changed;
      for i := 0 to |src.roles|
        invariant forall k :: At(k) == if k.on == Resource(ChannelKind, g.channelID) && k.target.Role? &&
                                          k.target.id in src.roles[..i]
                                       then Switched(RowIn(src, was, k), CHANNELS_READ, Deny,
                                                     k.target.id in g.hiddenRoleIDs) else RowIn(src, was, k)
        invariant (forall k :: HiddenRow(src, g, was, k) == RowIn(src, was, k)) ==> changed == was
      {
        assert src.roles[..i+1] == src.roles[..i] + [src.roles[i]];
        var k := OnChannel(g.channelID, Role(src.roles[i]));
        SwitchedLands(RowIn(src, was, k), CHANNELS_READ, Deny, src.roles[i] in g.hiddenRoleIDs, CHANNELS_READ);
        assert HiddenRow(src, g, was, k) ==
               Switched(RowIn(src, was, k), CHANNELS_READ, Deny, src.roles[i] in g.hiddenRoleIDs);
        Set(k, CHANNELS_READ, Deny, src.roles[i] in g.hiddenRoleIDs);
      }
      assert src.roles[..|src.roles|] == src.roles;
      return None;
    }
  }

  function RowIn(src: GridSource, changed: map<Key, Row>, k: Key): Row {
    if k in changed then changed[k] else RuleOf(src.rules, k)
  }

  /** Who a project save moves: each role column, each person stored as listed, and each person named. */
  predicate MovesOn(src: GridSource, g: ProjectSave, k: Key) {
    && k.on == Resource(ProjectKind, g.projectID)
    && if k.target.Role? then k.target.id in src.roles
       else k.target.id in g.userIDs || RowState(RuleOf(src.rules, k), ProjectsOpen) == Allow
  }

  function Lists(g: ProjectSave, t: Target): bool {
    if t.Role? then t.id in g.roleIDs else t.id in g.userIDs
  }

  /** Why a project save is refused: a project not managed, a role not a column, or someone not a member. */
  function ProjectRefusal(src: GridSource, g: ProjectSave, managed: seq<Id>): Option<Error> {
    if g.projectID !in managed then Some(NotFound)
    else if exists r :: r in g.roleIDs && r !in src.roles then Some(NotFound)
    else if exists u :: u in g.userIDs && u !in src.memberIDs then Some(Invalid)
    else None
  }

  /** A key's row once the save has gone through some roles and people. */
  function SwitchedAmong(src: GridSource, g: ProjectSave, changed: map<Key, Row>, roles: seq<Id>, people: seq<Id>,
                         k: Key): Row {
    if k.on == Resource(ProjectKind, g.projectID) &&
       (if k.target.Role? then k.target.id in roles else k.target.id in people)
    then Switched(RowIn(src, changed, k), ProjectsOpen, Allow, Lists(g, k.target)) else RowIn(src, changed, k)
  }

  function ListedRow(src: GridSource, g: ProjectSave, changed: map<Key, Row>, k: Key): Row {
    if MovesOn(src, g, k) then Switched(RowIn(src, changed, k), ProjectsOpen, Allow, Lists(g, k.target))
    else RowIn(src, changed, k)
  }

  function HiddenRow(src: GridSource, g: ChannelSave, changed: map<Key, Row>, k: Key): Row {
    if k.on == Resource(ChannelKind, g.channelID) && k.target.Role? && k.target.id in src.roles
    then Switched(RowIn(src, changed, k), CHANNELS_READ, Deny, k.target.id in g.hiddenRoleIDs)
    else RowIn(src, changed, k)
  }

  // ------------------------------------------------------------------ one save

  /** What a project save does to one row. */
  function ProjectStep(src: GridSource, g: ProjectSave, row: Row, k: Key): Row {
    if MovesOn(src, g, k) then Switched(row, ProjectsOpen, Allow, Lists(g, k.target)) else row
  }

  function ChannelStep(src: GridSource, g: ChannelSave, row: Row, k: Key): Row {
    if k.on == Resource(ChannelKind, g.channelID) && k.target.Role? && k.target.id in src.roles
    then Switched(row, CHANNELS_READ, Deny, k.target.id in g.hiddenRoleIDs) else row
  }

  function ProjectSteps(src: GridSource, saves: seq<ProjectSave>, row: Row, k: Key): Row
    decreases |saves|
  {
    if saves == [] then row
    else ProjectStep(src, saves[|saves| - 1], ProjectSteps(src, saves[..|saves| - 1], row, k), k)
  }

  function ChannelSteps(src: GridSource, saves: seq<ChannelSave>, row: Row, k: Key): Row
    decreases |saves|
  {
    if saves == [] then row
    else ChannelStep(src, saves[|saves| - 1], ChannelSteps(src, saves[..|saves| - 1], row, k), k)
  }

  /** The row a key has after a save. */
  function SavedRow(src: GridSource, projects: seq<ProjectSave>, channels: seq<ChannelSave>, k: Key): Row {
    ChannelSteps(src, channels, ProjectSteps(src, projects, RuleOf(src.rules, k), k), k)
  }

  /** The save names what the page already shows. */
  ghost predicate AlreadyShown(src: GridSource, projects: seq<ProjectSave>, channels: seq<ChannelSave>) {
    && (forall g, k: Key :: g in projects && MovesOn(src, g, k) ==>
                              (Lists(g, k.target) <==> RowState(RuleOf(src.rules, k), ProjectsOpen) == Allow))
    && (forall g, r :: g in channels && r in src.roles ==>
                         (r in g.hiddenRoleIDs <==>
                          RowState(RuleOf(src.rules, OnChannel(g.channelID, Role(r))), CHANNELS_READ) ==
                          Deny))
  }

  function ChannelRefusal(src: GridSource, g: ChannelSave): Option<Error> {
    if g.channelID !in src.channels || exists x :: x in g.hiddenRoleIDs && x !in src.roles then Some(NotFound) else None
  }

  /** The refusal of the first project entry refused. */
  function FirstProjectRefusal(src: GridSource, managed: seq<Id>, saves: seq<ProjectSave>): (r: Option<Error>)
    ensures r.None? <==> forall g :: g in saves ==> ProjectRefusal(src, g, managed).None?
  {
    if saves == [] then None
    else
      var first := ProjectRefusal(src, saves[0], managed);
      if first.Some? then first else FirstProjectRefusal(src, managed, saves[1..])
  }

  function FirstChannelRefusal(src: GridSource, saves: seq<ChannelSave>): (r: Option<Error>)
    ensures r.None? <==> forall g :: g in saves ==> ChannelRefusal(src, g).None?
  {
    if saves == [] then None
    else
      var first := ChannelRefusal(src, saves[0]);
      if first.Some? then first else FirstChannelRefusal(src, saves[1..])
  }

  /** Plans the projects in turn, up to the first refused. */
  method PlanProjects(plan: GridPlan, managed: seq<Id>, projects: seq<ProjectSave>) returns (err: Option<Error>)
    requires OneRulePerKey(plan.src.rules) && plan.changed == map[]
    modifies plan
    ensures err == FirstProjectRefusal(plan.src, managed, projects)
    ensures err.None? ==>
              forall k :: RowIn(plan.src, plan.changed, k) ==
                          ProjectSteps(plan.src, projects, RuleOf(plan.src.rules, k), k)
    ensures err.None? && AlreadyShown(plan.src, projects, []) ==> plan.changed == map[]
  {
    for i := 0 to |projects|
      invariant FirstProjectRefusal(plan.src, managed, projects) ==
                FirstProjectRefusal(plan.src, managed, projects[i..])
      invariant
        forall k :: RowIn(plan.src, plan.changed, k) ==
                    ProjectSteps(plan.src, projects[..i], RuleOf(plan.src.rules, k), k)
      invariant AlreadyShown(plan.src, projects, []) ==> plan.changed == map[]
    {
      assert projects[i] in projects && projects[i..][1..] == projects[i+1..];
      assert projects[..i+1][..i] == projects[..i];
      err := plan.Project(projects[i], managed);
      if err.Some? {
        return;
      }
    }
    assert projects[..|projects|] == projects;
    err := None;
  }

  /** Plans the channels in turn, up to the first refused. */
  method PlanChannels(plan: GridPlan, channels: seq<ChannelSave>) returns (err: Option<Error>)
    modifies plan
    ensures err == FirstChannelRefusal(plan.src, channels)
    ensures err.None? ==>
              forall k :: RowIn(plan.src, plan.changed, k) ==
                          ChannelSteps(plan.src, channels, RowIn(plan.src, old(plan.changed), k), k)
    ensures err.None? && old(plan.changed) == map[] && AlreadyShown(plan.src, [], channels) ==> plan.changed == map[]
  {
    ghost var was := plan.changed;
    for i := 0 to |channels|
      invariant FirstChannelRefusal(plan.src, channels) == FirstChannelRefusal(plan.src, channels[i..])
      invariant
        forall k :: RowIn(plan.src, plan.changed, k) ==
                    ChannelSteps(plan.src, channels[..i], RowIn(plan.src, was, k), k)
      invariant was == map[] && AlreadyShown(plan.src, [], channels) ==> plan.changed == map[]
    {
      assert channels[i] in channels && channels[i..][1..] == channels[i+1..];
      assert channels[..i+1][..i] == channels[..i];
      err := plan.Channel(channels[i]);
      if err.Some? {
        return;
      }
    }
    assert channels[..|channels|] == channels;
    err := None;
  }

  /**
   One save of the page: what it moves, or why nothing is written, the first entry refused giving the reason. Saving
   back what is shown moves nothing.
   */
  method SaveGrid(src: GridSource, managed: seq<Id>, owner: bool, projects: seq<ProjectSave>,
                  channels: seq<ChannelSave>, finish: bool)
    returns (r: Result<GridWrite>)
    requires OneRulePerKey(src.rules)
    ensures !owner && (finish || channels != []) ==> r == Err(Forbidden)
    ensures owner || (!finish && channels == []) ==>
              var refused := FirstProjectRefusal(src, managed, projects);
              var hidden := FirstChannelRefusal(src, channels);
              r.Ok? == (refused.None? && hidden.None?) &&
              (r.Err? ==> Some(r.error) == if refused.Some? then refused else hidden)
    ensures r.Ok? ==> forall k :: RowIn(src, r.value.changed, k) == SavedRow(src, projects, channels, k)
    ensures r.Ok? ==> r.value.finishes == (finish && !src.finished)
    ensures r.Ok? && AlreadyShown(src, projects, channels) ==> r.value.changed == map[]
  {
    if !owner && (finish || channels != []) {
      return Err(Forbidden);
    }
    var plan := new GridPlan(src);
    var err := PlanProjects(plan, managed, projects);
    if err.Some? {
      return Err(err.value);
    }
    err := PlanChannels(plan, channels);
    if err.Some? {
      return Err(err.value);
    }
    return Ok(GridWrite(plan.changed, finish && !src.finished));
  }

  // ------------------------------------------------------------------ the round trip

  ghost predicate ProjectsNamedOnce(saves: seq<ProjectSave>) {
    forall i, j :: 0 <= i < j < |saves| ==> saves[i].projectID != saves[j].projectID
  }

  ghost predicate ChannelsNamedOnce(saves: seq<ChannelSave>) {
    forall i, j :: 0 <= i < j < |saves| ==> saves[i].channelID != saves[j].channelID
  }

  lemma {:induction false} ProjectStepsElsewhere(src: GridSource, saves: seq<ProjectSave>, row: Row, k: Key)
    requires forall g :: g in saves ==> k.on != Resource(ProjectKind, g.projectID)
    ensures ProjectSteps(src, saves, row, k) == row
    decreases |saves|
  {
    if saves != [] {
      assert forall g :: g in saves[..|saves| - 1] ==> g in saves;
      ProjectStepsElsewhere(src, saves[..|saves| - 1], row, k);
      assert saves[|saves| - 1] in saves;
    }
  }

  lemma {:induction false} OneProjectStep(src: GridSource, saves: seq<ProjectSave>, row: Row, k: Key, i: nat)
    requires ProjectsNamedOnce(saves) && i < |saves| && k.on == Resource(ProjectKind, saves[i].projectID)
    ensures ProjectSteps(src, saves, row, k) == ProjectStep(src, saves[i], row, k)
    decreases |saves|
  {
    var n := |saves| - 1;
    if i == n {
      ProjectStepsElsewhere(src, saves[..n], row, k);
    } else {
      OneProjectStep(src, saves[..n], row, k, i);
      assert saves[i].projectID != saves[n].projectID;
    }
  }

  lemma {:induction false} ChannelStepsElsewhere(src: GridSource, saves: seq<ChannelSave>, row: Row, k: Key)
    requires forall g :: g in saves ==> k.on != Resource(ChannelKind, g.channelID)
    ensures ChannelSteps(src, saves, row, k) == row
    decreases |saves|
  {
    if saves != [] {
      assert forall g :: g in saves[..|saves| - 1] ==> g in saves;
      ChannelStepsElsewhere(src, saves[..|saves| - 1], row, k);
      assert saves[|saves| - 1] in saves;
    }
  }

  lemma {:induction false} OneChannelStep(src: GridSource, saves: seq<ChannelSave>, row: Row, k: Key, i: nat)
    requires ChannelsNamedOnce(saves) && i < |saves| && k.on == Resource(ChannelKind, saves[i].channelID)
    ensures ChannelSteps(src, saves, row, k) == ChannelStep(src, saves[i], row, k)
    decreases |saves|
  {
    var n := |saves| - 1;
    if i == n {
      ChannelStepsElsewhere(src, saves[..n], row, k);
    } else {
      OneChannelStep(src, saves[..n], row, k, i);
      assert saves[i].channelID != saves[n].channelID;
    }
  }

  /**
   Whether a save moves an action of a rule: In this project for a column or a person, a channel's read for a column.
   */
  ghost predicate Moves(src: GridSource, projects: seq<ProjectSave>, channels: seq<ChannelSave>, k: Key, b: Action) {
    || (b == ProjectsOpen && (k.target.Role? ==> k.target.id in src.roles) &&
        exists g :: g in projects &&
                    k.on == Resource(ProjectKind, g.projectID))
    || (b == CHANNELS_READ && k.target.Role? && k.target.id in src.roles &&
        exists g :: g in channels &&
                    k.on == Resource(ChannelKind, g.channelID))
  }

  /** Every other action of every rule is as it was. */
  lemma {:induction false} OthersUnmoved(src: GridSource, projects: seq<ProjectSave>, channels: seq<ChannelSave>,
                                         k: Key, b: Action)
    requires !Moves(src, projects, channels, k, b)
    ensures RowState(SavedRow(src, projects, channels, k), b) == RowState(RuleOf(src.rules, k), b)
    decreases |projects| + |channels|
  {
    var row := RuleOf(src.rules, k);
    if channels != [] {
      var n := |channels| - 1;
      assert forall g :: g in channels[..n] ==> g in channels;
      OthersUnmoved(src, projects, channels[..n], k, b);
      var before := ChannelSteps(src, channels[..n], ProjectSteps(src, projects, row, k), k);
      assert channels[n] in channels;
      SwitchedLands(before, CHANNELS_READ, Deny, k.target.id in channels[n].hiddenRoleIDs, b);
    } else if projects != [] {
      var n := |projects| - 1;
      assert forall g :: g in projects[..n] ==> g in projects;
      OthersUnmoved(src, projects[..n], channels, k, b);
      var before := ProjectSteps(src, projects[..n], row, k);
      assert projects[n] in projects;
      SwitchedLands(before, ProjectsOpen, Allow, Lists(projects[n], k.target), b);
    }
  }

  /**
   A save of a project named once leaves In this project exactly where it says, and a Deny on whoever it does not
   name.
   */
  lemma SavedProjectIsExact(src: GridSource, projects: seq<ProjectSave>, channels: seq<ChannelSave>, g: ProjectSave,
                            t: Target)
    requires ProjectsNamedOnce(projects) && g in projects
    requires t.Role? ==> t.id in src.roles
    ensures var k := OnProject(g.projectID, t);
            RowState(SavedRow(src, projects, channels, k), ProjectsOpen) ==
            Landed(RowState(RuleOf(src.rules, k), ProjectsOpen), Allow, Lists(g, t))
  {
    var k := OnProject(g.projectID, t);
    var row := RuleOf(src.rules, k);
    var i :| 0 <= i < |projects| && projects[i] == g;
    OneProjectStep(src, projects, row, k, i);
    ChannelStepsElsewhere(src, channels, ProjectStep(src, g, row, k), k);
    SwitchedLands(row, ProjectsOpen, Allow, Lists(g, t), ProjectsOpen);
  }

  lemma SavedChannelIsExact(src: GridSource, projects: seq<ProjectSave>, channels: seq<ChannelSave>, g: ChannelSave,
                            r: Id)
    requires ChannelsNamedOnce(channels) && g in channels && r in src.roles
    ensures var k := OnChannel(g.channelID, Role(r));
            RowState(SavedRow(src, projects, channels, k), CHANNELS_READ) ==
            Landed(RowState(RuleOf(src.rules, k), CHANNELS_READ), Deny, r in g.hiddenRoleIDs)
  {
    var k := OnChannel(g.channelID, Role(r));
    var row := RuleOf(src.rules, k);
    var i :| 0 <= i < |channels| && channels[i] == g;
    ProjectStepsElsewhere(src, projects, row, k);
    OneChannelStep(src, channels, row, k, i);
    SwitchedLands(row, CHANNELS_READ, Deny, r in g.hiddenRoleIDs, CHANNELS_READ);
  }

  /** The page's source once the moved rules are stored, an emptied one deleted. */
  ghost predicate AfterSave(src: GridSource, changed: map<Key, Row>, saved: GridSource) {
    && saved == src.(rules := saved.rules)
    && OneRulePerKey(saved.rules)
    && forall k :: RuleOf(saved.rules, k) == RowIn(src, changed, k)
  }

  function RuleFor(k: Key, row: Row): Rule { Rule(k.on, k.target, row.allow, row.deny) }

  /** The rules without one key's. */
  function Dropped(rules: seq<Rule>, k: Key): (out: seq<Rule>)
    ensures forall r :: r in out <==> r in rules && KeyOf(r) != k
  {
    if rules == [] then [] else (if KeyOf(rules[0]) == k then [] else [rules[0]]) + Dropped(rules[1..], k)
  }

  lemma {:induction false} DroppedStaysOne(rules: seq<Rule>, k: Key)
    requires OneRulePerKey(rules)
    ensures OneRulePerKey(Dropped(rules, k))
    decreases |rules|
  {
    if rules != [] {
      DroppedStaysOne(rules[1..], k);
      var rest := Dropped(rules[1..], k);
      forall i | 0 <= i < |rest| ensures KeyOf(rest[i]) != KeyOf(rules[0]) {
        assert rest[i] in rest && rest[i] in rules[1..];
      }
    }
  }

  /** A key's row stored over the rules as the table stores it: replaced, added, or deleted when empty. */
  function PutRow(rules: seq<Rule>, k: Key, row: Row): seq<Rule> {
    Dropped(rules, k) + if row == EMPTY_ROW then [] else [RuleFor(k, row)]
  }

  lemma RowIsPut(rules: seq<Rule>, k: Key, row: Row)
    requires OneRulePerKey(rules)
    ensures OneRulePerKey(PutRow(rules, k, row))
    ensures forall q :: RuleOf(PutRow(rules, k, row), q) == if q == k then row else RuleOf(rules, q)
  {
    DroppedStaysOne(rules, k);
    var kept, out := Dropped(rules, k), PutRow(rules, k, row);
    assert forall i :: 0 <= i < |kept| ==> kept[i] in kept;
    forall q ensures RuleOf(out, q) == if q == k then row else RuleOf(rules, q) {
      if q == k {
        KeptRow(out, k, row);
      } else if r :| r in rules && KeyOf(r) == q {
        assert r in kept && r in out;
        KeptRow(rules, q, RowOf(r));
        KeptRow(out, q, RowOf(r));
      } else {
        NoRow(rules, q);
        NoRow(out, q);
      }
    }
  }

  lemma KeptRow(rules: seq<Rule>, k: Key, row: Row)
    requires OneRulePerKey(rules)
    requires RuleFor(k, row) in rules || (row == EMPTY_ROW && forall r :: r in rules ==> KeyOf(r) != k)
    ensures RuleOf(rules, k) == row
  {
    if RuleFor(k, row) in rules {
      var i :| 0 <= i < |rules| && rules[i] == RuleFor(k, row);
    } else {
      NoRow(rules, k);
    }
  }

  lemma NoRow(rules: seq<Rule>, k: Key)
    requires forall r :: r in rules ==> KeyOf(r) != k
    ensures RuleOf(rules, k) == EMPTY_ROW
  {
    assert forall i :: 0 <= i < |rules| ==> rules[i] in rules;
  }

  /** No rule is kept that sets nothing. */
  ghost predicate NoEmptyRule(rules: seq<Rule>) {
    forall r :: r in rules ==> RowOf(r) != EMPTY_ROW
  }

  lemma NoEmptyIsPut(rules: seq<Rule>, k: Key, row: Row)
    ensures NoEmptyRule(rules) ==> NoEmptyRule(PutRow(rules, k, row))
  {
  }

  /** Stores what a save writes: every moved row, one by one, and the mark of a finished setup. */
  method StoreGrid(src: GridSource, w: GridWrite) returns (saved: GridSource)
    requires OneRulePerKey(src.rules)
    ensures AfterSave(src.(finished := src.finished || w.finishes), w.changed, saved)
    ensures NoEmptyRule(src.rules) ==> NoEmptyRule(saved.rules)
  {
    var rules := src.rules;
    var left := w.changed.Keys;
    while left != {}
      invariant Storing(src, w.changed, left, rules)
      decreases |left|
    {
      var k :| k in left;
      OneStored(src, w.changed, left, rules, k);
      rules := PutRow(rules, k, w.changed[k]);
      left := left - {k};
    }
    saved := src.(rules := rules, finished := src.finished || w.finishes);
  }

  /** The rows but those left are stored. */
  ghost predicate Storing(src: GridSource, changed: map<Key, Row>, left: set<Key>, rules: seq<Rule>) {
    && left <= changed.Keys && OneRulePerKey(rules)
    && (NoEmptyRule(src.rules) ==> NoEmptyRule(rules))
    && forall k :: RuleOf(rules, k) == if k in changed && k !in left then changed[k] else RuleOf(src.rules, k)
  }

  lemma OneStored(src: GridSource, changed: map<Key, Row>, left: set<Key>, rules: seq<Rule>, k: Key)
    requires Storing(src, changed, left, rules) && k in left
    ensures Storing(src, changed, left - {k}, PutRow(rules, k, changed[k]))
  {
    RowIsPut(rules, k, changed[k]);
    NoEmptyIsPut(rules, k, changed[k]);
  }

  /**
   The round trip of a project: once a save naming it is accepted and stored, reading it back lists exactly the roles
   and people saved, whatever else the save names.
   */
  method SaveAndReadProject(src: GridSource, managed: seq<Id>, owner: bool, projects: seq<ProjectSave>,
                            channels: seq<ChannelSave>, finish: bool, g: ProjectSave)
    returns (err: Option<Error>, roleIDs: seq<Id>, userIDs: seq<Id>)
    requires OneRulePerKey(src.rules) && ProjectsNamedOnce(projects) && g in projects
    ensures err.None? <==>
            && (owner || (!finish && channels == []))
            && FirstProjectRefusal(src, managed, projects).None? && FirstChannelRefusal(src, channels).None?
    ensures err.None? ==> forall r :: r in roleIDs <==> r in g.roleIDs
    ensures err.None? ==> forall u :: u in userIDs <==> u in g.userIDs
  {
    roleIDs, userIDs := [], [];
    var r := SaveGrid(src, managed, owner, projects, channels, finish);
    if r.Err? {
      return Some(r.error), [], [];
    }
    var saved := StoreGrid(src, r.value);
    roleIDs, userIDs := Listed(saved, g.projectID);
    ProjectReadsBack(src, managed, projects, channels, g, saved);
    err := None;
  }

  lemma ProjectReadsBack(src: GridSource, managed: seq<Id>, projects: seq<ProjectSave>, channels: seq<ChannelSave>,
                         g: ProjectSave, saved: GridSource)
    requires forall k :: RuleOf(saved.rules, k) == SavedRow(src, projects, channels, k)
    requires saved.roles == src.roles && ProjectsNamedOnce(projects) && g in projects
    requires ProjectRefusal(src, g, managed).None?
    ensures forall r :: (r in saved.roles &&
                         RowState(RuleOf(saved.rules, OnProject(g.projectID, Role(r))), ProjectsOpen) == Allow) <==>
                        r in g.roleIDs
    ensures forall u :: RowState(RuleOf(saved.rules, OnProject(g.projectID, Person(u))), ProjectsOpen) == Allow <==>
                        u in g.userIDs
  {
    forall r ensures (r in saved.roles &&
                      RowState(RuleOf(saved.rules, OnProject(g.projectID, Role(r))), ProjectsOpen) == Allow) <==>
                     r in g.roleIDs
    {
      if r in src.roles { SavedProjectIsExact(src, projects, channels, g, Role(r)); }
    }
    forall u ensures RowState(RuleOf(saved.rules, OnProject(g.projectID, Person(u))), ProjectsOpen) == Allow <==>
                     u in g.userIDs
    {
      SavedProjectIsExact(src, projects, channels, g, Person(u));
    }
  }

  /**
   The round trip of a channel: once a save naming it is accepted and stored, reading it back hides it from exactly the
   roles saved, whatever else the save names.
   */
  method SaveAndReadChannel(src: GridSource, managed: seq<Id>, owner: bool, projects: seq<ProjectSave>,
                            channels: seq<ChannelSave>, finish: bool, c: ChannelSave)
    returns (err: Option<Error>, hidden: seq<Id>)
    requires OneRulePerKey(src.rules) && ChannelsNamedOnce(channels) && c in channels
    ensures err.None? <==>
            && (owner || (!finish && channels == []))
            && FirstProjectRefusal(src, managed, projects).None? && FirstChannelRefusal(src, channels).None?
    ensures err.None? ==> forall r :: r in hidden <==> r in c.hiddenRoleIDs
  {
    hidden := [];
    var r := SaveGrid(src, managed, owner, projects, channels, finish);
    if r.Err? {
      return Some(r.error), [];
    }
    var saved := StoreGrid(src, r.value);
    hidden := HiddenFrom(saved, c.channelID);
    ChannelReadsBack(src, projects, channels, c, saved);
    err := None;
  }

  lemma ChannelReadsBack(src: GridSource, projects: seq<ProjectSave>, channels: seq<ChannelSave>, c: ChannelSave,
                         saved: GridSource)
    requires forall k :: RuleOf(saved.rules, k) == SavedRow(src, projects, channels, k)
    requires saved.roles == src.roles && ChannelsNamedOnce(channels) && c in channels
    requires ChannelRefusal(src, c).None?
    ensures forall r :: (r in saved.roles &&
                         RowState(RuleOf(saved.rules, OnChannel(c.channelID, Role(r))), CHANNELS_READ) == Deny) <==>
                        r in c.hiddenRoleIDs
  {
    forall r ensures (r in saved.roles &&
                      RowState(RuleOf(saved.rules, OnChannel(c.channelID, Role(r))), CHANNELS_READ) == Deny) <==>
                     r in c.hiddenRoleIDs
    {
      if r in src.roles { SavedChannelIsExact(src, projects, channels, c, r); }
    }
  }

  /**
   Saving back what was read moves no rule, and writes only the mark of a setup it finishes; it is accepted exactly
   when the caller may name what they read and every person listed is still a member.
   */
  method SaveBackWhatWasRead(src: GridSource, managed: seq<Id>, owner: bool, projectIDs: seq<Id>, channelIDs: seq<Id>,
                             finish: bool)
    returns (r: Result<GridWrite>)
    requires OneRulePerKey(src.rules)
    ensures r.Ok? <==>
            && (owner || (!finish && channelIDs == []))
            && (forall p :: p in projectIDs ==> p in managed && ListedAreMembers(src, p))
            && (forall c :: c in channelIDs ==> c in src.channels)
    ensures r.Ok? ==> r.value == GridWrite(map[], finish && !src.finished)
  {
    var projects: seq<ProjectSave> := [];
    for i := 0 to |projectIDs|
      invariant |projects| == i
      invariant forall j :: 0 <= j < i ==> projects[j].projectID == projectIDs[j] && IsProjectRead(src, projects[j])
    {
      var roleIDs, userIDs := Listed(src, projectIDs[i]);
      projects := projects + [ProjectSave(projectIDs[i], roleIDs, userIDs)];
    }
    var channels: seq<ChannelSave> := [];
    for i := 0 to |channelIDs|
      invariant |channels| == i
      invariant forall j :: 0 <= j < i ==> channels[j].channelID == channelIDs[j] && IsChannelRead(src, channels[j])
    {
      var hidden := HiddenFrom(src, channelIDs[i]);
      channels := channels + [ChannelSave(channelIDs[i], hidden)];
    }
    r := SaveGrid(src, managed, owner, projects, channels, finish);
    ReadIsShown(src, managed, projectIDs, projects, channelIDs, channels);
  }

  ghost predicate IsProjectRead(src: GridSource, g: ProjectSave) {
    &&
      (forall r :: r in g.roleIDs <==>
                   r in src.roles &&
                   RowState(RuleOf(src.rules, OnProject(g.projectID, Role(r))), ProjectsOpen) == Allow)
    && (forall u :: u in g.userIDs <==>
                    RowState(RuleOf(src.rules, OnProject(g.projectID, Person(u))), ProjectsOpen) == Allow)
  }

  ghost predicate IsChannelRead(src: GridSource, g: ChannelSave) {
    forall r :: r in g.hiddenRoleIDs <==>
                r in src.roles &&
                RowState(RuleOf(src.rules, OnChannel(g.channelID, Role(r))), CHANNELS_READ) == Deny
  }

  ghost predicate ListedAreMembers(src: GridSource, p: Id) {
    forall u :: RowState(RuleOf(src.rules, OnProject(p, Person(u))), ProjectsOpen) == Allow ==> u in src.memberIDs
  }

  lemma ReadIsShown(
    src: GridSource, managed: seq<Id>, projectIDs: seq<Id>, projects: seq<ProjectSave>, channelIDs: seq<Id>,
    channels: seq<ChannelSave>)
    requires |projects| == |projectIDs| && |channels| == |channelIDs|
    requires
      forall j :: 0 <= j < |projects| ==>
                    projects[j].projectID == projectIDs[j] &&
                    IsProjectRead(src, projects[j])
    requires
      forall j :: 0 <= j < |channels| ==>
                    channels[j].channelID == channelIDs[j] &&
                    IsChannelRead(src, channels[j])
    ensures AlreadyShown(src, projects, channels)
    ensures (forall g :: g in projects ==> ProjectRefusal(src, g, managed).None?) <==>
            forall p :: p in projectIDs ==> p in managed && ListedAreMembers(src, p)
    ensures (forall g :: g in channels ==> ChannelRefusal(src, g).None?) <==>
            forall c :: c in channelIDs ==> c in src.channels
    ensures channels == [] <==> channelIDs == []
  {
    forall j | 0 <= j < |projects|
      ensures ProjectRefusal(src, projects[j], managed).None? <==>
              projectIDs[j] in managed &&
              ListedAreMembers(src, projectIDs[j])
    {
      assert projects[j] in projects && projectIDs[j] in projectIDs;
      ReadRefusal(src, managed, projects[j]);
    }
    forall j | 0 <= j < |channels| ensures channels[j] in channels && channelIDs[j] in channelIDs {
    }
    forall g, k: Key | g in projects && MovesOn(src, g, k)
      ensures Lists(g, k.target) <==> RowState(RuleOf(src.rules, k), ProjectsOpen) == Allow
    {
      assert IsProjectRead(src, g);
      assert k == OnProject(g.projectID, k.target);
      if k.target.Role? { assert k.target == Role(k.target.id); } else { assert k.target == Person(k.target.id); }
    }
  }

  lemma ReadRefusal(src: GridSource, managed: seq<Id>, g: ProjectSave)
    requires IsProjectRead(src, g)
    ensures ProjectRefusal(src, g, managed).None? <==> g.projectID in managed && ListedAreMembers(src, g.projectID)
  {
    if ProjectRefusal(src, g, managed).None? {
      forall u | RowState(RuleOf(src.rules, OnProject(g.projectID, Person(u))), ProjectsOpen) == Allow
        ensures u in src.memberIDs {
        assert u in g.userIDs;
      }
    }
  }

  // ------------------------------------------------------------------ a project named more than once

  /** Saves that name other projects change nothing of this one. */
  lemma {:induction false} LastStepDecides(src: GridSource, saves: seq<ProjectSave>, row: Row, k: Key, i: nat)
    requires i < |saves| && k.on == Resource(ProjectKind, saves[i].projectID)
    requires forall j :: i < j < |saves| ==> saves[j].projectID != saves[i].projectID
    ensures ProjectSteps(src, saves, row, k) == ProjectStep(src, saves[i], ProjectSteps(src, saves[..i], row, k), k)
    decreases |saves|
  {
    var n := |saves| - 1;
    if i < n {
      LastStepDecides(src, saves[..n], row, k, i);
      assert saves[..n][..i] == saves[..i];
    }
  }

  /** A person not stored as listed ends listed exactly when some save names them. */
  lemma {:induction false} AddedWhenNamed(src: GridSource, saves: seq<ProjectSave>, p: Id, u: Id)
    requires RowState(RuleOf(src.rules, OnProject(p, Person(u))), ProjectsOpen) != Allow
    ensures var k := OnProject(p, Person(u));
            RowState(ProjectSteps(src, saves, RuleOf(src.rules, k), k), ProjectsOpen) == Allow <==>
            NamedBefore(saves, p, u)
    decreases |saves|
  {
    if saves != [] {
      var n := |saves| - 1;
      var k := OnProject(p, Person(u));
      AddedWhenNamed(src, saves[..n], p, u);
      SwitchedLands(ProjectSteps(src, saves[..n], RuleOf(src.rules, k), k), ProjectsOpen, Allow, u in saves[n].userIDs,
                    ProjectsOpen);
      assert NamedBefore(saves, p, u) <==>
             NamedBefore(saves[..n], p, u) ||
             (saves[n].projectID == p && u in saves[n].userIDs);
    }
  }

  ghost predicate NamedBefore(saves: seq<ProjectSave>, p: Id, u: Id) {
    exists g :: g in saves && g.projectID == p && u in g.userIDs
  }

  /**
   However often a project is named, each role column ends listed exactly as the last entry says, and each person does
   so too, but for one an earlier entry names, the last one does not, and no rule listed before.
   */
  lemma TheLastEntryDecidesBut(src: GridSource, projects: seq<ProjectSave>, channels: seq<ChannelSave>, i: nat,
                               t: Target)
    requires i < |projects| && forall j :: i < j < |projects| ==> projects[j].projectID != projects[i].projectID
    requires t.Role? ==> t.id in src.roles
    ensures var g := projects[i]; var k := OnProject(g.projectID, t);
                                  var listed := RowState(SavedRow(src, projects, channels, k), ProjectsOpen) == Allow;
                                  var stored := RowState(RuleOf(src.rules, k), ProjectsOpen) == Allow;
                                  listed != Lists(g, t) <==>
                                  t.Person? && !stored && !Lists(g, t) &&
                                  NamedBefore(projects[..i], g.projectID, t.id)
  {
    var g := projects[i];
    var k := OnProject(g.projectID, t);
    var row := RuleOf(src.rules, k);
    LastStepDecides(src, projects, row, k, i);
    var before := ProjectSteps(src, projects[..i], row, k);
    ChannelStepsElsewhere(src, channels, ProjectStep(src, g, before, k), k);
    SwitchedLands(before, ProjectsOpen, Allow, Lists(g, t), ProjectsOpen);
    if t.Person? && RowState(row, ProjectsOpen) != Allow {
      AddedWhenNamed(src, projects[..i], g.projectID, t.id);
    }
  }

  /**
   The exception occurs: a person the first entry adds is not stored yet, so a second one that leaves them out keeps
   them.
   */
  lemma NamedTwiceKeepsTheFirst(p: Id, u: Id)
    ensures var src := GridSource([], [], [u], [], false);
            var saves := [ProjectSave(p, [], [u]), ProjectSave(p, [], [])];
            RowState(SavedRow(src, saves, [], OnProject(p, Person(u))), ProjectsOpen) == Allow
  {
    var src := GridSource([], [], [u], [], false);
    var first, second := ProjectSave(p, [], [u]), ProjectSave(p, [], []);
    var k := OnProject(p, Person(u));
    assert [first, second][..1] == [first] && [first][..0] == [];
    assert ProjectSteps(src, [first], EMPTY_ROW, k) == ProjectStep(src, first, EMPTY_ROW, k);
  }
}
