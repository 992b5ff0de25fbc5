/**
 What a role's explanation stands for: the answers the enforced checks give a person who holds that role alone, with
 no rule of their own.
 */
module RoleHolders {
  import opened Options
  import opened AccessModel
  import opened Evaluator
  import opened AccessStore
  import opened Reach
  import opened RuleRows
  import opened WhatIf
  import opened Explain
  import opened Answers

  /** The person is in the role's workspace alone, by that role alone, and no rule names them. */
  ghost predicate HoldsAlone(s: Store, u: Id, role: Id) {
    && role in s.roles && u != NO_ID && s.roles[role].workspaceID != NO_ID
    && Find(s.members, (s.roles[role].workspaceID, u)) == Some(HeldInfo([s.roles[role].held.(id := role)]))
    && FindOr(s.memberships, u, []) == [s.roles[role].workspaceID]
    && forall on: Resource :: Key(on, Person(u)) !in s.rules
  }

  /** The role's rules on an entity, as its explanation reads them. */
  function OfRoleAlone(s: Store, on: Resource, role: Id): Option<Rules> {
    Some(Rules(None, RoleRules(s, on, [role])))
  }

  lemma AloneReaches(s: Store, u: Id, role: Id, on: Resource, v: Verdict, a: Action)
    requires HoldsAlone(s, u, role)
    ensures Reaching(s, on, u, [role]) == OfRoleAlone(s, on, role)
    ensures AllHeld(s, u, [role])
    ensures ApplyRules(v, RulesOn(s, on, u), [role], a) == ApplyRules(v, OfRoleAlone(s, on, role), [role], a)
    ensures on.kind == ProjectKind ==>
              ApplyRules(v, ProjectRules(s, u, [role], on.id), [role], a) ==
              ApplyRules(v, OfRoleAlone(s, on, role), [role], a)
  {
    var w := s.roles[role].workspaceID;
    assert (w, u) in s.members && role in RoleIDs(s.members[(w, u)]);
    assert HoldsSomewhere(s, u, role);
    RulesOnReach(v, s, on, u, [role], a);
    if on.kind == ProjectKind { ProjectRulesReach(v, s, u, on.id, [role], a); }
  }

  /** The person's layers are the role's. */
  lemma AloneLayers(s: Store, u: Id, role: Id, p: Id)
    requires HoldsAlone(s, u, role)
    ensures var held := s.roles[role].held.(id := role);
            var w := s.roles[role].workspaceID;
            var ws, role_ := LayersFor(s, None, u, w, p), RoleLayers(w, held, held.isOwner);
            && ws.roles == role_.roles && ws.owner == role_.owner && ws.member && ws.projectID == p &&
               ws.workspaceID == w
            && RoleIDs(ws.roles) == [role]
            && (p != NO_ID ==> ws.project == ProjectRules(s, u, [role], p))
            && (p != NO_ID ==>
                  ws.listed ==
                  ApplyRules(Verdict(false, NO_SOURCE), ws.project, [role], ProjectsOpen).allowed)
  {
    var held := s.roles[role].held.(id := role);
    assert AnyOwner([held]) == held.isOwner by {
      if held.isOwner { assert [held][0].isOwner; }
    }
  }

  /** Layers that agree on everything the fold reads give answers that agree, laid under chains that say the same. */
  lemma SameLayersSameAnswer(ws: Layers, there: Layers, a: Action, chain: seq<Option<Rules>>, other: seq<Option<Rules>>)
    requires ws.owner == there.owner && ws.member == there.member && ws.roles == there.roles &&
             Hidden(ws) == Hidden(there)
    requires ApplyChain(Has(ws, a), chain, RoleIDs(ws.roles), a).allowed ==
             ApplyChain(Has(there, a), other, RoleIDs(ws.roles), a).allowed
    ensures Decide(ws, a, chain).allowed == Decide(there, a, other).allowed
  {
  }

  /** The rules from the project inward, as the explanation and as the check read them, turn an answer the same way. */
  lemma AloneChains(s: Store, u: Id, role: Id, e: Entity, a: Action, v: Verdict, x: Verdict)
    requires Consistent(s) && HoldsAlone(s, u, role) && EntityOf(s, e.on) == Ok(e) && e.on.kind != ProjectKind
    requires v.allowed == x.allowed
    ensures var chain := [Some(Rules(None, RoleInFolder(s, role, e))), OfRoleAlone(s, e.on, role)];
            ApplyChain(v, ChainOf(s, e.on, u), [role], a).allowed == ApplyChain(x, chain, [role], a).allowed
  {
    var folder, own := Some(Rules(None, RoleInFolder(s, role, e))), OfRoleAlone(s, e.on, role);
    ApplyTwo(x, folder, own, [role], a);
    AloneReaches(s, u, role, e.on, v, a);
    ChainReach(v, s, e.on, u, [role], a);
    if e.on.id == NO_ID {
      NothingOnNothing(s, role, e);
      RulesEnd(x, folder, [role], a);
      RulesEnd(x, own, [role], a);
    } else if e.on.kind == DocKind {
      var f := Resource(FolderKind, e.folderID);
      AloneReaches(s, u, role, f, v, a);
      var outer := if e.folderID == NO_ID then None else Reaching(s, f, u, [role]);
      TwoEnd(v, outer, x, folder, own, [role], a);
      ApplyTwo(v, outer, own, [role], a);
    } else {
      TwoEnd(v, None, x, folder, own, [role], a);
      ApplyOne(v, own, [role], a);
    }
  }

  /** Two answers under rules that say the same, and then under one entity's, end the same. */
  lemma TwoEnd(v: Verdict, outer: Option<Rules>, x: Verdict, folder: Option<Rules>, own: Option<Rules>, ids: seq<Id>,
               a: Action)
    requires v.allowed == x.allowed && Say(outer, ids, a) == Say(folder, ids, a)
    ensures ApplyRules(ApplyRules(v, outer, ids, a), own, ids, a).allowed ==
            ApplyRules(ApplyRules(x, folder, ids, a), own, ids, a).allowed
  {
    RulesEnd(v, outer, ids, a);
    RulesEnd(x, folder, ids, a);
    RulesEnd(ApplyRules(v, outer, ids, a), own, ids, a);
    RulesEnd(ApplyRules(x, folder, ids, a), own, ids, a);
  }

  lemma NothingOnNothing(s: Store, role: Id, e: Entity)
    requires Consistent(s) && e.on.id == NO_ID && EntityOf(s, e.on) == Ok(e)
    ensures RoleRules(s, e.on, [role]) == []
    ensures e.on.kind == DocKind ==> e.folderID == NO_ID
    ensures RoleInFolder(s, role, e) == []
  {
    InAmong(s.roleOrder, [role]);
    NoRuleCollected(s, e.on, role, Among(s.roleOrder, [role]));
  }

  /** The role's layers inside the entity's project, as its explanation builds them. */
  function RoleThere(s: Store, role: Id, e: Entity): Layers
    requires role in s.roles
  {
    var held := s.roles[role].held.(id := role);
    var alone := RoleLayers(e.workspaceID, held, held.isOwner);
    if e.projectID == NO_ID then alone else In(alone, e.projectID, RoleThereRules(s, role, e))
  }

  function RoleThereRules(s: Store, role: Id, e: Entity): Option<Rules> {
    Some(Rules(None, if e.on.kind == ProjectKind then RoleRules(s, e.on, [role]) else RoleInProject(s, role, e)))
  }

  /** They hide and grant what the person's layers there do. */
  lemma AloneThere(s: Store, u: Id, role: Id, e: Entity, a: Action)
    requires HoldsAlone(s, u, role) && EntityOf(s, e.on) == Ok(e) && s.roles[role].workspaceID == e.workspaceID
    ensures var ws, there := LayersFor(s, None, u, e.workspaceID, e.projectID), RoleThere(s, role, e);
            && ws.owner == there.owner && ws.member == there.member && ws.roles == there.roles &&
               RoleIDs(ws.roles) == [role]
            && Hidden(ws) == Hidden(there) && Has(ws, a).allowed == Has(there, a).allowed
  {
    var p := e.projectID;
    AloneLayers(s, u, role, p);
    var ws, there := LayersFor(s, None, u, e.workspaceID, p), RoleThere(s, role, e);
    if p != NO_ID {
      var project, rules := Resource(ProjectKind, p), RoleThereRules(s, role, e);
      assert rules == OfRoleAlone(s, project, role);
      AloneReaches(s, u, role, project, Verdict(false, NO_SOURCE), ProjectsOpen);
      AloneReaches(s, u, role, project, Granted(ws, a), a);
      RulesEnd(Granted(ws, a), rules, [role], a);
      RulesEnd(Granted(there, a), rules, [role], a);
    }
  }

  lemma RoleReadsAsItsHolder(s: Store, u: Id, role: Id, e: Entity)
    requires HoldsAlone(s, u, role) && EntityOf(s, e.on) == Ok(e) && e.on.kind == ChannelKind
    requires s.roles[role].workspaceID == e.workspaceID && !s.roles[role].held.isOwner
    requires IsPrivateChannel(s, e) ==> u in s.channels[e.on.id].memberIDs
    ensures var src := SourceOf(if IsPrivateChannel(s, e) then ChannelMember else EveryMember, e.on, Role(role), true);
            ApplyRules(Verdict(true, src), OfRoleAlone(s, e.on, role), [role], CHANNELS_READ).allowed
            == ChannelRead(s, None, u, e.workspaceID, e.on.id, true).allowed
  {
    AloneLayers(s, u, role, NO_ID);
    var own, base := OfRoleAlone(s, e.on, role), ChannelBase(s, u, e.on.id);
    AloneReaches(s, u, role, e.on, base, CHANNELS_READ);
    RulesEnd(base, own, [role], CHANNELS_READ);
    var src := SourceOf(if IsPrivateChannel(s, e) then ChannelMember else EveryMember, e.on, Role(role), true);
    RulesEnd(Verdict(true, src), own, [role], CHANNELS_READ);
  }

  /**
   A role's answers before its machine is asked: those of its lone holder, taken to be on the list of a private
   channel.
   */
  lemma RoleAnswersAsItsHolder(s: Store, u: Id, role: Id, e: Entity, a: Action)
    requires Consistent(s) && HoldsAlone(s, u, role) && EntityOf(s, e.on) == Ok(e)
    requires s.roles[role].workspaceID == e.workspaceID
    requires IsPrivateChannel(s, e) ==> u in s.channels[e.on.id].memberIDs
    ensures RoleAnswerOn(s, role, e, a).allowed == AnswerFor(s, None, u, e, a, true).allowed
  {
    if e.on.kind == ChannelKind && a == CHANNELS_READ {
      RoleChannelAsItsHolder(s, u, role, e);
    } else {
      RoleDecidesAsItsHolder(s, u, role, e, a);
      RoleAnswerDecides(s, role, e, a);
    }
  }

  /** A role's answer before its machine is asked. */
  function RoleAnswerOn(s: Store, role: Id, e: Entity, a: Action): Verdict
    requires role in s.roles
  {
    var held := s.roles[role].held.(id := role);
    RoleAnswer(RoleLayers(e.workspaceID, held, held.isOwner), e, role, a, RoleInProject(s, role, e),
               RoleInFolder(s, role, e), RoleRules(s, e.on, [role]), IsPrivateChannel(s, e))
  }

  function RoleChain(s: Store, role: Id, e: Entity): seq<Option<Rules>> {
    if e.on.kind == ProjectKind then []
    else [Some(Rules(None, RoleInFolder(s, role, e))), OfRoleAlone(s, e.on, role)]
  }

  lemma RoleAnswerDecides(s: Store, role: Id, e: Entity, a: Action)
    requires role in s.roles && !(e.on.kind == ChannelKind && a == CHANNELS_READ)
    ensures RoleAnswerOn(s, role, e, a).allowed == Decide(RoleThere(s, role, e), a, RoleChain(s, role, e)).allowed
  {
  }

  lemma RoleDecidesAsItsHolder(s: Store, u: Id, role: Id, e: Entity, a: Action)
    requires Consistent(s) && HoldsAlone(s, u, role) && EntityOf(s, e.on) == Ok(e)
    requires s.roles[role].workspaceID == e.workspaceID
    ensures Decide(RoleThere(s, role, e), a, RoleChain(s, role, e)).allowed ==
            Decide(LayersFor(s, None, u, e.workspaceID, e.projectID), a, ChainOf(s, e.on, u)).allowed
  {
    var ws, there := LayersFor(s, None, u, e.workspaceID, e.projectID), RoleThere(s, role, e);
    AloneThere(s, u, role, e, a);
    if e.on.kind != ProjectKind { AloneChains(s, u, role, e, a, Has(ws, a), Has(there, a)); }
    SameLayersSameAnswer(ws, there, a, ChainOf(s, e.on, u), RoleChain(s, role, e));
  }

  lemma RoleChannelAsItsHolder(s: Store, u: Id, role: Id, e: Entity)
    requires Consistent(s) && HoldsAlone(s, u, role) && EntityOf(s, e.on) == Ok(e) && e.on.kind == ChannelKind
    requires s.roles[role].workspaceID == e.workspaceID
    requires IsPrivateChannel(s, e) ==> u in s.channels[e.on.id].memberIDs
    ensures RoleAnswerOn(s, role, e, CHANNELS_READ).allowed ==
            ChannelRead(s, None, u, e.workspaceID, e.on.id, true).allowed
  {
    if s.roles[role].held.isOwner {
      AloneLayers(s, u, role, NO_ID);
    } else {
      RoleReadsAsItsHolder(s, u, role, e);
    }
  }

  /** On a machine that exists, a role's answer is its lone holder's. */
  lemma RoleMachineIsItsHolder(s: Store, u: Id, role: Id, m: Id, a: Action)
    requires Consistent(s) && HoldsAlone(s, u, role) && m in s.machineIDs
    ensures var x, y := AnswerOn(RoleHolder(s, role, m), m, a, false), MachineView(s, None, u, m, a, false);
            x.seen == y.seen && x.held == y.held
  {
    var w, on := s.roles[role].workspaceID, Resource(MachineKind, m);
    var held := s.roles[role].held.(id := role);
    AloneLayers(s, u, role, NO_ID);
    AloneOwns(s, u, role);
    MachineInWords(s, None, u, m, a);
    var layers := LayersAcross(s, None, u, WorkspacesOf(s, None, u));
    assert layers == [LayersFor(s, None, u, w, NO_ID)];
    assert RoleIDsOf(layers) == [role] by { assert RoleIDsOf(layers[1..]) == []; }
    var notOn := Verdict(false, SourceOf(NotOnMachine, on, Role(role), false));
    var asked := Verdict(false, SourceOf(NotOnMachine, on, Person(u), false));
    AloneReaches(s, u, role, on, notOn, MachinesSee);
    RulesEnd(notOn, RulesOn(s, on, u), [role], MachinesSee);
    RulesEnd(notOn, OfRoleAlone(s, on, role), [role], MachinesSee);
    var g := Granted(RoleLayers(w, held, held.isOwner), a);
    AloneReaches(s, u, role, on, g, a);
    RulesEnd(g, RulesOn(s, on, u), [role], a);
    assert SomeGrants(layers, a) <==> g.allowed by {
      if g.allowed { assert a in layers[0].roles.permissions; }
    }
  }

  lemma AloneOwns(s: Store, u: Id, role: Id)
    requires Consistent(s) && HoldsAlone(s, u, role)
    ensures InstanceOwner(s, None, u).Some? <==>
            s.roles[role].held.isOwner &&
            s.roles[role].workspaceID == s.ownerWorkspace
  {
    var w := s.roles[role].workspaceID;
    AloneLayers(s, u, role, NO_ID);
    if s.ownerWorkspace != w {
      assert s.ownerWorkspace !in FindOr(s.memberships, u, []);
      assert (s.ownerWorkspace, u) !in s.members;
    }
  }

  /** A machine named by a stack exists. */
  ghost predicate NamedMachinesExist(s: Store) {
    forall n :: n in s.machineNames ==> s.machineNames[n] in s.machineIDs
  }

  /**
   A role's explanation is its holder's enforcement: for every action of a doc, folder, play, project, stack or
   channel it says what the enforced check answers a person holding that role alone, a stack's deploys included.
   */
  lemma RoleIsItsHolder(s: Store, u: Id, role: Id, e: Entity, a: Action)
    requires Consistent(s) && NamedMachinesExist(s) && HoldsAlone(s, u, role) && EntityOf(s, e.on) == Ok(e)
    requires s.roles[role].workspaceID == e.workspaceID
    requires IsPrivateChannel(s, e) ==> u in s.channels[e.on.id].memberIDs
    ensures RoleEnforced(s, role, e, a).allowed == Enforced(s, None, u, e, a).allowed
  {
    RoleAnswersAsItsHolder(s, u, role, e, a);
    RoleDeploysAsItsHolder(s, u, role, e);
  }

  lemma RoleDeploysAsItsHolder(s: Store, u: Id, role: Id, e: Entity)
    requires Consistent(s) && NamedMachinesExist(s) && HoldsAlone(s, u, role)
    ensures RoleNoDeploy(s, role, e).Some? == PersonNoDeploy(s, None, u, e).Some?
  {
    if e.on.kind == StackKind && e.machine in s.machineNames {
      RoleMachineIsItsHolder(s, u, role, s.machineNames[e.machine], MACHINES_DEPLOY);
    }
  }

  /** The same for an instance area's own actions. */
  lemma RoleAreaIsItsHolder(s: Store, u: Id, role: Id, area: Id, a: Action)
    requires Consistent(s) && HoldsAlone(s, u, role) && area != NO_ID && AreaOf(a) == InstanceArea && a != Member
    ensures RoleAreaAnswerWith(s, role, area, a, RoleRules(s, Resource(AreaKind, area), [role])).allowed
         == DecideArea(s, None, u, area, a, true).allowed
  {
    var w, on := s.roles[role].workspaceID, Resource(AreaKind, area);
    var held := s.roles[role].held.(id := role);
    AloneLayers(s, u, role, NO_ID);
    AreaInWords(s, None, u, area, a);
    var layers := LayersAcross(s, None, u, [w]);
    assert WorkspacesOf(s, None, u) == [w] && layers == [LayersFor(s, None, u, w, NO_ID)];
    assert RoleIDsOf(layers) == [role] by { assert RoleIDsOf(layers[1..]) == []; }
    assert SomeOwnerSettles(s, None, u, [w], area, a) <==> held.isOwner && w == s.ownerWorkspace by {
      assert w in [w];
    }
    var ws := RoleLayers(w, held, held.isOwner && w == s.ownerWorkspace);
    assert SomeGrants(layers, a) <==> a in ws.roles.permissions by {
      if a in ws.roles.permissions { assert a in layers[0].roles.permissions; }
    }
    var v := Granted(ws, a);
    AloneReaches(s, u, role, on, v, a);
    ApplyOne(v, OfRoleAlone(s, on, role), [role], a);
    RulesEnd(v, RulesOn(s, on, u), [role], a);
    RulesEnd(v, OfRoleAlone(s, on, role), [role], a);
  }
}
