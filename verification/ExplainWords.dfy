/**
 The explanations put in terms of what is stored: who may ask, which actions are answered, what a person's and a role's
 answers are on every kind of entity, and what a stack's deploys take besides.
 */
module ExplainWords {
  import opened Options
  import opened AccessModel
  import opened Evaluator
  import opened AccessStore
  import opened Reach
  import opened RuleRows
  import opened Answers
  import opened CheckWords
  import opened WhatIf
  import opened Writes
  import opened Explain
  import opened RoleHolders

  // ------------------------------------------------------------------ who may ask, and about what

  /** What an explanation answers for a person is what they hold on the entity. */
  lemma AnswersAreHeld(s: Store, view: Option<Id>, u: Id, e: Entity, a: Action)
    requires Kept(s) && u != NO_ID && EntityOf(s, e.on) == Ok(e)
    ensures AnswerFor(s, view, u, e, a, true).allowed <==> HeldOn(s, view, u, e.on, a)
  {
    assert e.workspaceID == HomeOf(s, e.on) && e.projectID == ProjectAround(s, e.on);
    if e.on.kind == ChannelKind && a == CHANNELS_READ {
      ChannelReadInWords(s, view, u, e.workspaceID, e.on.id);
    } else {
      CheckInWords(s, view, u, e.workspaceID, e.projectID, a, e.on);
    }
  }

  /** An entity is explained to who opens it as a writer of its rules does, a doc to who reads it. */
  lemma WhoMayAsk(s: Store, view: Option<Id>, actor: Id, on: Resource)
    requires Kept(s) && actor != NO_ID && on.kind !in {MachineKind, AreaKind, WorkspaceKind}
    ensures var found := EntityOf(s, on);
            found.Ok? && AnswerFor(s, view, actor, found.value, found.value.open, true).allowed <==>
            if on.kind == DocKind then HeldOn(s, view, actor, on, DOCS_READ) else Opens(s, view, actor, on)
  {
    var found := EntityOf(s, on);
    if found.Ok? { AnswersAreHeld(s, view, actor, found.value, found.value.open); }
  }

  /** And about someone else, to who manages it as a writer does. */
  lemma WhoMayAskAboutAnother(s: Store, view: Option<Id>, actor: Id, on: Resource)
    requires Kept(s) && actor != NO_ID && EntityOf(s, on).Ok?
    ensures var e := EntityOf(s, on).value;
            AnswerFor(s, view, actor, e, e.manage, true).allowed <==> Manages(s, view, actor, on)
  {
    var e := EntityOf(s, on).value;
    AnswersAreHeld(s, view, actor, e, e.manage);
  }

  /** It answers every action the entity's rules may set and no other, a doc's being a folder's. */
  lemma ExplainsWhatMayBeSet(s: Store, on: Resource, a: Action)
    requires EntityOf(s, on).Ok?
    ensures a in EntityOf(s, on).value.actions <==> Settable(if on.kind == DocKind then FolderKind else on.kind, a)
  {
    var kind := if on.kind == DocKind then FolderKind else on.kind;
    SettableIsWhatMayBeSet(kind, a);
  }

  // ------------------------------------------------------------------ what a role holds

  /** One entity's word on a role: what its rule for the role sets, else the answer from further out. */
  predicate RoleWord(s: Store, on: Resource, role: Id, a: Action, outer: bool) {
    Allows(s, on, Role(role), a) || (!Denies(s, on, Role(role), a) && outer)
  }

  lemma RoleRulesAreTheWord(v: Verdict, s: Store, on: Resource, role: Id, a: Action)
    requires Consistent(s) && role in s.roles
    ensures ApplyRules(v, OfRoleAlone(s, on, role), [role], a).allowed <==> RoleWord(s, on, role, a, v.allowed)
  {
    InAmong(s.roleOrder, [role]);
    CollectedSets(s, on, Among(s.roleOrder, [role]), [role], a, Allow);
    CollectedSets(s, on, Among(s.roleOrder, [role]), [role], a, Deny);
    ApplyRulesSays(v, OfRoleAlone(s, on, role), [role], a);
    assert role in Among(s.roleOrder, [role]);
  }

  predicate RoleWordInside(s: Store, on: Resource, role: Id, a: Action, outer: bool) {
    if !HasOwnRules(on) then outer
    else RoleWord(s, on, role, a, if InFolder(s, on) then RoleWord(s, FolderOf(s, on), role, a, outer) else outer)
  }

  /** Whether a holder of one role alone holds an action on a doc, folder, play, project, stack or channel. */
  predicate RoleHeldOn(s: Store, role: Id, on: Resource, a: Action)
    requires role in s.roles
  {
    var held, p := s.roles[role].held, ProjectAround(s, on);
    var granted, project := a in held.permissions, Resource(ProjectKind, p);
    || held.isOwner
    || (if on.kind == ChannelKind && a == CHANNELS_READ then RoleWord(s, on, role, a, true)
        else if p == NO_ID then a == Member || RoleWordInside(s, on, role, a, granted && !OfAProject(a))
        else
          && RoleWord(s, project, role, ProjectsOpen, false)
          && (a == Member || RoleWordInside(s, on, role, a, RoleWord(s, project, role, a, granted))))
  }

  lemma AloneRoleRecord(held: HeldRole)
    ensures var r := HeldInfo([held]);
            && RoleIDs(r) == [held.id] && r.permissions == held.permissions && r.isOwnerRole == held.isOwner
  {
    assert [held][0] == held;
    if held.isOwner { assert [held][0].isOwner; }
    forall a | a in held.permissions ensures a in Union([held]) {
      assert a in [held][0].permissions;
    }
  }

  lemma AloneRoleSource(held: HeldRole, a: Action)
    ensures SourceRole(HeldInfo([held]), a) == held.id
  {
    var r := HeldInfo([held]);
    assert [held][1..] == [] && SourceRoleIn(r, [], a) == held.id;
  }

  lemma RoleChainInWords(v: Verdict, s: Store, role: Id, e: Entity, a: Action)
    requires Consistent(s) && role in s.roles && EntityOf(s, e.on) == Ok(e) && e.on.kind != ProjectKind
    ensures ApplyChain(v, RoleChain(s, role, e), [role], a).allowed <==> RoleWordInside(s, e.on, role, a, v.allowed)
  {
    var folder, own := Some(Rules(None, RoleInFolder(s, role, e))), OfRoleAlone(s, e.on, role);
    ApplyTwo(v, folder, own, [role], a);
    var outer := ApplyRules(v, folder, [role], a);
    if InFolder(s, e.on) { RoleRulesAreTheWord(v, s, FolderOf(s, e.on), role, a); }
    RoleRulesAreTheWord(outer, s, e.on, role, a);
  }

  /** A role's answer, before a stack's machine is asked, is what a holder of the role alone holds. */
  lemma RoleAnswerInWords(s: Store, role: Id, e: Entity, a: Action)
    requires Consistent(s) && role in s.roles && EntityOf(s, e.on) == Ok(e)
    ensures RoleAnswerOn(s, role, e, a).allowed <==> RoleHeldOn(s, role, e.on, a)
  {
    var held := s.roles[role].held.(id := role);
    AloneRoleRecord(held);
    if e.on.kind == ChannelKind && a == CHANNELS_READ {
      var src := SourceOf(if IsPrivateChannel(s, e) then ChannelMember else EveryMember, e.on, Role(role), true);
      RoleRulesAreTheWord(Verdict(true, src), s, e.on, role, a);
    } else {
      RoleAnswerDecides(s, role, e, a);
      RoleDecidesInWords(s, role, e, a);
    }
  }

  lemma RoleThereInWords(s: Store, role: Id, e: Entity, a: Action)
    requires Consistent(s) && role in s.roles && EntityOf(s, e.on) == Ok(e)
    ensures var there, p := RoleThere(s, role, e), ProjectAround(s, e.on);
            var held, project := s.roles[role].held, Resource(ProjectKind, p);
            && there.projectID == p && RoleIDs(there.roles) == [role]
            && there.member && there.owner == held.isOwner && there.roles.permissions == held.permissions
            && (p == NO_ID ==> (Has(there, a).allowed <==> a in held.permissions && !OfAProject(a)))
            && (p != NO_ID ==>
                  && (there.listed <==> RoleWord(s, project, role, ProjectsOpen, false))
                  && (Has(there, a).allowed <==> RoleWord(s, project, role, a, a in held.permissions)))
  {
    var there, p := RoleThere(s, role, e), ProjectAround(s, e.on);
    var project := Resource(ProjectKind, p);
    AloneRoleRecord(s.roles[role].held.(id := role));
    if p != NO_ID {
      assert there.project == OfRoleAlone(s, project, role);
      RoleRulesAreTheWord(Verdict(false, NO_SOURCE), s, project, role, ProjectsOpen);
      RoleRulesAreTheWord(Granted(there, a), s, project, role, a);
    }
  }

  lemma RoleDecidesInWords(s: Store, role: Id, e: Entity, a: Action)
    requires Consistent(s) && role in s.roles && EntityOf(s, e.on) == Ok(e)
    requires !(e.on.kind == ChannelKind && a == CHANNELS_READ)
    ensures Decide(RoleThere(s, role, e), a, RoleChain(s, role, e)).allowed <==> RoleHeldOn(s, role, e.on, a)
  {
    RoleThereInWords(s, role, e, a);
    if e.on.kind != ProjectKind { RoleChainInWords(Has(RoleThere(s, role, e), a), s, role, e, a); }
  }

  /** What a role holds on a machine: the instance Owner's role everything, another what a role sees and is granted. */
  predicate RoleHeldOnMachine(s: Store, role: Id, m: Id, a: Action)
    requires role in s.roles
  {
    var held, on := s.roles[role].held, Resource(MachineKind, m);
    || (held.isOwner && s.roles[role].workspaceID == s.ownerWorkspace)
    || (&& RoleWord(s, on, role, MachinesSee, false)
        && (a == MachinesSee || RoleWord(s, on, role, a, a in held.permissions)))
  }

  lemma RoleMachineInWords(s: Store, role: Id, m: Id, a: Action)
    requires Consistent(s) && role in s.roles
    ensures var x := AnswerOn(RoleHolder(s, role, m), m, a, false);
            && (x.held <==> RoleHeldOnMachine(s, role, m, a))
            && (x.seen <==> RoleHeldOnMachine(s, role, m, MachinesSee))
  {
    var h, on := RoleHolder(s, role, m), Resource(MachineKind, m);
    AloneRoleRecord(s.roles[role].held.(id := role));
    assert h.rules == OfRoleAlone(s, on, role);
    RoleRulesAreTheWord(Verdict(false, SourceOf(NotOnMachine, on, h.target, false)), s, on, role, MachinesSee);
    RoleRulesAreTheWord(BitsAnswer(h.bits, a), s, on, role, a);
  }

  lemma RoleAreaInWords(s: Store, role: Id, area: Id, a: Action)
    requires Consistent(s) && role in s.roles
    ensures var held, on := s.roles[role].held, Resource(AreaKind, area);
            RoleAreaAnswerWith(s, role, area, a, RoleRules(s, on, [role])).allowed <==>
            || (held.isOwner && s.roles[role].workspaceID == s.ownerWorkspace)
            || a == Member
            || RoleWord(s, on, role, a, a in held.permissions && !OfAProject(a))
  {
    var row, on := s.roles[role], Resource(AreaKind, area);
    var held := row.held.(id := role);
    AloneRoleRecord(held);
    var ws := RoleLayers(row.workspaceID, held, held.isOwner && row.workspaceID == s.ownerWorkspace);
    ApplyOne(Has(ws, a), OfRoleAlone(s, on, role), [role], a);
    RoleRulesAreTheWord(Has(ws, a), s, on, role, a);
  }

  /** A role's rule on an entity sets nothing of the action. */
  predicate RoleSilent(s: Store, on: Resource, role: Id, a: Action) {
    !Allows(s, on, Role(role), a) && !Denies(s, on, Role(role), a)
  }

  lemma SilentRoleRules(v: Verdict, s: Store, on: Resource, role: Id, a: Action)
    requires Consistent(s) && role in s.roles && RoleSilent(s, on, role, a)
    ensures ApplyRules(v, OfRoleAlone(s, on, role), [role], a) == v
  {
    InAmong(s.roleOrder, [role]);
    CollectedSets(s, on, Among(s.roleOrder, [role]), [role], a, Allow);
    CollectedSets(s, on, Among(s.roleOrder, [role]), [role], a, Deny);
    ApplyRulesSays(v, OfRoleAlone(s, on, role), [role], a);
  }

  /**
   Why a role answers as it does, when its rules do not say: a channel's read is its members' or everyone's; an Owner
   role holds all; a role its project does not let in holds nothing, and the refusal names the role.
   */
  lemma RoleSourceInWords(s: Store, role: Id, e: Entity, a: Action)
    requires Consistent(s) && role in s.roles && EntityOf(s, e.on) == Ok(e)
    ensures var v, held, p := RoleAnswerOn(s, role, e, a), s.roles[role].held, ProjectAround(s, e.on);
            && (e.on.kind == ChannelKind && a == CHANNELS_READ && !held.isOwner && RoleSilent(s, e.on, role, a) ==>
                  && e.on.id in s.channels
                  && v == Verdict(true,
                                  Source(if s.channels[e.on.id].isPrivate then ChannelMember else EveryMember, e.on,
                                         Role(role), Allow)))
            && (held.isOwner ==>
                  v == Verdict(true, Source(OwnerSource, Resource(WorkspaceKind, e.workspaceID), Role(role), Allow)))
            && (!held.isOwner && p != NO_ID && !RoleWord(s, Resource(ProjectKind, p), role, ProjectsOpen, false) ==>
                  v == Verdict(false, Source(NotInProject, Resource(ProjectKind, p), Role(role), Deny)))
  {
    AloneRoleRecord(s.roles[role].held.(id := role));
    AloneRoleSource(s.roles[role].held.(id := role), Member);
    RoleThereInWords(s, role, e, a);
    if e.on.kind == ChannelKind && a == CHANNELS_READ {
      var kind := if IsPrivateChannel(s, e) then ChannelMember else EveryMember;
      if RoleSilent(s, e.on, role, a) {
        SilentRoleRules(Verdict(true, SourceOf(kind, e.on, Role(role), true)), s, e.on, role, a);
      }
    }
  }

  /** The same on an instance area: another workspace's Owner role is refused as the instance Owner's it is not. */
  lemma RoleAreaSourceInWords(s: Store, role: Id, area: Id, a: Action)
    requires Consistent(s) && role in s.roles && RoleSilent(s, Resource(AreaKind, area), role, a)
    requires a != Member && !OfAProject(a)
    requires !(s.roles[role].held.isOwner && s.roles[role].workspaceID == s.ownerWorkspace)
    ensures var on, row := Resource(AreaKind, area), s.roles[role];
            RoleAreaAnswerWith(s, role, area, a, RoleRules(s, on, [role])) ==
            if a in row.held.permissions
            then Verdict(true, Source(RoleSource, Resource(WorkspaceKind, row.workspaceID), Role(role), Allow))
            else if row.held.isOwner then Verdict(false, Source(InstanceOwnerSource, on, Role(role), Deny))
              else Verdict(false, Source(RoleSource, Resource(WorkspaceKind, row.workspaceID), Role(role), Deny))
  {
    var row, on := s.roles[role], Resource(AreaKind, area);
    var held := row.held.(id := role);
    AloneRoleRecord(held);
    AloneRoleSource(held, a);
    var ws := RoleLayers(row.workspaceID, held, false);
    assert Has(ws, a) == Granted(ws, a);
    ApplyOne(Has(ws, a), OfRoleAlone(s, on, role), [role], a);
    SilentRoleRules(Has(ws, a), s, on, role, a);
    assert Decide(ws, a, [OfRoleAlone(s, on, role)]) == Granted(ws, a);
  }

  // ------------------------------------------------------------------ a stack's deploys

  lemma KeptAfterFallback(s: Store, k: Key, a: Action)
    requires Kept(s)
    ensures Kept(AfterFallback(s, k, a))
  {
  }

  /** The machine a stack deploys to is there and the person sees it and holds Deploy to on it. */
  ghost predicate DeploysTo(s: Store, view: Option<Id>, u: Id, stack: StackScope) {
    stack.machine in s.machineNames && HeldOnMachine(s, view, u, s.machineNames[stack.machine], MACHINES_DEPLOY)
  }

  predicate RoleDeploysTo(s: Store, role: Id, stack: StackScope)
    requires role in s.roles
  {
    stack.machine in s.machineNames && RoleHeldOnMachine(s, role, s.machineNames[stack.machine], MACHINES_DEPLOY)
  }

  /** The refusal names the machine the stack deploys to, or its name when there is no such machine. */
  function NoDeployNaming(s: Store, stack: StackScope, target: Target): Source {
    Source(NoDeployTo,
           Resource(MachineKind, if stack.machine in s.machineNames then s.machineNames[stack.machine]
                    else stack.machine),
           target, Deny)
  }

  /** A verdict on a person's deploys on a stack: the stack's own, and refused besides when its machine refuses. */
  ghost predicate TellsDeploys(s: Store, view: Option<Id>, u: Id, on: Resource, own: Verdict, v: Verdict) {
    && on.kind == StackKind && on.id in s.stacks
    && var stack := s.stacks[on.id];
    && (v.allowed <==> HeldOn(s, view, u, on, DEPLOYS_WRITE) && DeploysTo(s, view, u, stack))
    && (!HeldOn(s, view, u, on, DEPLOYS_WRITE) || DeploysTo(s, view, u, stack) ==> v == own)
    && (HeldOn(s, view, u, on, DEPLOYS_WRITE) && !DeploysTo(s, view, u, stack) ==>
          v.source == NoDeployNaming(s, stack, Person(u)))
  }

  lemma EnforcedDeploys(s: Store, view: Option<Id>, u: Id, e: Entity)
    requires Kept(s) && u != NO_ID && EntityOf(s, e.on) == Ok(e) && e.on.kind == StackKind
    ensures TellsDeploys(s, view, u, e.on, Check(s, view, u, e.workspaceID, e.projectID, DEPLOYS_WRITE, e.on),
                         Enforced(s, view, u, e, DEPLOYS_WRITE))
  {
    AnswersAreHeld(s, view, u, e, DEPLOYS_WRITE);
    var m := FindOr(s.machineNames, e.machine, NO_ID);
    MachineFromWhatIsStored(s, view, u, m, MACHINES_DEPLOY);
  }

  /**
   A person's deploys on a stack are explained as allowed exactly when they hold them on the stack, and the stack's
   machine is there, is seen by them, and lets them deploy to it; refused for the machine, the source names it. The
   Fallback verdict is told the same of the store after the real move. Every other answer is the check's alone.
   */
  lemma PersonDeploysInWords(s: Store, view: Option<Id>, u: Id, e: Entity, a: Action, x: Explained)
    requires Kept(s) && u != NO_ID && EntityOf(s, e.on) == Ok(e) && ShowsPerson(s, view, u, e, a, x)
    ensures var t := AfterFallback(s, Key(e.on, Person(u)), a);
            var now := Check(s, view, u, e.workspaceID, e.projectID, a, e.on);
            var moved := Check(t, view, u, e.workspaceID, e.projectID, a, e.on);
            if a == DEPLOYS_WRITE && e.on.kind == StackKind
            then TellsDeploys(s, view, u, e.on, now, x.verdict) && TellsDeploys(t, view, u, e.on, moved, x.fallback)
            else
              && x.verdict == now && x.fallback == moved
              && (x.verdict.allowed <==> HeldOn(s, view, u, e.on, a))
              && (x.fallback.allowed <==> HeldOn(t, view, u, e.on, a))
  {
    var k := Key(e.on, Person(u));
    var t := AfterFallback(s, k, a);
    AfterFallbackFrame(s, k, a);
    KeptAfterFallback(s, k, a);
    assert EntityOf(t, e.on) == Ok(e);
    AnswersAreHeld(s, view, u, e, a);
    AnswersAreHeld(t, view, u, e, a);
    if a == DEPLOYS_WRITE && e.on.kind == StackKind {
      EnforcedDeploys(s, view, u, e);
      EnforcedDeploys(t, view, u, e);
    }
  }

  predicate RoleTellsDeploys(s: Store, role: Id, on: Resource, own: Verdict, v: Verdict)
    requires role in s.roles
  {
    && on.kind == StackKind && on.id in s.stacks
    && var stack := s.stacks[on.id];
    && (v.allowed <==> RoleHeldOn(s, role, on, DEPLOYS_WRITE) && RoleDeploysTo(s, role, stack))
    && (!RoleHeldOn(s, role, on, DEPLOYS_WRITE) || RoleDeploysTo(s, role, stack) ==> v == own)
    && (RoleHeldOn(s, role, on, DEPLOYS_WRITE) && !RoleDeploysTo(s, role, stack) ==>
          v.source == NoDeployNaming(s, stack, Role(role)))
  }

  lemma RoleEnforcedDeploys(s: Store, role: Id, e: Entity)
    requires Consistent(s) && role in s.roles && EntityOf(s, e.on) == Ok(e) && e.on.kind == StackKind
    ensures RoleTellsDeploys(s, role, e.on, RoleAnswerOn(s, role, e, DEPLOYS_WRITE),
                             RoleEnforced(s, role, e, DEPLOYS_WRITE))
  {
    RoleAnswerInWords(s, role, e, DEPLOYS_WRITE);
    RoleMachineInWords(s, role, FindOr(s.machineNames, e.machine, NO_ID), MACHINES_DEPLOY);
  }

  /** The same for a role's answers. */
  lemma RoleDeploysInWords(s: Store, role: Id, e: Entity, a: Action, x: Explained)
    requires Kept(s) && role in s.roles && EntityOf(s, e.on) == Ok(e) && ShowsRole(s, role, e, a, x)
    ensures var t := AfterFallback(s, Key(e.on, Role(role)), a);
            && role in t.roles
            && if a == DEPLOYS_WRITE && e.on.kind == StackKind
               then
                 && RoleTellsDeploys(s, role, e.on, RoleAnswerOn(s, role, e, a), x.verdict)
                 && RoleTellsDeploys(t, role, e.on, RoleAnswerOn(t, role, e, a), x.fallback)
               else
                 && (x.verdict.allowed <==> RoleHeldOn(s, role, e.on, a))
                 && (x.fallback.allowed <==> RoleHeldOn(t, role, e.on, a))
  {
    var k := Key(e.on, Role(role));
    var t := AfterFallback(s, k, a);
    AfterFallbackFrame(s, k, a);
    KeptAfterFallback(s, k, a);
    assert EntityOf(t, e.on) == Ok(e);
    if a == DEPLOYS_WRITE && e.on.kind == StackKind {
      RoleEnforcedDeploys(s, role, e);
      RoleEnforcedDeploys(t, role, e);
    } else {
      RoleAnswerInWords(s, role, e, a);
      RoleAnswerInWords(t, role, e, a);
    }
  }
}
