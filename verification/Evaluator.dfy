/**
 The evaluator: rules laid over roles, entity by entity, the nearest rule with a say winning. The functions follow the
 code; `Say` and `InnermostSay` are an independent declarative reading of the same answer.
 */
module Evaluator {
  import opened Options
  import opened AccessModel

  // ------------------------------------------------------------------ one rule, one entity

  /** What one rule sets an action to, deny winning over allow inside it. */
  function StateOf(r: Rule, a: Action): State {
    if a in r.deny then Deny else if a in r.allow then Allow else Fallback
  }

  function RoleOf(r: Rule): Id {
    if r.target.Role? then r.target.id else NO_ID
  }

  function RuleSourceOf(r: Rule, s: State): Source {
    Source(RuleSource, r.on, r.target, s)
  }

  /** Whether `r` is a rule for one of `roleIDs` that sets `a` to `s`. */
  predicate Sets(r: Rule, roleIDs: seq<Id>, a: Action, s: State) {
    RoleOf(r) in roleIDs && StateOf(r, a) == s
  }

  /** The first rule, in the entity's target order, that sets `a` to `s` for a role held. */
  function FirstSetting(rules: seq<Rule>, roleIDs: seq<Id>, a: Action, s: State): (r: Option<Rule>)
    ensures r.Some? ==> r.value in rules && Sets(r.value, roleIDs, a, s)
    ensures r.None? ==> forall q :: q in rules ==> !Sets(q, roleIDs, a, s)
  {
    if rules == [] then None
    else if Sets(rules[0], roleIDs, a, s) then Some(rules[0])
    else FirstSetting(rules[1..], roleIDs, a, s)
  }

  /** The rules for the roles held laid over `v`: Allow if any allows, else Deny if any denies. */
  function ApplyRoleRules(v: Verdict, rules: seq<Rule>, roleIDs: seq<Id>, a: Action): Verdict {
    match FirstSetting(rules, roleIDs, a, Allow)
    case Some(r) => Verdict(true, RuleSourceOf(r, Allow))
    case None =>
      match FirstSetting(rules, roleIDs, a, Deny)
      case Some(r) => Verdict(false, RuleSourceOf(r, Deny))
      case None => v
  }

  function ApplyPersonRule(v: Verdict, r: Option<Rule>, a: Action): Verdict {
    if r.None? || StateOf(r.value, a) == Fallback then v
    else Verdict(StateOf(r.value, a) == Allow, RuleSourceOf(r.value, StateOf(r.value, a)))
  }

  /** An entity's rules laid over the answer from further out. */
  function ApplyRules(v: Verdict, r: Option<Rules>, roleIDs: seq<Id>, a: Action): Verdict {
    if r.None? then v
    else ApplyPersonRule(ApplyRoleRules(v, r.value.roles, roleIDs, a), r.value.person, a)
  }

  /** The source's single pass over an entity's role rules: return at the first Allow, remember the first Deny. */
  method ApplyRoleRulesInOnePass(v: Verdict, rules: seq<Rule>, roleIDs: seq<Id>, a: Action) returns (out: Verdict)
    ensures out == ApplyRoleRules(v, rules, roleIDs, a)
  {
    var denied: Option<Rule> := None;
    for i := 0 to |rules|
      invariant FirstSetting(rules[..i], roleIDs, a, Allow).None?
      invariant denied == FirstSetting(rules[..i], roleIDs, a, Deny)
    {
      assert rules[..i+1] == rules[..i] + [rules[i]];
      FirstSettingExtends(rules[..i], rules[i..i+1], roleIDs, a, Allow);
      FirstSettingExtends(rules[..i], rules[i..i+1], roleIDs, a, Deny);
      if RoleOf(rules[i]) !in roleIDs {
        continue;
      }
      var state := StateOf(rules[i], a);
      if state == Allow {
        assert rules == rules[..i+1] + rules[i+1..];
        FirstSettingExtends(rules[..i+1], rules[i+1..], roleIDs, a, Allow);
        return Verdict(true, RuleSourceOf(rules[i], state));
      }
      if state == Deny && denied.None? {
        denied := Some(rules[i]);
      }
    }
    assert rules[..|rules|] == rules;
    if denied.None? {
      return v;
    }
    return Verdict(false, RuleSourceOf(denied.value, Deny));
  }

  lemma {:induction false} FirstSettingExtends(rules: seq<Rule>, more: seq<Rule>, roleIDs: seq<Id>, a: Action, s: State)
    ensures FirstSetting(rules + more, roleIDs, a, s)
         == var f := FirstSetting(rules, roleIDs, a, s); if f.Some? then f else FirstSetting(more, roleIDs, a, s)
  {
    if rules == [] {
      assert rules + more == more;
    } else {
      assert (rules + more)[1..] == rules[1..] + more;
      FirstSettingExtends(rules[1..], more, roleIDs, a, s);
    }
  }

  // ------------------------------------------------------------------ layers

  /** The role set and the rules of the project asked about reaching the person. */
  datatype Layers = Layers(userID: Id, workspaceID: Id, projectID: Id, roles: RoleInfo, member: bool, owner: bool,
                           project: Option<Rules>, listed: bool)

  const NO_LAYERS := Layers(NO_ID, NO_ID, NO_ID, NO_ROLES, false, false, None, false)

  /**
   `ws` inside a project whose rules reaching the person are `r`: listed when they end in Allow of In this project.
   */
  function In(ws: Layers, projectID: Id, r: Option<Rules>): Layers {
    ws.(projectID := projectID, project := r,
    listed := ApplyRules(Verdict(false, NO_SOURCE), r, RoleIDs(ws.roles), ProjectsOpen).allowed)
  }

  predicate Hidden(ws: Layers) {
    !ws.owner && ws.projectID != NO_ID && (!ws.member || !ws.listed)
  }

  function WorkspaceOf(ws: Layers): Resource {
    Resource(WorkspaceKind, ws.workspaceID)
  }

  /** The action from the roles held alone, whatever the project. */
  function Granted(ws: Layers, a: Action): Verdict {
    var allowed := a in ws.roles.permissions;
    var source :=
      if !ws.member then SourceOf(MemberSource, WorkspaceOf(ws), Person(ws.userID), false)
      else if RoleIDs(ws.roles) == [] then SourceOf(RoleSource, WorkspaceOf(ws), Person(ws.userID), false)
      else SourceOf(RoleSource, WorkspaceOf(ws), Role(SourceRole(ws.roles, a)), allowed);
    Verdict(allowed, source)
  }

  /** What holds before any rule: nothing of a project's outside a project, else what the roles grant. */
  function Base(ws: Layers, a: Action): Verdict {
    if ws.member && ws.projectID == NO_ID && AreaOf(a) == ProjectArea then
      Verdict(false, SourceOf(OutsideProject, WorkspaceOf(ws), Person(ws.userID), false))
    else
      Granted(ws, a)
  }

  /** The action from the roles and, inside a project, the project's rules. */
  function Has(ws: Layers, a: Action): Verdict {
    if ws.projectID == NO_ID then Base(ws, a)
    else ApplyRules(Granted(ws, a), ws.project, RoleIDs(ws.roles), a)
  }

  function ApplyChain(v: Verdict, chain: seq<Option<Rules>>, roleIDs: seq<Id>, a: Action): Verdict
    decreases |chain|
  {
    if chain == [] then v else ApplyChain(ApplyRules(v, chain[0], roleIDs, a), chain[1..], roleIDs, a)
  }

  /** The answer from layers already read, then from the rules of each entity inward, the nearest winning. */
  function Decide(ws: Layers, a: Action, chain: seq<Option<Rules>>): Verdict {
    if ws.owner then
      Verdict(true, SourceOf(OwnerSource, WorkspaceOf(ws), Role(SourceRole(ws.roles, Member)), true))
    else if Hidden(ws) then
      Verdict(false, SourceOf(NotInProject, Resource(ProjectKind, ws.projectID), Person(ws.userID), false))
    else if a == Member then
      Verdict(ws.member, SourceOf(MemberSource, WorkspaceOf(ws), Person(ws.userID), ws.member))
    else
      ApplyChain(Has(ws, a), chain, RoleIDs(ws.roles), a)
  }

  /** The source's fold over the chain, one entity at a time. */
  method DecideByFolding(ws: Layers, a: Action, chain: seq<Option<Rules>>) returns (v: Verdict)
    ensures v == Decide(ws, a, chain)
  {
    if ws.owner {
      return Verdict(true, SourceOf(OwnerSource, WorkspaceOf(ws), Role(SourceRole(ws.roles, Member)), true));
    }
    if Hidden(ws) {
      return Verdict(false, SourceOf(NotInProject, Resource(ProjectKind, ws.projectID), Person(ws.userID), false));
    }
    if a == Member {
      return Verdict(ws.member, SourceOf(MemberSource, WorkspaceOf(ws), Person(ws.userID), ws.member));
    }
    v := Has(ws, a);
    for i := 0 to |chain|
      invariant ApplyChain(v, chain[i..], RoleIDs(ws.roles), a) == ApplyChain(Has(ws, a), chain, RoleIDs(ws.roles), a)
    {
      assert chain[i..][1..] == chain[i+1..];
      if chain[i].Some? {
        var afterRoles := ApplyRoleRulesInOnePass(v, chain[i].value.roles, RoleIDs(ws.roles), a);
        v := ApplyPersonRule(afterRoles, chain[i].value.person, a);
      }
    }
  }

  // ------------------------------------------------------------------ the declarative reading

  ghost predicate SomeRoleSets(rules: seq<Rule>, roleIDs: seq<Id>, a: Action, s: State) {
    exists r :: r in rules && Sets(r, roleIDs, a, s)
  }

  /** What one entity says of an action: its rule naming the person, else Allow if any role's allows, else any Deny. */
  ghost function Say(r: Option<Rules>, roleIDs: seq<Id>, a: Action): State {
    if r.None? then Fallback
    else if r.value.person.Some? && StateOf(r.value.person.value, a) != Fallback then StateOf(r.value.person.value, a)
    else if SomeRoleSets(r.value.roles, roleIDs, a, Allow) then Allow
    else if SomeRoleSets(r.value.roles, roleIDs, a, Deny) then Deny
    else Fallback
  }

  /** The entities asked, from the project inward. */
  function Entities(ws: Layers, chain: seq<Option<Rules>>): seq<Option<Rules>> {
    if ws.projectID == NO_ID then chain else [ws.project] + chain
  }

  /** Whether entity `i` is the nearest one with a say. */
  ghost predicate InnermostSay(entities: seq<Option<Rules>>, i: nat, roleIDs: seq<Id>, a: Action) {
    && i < |entities|
    && Say(entities[i], roleIDs, a) != Fallback
    && forall j :: i < j < |entities| ==> Say(entities[j], roleIDs, a) == Fallback
  }

  ghost predicate NoSay(entities: seq<Option<Rules>>, roleIDs: seq<Id>, a: Action) {
    forall j :: 0 <= j < |entities| ==> Say(entities[j], roleIDs, a) == Fallback
  }

  /** `src` names a rule of `r` that reaches the person and sets `a` to its state. */
  ghost predicate NamesARuleOf(src: Source, r: Option<Rules>, roleIDs: seq<Id>, a: Action) {
    && src.kind == RuleSource
    && r.Some?
    && exists q ::
         && (r.value.person == Some(q) || (q in r.value.roles && RoleOf(q) in roleIDs))
         && StateOf(q, a) == src.state
         && src.on == q.on && src.target == q.target
  }

  /** One entity's rules, read declaratively: silence keeps the answer, a say replaces it and names its rule. */
  lemma ApplyRulesSays(v: Verdict, r: Option<Rules>, roleIDs: seq<Id>, a: Action)
    ensures Say(r, roleIDs, a) == Fallback ==> ApplyRules(v, r, roleIDs, a) == v
    ensures Say(r, roleIDs, a) != Fallback ==>
              && ApplyRules(v, r, roleIDs, a).allowed == (Say(r, roleIDs, a) == Allow)
              && ApplyRules(v, r, roleIDs, a).source.state == Say(r, roleIDs, a)
              && NamesARuleOf(ApplyRules(v, r, roleIDs, a).source, r, roleIDs, a)
  {
    if r.Some? {
      var allow := FirstSetting(r.value.roles, roleIDs, a, Allow);
      var deny := FirstSetting(r.value.roles, roleIDs, a, Deny);
      assert SomeRoleSets(r.value.roles, roleIDs, a, Allow) <==> allow.Some?;
      assert SomeRoleSets(r.value.roles, roleIDs, a, Deny) <==> deny.Some?;
    }
  }

  /** The fold gives the innermost entity with a say, and leaves the outer answer where none has one. */
  lemma {:induction false} ApplyChainIsInnermost(v: Verdict, chain: seq<Option<Rules>>, roleIDs: seq<Id>, a: Action)
    ensures NoSay(chain, roleIDs, a) ==> ApplyChain(v, chain, roleIDs, a) == v
    ensures forall i: nat :: InnermostSay(chain, i, roleIDs, a) ==>
                               && ApplyChain(v, chain, roleIDs, a).allowed == (Say(chain[i], roleIDs, a) == Allow)
                               && ApplyChain(v, chain, roleIDs, a).source.state == Say(chain[i], roleIDs, a)
                               && NamesARuleOf(ApplyChain(v, chain, roleIDs, a).source, chain[i], roleIDs, a)
    ensures NoSay(chain, roleIDs, a) || exists i: nat :: InnermostSay(chain, i, roleIDs, a)
    decreases |chain|
  {
    if chain != [] {
      var rest := chain[1..];
      var next := ApplyRules(v, chain[0], roleIDs, a);
      ApplyRulesSays(v, chain[0], roleIDs, a);
      ApplyChainIsInnermost(next, rest, roleIDs, a);
      forall i: nat | InnermostSay(chain, i, roleIDs, a)
        ensures ApplyChain(v, chain, roleIDs, a).allowed == (Say(chain[i], roleIDs, a) == Allow)
        ensures ApplyChain(v, chain, roleIDs, a).source.state == Say(chain[i], roleIDs, a)
        ensures NamesARuleOf(ApplyChain(v, chain, roleIDs, a).source, chain[i], roleIDs, a)
      {
        if i == 0 {
          assert forall j :: 0 <= j < |rest| ==> rest[j] == chain[j + 1];
          assert NoSay(rest, roleIDs, a);
        } else {
          assert forall j :: 0 <= j < |rest| ==> rest[j] == chain[j + 1];
          assert InnermostSay(rest, i - 1, roleIDs, a);
        }
      }
      assert forall j :: 1 <= j < |chain| ==> chain[j] == rest[j - 1];
      if NoSay(rest, roleIDs, a) {
        if Say(chain[0], roleIDs, a) != Fallback { assert InnermostSay(chain, 0, roleIDs, a); }
      } else {
        var k: nat :| InnermostSay(rest, k, roleIDs, a);
        assert InnermostSay(chain, k + 1, roleIDs, a);
      }
    }
  }

  lemma DecideUnfolds(ws: Layers, a: Action, chain: seq<Option<Rules>>)
    requires !ws.owner && !Hidden(ws) && a != Member
    ensures Decide(ws, a, chain) == ApplyChain(Base(ws, a), Entities(ws, chain), RoleIDs(ws.roles), a)
  {
    if ws.projectID != NO_ID {
      assert Entities(ws, chain)[1..] == chain;
    }
  }

  /** The action counts inside a project alone. */
  predicate OfAProject(a: Action) {
    a == ProjectsOpen || (a.Grid? && a.area == ProjectArea)
  }

  /** A member asks for such an action outside any project. */
  predicate Outside(ws: Layers, a: Action) {
    ws.member && ws.projectID == NO_ID && OfAProject(a)
  }

  /** Role `i` of those held is the first whose own permissions contain the action. */
  ghost predicate FirstGranting(roles: seq<HeldRole>, i: nat, a: Action) {
    i < |roles| && a in roles[i].permissions && forall j :: 0 <= j < i ==> a !in roles[j].permissions
  }

  ghost predicate FirstOwner(roles: seq<HeldRole>, i: nat) {
    i < |roles| && roles[i].isOwner && forall j :: 0 <= j < i ==> !roles[j].isOwner
  }

  /** Why the roles of a member who is no Owner answer as they do. */
  ghost predicate RoleNamed(ws: Layers, a: Action, v: Verdict) {
    && v.source.kind == RoleSource && v.source.on == Resource(WorkspaceKind, ws.workspaceID)
    && v.source.state == (if v.allowed then Allow else Deny)
    && if v.allowed
       then exists i: nat :: FirstGranting(ws.roles.roles, i, a) && v.source.target == Role(ws.roles.roles[i].id)
       else v.source.target == if ws.roles.roles == [] then Person(ws.userID) else Role(ws.roles.roles[0].id)
  }

  /** What roles answer when no rule has a say: nothing of a project's outside one, else what one of them grants. */
  ghost predicate AsTheRolesSay(ws: Layers, a: Action, v: Verdict) {
    if Outside(ws, a) then
      v == Verdict(false, Source(OutsideProject, Resource(WorkspaceKind, ws.workspaceID), Person(ws.userID), Deny))
    else
      && (v.allowed <==> a in ws.roles.permissions)
      && (ws.member && OfItsRoles(ws.roles) && !ws.roles.isOwnerRole ==> RoleNamed(ws, a, v))
      && (!ws.member ==>
            v.source == Source(MemberSource, Resource(WorkspaceKind, ws.workspaceID), Person(ws.userID), Deny))
  }

  /** The role named is the first Owner role of an Owner, else the first granting the action, else the first. */
  lemma {:induction false} SourceRoleNames(r: RoleInfo, roles: seq<HeldRole>, a: Action)
    requires r.isOwnerRole <==> exists i :: 0 <= i < |r.roles| && r.roles[i].isOwner
    requires !r.isOwnerRole ==> forall i :: 0 <= i < |roles| ==> !roles[i].isOwner
    ensures forall i: nat :: r.isOwnerRole && FirstOwner(roles, i) ==> SourceRoleIn(r, roles, a) == roles[i].id
    ensures forall i: nat :: !r.isOwnerRole && FirstGranting(roles, i, a) ==> SourceRoleIn(r, roles, a) == roles[i].id
    ensures !r.isOwnerRole && (forall i :: 0 <= i < |roles| ==> a !in roles[i].permissions) ==>
              SourceRoleIn(r, roles, a) == r.roleID
  {
    if roles != [] {
      SourceRoleNames(r, roles[1..], a);
      forall i: nat | i > 0 && FirstOwner(roles, i) ensures FirstOwner(roles[1..], i - 1) {
        assert forall j :: 0 <= j < i - 1 ==> roles[1..][j] == roles[j + 1];
      }
      forall i: nat | i > 0 && FirstGranting(roles, i, a) ensures FirstGranting(roles[1..], i - 1, a) {
        assert forall j :: 0 <= j < i - 1 ==> roles[1..][j] == roles[j + 1];
      }
      assert forall j :: 0 <= j < |roles| - 1 ==> roles[1..][j] == roles[j + 1];
    }
  }

  lemma {:induction false} AFirstGrants(roles: seq<HeldRole>, a: Action) returns (i: nat)
    requires exists j :: 0 <= j < |roles| && a in roles[j].permissions
    ensures FirstGranting(roles, i, a)
  {
    if a in roles[0].permissions { return 0; }
    var j :| 0 <= j < |roles| && a in roles[j].permissions;
    assert roles[1..][j - 1] == roles[j];
    var k := AFirstGrants(roles[1..], a);
    assert forall j :: 0 < j < |roles| ==> roles[1..][j - 1] == roles[j];
    i := k + 1;
  }

  lemma BaseIsTheRoles(ws: Layers, a: Action)
    ensures AsTheRolesSay(ws, a, Base(ws, a))
  {
    if ws.member && !Outside(ws, a) && OfItsRoles(ws.roles) && !ws.roles.isOwnerRole {
      SourceRoleNames(ws.roles, ws.roles.roles, a);
      assert |RoleIDs(ws.roles)| == |ws.roles.roles|;
      if a in ws.roles.permissions {
        var i := AFirstGrants(ws.roles.roles, a);
        assert RoleNamed(ws, a, Base(ws, a));
      }
    }
  }

  /**
   The evaluator refines the declarative rule: for anyone but the Owner, in a project they are in, the answer is the
   innermost entity's with a say, its source a rule of that entity setting the action to that state. With no say it is
   yes exactly for an action a role's permissions contain, none of a project's outside one, and names that role.
   */
  lemma DecideIsInnermost(ws: Layers, a: Action, chain: seq<Option<Rules>>)
    requires !ws.owner && !Hidden(ws) && a != Member
    ensures var es := Entities(ws, chain); var ids := RoleIDs(ws.roles);
                                           || (NoSay(es, ids, a) && Decide(ws, a, chain) == Base(ws, a)
                                               && AsTheRolesSay(ws, a, Decide(ws, a, chain)))
                                           || exists i: nat ::
                                                && InnermostSay(es, i, ids, a)
                                                && Decide(ws, a, chain).allowed == (Say(es[i], ids, a) == Allow)
                                                && Decide(ws, a, chain).source.state == Say(es[i], ids, a)
                                                && NamesARuleOf(Decide(ws, a, chain).source, es[i], ids, a)
  {
    DecideUnfolds(ws, a, chain);
    ApplyChainIsInnermost(Base(ws, a), Entities(ws, chain), RoleIDs(ws.roles), a);
    BaseIsTheRoles(ws, a);
  }

  /**
   What is decided before any rule inward: an Owner holds everything, named by their first Owner role; anyone else holds
   nothing in a project they are not in; and being a member is belonging.
   */
  lemma DecidedBeforeRules(ws: Layers, a: Action, chain: seq<Option<Rules>>)
    ensures var v := Decide(ws, a, chain);
            && (ws.owner ==>
                  && v.allowed && v.source.kind == OwnerSource && v.source.state == Allow
                  && v.source.on == Resource(WorkspaceKind, ws.workspaceID)
                  && forall i: nat :: OfItsRoles(ws.roles) && FirstOwner(ws.roles.roles, i) ==>
                                        v.source.target == Role(ws.roles.roles[i].id))
            && (!ws.owner && ws.projectID != NO_ID && (!ws.member || !ws.listed) ==>
                  v == Verdict(false, Source(NotInProject, Resource(ProjectKind, ws.projectID), Person(ws.userID),
                                             Deny)))
            && (!ws.owner && (ws.projectID == NO_ID || (ws.member && ws.listed)) && a == Member ==>
                  && v.allowed == ws.member
                  && v.source == Source(MemberSource, Resource(WorkspaceKind, ws.workspaceID), Person(ws.userID),
                                        if ws.member then Allow else Deny))
  {
    if OfItsRoles(ws.roles) {
      SourceRoleNames(ws.roles, ws.roles.roles, Member);
    }
  }

  // ------------------------------------------------------------------ the source tells the truth

  /**
   A role record granting an action while naming no role, or a non-member's: its source says no where it answers yes.
   */
  predicate GrantsFromNowhere(ws: Layers, a: Action) {
    a in ws.roles.permissions && (!ws.member || RoleIDs(ws.roles) == [])
  }

  /** The source's state is Allow exactly when the answer is yes, unless a role record grants with no role to name. */
  lemma SourceStateIsTheAnswer(ws: Layers, a: Action, chain: seq<Option<Rules>>)
    ensures var v := Decide(ws, a, chain);
            (v.allowed <==> v.source.state == Allow) <==>
            !(&& !ws.owner && !Hidden(ws) && a != Member
                && NoSay(Entities(ws, chain), RoleIDs(ws.roles), a)
                && Base(ws, a) == Granted(ws, a)
                && GrantsFromNowhere(ws, a))
  {
    if !ws.owner && !Hidden(ws) && a != Member {
      DecideIsInnermost(ws, a, chain);
    }
  }

  /** A record that names one role and lists none answers as one listing that role. */
  lemma ARoleAloneIsItsList(ws: Layers, p: Id, r: Option<Rules>, role: HeldRole, a: Action, chain: seq<Option<Rules>>)
    requires role.id != NO_ID
    ensures var alone := ws.(roles := RoleInfo(role.id, role.isOwner, role.permissions, []));
            var listed := ws.(roles := RoleInfo(role.id, role.isOwner, role.permissions, [role]));
            Decide(In(alone, p, r), a, chain) == Decide(In(listed, p, r), a, chain)
  {
    var alone, listed := RoleInfo(role.id, role.isOwner, role.permissions, []),
                         RoleInfo(role.id, role.isOwner, role.permissions, [role]);
    assert RoleIDs(alone) == RoleIDs(listed) == [role.id];
    assert SourceRoleIn(listed, [role][1..], a) == role.id && SourceRoleIn(listed, [role][1..], Member) == role.id;
    assert SourceRole(alone, a) == SourceRole(listed, a) && SourceRole(alone, Member) == SourceRole(listed, Member);
  }

  // ------------------------------------------------------------------ rule order

  /** The same rules in another order. */
  ghost predicate Reordered(r: Option<Rules>, q: Option<Rules>) {
    || (r.None? && q.None?)
    || (r.Some? && q.Some? && r.value.person == q.value.person && multiset(r.value.roles) == multiset(q.value.roles))
  }

  lemma ReorderedSaysTheSame(r: Option<Rules>, q: Option<Rules>, roleIDs: seq<Id>, a: Action)
    requires Reordered(r, q)
    ensures Say(r, roleIDs, a) == Say(q, roleIDs, a)
  {
    if r.Some? {
      assert forall x :: x in r.value.roles <==> x in multiset(r.value.roles);
      assert forall x :: x in q.value.roles <==> x in multiset(q.value.roles);
    }
  }

  /** Two chains whose entities say the same, laid over equal verdicts, end in equal verdicts. */
  lemma {:induction false} SameSaysSameVerdict(v: Verdict, w: Verdict, chain: seq<Option<Rules>>,
                                               other: seq<Option<Rules>>,
                                               roleIDs: seq<Id>, a: Action)
    requires |chain| == |other| && v.allowed == w.allowed
    requires forall i :: 0 <= i < |chain| ==> Say(chain[i], roleIDs, a) == Say(other[i], roleIDs, a)
    ensures ApplyChain(v, chain, roleIDs, a).allowed == ApplyChain(w, other, roleIDs, a).allowed
    decreases |chain|
  {
    if chain != [] {
      ApplyRulesSays(v, chain[0], roleIDs, a);
      ApplyRulesSays(w, other[0], roleIDs, a);
      SameSaysSameVerdict(ApplyRules(v, chain[0], roleIDs, a), ApplyRules(w, other[0], roleIDs, a), chain[1..],
                          other[1..], roleIDs, a);
    }
  }

  /** The verdict does not depend on the order rules are listed in, in the project or in any entity inward. */
  lemma VerdictIgnoresRuleOrder(ws: Layers, p: Id, r: Option<Rules>, q: Option<Rules>, a: Action,
                                chain: seq<Option<Rules>>, other: seq<Option<Rules>>)
    requires Reordered(r, q)
    requires |chain| == |other| && forall i :: 0 <= i < |chain| ==> Reordered(chain[i], other[i])
    ensures Decide(In(ws, p, r), a, chain).allowed == Decide(In(ws, p, q), a, other).allowed
  {
    var ids := RoleIDs(ws.roles);
    var none := Verdict(false, NO_SOURCE);
    ReorderedSaysTheSame(r, q, ids, ProjectsOpen);
    ApplyRulesSays(none, r, ids, ProjectsOpen);
    ApplyRulesSays(none, q, ids, ProjectsOpen);
    var one, two := In(ws, p, r), In(ws, p, q);
    if !one.owner && !Hidden(one) && a != Member {
      DecideUnfolds(one, a, chain);
      DecideUnfolds(two, a, other);
      var es, fs := Entities(one, chain), Entities(two, other);
      forall i | 0 <= i < |es| ensures Say(es[i], ids, a) == Say(fs[i], ids, a) {
        if p == NO_ID {
          ReorderedSaysTheSame(chain[i], other[i], ids, a);
        } else if i == 0 {
          ReorderedSaysTheSame(r, q, ids, a);
        } else {
          ReorderedSaysTheSame(chain[i-1], other[i-1], ids, a);
        }
      }
      SameSaysSameVerdict(Base(one, a), Base(two, a), es, fs, ids, a);
    }
  }

  // ------------------------------------------------------------------ monotonicity under deny < fallback < allow

  function Rank(s: State): int {
    match s case Deny => 0 case Fallback => 1 case Allow => 2
  }

  /** Raising what any entity says never takes the answer away. */
  lemma {:induction false} ChainIsMonotone(v: Verdict, w: Verdict, chain: seq<Option<Rules>>, other: seq<Option<Rules>>,
                                           roleIDs: seq<Id>, a: Action)
    requires |chain| == |other| && (v.allowed ==> w.allowed)
    requires forall i :: 0 <= i < |chain| ==> Rank(Say(chain[i], roleIDs, a)) <= Rank(Say(other[i], roleIDs, a))
    ensures ApplyChain(v, chain, roleIDs, a).allowed ==> ApplyChain(w, other, roleIDs, a).allowed
    decreases |chain|
  {
    if chain != [] {
      ApplyRulesSays(v, chain[0], roleIDs, a);
      ApplyRulesSays(w, other[0], roleIDs, a);
      ChainIsMonotone(ApplyRules(v, chain[0], roleIDs, a), ApplyRules(w, other[0], roleIDs, a), chain[1..], other[1..],
                      roleIDs, a);
    }
  }

  /**
   The evaluator is monotone: raising what the project or an entity inward says of the action and of In this project
   keeps a yes.
   */
  lemma DecideIsMonotone(ws: Layers, p: Id, r: Option<Rules>, q: Option<Rules>, a: Action,
                         chain: seq<Option<Rules>>, other: seq<Option<Rules>>)
    requires Rank(Say(r, RoleIDs(ws.roles), a)) <= Rank(Say(q, RoleIDs(ws.roles), a))
    requires Rank(Say(r, RoleIDs(ws.roles), ProjectsOpen)) <= Rank(Say(q, RoleIDs(ws.roles), ProjectsOpen))
    requires |chain| == |other|
    requires forall i :: 0 <= i < |chain| ==>
                           Rank(Say(chain[i], RoleIDs(ws.roles), a)) <= Rank(Say(other[i], RoleIDs(ws.roles), a))
    ensures Decide(In(ws, p, r), a, chain).allowed ==> Decide(In(ws, p, q), a, other).allowed
  {
    var ids := RoleIDs(ws.roles);
    var none := Verdict(false, NO_SOURCE);
    ApplyRulesSays(none, r, ids, ProjectsOpen);
    ApplyRulesSays(none, q, ids, ProjectsOpen);
    var one, two := In(ws, p, r), In(ws, p, q);
    if !one.owner && !Hidden(one) && a != Member {
      DecideUnfolds(one, a, chain);
      DecideUnfolds(two, a, other);
      ChainIsMonotone(Base(one, a), Base(two, a), Entities(one, chain), Entities(two, other), ids, a);
    }
  }
}
