/**
 The explanations themselves: a person's and a role's answers for every action an entity's rules may set, each beside
 the answer the real move to Fallback would give.
 */
module Explain {
  import opened Options
  import opened AccessModel
  import opened Evaluator
  import opened AccessStore
  import opened Reach
  import opened RuleRows
  import opened WhatIf

  datatype Explained = Explained(action: Action, verdict: Verdict, fallback: Verdict)

  /** An allowed answer turned into a refusal; any other answer, or none refusing, stands. */
  function RefusedBy(v: Verdict, refusal: Option<Source>): Verdict {
    if refusal.None? || !v.allowed then v else Verdict(false, refusal.value)
  }

  /** Why a stack's deploys are refused without Deploy to on its machine. */
  function NoDeployOn(s: Store, e: Entity, target: Target, answer: MachineAnswer): Option<Source> {
    if e.machine !in s.machineNames then Some(SourceOf(NoDeployTo, Resource(MachineKind, e.machine), target, false))
    else if answer.seen && answer.held then None
    else Some(SourceOf(NoDeployTo, Resource(MachineKind, s.machineNames[e.machine]), target, false))
  }

  function PersonNoDeploy(s: Store, view: Option<Id>, u: Id, e: Entity): Option<Source> {
    if e.on.kind != StackKind then None
    else NoDeployOn(s, e, Person(u), MachineView(s, view, u, FindOr(s.machineNames, e.machine, NO_ID), MACHINES_DEPLOY,
                                                 false))
  }

  /** What a person may do on an entity, a stack's deploys taking Deploy to on its machine besides. */
  function Enforced(s: Store, view: Option<Id>, u: Id, e: Entity, a: Action): Verdict {
    var v := AnswerFor(s, view, u, e, a, true);
    if a == DEPLOYS_WRITE then RefusedBy(v, PersonNoDeploy(s, view, u, e)) else v
  }

  lemma HolderUnmoved(s: Store, k: Key, b: Action, view: Option<Id>, u: Id, m: Id)
    requires k.on.kind != MachineKind
    ensures HolderOf(AfterFallback(s, k, b), view, u, m) == HolderOf(s, view, u, m)
  {
    AfterFallbackFrame(s, k, b);
    AcrossUnmoved(s, k, b, view, u, WorkspacesOf(s, view, u));
    RulesOnUnmoved(s, k, b, Resource(MachineKind, m), u);
  }

  lemma RulesOnUnmoved(s: Store, k: Key, b: Action, on: Resource, u: Id)
    requires on != k.on
    ensures RulesOn(AfterFallback(s, k, b), on, u) == RulesOn(s, on, u)
  {
    var t := AfterFallback(s, k, b);
    AfterFallbackFrame(s, k, b);
    HeldByFrame(s, t, u, s.roleOrder);
    CollectFrame(s, t, on, HeldBy(s, u, s.roleOrder));
    assert Find(s.rules, Key(on, Person(u))) == Find(t.rules, Key(on, Person(u)));
  }

  lemma {:induction false} HeldByFrame(s: Store, t: Store, u: Id, order: seq<Id>)
    requires s.members == t.members
    ensures HeldBy(s, u, order) == HeldBy(t, u, order)
  {
    if order != [] {
      HeldByFrame(s, t, u, order[1..]);
      assert HoldsSomewhere(s, u, order[0]) == HoldsSomewhere(t, u, order[0]);
    }
  }

  /** `x` shows the enforced answer beside the enforced answer once the person's rule is really moved to Fallback. */
  ghost predicate ShowsPerson(s: Store, view: Option<Id>, u: Id, e: Entity, a: Action, x: Explained) {
    && x.action == a
    && x.verdict == Enforced(s, view, u, e, a)
    && x.fallback == Enforced(AfterFallback(s, Key(e.on, Person(u)), a), view, u, e, a)
  }

  lemma PersonShown(s: Store, view: Option<Id>, u: Id, e: Entity, a: Action)
    requires EntityOf(s, e.on) == Ok(e)
    ensures var noDeploy := if a == DEPLOYS_WRITE then PersonNoDeploy(s, view, u, e) else None;
            ShowsPerson(s, view, u, e, a, Explained(a, RefusedBy(AnswerFor(s, view, u, e, a, true), noDeploy),
                                                    RefusedBy(AnswerFor(s, view, u, e, a, false), noDeploy)))
  {
    WhatIfIsTheWrite(s, view, u, e.on, a);
    PersonNoDeployUnmoved(s, Key(e.on, Person(u)), a, view, u, e);
  }

  method PersonAnswers(s: Store, view: Option<Id>, u: Id, e: Entity) returns (out: seq<Explained>)
    requires EntityOf(s, e.on) == Ok(e)
    ensures |out| == |e.actions| && forall i :: 0 <= i < |out| ==> ShowsPerson(s, view, u, e, e.actions[i], out[i])
  {
    var noDeploy := PersonNoDeploy(s, view, u, e);
    out := [];
    for i := 0 to |e.actions|
      invariant |out| == i
      invariant forall j :: 0 <= j < i ==> ShowsPerson(s, view, u, e, e.actions[j], out[j])
    {
      var a := e.actions[i];
      var held := AnswerFor(s, view, u, e, a, true);
      var inherited := AnswerFor(s, view, u, e, a, false);
      if a == DEPLOYS_WRITE {
        held := RefusedBy(held, noDeploy);
        inherited := RefusedBy(inherited, noDeploy);
      }
      PersonShown(s, view, u, e, a);
      out := out + [Explained(a, held, inherited)];
    }
  }

  /**
   A person's answers on any entity. Every Fallback answer shown is what the enforced
   check answers once their rule there is really moved to Fallback for that action.
   */
  method ExplainPerson(s: Store, view: Option<Id>, actor: Id, on: Resource, user: Id)
    returns (r: Result<seq<Explained>>)
    ensures actor == NO_ID ==> r == Err(Unauthorized)
    ensures actor != NO_ID && on.kind == MachineKind ==>
              var u := if user == NO_ID then actor else user;
              if !MachineView(s, view, actor, on.id, MachinesSee, false).seen then r == Err(NotFound)
              else if u != actor && !MachineView(s, view, actor, on.id, MACHINES_WRITE, false).held
              then r == Err(Forbidden)
              else r.Ok? && |r.value| == |MachineActions()|
                   && forall i :: 0 <= i < |r.value| ==>
                                    ShowsMachine(s, view, u, on.id, MachineActions()[i], r.value[i])
    ensures actor != NO_ID && on.kind == AreaKind ==>
              var u := if user == NO_ID then actor else user;
              if AreaWith(s.areas, on.id).None? then r == Err(NotFound)
              else if u != actor && InstanceOwner(s, view, actor).None? then r == Err(Forbidden)
              else
                var actions := AreaWith(s.areas, on.id).value.actions;
                r.Ok? && |r.value| == |actions| && forall i :: 0 <= i < |actions| ==>
                                                                 ShowsArea(s, view, u, on.id, actions[i], r.value[i])
    ensures actor != NO_ID && on.kind !in {MachineKind, AreaKind} && EntityOf(s, on).Err? ==>
              r == Err(EntityOf(s, on).error)
    ensures actor != NO_ID && on.kind !in {MachineKind, AreaKind} && EntityOf(s, on).Ok? ==>
              var e := EntityOf(s, on).value;
              var u := if user == NO_ID then actor else user;
              if !AnswerFor(s, view, actor, e, e.open, true).allowed then r == Err(NotFound)
              else if u != actor && !AnswerFor(s, view, actor, e, e.manage, true).allowed then r == Err(Forbidden)
              else r.Ok? && |r.value| == |e.actions|
                   && forall i :: 0 <= i < |r.value| ==> ShowsPerson(s, view, u, e, e.actions[i], r.value[i])
  {
    if actor == NO_ID {
      return Err(Unauthorized);
    }
    var u := if user == NO_ID then actor else user;
    if on.kind == AreaKind {
      r := ExplainArea(s, view, actor, on.id, u);
      return;
    }
    if on.kind == MachineKind {
      r := ExplainMachine(s, view, actor, on.id, u);
      return;
    }
    var found := EntityOf(s, on);
    if found.Err? {
      return Err(found.error);
    }
    var e := found.value;
    EntityKeepsItsResource(s, on);
    if !AnswerFor(s, view, actor, e, e.open, true).allowed {
      return Err(NotFound);
    }
    if u != actor && !AnswerFor(s, view, actor, e, e.manage, true).allowed {
      return Err(Forbidden);
    }
    var out := PersonAnswers(s, view, u, e);
    r := Ok(out);
  }

  lemma EntityKeepsItsResource(s: Store, on: Resource)
    ensures EntityOf(s, on).Ok? ==> EntityOf(s, on).value.on == on
  {
  }

  lemma PersonNoDeployUnmoved(s: Store, k: Key, b: Action, view: Option<Id>, u: Id, e: Entity)
    requires k.on == e.on
    ensures PersonNoDeploy(AfterFallback(s, k, b), view, u, e) == PersonNoDeploy(s, view, u, e)
  {
    AfterFallbackFrame(s, k, b);
    if e.on.kind == StackKind {
      HolderUnmoved(s, k, b, view, u, FindOr(s.machineNames, e.machine, NO_ID));
    }
  }

  /**
   `x` shows what a person holds on a machine beside what they would once their rule there is really moved to
   Fallback.
   */
  ghost predicate ShowsMachine(s: Store, view: Option<Id>, u: Id, m: Id, a: Action, x: Explained) {
    var now := MachineView(s, view, u, m, a, false);
    var moved := MachineView(AfterFallback(s, Key(Resource(MachineKind, m), Person(u)), a), view, u, m, a, false);
    x == Explained(a, Verdict(now.held, now.source), Verdict(moved.held, moved.source))
  }

  /** A person's answers on a machine: for anyone who sees it about themselves, and for who manages it about anyone. */
  method ExplainMachine(s: Store, view: Option<Id>, actor: Id, m: Id, user: Id) returns (r: Result<seq<Explained>>)
    ensures if !MachineView(s, view, actor, m, MachinesSee, false).seen then r == Err(NotFound)
            else if user != actor && !MachineView(s, view, actor, m, MACHINES_WRITE, false).held
            then r == Err(Forbidden)
            else r.Ok? && |r.value| == |MachineActions()|
                 && forall i :: 0 <= i < |r.value| ==> ShowsMachine(s, view, user, m, MachineActions()[i], r.value[i])
  {
    if !MachineView(s, view, actor, m, MachinesSee, false).seen {
      return Err(NotFound);
    }
    if user != actor && !MachineView(s, view, actor, m, MACHINES_WRITE, false).held {
      return Err(Forbidden);
    }
    var actions := MachineActions();
    var out: seq<Explained> := [];
    for i := 0 to |actions|
      invariant |out| == i
      invariant forall j :: 0 <= j < i ==> ShowsMachine(s, view, user, m, actions[j], out[j])
    {
      var held, inherited := MachineView(s, view, user, m, actions[i], false),
                             MachineView(s, view, user, m, actions[i], true);
      WhatIfIsTheWriteOnAMachine(s, view, user, m, actions[i]);
      out := out + [Explained(actions[i], Verdict(held.held, held.source), Verdict(inherited.held, inherited.source))];
    }
    r := Ok(out);
  }

  ghost predicate ShowsArea(s: Store, view: Option<Id>, u: Id, area: Id, a: Action, x: Explained) {
    x == Explained(a, DecideArea(s, view, u, area, a, true),
                   DecideArea(AfterFallback(s, Key(Resource(AreaKind, area), Person(u)), a), view, u, area, a, true))
  }

  lemma AreaShown(s: Store, view: Option<Id>, u: Id, area: Id, a: Action)
    ensures ShowsArea(s, view, u, area, a, Explained(a, DecideArea(s, view, u, area, a, true),
                                                     DecideArea(s, view, u, area, a, false)))
  {
    WhatIfIsTheWriteOnAnArea(s, view, u, area, a);
  }

  /** A person's answers on an instance area: for anyone about themselves, and for the instance Owner about anyone. */
  method ExplainArea(s: Store, view: Option<Id>, actor: Id, key: Id, user: Id) returns (r: Result<seq<Explained>>)
    ensures if AreaWith(s.areas, key).None? then r == Err(NotFound)
            else if user != actor && InstanceOwner(s, view, actor).None? then r == Err(Forbidden)
            else
              var actions := AreaWith(s.areas, key).value.actions;
              r.Ok? && |r.value| == |actions| && forall i :: 0 <= i < |actions| ==>
                                                               ShowsArea(s, view, user, key, actions[i], r.value[i])
  {
    var area := AreaWith(s.areas, key);
    if area.None? {
      return Err(NotFound);
    }
    if user != actor && InstanceOwner(s, view, actor).None? {
      return Err(Forbidden);
    }
    var actions := area.value.actions;
    var out: seq<Explained> := [];
    for i := 0 to |actions|
      invariant |out| == i
      invariant forall j :: 0 <= j < i ==> ShowsArea(s, view, user, key, actions[j], out[j])
    {
      var held, inherited := DecideArea(s, view, user, key, actions[i], true),
                             DecideArea(s, view, user, key, actions[i], false);
      AreaShown(s, view, user, key, actions[i]);
      out := out + [Explained(actions[i], held, inherited)];
    }
    r := Ok(out);
  }

  // ------------------------------------------------------------------ roles

  /**
   A holder of one role alone asking for an action, given the role's rules on the project, a doc's folder and the
   entity.
   */
  function RoleAnswer(ws: Layers, e: Entity, role: Id, a: Action, inProject: seq<Rule>, inFolder: seq<Rule>,
                      own: seq<Rule>, isPrivate: bool): Verdict {
    if e.on.kind == ChannelKind && a == CHANNELS_READ && !ws.owner then
      var src := SourceOf(if isPrivate then ChannelMember else EveryMember, e.on, Role(role), true);
      ApplyRules(Verdict(true, src), Some(Rules(None, own)), [role], a)
    else
      var isProject := e.on.kind == ProjectKind;
      var chain := if isProject then [] else [Some(Rules(None, inFolder)), Some(Rules(None, own))];
      var there := if e.projectID == NO_ID then ws
                   else In(ws, e.projectID, Some(Rules(None, if isProject then own else inProject)));
      var v := Decide(there, a, chain);
      if v.source.kind == NotInProject then v.(source := v.source.(target := Role(role))) else v
  }

  function RoleNoDeploy(s: Store, role: Id, e: Entity): Option<Source>
    requires role in s.roles
  {
    if e.on.kind != StackKind then None
    else
      var m := FindOr(s.machineNames, e.machine, NO_ID);
      NoDeployOn(s, e, Role(role), AnswerOn(RoleHolder(s, role, m), m, MACHINES_DEPLOY, false))
  }

  function RoleInProject(s: Store, role: Id, e: Entity): seq<Rule> {
    if e.projectID != NO_ID && e.on.kind != ProjectKind then RoleRules(s, Resource(ProjectKind, e.projectID), [role])
    else []
  }

  function RoleInFolder(s: Store, role: Id, e: Entity): seq<Rule> {
    if e.folderID != NO_ID then RoleRules(s, Resource(FolderKind, e.folderID), [role]) else []
  }

  predicate IsPrivateChannel(s: Store, e: Entity) {
    e.on.kind == ChannelKind && e.on.id in s.channels && s.channels[e.on.id].isPrivate
  }

  /** A role's answer on an entity with `own` as its rules there. */
  function RoleAnswerWith(s: Store, role: Id, e: Entity, a: Action, own: seq<Rule>): Verdict
    requires role in s.roles
  {
    var held := s.roles[role].held.(id := role);
    var v := RoleAnswer(RoleLayers(e.workspaceID, held, held.isOwner), e, role, a,
                        RoleInProject(s, role, e), RoleInFolder(s, role, e), own, IsPrivateChannel(s, e));
    if a == DEPLOYS_WRITE then RefusedBy(v, RoleNoDeploy(s, role, e)) else v
  }

  function RoleEnforced(s: Store, role: Id, e: Entity, a: Action): Verdict
    requires role in s.roles
  {
    RoleAnswerWith(s, role, e, a, RoleRules(s, e.on, [role]))
  }

  lemma {:induction false} CollectMoved(s: Store, on: Resource, role: Id, a: Action, ids: seq<Id>)
    requires forall r :: r in ids ==> r == role
    requires Key(on, Role(role)) in s.rules
    ensures var moved := MoveTo(s.rules[Key(on, Role(role))], a, SetFallback);
            var t := AfterFallback(s, Key(on, Role(role)), a);
            && (moved != EMPTY_ROW ==> Collect(t, on, ids) == AtFallback(Collect(s, on, ids), a))
            && (moved == EMPTY_ROW ==> Collect(t, on, ids) == [])
            && forall q :: q in Collect(s, on, ids) ==> q == RuleAt(s, Key(on, Role(role))).value
  {
    if ids != [] {
      assert ids[0] in ids && forall r :: r in ids[1..] ==> r in ids;
      CollectMoved(s, on, role, a, ids[1..]);
      var head := RuleAt(s, Key(on, Role(role))).value;
      assert Collect(s, on, ids) == [head] + Collect(s, on, ids[1..]);
    }
  }

  /** Laid over any answer for any action, a role's rules held at Fallback act as the rule really moved. */
  lemma RoleMoved(v: Verdict, s: Store, on: Resource, role: Id, a: Action, b: Action)
    ensures ApplyRules(v, Some(Rules(None, AtFallback(RoleRules(s, on, [role]), a))), [role], b)
         == ApplyRules(v, Some(Rules(None, RoleRules(AfterFallback(s, Key(on, Role(role)), a), on, [role]))), [role], b)
  {
    var ids := Among(s.roleOrder, [role]);
    InAmong(s.roleOrder, [role]);
    var own := Collect(s, on, ids);
    if Key(on, Role(role)) in s.rules {
      CollectMoved(s, on, role, a, ids);
      var kept := AtFallback(own, a);
      if MoveTo(s.rules[Key(on, Role(role))], a, SetFallback) == EMPTY_ROW {
        forall q | q in kept ensures StateOf(q, b) == Fallback {
          var i :| 0 <= i < |kept| && kept[i] == q;
          assert q == WithoutAction(own[i], a) && own[i] in own;
        }
      }
    } else {
      NoRuleCollected(s, on, role, ids);
    }
  }

  lemma {:induction false} NoRuleCollected(s: Store, on: Resource, role: Id, ids: seq<Id>)
    requires forall r :: r in ids ==> r == role
    requires Key(on, Role(role)) !in s.rules
    ensures Collect(s, on, ids) == []
  {
    if ids != [] {
      assert ids[0] in ids && forall r :: r in ids[1..] ==> r in ids;
      NoRuleCollected(s, on, role, ids[1..]);
    }
  }

  lemma RoleRulesUnmoved(s: Store, k: Key, b: Action, on: Resource, role: Id)
    requires on != k.on
    ensures RoleRules(AfterFallback(s, k, b), on, [role]) == RoleRules(s, on, [role])
  {
    AfterFallbackFrame(s, k, b);
    CollectFrame(s, AfterFallback(s, k, b), on, Among(s.roleOrder, [role]));
  }

  lemma RoleNoDeployUnmoved(s: Store, k: Key, b: Action, role: Id, e: Entity)
    requires role in s.roles && k.on == e.on
    ensures RoleNoDeploy(AfterFallback(s, k, b), role, e) == RoleNoDeploy(s, role, e)
  {
    AfterFallbackFrame(s, k, b);
    if e.on.kind == StackKind {
      RoleRulesUnmoved(s, k, b, Resource(MachineKind, FindOr(s.machineNames, e.machine, NO_ID)), role);
    }
  }

  /**
   Inside a project, two readings of its rules that act alike on In this project and on the action give one answer.
   */
  lemma SameProjectReading(ws: Layers, p: Id, r: Option<Rules>, q: Option<Rules>, a: Action)
    requires ApplyRules(Verdict(false, NO_SOURCE), r, RoleIDs(ws.roles), ProjectsOpen).allowed
          == ApplyRules(Verdict(false, NO_SOURCE), q, RoleIDs(ws.roles), ProjectsOpen).allowed
    requires ApplyRules(Granted(ws, a), r, RoleIDs(ws.roles), a) == ApplyRules(Granted(ws, a), q, RoleIDs(ws.roles), a)
    ensures Decide(In(ws, p, r), a, []) == Decide(In(ws, p, q), a, [])
  {
  }

  lemma SameLastReading(ws: Layers, outer: Option<Rules>, r: Option<Rules>, q: Option<Rules>, a: Action)
    requires var v := ApplyRules(Has(ws, a), outer, RoleIDs(ws.roles), a);
             ApplyRules(v, r, RoleIDs(ws.roles), a) == ApplyRules(v, q, RoleIDs(ws.roles), a)
    ensures Decide(ws, a, [outer, r]) == Decide(ws, a, [outer, q])
  {
    ApplyTwo(Has(ws, a), outer, r, RoleIDs(ws.roles), a);
    ApplyTwo(Has(ws, a), outer, q, RoleIDs(ws.roles), a);
  }

  lemma RoleAnswerMoved(s: Store, ws: Layers, e: Entity, role: Id, a: Action, inProject: seq<Rule>, inFolder: seq<Rule>,
                        isPrivate: bool)
    requires ws.projectID == NO_ID && RoleIDs(ws.roles) == [role]
    ensures RoleAnswer(ws, e, role, a, inProject, inFolder, AtFallback(RoleRules(s, e.on, [role]), a), isPrivate)
         == RoleAnswer(ws, e, role, a, inProject, inFolder,
                       RoleRules(AfterFallback(s, Key(e.on, Role(role)), a), e.on, [role]), isPrivate)
  {
    var own := Some(Rules(None, AtFallback(RoleRules(s, e.on, [role]), a)));
    var other := Some(Rules(None, RoleRules(AfterFallback(s, Key(e.on, Role(role)), a), e.on, [role])));
    if e.on.kind == ChannelKind && a == CHANNELS_READ && !ws.owner {
      var src := SourceOf(if isPrivate then ChannelMember else EveryMember, e.on, Role(role), true);
      RoleMoved(Verdict(true, src), s, e.on, role, a, a);
    } else if e.on.kind == ProjectKind {
      RoleMoved(Verdict(false, NO_SOURCE), s, e.on, role, a, ProjectsOpen);
      RoleMoved(Granted(ws, a), s, e.on, role, a, a);
      SameProjectReading(ws, e.projectID, own, other, a);
    } else {
      var there := if e.projectID == NO_ID then ws else In(ws, e.projectID, Some(Rules(None, inProject)));
      var folder := Some(Rules(None, inFolder));
      RoleMoved(ApplyRules(Has(there, a), folder, [role], a), s, e.on, role, a, a);
      SameLastReading(there, folder, own, other, a);
    }
  }

  lemma RoleSurroundingsUnmoved(s: Store, role: Id, e: Entity, a: Action)
    requires role in s.roles && EntityOf(s, e.on) == Ok(e)
    ensures var t := AfterFallback(s, Key(e.on, Role(role)), a);
            && t.roles == s.roles && t.ownerWorkspace == s.ownerWorkspace
            && RoleInProject(t, role, e) == RoleInProject(s, role, e)
            && RoleInFolder(t, role, e) == RoleInFolder(s, role, e)
            && IsPrivateChannel(t, e) == IsPrivateChannel(s, e)
            && RoleNoDeploy(t, role, e) == RoleNoDeploy(s, role, e)
  {
    var k := Key(e.on, Role(role));
    AfterFallbackFrame(s, k, a);
    RoleNoDeployUnmoved(s, k, a, role, e);
    if e.projectID != NO_ID && e.on.kind !=
                               ProjectKind { RoleRulesUnmoved(s, k, a, Resource(ProjectKind, e.projectID), role); }
    if e.folderID != NO_ID { RoleRulesUnmoved(s, k, a, Resource(FolderKind, e.folderID), role); }
  }

  /** What-if equals the real write, for a role on a doc, folder, play, project, stack or channel. */
  lemma RoleWhatIfIsTheWrite(s: Store, role: Id, e: Entity, a: Action)
    requires role in s.roles && EntityOf(s, e.on) == Ok(e)
    ensures var t := AfterFallback(s, Key(e.on, Role(role)), a);
            && role in t.roles
            && RoleAnswerWith(s, role, e, a, AtFallback(RoleRules(s, e.on, [role]), a)) == RoleEnforced(t, role, e, a)
  {
    RoleSurroundingsUnmoved(s, role, e, a);
    var held := s.roles[role].held.(id := role);
    var ws := RoleLayers(e.workspaceID, held, held.isOwner);
    assert RoleIDs(ws.roles) == [role];
    RoleAnswerMoved(s, ws, e, role, a, RoleInProject(s, role, e), RoleInFolder(s, role, e), IsPrivateChannel(s, e));
  }

  /** What-if equals the real write, for a role on a machine. */
  lemma RoleWhatIfIsTheWriteOnAMachine(s: Store, role: Id, m: Id, a: Action)
    requires role in s.roles
    ensures AnswerOn(RoleHolder(s, role, m), m, a, true)
         == AnswerOn(RoleHolder(AfterFallback(s, Key(Resource(MachineKind, m), Role(role)), a), role, m), m, a, false)
  {
    var on := Resource(MachineKind, m);
    var t := AfterFallback(s, Key(on, Role(role)), a);
    AfterFallbackFrame(s, Key(on, Role(role)), a);
    var h := RoleHolder(s, role, m);
    var notOn := Verdict(false, SourceOf(NotOnMachine, on, h.target, false));
    RoleMoved(notOn, s, on, role, a, MachinesSee);
    RoleMoved(BitsAnswer(h.bits, a), s, on, role, a, a);
    if a != MachinesSee {
      OtherActionsOfRulesStay(notOn, RoleRules(s, on, [role]), [role], a, MachinesSee);
    }
  }

  lemma {:induction false} OtherActionsOfRulesStay(v: Verdict, rules: seq<Rule>, ids: seq<Id>, a: Action, b: Action)
    requires a != b
    ensures ApplyRules(v, Some(Rules(None, AtFallback(rules, a))), ids, b) ==
            ApplyRules(v, Some(Rules(None, rules)), ids, b)
  {
    SameFirst(rules, ids, a, b, Allow);
    SameFirst(rules, ids, a, b, Deny);
  }

  lemma {:induction false} SameFirst(rules: seq<Rule>, ids: seq<Id>, a: Action, b: Action, st: State)
    requires a != b
    ensures var f, g := FirstSetting(AtFallback(rules, a), ids, b, st), FirstSetting(rules, ids, b, st);
            f == if g.Some? then Some(WithoutAction(g.value, a)) else None
  {
    if rules != [] {
      assert AtFallback(rules, a)[1..] == AtFallback(rules[1..], a);
      SameFirst(rules[1..], ids, a, b, st);
    }
  }

  /**
   A role's answers on an instance area, with `own` as its rules there; only the default workspace's Owner role is the
   instance Owner's.
   */
  function RoleAreaAnswerWith(s: Store, role: Id, area: Id, a: Action, own: seq<Rule>): Verdict
    requires role in s.roles
  {
    var row := s.roles[role];
    var held := row.held.(id := role);
    var instanceOwner := held.isOwner && row.workspaceID == s.ownerWorkspace;
    var v := Decide(RoleLayers(row.workspaceID, held, instanceOwner), a, [Some(Rules(None, own))]);
    if held.isOwner && !instanceOwner && v.source.kind == RoleSource && v.source.state == Deny
    then v.(source := SourceOf(InstanceOwnerSource, Resource(AreaKind, area), v.source.target, false))
    else v
  }

  /** What-if equals the real write, for a role on an instance area. */
  lemma RoleWhatIfIsTheWriteOnAnArea(s: Store, role: Id, area: Id, a: Action)
    requires role in s.roles
    ensures var on := Resource(AreaKind, area);
            var t := AfterFallback(s, Key(on, Role(role)), a);
            && role in t.roles
            && RoleAreaAnswerWith(s, role, area, a, AtFallback(RoleRules(s, on, [role]), a))
               == RoleAreaAnswerWith(t, role, area, a, RoleRules(t, on, [role]))
  {
    var on := Resource(AreaKind, area);
    var t := AfterFallback(s, Key(on, Role(role)), a);
    AfterFallbackFrame(s, Key(on, Role(role)), a);
    var row := s.roles[role];
    var held := row.held.(id := role);
    var ws := RoleLayers(row.workspaceID, held, held.isOwner && row.workspaceID == s.ownerWorkspace);
    assert RoleIDs(ws.roles) == [role];
    RoleMoved(Has(ws, a), s, on, role, a, a);
    ApplyOne(Has(ws, a), Some(Rules(None, AtFallback(RoleRules(s, on, [role]), a))), [role], a);
    ApplyOne(Has(ws, a), Some(Rules(None, RoleRules(t, on, [role]))), [role], a);
  }

  /** `x` shows a role's answer beside its answer once its rule is really moved to Fallback. */
  ghost predicate ShowsRole(s: Store, role: Id, e: Entity, a: Action, x: Explained)
    requires role in s.roles
  {
    var t := AfterFallback(s, Key(e.on, Role(role)), a);
    && x.action == a
    && x.verdict == RoleEnforced(s, role, e, a)
    && role in t.roles
    && x.fallback == RoleEnforced(t, role, e, a)
  }

  lemma RoleShown(s: Store, role: Id, e: Entity, a: Action)
    requires role in s.roles && EntityOf(s, e.on) == Ok(e)
    ensures var own := RoleRules(s, e.on, [role]);
            ShowsRole(s, role, e, a, Explained(a, RoleAnswerWith(s, role, e, a, own),
                                               RoleAnswerWith(s, role, e, a, AtFallback(own, a))))
  {
    RoleWhatIfIsTheWrite(s, role, e, a);
  }

  method RoleAnswers(s: Store, role: Id, e: Entity) returns (out: seq<Explained>)
    requires role in s.roles && EntityOf(s, e.on) == Ok(e)
    ensures |out| == |e.actions| && forall i :: 0 <= i < |out| ==> ShowsRole(s, role, e, e.actions[i], out[i])
  {
    var own := RoleRules(s, e.on, [role]);
    out := [];
    for i := 0 to |e.actions|
      invariant |out| == i
      invariant forall j :: 0 <= j < i ==> ShowsRole(s, role, e, e.actions[j], out[j])
    {
      var a := e.actions[i];
      RoleShown(s, role, e, a);
      out := out + [Explained(a, RoleAnswerWith(s, role, e, a, own),
                              RoleAnswerWith(s, role, e, a, AtFallback(own, a)))];
    }
  }

  /** `x` shows a role's answer on a machine beside its answer once its rule there is really moved to Fallback. */
  ghost predicate ShowsRoleMachine(s: Store, role: Id, m: Id, a: Action, x: Explained)
    requires role in s.roles
  {
    var t := AfterFallback(s, Key(Resource(MachineKind, m), Role(role)), a);
    && role in t.roles
    && var now, moved := AnswerOn(RoleHolder(s, role, m), m, a, false), AnswerOn(RoleHolder(t, role, m), m, a, false);
    x == Explained(a, Verdict(now.held, now.source), Verdict(moved.held, moved.source))
  }

  lemma RoleMachineShown(s: Store, role: Id, m: Id, a: Action)
    requires role in s.roles
    ensures var h := RoleHolder(s, role, m);
            var now, without := AnswerOn(h, m, a, false), AnswerOn(h, m, a, true);
            ShowsRoleMachine(s, role, m, a, Explained(a, Verdict(now.held, now.source),
                                                      Verdict(without.held, without.source)))
  {
    AfterFallbackFrame(s, Key(Resource(MachineKind, m), Role(role)), a);
    RoleWhatIfIsTheWriteOnAMachine(s, role, m, a);
  }

  /** A role's answers on a machine, for who manages it. */
  method ExplainRoleMachine(s: Store, view: Option<Id>, actor: Id, m: Id, role: Id) returns (r: Result<seq<Explained>>)
    ensures if !MachineView(s, view, actor, m, MachinesSee, false).seen then r == Err(NotFound)
            else if !MachineView(s, view, actor, m, MACHINES_WRITE, false).held then r == Err(Forbidden)
            else if role !in s.roles then r == Err(NotFound)
            else r.Ok? && |r.value| == |MachineActions()|
                 && forall i :: 0 <= i < |r.value| ==> ShowsRoleMachine(s, role, m, MachineActions()[i], r.value[i])
  {
    if !MachineView(s, view, actor, m, MachinesSee, false).seen {
      return Err(NotFound);
    }
    if !MachineView(s, view, actor, m, MACHINES_WRITE, false).held {
      return Err(Forbidden);
    }
    if role !in s.roles {
      return Err(NotFound);
    }
    var actions, h := MachineActions(), RoleHolder(s, role, m);
    var out: seq<Explained> := [];
    for i := 0 to |actions|
      invariant |out| == i
      invariant forall j :: 0 <= j < i ==> ShowsRoleMachine(s, role, m, actions[j], out[j])
    {
      var with, without := AnswerOn(h, m, actions[i], false), AnswerOn(h, m, actions[i], true);
      RoleMachineShown(s, role, m, actions[i]);
      out := out + [Explained(actions[i], Verdict(with.held, with.source), Verdict(without.held, without.source))];
    }
    r := Ok(out);
  }

  ghost predicate ShowsRoleArea(s: Store, role: Id, area: Id, a: Action, x: Explained)
    requires role in s.roles
  {
    var on := Resource(AreaKind, area);
    var t := AfterFallback(s, Key(on, Role(role)), a);
    && role in t.roles
    && x == Explained(a, RoleAreaAnswerWith(s, role, area, a, RoleRules(s, on, [role])),
                      RoleAreaAnswerWith(t, role, area, a, RoleRules(t, on, [role])))
  }

  /** A role's answers on an instance area, for the instance Owner. */
  method ExplainRoleArea(s: Store, view: Option<Id>, actor: Id, key: Id, role: Id) returns (r: Result<seq<Explained>>)
    ensures if AreaWith(s.areas, key).None? then r == Err(NotFound)
            else if InstanceOwner(s, view, actor).None? then r == Err(Forbidden)
            else if role !in s.roles then r == Err(NotFound)
            else
              var actions := AreaWith(s.areas, key).value.actions;
              r.Ok? && |r.value| == |actions| &&
              forall i :: 0 <= i < |actions| ==> ShowsRoleArea(s, role, key, actions[i], r.value[i])
  {
    var area := AreaWith(s.areas, key);
    if area.None? {
      return Err(NotFound);
    }
    if InstanceOwner(s, view, actor).None? {
      return Err(Forbidden);
    }
    if role !in s.roles {
      return Err(NotFound);
    }
    var actions, own := area.value.actions, RoleRules(s, Resource(AreaKind, key), [role]);
    var out: seq<Explained> := [];
    for i := 0 to |actions|
      invariant |out| == i
      invariant forall j :: 0 <= j < i ==> ShowsRoleArea(s, role, key, actions[j], out[j])
    {
      var a := actions[i];
      RoleWhatIfIsTheWriteOnAnArea(s, role, key, a);
      out := out + [Explained(a, RoleAreaAnswerWith(s, role, key, a, own),
                              RoleAreaAnswerWith(s, role, key, a, AtFallback(own, a)))];
    }
    r := Ok(out);
  }

  /** A role's answers on an entity, each beside that of its rule really moved to Fallback. */
  method ExplainRole(s: Store, view: Option<Id>, actor: Id, on: Resource, role: Id) returns (r: Result<seq<Explained>>)
    ensures actor == NO_ID ==> r == Err(Unauthorized)
    ensures actor != NO_ID && on.kind == MachineKind ==>
              if !MachineView(s, view, actor, on.id, MachinesSee, false).seen then r == Err(NotFound)
              else if !MachineView(s, view, actor, on.id, MACHINES_WRITE, false).held then r == Err(Forbidden)
              else if role !in s.roles then r == Err(NotFound)
              else r.Ok? && |r.value| == |MachineActions()|
                   && forall i :: 0 <= i < |r.value| ==>
                                    ShowsRoleMachine(s, role, on.id, MachineActions()[i], r.value[i])
    ensures actor != NO_ID && on.kind == AreaKind ==>
              if AreaWith(s.areas, on.id).None? then r == Err(NotFound)
              else if InstanceOwner(s, view, actor).None? then r == Err(Forbidden)
              else if role !in s.roles then r == Err(NotFound)
              else
                var actions := AreaWith(s.areas, on.id).value.actions;
                r.Ok? && |r.value| == |actions| &&
                forall i :: 0 <= i < |actions| ==> ShowsRoleArea(s, role, on.id, actions[i], r.value[i])
    ensures actor != NO_ID && on.kind !in {MachineKind, AreaKind} && EntityOf(s, on).Err? ==>
              r == Err(EntityOf(s, on).error)
    ensures actor != NO_ID && on.kind !in {MachineKind, AreaKind} && EntityOf(s, on).Ok? ==>
              var e := EntityOf(s, on).value;
              if !AnswerFor(s, view, actor, e, e.open, true).allowed then r == Err(NotFound)
              else if !AnswerFor(s, view, actor, e, e.manage, true).allowed then r == Err(Forbidden)
              else if role !in s.roles || s.roles[role].workspaceID != e.workspaceID then r == Err(NotFound)
              else r.Ok? && |r.value| == |e.actions|
                   && forall i :: 0 <= i < |r.value| ==> ShowsRole(s, role, e, e.actions[i], r.value[i])
  {
    if actor == NO_ID {
      return Err(Unauthorized);
    }
    if on.kind == AreaKind {
      r := ExplainRoleArea(s, view, actor, on.id, role);
      return;
    }
    if on.kind == MachineKind {
      r := ExplainRoleMachine(s, view, actor, on.id, role);
      return;
    }
    var found := EntityOf(s, on);
    if found.Err? {
      return Err(found.error);
    }
    var e := found.value;
    EntityKeepsItsResource(s, on);
    if !AnswerFor(s, view, actor, e, e.open, true).allowed {
      return Err(NotFound);
    }
    if !AnswerFor(s, view, actor, e, e.manage, true).allowed {
      return Err(Forbidden);
    }
    if role !in s.roles || s.roles[role].workspaceID != e.workspaceID {
      return Err(NotFound);
    }
    var out := RoleAnswers(s, role, e);
    r := Ok(out);
  }
}
