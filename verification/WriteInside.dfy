/**
 What a write on a folder or a project does to the entities inside it: who comes to hold an action there, and when its
 author did not hold that action on the inner entity themselves.
 */
module WriteInside {
  import opened Options
  import opened AccessModel
  import opened Evaluator
  import opened AccessStore
  import opened Reach
  import opened RuleRows
  import opened WhatIf
  import opened Writes
  import opened WriteTheorems

  /** With no rule on a folder raised for an action, nobody comes to hold it on a doc in that folder. */
  lemma DocsInAFolderNotRaised(s: Store, t: Store, view: Option<Id>, u: Id, d: Id, a: Action)
    requires var f := DocScopeOf(s, d).folderID;
             WroteOnly(s, t, FolderKind) && f != NO_ID && NotRaised(s, t, Resource(FolderKind, f), a)
    ensures Can(t, view, u, d, a) ==> Can(s, view, u, d, a)
  {
    var scope := DocScopeOf(s, d);
    LayersKept(s, t, FolderKind, view, u, scope.workspaceID, scope.projectID);
    DocChainNotRaised(s, t, view, u, d, a);
  }

  lemma DocChainNotRaised(s: Store, t: Store, view: Option<Id>, u: Id, d: Id, a: Action)
    requires var f := DocScopeOf(s, d).folderID;
             WroteOnly(s, t, FolderKind) && f != NO_ID && NotRaised(s, t, Resource(FolderKind, f), a)
    ensures var scope, on := DocScopeOf(s, d), Resource(DocKind, d);
            var ws := LayersFor(s, view, u, scope.workspaceID, scope.projectID);
            var ids := RoleIDs(ws.roles);
            ApplyChain(Has(ws, a), ChainOf(t, on, u), ids, a).allowed ==>
              ApplyChain(Has(ws, a), ChainOf(s, on, u), ids, a).allowed
  {
    var scope, on := DocScopeOf(s, d), Resource(DocKind, d);
    var ws := LayersFor(s, view, u, scope.workspaceID, scope.projectID);
    var ids := RoleIDs(ws.roles);
    LayersRolesHeld(s, view, u, scope.workspaceID, scope.projectID);
    HeldIn(s, t, u, ids);
    ChainReach(Has(ws, a), s, on, u, ids, a);
    ChainReach(Has(ws, a), t, on, u, ids, a);
    if d != NO_ID { ChainsInAFolder(s, t, u, ids, d, a, Has(ws, a)); }
  }

  lemma ChainsInAFolder(s: Store, t: Store, u: Id, ids: seq<Id>, d: Id, a: Action, v: Verdict)
    requires d != NO_ID && DocScopeOf(s, d).folderID != NO_ID && WroteOnly(s, t, FolderKind)
    requires NotRaised(s, t, Resource(FolderKind, DocScopeOf(s, d).folderID), a)
    ensures var on := Resource(DocKind, d);
            ApplyChain(v, ChainReaching(t, on, u, ids), ids, a).allowed ==>
              ApplyChain(v, ChainReaching(s, on, u, ids), ids, a).allowed
  {
    var on, folder := Resource(DocKind, d), Resource(FolderKind, DocScopeOf(s, d).folderID);
    ReachingFrame(s, t, on, u, ids);
    SayNotRaised(s, t, folder, u, ids, a);
    ChainIsMonotone(v, v, [Reaching(t, folder, u, ids), Reaching(s, on, u, ids)],
                    [Reaching(s, folder, u, ids), Reaching(s, on, u, ids)], ids, a);
  }

  /** Whoever newly holds an action on a doc after a write on its folder got one the author held on the folder. */
  lemma AFolderWriteGivesWhatItsAuthorHoldsThere(s: Store, c: Call, t: Store, view: Option<Id>, u: Id, d: Id, a: Action)
    requires Reached(s, c, t) && DisjointRules(s.rules) && c.kind == FolderKind && DocScopeOf(s, d).folderID != NO_ID
    requires Can(t, view, u, d, a) && !Can(s, view, u, d, a)
    ensures Holds(s, c.view, c.actor, Resource(FolderKind, DocScopeOf(s, d).folderID), a)
  {
    var folder := Resource(FolderKind, DocScopeOf(s, d).folderID);
    ReachedWroteOnly(s, c, t);
    if !Holds(s, c.view, c.actor, folder, a) {
      LackedIsNotRaised(s, c, t, folder, a);
      DocsInAFolderNotRaised(s, t, view, u, d, a);
    }
  }

  /** A doc in the project and workspace its folder is in. */
  predicate LiesInItsFolder(s: Store, d: Id) {
    var scope := DocScopeOf(s, d);
    && d != NO_ID && scope.folderID != NO_ID
    && FolderScopeOf(s, scope.folderID).workspaceID == scope.workspaceID
    && FolderScopeOf(s, scope.folderID).projectID == scope.projectID
  }

  /**
   Someone who holds an action on a folder holds it on a doc in it exactly when the doc's own rules do not deny it to
   them, but for an Owner and for membership, which no rule takes away. So the author of a folder write gives an
   action they lack on a doc in it exactly when the doc's own rules deny it to them.
   */
  lemma HeldInTheFolderAndOnTheDoc(s: Store, view: Option<Id>, u: Id, d: Id, a: Action)
    requires LiesInItsFolder(s, d) && Holds(s, view, u, Resource(FolderKind, DocScopeOf(s, d).folderID), a)
    ensures var scope := DocScopeOf(s, d);
            var ws := LayersFor(s, view, u, scope.workspaceID, scope.projectID);
            var ids := RoleIDs(ws.roles);
            Can(s, view, u, d, a) <==>
            ws.owner || a == Member ||
            Say(Reaching(s, Resource(DocKind, d), u, ids), ids, a) != Deny
  {
    var scope := DocScopeOf(s, d);
    var on, folder := Resource(DocKind, d), Resource(FolderKind, scope.folderID);
    var ws := LayersFor(s, view, u, scope.workspaceID, scope.projectID);
    var ids := RoleIDs(ws.roles);
    var v := Has(ws, a);
    LayersRolesHeld(s, view, u, scope.workspaceID, scope.projectID);
    ChainReach(v, s, on, u, ids, a);
    ChainReach(v, s, folder, u, ids, a);
    var inFolder := ApplyRules(v, Reaching(s, folder, u, ids), ids, a);
    ApplyOne(v, Reaching(s, folder, u, ids), ids, a);
    ApplyTwo(v, Reaching(s, folder, u, ids), Reaching(s, on, u, ids), ids, a);
    ApplyRulesSays(inFolder, Reaching(s, on, u, ids), ids, a);
  }

  /**
   Someone who newly holds an action on a doc after a write on its folder got one its author held on the doc too,
   exactly when the author owns the workspace, it is membership, or the doc's own rules do not deny it to the author.
   */
  lemma AFolderWriteExceedsItsAuthorExactlyWhen(
    s: Store, c: Call, t: Store, view: Option<Id>, u: Id, d: Id, a: Action)
    requires Reached(s, c, t) && DisjointRules(s.rules) && c.kind == FolderKind && LiesInItsFolder(s, d)
    requires Can(t, view, u, d, a) && !Can(s, view, u, d, a)
    ensures var scope := DocScopeOf(s, d);
            var ws := LayersFor(s, c.view, c.actor, scope.workspaceID, scope.projectID);
            var ids := RoleIDs(ws.roles);
            Can(s, c.view, c.actor, d, a) <==>
            ws.owner || a == Member || Say(Reaching(s, Resource(DocKind, d), c.actor, ids), ids, a) != Deny
  {
    AFolderWriteGivesWhatItsAuthorHoldsThere(s, c, t, view, u, d, a);
    HeldInTheFolderAndOnTheDoc(s, c.view, c.actor, d, a);
  }

  // ------------------------------------------------------------------ inside a project

  /** The project's own rules decide no more than before, unless they let the person in. */
  lemma InProjectNotRaised(s: Store, t: Store, view: Option<Id>, u: Id, w: Id, p: Id, a: Action)
    requires WroteOnly(s, t, ProjectKind) && NotRaised(s, t, Resource(ProjectKind, p), a)
    ensures var ws, wt := LayersFor(s, view, u, w, p), LayersFor(t, view, u, w, p);
            ws.roles == wt.roles && ws.owner == wt.owner && ws.member == wt.member &&
            (Has(wt, a).allowed ==> Has(ws, a).allowed)
  {
    if (view.Some? && w != view.value) || w == NO_ID || p == NO_ID {
    } else {
      var ws, wt := LayersFor(s, view, u, w, p), LayersFor(t, view, u, w, p);
      var ids := InfoRoleIDs(Find(s.members, (w, u)));
      assert RoleIDs(NO_ROLES) == [];
      assert RoleIDs(ws.roles) == ids && RoleIDs(wt.roles) == ids;
      var g := Granted(ws, a);
      ProjectRulesReach(g, s, u, p, ids, a);
      ProjectRulesReach(g, t, u, p, ids, a);
      RulesNotRaised(g, s, t, Resource(ProjectKind, p), u, ids, a);
    }
  }

  /** A write on a project leaves the rules of what is inside it. */
  lemma ChainsUnmoved(v: Verdict, s: Store, t: Store, on: Resource, u: Id, ids: seq<Id>, a: Action)
    requires WroteOnly(s, t, ProjectKind) && AllHeld(s, u, ids) && on.kind != ProjectKind
    ensures ApplyChain(v, ChainOf(t, on, u), ids, a) == ApplyChain(v, ChainReaching(s, on, u, ids), ids, a)
  {
    HeldIn(s, t, u, ids);
    ChainReach(v, t, on, u, ids, a);
    ReachingFrame(s, t, on, u, ids);
    if on.kind == DocKind { ReachingFrame(s, t, Resource(FolderKind, DocScopeOf(s, on.id).folderID), u, ids); }
  }

  /** With no rule on a project raised for an action, only someone let in comes to hold it on an entity inside. */
  lemma InsideAProjectNotRaised(s: Store, t: Store, view: Option<Id>, u: Id, w: Id, p: Id, on: Resource, a: Action)
    requires WroteOnly(s, t, ProjectKind) && NotRaised(s, t, Resource(ProjectKind, p), a) && on.kind != ProjectKind
    ensures var ws, wt := LayersFor(s, view, u, w, p), LayersFor(t, view, u, w, p);
            Decide(wt, a, ChainOf(t, on, u)).allowed ==>
              Decide(ws, a, ChainOf(s, on, u)).allowed ||
              (Hidden(ws) && !Hidden(wt))
  {
    var ws, wt := LayersFor(s, view, u, w, p), LayersFor(t, view, u, w, p);
    var ids := RoleIDs(ws.roles);
    InProjectNotRaised(s, t, view, u, w, p, a);
    LayersRolesHeld(s, view, u, w, p);
    ChainsUnmoved(Has(wt, a), s, t, on, u, ids, a);
    ChainReach(Has(ws, a), s, on, u, ids, a);
    var chain := ChainReaching(s, on, u, ids);
    ChainIsMonotone(Has(wt, a), Has(ws, a), chain, chain, ids, a);
  }

  /**
   Whoever newly holds an action on a doc, folder or stack after a write on its project got one the author held on the
   project, or was let in by an author who held that.
   */
  lemma AProjectWriteGivesWhatItsAuthorHoldsThere(s: Store, c: Call, t: Store, view: Option<Id>, u: Id, on: Resource,
                                                  a: Action)
    requires Reached(s, c, t) && DisjointRules(s.rules) && c.kind == ProjectKind &&
             on.kind in {DocKind, FolderKind, StackKind}
    requires Holds(t, view, u, on, a) && !Holds(s, view, u, on, a)
    requires FindOr(s.projects, ProjectOf(s, on), NO_ID) == WorkspaceOfEntity(s, on)
    ensures var project := Resource(ProjectKind, ProjectOf(s, on));
            || Holds(s, c.view, c.actor, project, a)
            || (LetIn(s, t, view, u, project) && Holds(s, c.view, c.actor, project, ProjectsOpen))
  {
    var p, w := ProjectOf(s, on), WorkspaceOfEntity(s, on);
    var project := Resource(ProjectKind, p);
    ReachedWroteOnly(s, c, t);
    if !Holds(s, c.view, c.actor, project, a) {
      LackedIsNotRaised(s, c, t, project, a);
      InsideAProjectNotRaised(s, t, view, u, w, p, on, a);
      if !Holds(s, c.view, c.actor, project, ProjectsOpen) {
        LackedIsNotRaised(s, c, t, project, ProjectsOpen);
        NotLetIn(s, t, view, u, w, p);
      }
    }
  }

  /** The rules between a project and an entity inside end in a Deny. */
  ghost predicate DeniedInside(s: Store, on: Resource, u: Id, ids: seq<Id>, a: Action) {
    && on.id != NO_ID
    && (|| Say(Reaching(s, on, u, ids), ids, a) == Deny
        || (on.kind == DocKind && Say(Reaching(s, on, u, ids), ids, a) == Fallback &&
            DeniedInItsFolder(s, on.id, u, ids, a)))
  }

  ghost predicate DeniedInItsFolder(s: Store, d: Id, u: Id, ids: seq<Id>, a: Action) {
    var f := DocScopeOf(s, d).folderID;
    f != NO_ID && Say(Reaching(s, Resource(FolderKind, f), u, ids), ids, a) == Deny
  }

  lemma ChainDenies(v: Verdict, s: Store, on: Resource, u: Id, ids: seq<Id>, a: Action)
    requires v.allowed && on.kind in {DocKind, FolderKind, StackKind}
    ensures ApplyChain(v, ChainReaching(s, on, u, ids), ids, a).allowed <==> !DeniedInside(s, on, u, ids, a)
  {
    var own := Reaching(s, on, u, ids);
    if on.id == NO_ID {
    } else if on.kind == DocKind {
      var f := DocScopeOf(s, on.id).folderID;
      var outer := if f == NO_ID then None else Reaching(s, Resource(FolderKind, f), u, ids);
      ApplyTwo(v, outer, own, ids, a);
      ApplyRulesSays(v, outer, ids, a);
      ApplyRulesSays(ApplyRules(v, outer, ids, a), own, ids, a);
    } else {
      ApplyOne(v, own, ids, a);
      ApplyRulesSays(v, own, ids, a);
    }
  }

  /**
   Someone who holds an action on a project holds it on a doc, folder or stack in it exactly when the rules between do
   not end in a Deny of it, but for an Owner and for membership. So the author of a project write gives an action they
   hold on the project and lack on an entity inside exactly when those rules deny it to them.
   */
  lemma HeldInTheProjectAndInside(s: Store, view: Option<Id>, u: Id, on: Resource, a: Action)
    requires on.kind in {DocKind, FolderKind, StackKind} && ProjectOf(s, on) != NO_ID
    requires FindOr(s.projects, ProjectOf(s, on), NO_ID) == WorkspaceOfEntity(s, on)
    requires Holds(s, view, u, Resource(ProjectKind, ProjectOf(s, on)), a)
    ensures var ws := LayersFor(s, view, u, WorkspaceOfEntity(s, on), ProjectOf(s, on));
            Holds(s, view, u, on, a) <==>
            ws.owner || a == Member || !DeniedInside(s, on, u, RoleIDs(ws.roles), a)
  {
    var w, p := WorkspaceOfEntity(s, on), ProjectOf(s, on);
    var ws := LayersFor(s, view, u, w, p);
    LayersRolesHeld(s, view, u, w, p);
    ChainReach(Has(ws, a), s, on, u, RoleIDs(ws.roles), a);
    if Has(ws, a).allowed { ChainDenies(Has(ws, a), s, on, u, RoleIDs(ws.roles), a); }
  }

  // ------------------------------------------------------------------ a folder write that exceeds its author

  /** No rule names a role, so an entity says of an action what its rule for the person sets. */
  ghost predicate NoRoleRules(s: Store) {
    forall k :: k in s.rules ==> k.target.Person?
  }

  lemma OnlyThePersonsRuleSays(s: Store, on: Resource, u: Id, ids: seq<Id>, a: Action)
    requires NoRoleRules(s)
    ensures Say(Reaching(s, on, u, ids), ids, a) == StateAt(s, Key(on, Person(u)), a)
  {
    ReachingSays(s, on, u, ids, a);
  }

  function Ends(st: State, outer: bool): bool {
    st == Allow || (st == Fallback && outer)
  }

  /** A member of a workspace let into a project, by rules naming people alone. */
  ghost predicate IsIn(s: Store, u: Id, w: Id, p: Id) {
    && NoRoleRules(s) && u != NO_ID && w != NO_ID && p != NO_ID
    && (w, u) in s.members && !s.members[(w, u)].isOwnerRole
    && StateAt(s, Key(Resource(ProjectKind, p), Person(u)), ProjectsOpen) == Allow
  }

  lemma LayersIn(s: Store, u: Id, w: Id, p: Id, a: Action)
    requires IsIn(s, u, w, p)
    ensures var ws := LayersFor(s, None, u, w, p);
            && !ws.owner && ws.member && !Hidden(ws)
            && Has(ws, a).allowed == Ends(StateAt(s, Key(Resource(ProjectKind, p), Person(u)), a),
                                          a in s.members[(w, u)].permissions)
  {
    var ws, on := LayersFor(s, None, u, w, p), Resource(ProjectKind, p);
    var ids, none := RoleIDs(ws.roles), Verdict(false, NO_SOURCE);
    OnlyThePersonsRuleSays(s, on, u, ids, ProjectsOpen);
    OnlyThePersonsRuleSays(s, on, u, ids, a);
    ProjectRulesReach(none, s, u, p, ids, ProjectsOpen);
    ProjectRulesReach(Granted(ws, a), s, u, p, ids, a);
    ApplyRulesSays(none, Reaching(s, on, u, ids), ids, ProjectsOpen);
    ApplyRulesSays(Granted(ws, a), Reaching(s, on, u, ids), ids, a);
  }

  lemma OnAFolder(s: Store, u: Id, f: Id, a: Action)
    requires f != NO_ID && a != Member && IsIn(s, u, FolderScopeOf(s, f).workspaceID, FolderScopeOf(s, f).projectID)
    ensures var w, p := FolderScopeOf(s, f).workspaceID, FolderScopeOf(s, f).projectID;
            Holds(s, None, u, Resource(FolderKind, f), a) <==>
            Ends(StateAt(s, Key(Resource(FolderKind, f), Person(u)), a),
                 Ends(StateAt(s, Key(Resource(ProjectKind, p), Person(u)), a), a in s.members[(w, u)].permissions))
  {
    var w, p, on := FolderScopeOf(s, f).workspaceID, FolderScopeOf(s, f).projectID, Resource(FolderKind, f);
    var ws := LayersFor(s, None, u, w, p);
    var ids, v := RoleIDs(ws.roles), Has(ws, a);
    LayersIn(s, u, w, p, a);
    LayersRolesHeld(s, None, u, w, p);
    ChainReach(v, s, on, u, ids, a);
    ApplyOne(v, Reaching(s, on, u, ids), ids, a);
    OnlyThePersonsRuleSays(s, on, u, ids, a);
    ApplyRulesSays(v, Reaching(s, on, u, ids), ids, a);
  }

  lemma OnADoc(s: Store, u: Id, d: Id, a: Action)
    requires LiesInItsFolder(s, d) && a != Member &&
             IsIn(s, u, DocScopeOf(s, d).workspaceID, DocScopeOf(s, d).projectID)
    ensures var f := Resource(FolderKind, DocScopeOf(s, d).folderID);
            Can(s, None, u, d, a) <==>
            Ends(StateAt(s, Key(Resource(DocKind, d), Person(u)), a), Holds(s, None, u, f, a))
  {
    var scope, on := DocScopeOf(s, d), Resource(DocKind, d);
    var folder := Resource(FolderKind, scope.folderID);
    var ws := LayersFor(s, None, u, scope.workspaceID, scope.projectID);
    var ids, v := RoleIDs(ws.roles), Has(ws, a);
    OnAFolder(s, u, scope.folderID, a);
    LayersIn(s, u, scope.workspaceID, scope.projectID, a);
    LayersRolesHeld(s, None, u, scope.workspaceID, scope.projectID);
    ChainReach(v, s, on, u, ids, a);
    ApplyTwo(v, Reaching(s, folder, u, ids), Reaching(s, on, u, ids), ids, a);
    OnlyThePersonsRuleSays(s, on, u, ids, a);
    OnlyThePersonsRuleSays(s, folder, u, ids, a);
    ApplyRulesSays(v, Reaching(s, folder, u, ids), ids, a);
    ApplyRulesSays(ApplyRules(v, Reaching(s, folder, u, ids), ids, a), Reaching(s, on, u, ids), ids, a);
  }

  // Project 3 of workspace 1, with doc 6 in folder 7. Role 2, held by 10, manages rules and reads docs; role 4, held by
  // 20, does neither. Both are in the project, and 10 is denied reading doc 6.
  const PROJECT := Resource(ProjectKind, 3)
  const FOLDER := Resource(FolderKind, 7)
  const OPEN := Row({ProjectsOpen}, {})
  const MANAGER := HeldRole(2, false, {PERMISSIONS_WRITE, DOCS_READ})
  const PLAIN := HeldRole(4, false, {})
  const AUTHOR := RoleInfo(2, false, {PERMISSIONS_WRITE, DOCS_READ}, [MANAGER])
  const OTHER := RoleInfo(4, false, {}, [PLAIN])
  const SHARED := Store(
                    map[Key(PROJECT, Person(10)) := OPEN, Key(PROJECT, Person(20)) := OPEN,
                        Key(Resource(DocKind, 6), Person(10)) := Row({}, {DOCS_READ})],
                    map[2 := RoleRow(1, MANAGER), 4 := RoleRow(1, PLAIN)], [2, 4],
                    map[(1, 10) := AUTHOR, (1, 20) := OTHER], map[10 := [1], 20 := [1]], map[3 := 1], map[1 := [3]],
                    map[6 := DocScope(1, 3, 7)], map[7 := DocScope(1, 3, NO_ID)],
                    map[], map[], map[], [], map[], NO_ID, [], {10, 20})
  const GIVE := Call(None, 10, FolderKind, [7], Targets([20], []), [DOCS_READ], SetAllow)
  const GIVEN := SHARED.(rules := SHARED.rules[Key(FOLDER, Person(20)) := Row({DOCS_READ}, {})])

  lemma SharedIsIn()
    ensures IsIn(SHARED, 10, 1, 3) && IsIn(SHARED, 20, 1, 3) && LiesInItsFolder(SHARED, 6)
  {
  }

  lemma AuthorBefore()
    ensures Holds(SHARED, None, 10, FOLDER, PERMISSIONS_WRITE) && Holds(SHARED, None, 10, FOLDER, DOCS_READ)
    ensures !Can(SHARED, None, 10, 6, DOCS_READ)
  {
    SharedIsIn();
    OnAFolder(SHARED, 10, 7, PERMISSIONS_WRITE);
    OnAFolder(SHARED, 10, 7, DOCS_READ);
    OnADoc(SHARED, 10, 6, DOCS_READ);
  }

  lemma OtherBefore()
    ensures !Can(SHARED, None, 20, 6, DOCS_READ)
  {
    SharedIsIn();
    OnAFolder(SHARED, 20, 7, DOCS_READ);
    OnADoc(SHARED, 20, 6, DOCS_READ);
  }

  lemma SharedAfter()
    ensures Can(GIVEN, None, 20, 6, DOCS_READ)
  {
    OnAFolder(GIVEN, 20, 7, DOCS_READ);
    OnADoc(GIVEN, 20, 6, DOCS_READ);
  }

  /** The plan of a call for one action, person and entity. */
  lemma SinglePlan(s: Store, c: Call, on: Resource, u: Id, a: Action, row: Row)
    requires c.kind == on.kind && c.ids == [on.id] && c.to == Targets([u], []) && c.actions == [a]
    requires CheckWrite(c.actor, c.kind, c.ids, c.to, c.actions).None?
    requires Guard(s, c.view, c.actor, on, c.to, c.actions).None? && Holds(s, c.view, c.actor, on, a)
    requires row == MoveTo(RowAt(s.rules, Key(on, Person(u))), a, c.st) && row != EMPTY_ROW
    ensures PlanOf(s, c) == Ok([RuleWrite(Key(on, Person(u)), row)])
  {
    var w := RuleWrite(Key(on, Person(u)), row);
    var targets := Each(c.to);
    assert targets == [Person(u)] && targets[1..] == [] && c.actions[1..] == [] && c.ids[1..] == [];
    assert NextRow(s, c.view, c.actor, on, RowAt(s.rules, w.key), c.actions, c.st) == Ok(row);
    assert PlanTargets(s, c.view, c.actor, on, targets, c.actions, c.st) == Ok([w] + []);
    assert PlanAll(s, c.view, c.actor, c.kind, [], c.to, c.actions, c.st) == Ok([]);
    assert [w] + [] + [] == [w];
  }

  /** Who manages a folder's rules from inside its project may write them for people. */
  lemma FolderGuard(s: Store, u: Id, f: Id, to: Targets, actions: seq<Action>)
    requires f != NO_ID && IsIn(s, u, FolderScopeOf(s, f).workspaceID, FolderScopeOf(s, f).projectID) &&
             to.roleIDs == []
    requires Holds(s, None, u, Resource(FolderKind, f), PERMISSIONS_WRITE)
    ensures Guard(s, None, u, Resource(FolderKind, f), to, actions).None?
  {
    LayersIn(s, u, FolderScopeOf(s, f).workspaceID, FolderScopeOf(s, f).projectID, Member);
  }

  lemma FolderTakesDocsRead()
    ensures MaySet(FolderKind, DOCS_READ)
  {
    assert ProjectAreaActions()[..6][0] == DOCS_READ;
    assert DocActions()[0] == DOCS_READ;
  }

  lemma GiveIsAllowed()
    ensures Guard(SHARED, None, 10, FOLDER, GIVE.to, GIVE.actions).None?
    ensures CheckWrite(10, FolderKind, GIVE.ids, GIVE.to, GIVE.actions).None?
  {
    SharedIsIn();
    AuthorBefore();
    FolderGuard(SHARED, 10, 7, GIVE.to, GIVE.actions);
    FolderTakesDocsRead();
    assert Each(GIVE.to) == [Person(20)];
  }

  lemma GiveIsPlanned()
    ensures PlanOf(SHARED, GIVE) == Ok([RuleWrite(Key(FOLDER, Person(20)), Row({DOCS_READ}, {}))])
  {
    AuthorBefore();
    GiveIsAllowed();
    assert MoveTo(EMPTY_ROW, DOCS_READ, SetAllow) == Row({DOCS_READ}, {});
    SinglePlan(SHARED, GIVE, FOLDER, 20, DOCS_READ, Row({DOCS_READ}, {}));
  }

  lemma GiveIsStored()
    ensures Accepted(SHARED, GIVE, GIVEN)
  {
    GiveIsPlanned();
    var w := RuleWrite(Key(FOLDER, Person(20)), Row({DOCS_READ}, {}));
    assert [w][1..] == [];
  }

  /** The write is accepted, and 20 comes to read a doc that its author is denied reading. */
  lemma AFolderWriteCanExceedItsAuthor()
    ensures Accepted(SHARED, GIVE, GIVEN)
    ensures Can(GIVEN, None, 20, 6, DOCS_READ) && !Can(SHARED, None, 20, 6, DOCS_READ)
    ensures !Can(SHARED, None, GIVE.actor, 6, DOCS_READ)
  {
    GiveIsStored();
    AuthorBefore();
    OtherBefore();
    SharedAfter();
  }
}
