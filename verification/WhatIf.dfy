/**
 Explanations. Beside each answer an explanation shows the one the entity would give with the person's, or the role's,
 own rule there at Fallback. The theorems say that this what-if is the answer of the same check after the rule is really
 moved to Fallback, source included.
 */
module WhatIf {
  import opened Options
  import opened AccessModel
  import opened Evaluator
  import opened AccessStore
  import opened Reach
  import opened RuleRows

  /** What an explanation is about: where it lives, what opens and manages it, and what its rules may set. */
  datatype Entity = Entity(on: Resource, workspaceID: Id, projectID: Id, folderID: Id, machine: Id, open: Action,
                           manage: Action,
                           actions: seq<Action>)

  function EntityOf(s: Store, on: Resource): Result<Entity> {
    match on.kind
    case DocKind =>
      var d := DocScopeOf(s, on.id);
      Ok(Entity(on, d.workspaceID, d.projectID, d.folderID, NO_ID, DOCS_READ, PERMISSIONS_WRITE, DocActions()))
    case FolderKind =>
      var f := FolderScopeOf(s, on.id);
      if f.projectID == NO_ID then Err(NotFound)
      else Ok(Entity(on, f.workspaceID, f.projectID, NO_ID, NO_ID, Member, PERMISSIONS_WRITE, DocActions()))
    case StackKind =>
      if on.id !in s.stacks then Err(NotFound)
      else
        var k := s.stacks[on.id];
        if k.projectID == NO_ID || k.baseID != NO_ID then Err(Invalid)
        else Ok(Entity(on, k.workspaceID, k.projectID, NO_ID, k.machine, STACKS_READ, STACKS_WRITE, StackActions()))
    case PlayKind =>
      Ok(Entity(on, FindOr(s.plays, on.id, NO_ID), NO_ID, NO_ID, NO_ID, PLAYS_READ, PLAYS_WRITE, PlayActions()))
    case ProjectKind =>
      if on.id !in s.projects then Err(NotFound)
      else Ok(Entity(on, s.projects[on.id], on.id, NO_ID, NO_ID, Member, PROJECTS_ACCESS, ProjectActions()))
    case ChannelKind =>
      if on.id !in s.channels then Err(NotFound)
      else Ok(Entity(on, s.channels[on.id].workspaceID, NO_ID, NO_ID, NO_ID, CHANNELS_READ, CHANNELS_WRITE,
                     ChannelActions()))
    case _ => Err(Invalid)
  }

  function LastAtFallback(chain: seq<Option<Rules>>, a: Action): seq<Option<Rules>> {
    if chain == [] then [] else chain[|chain| - 1 := PersonAtFallback(chain[|chain| - 1], a)]
  }

  /**
   A person's answer on an entity, from the check that enforces it; with `own` false, as if their rule there were at
   Fallback.
   */
  function AnswerFor(s: Store, view: Option<Id>, u: Id, e: Entity, a: Action, own: bool): Verdict {
    if own then Check(s, view, u, e.workspaceID, e.projectID, a, e.on)
    else if e.on.kind == ChannelKind && a == CHANNELS_READ then ChannelRead(s, view, u, e.workspaceID, e.on.id, false)
    else
      var ws := LayersFor(s, view, u, e.workspaceID, e.projectID);
      if e.on.kind == ProjectKind then Decide(In(ws, e.projectID, PersonAtFallback(ws.project, a)), a, [])
      else Decide(ws, a, LastAtFallback(ChainOf(s, e.on, u), a))
  }

  // ------------------------------------------------------------------ the effect of the real write

  /** The store after the move differs in one rule alone. */
  lemma AfterFallbackFrame(s: Store, k: Key, a: Action)
    ensures var t := AfterFallback(s, k, a);
            && t == s.(rules := t.rules)
            && (forall q: Key :: q != k ==> Find(t.rules, q) == Find(s.rules, q))
            && (forall on :: on != k.on ==> SameRulesOn(s, t, on))
  {
  }

  /** Laid over any answer for any action, the person's rule at Fallback acts as the rule really moved. */
  lemma PersonMoved(v: Verdict, s: Store, on: Resource, u: Id, roleIDs: seq<Id>, a: Action, b: Action)
    ensures ApplyRules(v, Reaching(AfterFallback(s, Key(on, Person(u)), a), on, u, roleIDs), roleIDs, b)
         == ApplyRules(v, PersonAtFallback(Reaching(s, on, u, roleIDs), a), roleIDs, b)
  {
    var t := AfterFallback(s, Key(on, Person(u)), a);
    AfterFallbackFrame(s, Key(on, Person(u)), a);
    CollectFrame(s, t, on, Among(s.roleOrder, roleIDs));
  }

  /** A move of the rule on one entity leaves every other entity's reading alone. */
  lemma ElsewhereUnmoved(s: Store, k: Key, a: Action, on: Resource, u: Id, roleIDs: seq<Id>)
    requires on != k.on
    ensures Reaching(AfterFallback(s, k, a), on, u, roleIDs) == Reaching(s, on, u, roleIDs)
  {
    AfterFallbackFrame(s, k, a);
    ReachingFrame(s, AfterFallback(s, k, a), on, u, roleIDs);
  }

  /** Layers depend on the rules of their project alone, so a move elsewhere leaves them as they were. */
  lemma LayersUnmoved(s: Store, k: Key, a: Action, view: Option<Id>, u: Id, w: Id, p: Id)
    requires p == NO_ID || k.on != Resource(ProjectKind, p)
    ensures LayersFor(AfterFallback(s, k, a), view, u, w, p) == LayersFor(s, view, u, w, p)
  {
    var t := AfterFallback(s, k, a);
    AfterFallbackFrame(s, k, a);
    if p != NO_ID {
      var on := Resource(ProjectKind, p);
      var ids := InfoRoleIDs(Find(s.members, (w, u)));
      ReachingFrame(s, t, on, u, ids);
      assert Reaching(s, on, u, ids) == Reaching(t, on, u, ids);
    }
  }

  lemma HeldAfter(s: Store, k: Key, a: Action, u: Id, ids: seq<Id>)
    requires AllHeld(s, u, ids)
    ensures AllHeld(AfterFallback(s, k, a), u, ids)
  {
    var t := AfterFallback(s, k, a);
    assert t.members == s.members;
    forall r | r in ids ensures HoldsSomewhere(t, u, r) {
      assert HoldsSomewhere(s, u, r);
    }
  }

  // ------------------------------------------------------------------ people

  lemma ChainMoved(v: Verdict, s: Store, on: Resource, u: Id, ids: seq<Id>, a: Action)
    requires AllHeld(s, u, ids)
    ensures ApplyChain(v, LastAtFallback(ChainOf(s, on, u), a), ids, a)
         == ApplyChain(v, ChainOf(AfterFallback(s, Key(on, Person(u)), a), on, u), ids, a)
  {
    var k := Key(on, Person(u));
    var t := AfterFallback(s, k, a);
    HeldAfter(s, k, a, u, ids);
    ChainReach(v, t, on, u, ids, a);
    AfterFallbackFrame(s, k, a);
    if on.id == NO_ID || on.kind == ProjectKind || on.kind == WorkspaceKind {
    } else if on.kind == DocKind {
      var f := DocScopeOf(s, on.id).folderID;
      var folder := Resource(FolderKind, f);
      var inFolder := if f == NO_ID then None else RulesOn(s, folder, u);
      var own := RulesOn(s, on, u);
      var outer := ApplyRules(v, inFolder, ids, a);
      if f != NO_ID {
        RulesOnReach(v, s, folder, u, ids, a);
        ElsewhereUnmoved(s, k, a, folder, u, ids);
      }
      PersonAtFallbackReach(outer, s, on, u, ids, a, a);
      PersonMoved(outer, s, on, u, ids, a, a);
      var chain := ChainReaching(t, on, u, ids);
      ApplyTwo(v, chain[0], chain[1], ids, a);
      ApplyTwo(v, inFolder, PersonAtFallback(own, a), ids, a);
      if inFolder.None? && own.None? {
        assert LastAtFallback(ChainOf(s, on, u), a) == [];
      } else {
        assert LastAtFallback(ChainOf(s, on, u), a) == [inFolder, PersonAtFallback(own, a)];
      }
    } else {
      PersonAtFallbackReach(v, s, on, u, ids, a, a);
      PersonMoved(v, s, on, u, ids, a, a);
      var own := RulesOn(s, on, u);
      assert LastAtFallback(ChainOf(s, on, u), a) == [PersonAtFallback(own, a)];
      ApplyOne(v, PersonAtFallback(own, a), ids, a);
      ApplyOne(v, Reaching(t, on, u, ids), ids, a);
    }
  }

  /** On a project the rule at Fallback also decides who is in it, as the real write would. */
  lemma ProjectMoved(s: Store, view: Option<Id>, u: Id, w: Id, p: Id, a: Action)
    ensures var t := AfterFallback(s, Key(Resource(ProjectKind, p), Person(u)), a);
            var ws := LayersFor(s, view, u, w, p);
            Decide(In(ws, p, PersonAtFallback(ws.project, a)), a, []) == Decide(LayersFor(t, view, u, w, p), a, [])
  {
    var on := Resource(ProjectKind, p);
    var t := AfterFallback(s, Key(on, Person(u)), a);
    var ws, wt := LayersFor(s, view, u, w, p), LayersFor(t, view, u, w, p);
    AfterFallbackFrame(s, Key(on, Person(u)), a);
    if (view.Some? && w != view.value) || w == NO_ID || p == NO_ID {
    } else {
      var ids := RoleIDs(ws.roles);
      var there := In(ws, p, PersonAtFallback(ws.project, a));
      var none := Verdict(false, NO_SOURCE);
      assert RoleIDs(NO_ROLES) == [];
      assert ids == InfoRoleIDs(Find(s.members, (w, u)));
      assert ws.project == ProjectRules(s, u, ids, p) && wt.project == ProjectRules(t, u, ids, p);
      ProjectAtFallback(none, s, u, p, ids, a, ProjectsOpen);
      PersonMoved(none, s, on, u, ids, a, ProjectsOpen);
      ProjectRulesReach(none, t, u, p, ids, ProjectsOpen);
      var g := Granted(ws, a);
      ProjectAtFallback(g, s, u, p, ids, a, a);
      PersonMoved(g, s, on, u, ids, a, a);
      ProjectRulesReach(g, t, u, p, ids, a);
      assert there.listed == wt.listed;
    }
  }

  lemma ProjectAtFallback(v: Verdict, s: Store, u: Id, p: Id, ids: seq<Id>, a: Action, b: Action)
    ensures ApplyRules(v, PersonAtFallback(ProjectRules(s, u, ids, p), a), ids, b)
         == ApplyRules(v, PersonAtFallback(Reaching(s, Resource(ProjectKind, p), u, ids), a), ids, b)
  {
  }

  lemma ChannelReadMoved(s: Store, view: Option<Id>, u: Id, w: Id, c: Id)
    ensures ChannelRead(s, view, u, w, c, false)
         == ChannelRead(AfterFallback(s, Key(Resource(ChannelKind, c), Person(u)), CHANNELS_READ), view, u, w, c, true)
  {
    var a, on := CHANNELS_READ, Resource(ChannelKind, c);
    var k := Key(on, Person(u));
    var t := AfterFallback(s, k, a);
    AfterFallbackFrame(s, k, a);
    LayersUnmoved(s, k, a, view, u, w, NO_ID);
    LayersRolesHeld(s, view, u, w, NO_ID);
    var ids := RoleIDs(LayersFor(s, view, u, w, NO_ID).roles);
    var base := ChannelBase(s, u, c);
    HeldAfter(s, k, a, u, ids);
    PersonAtFallbackReach(base, s, on, u, ids, a, a);
    PersonMoved(base, s, on, u, ids, a, a);
    RulesOnReach(base, t, on, u, ids, a);
  }

  lemma InsideMoved(s: Store, view: Option<Id>, u: Id, w: Id, p: Id, on: Resource, a: Action)
    requires on.kind != ProjectKind
    ensures Decide(LayersFor(s, view, u, w, p), a, LastAtFallback(ChainOf(s, on, u), a))
         == var t := AfterFallback(s, Key(on, Person(u)), a); Decide(LayersFor(t, view, u, w, p), a, ChainOf(t, on, u))
  {
    LayersUnmoved(s, Key(on, Person(u)), a, view, u, w, p);
    LayersRolesHeld(s, view, u, w, p);
    var ws := LayersFor(s, view, u, w, p);
    ChainMoved(Has(ws, a), s, on, u, RoleIDs(ws.roles), a);
  }

  lemma EntityUnmoved(s: Store, k: Key, a: Action, on: Resource)
    ensures EntityOf(AfterFallback(s, k, a), on) == EntityOf(s, on)
  {
    AfterFallbackFrame(s, k, a);
  }

  /**
   What-if equals the real write, for a person on a doc, folder, play, project, stack or channel: the Fallback answer,
   verdict and source, is the answer of the check once their rule there is moved to Fallback.
   */
  lemma WhatIfIsTheWrite(s: Store, view: Option<Id>, u: Id, on: Resource, a: Action)
    requires EntityOf(s, on).Ok?
    ensures var t := AfterFallback(s, Key(on, Person(u)), a);
            && EntityOf(t, on) == EntityOf(s, on)
            && AnswerFor(s, view, u, EntityOf(s, on).value, a, false) ==
               AnswerFor(t, view, u, EntityOf(s, on).value, a, true)
  {
    EntityUnmoved(s, Key(on, Person(u)), a, on);
    EntityLiesWhereItIs(s, on);
    AnswerMoved(s, view, u, EntityOf(s, on).value, a);
  }

  lemma EntityLiesWhereItIs(s: Store, on: Resource)
    requires EntityOf(s, on).Ok?
    ensures var e := EntityOf(s, on).value; e.on == on && (on.kind == ProjectKind ==> e.projectID == on.id)
  {
  }

  lemma AnswerMoved(s: Store, view: Option<Id>, u: Id, e: Entity, a: Action)
    requires e.on.kind == ProjectKind ==> e.projectID == e.on.id
    ensures AnswerFor(s, view, u, e, a, false) ==
            AnswerFor(AfterFallback(s, Key(e.on, Person(u)), a), view, u, e, a, true)
  {
    if e.on.kind == ProjectKind {
      ProjectMoved(s, view, u, e.workspaceID, e.projectID, a);
    } else if e.on.kind == ChannelKind && a == CHANNELS_READ {
      ChannelReadMoved(s, view, u, e.workspaceID, e.on.id);
    } else {
      InsideMoved(s, view, u, e.workspaceID, e.projectID, e.on, a);
    }
  }

  /** The same on a machine, See included: whether it is seen, whether the action is held, and why. */
  lemma WhatIfIsTheWriteOnAMachine(s: Store, view: Option<Id>, u: Id, m: Id, a: Action)
    ensures var t := AfterFallback(s, Key(Resource(MachineKind, m), Person(u)), a);
            MachineView(s, view, u, m, a, true) == MachineView(t, view, u, m, a, false)
  {
    var on := Resource(MachineKind, m);
    var k := Key(on, Person(u));
    var t := AfterFallback(s, k, a);
    AfterFallbackFrame(s, k, a);
    AcrossUnmoved(s, k, a, view, u, WorkspacesOf(s, view, u));
    AcrossRolesHeld(s, view, u, WorkspacesOf(s, view, u));
    var h, g := HolderOf(s, view, u, m), HolderOf(t, view, u, m);
    if h.known && h.owner.None? {
      assert g == h.(rules := RulesOn(t, on, u));
      HolderMoved(s, u, m, a, h, g);
    }
  }

  lemma HolderMoved(s: Store, u: Id, m: Id, a: Action, h: Holder, g: Holder)
    requires AllHeld(s, u, h.roleIDs) && h.target == Person(u)
    requires var on := Resource(MachineKind, m);
             h.rules == RulesOn(s, on, u) && g == h.(rules := RulesOn(AfterFallback(s, Key(on, Person(u)), a), on, u))
    ensures AnswerOn(h, m, a, true) == AnswerOn(g, m, a, false)
  {
    var notOn := Verdict(false, SourceOf(NotOnMachine, Resource(MachineKind, m), h.target, false));
    MachineRulesMoved(notOn, s, m, u, h.roleIDs, a, MachinesSee);
    MachineRulesMoved(BitsAnswer(h.bits, a), s, m, u, h.roleIDs, a, a);
    HoldersAgree(h, g, m, a, true, false);
  }

  lemma MachineRulesMoved(v: Verdict, s: Store, m: Id, u: Id, ids: seq<Id>, a: Action, b: Action)
    requires AllHeld(s, u, ids)
    ensures var on := Resource(MachineKind, m);
            var t := AfterFallback(s, Key(on, Person(u)), a);
            && ApplyRules(v, RulesOn(t, on, u), ids, b) == ApplyRules(v, PersonAtFallback(RulesOn(s, on, u), a), ids, b)
            && (a != b ==> ApplyRules(v, RulesOn(t, on, u), ids, b) == ApplyRules(v, RulesOn(s, on, u), ids, b))
  {
    var on := Resource(MachineKind, m);
    var t := AfterFallback(s, Key(on, Person(u)), a);
    HeldAfter(s, Key(on, Person(u)), a, u, ids);
    PersonAtFallbackReach(v, s, on, u, ids, b, a);
    PersonMoved(v, s, on, u, ids, a, b);
    RulesOnReach(v, t, on, u, ids, b);
    RulesOnReach(v, s, on, u, ids, b);
    OtherActionsStay(v, s, on, u, ids, a, b);
  }

  lemma OtherActionsStay(v: Verdict, s: Store, on: Resource, u: Id, ids: seq<Id>, a: Action, b: Action)
    ensures a != b ==>
              ApplyRules(v, PersonAtFallback(Reaching(s, on, u, ids), a), ids, b) ==
              ApplyRules(v, Reaching(s, on, u, ids), ids, b)
  {
  }

  lemma AcrossUnmoved(s: Store, k: Key, a: Action, view: Option<Id>, u: Id, workspaceIDs: seq<Id>)
    ensures LayersAcross(AfterFallback(s, k, a), view, u, workspaceIDs) == LayersAcross(s, view, u, workspaceIDs)
  {
    forall i | 0 <= i < |workspaceIDs|
      ensures LayersFor(AfterFallback(s, k, a), view, u, workspaceIDs[i], NO_ID) ==
              LayersFor(s, view, u, workspaceIDs[i], NO_ID)
    {
      LayersUnmoved(s, k, a, view, u, workspaceIDs[i], NO_ID);
    }
  }

  /** The same on an instance area. */
  lemma WhatIfIsTheWriteOnAnArea(s: Store, view: Option<Id>, u: Id, area: Id, a: Action)
    ensures var t := AfterFallback(s, Key(Resource(AreaKind, area), Person(u)), a);
            DecideArea(s, view, u, area, a, false) == DecideArea(t, view, u, area, a, true)
  {
    var on := Resource(AreaKind, area);
    var k := Key(on, Person(u));
    var t := AfterFallback(s, k, a);
    AfterFallbackFrame(s, k, a);
    var start := Scanning(NoRoleAnswer(u), [], false);
    ScanUnmoved(s, k, a, view, u, WorkspacesOf(s, view, u), area, a, start);
    var scan := Scan(s, view, u, WorkspacesOf(s, view, u), area, a, start);
    ScanRolesHeld(s, view, u, WorkspacesOf(s, view, u), area, a, start);
    if scan.Scanning? && area != NO_ID {
      var w := if scan.ownsAnother && !scan.v.allowed
      then scan.v.(source := SourceOf(InstanceOwnerSource, on, Person(u), false)) else scan.v;
      HeldAfter(s, k, a, u, scan.roleIDs);
      PersonAtFallbackReach(w, s, on, u, scan.roleIDs, a, a);
      PersonMoved(w, s, on, u, scan.roleIDs, a, a);
      RulesOnReach(w, t, on, u, scan.roleIDs, a);
    }
  }

  lemma {:induction false} ScanUnmoved(s: Store, k: Key, b: Action, view: Option<Id>, u: Id, workspaceIDs: seq<Id>,
                                       area: Id, a: Action, scan: AreaScan)
    ensures Scan(AfterFallback(s, k, b), view, u, workspaceIDs, area, a, scan) ==
            Scan(s, view, u, workspaceIDs, area, a, scan)
    decreases |workspaceIDs|
  {
    AfterFallbackFrame(s, k, b);
    if workspaceIDs != [] {
      LayersUnmoved(s, k, b, view, u, workspaceIDs[0], NO_ID);
      ScanUnmoved(s, k, b, view, u, workspaceIDs[1..], area, a, ScanStep(s, view, u, workspaceIDs[0], area, a, scan));
    }
  }

  lemma {:induction false} ScanRolesHeld(s: Store, view: Option<Id>, u: Id, workspaceIDs: seq<Id>, area: Id, a: Action,
                                         scan: AreaScan)
    requires scan.Scanning? ==> AllHeld(s, u, scan.roleIDs)
    ensures var out := Scan(s, view, u, workspaceIDs, area, a, scan); out.Scanning? ==> AllHeld(s, u, out.roleIDs)
    decreases |workspaceIDs|
  {
    if workspaceIDs != [] {
      LayersRolesHeld(s, view, u, workspaceIDs[0], NO_ID);
      ScanRolesHeld(s, view, u, workspaceIDs[1..], area, a, ScanStep(s, view, u, workspaceIDs[0], area, a, scan));
    }
  }
}
