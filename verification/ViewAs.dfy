/**
 View-as. A request pinned to a workspace answers every check exactly as it would for a person whose only membership
 is that workspace, sources included.
 */
module ViewAs {
  import opened Options
  import opened AccessModel
  import opened Evaluator
  import opened AccessStore
  import opened Reach
  import opened WhatIf
  import opened Writes

  /** The store in which `u` belongs to `pinned` alone. */
  function OnlyIn(s: Store, u: Id, pinned: Id): Store {
    var members := map k | k in s.members && (k.1 != u || k.0 == pinned) :: s.members[k];
    s.(members := members, memberships := s.memberships[u := Among(FindOr(s.memberships, u, []), [pinned])])
  }

  lemma PinnedMembership(s: Store, u: Id, pinned: Id, w: Id)
    ensures Find(OnlyIn(s, u, pinned).members, (w, u)) == if w == pinned then Find(s.members, (w, u)) else None
  {
  }

  lemma PinnedWorkspaces(s: Store, u: Id, pinned: Id)
    ensures WorkspacesOf(s, Some(pinned), u) == WorkspacesOf(OnlyIn(s, u, pinned), None, u)
  {
  }

  /** Reading one entity's rules does not depend on memberships, given the roles asked about. */
  lemma ReachingPinned(s: Store, u: Id, pinned: Id, on: Resource, roleIDs: seq<Id>)
    ensures Reaching(s, on, u, roleIDs) == Reaching(OnlyIn(s, u, pinned), on, u, roleIDs)
  {
    ReachingFrame(s, OnlyIn(s, u, pinned), on, u, roleIDs);
  }

  /** The layers agree, except inside a project of another workspace, where both find nobody in it. */
  lemma LayersPinned(s: Store, u: Id, pinned: Id, w: Id, p: Id)
    ensures var one, two := LayersFor(s, Some(pinned), u, w, p), LayersFor(OnlyIn(s, u, pinned), None, u, w, p);
            one == two || (p != NO_ID && Hidden(one) && Hidden(two) &&
                           one == two.(project := one.project, listed := one.listed))
  {
    var t := OnlyIn(s, u, pinned);
    PinnedMembership(s, u, pinned, w);
    if w == pinned && w != NO_ID && p != NO_ID {
      var ids := InfoRoleIDs(Find(s.members, (w, u)));
      ReachingPinned(s, u, pinned, Resource(ProjectKind, p), ids);
      assert Reaching(s, Resource(ProjectKind, p), u, ids) == Reaching(t, Resource(ProjectKind, p), u, ids);
    }
  }

  lemma RolesHeldPinned(s: Store, u: Id, pinned: Id, w: Id)
    ensures var ids := RoleIDs(LayersFor(s, Some(pinned), u, w, NO_ID).roles);
            AllHeld(s, u, ids) && AllHeld(OnlyIn(s, u, pinned), u, ids)
  {
    LayersPinned(s, u, pinned, w, NO_ID);
    LayersRolesHeld(s, Some(pinned), u, w, NO_ID);
    LayersRolesHeld(OnlyIn(s, u, pinned), None, u, w, NO_ID);
  }

  lemma RulesPinned(v: Verdict, s: Store, u: Id, pinned: Id, on: Resource, ids: seq<Id>, a: Action)
    requires AllHeld(s, u, ids) && AllHeld(OnlyIn(s, u, pinned), u, ids)
    ensures ApplyRules(v, RulesOn(s, on, u), ids, a) == ApplyRules(v, RulesOn(OnlyIn(s, u, pinned), on, u), ids, a)
  {
    RulesOnReach(v, s, on, u, ids, a);
    RulesOnReach(v, OnlyIn(s, u, pinned), on, u, ids, a);
    ReachingPinned(s, u, pinned, on, ids);
  }

  lemma ChainPinned(v: Verdict, s: Store, u: Id, pinned: Id, on: Resource, ids: seq<Id>, a: Action)
    requires AllHeld(s, u, ids) && AllHeld(OnlyIn(s, u, pinned), u, ids)
    ensures ApplyChain(v, ChainOf(s, on, u), ids, a) == ApplyChain(v, ChainOf(OnlyIn(s, u, pinned), on, u), ids, a)
  {
    var t := OnlyIn(s, u, pinned);
    ChainReach(v, s, on, u, ids, a);
    ChainReach(v, t, on, u, ids, a);
    ReachingPinned(s, u, pinned, on, ids);
    ReachingPinned(s, u, pinned, Resource(FolderKind, DocScopeOf(s, on.id).folderID), ids);
    assert ChainReaching(s, on, u, ids) == ChainReaching(t, on, u, ids);
  }

  /**
   Every check on a doc, folder, project, play, stack or channel answers as for a person who belongs to the pinned
   workspace alone.
   */
  lemma CheckPinned(s: Store, u: Id, pinned: Id, w: Id, p: Id, a: Action, on: Resource)
    ensures Check(s, Some(pinned), u, w, p, a, on) == Check(OnlyIn(s, u, pinned), None, u, w, p, a, on)
  {
    var t := OnlyIn(s, u, pinned);
    LayersPinned(s, u, pinned, w, NO_ID);
    RolesHeldPinned(s, u, pinned, w);
    if on.kind == ChannelKind && a == CHANNELS_READ {
      var ids := RoleIDs(LayersFor(s, Some(pinned), u, w, NO_ID).roles);
      RulesPinned(ChannelBase(s, u, on.id), s, u, pinned, on, ids, a);
    } else {
      LayersPinned(s, u, pinned, w, p);
      var ws := LayersFor(s, Some(pinned), u, w, p);
      assert ws.roles == LayersFor(s, Some(pinned), u, w, NO_ID).roles;
      ChainPinned(Has(ws, a), s, u, pinned, on, RoleIDs(ws.roles), a);
    }
  }

  lemma AcrossPinned(s: Store, u: Id, pinned: Id, workspaceIDs: seq<Id>)
    ensures LayersAcross(s, Some(pinned), u, workspaceIDs) == LayersAcross(OnlyIn(s, u, pinned), None, u, workspaceIDs)
  {
    forall i | 0 <= i < |workspaceIDs|
      ensures LayersFor(s, Some(pinned), u, workspaceIDs[i], NO_ID) ==
              LayersFor(OnlyIn(s, u, pinned), None, u, workspaceIDs[i], NO_ID)
    {
      LayersPinned(s, u, pinned, workspaceIDs[i], NO_ID);
    }
  }

  lemma RulesPinnedAtFallback(v: Verdict, s: Store, u: Id, pinned: Id, on: Resource, ids: seq<Id>, a: Action, b: Action)
    requires AllHeld(s, u, ids) && AllHeld(OnlyIn(s, u, pinned), u, ids)
    ensures ApplyRules(v, PersonAtFallback(RulesOn(s, on, u), b), ids, a)
         == ApplyRules(v, PersonAtFallback(RulesOn(OnlyIn(s, u, pinned), on, u), b), ids, a)
  {
    PersonAtFallbackReach(v, s, on, u, ids, a, b);
    PersonAtFallbackReach(v, OnlyIn(s, u, pinned), on, u, ids, a, b);
    ReachingPinned(s, u, pinned, on, ids);
  }

  /** Every machine check, and the what-if of the person's own rule. */
  lemma MachinePinned(s: Store, u: Id, pinned: Id, m: Id, a: Action, fallback: bool)
    ensures MachineView(s, Some(pinned), u, m, a, fallback) ==
            MachineView(OnlyIn(s, u, pinned), None, u, m, a, fallback)
  {
    var t, on := OnlyIn(s, u, pinned), Resource(MachineKind, m);
    PinnedWorkspaces(s, u, pinned);
    PinnedMembership(s, u, pinned, s.ownerWorkspace);
    assert InstanceOwner(s, Some(pinned), u) == InstanceOwner(t, None, u);
    var workspaceIDs := WorkspacesOf(s, Some(pinned), u);
    AcrossPinned(s, u, pinned, workspaceIDs);
    AcrossRolesHeld(s, Some(pinned), u, workspaceIDs);
    AcrossRolesHeld(t, None, u, workspaceIDs);
    var h := HolderOf(s, Some(pinned), u, m);
    if h.known && h.owner.None? {
      assert HolderOf(t, None, u, m) == h.(rules := RulesOn(t, on, u));
      HolderPinned(s, u, pinned, m, a, fallback, h);
    }
  }

  lemma HolderPinned(s: Store, u: Id, pinned: Id, m: Id, a: Action, fallback: bool, h: Holder)
    requires AllHeld(s, u, h.roleIDs) && AllHeld(OnlyIn(s, u, pinned), u, h.roleIDs) && h.target == Person(u)
    requires h.rules == RulesOn(s, Resource(MachineKind, m), u)
    ensures AnswerOn(h, m, a, fallback) ==
            AnswerOn(h.(rules := RulesOn(OnlyIn(s, u, pinned), Resource(MachineKind, m), u)), m, a, fallback)
  {
    var on := Resource(MachineKind, m);
    var notOn := Verdict(false, SourceOf(NotOnMachine, on, h.target, false));
    if fallback {
      RulesPinnedAtFallback(notOn, s, u, pinned, on, h.roleIDs, MachinesSee, MachinesSee);
      RulesPinnedAtFallback(BitsAnswer(h.bits, a), s, u, pinned, on, h.roleIDs, a, a);
    }
    RulesPinned(notOn, s, u, pinned, on, h.roleIDs, MachinesSee);
    RulesPinned(BitsAnswer(h.bits, a), s, u, pinned, on, h.roleIDs, a);
    HoldersAgree(h, h.(rules := RulesOn(OnlyIn(s, u, pinned), on, u)), m, a, fallback, fallback);
  }

  lemma {:induction false} ScanPinned(s: Store, u: Id, pinned: Id, workspaceIDs: seq<Id>, area: Id, a: Action,
                                      scan: AreaScan)
    ensures Scan(s, Some(pinned), u, workspaceIDs, area, a, scan) ==
            Scan(OnlyIn(s, u, pinned), None, u, workspaceIDs, area, a, scan)
    decreases |workspaceIDs|
  {
    if workspaceIDs != [] {
      LayersPinned(s, u, pinned, workspaceIDs[0], NO_ID);
      ScanPinned(s, u, pinned, workspaceIDs[1..], area, a,
                 ScanStep(s, Some(pinned), u, workspaceIDs[0], area, a, scan));
    }
  }

  /** Every instance-area check, and the what-if of the person's own rule. */
  lemma AreaPinned(s: Store, u: Id, pinned: Id, area: Id, a: Action, own: bool)
    ensures DecideArea(s, Some(pinned), u, area, a, own) == DecideArea(OnlyIn(s, u, pinned), None, u, area, a, own)
  {
    var t, on := OnlyIn(s, u, pinned), Resource(AreaKind, area);
    PinnedWorkspaces(s, u, pinned);
    var workspaceIDs := WorkspacesOf(s, Some(pinned), u);
    var start := Scanning(NoRoleAnswer(u), [], false);
    ScanPinned(s, u, pinned, workspaceIDs, area, a, start);
    var scan := Scan(s, Some(pinned), u, workspaceIDs, area, a, start);
    ScanRolesHeld(s, Some(pinned), u, workspaceIDs, area, a, start);
    ScanRolesHeld(t, None, u, workspaceIDs, area, a, start);
    if scan.Scanning? && area != NO_ID {
      var v := if scan.ownsAnother && !scan.v.allowed
      then scan.v.(source := SourceOf(InstanceOwnerSource, on, Person(u), false)) else scan.v;
      RulesPinned(v, s, u, pinned, on, scan.roleIDs, a);
      RulesPinnedAtFallback(v, s, u, pinned, on, scan.roleIDs, a, a);
    }
  }

  /**
   View-as non-interference: what someone holds on any entity under a pinned request is what membership of that
   workspace alone gives.
   */
  lemma HoldsPinned(s: Store, u: Id, pinned: Id, on: Resource, a: Action)
    ensures Holds(s, Some(pinned), u, on, a) == Holds(OnlyIn(s, u, pinned), None, u, on, a)
  {
    var t := OnlyIn(s, u, pinned);
    if on.kind == AreaKind {
      AreaPinned(s, u, pinned, on.id, a, true);
    } else if on.kind == MachineKind {
      MachinePinned(s, u, pinned, on.id, a, false);
    } else {
      var w := if on.kind == DocKind then DocScopeOf(s, on.id).workspaceID else WorkspaceOfEntity(s, on);
      assert WorkspaceOfEntity(t, on) == WorkspaceOfEntity(s, on) && ProjectOf(t, on) == ProjectOf(s, on);
      CheckPinned(s, u, pinned, w, ProjectOf(s, on), a, on);
    }
  }
}
