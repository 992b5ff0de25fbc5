/**
 The batch forms a list filters by. Each reads the rules reaching a person once, for all its rows, and answers exactly
 as the single check would row by row.
 */
module Batch {
  import opened Options
  import opened AccessModel
  import opened Evaluator
  import opened AccessStore
  import opened Reach

  // ------------------------------------------------------------------ batch reads

  datatype DocRules = DocRules(folder: Option<Rules>, doc: Option<Rules>)

  function FolderRulesOf(s: Store, d: Id, u: Id): Option<Rules> {
    var f := DocScopeOf(s, d).folderID;
    if f == NO_ID then None else RulesOn(s, Resource(FolderKind, f), u)
  }

  /** The rules on each doc and its folder, by doc id, for the docs that have any. */
  function DocRulesOf(s: Store, docIDs: seq<Id>, u: Id): map<Id, DocRules> {
    map d | d in docIDs && (FolderRulesOf(s, d, u).Some? || RulesOn(s, Resource(DocKind, d), u).Some?)
      :: DocRules(FolderRulesOf(s, d, u), RulesOn(s, Resource(DocKind, d), u))
  }

  function ChainIn(own: map<Id, DocRules>, d: Id): seq<Option<Rules>> {
    if d in own then [own[d].folder, own[d].doc] else []
  }

  /** The entities of a kind that carry any rule. */
  function Ruled(s: Store, kind: Kind): set<Id> {
    set k | k in s.rules && k.on.kind == kind :: k.on.id
  }

  /** Every rule on a kind of entity reaching a person, by entity id. */
  function RulesOfType(s: Store, kind: Kind, u: Id): map<Id, Rules> {
    map id | id in Ruled(s, kind) && RulesOn(s, Resource(kind, id), u).Some? :: RulesOn(s, Resource(kind, id), u).value
  }

  lemma {:induction false} CollectedFromRules(s: Store, on: Resource, ids: seq<Id>)
    ensures Collect(s, on, ids) != [] ==> on.id in Ruled(s, on.kind)
  {
    if ids != [] {
      CollectedFromRules(s, on, ids[1..]);
      if Key(on, Role(ids[0])) in s.rules {
        assert Key(on, Role(ids[0])).on.kind == on.kind;
      }
    }
  }

  /** The read by type holds what a read of one entity would. */
  lemma TypeReadAgrees(s: Store, kind: Kind, u: Id, id: Id)
    ensures Find(RulesOfType(s, kind, u), id) == RulesOn(s, Resource(kind, id), u)
  {
    var on := Resource(kind, id);
    CollectedFromRules(s, on, HeldBy(s, u, s.roleOrder));
    if Key(on, Person(u)) in s.rules {
      assert Key(on, Person(u)).on.kind == kind;
    }
  }

  /** A rule sits on no entity without an id. */
  lemma NoRulesOnNothing(s: Store, kind: Kind, u: Id)
    requires Consistent(s)
    ensures RulesOn(s, Resource(kind, NO_ID), u).None?
  {
    var on := Resource(kind, NO_ID);
    CollectedFromRules(s, on, HeldBy(s, u, s.roleOrder));
    assert forall k :: k in s.rules ==> k.on.id != NO_ID;
    assert NO_ID !in Ruled(s, kind);
  }

  // ------------------------------------------------------------------ docs

  /** Where a doc lives for a batch: in the project named for all of them, or where it is read to live. */
  function BatchScope(s: Store, projectID: Id, d: Id): (Id, Id) {
    if projectID == NO_ID then (DocScopeOf(s, d).workspaceID, DocScopeOf(s, d).projectID)
    else if projectID in s.projects then (s.projects[projectID], projectID)
    else (NO_ID, NO_ID)
  }

  /** Each doc's answer is the one the single check gives; a project may be named only when every doc is in it. */
  method CanDocs(s: Store, view: Option<Id>, u: Id, projectID: Id, docIDs: seq<Id>, a: Action)
    returns (out: map<Id, bool>)
    requires Consistent(s)
    requires projectID != NO_ID ==> forall d :: d in docIDs ==> DocScopeOf(s, d).projectID == projectID
    ensures u == NO_ID ==> out == map[]
    ensures u != NO_ID ==> out.Keys == (set d | d in docIDs) && forall d :: d in docIDs ==>
                                                                              out[d] == Can(s, view, u, d, a)
  {
    out := map[];
    if u == NO_ID || docIDs == [] {
      return;
    }
    var own: Option<map<Id, DocRules>> := None;
    for i := 0 to |docIDs|
      invariant own.Some? ==> own.value == DocRulesOf(s, docIDs, u)
      invariant out.Keys == set d | d in docIDs[..i]
      invariant forall d :: d in docIDs[..i] ==> out[d] == Can(s, view, u, d, a)
    {
      var d := docIDs[i];
      assert docIDs[..i+1] == docIDs[..i] + [d];
      var (w, p) := BatchScope(s, projectID, d);
      var ws := LayersFor(s, view, u, w, p);
      var chain: seq<Option<Rules>> := [];
      if !ws.owner && !Hidden(ws) && a != Member {
        if own.None? {
          own := Some(DocRulesOf(s, docIDs, u));
        }
        chain := ChainIn(own.value, d);
      }
      BatchDocAgrees(s, view, u, projectID, docIDs, d, a, chain);
      var v := DecideByFolding(ws, a, chain);
      out := out[d := v.allowed];
    }
    assert docIDs[..|docIDs|] == docIDs;
  }

  lemma BatchDocAgrees(s: Store, view: Option<Id>, u: Id, projectID: Id, docIDs: seq<Id>, d: Id, a: Action,
                       chain: seq<Option<Rules>>)
    requires Consistent(s) && u != NO_ID && d in docIDs
    requires projectID != NO_ID ==> DocScopeOf(s, d).projectID == projectID
    requires var (w, p) := BatchScope(s, projectID, d);
             var ws := LayersFor(s, view, u, w, p);
             !ws.owner && !Hidden(ws) && a != Member ==> chain == ChainIn(DocRulesOf(s, docIDs, u), d)
    ensures var (w, p) := BatchScope(s, projectID, d);
            Decide(LayersFor(s, view, u, w, p), a, chain).allowed == Can(s, view, u, d, a)
  {
    BatchScopeAgrees(s, projectID, d);
    BatchChainAgrees(s, docIDs, d, u);
  }

  lemma BatchScopeAgrees(s: Store, projectID: Id, d: Id)
    requires Consistent(s) && (projectID != NO_ID ==> DocScopeOf(s, d).projectID == projectID)
    ensures BatchScope(s, projectID, d) == (DocScopeOf(s, d).workspaceID, DocScopeOf(s, d).projectID)
  {
    assert d in s.docs ==> DocScopeOf(s, d) == s.docs[d];
  }

  lemma BatchChainAgrees(s: Store, docIDs: seq<Id>, d: Id, u: Id)
    requires Consistent(s) && d in docIDs
    ensures ChainIn(DocRulesOf(s, docIDs, u), d) == ChainOf(s, Resource(DocKind, d), u)
  {
    assert ChainIn(DocRulesOf(s, docIDs, u), d) == DocChain(s, d, u);
    if d == NO_ID {
      NoRulesOnNothing(s, DocKind, u);
    }
  }

  // ------------------------------------------------------------------ plays and channels

  /** The rules on each of some entities: one by one for a single row, by type for a list. */
  function ListRules(s: Store, kind: Kind, ids: seq<Id>, u: Id): map<Id, Rules> {
    if |ids| == 1 then map id | id in ids && RulesOn(s, Resource(kind, id), u).Some? ::
                         RulesOn(s, Resource(kind, id), u).value
    else RulesOfType(s, kind, u)
  }

  lemma ListReadAgrees(s: Store, kind: Kind, ids: seq<Id>, u: Id, id: Id)
    requires id in ids
    ensures Find(ListRules(s, kind, ids, u), id) == RulesOn(s, Resource(kind, id), u)
  {
    TypeReadAgrees(s, kind, u, id);
  }

  lemma BatchPlayAgrees(s: Store, view: Option<Id>, u: Id, w: Id, a: Action, playIDs: seq<Id>, p: Id,
                        chain: seq<Option<Rules>>)
    requires Consistent(s) && u != NO_ID && p in playIDs
    requires var ws := LayersFor(s, view, u, w, NO_ID);
             !ws.owner && !Hidden(ws) && a != Member ==> chain == [Find(ListRules(s, PlayKind, playIDs, u), p)]
    ensures Decide(LayersFor(s, view, u, w, NO_ID), a, chain).allowed ==
            HasPermission(s, view, u, w, a, Resource(PlayKind, p))
  {
    var ws := LayersFor(s, view, u, w, NO_ID);
    ListReadAgrees(s, PlayKind, playIDs, u, p);
    if p == NO_ID {
      NoRulesOnNothing(s, PlayKind, u);
      ApplyOne(Has(ws, a), None, RoleIDs(ws.roles), a);
    }
  }

  /** Each play's answer is the one the single check gives. */
  method PlaysWith(s: Store, view: Option<Id>, u: Id, w: Id, a: Action, playIDs: seq<Id>) returns (out: map<Id, bool>)
    requires Consistent(s)
    ensures u == NO_ID ==> out == map[]
    ensures u != NO_ID ==> out.Keys == set p | p in playIDs
    ensures u != NO_ID ==>
              forall p :: p in playIDs ==>
                            p in out &&
                            out[p] == HasPermission(s, view, u, w, a, Resource(PlayKind, p))
  {
    out := map[];
    if u == NO_ID || playIDs == [] {
      return;
    }
    var ws := LayersFor(s, view, u, w, NO_ID);
    var rules: Option<map<Id, Rules>> := None;
    for i := 0 to |playIDs|
      invariant rules.Some? ==> rules.value == ListRules(s, PlayKind, playIDs, u)
      invariant out.Keys == set p | p in playIDs[..i]
      invariant forall p :: p in playIDs[..i] ==> out[p] == HasPermission(s, view, u, w, a, Resource(PlayKind, p))
    {
      var p := playIDs[i];
      assert playIDs[..i+1] == playIDs[..i] + [p];
      var chain: seq<Option<Rules>> := [];
      if !ws.owner && !Hidden(ws) && a != Member {
        if rules.None? {
          rules := Some(ListRules(s, PlayKind, playIDs, u));
        }
        chain := [Find(rules.value, p)];
      }
      BatchPlayAgrees(s, view, u, w, a, playIDs, p, chain);
      var v := DecideByFolding(ws, a, chain);
      out := out[p := v.allowed];
    }
    assert playIDs[..|playIDs|] == playIDs;
  }

  /**
   The channels whose rules deny someone's read; for a member who reads the channel before its rules, exactly those
   they do not read.
   */
  method ChannelsDenied(s: Store, view: Option<Id>, u: Id, w: Id, channelIDs: seq<Id>) returns (out: set<Id>)
    requires Consistent(s)
    ensures out <= set c | c in channelIDs
    ensures forall c :: c in channelIDs && ReadsBeforeRules(s, view, u, w, c) ==>
                          (c in out <==> !ChannelRead(s, view, u, w, c, true).allowed)
  {
    out := {};
    var info := Standing(s, view, u, w);
    if info.isOwnerRole {
      return;
    }
    var rules := ListRules(s, ChannelKind, channelIDs, u);
    for i := 0 to |channelIDs|
      invariant out == set c | c in channelIDs[..i] && DeniedByRules(s, view, u, w, c)
    {
      var c := channelIDs[i];
      assert channelIDs[..i+1] == channelIDs[..i] + [c];
      ListDenialAgrees(s, view, u, w, channelIDs, c);
      if !ApplyRules(Verdict(true, NO_SOURCE), Find(rules, c), RoleIDs(info), CHANNELS_READ).allowed {
        out := out + {c};
      }
    }
    assert channelIDs[..|channelIDs|] == channelIDs;
    forall c | c in channelIDs && ReadsBeforeRules(s, view, u, w, c)
      ensures c in out <==> !ChannelRead(s, view, u, w, c, true).allowed
    {
      DeniedAgrees(s, view, u, w, c);
    }
  }

  lemma ListDenialAgrees(s: Store, view: Option<Id>, u: Id, w: Id, channelIDs: seq<Id>, c: Id)
    requires c in channelIDs
    ensures DeniedByRules(s, view, u, w, c) <==>
            !ApplyRules(Verdict(true, NO_SOURCE), Find(ListRules(s, ChannelKind, channelIDs, u), c),
                        RoleIDs(Standing(s, view, u, w)), CHANNELS_READ).allowed
  {
    ListReadAgrees(s, ChannelKind, channelIDs, u, c);
  }

  /** A member of the workspace, to whom the channel is open before its rules: public, or listing them. */
  predicate ReadsBeforeRules(s: Store, view: Option<Id>, u: Id, w: Id, c: Id) {
    && (view.None? || view.value == w) && (w, u) in s.members
    && c in s.channels && (s.channels[c].isPrivate ==> u in s.channels[c].memberIDs)
  }

  /** The channel's rules take away the read its members have. */
  predicate DeniedByRules(s: Store, view: Option<Id>, u: Id, w: Id, c: Id) {
    !ApplyRules(Verdict(true, NO_SOURCE), RulesOn(s, Resource(ChannelKind, c), u), RoleIDs(Standing(s, view, u, w)),
                CHANNELS_READ).allowed
  }

  lemma DeniedAgrees(s: Store, view: Option<Id>, u: Id, w: Id, c: Id)
    requires Consistent(s) && !Standing(s, view, u, w).isOwnerRole
    ensures MemberRole(s, view, w, u).Some? && ChannelBase(s, u, c).allowed ==>
              ChannelRead(s, view, u, w, c, true).allowed ==
              ApplyRules(Verdict(true, NO_SOURCE), RulesOn(s, Resource(ChannelKind, c), u),
                         RoleIDs(Standing(s, view, u, w)), CHANNELS_READ).allowed
  {
    assert (w, u) in s.members ==> (w, u).0 != NO_ID;
    var r, ids := RulesOn(s, Resource(ChannelKind, c), u), RoleIDs(Standing(s, view, u, w));
    ApplyRulesSays(Verdict(true, NO_SOURCE), r, ids, CHANNELS_READ);
    ApplyRulesSays(ChannelBase(s, u, c), r, ids, CHANNELS_READ);
  }

  // ------------------------------------------------------------------ projects

  /** The layers of a workspace moved into one of its projects are the layers of that project. */
  lemma MovedIntoProject(s: Store, view: Option<Id>, u: Id, w: Id, p: Id)
    requires Consistent(s) && p != NO_ID && w != NO_ID
    ensures var there := In(LayersFor(s, view, u, w, NO_ID), p, ProjectRules(s, u, RoleIDsIn(s, view, u, w), p));
            var ws := LayersFor(s, view, u, w, p);
            there == ws || (Hidden(there) && Hidden(ws) && !there.member &&
                            there == ws.(project := there.project, listed := there.listed))
  {
    assert RoleIDs(NO_ROLES) == [];
  }

  lemma DecidedInProject(s: Store, view: Option<Id>, u: Id, w: Id, p: Id, a: Action)
    requires Consistent(s) && p != NO_ID && w != NO_ID
    ensures var there := In(LayersFor(s, view, u, w, NO_ID), p, ProjectRules(s, u, RoleIDsIn(s, view, u, w), p));
            Decide(there, a, []) == Decide(LayersFor(s, view, u, w, p), a, [])
  {
    MovedIntoProject(s, view, u, w, p);
  }

  lemma ListedProject(s: Store, w: Id, p: Id)
    requires Consistent(s)
    ensures p in FindOr(s.workspaceProjects, w, []) <==> p in s.projects && s.projects[p] == w
    ensures p in s.projects ==> p != NO_ID && s.projects[p] != NO_ID
  {
  }

  /**
   The projects of a workspace someone holds an action in, in the workspace's order: exactly those the single check
   allows.
   */
  method ProjectsWith(s: Store, view: Option<Id>, u: Id, w: Id, a: Action) returns (out: seq<Id>)
    requires Consistent(s)
    ensures forall p :: p in out <==> p in s.projects && s.projects[p] == w && CanInProject(s, view, u, p, a)
  {
    out := [];
    if u == NO_ID {
      return;
    }
    var projectIDs := FindOr(s.workspaceProjects, w, []);
    var roleIDs := RoleIDsIn(s, view, u, w);
    var ws := LayersFor(s, view, u, w, NO_ID);
    for i := 0 to |projectIDs|
      invariant forall p :: p in out <==> p in projectIDs[..i] && CanInProject(s, view, u, p, a)
    {
      var p := projectIDs[i];
      assert projectIDs[..i+1] == projectIDs[..i] + [p];
      assert p in projectIDs;
      ListedProject(s, w, p);
      DecidedInProject(s, view, u, w, p, a);
      if Decide(In(ws, p, ProjectRules(s, u, roleIDs, p)), a, []).allowed {
        out := out + [p];
      }
    }
    assert projectIDs[..|projectIDs|] == projectIDs;
    forall p ensures p in projectIDs <==> p in s.projects && s.projects[p] == w { ListedProject(s, w, p); }
  }

  datatype ProjectHeld = ProjectHeld(projectID: Id, actions: set<Action>)

  function HeldIn(ws: Layers): set<Action> {
    set a | a in ProjectAreaActions() && Decide(ws, a, []).allowed
  }

  /** Each project of a workspace someone is in, with exactly the project-area actions the single check allows there. */
  method ProjectActionsHeld(s: Store, view: Option<Id>, u: Id, w: Id) returns (out: seq<ProjectHeld>)
    requires Consistent(s)
    ensures forall h :: h in out ==>
                          h.projectID in s.projects && s.projects[h.projectID] == w && IsHeld(s, view, u, h)
    ensures forall p :: p in s.projects && s.projects[p] == w && CanInProject(s, view, u, p, Member) ==> Names(out, p)
  {
    out := [];
    if u == NO_ID {
      return;
    }
    var projectIDs := FindOr(s.workspaceProjects, w, []);
    var roleIDs := RoleIDsIn(s, view, u, w);
    var ws := LayersFor(s, view, u, w, NO_ID);
    for i := 0 to |projectIDs|
      invariant forall h :: h in out ==> h.projectID in projectIDs[..i] && IsHeld(s, view, u, h)
      invariant forall p :: p in projectIDs[..i] && CanInProject(s, view, u, p, Member) ==> Names(out, p)
    {
      var p := projectIDs[i];
      assert projectIDs[..i+1] == projectIDs[..i] + [p];
      var there := In(ws, p, ProjectRules(s, u, roleIDs, p));
      HeldInProject(s, view, u, w, p);
      if !there.member || Hidden(there) {
        continue;
      }
      NamesMore(out, ProjectHeld(p, HeldIn(there)));
      out := out + [ProjectHeld(p, HeldIn(there))];
    }
    assert projectIDs[..|projectIDs|] == projectIDs;
    forall p ensures p in projectIDs <==> p in s.projects && s.projects[p] == w { ListedProject(s, w, p); }
  }

  /** Exactly the project-area actions the single check allows someone in a project they are in. */
  ghost predicate IsHeld(s: Store, view: Option<Id>, u: Id, h: ProjectHeld) {
    && CanInProject(s, view, u, h.projectID, Member)
    && h.actions == set a | a in ProjectAreaActions() && CanInProject(s, view, u, h.projectID, a)
  }

  ghost predicate Names(out: seq<ProjectHeld>, p: Id) {
    exists h :: h in out && h.projectID == p
  }

  lemma NamesMore(out: seq<ProjectHeld>, h: ProjectHeld)
    ensures forall p :: Names(out + [h], p) <==> Names(out, p) || p == h.projectID
  {
    assert h in out + [h];
    forall p ensures Names(out + [h], p) <==> Names(out, p) || p == h.projectID {
      if Names(out, p) {
        var g :| g in out && g.projectID == p;
        assert g in out + [h];
      }
    }
  }

  lemma HeldInProject(s: Store, view: Option<Id>, u: Id, w: Id, p: Id)
    requires Consistent(s) && u != NO_ID && p in FindOr(s.workspaceProjects, w, [])
    ensures var there := In(LayersFor(s, view, u, w, NO_ID), p, ProjectRules(s, u, RoleIDsIn(s, view, u, w), p));
            if !there.member || Hidden(there) then !CanInProject(s, view, u, p, Member)
            else IsHeld(s, view, u, ProjectHeld(p, HeldIn(there)))
  {
    ListedProject(s, w, p);
    var there := In(LayersFor(s, view, u, w, NO_ID), p, ProjectRules(s, u, RoleIDsIn(s, view, u, w), p));
    forall a ensures Decide(there, a, []).allowed == CanInProject(s, view, u, p, a) {
      DecidedInProject(s, view, u, w, p, a);
    }
  }

  // ------------------------------------------------------------------ machines

  ghost predicate Ascending(ids: seq<Id>) {
    forall i, j :: 0 <= i < j < |ids| ==> ids[i] < ids[j]
  }

  /** Ascending ids with one more in its place. */
  function Placed(ids: seq<Id>, m: Id): (out: seq<Id>)
    requires Ascending(ids) && m !in ids
    ensures Ascending(out) && forall x :: x in out <==> x == m || x in ids
  {
    if ids == [] || m < ids[0] then [m] + ids
    else
      var rest := Placed(ids[1..], m);
      assert forall x :: x in ids[1..] ==> exists j :: 1 <= j < |ids| && ids[j] == x;
      assert forall k :: 0 <= k < |rest| ==> rest[k] in rest;
      [ids[0]] + rest
  }

  /**
   The machines someone sees: exactly those the single check lets them see, in order, or as the machines are listed
   for the instance Owner.
   */
  method MachinesSeen(s: Store, view: Option<Id>, u: Id) returns (out: seq<Id>)
    ensures forall m :: m in out <==> MachineView(s, view, u, m, MachinesSee, false).seen
    ensures if InstanceOwner(s, view, u).Some? then out == s.machineIDs else Ascending(out)
  {
    out := [];
    if u == NO_ID {
      return;
    }
    var owner := InstanceOwner(s, view, u);
    if owner.Some? {
      out := s.machineIDs;
      return;
    }
    var roleIDs := RoleIDsOf(LayersAcross(s, view, u, WorkspacesOf(s, view, u)));
    var rules := RulesOfType(s, MachineKind, u);
    var left := rules.Keys;
    while left != {}
      invariant left <= rules.Keys && Ascending(out)
      invariant forall m :: m in out ==> m in rules.Keys - left
      invariant forall m :: m in rules.Keys - left ==>
                              (m in out <==>
                               ApplyRules(Verdict(false, NO_SOURCE), Find(rules, m), roleIDs, MachinesSee).allowed)
      decreases |left|
    {
      var m :| m in left;
      if ApplyRules(Verdict(false, NO_SOURCE), Some(rules[m]), roleIDs, MachinesSee).allowed {
        out := Placed(out, m);
      }
      left := left - {m};
    }
    forall m ensures m in out <==> MachineView(s, view, u, m, MachinesSee, false).seen {
      SeenAgrees(s, view, u, m);
    }
  }

  /** A machine is seen exactly when the rules on it, as the read by type holds them, end in Allow of See. */
  lemma SeenAgrees(s: Store, view: Option<Id>, u: Id, m: Id)
    requires u != NO_ID && InstanceOwner(s, view, u).None?
    ensures var roleIDs := RoleIDsOf(LayersAcross(s, view, u, WorkspacesOf(s, view, u)));
            MachineView(s, view, u, m, MachinesSee, false).seen ==
            ApplyRules(Verdict(false, NO_SOURCE), Find(RulesOfType(s, MachineKind, u), m), roleIDs,
                       MachinesSee).allowed
  {
    TypeReadAgrees(s, MachineKind, u, m);
    var h := HolderOf(s, view, u, m);
    ApplyRulesSays(Verdict(false, NO_SOURCE), h.rules, h.roleIDs, MachinesSee);
    ApplyRulesSays(Verdict(false, SourceOf(NotOnMachine, Resource(MachineKind, m), Person(u), false)), h.rules,
                   h.roleIDs, MachinesSee);
  }
}
