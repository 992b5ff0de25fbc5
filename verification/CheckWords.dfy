/**
 The answers put in terms of what is stored and nothing else: memberships, the roles each lists, what those roles
 permit, and the allow and deny sets of each rule. None of the evaluator's own functions is named in a definition
 here.
 */
module CheckWords {
  import opened Options
  import opened AccessModel
  import opened Evaluator
  import opened AccessStore
  import opened Reach
  import opened Answers

  /** Consistent, with every member somebody and every record of their roles that of the roles it lists. */
  ghost predicate Kept(s: Store) {
    Consistent(s) && forall k :: k in s.members ==> k.1 != NO_ID && OfItsRoles(s.members[k])
  }

  // ------------------------------------------------------------------ belonging

  /** The person belongs to the workspace, as a request pinned to `view` sees it. */
  predicate Belongs(s: Store, view: Option<Id>, u: Id, w: Id) {
    (view.None? || view.value == w) && (w, u) in s.members
  }

  predicate OwnsIt(s: Store, view: Option<Id>, u: Id, w: Id) {
    Belongs(s, view, u, w) && exists i :: 0 <= i < |s.members[(w, u)].roles| && s.members[(w, u)].roles[i].isOwner
  }

  predicate RoleGrants(s: Store, view: Option<Id>, u: Id, w: Id, a: Action) {
    Belongs(s, view, u, w) &&
    exists i :: 0 <= i < |s.members[(w, u)].roles| && a in s.members[(w, u)].roles[i].permissions
  }

  /** The roles held in one workspace. */
  ghost function RolesIn(s: Store, view: Option<Id>, u: Id, w: Id): set<Id> {
    if Belongs(s, view, u, w)
    then set i | 0 <= i < |s.members[(w, u)].roles| :: s.members[(w, u)].roles[i].id
    else {}
  }

  /** The roles held in any workspace. */
  ghost function RolesAnywhere(s: Store, view: Option<Id>, u: Id): set<Id> {
    set k, i | k in s.members && k.1 == u && (view.None? || view.value == k.0) && 0 <= i < |s.members[k].roles|
      :: s.members[k].roles[i].id
  }

  // ------------------------------------------------------------------ what rules say

  predicate Allows(s: Store, on: Resource, t: Target, a: Action) {
    Key(on, t) in s.rules && a in s.rules[Key(on, t)].allow && a !in s.rules[Key(on, t)].deny
  }

  predicate Denies(s: Store, on: Resource, t: Target, a: Action) {
    Key(on, t) in s.rules && a in s.rules[Key(on, t)].deny
  }

  ghost predicate RolesAllow(s: Store, on: Resource, held: set<Id>, a: Action) {
    exists r :: r in held && r in s.roles && Allows(s, on, Role(r), a)
  }

  ghost predicate RolesDeny(s: Store, on: Resource, held: set<Id>, a: Action) {
    exists r :: r in held && r in s.roles && Denies(s, on, Role(r), a)
  }

  /**
   One entity's word on an answer from further out: the rule naming the person, else any role's Allow, else a Deny.
   */
  ghost predicate Word(s: Store, on: Resource, u: Id, held: set<Id>, a: Action, outer: bool) {
    || Allows(s, on, Person(u), a)
    || (&& !Denies(s, on, Person(u), a)
        && (RolesAllow(s, on, held, a) || (!RolesDeny(s, on, held, a) && outer)))
  }

  ghost predicate Silent(s: Store, on: Resource, u: Id, held: set<Id>, a: Action) {
    && !Allows(s, on, Person(u), a) && !Denies(s, on, Person(u), a)
    && !RolesAllow(s, on, held, a) && !RolesDeny(s, on, held, a)
  }

  /** The ids list exactly the roles held. */
  ghost predicate Lists(ids: seq<Id>, held: set<Id>) {
    forall r :: r in ids <==> r in held
  }

  lemma SayIsTheWord(s: Store, on: Resource, u: Id, ids: seq<Id>, held: set<Id>, a: Action)
    requires Consistent(s) && Lists(ids, held)
    ensures var say := SayAt(s, on, u, ids, a);
            && (Word(s, on, u, held, a, true) <==> say != Deny)
            && (Word(s, on, u, held, a, false) <==> say == Allow)
            && (Silent(s, on, u, held, a) <==> say == Fallback)
  {
    assert SomeRoleAt(s, on, ids, a, Allow) <==> RolesAllow(s, on, held, a) by {
      if r :| r in held && r in s.roles && Allows(s, on, Role(r), a) {
        assert r in s.roleOrder && r in ids && StateAt(s, Key(on, Role(r)), a) == Allow;
      }
    }
    assert SomeRoleAt(s, on, ids, a, Deny) <==> RolesDeny(s, on, held, a) by {
      if r :| r in held && r in s.roles && Denies(s, on, Role(r), a) {
        assert r in s.roleOrder && r in ids && StateAt(s, Key(on, Role(r)), a) == Deny;
      }
    }
  }

  /** Rules read for an entity, laid over any answer, are its word; silent, they leave the answer and its source. */
  lemma RulesAreTheWord(v: Verdict, s: Store, on: Resource, u: Id, ids: seq<Id>, held: set<Id>, a: Action)
    requires Consistent(s) && Lists(ids, held)
    ensures ApplyRules(v, Reaching(s, on, u, ids), ids, a).allowed <==> Word(s, on, u, held, a, v.allowed)
    ensures Silent(s, on, u, held, a) ==> ApplyRules(v, Reaching(s, on, u, ids), ids, a) == v
    ensures AllHeld(s, u, ids) ==>
              ApplyRules(v, RulesOn(s, on, u), ids, a) == ApplyRules(v, Reaching(s, on, u, ids), ids, a)
  {
    SayIsTheWord(s, on, u, ids, held, a);
    ReachingSays(s, on, u, ids, a);
    ApplyRulesSays(v, Reaching(s, on, u, ids), ids, a);
    if AllHeld(s, u, ids) { RulesOnReach(v, s, on, u, ids, a); }
  }

  // ------------------------------------------------------------------ layers

  lemma LayersInWords(s: Store, view: Option<Id>, u: Id, w: Id, p: Id)
    requires Kept(s)
    ensures var ws := LayersFor(s, view, u, w, p);
            var held := RolesIn(s, view, u, w);
            && ws.userID == u && ws.workspaceID == w && ws.projectID == p
            && (ws.member <==> Belongs(s, view, u, w))
            && (ws.owner <==> OwnsIt(s, view, u, w))
            && (ws.member ==> ws.roles == s.members[(w, u)] && OfItsRoles(ws.roles))
            && (!ws.member ==> ws.roles == NO_ROLES)
            && (forall a :: a in ws.roles.permissions <==> RoleGrants(s, view, u, w, a))
            && Lists(RoleIDs(ws.roles), held) && AllHeld(s, u, RoleIDs(ws.roles))
  {
    var ws := LayersFor(s, view, u, w, p);
    LayersRolesHeld(s, view, u, w, p);
    assert RoleIDs(NO_ROLES) == [];
    if Belongs(s, view, u, w) {
      assert (w, u).0 != NO_ID;
      assert ws.roles == s.members[(w, u)];
      RecordLists(ws.roles);
    }
  }

  lemma RecordLists(r: RoleInfo)
    requires OfItsRoles(r)
    ensures forall x :: x in RoleIDs(r) <==> x in set i | 0 <= i < |r.roles| :: r.roles[i].id
  {
    forall i | 0 <= i < |r.roles| ensures r.roles[i].id in RoleIDs(r) {
      assert RoleIDs(r)[i] == r.roles[i].id;
    }
  }

  /** The person is let into the project by its rules, by name or through a role. */
  ghost predicate LetIn(s: Store, view: Option<Id>, u: Id, w: Id, p: Id) {
    Word(s, Resource(ProjectKind, p), u, RolesIn(s, view, u, w), ProjectsOpen, false)
  }

  lemma ProjectInWords(s: Store, view: Option<Id>, u: Id, w: Id, p: Id, a: Action)
    requires Kept(s) && p != NO_ID && Belongs(s, view, u, w)
    ensures var ws := LayersFor(s, view, u, w, p);
            var held, on := RolesIn(s, view, u, w), Resource(ProjectKind, p);
            && (ws.listed <==> LetIn(s, view, u, w, p))
            && (Has(ws, a).allowed <==> Word(s, on, u, held, a, RoleGrants(s, view, u, w, a)))
            && (Silent(s, on, u, held, a) ==> Has(ws, a) == Base(ws, a))
  {
    LayersInWords(s, view, u, w, p);
    var ws := LayersFor(s, view, u, w, p);
    var ids, on := RoleIDs(ws.roles), Resource(ProjectKind, p);
    assert (w, u).0 != NO_ID;
    assert ws.project == ProjectRules(s, u, ids, p);
    ProjectRulesReach(Verdict(false, NO_SOURCE), s, u, p, ids, ProjectsOpen);
    RulesAreTheWord(Verdict(false, NO_SOURCE), s, on, u, ids, RolesIn(s, view, u, w), ProjectsOpen);
    ProjectRulesReach(Granted(ws, a), s, u, p, ids, a);
    RulesAreTheWord(Granted(ws, a), s, on, u, ids, RolesIn(s, view, u, w), a);
  }

  // ------------------------------------------------------------------ the single check

  /** The folder a doc lies in, if any. */
  predicate InFolder(s: Store, on: Resource) {
    on.kind == DocKind && on.id in s.docs && s.docs[on.id].folderID != NO_ID
  }

  function FolderOf(s: Store, on: Resource): Resource
    requires InFolder(s, on)
  {
    Resource(FolderKind, s.docs[on.id].folderID)
  }

  /** The entity has rules of its own to ask beside those of the project. */
  predicate HasOwnRules(on: Resource) {
    on.kind != ProjectKind && on.kind != WorkspaceKind
  }

  /** The word of the entities inside the project: a doc's folder, then the entity itself. */
  ghost predicate WordInside(s: Store, on: Resource, u: Id, held: set<Id>, a: Action, outer: bool) {
    if !HasOwnRules(on) then outer
    else Word(s, on, u, held, a, if InFolder(s, on) then Word(s, FolderOf(s, on), u, held, a, outer) else outer)
  }

  ghost predicate SilentInside(s: Store, on: Resource, u: Id, held: set<Id>, a: Action) {
    && (HasOwnRules(on) ==> Silent(s, on, u, held, a))
    && (InFolder(s, on) ==> Silent(s, FolderOf(s, on), u, held, a))
  }

  lemma NothingOnNoEntity(s: Store, kind: Kind, u: Id, held: set<Id>, a: Action, outer: bool)
    requires Consistent(s)
    ensures Word(s, Resource(kind, NO_ID), u, held, a, outer) <==> outer
  {
    assert forall t :: Key(Resource(kind, NO_ID), t).on.id == NO_ID;
  }

  lemma ChainInWords(v: Verdict, s: Store, on: Resource, u: Id, ids: seq<Id>, held: set<Id>, a: Action)
    requires Consistent(s) && Lists(ids, held) && AllHeld(s, u, ids)
    ensures ApplyChain(v, ChainOf(s, on, u), ids, a).allowed <==> WordInside(s, on, u, held, a, v.allowed)
    ensures SilentInside(s, on, u, held, a) ==> ApplyChain(v, ChainOf(s, on, u), ids, a) == v
  {
    ChainReach(v, s, on, u, ids, a);
    var own := Reaching(s, on, u, ids);
    if on.id == NO_ID {
      NothingOnNoEntity(s, on.kind, u, held, a, v.allowed);
    } else if on.kind == DocKind {
      var outer := v;
      var folder := None;
      if InFolder(s, on) {
        RulesAreTheWord(v, s, FolderOf(s, on), u, ids, held, a);
        folder := Reaching(s, FolderOf(s, on), u, ids);
        outer := ApplyRules(v, folder, ids, a);
      }
      assert ChainReaching(s, on, u, ids) == [folder, own];
      ApplyTwo(v, folder, own, ids, a);
      RulesAreTheWord(outer, s, on, u, ids, held, a);
    } else if HasOwnRules(on) {
      assert ChainReaching(s, on, u, ids) == [own];
      ApplyOne(v, own, ids, a);
      RulesAreTheWord(v, s, on, u, ids, held, a);
    }
  }

  /**
   Whether an action is held on what lies in a workspace and, unless `p` is empty, in a project of it. An Owner holds
   everything. In a project, only members it lets in hold anything. An action is held when some role grants it, a
   project's only inside one, but for what the project's rules say, and nearer ones over them.
   */
  ghost predicate HeldThere(s: Store, view: Option<Id>, u: Id, w: Id, p: Id, a: Action, on: Resource) {
    var held, granted := RolesIn(s, view, u, w), RoleGrants(s, view, u, w, a);
    || OwnsIt(s, view, u, w)
    || (p == NO_ID && a == Member && Belongs(s, view, u, w))
    || (p == NO_ID && a != Member && WordInside(s, on, u, held, a, granted && !OfAProject(a)))
    || (&& p != NO_ID && Belongs(s, view, u, w) && LetIn(s, view, u, w, p)
        && (a == Member ||
            WordInside(s, on, u, held, a, Word(s, Resource(ProjectKind, p), u, held, a, granted))))
  }

  lemma CheckOutsideProjects(s: Store, view: Option<Id>, u: Id, w: Id, a: Action, on: Resource)
    requires Kept(s) && !(on.kind == ChannelKind && a == CHANNELS_READ)
    ensures Check(s, view, u, w, NO_ID, a, on).allowed <==> HeldThere(s, view, u, w, NO_ID, a, on)
  {
    LayersInWords(s, view, u, w, NO_ID);
    var ws := LayersFor(s, view, u, w, NO_ID);
    BaseIsTheRoles(ws, a);
    ChainInWords(Has(ws, a), s, on, u, RoleIDs(ws.roles), RolesIn(s, view, u, w), a);
  }

  lemma CheckInAProject(s: Store, view: Option<Id>, u: Id, w: Id, p: Id, a: Action, on: Resource)
    requires Kept(s) && !(on.kind == ChannelKind && a == CHANNELS_READ) && p != NO_ID
    ensures Check(s, view, u, w, p, a, on).allowed <==> HeldThere(s, view, u, w, p, a, on)
  {
    LayersInWords(s, view, u, w, p);
    var ws := LayersFor(s, view, u, w, p);
    DecidedBeforeRules(ws, a, ChainOf(s, on, u));
    if ws.member {
      ProjectInWords(s, view, u, w, p, a);
      ChainInWords(Has(ws, a), s, on, u, RoleIDs(ws.roles), RolesIn(s, view, u, w), a);
    }
  }

  /** A check of anything but a channel's read, for every store, person, action and entity. */
  lemma CheckInWords(s: Store, view: Option<Id>, u: Id, w: Id, p: Id, a: Action, on: Resource)
    requires Kept(s) && !(on.kind == ChannelKind && a == CHANNELS_READ)
    ensures Check(s, view, u, w, p, a, on).allowed <==> HeldThere(s, view, u, w, p, a, on)
  {
    if p == NO_ID {
      CheckOutsideProjects(s, view, u, w, a, on);
    } else {
      CheckInAProject(s, view, u, w, p, a, on);
    }
  }

  /**
   With no rule saying anything, a member who is no Owner holds exactly the actions a role of theirs permits, a
   project's only inside one they are in; the answer names the first role permitting it, or that it was asked outside
   any project.
   */
  lemma WithNoSayRolesDecide(s: Store, view: Option<Id>, u: Id, w: Id, p: Id, a: Action, on: Resource)
    requires Kept(s) && !(on.kind == ChannelKind && a == CHANNELS_READ) && a != Member
    requires Belongs(s, view, u, w) && !OwnsIt(s, view, u, w)
    requires p != NO_ID ==> LetIn(s, view, u, w, p) && Silent(s, Resource(ProjectKind, p), u, RolesIn(s, view, u, w), a)
    requires SilentInside(s, on, u, RolesIn(s, view, u, w), a)
    ensures var v := Check(s, view, u, w, p, a, on);
            var roles := s.members[(w, u)].roles;
            && (v.allowed <==> RoleGrants(s, view, u, w, a) && !(p == NO_ID && OfAProject(a)))
            && (p == NO_ID && OfAProject(a) ==>
                  v.source == Source(OutsideProject, Resource(WorkspaceKind, w), Person(u), Deny))
            && (v.allowed ==> exists i: nat ::
                    && FirstGranting(roles, i, a)
                    && v.source == Source(RoleSource, Resource(WorkspaceKind, w), Role(roles[i].id), Allow))
            && (!v.allowed && !(p == NO_ID && OfAProject(a)) ==>
                  v.source == Source(RoleSource, Resource(WorkspaceKind, w),
                                     if roles == [] then Person(u) else Role(roles[0].id), Deny))
  {
    LayersInWords(s, view, u, w, p);
    var ws := LayersFor(s, view, u, w, p);
    ChainInWords(Has(ws, a), s, on, u, RoleIDs(ws.roles), RolesIn(s, view, u, w), a);
    if p != NO_ID {
      ProjectInWords(s, view, u, w, p, a);
    }
    BaseIsTheRoles(ws, a);
  }

  /** Nobody is let into a project they do not belong to the workspace of, and its refusal says so. */
  lemma WhoIsNotInHoldsNothing(s: Store, view: Option<Id>, u: Id, w: Id, p: Id, a: Action, on: Resource)
    requires Kept(s) && !(on.kind == ChannelKind && a == CHANNELS_READ)
    requires p != NO_ID && !OwnsIt(s, view, u, w)
    requires Belongs(s, view, u, w) ==> !LetIn(s, view, u, w, p)
    ensures Check(s, view, u, w, p, a, on) ==
            Verdict(false, Source(NotInProject, Resource(ProjectKind, p), Person(u), Deny))
  {
    LayersInWords(s, view, u, w, p);
    if Belongs(s, view, u, w) { ProjectInWords(s, view, u, w, p, a); }
    DecidedBeforeRules(LayersFor(s, view, u, w, p), a, ChainOf(s, on, u));
  }

  // ------------------------------------------------------------------ a channel's read

  /** The channel is open to the person before its rules: public, or listing them. */
  predicate OpenTo(s: Store, u: Id, c: Id) {
    c in s.channels && (s.channels[c].isPrivate ==> u in s.channels[c].memberIDs)
  }

  /**
   A channel is read by a workspace Owner and by a member it is open to, but for what its rules say; by nobody else.
   With no rule saying anything the source is that it is everyone's, or its members' alone.
   */
  lemma ChannelReadInWords(s: Store, view: Option<Id>, u: Id, w: Id, c: Id)
    requires Kept(s)
    ensures var v, on := ChannelRead(s, view, u, w, c, true), Resource(ChannelKind, c);
            var held := RolesIn(s, view, u, w);
            && (v.allowed <==>
                OwnsIt(s, view, u, w) ||
                (Belongs(s, view, u, w) && OpenTo(s, u, c) && Word(s, on, u, held, CHANNELS_READ, true)))
            && (!Belongs(s, view, u, w) ==>
                  v.source == Source(MemberSource, Resource(WorkspaceKind, w), Person(u), Deny))
            && (Belongs(s, view, u, w) && !OwnsIt(s, view, u, w) && !OpenTo(s, u, c) ==>
                  v.source == Source(ChannelMember, on, Person(u), Deny))
            && (Belongs(s, view, u, w) && !OwnsIt(s, view, u, w) && OpenTo(s, u, c) &&
                Silent(s, on, u, held, CHANNELS_READ) ==>
                  v.source == Source(if s.channels[c].isPrivate then ChannelMember else EveryMember, on, Person(u),
                                     Allow))
  {
    LayersInWords(s, view, u, w, NO_ID);
    var ws, on := LayersFor(s, view, u, w, NO_ID), Resource(ChannelKind, c);
    RulesAreTheWord(ChannelBase(s, u, c), s, on, u, RoleIDs(ws.roles), RolesIn(s, view, u, w), CHANNELS_READ);
  }

  // ------------------------------------------------------------------ answers spread over workspaces

  predicate IsInstanceOwner(s: Store, view: Option<Id>, u: Id) {
    s.ownerWorkspace != NO_ID && OwnsIt(s, view, u, s.ownerWorkspace)
  }

  lemma InstanceOwnerInWords(s: Store, view: Option<Id>, u: Id)
    requires Kept(s)
    ensures var source := InstanceOwner(s, view, u);
            && (source.Some? <==> IsInstanceOwner(s, view, u))
            && (source.Some? ==> exists i: nat ::
                    && FirstOwner(s.members[(s.ownerWorkspace, u)].roles, i)
                    && source.value == Source(OwnerSource, Resource(WorkspaceKind, s.ownerWorkspace),
                                              Role(s.members[(s.ownerWorkspace, u)].roles[i].id), Allow))
  {
    if IsInstanceOwner(s, view, u) {
      var info := s.members[(s.ownerWorkspace, u)];
      SourceRoleNames(info, info.roles, Member);
      var i := AFirstOwner(info.roles);
    }
  }

  lemma {:induction false} AFirstOwner(roles: seq<HeldRole>) returns (i: nat)
    requires exists j :: 0 <= j < |roles| && roles[j].isOwner
    ensures FirstOwner(roles, i)
  {
    if roles[0].isOwner { return 0; }
    var j :| 0 <= j < |roles| && roles[j].isOwner;
    assert roles[1..][j - 1] == roles[j];
    var k := AFirstOwner(roles[1..]);
    assert forall j :: 0 < j < |roles| ==> roles[1..][j - 1] == roles[j];
    i := k + 1;
  }

  /** Some role held in some workspace permits the action. */
  ghost predicate GrantedAnywhere(s: Store, view: Option<Id>, u: Id, a: Action) {
    exists w :: RoleGrants(s, view, u, w, a)
  }

  lemma WorkspacesAreWhereOneBelongs(s: Store, view: Option<Id>, u: Id)
    requires Kept(s)
    ensures forall w :: w in WorkspacesOf(s, view, u) <==> Belongs(s, view, u, w)
  {
    if view.Some? { InAmong(FindOr(s.memberships, u, []), [view.value]); }
    forall w ensures w in WorkspacesOf(s, view, u) <==> Belongs(s, view, u, w) {
      assert w in FindOr(s.memberships, u, []) <==> (w, u) in s.members;
      if (w, u) in s.members { assert (w, u).1 != NO_ID; }
    }
  }

  lemma {:induction false} ListedAcross(layers: seq<Layers>)
    ensures forall r :: r in RoleIDsOf(layers) <==> exists i :: 0 <= i < |layers| && r in RoleIDs(layers[i].roles)
  {
    if layers != [] {
      ListedAcross(layers[1..]);
      forall r ensures r in RoleIDsOf(layers) <==> exists i :: 0 <= i < |layers| && r in RoleIDs(layers[i].roles) {
        if i :| 0 <= i < |layers| && r in RoleIDs(layers[i].roles) {
          if i > 0 { assert r in RoleIDs(layers[1..][i - 1].roles); }
        }
        if i :| 0 <= i < |layers[1..]| && r in RoleIDs(layers[1..][i].roles) {
          assert r in RoleIDs(layers[i + 1].roles);
        }
      }
    }
  }

  lemma EachLayersInWords(s: Store, view: Option<Id>, u: Id, i: nat)
    requires Kept(s) && i < |WorkspacesOf(s, view, u)|
    ensures var w, ws := WorkspacesOf(s, view, u)[i], LayersAcross(s, view, u, WorkspacesOf(s, view, u))[i];
            && Belongs(s, view, u, w)
            && Lists(RoleIDs(ws.roles), RolesIn(s, view, u, w))
            && (forall a :: a in ws.roles.permissions <==> RoleGrants(s, view, u, w, a))
            && (ws.owner <==> OwnsIt(s, view, u, w))
  {
    WorkspacesAreWhereOneBelongs(s, view, u);
    assert WorkspacesOf(s, view, u)[i] in WorkspacesOf(s, view, u);
    LayersInWords(s, view, u, WorkspacesOf(s, view, u)[i], NO_ID);
  }

  lemma WhereOneBelongs(s: Store, view: Option<Id>, u: Id, w: Id) returns (i: nat)
    requires Kept(s) && Belongs(s, view, u, w)
    ensures i < |WorkspacesOf(s, view, u)| && WorkspacesOf(s, view, u)[i] == w
  {
    WorkspacesAreWhereOneBelongs(s, view, u);
    i :| i < |WorkspacesOf(s, view, u)| && WorkspacesOf(s, view, u)[i] == w;
  }

  lemma GrantsAcross(s: Store, view: Option<Id>, u: Id, a: Action)
    requires Kept(s)
    ensures SomeGrants(LayersAcross(s, view, u, WorkspacesOf(s, view, u)), a) <==> GrantedAnywhere(s, view, u, a)
  {
    var layers := LayersAcross(s, view, u, WorkspacesOf(s, view, u));
    if i :| 0 <= i < |layers| && a in layers[i].roles.permissions {
      EachLayersInWords(s, view, u, i);
    }
    if w :| RoleGrants(s, view, u, w, a) {
      var i := WhereOneBelongs(s, view, u, w);
      EachLayersInWords(s, view, u, i);
      assert a in layers[i].roles.permissions;
    }
  }

  lemma RoleAcross(s: Store, view: Option<Id>, u: Id, r: Id)
    requires Kept(s)
    ensures r in RoleIDsOf(LayersAcross(s, view, u, WorkspacesOf(s, view, u))) <==> r in RolesAnywhere(s, view, u)
  {
    var layers := LayersAcross(s, view, u, WorkspacesOf(s, view, u));
    ListedAcross(layers);
    if i :| 0 <= i < |layers| && r in RoleIDs(layers[i].roles) {
      EachLayersInWords(s, view, u, i);
      var w := WorkspacesOf(s, view, u)[i];
      var j :| 0 <= j < |s.members[(w, u)].roles| && s.members[(w, u)].roles[j].id == r;
      assert (w, u) in s.members && (w, u).0 == w && (w, u).1 == u;
    }
    if r in RolesAnywhere(s, view, u) {
      var k, j :| k in s.members && k.1 == u && (view.None? || view.value == k.0) && 0 <= j < |s.members[k].roles| &&
                  s.members[k].roles[j].id == r;
      assert k == (k.0, u) && Belongs(s, view, u, k.0);
      var i := WhereOneBelongs(s, view, u, k.0);
      EachLayersInWords(s, view, u, i);
      assert r in RolesIn(s, view, u, k.0);
    }
  }

  /** Reading a person's workspaces one after another finds their roles and grants wherever they belong. */
  lemma AcrossInWords(s: Store, view: Option<Id>, u: Id, a: Action)
    requires Kept(s)
    ensures var layers := LayersAcross(s, view, u, WorkspacesOf(s, view, u));
            && Lists(RoleIDsOf(layers), RolesAnywhere(s, view, u))
            && AllHeld(s, u, RoleIDsOf(layers))
            && (SomeGrants(layers, a) <==> GrantedAnywhere(s, view, u, a))
  {
    AcrossRolesHeld(s, view, u, WorkspacesOf(s, view, u));
    GrantsAcross(s, view, u, a);
    forall r ensures r in RoleIDsOf(LayersAcross(s, view, u, WorkspacesOf(s, view, u))) <==>
                     r in RolesAnywhere(s, view, u) {
      RoleAcross(s, view, u, r);
    }
  }

  /** A machine is seen by whom its rules say, and one that exists by the instance Owner. */
  ghost predicate Sees(s: Store, view: Option<Id>, u: Id, m: Id) {
    if IsInstanceOwner(s, view, u) then m in s.machineIDs
    else u != NO_ID && Word(s, Resource(MachineKind, m), u, RolesAnywhere(s, view, u), MachinesSee, false)
  }

  /** An action on a machine is held by who sees it, when some role grants it but for what the machine's rules say. */
  ghost predicate HeldOnMachine(s: Store, view: Option<Id>, u: Id, m: Id, a: Action) {
    && Sees(s, view, u, m)
    && (|| IsInstanceOwner(s, view, u) || a == MachinesSee
        || Word(s, Resource(MachineKind, m), u, RolesAnywhere(s, view, u), a, GrantedAnywhere(s, view, u, a)))
  }

  lemma MachineFromWhatIsStored(s: Store, view: Option<Id>, u: Id, m: Id, a: Action)
    requires Kept(s)
    ensures var x := MachineView(s, view, u, m, a, false);
            (x.seen <==> Sees(s, view, u, m)) && (x.held <==> HeldOnMachine(s, view, u, m, a))
  {
    InstanceOwnerInWords(s, view, u);
    if u != NO_ID {
      MachineInWords(s, view, u, m, a);
      AcrossInWords(s, view, u, a);
      var layers := LayersAcross(s, view, u, WorkspacesOf(s, view, u));
      EndsInTheWord(s, Resource(MachineKind, m), u, RoleIDsOf(layers), RolesAnywhere(s, view, u), MachinesSee, false);
      EndsInTheWord(s, Resource(MachineKind, m), u, RoleIDsOf(layers), RolesAnywhere(s, view, u), a,
                    SomeGrants(layers, a));
    }
  }

  lemma EndsInTheWord(s: Store, on: Resource, u: Id, ids: seq<Id>, held: set<Id>, a: Action, outer: bool)
    requires Consistent(s) && Lists(ids, held) && AllHeld(s, u, ids)
    ensures Ends(outer, RulesOn(s, on, u), ids, a) <==> Word(s, on, u, held, a, outer)
    ensures !outer ==> (Say(RulesOn(s, on, u), ids, a) == Allow <==> Word(s, on, u, held, a, false))
  {
    var v := Verdict(outer, NO_SOURCE);
    RulesEnd(v, RulesOn(s, on, u), ids, a);
    RulesAreTheWord(v, s, on, u, ids, held, a);
  }

  /** The action belongs to the instance. */
  predicate OfTheInstance(a: Action) {
    a == MachinesSee || (a.Grid? && a.area == InstanceArea)
  }

  ghost predicate SettledByAnOwner(s: Store, view: Option<Id>, u: Id, area: Id, a: Action) {
    exists w :: SettlesBy(s, view, u, w, area, a)
  }

  ghost predicate HeldOnArea(s: Store, view: Option<Id>, u: Id, area: Id, a: Action) {
    || SettledByAnOwner(s, view, u, area, a)
    || Word(s, Resource(AreaKind, area), u, RolesAnywhere(s, view, u), a, GrantedAnywhere(s, view, u, a))
  }

  /** An Owner of a workspace settles the action of an area by right: the instance's, or without one any of theirs. */
  predicate SettlesBy(s: Store, view: Option<Id>, u: Id, w: Id, area: Id, a: Action) {
    OwnsIt(s, view, u, w) && (w == s.ownerWorkspace || (area == NO_ID && !OfTheInstance(a)))
  }

  lemma SettlesInWords(s: Store, view: Option<Id>, u: Id, w: Id, area: Id, a: Action)
    requires Kept(s)
    ensures LayersFor(s, view, u, w, NO_ID).owner && OwnerHolds(s, w, area, a) <==> SettlesBy(s, view, u, w, area, a)
  {
    LayersInWords(s, view, u, w, NO_ID);
  }

  lemma SettlingInWords(s: Store, view: Option<Id>, u: Id, area: Id, a: Action)
    requires Kept(s)
    ensures SomeOwnerSettles(s, view, u, WorkspacesOf(s, view, u), area, a) <==> SettledByAnOwner(s, view, u, area, a)
  {
    forall w ensures LayersFor(s, view, u, w, NO_ID).owner && OwnerHolds(s, w, area, a) <==>
                     SettlesBy(s, view, u, w, area, a) {
      SettlesInWords(s, view, u, w, area, a);
    }
    WorkspacesAreWhereOneBelongs(s, view, u);
  }

  lemma AreaFromWhatIsStored(s: Store, view: Option<Id>, u: Id, area: Id, a: Action)
    requires Kept(s)
    ensures DecideArea(s, view, u, area, a, true).allowed <==> HeldOnArea(s, view, u, area, a)
  {
    var layers := LayersAcross(s, view, u, WorkspacesOf(s, view, u));
    AreaInWords(s, view, u, area, a);
    AcrossInWords(s, view, u, a);
    SettlingInWords(s, view, u, area, a);
    EndsInTheWord(s, Resource(AreaKind, area), u, RoleIDsOf(layers), RolesAnywhere(s, view, u), a,
                  SomeGrants(layers, a));
    NothingOnNoEntity(s, AreaKind, u, RolesAnywhere(s, view, u), a, GrantedAnywhere(s, view, u, a));
  }

  // ------------------------------------------------------------------ what a read of an entity's rules holds

  /** `q` is the stored rule on the entity for a role. */
  predicate IsRoleRule(s: Store, on: Resource, r: Id, q: Rule) {
    Key(on, Role(r)) in s.rules && q ==
                                   Rule(on, Role(r), s.rules[Key(on, Role(r))].allow, s.rules[Key(on, Role(r))].deny)
  }

  lemma {:induction false} CollectedAre(s: Store, on: Resource, order: seq<Id>, q: Rule)
    ensures q in Collect(s, on, order) <==> exists r :: r in order && IsRoleRule(s, on, r, q)
  {
    if order != [] {
      CollectedAre(s, on, order[1..], q);
      assert forall r :: r in order <==> r == order[0] || r in order[1..];
      var k := Key(on, Role(order[0]));
      if k in s.rules {
        var head := RuleAt(s, k).value;
        assert Collect(s, on, order) == [head] + Collect(s, on, order[1..]);
        assert IsRoleRule(s, on, order[0], q) <==> q == head;
      }
    }
  }

  lemma {:induction false} HeldAre(s: Store, u: Id, order: seq<Id>, r: Id)
    ensures r in HeldBy(s, u, order) <==> r in order && HoldsSomewhere(s, u, r)
  {
    if order != [] { HeldAre(s, u, order[1..], r); }
  }

  lemma HeldSomewhereInWords(s: Store, u: Id, r: Id)
    requires Kept(s)
    ensures HoldsSomewhere(s, u, r) <==> r in RolesAnywhere(s, None, u)
  {
    if k :| k in s.members && k.1 == u && r in RoleIDs(s.members[k]) {
      RecordLists(s.members[k]);
    }
    if r in RolesAnywhere(s, None, u) {
      var k, i :| k in s.members && k.1 == u && 0 <= i < |s.members[k].roles| && s.members[k].roles[i].id == r;
      RecordLists(s.members[k]);
      assert r in RoleIDs(s.members[k]);
    }
  }

  /** A read of an entity's rules holds the one naming the person and those of the roles they hold, and no other. */
  lemma ReadsWhatReaches(s: Store, on: Resource, u: Id, q: Rule)
    requires Kept(s)
    ensures var read, k := RulesOn(s, on, u), Key(on, Person(u));
            && (read.Some? && read.value.person == Some(q) <==>
                k in s.rules && q == Rule(on, Person(u), s.rules[k].allow, s.rules[k].deny))
            && (read.Some? && q in read.value.roles <==>
                exists r :: r in RolesAnywhere(s, None, u) && r in s.roles && IsRoleRule(s, on, r, q))
  {
    var held := HeldBy(s, u, s.roleOrder);
    CollectedAre(s, on, held, q);
    forall r ensures r in held <==> r in RolesAnywhere(s, None, u) && r in s.roles {
      HeldAre(s, u, s.roleOrder, r);
      HeldSomewhereInWords(s, u, r);
    }
  }

  // ------------------------------------------------------------------ what decided an answer spread over workspaces

  /**
   The source is a role of a workspace where some role grants the action: an Owner's role, else the first granting.
   */
  ghost predicate GrantNamed(s: Store, view: Option<Id>, u: Id, a: Action, src: Source) {
    exists w, i: nat ::
      && RoleGrants(s, view, u, w, a) && i < |s.members[(w, u)].roles|
      && src == Source(RoleSource, Resource(WorkspaceKind, w), Role(s.members[(w, u)].roles[i].id), Allow)
      && if OwnsIt(s, view, u, w) then FirstOwner(s.members[(w, u)].roles, i)
         else FirstGranting(s.members[(w, u)].roles, i, a)
  }

  lemma GrantedNames(s: Store, view: Option<Id>, u: Id, w: Id, a: Action)
    requires Kept(s) && RoleGrants(s, view, u, w, a)
    ensures GrantNamed(s, view, u, a, Granted(LayersFor(s, view, u, w, NO_ID), a).source)
  {
    LayersInWords(s, view, u, w, NO_ID);
    var info := s.members[(w, u)];
    SourceRoleNames(info, info.roles, a);
    assert |RoleIDs(info)| == |info.roles|;
    if OwnsIt(s, view, u, w) {
      var i := AFirstOwner(info.roles);
    } else {
      var i := AFirstGrants(info.roles, a);
    }
  }

  /** Spread over a person's workspaces, the roles' answer is a grant somewhere, or no role's. */
  lemma SpreadInWords(s: Store, view: Option<Id>, u: Id, a: Action)
    requires Kept(s)
    ensures var v := Spread(NoRoleAnswer(u), LayersAcross(s, view, u, WorkspacesOf(s, view, u)), a);
            && (v.allowed <==> GrantedAnywhere(s, view, u, a))
            && (v.allowed ==> GrantNamed(s, view, u, a, v.source))
            && (!v.allowed ==> v.source.kind == RoleSource)
  {
    var layers, none := LayersAcross(s, view, u, WorkspacesOf(s, view, u)), NoRoleAnswer(u);
    GrantsAcross(s, view, u, a);
    SpreadSays(none, layers, a);
    SpreadNames(none, layers, a);
    if i :| 0 <= i < |layers| && Spread(none, layers, a) == Granted(layers[i], a) {
      EachLayersInWords(s, view, u, i);
      LayersInWords(s, view, u, WorkspacesOf(s, view, u)[i], NO_ID);
      if a in layers[i].roles.permissions { GrantedNames(s, view, u, WorkspacesOf(s, view, u)[i], a); }
    }
  }

  /**
   Why a machine answers as it does for who is not the instance Owner, when its rules do not say: unseen, that they are
   not on it; seen, the role that grants the action.
   */
  lemma MachineSourceInWords(s: Store, view: Option<Id>, u: Id, m: Id, a: Action)
    requires Kept(s) && u != NO_ID && !IsInstanceOwner(s, view, u)
    ensures var x, on := MachineView(s, view, u, m, a, false), Resource(MachineKind, m);
            var held := RolesAnywhere(s, view, u);
            && (Silent(s, on, u, held, MachinesSee) ==> x.source == Source(NotOnMachine, on, Person(u), Deny))
            && (x.seen && a != MachinesSee && Silent(s, on, u, held, a) ==>
                  (x.held ==> GrantNamed(s, view, u, a, x.source)) && x.source.kind == RoleSource)
  {
    InstanceOwnerInWords(s, view, u);
    AcrossInWords(s, view, u, a);
    SpreadInWords(s, view, u, a);
    var on, held := Resource(MachineKind, m), RolesAnywhere(s, view, u);
    var layers := LayersAcross(s, view, u, WorkspacesOf(s, view, u));
    var notOn := Verdict(false, SourceOf(NotOnMachine, on, Person(u), false));
    RulesAreTheWord(notOn, s, on, u, RoleIDsOf(layers), held, MachinesSee);
    RulesAreTheWord(Spread(NoRoleAnswer(u), layers, a), s, on, u, RoleIDsOf(layers), held, a);
  }

  /** Nobody is on no machine; the instance Owner holds everything on one that exists, by that role. */
  lemma MachineByRight(s: Store, view: Option<Id>, u: Id, m: Id, a: Action)
    requires Kept(s) && (u == NO_ID || IsInstanceOwner(s, view, u))
    ensures var x := MachineView(s, view, u, m, a, false);
            if u == NO_ID || m !in s.machineIDs
            then x == MachineAnswer(false, false, Source(NotOnMachine, Resource(MachineKind, m), Person(u), Deny))
            else
              && x.seen && x.held && x.source.kind == OwnerSource && x.source.state == Allow
              && x.source.on == Resource(WorkspaceKind, s.ownerWorkspace)
  {
    InstanceOwnerInWords(s, view, u);
  }

  /** Why an area answers as it does when no Owner settles the action and its rules do not say. */
  lemma AreaSourceInWords(s: Store, view: Option<Id>, u: Id, area: Id, a: Action)
    requires Kept(s) && !SettledByAnOwner(s, view, u, area, a)
    requires Silent(s, Resource(AreaKind, area), u, RolesAnywhere(s, view, u), a)
    ensures var v := DecideArea(s, view, u, area, a, true);
            && (v.allowed ==> GrantNamed(s, view, u, a, v.source))
            && (!v.allowed ==> v.source.kind == if exists w :: OwnsIt(s, view, u, w) then InstanceOwnerSource
                                                else RoleSource)
  {
    var workspaces, start := WorkspacesOf(s, view, u), Scanning(NoRoleAnswer(u), [], false);
    var layers, held := LayersAcross(s, view, u, workspaces), RolesAnywhere(s, view, u);
    SettlingInWords(s, view, u, area, a);
    ScanInWords(s, view, u, workspaces, area, a, start);
    ScanIsSpread(s, view, u, workspaces, area, a, start);
    ScanOwns(s, view, u, workspaces, area, a, start);
    OwningInWords(s, view, u);
    AcrossInWords(s, view, u, a);
    SpreadInWords(s, view, u, a);
    var end := Scan(s, view, u, workspaces, area, a, start);
    var v := if end.ownsAnother && !end.v.allowed
    then end.v.(source := SourceOf(InstanceOwnerSource, Resource(AreaKind, area), Person(u), false))
    else end.v;
    assert [] + RoleIDsOf(layers) == RoleIDsOf(layers);
    RulesAreTheWord(v, s, Resource(AreaKind, area), u, RoleIDsOf(layers), held, a);
  }

  lemma OwningInWords(s: Store, view: Option<Id>, u: Id)
    requires Kept(s)
    ensures SomeOwner(LayersAcross(s, view, u, WorkspacesOf(s, view, u))) <==> exists w :: OwnsIt(s, view, u, w)
  {
    var layers := LayersAcross(s, view, u, WorkspacesOf(s, view, u));
    if i :| 0 <= i < |layers| && layers[i].owner {
      EachLayersInWords(s, view, u, i);
    }
    if w :| OwnsIt(s, view, u, w) {
      var i := WhereOneBelongs(s, view, u, w);
      EachLayersInWords(s, view, u, i);
      assert layers[i].owner;
    }
  }

  // ------------------------------------------------------------------ an action on any entity

  /** The workspace an entity lives in, empty when there is no such entity. */
  function HomeOf(s: Store, on: Resource): Id {
    match on.kind
    case ProjectKind => if on.id in s.projects then s.projects[on.id] else NO_ID
    case DocKind => if on.id in s.docs then s.docs[on.id].workspaceID else NO_ID
    case FolderKind => if on.id in s.folders then s.folders[on.id].workspaceID else NO_ID
    case StackKind => if on.id in s.stacks then s.stacks[on.id].workspaceID else NO_ID
    case PlayKind => if on.id in s.plays then s.plays[on.id] else NO_ID
    case ChannelKind => if on.id in s.channels then s.channels[on.id].workspaceID else NO_ID
    case _ => NO_ID
  }

  /** The project an entity lies in, or is. */
  function ProjectAround(s: Store, on: Resource): Id {
    match on.kind
    case ProjectKind => on.id
    case DocKind => if on.id in s.docs then s.docs[on.id].projectID else NO_ID
    case FolderKind => if on.id in s.folders then s.folders[on.id].projectID else NO_ID
    case StackKind => if on.id in s.stacks then s.stacks[on.id].projectID else NO_ID
    case _ => NO_ID
  }

  /** Whether someone holds an action on an entity, whatever its kind. */
  ghost predicate HeldOn(s: Store, view: Option<Id>, u: Id, on: Resource, a: Action) {
    var w := HomeOf(s, on);
    if on.kind == AreaKind then HeldOnArea(s, view, u, on.id, a)
    else if on.kind == MachineKind then HeldOnMachine(s, view, u, on.id, a)
    else if on.kind == ChannelKind && a == CHANNELS_READ then
      OwnsIt(s, view, u, w) ||
      (Belongs(s, view, u, w) && OpenTo(s, u, on.id) && Word(s, on, u, RolesIn(s, view, u, w), a, true))
    else u != NO_ID && HeldThere(s, view, u, w, ProjectAround(s, on), a, on)
  }
}
